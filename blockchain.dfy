/**
 * The holder aggregator of `BlockchainConnection.getHolders`: it asks the ERC-721
 * `ownerOf` of token ids 1, 2, ... up to `min(maxTokens, 10000)`, stops at the first
 * lookup that fails, counts tokens per owner in an insertion-ordered map, and returns
 * the entries stably sorted by descending count.
 */
module Blockchain {
  import opened Wrappers

  type Address = string

  datatype Holder = Holder(address: Address, tokenCount: nat)

  /** The hard ceiling on the number of token ids probed. */
  const MaxScan: int := 10000

  /** `Math.min(maxTokens, 10000)`. */
  function ScanLimit(maxTokens: int): int {
    if maxTokens < MaxScan then maxTokens else MaxScan
  }

  /**
   * The owners of ids `i, i + 1, ...` up to `limit`, as far as the lookups succeed:
   * the first failing lookup ends the scan.
   */
  function ScanFrom(ownerOf: nat -> Option<Address>, i: nat, limit: int): seq<Address>
    decreases limit - i
  {
    if limit < i then []
    else
      match ownerOf(i)
      case None => []
      case Some(owner) => [owner] + ScanFrom(ownerOf, i + 1, limit)
  }

  /** The owners `getHolders` sees: those of ids 1 up to the first failure or the limit. */
  function Scanned(ownerOf: nat -> Option<Address>, maxTokens: int): seq<Address> {
    ScanFrom(ownerOf, 1, ScanLimit(maxTokens))
  }

  /**
   * The scan from id `i` holds the owner of every id it covers, covers no id past `limit`,
   * and when it ends before `limit` it is because the lookup of the next id failed.
   */
  lemma {:induction false} ScanFromFacts(ownerOf: nat -> Option<Address>, i: nat, limit: int)
    ensures var owners := ScanFrom(ownerOf, i, limit);
      && |owners| <= (if limit < i then 0 else limit - i + 1)
      && (forall k :: 0 <= k < |owners| ==> ownerOf(i + k) == Some(owners[k]))
      && (i + |owners| <= limit ==> ownerOf(i + |owners|) == None)
    decreases limit - i
  {
    if i <= limit && ownerOf(i).Some? {
      ScanFromFacts(ownerOf, i + 1, limit);
    }
  }

  /** The ids 1, 2, ..., n in increasing order. */
  function Ids(n: nat): seq<nat> {
    seq(n, k => k + 1)
  }

  // ---- the JavaScript `Map` of owner to count, kept in insertion order ----

  function Addresses(entries: seq<Holder>): seq<Address> {
    seq(|entries|, i requires 0 <= i < |entries| => entries[i].address)
  }

  /** `map.get(a)`: the value of the entry for `a`, if any. */
  function MapGet(entries: seq<Holder>, a: Address): Option<nat> {
    if entries == [] then None
    else if entries[0].address == a then Some(entries[0].tokenCount)
    else MapGet(entries[1..], a)
  }

  /** `map.set(a, v)`: the entry for `a` takes the value `v` in place, or a new entry is appended. */
  function MapSet(entries: seq<Holder>, a: Address, v: nat): seq<Holder> {
    if entries == [] then [Holder(a, v)]
    else if entries[0].address == a then [Holder(a, v)] + entries[1..]
    else [entries[0]] + MapSet(entries[1..], a, v)
  }

  /** The map after counting the owners `os` one after another: `set(o, (get(o) || 0) + 1)`. */
  function Tally(os: seq<Address>): seq<Holder> {
    if os == [] then []
    else
      var entries, o := Tally(os[..|os| - 1]), os[|os| - 1];
      MapSet(entries, o, MapGet(entries, o).GetOr(0) + 1)
  }

  /** The distinct elements of `os` in order of first occurrence. */
  function FirstSeen(os: seq<Address>): seq<Address> {
    if os == [] then []
    else
      var init := os[..|os| - 1];
      if os[|os| - 1] in init then FirstSeen(init) else FirstSeen(init) + [os[|os| - 1]]
  }

  function Sum(entries: seq<Holder>): nat {
    if entries == [] then 0 else entries[0].tokenCount + Sum(entries[1..])
  }

  predicate Unique(s: seq<Address>) {
    forall i, j :: 0 <= i < j < |s| ==> s[i] != s[j]
  }

  predicate AllPositive(entries: seq<Holder>) {
    forall h | h in entries :: h.tokenCount >= 1
  }

  // ---- `Array.prototype.sort((a, b) => b.tokenCount - a.tokenCount)`, which is stable ----

  /** Places `h` before the first entry whose count is not larger, that is after every larger one. */
  function Insert(h: Holder, sorted: seq<Holder>): seq<Holder> {
    if sorted == [] || h.tokenCount >= sorted[0].tokenCount then [h] + sorted
    else [sorted[0]] + Insert(h, sorted[1..])
  }

  /** A stable sort by descending `tokenCount`. */
  function SortByCountDesc(entries: seq<Holder>): seq<Holder> {
    if entries == [] then [] else Insert(entries[0], SortByCountDesc(entries[1..]))
  }

  predicate SortedDesc(s: seq<Holder>) {
    forall i, j :: 0 <= i < j < |s| ==> s[i].tokenCount >= s[j].tokenCount
  }

  /** The entries whose count is `c`, in their order. */
  function WithCount(s: seq<Holder>, c: nat): seq<Holder> {
    if s == [] then []
    else (if s[0].tokenCount == c then [s[0]] else []) + WithCount(s[1..], c)
  }

  /**
   * `getHolders`: when the contract can be obtained, ids 1.. are queried in increasing order
   * up to the first failure (or the limit), and the result is the stably sorted tally of the
   * owners found; otherwise the result is empty. `queried` records the ids passed to `ownerOf`.
   */
  method GetHolders(contractAvailable: bool, ownerOf: nat -> Option<Address>, maxTokens: int)
    returns (holders: seq<Holder>, ghost queried: seq<nat>)
    ensures !contractAvailable ==> holders == [] && queried == []
    ensures contractAvailable ==>
      var owners := Scanned(ownerOf, maxTokens);
      && holders == SortByCountDesc(Tally(owners))
      && queried == Ids(|queried|)
      && |queried| == (if |owners| < ScanLimit(maxTokens) then |owners| + 1 else |owners|)
    ensures SortedDesc(holders) && Unique(Addresses(holders)) && AllPositive(holders)
    ensures contractAvailable ==> Sum(holders) == |Scanned(ownerOf, maxTokens)|
    ensures contractAvailable ==>
      forall h | h in holders :: h.tokenCount == multiset(Scanned(ownerOf, maxTokens))[h.address]
  {
    if !contractAvailable {
      return [], [];
    }
    var entries;
    entries, queried := CountOwners(ownerOf, ScanLimit(maxTokens));
    holders := SortByCountDesc(entries);
    HolderFacts(Scanned(ownerOf, maxTokens));
    HolderCounts(Scanned(ownerOf, maxTokens));
  }

  /**
   * The counting loop of `getHolders`: ids 1..limit are looked up in order and the first
   * failure ends the scan; each owner found has its count incremented in the map.
   */
  method CountOwners(ownerOf: nat -> Option<Address>, limit: int)
    returns (entries: seq<Holder>, ghost queried: seq<nat>)
    ensures entries == Tally(ScanFrom(ownerOf, 1, limit))
    ensures queried == Ids(|queried|)
    ensures var n := |ScanFrom(ownerOf, 1, limit)|;
      |queried| == if n < limit then n + 1 else n
  {
    entries := [];
    ghost var owners: seq<Address> := [];
    queried := [];
    var i := 1;
    while i <= limit
      invariant 1 <= i && (i <= limit + 1 || i == 1)
      invariant |owners| == i - 1 && queried == Ids(i - 1)
      invariant ScanFrom(ownerOf, 1, limit) == owners + ScanFrom(ownerOf, i, limit)
      invariant entries == Tally(owners)
    {
      IdsStep(i - 1);
      queried := queried + [i];
      var result := ownerOf(i);
      ScanStep(ownerOf, i, limit, owners);
      if result.None? {
        break;
      }
      var owner := result.value;
      TallyStep(owners, owner);
      var currentCount := MapGet(entries, owner).GetOr(0);
      entries := MapSet(entries, owner, currentCount + 1);
      owners := owners + [owner];
      i := i + 1;
    }
    if i > limit {
      assert ScanFrom(ownerOf, i, limit) == [];
    }
    assert owners + [] == owners;
  }

  lemma ScanStep(ownerOf: nat -> Option<Address>, i: nat, limit: int, owners: seq<Address>)
    requires i <= limit
    requires ScanFrom(ownerOf, 1, limit) == owners + ScanFrom(ownerOf, i, limit)
    ensures ownerOf(i).None? ==> ScanFrom(ownerOf, i, limit) == []
    ensures ownerOf(i).Some? ==>
      ScanFrom(ownerOf, 1, limit) == (owners + [ownerOf(i).value]) + ScanFrom(ownerOf, i + 1, limit)
  {
    if ownerOf(i).Some? {
      assert owners + ([ownerOf(i).value] + ScanFrom(ownerOf, i + 1, limit))
        == (owners + [ownerOf(i).value]) + ScanFrom(ownerOf, i + 1, limit);
    }
  }

  lemma IdsStep(n: nat)
    ensures Ids(n + 1) == Ids(n) + [n + 1]
  {
  }

  /** One more owner counted: `Tally` of the longer list is one `set` after the shorter one. */
  lemma TallyStep(os: seq<Address>, o: Address)
    ensures Tally(os + [o]) == MapSet(Tally(os), o, MapGet(Tally(os), o).GetOr(0) + 1)
  {
    assert (os + [o])[..|os|] == os;
  }

  // ---- the map ----

  lemma AddressesCons(entries: seq<Holder>)
    requires entries != []
    ensures Addresses(entries) == [entries[0].address] + Addresses(entries[1..])
  {
  }

  /** `get` finds exactly the keys of the map. */
  lemma {:induction false} MapGetPresent(entries: seq<Holder>, a: Address)
    ensures MapGet(entries, a).Some? <==> a in Addresses(entries)
  {
    if entries != [] {
      AddressesCons(entries);
      MapGetPresent(entries[1..], a);
    }
  }

  /** `set` keeps the keys and their order, appending a new key at the end. */
  lemma {:induction false} MapSetAddresses(entries: seq<Holder>, a: Address, v: nat)
    ensures Addresses(MapSet(entries, a, v)) ==
      if a in Addresses(entries) then Addresses(entries) else Addresses(entries) + [a]
  {
    if entries != [] {
      AddressesCons(entries);
      AddressesCons(MapSet(entries, a, v));
      if entries[0].address != a {
        MapSetAddresses(entries[1..], a, v);
      } else {
        assert MapSet(entries, a, v)[1..] == entries[1..];
      }
    }
  }

  lemma {:induction false} MapGetSet(entries: seq<Holder>, a: Address, v: nat, b: Address)
    ensures MapGet(MapSet(entries, a, v), b) == if b == a then Some(v) else MapGet(entries, b)
  {
    if entries != [] && entries[0].address != a {
      MapGetSet(entries[1..], a, v, b);
    }
  }

  /** Setting the value of `a` changes the total by the difference between the new value and the old. */
  lemma {:induction false} MapSetSum(entries: seq<Holder>, a: Address, v: nat)
    ensures Sum(MapSet(entries, a, v)) + MapGet(entries, a).GetOr(0) == Sum(entries) + v
  {
    if entries != [] && entries[0].address != a {
      MapSetSum(entries[1..], a, v);
    } else if entries != [] {
      assert MapSet(entries, a, v)[1..] == entries[1..];
    }
  }

  lemma {:induction false} MapSetPositive(entries: seq<Holder>, a: Address, v: nat)
    requires AllPositive(entries) && v >= 1
    ensures AllPositive(MapSet(entries, a, v))
  {
    if entries != [] && entries[0].address != a {
      MapSetPositive(entries[1..], a, v);
    }
  }

  lemma UniqueAppend(s: seq<Address>, a: Address)
    requires Unique(s) && a !in s
    ensures Unique(s + [a])
  {
  }

  /** `FirstSeen` lists every owner once, and only owners. */
  lemma {:induction false} FirstSeenFacts(os: seq<Address>)
    ensures Unique(FirstSeen(os))
    ensures forall a :: a in FirstSeen(os) <==> a in os
  {
    if os != [] {
      var init, o := os[..|os| - 1], os[|os| - 1];
      FirstSeenFacts(init);
      assert os == init + [o];
      if o !in init {
        UniqueAppend(FirstSeen(init), o);
      }
    }
  }

  /** The keys of the map after counting `os` are the owners in order of first encounter. */
  lemma {:induction false} TallyAddresses(os: seq<Address>)
    ensures Addresses(Tally(os)) == FirstSeen(os)
  {
    if os != [] {
      var init, o := os[..|os| - 1], os[|os| - 1];
      var entries := Tally(init);
      TallyAddresses(init);
      FirstSeenFacts(init);
      MapSetAddresses(entries, o, MapGet(entries, o).GetOr(0) + 1);
    }
  }

  /** Each owner's entry holds the number of tokens it owns among the lookups. */
  lemma {:induction false} TallyCounts(os: seq<Address>, a: Address)
    ensures MapGet(Tally(os), a).GetOr(0) == multiset(os)[a]
  {
    if os != [] {
      var init, o := os[..|os| - 1], os[|os| - 1];
      assert os == init + [o];
      var entries := Tally(init);
      TallyCounts(init, a);
      TallyCounts(init, o);
      MapGetSet(entries, o, MapGet(entries, o).GetOr(0) + 1, a);
    }
  }

  /** Every count in the map is at least 1, and the counts add up to the number of lookups. */
  lemma {:induction false} TallySum(os: seq<Address>)
    ensures AllPositive(Tally(os))
    ensures Sum(Tally(os)) == |os|
  {
    if os != [] {
      var init, o := os[..|os| - 1], os[|os| - 1];
      var entries := Tally(init);
      var v := MapGet(entries, o).GetOr(0) + 1;
      TallySum(init);
      MapSetPositive(entries, o, v);
      MapSetSum(entries, o, v);
    }
  }

  // ---- the sort ----

  /** Insertion adds exactly the one entry. */
  lemma {:induction false} InsertPerm(h: Holder, s: seq<Holder>)
    ensures multiset(Insert(h, s)) == multiset(s) + multiset{h}
  {
    if s != [] && h.tokenCount < s[0].tokenCount {
      InsertPerm(h, s[1..]);
      assert s == [s[0]] + s[1..];
    }
  }

  predicate AtMost(s: seq<Holder>, bound: nat) {
    forall i | 0 <= i < |s| :: s[i].tokenCount <= bound
  }

  lemma {:induction false} InsertAtMost(h: Holder, s: seq<Holder>, bound: nat)
    requires AtMost(s, bound) && h.tokenCount <= bound
    ensures AtMost(Insert(h, s), bound)
  {
    if s != [] && h.tokenCount < s[0].tokenCount {
      InsertAtMost(h, s[1..], bound);
      assert Insert(h, s) == [s[0]] + Insert(h, s[1..]);
    }
  }

  lemma SortedCons(x: Holder, r: seq<Holder>)
    requires SortedDesc(r) && AtMost(r, x.tokenCount)
    ensures SortedDesc([x] + r)
  {
    forall i, j | 0 <= i < j < |[x] + r| ensures ([x] + r)[i].tokenCount >= ([x] + r)[j].tokenCount {
      assert ([x] + r)[j] == r[j - 1];
      if i > 0 {
        assert ([x] + r)[i] == r[i - 1];
      }
    }
  }

  /** Insertion into a sorted sequence keeps it sorted. */
  lemma {:induction false} InsertSorted(h: Holder, s: seq<Holder>)
    requires SortedDesc(s)
    ensures SortedDesc(Insert(h, s))
  {
    if s == [] || h.tokenCount >= s[0].tokenCount {
      SortedCons(h, s);
    } else {
      InsertSorted(h, s[1..]);
      InsertAtMost(h, s[1..], s[0].tokenCount);
      SortedCons(s[0], Insert(h, s[1..]));
    }
  }

  lemma {:induction false} InsertSum(h: Holder, s: seq<Holder>)
    ensures Sum(Insert(h, s)) == h.tokenCount + Sum(s)
  {
    if s != [] && h.tokenCount < s[0].tokenCount {
      InsertSum(h, s[1..]);
      assert ([s[0]] + Insert(h, s[1..]))[1..] == Insert(h, s[1..]);
    } else if s != [] {
      assert ([h] + s)[1..] == s;
    }
  }

  lemma {:induction false} InsertStable(h: Holder, s: seq<Holder>, c: nat)
    requires SortedDesc(s)
    ensures WithCount(Insert(h, s), c) == (if h.tokenCount == c then [h] else []) + WithCount(s, c)
  {
    if s != [] && h.tokenCount < s[0].tokenCount {
      InsertStable(h, s[1..], c);
      assert ([s[0]] + Insert(h, s[1..]))[1..] == Insert(h, s[1..]);
    } else if s != [] {
      assert ([h] + s)[1..] == s;
    }
  }

  /**
   * The sort orders by non-increasing count, is a permutation, keeps the total, and is
   * stable: the entries of any one count keep their relative order.
   */
  lemma {:induction false} SortFacts(s: seq<Holder>)
    ensures SortedDesc(SortByCountDesc(s))
    ensures multiset(SortByCountDesc(s)) == multiset(s)
    ensures Sum(SortByCountDesc(s)) == Sum(s)
    ensures forall c :: WithCount(SortByCountDesc(s), c) == WithCount(s, c)
  {
    if s != [] {
      var sorted := SortByCountDesc(s[1..]);
      SortFacts(s[1..]);
      InsertSorted(s[0], sorted);
      InsertPerm(s[0], sorted);
      InsertSum(s[0], sorted);
      forall c ensures WithCount(SortByCountDesc(s), c) == WithCount(s, c) {
        InsertStable(s[0], sorted, c);
      }
      assert s == [s[0]] + s[1..];
    }
  }

  lemma UniqueCons(a: Address, s: seq<Address>)
    ensures Unique([a] + s) <==> a !in s && Unique(s)
  {
    if a !in s && Unique(s) {
      forall i, j | 0 <= i < j < |[a] + s| ensures ([a] + s)[i] != ([a] + s)[j] {
        if i == 0 {
          assert ([a] + s)[j] == s[j - 1];
        }
      }
    }
    if Unique([a] + s) {
      forall k | 0 <= k < |s| ensures s[k] != a {
        assert ([a] + s)[0] == a && ([a] + s)[k + 1] == s[k];
      }
      forall i, j | 0 <= i < j < |s| ensures s[i] != s[j] {
        assert ([a] + s)[i + 1] == s[i] && ([a] + s)[j + 1] == s[j];
      }
    }
  }

  /** Inserting an entry whose address is new keeps addresses unique and adds just that address. */
  lemma {:induction false} InsertUnique(h: Holder, s: seq<Holder>)
    requires Unique(Addresses(s)) && h.address !in Addresses(s)
    ensures Unique(Addresses(Insert(h, s)))
    ensures forall a :: a in Addresses(Insert(h, s)) <==> a == h.address || a in Addresses(s)
  {
    if s == [] || h.tokenCount >= s[0].tokenCount {
      assert Addresses(Insert(h, s)) == [h.address] + Addresses(s);
      UniqueCons(h.address, Addresses(s));
    } else {
      var r := Insert(h, s[1..]);
      AddressesCons(s);
      UniqueCons(s[0].address, Addresses(s[1..]));
      InsertUnique(h, s[1..]);
      assert Addresses(Insert(h, s)) == [s[0].address] + Addresses(r);
      UniqueCons(s[0].address, Addresses(r));
    }
  }

  /** Sorting keeps the set of addresses and their uniqueness. */
  lemma {:induction false} SortUnique(s: seq<Holder>)
    requires Unique(Addresses(s))
    ensures Unique(Addresses(SortByCountDesc(s)))
    ensures forall a :: a in Addresses(SortByCountDesc(s)) <==> a in Addresses(s)
  {
    if s != [] {
      AddressesCons(s);
      UniqueCons(s[0].address, Addresses(s[1..]));
      SortUnique(s[1..]);
      InsertUnique(s[0], SortByCountDesc(s[1..]));
    }
  }

  /** What `getHolders` promises about the holders it returns for the owners `os` it found. */
  lemma HolderFacts(os: seq<Address>)
    ensures var holders := SortByCountDesc(Tally(os));
      && SortedDesc(holders)
      && Unique(Addresses(holders))
      && AllPositive(holders)
      && Sum(holders) == |os|
      && forall c :: WithCount(holders, c) == WithCount(Tally(os), c)
  {
    var entries := Tally(os);
    TallyAddresses(os);
    FirstSeenFacts(os);
    TallySum(os);
    SortFacts(entries);
    SortUnique(entries);
    forall h | h in SortByCountDesc(entries) ensures h.tokenCount >= 1 {
      assert h in multiset(SortByCountDesc(entries));
    }
  }
  /** In a map whose keys are unique, `get` of an entry's key finds that entry's value. */
  lemma {:induction false} MapGetUnique(entries: seq<Holder>, i: nat)
    requires i < |entries| && Unique(Addresses(entries))
    ensures MapGet(entries, entries[i].address) == Some(entries[i].tokenCount)
  {
    if i > 0 {
      AddressesCons(entries);
      UniqueCons(entries[0].address, Addresses(entries[1..]));
      assert Addresses(entries)[0] != Addresses(entries)[i];
      MapGetUnique(entries[1..], i - 1);
    }
  }

  /**
   * Every holder returned for the owners `os` carries exactly the number of ids `os`
   * attributes to its address, and every owner in `os` has a holder entry.
   */
  lemma HolderCounts(os: seq<Address>)
    ensures var holders := SortByCountDesc(Tally(os));
      && (forall h | h in holders :: h.tokenCount == multiset(os)[h.address])
      && (forall a | a in os :: a in Addresses(holders))
  {
    var entries := Tally(os);
    var holders := SortByCountDesc(entries);
    TallyAddresses(os);
    FirstSeenFacts(os);
    SortFacts(entries);
    SortUnique(entries);
    forall h | h in holders ensures h.tokenCount == multiset(os)[h.address] {
      assert h in multiset(holders);
      var i :| 0 <= i < |entries| && entries[i] == h;
      MapGetUnique(entries, i);
      TallyCounts(os, h.address);
    }
  }
}
