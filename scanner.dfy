/**
 * The rarity engine of `NFTScanner.analyzeRarity`: a first pass counts every
 * `trait_type:value` key over the sample, a second pass scores each asset as the
 * sum over its traits of `1 / (count / total)`, where `total` is the sample size.
 * Scores are exact reals here, not floating point.
 */
module Scanner {
  import opened Wrappers

  /** A marketplace trait; `value` is the text JavaScript interpolates into the key. */
  datatype Trait = Trait(traitType: string, value: string)

  /** A marketplace listing as the rarity engine reads it: `token_id`, `name`, `traits` (None when absent). */
  datatype ListedAsset = ListedAsset(token_id: Option<string>, name: Option<string>, traits: Option<seq<Trait>>)

  datatype RarityResult = RarityResult(tokenId: Option<string>, name: Option<string>, rarityScore: real, traits: Option<seq<Trait>>)

  /** The bucket key: plain concatenation, so distinct traits may share a key. */
  function Key(t: Trait): string {
    t.traitType + ":" + t.value
  }

  /** The traits that are counted and scored: none when the field is absent. */
  function TraitsOf(a: ListedAsset): seq<Trait> {
    if a.traits.Some? then a.traits.value else []
  }

  /** Number of traits in `ts` whose key is `key`. */
  function KeyCount(ts: seq<Trait>, key: string): nat {
    if ts == [] then 0
    else KeyCount(ts[..|ts| - 1], key) + (if Key(ts[|ts| - 1]) == key then 1 else 0)
  }

  /** Number of occurrences of `key` over every trait of every asset of `sample`. */
  function Count(sample: seq<ListedAsset>, key: string): nat {
    if sample == [] then 0
    else Count(sample[..|sample| - 1], key) + KeyCount(TraitsOf(sample[|sample| - 1]), key)
  }

  /** The inverse frequency `total / count` one occurrence of `key` contributes. */
  function Contribution(sample: seq<ListedAsset>, key: string): real
    requires Count(sample, key) > 0
  {
    |sample| as real / Count(sample, key) as real
  }

  /** Sum of the contributions of the traits `ts`, each of whose keys occurs in `sample`. */
  function TraitsScore(sample: seq<ListedAsset>, ts: seq<Trait>): (r: real)
    requires forall t | t in ts :: Count(sample, Key(t)) > 0
    ensures r >= 0.0
    ensures ts != [] ==> r > 0.0
  {
    if ts == [] then 0.0
    else
      assert forall t | t in ts[..|ts| - 1] :: t in ts;
      TraitsScore(sample, ts[..|ts| - 1]) + Contribution(sample, Key(ts[|ts| - 1]))
  }

  /** The rarity score of asset `a` of `sample`. */
  function RarityScore(sample: seq<ListedAsset>, a: ListedAsset): real
    requires a in sample
  {
    CountedTraitsPositive(sample, a);
    TraitsScore(sample, TraitsOf(a))
  }

  /** The key-value store of the first pass, read as JavaScript's `traitCounts[key] || 0`. */
  function CountIn(counts: map<string, nat>, key: string): nat {
    if key in counts then counts[key] else 0
  }

  /**
   * The first pass of `analyzeRarity`: the key-value store it builds holds, for every key,
   * its number of occurrences over the sample.
   */
  method CountTraits(assets: seq<ListedAsset>) returns (traitCounts: map<string, nat>)
    ensures forall key :: CountIn(traitCounts, key) == Count(assets, key)
  {
    traitCounts := map[];
    var i := 0;
    while i < |assets|
      invariant 0 <= i <= |assets|
      invariant forall key :: CountIn(traitCounts, key) == Count(assets[..i], key)
    {
      assert assets[..i + 1][..i] == assets[..i];
      if assets[i].traits.Some? {
        var ts := assets[i].traits.value;
        var k := 0;
        while k < |ts|
          invariant 0 <= k <= |ts|
          invariant forall key :: CountIn(traitCounts, key) == Count(assets[..i], key) + KeyCount(ts[..k], key)
        {
          var key := Key(ts[k]);
          assert ts[..k + 1][..k] == ts[..k];
          traitCounts := traitCounts[key := CountIn(traitCounts, key) + 1];
          k := k + 1;
        }
        assert ts[..k] == ts;
      }
      i := i + 1;
    }
    assert assets[..i] == assets;
  }

  /**
   * The scoring callback of `analyzeRarity` for one asset's traits `ts`: it adds
   * `1 / (count / total)` per trait and so computes the asset's score against the sample.
   */
  method ScoreTraits(assets: seq<ListedAsset>, traitCounts: map<string, nat>, ts: seq<Trait>) returns (rarityScore: real)
    requires forall key :: CountIn(traitCounts, key) == Count(assets, key)
    requires forall t | t in ts :: Count(assets, Key(t)) > 0
    ensures rarityScore == TraitsScore(assets, ts)
  {
    var totalSupply := |assets|;
    rarityScore := 0.0;
    var k := 0;
    while k < |ts|
      invariant 0 <= k <= |ts|
      invariant forall t | t in ts[..k] :: t in ts
      invariant rarityScore == TraitsScore(assets, ts[..k])
    {
      var key := Key(ts[k]);
      assert ts[..k + 1][..k] == ts[..k];
      assert CountIn(traitCounts, key) == Count(assets, key) > 0;
      assert assets != [];
      var frequency := traitCounts[key] as real / totalSupply as real;
      InverseFrequency(traitCounts[key], totalSupply);
      rarityScore := rarityScore + 1.0 / frequency;
      k := k + 1;
    }
    assert ts[..k] == ts;
  }

  /**
   * Both passes of `analyzeRarity`: one result per asset, in input order, carrying the
   * asset's id, name and traits and its rarity score against the whole sample.
   */
  method AnalyzeRarity(assets: seq<ListedAsset>) returns (results: seq<RarityResult>)
    ensures |results| == |assets|
    ensures forall j :: 0 <= j < |assets| ==>
      results[j] == RarityResult(assets[j].token_id, assets[j].name, RarityScore(assets, assets[j]), assets[j].traits)
    ensures forall j :: 0 <= j < |assets| ==> results[j].rarityScore >= 0.0
  {
    var traitCounts := CountTraits(assets);
    results := [];
    var j := 0;
    while j < |assets|
      invariant 0 <= j <= |assets|
      invariant |results| == j
      invariant forall m :: 0 <= m < j ==>
        results[m] == RarityResult(assets[m].token_id, assets[m].name, RarityScore(assets, assets[m]), assets[m].traits)
    {
      var asset := assets[j];
      CountedTraitsPositive(assets, asset);
      var rarityScore := 0.0;
      if asset.traits.Some? {
        rarityScore := ScoreTraits(assets, traitCounts, asset.traits.value);
      }
      results := results + [RarityResult(asset.token_id, asset.name, rarityScore, asset.traits)];
      j := j + 1;
    }
  }

  /** `1 / (c / t)` is `t / c` for positive counts and totals. */
  lemma InverseFrequency(c: nat, t: nat)
    requires c > 0 && t > 0
    ensures (c as real / t as real) != 0.0
    ensures 1.0 / (c as real / t as real) == t as real / c as real
  {
  }

  /** A key present in `ts` is counted at least once there. */
  lemma {:induction false} KeyCountPositive(ts: seq<Trait>, t: Trait)
    requires t in ts
    ensures KeyCount(ts, Key(t)) >= 1
  {
    if ts[|ts| - 1] != t {
      assert t in ts[..|ts| - 1];
      KeyCountPositive(ts[..|ts| - 1], t);
    }
  }

  /** Every trait of an asset of the sample has a key counted at least once: the division never sees zero. */
  lemma {:induction false} CountPositive(sample: seq<ListedAsset>, a: ListedAsset, t: Trait)
    requires a in sample && t in TraitsOf(a)
    ensures Count(sample, Key(t)) >= 1
  {
    var last := sample[|sample| - 1];
    if last == a {
      KeyCountPositive(TraitsOf(a), t);
    } else {
      assert a in sample[..|sample| - 1];
      CountPositive(sample[..|sample| - 1], a, t);
    }
  }

  lemma CountedTraitsPositive(sample: seq<ListedAsset>, a: ListedAsset)
    requires a in sample
    ensures forall t | t in TraitsOf(a) :: Count(sample, Key(t)) > 0
  {
    forall t | t in TraitsOf(a) ensures Count(sample, Key(t)) > 0 {
      CountPositive(sample, a, t);
    }
  }

  /** Rarity scores are never negative, and only an asset with at least one trait scores above zero. */
  lemma ScoreSign(sample: seq<ListedAsset>, a: ListedAsset)
    requires a in sample
    ensures RarityScore(sample, a) >= 0.0
    ensures RarityScore(sample, a) > 0.0 <==> TraitsOf(a) != []
  {
  }

  /** An asset whose `traits` is absent or empty scores exactly 0. */
  lemma NoTraitsScoreZero(sample: seq<ListedAsset>, a: ListedAsset)
    requires a in sample && (a.traits == None || a.traits == Some([]))
    ensures RarityScore(sample, a) == 0.0
  {
  }

  /** The sum of `share` over every occurrence of `key` in `ts`. */
  function OccurrenceShares(ts: seq<Trait>, key: string, share: real): real {
    if ts == [] then 0.0
    else OccurrenceShares(ts[..|ts| - 1], key, share) + (if Key(ts[|ts| - 1]) == key then share else 0.0)
  }

  /** The sum of `share` over every occurrence of `key` in the traits of the assets `part`. */
  function KeyShares(part: seq<ListedAsset>, key: string, share: real): real {
    if part == [] then 0.0
    else KeyShares(part[..|part| - 1], key, share) + OccurrenceShares(TraitsOf(part[|part| - 1]), key, share)
  }

  /** `n` copies of `c` added up. */
  function Repeat(n: nat, c: real): real {
    if n == 0 then 0.0 else Repeat(n - 1, c) + c
  }

  lemma {:induction false} RepeatAdd(a: nat, b: nat, c: real)
    ensures Repeat(a + b, c) == Repeat(a, c) + Repeat(b, c)
  {
    if b > 0 {
      RepeatAdd(a, b - 1, c);
    }
  }

  lemma {:induction false} RepeatTimes(n: nat, c: real)
    ensures Repeat(n, c) == n as real * c
  {
    if n > 0 {
      RepeatTimes(n - 1, c);
    }
  }

  lemma {:induction false} OccurrenceSharesCount(ts: seq<Trait>, key: string, share: real)
    ensures OccurrenceShares(ts, key, share) == Repeat(KeyCount(ts, key), share)
  {
    if ts != [] {
      var init := ts[..|ts| - 1];
      OccurrenceSharesCount(init, key, share);
      RepeatAdd(KeyCount(init, key), if Key(ts[|ts| - 1]) == key then 1 else 0, share);
    }
  }

  lemma {:induction false} KeySharesCount(part: seq<ListedAsset>, key: string, share: real)
    ensures KeyShares(part, key, share) == Repeat(Count(part, key), share)
  {
    if part != [] {
      var init, last := part[..|part| - 1], part[|part| - 1];
      KeySharesCount(init, key, share);
      OccurrenceSharesCount(TraitsOf(last), key, share);
      RepeatAdd(Count(init, key), KeyCount(TraitsOf(last), key), share);
    }
  }

  /**
   * For any key that occurs in the sample, the contributions `total / count` of all its
   * occurrences add up to exactly the sample size.
   */
  lemma KeySharesTotal(sample: seq<ListedAsset>, key: string)
    requires Count(sample, key) > 0
    ensures KeyShares(sample, key, Contribution(sample, key)) == |sample| as real
  {
    var share := Contribution(sample, key);
    KeySharesCount(sample, key, share);
    RepeatTimes(Count(sample, key), share);
  }

  /** Keys are plain concatenations: `("a:b", "c")` and `("a", "b:c")` share the bucket `a:b:c`. */
  lemma KeyCollision()
    ensures Key(Trait("a:b", "c")) == Key(Trait("a", "b:c")) == "a:b:c"
  {
  }

  /** Sample `[red], [red], [blue]` of one trait type scores 1.5, 1.5 and 3.0. */
  lemma ThreeAssetExample(sample: seq<ListedAsset>)
    requires sample == [
      ListedAsset(Some("1"), None, Some([Trait("color", "red")])),
      ListedAsset(Some("2"), None, Some([Trait("color", "red")])),
      ListedAsset(Some("3"), None, Some([Trait("color", "blue")]))]
    ensures RarityScore(sample, sample[0]) == 1.5
    ensures RarityScore(sample, sample[1]) == 1.5
    ensures RarityScore(sample, sample[2]) == 3.0
  {
    var red, blue := Trait("color", "red"), Trait("color", "blue");
    var kr, kb := Key(red), Key(blue);
    assert kr != kb by { assert kr[6] != kb[6]; }
    assert [red][..0] == [] && [blue][..0] == [];
    assert KeyCount([red], kr) == 1 && KeyCount([red], kb) == 0;
    assert KeyCount([blue], kr) == 0 && KeyCount([blue], kb) == 1;
    var s1, s2 := sample[..1], sample[..2];
    assert s1[..0] == [] && s2[..1] == s1 && sample[..2] == s2;
    assert Count(s1, kr) == 1 && Count(s1, kb) == 0;
    assert Count(s2, kr) == 2 && Count(s2, kb) == 0;
    assert Count(sample, kr) == 2 && Count(sample, kb) == 1;
    assert TraitsScore(sample, [red]) == 1.5;
    assert TraitsScore(sample, [blue]) == 3.0;
  }

  /** A trait repeated within one asset is counted once per occurrence: as the only asset, `[red, red]` counts red twice and scores 1/2 + 1/2. */
  lemma RepeatedTraitExample(sample: seq<ListedAsset>)
    requires sample == [ListedAsset(Some("1"), None, Some([Trait("color", "red"), Trait("color", "red")]))]
    ensures Count(sample, Key(Trait("color", "red"))) == 2
    ensures RarityScore(sample, sample[0]) == 1.0
  {
    var red := Trait("color", "red");
    assert [red, red][..1] == [red] && [red][..0] == [];
    assert KeyCount([red], Key(red)) == 1;
    assert KeyCount([red, red], Key(red)) == 2;
    assert sample[..0] == [];
    assert Count(sample, Key(red)) == 2;
    assert TraitsScore(sample, [red]) == 1.0 / 2.0;
  }
}
