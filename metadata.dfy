/**
 * The metadata fetcher of `MetadataFetcher`: it resolves `ipfs://` URIs through a
 * rotating list of public IPFS gateways (remembering the last one that answered),
 * downloads token metadata, normalises image URIs, and merges the result into
 * marketplace assets one batch at a time.
 *
 * The network is given as oracles: `head` is the HEAD probe of a gateway URL, `get`
 * the GET of a metadata document (None when the request fails or the body is empty),
 * `tokenInfo` the on-chain `getTokenMetadata` lookup (None when it fails or finds nothing).
 * Requests run one after another here; the concurrency inside a batch is not modelled.
 */
module Metadata {
  import opened Wrappers
  import Scanner

  /** The outcome of a HEAD request: the status the gateway answered with, or a failure. */
  datatype Probe = Responded(status: nat) | Failed

  /** A token id as JavaScript sees it: a number or a string. */
  datatype TokenId = Num(n: nat) | Text(s: string)

  /** The merged metadata attached to an asset. */
  datatype Metadata = Metadata(
    name: Option<string>,
    description: Option<string>,
    image: Option<string>,
    externalUrl: Option<string>,
    attributes: seq<Scanner.Trait>)

  /** A marketplace asset; fields the fetcher does not read or write are omitted. */
  datatype Asset = Asset(
    tokenId: Option<TokenId>,
    contractAddress: Option<string>,
    chain: Option<string>,
    name: Option<string>,
    traits: Option<seq<Scanner.Trait>>,
    metadata: Option<Metadata>,
    tokenURI: Option<string>,
    owner: Option<string>)

  /** A downloaded metadata document (`name`, `description`, `image`, `external_url`, `attributes`, `traits`). */
  datatype MetadataDoc = MetadataDoc(
    name: Option<string>,
    description: Option<string>,
    image: Option<string>,
    externalUrl: Option<string>,
    attributes: Option<seq<Scanner.Trait>>,
    traits: Option<seq<Scanner.Trait>>)

  /** What `getTokenMetadata` reports for one token. */
  datatype TokenInfo = TokenInfo(tokenURI: string, owner: string)

  /** The outcome of one promise under `Promise.allSettled`. */
  datatype Settled<T> = Fulfilled(value: T) | Rejected(reason: string)

  datatype Network = Network(
    head: string -> Probe,
    get: string -> Option<MetadataDoc>,
    tokenInfo: (string, TokenId, string) -> Option<TokenInfo>)

  /** The gateways in their fixed order of preference. */
  const DefaultGateways: seq<string> := [
    "https://ipfs.io/ipfs/",
    "https://gateway.pinata.cloud/ipfs/",
    "https://cloudflare-ipfs.com/ipfs/",
    "https://dweb.link/ipfs/"
  ]

  const IpfsScheme: string := "ipfs://"

  /** HEAD requests count as answered only with status 200. */
  const Ok: nat := 200

  // ---- JavaScript truthiness of the optional values the fetcher tests ----

  predicate Present(s: Option<string>) {
    s.Some? && s.value != ""
  }

  predicate TokenIdPresent(id: Option<TokenId>) {
    match id
    case None => false
    case Some(Num(n)) => n != 0
    case Some(Text(s)) => s != ""
  }

  predicate IsIpfs(uri: string) {
    |uri| >= |IpfsScheme| && uri[..|IpfsScheme|] == IpfsScheme
  }

  /** `uri.replace('ipfs://', '')` on a URI that starts with the scheme drops just that prefix. */
  function IpfsHash(uri: string): string
    requires IsIpfs(uri)
  {
    uri[|IpfsScheme|..]
  }

  predicate IsHttp(uri: string) {
    |uri| >= 4 && uri[..4] == "http"
  }

  // ---- gateway failover ----

  /** The gateway asked at step `i` of a search over `count` gateways that starts at `start`. */
  function GatewayAt(count: nat, start: nat, i: int): nat
    requires count > 0
  {
    (start + i) % count
  }

  /** The URL probed at step `i` of a search that starts at gateway `start`. */
  function ProbeUrl(gateways: seq<string>, start: nat, i: int, hash: string): string
    requires |gateways| > 0
  {
    gateways[GatewayAt(|gateways|, start, i)] + hash
  }

  /** The first step, from `i` on, whose gateway answers 200. */
  function FirstLive(gateways: seq<string>, start: nat, hash: string, head: string -> Probe, i: nat): Option<nat>
    requires |gateways| > 0
    decreases |gateways| - i
  {
    if i >= |gateways| then None
    else if head(ProbeUrl(gateways, start, i, hash)) == Responded(Ok) then Some(i)
    else FirstLive(gateways, start, hash, head, i + 1)
  }

  /** The result of `tryIpfsGateways` and the gateway index it leaves behind. */
  datatype Pick = Pick(url: Option<string>, index: nat)

  function TryGateways(gateways: seq<string>, start: nat, hash: string, head: string -> Probe): Pick
    requires |gateways| > 0
  {
    match FirstLive(gateways, start, hash, head, 0)
    case None => Pick(None, start)
    case Some(i) => Pick(Some(ProbeUrl(gateways, start, i, hash)), GatewayAt(|gateways|, start, i))
  }

  /** Number of HEAD requests a search makes. */
  function ProbeCount(gateways: seq<string>, start: nat, hash: string, head: string -> Probe): nat
    requires |gateways| > 0
  {
    match FirstLive(gateways, start, hash, head, 0)
    case None => |gateways|
    case Some(i) => i + 1
  }

  // ---- the remaining operations as functions of the gateway index they start from ----

  /** `fetchMetadata`: the document and the gateway index afterwards. */
  function FetchMetadataSpec(gateways: seq<string>, start: nat, tokenURI: Option<string>, net: Network): (Option<MetadataDoc>, nat)
    requires |gateways| > 0
  {
    if !Present(tokenURI) then (None, start)
    else if IsIpfs(tokenURI.value) then
      var pick := TryGateways(gateways, start, IpfsHash(tokenURI.value), net.head);
      if pick.url.None? then (None, pick.index) else (net.get(pick.url.value), pick.index)
    else (net.get(tokenURI.value), start)
  }

  /** `fetchImageUrl`: the usable image URL and the gateway index afterwards. */
  function FetchImageSpec(gateways: seq<string>, start: nat, imageUri: Option<string>, head: string -> Probe): Pick
    requires |gateways| > 0
  {
    if !Present(imageUri) then Pick(None, start)
    else if IsIpfs(imageUri.value) then TryGateways(gateways, start, IpfsHash(imageUri.value), head)
    else if IsHttp(imageUri.value) then Pick(imageUri, start)
    else Pick(None, start)
  }

  /** `metadata.attributes || metadata.traits || []`: an array, even an empty one, is taken as it is. */
  function AttributesOf(doc: MetadataDoc): seq<Scanner.Trait> {
    if doc.attributes.Some? then doc.attributes.value
    else if doc.traits.Some? then doc.traits.value
    else []
  }

  /** The enriched copy of `asset`: its own fields, then `metadata`, `tokenURI` and `owner` set. */
  function Merge(asset: Asset, doc: MetadataDoc, image: Option<string>, info: TokenInfo): Asset {
    asset.(
      metadata := Some(Metadata(doc.name, doc.description, image, doc.externalUrl, AttributesOf(doc))),
      tokenURI := Some(info.tokenURI),
      owner := Some(info.owner))
  }

  /** `asset.chain || 'ethereum'`. */
  function ChainOf(asset: Asset): string {
    if Present(asset.chain) then asset.chain.value else "ethereum"
  }

  /** The reason a promise rejects with when it reads a property of a missing asset. */
  const MissingAsset: string := "TypeError: Cannot read properties of null (reading 'tokenId')"

  /** `enrichAssetWithMetadata`: the settled outcome and the gateway index afterwards. */
  function EnrichSpec(gateways: seq<string>, start: nat, entry: Option<Asset>, net: Network): (Settled<Option<Asset>>, nat)
    requires |gateways| > 0
  {
    if entry.None? then (Rejected(MissingAsset), start)
    else
      var asset := entry.value;
      if !TokenIdPresent(asset.tokenId) || !Present(asset.contractAddress) then (Fulfilled(entry), start)
      else
        var info := net.tokenInfo(asset.contractAddress.value, asset.tokenId.value, ChainOf(asset));
        if info.None? || info.value.tokenURI == "" then (Fulfilled(entry), start)
        else
          var (doc, afterDoc) := FetchMetadataSpec(gateways, start, Some(info.value.tokenURI), net);
          if doc.None? then (Fulfilled(entry), afterDoc)
          else
            var image := FetchImageSpec(gateways, afterDoc, doc.value.image, net.head);
            (Fulfilled(Some(Merge(asset, doc.value, image.url, info.value))), image.index)
  }

  /** What `batchEnrichAssets` pushes for one asset: the fulfilled value, or the asset itself. */
  function Settle(entry: Option<Asset>, outcome: Settled<Option<Asset>>): Option<Asset> {
    if outcome.Fulfilled? then outcome.value else entry
  }

  /** What pushing each outcome, or its asset when rejected, gives. */
  function Settles(batch: seq<Option<Asset>>, outcomes: seq<Settled<Option<Asset>>>): seq<Option<Asset>>
    requires |outcomes| == |batch|
  {
    seq(|batch|, k requires 0 <= k < |batch| => Settle(batch[k], outcomes[k]))
  }

  /** The assets enriched one after another from gateway index `start`, and the index afterwards. */
  function EnrichAll(gateways: seq<string>, start: nat, entries: seq<Option<Asset>>, net: Network): (seq<Option<Asset>>, nat)
    requires |gateways| > 0
    decreases |entries|
  {
    if entries == [] then ([], start)
    else
      var (outcome, next) := EnrichSpec(gateways, start, entries[0], net);
      var (rest, last) := EnrichAll(gateways, next, entries[1..], net);
      ([Settle(entries[0], outcome)] + rest, last)
  }

  /** `prefix` put in front of the list of a batch run that succeeded; a failed run stays failed. */
  function Prepend(prefix: seq<Option<Asset>>, run: (Option<seq<Option<Asset>>>, nat)): (Option<seq<Option<Asset>>>, nat) {
    (if run.0.None? then None else Some(prefix + run.0.value), run.1)
  }

  /**
   * `batchEnrichAssets` as written: each batch of `batchSize` assets is enriched in full;
   * when it holds a missing asset, the log line for its rejection reads `tokenId` of that
   * missing asset outside any `try`, and the whole call rejects (None). Otherwise the
   * settled results are pushed and the next batch follows. The index is the gateway
   * index afterwards.
   */
  function BatchSpec(gateways: seq<string>, start: nat, assets: seq<Option<Asset>>, net: Network, batchSize: int)
    : (Option<seq<Option<Asset>>>, nat)
    requires |gateways| > 0
    requires 0 < batchSize || assets == []
    decreases |assets|
  {
    if assets == [] then (Some([]), start)
    else
      var n := Min(batchSize, |assets|);
      var (settled, next) := EnrichAll(gateways, start, assets[..n], net);
      if None in assets[..n] then (None, next)
      else Prepend(settled, BatchSpec(gateways, next, assets[n..], net, batchSize))
  }

  /** The loop variable of `batchEnrichAssets` after `rounds` rounds of `i += batchSize` from 0. */
  function LoopIndexAfter(batchSize: int, rounds: nat): int {
    if rounds == 0 then 0 else LoopIndexAfter(batchSize, rounds - 1) + batchSize
  }

  /** Number of batches of `batchSize` that cover `n` items, the ceiling of `n / batchSize`. */
  function Batches(n: nat, batchSize: nat): nat
    requires batchSize > 0
  {
    if n == 0 then 0 else if n <= batchSize then 1 else 1 + Batches(n - batchSize, batchSize)
  }

  function Min(a: int, b: int): int {
    if a < b then a else b
  }

  class MetadataFetcher {
    const ipfsGateways: seq<string>
    var currentGatewayIndex: nat

    /** The remembered gateway is always one of the gateways. */
    predicate Valid()
      reads this
    {
      0 < |ipfsGateways| && currentGatewayIndex < |ipfsGateways|
    }

    constructor()
      ensures Valid()
      ensures ipfsGateways == DefaultGateways && currentGatewayIndex == 0
    {
      ipfsGateways := DefaultGateways;
      currentGatewayIndex := 0;
    }

    /**
     * `tryIpfsGateways`: probes the gateways starting at the remembered one and wrapping
     * around; the first to answer 200 becomes the remembered gateway and its URL is returned.
     * `probed` records the URLs requested, in order.
     */
    method TryIpfsGateways(ipfsHash: string, head: string -> Probe) returns (url: Option<string>, ghost probed: seq<string>)
      requires Valid()
      modifies this`currentGatewayIndex
      ensures Valid()
      ensures Pick(url, currentGatewayIndex) == TryGateways(ipfsGateways, old(currentGatewayIndex), ipfsHash, head)
      ensures probed == seq(ProbeCount(ipfsGateways, old(currentGatewayIndex), ipfsHash, head),
                            i => ProbeUrl(ipfsGateways, old(currentGatewayIndex), i, ipfsHash))
    {
      probed := [];
      ghost var start := currentGatewayIndex;
      var i := 0;
      while i < |ipfsGateways|
        invariant 0 <= i <= |ipfsGateways|
        invariant currentGatewayIndex == start
        invariant FirstLive(ipfsGateways, start, ipfsHash, head, 0) == FirstLive(ipfsGateways, start, ipfsHash, head, i)
        invariant probed == seq(i, k => ProbeUrl(ipfsGateways, start, k, ipfsHash))
      {
        var gatewayIndex := (currentGatewayIndex + i) % |ipfsGateways|;
        var gateway := ipfsGateways[gatewayIndex];
        var candidate := gateway + ipfsHash;
        probed := probed + [candidate];
        var response := head(candidate);
        if response.Responded? && response.status == Ok {
          currentGatewayIndex := gatewayIndex;
          return Some(candidate), probed;
        }
        i := i + 1;
      }
      url := None;
    }

    /**
     * `fetchMetadata`: nothing for a missing or empty URI; an `ipfs://` URI is resolved
     * through the gateways first, and nothing is fetched when none answers; any other
     * URI is fetched as it is. A failed request gives nothing.
     */
    method FetchMetadata(tokenURI: Option<string>, net: Network) returns (doc: Option<MetadataDoc>)
      requires Valid()
      modifies this`currentGatewayIndex
      ensures Valid()
      ensures (doc, currentGatewayIndex) == FetchMetadataSpec(ipfsGateways, old(currentGatewayIndex), tokenURI, net)
    {
      if !Present(tokenURI) {
        return None;
      }
      var url: Option<string> := tokenURI;
      if IsIpfs(tokenURI.value) {
        var ipfsHash := IpfsHash(tokenURI.value);
        ghost var probed;
        url, probed := TryIpfsGateways(ipfsHash, net.head);
      }
      if url.None? {
        return None;
      }
      doc := net.get(url.value);
    }

    /**
     * `fetchImageUrl`: nothing for a missing or empty URI; an `ipfs://` URI is resolved
     * through the gateways; an `http` URI is kept; anything else gives nothing.
     */
    method FetchImageUrl(imageUri: Option<string>, head: string -> Probe) returns (url: Option<string>)
      requires Valid()
      modifies this`currentGatewayIndex
      ensures Valid()
      ensures Pick(url, currentGatewayIndex) == FetchImageSpec(ipfsGateways, old(currentGatewayIndex), imageUri, head)
    {
      if !Present(imageUri) {
        return None;
      }
      if IsIpfs(imageUri.value) {
        ghost var probed;
        url, probed := TryIpfsGateways(IpfsHash(imageUri.value), head);
        return;
      }
      if IsHttp(imageUri.value) {
        return imageUri;
      }
      return None;
    }

    /**
     * `enrichAssetWithMetadata`: an asset without a token id or contract, whose token has
     * no URI, or whose metadata cannot be fetched, is returned unchanged; otherwise the
     * metadata, token URI and owner are merged into a copy. A missing asset rejects.
     */
    method EnrichAssetWithMetadata(entry: Option<Asset>, net: Network) returns (outcome: Settled<Option<Asset>>)
      requires Valid()
      modifies this`currentGatewayIndex
      ensures Valid()
      ensures (outcome, currentGatewayIndex) == EnrichSpec(ipfsGateways, old(currentGatewayIndex), entry, net)
    {
      if entry.None? {
        return Rejected(MissingAsset);
      }
      var asset := entry.value;
      if !TokenIdPresent(asset.tokenId) || !Present(asset.contractAddress) {
        return Fulfilled(entry);
      }
      var tokenInfo := net.tokenInfo(asset.contractAddress.value, asset.tokenId.value, ChainOf(asset));
      if tokenInfo.None? || tokenInfo.value.tokenURI == "" {
        return Fulfilled(entry);
      }
      var metadata := FetchMetadata(Some(tokenInfo.value.tokenURI), net);
      if metadata.Some? {
        var imageUrl := FetchImageUrl(metadata.value.image, net.head);
        return Fulfilled(Some(Merge(asset, metadata.value, imageUrl, tokenInfo.value)));
      }
      return Fulfilled(entry);
    }

    /**
     * `Promise.allSettled(batch.map(asset => this.enrichAssetWithMetadata(asset, blockchain)))`:
     * every asset of the batch is enriched, one after another here, and its outcome kept;
     * `settled` is what pushing each outcome, or the asset itself when rejected, would give.
     */
    method SettleBatch(batch: seq<Option<Asset>>, net: Network)
      returns (batchResults: seq<Settled<Option<Asset>>>, ghost settled: seq<Option<Asset>>)
      requires Valid()
      modifies this`currentGatewayIndex
      ensures Valid()
      ensures (settled, currentGatewayIndex) == EnrichAll(ipfsGateways, old(currentGatewayIndex), batch, net)
      ensures |batchResults| == |batch| && |settled| == |batch|
      ensures settled == Settles(batch, batchResults)
      ensures forall k | 0 <= k < |batch| :: batchResults[k].Rejected? <==> batch[k].None?
    {
      batchResults := [];
      settled := [];
      var index := 0;
      assert batch[0..] == batch;
      JoinEmpty(EnrichAll(ipfsGateways, currentGatewayIndex, batch, net));
      while index < |batch|
        invariant 0 <= index <= |batch|
        invariant |batchResults| == index && |settled| == index
        invariant Valid()
        invariant forall k | 0 <= k < index :: settled[k] == Settle(batch[k], batchResults[k])
        invariant forall k | 0 <= k < index :: batchResults[k].Rejected? <==> batch[k].None?
        invariant EnrichAll(ipfsGateways, old(currentGatewayIndex), batch, net)
               == Join(settled, EnrichAll(ipfsGateways, currentGatewayIndex, batch[index..], net))
      {
        EnrichAllStep(ipfsGateways, currentGatewayIndex, batch[index..], net);
        assert batch[index..][1..] == batch[index + 1..];
        var result := EnrichAssetWithMetadata(batch[index], net);
        assert result.Rejected? <==> batch[index].None?;
        JoinAssoc(settled, [Settle(batch[index], result)],
          EnrichAll(ipfsGateways, currentGatewayIndex, batch[index + 1..], net));
        settled := settled + [Settle(batch[index], result)];
        batchResults := batchResults + [result];
        index := index + 1;
      }
      assert batch[|batch|..] == [];
      JoinEmpty((settled, currentGatewayIndex));
    }

    /**
     * `batchResults.forEach(...)`: the outcomes are pushed in order after `enrichedAssets`;
     * a rejected one is logged with the `tokenId` of its asset, which throws when that asset
     * is missing, and the rejected asset itself would be pushed otherwise.
     */
    static method PushResults(enrichedAssets: seq<Option<Asset>>, batch: seq<Option<Asset>>,
                              batchResults: seq<Settled<Option<Asset>>>)
      returns (pushed: Option<seq<Option<Asset>>>)
      requires |batchResults| == |batch|
      requires forall k | 0 <= k < |batch| :: batchResults[k].Rejected? <==> batch[k].None?
      ensures pushed.None? <==> None in batch
      ensures pushed.Some? ==> pushed.value == enrichedAssets + Settles(batch, batchResults)
    {
      var acc := enrichedAssets;
      var index := 0;
      while index < |batchResults|
        invariant 0 <= index <= |batchResults|
        invariant forall k | 0 <= k < index :: batch[k].Some?
        invariant acc == enrichedAssets + Settles(batch, batchResults)[..index]
      {
        if batchResults[index].Rejected? {
          // the log line reads `tokenId` of the missing asset, which throws
          assert batch[index] in batch;
          return None;
        }
        var s := Settles(batch, batchResults);
        assert s[..index + 1] == s[..index] + [batchResults[index].value];
        acc := acc + [batchResults[index].value];
        index := index + 1;
      }
      assert Settles(batch, batchResults)[..|batch|] == Settles(batch, batchResults);
      assert None !in batch by {
        assert forall k | 0 <= k < |batch| :: batch[k] != None;
      }
      return Some(acc);
    }

    /**
     * One batch of `batchEnrichAssets`: every asset is enriched, then the outcomes are
     * pushed in order; None when a rejected outcome's log line throws.
     */
    method EnrichBatch(batch: seq<Option<Asset>>, net: Network) returns (read: Option<seq<Option<Asset>>>)
      requires Valid()
      modifies this`currentGatewayIndex
      ensures Valid()
      ensures currentGatewayIndex == EnrichAll(ipfsGateways, old(currentGatewayIndex), batch, net).1
      ensures read.None? <==> None in batch
      ensures read.Some? ==> read.value == EnrichAll(ipfsGateways, old(currentGatewayIndex), batch, net).0
    {
      var batchResults;
      ghost var settled;
      batchResults, settled := SettleBatch(batch, net);
      read := PushResults([], batch, batchResults);
      if read.Some? {
        assert [] + settled == settled;
      }
    }

    /**
     * `batchEnrichAssets`: the assets are enriched `batchSize` at a time. Every asset of a
     * batch is enriched before its results are read (`Promise.allSettled`); the results
     * are then pushed in input order, until a rejected one, whose log line reads `tokenId`
     * of the missing asset and throws: the call then rejects (None). One pause of 1000 ms
     * follows each completed batch, recorded in `pauses`.
     */
    method BatchEnrichAssets(assets: seq<Option<Asset>>, net: Network, batchSize: int)
      returns (enrichedAssets: Option<seq<Option<Asset>>>, ghost pauses: seq<nat>)
      requires Valid()
      requires 0 < batchSize || assets == []
      modifies this`currentGatewayIndex
      ensures Valid()
      ensures (enrichedAssets, currentGatewayIndex) == BatchSpec(ipfsGateways, old(currentGatewayIndex), assets, net, batchSize)
      ensures forall k | 0 <= k < |pauses| :: pauses[k] == 1000
      ensures 0 < batchSize && enrichedAssets.Some? ==> |pauses| == Batches(|assets|, batchSize)
    {
      var pushed: seq<Option<Asset>> := [];
      pauses := [];
      var i := 0;
      assert assets[0..] == assets;
      PrependEmpty(BatchSpec(ipfsGateways, currentGatewayIndex, assets, net, batchSize));
      while i < |assets|
        invariant 0 <= i
        invariant 0 < batchSize ==>
          |pauses| + Batches(|assets| - Min(i, |assets|), batchSize) == Batches(|assets|, batchSize)
        invariant forall k | 0 <= k < |pauses| :: pauses[k] == 1000
        invariant Valid()
        invariant BatchSpec(ipfsGateways, old(currentGatewayIndex), assets, net, batchSize)
               == Prepend(pushed, BatchSpec(ipfsGateways, currentGatewayIndex, assets[Min(i, |assets|)..], net, batchSize))
        decreases |assets| - i
      {
        var end := if i + batchSize < |assets| then i + batchSize else |assets|;
        var batch := assets[i..end];
        ghost var before, batchStart := pushed, currentGatewayIndex;
        assert Min(i, |assets|) == i;
        var read := EnrichBatch(batch, net);
        BatchSpecStep(ipfsGateways, batchStart, assets, net, batchSize, i, end,
          EnrichAll(ipfsGateways, batchStart, batch, net).0, currentGatewayIndex);
        if read.None? {
          return None, pauses;
        }
        pushed := pushed + read.value;
        ghost var tail := BatchSpec(ipfsGateways, currentGatewayIndex, assets[end..], net, batchSize);
        PrependAssoc(before, read.value, tail);
        assert BatchSpec(ipfsGateways, old(currentGatewayIndex), assets, net, batchSize) == Prepend(pushed, tail);
        BatchesStep(|assets| - i, batchSize);
        pauses := pauses + [1000];
        i := i + batchSize;
        assert Min(i, |assets|) == end && |assets| - end == (|assets| - (i - batchSize)) - Min(batchSize, |assets| - (i - batchSize));
      }
      assert assets[|assets|..] == [] && pushed + [] == pushed;
      return Some(pushed), pauses;
    }
  }

  /** `prefix` put in front of the assets of an enrichment run. */
  function Join(prefix: seq<Option<Asset>>, run: (seq<Option<Asset>>, nat)): (seq<Option<Asset>>, nat) {
    (prefix + run.0, run.1)
  }

  /** One asset of an enrichment run: settle it, then continue from the index it leaves. */
  lemma EnrichAllStep(gateways: seq<string>, start: nat, entries: seq<Option<Asset>>, net: Network)
    requires |gateways| > 0 && entries != []
    ensures var (outcome, next) := EnrichSpec(gateways, start, entries[0], net);
      EnrichAll(gateways, start, entries, net)
        == Join([Settle(entries[0], outcome)], EnrichAll(gateways, next, entries[1..], net))
  {
  }

  lemma JoinEmpty(run: (seq<Option<Asset>>, nat))
    ensures Join([], run) == run
    ensures Join(run.0, ([], run.1)) == run
  {
    assert [] + run.0 == run.0 + [] == run.0;
  }

  /** One batch of the run from position `i`: it fails when it holds a missing asset, else it is pushed. */
  lemma BatchSpecStep(gateways: seq<string>, start: nat, assets: seq<Option<Asset>>, net: Network,
                      batchSize: int, i: nat, end: nat, settled: seq<Option<Asset>>, next: nat)
    requires |gateways| > 0 && 0 < batchSize && i < |assets|
    requires end == if i + batchSize < |assets| then i + batchSize else |assets|
    requires (settled, next) == EnrichAll(gateways, start, assets[i..end], net)
    ensures None in assets[i..end] ==> BatchSpec(gateways, start, assets[i..], net, batchSize) == (None, next)
    ensures None !in assets[i..end] ==>
      BatchSpec(gateways, start, assets[i..], net, batchSize)
        == Prepend(settled, BatchSpec(gateways, next, assets[end..], net, batchSize))
  {
    assert assets[i..][..Min(batchSize, |assets[i..]|)] == assets[i..end];
    assert assets[i..][Min(batchSize, |assets[i..]|)..] == assets[end..];
  }

  /** One more batch of the loop: the batches left shrink by one. */
  lemma BatchesStep(n: nat, batchSize: int)
    requires 0 < batchSize && 0 < n
    ensures Batches(n, batchSize) == 1 + Batches(n - Min(batchSize, n), batchSize)
  {
  }

  lemma PrependEmpty(run: (Option<seq<Option<Asset>>>, nat))
    ensures Prepend([], run) == run
  {
    if run.0.Some? {
      assert [] + run.0.value == run.0.value;
    }
  }

  lemma PrependAssoc(p: seq<Option<Asset>>, q: seq<Option<Asset>>, run: (Option<seq<Option<Asset>>>, nat))
    ensures Prepend(p, Prepend(q, run)) == Prepend(p + q, run)
  {
    if run.0.Some? {
      assert p + (q + run.0.value) == (p + q) + run.0.value;
    }
  }

  lemma JoinAssoc(p: seq<Option<Asset>>, q: seq<Option<Asset>>, run: (seq<Option<Asset>>, nat))
    ensures Join(p, Join(q, run)) == Join(p + q, run)
  {
    assert p + (q + run.0) == (p + q) + run.0;
  }
}

/** Properties of the fetcher's specification functions. */
module MetadataFacts {
  import opened Wrappers
  import opened Metadata

  /** The search from step `i` finds the first answering step, or reports that none from `i` on answers. */
  lemma {:induction false} FirstLiveFacts(gateways: seq<string>, start: nat, hash: string, head: string -> Probe, i: nat)
    requires |gateways| > 0
    ensures match FirstLive(gateways, start, hash, head, i)
      case Some(j) =>
        && i <= j < |gateways|
        && head(ProbeUrl(gateways, start, j, hash)) == Responded(Ok)
        && forall k | i <= k < j :: head(ProbeUrl(gateways, start, k, hash)) != Responded(Ok)
      case None =>
        forall k | i <= k < |gateways| :: head(ProbeUrl(gateways, start, k, hash)) != Responded(Ok)
    decreases |gateways| - i
  {
    if i < |gateways| && head(ProbeUrl(gateways, start, i, hash)) != Responded(Ok) {
      FirstLiveFacts(gateways, start, hash, head, i + 1);
    }
  }

  /**
   * `tryIpfsGateways` finds a URL exactly when some gateway answers 200; that URL is the
   * hash on the gateway it leaves remembered, every gateway tried before it failed, and
   * when none answers the remembered gateway stays as it was.
   */
  lemma GatewaySearch(gateways: seq<string>, start: nat, hash: string, head: string -> Probe)
    requires 0 < |gateways| && start < |gateways|
    ensures var pick := TryGateways(gateways, start, hash, head);
      && pick.index < |gateways|
      && (pick.url.Some? <==> exists i :: 0 <= i < |gateways| && head(ProbeUrl(gateways, start, i, hash)) == Responded(Ok))
      && (pick.url.Some? ==>
            && pick.url.value == gateways[pick.index] + hash
            && head(pick.url.value) == Responded(Ok)
            && forall k | 0 <= k < ProbeCount(gateways, start, hash, head) - 1 ::
                 head(ProbeUrl(gateways, start, k, hash)) != Responded(Ok))
      && (pick.url.None? ==> pick.index == start && ProbeCount(gateways, start, hash, head) == |gateways|)
  {
    FirstLiveFacts(gateways, start, hash, head, 0);
  }

  /** Within the first round, step `i` from `start` is `start + i`, wrapped once past the end. */
  lemma GatewayAtFirstRound(count: nat, start: nat, i: nat)
    requires start < count && i < count
    ensures GatewayAt(count, start, i) == if start + i < count then start + i else start + i - count
  {
  }

  /** The step at which a search from `start` asks gateway `g`. */
  function StepTo(count: nat, start: nat, g: nat): int {
    if start <= g then g - start else g + count - start
  }

  /** The search visits every gateway exactly once in its first `|gateways|` steps. */
  lemma ProbeOrderCoversAll(count: nat, start: nat)
    requires 0 < count && start < count
    ensures forall g | 0 <= g < count :: 0 <= StepTo(count, start, g) < count && GatewayAt(count, start, StepTo(count, start, g)) == g
    ensures forall i, j | 0 <= i < j < count :: GatewayAt(count, start, i) != GatewayAt(count, start, j)
  {
    forall g | 0 <= g < count ensures 0 <= StepTo(count, start, g) < count && GatewayAt(count, start, StepTo(count, start, g)) == g {
      GatewayAtFirstRound(count, start, StepTo(count, start, g));
    }
    forall i, j | 0 <= i < j < count ensures GatewayAt(count, start, i) != GatewayAt(count, start, j) {
      GatewayAtFirstRound(count, start, i);
      GatewayAtFirstRound(count, start, j);
    }
  }

  /** A remembered gateway that still answers is used again, and it is the only one asked. */
  lemma StickyGateway(gateways: seq<string>, start: nat, hash: string, head: string -> Probe)
    requires 0 < |gateways| && start < |gateways|
    requires head(gateways[start] + hash) == Responded(Ok)
    ensures TryGateways(gateways, start, hash, head) == Pick(Some(gateways[start] + hash), start)
    ensures ProbeCount(gateways, start, hash, head) == 1
  {
    assert ProbeUrl(gateways, start, 0, hash) == gateways[start] + hash;
  }

  /**
   * With the default gateways and nothing remembered yet: when the first two fail and the
   * third answers, the URL is the hash on the third and the remembered index becomes 2.
   */
  lemma ThirdGatewayAnswers(hash: string, head: string -> Probe)
    requires head(DefaultGateways[0] + hash) == Failed
    requires head(DefaultGateways[1] + hash) == Responded(404)
    requires head(DefaultGateways[2] + hash) == Responded(Ok)
    ensures TryGateways(DefaultGateways, 0, hash, head) == Pick(Some(DefaultGateways[2] + hash), 2)
    ensures ProbeCount(DefaultGateways, 0, hash, head) == 3
  {
    assert ProbeUrl(DefaultGateways, 0, 0, hash) == DefaultGateways[0] + hash;
    assert ProbeUrl(DefaultGateways, 0, 1, hash) == DefaultGateways[1] + hash;
    assert ProbeUrl(DefaultGateways, 0, 2, hash) == DefaultGateways[2] + hash;
    assert FirstLive(DefaultGateways, 0, hash, head, 2) == Some(2);
    assert FirstLive(DefaultGateways, 0, hash, head, 1) == Some(2);
  }

  /**
   * `fetchMetadata` gives nothing for a missing or empty URI; only an `ipfs://` URI goes
   * through the gateways (any other URI is fetched as it is and leaves the index alone);
   * when no gateway answers it gives nothing; the index stays a gateway index.
   */
  lemma FetchMetadataCases(gateways: seq<string>, start: nat, tokenURI: Option<string>, net: Network)
    requires 0 < |gateways| && start < |gateways|
    ensures var (doc, index) := FetchMetadataSpec(gateways, start, tokenURI, net);
      && index < |gateways|
      && (!Present(tokenURI) ==> doc.None? && index == start)
      && (Present(tokenURI) && !IsIpfs(tokenURI.value) ==> doc == net.get(tokenURI.value) && index == start)
      && (Present(tokenURI) && IsIpfs(tokenURI.value) ==>
            var pick := TryGateways(gateways, start, IpfsHash(tokenURI.value), net.head);
            && index == pick.index
            && (pick.url.None? ==> doc.None? && index == start)
            && (pick.url.Some? ==> doc == net.get(gateways[index] + IpfsHash(tokenURI.value))))
  {
    if Present(tokenURI) && IsIpfs(tokenURI.value) {
      GatewaySearch(gateways, start, IpfsHash(tokenURI.value), net.head);
    }
  }

  /**
   * `fetchImageUrl` gives a URL exactly when the URI is an `ipfs://` URI some gateway
   * serves (then the URL is the hash on that gateway) or a non-`ipfs` URI that starts
   * with `http` (then the URI itself).
   */
  lemma ImageUrlCases(gateways: seq<string>, start: nat, imageUri: Option<string>, head: string -> Probe)
    requires 0 < |gateways| && start < |gateways|
    ensures var pick := FetchImageSpec(gateways, start, imageUri, head);
      && pick.index < |gateways|
      && (pick.url.Some? <==>
            Present(imageUri) &&
            if IsIpfs(imageUri.value) then
              exists i :: 0 <= i < |gateways| && head(ProbeUrl(gateways, start, i, IpfsHash(imageUri.value))) == Responded(Ok)
            else IsHttp(imageUri.value))
      && (pick.url.Some? && IsIpfs(imageUri.value) ==> pick.url.value == gateways[pick.index] + IpfsHash(imageUri.value))
      && (pick.url.Some? && !IsIpfs(imageUri.value) ==> pick.url == imageUri && pick.index == start)
      && (pick.url.None? ==> pick.index == start)
  {
    if Present(imageUri) && IsIpfs(imageUri.value) {
      GatewaySearch(gateways, start, IpfsHash(imageUri.value), head);
    }
  }

  /** Enrichment never changes which asset it is: id, contract, chain, name and traits are kept. */
  predicate SameAsset(a: Asset, b: Asset) {
    a.tokenId == b.tokenId && a.contractAddress == b.contractAddress && a.chain == b.chain
    && a.name == b.name && a.traits == b.traits
  }

  /**
   * `enrichAssetWithMetadata` rejects only a missing asset. An asset without a usable token
   * id or contract, or whose token has no URI, comes back unchanged without touching the
   * gateways; one whose metadata cannot be fetched comes back unchanged too. A token URI
   * with a fetched document gives the merged asset, with the image resolved after the
   * document. An asset that does change is the same asset carrying the token's URI and
   * owner and the metadata fetched from that URI, with `attributes || traits || []` as its
   * attributes and the resolved image URL.
   */
  lemma EnrichCases(gateways: seq<string>, start: nat, entry: Option<Asset>, net: Network)
    requires 0 < |gateways| && start < |gateways|
    ensures var (outcome, index) := EnrichSpec(gateways, start, entry, net);
      && index < |gateways|
      && (outcome.Rejected? <==> entry.None?)
      && (entry.Some? && (!TokenIdPresent(entry.value.tokenId) || !Present(entry.value.contractAddress)) ==>
            outcome == Fulfilled(entry) && index == start)
      && (entry.Some? && TokenIdPresent(entry.value.tokenId) && Present(entry.value.contractAddress) ==>
            var asset := entry.value;
            var info := net.tokenInfo(asset.contractAddress.value, asset.tokenId.value, ChainOf(asset));
            && (info.None? || info.value.tokenURI == "" ==> outcome == Fulfilled(entry) && index == start)
            && (info.Some? && info.value.tokenURI != "" ==>
                  var (doc, afterDoc) := FetchMetadataSpec(gateways, start, Some(info.value.tokenURI), net);
                  && (doc.None? ==> outcome == Fulfilled(entry) && index == afterDoc)
                  && (doc.Some? ==>
                        var image := FetchImageSpec(gateways, afterDoc, doc.value.image, net.head);
                        outcome == Fulfilled(Some(Merge(asset, doc.value, image.url, info.value)))
                        && index == image.index)))
      && (outcome.Fulfilled? && outcome.value != entry ==>
            var asset, enriched := entry.value, outcome.value.value;
            var info := net.tokenInfo(asset.contractAddress.value, asset.tokenId.value, ChainOf(asset));
            && info.Some? && info.value.tokenURI != ""
            && SameAsset(asset, enriched)
            && enriched.tokenURI == Some(info.value.tokenURI)
            && enriched.owner == Some(info.value.owner)
            && var (doc, afterDoc) := FetchMetadataSpec(gateways, start, Some(info.value.tokenURI), net);
            && doc.Some?
            && enriched.metadata.Some?
            && var m := enriched.metadata.value;
            && m.name == doc.value.name && m.description == doc.value.description
            && m.externalUrl == doc.value.externalUrl && m.attributes == AttributesOf(doc.value)
            && m.image == FetchImageSpec(gateways, afterDoc, doc.value.image, net.head).url)
  {
    if entry.Some? && TokenIdPresent(entry.value.tokenId) && Present(entry.value.contractAddress) {
      var asset := entry.value;
      var info := net.tokenInfo(asset.contractAddress.value, asset.tokenId.value, ChainOf(asset));
      if info.Some? && info.value.tokenURI != "" {
        FetchMetadataCases(gateways, start, Some(info.value.tokenURI), net);
        var (doc, afterDoc) := FetchMetadataSpec(gateways, start, Some(info.value.tokenURI), net);
        if doc.Some? {
          ImageUrlCases(gateways, afterDoc, doc.value.image, net.head);
        }
      }
    }
  }

  /**
   * The evidently intended run of `batchEnrichAssets`, each rejected asset pushed as it is:
   * one asset per input, in input order; a missing asset stays missing, and every other one
   * is the same asset, enriched or not.
   */
  lemma {:induction false} EnrichAllFacts(gateways: seq<string>, start: nat, entries: seq<Option<Asset>>, net: Network)
    requires 0 < |gateways| && start < |gateways|
    ensures var (enriched, index) := EnrichAll(gateways, start, entries, net);
      && index < |gateways|
      && |enriched| == |entries|
      && forall j | 0 <= j < |entries| ::
           (entries[j].None? <==> enriched[j].None?)
           && (entries[j].Some? ==> SameAsset(entries[j].value, enriched[j].value))
    decreases |entries|
  {
    if entries != [] {
      EnrichCases(gateways, start, entries[0], net);
      var (outcome, next) := EnrichSpec(gateways, start, entries[0], net);
      EnrichAllFacts(gateways, next, entries[1..], net);
      var (rest, last) := EnrichAll(gateways, next, entries[1..], net);
      var enriched := EnrichAll(gateways, start, entries, net).0;
      assert enriched == [Settle(entries[0], outcome)] + rest;
      forall j | 0 <= j < |entries|
        ensures (entries[j].None? <==> enriched[j].None?)
        ensures entries[j].Some? ==> SameAsset(entries[j].value, enriched[j].value)
      {
        if j > 0 {
          assert entries[j] == entries[1..][j - 1];
          assert enriched[j] == rest[j - 1];
        }
      }
    }
  }

  /** The batch size changes only the pauses: the number of batches is the ceiling of `n / batchSize`. */
  lemma {:induction false} BatchesCeiling(n: nat, batchSize: nat)
    requires batchSize > 0
    ensures (Batches(n, batchSize) - 1) * batchSize < n <= Batches(n, batchSize) * batchSize || n == 0
    ensures n == 0 <==> Batches(n, batchSize) == 0
    decreases n
  {
    if n > batchSize {
      BatchesCeiling(n - batchSize, batchSize);
    }
  }

  /** Enriching `p + q` is enriching `p`, then `q` from the gateway index `p` leaves. */
  lemma {:induction false} EnrichAllAppend(gateways: seq<string>, start: nat, p: seq<Option<Asset>>,
                                           q: seq<Option<Asset>>, net: Network)
    requires 0 < |gateways|
    ensures var (first, mid) := EnrichAll(gateways, start, p, net);
      EnrichAll(gateways, start, p + q, net) == Join(first, EnrichAll(gateways, mid, q, net))
    decreases |p|
  {
    if p == [] {
      assert p + q == q;
      JoinEmpty(EnrichAll(gateways, start, q, net));
    } else {
      var (outcome, next) := EnrichSpec(gateways, start, p[0], net);
      assert (p + q)[0] == p[0] && (p + q)[1..] == p[1..] + q;
      EnrichAllAppend(gateways, next, p[1..], q, net);
      var (first, mid) := EnrichAll(gateways, next, p[1..], net);
      JoinAssoc([Settle(p[0], outcome)], first, EnrichAll(gateways, mid, q, net));
    }
  }

  /**
   * The first batch holding a missing asset: the loop reaches it in round `round`, so it
   * starts at `s` and ends at `k`; every asset before it is present.
   */
  predicate FailingBatch(assets: seq<Option<Asset>>, batchSize: int, round: nat, s: int, k: int)
    requires 0 < batchSize
  {
    && s == LoopIndexAfter(batchSize, round)
    && 0 <= s < k <= |assets|
    && k == Min(s + batchSize, |assets|)
    && (forall j | 0 <= j < s :: assets[j].Some?)
    && None in assets[s..k]
  }

  /**
   * `batchEnrichAssets` as written returns a list exactly when no asset is missing, and then
   * the batching changes nothing: the list and the gateway index are those of enriching
   * the assets one after another.
   */
  lemma {:induction false} BatchOutcome(gateways: seq<string>, start: nat, assets: seq<Option<Asset>>,
                                        net: Network, batchSize: int)
    requires 0 < |gateways| && start < |gateways| && 0 < batchSize
    ensures var run := BatchSpec(gateways, start, assets, net, batchSize);
      && run.1 < |gateways|
      && (run.0.Some? <==> forall j | 0 <= j < |assets| :: assets[j].Some?)
      && (run.0.Some? ==> run == (Some(EnrichAll(gateways, start, assets, net).0), EnrichAll(gateways, start, assets, net).1))
    decreases |assets|
  {
    if assets != [] {
      var n := Min(batchSize, |assets|);
      var batch := assets[..n];
      EnrichAllFacts(gateways, start, batch, net);
      if None in batch {
        var j :| 0 <= j < |batch| && batch[j] == None;
        assert assets[j].None?;
      } else {
        BatchOutcomeStep(gateways, start, assets, net, batchSize);
      }
    }
  }

  /** The recursive case of `BatchOutcome`: the first batch holds no missing asset. */
  lemma {:induction false} BatchOutcomeStep(gateways: seq<string>, start: nat, assets: seq<Option<Asset>>,
                                            net: Network, batchSize: int)
    requires 0 < |gateways| && start < |gateways| && 0 < batchSize && assets != []
    requires None !in assets[..Min(batchSize, |assets|)]
    ensures var run := BatchSpec(gateways, start, assets, net, batchSize);
      && run.1 < |gateways|
      && (run.0.Some? <==> forall j | 0 <= j < |assets| :: assets[j].Some?)
      && (run.0.Some? ==> run == (Some(EnrichAll(gateways, start, assets, net).0), EnrichAll(gateways, start, assets, net).1))
    decreases |assets|, 0
  {
    var n := Min(batchSize, |assets|);
    var batch, rest := assets[..n], assets[n..];
    assert assets == batch + rest;
    var (settled, next) := EnrichAll(gateways, start, batch, net);
    EnrichAllFacts(gateways, start, batch, net);
    forall j | 0 <= j < n ensures assets[j].Some? { assert batch[j] in batch; }
    BatchOutcome(gateways, next, rest, net, batchSize);
    EnrichAllAppend(gateways, start, batch, rest, net);
    AllPresentSplit(assets, n);
  }

  /** Every asset is present exactly when every one of the first `n` and of the rest is. */
  lemma AllPresentSplit(assets: seq<Option<Asset>>, n: nat)
    requires n <= |assets|
    ensures (forall j | 0 <= j < |assets| :: assets[j].Some?)
      <==> (forall j | 0 <= j < n :: assets[j].Some?) && (forall j | 0 <= j < |assets| - n :: assets[n..][j].Some?)
  {
    if forall j | 0 <= j < n :: assets[j].Some? {
      if forall j | 0 <= j < |assets| - n :: assets[n..][j].Some? {
        forall j | n <= j < |assets| ensures assets[j].Some? { assert assets[j] == assets[n..][j - n]; }
      }
    }
  }

  /** A failing batch of the assets after a first batch without missing assets is failing for all. */
  lemma FailingBatchShift(assets: seq<Option<Asset>>, batchSize: int, round: nat, s: int, k: int)
    requires 0 < batchSize < |assets|
    requires forall j | 0 <= j < batchSize :: assets[j].Some?
    requires FailingBatch(assets[batchSize..], batchSize, round, s, k)
    ensures FailingBatch(assets, batchSize, round + 1, s + batchSize, k + batchSize)
  {
    var rest := assets[batchSize..];
    var t :| 0 <= t < k - s && rest[s..k][t] == None;
    assert rest[s + t] == assets[s + batchSize + t];
    assert assets[s + batchSize..k + batchSize][t] == None;
    forall j | 0 <= j < s + batchSize ensures assets[j].Some? {
      if j >= batchSize { assert assets[j] == rest[j - batchSize]; }
    }
  }

  /**
   * When `batchEnrichAssets` as written rejects, it has enriched every asset up to the end
   * of the first batch that holds a missing asset, and no further.
   */
  lemma {:induction false} BatchFailure(gateways: seq<string>, start: nat, assets: seq<Option<Asset>>,
                                        net: Network, batchSize: int)
    requires 0 < |gateways| && start < |gateways| && 0 < batchSize
    requires BatchSpec(gateways, start, assets, net, batchSize).0.None?
    ensures exists round, s, k :: (FailingBatch(assets, batchSize, round, s, k)
      && BatchSpec(gateways, start, assets, net, batchSize).1 == EnrichAll(gateways, start, assets[..k], net).1)
    decreases |assets|
  {
    var n := Min(batchSize, |assets|);
    var batch, rest := assets[..n], assets[n..];
    var (settled, next) := EnrichAll(gateways, start, batch, net);
    if None in batch {
      assert assets[0..n] == batch;
      assert FailingBatch(assets, batchSize, 0, 0, n);
    } else {
      assert BatchSpec(gateways, next, rest, net, batchSize).0.None?;
      assert rest != [];
      BatchFailureStep(gateways, start, assets, net, batchSize);
    }
  }

  /** Taking `n + m` items is taking `n`, then `m` of what follows. */
  lemma TakeSplit<T>(xs: seq<T>, n: nat, m: nat)
    requires n + m <= |xs|
    ensures xs[..n + m] == xs[..n] + xs[n..][..m]
  {
  }

  /** The recursive case of `BatchFailure`: the first batch holds no missing asset. */
  lemma {:induction false} BatchFailureStep(gateways: seq<string>, start: nat, assets: seq<Option<Asset>>,
                                            net: Network, batchSize: int)
    requires 0 < |gateways| && start < |gateways| && 0 < batchSize < |assets|
    requires None !in assets[..batchSize]
    requires BatchSpec(gateways, start, assets, net, batchSize).0.None?
    ensures exists round, s, k :: (FailingBatch(assets, batchSize, round, s, k)
      && BatchSpec(gateways, start, assets, net, batchSize).1 == EnrichAll(gateways, start, assets[..k], net).1)
    decreases |assets|, 0
  {
    var batch, rest := assets[..batchSize], assets[batchSize..];
    var (settled, next) := EnrichAll(gateways, start, batch, net);
    EnrichAllFacts(gateways, start, batch, net);
    var tail := BatchSpec(gateways, next, rest, net, batchSize);
    assert BatchSpec(gateways, start, assets, net, batchSize) == Prepend(settled, tail);
    BatchFailure(gateways, next, rest, net, batchSize);
    var round: nat, s': int, k': int :| FailingBatch(rest, batchSize, round, s', k')
                         && tail.1 == EnrichAll(gateways, next, rest[..k'], net).1;
    forall j | 0 <= j < batchSize ensures assets[j].Some? { assert batch[j] in batch; }
    FailingBatchShift(assets, batchSize, round, s', k');
    TakeSplit(assets, batchSize, k');
    EnrichAllAppend(gateways, start, batch, rest[..k'], net);
    assert EnrichAll(gateways, start, assets[..k' + batchSize], net).1 == tail.1;
    assert FailingBatch(assets, batchSize, round + 1, s' + batchSize, k' + batchSize);
  }

  /**
   * Counterexample: a missing asset, which the push of src/metadata.js:136 was written to
   * keep, makes the whole call reject instead.
   */
  lemma MissingAssetAbortsBatch(net: Network, batchSize: int)
    requires 0 < batchSize
    ensures BatchSpec(DefaultGateways, 0, [None], net, batchSize) == (None, 0)
    ensures EnrichAll(DefaultGateways, 0, [None], net) == ([None], 0)
  {
    var assets: seq<Option<Asset>> := [None];
    assert assets[..Min(batchSize, 1)] == assets;
    assert assets[1..] == [];
    assert EnrichSpec(DefaultGateways, 0, None, net) == (Rejected(MissingAsset), 0);
    assert EnrichAll(DefaultGateways, 0, assets[1..], net) == ([], 0);
    assert EnrichAll(DefaultGateways, 0, assets, net) == ([None] + [], 0);
    assert [None] + [] == assets;
  }

  /**
   * Counterexample: with a batch size of 0 or less the loop variable never moves forward,
   * so for a non-empty list the loop condition holds after every number of rounds.
   */
  lemma {:induction false} NonPositiveBatchNeverEnds(batchSize: int, count: nat, rounds: nat)
    requires batchSize <= 0 && 0 < count
    ensures LoopIndexAfter(batchSize, rounds) <= 0 < count
  {
    if rounds > 0 {
      NonPositiveBatchNeverEnds(batchSize, count, rounds - 1);
    }
  }

  /** With a positive batch size the loop variable never goes below 0 and grows every round. */
  lemma {:induction false} LoopIndexGrows(batchSize: int, rounds: nat)
    requires 0 < batchSize
    ensures 0 <= LoopIndexAfter(batchSize, rounds)
    ensures 0 < rounds ==> batchSize <= LoopIndexAfter(batchSize, rounds)
  {
    if rounds > 0 {
      LoopIndexGrows(batchSize, rounds - 1);
    }
  }

  /**
   * With a positive batch size the loop runs exactly `Batches(count, batchSize)` rounds:
   * the condition `i < count` holds after `r` rounds exactly when `r` is below that number.
   */
  lemma {:induction false} BatchRounds(count: nat, batchSize: int, rounds: nat)
    requires 0 < batchSize
    ensures LoopIndexAfter(batchSize, rounds) < count <==> rounds < Batches(count, batchSize)
    decreases count
  {
    LoopIndexGrows(batchSize, rounds);
    if count > batchSize && rounds > 0 {
      BatchRounds(count - batchSize, batchSize, rounds - 1);
      assert LoopIndexAfter(batchSize, rounds) == LoopIndexAfter(batchSize, rounds - 1) + batchSize;
    }
  }
}
