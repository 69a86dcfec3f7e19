/** `updateTokenData`: one reconciliation cycle of the `allTokens`
    collection against the upstream listing. The store is read once; each
    listed token is then merged, in listing order, with the record the
    snapshot holds for its index and with its detail response, and the merged
    record is inserted or written over the stored one with `$set`. */
module Reconcile {
  import opened JsValues
  import opened RateLimit
  import opened DataClient

  /** The floating-point steps the controller leaves to the JavaScript engine:
      `parseFloat(String(v))`, `(a / b).toString()` and `(a * b).toFixed(2)`. */
  datatype FloatOps = FloatOps(
    parseFloat: Json -> Float,
    quotientString: (Float, Float) -> string,
    productFixed2: (Float, Float) -> string)

  /** The `tokenData` object written for one listed token. */
  datatype TokenData = TokenData(
    name: Json, tokenId: Json, index: int, tokenIndex: int,
    startPx: Json, markPx: Json, launchDate: Json, auctionPrice: Json,
    launchCircSupply: Json, launchMarketCap: Json,
    teamAllocation: Json, airdrop1: Json, airdrop2: Json,
    devReputation: Json, spreadLessThanThree: Json, thickObLiquidity: Json, noSellPressure: Json,
    twitter: Json, telegram: Json, discord: Json, website: Json, comment: Json,
    lastUpdated: string)

  /** The fields of `tokenData`: the ones a cycle writes. The detail
      response's own names and every other name are not among them. */
  predicate IsRecordKey(k: Key) {
    !k.Other? && !k.DeployTime? && !k.SeededUsdc? && !k.CirculatingSupply?
  }

  /** `tokenData` as the document the store receives. */
  function ToDocument(t: TokenData): (d: Document)
    ensures forall k :: k in d <==> IsRecordKey(k)
    ensures TokenIndex in d && d[TokenIndex] == IntNum(t.tokenIndex)
  {
    map[
      Name := t.name, TokenId := t.tokenId,
      Index := IntNum(t.index), TokenIndex := IntNum(t.tokenIndex),
      StartPx := t.startPx, MarkPx := t.markPx, LaunchDate := t.launchDate,
      AuctionPrice := t.auctionPrice, LaunchCircSupply := t.launchCircSupply,
      LaunchMarketCap := t.launchMarketCap,
      TeamAllocation := t.teamAllocation, Airdrop1 := t.airdrop1, Airdrop2 := t.airdrop2,
      DevReputation := t.devReputation, SpreadLessThanThree := t.spreadLessThanThree,
      ThickObLiquidity := t.thickObLiquidity, NoSellPressure := t.noSellPressure,
      Twitter := t.twitter, Telegram := t.telegram, Discord := t.discord,
      Website := t.website, Comment := t.comment,
      LastUpdated := Str(t.lastUpdated)]
  }

  /** `d[key] === index`, the match of both `Array.prototype.find` and the
      store's `{key: index}` filter. */
  predicate Matches(d: Document, key: Key, index: int) {
    Get(d, key) == IntNum(index)
  }

  /** Position of the first document whose `key` is `index`. */
  function FirstMatch(docs: seq<Document>, key: Key, index: int): (r: Option<nat>)
    ensures r.Some? ==> r.value < |docs| && Matches(docs[r.value], key, index)
    ensures r.Some? ==> forall j | 0 <= j < r.value :: !Matches(docs[j], key, index)
    ensures r.None? ==> forall j | 0 <= j < |docs| :: !Matches(docs[j], key, index)
  {
    if docs == [] then None
    else if Matches(docs[0], key, index) then Some(0)
    else
      match FirstMatch(docs[1..], key, index)
      case None => None
      case Some(k) => Some(k + 1)
  }

  /** `docs.find(t => t[key] === index)`: the first matching document. */
  function Find(docs: seq<Document>, key: Key, index: int): (r: Option<Document>)
    ensures r.Some? <==> exists j | 0 <= j < |docs| :: Matches(docs[j], key, index)
    ensures r.Some? ==> r.value in docs && Matches(r.value, key, index)
    ensures r.None? <==> FirstMatch(docs, key, index).None?
    ensures r.Some? ==> r.value == docs[FirstMatch(docs, key, index).value]
  {
    match FirstMatch(docs, key, index)
    case None => None
    case Some(k) => Some(docs[k])
  }

  /** `v || fallback` written into `field`: the source value when truthy,
      otherwise the fallback. */
  predicate DefaultsTo(field: Json, source: Json, fallback: Json) {
    if Truthy(source) then field == source else field == fallback
  }

  /** `deployTime?.split('T')[0] || null`; `None` when `split` throws because
      the value is neither nullish nor a string. */
  function LaunchDateOf(deployTime: Json): (r: Option<Json>)
    ensures r.None? <==> !(deployTime.Undefined? || deployTime.Null? || deployTime.Str?)
    ensures r.Some? && r.value != Null ==>
      deployTime.Str? && r.value.Str? && r.value.s != ""
      && |r.value.s| <= |deployTime.s| && r.value.s == deployTime.s[..|r.value.s|] && 'T' !in r.value.s
      && (|r.value.s| < |deployTime.s| ==> deployTime.s[|r.value.s|] == 'T')
    ensures deployTime.Str? && deployTime.s != [] && deployTime.s[0] != 'T' ==> r.Some? && r.value.Str?
  {
    match deployTime
    case Undefined => Some(Null)
    case Null => Some(Null)
    case Str(s) => Some(Or(Str(BeforeFirst(s, 'T')), Null))
    case _ => None
  }

  /** `auctionPrice`: seeded USDC over circulating supply, when the seeded
      amount is truthy and does not parse to zero. */
  function AuctionPriceOf(seededUsdc: Json, circulatingSupply: Json, ops: FloatOps): (r: Json)
    ensures r != Null <==> Truthy(seededUsdc) && !ops.parseFloat(seededUsdc).IsZero()
    ensures r == Null || r.Str?
  {
    if Truthy(seededUsdc) && !ops.parseFloat(seededUsdc).IsZero() then
      Str(ops.quotientString(ops.parseFloat(seededUsdc), ops.parseFloat(circulatingSupply)))
    else Null
  }

  /** `launchMarketCap`: start price times circulating supply to two
      decimals, when both are truthy. */
  function MarketCapOf(startPx: Json, circulatingSupply: Json, ops: FloatOps): (r: Json)
    ensures r != Null <==> Truthy(startPx) && Truthy(circulatingSupply)
    ensures r == Null || r.Str?
  {
    if Truthy(startPx) && Truthy(circulatingSupply) then
      Str(ops.productFixed2(ops.parseFloat(startPx), ops.parseFloat(circulatingSupply)))
    else Null
  }

  /** `airdropN`: the detail response's value when it is defined, otherwise
      the stored value or `null`. */
  function Airdrop(detail: Json, prior: Json): (r: Json)
    ensures detail != Undefined ==> r == detail
    ensures detail == Undefined ==> DefaultsTo(r, prior, Null)
  {
    if detail != Undefined then detail else Or(prior, Null)
  }

  /** The merged record for `token`, built from the listing entry, the
      snapshot record `existing`, the detail response, and the `startPx`
      reference entry. `None` when building it throws. */
  function Merge(token: ListedToken, existing: Option<Document>, details: Document,
                 startPxEntry: Option<Document>, ops: FloatOps, lastUpdated: string): (r: Option<TokenData>)
    ensures r.None? <==> LaunchDateOf(Get(details, DeployTime)).None?
    ensures r.Some? ==> var t := r.value;
      // identity from the listing
      && t.name == token.name && t.tokenId == token.tokenId
      && t.index == token.index && t.tokenIndex == token.index
      // reference and machine-derived fields
      && DefaultsTo(t.startPx, Prior(startPxEntry, StartPx), Null)
      && DefaultsTo(t.markPx, Get(details, MarkPx), Null)
      && t.launchDate == LaunchDateOf(Get(details, DeployTime)).value
      && (t.auctionPrice != Null <==> Truthy(Get(details, SeededUsdc))
                                      && !ops.parseFloat(Get(details, SeededUsdc)).IsZero())
      && DefaultsTo(t.launchCircSupply, Get(details, CirculatingSupply), Null)
      && (t.launchMarketCap != Null <==> Truthy(t.startPx) && Truthy(Get(details, CirculatingSupply)))
      // curated fields carried over from the snapshot record
      && DefaultsTo(t.teamAllocation, Prior(existing, TeamAllocation), Null)
      && DefaultsTo(t.devReputation, Prior(existing, DevReputation), Bool(false))
      && DefaultsTo(t.spreadLessThanThree, Prior(existing, SpreadLessThanThree), Bool(false))
      && DefaultsTo(t.thickObLiquidity, Prior(existing, ThickObLiquidity), Bool(false))
      && DefaultsTo(t.noSellPressure, Prior(existing, NoSellPressure), Bool(false))
      && DefaultsTo(t.twitter, Prior(existing, Twitter), Str(""))
      && DefaultsTo(t.telegram, Prior(existing, Telegram), Str(""))
      && DefaultsTo(t.discord, Prior(existing, Discord), Str(""))
      && DefaultsTo(t.website, Prior(existing, Website), Str(""))
      && DefaultsTo(t.comment, Prior(existing, Comment), Str(""))
      // airdrops: the detail response wins when it defines them
      && (Get(details, Airdrop1) != Undefined ==> t.airdrop1 == Get(details, Airdrop1))
      && (Get(details, Airdrop1) == Undefined ==> DefaultsTo(t.airdrop1, Prior(existing, Airdrop1), Null))
      && (Get(details, Airdrop2) != Undefined ==> t.airdrop2 == Get(details, Airdrop2))
      && (Get(details, Airdrop2) == Undefined ==> DefaultsTo(t.airdrop2, Prior(existing, Airdrop2), Null))
      && t.lastUpdated == lastUpdated
  {
    var startPx := Or(Prior(startPxEntry, StartPx), Null);
    var airdrop1 := Airdrop(Get(details, Airdrop1), Prior(existing, Airdrop1));
    var airdrop2 := Airdrop(Get(details, Airdrop2), Prior(existing, Airdrop2));
    var circulatingSupply := Get(details, CirculatingSupply);
    match LaunchDateOf(Get(details, DeployTime))
    case None => None
    case Some(launchDate) =>
      Some(TokenData(
        name := token.name, tokenId := token.tokenId, index := token.index, tokenIndex := token.index,
        startPx := startPx,
        markPx := Or(Get(details, MarkPx), Null),
        launchDate := launchDate,
        auctionPrice := AuctionPriceOf(Get(details, SeededUsdc), circulatingSupply, ops),
        launchCircSupply := Or(circulatingSupply, Null),
        launchMarketCap := MarketCapOf(startPx, circulatingSupply, ops),
        teamAllocation := Or(Prior(existing, TeamAllocation), Null),
        airdrop1 := airdrop1, airdrop2 := airdrop2,
        devReputation := Or(Prior(existing, DevReputation), Bool(false)),
        spreadLessThanThree := Or(Prior(existing, SpreadLessThanThree), Bool(false)),
        thickObLiquidity := Or(Prior(existing, ThickObLiquidity), Bool(false)),
        noSellPressure := Or(Prior(existing, NoSellPressure), Bool(false)),
        twitter := Or(Prior(existing, Twitter), Str("")),
        telegram := Or(Prior(existing, Telegram), Str("")),
        discord := Or(Prior(existing, Discord), Str("")),
        website := Or(Prior(existing, Website), Str("")),
        comment := Or(Prior(existing, Comment), Str("")),
        lastUpdated := lastUpdated))
  }

  /** The operator-curated fields: a cycle carries each over from the
      stored record when it is truthy, and writes its default otherwise. */
  predicate IsCuratedKey(k: Key) {
    || k.TeamAllocation? || k.DevReputation? || k.SpreadLessThanThree? || k.ThickObLiquidity?
    || k.NoSellPressure? || k.Twitter? || k.Telegram? || k.Discord? || k.Website? || k.Comment?
  }

  /** The default of a curated field: `null`, `false` or `""`. */
  function CuratedDefault(k: Key): (r: Json)
    requires IsCuratedKey(k)
    ensures !Truthy(r)
  {
    if k.TeamAllocation? then Null
    else if k.DevReputation? || k.SpreadLessThanThree? || k.ThickObLiquidity? || k.NoSellPressure? then Bool(false)
    else Str("")
  }

  /** The value of a curated field of `tokenData`. */
  function CuratedField(t: TokenData, k: Key): Json
    requires IsCuratedKey(k)
  {
    match k
    case TeamAllocation => t.teamAllocation
    case DevReputation => t.devReputation
    case SpreadLessThanThree => t.spreadLessThanThree
    case ThickObLiquidity => t.thickObLiquidity
    case NoSellPressure => t.noSellPressure
    case Twitter => t.twitter
    case Telegram => t.telegram
    case Discord => t.discord
    case Website => t.website
    case Comment => t.comment
  }

  /** The document the store receives carries each curated field. */
  lemma ToDocumentCurated(t: TokenData, k: Key)
    requires IsCuratedKey(k)
    ensures k in ToDocument(t) && ToDocument(t)[k] == CuratedField(t, k)
  {
    var d := ToDocument(t);
    assert k in d;
  }

  /** Every curated field of a merged record is the stored record's value
      when truthy, else the field's default. */
  lemma MergeCurated(token: ListedToken, existing: Option<Document>, details: Document,
                     startPxEntry: Option<Document>, ops: FloatOps, lastUpdated: string)
    requires Merge(token, existing, details, startPxEntry, ops, lastUpdated).Some?
    ensures var d := ToDocument(Merge(token, existing, details, startPxEntry, ops, lastUpdated).value);
      forall k | IsCuratedKey(k) :: k in d && d[k] == Or(Prior(existing, k), CuratedDefault(k))
  {
    var t := Merge(token, existing, details, startPxEntry, ops, lastUpdated).value;
    forall k | IsCuratedKey(k)
      ensures k in ToDocument(t) && ToDocument(t)[k] == Or(Prior(existing, k), CuratedDefault(k))
    {
      ToDocumentCurated(t, k);
    }
  }

  /** Merging is idempotent on the curated fields: merging again against the
      record an earlier merge was `$set` over, whatever the token, details and
      reference entry of either merge, writes the same curated values. */
  lemma RemergeKeepsCurated(token: ListedToken, existing: Option<Document>, details: Document,
                            startPxEntry: Option<Document>, ops: FloatOps, lastUpdated: string, first: TokenData,
                            base: Document,
                            token': ListedToken, details': Document,
                            startPxEntry': Option<Document>, ops': FloatOps, lastUpdated': string, second: TokenData)
    requires Merge(token, existing, details, startPxEntry, ops, lastUpdated) == Some(first)
    requires Merge(token', Some(base + ToDocument(first)), details', startPxEntry', ops', lastUpdated') == Some(second)
    ensures forall k | IsCuratedKey(k) :: CuratedField(second, k) == CuratedField(first, k)
  {
    var stored := base + ToDocument(first);
    MergeCurated(token, existing, details, startPxEntry, ops, lastUpdated);
    MergeCurated(token', Some(stored), details', startPxEntry', ops', lastUpdated');
    forall k | IsCuratedKey(k)
      ensures CuratedField(second, k) == CuratedField(first, k)
    {
      ToDocumentCurated(first, k);
      ToDocumentCurated(second, k);
      var v := Prior(existing, k);
      assert Get(stored, k) == Or(v, CuratedDefault(k));
    }
  }

  /** What the environment does for one listed token: the detail responses
      attempt by attempt, how long the store write takes and whether it
      throws, and the `new Date().toISOString()` stamp of the record. */
  datatype TokenInput = TokenInput(details: nat -> Attempt<DetailsBody>, writeLatency: nat, writeFails: bool,
                                   lastUpdated: string)

  /** What the environment does during a cycle: how long reading the two
      collections takes (until both returned or one threw) and whether one
      throws, the listing responses, and the inputs of the token at each
      position of the listing. */
  datatype CycleInput = CycleInput(readLatency: nat, readFails: bool, spotMeta: nat -> Attempt<SpotMetaBody>,
                                   perToken: nat -> TokenInput)

  /** A store write. */
  datatype Write = Insert(doc: Document) | Update(index: int, patch: Document)
  {
    /** The record the write sends to the store. */
    function Record(): Document {
      if Insert? then doc else patch
    }
  }

  /** `updateOne({tokenIndex: index}, {$set: patch})`: the first matching
      document gets the patch's fields; nothing changes when none matches. */
  function UpdateFirst(docs: seq<Document>, index: int, patch: Document): (r: seq<Document>)
    ensures |r| == |docs|
    ensures forall j | 0 <= j < |docs| && !Matches(docs[j], TokenIndex, index) :: r[j] == docs[j]
    ensures FirstMatch(docs, TokenIndex, index).None? ==> r == docs
    ensures FirstMatch(docs, TokenIndex, index).Some? ==> var k := FirstMatch(docs, TokenIndex, index).value;
      && r[k] == docs[k] + patch
      && forall j | 0 <= j < |docs| && j != k :: r[j] == docs[j]
  {
    match FirstMatch(docs, TokenIndex, index)
    case None => docs
    case Some(k) => docs[k := docs[k] + patch]
  }

  /** A write applied to the store: an insert appends, an update keeps the
      number of records. */
  function Apply(docs: seq<Document>, w: Option<Write>): (r: seq<Document>)
    ensures |r| == |docs| + (if w.Some? && w.value.Insert? then 1 else 0)
    ensures w.None? ==> r == docs
    ensures w.Some? && w.value.Insert? ==> r == docs + [w.value.doc]
    ensures w.Some? && w.value.Update? ==> r == UpdateFirst(docs, w.value.index, w.value.patch)
  {
    match w
    case None => docs
    case Some(Insert(d)) => docs + [d]
    case Some(Update(i, p)) => UpdateFirst(docs, i, p)
  }

  /** The loop body for a token reaches its store write: the detail call
      settled with a response and `launchDate` could be built from it. */
  predicate ReachesWrite(input: TokenInput) {
    match Settled(DetailsAttempts(input.details), 0)
    case Err(_) => false
    case Ok(details) => LaunchDateOf(Get(details, DeployTime)).Some?
  }

  /** The record the loop body builds for a token (`tokenData`): the merge
      against the first snapshot record with the token's index and the
      first reference entry with it, from the details the request settled
      to. `None` when the request or the merge throws. */
  function Merged(snapshot: seq<Document>, startPxData: seq<Document>, token: ListedToken,
                  input: TokenInput, ops: FloatOps): (r: Option<TokenData>)
    ensures r.Some? <==> ReachesWrite(input)
  {
    match Settled(DetailsAttempts(input.details), 0)
    case Err(_) => None
    case Ok(details) =>
      Merge(token, Find(snapshot, TokenIndex, token.index), details, Find(startPxData, Index, token.index),
            ops, input.lastUpdated)
  }

  /** The write that a built record leads to: none when no record was built
      or the write throws, an insert of it when no stored record has the
      token's index, otherwise a `$set` of it at that index. */
  function WriteOf(data: Option<TokenData>, writeFails: bool, stored: Option<Document>, index: int): (r: Option<Write>)
    ensures r.Some? <==> data.Some? && !writeFails
    ensures r.Some? ==> r.value.Record() == ToDocument(data.value)
  {
    if data.None? || writeFails then None
    else if stored.None? then Some(Insert(ToDocument(data.value)))
    else Some(Update(index, ToDocument(data.value)))
  }

  /** The write one listed token leads to, if any. It depends on the
      snapshot, the reference table and that token's own inputs only: a
      token whose detail call fails, whose record cannot be built, or whose
      write throws is skipped and affects no other token. */
  function PlannedWrite(snapshot: seq<Document>, startPxData: seq<Document>, token: ListedToken,
                        input: TokenInput, ops: FloatOps): (r: Option<Write>)
    ensures r.Some? <==> ReachesWrite(input) && !input.writeFails
    ensures r.Some? && r.value.Insert? <==> r.Some? && Find(snapshot, TokenIndex, token.index).None?
    ensures r.Some? && r.value.Update? ==> r.value.index == token.index
  {
    WriteOf(Merged(snapshot, startPxData, token, input, ops), input.writeFails,
            Find(snapshot, TokenIndex, token.index), token.index)
  }

  /** What a token's write sends to the store, inserted or `$set`, is the
      record the loop body built for it. */
  lemma PlannedWriteRecord(snapshot: seq<Document>, startPxData: seq<Document>, token: ListedToken,
                           input: TokenInput, ops: FloatOps)
    ensures var r := PlannedWrite(snapshot, startPxData, token, input, ops);
      r.Some? ==> r.value.Record() == ToDocument(Merged(snapshot, startPxData, token, input, ops).value)
  {
    var data := Merged(snapshot, startPxData, token, input, ops);
    assert PlannedWrite(snapshot, startPxData, token, input, ops)
      == WriteOf(data, input.writeFails, Find(snapshot, TokenIndex, token.index), token.index);
  }

  /** The writes of the listed tokens, in listing order. Each is planned
      against the snapshot read before the loop, which is never refreshed. */
  function PlanWrites(snapshot: seq<Document>, startPxData: seq<Document>, tokens: seq<ListedToken>,
                      perToken: nat -> TokenInput, ops: FloatOps): (ws: seq<Option<Write>>)
    ensures |ws| == |tokens|
  {
    seq(|tokens|, n requires 0 <= n < |tokens| => PlannedWrite(snapshot, startPxData, tokens[n], perToken(n), ops))
  }

  /** The store after the first `m` writes of `ws`, starting from `docs`. */
  function Replay(docs: seq<Document>, ws: seq<Option<Write>>, m: nat): (r: seq<Document>)
    requires m <= |ws|
    ensures |docs| <= |r| <= |docs| + m
  {
    if m == 0 then docs else Apply(Replay(docs, ws, m - 1), ws[m - 1])
  }

  /** The limiter after the loop body for one token: its detail request,
      then the time its store write takes when the body reaches it. */
  function AfterToken(s: LimiterState, input: TokenInput): LimiterState {
    var fetched := Execute(s, TokenDetailsWeight, DetailsAttempts(input.details), 0).state;
    if ReachesWrite(input) then Elapse(fetched, input.writeLatency) else fetched
  }

  /** The limiter after the loop bodies of the first `m` listed tokens. */
  function LimiterAfter(limiter: LimiterState, perToken: nat -> TokenInput, m: nat): (r: LimiterState)
    ensures Scheduled(limiter) ==> Scheduled(r)
    ensures AlignedWithinBudget(limiter) ==> AlignedWithinBudget(r)
  {
    if m == 0 then limiter
    else
      var prev := LimiterAfter(limiter, perToken, m - 1);
      AfterTokenKeepsLimits(prev, perToken(m - 1));
      AfterToken(prev, perToken(m - 1))
  }

  /** The loop body for one token leaves the reset timer scheduled, and with
      the timer ticking on minute boundaries it keeps the counter within the
      budget. */
  lemma AfterTokenKeepsLimits(s: LimiterState, input: TokenInput)
    ensures Scheduled(s) ==> Scheduled(AfterToken(s, input))
    ensures AlignedWithinBudget(s) ==> AlignedWithinBudget(AfterToken(s, input))
  {
    var request := DetailsAttempts(input.details);
    var fetched := Execute(s, TokenDetailsWeight, request, 0).state;
    ElapseClears(fetched, input.writeLatency);
    if Scheduled(s) {
      ExecuteKeepsSchedule(s, TokenDetailsWeight, request, 0);
    }
    if AlignedWithinBudget(s) {
      AlignedRequestWithinBudget(s, TokenDetailsWeight, request, 0);
      ElapseKeepsAligned(fetched, input.writeLatency);
    }
  }

  /** The store contents and the limiter state after a cycle. */
  datatype CycleState = CycleState(docs: seq<Document>, limiter: LimiterState)

  /** A whole cycle. A failure to read the store or to fetch the listing ends
      it with nothing written; it never reaches the caller. */
  function Cycle(docs: seq<Document>, startPxData: seq<Document>, limiter: LimiterState,
                 input: CycleInput, ops: FloatOps): (r: CycleState)
    ensures input.readFails ==> r == CycleState(docs, Elapse(limiter, input.readLatency))
    ensures Settled(SpotMetaAttempts(input.spotMeta), 0).Err? ==> r.docs == docs
    ensures |docs| <= |r.docs|
  {
    var read := Elapse(limiter, input.readLatency);
    if input.readFails then CycleState(docs, read)
    else
      var listed := Execute(read, SpotMetaWeight, SpotMetaAttempts(input.spotMeta), 0);
      match Settled(SpotMetaAttempts(input.spotMeta), 0)
      case Err(_) => CycleState(docs, listed.state)
      case Ok(tokens) =>
        CycleState(Replay(docs, PlanWrites(docs, startPxData, tokens, input.perToken, ops), |tokens|),
                   LimiterAfter(listed.state, input.perToken, |tokens|))
  }

  /** The two collections of the database the controller touches. */
  class TokenStore {
    var allTokens: seq<Document>
    var startPx: seq<Document>

    constructor (allTokens: seq<Document>, startPx: seq<Document>)
      ensures this.allTokens == allTokens && this.startPx == startPx
    {
      this.allTokens := allTokens;
      this.startPx := startPx;
    }

    /** `insertOne(doc)`. */
    method InsertOne(doc: Document)
      modifies this
      ensures allTokens == old(allTokens) + [doc] && startPx == old(startPx)
    {
      allTokens := allTokens + [doc];
    }

    /** `updateOne({tokenIndex: index}, {$set: patch})`, returning the
        matched count. */
    method UpdateOne(index: int, patch: Document) returns (matched: nat)
      modifies this
      ensures allTokens == UpdateFirst(old(allTokens), index, patch) && startPx == old(startPx)
      ensures matched == (if FirstMatch(old(allTokens), TokenIndex, index).Some? then 1 else 0)
    {
      matched := 0;
      var k := FirstMatch(allTokens, TokenIndex, index);
      if k.Some? {
        allTokens := allTokens[k.value := allTokens[k.value] + patch];
        matched := 1;
      }
    }
  }

  /** The body of the loop in `updateTokenData` for the listed token at
      position `i`. */
  method ReconcileToken(db: TokenStore, limiter: RateLimiter, currentTokens: seq<Document>,
                        startPxData: seq<Document>, token: ListedToken, perToken: nat -> TokenInput, i: nat,
                        ops: FloatOps, ghost start: LimiterState)
    requires limiter.State() == LimiterAfter(start, perToken, i)
    modifies db, limiter
    ensures db.startPx == old(db.startPx)
    ensures db.allTokens == Apply(old(db.allTokens), PlannedWrite(currentTokens, startPxData, token, perToken(i), ops))
    ensures limiter.State() == LimiterAfter(start, perToken, i + 1)
  {
    var input := perToken(i);
    var existingToken := Find(currentTokens, TokenIndex, token.index);
    var details := GetTokenDetails(limiter, input.details);
    if details.Err? {
      return;
    }
    var startPxEntry := Find(startPxData, Index, token.index);
    var tokenData := Merge(token, existingToken, details.value, startPxEntry, ops, input.lastUpdated);
    if tokenData.None? {
      return;
    }
    limiter.Sleep(input.writeLatency);
    if input.writeFails {
      return;
    }
    if existingToken.None? {
      db.InsertOne(ToDocument(tokenData.value));
    } else {
      var _ := db.UpdateOne(token.index, ToDocument(tokenData.value));
    }
  }

  /** The loop of `updateTokenData` over the listed tokens. */
  method ReconcileAll(db: TokenStore, limiter: RateLimiter, currentTokens: seq<Document>, startPxData: seq<Document>,
                      spotTokens: seq<ListedToken>, perToken: nat -> TokenInput, ops: FloatOps)
    requires db.allTokens == currentTokens
    modifies db, limiter
    ensures db.startPx == old(db.startPx)
    ensures db.allTokens == Replay(currentTokens, PlanWrites(currentTokens, startPxData, spotTokens, perToken, ops), |spotTokens|)
    ensures limiter.State() == LimiterAfter(old(limiter.State()), perToken, |spotTokens|)
  {
    ghost var plan := PlanWrites(currentTokens, startPxData, spotTokens, perToken, ops);
    ghost var start := limiter.State();
    var i := 0;
    while i < |spotTokens|
      invariant 0 <= i <= |spotTokens|
      invariant db.startPx == old(db.startPx)
      invariant db.allTokens == Replay(currentTokens, plan, i)
      invariant limiter.State() == LimiterAfter(start, perToken, i)
    {
      ReconcileToken(db, limiter, currentTokens, startPxData, spotTokens[i], perToken, i, ops, start);
      assert plan[i] == PlannedWrite(currentTokens, startPxData, spotTokens[i], perToken(i), ops);
      i := i + 1;
    }
  }

  /** `updateTokenData(db)`. */
  method UpdateTokenData(db: TokenStore, limiter: RateLimiter, input: CycleInput, ops: FloatOps)
    modifies db, limiter
    ensures db.startPx == old(db.startPx)
    ensures db.allTokens == Cycle(old(db.allTokens), old(db.startPx), old(limiter.State()), input, ops).docs
    ensures limiter.State() == Cycle(old(db.allTokens), old(db.startPx), old(limiter.State()), input, ops).limiter
  {
    limiter.Sleep(input.readLatency);
    if input.readFails {
      return;
    }
    var currentTokens := db.allTokens;
    var startPxData := db.startPx;
    ghost var s0 := limiter.State();
    var spotMeta := GetSpotMeta(limiter, input.spotMeta);
    ghost var listed := limiter.State();
    assert listed == Execute(s0, SpotMetaWeight, SpotMetaAttempts(input.spotMeta), 0).state;
    if spotMeta.Err? {
      return;
    }
    var spotTokens := spotMeta.value;
    ReconcileAll(db, limiter, currentTokens, startPxData, spotTokens, input.perToken, ops);
  }
}
