/** What one reconciliation cycle does to the `allTokens` collection, stated
    against the snapshot read at its start: snapshot records are patched in
    place, keeping their `tokenIndex` and every field the cycle does not
    write, and new records are appended in listing order. */
module ReconcileProps {
  import opened JsValues
  import opened RateLimit
  import opened DataClient
  import opened Reconcile

  /** The loop of one cycle: the snapshot it starts from (the store holds
      exactly the snapshot when the loop begins), the reference table, the
      listing, and each listed token's inputs. */
  datatype Run = Run(snapshot: seq<Document>, startPxData: seq<Document>,
                     tokens: seq<ListedToken>, perToken: nat -> TokenInput, ops: FloatOps)

  /** The writes of the listed tokens, position by position. */
  function Plan(r: Run): (ws: seq<Option<Write>>)
    ensures |ws| == |r.tokens|
  {
    PlanWrites(r.snapshot, r.startPxData, r.tokens, r.perToken, r.ops)
  }

  /** The store after the loop. */
  function StoreAfter(r: Run): seq<Document> {
    Replay(r.snapshot, Plan(r), |r.tokens|)
  }

  // ---------------------------------------------------------------------
  // Replaying writes planned against a snapshot

  /** What a planned write looks like: an insert adds a whole record; an
      update sets a whole record on the first snapshot record with its
      index, and the record's `tokenIndex` is that index. */
  ghost predicate PlannedAgainst(snapshot: seq<Document>, w: Option<Write>) {
    match w
    case None => true
    case Some(Insert(d)) => forall k :: k in d <==> IsRecordKey(k)
    case Some(Update(i, p)) =>
      FirstMatch(snapshot, TokenIndex, i).Some?
      && (forall k :: k in p <==> IsRecordKey(k))
      && Get(p, TokenIndex) == IntNum(i)
  }

  /** Write `n` updates snapshot record `j`, the first with its index. */
  predicate UpdatesAt(snapshot: seq<Document>, w: Option<Write>, j: nat) {
    w.Some? && w.value.Update? && FirstMatch(snapshot, TokenIndex, w.value.index) == Some(j)
  }

  /** The last of the first `m` writes that updates snapshot record `j`. */
  function LastUpdate(snapshot: seq<Document>, ws: seq<Option<Write>>, m: nat, j: nat): (last: Option<nat>)
    requires m <= |ws|
    ensures last.Some? ==> last.value < m && UpdatesAt(snapshot, ws[last.value], j)
    ensures last.Some? ==> forall n | last.value < n < m :: !UpdatesAt(snapshot, ws[n], j)
    ensures last.None? ==> forall n | 0 <= n < m :: !UpdatesAt(snapshot, ws[n], j)
  {
    if m == 0 then None
    else if UpdatesAt(snapshot, ws[m - 1], j) then Some(m - 1)
    else LastUpdate(snapshot, ws, m - 1, j)
  }

  /** The snapshot records after the first `m` writes: each one patched by
      the last write that updates it, if any. */
  function Patched(snapshot: seq<Document>, ws: seq<Option<Write>>, m: nat): (ps: seq<Document>)
    requires m <= |ws|
    ensures |ps| == |snapshot|
  {
    seq(|snapshot|, j requires 0 <= j < |snapshot| =>
      match LastUpdate(snapshot, ws, m, j)
      case None => snapshot[j]
      case Some(n) => snapshot[j] + ws[n].value.patch)
  }

  /** The records the first `m` writes insert, in order. */
  function Inserted(ws: seq<Option<Write>>, m: nat): seq<Document>
    requires m <= |ws|
  {
    if m == 0 then []
    else
      match ws[m - 1]
      case Some(Insert(d)) => Inserted(ws, m - 1) + [d]
      case _ => Inserted(ws, m - 1)
  }

  /** `$set` twice with the second patch covering the first one's fields is
      `$set` of the second patch alone. */
  lemma OverrideTwice(m: Document, a: Document, b: Document)
    requires forall k :: k in a ==> k in b
    ensures (m + a) + b == m + b
  {
    forall k | k in m + b
      ensures ((m + a) + b)[k] == (m + b)[k]
    {
      if k !in b {
        assert k !in a;
      }
    }
    assert (m + a) + b == m + b;
  }

  /** Patching never changes a snapshot record's `tokenIndex`, nor any field
      outside the record's own. */
  lemma PatchedKeepsIndex(snapshot: seq<Document>, ws: seq<Option<Write>>, m: nat, j: nat)
    requires m <= |ws| && j < |snapshot|
    requires forall n | 0 <= n < |ws| :: PlannedAgainst(snapshot, ws[n])
    ensures Get(Patched(snapshot, ws, m)[j], TokenIndex) == Get(snapshot[j], TokenIndex)
    ensures forall k | !IsRecordKey(k) :: Get(Patched(snapshot, ws, m)[j], k) == Get(snapshot[j], k)
  {
    match LastUpdate(snapshot, ws, m, j)
    case None =>
    case Some(n) =>
      assert PlannedAgainst(snapshot, ws[n]);
      assert Matches(snapshot[j], TokenIndex, ws[n].value.index);
  }

  /** The first match is the position that matches with none before it. */
  lemma FirstMatchAt(docs: seq<Document>, i: int, j0: nat)
    requires j0 < |docs| && Matches(docs[j0], TokenIndex, i)
    requires forall j | 0 <= j < j0 :: !Matches(docs[j], TokenIndex, i)
    ensures FirstMatch(docs, TokenIndex, i) == Some(j0)
  {
    var f := FirstMatch(docs, TokenIndex, i);
    assert f.Some? && f.value <= j0;
  }

  /** An update after `m` writes reaches the snapshot's first match: the
      records before it still do not match, and it still does. */
  lemma UpdateFindsSnapshotRecord(snapshot: seq<Document>, ws: seq<Option<Write>>, m: nat, i: int, j0: nat)
    requires m <= |ws|
    requires forall n | 0 <= n < |ws| :: PlannedAgainst(snapshot, ws[n])
    requires FirstMatch(snapshot, TokenIndex, i) == Some(j0)
    ensures FirstMatch(Patched(snapshot, ws, m) + Inserted(ws, m), TokenIndex, i) == Some(j0)
  {
    var d := Patched(snapshot, ws, m) + Inserted(ws, m);
    PatchedKeepsIndex(snapshot, ws, m, j0);
    forall j | 0 <= j < j0
      ensures !Matches(d[j], TokenIndex, i)
    {
      PatchedKeepsIndex(snapshot, ws, m, j);
    }
    FirstMatchAt(d, i, j0);
  }

  /** Setting a position of the first part of a concatenation. */
  lemma UpdateInFirstPart<T>(a: seq<T>, b: seq<T>, j: nat, x: T)
    requires j < |a|
    ensures (a + b)[j := x] == a[j := x] + b
  {
    assert (a + b)[j := x] == a[j := x] + b;
  }

  /** An update that reaches record `j0` makes itself the last update of
      `j0`, and of no other record. */
  lemma PatchedAfterUpdate(snapshot: seq<Document>, ws: seq<Option<Write>>, m: nat, j0: nat)
    requires m < |ws| && UpdatesAt(snapshot, ws[m], j0)
    requires forall n | 0 <= n < |ws| :: PlannedAgainst(snapshot, ws[n])
    ensures j0 < |snapshot|
    ensures Patched(snapshot, ws, m + 1)
            == Patched(snapshot, ws, m)[j0 := Patched(snapshot, ws, m)[j0] + ws[m].value.patch]
  {
    var p := ws[m].value.patch;
    var ps, ps' := Patched(snapshot, ws, m), Patched(snapshot, ws, m + 1);
    assert LastUpdate(snapshot, ws, m + 1, j0) == Some(m);
    match LastUpdate(snapshot, ws, m, j0)
    case None =>
    case Some(n) =>
      assert PlannedAgainst(snapshot, ws[n]);
      OverrideTwice(snapshot[j0], ws[n].value.patch, p);
    forall j | 0 <= j < |snapshot| && j != j0
      ensures ps'[j] == ps[j]
    {
      assert LastUpdate(snapshot, ws, m + 1, j) == LastUpdate(snapshot, ws, m, j);
    }
    assert ps' == ps[j0 := ps[j0] + p];
  }

  lemma UpdateStep(snapshot: seq<Document>, ws: seq<Option<Write>>, m: nat)
    requires m < |ws| && ws[m].Some? && ws[m].value.Update?
    requires forall n | 0 <= n < |ws| :: PlannedAgainst(snapshot, ws[n])
    ensures Apply(Patched(snapshot, ws, m) + Inserted(ws, m), ws[m])
            == Patched(snapshot, ws, m + 1) + Inserted(ws, m + 1)
  {
    var i, p := ws[m].value.index, ws[m].value.patch;
    assert PlannedAgainst(snapshot, ws[m]);
    var j0 := FirstMatch(snapshot, TokenIndex, i).value;
    UpdateFindsSnapshotRecord(snapshot, ws, m, i, j0);
    PatchedAfterUpdate(snapshot, ws, m, j0);
    var ps := Patched(snapshot, ws, m);
    UpdateInFirstPart(ps, Inserted(ws, m), j0, ps[j0] + p);
  }

  lemma OtherStep(snapshot: seq<Document>, ws: seq<Option<Write>>, m: nat)
    requires m < |ws| && !(ws[m].Some? && ws[m].value.Update?)
    ensures Apply(Patched(snapshot, ws, m) + Inserted(ws, m), ws[m])
            == Patched(snapshot, ws, m + 1) + Inserted(ws, m + 1)
  {
    forall j | 0 <= j < |snapshot|
      ensures Patched(snapshot, ws, m + 1)[j] == Patched(snapshot, ws, m)[j]
    {
      assert LastUpdate(snapshot, ws, m + 1, j) == LastUpdate(snapshot, ws, m, j);
    }
    assert Patched(snapshot, ws, m + 1) == Patched(snapshot, ws, m);
  }

  /** Before any write every snapshot record is as read. */
  lemma PatchedNothing(snapshot: seq<Document>, ws: seq<Option<Write>>)
    ensures Patched(snapshot, ws, 0) == snapshot
  {
    assert Patched(snapshot, ws, 0) == snapshot;
  }

  /** After the first `m` writes the store is the snapshot with each record
      patched by the last write that updated it, followed by the inserted
      records in order. */
  lemma {:induction false} ReplayShape(snapshot: seq<Document>, ws: seq<Option<Write>>, m: nat)
    requires m <= |ws|
    requires forall n | 0 <= n < |ws| :: PlannedAgainst(snapshot, ws[n])
    ensures Replay(snapshot, ws, m) == Patched(snapshot, ws, m) + Inserted(ws, m)
  {
    if m == 0 {
      PatchedNothing(snapshot, ws);
    } else {
      ReplayShape(snapshot, ws, m - 1);
      if ws[m - 1].Some? && ws[m - 1].value.Update? {
        UpdateStep(snapshot, ws, m - 1);
      } else {
        OtherStep(snapshot, ws, m - 1);
      }
    }
  }

  /** Write `n`'s insert lands at its place among the inserted records. */
  lemma {:induction false} InsertedAt(ws: seq<Option<Write>>, n: nat, m: nat)
    requires n < m <= |ws| && ws[n].Some? && ws[n].value.Insert?
    ensures |Inserted(ws, n)| < |Inserted(ws, m)|
    ensures Inserted(ws, m)[|Inserted(ws, n)|] == ws[n].value.doc
  {
    if m > n + 1 {
      InsertedAt(ws, n, m - 1);
    }
  }

  /** A write that updates record `j` with no later write updating it is
      the last update of `j`. */
  lemma LastUpdateIs(snapshot: seq<Document>, ws: seq<Option<Write>>, m: nat, n: nat, j: nat)
    requires n < m <= |ws| && UpdatesAt(snapshot, ws[n], j)
    requires forall n' | n < n' < m :: !UpdatesAt(snapshot, ws[n'], j)
    ensures LastUpdate(snapshot, ws, m, j) == Some(n)
  {
  }

  /** Two inserts land at two distinct places, in order. */
  lemma TwoInserts(ws: seq<Option<Write>>, a: nat, b: nat)
    requires a < b < |ws| && ws[a].Some? && ws[a].value.Insert? && ws[b].Some? && ws[b].value.Insert?
    ensures |Inserted(ws, a)| < |Inserted(ws, b)| < |Inserted(ws, |ws|)|
    ensures Inserted(ws, |ws|)[|Inserted(ws, a)|] == ws[a].value.doc
    ensures Inserted(ws, |ws|)[|Inserted(ws, b)|] == ws[b].value.doc
  {
    InsertedAt(ws, a, |ws|);
    InsertedAt(ws, b, |ws|);
    InsertedAt(ws, a, b);
  }

  /** The last update of a record decides it: the snapshot record with
      that update's fields set over it. */
  lemma LastUpdateDecides(snapshot: seq<Document>, ws: seq<Option<Write>>, n: nat, j: nat)
    requires n < |ws| && UpdatesAt(snapshot, ws[n], j)
    requires forall n' | n < n' < |ws| :: !UpdatesAt(snapshot, ws[n'], j)
    requires forall n' | 0 <= n' < |ws| :: PlannedAgainst(snapshot, ws[n'])
    ensures j < |snapshot|
    ensures Replay(snapshot, ws, |ws|)[j] == snapshot[j] + ws[n].value.patch
  {
    ReplayShape(snapshot, ws, |ws|);
    LastUpdateIs(snapshot, ws, |ws|, n, j);
    var ps := Patched(snapshot, ws, |ws|);
    assert ps[j] == snapshot[j] + ws[n].value.patch;
  }

  /** Two inserts of records with the same `tokenIndex` leave two such
      records after the snapshot's. */
  lemma TwoInsertsStored(snapshot: seq<Document>, ws: seq<Option<Write>>, a: nat, b: nat, i: int)
    requires a < b < |ws| && ws[a].Some? && ws[a].value.Insert? && ws[b].Some? && ws[b].value.Insert?
    requires Get(ws[a].value.doc, TokenIndex) == IntNum(i) && Get(ws[b].value.doc, TokenIndex) == IntNum(i)
    requires forall n' | 0 <= n' < |ws| :: PlannedAgainst(snapshot, ws[n'])
    ensures exists qa, qb ::
      && |snapshot| <= qa < qb < |Replay(snapshot, ws, |ws|)|
      && Get(Replay(snapshot, ws, |ws|)[qa], TokenIndex) == IntNum(i)
      && Get(Replay(snapshot, ws, |ws|)[qb], TokenIndex) == IntNum(i)
  {
    ReplayShape(snapshot, ws, |ws|);
    TwoInserts(ws, a, b);
    var qa := |snapshot| + |Inserted(ws, a)|;
    var qb := |snapshot| + |Inserted(ws, b)|;
    assert Replay(snapshot, ws, |ws|)[qa] == ws[a].value.doc;
    assert Replay(snapshot, ws, |ws|)[qb] == ws[b].value.doc;
  }

  // ---------------------------------------------------------------------
  // The loop of `updateTokenData` replays its plan

  /** The write a listed token leads to is planned against the snapshot, and
      the record it writes carries the token's index. */
  lemma PlannedWriteShape(snapshot: seq<Document>, startPxData: seq<Document>, token: ListedToken,
                          input: TokenInput, ops: FloatOps)
    ensures var w := PlannedWrite(snapshot, startPxData, token, input, ops);
      && PlannedAgainst(snapshot, w)
      && (w.Some? && w.value.Insert? ==> Get(w.value.doc, TokenIndex) == IntNum(token.index))
  {
    var w := PlannedWrite(snapshot, startPxData, token, input, ops);
    if w.Some? {
      var existing := Find(snapshot, TokenIndex, token.index);
      var details := Settled(DetailsAttempts(input.details), 0).value;
      var startPxEntry := Find(startPxData, Index, token.index);
      var data := Merge(token, existing, details, startPxEntry, ops, input.lastUpdated).value;
      var doc := ToDocument(data);
      assert w == if existing.None? then Some(Insert(doc)) else Some(Update(token.index, doc));
      assert Get(doc, TokenIndex) == IntNum(token.index);
    }
  }

  /** Each write a cycle plans is planned against its snapshot and carries
      the listed token's index. */
  lemma WriteOfToken(r: Run, n: nat)
    requires n < |r.tokens|
    ensures PlannedAgainst(r.snapshot, Plan(r)[n])
    ensures Plan(r)[n].Some? && Plan(r)[n].value.Update? ==> Plan(r)[n].value.index == r.tokens[n].index
    ensures Plan(r)[n].Some? && Plan(r)[n].value.Insert? ==>
      Get(Plan(r)[n].value.doc, TokenIndex) == IntNum(r.tokens[n].index)
    ensures Plan(r)[n].Some? ==>
      (Plan(r)[n].value.Insert? <==> FirstMatch(r.snapshot, TokenIndex, r.tokens[n].index).None?)
  {
    assert Plan(r)[n] == PlannedWrite(r.snapshot, r.startPxData, r.tokens[n], r.perToken(n), r.ops);
    PlannedWriteShape(r.snapshot, r.startPxData, r.tokens[n], r.perToken(n), r.ops);
  }

  lemma PlanAgainstSnapshot(r: Run)
    ensures forall n | 0 <= n < |r.tokens| :: PlannedAgainst(r.snapshot, Plan(r)[n])
  {
    forall n | 0 <= n < |r.tokens|
      ensures PlannedAgainst(r.snapshot, Plan(r)[n])
    {
      WriteOfToken(r, n);
    }
  }

  /** A cycle that reads the store and the listing runs the loop over the
      listing from the snapshot. */
  lemma CycleRunsLoop(docs: seq<Document>, startPxData: seq<Document>, limiter: LimiterState,
                      input: CycleInput, ops: FloatOps, tokens: seq<ListedToken>)
    requires !input.readFails && Settled(SpotMetaAttempts(input.spotMeta), 0) == Ok(tokens)
    ensures Cycle(docs, startPxData, limiter, input, ops).docs == StoreAfter(Run(docs, startPxData, tokens, input.perToken, ops))
  {
  }

  /** With the reset timer ticking on minute boundaries, no cycle takes the
      counter over the budget, and the timer stays on the boundaries. */
  lemma CycleWithinBudget(docs: seq<Document>, startPxData: seq<Document>, limiter: LimiterState,
                          input: CycleInput, ops: FloatOps)
    requires AlignedWithinBudget(limiter)
    ensures AlignedWithinBudget(Cycle(docs, startPxData, limiter, input, ops).limiter)
  {
    var read := Elapse(limiter, input.readLatency);
    ElapseKeepsAligned(limiter, input.readLatency);
    AlignedRequestWithinBudget(read, SpotMetaWeight, SpotMetaAttempts(input.spotMeta), 0);
    var listed := Execute(read, SpotMetaWeight, SpotMetaAttempts(input.spotMeta), 0);
    match Settled(SpotMetaAttempts(input.spotMeta), 0)
    case Err(_) =>
    case Ok(tokens) =>
  }

  // ---------------------------------------------------------------------
  // The store after the loop

  /** After the loop the store is the snapshot with each record patched by
      the last listed token that updated it, followed by the records the
      listed tokens inserted, in listing order. */
  lemma StoreAfterLoop(r: Run)
    ensures StoreAfter(r) == Patched(r.snapshot, Plan(r), |r.tokens|) + Inserted(Plan(r), |r.tokens|)
  {
    PlanAgainstSnapshot(r);
    ReplayShape(r.snapshot, Plan(r), |r.tokens|);
  }

  /** Every snapshot record is still in place after the loop, with its
      `tokenIndex` and every field the cycle does not write unchanged; the
      store grows by exactly the inserted records. */
  lemma SnapshotRecordsKept(r: Run, j: nat)
    requires j < |r.snapshot|
    ensures |StoreAfter(r)| == |r.snapshot| + |Inserted(Plan(r), |r.tokens|)|
    ensures Get(StoreAfter(r)[j], TokenIndex) == Get(r.snapshot[j], TokenIndex)
    ensures forall k | !IsRecordKey(k) :: Get(StoreAfter(r)[j], k) == Get(r.snapshot[j], k)
  {
    StoreAfterLoop(r);
    PlanAgainstSnapshot(r);
    PatchedKeepsIndex(r.snapshot, Plan(r), |r.tokens|, j);
  }

  /** A record whose `tokenIndex` no listed token carries is left exactly as
      it was. */
  lemma UnlistedRecordUntouched(r: Run, j: nat)
    requires j < |r.snapshot|
    requires forall n | 0 <= n < |r.tokens| :: Get(r.snapshot[j], TokenIndex) != IntNum(r.tokens[n].index)
    ensures StoreAfter(r)[j] == r.snapshot[j]
  {
    StoreAfterLoop(r);
    var last := LastUpdate(r.snapshot, Plan(r), |r.tokens|, j);
    if last.Some? {
      WriteOfToken(r, last.value);
    }
  }

  /** Only the first snapshot record with a given `tokenIndex` is ever
      written: a later record with the same `tokenIndex` is left exactly as
      it was. */
  lemma ShadowedRecordUntouched(r: Run, j0: nat, j: nat)
    requires j0 < j < |r.snapshot|
    requires Get(r.snapshot[j0], TokenIndex) == Get(r.snapshot[j], TokenIndex)
    ensures StoreAfter(r)[j] == r.snapshot[j]
  {
    StoreAfterLoop(r);
    var last := LastUpdate(r.snapshot, Plan(r), |r.tokens|, j);
    if last.Some? {
      var i := Plan(r)[last.value].value.index;
      assert Matches(r.snapshot[j0], TokenIndex, i);
      assert false;
    }
  }

  /** The listed token whose update is the last to reach a snapshot record
      leaves that record as it was with the merged record's fields set over
      it. */
  lemma LastUpdateWins(r: Run, n: nat, j: nat)
    requires n < |r.tokens| && UpdatesAt(r.snapshot, Plan(r)[n], j)
    requires forall n' | n < n' < |r.tokens| :: !UpdatesAt(r.snapshot, Plan(r)[n'], j)
    ensures j < |r.snapshot|
    ensures StoreAfter(r)[j] == r.snapshot[j] + Plan(r)[n].value.patch
  {
    var ws := Plan(r);
    PlanAgainstSnapshot(r);
    LastUpdateDecides(r.snapshot, ws, n, j);
  }

  /** The record the merge builds for listed token `n` against the stored
      record `existing`, from the details its request settled to. */
  function MergedFor(r: Run, n: nat, existing: Option<Document>): Option<TokenData>
    requires n < |r.tokens| && Settled(DetailsAttempts(r.perToken(n).details), 0).Ok?
  {
    Merge(r.tokens[n], existing, Settled(DetailsAttempts(r.perToken(n).details), 0).value,
          Find(r.startPxData, Index, r.tokens[n].index), r.ops, r.perToken(n).lastUpdated)
  }

  /** The listed token whose update is the last to reach a snapshot record
      leaves the record merged against that very record: the snapshot
      record with the merged record's fields set over it. */
  lemma MergedRecordStored(r: Run, n: nat, j: nat)
    requires n < |r.tokens| && UpdatesAt(r.snapshot, Plan(r)[n], j)
    requires forall n' | n < n' < |r.tokens| :: !UpdatesAt(r.snapshot, Plan(r)[n'], j)
    ensures j < |r.snapshot| && Settled(DetailsAttempts(r.perToken(n).details), 0).Ok?
    ensures MergedFor(r, n, Some(r.snapshot[j])).Some?
    ensures StoreAfter(r)[j] == r.snapshot[j] + ToDocument(MergedFor(r, n, Some(r.snapshot[j])).value)
  {
    LastUpdateWins(r, n, j);
    WriteOfToken(r, n);
    assert Plan(r)[n] == PlannedWrite(r.snapshot, r.startPxData, r.tokens[n], r.perToken(n), r.ops);
    PlannedWriteRecord(r.snapshot, r.startPxData, r.tokens[n], r.perToken(n), r.ops);
    assert Find(r.snapshot, TokenIndex, r.tokens[n].index) == Some(r.snapshot[j]);
  }

  /** A truthy curated field of a snapshot record survives the cycle that
      updates the record. */
  lemma CuratedFieldsKept(r: Run, n: nat, j: nat)
    requires n < |r.tokens| && UpdatesAt(r.snapshot, Plan(r)[n], j)
    requires forall n' | n < n' < |r.tokens| :: !UpdatesAt(r.snapshot, Plan(r)[n'], j)
    ensures j < |r.snapshot|
    ensures forall k | IsCuratedKey(k) && Truthy(Get(r.snapshot[j], k)) ::
      Get(StoreAfter(r)[j], k) == Get(r.snapshot[j], k)
  {
    MergedRecordStored(r, n, j);
    var existing := Some(r.snapshot[j]);
    var details := Settled(DetailsAttempts(r.perToken(n).details), 0).value;
    MergeCurated(r.tokens[n], existing, details, Find(r.startPxData, Index, r.tokens[n].index),
                 r.ops, r.perToken(n).lastUpdated);
  }

  /** Every listed token whose write goes through has a record with its
      index in the store after the loop. */
  lemma WrittenTokenStored(r: Run, n: nat)
    requires n < |r.tokens| && Plan(r)[n].Some?
    ensures exists q | 0 <= q < |StoreAfter(r)| :: Get(StoreAfter(r)[q], TokenIndex) == IntNum(r.tokens[n].index)
  {
    WriteOfToken(r, n);
    if Plan(r)[n].value.Insert? {
      NewTokenAppended(r, n);
    } else {
      var j := FirstMatch(r.snapshot, TokenIndex, r.tokens[n].index).value;
      SnapshotRecordsKept(r, j);
      assert Get(StoreAfter(r)[j], TokenIndex) == IntNum(r.tokens[n].index);
    }
  }

  /** A listed token that is inserted ends up after the snapshot's records. */
  lemma NewTokenAppended(r: Run, n: nat)
    requires n < |r.tokens| && Plan(r)[n].Some? && Plan(r)[n].value.Insert?
    ensures exists q :: |r.snapshot| <= q < |StoreAfter(r)| && StoreAfter(r)[q] == Plan(r)[n].value.doc
  {
    StoreAfterLoop(r);
    InsertedAt(Plan(r), n, |r.tokens|);
    var q := |r.snapshot| + |Inserted(Plan(r), n)|;
    assert StoreAfter(r)[q] == Plan(r)[n].value.doc;
  }

  /** The snapshot is read once: two listed tokens with the same index, no
      record in the snapshot and both written are both inserted, leaving two
      records with that `tokenIndex` after the snapshot's. */
  lemma DuplicateNewTokensBothInserted(r: Run, a: nat, b: nat)
    requires a < b < |r.tokens| && r.tokens[a].index == r.tokens[b].index
    requires FirstMatch(r.snapshot, TokenIndex, r.tokens[a].index).None?
    requires Plan(r)[a].Some? && Plan(r)[b].Some?
    ensures exists qa, qb ::
      && |r.snapshot| <= qa < qb < |StoreAfter(r)|
      && Get(StoreAfter(r)[qa], TokenIndex) == IntNum(r.tokens[a].index)
      && Get(StoreAfter(r)[qb], TokenIndex) == IntNum(r.tokens[a].index)
  {
    var ws := Plan(r);
    PlanAgainstSnapshot(r);
    WriteOfToken(r, a);
    WriteOfToken(r, b);
    TwoInsertsStored(r.snapshot, ws, a, b, r.tokens[a].index);
    assert StoreAfter(r) == Replay(r.snapshot, ws, |ws|);
  }
}
