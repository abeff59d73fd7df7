/**
 The tables of the SQLite adapter: append-only events, revisions, receipts and manifests, the table of
 current records, its full-text index, and contracts. Each write is one transaction.
*/
module Tables {
  import opened Basics
  import opened Records

  datatype Operation = Wrote | Replaced | Deleted | Read | Used | Verified | Corrected | Promoted

  /** A current record: columns to select by, and the record itself. */
  datatype Row = Row(lane: Lane, claim: string, contractId: Option<Text>, receiptId: Option<Text>, raw: MemoryRecord)

  datatype Body = Body(
    claim: string, metadata: map<Text, Json>, sources: seq<Text>, contractId: Option<Text>, receiptId: Option<Text>)

  datatype IndexRow = IndexRow(memoryId: Text, lane: Lane, claim: string, body: Body)

  datatype Revision = Revision(
    memoryId: Text, updateId: Text, contentDigest: Text, operation: Operation, before: Option<Lane>, after: Lane,
    reason: string, receiptId: Option<Text>, eventId: Option<Text>, record: MemoryRecord)

  datatype Db = Db(
    events: seq<Event>, records: map<Text, Row>, revisions: seq<Revision>, index: seq<IndexRow>,
    contracts: map<Text, Contract>, receipts: seq<Receipt>, manifests: seq<Manifest>)

  const EMPTY_DB := Db([], map[], [], [], map[], [], [])

  /** The arguments of `upsert_memory_record`. */
  datatype Change = Change(
    record: MemoryRecord, operation: Operation, reason: string, receiptId: Option<Text>, eventId: Option<Text>)

  datatype Write =
    | PutEvent(event: Event)
    | PutRecord(change: Change)
    | PutManifest(manifest: Manifest)
    | PutReceipt(receipt: Receipt)
    | PutContract(contract: Contract)

  // ---- Single writes.

  predicate HasEvent(events: seq<Event>, id: Text) {
    exists i :: 0 <= i < |events| && events[i].id == id
  }

  predicate HasReceipt(receipts: seq<Receipt>, id: Text) {
    exists i :: 0 <= i < |receipts| && receipts[i].id == id
  }

  function RowOf(r: MemoryRecord): Row {
    Row(r.lane, r.claim, r.contractId, r.receiptId, r)
  }

  function IndexRowOf(r: MemoryRecord): IndexRow {
    IndexRow(r.memoryId, r.lane, r.claim, Body(r.claim, r.metadata, r.sources, r.contractId, r.receiptId))
  }

  function LaneNow(db: Db, id: Text): Option<Lane> {
    if id in db.records then Some(db.records[id].lane) else None
  }

  function RevisionOf(c: Change, before: Option<Lane>): Revision {
    var r := c.record;
    Revision(r.memoryId, r.updateId, ContentHash(ContentOf(r)), c.operation, before, r.lane, c.reason,
             if c.receiptId.Some? then c.receiptId else r.receiptId, c.eventId, r)
  }

  /** `DELETE FROM memory_fts WHERE memory_id = ?` */
  function Without(index: seq<IndexRow>, id: Text): seq<IndexRow> {
    if index == [] then []
    else
      var rest := Without(index[1..], id);
      if index[0].memoryId == id then rest else [index[0]] + rest
  }

  function Upserted(db: Db, c: Change): Db {
    var r := c.record;
    db.(records := db.records[r.memoryId := RowOf(r)],
        revisions := db.revisions + [RevisionOf(c, LaneNow(db, r.memoryId))],
        index := Without(db.index, r.memoryId) + [IndexRowOf(r)])
  }

  /** The write raises: a payload that does not match its digest, a taken id, a contract that differs. */
  predicate Fails(db: Db, w: Write) {
    match w
    case PutEvent(e) => e.payloadDigest != PayloadHash(e.payload) || HasEvent(db.events, e.id)
    case PutReceipt(r) => HasReceipt(db.receipts, r.id)
    case PutContract(c) => c.id in db.contracts && db.contracts[c.id] != c
    case _ => false
  }

  function Written(db: Db, w: Write): Db {
    match w
    case PutEvent(e) => db.(events := db.events + [e])
    case PutRecord(c) => Upserted(db, c)
    case PutManifest(m) => db.(manifests := db.manifests + [m])
    case PutReceipt(r) => db.(receipts := db.receipts + [r])
    case PutContract(c) => db.(contracts := db.contracts[c.id := c])
  }

  /** The tables after the writes; the first one that raises ends it. */
  function WrittenAll(db: Db, ws: seq<Write>): Db
    decreases |ws|
  {
    if ws == [] || Fails(db, ws[0]) then db else WrittenAll(Written(db, ws[0]), ws[1..])
  }

  predicate AllSucceed(db: Db, ws: seq<Write>)
    decreases |ws|
  {
    ws == [] || (!Fails(db, ws[0]) && AllSucceed(Written(db, ws[0]), ws[1..]))
  }

  /** The writes before a cut; a cut past the end is no cut. */
  function Take(ws: seq<Write>, cut: nat): seq<Write> {
    if cut < |ws| then ws[..cut] else ws
  }

  // ---- Queries.

  /** `list_events(run_id=run)` */
  function EventsOf(events: seq<Event>, run: Text): seq<Event> {
    if events == [] then []
    else
      var front := EventsOf(events[..|events| - 1], run);
      var last := events[|events| - 1];
      if last.run == run then front + [last] else front
  }

  /** `list_receipts(candidate_id=id)` */
  function ReceiptsOf(receipts: seq<Receipt>, id: Text): seq<Receipt> {
    if receipts == [] then []
    else
      var front := ReceiptsOf(receipts[..|receipts| - 1], id);
      var last := receipts[|receipts| - 1];
      if last.seed.candidate == id then front + [last] else front
  }

  lemma {:induction false} ReceiptsOfMeans(receipts: seq<Receipt>, id: Text)
    ensures forall r :: r in ReceiptsOf(receipts, id) <==> r in receipts && r.seed.candidate == id
  {
    if receipts != [] {
      ReceiptsOfMeans(receipts[..|receipts| - 1], id);
      assert receipts == receipts[..|receipts| - 1] + [receipts[|receipts| - 1]];
    }
  }

  /** The latest manifest with the id. */
  function ManifestWith(manifests: seq<Manifest>, id: Text): Option<Manifest> {
    if manifests == [] then None
    else
      var last := manifests[|manifests| - 1];
      if last.id == id then Some(last) else ManifestWith(manifests[..|manifests| - 1], id)
  }

  function LastRevision(revisions: seq<Revision>, id: Text): Option<Revision> {
    if revisions == [] then None
    else
      var last := revisions[|revisions| - 1];
      if last.memoryId == id then Some(last) else LastRevision(revisions[..|revisions| - 1], id)
  }

  // ---- The three views of a memory stay in step.

  /** A row repeats its record under the record's own id. */
  predicate RowsTrue(db: Db) {
    forall id :: id in db.records ==> db.records[id] == RowOf(db.records[id].raw) && db.records[id].raw.memoryId == id
  }

  /** The index has one row for each record, with its lane and claim. */
  predicate IndexTrue(db: Db) {
    && (forall i, j :: 0 <= i < j < |db.index| ==> db.index[i].memoryId != db.index[j].memoryId)
    && (forall i :: 0 <= i < |db.index| ==>
          db.index[i].memoryId in db.records && db.index[i] == IndexRowOf(db.records[db.index[i].memoryId].raw))
    && (forall id :: id in db.records ==> exists i :: 0 <= i < |db.index| && db.index[i].memoryId == id)
  }

  /** The last revision of a memory is its current record. */
  ghost predicate RevisionsCurrent(db: Db) {
    forall id ::
      match LastRevision(db.revisions, id)
      case None => id !in db.records
      case Some(v) => id in db.records && v.record == db.records[id].raw && v.after == db.records[id].lane
  }

  /** Each revision starts in the lane in which the one before it, of the same memory, ended. */
  predicate LanesChained(revisions: seq<Revision>) {
    forall k :: 0 <= k < |revisions| ==> ChainedAt(revisions, k)
  }

  predicate ChainedAt(revisions: seq<Revision>, k: nat)
    requires k < |revisions|
  {
    revisions[k].before ==
      match LastRevision(revisions[..k], revisions[k].memoryId)
      case None => None
      case Some(v) => Some(v.after)
  }

  ghost predicate Synced(db: Db) {
    RowsTrue(db) && IndexTrue(db) && RevisionsCurrent(db) && LanesChained(db.revisions)
  }

  lemma {:induction false} WithoutMeans(index: seq<IndexRow>, id: Text)
    requires forall i, j :: 0 <= i < j < |index| ==> index[i].memoryId != index[j].memoryId
    ensures var r := Without(index, id);
      && (forall i, j :: 0 <= i < j < |r| ==> r[i].memoryId != r[j].memoryId)
      && (forall x :: x in r <==> x in index && x.memoryId != id)
  {
    if index != [] {
      WithoutMeans(index[1..], id);
      assert index == [index[0]] + index[1..];
      var rest := Without(index[1..], id);
      forall i | 0 <= i < |rest| ensures rest[i].memoryId != index[0].memoryId {
        assert rest[i] in index[1..];
      }
    }
  }

  lemma UpsertIndexRows(db: Db, c: Change)
    requires RowsTrue(db) && IndexTrue(db)
    ensures var g := Upserted(db, c);
      && (forall i, j :: 0 <= i < j < |g.index| ==> g.index[i].memoryId != g.index[j].memoryId)
      && (forall i :: 0 <= i < |g.index| ==>
            g.index[i].memoryId in g.records && g.index[i] == IndexRowOf(g.records[g.index[i].memoryId].raw))
  {
    hide RevisionOf, IndexRowOf;
    var id := c.record.memoryId;
    var kept := Without(db.index, id);
    WithoutMeans(db.index, id);
    assert IndexRowOf(c.record).memoryId == id by { IndexRowId(c.record); }
    forall i | 0 <= i < |kept|
      ensures kept[i].memoryId in db.records && kept[i].memoryId != id
              && kept[i] == IndexRowOf(db.records[kept[i].memoryId].raw)
    {
      assert kept[i] in kept;
    }
  }

  lemma IndexRowId(r: MemoryRecord)
    ensures IndexRowOf(r).memoryId == r.memoryId
  {
  }

  lemma UpsertIndexed(db: Db, c: Change, k: Text)
    requires IndexTrue(db) && k in Upserted(db, c).records
    ensures var g := Upserted(db, c); exists i :: 0 <= i < |g.index| && g.index[i].memoryId == k
  {
    hide RevisionOf, IndexRowOf;
    var g := Upserted(db, c);
    var id := c.record.memoryId;
    var kept := Without(db.index, id);
    WithoutMeans(db.index, id);
    IndexRowId(c.record);
    if k == id {
      assert g.index[|kept|].memoryId == id;
    } else {
      var i :| 0 <= i < |db.index| && db.index[i].memoryId == k;
      assert db.index[i] in kept;
      var j :| 0 <= j < |kept| && kept[j] == db.index[i];
      assert g.index[j] == kept[j];
    }
  }

  lemma UpsertIndex(db: Db, c: Change)
    requires RowsTrue(db) && IndexTrue(db)
    ensures IndexTrue(Upserted(db, c))
  {
    hide Upserted, IndexRowOf;
    UpsertIndexRows(db, c);
    forall k | k in Upserted(db, c).records
      ensures exists i :: 0 <= i < |Upserted(db, c).index| && Upserted(db, c).index[i].memoryId == k
    {
      UpsertIndexed(db, c, k);
    }
  }

  lemma LastRevisionAfter(revisions: seq<Revision>, v: Revision, id: Text)
    ensures LastRevision(revisions + [v], id) == if v.memoryId == id then Some(v) else LastRevision(revisions, id)
  {
    assert (revisions + [v])[..|revisions|] == revisions;
  }

  lemma UpsertRevisions(db: Db, c: Change)
    requires RowsTrue(db) && RevisionsCurrent(db) && LanesChained(db.revisions)
    ensures RevisionsCurrent(Upserted(db, c)) && LanesChained(Upserted(db, c).revisions)
  {
    var g := Upserted(db, c);
    var v := RevisionOf(c, LaneNow(db, c.record.memoryId));
    forall id
      ensures match LastRevision(g.revisions, id)
              case None => id !in g.records
              case Some(v) => id in g.records && v.record == g.records[id].raw && v.after == g.records[id].lane
    {
      LastRevisionAfter(db.revisions, v, id);
      assert LastRevision(db.revisions, id).None? ==> id !in db.records;
    }
    forall k | 0 <= k < |g.revisions| ensures ChainedAt(g.revisions, k) {
      if k < |db.revisions| {
        assert ChainedAt(db.revisions, k);
        assert g.revisions[..k] == db.revisions[..k];
      } else {
        assert g.revisions[..k] == db.revisions;
      }
    }
  }

  lemma UpsertRows(db: Db, c: Change)
    requires RowsTrue(db)
    ensures RowsTrue(Upserted(db, c))
  {
    hide Without, RevisionOf, IndexRowOf;
  }

  lemma SyncedFrame(db: Db, g: Db)
    requires Synced(db) && g.records == db.records && g.index == db.index && g.revisions == db.revisions
    ensures Synced(g)
  {
    hide LanesChained, RowOf, IndexRowOf;
  }

  /** Every write keeps current records, revisions and index in step. */
  lemma WriteKeepsSynced(db: Db, w: Write)
    requires Synced(db)
    ensures Synced(Written(db, w))
  {
    hide IndexTrue, RevisionsCurrent, LanesChained, Upserted;
    if w.PutRecord? {
      UpsertIndex(db, w.change);
      UpsertRevisions(db, w.change);
      UpsertRows(db, w.change);
    } else {
      SyncedFrame(db, Written(db, w));
    }
  }

  lemma {:induction false} WritesKeepSynced(db: Db, ws: seq<Write>)
    requires Synced(db)
    ensures Synced(WrittenAll(db, ws))
    decreases |ws|
  {
    if ws != [] && !Fails(db, ws[0]) {
      WriteKeepsSynced(db, ws[0]);
      WritesKeepSynced(Written(db, ws[0]), ws[1..]);
    }
  }

  // ---- Search.

  /** How the query selects: the index by a full-text match, the records by nothing or by `LIKE`. */
  datatype Path = Indexed(matches: IndexRow -> bool) | Everything | Like(holds: string -> bool)

  function Joined(db: Db, index: seq<IndexRow>, lanes: seq<Lane>, matches: IndexRow -> bool): seq<MemoryRecord> {
    if index == [] then []
    else
      var rest := Joined(db, index[1..], lanes, matches);
      var x := index[0];
      if x.memoryId in db.records && x.lane in lanes && matches(x) then [db.records[x.memoryId].raw] + rest else rest
  }

  /** The records that the `WHERE` clause of the path selects. */
  function Selected(db: Db, lanes: seq<Lane>, path: Path): set<MemoryRecord> {
    match path
    case Indexed(matches) => (set r | r in Joined(db, db.index, lanes, matches))
    case Everything => set id | id in db.records && db.records[id].lane in lanes :: db.records[id].raw
    case Like(holds) =>
      set id | id in db.records && db.records[id].lane in lanes && holds(db.records[id].claim) :: db.records[id].raw
  }

  /** The selected rows in some order: the join as often as it has them, the table once each. */
  predicate Listing(db: Db, lanes: seq<Lane>, path: Path, all: seq<MemoryRecord>) {
    match path
    case Indexed(matches) => multiset(all) == multiset(Joined(db, db.index, lanes, matches))
    case Everything => (set x | x in all) == Selected(db, lanes, path) && NoneRepeated(all)
    case Like(_) => (set x | x in all) == Selected(db, lanes, path) && NoneRepeated(all)
  }

  predicate NoneRepeated(all: seq<MemoryRecord>) {
    forall i, j :: 0 <= i < j < |all| ==> all[i] != all[j]
  }

  /** What a search may return: such a list, cut to the limit. */
  ghost predicate IsSearch(db: Db, lanes: seq<Lane>, path: Path, limit: nat, r: seq<MemoryRecord>) {
    exists all: seq<MemoryRecord> :: Listing(db, lanes, path, all) && r == all[..if limit < |all| then limit else |all|]
  }

  predicate JoinedRow(db: Db, index: seq<IndexRow>, lanes: seq<Lane>, matches: IndexRow -> bool, r: MemoryRecord) {
    && r.memoryId in db.records && db.records[r.memoryId].raw == r
    && exists i :: 0 <= i < |index| && index[i].memoryId == r.memoryId && index[i].lane in lanes && matches(index[i])
  }

  lemma JoinedRowCons(db: Db, index: seq<IndexRow>, lanes: seq<Lane>, matches: IndexRow -> bool, r: MemoryRecord)
    requires index != []
    ensures JoinedRow(db, index, lanes, matches, r) <==>
      || JoinedRow(db, index[1..], lanes, matches, r)
      || (r.memoryId in db.records && db.records[r.memoryId].raw == r && index[0].memoryId == r.memoryId
          && index[0].lane in lanes && matches(index[0]))
  {
    var rest := index[1..];
    if i :| 0 <= i < |index| && index[i].memoryId == r.memoryId && index[i].lane in lanes && matches(index[i]) {
      assert i > 0 ==> rest[i - 1] == index[i];
    }
    if i :| 0 <= i < |rest| && rest[i].memoryId == r.memoryId && rest[i].lane in lanes && matches(rest[i]) {
      assert index[i + 1] == rest[i];
    }
  }

  predicate DistinctIds(all: seq<MemoryRecord>) {
    forall i, j :: 0 <= i < j < |all| ==> all[i].memoryId != all[j].memoryId
  }

  lemma DistinctCons(tail: seq<MemoryRecord>, all: seq<MemoryRecord>, id: Text)
    requires DistinctIds(tail) && forall i :: 0 <= i < |tail| ==> tail[i].memoryId != id
    requires all == tail || (all != [] && all[0].memoryId == id && all[1..] == tail)
    ensures DistinctIds(all)
  {
    if all != tail {
      assert all == [all[0]] + tail;
    }
  }

  lemma SelectedRow(db: Db, lanes: seq<Lane>, path: Path, x: MemoryRecord)
    requires RowsTrue(db) && !path.Indexed? && x in Selected(db, lanes, path)
    ensures x.memoryId in db.records && db.records[x.memoryId].raw == x && x.lane in lanes
  {
    match path
    case Everything =>
      var id :| id in db.records && db.records[id].lane in lanes && db.records[id].raw == x;
    case Like(holds) =>
      var id :| id in db.records && db.records[id].lane in lanes && holds(db.records[id].claim)
          && db.records[id].raw == x;
  }

  lemma {:induction false} JoinedMeans(db: Db, index: seq<IndexRow>, lanes: seq<Lane>, matches: IndexRow -> bool)
    requires forall i, j :: 0 <= i < j < |index| ==> index[i].memoryId != index[j].memoryId
    requires RowsTrue(db)
    ensures forall r :: r in Joined(db, index, lanes, matches) <==> JoinedRow(db, index, lanes, matches, r)
    ensures DistinctIds(Joined(db, index, lanes, matches))
  {
    if index != [] {
      var rest := index[1..];
      JoinedMeans(db, rest, lanes, matches);
      var tail := Joined(db, rest, lanes, matches);
      assert forall i :: 0 <= i < |rest| ==> rest[i] == index[i + 1];
      forall r ensures r in Joined(db, index, lanes, matches) <==> JoinedRow(db, index, lanes, matches, r) {
        assert r in tail <==> JoinedRow(db, rest, lanes, matches, r);
        JoinedRowCons(db, index, lanes, matches, r);
      }
      forall i | 0 <= i < |tail| ensures tail[i].memoryId != index[0].memoryId {
        assert tail[i] in tail;
        assert JoinedRow(db, rest, lanes, matches, tail[i]);
        var j :| 0 <= j < |rest| && rest[j].memoryId == tail[i].memoryId;
        assert index[j + 1].memoryId == rest[j].memoryId;
      }
      DistinctCons(tail, Joined(db, index, lanes, matches), index[0].memoryId);
    }
  }

  lemma SearchedOnPath(db: Db, lanes: seq<Lane>, path: Path, limit: nat, r: seq<MemoryRecord>, k: nat)
    requires Synced(db) && IsSearch(db, lanes, path, limit, r) && k < |r|
    ensures r[k].memoryId in db.records && db.records[r[k].memoryId].raw == r[k] && r[k].lane in lanes
  {
    var all: seq<MemoryRecord> :| Listing(db, lanes, path, all) && r == all[..if limit < |all| then limit else |all|];
    assert r[k] in all;
    hide RevisionsCurrent, LanesChained, IsSearch, NoneRepeated, Selected;
    if path.Indexed? {
      assert r[k] in multiset(all);
      assert r[k] in multiset(Joined(db, db.index, lanes, path.matches));
      JoinedMeans(db, db.index, lanes, path.matches);
      assert JoinedRow(db, db.index, lanes, path.matches, r[k]);
      var i :| 0 <= i < |db.index| && db.index[i].memoryId == r[k].memoryId && db.index[i].lane in lanes;
      assert db.index[i] == IndexRowOf(db.records[db.index[i].memoryId].raw);
    } else {
      assert r[k] in (set x | x in all);
      SelectedRow(db, lanes, path, r[k]);
    }
  }

  lemma NoneTwice(db: Db, lanes: seq<Lane>, path: Path, limit: nat, r: seq<MemoryRecord>)
    requires Synced(db) && IsSearch(db, lanes, path, limit, r)
    ensures DistinctIds(r)
  {
    var all: seq<MemoryRecord> :| Listing(db, lanes, path, all) && r == all[..if limit < |all| then limit else |all|];
    forall i, j | 0 <= i < j < |r| ensures r[i].memoryId != r[j].memoryId {
      SearchedOnPath(db, lanes, path, limit, r, i);
      SearchedOnPath(db, lanes, path, limit, r, j);
      assert r[i] == all[i] && r[j] == all[j];
      if path.Indexed? { JoinedDistinct(db, lanes, path.matches, all, i, j); }
    }
  }

  lemma JoinedDistinct(db: Db, lanes: seq<Lane>, matches: IndexRow -> bool, all: seq<MemoryRecord>, i: nat, j: nat)
    requires RowsTrue(db) && IndexTrue(db) && i < j < |all|
    requires multiset(all) == multiset(Joined(db, db.index, lanes, matches))
    ensures all[i] != all[j]
  {
    var joined := Joined(db, db.index, lanes, matches);
    JoinedMeans(db, db.index, lanes, matches);
    if all[i] == all[j] {
      var x := all[i];
      TwiceCounted(all, i, j);
      OnceCounted(joined, x);
    }
  }

  lemma TwiceCounted(s: seq<MemoryRecord>, i: nat, j: nat)
    requires i < j < |s| && s[i] == s[j]
    ensures multiset(s)[s[i]] >= 2
  {
    assert s == s[..i] + [s[i]] + s[i + 1..j] + [s[j]] + s[j + 1..];
  }

  lemma {:induction false} OnceCounted(s: seq<MemoryRecord>, x: MemoryRecord)
    requires DistinctIds(s)
    ensures multiset(s)[x] <= 1
  {
    if s != [] {
      var rest := s[1..];
      assert s == [s[0]] + rest;
      assert forall i :: 0 <= i < |rest| ==> rest[i] == s[i + 1];
      OnceCounted(rest, x);
      if x == s[0] { assert x !in rest; }
    }
  }

  /** What the index knows of a record. */
  function SearchText(r: MemoryRecord): IndexRow {
    IndexRow(r.memoryId, r.lane, r.claim, Body(r.claim, r.metadata, r.sources, r.contractId, r.receiptId))
  }

  /** The query of the path finds the record. */
  predicate Hit(path: Path, r: MemoryRecord) {
    match path
    case Indexed(matches) => matches(SearchText(r))
    case Everything => true
    case Like(holds) => holds(r.claim)
  }

  lemma FoundHits(db: Db, lanes: seq<Lane>, path: Path, limit: nat, r: seq<MemoryRecord>, k: nat)
    requires Synced(db) && IsSearch(db, lanes, path, limit, r) && k < |r|
    ensures Hit(path, r[k])
  {
    hide RevisionsCurrent, LanesChained;
    var all: seq<MemoryRecord> :| Listing(db, lanes, path, all) && r == all[..if limit < |all| then limit else |all|];
    assert r[k] == all[k];
    match path
    case Indexed(matches) =>
      assert r[k] in multiset(all);
      assert r[k] in multiset(Joined(db, db.index, lanes, matches));
      JoinedMeans(db, db.index, lanes, matches);
      assert JoinedRow(db, db.index, lanes, matches, r[k]);
      var i :| 0 <= i < |db.index| && db.index[i].memoryId == r[k].memoryId && matches(db.index[i]);
      assert db.index[i] == IndexRowOf(db.records[db.index[i].memoryId].raw);
    case Everything =>
    case Like(holds) =>
      assert r[k] in (set x | x in all);
      LikeHits(db, lanes, holds, r[k]);
  }

  lemma LikeHits(db: Db, lanes: seq<Lane>, holds: string -> bool, x: MemoryRecord)
    requires RowsTrue(db) && x in Selected(db, lanes, Like(holds))
    ensures holds(x.claim)
  {
    var id :| id in db.records && db.records[id].lane in lanes && holds(db.records[id].claim)
        && db.records[id].raw == x;
    assert db.records[id] == RowOf(x);
  }

  /**
   A search, by match, by `LIKE` or without a query, returns current records of the lanes asked for that the
   query finds, none twice, and no more than the limit.
  */
  lemma SearchIsSound(db: Db, lanes: seq<Lane>, path: Path, limit: nat, r: seq<MemoryRecord>)
    requires Synced(db) && IsSearch(db, lanes, path, limit, r)
    ensures |r| <= limit
    ensures forall k :: 0 <= k < |r| ==>
      r[k].memoryId in db.records && db.records[r[k].memoryId].raw == r[k] && r[k].lane in lanes && Hit(path, r[k])
    ensures DistinctIds(r)
  {
    hide Synced, Listing;
    forall k | 0 <= k < |r|
      ensures r[k].memoryId in db.records && db.records[r[k].memoryId].raw == r[k] && r[k].lane in lanes
        && Hit(path, r[k])
    {
      SearchedOnPath(db, lanes, path, limit, r, k);
      FoundHits(db, lanes, path, limit, r, k);
    }
    NoneTwice(db, lanes, path, limit, r);
  }

  /** With the limit not reached, no record of these lanes that the query finds is missing. */
  lemma SearchIsComplete(db: Db, lanes: seq<Lane>, path: Path, limit: nat, r: seq<MemoryRecord>, id: Text)
    requires Synced(db) && IsSearch(db, lanes, path, limit, r) && |r| < limit
    requires id in db.records && db.records[id].lane in lanes && Hit(path, db.records[id].raw)
    ensures db.records[id].raw in r
  {
    hide RevisionsCurrent, LanesChained;
    var all: seq<MemoryRecord> :| Listing(db, lanes, path, all) && r == all[..if limit < |all| then limit else |all|];
    assert r == all;
    var x := db.records[id].raw;
    if path.Indexed? {
      JoinedMeans(db, db.index, lanes, path.matches);
      var i :| 0 <= i < |db.index| && db.index[i].memoryId == id;
      assert db.index[i] == IndexRowOf(x);
      assert JoinedRow(db, db.index, lanes, path.matches, x);
      assert x in Joined(db, db.index, lanes, path.matches);
      assert x in multiset(all);
    } else {
      assert x in Selected(db, lanes, path);
      assert x in (set y | y in all);
    }
  }
}
