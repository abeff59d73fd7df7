/** Where memories come from: in every run a stored memory that looks like a proposal was made by one. */
module Origins {
  import opened Basics
  import opened Records
  import opened Tables
  import opened Plans
  import opened Pipeline
  import opened Certification

  /** Only proposals record the events of their run under this key. */
  predicate Proposed(metadata: map<Text, Json>) {
    Plain("input_event_ids") in metadata
  }

  /** The memory that the proposal made when the journal held the first `n` of these events. */
  predicate MadeBy(events: seq<Event>, id: Text, p: Proposal, n: nat) {
    && n <= |events|
    && var covered := EventsOf(events[..n], p.run);
      && covered != [] && CreateRecord(Candidate, ProposedContent(p, covered)).Ok?
      && id == MemoryId(Candidate, ProposedContent(p, covered))
  }

  ghost predicate Made(events: seq<Event>, id: Text) {
    id.MemoryId? && Proposed(id.content.metadata) ==> exists p: Proposal, n: nat :: MadeBy(events, id, p, n)
  }

  ghost predicate AllMade(db: Db) {
    forall id :: id in db.records ==> Made(db.events, id)
  }

  ghost predicate RecordsAreMade(events: seq<Event>, ws: seq<Write>) {
    forall w :: w in ws && w.PutRecord? ==> Made(events, w.change.record.memoryId)
  }

  /** Every record written is of a memory that was made already. */
  ghost predicate Originals(db: Db, ws: seq<Write>) {
    RecordsAreMade(db.events, ws)
  }

  lemma MadeLater(events: seq<Event>, later: seq<Event>, id: Text)
    requires Made(events, id) && events <= later
    ensures Made(later, id)
  {
    hide Proposed, ProposedContent, CreateRecord;
    if id.MemoryId? && Proposed(id.content.metadata) {
      var p: Proposal, n: nat :| MadeBy(events, id, p, n);
      assert later[..n] == events[..n];
      assert MadeBy(later, id, p, n);
    }
  }

  lemma WriteMade(db: Db, w: Write)
    requires AllMade(db) && (w.PutRecord? ==> Made(db.events, w.change.record.memoryId))
    ensures AllMade(Written(db, w)) && db.events <= Written(db, w).events
  {
    hide Made, Without, RevisionOf, IndexRowOf;
    var g := Written(db, w);
    forall id | id in g.records ensures Made(g.events, id) { MadeLater(db.events, g.events, id); }
  }

  ghost function RecordsMade(events: seq<Event>): Rule {
    (d: Db, w: Write) => w.PutRecord? ==> Made(events, w.change.record.memoryId)
  }

  lemma WritesMade(db: Db, ws: seq<Write>, cut: nat)
    requires AllMade(db) && Originals(db, ws)
    ensures AllMade(WrittenAll(db, Take(ws, cut))) && db.events <= WrittenAll(db, Take(ws, cut)).events
  {
    hide AllMade, AllMeet, Fails, Written, WrittenAll, Made;
    forall d: Db, w: Write | db.events <= d.events && AllMade(d) && RecordsMade(db.events)(d, w) && !Fails(d, w)
      ensures db.events <= Written(d, w).events && AllMade(Written(d, w))
    {
      if w.PutRecord? { MadeLater(db.events, d.events, w.change.record.memoryId); }
      WriteMade(d, w);
    }
    MeetEach(RecordsMade(db.events), db, ws);
    MeetKeeps(RecordsMade(db.events), (d: Db) => db.events <= d.events && AllMade(d), db, ws, cut);
  }

  // ---- The operations.

  lemma OtherMetadata(original: MemoryRecord, run: Text, inputs: nat, reason: string)
    ensures !Proposed(CorrectedMetadata(original, run, inputs))
    ensures !Proposed(ContradictedMetadata(original, run, reason))
  {
  }

  lemma CreatedMade(events: seq<Event>, lane: Lane, c: Content)
    requires CreateRecord(lane, c).Ok? && !Proposed(c.metadata)
    ensures Made(events, CreateRecord(lane, c).value.memoryId)
  {
    CreatedLane(lane, c);
  }

  lemma ObserveMade(
      db: Db, kind: string, payload: Json, run: Text, parents: seq<Text>, claim: string, indexed: bool, nonce: nat)
    ensures Originals(db, ObservePlan(db, kind, payload, run, parents, claim, indexed, nonce).writes)
  {
    hide Made, CreateRecord, Digestible;
    var e := MakeEvent(nonce, run, kind, payload, parents);
    var metadata := map[
      Plain("kind") := Str(Plain(kind)), Plain("run_id") := Str(run), Plain("obs_seq") := Int(|db.events| + 1)];
    var c := Content(claim, [e.id], metadata, [], []);
    if CreateRecord(Raw, c).Ok? { CreatedMade(db.events, Raw, c); }
  }

  lemma ProposeMade(db: Db, p: Proposal)
    ensures Originals(db, ProposePlan(db, p).writes)
  {
    hide CreateRecord, ProposedContent;
    var events := EventsOf(db.events, p.run);
    var c := ProposedContent(p, events);
    if events != [] && CreateRecord(Candidate, c).Ok? {
      CreatedLane(Candidate, c);
      assert db.events[..|db.events|] == db.events;
      assert MadeBy(db.events, MemoryId(Candidate, c), p, |db.events|);
    }
  }

  lemma CorrectMade(db: Db, id: Text, claim: string, run: Option<Text>, sources: seq<Text>, nonce: nat)
    ensures Originals(db, CorrectPlan(db, id, claim, run, sources, nonce).writes)
  {
    hide Made, CreateRecord, CorrectedMetadata, OperationEvent, Proposed;
    if id in db.records {
      var ws := CorrectPlan(db, id, claim, run, sources, nonce).writes;
      if |ws| == 2 {
        var original := db.records[id].raw;
        var actual := if run.Some? && run.value != Plain("") then run.value else RunOf(original.metadata, "correction");
        var inputs := [ws[0].event.id] + sources;
        OtherMetadata(original, actual, |inputs|, "");
        CreatedMade(db.events, Candidate,
                    Content(claim, inputs, CorrectedMetadata(original, actual, |inputs|), [id], []));
      }
    }
  }

  lemma ContradictMade(db: Db, id: Text, claim: string, sources: seq<Text>, reason: string, nonce: nat)
    ensures Originals(db, ContradictPlan(db, id, claim, sources, reason, nonce).writes)
  {
    hide Made, CreateRecord, ContradictedMetadata, OperationEvent, Proposed;
    if id in db.records {
      var ws := ContradictPlan(db, id, claim, sources, reason, nonce).writes;
      if |ws| == 2 {
        var original := db.records[id].raw;
        var run := RunOf(original.metadata, "contradiction");
        OtherMetadata(original, run, 0, reason);
        CreatedMade(db.events, Contradiction,
                    Content(claim, [ws[0].event.id] + sources, ContradictedMetadata(original, run, reason), [], [id]));
      }
    }
  }

  lemma {:induction false} SupersedeMade(db: Db, ids: seq<Text>, q: Text, events: seq<Event>)
    requires RowsTrue(db) && forall id :: id in db.records ==> Made(events, id)
    ensures RecordsAreMade(events, SupersedeWrites(db, ids, q).writes)
    decreases |ids|
  {
    hide MayMove, Made, Without, RevisionOf, IndexRowOf;
    if ids != [] && ids[0] in db.records && MayMove(db.records[ids[0]].lane, Superseded) {
      var w := PutRecord(SupersededBy(db.records[ids[0]].raw, q));
      UpsertRows(db, w.change);
      SupersedeMade(Written(db, w), ids[1..], q, events);
      var rest := SupersedeWrites(Written(db, w), ids[1..], q).writes;
      assert SupersedeWrites(db, ids, q).writes == [w] + rest;
      assert Made(events, w.change.record.memoryId);
    }
  }

  lemma PromoteMade(db: Db, id: Text, nonce: nat, clock: nat)
    requires RowsTrue(db) && AllMade(db)
    ensures Originals(db, PromotePlan(db, id, nonce, clock).writes)
  {
    hide SupersedeWrites, LastPassing, ReceiptsOf, MayMove, ContractOf, OperationPayload, PromoteDetails, Made, Without,
      RevisionOf, IndexRowOf;
    var ws := PromotePlan(db, id, nonce, clock).writes;
    if ws != [] {
      var r := db.records[id].raw;
      var q := LastPassing(ReceiptsOf(db.receipts, id), r.updateId).value;
      var g := Written(db, ws[0]);
      UpsertRows(g, ws[1].change);
      var rest := SupersedeWrites(Written(g, ws[1]), r.supersedes, q.id);
      SupersedeMade(Written(g, ws[1]), r.supersedes, q.id, db.events);
      assert ws == [ws[0], ws[1]] + rest.writes + if rest.result.Ok? then [ws[|ws| - 1]] else [];
      assert Made(db.events, ws[1].change.record.memoryId);
    }
  }

  lemma StepMade(setting: Setting, db: Db, step: Step)
    requires RowsTrue(db) && AllMade(db)
    ensures Originals(db, WritesOf(setting, db, step))
  {
    hide Made, ObservePlan, ProposePlan, PromotePlan, CorrectPlan, ContradictPlan, BuiltManifest, ReceiptFor,
      VerifyDetails, OperationPayload, MayMove;
    match step
    case Observing(kind, payload, run, parents, claim, indexed, nonce) =>
      ObserveMade(db, kind, payload, run, parents, claim, indexed, nonce);
    case Proposing(p) => ProposeMade(db, p);
    case Promoting(id, nonce, clock) => PromoteMade(db, id, nonce, clock);
    case Correcting(id, claim, into, sources, nonce) => CorrectMade(db, id, claim, into, sources, nonce);
    case Contradicting(id, claim, sources, reason, nonce) => ContradictMade(db, id, claim, sources, reason, nonce);
    case _ =>
  }

  /** In every run, however cut, a memory with the content of a proposal was made by a proposal. */
  lemma {:induction false} RunMade(setting: Setting, moves: seq<Move>)
    requires ValidRun(setting, moves)
    ensures AllMade(RunDb(setting, moves))
    decreases |moves|
  {
    hide Made, CertInv, Synced, WritesOf, ValidStep, RowsTrue, Originals;
    if moves != [] {
      var n := |moves| - 1;
      var db := RunDb(setting, moves[..n]);
      RunMade(setting, moves[..n]);
      RunKeeps(setting, moves[..n]);
      SyncedRows(db);
      StepMade(setting, db, moves[n].step);
      WritesMade(db, WritesOf(setting, db, moves[n].step), moves[n].cut);
    }
  }
}
