/**
 Lane changes against the transition table, with one kernel. The log of revisions obeys the table, save that
 a failed verification quarantines from any lane and, in runs that are not clean, that a proposal may replace
 a tombstone.
*/
module Transitions {
  import opened Basics
  import opened Records
  import opened Evidence
  import opened Tables
  import opened Plans
  import opened Pipeline
  import opened Certification
  import opened Lanes

  // ---- Verification and the table.

  /** Where verification moves a record. */
  function VerifiedLane(
    setting: Setting, db: Db, r: MemoryRecord, m: Manifest, intent: Option<ActionIntent>, verification: nat): Lane
  {
    if ReceiptFor(setting, db, r, m, intent, verification).seed.passed then Shadow else Quarantine
  }

  lemma UnfitLaneFails(
      setting: Setting, db: Db, r: MemoryRecord, m: Manifest, intent: Option<ActionIntent>, verification: nat)
    requires r.lane != Candidate && r.lane != Shadow
    ensures VerifiedLane(setting, db, r, m, intent, verification) == Quarantine
  {
    hide InputsPass, ManifestPasses, DigestPasses, ToolsPass, BoundaryPasses, CapsPass, Collect, Dump;
    var q := ReceiptFor(setting, db, r, m, intent, verification);
    assert !SchemaPasses(r);
    assert !q.seed.checks[0].passed;
  }

  /** The move that verification makes is one of the table exactly from candidate, shadow and quarantine. */
  lemma VerifyObeysTableIff(
      setting: Setting, db: Db, id: Text, intent: Option<ActionIntent>, nonce: nat, verification: nat, created: Json)
    requires VerifyPlan(setting, db, id, intent, nonce, verification, created).result.Ok?
    ensures id in db.records
    ensures var r := db.records[id].raw;
      var ws := VerifyPlan(setting, db, id, intent, nonce, verification, created).writes;
      && |ws| == 4 && ws[3].PutRecord? && ws[3].change.record.memoryId == r.memoryId
      && (MayMove(r.lane, ws[3].change.record.lane) <==> r.lane in {Candidate, Shadow, Quarantine})
  {
    hide BuiltManifest, ReceiptFor, VerifyDetails, OperationPayload;
    var r := db.records[id].raw;
    var m := BuiltManifest(setting, db, r, created).value;
    if r.lane != Candidate && r.lane != Shadow { UnfitLaneFails(setting, db, r, m, intent, verification); }
  }

  // ---- Every write.

  /**
   A change of lane that the table allows, or a quarantine by verification. If not strict, a proposal may
   also replace a tombstone.
  */
  predicate LawfulChange(before: Option<Lane>, operation: Operation, after: Lane, strict: bool) {
    before.Some? ==>
      || MayMove(before.value, after)
      || (operation == Verified && after == Quarantine)
      || (!strict && before.value == Tombstone && operation == Wrote && after == Candidate)
  }

  predicate Lawful(db: Db, w: Write, strict: bool) {
    w.PutRecord? ==> LawfulChange(LaneNow(db, w.change.record.memoryId), w.change.operation, w.change.record.lane,
                                  strict)
  }

  function Laws(strict: bool): Rule {
    (db, w) => Lawful(db, w, strict)
  }

  predicate RevisionsLawful(revisions: seq<Revision>, strict: bool) {
    forall k :: 0 <= k < |revisions| ==>
      LawfulChange(revisions[k].before, revisions[k].operation, revisions[k].after, strict)
  }

  lemma WriteLawful(db: Db, w: Write, strict: bool)
    requires RevisionsLawful(db.revisions, strict) && Lawful(db, w, strict)
    ensures RevisionsLawful(Written(db, w).revisions, strict)
  {
    hide LawfulChange, Without;
  }

  lemma WritesLawful(db: Db, ws: seq<Write>, cut: nat, strict: bool)
    requires RevisionsLawful(db.revisions, strict) && AllMeet(Laws(strict), db, ws)
    ensures RevisionsLawful(WrittenAll(db, Take(ws, cut)).revisions, strict)
  {
    hide RevisionsLawful, Lawful, AllMeet, Fails, Written, WrittenAll;
    forall d: Db, w: Write | RevisionsLawful(d.revisions, strict) && Laws(strict)(d, w) && !Fails(d, w)
      ensures RevisionsLawful(Written(d, w).revisions, strict)
    {
      WriteLawful(d, w, strict);
    }
    MeetKeeps(Laws(strict), (d: Db) => RevisionsLawful(d.revisions, strict), db, ws, cut);
  }

  // ---- The operations.

  /** A record whose first source is an event just put is not there yet. */
  lemma FreshId(setting: Setting, db: Db, e: Event, lane: Lane, c: Content)
    requires CertInv(setting, db) && !HasEvent(db.events, e.id) && c.sources != [] && c.sources[0] == e.id
    ensures MemoryId(lane, c) !in db.records
  {
    hide CertInv, Rooted, HasEvent;
    var id := MemoryId(lane, c);
    if id in db.records {
      InvRooted(setting, db, id);
      RootedContent(db.events, db.records[id].raw);
    }
  }

  lemma EventThenLawful(setting: Setting, db: Db, e: Event, lane: Lane, c: Content, change: Change, strict: bool)
    requires CertInv(setting, db) && c.sources != [] && c.sources[0] == e.id
    requires CreateRecord(lane, c).Ok? && change.record == CreateRecord(lane, c).value
    ensures AllMeet(Laws(strict), db, [PutEvent(e), PutRecord(change)])
  {
    hide CertInv, CreateRecord, AllMeet;
    CreatedLane(lane, c);
    if !Fails(db, PutEvent(e)) { FreshId(setting, db, e, lane, c); }
    MeetTwo(Laws(strict), db, PutEvent(e), PutRecord(change));
  }

  lemma ObserveLawful(
      setting: Setting, db: Db, kind: string, payload: Json, run: Text, parents: seq<Text>, claim: string,
      indexed: bool, nonce: nat, strict: bool)
    requires CertInv(setting, db)
    ensures AllMeet(Laws(strict), db, ObservePlan(db, kind, payload, run, parents, claim, indexed, nonce).writes)
  {
    hide AllMeet, CertInv, CreateRecord, Digestible;
    MeetNone(Laws(strict), db);
    var e := MakeEvent(nonce, run, kind, payload, parents);
    MeetOne(Laws(strict), db, PutEvent(e));
    var metadata := map[
      Plain("kind") := Str(Plain(kind)), Plain("run_id") := Str(run), Plain("obs_seq") := Int(|db.events| + 1)];
    var c := Content(claim, [e.id], metadata, [], []);
    if indexed && CreateRecord(Raw, c).Ok? {
      EventThenLawful(setting, db, e, Raw, c, Change(CreateRecord(Raw, c).value, Wrote, "", None, Some(e.id)), strict);
    }
  }

  lemma CorrectLawful(
      setting: Setting, db: Db, id: Text, claim: string, into: Option<Text>, sources: seq<Text>, nonce: nat,
      strict: bool)
    requires CertInv(setting, db)
    ensures AllMeet(Laws(strict), db, CorrectPlan(db, id, claim, into, sources, nonce).writes)
  {
    hide AllMeet, CertInv, CreateRecord, CorrectedMetadata, OperationPayload;
    MeetNone(Laws(strict), db);
    if id in db.records {
      var ws := CorrectPlan(db, id, claim, into, sources, nonce).writes;
      var original := db.records[id].raw;
      var actual := if into.Some? && into.value != Plain("") then into.value
        else RunOf(original.metadata, "correction");
      var e := ws[0].event;
      MeetOne(Laws(strict), db, PutEvent(e));
      if |ws| == 2 {
        var inputs := [e.id] + sources;
        var c := Content(claim, inputs, CorrectedMetadata(original, actual, |inputs|), [id], []);
        EventThenLawful(setting, db, e, Candidate, c, ws[1].change, strict);
      }
    }
  }

  lemma ContradictLawful(
      setting: Setting, db: Db, id: Text, claim: string, sources: seq<Text>, reason: string, nonce: nat, strict: bool)
    requires CertInv(setting, db)
    ensures AllMeet(Laws(strict), db, ContradictPlan(db, id, claim, sources, reason, nonce).writes)
  {
    hide AllMeet, CertInv, CreateRecord, ContradictedMetadata, OperationPayload;
    MeetNone(Laws(strict), db);
    if id in db.records {
      var ws := ContradictPlan(db, id, claim, sources, reason, nonce).writes;
      var original := db.records[id].raw;
      var e := ws[0].event;
      MeetOne(Laws(strict), db, PutEvent(e));
      if |ws| == 2 {
        var metadata := ContradictedMetadata(original, RunOf(original.metadata, "contradiction"), reason);
        EventThenLawful(setting, db, e, Contradiction, Content(claim, [e.id] + sources, metadata, [], [id]),
                        ws[1].change,
                        strict);
      }
    }
  }

  /** What a proposal overwrites, if anything, is still in the candidate lane or, if not strict, a tombstone. */
  lemma ProposeLawful(setting: Setting, db: Db, p: Proposal, strict: bool)
    requires CertInv(setting, db) && PaceInv(db, strict)
    ensures AllMeet(Laws(strict), db, ProposePlan(db, p).writes)
  {
    hide AllMeet, CertInv, PaceInv, ProposedContent, CreateRecord, Rooted, RunLength;
    MeetNone(Laws(strict), db);
    if ProposePlan(db, p).result.Ok? {
      var r := ProposePlan(db, p).result.value;
      ProposalShape(db, p);
      if r.memoryId in db.records && db.records[r.memoryId].lane != Candidate
         && (strict || db.records[r.memoryId].lane != Tombstone) {
        InvRooted(setting, db, r.memoryId);
        PaceGrown(db, r.memoryId, strict);
        NoReproposal(setting, db, p, r.memoryId);
      }
      MeetOne(Laws(strict), db, ProposePlan(db, p).writes[0]);
    }
  }

  lemma VerifyLawful(
      setting: Setting, db: Db, id: Text, intent: Option<ActionIntent>, nonce: nat, verification: nat, created: Json,
      strict: bool)
    requires CertInv(setting, db)
    ensures AllMeet(Laws(strict), db, VerifyPlan(setting, db, id, intent, nonce, verification, created).writes)
  {
    hide AllMeet, CertInv, Rooted, BuiltManifest, ReceiptFor, VerifyDetails, OperationPayload;
    MeetNone(Laws(strict), db);
    var ws := VerifyPlan(setting, db, id, intent, nonce, verification, created).writes;
    if ws != [] {
      InvRooted(setting, db, id);
      var r := db.records[id].raw;
      var m := BuiltManifest(setting, db, r, created).value;
      if r.lane != Candidate && r.lane != Shadow { UnfitLaneFails(setting, db, r, m, intent, verification); }
      var db1 := Written(db, ws[0]);
      var db2 := Written(db1, ws[1]);
      MeetTwo(Laws(strict), db2, ws[2], ws[3]);
      MeetCons(Laws(strict), db1, ws[1], [ws[2], ws[3]]);
      assert [ws[1]] + [ws[2], ws[3]] == [ws[1], ws[2], ws[3]];
      MeetCons(Laws(strict), db, ws[0], [ws[1], ws[2], ws[3]]);
      assert ws == [ws[0]] + [ws[1], ws[2], ws[3]];
    }
  }

  lemma {:induction false} SupersedeLawfulLoop(db: Db, ids: seq<Text>, q: Text, strict: bool)
    requires RowsTrue(db)
    ensures AllMeet(Laws(strict), db, SupersedeWrites(db, ids, q).writes)
    decreases |ids|
  {
    hide AllMeet, MayMove, Without;
    MeetNone(Laws(strict), db);
    if ids != [] && ids[0] in db.records && MayMove(db.records[ids[0]].lane, Superseded) {
      var w := PutRecord(SupersededBy(db.records[ids[0]].raw, q));
      SupersedeLawfulLoop(Written(db, w), ids[1..], q, strict);
      MeetCons(Laws(strict), db, w, SupersedeWrites(Written(db, w), ids[1..], q).writes);
    }
  }

  lemma CertifyingLawful(db: Db, v: Write, w: Write, ids: seq<Text>, q: Text, strict: bool)
    requires RowsTrue(db) && v.PutContract? && w.PutRecord? && Lawful(db, w, strict)
    ensures AllMeet(Laws(strict), db, [v, w] + SupersedeWrites(Written(Written(db, v), w), ids, q).writes)
  {
    hide AllMeet, SupersedeWrites, Without, LawfulChange;
    var g := Written(db, v);
    var h := Written(g, w);
    var rest := SupersedeWrites(h, ids, q).writes;
    SupersedeLawfulLoop(h, ids, q, strict);
    MeetCons(Laws(strict), g, w, rest);
    MeetCons(Laws(strict), db, v, [w] + rest);
    assert [v] + ([w] + rest) == [v, w] + rest;
  }

  lemma PromoteLawful(setting: Setting, db: Db, id: Text, nonce: nat, clock: nat, strict: bool)
    requires CertInv(setting, db)
    ensures AllMeet(Laws(strict), db, PromotePlan(db, id, nonce, clock).writes)
  {
    hide AllMeet, CertInv, Rooted, SupersedeWrites, LastPassing, ReceiptsOf, MayMove, ContractOf, OperationPayload,
      PromoteDetails;
    MeetNone(Laws(strict), db);
    var ws := PromotePlan(db, id, nonce, clock).writes;
    if ws != [] {
      InvRooted(setting, db, id);
      InvRows(setting, db);
      var r := db.records[id].raw;
      var q := LastPassing(ReceiptsOf(db.receipts, id), r.updateId).value;
      var rest := SupersedeWrites(Written(Written(db, ws[0]), ws[1]), r.supersedes, q.id);
      CertifyingLawful(db, ws[0], ws[1], r.supersedes, q.id, strict);
      if rest.result.Ok? { MeetLast(Laws(strict), db, [ws[0], ws[1]] + rest.writes, PutEvent(ws[|ws| - 1].event)); }
    }
  }

  lemma RetireLawful(setting: Setting, db: Db, id: Text, reason: string, nonce: nat, strict: bool)
    requires CertInv(setting, db)
    ensures AllMeet(Laws(strict), db, RetirePlan(db, id, reason, nonce).writes)
  {
    hide AllMeet, CertInv, Rooted, MayMove, OperationPayload;
    MeetNone(Laws(strict), db);
    var ws := RetirePlan(db, id, reason, nonce).writes;
    if ws != [] {
      InvRooted(setting, db, id);
      MeetTwo(Laws(strict), db, ws[0], ws[1]);
    }
  }

  lemma SupersedeLawful(setting: Setting, db: Db, earlier: Text, newer: Text, receipt: Text, nonce: nat, strict: bool)
    requires CertInv(setting, db)
    ensures AllMeet(Laws(strict), db, SupersedePlan(db, earlier, newer, receipt, nonce).writes)
  {
    hide AllMeet, CertInv, Rooted, MayMove, OperationPayload;
    MeetNone(Laws(strict), db);
    var ws := SupersedePlan(db, earlier, newer, receipt, nonce).writes;
    if ws != [] {
      InvRooted(setting, db, earlier);
      MeetTwo(Laws(strict), db, ws[0], ws[1]);
    }
  }

  // ---- Runs.

  lemma StepLawful(setting: Setting, db: Db, step: Step, strict: bool)
    requires CertInv(setting, db) && (step.Proposing? ==> PaceInv(db, strict))
    ensures AllMeet(Laws(strict), db, WritesOf(setting, db, step))
  {
    hide AllMeet, CertInv, PaceInv, ObservePlan, ProposePlan, VerifyPlan, PromotePlan, CorrectPlan, RetirePlan,
      ContradictPlan, SupersedePlan;
    match step
    case Observing(kind, payload, run, parents, claim, indexed, nonce) =>
      ObserveLawful(setting, db, kind, payload, run, parents, claim, indexed, nonce, strict);
    case Proposing(p) => ProposeLawful(setting, db, p, strict);
    case Verifying(id, intent, nonce, verification, created) =>
      VerifyLawful(setting, db, id, intent, nonce, verification, created, strict);
    case Promoting(id, nonce, clock) => PromoteLawful(setting, db, id, nonce, clock, strict);
    case Correcting(id, claim, into, sources, nonce) =>
      CorrectLawful(setting, db, id, claim, into, sources, nonce, strict);
    case Retiring(id, reason, nonce) => RetireLawful(setting, db, id, reason, nonce, strict);
    case Contradicting(id, claim, sources, reason, nonce) =>
      ContradictLawful(setting, db, id, claim, sources, reason, nonce, strict);
    case Superseding(earlier, newer, receipt, nonce) =>
      SupersedeLawful(setting, db, earlier, newer, receipt, nonce, strict);
  }

  lemma {:induction false} RevisionsStayLawful(setting: Setting, moves: seq<Move>, strict: bool)
    requires ValidRun(setting, moves) && (strict ==> CleanRun(setting, moves))
    ensures RevisionsLawful(RunDb(setting, moves).revisions, strict)
    decreases |moves|
  {
    hide CleanRun, CertInv, PaceInv, WritesOf, AllMeet, RevisionsLawful, ValidStep;
    if moves == [] {
      NoRevisionYet(strict);
    } else {
      var n := |moves| - 1;
      var db := RunDb(setting, moves[..n]);
      if strict { CleanFront(setting, moves, n); }
      RevisionsStayLawful(setting, moves[..n], strict);
      RunPaced(setting, moves[..n], strict);
      StepLawful(setting, db, moves[n].step, strict);
      WritesLawful(db, WritesOf(setting, db, moves[n].step), moves[n].cut, strict);
    }
  }

  /**
   In every run each revision moves its memory as the transition table allows, or quarantines it after a
   failed verification, or proposes it again over its tombstone; the last never happens in a run that cuts
   no retirement of a repeatable candidate in the middle.
  */
  lemma RevisionsObeyTable(setting: Setting, moves: seq<Move>, db: Db, strict: bool, k: nat)
    requires Reached(setting, moves, db) && (strict ==> CleanlyReached(setting, moves, db)) && k < |db.revisions|
    ensures LawfulChange(db.revisions[k].before, db.revisions[k].operation, db.revisions[k].after, strict)
  {
    hide Reached, CleanlyReached, CleanRun, RunDb, LawfulChange, CertInv, Synced, RowsTrue, ValidRun;
    ReachedInv(setting, moves, db);
    if strict { CleanlyReachedMeans(setting, moves, db); }
    RevisionsStayLawful(setting, moves, strict);
  }

  lemma NoRevisionYet(strict: bool)
    ensures RevisionsLawful(EMPTY_DB.revisions, strict)
  {
  }
}
