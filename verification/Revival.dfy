/**
 When a revoked memory can be certified again. Revocation is for good once the run of the memory has grown
 since its proposal; as long as it has not, the same proposal makes the same memory again.
*/
module Revival {
  import opened Basics
  import opened Records
  import opened Evidence
  import opened Tables
  import opened Plans
  import opened Pipeline
  import opened Certification
  import opened Origins
  import opened Lanes
  import opened Lifecycle
  import opened Kernel

  // ---- One operation on a revoked memory.

  predicate Gentle(w: Write, id: Text) {
    w.PutRecord? && w.change.record.memoryId == id ==> Revoked(w.change.record.lane)
  }

  function Gentles(id: Text): Rule {
    (db, w) => Gentle(w, id)
  }

  predicate RevokedIn(db: Db, id: Text) {
    id in db.records && Revoked(db.records[id].lane)
  }

  lemma WritesGentle(db: Db, ws: seq<Write>, cut: nat, id: Text)
    requires RevokedIn(db, id) && AllMeet(Gentles(id), db, ws)
    ensures RevokedIn(WrittenAll(db, Take(ws, cut)), id)
  {
    hide AllMeet, Fails, WrittenAll;
    MeetKeeps(Gentles(id), d => RevokedIn(d, id), db, ws, cut);
  }

  /** A record whose first source is an event just put is a new memory. */
  lemma FreshGentle(setting: Setting, db: Db, e: Event, lane: Lane, c: Content, change: Change, id: Text)
    requires CertInv(setting, db) && id in db.records
    requires CreateRecord(lane, c).Ok? && c.sources != [] && c.sources[0] == e.id
    requires change.record == CreateRecord(lane, c).value
    ensures AllMeet(Gentles(id), db, [PutEvent(e), PutRecord(change)])
  {
    hide CertInv, Rooted;
    InvRooted(setting, db, id);
    RootedContent(db.events, db.records[id].raw);
    CreatedLane(lane, c);
    var ws := [PutEvent(e), PutRecord(change)];
    assert ws[1..] == [PutRecord(change)] && ws[1..][1..] == [];
    if !Fails(db, PutEvent(e)) {
      assert Gentle(PutRecord(change), id);
      MeetEach(Gentles(id), Written(db, PutEvent(e)), [PutRecord(change)]);
    }
  }

  lemma ObserveGentle(
      setting: Setting, db: Db, kind: string, payload: Json, run: Text, parents: seq<Text>, claim: string,
      indexed: bool, nonce: nat, id: Text)
    requires CertInv(setting, db) && id in db.records
    ensures AllMeet(Gentles(id), db, ObservePlan(db, kind, payload, run, parents, claim, indexed, nonce).writes)
  {
    hide AllMeet, CertInv, CreateRecord, Digestible;
    MeetEach(Gentles(id), db, []);
    var e := MakeEvent(nonce, run, kind, payload, parents);
    MeetEach(Gentles(id), db, [PutEvent(e)]);
    var metadata := map[
      Plain("kind") := Str(Plain(kind)), Plain("run_id") := Str(run), Plain("obs_seq") := Int(|db.events| + 1)];
    var c := Content(claim, [e.id], metadata, [], []);
    if indexed && CreateRecord(Raw, c).Ok? {
      FreshGentle(setting, db, e, Raw, c, Change(CreateRecord(Raw, c).value, Wrote, "", None, Some(e.id)), id);
    }
  }

  lemma CorrectGentle(
      setting: Setting, db: Db, at: Text, claim: string, into: Option<Text>, sources: seq<Text>, nonce: nat, id: Text)
    requires CertInv(setting, db) && id in db.records
    ensures AllMeet(Gentles(id), db, CorrectPlan(db, at, claim, into, sources, nonce).writes)
  {
    hide AllMeet, CertInv, CreateRecord, CorrectedMetadata, OperationPayload;
    MeetEach(Gentles(id), db, []);
    if at in db.records {
      var ws := CorrectPlan(db, at, claim, into, sources, nonce).writes;
      var original := db.records[at].raw;
      var actual := if into.Some? && into.value != Plain("") then into.value
        else RunOf(original.metadata, "correction");
      var e := ws[0].event;
      MeetEach(Gentles(id), db, [PutEvent(e)]);
      if |ws| == 2 {
        var inputs := [e.id] + sources;
        FreshGentle(setting, db, e, Candidate,
                    Content(claim, inputs, CorrectedMetadata(original, actual, |inputs|), [at], []), ws[1].change, id);
      }
    }
  }

  lemma ContradictGentle(
      setting: Setting, db: Db, at: Text, claim: string, sources: seq<Text>, reason: string, nonce: nat, id: Text)
    requires CertInv(setting, db) && id in db.records
    ensures AllMeet(Gentles(id), db, ContradictPlan(db, at, claim, sources, reason, nonce).writes)
  {
    hide AllMeet, CertInv, CreateRecord, ContradictedMetadata, OperationPayload;
    MeetEach(Gentles(id), db, []);
    if at in db.records {
      var ws := ContradictPlan(db, at, claim, sources, reason, nonce).writes;
      var original := db.records[at].raw;
      var e := ws[0].event;
      MeetEach(Gentles(id), db, [PutEvent(e)]);
      if |ws| == 2 {
        var metadata := ContradictedMetadata(original, RunOf(original.metadata, "contradiction"), reason);
        FreshGentle(setting, db, e, Contradiction, Content(claim, [e.id] + sources, metadata, [], [at]), ws[1].change,
                    id);
      }
    }
  }

  /** Verification of a revoked memory fails on its lane and quarantines it. */
  lemma VerifyGentle(
      setting: Setting, db: Db, at: Text, intent: Option<ActionIntent>, nonce: nat, verification: nat, created: Json,
      id: Text)
    requires CertInv(setting, db) && RevokedIn(db, id)
    ensures AllMeet(Gentles(id), db, VerifyPlan(setting, db, at, intent, nonce, verification, created).writes)
  {
    hide AllMeet, CertInv, Rooted, BuiltManifest, VerifyDetails, OperationPayload, InputsPass, ManifestPasses,
      DigestPasses, ToolsPass, BoundaryPasses, CapsPass, Collect, Dump;
    var ws := VerifyPlan(setting, db, at, intent, nonce, verification, created).writes;
    if ws != [] {
      InvRooted(setting, db, at);
      var r := db.records[at].raw;
      var m := BuiltManifest(setting, db, r, created).value;
      var q := ReceiptFor(setting, db, r, m, intent, verification);
      if at == id {
        assert !SchemaPasses(r);
        assert !q.seed.checks[0].passed;
      }
      assert Gentle(ws[3], id);
    }
    MeetEach(Gentles(id), db, ws);
  }

  lemma {:induction false} SupersedeGentle(db: Db, ids: seq<Text>, q: Text, id: Text)
    ensures forall k :: 0 <= k < |SupersedeWrites(db, ids, q).writes| ==>
      Gentle(SupersedeWrites(db, ids, q).writes[k], id)
    decreases |ids|
  {
    hide MayMove, Written;
    if ids != [] && ids[0] in db.records && MayMove(db.records[ids[0]].lane, Superseded) {
      var w := PutRecord(SupersededBy(db.records[ids[0]].raw, q));
      SupersedeGentle(Written(db, w), ids[1..], q, id);
      assert Gentle(w, id);
    }
  }

  /** A revoked memory is not promoted, though a promotion may supersede it. */
  lemma PromoteGentle(setting: Setting, db: Db, at: Text, nonce: nat, clock: nat, id: Text)
    requires CertInv(setting, db) && RevokedIn(db, id)
    ensures AllMeet(Gentles(id), db, PromotePlan(db, at, nonce, clock).writes)
  {
    hide AllMeet, CertInv, Rooted, SupersedeWrites, LastPassing, ReceiptsOf, MayMove, ContractOf, OperationPayload;
    var ws := PromotePlan(db, at, nonce, clock).writes;
    if ws != [] {
      InvRooted(setting, db, at);
      var r := db.records[at].raw;
      var q := LastPassing(ReceiptsOf(db.receipts, at), r.updateId).value;
      SupersedableLane(r.lane);
      SupersedeGentle(Written(Written(db, ws[0]), ws[1]), r.supersedes, q.id, id);
      assert Gentle(ws[1], id);
    }
    MeetEach(Gentles(id), db, ws);
  }

  lemma RetireGentle(db: Db, at: Text, reason: string, nonce: nat, id: Text)
    ensures AllMeet(Gentles(id), db, RetirePlan(db, at, reason, nonce).writes)
  {
    hide AllMeet, MayMove, OperationPayload;
    MeetEach(Gentles(id), db, RetirePlan(db, at, reason, nonce).writes);
  }

  lemma SupersedingGentle(db: Db, earlier: Text, newer: Text, receipt: Text, nonce: nat, id: Text)
    ensures AllMeet(Gentles(id), db, SupersedePlan(db, earlier, newer, receipt, nonce).writes)
  {
    hide AllMeet, MayMove, OperationPayload;
    MeetEach(Gentles(id), db, SupersedePlan(db, earlier, newer, receipt, nonce).writes);
  }

  lemma ProposeGentle(setting: Setting, db: Db, p: Proposal, id: Text)
    requires CertInv(setting, db) && RevokedIn(db, id) && !Unchanged(db.events, db.records[id].raw)
    ensures AllMeet(Gentles(id), db, ProposePlan(db, p).writes)
  {
    hide AllMeet, CertInv, Unchanged, ProposedContent, CreateRecord;
    if ProposePlan(db, p).result.Ok? {
      NoReproposal(setting, db, p, id);
    }
    MeetEach(Gentles(id), db, ProposePlan(db, p).writes);
  }

  /** No operation writes a revoked memory into another lane, but for the proposal that it was. */
  lemma StepGentle(setting: Setting, db: Db, step: Step, id: Text)
    requires CertInv(setting, db) && RevokedIn(db, id)
    requires step.Proposing? ==> !Unchanged(db.events, db.records[id].raw)
    ensures AllMeet(Gentles(id), db, WritesOf(setting, db, step))
  {
    hide AllMeet, CertInv, Unchanged, RevokedIn, ObservePlan, ProposePlan, VerifyPlan, PromotePlan, CorrectPlan,
      RetirePlan, ContradictPlan, SupersedePlan;
    RevokedPresent(db, id);
    match step {
      case Observing(kind, payload, run, parents, claim, indexed, nonce) =>
        ObserveGentle(setting, db, kind, payload, run, parents, claim, indexed, nonce, id);
      case Proposing(p) => ProposeGentle(setting, db, p, id);
      case Verifying(at, intent, nonce, verification, created) =>
        VerifyGentle(setting, db, at, intent, nonce, verification, created, id);
      case Promoting(at, nonce, clock) => PromoteGentle(setting, db, at, nonce, clock, id);
      case Correcting(at, claim, into, sources, nonce) =>
        CorrectGentle(setting, db, at, claim, into, sources, nonce, id);
      case Retiring(at, reason, nonce) => RetireGentle(db, at, reason, nonce, id);
      case Contradicting(at, claim, sources, reason, nonce) =>
        ContradictGentle(setting, db, at, claim, sources, reason, nonce, id);
      case Superseding(earlier, newer, receipt, nonce) =>
        SupersedingGentle(db, earlier, newer, receipt, nonce, id);
    }
  }

  /** No operation, however cut, brings a revoked memory back whose run has changed. */
  lemma MoveKeepsRevoked(setting: Setting, db: Db, m: Move, id: Text)
    requires CertInv(setting, db) && RevokedIn(db, id) && !Unchanged(db.events, db.records[id].raw)
    ensures RevokedIn(After(setting, db, m), id)
  {
    hide AllMeet, CertInv, Unchanged, RevokedIn, WritesOf;
    StepGentle(setting, db, m.step, id);
    WritesGentle(db, WritesOf(setting, db, m.step), m.cut, id);
  }

  lemma RevokedPresent(db: Db, id: Text)
    requires RevokedIn(db, id)
    ensures id in db.records
  {
  }

  // ---- For good.

  /** Events are only added. */
  lemma {:induction false} EventsOnlyAdded(db: Db, ws: seq<Write>)
    ensures db.events <= WrittenAll(db, ws).events
    decreases |ws|
  {
    hide Fails, Upserted;
    if ws != [] && !Fails(db, ws[0]) {
      WrittenEvents(db, ws[0]);
      EventsOnlyAdded(Written(db, ws[0]), ws[1..]);
    }
  }

  lemma WrittenEvents(db: Db, w: Write)
    ensures db.events <= Written(db, w).events
  {
  }

  lemma {:induction false} EventsOfPrefix(events: seq<Event>, later: seq<Event>, run: Text)
    requires events <= later
    ensures EventsOf(events, run) <= EventsOf(later, run)
    decreases |later|
  {
    if |events| < |later| {
      assert events <= later[..|later| - 1];
      EventsOfPrefix(events, later[..|later| - 1], run);
    } else {
      assert events == later;
    }
  }

  lemma RunLengthGrows(events: seq<Event>, later: seq<Event>, r: MemoryRecord)
    requires events <= later
    ensures RunLength(events, r) <= RunLength(later, r)
  {
    match Get(r.metadata, "run_id")
    case Some(Str(run)) => EventsOfPrefix(events, later, run);
    case _ =>
  }

  /** What a memory is: two records with one id, at any two moments, have the same content. */
  lemma SameContent(setting: Setting, db: Db, later: Db, id: Text)
    requires CertInv(setting, db) && CertInv(setting, later) && id in db.records && id in later.records
    ensures var r, s := db.records[id].raw, later.records[id].raw;
      s.metadata == r.metadata && s.sources == r.sources && s.supersedes == r.supersedes
  {
    hide CertInv, HasEvent;
    InvRooted(setting, db, id);
    InvRooted(setting, later, id);
  }

  lemma GrownStays(setting: Setting, db: Db, later: Db, id: Text)
    requires CertInv(setting, db) && CertInv(setting, later) && id in db.records && id in later.records
    requires db.events <= later.events && Grown(db.events, db.records[id].raw)
    ensures Grown(later.events, later.records[id].raw)
  {
    hide CertInv;
    SameContent(setting, db, later, id);
    RunLengthGrows(db.events, later.events, db.records[id].raw);
  }

  lemma GrownChanged(events: seq<Event>, r: MemoryRecord)
    requires Grown(events, r)
    ensures !Unchanged(events, r)
  {
  }

  predicate RevokedForGood(db: Db, id: Text) {
    RevokedIn(db, id) && Grown(db.events, db.records[id].raw)
  }

  lemma {:induction false} RevokedStays(setting: Setting, moves: seq<Move>, more: seq<Move>, id: Text)
    requires ValidRun(setting, moves + more) && RevokedForGood(RunDb(setting, moves), id)
    ensures RevokedForGood(RunDb(setting, moves + more), id)
    decreases |more|
  {
    hide RevokedIn, CertInv, Synced, ValidStep, Grown, WritesOf;
    if more == [] {
      assert moves + more == moves;
    } else {
      var n := |more| - 1;
      var all := moves + more;
      assert all[..|all| - 1] == moves + more[..n];
      RevokedStays(setting, moves, more[..n], id);
      var db, later := RunDb(setting, moves + more[..n]), RunDb(setting, all);
      RunKeeps(setting, moves + more[..n]);
      RunKeeps(setting, all);
      RevokedPresent(db, id);
      GrownChanged(db.events, db.records[id].raw);
      MoveKeepsRevoked(setting, db, all[|all| - 1], id);
      EventsOnlyAdded(db, Take(WritesOf(setting, db, all[|all| - 1].step), all[|all| - 1].cut));
      RevokedPresent(later, id);
      GrownStays(setting, db, later, id);
    }
  }

  lemma GrownOrUnchanged(db: Db, id: Text)
    requires PaceInv(db, false) && id in db.records && !Unchanged(db.events, db.records[id].raw)
    ensures Grown(db.events, db.records[id].raw)
  {
    assert Ahead(db.events, db.records[id].raw, false);
  }

  /**
   In every run, whatever is cut: a memory in quarantine, tombstone, superseded or contradiction, unless its
   run has had no event since it was proposed, stays in these lanes, so it is never certified again.
  */
  lemma RevokedForever(setting: Setting, moves: seq<Move>, db: Db, more: seq<Move>, later: Db, id: Text)
    requires Reached(setting, moves, db) && Reached(setting, moves + more, later)
    requires RevokedIn(db, id) && !Unchanged(db.events, db.records[id].raw)
    ensures RevokedIn(later, id) && later.records[id].lane != Certified
  {
    hide Reached, RunDb, CertInv, Synced, PaceInv, ValidRun, Grown, Unchanged, WritesOf;
    ReachedInv(setting, moves, db);
    ReachedInv(setting, moves + more, later);
    RunPaced(setting, moves, false);
    GrownOrUnchanged(db, id);
    RevokedStays(setting, moves, more, id);
  }

  // ---- The same proposal again.

  /** Some proposal made now is this memory. */
  ghost predicate Proposable(db: Db, id: Text) {
    exists p: Proposal :: Proposes(db, p, id)
  }

  predicate Proposes(db: Db, p: Proposal, id: Text) {
    ProposePlan(db, p).result.Ok? && ProposePlan(db, p).result.value.memoryId == id
  }

  lemma SameEvents(events: seq<Event>, id: Text, p: Proposal, n: nat)
    requires MadeBy(events, id, p, n) && Unchanged(events, CreateRecord(Candidate, id.content).value)
    ensures EventsOf(events, p.run) == EventsOf(events[..n], p.run)
  {
    hide CreateRecord, ProposedContent;
    ProposedContentShape(p, EventsOf(events[..n], p.run));
    CreatedMetadata(Candidate, id.content);
    EventsOfPrefix(events[..n], events, p.run);
  }

  lemma UnchangedProposable(setting: Setting, db: Db, id: Text)
    requires CertInv(setting, db) && AllMade(db) && id in db.records && Unchanged(db.events, db.records[id].raw)
    ensures Proposable(db, id)
  {
    hide CertInv, CreateRecord, ProposedContent, RunLength;
    InvRooted(setting, db, id);
    assert Made(db.events, id);
    var p: Proposal, n: nat :| MadeBy(db.events, id, p, n);
    CreatedMetadata(Candidate, id.content);
    assert Unchanged(db.events, CreateRecord(Candidate, id.content).value) by {
      RunLengthOf(db.events, db.records[id].raw, CreateRecord(Candidate, id.content).value);
    }
    SameEvents(db.events, id, p, n);
    CreatedLane(Candidate, id.content);
    assert Proposes(db, p, id);
  }

  lemma RunLengthOf(events: seq<Event>, r: MemoryRecord, s: MemoryRecord)
    requires r.metadata == s.metadata
    ensures RunLength(events, r) == RunLength(events, s)
  {
  }

  /**
   In every run a stored memory is what some proposal made now would be exactly when it was made by a
   proposal and its run has had no event since.
  */
  lemma ProposableIff(setting: Setting, moves: seq<Move>, db: Db, id: Text)
    requires Reached(setting, moves, db) && id in db.records
    ensures Proposable(db, id) <==> Unchanged(db.events, db.records[id].raw)
  {
    hide Reached, CertInv, Synced, RowsTrue, ProposePlan, Unchanged, RunDb, ValidRun;
    ReachedInv(setting, moves, db);
    if Unchanged(db.events, db.records[id].raw) {
      RunMade(setting, moves);
      UnchangedProposable(setting, db, id);
    } else if Proposable(db, id) {
      var p: Proposal :| Proposes(db, p, id);
      ProposedUnchanged(setting, db, p, id);
    }
  }

  lemma ProposedUnchanged(setting: Setting, db: Db, p: Proposal, id: Text)
    requires CertInv(setting, db) && id in db.records && Proposes(db, p, id)
    ensures Unchanged(db.events, db.records[id].raw)
  {
    hide CertInv, ProposePlan, Unchanged;
    if !Unchanged(db.events, db.records[id].raw) { NoReproposal(setting, db, p, id); }
  }

  // ---- Numbers not used yet.

  function NextNonce(events: seq<Event>): nat {
    if events == [] then 0
    else
      var rest := NextNonce(events[..|events| - 1]);
      match events[|events| - 1].id
      case EventId(seed) => if seed.nonce < rest then rest else seed.nonce + 1
      case _ => rest
  }

  lemma {:induction false} NonceUnused(events: seq<Event>, e: Event)
    requires e.id.EventId? && NextNonce(events) <= e.id.event.nonce
    ensures !HasEvent(events, e.id)
  {
    if events != [] {
      var front := events[..|events| - 1];
      NonceUnused(front, e);
      assert forall k :: 0 <= k < |front| ==> front[k] == events[k];
    }
  }

  function NextVerification(receipts: seq<Receipt>): nat {
    if receipts == [] then 0
    else
      var rest := NextVerification(receipts[..|receipts| - 1]);
      match receipts[|receipts| - 1].id
      case ReceiptId(verification, _) => if verification < rest then rest else verification + 1
      case _ => rest
  }

  lemma {:induction false} VerificationUnused(receipts: seq<Receipt>, id: Text)
    requires id.ReceiptId? && NextVerification(receipts) <= id.verification
    ensures !HasReceipt(receipts, id)
  {
    if receipts != [] {
      var front := receipts[..|receipts| - 1];
      VerificationUnused(front, id);
      assert forall k :: 0 <= k < |front| ==> front[k] == receipts[k];
    }
  }

  lemma ContractUnused(setting: Setting, db: Db, id: Text)
    requires CertInv(setting, db) && id.ContractId? && !HasReceipt(db.receipts, id.contract.receipt)
    ensures id !in db.contracts
  {
    hide Rooted, Proven, BuiltFor, Backed, HasReceipt;
  }

  // ---- Certified from any state.

  function VerifyNow(db: Db, id: Text, created: Json): Step {
    Verifying(id, None, NextNonce(db.events), NextVerification(db.receipts), created)
  }

  function PromoteNow(db: Db, id: Text): Step {
    Promoting(id, NextNonce(db.events), 0)
  }

  /** What the verification of a verifiable record with unused numbers leaves. */
  lemma VerifiedNow(setting: Setting, db: Db, id: Text, created: Json)
    requires id in db.records && db.records[id].raw.memoryId == id
    requires setting.readers.stamp(created) && !HasFloat(created)
    requires Verifiable(db.records[id].raw, None, Collect(db.events, db.records[id].raw.sources))
    ensures var ws := WritesOf(setting, db, VerifyNow(db, id, created));
      var shadow := WrittenAll(db, ws);
      var r := db.records[id].raw;
      && AllSucceed(db, ws) && |ws| == 4 && ws[1].PutReceipt?
      && var q := ws[1].receipt;
        && shadow.contracts == db.contracts && !HasReceipt(db.receipts, q.id)
        && id in shadow.records
        && shadow.records[id].raw == Moved(r, Shadow, "verified in shadow lane", Some(q.id))
        && LastPassing(ReceiptsOf(shadow.receipts, id), r.updateId) == Some(q)
  {
    hide VerifyPlan, Verifiable, Collect, HasFloat, HasEvent, HasReceipt, WrittenAll, AllSucceed, Passing, LastPassing,
      ReceiptsOf, NextNonce, NextVerification, Without, RevisionOf, IndexRowOf;
    var v := VerifyNow(db, id, created);
    VerifiablePasses(setting, db, id, v.nonce, v.verification, created);
    var ws := WritesOf(setting, db, v);
    var q := ws[1].receipt;
    var db1 := Written(db, ws[0]);
    var db2 := Written(db1, ws[1]);
    VerificationUnused(db.receipts, q.id);
    NonceUnused(db.events, ws[2].event);
    assert ws == [PutManifest(ws[0].manifest), PutReceipt(q), PutEvent(ws[2].event), PutRecord(ws[3].change)];
    VerifyWrites(db, ws[0].manifest, q, ws[2].event, ws[3].change);
    ReceiptLast(db.receipts, q, db.records[id].raw.updateId);
  }

  /** What the promotion of a shadow record with a passing receipt and an unused contract id leaves. */
  lemma PromotedNow(setting: Setting, db: Db, id: Text, q: Receipt)
    requires id in db.records && db.records[id].raw.memoryId == id
    requires db.records[id].raw.lane == Shadow && db.records[id].raw.supersedes == []
    requires LastPassing(ReceiptsOf(db.receipts, id), db.records[id].raw.updateId) == Some(q)
    requires ContractOf(db.records[id].raw, q, 0).id !in db.contracts
    ensures AllSucceed(db, WritesOf(setting, db, PromoteNow(db, id)))
      && |WritesOf(setting, db, PromoteNow(db, id))| == 3
  {
    hide PromotePlan, HasEvent, WrittenAll, AllSucceed, LastPassing, ReceiptsOf, ContractOf, NextNonce, Upserted;
    var v := PromoteNow(db, id);
    ShadowPromotes(db, id, q, v.nonce, v.clock);
    var ws := WritesOf(setting, db, v);
    NonceUnused(db.events, ws[2].event);
    NoWritesAtAll(Written(Written(db, ws[0]), ws[1]));
    UpsertedEvents(Written(db, ws[0]), ws[1].change);
    PromoteWrites(db, ws[0], ws[1], Plan([], Ok(true)), ws[2]);
    assert ws == [ws[0], ws[1]] + [] + [ws[2]];
  }

  lemma UpsertedEvents(db: Db, c: Change)
    ensures Upserted(db, c).events == db.events
  {
  }

  /** A verifiable record can be certified from any state: unused numbers are always left. */
  lemma CertifiableNow(setting: Setting, db: Db, id: Text, created: Json)
    requires CertInv(setting, db) && id in db.records && db.records[id].raw.supersedes == []
    requires setting.readers.stamp(created) && !HasFloat(created)
    requires Verifiable(db.records[id].raw, None, Collect(db.events, db.records[id].raw.sources))
    ensures var v := VerifyNow(db, id, created);
      var shadow := WrittenAll(db, WritesOf(setting, db, v));
      var p := PromoteNow(shadow, id);
      && |WritesOf(setting, db, v)| == 4 && |WritesOf(setting, shadow, p)| == 3
      && Certifies(setting, db, id, v, p, shadow, WrittenAll(shadow, WritesOf(setting, shadow, p)))
  {
    hide CertInv, Verifiable, Collect, HasFloat, WritesOf, WrittenAll, AllSucceed, LastPassing, ReceiptsOf, ContractOf,
      HasReceipt, NextNonce, NextVerification;
    InvRooted(setting, db, id);
    VerifiedNow(setting, db, id, created);
    var v := VerifyNow(db, id, created);
    var q := WritesOf(setting, db, v)[1].receipt;
    var shadow := WrittenAll(db, WritesOf(setting, db, v));
    var contract := ContractOf(shadow.records[id].raw, q, 0);
    ContractFields(shadow.records[id].raw, q, 0);
    ContractUnused(setting, db, contract.id);
    PromotedNow(setting, shadow, id, q);
  }

  // ---- Exactly when.

  ghost predicate CertifiedAfter(setting: Setting, moves: seq<Move>, more: seq<Move>, id: Text) {
    ValidRun(setting, moves + more) && LaneNow(RunDb(setting, moves + more), id) == Some(Certified)
  }

  /** Some continuation of the run certifies the memory. */
  ghost predicate CanBeCertified(setting: Setting, moves: seq<Move>, id: Text) {
    exists more: seq<Move> :: CertifiedAfter(setting, moves, more, id)
  }

  lemma CapsOkSame(r: MemoryRecord, s: MemoryRecord)
    requires r.metadata == s.metadata
    ensures CapsOk(r) <==> CapsOk(s)
  {
  }

  lemma SturdyCaps(events: seq<Event>, r: MemoryRecord)
    requires Sturdy(events, r)
    ensures CapsOk(r)
  {
    hide OtherwiseVerifiable, CapsOk, Collect;
    CapsOkSame(r, r.(lane := Shadow));
  }

  /** What is certified has caps that the checkers took. */
  lemma CertifiedCaps(setting: Setting, db: Db, id: Text)
    requires CertInv(setting, db) && LaneNow(db, id) == Some(Certified)
    ensures CapsOk(db.records[id].raw)
  {
    hide Rooted, BuiltFor, Sturdy, CapsOk, Collect;
    InvRooted(setting, db, id);
    var r := db.records[id].raw;
    var k :| 0 <= k < |db.receipts| && Proves(db.receipts[k], db.contracts[r.contractId.value], r);
    assert Backed(db, db.receipts[k]);
    SturdyCaps(db.events, r);
  }

  lemma RunSnoc(setting: Setting, moves: seq<Move>, m: Move)
    ensures RunDb(setting, moves + [m]) == After(setting, RunDb(setting, moves), m)
    ensures ValidRun(setting, moves + [m]) <==> ValidRun(setting, moves) && ValidStep(setting, m.step)
  {
    hide After, ValidStep;
    var all := moves + [m];
    assert all[..|all| - 1] == moves;
    assert forall k :: 0 <= k < |moves| ==> all[k] == moves[k];
    assert all[|moves|] == m;
  }

  /** What a proposal leaves: the candidate, unchanged by definition, with the caps that were asked for. */
  lemma JustProposed(setting: Setting, moves: seq<Move>, db: Db, p: Proposal)
    requires Reached(setting, moves, db) && ProposePlan(db, p).result.Ok?
    ensures var id := ProposePlan(db, p).result.value.memoryId;
      var again := moves + [Move(Proposing(p), 1)];
      var proposed := RunDb(setting, again);
      && Reached(setting, again, proposed) && proposed.events == db.events
      && id in proposed.records && proposed.records[id] == RowOf(ProposePlan(db, p).result.value)
      && proposed.records[id].lane == Candidate && Unchanged(proposed.events, proposed.records[id].raw)
  {
    hide Reached, ValidRun, RunDb, CertInv, Synced, RowsTrue, Unchanged, CreateRecord, ProposedContent, Without,
      RevisionOf, IndexRowOf;
    ReachedInv(setting, moves, db);
    var m := Move(Proposing(p), 1);
    var r := ProposePlan(db, p).result.value;
    var w := PutRecord(Change(r, Wrote, "proposed from run", None, None));
    ProposalShape(db, p);
    SingleWrite(db, w);
    RunSnoc(setting, moves, m);
    RunReaches(setting, moves + [m]);
    RunKeeps(setting, moves + [m]);
    ProposedUnchanged(setting, Written(db, w), p, r.memoryId);
  }

  /** After a proposal of the memory with good caps it can be verified. */
  lemma ProposedAgain(setting: Setting, moves: seq<Move>, db: Db, p: Proposal, id: Text)
    requires Reached(setting, moves, db) && id in db.records && Proposes(db, p, id) && CapsOk(db.records[id].raw)
    ensures var again := moves + [Move(Proposing(p), 1)];
      var proposed := RunDb(setting, again);
      && ValidRun(setting, again) && id in proposed.records && proposed.records[id].raw.supersedes == []
      && Verifiable(proposed.records[id].raw, None, Collect(proposed.events, proposed.records[id].raw.sources))
  {
    hide Reached, ValidRun, RunDb, CertInv, Synced, RowsTrue, ProposePlan, Verifiable, CapsOf, PlainCaps, StepsInRange,
      CapsFor, Collect, RowOf, Unchanged;
    ReachedInv(setting, moves, db);
    var r := ProposePlan(db, p).result.value;
    var proposed := RunDb(setting, moves + [Move(Proposing(p), 1)]);
    JustProposed(setting, moves, db, p);
    ReachedInv(setting, moves + [Move(Proposing(p), 1)], proposed);
    RowRaw(r);
    SameContent(setting, db, proposed, id);
    CapsOkSame(db.records[id].raw, r);
    ProposalCaps(db, p);
    if p.caps.Some? { CapsAsked(p, |EventsOf(db.events, p.run)|); }
    ProposalVerifiableIff(setting, moves, db, p);
    ProposalSupersedes(db, p);
  }

  lemma CertifiedNext(setting: Setting, moves: seq<Move>, id: Text, created: Json)
    requires ValidRun(setting, moves) && id in RunDb(setting, moves).records
    requires RunDb(setting, moves).records[id].raw.supersedes == [] && setting.readers.stamp(created)
      && !HasFloat(created)
    requires var r := RunDb(setting, moves).records[id].raw;
      Verifiable(r, None, Collect(RunDb(setting, moves).events, r.sources))
    ensures CanBeCertified(setting, moves, id)
  {
    hide ValidRun, RunDb, CertInv, Synced, Verifiable, Collect, WritesOf, WrittenAll, AllSucceed, HasFloat;
    var db := RunDb(setting, moves);
    RunKeeps(setting, moves);
    InvRooted(setting, db, id);
    CertifiableNow(setting, db, id, created);
    var v := VerifyNow(db, id, created);
    var shadow := WrittenAll(db, WritesOf(setting, db, v));
    var p := PromoteNow(shadow, id);
    VerifiableIsCertified(setting, db, id, v, p, shadow, WrittenAll(shadow, WritesOf(setting, shadow, p)));
    RunSnoc(setting, moves, Move(v, 4));
    RunSnoc(setting, moves + [Move(v, 4)], Move(p, 3));
    assert moves + [Move(v, 4)] + [Move(p, 3)] == moves + [Move(v, 4), Move(p, 3)];
    assert CertifiedAfter(setting, moves, [Move(v, 4), Move(p, 3)], id);
  }

  /**
   In every run, whatever was cut: a revoked memory can be certified again exactly when its run has had no
   event since it was proposed and its caps are plain integers within range.
  */
  lemma ComesBackIff(setting: Setting, moves: seq<Move>, db: Db, id: Text, created: Json)
    requires Reached(setting, moves, db) && RevokedIn(db, id)
    requires setting.readers.stamp(created) && !HasFloat(created)
    ensures CanBeCertified(setting, moves, id) <==>
      Unchanged(db.events, db.records[id].raw) && CapsOk(db.records[id].raw)
  {
    hide Reached, ValidRun, RunDb, CertInv, Synced, RowsTrue, Verifiable, Unchanged, CapsOk, Collect, HasFloat;
    ReachedInv(setting, moves, db);
    if CanBeCertified(setting, moves, id) {
      var more: seq<Move> :| CertifiedAfter(setting, moves, more, id);
      var later := RunDb(setting, moves + more);
      RunReaches(setting, moves + more);
      RunKeeps(setting, moves + more);
      if !Unchanged(db.events, db.records[id].raw) { RevokedForever(setting, moves, db, more, later, id); }
      SameContent(setting, db, later, id);
      CapsOkSame(db.records[id].raw, later.records[id].raw);
      CertifiedCaps(setting, later, id);
    }
    if Unchanged(db.events, db.records[id].raw) && CapsOk(db.records[id].raw) {
      UnchangedComesBack(setting, moves, db, id, created);
    }
  }

  lemma UnchangedComesBack(setting: Setting, moves: seq<Move>, db: Db, id: Text, created: Json)
    requires Reached(setting, moves, db) && id in db.records
    requires setting.readers.stamp(created) && !HasFloat(created)
    requires Unchanged(db.events, db.records[id].raw) && CapsOk(db.records[id].raw)
    ensures CanBeCertified(setting, moves, id)
  {
    hide Reached, ValidRun, RunDb, CertInv, Synced, RowsTrue, Verifiable, Unchanged, CapsOk, Collect, HasFloat,
      ProposePlan, LaneNow;
    ReachedInv(setting, moves, db);
    RunMade(setting, moves);
    UnchangedProposable(setting, db, id);
    var p: Proposal :| Proposes(db, p, id);
    ProposedAgain(setting, moves, db, p, id);
    var first := [Move(Proposing(p), 1)];
    CertifiedNext(setting, moves + first, id, created);
    var more: seq<Move> :| CertifiedAfter(setting, moves + first, more, id);
    assert moves + first + more == moves + (first + more);
    assert CertifiedAfter(setting, moves, first + more, id);
  }

  /** The retirement, cut after its first write or refused at its second, has not written its event. */
  predicate EventLost(db: Db, id: Text, reason: string, nonce: nat, cut: nat) {
    var ws := RetirePlan(db, id, reason, nonce).writes;
    cut < |ws| || (|ws| == 2 && ws[1].PutEvent? && HasEvent(db.events, ws[1].event.id))
  }

  /** What a retirement leaves. */
  lemma Retired(setting: Setting, db: Db, id: Text, reason: string, nonce: nat, cut: nat)
    requires CertInv(setting, db) && id in db.records && MayMove(db.records[id].lane, Tombstone) && cut > 0
    ensures var later := After(setting, db, Move(Retiring(id, reason, nonce), cut));
      && LaneNow(later, id) == Some(Tombstone)
      && if EventLost(db, id, reason, nonce, cut) then later.events == db.events
         else
           exists e: Event ::
             e.run == RunOf(db.records[id].raw.metadata, "retire") && later.events == db.events + [e]
  {
    hide CertInv, Rooted, MayMove, OperationPayload, HasEvent, RunOf, WrittenAll, AllSucceed, Without, RevisionOf,
      IndexRowOf;
    InvRooted(setting, db, id);
    var ws := RetirePlan(db, id, reason, nonce).writes;
    if cut == 1 {
      assert Take(ws, cut) == [ws[0]];
      WrittenOne(db, ws[0]);
    } else {
      assert ws == [ws[0], ws[1]];
      WrittenTwo(db, ws[0], ws[1]);
      assert ws[1].event.run == RunOf(db.records[id].raw.metadata, "retire");
    }
  }

  lemma EventGrows(events: seq<Event>, e: Event, r: MemoryRecord)
    requires Ahead(events, r, false) && e.run == RunOf(r.metadata, "retire")
    ensures !Unchanged(events + [e], r)
  {
    if Proposed(r.metadata) { EventsOfSnoc(events, e, Get(r.metadata, "run_id").value.value); }
  }

  lemma UnchangedSame(events: seq<Event>, r: MemoryRecord, s: MemoryRecord)
    requires r.metadata == s.metadata && r.sources == s.sources
    ensures Unchanged(events, r) <==> Unchanged(events, s)
  {
  }

  /**
   A retirement in any run leaves a tombstone that can be certified again exactly when the event was not
   written, the run had had no event since the memory was proposed, and the caps are good.
  */
  lemma RetirementUndoneIff(
      setting: Setting, moves: seq<Move>, db: Db, id: Text, reason: string, nonce: nat, cut: nat, created: Json)
    requires Reached(setting, moves, db) && id in db.records && MayMove(db.records[id].lane, Tombstone) && cut > 0
    requires setting.readers.stamp(created) && !HasFloat(created)
    ensures var all := moves + [Move(Retiring(id, reason, nonce), cut)];
      && LaneNow(RunDb(setting, all), id) == Some(Tombstone)
      && (CanBeCertified(setting, all, id) <==>
          EventLost(db, id, reason, nonce, cut) && Unchanged(db.events, db.records[id].raw)
              && CapsOk(db.records[id].raw))
  {
    hide Reached, ValidRun, RunDb, CertInv, Synced, RowsTrue, PaceInv, Unchanged, CapsOk, EventLost, HasFloat, MayMove,
      WritesOf;
    ReachedInv(setting, moves, db);
    RunPaced(setting, moves, false);
    var m := Move(Retiring(id, reason, nonce), cut);
    RunSnoc(setting, moves, m);
    Retired(setting, db, id, reason, nonce, cut);
    var later := RunDb(setting, moves + [m]);
    RunReaches(setting, moves + [m]);
    RunKeeps(setting, moves + [m]);
    var r, s := db.records[id].raw, later.records[id].raw;
    SameContent(setting, db, later, id);
    CapsOkSame(r, s);
    UnchangedSame(later.events, r, s);
    InvAhead(db, id);
    if !EventLost(db, id, reason, nonce, cut) {
      var e: Event :| e.run == RunOf(r.metadata, "retire") && later.events == db.events + [e];
      EventGrows(db.events, e, r);
    }
    ComesBackIff(setting, moves + [m], later, id, created);
  }

  lemma InvAhead(db: Db, id: Text)
    requires PaceInv(db, false) && id in db.records
    ensures Ahead(db.events, db.records[id].raw, false)
  {
  }

  /** It happens: in every run a memory just proposed with default caps, its retirement cut, can be certified again. */
  lemma LostRetirement(
      setting: Setting, moves: seq<Move>, db: Db, p: Proposal, reason: string, nonce: nat, created: Json)
    requires Reached(setting, moves, db) && ProposePlan(db, p).result.Ok? && p.caps.None?
    requires setting.readers.stamp(created) && !HasFloat(created)
    ensures var id := ProposePlan(db, p).result.value.memoryId;
      var all := moves + [Move(Proposing(p), 1)] + [Move(Retiring(id, reason, nonce), 1)];
      LaneNow(RunDb(setting, all), id) == Some(Tombstone) && CanBeCertified(setting, all, id)
  {
    hide *;
    var id := ProposePlan(db, p).result.value.memoryId;
    var again := moves + [Move(Proposing(p), 1)];
    var proposed := RunDb(setting, again);
    JustProposed(setting, moves, db, p);
    DefaultCapsOk(db, p);
    RowRaw(ProposePlan(db, p).result.value);
    CandidateMayRetire();
    CutLosesEvent(setting, again, proposed, id, reason, nonce);
    RetirementUndoneIff(setting, again, proposed, id, reason, nonce, 1, created);
  }

  lemma DefaultCapsOk(db: Db, p: Proposal)
    requires ProposePlan(db, p).result.Ok? && p.caps.None?
    ensures CapsOk(ProposePlan(db, p).result.value)
  {
    hide ProposePlan, CapsFor, CapsOf;
    ProposalCaps(db, p);
    DefaultCapsInRange(p, EventsOf(db.events, p.run));
  }

  lemma CandidateMayRetire()
    ensures MayMove(Candidate, Tombstone)
  {
  }

  lemma CutLosesEvent(setting: Setting, moves: seq<Move>, db: Db, id: Text, reason: string, nonce: nat)
    requires Reached(setting, moves, db) && id in db.records && db.records[id].lane == Candidate
    ensures EventLost(db, id, reason, nonce, 1)
  {
    hide Reached, RunDb, CertInv, Synced, Rooted, OperationPayload;
    ReachedInv(setting, moves, db);
    InvRooted(setting, db, id);
  }
}
