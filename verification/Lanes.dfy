/**
 Proposals and the runs that they cover: every operation that moves a proposed memory out of the candidate
 lane also lengthens its run, unless a retirement is cut, and a longer run never gives the same proposal.
*/
module Lanes {
  import opened Basics
  import opened Records
  import opened Evidence
  import opened Tables
  import opened Plans
  import opened Pipeline
  import opened Certification
  import opened Origins

  // ---- Runs outgrow the proposals made from them.

  /** How many events the run of the record has. */
  function RunLength(events: seq<Event>, r: MemoryRecord): nat {
    match Get(r.metadata, "run_id")
    case Some(Str(run)) => |EventsOf(events, run)|
    case _ => 0
  }

  /** The run has had no event since the proposal. */
  predicate Unchanged(events: seq<Event>, r: MemoryRecord) {
    Proposed(r.metadata) && |r.sources| == RunLength(events, r)
  }

  predicate Grown(events: seq<Event>, r: MemoryRecord) {
    Proposed(r.metadata) ==> |r.sources| < RunLength(events, r)
  }

  predicate RunNamed(r: MemoryRecord) {
    match Get(r.metadata, "run_id")
    case Some(Str(run)) => run != Plain("")
    case _ => false
  }

  /**
   A proposal covers no more events than its run has, and fewer once it has left the candidate lane. If not
   strict, a tombstone may still cover them all.
  */
  predicate Ahead(events: seq<Event>, r: MemoryRecord, strict: bool) {
    Proposed(r.metadata) ==>
      && RunNamed(r) && |r.sources| <= RunLength(events, r)
      && (r.lane != Candidate && (strict || r.lane != Tombstone) ==> |r.sources| < RunLength(events, r))
  }

  predicate EventsNamed(events: seq<Event>) {
    forall k :: 0 <= k < |events| ==> events[k].run != Plain("")
  }

  predicate PaceInv(db: Db, strict: bool) {
    EventsNamed(db.events) && forall id :: id in db.records ==> Ahead(db.events, db.records[id].raw, strict)
  }

  predicate Paced(db: Db, w: Write, strict: bool) {
    match w
    case PutEvent(e) => e.run != Plain("")
    case PutRecord(c) => Ahead(db.events, c.record, strict)
    case _ => true
  }

  function Paces(strict: bool): Rule {
    (db, w) => Paced(db, w, strict)
  }

  lemma EventsOfSnoc(events: seq<Event>, e: Event, run: Text)
    ensures EventsOf(events + [e], run) == EventsOf(events, run) + (if e.run == run then [e] else [])
  {
    assert (events + [e])[..|events|] == events;
  }

  lemma AheadStays(events: seq<Event>, e: Event, r: MemoryRecord, strict: bool)
    requires Ahead(events, r, strict)
    ensures Ahead(events + [e], r, strict)
  {
    if Proposed(r.metadata) {
      EventsOfSnoc(events, e, Get(r.metadata, "run_id").value.value);
    }
  }

  lemma WritePaced(db: Db, w: Write, strict: bool)
    requires PaceInv(db, strict) && Paced(db, w, strict)
    ensures PaceInv(Written(db, w), strict)
  {
    hide Ahead;
    if w.PutEvent? {
      forall id | id in db.records ensures Ahead(db.events + [w.event], db.records[id].raw, strict) {
        AheadStays(db.events, w.event, db.records[id].raw, strict);
      }
    }
  }

  lemma WritesPaced(db: Db, ws: seq<Write>, cut: nat, strict: bool)
    requires PaceInv(db, strict) && AllMeet(Paces(strict), db, ws)
    ensures PaceInv(WrittenAll(db, Take(ws, cut)), strict)
  {
    hide PaceInv, Paced, AllMeet, Fails, Written, WrittenAll;
    forall d: Db, w: Write | PaceInv(d, strict) && Paces(strict)(d, w) && !Fails(d, w)
      ensures PaceInv(Written(d, w), strict)
    {
      WritePaced(d, w, strict);
    }
    MeetKeeps(Paces(strict), d => PaceInv(d, strict), db, ws, cut);
  }

  lemma RunNonEmpty(metadata: map<Text, Json>, otherwise: string)
    requires otherwise != ""
    ensures RunOf(metadata, otherwise) != Plain("")
  {
  }

  lemma UnproposedAhead(events: seq<Event>, r: MemoryRecord, strict: bool)
    requires !Proposed(r.metadata)
    ensures Ahead(events, r, strict)
  {
  }

  lemma CreatedMetadata(lane: Lane, c: Content)
    requires CreateRecord(lane, c).Ok?
    ensures var r := CreateRecord(lane, c).value; r.metadata == c.metadata && r.sources == c.sources && r.lane == lane
  {
  }

  /** A record that is created from an event just put, with metadata of its own kind. */
  lemma EventThenPaced(db: Db, e: Event, lane: Lane, c: Content, change: Change, strict: bool)
    requires e.run != Plain("") && CreateRecord(lane, c).Ok? && !Proposed(c.metadata)
    requires change.record == CreateRecord(lane, c).value
    ensures AllMeet(Paces(strict), db, [PutEvent(e), PutRecord(change)])
  {
    hide Ahead, CreateRecord, Proposed;
    CreatedMetadata(lane, c);
    UnproposedAhead(Written(db, PutEvent(e)).events, change.record, strict);
    MeetTwo(Paces(strict), db, PutEvent(e), PutRecord(change));
  }

  lemma ObservePaced(
      db: Db, kind: string, payload: Json, run: Text, parents: seq<Text>, claim: string, indexed: bool, nonce: nat,
      strict: bool)
    requires run != Plain("")
    ensures AllMeet(Paces(strict), db, ObservePlan(db, kind, payload, run, parents, claim, indexed, nonce).writes)
  {
    hide AllMeet, CreateRecord, Digestible;
    MeetNone(Paces(strict), db);
    var e := MakeEvent(nonce, run, kind, payload, parents);
    MeetOne(Paces(strict), db, PutEvent(e));
    var metadata := map[
      Plain("kind") := Str(Plain(kind)), Plain("run_id") := Str(run), Plain("obs_seq") := Int(|db.events| + 1)];
    var c := Content(claim, [e.id], metadata, [], []);
    if indexed && CreateRecord(Raw, c).Ok? {
      EventThenPaced(db, e, Raw, c, Change(CreateRecord(Raw, c).value, Wrote, "", None, Some(e.id)), strict);
    }
  }

  lemma CorrectPaced(db: Db, id: Text, claim: string, into: Option<Text>, sources: seq<Text>, nonce: nat, strict: bool)
    ensures AllMeet(Paces(strict), db, CorrectPlan(db, id, claim, into, sources, nonce).writes)
  {
    hide AllMeet, CreateRecord, CorrectedMetadata, OperationPayload, Proposed;
    MeetNone(Paces(strict), db);
    if id in db.records {
      var ws := CorrectPlan(db, id, claim, into, sources, nonce).writes;
      var original := db.records[id].raw;
      var actual := if into.Some? && into.value != Plain("") then into.value
        else RunOf(original.metadata, "correction");
      RunNonEmpty(original.metadata, "correction");
      var e := ws[0].event;
      MeetOne(Paces(strict), db, PutEvent(e));
      if |ws| == 2 {
        var inputs := [e.id] + sources;
        OtherMetadata(original, actual, |inputs|, "");
        var c := Content(claim, inputs, CorrectedMetadata(original, actual, |inputs|), [id], []);
        EventThenPaced(db, e, Candidate, c, ws[1].change, strict);
      }
    }
  }

  lemma ContradictPaced(db: Db, id: Text, claim: string, sources: seq<Text>, reason: string, nonce: nat, strict: bool)
    ensures AllMeet(Paces(strict), db, ContradictPlan(db, id, claim, sources, reason, nonce).writes)
  {
    hide AllMeet, CreateRecord, ContradictedMetadata, OperationPayload, Proposed;
    MeetNone(Paces(strict), db);
    if id in db.records {
      var ws := ContradictPlan(db, id, claim, sources, reason, nonce).writes;
      var original := db.records[id].raw;
      var run := RunOf(original.metadata, "contradiction");
      RunNonEmpty(original.metadata, "contradiction");
      var e := ws[0].event;
      MeetOne(Paces(strict), db, PutEvent(e));
      if |ws| == 2 {
        OtherMetadata(original, run, 0, reason);
        var c := Content(claim, [e.id] + sources, ContradictedMetadata(original, run, reason), [], [id]);
        EventThenPaced(db, e, Contradiction, c, ws[1].change, strict);
      }
    }
  }

  lemma {:induction false} EventsOfNamed(events: seq<Event>, run: Text)
    requires EventsNamed(events) && EventsOf(events, run) != []
    ensures run != Plain("")
  {
    var front, last := events[..|events| - 1], events[|events| - 1];
    if last.run != run { EventsOfNamed(front, run); }
  }

  lemma ProposedMetadataFields(p: Proposal, events: seq<Event>)
    ensures Get(ProposedMetadata(p, events), "run_id") == Some(Str(p.run))
  {
  }

  lemma ProposePaced(db: Db, p: Proposal, strict: bool)
    requires PaceInv(db, strict)
    ensures AllMeet(Paces(strict), db, ProposePlan(db, p).writes)
  {
    hide AllMeet, CreateRecord, ProposedMetadata, ProposalClaim;
    MeetNone(Paces(strict), db);
    var events := EventsOf(db.events, p.run);
    var c := ProposedContent(p, events);
    if events != [] && CreateRecord(Candidate, c).Ok? {
      EventsOfNamed(db.events, p.run);
      CreatedMetadata(Candidate, c);
      ProposedMetadataFields(p, events);
      MeetOne(Paces(strict), db, ProposePlan(db, p).writes[0]);
    }
  }

  /** After an event of its run the record may leave the candidate lane. */
  lemma AheadAfterEvent(events: seq<Event>, e: Event, r: MemoryRecord, s: MemoryRecord, otherwise: string, strict: bool)
    requires Ahead(events, r, strict) && s.metadata == r.metadata && s.sources == r.sources
    requires e.run == RunOf(r.metadata, otherwise)
    ensures Ahead(events + [e], s, strict)
  {
    if Proposed(r.metadata) {
      EventsOfSnoc(events, e, Get(r.metadata, "run_id").value.value);
    }
  }

  lemma VerifyPaced(
      setting: Setting, db: Db, id: Text, intent: Option<ActionIntent>, nonce: nat, verification: nat, created: Json,
      strict: bool)
    requires PaceInv(db, strict)
    ensures AllMeet(Paces(strict), db, VerifyPlan(setting, db, id, intent, nonce, verification, created).writes)
  {
    hide AllMeet, Ahead, BuiltManifest, ReceiptFor, VerifyDetails, OperationPayload;
    MeetNone(Paces(strict), db);
    var ws := VerifyPlan(setting, db, id, intent, nonce, verification, created).writes;
    if ws != [] {
      var r := db.records[id].raw;
      RunNonEmpty(r.metadata, "verification");
      var db1 := Written(db, ws[0]);
      var db2 := Written(db1, ws[1]);
      AheadAfterEvent(db.events, ws[2].event, r, ws[3].change.record, "verification", strict);
      MeetTwo(Paces(strict), db2, ws[2], ws[3]);
      MeetCons(Paces(strict), db1, ws[1], [ws[2], ws[3]]);
      assert [ws[1]] + [ws[2], ws[3]] == [ws[1], ws[2], ws[3]];
      MeetCons(Paces(strict), db, ws[0], [ws[1], ws[2], ws[3]]);
      assert ws == [ws[0]] + [ws[1], ws[2], ws[3]];
    }
  }

  /** From a lane in which the run has grown already to another nothing has to be added. */
  lemma AheadMoved(events: seq<Event>, r: MemoryRecord, s: MemoryRecord, strict: bool)
    requires Ahead(events, r, strict) && s.metadata == r.metadata && s.sources == r.sources
    requires r.lane != Candidate && r.lane != Tombstone
    ensures Ahead(events, s, strict)
  {
  }

  lemma SupersedableLane(lane: Lane)
    ensures MayMove(lane, Superseded) ==> lane == Certified || lane == Superseded
    ensures MayMove(lane, Certified) ==> lane == Shadow || lane == Certified
  {
  }

  lemma {:induction false} SupersedePacedLoop(db: Db, ids: seq<Text>, q: Text, strict: bool)
    requires PaceInv(db, strict) && RowsTrue(db)
    ensures AllMeet(Paces(strict), db, SupersedeWrites(db, ids, q).writes)
    decreases |ids|
  {
    hide AllMeet, Ahead, MayMove;
    MeetNone(Paces(strict), db);
    if ids != [] && ids[0] in db.records && MayMove(db.records[ids[0]].lane, Superseded) {
      var r := db.records[ids[0]].raw;
      var w := PutRecord(SupersededBy(r, q));
      SupersedableLane(r.lane);
      AheadMoved(db.events, r, w.change.record, strict);
      WritePaced(db, w, strict);
      SupersedePacedLoop(Written(db, w), ids[1..], q, strict);
      MeetCons(Paces(strict), db, w, SupersedeWrites(Written(db, w), ids[1..], q).writes);
    }
  }

  /** The contract, the certified record, then the superseded records. */
  lemma CertifyingPaced(db: Db, v: Write, w: Write, ids: seq<Text>, q: Text, strict: bool)
    requires PaceInv(db, strict) && RowsTrue(db) && v.PutContract? && w.PutRecord? && Paced(db, w, strict)
    ensures AllMeet(Paces(strict), db, [v, w] + SupersedeWrites(Written(Written(db, v), w), ids, q).writes)
  {
    hide AllMeet, Ahead, SupersedeWrites;
    var g := Written(db, v);
    var h := Written(g, w);
    var rest := SupersedeWrites(h, ids, q).writes;
    WritePaced(g, w, strict);
    SupersedePacedLoop(h, ids, q, strict);
    MeetCons(Paces(strict), g, w, rest);
    MeetCons(Paces(strict), db, v, [w] + rest);
    assert [v] + ([w] + rest) == [v, w] + rest;
  }

  lemma PromotePaced(db: Db, id: Text, nonce: nat, clock: nat, strict: bool)
    requires PaceInv(db, strict) && RowsTrue(db)
    ensures AllMeet(Paces(strict), db, PromotePlan(db, id, nonce, clock).writes)
  {
    hide AllMeet, Ahead, SupersedeWrites, LastPassing, ReceiptsOf, MayMove, ContractOf, OperationPayload,
      PromoteDetails;
    MeetNone(Paces(strict), db);
    var ws := PromotePlan(db, id, nonce, clock).writes;
    if ws != [] {
      var r := db.records[id].raw;
      var q := LastPassing(ReceiptsOf(db.receipts, id), r.updateId).value;
      var h := Written(Written(db, ws[0]), ws[1]);
      var rest := SupersedeWrites(h, r.supersedes, q.id);
      SupersedableLane(r.lane);
      AheadMoved(db.events, r, ws[1].change.record, strict);
      CertifyingPaced(db, ws[0], ws[1], r.supersedes, q.id, strict);
      RunNonEmpty(r.metadata, "promotion");
      if rest.result.Ok? { MeetLast(Paces(strict), db, [ws[0], ws[1]] + rest.writes, PutEvent(ws[|ws| - 1].event)); }
    }
  }

  lemma SupersedePaced(db: Db, earlier: Text, newer: Text, receipt: Text, nonce: nat, strict: bool)
    requires PaceInv(db, strict) && RowsTrue(db)
    ensures AllMeet(Paces(strict), db, SupersedePlan(db, earlier, newer, receipt, nonce).writes)
  {
    hide AllMeet, Ahead, MayMove, OperationPayload;
    MeetNone(Paces(strict), db);
    var ws := SupersedePlan(db, earlier, newer, receipt, nonce).writes;
    if ws != [] {
      SupersedableLane(db.records[earlier].lane);
      AheadMoved(db.events, db.records[earlier].raw, ws[0].change.record, strict);
      RunNonEmpty(db.records[newer].raw.metadata, "supersede");
      MeetTwo(Paces(strict), db, ws[0], ws[1]);
    }
  }

  lemma TwoWritten(db: Db, v: Write, w: Write)
    requires AllSucceed(db, [v, w])
    ensures WrittenAll(db, [v, w]) == Written(Written(db, v), w)
  {
    hide Fails, Written;
    var ws := [v, w];
    assert ws[1..] == [w];
    assert !Fails(db, v) && AllSucceed(Written(db, v), [w]);
    assert WrittenAll(db, ws) == WrittenAll(Written(db, v), [w]);
    assert !Fails(Written(db, v), [w][0]);
    SingleWrite(Written(db, v), w);
  }

  /** Retirement moves first and adds its event afterwards, so it keeps pace only as a whole. */
  lemma RetireKeepsPace(db: Db, id: Text, reason: string, nonce: nat, strict: bool)
    requires PaceInv(db, strict) && AllSucceed(db, RetirePlan(db, id, reason, nonce).writes)
    ensures PaceInv(WrittenAll(db, RetirePlan(db, id, reason, nonce).writes), strict)
  {
    hide Ahead, MayMove, OperationPayload;
    var ws := RetirePlan(db, id, reason, nonce).writes;
    if ws != [] {
      var r := db.records[id].raw;
      var s, e := ws[0].change.record, ws[1].event;
      assert ws == [ws[0], ws[1]];
      TwoWritten(db, ws[0], ws[1]);
      var g := Written(Written(db, ws[0]), ws[1]);
      RunNonEmpty(r.metadata, "retire");
      forall k | k in g.records ensures Ahead(g.events, g.records[k].raw, strict) {
        if k == s.memoryId {
          AheadAfterEvent(db.events, e, r, s, "retire", strict);
        } else {
          AheadStays(db.events, e, db.records[k].raw, strict);
        }
      }
    }
  }

  // ---- Runs in which no retirement that matters is cut in the middle.

  /** A candidate whose proposal, made again now, would be the same memory. */
  predicate Repeatable(db: Db, id: Text) {
    id in db.records && db.records[id].raw.lane == Candidate && Unchanged(db.events, db.records[id].raw)
  }

  lemma AheadWhenGrown(db: Db, id: Text, s: MemoryRecord, strict: bool)
    requires id in db.records && Ahead(db.events, db.records[id].raw, strict)
    requires strict ==> !Repeatable(db, id)
    requires s.lane == Tombstone && s.metadata == db.records[id].raw.metadata && s.sources == db.records[id].raw.sources
    ensures Ahead(db.events, s, strict)
  {
  }

  /** Cut or not, a retirement keeps strict pace when the run has grown since the proposal. */
  lemma RetirePaced(db: Db, id: Text, reason: string, nonce: nat, strict: bool)
    requires PaceInv(db, strict) && (strict ==> !Repeatable(db, id))
    ensures AllMeet(Paces(strict), db, RetirePlan(db, id, reason, nonce).writes)
  {
    hide AllMeet, Ahead, MayMove, OperationPayload, Repeatable;
    MeetNone(Paces(strict), db);
    var ws := RetirePlan(db, id, reason, nonce).writes;
    if ws != [] {
      AheadWhenGrown(db, id, ws[0].change.record, strict);
      RunNonEmpty(db.records[id].raw.metadata, "retire");
      MeetTwo(Paces(strict), db, ws[0], ws[1]);
    }
  }

  /** The step, if it retires a repeatable candidate, wrote everything or nothing. */
  predicate WholeRetirement(setting: Setting, db: Db, m: Move) {
    m.step.Retiring? && Repeatable(db, m.step.id) ==>
      var ws := WritesOf(setting, db, m.step);
      m.cut == 0 || (|ws| <= m.cut && AllSucceed(db, ws))
  }

  ghost predicate CleanRun(setting: Setting, moves: seq<Move>) {
    && ValidRun(setting, moves)
    && forall k :: 0 <= k < |moves| ==> WholeRetirement(setting, RunDb(setting, moves[..k]), moves[k])
  }

  lemma InvRows(setting: Setting, db: Db)
    requires CertInv(setting, db)
    ensures RowsTrue(db)
  {
  }

  lemma MoveKeepsPace(setting: Setting, db: Db, m: Move, strict: bool)
    requires CertInv(setting, db) && PaceInv(db, strict) && ValidStep(setting, m.step)
    requires strict ==> WholeRetirement(setting, db, m)
    ensures PaceInv(After(setting, db, m), strict)
  {
    hide AllMeet, CertInv, PaceInv, RowsTrue, HasFloat, ObservePlan, ProposePlan, VerifyPlan, PromotePlan, CorrectPlan,
      RetirePlan, ContradictPlan, SupersedePlan;
    InvRows(setting, db);
    match m.step
    case Retiring(id, reason, nonce) =>
      if !strict || !Repeatable(db, id) {
        RetirePaced(db, id, reason, nonce, strict);
        WritesPaced(db, WritesOf(setting, db, m.step), m.cut, strict);
      } else if m.cut > 0 {
        RetireKeepsPace(db, id, reason, nonce, strict);
      }
    case Observing(kind, payload, run, parents, claim, indexed, nonce) =>
      ObservePaced(db, kind, payload, run, parents, claim, indexed, nonce, strict);
      WritesPaced(db, WritesOf(setting, db, m.step), m.cut, strict);
    case Proposing(p) =>
      ProposePaced(db, p, strict);
      WritesPaced(db, WritesOf(setting, db, m.step), m.cut, strict);
    case Verifying(id, intent, nonce, verification, created) =>
      VerifyPaced(setting, db, id, intent, nonce, verification, created, strict);
      WritesPaced(db, WritesOf(setting, db, m.step), m.cut, strict);
    case Promoting(id, nonce, clock) =>
      PromotePaced(db, id, nonce, clock, strict);
      WritesPaced(db, WritesOf(setting, db, m.step), m.cut, strict);
    case Correcting(id, claim, into, sources, nonce) =>
      CorrectPaced(db, id, claim, into, sources, nonce, strict);
      WritesPaced(db, WritesOf(setting, db, m.step), m.cut, strict);
    case Contradicting(id, claim, sources, reason, nonce) =>
      ContradictPaced(db, id, claim, sources, reason, nonce, strict);
      WritesPaced(db, WritesOf(setting, db, m.step), m.cut, strict);
    case Superseding(earlier, newer, receipt, nonce) =>
      SupersedePaced(db, earlier, newer, receipt, nonce, strict);
      WritesPaced(db, WritesOf(setting, db, m.step), m.cut, strict);
  }

  lemma CleanFront(setting: Setting, moves: seq<Move>, n: nat)
    requires CleanRun(setting, moves) && n <= |moves|
    ensures CleanRun(setting, moves[..n])
  {
    hide RunDb, WholeRetirement, ValidStep;
    forall k | 0 <= k < n ensures WholeRetirement(setting, RunDb(setting, moves[..n][..k]), moves[..n][k]) {
      assert moves[..n][..k] == moves[..k];
    }
  }

  lemma {:induction false} RunPaced(setting: Setting, moves: seq<Move>, strict: bool)
    requires ValidRun(setting, moves) && (strict ==> CleanRun(setting, moves))
    ensures PaceInv(RunDb(setting, moves), strict) && CertInv(setting, RunDb(setting, moves))
    decreases |moves|
  {
    hide PaceInv, CertInv, WholeRetirement, ValidStep, After, Synced;
    RunKeeps(setting, moves);
    if moves == [] {
      FreshPaced(strict);
    } else {
      var n := |moves| - 1;
      if strict {
        CleanFront(setting, moves, n);
        assert WholeRetirement(setting, RunDb(setting, moves[..n]), moves[n]);
      }
      RunPaced(setting, moves[..n], strict);
      MoveKeepsPace(setting, RunDb(setting, moves[..n]), moves[n], strict);
    }
  }

  lemma FreshPaced(strict: bool)
    ensures PaceInv(EMPTY_DB, strict)
  {
  }

  // ---- Re-proposing.

  /** A proposal from a run that has grown since is another memory. */
  lemma ReproposalSameIff(p: Proposal, events: seq<Event>, later: seq<Event>)
    requires events <= later
    ensures MemoryId(Candidate, ProposedContent(p, events)) == MemoryId(Candidate, ProposedContent(p, later)) <==>
      events == later
  {
    var a, b := ProposedContent(p, events), ProposedContent(p, later);
    assert |a.sources| == |events| && |b.sources| == |later|;
  }

  /** What a proposal writes. */
  lemma ProposalShape(db: Db, p: Proposal)
    requires ProposePlan(db, p).result.Ok?
    ensures var r := ProposePlan(db, p).result.value;
      && ProposePlan(db, p).writes == [PutRecord(Change(r, Wrote, "proposed from run", None, None))]
      && r.lane == Candidate && r.memoryId == MemoryId(Candidate, ProposedContent(p, EventsOf(db.events, p.run)))
  {
    hide ProposedContent;
  }

  lemma ProposedContentShape(p: Proposal, events: seq<Event>)
    ensures var c := ProposedContent(p, events);
      && Proposed(c.metadata) && Get(c.metadata, "run_id") == Some(Str(p.run)) && |c.sources| == |events|
  {
    hide ProposalClaim;
  }

  /** No proposal recreates a memory unless its run is as it was when it was proposed. */
  lemma NoReproposal(setting: Setting, db: Db, p: Proposal, id: Text)
    requires CertInv(setting, db) && id in db.records && !Unchanged(db.events, db.records[id].raw)
    requires ProposePlan(db, p).result.Ok?
    ensures ProposePlan(db, p).result.value.memoryId != id
  {
    hide CertInv, ProposePlan, ProposedContent, Rooted;
    InvRooted(setting, db, id);
    ProposalShape(db, p);
    ProposedContentShape(p, EventsOf(db.events, p.run));
    RootedContent(db.events, db.records[id].raw);
  }

  /** Outside the candidate lane a memory is overtaken by its run. */
  lemma PaceGrown(db: Db, id: Text, strict: bool)
    requires PaceInv(db, strict) && id in db.records && db.records[id].raw.lane != Candidate
    requires strict || db.records[id].raw.lane != Tombstone
    ensures Grown(db.events, db.records[id].raw)
  {
    assert Ahead(db.events, db.records[id].raw, strict);
  }

  lemma RootedContent(events: seq<Event>, r: MemoryRecord)
    requires Rooted(events, r)
    ensures r.memoryId.MemoryId? && r.metadata == r.memoryId.content.metadata && r.sources == r.memoryId.content.sources
    ensures r.sources != [] && HasEvent(events, r.sources[0])
  {
  }

  /** The tables after a clean run. */
  ghost predicate CleanlyReached(setting: Setting, moves: seq<Move>, db: Db) {
    forall d: Db :: IsRunDb(d, setting, moves) ==> d == db && CleanRun(setting, moves)
  }

  lemma CleanlyReachedMeans(setting: Setting, moves: seq<Move>, db: Db)
    requires CleanlyReached(setting, moves, db)
    ensures CleanRun(setting, moves) && db == RunDb(setting, moves)
  {
    hide RunDb, CleanRun;
    assert IsRunDb(RunDb(setting, moves), setting, moves);
  }

  lemma SingleWrite(db: Db, w: Write)
    requires !Fails(db, w)
    ensures WrittenAll(db, [w]) == Written(db, w)
  {
    assert [w][1..] == [];
  }
}
