/**
 The log of revisions with several kernels: each revision is lawful from the lane that its operation read,
 so an unlawful one tells that another kernel wrote in between, or that a memory was proposed again.
*/
module Histories {
  import opened Records
  import opened Tables
  import opened Plans
  import opened Growth
  import opened Pipeline
  import opened Certification
  import opened Lanes
  import opened Transitions
  import opened Races
  import opened Overtaking

  /** The operation proposes the memory again, from a run that had not changed when it read the tables. */
  predicate Reproposes(step: Step, read: Db, id: Text) {
    step.Proposing? && id in read.records && Unchanged(read.events, read.records[id].raw)
  }

  predicate LawfulAt(step: Step, read: Db, w: Write) {
    w.PutRecord? ==>
      var id := w.change.record.memoryId;
      LawfulChange(LaneNow(read, id), w.change.operation, w.change.record.lane, true) || Reproposes(step, read, id)
  }

  function LawsAt(step: Step, read: Db): Rule {
    (db, w) => LawfulAt(step, read, w)
  }

  predicate LawfulTask(db: Db, t: Task) {
    AllMeet(LawsAt(t.step, t.read), db, t.writes)
  }

  predicate OneRecord(ws: seq<Write>) {
    forall i, j :: 0 <= i < j < |ws| ==> !ws[i].PutRecord? || !ws[j].PutRecord?
  }

  /** Before its one record is written a plan finds the lanes that it has read. */
  lemma {:induction false} MeetAtRead(step: Step, read: Db, db: Db, ws: seq<Write>)
    requires AllMeet(Laws(true), db, ws) && OneRecord(ws) && db.records == read.records
    ensures AllMeet(LawsAt(step, read), db, ws)
    decreases |ws|
  {
    hide Fails, LawfulChange, Reproposes, Without, RevisionOf, IndexRowOf;
    if ws != [] && !Fails(db, ws[0]) {
      assert forall k :: 0 <= k < |ws| - 1 ==> ws[1..][k] == ws[k + 1];
      if ws[0].PutRecord? {
        MeetEach(LawsAt(step, read), Written(db, ws[0]), ws[1..]);
      } else {
        MeetAtRead(step, read, Written(db, ws[0]), ws[1..]);
      }
    }
  }

  lemma BegunOneRecord(setting: Setting, db: Db, step: Step)
    ensures OneRecord(Begin(setting, db, step).writes)
  {
    hide Promotes, BuiltManifest, ReceiptFor, VerifyDetails, OperationPayload, MayMove, CreateRecord, ProposedContent,
      CorrectedMetadata, ContradictedMetadata, Digestible, SupersedeRefusal;
  }

  lemma ProposalLawful(setting: Setting, db: Db, p: Proposal)
    requires CertInv(setting, db)
    ensures AllMeet(LawsAt(Proposing(p), db), db, ProposePlan(db, p).writes)
  {
    hide CertInv, AllMeet, Unchanged, CreateRecord, ProposedContent;
    MeetNone(LawsAt(Proposing(p), db), db);
    if ProposePlan(db, p).result.Ok? {
      var r := ProposePlan(db, p).result.value;
      ProposalShape(db, p);
      if r.memoryId in db.records && !Unchanged(db.events, db.records[r.memoryId].raw) {
        NoReproposal(setting, db, p, r.memoryId);
      }
      MeetOne(LawsAt(Proposing(p), db), db, ProposePlan(db, p).writes[0]);
    }
  }

  lemma BeginLawful(setting: Setting, db: Db, step: Step)
    requires CertInv(setting, db)
    ensures LawfulTask(db, Begin(setting, db, step))
  {
    hide CertInv, AllMeet, WritesOf, ProposePlan, PromotePlan, Promotes, FirstWrites, OneRecord;
    BeginRead(setting, db, step);
    BegunOneRecord(setting, db, step);
    match step
    case Proposing(p) =>
      ProposalLawful(setting, db, p);
      assert WritesOf(setting, db, step) == ProposePlan(db, p).writes by { ProposingWrites(setting, db, p); }
    case Promoting(id, nonce, clock) =>
      StepLawful(setting, db, step, true);
      MeetNone(Laws(true), db);
      if Promotes(db, id, nonce, clock).Ok? {
        PromotionFirst(db, id, nonce, clock);
        PromotingWrites(setting, db, id, nonce, clock);
        var m := Promotes(db, id, nonce, clock).value;
        var b: seq<Write> :| PromotePlan(db, id, nonce, clock).writes == FirstWrites(m) + b;
        MeetPrefix(Laws(true), db, FirstWrites(m), b);
      }
      MeetAtRead(step, db, db, Begin(setting, db, step).writes);
    case _ =>
      StepLawful(setting, db, step, true);
      MeetAtRead(step, db, db, WritesOf(setting, db, step));
  }

  lemma ProposingWrites(setting: Setting, db: Db, p: Proposal)
    ensures WritesOf(setting, db, Proposing(p)) == ProposePlan(db, p).writes
  {
  }

  ghost predicate AllLawful(db: Db, tasks: seq<Task>) {
    forall k :: 0 <= k < |tasks| ==> LawfulTask(db, tasks[k])
  }

  lemma OthersLawful(db: Db, g: Db, tasks: seq<Task>)
    requires AllLawful(db, tasks) && Grows(db, g)
    ensures AllLawful(g, tasks)
  {
    hide AllMeet, Grows, LawfulAt;
    forall k | 0 <= k < |tasks| ensures LawfulTask(g, tasks[k]) {
      MeetGrows(LawsAt(tasks[k].step, tasks[k].read), db, g, tasks[k].writes);
    }
  }

  lemma RestLawful(db: Db, t: Task)
    requires LawfulTask(db, t) && NextWrite(db, t).Some? && !Fails(db, NextWrite(db, t).value)
    ensures LawfulTask(Written(db, NextWrite(db, t).value), Rest(t))
  {
    hide Fails, Written, MayMove, LawfulAt;
    if t.writes == [] { MeetNone(LawsAt(t.step, t.read), Written(db, NextWrite(db, t).value)); }
  }

  lemma EndedLawful(db: Db, t: Task)
    ensures LawfulTask(db, Ended(t))
  {
    MeetNone(LawsAt(t.step, t.read), db);
  }

  lemma GoLawful(setting: Setting, world: World, turn: Turn)
    requires WorldInv(setting, world) && (turn.Begins? ==> ValidStep(setting, turn.step))
    requires AllLawful(world.db, world.tasks)
    ensures AllLawful(Go(setting, world, turn).db, Go(setting, world, turn).tasks)
  {
    hide CertInv, Synced, AllAdmitted, LawfulTask, Fails, Written, Grows, NextWrite, Rest, ValidStep, Begin, Ended;
    GoKeeps(setting, world, turn);
    OthersLawful(world.db, Go(setting, world, turn).db, world.tasks);
    match turn
    case Begins(step) => BeginLawful(setting, world.db, step);
    case Advances(k) =>
      if k < |world.tasks| {
        var t := world.tasks[k];
        EndedLawful(world.db, t);
        if NextWrite(world.db, t).Some? && !Fails(world.db, NextWrite(world.db, t).value) { RestLawful(world.db, t); }
      }
  }

  lemma {:induction false} PlayLawful(setting: Setting, turns: seq<Turn>)
    requires ValidTurns(setting, turns)
    ensures AllLawful(Play(setting, turns).db, Play(setting, turns).tasks)
    decreases |turns|
  {
    hide WorldInv, Go, ValidStep, LawfulTask;
    if turns != [] {
      var n := |turns| - 1;
      PlayKeeps(setting, turns[..n]);
      PlayLawful(setting, turns[..n]);
      GoLawful(setting, Play(setting, turns[..n]), turns[n]);
    }
  }

  /** What the next write of a task would log. */
  lemma NextLawful(setting: Setting, db: Db, t: Task)
    requires RowsTrue(db) && Admitted(setting, db, t) && LawfulTask(db, t)
    requires NextWrite(db, t).Some? && NextWrite(db, t).value.PutRecord?
    ensures var c := NextWrite(db, t).value.change;
      var now := LaneNow(db, c.record.memoryId);
      || LawfulChange(now, c.operation, c.record.lane, true)
      || LaneNow(t.read, c.record.memoryId) != now
      || Reproposes(t.step, t.read, c.record.memoryId)
  {
    hide MayMove, Unchanged, Admissible;
    assert t.last != [] ==> t.last[0] in t.last;
  }

  /**
   In every interleaving a turn logs nothing or one revision, which moves its memory as the table allows, or
   quarantines it after a failed verification, or is of an operation that read the memory in another lane, or
   proposes it again from a run that had not changed when it was read.
  */
  lemma LoggedRevisions(setting: Setting, turns: seq<Turn>, world: World, k: nat)
    requires Played(setting, turns, world) && k < |world.tasks|
    ensures var t, log, next := world.tasks[k], world.db.revisions, Go(setting, world, Advances(k)).db.revisions;
      next == log
      || (next[..|next| - 1] == log
          && var v := next[|next| - 1];
             || LawfulChange(v.before, v.operation, v.after, true)
             || LaneNow(t.read, v.memoryId) != v.before
             || Reproposes(t.step, t.read, v.memoryId))
  {
    hide Play, Played, ValidTurns, CertInv, Synced, RowsTrue, Admitted, LawfulTask, NextWrite, Rest, Ended, Fails,
      LawfulChange, Reproposes, Without, IndexRowOf;
    PlayedInv(setting, turns, world);
    PlayLawful(setting, turns);
    var t := world.tasks[k];
    if NextWrite(world.db, t).Some? && NextWrite(world.db, t).value.PutRecord? {
      NextLawful(setting, world.db, t);
    }
  }
}
