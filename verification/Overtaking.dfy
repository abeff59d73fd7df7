/**
 Where several kernels differ from one: an operation that read the tables before a memory was revoked may
 write after it. When a revoked memory can leave the revoked lanes again, exactly.
*/
module Overtaking {
  import opened Basics
  import opened Records
  import opened Tables
  import opened Plans
  import opened Growth
  import opened Pipeline
  import opened Certification
  import opened Lanes
  import opened Revival
  import opened Races

  /** When it read the tables the memory was revoked, and it is not the proposal of that memory again. */
  ghost predicate SawRevoked(t: Task, id: Text) {
    RevokedIn(t.read, id) && (t.step.Proposing? ==> !Unchanged(t.read.events, t.read.records[id].raw))
  }

  /** No write that it decided on, and that goes through, takes the memory out of the revoked lanes. */
  ghost predicate Harmless(db: Db, t: Task, id: Text) {
    AllMeet(Gentles(id), db, t.writes)
  }

  ghost predicate GentleTask(db: Db, t: Task, id: Text) {
    SawRevoked(t, id) ==> Harmless(db, t, id)
  }

  ghost predicate AllGentle(db: Db, tasks: seq<Task>, id: Text) {
    forall k :: 0 <= k < |tasks| ==> GentleTask(db, tasks[k], id)
  }

  lemma BeginRead(setting: Setting, db: Db, step: Step)
    ensures Begin(setting, db, step).read == db && Begin(setting, db, step).step == step
  {
    hide WritesOf, Promotes;
  }

  lemma BeginGentle(setting: Setting, db: Db, step: Step, id: Text)
    requires CertInv(setting, db)
    ensures GentleTask(db, Begin(setting, db, step), id)
  {
    hide CertInv, AllMeet, WritesOf, Promotes, PromotePlan, RevokedIn, Unchanged, FirstWrites;
    BeginRead(setting, db, step);
    if SawRevoked(Begin(setting, db, step), id) {
      StepGentle(setting, db, step, id);
      match step
      case Promoting(at, nonce, clock) =>
        MeetNone(Gentles(id), db);
        if Promotes(db, at, nonce, clock).Ok? {
          PromotionFirst(db, at, nonce, clock);
          PromotingWrites(setting, db, at, nonce, clock);
          var m := Promotes(db, at, nonce, clock).value;
          var b: seq<Write> :| PromotePlan(db, at, nonce, clock).writes == FirstWrites(m) + b;
          MeetPrefix(Gentles(id), db, FirstWrites(m), b);
        }
      case _ =>
    }
  }

  lemma NextGentle(setting: Setting, db: Db, t: Task, id: Text)
    requires Admitted(setting, db, t) && Harmless(db, t, id) && NextWrite(db, t).Some?
    ensures Gentle(NextWrite(db, t).value, id)
  {
    hide MayMove, Admissible;
    if t.writes == [] && t.supersedes == [] {
      assert t.last[0] in t.last;
    }
  }

  lemma RestGentle(db: Db, t: Task, id: Text)
    requires Harmless(db, t, id) && NextWrite(db, t).Some? && !Fails(db, NextWrite(db, t).value)
    ensures Harmless(Written(db, NextWrite(db, t).value), Rest(t), id)
  {
    hide Fails, Written, MayMove;
    if t.writes == [] { MeetNone(Gentles(id), Written(db, NextWrite(db, t).value)); }
  }

  lemma EndedGentle(db: Db, t: Task, id: Text)
    ensures Harmless(db, Ended(t), id)
  {
    MeetNone(Gentles(id), db);
  }

  lemma OtherGentle(db: Db, g: Db, t: Task, id: Text)
    requires Harmless(db, t, id) && Grows(db, g)
    ensures Harmless(g, t, id)
  {
    hide AllMeet, Grows;
    MeetGrows(Gentles(id), db, g, t.writes);
  }

  lemma OthersGentle(db: Db, g: Db, tasks: seq<Task>, id: Text)
    requires AllGentle(db, tasks, id) && Grows(db, g)
    ensures AllGentle(g, tasks, id)
  {
    hide Harmless, Grows, SawRevoked;
    forall k | 0 <= k < |tasks| ensures GentleTask(g, tasks[k], id) {
      if SawRevoked(tasks[k], id) { OtherGentle(db, g, tasks[k], id); }
    }
  }

  lemma RestSaw(t: Task, id: Text)
    ensures SawRevoked(Rest(t), id) <==> SawRevoked(t, id)
  {
    hide RevokedIn, Unchanged;
  }

  lemma GoGentle(setting: Setting, world: World, turn: Turn, id: Text)
    requires WorldInv(setting, world) && (turn.Begins? ==> ValidStep(setting, turn.step))
    requires AllGentle(world.db, world.tasks, id)
    ensures AllGentle(Go(setting, world, turn).db, Go(setting, world, turn).tasks, id)
  {
    hide CertInv, Synced, AllAdmitted, Harmless, SawRevoked, Fails, Written, Grows, NextWrite, Rest, ValidStep, Begin,
      Ended;
    GoKeeps(setting, world, turn);
    var next := Go(setting, world, turn);
    OthersGentle(world.db, next.db, world.tasks, id);
    match turn
    case Begins(step) => BeginGentle(setting, world.db, step, id);
    case Advances(k) =>
      if k < |world.tasks| {
        var t := world.tasks[k];
        if NextWrite(world.db, t).Some? && !Fails(world.db, NextWrite(world.db, t).value) {
          RestSaw(t, id);
          if SawRevoked(t, id) { RestGentle(world.db, t, id); }
        } else {
          EndedGentle(world.db, t, id);
        }
      }
  }

  lemma {:induction false} PlayGentle(setting: Setting, turns: seq<Turn>, id: Text)
    requires ValidTurns(setting, turns)
    ensures AllGentle(Play(setting, turns).db, Play(setting, turns).tasks, id)
    decreases |turns|
  {
    hide WorldInv, Go, ValidStep, GentleTask;
    if turns != [] {
      var n := |turns| - 1;
      PlayKeeps(setting, turns[..n]);
      PlayGentle(setting, turns[..n], id);
      GoGentle(setting, Play(setting, turns[..n]), turns[n], id);
    }
  }

  lemma GentleKeeps(db: Db, w: Write, id: Text)
    requires RevokedIn(db, id) && Gentle(w, id)
    ensures RevokedIn(Written(db, w), id)
  {
    hide Without, RevisionOf, IndexRowOf;
  }

  /**
   In every interleaving an operation whose writes can take a memory out of the revoked lanes read the tables
   when the memory was not revoked, or is a proposal of the memory from a run that had not changed.
  */
  lemma ThreatsReadEarlier(setting: Setting, turns: seq<Turn>, world: World, k: nat, id: Text)
    requires Played(setting, turns, world) && k < |world.tasks| && !Harmless(world.db, world.tasks[k], id)
    ensures var t := world.tasks[k];
      !RevokedIn(t.read, id) || (t.step.Proposing? && Unchanged(t.read.events, t.read.records[id].raw))
  {
    hide Play, Played, ValidTurns, CertInv, Synced, RowsTrue, AllAdmitted, RevokedIn, Unchanged, Harmless;
    PlayedInv(setting, turns, world);
    PlayGentle(setting, turns, id);
  }

  /** So when a write does, its operation is such a one. */
  lemma OnlyOvertakenWritesRevive(setting: Setting, turns: seq<Turn>, world: World, k: nat, id: Text)
    requires Played(setting, turns, world) && k < |world.tasks|
    requires RevokedIn(world.db, id) && !RevokedIn(Go(setting, world, Advances(k)).db, id)
    ensures var t := world.tasks[k];
      !RevokedIn(t.read, id) || (t.step.Proposing? && Unchanged(t.read.events, t.read.records[id].raw))
  {
    hide Play, Played, ValidTurns, CertInv, Synced, RowsTrue, RevokedIn, Unchanged, NextWrite, Rest, Ended, Fails,
      Written, Admitted, Harmless, Gentle;
    PlayedInv(setting, turns, world);
    var t := world.tasks[k];
    if Harmless(world.db, t, id) {
      NextGentle(setting, world.db, t, id);
      GentleKeeps(world.db, NextWrite(world.db, t).value, id);
    } else {
      ThreatsReadEarlier(setting, turns, world, k, id);
    }
  }

  // ---- It happens.

  lemma PlaySnoc(setting: Setting, turns: seq<Turn>, turn: Turn)
    ensures Play(setting, turns + [turn]) == Go(setting, Play(setting, turns), turn)
  {
    hide Go;
    var all := turns + [turn];
    assert all[..|all| - 1] == turns && all[|all| - 1] == turn;
  }

  /** Promotion and retirement of one memory have read the same tables, and the retirement has finished. */
  function RetiredMeanwhile(turns: seq<Turn>, k: nat, promote: Step, retire: Step): seq<Turn> {
    turns + [Begins(promote)] + [Begins(retire)] + [Advances(k + 1)] + [Advances(k + 1)]
  }

  lemma FirstWritesShape(db: Db, id: Text, nonce: nat, clock: nat)
    requires Promotes(db, id, nonce, clock).Ok?
    ensures var m := Promotes(db, id, nonce, clock).value;
      && id in db.records && m.certified == db.records[id].raw.(
           lane := Certified, contractId := m.certified.contractId, receiptId := m.certified.receiptId,
           reason := m.certified.reason)
      && FirstWrites(m)[0] == PutContract(m.contract) && FirstWrites(m)[1].PutRecord?
      && FirstWrites(m)[1].change.record == m.certified && FirstWrites(m)[1].change.operation == Promoted
      && MayMove(db.records[id].raw.lane, Certified)
  {
    hide LastPassing, ReceiptsOf, ContractOf, MakeEvent, OperationPayload, PromoteDetails, MayMove;
  }

  lemma RetireShape(db: Db, id: Text, reason: string, nonce: nat)
    requires id in db.records && MayMove(db.records[id].raw.lane, Certified)
    ensures var ws := RetirePlan(db, id, reason, nonce).writes;
      && |ws| == 2 && ws[0].PutRecord? && ws[1].PutEvent?
      && ws[0].change.record.memoryId == db.records[id].raw.memoryId && ws[0].change.record.lane == Tombstone
  {
    hide OperationPayload;
  }

  lemma LaneWritten(db: Db, c: Change)
    ensures LaneNow(Upserted(db, c), c.record.memoryId) == Some(c.record.lane)
    ensures Upserted(db, c).contracts == db.contracts && Upserted(db, c).events == db.events
    ensures Upserted(db, c).revisions == db.revisions + [RevisionOf(c, LaneNow(db, c.record.memoryId))]
  {
    hide Without, RevisionOf, IndexRowOf;
  }

  /** Two turns of a task with two writes that go through. */
  lemma TwoTurns(setting: Setting, turns: seq<Turn>, k: nat, a: Write, b: Write)
    requires var world := Play(setting, turns);
      && k < |world.tasks| && world.tasks[k].writes == [a, b]
      && !Fails(world.db, a) && !Fails(Written(world.db, a), b)
    ensures var world := Play(setting, turns);
      Play(setting, turns + [Advances(k)] + [Advances(k)]) ==
      World(Written(Written(world.db, a), b), world.tasks[k := world.tasks[k].(writes := [])])
  {
    hide Play, Fails, Written;
    var world := Play(setting, turns);
    var t := world.tasks[k];
    PlaySnoc(setting, turns, Advances(k));
    PlaySnoc(setting, turns + [Advances(k)], Advances(k));
    assert [a, b][1..] == [b] && [b][1..] == [];
    assert Rest(t) == t.(writes := [b]);
    var next := world.tasks[k := Rest(t)];
    assert next[k := Rest(Rest(t))] == world.tasks[k := Rest(Rest(t))];
  }

  /** Both have read the tables and written nothing. */
  lemma BothBegun(setting: Setting, turns: seq<Turn>, promote: Step, retire: Step)
    ensures var world := Play(setting, turns);
      Play(setting, turns + [Begins(promote)] + [Begins(retire)]) ==
      World(world.db, world.tasks + [Begin(setting, world.db, promote), Begin(setting, world.db, retire)])
  {
    hide Play, Begin;
    PlaySnoc(setting, turns, Begins(promote));
    PlaySnoc(setting, turns + [Begins(promote)], Begins(retire));
  }

  lemma BegunWrites(setting: Setting, db: Db, id: Text, nonce: nat, clock: nat, reason: string, late: nat)
    requires Promotes(db, id, nonce, clock).Ok?
    ensures Begin(setting, db, Promoting(id, nonce, clock)).writes == FirstWrites(Promotes(db, id, nonce, clock).value)
    ensures Begin(setting, db, Retiring(id, reason, late)).writes == RetirePlan(db, id, reason, late).writes
  {
    hide Promotes, RetirePlan, FirstWrites;
  }

  /**
   Whenever a memory can be promoted: two kernels read the tables, one retires it, event and all, and the
   other then writes its certified record over the tombstone.
  */
  lemma RetirementOvertaken(
      setting: Setting, turns: seq<Turn>, world: World, id: Text, nonce: nat, clock: nat, reason: string, late: nat)
    requires Played(setting, turns, world) && Promotes(world.db, id, nonce, clock).Ok?
    requires !Fails(world.db, PutContract(Promotes(world.db, id, nonce, clock).value.contract))
    requires forall e: Event :: PutEvent(e) in RetirePlan(world.db, id, reason, late).writes ==>
      !Fails(world.db, PutEvent(e))
    ensures var k := |world.tasks|;
      var middle := RetiredMeanwhile(turns, k, Promoting(id, nonce, clock), Retiring(id, reason, late));
      var end := middle + [Advances(k)] + [Advances(k)];
      && LaneNow(Play(setting, middle).db, id) == Some(Tombstone)
      && |Play(setting, middle).db.events| == |world.db.events| + 1
      && LaneNow(Play(setting, end).db, id) == Some(Certified)
      && Play(setting, end).db.revisions != []
      && var last := Play(setting, end).db.revisions[|Play(setting, end).db.revisions| - 1];
         last.before == Some(Tombstone) && last.operation == Promoted && last.after == Certified
  {
    hide Play, Played, ValidTurns, CertInv, Synced, RowsTrue, AllAdmitted, Promotes, RetirePlan, FirstWrites, MayMove,
      Begin, WrittenAll, Rooted;
    PlayedInv(setting, turns, world);
    var db, k := world.db, |world.tasks|;
    InvRooted(setting, db, id) by { FirstWritesShape(db, id, nonce, clock); }
    FirstWritesShape(db, id, nonce, clock);
    RetireShape(db, id, reason, late);
    var promote, retire := Promoting(id, nonce, clock), Retiring(id, reason, late);
    var ws, first := RetirePlan(db, id, reason, late).writes, FirstWrites(Promotes(db, id, nonce, clock).value);
    BothBegun(setting, turns, promote, retire);
    BegunWrites(setting, db, id, nonce, clock, reason, late);
    assert ws == [ws[0], ws[1]] && first == [first[0], first[1]];
    assert PutEvent(ws[1].event) in ws;
    LaneWritten(db, ws[0].change);
    TwoTurns(setting, turns + [Begins(promote)] + [Begins(retire)], k + 1, ws[0], ws[1]);
    var middle := RetiredMeanwhile(turns, k, promote, retire);
    var g := Play(setting, middle).db;
    TwoTurns(setting, middle, k, first[0], first[1]);
    LaneWritten(Written(g, first[0]), first[1].change);
  }
}
