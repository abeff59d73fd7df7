/**
 With several kernels: when a revoked memory can leave the revoked lanes again, exactly. It depends on the
 run that the memory was proposed from and on what running operations still have to write.
*/
module Permanence {
  import opened Records
  import opened Tables
  import opened Plans
  import opened Growth
  import opened Pipeline
  import opened Certification
  import opened Origins
  import opened Lanes
  import opened Revival
  import opened Races
  import opened Overtaking

  // ---- Memories are made by their proposals in every interleaving.

  /** What an operation decided on when it read the tables was made by then. */
  ghost predicate MadeTask(db: Db, t: Task) {
    t.read.events <= db.events && RecordsAreMade(t.read.events, t.writes)
  }

  ghost predicate WorldMade(world: World) {
    AllMade(world.db) && forall k :: 0 <= k < |world.tasks| ==> MadeTask(world.db, world.tasks[k])
  }

  lemma BeginMade(setting: Setting, db: Db, step: Step)
    requires RowsTrue(db) && AllMade(db)
    ensures MadeTask(db, Begin(setting, db, step))
  {
    hide Made, RowsTrue, WritesOf, PromotePlan, Promotes, FirstWrites;
    BeginRead(setting, db, step);
    StepMade(setting, db, step);
    match step
    case Promoting(id, nonce, clock) =>
      if Promotes(db, id, nonce, clock).Ok? {
        PromotionFirst(db, id, nonce, clock);
        PromotingWrites(setting, db, id, nonce, clock);
      }
    case _ =>
  }

  lemma NextMade(setting: Setting, db: Db, t: Task)
    requires RowsTrue(db) && AllMade(db) && MadeTask(db, t) && Admitted(setting, db, t) && NextWrite(db, t).Some?
    ensures var w := NextWrite(db, t).value; w.PutRecord? ==> Made(db.events, w.change.record.memoryId)
  {
    hide Made, MayMove, AllMeet;
    var w := NextWrite(db, t).value;
    if t.writes != [] {
      assert w in t.writes;
      if w.PutRecord? { MadeLater(t.read.events, db.events, w.change.record.memoryId); }
    } else if t.supersedes == [] {
      assert t.last[0] in t.last;
    }
  }

  lemma GoMade(setting: Setting, world: World, turn: Turn)
    requires WorldInv(setting, world) && WorldMade(world)
    ensures WorldMade(Go(setting, world, turn)) && world.db.events <= Go(setting, world, turn).db.events
  {
    hide Made, AllMade, CertInv, Synced, RowsTrue, Admitted, Fails, Written, NextWrite, Begin;
    SyncedRows(world.db);
    match turn
    case Begins(step) => BeginMade(setting, world.db, step);
    case Advances(k) =>
      if k < |world.tasks| && NextWrite(world.db, world.tasks[k]).Some? {
        NextMade(setting, world.db, world.tasks[k]);
        WriteMade(world.db, NextWrite(world.db, world.tasks[k]).value);
      }
  }

  /** In every interleaving a memory with the content of a proposal was made by a proposal. */
  lemma {:induction false} PlayMade(setting: Setting, turns: seq<Turn>)
    requires ValidTurns(setting, turns)
    ensures WorldMade(Play(setting, turns))
    decreases |turns|
  {
    hide WorldInv, Go, ValidStep, Made, MadeTask;
    if turns != [] {
      var n := |turns| - 1;
      PlayKeeps(setting, turns[..n]);
      PlayMade(setting, turns[..n]);
      GoMade(setting, Play(setting, turns[..n]), turns[n]);
    }
  }

  /** A proposal never covers more events than its run has. */
  lemma MadeGrown(setting: Setting, db: Db, id: Text)
    requires CertInv(setting, db) && AllMade(db) && id in db.records && !Unchanged(db.events, db.records[id].raw)
    ensures Grown(db.events, db.records[id].raw)
  {
    hide CertInv, CreateRecord, ProposedContent, HasEvent;
    InvRooted(setting, db, id);
    RootedContent(db.events, db.records[id].raw);
    assert Made(db.events, id);
    if Proposed(db.records[id].raw.metadata) {
      var p: Proposal, n: nat :| MadeBy(db.events, id, p, n);
      ProposedContentShape(p, EventsOf(db.events[..n], p.run));
      EventsOfPrefix(db.events[..n], db.events, p.run);
    }
  }

  // ---- For good.

  /** Revoked, its run changed, and no running operation can undo it. */
  ghost predicate Settled(world: World, id: Text) {
    && RevokedForGood(world.db, id)
    && forall k :: 0 <= k < |world.tasks| ==> Harmless(world.db, world.tasks[k], id)
  }

  lemma BeginHarmless(setting: Setting, db: Db, step: Step, id: Text)
    requires CertInv(setting, db) && RevokedForGood(db, id)
    ensures Harmless(db, Begin(setting, db, step), id)
  {
    hide CertInv, Harmless, RevokedIn, Grown, Unchanged, Begin;
    RevokedPresent(db, id);
    BeginRead(setting, db, step);
    BeginGentle(setting, db, step, id);
    GrownChanged(db.events, db.records[id].raw);
  }

  lemma GoSettled(setting: Setting, world: World, turn: Turn, id: Text)
    requires WorldInv(setting, world) && WorldMade(world) && Settled(world, id)
    requires turn.Begins? ==> ValidStep(setting, turn.step)
    ensures Settled(Go(setting, world, turn), id)
  {
    hide CertInv, Synced, AllAdmitted, WorldMade, Harmless, RevokedIn, Grown, Fails, Written, Grows, NextWrite, Rest,
      ValidStep, Begin, Ended;
    var next := Go(setting, world, turn);
    GoKeeps(setting, world, turn);
    GoMade(setting, world, turn);
    RevokedPresent(world.db, id);
    match turn
    case Begins(step) => BeginHarmless(setting, world.db, step, id);
    case Advances(k) =>
      if k < |world.tasks| {
        var t := world.tasks[k];
        if NextWrite(world.db, t).Some? && !Fails(world.db, NextWrite(world.db, t).value) {
          WriteSettled(setting, world, k, id);
        } else {
          EndedGentle(world.db, t, id);
        }
      }
  }

  lemma WriteSettled(setting: Setting, world: World, k: nat, id: Text)
    requires WorldInv(setting, world) && WorldMade(world) && Settled(world, id) && k < |world.tasks|
    requires NextWrite(world.db, world.tasks[k]).Some? && !Fails(world.db, NextWrite(world.db, world.tasks[k]).value)
    ensures Settled(Go(setting, world, Advances(k)), id)
  {
    hide CertInv, Synced, Admitted, WorldMade, Harmless, RevokedIn, Grown, Fails, Written, Grows, NextWrite, Rest,
      Gentle;
    var db, t := world.db, world.tasks[k];
    var w := NextWrite(db, t).value;
    var g := Written(db, w);
    GoKeeps(setting, world, Advances(k));
    GoMade(setting, world, Advances(k));
    NextGentle(setting, db, t, id);
    GentleKeeps(db, w, id);
    RevokedPresent(db, id);
    RevokedPresent(g, id);
    GrownStays(setting, db, g, id);
    RestGentle(db, t, id);
    forall j | 0 <= j < |world.tasks| ensures Harmless(g, world.tasks[j], id) {
      OtherGentle(db, g, world.tasks[j], id);
    }
  }

  lemma {:induction false} StaysSettled(setting: Setting, turns: seq<Turn>, more: seq<Turn>, id: Text)
    requires ValidTurns(setting, turns + more) && Settled(Play(setting, turns), id)
    ensures Settled(Play(setting, turns + more), id)
    decreases |more|
  {
    hide Settled, WorldInv, WorldMade, Go, ValidStep;
    if more == [] {
      assert turns + more == turns;
    } else {
      var n := |more| - 1;
      var all := turns + more;
      assert all[..|all| - 1] == turns + more[..n] && all[|all| - 1] == more[n];
      PlayKeeps(setting, turns + more[..n]);
      PlayMade(setting, turns + more[..n]);
      StaysSettled(setting, turns, more[..n], id);
      GoSettled(setting, Play(setting, turns + more[..n]), more[n], id);
    }
  }

  // ---- And otherwise not.

  /** Some continuation takes the memory out of the revoked lanes. */
  ghost predicate CanReturn(setting: Setting, turns: seq<Turn>, id: Text) {
    exists more: seq<Turn> :: ReturnsAfter(setting, turns, more, id)
  }

  ghost predicate ReturnsAfter(setting: Setting, turns: seq<Turn>, more: seq<Turn>, id: Text) {
    ValidTurns(setting, turns + more) && !RevokedIn(Play(setting, turns + more).db, id)
  }

  lemma ReturnsLater(setting: Setting, turns: seq<Turn>, turn: Turn, id: Text)
    requires CanReturn(setting, turns + [turn], id)
    ensures CanReturn(setting, turns, id)
  {
    hide ValidTurns, Play, RevokedIn;
    var more: seq<Turn> :| ReturnsAfter(setting, turns + [turn], more, id);
    assert turns + [turn] + more == turns + ([turn] + more);
    assert ReturnsAfter(setting, turns, [turn] + more, id);
  }

  lemma ValidSnoc(setting: Setting, turns: seq<Turn>, turn: Turn)
    requires ValidTurns(setting, turns) && (turn.Begins? ==> ValidStep(setting, turn.step))
    ensures ValidTurns(setting, turns + [turn])
  {
    hide ValidStep;
  }

  lemma HarmfulWritten(db: Db, w: Write, id: Text)
    requires !Gentle(w, id)
    ensures !Fails(db, w) && !RevokedIn(Written(db, w), id)
  {
    hide Without, RevisionOf, IndexRowOf;
  }

  /** A harmful task, given its turns, does the harm. */
  lemma {:induction false} HarmfulReturns(setting: Setting, turns: seq<Turn>, k: nat, id: Text)
    requires ValidTurns(setting, turns) && RevokedIn(Play(setting, turns).db, id) && k < |Play(setting, turns).tasks|
    requires !Harmless(Play(setting, turns).db, Play(setting, turns).tasks[k], id)
    ensures CanReturn(setting, turns, id)
    decreases |Play(setting, turns).tasks[k].writes|
  {
    hide Play, ValidTurns, RevokedIn, Fails, Written, Gentle;
    var world := Play(setting, turns);
    var t := world.tasks[k];
    var w := t.writes[0];
    PlaySnoc(setting, turns, Advances(k));
    ValidSnoc(setting, turns, Advances(k));
    if Gentle(w, id) {
      GentleKeeps(world.db, w, id);
      HarmfulReturns(setting, turns + [Advances(k)], k, id);
      ReturnsLater(setting, turns, Advances(k), id);
    } else {
      HarmfulWritten(world.db, w, id);
      assert ReturnsAfter(setting, turns, [Advances(k)], id);
    }
  }

  /** The proposal of the memory again is a harmful operation. */
  lemma ProposalHarms(setting: Setting, db: Db, p: Proposal, id: Text)
    requires Proposes(db, p, id)
    ensures !Harmless(db, Begin(setting, db, Proposing(p)), id)
  {
    hide CreateRecord, ProposedContent;
    ProposalShape(db, p);
  }

  lemma UnchangedReturns(setting: Setting, turns: seq<Turn>, world: World, id: Text)
    requires Played(setting, turns, world) && RevokedIn(world.db, id)
      && Unchanged(world.db.events, world.db.records[id].raw)
    ensures CanReturn(setting, turns, id)
  {
    hide Play, Played, ValidTurns, CertInv, Synced, RowsTrue, AllAdmitted, AllMade, Unchanged, Begin, Harmless,
      Proposes;
    PlayedInv(setting, turns, world);
    PlayMade(setting, turns);
    UnchangedProposable(setting, world.db, id);
    var p: Proposal :| Proposes(world.db, p, id);
    PlaySnoc(setting, turns, Begins(Proposing(p)));
    ValidSnoc(setting, turns, Begins(Proposing(p)));
    ProposalHarms(setting, world.db, p, id);
    HarmfulReturns(setting, turns + [Begins(Proposing(p))], |world.tasks|, id);
    ReturnsLater(setting, turns, Begins(Proposing(p)), id);
  }

  // ---- Exactly when.

  /** A running operation has a write left, one that goes through, that takes the memory out of these lanes. */
  ghost predicate Threatened(world: World, id: Text) {
    exists k :: 0 <= k < |world.tasks| && !Harmless(world.db, world.tasks[k], id)
  }

  /**
   In every interleaving: a revoked memory can leave the revoked lanes again exactly when its run has had no
   event since it was proposed, or some running operation still has such a write to make.
  */
  lemma ReturnsIff(setting: Setting, turns: seq<Turn>, world: World, id: Text)
    requires Played(setting, turns, world) && RevokedIn(world.db, id)
    ensures CanReturn(setting, turns, id) <==>
      Unchanged(world.db.events, world.db.records[id].raw) || Threatened(world, id)
  {
    hide Play, Played, ValidTurns, CertInv, Synced, RowsTrue, AllAdmitted, AllMade, Unchanged, Grown, RevokedIn,
      Harmless;
    PlayedInv(setting, turns, world);
    PlayMade(setting, turns);
    RevokedPresent(world.db, id);
    if Unchanged(world.db.events, world.db.records[id].raw) {
      UnchangedReturns(setting, turns, world, id);
    } else if Threatened(world, id) {
      var k :| 0 <= k < |world.tasks| && !Harmless(world.db, world.tasks[k], id);
      HarmfulReturns(setting, turns, k, id);
    } else if CanReturn(setting, turns, id) {
      var more: seq<Turn> :| ReturnsAfter(setting, turns, more, id);
      MadeGrown(setting, world.db, id);
      StaysSettled(setting, turns, more, id);
    }
  }
}
