/**
 Several kernels on one database. A running operation has read the tables and does its writes one at a
 time; between any two of them others may begin, write or stop. What one kernel keeps all of them keep.
*/
module Races {
  import opened Basics
  import opened Records
  import opened Tables
  import opened Plans
  import opened Growth
  import opened Pipeline
  import opened Certification

  /**
   What is left of an operation: the writes it decided on when it read the tables, then the memories that a
   promotion supersedes, each read when its turn comes, then the event of that promotion.
  */
  datatype Task = Task(step: Step, read: Db, writes: seq<Write>, supersedes: seq<Text>, receipt: Text, last: seq<Write>)

  datatype World = World(db: Db, tasks: seq<Task>)

  datatype Turn = Begins(step: Step) | Advances(task: nat)

  function Begin(setting: Setting, db: Db, step: Step): Task {
    match step
    case Promoting(id, nonce, clock) =>
      (match Promotes(db, id, nonce, clock)
       case Err(_) => Task(step, db, [], [], Plain(""), [])
       case Ok(m) => Task(step, db, FirstWrites(m), m.supersedes, m.receipt, [PutEvent(m.event)]))
    case _ => Task(step, db, WritesOf(setting, db, step), [], Plain(""), [])
  }

  /** The next write, if the operation does not end instead. */
  function NextWrite(db: Db, t: Task): Option<Write> {
    if t.writes != [] then Some(t.writes[0])
    else if t.supersedes != [] then
      var id := t.supersedes[0];
      if id in db.records && MayMove(db.records[id].lane, Superseded)
      then Some(PutRecord(SupersededBy(db.records[id].raw, t.receipt)))
      else None
    else if t.last != [] then Some(t.last[0])
    else None
  }

  function Rest(t: Task): Task {
    if t.writes != [] then t.(writes := t.writes[1..])
    else if t.supersedes != [] then t.(supersedes := t.supersedes[1..])
    else if t.last != [] then t.(last := t.last[1..])
    else t
  }

  function Ended(t: Task): Task {
    t.(writes := [], supersedes := [], last := [])
  }

  /** One write of one task; a task whose write is refused has raised and does nothing more. */
  function Go(setting: Setting, world: World, turn: Turn): World {
    match turn
    case Begins(step) => world.(tasks := world.tasks + [Begin(setting, world.db, step)])
    case Advances(k) =>
      if k >= |world.tasks| then world
      else
        var t := world.tasks[k];
        match NextWrite(world.db, t)
        case None => world.(tasks := world.tasks[k := Ended(t)])
        case Some(w) =>
          if Fails(world.db, w) then world.(tasks := world.tasks[k := Ended(t)])
          else World(Written(world.db, w), world.tasks[k := Rest(t)])
  }

  /** The world after the turns, last turn last. A task that gets no further turn has crashed. */
  function Play(setting: Setting, turns: seq<Turn>): World {
    if turns == [] then World(EMPTY_DB, [])
    else Go(setting, Play(setting, turns[..|turns| - 1]), turns[|turns| - 1])
  }

  ghost predicate ValidTurns(setting: Setting, turns: seq<Turn>) {
    forall k :: 0 <= k < |turns| && turns[k].Begins? ==> ValidStep(setting, turns[k].step)
  }

  // ---- What every interleaving keeps.

  /** The writes decided on may be made on the tables as they are now, whoever has changed them since. */
  ghost predicate Admitted(setting: Setting, db: Db, t: Task) {
    && AllMeet(Admits(setting), db, t.writes)
    && forall w :: w in t.last ==> w.PutEvent? && w.event.id.EventId?
  }

  ghost predicate AllAdmitted(setting: Setting, db: Db, tasks: seq<Task>) {
    forall k :: 0 <= k < |tasks| ==> Admitted(setting, db, tasks[k])
  }

  lemma {:induction false} MeetPrefix(rule: Rule, db: Db, a: seq<Write>, b: seq<Write>)
    requires AllMeet(rule, db, a + b)
    ensures AllMeet(rule, db, a)
    decreases |a|
  {
    hide Fails, Written;
    if a != [] && !Fails(db, a[0]) {
      assert (a + b)[1..] == a[1..] + b;
      MeetPrefix(rule, Written(db, a[0]), a[1..], b);
    }
  }

  /** The first writes of a promotion are those that its plan begins with. */
  lemma PromotionFirst(db: Db, id: Text, nonce: nat, clock: nat)
    requires Promotes(db, id, nonce, clock).Ok?
    ensures exists b: seq<Write> ::
      PromotePlan(db, id, nonce, clock).writes == FirstWrites(Promotes(db, id, nonce, clock).value) + b
  {
    hide Promotes, FirstWrites, SupersedeWrites;
    var m := Promotes(db, id, nonce, clock).value;
    var first := FirstWrites(m);
    var rest := SupersedeWrites(Written(Written(db, first[0]), first[1]), m.supersedes, m.receipt);
    var b := rest.writes + if rest.result.Ok? then [PutEvent(m.event)] else [];
    assert PromotePlan(db, id, nonce, clock).writes == first + b;
  }

  lemma BeginAdmitted(setting: Setting, db: Db, step: Step)
    requires CertInv(setting, db) && ValidStep(setting, step)
    ensures Admitted(setting, db, Begin(setting, db, step))
  {
    hide CertInv, ValidStep, AllMeet, WritesOf, PromotePlan, FirstWrites, LastPassing, ReceiptsOf, MayMove, ContractOf,
      CertifiedBy, OperationPayload, PromoteDetails;
    StepAdmissible(setting, db, step);
    match step
    case Promoting(id, nonce, clock) =>
      MeetNone(Admits(setting), db);
      if Promotes(db, id, nonce, clock).Ok? {
        PromotionFirst(db, id, nonce, clock);
        var m := Promotes(db, id, nonce, clock).value;
        var b: seq<Write> :| PromotePlan(db, id, nonce, clock).writes == FirstWrites(m) + b;
        assert WritesOf(setting, db, step) == FirstWrites(m) + b by { PromotingWrites(setting, db, id, nonce, clock); }
        MeetPrefix(Admits(setting), db, FirstWrites(m), b);
      }
    case _ =>
  }

  lemma PromotingWrites(setting: Setting, db: Db, id: Text, nonce: nat, clock: nat)
    ensures WritesOf(setting, db, Promoting(id, nonce, clock)) == PromotePlan(db, id, nonce, clock).writes
  {
  }

  lemma NextAdmissible(setting: Setting, db: Db, t: Task)
    requires CertInv(setting, db) && Admitted(setting, db, t) && NextWrite(db, t).Some?
    ensures Admissible(setting, db, NextWrite(db, t).value)
  {
    hide CertInv, Rooted, MayMove;
    if t.writes == [] && t.supersedes != [] {
      var id := t.supersedes[0];
      InvRooted(setting, db, id);
      MovedRooted(db.events, db.records[id].raw, Superseded, "superseded", Some(t.receipt));
    }
  }

  lemma RestAdmitted(setting: Setting, db: Db, t: Task)
    requires Admitted(setting, db, t) && NextWrite(db, t).Some? && !Fails(db, NextWrite(db, t).value)
    requires Grows(db, Written(db, NextWrite(db, t).value))
    ensures Admitted(setting, Written(db, NextWrite(db, t).value), Rest(t))
  {
    hide Fails, Written, Admissible, Grows, MayMove;
    if t.writes == [] { MeetNone(Admits(setting), Written(db, NextWrite(db, t).value)); }
  }

  lemma OthersAdmitted(setting: Setting, db: Db, g: Db, tasks: seq<Task>)
    requires AllAdmitted(setting, db, tasks) && Grows(db, g)
    ensures AllAdmitted(setting, g, tasks)
  {
    hide AllMeet, Grows;
    forall k | 0 <= k < |tasks| ensures Admitted(setting, g, tasks[k]) {
      PlanGrows(setting, db, g, tasks[k].writes);
    }
  }

  ghost predicate WorldInv(setting: Setting, world: World) {
    CertInv(setting, world.db) && Synced(world.db) && AllAdmitted(setting, world.db, world.tasks)
  }

  lemma EndedAdmitted(setting: Setting, db: Db, t: Task)
    ensures Admitted(setting, db, Ended(t))
  {
    MeetNone(Admits(setting), db);
  }

  lemma WriteTurn(setting: Setting, world: World, k: nat)
    requires WorldInv(setting, world) && k < |world.tasks|
    requires NextWrite(world.db, world.tasks[k]).Some? && !Fails(world.db, NextWrite(world.db, world.tasks[k]).value)
    ensures Grows(world.db, Go(setting, world, Advances(k)).db)
    ensures WorldInv(setting, Go(setting, world, Advances(k)))
  {
    hide CertInv, Synced, Admitted, Admissible, Fails, Written, Grows, NextWrite, Rest;
    var db, t := world.db, world.tasks[k];
    var w := NextWrite(db, t).value;
    var g := Written(db, w);
    NextAdmissible(setting, db, t);
    AdmissibleWriteGrows(setting, db, w);
    WriteKeeps(setting, db, w);
    WriteKeepsSynced(db, w);
    OthersAdmitted(setting, db, g, world.tasks);
    RestAdmitted(setting, db, t);
  }

  lemma GoKeeps(setting: Setting, world: World, turn: Turn)
    requires WorldInv(setting, world) && (turn.Begins? ==> ValidStep(setting, turn.step))
    ensures WorldInv(setting, Go(setting, world, turn)) && Grows(world.db, Go(setting, world, turn).db)
  {
    hide CertInv, Synced, Admitted, Fails, Written, Grows, NextWrite, Rest, ValidStep, Begin, Ended;
    GrowsRefl(world.db);
    match turn
    case Begins(step) => BeginAdmitted(setting, world.db, step);
    case Advances(k) =>
      if k < |world.tasks| {
        EndedAdmitted(setting, world.db, world.tasks[k]);
        if NextWrite(world.db, world.tasks[k]).Some? && !Fails(world.db, NextWrite(world.db, world.tasks[k]).value) {
          WriteTurn(setting, world, k);
        }
      }
  }

  lemma {:induction false} PlayKeeps(setting: Setting, turns: seq<Turn>)
    requires ValidTurns(setting, turns)
    ensures WorldInv(setting, Play(setting, turns))
    decreases |turns|
  {
    hide CertInv, Synced, Go, ValidStep;
    if turns == [] {
      FreshHolds(setting);
    } else {
      var n := |turns| - 1;
      PlayKeeps(setting, turns[..n]);
      GoKeeps(setting, Play(setting, turns[..n]), turns[n]);
    }
  }

  ghost predicate IsPlay(world: World, setting: Setting, turns: seq<Turn>) {
    world == Play(setting, turns)
  }

  /** The world after an interleaving of any number of operations. */
  ghost predicate Played(setting: Setting, turns: seq<Turn>, world: World) {
    ValidTurns(setting, turns) && forall w: World :: IsPlay(w, setting, turns) ==> w == world
  }

  lemma PlayedInv(setting: Setting, turns: seq<Turn>, world: World)
    requires Played(setting, turns, world)
    ensures ValidTurns(setting, turns) && world == Play(setting, turns)
    ensures CertInv(setting, world.db) && Synced(world.db) && RowsTrue(world.db)
    ensures AllAdmitted(setting, world.db, world.tasks)
  {
    hide Play, ValidTurns, CertInv, Synced, RowsTrue, AllAdmitted;
    assert IsPlay(Play(setting, turns), setting, turns);
    PlayKeeps(setting, turns);
    SyncedRows(world.db);
  }

  // ---- One operation after another is one interleaving.

  /** The writes that a task makes if nobody else writes. */
  function Remaining(db: Db, t: Task): seq<Write> {
    var rest := SupersedeWrites(WrittenAll(db, t.writes), t.supersedes, t.receipt);
    t.writes + rest.writes + if rest.result.Ok? then t.last else []
  }

  /** One turn of a task. */
  function Turned(world: (Db, Task)): (Db, Task) {
    var (db, t) := world;
    match NextWrite(db, t)
    case None => (db, Ended(t))
    case Some(w) => if Fails(db, w) then (db, Ended(t)) else (Written(db, w), Rest(t))
  }

  function Alone(world: (Db, Task), n: nat): (Db, Task)
    decreases n
  {
    if n == 0 then world else Alone(Turned(world), n - 1)
  }

  lemma {:induction false} AloneLast(world: (Db, Task), n: nat)
    ensures Alone(world, n + 1) == Turned(Alone(world, n))
    decreases n
  {
    hide Turned;
    if n > 0 { AloneLast(Turned(world), n - 1); }
  }

  lemma NothingRemains(db: Db, t: Task)
    requires NextWrite(db, t).None?
    ensures Remaining(db, t) == []
  {
    hide MayMove;
  }

  lemma NextRemains(db: Db, t: Task)
    requires NextWrite(db, t).Some? && !Fails(db, NextWrite(db, t).value)
    ensures Remaining(db, t) == [NextWrite(db, t).value] + Remaining(Written(db, NextWrite(db, t).value), Rest(t))
  {
    hide MayMove, Fails, Written;
  }

  lemma NextIsFirst(db: Db, t: Task)
    requires NextWrite(db, t).Some?
    ensures Remaining(db, t) != [] && Remaining(db, t)[0] == NextWrite(db, t).value
  {
    hide MayMove, Fails, Written;
  }

  lemma EndedRemains(db: Db, t: Task)
    ensures Remaining(db, Ended(t)) == []
  {
  }

  /** Alone a task does what remains of it. */
  lemma {:induction false} AloneWrites(db: Db, t: Task, n: nat)
    ensures Alone((db, t), n).0 == WrittenAll(db, Take(Remaining(db, t), n))
    decreases n
  {
    hide NextWrite, Remaining, Rest, Ended, Fails, Written;
    var ws := Remaining(db, t);
    if n > 0 {
      if NextWrite(db, t).None? {
        NothingRemains(db, t);
        EndedRemains(db, t);
        AloneWrites(db, Ended(t), n - 1);
      } else {
        var w := NextWrite(db, t).value;
        NextIsFirst(db, t);
        if Fails(db, w) {
          EndedRemains(db, t);
          AloneWrites(db, Ended(t), n - 1);
        } else {
          NextRemains(db, t);
          AloneWrites(Written(db, w), Rest(t), n - 1);
          assert ws[1..] == Remaining(Written(db, w), Rest(t));
          assert Take(ws, n) == [w] + Take(ws[1..], n - 1);
          assert Take(ws, n)[1..] == Take(ws[1..], n - 1);
        }
      }
    }
  }

  /** A task just begun makes the writes of its plan. */
  lemma BeginRemains(setting: Setting, db: Db, step: Step, n: nat)
    ensures WrittenAll(db, Take(Remaining(db, Begin(setting, db, step)), n)) ==
      WrittenAll(db, Take(WritesOf(setting, db, step), n))
  {
    hide WritesOf, Promotes, Fails, Written;
    match step
    case Promoting(id, nonce, clock) =>
      PromotingWrites(setting, db, id, nonce, clock);
      if Promotes(db, id, nonce, clock).Ok? { PromotionRemains(setting, db, id, nonce, clock, n); }
    case _ =>
      var ws := WritesOf(setting, db, step);
      assert ws + [] + [] == ws;
  }

  lemma PromotionRemains(setting: Setting, db: Db, id: Text, nonce: nat, clock: nat, n: nat)
    requires Promotes(db, id, nonce, clock).Ok?
    ensures WrittenAll(db, Take(Remaining(db, Begin(setting, db, Promoting(id, nonce, clock))), n)) ==
      WrittenAll(db, Take(PromotePlan(db, id, nonce, clock).writes, n))
  {
    hide Promotes, Written, SupersedeWrites;
    var m := Promotes(db, id, nonce, clock).value;
    var first := FirstWrites(m);
    var t := Begin(setting, db, Promoting(id, nonce, clock));
    var a, b := Remaining(db, t), PromotePlan(db, id, nonce, clock).writes;
    assert a[0] == first[0] && b[0] == first[0];
    if n > 0 && !Fails(db, first[0]) {
      assert first == [first[0], first[1]];
      assert WrittenAll(db, first) == Written(Written(db, first[0]), first[1]) by { BothWritten(db, first); }
      assert a == b;
    }
  }

  lemma BothWritten(db: Db, ws: seq<Write>)
    requires |ws| == 2 && !Fails(db, ws[0]) && ws[1].PutRecord?
    ensures WrittenAll(db, ws) == Written(Written(db, ws[0]), ws[1])
  {
    hide Written;
    var g, last := Written(db, ws[0]), ws[1..];
    assert last[0] == ws[1] && last[1..] == [];
    assert WrittenAll(db, ws) == WrittenAll(g, last);
    assert WrittenAll(g, last) == WrittenAll(Written(g, last[0]), []);
  }

  function Times(k: nat, n: nat): (turns: seq<Turn>)
    ensures |turns| == n && forall i :: 0 <= i < n ==> turns[i] == Advances(k)
  {
    seq(n, _ => Advances(k))
  }

  /** Turns of one task: it goes on alone. */
  lemma {:induction false} TimesAlone(setting: Setting, turns: seq<Turn>, k: nat, n: nat)
    requires k < |Play(setting, turns).tasks|
    ensures var world, after := Play(setting, turns), Play(setting, turns + Times(k, n));
      && |after.tasks| == |world.tasks|
      && (after.db, after.tasks[k]) == Alone((world.db, world.tasks[k]), n)
    decreases n
  {
    hide NextWrite, Rest, Ended, Fails, Written;
    if n == 0 {
      assert turns + Times(k, 0) == turns;
    } else {
      var all := turns + Times(k, n);
      assert all[..|all| - 1] == turns + Times(k, n - 1);
      assert all[|all| - 1] == Advances(k);
      TimesAlone(setting, turns, k, n - 1);
      var world := Play(setting, turns);
      AloneLast((world.db, world.tasks[k]), n - 1);
    }
  }

  ghost predicate Interleaves(setting: Setting, turns: seq<Turn>, db: Db) {
    ValidTurns(setting, turns) && Play(setting, turns).db == db
  }

  /** Every run of operations, each cut anywhere, is an interleaving. */
  lemma {:induction false} RunIsPlayed(setting: Setting, moves: seq<Move>)
    requires ValidRun(setting, moves)
    ensures exists turns: seq<Turn> :: Interleaves(setting, turns, RunDb(setting, moves))
    decreases |moves|
  {
    hide ValidStep, WritesOf, Begin, Remaining, Alone, WrittenAll;
    if moves == [] {
      assert Interleaves(setting, [], RunDb(setting, moves));
    } else {
      var n := |moves| - 1;
      RunIsPlayed(setting, moves[..n]);
      var before: seq<Turn> :| Interleaves(setting, before, RunDb(setting, moves[..n]));
      var world := Play(setting, before);
      var begun := before + [Begins(moves[n].step)];
      var k := |world.tasks|;
      assert begun[..|begun| - 1] == before;
      assert Play(setting, begun) == world.(tasks := world.tasks + [Begin(setting, world.db, moves[n].step)]);
      var turns := begun + Times(k, moves[n].cut);
      TimesAlone(setting, begun, k, moves[n].cut);
      AloneWrites(world.db, Begin(setting, world.db, moves[n].step), moves[n].cut);
      BeginRemains(setting, world.db, moves[n].step, moves[n].cut);
      assert Interleaves(setting, turns, RunDb(setting, moves));
    }
  }

  // ---- What holds in every interleaving.

  /**
   In every interleaving, with a crash after any write, a certified record has a stored receipt for its present
   update that passed all of a non-empty list of checks, and a stored contract for the two.
  */
  lemma CertifiedIsProven(setting: Setting, turns: seq<Turn>, world: World, id: Text)
    requires Played(setting, turns, world) && id in world.db.records && world.db.records[id].lane == Certified
    ensures var r := world.db.records[id].raw;
      && r.memoryId == id && r.contractId.Some? && r.contractId.value in world.db.contracts
      && exists k ::
           0 <= k < |world.db.receipts| && Proves(world.db.receipts[k], world.db.contracts[r.contractId.value], r)
  {
    hide Play, Played, AllAdmitted, Synced, Rooted, BuiltFor, Backed, Proves;
    PlayedInv(setting, turns, world);
  }

  /** Searching for admissible memories in any interleaving finds certified, hence proven, records only. */
  lemma SearchFindsProven(
      setting: Setting, turns: seq<Turn>, world: World, path: Path, limit: nat, r: seq<MemoryRecord>, k: nat)
    requires Played(setting, turns, world) && IsSearch(world.db, [Certified], path, limit, r) && k < |r|
    ensures r[k].lane == Certified && Proven(world.db, r[k])
  {
    hide Play, Played, AllAdmitted, Synced, Rooted, BuiltFor, Backed, Proven, IsSearch;
    PlayedInv(setting, turns, world);
    SearchIsSound(world.db, [Certified], path, limit, r);
  }

  /** In every interleaving current rows, revisions and index are in step. */
  lemma TablesInStep(setting: Setting, turns: seq<Turn>, world: World)
    requires Played(setting, turns, world)
    ensures RowsTrue(world.db) && IndexTrue(world.db) && RevisionsCurrent(world.db) && LanesChained(world.db.revisions)
  {
    hide Play, Played, AllAdmitted, CertInv, RowsTrue, IndexTrue, RevisionsCurrent, LanesChained;
    PlayedInv(setting, turns, world);
  }
}
