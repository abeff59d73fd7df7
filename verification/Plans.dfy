/**
 Rules for the writes of a plan: each write meets the rule on the tables that the writes before it
 leave. What one write keeps when it meets the rule, every cut of the plan keeps.
*/
module Plans {
  import opened Tables

  /** What is asked of a write on the tables that it finds. */
  type Rule = (Db, Write) -> bool

  /** Every write that is reached meets the rule. */
  predicate AllMeet(rule: Rule, db: Db, ws: seq<Write>)
    decreases |ws|
  {
    ws == [] || (rule(db, ws[0]) && (!Fails(db, ws[0]) ==> AllMeet(rule, Written(db, ws[0]), ws[1..])))
  }

  lemma MeetNone(rule: Rule, db: Db)
    ensures AllMeet(rule, db, [])
  {
  }

  lemma MeetCons(rule: Rule, db: Db, w: Write, ws: seq<Write>)
    requires rule(db, w) && (!Fails(db, w) ==> AllMeet(rule, Written(db, w), ws))
    ensures AllMeet(rule, db, [w] + ws)
  {
    hide Fails, Written;
    assert ([w] + ws)[1..] == ws;
  }

  lemma MeetOne(rule: Rule, db: Db, w: Write)
    requires rule(db, w)
    ensures AllMeet(rule, db, [w])
  {
    hide Fails, Written;
    assert [w][1..] == [];
  }

  lemma MeetTwo(rule: Rule, db: Db, v: Write, w: Write)
    requires rule(db, v) && (!Fails(db, v) ==> rule(Written(db, v), w))
    ensures AllMeet(rule, db, [v, w])
  {
    hide Fails, Written;
    assert [v, w][1..] == [w];
    if !Fails(db, v) { MeetOne(rule, Written(db, v), w); }
  }

  /** A write that meets the rule on any tables may follow a plan. */
  lemma {:induction false} MeetLast(rule: Rule, db: Db, ws: seq<Write>, w: Write)
    requires AllMeet(rule, db, ws) && forall d: Db :: rule(d, w)
    ensures AllMeet(rule, db, ws + [w])
    decreases |ws|
  {
    hide Fails, Written;
    if ws == [] {
      MeetOne(rule, db, w);
      assert ws + [w] == [w];
    } else {
      if !Fails(db, ws[0]) { MeetLast(rule, Written(db, ws[0]), ws[1..], w); }
      assert (ws + [w])[1..] == ws[1..] + [w];
    }
  }

  /** Writes that meet the rule on any tables make a plan that does. */
  lemma {:induction false} MeetEach(rule: Rule, db: Db, ws: seq<Write>)
    requires forall d: Db, k :: 0 <= k < |ws| ==> rule(d, ws[k])
    ensures AllMeet(rule, db, ws)
    decreases |ws|
  {
    hide Fails, Written;
    if ws != [] {
      assert forall k :: 0 <= k < |ws| - 1 ==> ws[1..][k] == ws[k + 1];
      MeetEach(rule, Written(db, ws[0]), ws[1..]);
    }
  }

  /** What holds of the tables and is kept by every write that meets the rule holds wherever the plan is cut. */
  lemma {:induction false} MeetKeeps(rule: Rule, holds: Db -> bool, db: Db, ws: seq<Write>, cut: nat)
    requires holds(db) && AllMeet(rule, db, ws)
    requires forall d: Db, w: Write :: holds(d) && rule(d, w) && !Fails(d, w) ==> holds(Written(d, w))
    ensures holds(WrittenAll(db, Take(ws, cut)))
    decreases |ws|
  {
    hide Fails, Written;
    if ws != [] && cut > 0 && !Fails(db, ws[0]) {
      MeetKeeps(rule, holds, Written(db, ws[0]), ws[1..], cut - 1);
      assert Take(ws, cut) == [ws[0]] + Take(ws[1..], cut - 1);
    }
  }
}
