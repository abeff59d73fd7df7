/**
 What a journal says, read off its rows alone: which entry may follow which, and what the state that it
 replays to holds. Replay is proved to accept exactly these rows and to compute exactly this state.
*/
module Meaning {
  import opened Wire
  import opened Models
  import opened Journal
  import opened Store
  import opened Chains
  import opened Safety
  import opened Settlement
  import opened Completion
  import Native

  // ---- Reading rows.

  predicate HasBody(rows: seq<Entry>, b: Body) {
    exists k :: 0 <= k < |rows| && rows[k].body == b
  }

  predicate HasEntry(rows: seq<Entry>, id: Id, b: Body) {
    exists k :: 0 <= k < |rows| && rows[k].id == id && rows[k].body == b
  }

  /** A cost with this id is on record, in full or without its unit. */
  ghost predicate Costed(rows: seq<Entry>, id: string) {
    exists c: Cost :: c.id == id && (HasBody(rows, PayCost(c)) || HasBody(rows, NoteCost(c)))
  }

  predicate Bound(rows: seq<Entry>, d: Digest) {
    d.OfQualification? && HasBody(rows, Admit(d.qualification))
  }

  ghost predicate Intended(rows: seq<Entry>, i: Id) {
    exists n: Intent :: HasEntry(rows, i, Intend(n))
  }

  ghost predicate Concluded(rows: seq<Entry>, i: Id) {
    exists output: string, status: Status :: HasBody(rows, Outcome(i, output, status))
  }

  /** The use of the intent was answered so. */
  predicate UsedSo(rows: seq<Entry>, i: Id, n: Intent, output: string, status: Status) {
    HasEntry(rows, i, Intend(n)) && HasBody(rows, Outcome(i, output, status))
  }

  /** A received answer that is not the normal form of the input. */
  predicate WrongAnswer(n: Intent, output: string, status: Status) {
    status == Received && output != Native.Normalized(n.input)
  }

  ghost predicate Checkable(rows: seq<Entry>, i: Id) {
    exists n: Intent, output: string, status: Status :: UsedSo(rows, i, n, output, status)
        && MayCheck(n, output, status)
  }

  predicate MayCheck(n: Intent, output: string, status: Status) {
    && |n.input| <= 4096 && |output| <= 4096
    && (WrongAnswer(n, output, status) ==>
        n.qualification.OfQualification? && Artifact(n.qualification.qualification).Some?)
  }

  /** What the rows before it must say for an entry to be accepted. */
  ghost predicate Legal(rows: seq<Entry>, e: Entry) {
    match e.body
    case PayCost(c) =>
      forall d: Cost :: d.id == c.id ==> !HasBody(rows, NoteCost(d)) && (HasBody(rows, PayCost(d)) ==> d == c)
    case NoteCost(c) =>
      forall d: Cost :: d.id == c.id ==> !HasBody(rows, PayCost(d)) && (HasBody(rows, NoteCost(d)) ==> d == c)
    case Admit(q) => forall c :: c in q.costs ==> HasBody(rows, PayCost(c))
    case Invalidate(_, _, _, _) => true
    case Allege(_, _, _, _) => true
    case Withdraw(_, _) => true
    case Expose(d, _) => Bound(rows, d)
    case Intend(n) => Bound(rows, n.qualification) && Costed(rows, n.cost)
    case Attempt(i) => Intended(rows, i) && !HasBody(rows, Attempt(i))
    case Outcome(i, _, _) => HasBody(rows, Attempt(i)) && !Concluded(rows, i)
    case Check(i, checker) => checker == "normalize-checker-v1" && Checkable(rows, i)
    case Reconcile(i) => HasBody(rows, Check(i, "normalize-checker-v1"))
    case Correction(_) => false
    case Malformed(_, _) => false
  }

  // ---- One more row.

  lemma BodySnoc(rows: seq<Entry>, e: Entry, b: Body)
    ensures HasBody(rows + [e], b) <==> HasBody(rows, b) || e.body == b
  {
    var all := rows + [e];
    assert all[|rows|] == e;
    if HasBody(rows, b) {
      var k :| 0 <= k < |rows| && rows[k].body == b;
      assert all[k].body == b;
    }
  }

  lemma EntrySnoc(rows: seq<Entry>, e: Entry, id: Id, b: Body)
    ensures HasEntry(rows + [e], id, b) <==> HasEntry(rows, id, b) || (e.id == id && e.body == b)
  {
    var all := rows + [e];
    assert all[|rows|] == e;
    if HasEntry(rows, id, b) {
      var k :| 0 <= k < |rows| && rows[k].id == id && rows[k].body == b;
      assert all[k].id == id && all[k].body == b;
    }
  }

  lemma NoRows(id: Id, b: Body)
    ensures !HasBody([], b) && !HasEntry([], id, b)
    ensures FactsOf([]) == NO_FACTS
  {
    hide HasBody, HasEntry;
    EmptyStored();
    NothingIn(id, b);
  }

  lemma NothingIn(id: Id, b: Body)
    ensures !HasBody([], b) && !HasEntry([], id, b)
  {
  }

  /** Stored rows taken apart at the last one, whose id is new. */
  lemma LastRow(rows: seq<Entry>)
    requires Stored(rows) && rows != []
    ensures var front, e := rows[..|rows| - 1], rows[|rows| - 1];
      && rows == front + [e] && Stored(front) && !HasRow(front, e.id)
      && Linked(FactsOf(front)) && Apply(FactsOf(front), e).Ok? && FactsOf(rows) == Apply(FactsOf(front), e).value
  {
    hide *;
    var n := |rows| - 1;
    assert rows == rows[..n] + [rows[n]];
    StoredFront(rows[..n], rows[n]);
    StoredIds(rows[..n]);
  }

  predicate Books(f: Facts, b: Booking, g: Facts) {
    (b.cost.id in f.costs ==> f.costs[b.cost.id] == b) && g == f.(costs := f.costs[b.cost.id := b])
  }

  /** What an entry of each kind changes; the rest stays. */
  predicate Changes(f: Facts, e: Entry, g: Facts) {
    match e.body
    case PayCost(c) => Books(f, Booking(c, true), g)
    case NoteCost(c) => Books(f, Booking(c, false), g)
    case Admit(q) =>
      g == f.(qualifications := if q in f.qualifications then f.qualifications else f.qualifications + [q])
    case Invalidate(a, c, i, r) => g == f.(blocks := f.blocks + [Block(Str(a), c, i, e.time, e.id, r)])
    case Allege(a, c, i, r) => g == f.(allegations := f.allegations + [Block(Str(a), c, i, e.time, e.id, r)])
    case Withdraw(d, r) => g == f.(withdrawn := f.withdrawn + [Withdrawal(d, r, e.time, e.id)])
    case Expose(d, i) => g == f.(exposures := f.exposures + [Exposure(d, i)])
    case Intend(n) => g == f.(intents := f.intents[e.id := n])
    case Attempt(i) => i !in f.attempts && g == f.(attempts := f.attempts[i := e.id])
    case Outcome(i, o, s) => i !in f.outcomes && g == f.(outcomes := f.outcomes[i := Answer(o, s)])
    case Check(i, checker) =>
      checker == "normalize-checker-v1" && i in f.outcomes && g.checked.Keys == f.checked.Keys + {i}
      && g == f.(checked := g.checked, blocks := g.blocks)
    case Reconcile(i) => i in f.checked && g == f.(services := g.services)
    case _ => false
  }

  lemma CheckChanges(f: Facts, e: Entry, i: Id, checker: string)
    requires Linked(f) && ApplyCheck(f, e, i, checker).Ok?
    ensures var g := ApplyCheck(f, e, i, checker).value;
      && checker == "normalize-checker-v1" && i in f.outcomes && g.checked.Keys == f.checked.Keys + {i}
      && g == f.(checked := g.checked, blocks := g.blocks)
  {
    hide Passed;
  }

  lemma CostChanges(f: Facts, b: Booking)
    requires ApplyCost(f, b).Ok?
    ensures Books(f, b, ApplyCost(f, b).value)
  {
  }

  lemma AdmitChanges(f: Facts, q: Qualification)
    requires ApplyAdmit(f, q).Ok?
    ensures ApplyAdmit(f, q).value ==
      f.(qualifications := if q in f.qualifications then f.qualifications else f.qualifications + [q])
  {
    hide AllPaid;
  }

  lemma IntentChanges(f: Facts, id: Id, n: Intent)
    requires ApplyIntent(f, id, n).Ok?
    ensures ApplyIntent(f, id, n).value == f.(intents := f.intents[id := n])
  {
  }

  lemma AttemptChanges(f: Facts, i: Id, id: Id)
    requires ApplyAttempt(f, i, id).Ok?
    ensures i !in f.attempts && ApplyAttempt(f, i, id).value == f.(attempts := f.attempts[i := id])
  {
  }

  lemma OutcomeChanges(f: Facts, i: Id, a: Answer)
    requires ApplyOutcome(f, i, a).Ok?
    ensures i !in f.outcomes && ApplyOutcome(f, i, a).value == f.(outcomes := f.outcomes[i := a])
  {
  }

  lemma ReconcileChanges(f: Facts, i: Id)
    requires ApplyReconcile(f, i).Ok?
    ensures i in f.checked && ApplyReconcile(f, i).value == f.(services := ApplyReconcile(f, i).value.services)
    ensures forall j :: j in ApplyReconcile(f, i).value.services <==> j in f.services || (j == i && f.checked[i])
  {
  }

  lemma ApplyChanges(f: Facts, e: Entry)
    requires Linked(f) && Apply(f, e).Ok?
    ensures Changes(f, e, Apply(f, e).value)
  {
    hide Linked, ApplyCost, ApplyAdmit, ApplyIntent, ApplyAttempt, ApplyOutcome, ApplyCheck, ApplyReconcile, Resolves;
    match e.body {
      case PayCost(c) => CostChanges(f, Booking(c, true));
      case NoteCost(c) => CostChanges(f, Booking(c, false));
      case Admit(q) => AdmitChanges(f, q);
      case Intend(n) => IntentChanges(f, e.id, n);
      case Attempt(i) => AttemptChanges(f, i, e.id);
      case Outcome(i, o, s) => OutcomeChanges(f, i, Answer(o, s));
      case Check(i, checker) => CheckChanges(f, e, i, checker);
      case Reconcile(i) => ReconcileChanges(f, i);
      case _ =>
    }
  }

  lemma ChangedAdmissions(f: Facts, e: Entry, g: Facts)
    requires Changes(f, e, g)
    ensures g.qualifications ==
      if e.body.Admit? && e.body.q !in f.qualifications then f.qualifications + [e.body.q] else f.qualifications
  {
  }

  lemma ChangedCosts(f: Facts, e: Entry, g: Facts)
    requires Changes(f, e, g)
    ensures match e.body
            case PayCost(c) => Books(f, Booking(c, true), g)
            case NoteCost(c) => Books(f, Booking(c, false), g)
            case _ => g.costs == f.costs
  {
    hide Books;
  }

  lemma ChangedIntents(f: Facts, e: Entry, g: Facts)
    requires Changes(f, e, g)
    ensures g.intents == if e.body.Intend? then f.intents[e.id := e.body.intent] else f.intents
  {
  }

  lemma ChangedAttempts(f: Facts, e: Entry, g: Facts)
    requires Changes(f, e, g)
    ensures g.attempts == if e.body.Attempt? then f.attempts[e.body.of := e.id] else f.attempts
    ensures e.body.Attempt? ==> e.body.of !in f.attempts
  {
  }

  lemma ChangedOutcomes(f: Facts, e: Entry, g: Facts)
    requires Changes(f, e, g)
    ensures g.outcomes ==
      if e.body.Outcome? then f.outcomes[e.body.of := Answer(e.body.output, e.body.status)] else f.outcomes
    ensures e.body.Outcome? ==> e.body.of !in f.outcomes
  {
  }

  lemma ChangedChecks(f: Facts, e: Entry, g: Facts)
    requires Changes(f, e, g)
    ensures g.checked.Keys == if e.body.Check? then f.checked.Keys + {e.body.of} else f.checked.Keys
    ensures e.body.Check? ==> e.body.checker == "normalize-checker-v1"
  {
  }

  lemma ChangedWithdrawals(f: Facts, e: Entry, g: Facts)
    requires Changes(f, e, g)
    ensures g.withdrawn == f.withdrawn + WithdrawalRow(e)
  {
    assert f.withdrawn + [] == f.withdrawn;
  }

  lemma ChangedAllegations(f: Facts, e: Entry, g: Facts)
    requires Changes(f, e, g)
    ensures g.allegations == f.allegations + AllegationRow(e)
  {
    assert f.allegations + [] == f.allegations;
  }

  lemma ChangedExposures(f: Facts, e: Entry, g: Facts)
    requires Changes(f, e, g)
    ensures g.exposures == f.exposures + ExposureRow(e)
  {
    assert f.exposures + [] == f.exposures;
  }

  // ---- The state, component by component.

  lemma {:induction false} QualificationsRead(rows: seq<Entry>, q: Qualification)
    requires Stored(rows)
    ensures q in FactsOf(rows).qualifications <==> HasBody(rows, Admit(q))
    decreases |rows|
  {
    hide Stored, FactsOf, Apply, Linked, Changes, HasBody;
    if rows == [] {
      NoRows([], Admit(q));
    } else {
      var front, e := rows[..|rows| - 1], rows[|rows| - 1];
      LastRow(rows);
      QualificationsRead(front, q);
      BodySnoc(front, e, Admit(q));
      ApplyChanges(FactsOf(front), e);
      ChangedAdmissions(FactsOf(front), e, FactsOf(rows));
    }
  }

  /** Qualifications are in the order in which they were first admitted. */
  function Admissions(rows: seq<Entry>): seq<Qualification> {
    if rows == [] then []
    else
      var front, e := Admissions(rows[..|rows| - 1]), rows[|rows| - 1];
      if e.body.Admit? && e.body.q !in front then front + [e.body.q] else front
  }

  lemma {:induction false} AdmissionsRead(rows: seq<Entry>)
    requires Stored(rows)
    ensures FactsOf(rows).qualifications == Admissions(rows)
    decreases |rows|
  {
    hide Stored, FactsOf, Apply, Linked, Changes;
    if rows == [] {
      NoRows([], Attempt([]));
    } else {
      var front, e := rows[..|rows| - 1], rows[|rows| - 1];
      LastRow(rows);
      AdmissionsRead(front);
      ApplyChanges(FactsOf(front), e);
      ChangedAdmissions(FactsOf(front), e, FactsOf(rows));
    }
  }

  function WithdrawalRow(e: Entry): seq<Withdrawal> {
    match e.body
    case Withdraw(d, r) => [Withdrawal(d, r, e.time, e.id)]
    case _ => []
  }

  function AllegationRow(e: Entry): seq<Block> {
    match e.body
    case Allege(a, c, i, r) => [Block(Str(a), c, i, e.time, e.id, r)]
    case _ => []
  }

  function ExposureRow(e: Entry): seq<Exposure> {
    match e.body
    case Expose(d, i) => [Exposure(d, i)]
    case _ => []
  }

  /** What each row adds, in the order of the rows. */
  function Gathered<T>(rows: seq<Entry>, add: Entry -> seq<T>): seq<T> {
    if rows == [] then [] else Gathered(rows[..|rows| - 1], add) + add(rows[|rows| - 1])
  }

  /** Withdrawals, allegations and exposures are listed in the order of their rows, each as it was recorded. */
  lemma {:induction false} ListsRead(rows: seq<Entry>)
    requires Stored(rows)
    ensures FactsOf(rows).withdrawn == Gathered(rows, WithdrawalRow)
    ensures FactsOf(rows).allegations == Gathered(rows, AllegationRow)
    ensures FactsOf(rows).exposures == Gathered(rows, ExposureRow)
    decreases |rows|
  {
    hide Stored, FactsOf, Apply, Linked, Changes, WithdrawalRow, AllegationRow, ExposureRow;
    if rows == [] {
      NoRows([], Attempt([]));
    } else {
      LastRow(rows);
      ListsRead(rows[..|rows| - 1]);
      ApplyChanges(FactsOf(rows[..|rows| - 1]), rows[|rows| - 1]);
      ChangedWithdrawals(FactsOf(rows[..|rows| - 1]), rows[|rows| - 1], FactsOf(rows));
      ChangedAllegations(FactsOf(rows[..|rows| - 1]), rows[|rows| - 1], FactsOf(rows));
      ChangedExposures(FactsOf(rows[..|rows| - 1]), rows[|rows| - 1], FactsOf(rows));
    }
  }

  // ---- Intents, attempts, answers, verdicts and services.

  /** An intent is on record exactly as its own row states it. */
  lemma {:induction false} IntentsRead(rows: seq<Entry>, i: Id, n: Intent)
    requires Stored(rows)
    ensures i in FactsOf(rows).intents && FactsOf(rows).intents[i] == n <==> HasEntry(rows, i, Intend(n))
    decreases |rows|
  {
    hide Stored, FactsOf, Apply, Linked, Changes, HasEntry;
    if rows == [] {
      NoRows(i, Intend(n));
    } else {
      var front, e := rows[..|rows| - 1], rows[|rows| - 1];
      LastRow(rows);
      IntentsRead(front, i, n);
      EntrySnoc(front, e, i, Intend(n));
      ApplyChanges(FactsOf(front), e);
      ChangedIntents(FactsOf(front), e, FactsOf(rows));
      if HasEntry(front, i, Intend(n)) { EntryRow(front, i, Intend(n)); }
    }
  }

  lemma EntryRow(rows: seq<Entry>, id: Id, b: Body)
    requires HasEntry(rows, id, b)
    ensures HasRow(rows, id) && HasBody(rows, b)
  {
  }

  lemma {:induction false} AttemptsRead(rows: seq<Entry>, i: Id, id: Id)
    requires Stored(rows)
    ensures i in FactsOf(rows).attempts && FactsOf(rows).attempts[i] == id <==> HasEntry(rows, id, Attempt(i))
    ensures i in FactsOf(rows).attempts <==> HasBody(rows, Attempt(i))
    decreases |rows|
  {
    hide Stored, FactsOf, Apply, Linked, Changes, HasEntry, HasBody;
    if rows == [] {
      NoRows(id, Attempt(i));
    } else {
      var front, e := rows[..|rows| - 1], rows[|rows| - 1];
      LastRow(rows);
      AttemptsRead(front, i, id);
      EntrySnoc(front, e, id, Attempt(i));
      BodySnoc(front, e, Attempt(i));
      ApplyChanges(FactsOf(front), e);
      ChangedAttempts(FactsOf(front), e, FactsOf(rows));
      if HasEntry(front, id, Attempt(i)) { EntryRow(front, id, Attempt(i)); }
    }
  }

  lemma {:induction false} OutcomesRead(rows: seq<Entry>, i: Id, output: string, status: Status)
    requires Stored(rows)
    ensures i in FactsOf(rows).outcomes && FactsOf(rows).outcomes[i] == Answer(output, status) <==>
      HasBody(rows, Outcome(i, output, status))
    decreases |rows|
  {
    hide Stored, FactsOf, Apply, Linked, Changes, HasBody;
    if rows == [] {
      NoRows([], Outcome(i, output, status));
    } else {
      var front, e := rows[..|rows| - 1], rows[|rows| - 1];
      LastRow(rows);
      OutcomesRead(front, i, output, status);
      BodySnoc(front, e, Outcome(i, output, status));
      ApplyChanges(FactsOf(front), e);
      ChangedOutcomes(FactsOf(front), e, FactsOf(rows));
    }
  }

  lemma {:induction false} ChecksRead(rows: seq<Entry>, i: Id)
    requires Stored(rows)
    ensures i in FactsOf(rows).checked <==> HasBody(rows, Check(i, "normalize-checker-v1"))
    decreases |rows|
  {
    hide Stored, FactsOf, Apply, Linked, Changes, HasBody;
    var check := Check(i, "normalize-checker-v1");
    if rows == [] {
      NoRows([], check);
    } else {
      var front, e := rows[..|rows| - 1], rows[|rows| - 1];
      LastRow(rows);
      ChecksRead(front, i);
      BodySnoc(front, e, check);
      ApplyChanges(FactsOf(front), e);
      ChangedChecks(FactsOf(front), e, FactsOf(rows));
    }
  }

  /** The verdict is that the answer was received and is the normal form of the input. */
  lemma VerdictsRead(rows: seq<Entry>, i: Id, n: Intent)
    requires Stored(rows) && HasBody(rows, Check(i, "normalize-checker-v1")) && HasEntry(rows, i, Intend(n))
    ensures i in FactsOf(rows).checked
    ensures FactsOf(rows).checked[i] <==> HasBody(rows, Outcome(i, Native.Normalized(n.input), Received))
  {
    hide Stored, FactsOf, HasBody, HasEntry, Passed;
    ChecksRead(rows, i);
    IntentsRead(rows, i, n);
    StoredLinked(rows);
    var f := FactsOf(rows);
    PassedMeans(f.intents[i], f.outcomes[i]);
    OutcomesRead(rows, i, Native.Normalized(n.input), Received);
    assert f.outcomes[i] == Answer(f.outcomes[i].output, f.outcomes[i].status);
  }

  lemma ServicesApply(f: Facts, e: Entry, i: Id)
    requires Linked(f) && Settled(f) && Apply(f, e).Ok?
    ensures i in Apply(f, e).value.services <==>
      i in f.services || (e.body == Reconcile(i) && i in f.checked && f.checked[i])
    ensures e.body.Reconcile? ==> e.body.of in f.checked
  {
    hide Linked, ApplyReconcile;
    ApplyChanges(f, e);
    if e.body.Reconcile? { ReconcileChanges(f, e.body.of); }
  }

  /** A use is a service exactly when it was reconciled and had passed its check. */
  lemma {:induction false} ServicesRead(rows: seq<Entry>, i: Id)
    requires Stored(rows)
    ensures i in FactsOf(rows).services <==>
      HasBody(rows, Reconcile(i)) && i in FactsOf(rows).checked && FactsOf(rows).checked[i]
    ensures HasBody(rows, Reconcile(i)) ==> i in FactsOf(rows).checked
    decreases |rows|
  {
    hide Stored, FactsOf, Apply, Linked, Settled, Judged, HasBody;
    if rows == [] {
      NoRows([], Reconcile(i));
    } else {
      var front, e := rows[..|rows| - 1], rows[|rows| - 1];
      LastRow(rows);
      ServicesRead(front, i);
      BodySnoc(front, e, Reconcile(i));
      StoredLinked(front);
      ServicesApply(FactsOf(front), e, i);
      IntentsStay(front, rows);
      if i in FactsOf(front).checked { VerdictStays(FactsOf(front), FactsOf(rows), i); }
    }
  }

  lemma VerdictStays(f: Facts, g: Facts, i: Id)
    requires Extends(f, g) && i in f.checked
    ensures i in g.checked && g.checked[i] == f.checked[i]
  {
  }

  /** In the rows' own words: reconciled, and answered with the normal form of its input. */
  lemma ServiceIff(rows: seq<Entry>, i: Id)
    requires Stored(rows)
    ensures i in FactsOf(rows).services <==>
      HasBody(rows, Reconcile(i)) && exists n: Intent :: UsedSo(rows, i, n, Native.Normalized(n.input), Received)
  {
    hide Stored, FactsOf, HasBody, HasEntry;
    ServicesRead(rows, i);
    ChecksRead(rows, i);
    StoredLinked(rows);
    var f := FactsOf(rows);
    if i in f.checked {
      IntentsRead(rows, i, f.intents[i]);
      VerdictsRead(rows, i, f.intents[i]);
    }
    if n: Intent :| UsedSo(rows, i, n, Native.Normalized(n.input), Received) {
      if HasBody(rows, Reconcile(i)) { VerdictsRead(rows, i, n); }
    }
  }

  // ---- Costs.

  /** A cost is on record exactly as a row states it, with its unit or without. */
  lemma {:induction false} CostsRead(rows: seq<Entry>, c: Cost)
    requires Stored(rows)
    ensures Paid(FactsOf(rows), c) <==> HasBody(rows, PayCost(c))
    ensures c.id in FactsOf(rows).costs && FactsOf(rows).costs[c.id] == Booking(c, false) <==>
      HasBody(rows, NoteCost(c))
    decreases |rows|
  {
    hide Stored, FactsOf, Apply, Linked, HasBody, Changes;
    if rows == [] {
      NoRows([], PayCost(c));
      NoRows([], NoteCost(c));
    } else {
      var front, e := rows[..|rows| - 1], rows[|rows| - 1];
      LastRow(rows);
      CostsRead(front, c);
      BodySnoc(front, e, PayCost(c));
      BodySnoc(front, e, NoteCost(c));
      ApplyChanges(FactsOf(front), e);
      ChangedCosts(FactsOf(front), e, FactsOf(rows));
    }
  }

  lemma CostedRead(rows: seq<Entry>, id: string)
    requires Stored(rows)
    ensures id in FactsOf(rows).costs <==> Costed(rows, id)
  {
    hide Stored, FactsOf, HasBody;
    StoredLinked(rows);
    var f := FactsOf(rows);
    if id in f.costs {
      CostsRead(rows, f.costs[id].cost);
    }
    if Costed(rows, id) {
      var c: Cost :| c.id == id && (HasBody(rows, PayCost(c)) || HasBody(rows, NoteCost(c)));
      CostsRead(rows, c);
    }
  }

  // ---- Blocks.

  /**
   A row adds a block if it invalidates, or if it checks a received answer that is not the normal form of
   the input; no other row does.
  */
  ghost predicate MakesBlock(rows: seq<Entry>, e: Entry, b: Block) {
    match e.body
    case Invalidate(artifact, context, input, reason) => b == Block(Str(artifact), context, input, e.time, e.id, reason)
    case Check(i, _) =>
      exists n: Intent, q: Qualification, output: string :: Refutes(rows, i, n, q, output, e, b)
    case _ => false
  }

  predicate Refutes(rows: seq<Entry>, i: Id, n: Intent, q: Qualification, output: string, e: Entry, b: Block) {
    && UsedSo(rows, i, n, output, Received) && output != Native.Normalized(n.input)
    && n.qualification == OfQualification(q) && NegativeBlock(n, q, e, b)
  }

  predicate NegativeBlock(n: Intent, q: Qualification, e: Entry, b: Block) {
    Artifact(q).Some? && b == Block(Artifact(q).value, OfContext(q.context), n.input, e.time, e.id, "checked-negative")
  }

  lemma CheckBlocks(f: Facts, e: Entry, i: Id, checker: string)
    requires Linked(f) && ApplyCheck(f, e, i, checker).Ok?
    ensures i in f.outcomes
    ensures var n, a, g := f.intents[i], f.outcomes[i], ApplyCheck(f, e, i, checker).value;
      if a.status == Received && a.output != Native.Normalized(n.input) then
        && n.qualification.OfQualification?
        && |g.blocks| == |f.blocks| + 1 && g.blocks[..|f.blocks|] == f.blocks
        && NegativeBlock(n, n.qualification.qualification, e, g.blocks[|f.blocks|])
      else g.blocks == f.blocks
  {
    hide Passed, Artifact;
    PassedMeans(f.intents[i], f.outcomes[i]);
  }

  /** The blocks after one more row: those before it, and the one that it makes, if any. */
  ghost predicate BlocksAfter(before: seq<Block>, after: seq<Block>, rows: seq<Entry>, e: Entry) {
    if exists b: Block :: MakesBlock(rows, e, b) then
      |after| == |before| + 1 && after[..|before|] == before && MakesBlock(rows, e, after[|before|])
    else after == before
  }

  lemma OneAnswer(rows: seq<Entry>, i: Id, n: Intent, output: string, status: Status)
    requires Stored(rows) && UsedSo(rows, i, n, output, status)
    ensures var f := FactsOf(rows);
      i in f.intents && f.intents[i] == n && i in f.outcomes && f.outcomes[i] == Answer(output, status)
  {
    hide Stored, FactsOf, HasBody, HasEntry;
    IntentsRead(rows, i, n);
    OutcomesRead(rows, i, output, status);
  }

  lemma RecordedAnswer(rows: seq<Entry>, i: Id)
    requires Stored(rows) && i in FactsOf(rows).outcomes
    ensures var f := FactsOf(rows);
      i in f.intents && UsedSo(rows, i, f.intents[i], f.outcomes[i].output, f.outcomes[i].status)
  {
    hide Stored, FactsOf, HasBody, HasEntry;
    StoredLinked(rows);
    var f := FactsOf(rows);
    IntentsRead(rows, i, f.intents[i]);
    OutcomesRead(rows, i, f.outcomes[i].output, f.outcomes[i].status);
  }

  lemma CheckMakes(front: seq<Entry>, e: Entry)
    requires Stored(front) && e.body.Check? && Linked(FactsOf(front)) && Apply(FactsOf(front), e).Ok?
    ensures BlocksAfter(FactsOf(front).blocks, Apply(FactsOf(front), e).value.blocks, front, e)
  {
    hide Stored, FactsOf, UsedSo, NegativeBlock, ApplyCheck, Linked;
    var f, i := FactsOf(front), e.body.of;
    CheckBlocks(f, e, i, e.body.checker);
    RecordedAnswer(front, i);
    var n, a := f.intents[i], f.outcomes[i];
    if b: Block :| MakesBlock(front, e, b) {
      var m: Intent, q: Qualification, output: string :| Refutes(front, i, m, q, output, e, b);
      OneAnswer(front, i, m, output, Received);
    }
    if a.status == Received && a.output != Native.Normalized(n.input) {
      assert Refutes(front, i, n, n.qualification.qualification, a.output, e, Apply(f, e).value.blocks[|f.blocks|]);
      assert MakesBlock(front, e, Apply(f, e).value.blocks[|f.blocks|]);
    }
  }

  lemma OtherMakes(f: Facts, e: Entry, g: Facts, rows: seq<Entry>)
    requires Changes(f, e, g) && !e.body.Check?
    ensures BlocksAfter(f.blocks, g.blocks, rows, e)
  {
    if e.body.Invalidate? {
      assert MakesBlock(rows, e, g.blocks[|f.blocks|]);
    }
  }

  lemma BlocksGrow(rows: seq<Entry>)
    requires Stored(rows) && rows != []
    ensures BlocksAfter(FactsOf(rows[..|rows| - 1]).blocks, FactsOf(rows).blocks, rows[..|rows| - 1], rows[|rows| - 1])
  {
    hide Stored, FactsOf, Apply, Linked, BlocksAfter, Changes;
    var front, e := rows[..|rows| - 1], rows[|rows| - 1];
    LastRow(rows);
    if e.body.Check? {
      CheckMakes(front, e);
    } else {
      ApplyChanges(FactsOf(front), e);
      OtherMakes(FactsOf(front), e, FactsOf(rows), front);
    }
  }

  ghost predicate SomeRowMakes(rows: seq<Entry>, b: Block) {
    exists k :: 0 <= k < |rows| && MakesBlock(rows[..k], rows[k], b)
  }

  lemma MakesSnoc(front: seq<Entry>, e: Entry, b: Block)
    ensures SomeRowMakes(front + [e], b) <==> SomeRowMakes(front, b) || MakesBlock(front, e, b)
  {
    hide MakesBlock;
    var rows := front + [e];
    assert rows[..|front|] == front && rows[|front|] == e;
    assert forall k :: 0 <= k < |front| ==> front[..k] == rows[..k] && front[k] == rows[k];
  }

  lemma AfterHolds(before: seq<Block>, after: seq<Block>, rows: seq<Entry>, e: Entry, b: Block)
    requires Stored(rows) && BlocksAfter(before, after, rows, e)
    ensures b in after <==> b in before || MakesBlock(rows, e, b)
  {
    hide MakesBlock, Stored;
    if |after| == |before| + 1 && after[..|before|] == before {
      assert after == before + [after[|before|]];
      if MakesBlock(rows, e, b) && MakesBlock(rows, e, after[|before|]) { OneBlock(rows, e, b, after[|before|]); }
    }
  }

  /** A block is on record exactly when some row made it. */
  lemma {:induction false} BlocksRead(rows: seq<Entry>, b: Block)
    requires Stored(rows)
    ensures b in FactsOf(rows).blocks <==> SomeRowMakes(rows, b)
    decreases |rows|
  {
    hide Stored, FactsOf, MakesBlock, BlocksAfter, SomeRowMakes;
    if rows == [] {
      NoRows([], Attempt([]));
      NothingMakes(b);
    } else {
      var n := |rows| - 1;
      LastRow(rows);
      BlocksGrow(rows);
      BlocksRead(rows[..n], b);
      MakesSnoc(rows[..n], rows[n], b);
      AfterHolds(FactsOf(rows[..n]).blocks, FactsOf(rows).blocks, rows[..n], rows[n], b);
    }
  }

  lemma NothingMakes(b: Block)
    ensures !SomeRowMakes([], b)
  {
  }

  lemma OneBlock(rows: seq<Entry>, e: Entry, b: Block, c: Block)
    requires Stored(rows) && MakesBlock(rows, e, b) && MakesBlock(rows, e, c)
    ensures b == c
  {
    hide Stored, Refutes;
    if e.body.Check? {
      var n: Intent, q: Qualification, output: string :| Refutes(rows, e.body.of, n, q, output, e, b);
      var m: Intent, p: Qualification, other: string :| Refutes(rows, e.body.of, m, p, other, e, c);
      RefutesOnce(rows, e.body.of, n, q, output, m, p, other, e, b, c);
    }
  }

  lemma RefutesOnce(
      rows: seq<Entry>, i: Id, n: Intent, q: Qualification, output: string, m: Intent, p: Qualification, other: string,
      e: Entry, b: Block, c: Block)
    requires Stored(rows) && Refutes(rows, i, n, q, output, e, b) && Refutes(rows, i, m, p, other, e, c)
    ensures b == c
  {
    hide Stored, UsedSo, FactsOf, Artifact;
    OneAnswer(rows, i, n, output, Received);
    OneAnswer(rows, i, m, other, Received);
  }

  // ---- Which entry may follow.

  lemma BoundRead(rows: seq<Entry>, d: Digest)
    requires Stored(rows)
    ensures Resolves(FactsOf(rows), d) <==> Bound(rows, d)
  {
    hide Stored, FactsOf, HasBody;
    if d.OfQualification? { QualificationsRead(rows, d.qualification); }
  }

  lemma CostLegal(rows: seq<Entry>, e: Entry)
    requires Stored(rows) && (e.body.PayCost? || e.body.NoteCost?)
    ensures Linked(FactsOf(rows)) && (Apply(FactsOf(rows), e).Ok? <==> Legal(rows, e))
  {
    hide Stored, FactsOf, HasBody, Linked;
    StoredLinked(rows);
    var f, c := FactsOf(rows), e.body.cost;
    forall d: Cost ensures Paid(f, d) <==> HasBody(rows, PayCost(d))
      ensures d.id in f.costs && f.costs[d.id] == Booking(d, false) <==> HasBody(rows, NoteCost(d))
    {
      CostsRead(rows, d);
    }
    if c.id in f.costs {
      var b := f.costs[c.id];
      SettledCost(rows, c.id);
      assert if b.whole then HasBody(rows, PayCost(b.cost)) else HasBody(rows, NoteCost(b.cost));
    }
  }

  lemma SettledCost(rows: seq<Entry>, id: string)
    requires Stored(rows) && id in FactsOf(rows).costs
    ensures FactsOf(rows).costs[id].cost.id == id
  {
    hide Stored, FactsOf;
    StoredLinked(rows);
  }

  lemma RelianceLegal(rows: seq<Entry>, e: Entry)
    requires Stored(rows) && (e.body.Admit? || e.body.Expose? || e.body.Intend?)
    ensures Linked(FactsOf(rows)) && (Apply(FactsOf(rows), e).Ok? <==> Legal(rows, e))
  {
    hide Stored, FactsOf, HasBody, Linked, Bound, Costed, Resolves;
    StoredLinked(rows);
    match e.body
    case Admit(q) => forall c ensures Paid(FactsOf(rows), c) <==> HasBody(rows, PayCost(c)) { CostsRead(rows, c); }
    case Expose(d, _) => BoundRead(rows, d);
    case Intend(n) =>
      BoundRead(rows, n.qualification);
      CostedRead(rows, n.cost);
  }

  lemma IntendedRead(rows: seq<Entry>, i: Id)
    requires Stored(rows)
    ensures i in FactsOf(rows).intents <==> Intended(rows, i)
  {
    hide Stored, FactsOf, HasEntry;
    if i in FactsOf(rows).intents { IntentsRead(rows, i, FactsOf(rows).intents[i]); }
    if n: Intent :| HasEntry(rows, i, Intend(n)) { IntentsRead(rows, i, n); }
  }

  lemma ConcludedRead(rows: seq<Entry>, i: Id)
    requires Stored(rows)
    ensures i in FactsOf(rows).outcomes <==> Concluded(rows, i)
  {
    hide Stored, FactsOf, HasBody;
    if i in FactsOf(rows).outcomes {
      OutcomesRead(rows, i, FactsOf(rows).outcomes[i].output, FactsOf(rows).outcomes[i].status);
    }
    if output: string, status: Status :| HasBody(rows, Outcome(i, output, status)) {
      OutcomesRead(rows, i, output, status);
    }
  }

  lemma UseLegal(rows: seq<Entry>, e: Entry)
    requires Stored(rows) && (e.body.Attempt? || e.body.Outcome? || e.body.Reconcile?)
    ensures Linked(FactsOf(rows)) && (Apply(FactsOf(rows), e).Ok? <==> Legal(rows, e))
  {
    hide Stored, FactsOf, HasBody, Linked, Intended, Concluded;
    StoredLinked(rows);
    var i := e.body.of;
    IntendedRead(rows, i);
    AttemptsRead(rows, i, []);
    ConcludedRead(rows, i);
    ChecksRead(rows, i);
  }

  lemma MayCheckRead(f: Facts, e: Entry)
    requires Linked(f) && e.body.Check? && e.body.of in f.outcomes
    ensures Apply(f, e).Ok? <==>
      && e.body.checker == "normalize-checker-v1"
      && MayCheck(f.intents[e.body.of], f.outcomes[e.body.of].output, f.outcomes[e.body.of].status)
  {
    hide Passed, Artifact;
    PassedMeans(f.intents[e.body.of], f.outcomes[e.body.of]);
  }

  lemma CheckLegal(rows: seq<Entry>, e: Entry)
    requires Stored(rows) && e.body.Check?
    ensures Linked(FactsOf(rows)) && (Apply(FactsOf(rows), e).Ok? <==> Legal(rows, e))
  {
    hide Stored, FactsOf, UsedSo, MayCheck, Linked;
    StoredLinked(rows);
    var f, i := FactsOf(rows), e.body.of;
    if i in f.outcomes {
      RecordedAnswer(rows, i);
      MayCheckRead(f, e);
    }
    if n: Intent, output: string, status: Status :| UsedSo(rows, i, n, output, status) && MayCheck(n, output, status) {
      OneAnswer(rows, i, n, output, status);
    }
  }

  /** An entry applies to the state of stored rows exactly when the rows say so. */
  lemma LegalIff(rows: seq<Entry>, e: Entry)
    requires Stored(rows)
    ensures Linked(FactsOf(rows)) && (Apply(FactsOf(rows), e).Ok? <==> Legal(rows, e))
  {
    hide Stored, FactsOf, Linked;
    StoredLinked(rows);
    match e.body {
      case PayCost(_) => CostLegal(rows, e);
      case NoteCost(_) => CostLegal(rows, e);
      case Admit(_) => RelianceLegal(rows, e);
      case Expose(_, _) => RelianceLegal(rows, e);
      case Intend(_) => RelianceLegal(rows, e);
      case Attempt(_) => UseLegal(rows, e);
      case Outcome(_, _, _) => UseLegal(rows, e);
      case Reconcile(_) => UseLegal(rows, e);
      case Check(_, _) => CheckLegal(rows, e);
      case _ =>
    }
  }

  /** The entry has its place: valid fields, the rows before it as parent, an id of its own, and a legal body. */
  ghost predicate InPlace(rows: seq<Entry>, e: Entry) {
    ValidEntry(e) && e.previous == OfEntries(rows) && !HasRow(rows, e.id) && Legal(rows, e)
  }

  ghost predicate AllInPlace(rows: seq<Entry>) {
    forall k :: 0 <= k < |rows| ==> InPlace(rows[..k], rows[k])
  }

  /**
   A journal can be stored exactly when it has at most 256 entries, can be digested, and every entry has its
   place after the entries before it.
  */
  lemma {:induction false} StoredIff(rows: seq<Entry>)
    ensures Stored(rows) <==> |rows| <= 256 && FitsList(rows) && AllInPlace(rows)
    decreases |rows|
  {
    hide Stored, InPlace, FitsList;
    if rows == [] {
      EmptyStored();
      EmptyFits();
    } else {
      var n := |rows| - 1;
      var front, e := rows[..n], rows[n];
      assert rows == front + [e];
      StoredIff(front);
      assert forall k :: 0 <= k < n ==> front[..k] == rows[..k] && front[k] == rows[k];
      if Stored(rows) {
        LastRow(rows);
        StoredFront(front, e);
        LastInPlace(front, e);
      } else if |rows| <= 256 && FitsList(rows) && AllInPlace(rows) {
        FitsFront(front, e);
        assert InPlace(rows[..n], rows[n]);
        PlacedStored(front, e);
      }
    }
  }

  lemma EmptyFits()
    ensures FitsList([])
  {
    hide FitsList, Fold;
    EmptyStored();
    StoredFits([]);
  }

  lemma LastInPlace(front: seq<Entry>, e: Entry)
    requires Stored(front) && Stored(front + [e]) && e.previous == OfEntries(front) && !HasRow(front, e.id)
    ensures |front + [e]| <= 256 && FitsList(front + [e]) && InPlace(front, e)
  {
    hide Stored, FitsList, ValidEntry, HasRow, Legal, Apply;
    StoredFits(front + [e]);
    ExtendsIff(front, e);
    LegalIff(front, e);
  }

  lemma PlacedStored(front: seq<Entry>, e: Entry)
    requires Stored(front) && InPlace(front, e) && |front + [e]| <= 256 && FitsList(front + [e])
    ensures Stored(front + [e])
  {
    hide Stored, FitsList, ValidEntry, HasRow, Legal, Apply;
    LegalIff(front, e);
    ExtendsIff(front, e);
  }
}
