/** What the two transactions of a use keep of the journal, and what they record. */
module Uses {
  import opened Models
  import opened Journal
  import opened Store
  import opened Chains
  import opened Eligibility
  import opened Runtime
  import opened Protocol
  import opened Steps

  // ---- Reservation.

  lemma ReserveBatchShape(rows: seq<Entry>, call: UseCall)
    requires ReserveBatch(rows, call).Ok?
    ensures var batch := ReserveBatch(rows, call).value;
      && |batch| == 2
      && batch[0].body == PayCost(call.cost) && batch[0].id == UseCostEventId(call.cost)
      && batch[1].body == Intend(IntentOf(call)) && batch[1].id == call.identity
      && Chained(rows, batch)
  {
    hide Replay, Event, Chained;
    var pay := Event(PayCost(call.cost), UseCostEventId(call.cost), call.now, rows).value;
    SingleChained(rows, PayCost(call.cost), UseCostEventId(call.cost), call.now);
    EventBody(PayCost(call.cost), UseCostEventId(call.cost), call.now, rows);
    ChainedSnoc(rows, [pay], Intend(IntentOf(call)), call.identity, call.now);
    EventBody(Intend(IntentOf(call)), call.identity, call.now, rows + [pay]);
    assert ReserveBatch(rows, call).value == [pay] + [ReserveBatch(rows, call).value[1]];
  }

  /** Appending a cost and the intent it pays keeps every scope at one open intent. */
  lemma IntentKeepsUses(f: Facts, g: Facts, id: Id, n: Intent)
    requires Whole(f) && OneOpenPerScope(f) && Linked(f)
    requires g.intents == f.intents[id := n] && id !in f.intents
    requires g.attempts == f.attempts && g.outcomes == f.outcomes && g.checked == f.checked && g.services == f.services
    requires !PendingInScope(f, n.qualification, n.input)
    ensures Whole(g) && OneOpenPerScope(g)
  {
    forall i, j | i in g.intents && j in g.intents && Unresolved(g, i) && Unresolved(g, j) && SameScope(g, i, j)
      ensures i == j
    {
      if i != id && j != id {
        assert SameScope(f, i, j);
      }
    }
  }

  lemma ApplyIntend(f: Facts, e: Entry)
    requires Linked(f) && e.body.Intend? && Apply(f, e).Ok?
    ensures var g := Apply(f, e).value;
      && g.intents == f.intents[e.id := e.body.intent]
      && g.attempts == f.attempts && g.outcomes == f.outcomes && g.checked == f.checked && g.services == f.services
  {
  }

  lemma ReservedJournal(rows: seq<Entry>, pay: Entry, intend: Entry)
    requires JournalInv(rows) && Stored(rows + [pay, intend])
    requires pay.body.PayCost? && pay.id == UseCostEventId(pay.body.cost)
    requires intend.body.Intend? && intend.body.intent.cost == pay.body.cost.id
    requires intend.id !in FactsOf(rows).intents
    requires !PendingInScope(FactsOf(rows), intend.body.intent.qualification, intend.body.intent.input)
    requires OpenRef(FactsOf(rows), intend.body.intent.qualification, intend.body.intent.input)
    ensures JournalInv(rows + [pay, intend]) && SameOutcomes(FactsOf(rows), FactsOf(rows + [pay, intend]))
    ensures intend.id in FactsOf(rows + [pay, intend]).intents
  {
    hide Replay, Guard, FactsOf, Guarded, CostBound, Stored, Open, PendingInScope, OneOpenPerScope, Whole;
    var paid := rows + [pay];
    var batch := [pay, intend];
    assert rows + batch == paid + [intend];
    StoredFront(paid, intend);
    QuietBatch(rows, [pay]);
    ReservedGuards(rows, pay, intend);
    GuardedBatch(rows, batch);
    CostBoundBatch(rows, batch);
    ApplyIntend(FactsOf(paid), intend);
    StoredFront(rows, pay);
    IntentKeepsUses(FactsOf(rows), FactsOf(paid + [intend]), intend.id, intend.body.intent);
  }

  lemma ReservedGuards(rows: seq<Entry>, pay: Entry, intend: Entry)
    requires pay.body.PayCost? && intend.body.Intend?
    requires SameRevocations(FactsOf(rows), FactsOf(rows + [pay]))
    requires OpenRef(FactsOf(rows), intend.body.intent.qualification, intend.body.intent.input)
    ensures BatchGuarded(rows, [pay, intend])
  {
    hide Replay;
    var n := intend.body.intent;
    OpenFrame(FactsOf(rows), FactsOf(rows + [pay]), n.qualification.qualification, n.input);
    assert [pay, intend][..1] == [pay];
  }

  /** A reservation that goes through: what was checked, and what was appended. */
  lemma ReserveShape(rows: seq<Entry>, host: Host, profiles: Profiles, call: UseCall)
    requires Stored(rows) && ReserveRows(rows, host, profiles, call).Reserved?
    ensures ReserveBatch(rows, call).Ok? && Append(rows, ReserveBatch(rows, call).value, call.expected).Ok?
    ensures call.qualification.OfQualification?
    ensures !PendingInScope(FactsOf(rows), call.qualification, call.input)
    ensures OpenRef(FactsOf(rows), call.qualification, call.input)
    ensures call.identity !in FactsOf(rows).intents
    ensures var a := Append(rows, ReserveBatch(rows, call).value, call.expected).value;
      var r := ReserveRows(rows, host, profiles, call);
      && r.rows == a.rows
      && r.ticket.identity == call.identity && r.ticket.q == call.qualification.qualification
      && r.ticket.input == call.input && r.ticket.reserved == a.revision
  {
    hide Replay, Append, ReserveBatch, Readable, Eligible, PendingInScope;
    var q := call.qualification.qualification;
    EligibleOpen(host, q, profiles[q.context.receiver], call.input, call.now, FactsOf(rows));
  }

  lemma ReserveKeeps(rows: seq<Entry>, host: Host, profiles: Profiles, call: UseCall)
    requires JournalInv(rows) && ReserveRows(rows, host, profiles, call).Reserved?
    ensures var r := ReserveRows(rows, host, profiles, call);
      && rows <= r.rows && JournalInv(r.rows) && SameOutcomes(FactsOf(rows), FactsOf(r.rows))
      && r.ticket.identity !in FactsOf(rows).intents
      && TicketInv(r.rows, r.ticket)
  {
    hide *;
    assert Stored(rows) by { InvStored(rows); }
    ReserveShape(rows, host, profiles, call);
    var batch := ReserveBatch(rows, call).value;
    ReserveBatchShape(rows, call);
    AppendChained(rows, batch, call.expected);
    assert batch == [batch[0], batch[1]];
    var n := IntentOf(call);
    assert n.qualification == call.qualification && n.input == call.input && n.cost == call.cost.id
      by { IntentFields(call); }
    ReservedJournal(rows, batch[0], batch[1]);
    ReservedTicket(rows + batch, ReserveRows(rows, host, profiles, call).ticket, n);
  }

  lemma InvStored(rows: seq<Entry>)
    requires JournalInv(rows)
    ensures Stored(rows)
  {
  }

  lemma IntentFields(call: UseCall)
    ensures var n := IntentOf(call);
      n.qualification == call.qualification && n.input == call.input && n.cost == call.cost.id
  {
  }

  lemma ReservedTicket(rows: seq<Entry>, t: Ticket, n: Intent)
    requires rows != [] && rows[|rows| - 1].body == Intend(n) && rows[|rows| - 1].id == t.identity
    requires n.qualification == OfQualification(t.q) && n.input == t.input
    requires t.reserved == OfEntries(rows) && t.identity in FactsOf(rows).intents
    ensures TicketInv(rows, t)
  {
    hide FactsOf;
  }

  // ---- Execution.

  /** The four records of one use. */
  predicate UseBatch(batch: seq<Entry>, i: Id, a: Answer) {
    && |batch| == 4
    && batch[0].body == Attempt(i)
    && batch[1].body == Outcome(i, a.output, a.status)
    && batch[2].body == Check(i, CHECKER)
    && batch[3].body == Reconcile(i)
  }

  lemma ClosingBatchShape(rows: seq<Entry>, t: Ticket, result: ToolResult)
    requires Event(Attempt(t.identity), t.identity + Text("-attempt"), t.now, rows).Ok?
    requires ClosingBatch(rows, Event(Attempt(t.identity), t.identity + Text("-attempt"), t.now, rows).value, t,
                          result).Ok?
    ensures var attempt := Event(Attempt(t.identity), t.identity + Text("-attempt"), t.now, rows).value;
      var batch := ClosingBatch(rows, attempt, t, result).value;
      UseBatch(batch, t.identity, AnswerOf(result)) && Chained(rows, batch)
  {
    hide Replay, Event, Chained;
    var i := t.identity;
    var attempt := Event(Attempt(i), i + Text("-attempt"), t.now, rows).value;
    var batch := ClosingBatch(rows, attempt, t, result).value;
    SingleChained(rows, Attempt(i), i + Text("-attempt"), t.now);
    EventBody(Attempt(i), i + Text("-attempt"), t.now, rows);
    ChainedSnoc(rows, [attempt], OutcomeBody(i, result), i + Text("-outcome"), t.now);
    EventBody(OutcomeBody(i, result), i + Text("-outcome"), t.now, rows + [attempt]);
    var two := [attempt, batch[1]];
    assert two == [attempt] + [batch[1]];
    ChainedSnoc(rows, two, Check(i, CHECKER), i + Text("-check"), t.now);
    EventBody(Check(i, CHECKER), i + Text("-check"), t.now, rows + two);
    var three := [attempt, batch[1], batch[2]];
    assert three == two + [batch[2]];
    ChainedSnoc(rows, three, Reconcile(i), i + Text("-reconcile"), t.now);
    EventBody(Reconcile(i), i + Text("-reconcile"), t.now, rows + three);
    assert batch == three + [batch[3]];
  }

  lemma ApplyAttemptShape(f: Facts, e: Entry, i: Id)
    requires Linked(f) && e.body == Attempt(i) && Apply(f, e).Ok?
    ensures i in f.intents && i !in f.attempts
    ensures Apply(f, e).value == f.(attempts := f.attempts[i := e.id])
  {
  }

  lemma ApplyOutcomeShape(f: Facts, e: Entry, i: Id, a: Answer)
    requires Linked(f) && e.body == Outcome(i, a.output, a.status) && Apply(f, e).Ok?
    ensures Apply(f, e).value == f.(outcomes := f.outcomes[i := a])
  {
  }

  lemma ApplyCheckShape(f: Facts, e: Entry, i: Id)
    requires Linked(f) && e.body == Check(i, CHECKER) && Apply(f, e).Ok?
    ensures i in f.outcomes && i in f.intents
    ensures var g := Apply(f, e).value;
      g == f.(checked := f.checked[i := Passed(f.intents[i], f.outcomes[i])], blocks := g.blocks)
  {
    CheckShape(f, e, i, CHECKER);
  }

  lemma ApplyReconcileShape(f: Facts, e: Entry, i: Id)
    requires Linked(f) && e.body == Reconcile(i) && Apply(f, e).Ok?
    ensures i in f.checked
    ensures Apply(f, e).value ==
      f.(services := if f.checked[i] && i !in f.services then f.services + [i] else f.services)
  {
  }

  /** The facts after the four records of a use, blocks apart. */
  predicate Recorded(f: Facts, g: Facts, i: Id, a: Answer) {
    && i in f.intents && i !in f.attempts
    && var passed := Passed(f.intents[i], a);
      && g.intents == f.intents
      && g.attempts.Keys == f.attempts.Keys + {i}
      && g.outcomes == f.outcomes[i := a]
      && g.checked == f.checked[i := passed]
      && g.services == (if passed && i !in f.services then f.services + [i] else f.services)
  }

  lemma StoredIn(rows: seq<Entry>, batch: seq<Entry>, k: nat)
    requires Stored(rows + batch) && k < |batch|
    ensures Linked(FactsOf(rows + batch[..k])) && Apply(FactsOf(rows + batch[..k]), batch[k]).Ok?
    ensures FactsOf(rows + batch[..k + 1]) == Apply(FactsOf(rows + batch[..k]), batch[k]).value
  {
    hide *;
    var all := rows + batch;
    assert all[..|rows| + k] == rows + batch[..k];
    assert all[..|rows| + k + 1] == rows + batch[..k + 1];
    StoredAt(all, |rows| + k);
  }

  lemma UseRecorded(rows: seq<Entry>, batch: seq<Entry>, i: Id, a: Answer)
    requires Stored(rows + batch) && UseBatch(batch, i, a)
    ensures Recorded(FactsOf(rows), FactsOf(rows + batch), i, a)
  {
    hide Replay, Apply, FactsOf, Passed, Linked, Stored;
    assert rows + batch[..0] == rows && batch[..4] == batch;
    StoredIn(rows, batch, 0);
    ApplyAttemptShape(FactsOf(rows + batch[..0]), batch[0], i);
    StoredIn(rows, batch, 1);
    ApplyOutcomeShape(FactsOf(rows + batch[..1]), batch[1], i, a);
    StoredIn(rows, batch, 2);
    ApplyCheckShape(FactsOf(rows + batch[..2]), batch[2], i);
    StoredIn(rows, batch, 3);
    ApplyReconcileShape(FactsOf(rows + batch[..3]), batch[3], i);
  }

  lemma RecordedKeepsUses(f: Facts, g: Facts, i: Id, a: Answer)
    requires Whole(f) && OneOpenPerScope(f) && Linked(f) && Linked(g) && Recorded(f, g, i, a)
    ensures Whole(g) && OneOpenPerScope(g)
  {
    hide Passed;
    forall j, k | j in g.intents && k in g.intents && Unresolved(g, j) && Unresolved(g, k) && SameScope(g, j, k)
      ensures j == k
    {
      assert Unresolved(f, j) && Unresolved(f, k) && SameScope(f, j, k);
    }
  }

  lemma UseGuards(rows: seq<Entry>, batch: seq<Entry>, i: Id, a: Answer)
    requires UseBatch(batch, i, a)
    requires i in FactsOf(rows).intents
    requires OpenRef(FactsOf(rows), FactsOf(rows).intents[i].qualification, FactsOf(rows).intents[i].input)
    ensures BatchGuarded(rows, batch)
  {
    hide Replay, FactsOf;
    assert rows + batch[..0] == rows;
  }

  lemma ExecutedJournal(rows: seq<Entry>, batch: seq<Entry>, i: Id, a: Answer)
    requires JournalInv(rows) && Stored(rows + batch) && UseBatch(batch, i, a)
    requires i in FactsOf(rows).intents
    requires OpenRef(FactsOf(rows), FactsOf(rows).intents[i].qualification, FactsOf(rows).intents[i].input)
    ensures JournalInv(rows + batch)
    ensures Recorded(FactsOf(rows), FactsOf(rows + batch), i, a)
  {
    hide Replay, Guard, FactsOf, Guarded, Passed, OpenRef, CostBound, Stored, Recorded, Whole, OneOpenPerScope, Linked;
    UseRecorded(rows, batch, i, a);
    StoredLinked(rows);
    StoredLinked(rows + batch);
    RecordedKeepsUses(FactsOf(rows), FactsOf(rows + batch), i, a);
    UseGuards(rows, batch, i, a);
    GuardedBatch(rows, batch);
    CostBoundBatch(rows, batch);
  }

  /** The last row being an intent, the state knows it as recorded. */
  lemma LastIntentKnown(rows: seq<Entry>)
    requires Stored(rows) && rows != [] && rows[|rows| - 1].body.Intend?
    ensures var last := rows[|rows| - 1];
      last.id in FactsOf(rows).intents && FactsOf(rows).intents[last.id] == last.body.intent
  {
    hide Replay, FactsOf;
    var n := |rows| - 1;
    assert rows == rows[..n] + [rows[n]];
    StoredFront(rows[..n], rows[n]);
    ApplyIntend(FactsOf(rows[..n]), rows[n]);
  }

  /** When the fence holds, the rows are those the reservation left. */
  lemma FencedRows(rows: seq<Entry>, host: Host, t: Ticket)
    requires Stored(rows) && HoldsIntent(t) && FenceHolds(host, t, Replay(rows).value)
    ensures rows == t.reserved.entries
    ensures t.identity in FactsOf(rows).intents
    ensures var n := FactsOf(rows).intents[t.identity];
      n.qualification == OfQualification(t.q) && n.input == t.input && OpenRef(FactsOf(rows), n.qualification, n.input)
    ensures Eligible(host, t.q, t.context, t.input, t.now, FactsOf(rows))
  {
    hide Eligible, Replay;
    LastIntentKnown(rows);
    EligibleOpen(host, t.q, t.context, t.input, t.now, FactsOf(rows));
  }

  lemma ExecuteKeeps(rows: seq<Entry>, host: Host, t: Ticket, result: ToolResult)
    requires JournalInv(rows) && HoldsIntent(t)
    requires ExecuteRows(rows, host, t, result).Ran?
    ensures rows == t.reserved.entries
    ensures Eligible(host, t.q, t.context, t.input, t.now, FactsOf(rows))
    ensures var c := ExecuteRows(rows, host, t, result).committed;
      c.Ok? ==> !result.Raises? && rows <= c.value.rows && JournalInv(c.value.rows)
                && Recorded(FactsOf(rows), FactsOf(c.value.rows), t.identity, AnswerOf(result))
  {
    hide Replay, Append, ClosingBatch, Guarded, CostBound, Whole, OneOpenPerScope, Guard, Readable, Chained, Event,
      Eligible, FenceHolds, OpenRef, Recorded, HoldsIntent, UseBatch, FactsOf;
    FencedRows(rows, host, t);
    if ExecuteRows(rows, host, t, result).committed.Ok? {
      var attempt := Event(Attempt(t.identity), t.identity + Text("-attempt"), t.now, rows).value;
      var batch := ClosingBatch(rows, attempt, t, result).value;
      ClosingBatchShape(rows, t, result);
      AppendChained(rows, batch, t.reserved);
      ExecutedJournal(rows, batch, t.identity, AnswerOf(result));
    }
  }
}
