/**
 How uses end: every intent is served, refused or unresolved; every service is paid, attempted and
 answered with the normal form of its input; no answer, no resolution; one cost, one intent.
*/
module Settlement {
  import opened Models
  import opened Journal
  import opened Store
  import opened Chains
  import opened Eligibility
  import opened Runtime
  import opened Protocol
  import opened Uses
  import opened Safety
  import opened Revocation
  import Native

  // ---- Three ways for an intent to stand.

  predicate Served(f: Facts, i: Id) {
    i in f.services
  }

  /** Exactly one of three. */
  predicate OneOf(a: bool, b: bool, c: bool) {
    (a && !b && !c) || (!a && b && !c) || (!a && !b && c)
  }

  lemma PassedMeans(n: Intent, a: Answer)
    ensures Passed(n, a) <==> a.status == Received && a.output == Native.Normalized(n.input)
  {
    Native.CheckedIffNormalized(CheckedOperation(n, a));
  }

  lemma StandsOneWay(f: Facts, i: Id)
    requires Linked(f) && Judged(f) && Settled(f) && Whole(f) && i in f.intents
    ensures OneOf(Served(f, i), i in f.checked && RefusedAnswer(f, i), Unresolved(f, i))
  {
    hide Passed;
    if i in f.outcomes { PassedMeans(f.intents[i], f.outcomes[i]); }
  }

  lemma ServiceIsEarned(f: Facts, i: Id)
    requires Linked(f) && Judged(f) && Settled(f) && i in f.services
    ensures i in f.intents && i in f.attempts && i in f.outcomes
    ensures f.intents[i].cost in f.costs && f.costs[f.intents[i].cost].cost.id == f.intents[i].cost
    ensures f.outcomes[i] == Answer(Native.Normalized(f.intents[i].input), Received)
    ensures forall j, k :: 0 <= j < |f.services| && 0 <= k < |f.services| && f.services[j] == f.services[k] ==> j == k
  {
    hide Passed;
    PassedMeans(f.intents[i], f.outcomes[i]);
  }

  lemma InvOrder(rows: seq<Entry>)
    requires JournalInv(rows)
    ensures var f := FactsOf(rows); Linked(f) && Judged(f) && Settled(f) && Whole(f)
  {
    hide FactsOf, Stored, Guarded, CostBound, OneOpenPerScope, Whole, Linked, Judged, Settled;
    StoredLinked(rows);
  }

  /** In every run each intent is a service, a checked negative or unresolved, and only one of these. */
  lemma IntentTrichotomy(host: Host, actions: seq<Action>, sys: System, s: State, i: Id)
    requires Reached(host, actions, sys, s) && i in s.facts.intents
    ensures OneOf(Served(s.facts, i), i in s.facts.checked && RefusedAnswer(s.facts, i), Unresolved(s.facts, i))
  {
    hide *;
    ReachedInv(host, actions, sys, s);
    InvOrder(sys.rows);
    StandsOneWay(s.facts, i);
  }

  /**
   In every run each service is counted once and has a recorded cost, an attempt, and a received
   answer equal to the normal form of the input.
  */
  lemma ServicesAreEarned(host: Host, actions: seq<Action>, sys: System, s: State, i: Id)
    requires Reached(host, actions, sys, s) && i in s.facts.services
    ensures var f := s.facts;
      && i in f.intents && i in f.attempts && i in f.outcomes
      && f.intents[i].cost in f.costs
      && f.outcomes[i] == Answer(Native.Normalized(f.intents[i].input), Received)
      && forall j, k :: 0 <= j < |f.services| && 0 <= k < |f.services| && f.services[j] == f.services[k] ==> j == k
  {
    hide *;
    ReachedInv(host, actions, sys, s);
    InvOrder(sys.rows);
    ServiceIsEarned(s.facts, i);
  }

  // ---- No answer, no resolution.

  /** The tool timed out or its outcome is unknown. */
  predicate Unanswered(f: Facts, i: Id) {
    i in f.intents && i in f.outcomes && f.outcomes[i].status != Received
  }

  lemma UnansweredStays(f: Facts, g: Facts, i: Id)
    requires Unanswered(f, i) && Extends(f, g)
    ensures Unanswered(g, i) && g.intents[i] == f.intents[i]
  {
  }

  lemma UnansweredUnserved(f: Facts, i: Id)
    requires Linked(f) && Judged(f) && Settled(f) && Unanswered(f, i)
    ensures Unresolved(f, i) && !Served(f, i)
  {
    hide Passed;
    PassedMeans(f.intents[i], f.outcomes[i]);
  }

  /** A timeout or unknown outcome stays unresolved in every longer journal, whoever extends it. */
  lemma UnansweredForever(rows: seq<Entry>, s: State, later: seq<Entry>, t: State, i: Id)
    requires Replays(rows, s) && Replays(later, t) && rows <= later && Unanswered(s.facts, i)
    ensures Unresolved(t.facts, i) && !Served(t.facts, i)
  {
    hide *;
    ReplaysMeans(rows, s);
    ReplaysMeans(later, t);
    IntentsStay(rows, later);
    UnansweredStays(s.facts, t.facts, i);
    StoredLinked(later);
    UnansweredUnserved(t.facts, i);
  }

  lemma PendingFound(f: Facts, i: Id)
    requires Unresolved(f, i)
    ensures PendingInScope(f, f.intents[i].qualification, f.intents[i].input)
  {
  }

  /** And it keeps its qualification and input closed to every further use. */
  lemma UnansweredClosesScope(
      rows: seq<Entry>, s: State, later: seq<Entry>, t: State, i: Id, host: Host, profiles: Profiles, call: UseCall)
    requires Replays(rows, s) && Replays(later, t) && rows <= later && Unanswered(s.facts, i)
    requires i in s.facts.intents
    requires call.qualification == s.facts.intents[i].qualification && call.input == s.facts.intents[i].input
    ensures !ReserveRows(later, host, profiles, call).Reserved?
  {
    hide *;
    ReplaysMeans(rows, s);
    ReplaysMeans(later, t);
    IntentsStay(rows, later);
    UnansweredStays(s.facts, t.facts, i);
    UnansweredForever(rows, s, later, t, i);
    PendingFound(t.facts, i);
    if ReserveRows(later, host, profiles, call).Reserved? { ReserveShape(later, host, profiles, call); }
  }

  // ---- One cost, one intent.

  predicate IntentAt(rows: seq<Entry>, k: nat, i: Id, n: Intent) {
    k < |rows| && rows[k].id == i && rows[k].body == Intend(n)
  }

  lemma ApplyIntentOrigin(f: Facts, e: Entry, i: Id)
    requires Linked(f) && Apply(f, e).Ok? && i in Apply(f, e).value.intents
    ensures (i in f.intents && f.intents[i] == Apply(f, e).value.intents[i])
            || (e.id == i && e.body == Intend(Apply(f, e).value.intents[i]))
  {
    hide Apply;
    ApplyIntents(f, e);
  }

  /** Every recorded intent is an entry of the journal. */
  lemma {:induction false} IntentOrigin(rows: seq<Entry>, i: Id)
    requires Stored(rows) && i in FactsOf(rows).intents
    ensures exists k: nat :: IntentAt(rows, k, i, FactsOf(rows).intents[i])
    decreases |rows|
  {
    hide FactsOf, Stored, Apply;
    if rows == [] {
      EmptyFacts();
    } else {
      var n := |rows| - 1;
      var f := FactsOf(rows[..n]);
      assert rows == rows[..n] + [rows[n]];
      StoredFront(rows[..n], rows[n]);
      ApplyIntentOrigin(f, rows[n], i);
      if i in f.intents && f.intents[i] == FactsOf(rows).intents[i] {
        IntentOrigin(rows[..n], i);
        var k: nat :| IntentAt(rows[..n], k, i, f.intents[i]);
        assert IntentAt(rows, k, i, FactsOf(rows).intents[i]);
      } else {
        assert IntentAt(rows, n, i, FactsOf(rows).intents[i]);
      }
    }
  }

  lemma EmptyFacts()
    ensures FactsOf([]).intents == map[] && FactsOf([]).qualifications == []
  {
    EmptyStored();
  }

  lemma StoredIdsDistinct(rows: seq<Entry>, j: nat, k: nat)
    requires Stored(rows) && j < |rows| && k < |rows| && rows[j].id == rows[k].id
    ensures j == k
  {
  }

  lemma ApplyPays(f: Facts, e: Entry)
    requires Linked(f) && e.body.PayCost? && Apply(f, e).Ok?
    ensures Paid(Apply(f, e).value, e.body.cost)
  {
  }

  lemma PaidStays(f: Facts, g: Facts, c: Cost)
    requires Paid(f, c) && Extends(f, g)
    ensures Paid(g, c)
  {
  }

  /** A cost entry is on record from then on. */
  lemma CostPaid(rows: seq<Entry>, k: nat)
    requires Stored(rows) && k < |rows| && rows[k].body.PayCost?
    ensures Paid(FactsOf(rows), rows[k].body.cost)
  {
    hide *;
    StoredAt(rows, k);
    ApplyPays(FactsOf(rows[..k]), rows[k]);
    FactsGrow(rows, k + 1, |rows|);
    assert rows[..|rows|] == rows;
    PaidStays(FactsOf(rows[..k + 1]), FactsOf(rows), rows[k].body.cost);
  }

  lemma SamePaid(f: Facts, c: Cost, d: Cost)
    requires Paid(f, c) && Paid(f, d) && c.id == d.id
    ensures c == d
  {
  }

  lemma CostBefore(rows: seq<Entry>, k: nat)
    requires JournalInv(rows) && k < |rows| && rows[k].body.Intend?
    ensures k > 0 && PaysFor(rows[k - 1], rows[k])
  {
    hide Stored, FactsOf, Guarded, Whole, OneOpenPerScope, PaysFor;
  }

  lemma SameCostSamePlace(rows: seq<Entry>, j: nat, k: nat)
    requires JournalInv(rows) && j < |rows| && k < |rows| && rows[j].body.Intend? && rows[k].body.Intend?
    requires rows[j].body.intent.cost == rows[k].body.intent.cost
    ensures j == k
  {
    hide JournalInv, FactsOf, Paid, Stored;
    InvStored(rows);
    CostBefore(rows, j);
    CostBefore(rows, k);
    CostPaid(rows, j - 1);
    CostPaid(rows, k - 1);
    SamePaid(FactsOf(rows), rows[j - 1].body.cost, rows[k - 1].body.cost);
    StoredIdsDistinct(rows, j - 1, k - 1);
  }

  lemma SameCostSameIntent(rows: seq<Entry>, i: Id, j: Id)
    requires JournalInv(rows)
    requires i in FactsOf(rows).intents && j in FactsOf(rows).intents
    requires FactsOf(rows).intents[i].cost == FactsOf(rows).intents[j].cost
    ensures i == j
  {
    hide JournalInv, FactsOf, Stored;
    InvStored(rows);
    IntentOrigin(rows, i);
    IntentOrigin(rows, j);
    var k: nat :| IntentAt(rows, k, i, FactsOf(rows).intents[i]);
    var l: nat :| IntentAt(rows, l, j, FactsOf(rows).intents[j]);
    SameCostSamePlace(rows, k, l);
  }

  /** In every run distinct intents refer to distinct costs. */
  lemma DistinctIntentsDistinctCosts(host: Host, actions: seq<Action>, sys: System, s: State, i: Id, j: Id)
    requires Reached(host, actions, sys, s)
    requires i in s.facts.intents && j in s.facts.intents && s.facts.intents[i].cost == s.facts.intents[j].cost
    ensures i == j
  {
    hide *;
    ReachedInv(host, actions, sys, s);
    SameCostSameIntent(sys.rows, i, j);
  }

  lemma NewIntent(rows: seq<Entry>, batch: seq<Entry>, call: UseCall)
    requires |batch| == 2 && batch[1].body == Intend(IntentOf(call)) && batch[1].id == call.identity
    requires Stored(rows + batch)
    ensures call.identity in FactsOf(rows + batch).intents
    ensures FactsOf(rows + batch).intents[call.identity] == IntentOf(call)
  {
    hide FactsOf, Stored, IntentOf;
    var all := rows + batch;
    assert all[|all| - 1] == batch[1];
    LastIntentKnown(all);
  }

  lemma ReservedRows(rows: seq<Entry>, host: Host, profiles: Profiles, call: UseCall)
    requires JournalInv(rows) && ReserveRows(rows, host, profiles, call).Reserved?
    ensures var r := ReserveRows(rows, host, profiles, call);
      && Stored(rows) && Stored(r.rows) && JournalInv(r.rows) && rows <= r.rows
      && call.identity !in FactsOf(rows).intents
      && call.identity in FactsOf(r.rows).intents && FactsOf(r.rows).intents[call.identity] == IntentOf(call)
      && Paid(FactsOf(r.rows), call.cost)
  {
    hide *;
    InvStored(rows);
    ReserveShape(rows, host, profiles, call);
    ReserveKeeps(rows, host, profiles, call);
    var batch := ReserveBatch(rows, call).value;
    ReserveBatchShape(rows, call);
    AppendChained(rows, batch, call.expected);
    NewIntent(rows, batch, call);
    assert (rows + batch)[|rows|] == batch[0];
    CostPaid(rows + batch, |rows|);
  }

  lemma IntentsKept(f: Facts, g: Facts, i: Id)
    requires Extends(f, g) && i in f.intents
    ensures i in g.intents && g.intents[i] == f.intents[i]
  {
  }

  lemma IntentCost(call: UseCall)
    ensures IntentOf(call).cost == call.cost.id
  {
  }

  /** The cost of one use never pays for another: a reservation that names it again is refused. */
  lemma SpentCostRefused(
      host: Host, actions: seq<Action>, sys: System, s: State, i: Id, now: Host, profiles: Profiles, call: UseCall)
    requires Reached(host, actions, sys, s)
    requires i in s.facts.intents && s.facts.intents[i].cost == call.cost.id && call.identity != i
    ensures !ReserveRows(sys.rows, now, profiles, call).Reserved?
  {
    hide *;
    var rows := sys.rows;
    ReachedInv(host, actions, sys, s);
    var r := ReserveRows(rows, now, profiles, call);
    if r.Reserved? {
      ReservedRows(rows, now, profiles, call);
      IntentsStay(rows, r.rows);
      IntentsKept(s.facts, FactsOf(r.rows), i);
      IntentCost(call);
      SameCostSameIntent(r.rows, i, call.identity);
    }
  }

  // ---- Retries.

  /** The same call made again on later rows, at whatever time and revision. */
  function Again(call: UseCall, rows: seq<Entry>, now: int): UseCall {
    call.(expected := OfEntries(rows), now := now)
  }

  lemma RetryDuplicate(later: seq<Entry>, host: Host, profiles: Profiles, call: UseCall, now: int)
    requires Stored(later) && Readable(later) && call.admissible && call.cost.stage == Use
    requires call.identity in FactsOf(later).intents
    requires SameUse(FactsOf(later), call)
    ensures ReserveRows(later, host, profiles, Again(call, later, now)) ==
            Duplicate(call.identity in FactsOf(later).services)
  {
    hide Readable, Replay, MayReserve, Append;
  }

  lemma SameUseKept(f: Facts, g: Facts, call: UseCall)
    requires Extends(f, g) && call.identity in f.intents && f.intents[call.identity] == IntentOf(call)
      && Paid(f, call.cost)
    ensures call.identity in g.intents && SameUse(g, call)
  {
  }

  lemma StoredReadable(rows: seq<Entry>)
    requires Stored(rows)
    ensures Readable(rows)
  {
    ReplayReadable(rows);
  }

  lemma ReservedAdmissible(rows: seq<Entry>, host: Host, profiles: Profiles, call: UseCall)
    requires ReserveRows(rows, host, profiles, call).Reserved?
    ensures call.admissible && call.cost.stage == Use
  {
  }

  /**
   An identical retry of a reserved use is a duplicate on every longer journal, for every host,
   registry and clock: it appends nothing and reports whether the use became a service.
  */
  lemma RetryIsDuplicate(
      rows: seq<Entry>, host: Host, profiles: Profiles, call: UseCall, later: seq<Entry>, host': Host,
      profiles': Profiles, now: int)
    requires JournalInv(rows) && ReserveRows(rows, host, profiles, call).Reserved?
    requires Stored(later) && ReserveRows(rows, host, profiles, call).rows <= later
    ensures ReserveRows(later, host', profiles', Again(call, later, now)) ==
            Duplicate(call.identity in FactsOf(later).services)
  {
    hide *;
    var r := ReserveRows(rows, host, profiles, call);
    ReservedRows(rows, host, profiles, call);
    ReservedAdmissible(rows, host, profiles, call);
    IntentsStay(r.rows, later);
    SameUseKept(FactsOf(r.rows), FactsOf(later), call);
    StoredReadable(later);
    RetryDuplicate(later, host', profiles', call, now);
  }

  // ---- Revisions.

  /** Revisions never come back: between two moments with the same revision nothing was appended. */
  lemma NoRevisionReturns(host: Host, actions: seq<Action>, more: seq<Action>, rest: seq<Action>)
    requires OfEntries(Run(host, actions).rows) == OfEntries(Run(host, actions + more + rest).rows)
    ensures Run(host, actions + more).rows == Run(host, actions).rows
  {
    hide Run;
    RunGrows(host, actions, more);
    RunGrows(host, actions + more, rest);
  }
}
