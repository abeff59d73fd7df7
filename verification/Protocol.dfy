/**
 Every interleaving of any number of callers: admissions, host records, exposures and two-phase uses,
 with a crash allowed at any point and a host that may change its legacy state between transactions.
*/
module Protocol {
  import opened Basics
  import opened Models
  import opened Journal
  import opened Store
  import opened Chains
  import opened Eligibility
  import opened Retrieval
  import opened Runtime

  /** A call of the tool: whose use it was, the committed rows at that moment, and what it came to. */
  datatype Invocation = Invocation(ticket: Ticket, rows: seq<Entry>, host: Host, result: ToolResult)

  /** `pending` are the uses between their two transactions; `invoked` is the log of tool calls. */
  datatype System = System(rows: seq<Entry>, host: Host, pending: set<Ticket>, invoked: seq<Invocation>)

  datatype Action =
    | HostChanges(host: Host)
    | Admission(profiles: Profiles, q: Qualification, now: int, expected: Digest)
    | HostRecord(body: Body, id: Id, now: int, expected: Digest)
    | Exposing(profiles: Profiles, receiver: string, input: string, now: int, query: Query, views: seq<View>)
    | Reserving(profiles: Profiles, call: UseCall)
    | Executing(ticket: Ticket, result: ToolResult, crash: bool)
    | Crashing(ticket: Ticket)

  function Start(host: Host): System {
    System([], host, {}, [])
  }

  ghost function Commit(sys: System, r: Result<Appended>): System {
    if r.Ok? then sys.(rows := r.value.rows) else sys
  }

  /** A crash inside a transaction loses its records; a tool call before the crash still happened. */
  ghost function Execute(sys: System, t: Ticket, result: ToolResult, crash: bool): System {
    var gone := sys.(pending := sys.pending - {t});
    match ExecuteRows(sys.rows, sys.host, t, result)
    case Fenced => gone
    case Ran(committed) =>
      var called := gone.(invoked := sys.invoked + [Invocation(t, sys.rows, sys.host, result)]);
      if crash then called else Commit(called, committed)
  }

  ghost function Next(sys: System, a: Action): System {
    match a
    case HostChanges(host) => sys.(host := host)
    case Admission(profiles, q, now, expected) =>
      Commit(sys, AdmitRows(sys.rows, sys.host, profiles, q, now, expected))
    case HostRecord(body, id, now, expected) =>
      Commit(sys, RecordRows(sys.rows, body, id, now, expected))
    case Exposing(profiles, receiver, input, now, query, views) =>
      Commit(sys, RunRows(sys.rows, sys.host, profiles, receiver, input, now, query, views))
    case Reserving(profiles, call) =>
      var r := ReserveRows(sys.rows, sys.host, profiles, call);
      if r.Reserved? then sys.(rows := r.rows, pending := sys.pending + {r.ticket}) else sys
    case Executing(ticket, result, crash) =>
      if ticket in sys.pending then Execute(sys, ticket, result, crash) else sys
    case Crashing(ticket) => sys.(pending := sys.pending - {ticket})
  }

  /** The system after a run of actions, last action last. */
  ghost function Run(host: Host, actions: seq<Action>): System {
    if actions == [] then Start(host)
    else Next(Run(host, actions[..|actions| - 1]), actions[|actions| - 1])
  }

  ghost predicate IsRun(sys: System, host: Host, actions: seq<Action>) {
    sys == Run(host, actions)
  }

  /** The system after the run, and the state that its rows replay to. */
  ghost predicate Reached(host: Host, actions: seq<Action>, sys: System, s: State) {
    forall r: System :: IsRun(r, host, actions) ==> r == sys && Replays(r.rows, s)
  }

  // ---- What the journal keeps.

  /** No dependency of the qualification is withdrawn and no block covers the input. */
  predicate Open(f: Facts, q: Qualification, input: string) {
    !Withdrawn(f, q.context) && !Blocked(f, q, q.context, input)
  }

  predicate OpenRef(f: Facts, d: Digest, input: string) {
    d.OfQualification? && Open(f, d.qualification, input)
  }

  /** What was checked, on the state before it, of an entry that relies on a qualification. */
  predicate Guard(f: Facts, e: Entry) {
    match e.body
    case Admit(q) => forall i :: 0 <= i < |q.context.inputs| ==> Open(f, q, q.context.inputs[i])
    case Expose(d, input) => OpenRef(f, d, input)
    case Intend(n) => OpenRef(f, n.qualification, n.input)
    case Attempt(i) => i in f.intents && OpenRef(f, f.intents[i].qualification, f.intents[i].input)
    case _ => true
  }

  ghost predicate Guarded(rows: seq<Entry>) {
    forall k :: 0 <= k < |rows| ==> Guard(FactsOf(rows[..k]), rows[k])
  }

  /** Uses are recorded whole: attempted, answered and checked go together, and what passed is a service. */
  predicate Whole(f: Facts) {
    && f.attempts.Keys == f.outcomes.Keys == f.checked.Keys
    && forall i :: i in f.checked && f.checked[i] ==> i in f.services
  }

  predicate SameScope(f: Facts, i: Id, j: Id)
    requires i in f.intents && j in f.intents
  {
    f.intents[i].qualification == f.intents[j].qualification && f.intents[i].input == f.intents[j].input
  }

  predicate OneOpenPerScope(f: Facts) {
    forall i, j :: i in f.intents && j in f.intents && Unresolved(f, i) && Unresolved(f, j) && SameScope(f, i, j) ==>
      i == j
  }

  /** The entry right before an intent pays its cost, under the id that belongs to that cost. */
  predicate PaysFor(pay: Entry, e: Entry) {
    e.body.Intend? ==>
      pay.body.PayCost? && pay.id == UseCostEventId(pay.body.cost) && e.body.intent.cost == pay.body.cost.id
  }

  predicate CostBound(rows: seq<Entry>) {
    forall k :: 0 <= k < |rows| && rows[k].body.Intend? ==> k > 0 && PaysFor(rows[k - 1], rows[k])
  }

  ghost predicate JournalInv(rows: seq<Entry>) {
    && Stored(rows)
    && Guarded(rows)
    && CostBound(rows)
    && Whole(FactsOf(rows))
    && OneOpenPerScope(FactsOf(rows))
  }

  /** The reservation a ticket holds is the last entry of the rows its revision names. */
  predicate HoldsIntent(t: Ticket) {
    && t.reserved.OfEntries?
    && t.reserved.entries != []
    && var last := t.reserved.entries[|t.reserved.entries| - 1];
       && last.id == t.identity
       && last.body.Intend?
       && last.body.intent.qualification == OfQualification(t.q)
       && last.body.intent.input == t.input
  }

  ghost predicate TicketInv(rows: seq<Entry>, t: Ticket) {
    && HoldsIntent(t)
    && t.identity in FactsOf(rows).intents
    && t.reserved.entries <= rows
  }

  /** The tool ran for a use whose own intent was the last committed entry, and which was eligible then. */
  ghost predicate Justified(v: Invocation) {
    && HoldsIntent(v.ticket)
    && v.rows == v.ticket.reserved.entries
    && Stored(v.rows)
    && Eligible(v.host, v.ticket.q, v.ticket.context, v.ticket.input, v.ticket.now, FactsOf(v.rows))
  }

  /** What the record of a call says of it; a call that raised has none. */
  predicate CameTo(result: ToolResult, a: Answer) {
    match result
    case Answers(text) => a == Answer(text, Received)
    case TimesOut => a == Answer("", Timeout)
    case Fails => a == Answer("", Lost)
    case Raises => false
  }

  /** The tool was called for the use and came to this answer. */
  predicate Answered(invoked: seq<Invocation>, i: Id, a: Answer) {
    exists k :: 0 <= k < |invoked| && invoked[k].ticket.identity == i && CameTo(invoked[k].result, a)
  }

  /** No outcome is on record that the tool did not give. */
  predicate AllAnswered(invoked: seq<Invocation>, f: Facts) {
    forall i :: i in f.outcomes ==> Answered(invoked, i, f.outcomes[i])
  }

  /** One identity, one use: pending, or invoked once, or neither. */
  predicate Apart(pending: set<Ticket>, invoked: seq<Invocation>) {
    && (forall t, u :: t in pending && u in pending && t.identity == u.identity ==> t == u)
    && (forall k, t :: 0 <= k < |invoked| && t in pending ==> invoked[k].ticket.identity != t.identity)
    && (forall j, k :: 0 <= j < k < |invoked| ==> invoked[j].ticket.identity != invoked[k].ticket.identity)
  }

  ghost predicate Inv(sys: System) {
    && JournalInv(sys.rows)
    && (forall t :: t in sys.pending ==> TicketInv(sys.rows, t))
    && (forall k :: 0 <= k < |sys.invoked| ==> Justified(sys.invoked[k]) && sys.invoked[k].rows <= sys.rows)
    && (forall k :: 0 <= k < |sys.invoked| ==> sys.invoked[k].ticket.identity in FactsOf(sys.rows).intents)
    && Apart(sys.pending, sys.invoked)
    && AllAnswered(sys.invoked, FactsOf(sys.rows))
  }
}
