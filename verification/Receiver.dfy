/** The receiver runtime itself: methods that change the event table, each one transaction. */
module Receiver {
  import opened Basics
  import opened Models
  import opened Journal
  import opened Store
  import opened Chains
  import opened Eligibility
  import opened Retrieval
  import opened Runtime
  import opened Protocol

  /** `event(...)` */
  method MakeEvent(body: Body, id: Id, time: int, before: seq<Entry>) returns (r: Result<Entry>)
    ensures Agrees(r, Event(body, id, time, before))
  {
    hide Replay;
    var replayed := ReplayEntries(before);
    if replayed.Err? { return Err(replayed.error); }
    if !ValidId(id) || !ValidTick(time) { return Err(InvalidModel); }
    return Ok(Entry(id, Revision(replayed.value), time, body));
  }

  /** The host kernel, as far as a use needs it: a tool that may come to anything, and a log of its calls. */
  class HostKernel {
    var invoked: seq<Invocation>

    constructor ()
      ensures invoked == []
    {
      invoked := [];
    }

    method InvokeTool(t: Ticket, rows: seq<Entry>, host: Host) returns (result: ToolResult)
      modifies this
      ensures invoked == old(invoked) + [Invocation(t, rows, host, result)]
    {
      result := *;
      invoked := invoked + [Invocation(t, rows, host, result)];
    }
  }

  /** How the transaction of a tool call ends: all its records and the service they make, or none. */
  ghost predicate Closed(rows: seq<Entry>, rows': seq<Entry>, t: Ticket, committed: Result<Appended>, r: Result<bool>) {
    && r.Ok? == committed.Ok?
    && rows' == (if committed.Ok? then committed.value.rows else rows)
    && (committed.Ok? && Stored(rows) ==> r.value == (t.identity in FactsOf(rows').services))
  }

  lemma AppendedFacts(rows: seq<Entry>, batch: seq<Entry>, expected: Digest)
    requires Append(rows, batch, expected).Ok?
    ensures Replay(rows + batch).Ok?
    ensures Stored(rows) ==> FactsOf(Append(rows, batch, expected).value.rows) == Replay(rows + batch).value.facts
  {
    hide Replay, Readable;
    if Stored(rows) { AppendReadable(rows, batch, expected); }
  }

  /** What carrying out a fenced use comes to, for the answer that the tool gave if it was called. */
  ghost predicate Performed(
    rows: seq<Entry>, rows': seq<Entry>, invoked: seq<Invocation>, invoked': seq<Invocation>, host: Host, t: Ticket,
    result: ToolResult, r: Result<bool>)
  {
    match ExecuteRows(rows, host, t, result)
    case Fenced => rows' == rows && invoked' == invoked && r.Err?
    case Ran(committed) =>
      invoked' == invoked + [Invocation(t, rows, host, result)] && Closed(rows, rows', t, committed, r)
  }

  class ReceiverRuntime {
    const table: EventTable
    const profiles: Profiles

    constructor (table: EventTable, profiles: Profiles)
      ensures this.table == table && this.profiles == profiles
    {
      this.table := table;
      this.profiles := profiles;
    }

    /** The rows and what they replay to, at the start of a transaction. */
    method Begin() returns (r: Result<(seq<Entry>, State)>)
      ensures r.Ok? <==> Readable(table.rows) && Replay(table.rows).Ok?
      ensures r.Ok? ==> r.value.0 == table.rows && r.value.1 == Replay(table.rows).value
    {
      hide Replay, Readable;
      var found := table.Entries();
      if found.Err? { return Err(found.error); }
      var state := ReplayEntries(found.value);
      if state.Err? { return Err(state.error); }
      return Ok((found.value, state.value));
    }

    /** The costs of the qualification that are not on record, chained one by one. */
    method MissingCosts(rows: seq<Entry>, costs: seq<Cost>, now: int) returns (r: Result<seq<Entry>>)
      ensures Agrees(r, CostBatch(rows, [], costs, now))
    {
      hide Replay, Event;
      var batch: seq<Entry> := [];
      for n := 0 to |costs|
        invariant CostBatch(rows, batch, costs[n..], now) == CostBatch(rows, [], costs, now)
      {
        assert costs[n..][0] == costs[n] && costs[n..][1..] == costs[n + 1..];
        var found := ReplayEntries(rows + batch);
        if found.Err? { return Err(found.error); }
        if costs[n].id !in found.value.facts.costs {
          var e := MakeEvent(PayCost(costs[n]), CostEventId(costs[n]), now, rows + batch);
          if e.Err? { return Err(e.error); }
          batch := batch + [e.value];
        }
      }
      return Ok(batch);
    }

    method AllEligible(host: Host, q: Qualification, context: Context, now: int, s: State) returns (ok: bool)
      ensures ok <==> EligibleForAll(host, q, context, now, s.facts)
    {
      hide Eligible, Reported;
      for n := 0 to |context.inputs|
        invariant n == 0 || ValidTick(now)
        invariant forall i :: 0 <= i < n ==> Eligible(host, q, context, context.inputs[i], now, s.facts)
      {
        var view := Decide(host, q, context, context.inputs[n], now, s);
        if view.Err? || !view.value.eligible { return false; }
      }
      return true;
    }

    /** `admit`: appends the missing costs and the qualification together, or nothing. */
    method Admit(host: Host, q: Qualification, now: int, expected: Digest) returns (r: Result<Digest>)
      modifies table
      ensures var spec := AdmitRows(old(table.rows), host, profiles, q, now, expected);
        && r.Ok? == spec.Ok?
        && (r.Ok? ==> table.rows == spec.value.rows && r.value == spec.value.revision)
        && (r.Err? ==> table.rows == old(table.rows))
    {
      hide Replay, Event, CostBatch, Append, Readable, EligibleForAll, Premises;
      if q.context.receiver !in profiles || profiles[q.context.receiver] != q.context { return Err(Rejected); }
      var begun := Begin();
      if begun.Err? { return Err(begun.error); }
      var rows := begun.value.0;
      if Revision(begun.value.1) != expected { return Err(StaleRevision); }
      if !Premises(host, q, now) { return Err(Rejected); }
      var costs := MissingCosts(rows, q.costs, now);
      if costs.Err? { return Err(costs.error); }
      var paid := ReplayEntries(rows + costs.value);
      if paid.Err? { return Err(paid.error); }
      var eligible := AllEligible(host, q, q.context, now, paid.value);
      if !eligible { return Err(Rejected); }
      if q in paid.value.facts.qualifications { return Ok(expected); }
      var e := MakeEvent(Body.Admit(q), AdmitEventId(q), now, rows + costs.value);
      if e.Err? { return Err(e.error); }
      r := table.AppendBatch(costs.value + [e.value], expected);
    }

    /** `record`: one host event of a kind that needs no checked interface. */
    method Record(body: Body, id: Id, now: int, expected: Digest) returns (r: Result<Digest>)
      modifies table
      ensures var spec := RecordRows(old(table.rows), body, id, now, expected);
        && r.Ok? == spec.Ok?
        && (r.Ok? ==> table.rows == spec.value.rows && r.value == spec.value.revision)
        && (r.Err? ==> table.rows == old(table.rows))
    {
      hide Replay, Event, Append, Readable;
      if !Recordable(body) { return Err(Rejected); }
      var found := table.Entries();
      if found.Err? { return Err(found.error); }
      var e := MakeEvent(body, id, now, found.value);
      if e.Err? { return Err(e.error); }
      r := table.AppendBatch([e.value], expected);
    }

    /** `_retrieve` */
    method Shown(host: Host, receiver: string, input: string, now: int, query: Query, limit: int)
      returns (r: Result<Retrieved>)
      ensures r.Ok? <==>
        && receiver in profiles && 1 <= limit <= 32
        && Readable(table.rows) && Replay(table.rows).Ok?
        && (Replay(table.rows).value.facts.qualifications == [] || ValidTick(now))
      ensures r.Ok? ==> var s := Replay(table.rows).value;
        && IsRetrieval(host, profiles[receiver], input, now, query, limit, s, r.value.views)
        && r.value.excluded == ExcludedViews(host, s.facts.qualifications, profiles[receiver], input, now, s)
        && r.value.snapshot == Revision(s)
    {
      hide Replay, Readable, IsRetrieval, ExcludedViews;
      if receiver !in profiles || !(1 <= limit <= 32) { return Err(Rejected); }
      var begun := Begin();
      if begun.Err? { return Err(begun.error); }
      r := Retrieve(host, profiles[receiver], input, now, query, limit, begun.value.1);
    }

    /** One chained exposure for each view. */
    method Exposures(rows: seq<Entry>, views: seq<View>, input: string, now: int, snapshot: Digest)
      returns (r: Result<seq<Entry>>)
      ensures Agrees(r, ExposureBatch(rows, [], views, input, now, snapshot, 0))
    {
      hide Replay, Event;
      var batch: seq<Entry> := [];
      for n := 0 to |views|
        invariant ExposureBatch(rows, batch, views[n..], input, now, snapshot, n)
               == ExposureBatch(rows, [], views, input, now, snapshot, 0)
      {
        assert views[n..][0] == views[n] && views[n..][1..] == views[n + 1..];
        var e := MakeEvent(Expose(views[n].qualification, input), ExposureEventId(snapshot, n), now, rows + batch);
        if e.Err? { return Err(e.error); }
        batch := batch + [e.value];
      }
      return Ok(batch);
    }

    /** `run`, up to the prompt: the views that are shown are recorded with them, or nothing is shown. */
    method Run(host: Host, receiver: string, input: string, now: int, query: Query) returns (r: Result<seq<View>>)
      modifies table
      ensures r.Ok? ==>
        var spec := RunRows(old(table.rows), host, profiles, receiver, input, now, query, r.value);
        spec.Ok? && table.rows == spec.value.rows
      ensures r.Err? ==> table.rows == old(table.rows)
      ensures r.Err? ==> forall views: seq<View> ::
        RunRows(old(table.rows), host, profiles, receiver, input, now, query, views).Err?
    {
      hide Replay, Append, Readable, IsRetrieval, ExposureBatch, ExcludedViews;
      var result := Shown(host, receiver, input, now, query, RUN_LIMIT);
      if result.Err? { return Err(result.error); }
      ghost var before, s := table.rows, Replay(table.rows).value;
      var views, snapshot := result.value.views, result.value.snapshot;
      forall other: seq<View> | IsRetrieval(host, profiles[receiver], input, now, query, RUN_LIMIT, s, other)
        ensures other == views
      {
        RetrievalUnique(host, profiles[receiver], input, now, query, RUN_LIMIT, s, other, views);
      }
      var found := table.Entries();
      if found.Err? { return Err(ByteLimit); }
      var batch := Exposures(found.value, views, input, now, snapshot);
      if batch.Err? { return Err(batch.error); }
      var appended := table.AppendBatch(batch.value, snapshot);
      if appended.Err? { return Err(appended.error); }
      return Ok(views);
    }

    /** The first transaction of `use`. */
    method Reserve(host: Host, call: UseCall) returns (r: Reservation)
      modifies table
      ensures r == ReserveRows(old(table.rows), host, profiles, call)
      ensures table.rows == if r.Reserved? then r.rows else old(table.rows)
    {
      hide Replay, Append, Readable, Event, Eligible, Viewed, Reasons, PendingInScope;
      if !call.admissible || call.cost.stage != Use { return Refused; }
      var begun := Begin();
      if begun.Err? { return Refused; }
      var rows, s := begun.value.0, begun.value.1;
      if Revision(s) != call.expected { return Refused; }
      if call.identity in s.facts.intents {
        return if SameUse(s.facts, call) then Duplicate(call.identity in s.facts.services) else Refused;
      }
      if PendingInScope(s.facts, call.qualification, call.input) || !Resolves(s.facts, call.qualification) {
        return Refused;
      }
      var q := call.qualification.qualification;
      if q.context.receiver !in profiles { return Refused; }
      var context := profiles[q.context.receiver];
      var view := Decide(host, q, context, call.input, call.now, s);
      if view.Err? || !view.value.eligible { return Refused; }
      var pay := MakeEvent(PayCost(call.cost), UseCostEventId(call.cost), call.now, rows);
      if pay.Err? { return Refused; }
      var intend := MakeEvent(Intend(IntentOf(call)), call.identity, call.now, rows + [pay.value]);
      if intend.Err? { return Refused; }
      var reserved := table.AppendBatch([pay.value, intend.value], call.expected);
      if reserved.Err? { return Refused; }
      return Reserved(table.rows, Ticket(call.identity, q, context, call.input, call.now, reserved.value));
    }

    /** The second transaction of `use`: recheck, call the tool under the write fence, record, commit. */
    method Execute(host: Host, t: Ticket, kernel: HostKernel) returns (r: Result<bool>)
      modifies table, kernel
      ensures exists result: ToolResult ::
        Performed(old(table.rows), table.rows, old(kernel.invoked), kernel.invoked, host, t, result, r)
    {
      hide Replay, Append, Readable, Event, Eligible, Closed, CloseRows, Viewed, Reasons;
      ghost var any: ToolResult := Raises;
      ghost var invoked := kernel.invoked;
      var begun := Begin();
      if begun.Err? {
        assert Performed(table.rows, table.rows, invoked, invoked, host, t, any, Err(begun.error));
        return Err(begun.error);
      }
      var rows, s := begun.value.0, begun.value.1;
      if Revision(s) != t.reserved {
        assert Performed(rows, rows, invoked, invoked, host, t, any, Err(StaleRevision));
        return Err(StaleRevision);
      }
      var view := Decide(host, t.q, t.context, t.input, t.now, s);
      if view.Err? || !view.value.eligible {
        assert Performed(rows, rows, invoked, invoked, host, t, any, Err(Rejected));
        return Err(Rejected);
      }
      var attempt := MakeEvent(Attempt(t.identity), t.identity + Text("-attempt"), t.now, rows);
      if attempt.Err? {
        assert Performed(rows, rows, invoked, invoked, host, t, any, Err(attempt.error));
        return Err(attempt.error);
      }
      var result := kernel.InvokeTool(t, rows, host);
      r := Settle(t, rows, attempt.value, result);
      assert Performed(rows, table.rows, invoked, kernel.invoked, host, t, result, r);
    }

    /** What follows the tool call in the second transaction. */
    method Settle(t: Ticket, rows: seq<Entry>, attempt: Entry, result: ToolResult) returns (r: Result<bool>)
      requires table.rows == rows
      modifies table
      ensures Closed(rows, table.rows, t, CloseRows(rows, attempt, t, result), r)
    {
      hide Replay, Append, Readable, Event, FactsOf, Stored;
      if result.Raises? { return Err(Rejected); }
      var i := t.identity;
      var outcome := MakeEvent(OutcomeBody(i, result), i + Text("-outcome"), t.now, rows + [attempt]);
      if outcome.Err? { return Err(outcome.error); }
      var check := MakeEvent(Check(i, CHECKER), i + Text("-check"), t.now, rows + [attempt, outcome.value]);
      if check.Err? { return Err(check.error); }
      var close := MakeEvent(Reconcile(i), i + Text("-reconcile"), t.now, rows + [attempt, outcome.value, check.value]);
      if close.Err? { return Err(close.error); }
      var batch := [attempt, outcome.value, check.value, close.value];
      var revision := table.AppendBatch(batch, t.reserved);
      if revision.Err? { return Err(revision.error); }
      AppendedFacts(rows, batch, t.reserved);
      var final := ReplayEntries(rows + batch);
      if final.Err? { return Err(Rejected); }
      return Ok(i in final.value.facts.services);
    }
  }

  /** Retrieval leaves no choice. */
  lemma RetrievalUnique(
      host: Host, context: Context, input: string, now: int, query: Query, limit: nat, s: State, a: seq<View>,
      b: seq<View>)
    requires IsRetrieval(host, context, input, now, query, limit, s, a)
    requires IsRetrieval(host, context, input, now, query, limit, s, b)
    ensures a == b
  {
    hide EligibleViews, IsRanking;
    var views := EligibleViews(host, s.facts.qualifications, context, input, now, s);
    var x: seq<View> :| IsRanking(query, views, x) && a == x[..if limit < |x| then limit else |x|];
    var y: seq<View> :| IsRanking(query, views, y) && b == y[..if limit < |y| then limit else |y|];
    RankingUnique(query, views, x, y);
  }
}
