/** What holds in every run: the invariant of the protocol and the safety of its tool calls. */
module Safety {
  import opened Basics
  import opened Models
  import opened Journal
  import opened Store
  import opened Chains
  import opened Eligibility
  import opened Runtime
  import opened Protocol
  import opened Steps
  import opened Uses

  // ---- One action.

  /** Intents stay recorded, as they were, in every longer journal. */
  lemma IntentsStay(rows: seq<Entry>, later: seq<Entry>)
    requires Stored(later) && rows <= later
    ensures Extends(FactsOf(rows), FactsOf(later))
  {
    hide *;
    assert later[..|rows|] == rows && later[..|later|] == later;
    FactsGrow(later, |rows|, |later|);
  }

  lemma ExtendsIntents(f: Facts, g: Facts)
    requires Extends(f, g)
    ensures f.intents.Keys <= g.intents.Keys
  {
  }

  lemma TicketStays(rows: seq<Entry>, later: seq<Entry>, t: Ticket)
    requires TicketInv(rows, t) && rows <= later && Extends(FactsOf(rows), FactsOf(later))
    ensures TicketInv(later, t)
  {
    hide FactsOf, HoldsIntent;
  }

  lemma GrowthKeeps(sys: System, rows: seq<Entry>)
    requires Inv(sys) && sys.rows <= rows && JournalInv(rows) && AllAnswered(sys.invoked, FactsOf(rows))
    ensures Inv(sys.(rows := rows))
  {
    hide JournalInv, TicketInv, Justified, FactsOf, Extends, AllAnswered, Apart;
    InvStored(rows);
    IntentsStay(sys.rows, rows);
    ExtendsIntents(FactsOf(sys.rows), FactsOf(rows));
    forall t | t in sys.pending ensures TicketInv(rows, t) { TicketStays(sys.rows, rows, t); }
  }

  /** Appending no outcome leaves every outcome one that the tool gave. */
  lemma QuietGrowthKeeps(sys: System, rows: seq<Entry>)
    requires Inv(sys) && sys.rows <= rows && JournalInv(rows) && SameOutcomes(FactsOf(sys.rows), FactsOf(rows))
    ensures Inv(sys.(rows := rows))
  {
    hide JournalInv, TicketInv, Justified, FactsOf, Answered;
    GrowthKeeps(sys, rows);
  }

  lemma TicketKnown(rows: seq<Entry>, t: Ticket)
    requires TicketInv(rows, t)
    ensures t.identity in FactsOf(rows).intents && HoldsIntent(t)
  {
    hide FactsOf, HoldsIntent;
  }

  /** A new ticket has an identity that no earlier use had. */
  lemma ReservingKeeps(sys: System, rows: seq<Entry>, t: Ticket)
    requires Inv(sys) && sys.rows <= rows && JournalInv(rows) && SameOutcomes(FactsOf(sys.rows), FactsOf(rows))
    requires t.identity !in FactsOf(sys.rows).intents && TicketInv(rows, t)
    ensures Inv(sys.(rows := rows, pending := sys.pending + {t}))
  {
    hide JournalInv, TicketInv, Justified, FactsOf;
    QuietGrowthKeeps(sys, rows);
    forall u | u in sys.pending ensures u.identity != t.identity { TicketKnown(sys.rows, u); }
    TicketKnown(rows, t);
  }

  lemma DroppingKeeps(sys: System, t: Ticket)
    requires Inv(sys)
    ensures Inv(sys.(pending := sys.pending - {t}))
  {
    hide JournalInv, TicketInv, Justified, FactsOf;
  }

  lemma MoreCallsAnswered(invoked: seq<Invocation>, v: Invocation, f: Facts)
    requires AllAnswered(invoked, f)
    ensures AllAnswered(invoked + [v], f)
  {
    var all := invoked + [v];
    forall i | i in f.outcomes ensures Answered(all, i, f.outcomes[i]) {
      var k :| 0 <= k < |invoked| && invoked[k].ticket.identity == i && CameTo(invoked[k].result, f.outcomes[i]);
      assert all[k] == invoked[k];
    }
  }

  lemma CallKeeps(sys: System, v: Invocation)
    requires Inv(sys) && v.ticket in sys.pending && Justified(v) && v.rows == sys.rows
    ensures Inv(sys.(pending := sys.pending - {v.ticket}, invoked := sys.invoked + [v]))
  {
    hide JournalInv, TicketInv, Justified, FactsOf, AllAnswered;
    TicketKnown(sys.rows, v.ticket);
    MoreCallsAnswered(sys.invoked, v, FactsOf(sys.rows));
  }

  /** The outcome that a use records is the one its own call came to. */
  lemma CallAnswered(invoked: seq<Invocation>, f: Facts, g: Facts, t: Ticket, result: ToolResult)
    requires AllAnswered(invoked, f) && Recorded(f, g, t.identity, AnswerOf(result)) && !result.Raises?
    requires invoked != [] && invoked[|invoked| - 1].ticket == t && invoked[|invoked| - 1].result == result
    ensures AllAnswered(invoked, g)
  {
    hide Passed;
    forall i | i in g.outcomes ensures Answered(invoked, i, g.outcomes[i]) {
      if i == t.identity {
        assert invoked[|invoked| - 1].ticket.identity == i;
      } else {
        assert i in f.outcomes;
      }
    }
  }

  lemma InvAnswered(sys: System)
    requires Inv(sys)
    ensures AllAnswered(sys.invoked, FactsOf(sys.rows))
  {
    hide JournalInv, TicketInv, Justified, FactsOf, AllAnswered;
  }

  lemma PendingHolds(sys: System, t: Ticket)
    requires Inv(sys) && t in sys.pending
    ensures HoldsIntent(t) && JournalInv(sys.rows) && Stored(sys.rows)
  {
    hide JournalInv, HoldsIntent, FactsOf;
    InvStored(sys.rows);
  }

  lemma Justify(rows: seq<Entry>, host: Host, t: Ticket, result: ToolResult)
    requires HoldsIntent(t) && Stored(rows) && rows == t.reserved.entries
    requires Eligible(host, t.q, t.context, t.input, t.now, FactsOf(rows))
    ensures Justified(Invocation(t, rows, host, result))
  {
    hide FactsOf, Stored, Eligible;
  }

  lemma ExecutingKeeps(sys: System, t: Ticket, result: ToolResult, crash: bool)
    requires Inv(sys) && t in sys.pending
    ensures var next := Execute(sys, t, result, crash);
      Inv(next) && sys.rows <= next.rows && sys.invoked <= next.invoked
  {
    hide Inv, JournalInv, Justified, HoldsIntent, FactsOf, ExecuteRows, Stored, Eligible, Recorded, AllAnswered;
    PendingHolds(sys, t);
    var r := ExecuteRows(sys.rows, sys.host, t, result);
    DroppingKeeps(sys, t);
    if r.Ran? {
      ExecuteKeeps(sys.rows, sys.host, t, result);
      var v := Invocation(t, sys.rows, sys.host, result);
      var called := sys.(pending := sys.pending - {t}, invoked := sys.invoked + [v]);
      Justify(sys.rows, sys.host, t, result);
      CallKeeps(sys, v);
      if r.committed.Ok? {
        InvAnswered(called);
        CallAnswered(called.invoked, FactsOf(sys.rows), FactsOf(r.committed.value.rows), t, result);
        GrowthKeeps(called, r.committed.value.rows);
      }
    }
  }

  lemma InvJournal(sys: System)
    requires Inv(sys)
    ensures JournalInv(sys.rows)
  {
  }

  lemma HostKeeps(sys: System, host: Host)
    requires Inv(sys)
    ensures Inv(sys.(host := host))
  {
    hide JournalInv, TicketInv, Justified, FactsOf;
  }

  /** Every action keeps the invariant, every row and the log of tool calls. */
  lemma NextKeeps(sys: System, a: Action)
    requires Inv(sys)
    ensures Inv(Next(sys, a))
    ensures sys.rows <= Next(sys, a).rows && sys.invoked <= Next(sys, a).invoked
  {
    hide Inv, AdmitRows, RecordRows, RunRows, ReserveRows, Execute, JournalInv, TicketInv, FactsOf;
    InvJournal(sys);
    match a
    case HostChanges(host) => HostKeeps(sys, host);
    case Admission(profiles, q, now, expected) =>
      var r := AdmitRows(sys.rows, sys.host, profiles, q, now, expected);
      if r.Ok? {
        AdmissionKeeps(sys.rows, sys.host, profiles, q, now, expected);
        QuietGrowthKeeps(sys, r.value.rows);
      }
    case HostRecord(body, id, now, expected) =>
      var r := RecordRows(sys.rows, body, id, now, expected);
      if r.Ok? {
        RecordKeeps(sys.rows, body, id, now, expected);
        QuietGrowthKeeps(sys, r.value.rows);
      }
    case Exposing(profiles, receiver, input, now, query, views) =>
      var r := RunRows(sys.rows, sys.host, profiles, receiver, input, now, query, views);
      if r.Ok? {
        RunKeeps(sys.rows, sys.host, profiles, receiver, input, now, query, views);
        QuietGrowthKeeps(sys, r.value.rows);
      }
    case Reserving(profiles, call) =>
      var r := ReserveRows(sys.rows, sys.host, profiles, call);
      if r.Reserved? {
        ReserveKeeps(sys.rows, sys.host, profiles, call);
        ReservingKeeps(sys, r.rows, r.ticket);
      }
    case Executing(ticket, result, crash) =>
      if ticket in sys.pending { ExecutingKeeps(sys, ticket, result, crash); }
    case Crashing(ticket) => DroppingKeeps(sys, ticket);
  }

  lemma StartInv(host: Host)
    ensures Inv(Start(host))
  {
    EmptyStored();
  }

  // ---- Runs.

  lemma {:induction false} RunInv(host: Host, actions: seq<Action>)
    ensures Inv(Run(host, actions))
    decreases |actions|
  {
    hide Inv, Next;
    if actions == [] {
      StartInv(host);
    } else {
      var n := |actions| - 1;
      RunInv(host, actions[..n]);
      NextKeeps(Run(host, actions[..n]), actions[n]);
    }
  }

  /** Rows and tool calls of a run stay when the run goes on: no row is ever lost or replaced. */
  lemma {:induction false} RunGrows(host: Host, actions: seq<Action>, more: seq<Action>)
    ensures Run(host, actions).rows <= Run(host, actions + more).rows
    ensures Run(host, actions).invoked <= Run(host, actions + more).invoked
    decreases |more|
  {
    hide Inv, Next;
    if more == [] {
      assert actions + more == actions;
    } else {
      var n := |more| - 1;
      var all := actions + more;
      assert all[..|all| - 1] == actions + more[..n];
      RunGrows(host, actions, more[..n]);
      RunInv(host, actions + more[..n]);
      NextKeeps(Run(host, actions + more[..n]), more[n]);
    }
  }

  lemma StoredFacts(rows: seq<Entry>)
    requires Stored(rows)
    ensures Replay(rows).Ok? && Replay(rows).value.facts == FactsOf(rows)
  {
    hide Replay;
  }

  /** Every run reaches one system and one state, and they have the invariant. */
  lemma RunReaches(host: Host, actions: seq<Action>)
    ensures Stored(Run(host, actions).rows)
    ensures Reached(host, actions, Run(host, actions), Replay(Run(host, actions).rows).value)
  {
    hide Run, JournalInv, Inv, Replay, Replays, Stored;
    RunInv(host, actions);
    InvJournal(Run(host, actions));
    InvStored(Run(host, actions).rows);
    StoredReplays(Run(host, actions).rows);
  }

  lemma ReachedInv(host: Host, actions: seq<Action>, sys: System, s: State)
    requires Reached(host, actions, sys, s)
    ensures sys == Run(host, actions) && Inv(sys) && JournalInv(sys.rows)
    ensures Stored(sys.rows) && FactsOf(sys.rows) == s.facts && Replay(sys.rows) == Ok(s)
  {
    hide Run, JournalInv, Inv, Replay, Replays, Stored, FactsOf;
    assert IsRun(Run(host, actions), host, actions);
    RunInv(host, actions);
    InvJournal(sys);
    ReplaysMeans(sys.rows, s);
  }

  /**
   At most once: in every interleaving, with crashes anywhere and a changing host, no two calls of
   the tool are for one use identity.
  */
  lemma ToolAtMostOncePerIdentity(host: Host, actions: seq<Action>, sys: System, s: State, j: nat, k: nat)
    requires Reached(host, actions, sys, s)
    requires j < |sys.invoked| && k < |sys.invoked|
    requires sys.invoked[j].ticket.identity == sys.invoked[k].ticket.identity
    ensures j == k
  {
    hide Run, Reached, JournalInv, TicketInv, Justified, FactsOf, AllAnswered, Stored, Replay;
    ReachedInv(host, actions, sys, s);
  }

  /**
   When the tool ran, the committed rows ended with that call's own intent, the call was eligible on
   them for the host of that moment, and they are still the first rows now.
  */
  lemma ToolRunsOnOwnIntent(host: Host, actions: seq<Action>, sys: System, s: State, k: nat)
    requires Reached(host, actions, sys, s) && k < |sys.invoked|
    ensures var v := sys.invoked[k];
      && v.rows != [] && v.rows <= sys.rows
      && var last := v.rows[|v.rows| - 1];
        && last.id == v.ticket.identity && last.body.Intend?
        && last.body.intent.qualification == OfQualification(v.ticket.q)
        && last.body.intent.input == v.ticket.input
        && exists t: State :: Replays(v.rows, t)
             && Eligible(v.host, v.ticket.q, v.ticket.context, v.ticket.input, v.ticket.now, t.facts)
  {
    hide Run, Reached, JournalInv, TicketInv, Eligible, Stored, AllAnswered, Replay, Replays;
    ReachedInv(host, actions, sys, s);
    var v := sys.invoked[k];
    assert Justified(v);
    StoredReplays(v.rows);
    StoredFacts(v.rows);
  }

  /** Every outcome on record is the answer of a tool call for that very use: none is made up. */
  lemma RecordedOutcomesHappened(host: Host, actions: seq<Action>, sys: System, s: State, i: Id)
    requires Reached(host, actions, sys, s) && i in s.facts.outcomes
    ensures exists k :: 0 <= k < |sys.invoked| && sys.invoked[k].ticket.identity == i
                        && match sys.invoked[k].result
                           case Answers(text) => s.facts.outcomes[i] == Answer(text, Received)
                           case TimesOut => s.facts.outcomes[i] == Answer("", Timeout)
                           case Fails => s.facts.outcomes[i] == Answer("", Lost)
                           case Raises => false
  {
    hide Run, Reached, JournalInv, TicketInv, Justified, FactsOf, Inv, Stored, Replay;
    ReachedInv(host, actions, sys, s);
    InvAnswered(sys);
    var k :| 0 <= k < |sys.invoked| && sys.invoked[k].ticket.identity == i
      && CameTo(sys.invoked[k].result, s.facts.outcomes[i]);
  }

  /** No two intents of one qualification and input are unresolved together. */
  lemma OneUnresolvedPerScope(host: Host, actions: seq<Action>, sys: System, s: State, i: Id, j: Id)
    requires Reached(host, actions, sys, s)
    requires Unresolved(s.facts, i) && Unresolved(s.facts, j) && SameScope(s.facts, i, j)
    ensures i == j
  {
    hide Run, Reached, FactsOf, Stored, Guarded, CostBound, Whole, TicketInv, Justified, Inv, Replay;
    ReachedInv(host, actions, sys, s);
  }
}
