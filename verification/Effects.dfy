/** What a transaction that commits has recorded: each kind of call, seen in the state it leaves. */
module Effects {
  import opened Models
  import opened Journal
  import opened Store
  import opened Chains
  import opened Eligibility
  import opened Retrieval
  import opened Runtime
  import opened Protocol
  import opened Steps
  import opened Uses
  import opened Revocation
  import opened Settlement
  import Native

  // ---- Exposure.

  function Exposures(views: seq<View>, input: string): (r: seq<Exposure>)
    ensures |r| == |views| && forall i :: 0 <= i < |r| ==> r[i] == Exposure(views[i].qualification, input)
  {
    seq(|views|, i requires 0 <= i < |views| => Exposure(views[i].qualification, input))
  }

  /** The batch ends with one exposure for each view, in order. */
  predicate Exposes(batch: seq<Entry>, views: seq<View>, input: string) {
    |batch| == |views| && forall i :: 0 <= i < |batch| ==> batch[i].body == Expose(views[i].qualification, input)
  }

  lemma {:induction false} ExposureBatchExposes(
      rows: seq<Entry>, batch: seq<Entry>, shown: seq<View>, views: seq<View>, input: string, now: int,
      snapshot: Digest, index: nat)
    requires Exposes(batch, shown, input) && ExposureBatch(rows, batch, views, input, now, snapshot, index).Ok?
    ensures Exposes(ExposureBatch(rows, batch, views, input, now, snapshot, index).value, shown + views, input)
    decreases |views|
  {
    hide Replay, Event;
    if views == [] {
      assert shown + views == shown;
    } else {
      var d := views[0].qualification;
      var e := Event(Expose(d, input), ExposureEventId(snapshot, index), now, rows + batch).value;
      EventBody(Expose(d, input), ExposureEventId(snapshot, index), now, rows + batch);
      ExposureBatchExposes(rows, batch + [e], shown + [views[0]], views[1..], input, now, snapshot, index + 1);
      assert shown + views == (shown + [views[0]]) + views[1..];
    }
  }

  lemma ApplyExpose(f: Facts, e: Entry)
    requires Linked(f) && e.body.Expose? && Apply(f, e).Ok?
    ensures Apply(f, e).value.exposures == f.exposures + [Exposure(e.body.qualification, e.body.input)]
  {
  }

  lemma {:induction false} ExposedInOrder(rows: seq<Entry>, batch: seq<Entry>, views: seq<View>, input: string)
    requires Stored(rows + batch) && Exposes(batch, views, input)
    ensures FactsOf(rows + batch).exposures == FactsOf(rows).exposures + Exposures(views, input)
    decreases |batch|
  {
    hide Replay, FactsOf, Stored, Apply;
    if batch == [] {
      assert rows + batch == rows;
    } else {
      var n := |batch| - 1;
      assert rows + batch == (rows + batch[..n]) + [batch[n]];
      StoredFront(rows + batch[..n], batch[n]);
      ApplyExpose(FactsOf(rows + batch[..n]), batch[n]);
      ExposedInOrder(rows, batch[..n], views[..n], input);
      assert Exposures(views, input) == Exposures(views[..n], input) + [Exposure(views[n].qualification, input)];
    }
  }

  /** What `run` shows it has recorded: one exposure for each view, in the order shown, and no other. */
  lemma RunRecordsWhatItShows(
      rows: seq<Entry>, host: Host, profiles: Profiles, receiver: string, input: string, now: int, query: Query,
      views: seq<View>)
    requires JournalInv(rows) && RunRows(rows, host, profiles, receiver, input, now, query, views).Ok?
    ensures FactsOf(RunRows(rows, host, profiles, receiver, input, now, query, views).value.rows).exposures ==
            FactsOf(rows).exposures + Exposures(views, input)
  {
    hide Replay, Append, ExposureBatch, Guarded, CostBound, Whole, OneOpenPerScope, Guard, Readable, Chained, Event,
      BatchGuarded, IsRetrieval, ViewsOpen;
    var s := Replay(rows).value;
    var batch := ExposureBatch(rows, [], views, input, now, Revision(s), 0).value;
    RetrievalOpen(host, profiles[receiver], input, now, query, RUN_LIMIT, s, views);
    NothingChained(rows);
    ExposureBatchKeeps(rows, [], views, input, now, Revision(s), 0);
    AppendChained(rows, batch, Revision(s));
    ExposureBatchExposes(rows, [], [], views, input, now, Revision(s), 0);
    assert [] + views == views;
    ExposedInOrder(rows, batch, views, input);
  }

  // ---- Admission.

  lemma ApplyAdmitted(f: Facts, e: Entry, q: Qualification)
    requires Linked(f) && e.body == Admit(q) && Apply(f, e).Ok?
    ensures q in Apply(f, e).value.qualifications && AllPaid(Apply(f, e).value, q.costs)
  {
  }

  /** An admission that succeeds leaves the qualification admitted with all its obligations paid. */
  lemma AdmissionAdmits(rows: seq<Entry>, host: Host, profiles: Profiles, q: Qualification, now: int, expected: Digest)
    requires JournalInv(rows) && AdmitRows(rows, host, profiles, q, now, expected).Ok?
    ensures var f := FactsOf(AdmitRows(rows, host, profiles, q, now, expected).value.rows);
      q in f.qualifications && AllPaid(f, q.costs)
  {
    hide Replay, Append, CostBatch, Guarded, CostBound, Whole, OneOpenPerScope, Guard, Readable, Chained,
      EligibleForAll, Premises, Event, BatchGuarded, AllPaid;
    var costs := CostBatch(rows, [], q.costs, now).value;
    NothingChained(rows);
    CostBatchChained(rows, [], q.costs, now);
    var s := Replay(rows + costs).value;
    if q in s.facts.qualifications {
      AdmittedBefore(rows, costs, q);
    } else {
      var e := Event(Admit(q), AdmitEventId(q), now, rows + costs).value;
      ChainedSnoc(rows, costs, Admit(q), AdmitEventId(q), now);
      AppendChained(rows, costs + [e], expected);
      EventBody(Admit(q), AdmitEventId(q), now, rows + costs);
      assert rows + (costs + [e]) == (rows + costs) + [e];
      StoredFront(rows + costs, e);
      ApplyAdmitted(FactsOf(rows + costs), e, q);
    }
  }

  /** Costs admit nothing: what is admitted with them was admitted without them. */
  lemma AdmittedBefore(rows: seq<Entry>, costs: seq<Entry>, q: Qualification)
    requires Stored(rows) && Chained(rows, costs) && Replay(rows + costs).Ok?
    requires forall k :: 0 <= k < |costs| ==> costs[k].body.PayCost?
    requires q in Replay(rows + costs).value.facts.qualifications
    ensures q in FactsOf(rows).qualifications && AllPaid(FactsOf(rows), q.costs)
  {
    hide Replay, Chained, AllPaid;
    ChainStored(rows, costs);
    CostsAdmitNothing(rows, costs);
    StoredLinked(rows);
    SettledPaid(FactsOf(rows), q);
  }

  lemma SettledPaid(f: Facts, q: Qualification)
    requires Linked(f) && Settled(f) && q in f.qualifications
    ensures AllPaid(f, q.costs)
  {
  }

  lemma ApplyCostAdmits(f: Facts, e: Entry)
    requires Linked(f) && e.body.PayCost? && Apply(f, e).Ok?
    ensures Apply(f, e).value.qualifications == f.qualifications
  {
  }

  lemma {:induction false} CostsAdmitNothing(rows: seq<Entry>, costs: seq<Entry>)
    requires Stored(rows + costs) && forall k :: 0 <= k < |costs| ==> costs[k].body.PayCost?
    ensures FactsOf(rows + costs).qualifications == FactsOf(rows).qualifications
    decreases |costs|
  {
    hide Replay, FactsOf, Stored, Apply;
    if costs == [] {
      assert rows + costs == rows;
    } else {
      var n := |costs| - 1;
      assert rows + costs == (rows + costs[..n]) + [costs[n]];
      StoredFront(rows + costs[..n], costs[n]);
      ApplyCostAdmits(FactsOf(rows + costs[..n]), costs[n]);
      CostsAdmitNothing(rows, costs[..n]);
    }
  }

  // ---- Host records.

  /** A host record that succeeds is the one new row: as given, and chained to the rows before it. */
  lemma RecordAppends(rows: seq<Entry>, body: Body, id: Id, now: int, expected: Digest)
    requires Stored(rows) && RecordRows(rows, body, id, now, expected).Ok?
    ensures Recordable(body) && expected == OfEntries(rows)
    ensures RecordRows(rows, body, id, now, expected).value.rows == rows + [Entry(id, OfEntries(rows), now, body)]
  {
    hide Replay, Append, Readable, Chained, Recordable;
    var e := Event(body, id, now, rows).value;
    SingleChained(rows, body, id, now);
    AppendChained(rows, [e], expected);
    AppendExpected(rows, [e], expected);
    EventExact(body, id, now, rows);
  }

  lemma EventExact(body: Body, id: Id, time: int, before: seq<Entry>)
    requires Stored(before) && Event(body, id, time, before).Ok?
    ensures Event(body, id, time, before).value == Entry(id, OfEntries(before), time, body)
  {
    hide Replay;
  }

  // ---- Use.

  /** A reservation adds two rows, the cost and the intent of the call, and its ticket names what comes after them. */
  lemma ReservationRecords(rows: seq<Entry>, host: Host, profiles: Profiles, call: UseCall)
    requires JournalInv(rows) && ReserveRows(rows, host, profiles, call).Reserved?
    ensures call.qualification.OfQualification?
    ensures var r := ReserveRows(rows, host, profiles, call);
      var q := call.qualification.qualification;
      && |r.rows| == |rows| + 2 && rows <= r.rows
      && r.rows[|rows|] == Entry(UseCostEventId(call.cost), OfEntries(rows), call.now, PayCost(call.cost))
      && r.rows[|rows| + 1] ==
           Entry(call.identity, OfEntries(rows + [r.rows[|rows|]]), call.now,
                 Intend(Intent(call.qualification, call.input, call.action, call.cost.id, OfEntries(rows))))
      && q.context.receiver in profiles
      && r.ticket == Ticket(call.identity, q, profiles[q.context.receiver], call.input, call.now, OfEntries(r.rows))
  {
    hide *;
    InvStored(rows);
    ReserveShape(rows, host, profiles, call);
    var batch := ReserveBatch(rows, call).value;
    ReserveBatchShape(rows, call);
    AppendChained(rows, batch, call.expected);
    AppendExpected(rows, batch, call.expected);
    ReservedExactly(rows, host, profiles, call);
    assert rows + batch == (rows + [batch[0]]) + [batch[1]];
    StoredFront(rows + [batch[0]], batch[1]);
    StoredFront(rows, batch[0]);
  }

  /** Times and ticket. */
  lemma ReservedExactly(rows: seq<Entry>, host: Host, profiles: Profiles, call: UseCall)
    requires ReserveRows(rows, host, profiles, call).Reserved? && ReserveBatch(rows, call).Ok?
    requires call.qualification.OfQualification?
    ensures var batch := ReserveBatch(rows, call).value;
      && |batch| == 2 && batch[0].time == call.now && batch[1].time == call.now
    ensures IntentOf(call) == Intent(call.qualification, call.input, call.action, call.cost.id, call.expected)
    ensures Append(rows, ReserveBatch(rows, call).value, call.expected).Ok?
    ensures var q := call.qualification.qualification;
      && q.context.receiver in profiles
      && ReserveRows(rows, host, profiles, call).ticket ==
           Ticket(call.identity, q, profiles[q.context.receiver], call.input, call.now,
                  Append(rows, ReserveBatch(rows, call).value, call.expected).value.revision)
  {
    hide Replay, Append, Readable, Eligible, PendingInScope;
  }

  lemma RecordedSettles(f: Facts, g: Facts, i: Id, result: ToolResult)
    requires Linked(f) && Settled(f) && Recorded(f, g, i, AnswerOf(result)) && !result.Raises?
    ensures i in g.intents
    ensures Served(g, i) <==> result == Answers(Native.Normalized(g.intents[i].input))
    ensures RefusedAnswer(g, i) <==> result.Answers? && result.text != Native.Normalized(g.intents[i].input)
    ensures Unresolved(g, i) <==> !result.Answers?
    ensures i in g.outcomes
    ensures match result
            case Answers(text) => g.outcomes[i] == Answer(text, Received)
            case TimesOut => g.outcomes[i] == Answer("", Timeout)
            case Fails => g.outcomes[i] == Answer("", Lost)
            case Raises => false
  {
    hide Passed;
    PassedMeans(f.intents[i], AnswerOf(result));
  }

  /**
   A use that commits is a service exactly when the tool answered the normal form of the input, a
   checked negative exactly when it answered anything else, and unresolved exactly when it did not answer.
  */
  lemma UseSettles(rows: seq<Entry>, host: Host, t: Ticket, result: ToolResult)
    requires JournalInv(rows) && HoldsIntent(t)
    requires ExecuteRows(rows, host, t, result).Ran? && ExecuteRows(rows, host, t, result).committed.Ok?
    ensures var g := FactsOf(ExecuteRows(rows, host, t, result).committed.value.rows);
      && t.identity in g.intents && g.intents[t.identity].input == t.input
      && (Served(g, t.identity) <==> result == Answers(Native.Normalized(t.input)))
      && (RefusedAnswer(g, t.identity) <==> result.Answers? && result.text != Native.Normalized(t.input))
      && (Unresolved(g, t.identity) <==> !result.Answers?)
      && t.identity in g.outcomes
      && (match result
          case Answers(text) => g.outcomes[t.identity] == Answer(text, Received)
          case TimesOut => g.outcomes[t.identity] == Answer("", Timeout)
          case Fails => g.outcomes[t.identity] == Answer("", Lost)
          case Raises => false)
  {
    hide *;
    var g := FactsOf(ExecuteRows(rows, host, t, result).committed.value.rows);
    InvOrder(rows);
    ExecuteKeeps(rows, host, t, result);
    ExecutedFor(rows, host, t, result);
    RecordedSettles(FactsOf(rows), g, t.identity, result);
  }

  lemma ExecutedFor(rows: seq<Entry>, host: Host, t: Ticket, result: ToolResult)
    requires JournalInv(rows) && HoldsIntent(t)
    requires ExecuteRows(rows, host, t, result).Ran? && ExecuteRows(rows, host, t, result).committed.Ok?
    requires Recorded(FactsOf(rows), FactsOf(ExecuteRows(rows, host, t, result).committed.value.rows), t.identity,
                      AnswerOf(result))
    ensures !result.Raises?
    ensures var g := FactsOf(ExecuteRows(rows, host, t, result).committed.value.rows);
      t.identity in g.intents && g.intents[t.identity].input == t.input
  {
    hide Replay, Append, ClosingBatch, Guarded, CostBound, Whole, OneOpenPerScope, Readable, Event, Eligible, OpenRef,
      Passed, HoldsIntent;
    FencedRows(rows, host, t);
  }
}
