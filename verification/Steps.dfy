/** What one transaction of each kind keeps of the journal. */
module Steps {
  import opened Models
  import opened Journal
  import opened Store
  import opened Chains
  import opened Eligibility
  import opened Retrieval
  import opened Runtime
  import opened Protocol

  // ---- Entries that leave uses alone, and entries that leave revocations alone.

  predicate Quiet(b: Body) {
    !b.Intend? && !b.Attempt? && !b.Outcome? && !b.Check? && !b.Reconcile?
  }

  predicate Calm(b: Body) {
    b.PayCost? || b.Expose?
  }

  predicate SameUses(f: Facts, g: Facts) {
    && g.intents == f.intents && g.attempts == f.attempts && g.outcomes == f.outcomes
    && g.checked == f.checked && g.services == f.services
  }

  predicate SameOutcomes(f: Facts, g: Facts) {
    g.outcomes == f.outcomes
  }

  predicate SameRevocations(f: Facts, g: Facts) {
    g.blocks == f.blocks && g.withdrawn == f.withdrawn
  }

  lemma ApplyQuiet(f: Facts, e: Entry)
    requires Linked(f) && Apply(f, e).Ok?
    ensures Quiet(e.body) ==> SameUses(f, Apply(f, e).value)
    ensures Calm(e.body) ==> SameRevocations(f, Apply(f, e).value)
  {
    hide Apply, SameUses, SameRevocations;
    if Quiet(e.body) { QuietKeepsUses(f, e); }
    if Calm(e.body) { CalmKeepsRevocations(f, e); }
  }

  lemma QuietKeepsUses(f: Facts, e: Entry)
    requires Linked(f) && Apply(f, e).Ok? && Quiet(e.body)
    ensures SameUses(f, Apply(f, e).value)
  {
    hide Linked, ApplyCost, ApplyAdmit, ApplyCheck, ApplyIntent, ApplyAttempt, ApplyOutcome, ApplyReconcile, Resolves;
    match e.body
    case PayCost(c) => CostKeepsUses(f, Booking(c, true));
    case NoteCost(c) => CostKeepsUses(f, Booking(c, false));
    case Admit(q) => AdmitKeepsUses(f, q);
    case _ =>
  }

  lemma CostKeepsUses(f: Facts, b: Booking)
    requires ApplyCost(f, b).Ok?
    ensures SameUses(f, ApplyCost(f, b).value)
  {
  }

  lemma AdmitKeepsUses(f: Facts, q: Qualification)
    requires ApplyAdmit(f, q).Ok?
    ensures SameUses(f, ApplyAdmit(f, q).value)
  {
  }

  lemma CalmKeepsRevocations(f: Facts, e: Entry)
    requires Linked(f) && Apply(f, e).Ok? && Calm(e.body)
    ensures SameRevocations(f, Apply(f, e).value)
  {
    hide Linked, ApplyAdmit, ApplyCheck, ApplyIntent, ApplyAttempt, ApplyOutcome, ApplyReconcile, Resolves;
  }

  ghost predicate AllQuiet(batch: seq<Entry>) {
    forall k :: 0 <= k < |batch| ==> Quiet(batch[k].body)
  }

  ghost predicate AllCalm(batch: seq<Entry>) {
    forall k :: 0 <= k < |batch| ==> Calm(batch[k].body)
  }

  lemma {:induction false} QuietBatch(rows: seq<Entry>, batch: seq<Entry>)
    requires Stored(rows + batch)
    ensures AllQuiet(batch) ==> SameUses(FactsOf(rows), FactsOf(rows + batch))
    ensures AllCalm(batch) ==> SameRevocations(FactsOf(rows), FactsOf(rows + batch))
    decreases |batch|
  {
    hide Replay;
    if batch == [] {
      assert rows + batch == rows;
    } else {
      var n := |batch| - 1;
      var front := batch[..n];
      assert rows + batch == (rows + front) + [batch[n]];
      StoredFront(rows + front, batch[n]);
      ApplyQuiet(FactsOf(rows + front), batch[n]);
      QuietBatch(rows, front);
    }
  }

  /** Each batch entry meets its guard on the state right before it. */
  ghost predicate BatchGuarded(rows: seq<Entry>, batch: seq<Entry>) {
    forall k :: 0 <= k < |batch| ==> Guard(FactsOf(rows + batch[..k]), batch[k])
  }

  lemma GuardedBatch(rows: seq<Entry>, batch: seq<Entry>)
    requires Guarded(rows) && BatchGuarded(rows, batch)
    ensures Guarded(rows + batch)
  {
    hide Guard, FactsOf;
    var all := rows + batch;
    forall k | 0 <= k < |all| ensures Guard(FactsOf(all[..k]), all[k]) {
      if k < |rows| {
        assert all[..k] == rows[..k];
      } else {
        assert all[..k] == rows + batch[..k - |rows|];
      }
    }
  }

  lemma CostBoundBatch(rows: seq<Entry>, batch: seq<Entry>)
    requires CostBound(rows)
    requires forall k :: 0 <= k < |batch| && batch[k].body.Intend? ==> k > 0 && PaysFor(batch[k - 1], batch[k])
    ensures CostBound(rows + batch)
  {
    hide PaysFor;
    var all := rows + batch;
    forall k | 0 <= k < |all| && all[k].body.Intend? ensures k > 0 && PaysFor(all[k - 1], all[k]) {
      if k >= |rows| { assert batch[k - |rows|] == all[k]; }
    }
  }

  lemma QuietBatchKeeps(rows: seq<Entry>, batch: seq<Entry>)
    requires JournalInv(rows) && Stored(rows + batch) && AllQuiet(batch) && BatchGuarded(rows, batch)
    ensures JournalInv(rows + batch) && SameOutcomes(FactsOf(rows), FactsOf(rows + batch))
  {
    hide Replay, Guard, FactsOf, CostBound, Guarded;
    QuietBatch(rows, batch);
    GuardedBatch(rows, batch);
    CostBoundBatch(rows, batch);
  }

  lemma OpenFrame(f: Facts, g: Facts, q: Qualification, input: string)
    requires SameRevocations(f, g)
    ensures Open(f, q, input) == Open(g, q, input)
  {
  }

  // ---- Host records.

  lemma SingleQuietKeeps(rows: seq<Entry>, e: Entry)
    requires JournalInv(rows) && Stored(rows + [e]) && Quiet(e.body) && Guard(FactsOf(rows), e)
    ensures JournalInv(rows + [e]) && SameOutcomes(FactsOf(rows), FactsOf(rows + [e]))
  {
    hide Replay, Guard, FactsOf, JournalInv;
    assert BatchGuarded(rows, [e]) by {
      assert rows + [e][..0] == rows;
    }
    QuietBatchKeeps(rows, [e]);
  }

  lemma SingleChained(rows: seq<Entry>, body: Body, id: Id, now: int)
    requires Event(body, id, now, rows).Ok?
    ensures Chained(rows, [Event(body, id, now, rows).value])
  {
    hide Replay, Event;
    assert rows + [] == rows;
    ChainedSnoc(rows, [], body, id, now);
    assert [] + [Event(body, id, now, rows).value] == [Event(body, id, now, rows).value];
  }

  lemma RecordKeeps(rows: seq<Entry>, body: Body, id: Id, now: int, expected: Digest)
    requires JournalInv(rows) && RecordRows(rows, body, id, now, expected).Ok?
    ensures var a := RecordRows(rows, body, id, now, expected).value;
      rows <= a.rows && JournalInv(a.rows) && SameOutcomes(FactsOf(rows), FactsOf(a.rows))
  {
    hide Replay, Append, Guarded, CostBound, Whole, OneOpenPerScope, Guard, Readable, Chained;
    var e := Event(body, id, now, rows).value;
    SingleChained(rows, body, id, now);
    AppendChained(rows, [e], expected);
    StoredFront(rows, e);
    RecordQuiet(FactsOf(rows), e);
    SingleQuietKeeps(rows, e);
  }

  lemma RecordQuiet(f: Facts, e: Entry)
    requires Recordable(e.body) && Linked(f) && Apply(f, e).Ok?
    ensures Quiet(e.body) && Guard(f, e)
  {
  }

  // ---- Admission.

  lemma {:induction false} CostBatchChained(rows: seq<Entry>, batch: seq<Entry>, costs: seq<Cost>, now: int)
    requires Chained(rows, batch) && AllCalm(batch) && (forall k :: 0 <= k < |batch| ==> batch[k].body.PayCost?)
    requires CostBatch(rows, batch, costs, now).Ok?
    ensures var r := CostBatch(rows, batch, costs, now).value;
      Chained(rows, r) && AllCalm(r) && forall k :: 0 <= k < |r| ==> r[k].body.PayCost?
    decreases |costs|
  {
    hide Replay, Chained;
    if costs != [] {
      var s := Replay(rows + batch).value;
      if costs[0].id in s.facts.costs {
        CostBatchChained(rows, batch, costs[1..], now);
      } else {
        ChainedSnoc(rows, batch, PayCost(costs[0]), CostEventId(costs[0]), now);
        var e := Event(PayCost(costs[0]), CostEventId(costs[0]), now, rows + batch).value;
        CostBatchChained(rows, batch + [e], costs[1..], now);
      }
    }
  }

  /** The facts an eligible view was judged on leave the qualification open. */
  lemma EligibleOpen(host: Host, q: Qualification, context: Context, input: string, now: int, f: Facts)
    requires Eligible(host, q, context, input, now, f)
    ensures Open(f, q, input)
  {
  }

  lemma {:induction false} CalmGuarded(rows: seq<Entry>, batch: seq<Entry>)
    requires forall k :: 0 <= k < |batch| ==> batch[k].body.PayCost?
    ensures BatchGuarded(rows, batch)
  {
  }

  lemma BatchGuardedSnoc(rows: seq<Entry>, batch: seq<Entry>, e: Entry)
    requires BatchGuarded(rows, batch) && Guard(FactsOf(rows + batch), e)
    ensures BatchGuarded(rows, batch + [e])
  {
    hide Guard, FactsOf;
    var all := batch + [e];
    forall k | 0 <= k < |all| ensures Guard(FactsOf(rows + all[..k]), all[k]) {
      if k < |batch| {
        assert all[..k] == batch[..k];
      } else {
        assert all[..k] == batch;
      }
    }
  }

  lemma AdmitGuard(rows: seq<Entry>, host: Host, q: Qualification, now: int, e: Entry)
    requires Replay(rows).Ok? && EligibleForAll(host, q, q.context, now, Replay(rows).value.facts) && e.body == Admit(q)
    ensures Guard(FactsOf(rows), e)
  {
    hide Replay;
    var f := FactsOf(rows);
    forall i | 0 <= i < |q.context.inputs| ensures Open(f, q, q.context.inputs[i]) {
      EligibleOpen(host, q, q.context, q.context.inputs[i], now, f);
    }
  }

  /** The batch of an admission that appends: the missing costs, then the qualification. */
  lemma AdmissionKeeps(rows: seq<Entry>, host: Host, profiles: Profiles, q: Qualification, now: int, expected: Digest)
    requires JournalInv(rows) && AdmitRows(rows, host, profiles, q, now, expected).Ok?
    ensures var a := AdmitRows(rows, host, profiles, q, now, expected).value;
      rows <= a.rows && JournalInv(a.rows) && SameOutcomes(FactsOf(rows), FactsOf(a.rows))
  {
    hide Replay, Append, CostBatch, Guarded, CostBound, Whole, OneOpenPerScope, Guard, Readable, Chained,
      EligibleForAll, Premises, Event, BatchGuarded;
    var costs := CostBatch(rows, [], q.costs, now).value;
    NothingChained(rows);
    CostBatchChained(rows, [], q.costs, now);
    var s := Replay(rows + costs).value;
    if q !in s.facts.qualifications {
      var e := Event(Admit(q), AdmitEventId(q), now, rows + costs).value;
      ChainedSnoc(rows, costs, Admit(q), AdmitEventId(q), now);
      AppendChained(rows, costs + [e], expected);
      EventBody(Admit(q), AdmitEventId(q), now, rows + costs);
      CalmGuarded(rows, costs);
      AdmitGuard(rows + costs, host, q, now, e);
      BatchGuardedSnoc(rows, costs, e);
      QuietBatchKeeps(rows, costs + [e]);
    }
  }

  lemma EventBody(body: Body, id: Id, time: int, before: seq<Entry>)
    requires Event(body, id, time, before).Ok?
    ensures var e := Event(body, id, time, before).value; e.body == body && e.id == id && e.time == time
  {
    hide Replay;
  }

  // ---- Exposure.

  /** Views under way: every one names a qualification that is open on these facts. */
  ghost predicate ViewsOpen(f: Facts, views: seq<View>, input: string) {
    forall k :: 0 <= k < |views| ==> OpenRef(f, views[k].qualification, input)
  }

  lemma RetrievalOpen(
      host: Host, context: Context, input: string, now: int, query: Query, limit: nat, s: State, views: seq<View>)
    requires IsRetrieval(host, context, input, now, query, limit, s, views)
    ensures ViewsOpen(s.facts, views, input)
  {
    var shown := EligibleViews(host, s.facts.qualifications, context, input, now, s);
    var all: seq<View> :| IsRanking(query, shown, all) && views == all[..if limit < |all| then limit else |all|];
    EligibleViewsShape(host, s.facts.qualifications, context, input, now, s);
    forall k | 0 <= k < |views| ensures OpenRef(s.facts, views[k].qualification, input) {
      BestIsLatest(shown, all[k].memoryId);
      assert views[k] in shown;
      EligibleOpen(host, views[k].qualification.qualification, context, input, now, s.facts);
    }
  }

  lemma ExposeGuard(rows: seq<Entry>, batch: seq<Entry>, d: Digest, input: string, e: Entry)
    requires SameRevocations(FactsOf(rows), FactsOf(rows + batch))
    requires OpenRef(FactsOf(rows), d, input) && e.body == Expose(d, input)
    ensures Guard(FactsOf(rows + batch), e)
  {
    hide Replay;
    OpenFrame(FactsOf(rows), FactsOf(rows + batch), d.qualification, input);
  }

  lemma {:induction false} ExposureBatchKeeps(
      rows: seq<Entry>, batch: seq<Entry>, views: seq<View>, input: string, now: int, snapshot: Digest, index: nat)
    requires Stored(rows) && Chained(rows, batch) && AllCalm(batch) && BatchGuarded(rows, batch)
    requires ViewsOpen(FactsOf(rows), views, input)
    requires ExposureBatch(rows, batch, views, input, now, snapshot, index).Ok?
    ensures var r := ExposureBatch(rows, batch, views, input, now, snapshot, index).value;
      Chained(rows, r) && AllCalm(r) && BatchGuarded(rows, r)
    decreases |views|
  {
    hide Replay, Chained, Guard, BatchGuarded, Event, OpenRef;
    if views != [] {
      var d := views[0].qualification;
      var e := Event(Expose(d, input), ExposureEventId(snapshot, index), now, rows + batch).value;
      EventBody(Expose(d, input), ExposureEventId(snapshot, index), now, rows + batch);
      EventReplays(Expose(d, input), ExposureEventId(snapshot, index), now, rows + batch);
      ChainedSnoc(rows, batch, Expose(d, input), ExposureEventId(snapshot, index), now);
      ChainStored(rows, batch);
      QuietBatch(rows, batch);
      ExposeGuard(rows, batch, d, input, e);
      BatchGuardedSnoc(rows, batch, e);
      ExposureBatchKeeps(rows, batch + [e], views[1..], input, now, snapshot, index + 1);
    }
  }

  lemma EventReplays(body: Body, id: Id, time: int, before: seq<Entry>)
    requires Event(body, id, time, before).Ok?
    ensures Replay(before).Ok?
  {
    hide Replay;
  }

  lemma RunKeeps(
      rows: seq<Entry>, host: Host, profiles: Profiles, receiver: string, input: string, now: int, query: Query,
      views: seq<View>)
    requires JournalInv(rows) && RunRows(rows, host, profiles, receiver, input, now, query, views).Ok?
    ensures var a := RunRows(rows, host, profiles, receiver, input, now, query, views).value;
      rows <= a.rows && JournalInv(a.rows) && SameOutcomes(FactsOf(rows), FactsOf(a.rows))
  {
    hide Replay, Append, ExposureBatch, Guarded, CostBound, Whole, OneOpenPerScope, Guard, Readable, Chained, Event,
      BatchGuarded, IsRetrieval, ViewsOpen;
    var s := Replay(rows).value;
    RetrievalOpen(host, profiles[receiver], input, now, query, RUN_LIMIT, s, views);
    var batch := ExposureBatch(rows, [], views, input, now, Revision(s), 0).value;
    NothingChained(rows);
    ExposureBatchKeeps(rows, [], views, input, now, Revision(s), 0);
    AppendChained(rows, batch, Revision(s));
    QuietBatchKeeps(rows, batch);
  }

  lemma NothingChained(rows: seq<Entry>)
    ensures Chained(rows, []) && BatchGuarded(rows, [])
  {
  }
}
