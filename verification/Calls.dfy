/**
 The receiver's calls, each in the terms of what its caller can see: when it succeeds, and which rows it adds.
 Every row is written out; whether it can be stored is a question to the rows alone, see `Meaning.StoredIff`.
*/
module Calls {
  import opened Basics
  import opened Models
  import opened Journal
  import opened JournalLaws
  import opened Store
  import opened Chains
  import opened Eligibility
  import opened Retrieval
  import opened Runtime
  import opened Protocol
  import opened Uses
  import opened Completion
  import opened Meaning
  import Native
  import Rational

  // ---- Batches.

  /** Each entry names the rows and entries before it. */
  predicate Linkup(rows: seq<Entry>, batch: seq<Entry>) {
    forall k :: 0 <= k < |batch| ==> batch[k].previous == OfEntries(rows + batch[..k])
  }

  lemma EmptySound()
    ensures Sound(EMPTY)
  {
  }

  lemma StepFits(s: State, e: Entry)
    requires Sound(s) && Step(s, e).Ok? && FitsList(Step(s, e).value.unique)
    ensures FitsList(s.unique)
  {
    hide Apply, ValidEntry, FitsEntry, Sound, FitsList;
  }

  lemma ReplayFront(rows: seq<Entry>, e: Entry)
    requires Replay(rows + [e]).Ok?
    ensures Replay(rows).Ok?
  {
    hide Step, Sound, FitsList, Fold;
    EmptySound();
    FoldSnoc(EMPTY, rows, e);
    StepFits(Fold(EMPTY, rows).value, e);
  }

  lemma {:induction false} BatchStored(rows: seq<Entry>, batch: seq<Entry>)
    requires Stored(rows) && Linkup(rows, batch)
    ensures Replay(rows + batch).Ok? <==> Stored(rows + batch)
    decreases |batch|
  {
    hide Replay, Appendable, Apply;
    if batch == [] {
      assert rows + batch == rows;
    } else if Replay(rows + batch).Ok? {
      var n := |batch| - 1;
      var front, e := batch[..n], batch[n];
      assert rows + batch == rows + front + [e];
      ReplayFront(rows + front, e);
      assert forall k :: 0 <= k < n ==> front[..k] == batch[..k];
      BatchStored(rows, front);
      ExtendsIff(rows + front, e);
    }
  }

  /** An append of linked entries against the present revision succeeds exactly when all rows can be stored. */
  lemma AppendStored(rows: seq<Entry>, batch: seq<Entry>, expected: Digest)
    requires Stored(rows) && Linkup(rows, batch)
    ensures Append(rows, batch, expected).Ok? <==> expected == OfEntries(rows) && Stored(rows + batch)
    ensures Append(rows, batch, expected).Ok? ==>
      Append(rows, batch, expected).value == Appended(rows + batch, OfEntries(rows + batch))
  {
    hide Replay, Fold, Inserted, Readable;
    BatchStored(rows, batch);
    ReadableStored(rows);
    if Append(rows, batch, expected).Ok? {
      AppendInserts(rows, batch, expected);
      AppendReadable(rows, batch, expected);
    }
  }

  lemma ReadableStored(rows: seq<Entry>)
    requires Stored(rows)
    ensures Readable(rows) && Replay(rows).Ok? && Revision(Replay(rows).value) == OfEntries(rows)
    ensures FactsOf(rows) == Replay(rows).value.facts
  {
    hide Readable;
    ReplayReadable(rows);
  }

  /** What a loop returns, when the entries it should add to a batch are these. */
  ghost predicate Builds(rows: seq<Entry>, batch: seq<Entry>, more: seq<Entry>, r: Result<seq<Entry>>) {
    && (Stored(rows + batch + more) ==> r == Ok(batch + more))
    && (r.Ok? && Replay(rows + r.value).Ok? ==> r.value == batch + more && Stored(rows + batch + more))
  }

  lemma BuildsNone(rows: seq<Entry>, batch: seq<Entry>)
    requires Stored(rows + batch)
    ensures Builds(rows, batch, [], Ok(batch))
  {
    hide Stored, Replay;
    assert batch + [] == batch && rows + batch + [] == rows + batch;
  }

  lemma BuildsCons(rows: seq<Entry>, batch: seq<Entry>, e: Entry, rest: seq<Entry>, r: Result<seq<Entry>>)
    requires Builds(rows, batch + [e], rest, r)
    ensures Builds(rows, batch, [e] + rest, r)
  {
    hide Stored, Replay;
    assert rows + (batch + [e]) + rest == rows + batch + ([e] + rest);
    assert batch + ([e] + rest) == batch + [e] + rest;
  }

  /** An entry that cannot follow, or is not valid: neither the loop nor the rows get any further. */
  lemma BuildsNothing(rows: seq<Entry>, batch: seq<Entry>, e: Entry, rest: seq<Entry>, r: Result<seq<Entry>>)
    requires Stored(rows + batch) && e.previous == OfEntries(rows + batch)
    requires (Replay(rows + batch + [e]).Err? || !ValidId(e.id) || !ValidTick(e.time))
    requires r.Ok? ==> Replay(rows + r.value).Err?
    ensures Builds(rows, batch, [e] + rest, r)
  {
    hide Stored, Replay, ValidId;
    var at := rows + batch;
    if Stored(at + ([e] + rest)) {
      assert at + ([e] + rest) == at + [e] + rest;
      PrefixStored(at + [e], rest);
      StoredValid(at, e);
      ReadableStored(at + [e]);
    }
  }

  lemma ReplayStoredOne(rows: seq<Entry>, batch: seq<Entry>, e: Entry)
    requires Stored(rows + batch) && e.previous == OfEntries(rows + batch) && Replay(rows + batch + [e]).Ok?
    ensures Stored(rows + (batch + [e]))
  {
    hide Stored, Replay, Appendable, Apply;
    ExtendsIff(rows + batch, e);
    assert rows + (batch + [e]) == rows + batch + [e];
  }

  // ---- Host records.

  /** Invalidations, withdrawals, allegations, costs and corrections, and malformed data of such a kind. */
  predicate HostKind(body: Body) {
    match body
    case Invalidate(_, _, _, _) => true
    case Withdraw(_, _) => true
    case Allege(_, _, _, _) => true
    case PayCost(_) => true
    case NoteCost(_) => true
    case Correction(_) => true
    case Malformed(kind, _) => kind in ["invalidate", "withdraw", "allegation", "cost", "correction"]
    case _ => false
  }

  lemma HostKinds(body: Body)
    ensures HostKind(body) <==> Recordable(body)
  {
    var kinds := ["invalidate", "withdraw", "allegation", "cost", "correction"];
    assert forall k :: k in kinds <==> k in {"invalidate", "withdraw", "allegation", "cost", "correction"};
    var name := KindName(body);
    if body.Admit? || body.Expose? || body.Intend? || body.Attempt? || body.Outcome? || body.Check? || body.Reconcile? {
      forall k | k in kinds ensures |k| != |name| || k[0] != name[0] {
      }
    }
  }

  /** A host record is taken exactly when its kind is one of five and the row it makes can follow. */
  lemma RecordIff(rows: seq<Entry>, body: Body, id: Id, now: int, expected: Digest)
    requires Stored(rows)
    ensures var e := Entry(id, OfEntries(rows), now, body);
      var r := RecordRows(rows, body, id, now, expected);
      && (r.Ok? <==>
            && HostKind(body)
            && expected == OfEntries(rows) && Stored(rows + [e]))
      && (r.Ok? ==> r.value == Appended(rows + [e], OfEntries(rows + [e])))
  {
    hide Replay, Append, Readable, Stored, ValidId, Recordable, HostKind;
    var e := Entry(id, OfEntries(rows), now, body);
    HostKinds(body);
    ReadableStored(rows);
    EventStored(body, id, now, rows);
    assert rows + [e][..0] == rows;
    AppendStored(rows, [e], expected);
    if Stored(rows + [e]) { StoredValid(rows, e); }
  }

  lemma StoredValid(rows: seq<Entry>, e: Entry)
    requires Stored(rows + [e])
    ensures ValidId(e.id) && ValidTick(e.time)
  {
    hide Stored, FitsList, Legal, HasRow;
    StoredIff(rows + [e]);
    var all := rows + [e];
    assert all[..|rows|] == rows && InPlace(all[..|rows|], all[|rows|]);
  }

  // ---- Exposure.

  /** One exposure for each view, in order, numbered from `index`. */
  function ExposureEntries(
    rows: seq<Entry>, views: seq<View>, input: string, now: int, snapshot: Digest, index: nat): seq<Entry>
    decreases |views|
  {
    if views == [] then []
    else
      var e := ExposureEntry(rows, views[0], input, now, snapshot, index);
      [e] + ExposureEntries(rows + [e], views[1..], input, now, snapshot, index + 1)
  }

  lemma LinkupCons(rows: seq<Entry>, e: Entry, batch: seq<Entry>)
    requires e.previous == OfEntries(rows) && Linkup(rows + [e], batch)
    ensures Linkup(rows, [e] + batch)
  {
    var all := [e] + batch;
    forall k | 0 <= k < |all| ensures all[k].previous == OfEntries(rows + all[..k]) {
      if k == 0 {
        assert rows + all[..0] == rows;
      } else {
        assert all[..k] == [e] + batch[..k - 1];
        assert rows + [e] + batch[..k - 1] == rows + all[..k];
      }
    }
  }

  lemma {:induction false} ExposuresLinked(
      rows: seq<Entry>, views: seq<View>, input: string, now: int, snapshot: Digest, index: nat)
    ensures Linkup(rows, ExposureEntries(rows, views, input, now, snapshot, index))
    decreases |views|
  {
    hide Linkup;
    if views != [] {
      var e := ExposureEntry(rows, views[0], input, now, snapshot, index);
      ExposuresLinked(rows + [e], views[1..], input, now, snapshot, index + 1);
      LinkupCons(rows, e, ExposureEntries(rows + [e], views[1..], input, now, snapshot, index + 1));
    } else {
      LinkupNone(rows);
    }
  }

  lemma LinkupNone(rows: seq<Entry>)
    ensures Linkup(rows, [])
  {
  }

  lemma PrefixStored(rows: seq<Entry>, batch: seq<Entry>)
    requires Stored(rows + batch)
    ensures Stored(rows)
  {
    hide Stored;
    StoredPrefix(rows + batch, |rows|);
    assert (rows + batch)[..|rows|] == rows;
  }

  function ExposureEntry(rows: seq<Entry>, v: View, input: string, now: int, snapshot: Digest, index: nat): Entry {
    Entry(Text("exposure-") + [Hex(snapshot, 20)] + Text(Rational.PrintNat(index)), OfEntries(rows), now,
          Expose(v.qualification, input))
  }

  lemma ExposureTurn(
      rows: seq<Entry>, batch: seq<Entry>, views: seq<View>, input: string, now: int, snapshot: Digest, index: nat)
    requires Stored(rows + batch) && views != []
    ensures var e := ExposureEntry(rows + batch, views[0], input, now, snapshot, index);
      ExposureBatch(rows, batch, views, input, now, snapshot, index) ==
        if ValidId(e.id) && ValidTick(now)
        then ExposureBatch(rows, batch + [e], views[1..], input, now, snapshot, index + 1)
        else Err(InvalidModel)
  {
    hide Replay, Stored, ValidId;
    var e := ExposureEntry(rows + batch, views[0], input, now, snapshot, index);
    assert ExposureEventId(snapshot, index) == e.id;
    EventStored(e.body, e.id, now, rows + batch);
  }

  lemma {:induction false} ExposureBatchIs(
      rows: seq<Entry>, batch: seq<Entry>, views: seq<View>, input: string, now: int, snapshot: Digest, index: nat)
    requires Stored(rows + batch)
    ensures Builds(rows, batch, ExposureEntries(rows + batch, views, input, now, snapshot, index),
                   ExposureBatch(rows, batch, views, input, now, snapshot, index))
    decreases |views|
  {
    hide Stored, Replay, Builds, ValidId;
    var at := rows + batch;
    if views == [] {
      BuildsNone(rows, batch);
    } else {
      hide ExposureBatch;
      var e, r := ExposureEntry(at, views[0], input, now, snapshot, index),
                  ExposureBatch(rows, batch, views, input, now, snapshot, index);
      var rest := ExposureEntries(at + [e], views[1..], input, now, snapshot, index + 1);
      ExposureTurn(rows, batch, views, input, now, snapshot, index);
      assert rows + (batch + [e]) == at + [e];
      if Replay(at + [e]).Ok? && ValidId(e.id) && ValidTick(now) {
        ReplayStoredOne(rows, batch, e);
        ExposureBatchIs(rows, batch + [e], views[1..], input, now, snapshot, index + 1);
        BuildsCons(rows, batch, e, rest, r);
      } else {
        if Replay(at + [e]).Err? {
          ExposureBatchFails(rows, batch + [e], views[1..], input, now, snapshot, index + 1);
        }
        BuildsNothing(rows, batch, e, rest, r);
      }
    }
  }

  lemma ExposureBatchFails(
      rows: seq<Entry>, batch: seq<Entry>, views: seq<View>, input: string, now: int, snapshot: Digest, index: nat)
    requires Replay(rows + batch).Err?
    ensures var r := ExposureBatch(rows, batch, views, input, now, snapshot, index);
      r.Ok? ==> Replay(rows + r.value).Err?
  {
    hide Replay;
  }

  /**
   `run` with these views succeeds exactly for a registered receiver, a valid time if anything is admitted,
   views that retrieval may return, and exposures of them that can follow.
  */
  lemma RunIff(
      rows: seq<Entry>, host: Host, profiles: Profiles, receiver: string, input: string, now: int, query: Query,
      views: seq<View>, s: State)
    requires Replays(rows, s)
    ensures var more := ExposureEntries(rows, views, input, now, OfEntries(rows), 0);
      var r := RunRows(rows, host, profiles, receiver, input, now, query, views);
      && (r.Ok? <==>
            && receiver in profiles && (s.facts.qualifications != [] ==> 0 <= now <= 0x8000_0000)
            && IsRetrieval(host, profiles[receiver], input, now, query, 8, s, views)
            && Stored(rows + more))
      && (r.Ok? ==> r.value == Appended(rows + more, OfEntries(rows + more)))
  {
    hide Replays, Replay, Append, Readable, Stored, IsRetrieval;
    ReplaysMeans(rows, s);
    ReadableStored(rows);
    assert rows + [] == rows;
    var more := ExposureEntries(rows, views, input, now, OfEntries(rows), 0);
    assert [] + more == more;
    ExposureBatchIs(rows, [], views, input, now, OfEntries(rows), 0);
    ExposuresLinked(rows, views, input, now, OfEntries(rows), 0);
    AppendStored(rows, more, OfEntries(rows));
    var batch := ExposureBatch(rows, [], views, input, now, OfEntries(rows), 0);
    if batch.Ok? && Replay(rows + batch.value).Err? { AppendRefused(rows, batch.value, OfEntries(rows)); }
  }

  lemma AppendRefused(rows: seq<Entry>, batch: seq<Entry>, expected: Digest)
    requires Replay(rows + batch).Err?
    ensures Append(rows, batch, expected).Err?
  {
    hide Replay, Readable;
  }

  // ---- Admission.

  /** A cost entry for every obligation whose id is not on record by then. */
  ghost function DueCosts(rows: seq<Entry>, costs: seq<Cost>, now: int): seq<Entry>
    decreases |costs|
  {
    if costs == [] then []
    else if Costed(rows, costs[0].id) then DueCosts(rows, costs[1..], now)
    else
      var e := DueEntry(rows, costs[0], now);
      [e] + DueCosts(rows + [e], costs[1..], now)
  }

  lemma {:induction false} DueLinked(rows: seq<Entry>, costs: seq<Cost>, now: int)
    ensures Linkup(rows, DueCosts(rows, costs, now))
    decreases |costs|
  {
    hide Linkup, Costed;
    if costs == [] {
      LinkupNone(rows);
    } else if Costed(rows, costs[0].id) {
      DueLinked(rows, costs[1..], now);
    } else {
      var e := DueEntry(rows, costs[0], now);
      DueLinked(rows + [e], costs[1..], now);
      LinkupCons(rows, e, DueCosts(rows + [e], costs[1..], now));
    }
  }

  function DueEntry(rows: seq<Entry>, c: Cost, now: int): Entry {
    Entry(Text("cost-") + [Hex(OfCost(c), 24)], OfEntries(rows), now, PayCost(c))
  }

  /** One turn of the loop over obligations. */
  lemma CostBatchTurn(rows: seq<Entry>, batch: seq<Entry>, costs: seq<Cost>, now: int)
    requires Stored(rows + batch) && costs != []
    ensures var at := rows + batch;
      var e := DueEntry(at, costs[0], now);
      CostBatch(rows, batch, costs, now) ==
        if Costed(at, costs[0].id) then CostBatch(rows, batch, costs[1..], now)
        else if ValidId(e.id) && ValidTick(now) then CostBatch(rows, batch + [e], costs[1..], now)
        else Err(InvalidModel)
    ensures var at := rows + batch;
      var e := DueEntry(at, costs[0], now);
      DueCosts(at, costs, now) ==
        if Costed(at, costs[0].id) then DueCosts(at, costs[1..], now) else [e] + DueCosts(at + [e], costs[1..], now)
  {
    hide Replay, Stored, ValidId, Costed, FactsOf, Linked;
    var at := rows + batch;
    ReadableStored(at);
    CostedRead(at, costs[0].id);
    EventStored(PayCost(costs[0]), DueEntry(at, costs[0], now).id, now, at);
  }

  lemma {:induction false} CostBatchIs(rows: seq<Entry>, batch: seq<Entry>, costs: seq<Cost>, now: int)
    requires Stored(rows + batch)
    ensures Builds(rows, batch, DueCosts(rows + batch, costs, now), CostBatch(rows, batch, costs, now))
    decreases |costs|
  {
    hide Stored, Replay, Builds, Costed, ValidId;
    var at := rows + batch;
    if costs == [] {
      BuildsNone(rows, batch);
    } else {
      hide CostBatch, DueCosts, DueEntry;
      CostBatchTurn(rows, batch, costs, now);
      if Costed(at, costs[0].id) {
        CostBatchIs(rows, batch, costs[1..], now);
      } else {
        var e, r := DueEntry(at, costs[0], now), CostBatch(rows, batch, costs, now);
        var rest := DueCosts(at + [e], costs[1..], now);
        DueShape(at, costs[0], now);
        assert rows + (batch + [e]) == at + [e];
        if Replay(at + [e]).Ok? && ValidId(e.id) && ValidTick(now) {
          ReplayStoredOne(rows, batch, e);
          CostBatchIs(rows, batch + [e], costs[1..], now);
          BuildsCons(rows, batch, e, rest, r);
        } else {
          if Replay(at + [e]).Err? { CostBatchFails(rows, batch + [e], costs[1..], now); }
          BuildsNothing(rows, batch, e, rest, r);
        }
      }
    }
  }

  lemma DueShape(rows: seq<Entry>, c: Cost, now: int)
    ensures DueEntry(rows, c, now).previous == OfEntries(rows) && DueEntry(rows, c, now).time == now
  {
  }

  lemma CostBatchFails(rows: seq<Entry>, batch: seq<Entry>, costs: seq<Cost>, now: int)
    requires Replay(rows + batch).Err?
    ensures var r := CostBatch(rows, batch, costs, now); r.Ok? ==> Replay(rows + r.value).Err?
  {
    hide Replay;
  }

  lemma {:induction false} DueAdmitsNothing(rows: seq<Entry>, costs: seq<Cost>, now: int, q: Qualification)
    ensures HasBody(rows + DueCosts(rows, costs, now), Admit(q)) <==> HasBody(rows, Admit(q))
    decreases |costs|
  {
    hide HasBody, Costed;
    if costs == [] {
      assert rows + [] == rows;
    } else if Costed(rows, costs[0].id) {
      DueAdmitsNothing(rows, costs[1..], now, q);
    } else {
      var e := DueEntry(rows, costs[0], now);
      var rest := DueCosts(rows + [e], costs[1..], now);
      DueAdmitsNothing(rows + [e], costs[1..], now, q);
      BodySnoc(rows, e, Admit(q));
      assert rows + ([e] + rest) == rows + [e] + rest;
    }
  }

  /** The rows with the costs that an admission still owes. */
  ghost function PaidRows(rows: seq<Entry>, q: Qualification, now: int): seq<Entry> {
    rows + DueCosts(rows, q.costs, now)
  }

  function AdmitEntry(paid: seq<Entry>, q: Qualification, now: int): Entry {
    Entry(Text("admit-") + [Hex(OfQualification(q), 24)], OfEntries(paid), now, Admit(q))
  }

  /** Host, receiver and inputs allow the admission, on the state with the costs paid. */
  ghost predicate MayAdmit(paid: seq<Entry>, host: Host, profiles: Profiles, q: Qualification, now: int) {
    && q.context.receiver in profiles && profiles[q.context.receiver] == q.context
    && Premises(host, q, now)
    && (q.context.inputs == [] || 0 <= now <= 0x8000_0000)
    && forall i :: 0 <= i < |q.context.inputs| ==>
         Eligible(host, q, q.context, q.context.inputs[i], now, FactsOf(paid))
  }

  /** The costs that are owed, when they can be recorded. */
  lemma CostsPaid(rows: seq<Entry>, q: Qualification, now: int)
    requires Stored(rows)
    ensures var b, due := CostBatch(rows, [], q.costs, now), DueCosts(rows, q.costs, now);
      && (Stored(rows + due) <==> b.Ok? && Replay(rows + b.value).Ok?)
      && (Stored(rows + due) ==> b == Ok(due))
  {
    hide Stored, Replay, CostBatch, DueCosts;
    var due := DueCosts(rows, q.costs, now);
    assert rows + [] == rows && [] + due == due;
    CostBatchIs(rows, [], q.costs, now);
    if Stored(rows + due) { ReadableStored(rows + due); }
  }

  /** The last step of an admission, once the costs are known to go through. */
  lemma AdmitLast(rows: seq<Entry>, due: seq<Entry>, q: Qualification, now: int, expected: Digest)
    requires Stored(rows) && Stored(rows + due) && Linkup(rows, due)
    ensures var paid := rows + due;
      var e := AdmitEntry(paid, q, now);
      && (Stored(paid + [e]) ==> Event(Admit(q), AdmitEventId(q), now, paid) == Ok(e))
      && (Event(Admit(q), AdmitEventId(q), now, paid).Ok? ==> Event(Admit(q), AdmitEventId(q), now, paid).value == e)
      && (Append(rows, due + [e], expected).Ok? <==> expected == OfEntries(rows) && Stored(paid + [e]))
      && (Append(rows, due + [e], expected).Ok? ==>
            Append(rows, due + [e], expected).value == Appended(paid + [e], OfEntries(paid + [e])))
  {
    hide Stored, Replay, Append, ValidId;
    var paid := rows + due;
    var e := AdmitEntry(paid, q, now);
    assert rows + (due + [e]) == paid + [e];
    EventStored(Admit(q), AdmitEventId(q), now, paid);
    if Stored(paid + [e]) { StoredValid(paid, e); }
    LinkupSnoc(rows, due, e);
    AppendStored(rows, due + [e], expected);
  }

  lemma LinkupSnoc(rows: seq<Entry>, batch: seq<Entry>, e: Entry)
    requires Linkup(rows, batch) && e.previous == OfEntries(rows + batch)
    ensures Linkup(rows, batch + [e])
  {
    var all := batch + [e];
    forall k | 0 <= k < |all| ensures all[k].previous == OfEntries(rows + all[..k]) {
      assert all[..k] == if k < |batch| then batch[..k] else batch;
    }
  }

  /**
   An admission succeeds exactly for the registered context of its receiver, against the present revision,
   with premises that hold, every input eligible once the costs are paid, and rows that can follow. It then
   adds the costs that were owed and the admission, or nothing if it was admitted before.
  */
  lemma AdmitIff(
      rows: seq<Entry>, host: Host, profiles: Profiles, q: Qualification, now: int, expected: Digest)
    requires Stored(rows)
    ensures var paid := PaidRows(rows, q, now);
      var all := if HasBody(rows, Admit(q)) then rows else paid + [AdmitEntry(paid, q, now)];
      var r := AdmitRows(rows, host, profiles, q, now, expected);
      && (r.Ok? <==>
            expected == OfEntries(rows) && Stored(paid) && MayAdmit(paid, host, profiles, q, now) && Stored(all))
      && (r.Ok? ==> r.value == Appended(all, OfEntries(all)))
  {
    hide *;
    var due, paid := DueCosts(rows, q.costs, now), PaidRows(rows, q, now);
    ReadableStored(rows);
    CostsPaid(rows, q, now);
    DueLinked(rows, q.costs, now);
    DueAdmitsNothing(rows, q.costs, now, q);
    PaidMeans(rows, q, now);
    if Stored(paid) {
      ReadableStored(paid);
      QualificationsRead(paid, q);
      AdmitLast(rows, due, q, now, expected);
      AdmitCase(rows, due, host, profiles, q, now, expected);
      MayAdmitIs(host, profiles, q, now, FactsOf(paid), paid);
    } else {
      CostsFail(rows, host, profiles, q, now, expected);
    }
  }

  lemma PaidMeans(rows: seq<Entry>, q: Qualification, now: int)
    ensures PaidRows(rows, q, now) == rows + DueCosts(rows, q.costs, now)
  {
  }

  lemma MayAdmitIs(host: Host, profiles: Profiles, q: Qualification, now: int, f: Facts, paid: seq<Entry>)
    requires FactsOf(paid) == f
    ensures MayAdmit(paid, host, profiles, q, now) <==>
      && q.context.receiver in profiles && profiles[q.context.receiver] == q.context
      && Premises(host, q, now) && EligibleForAll(host, q, q.context, now, f)
  {
    hide FactsOf, Eligible, Premises;
  }

  lemma CostsFail(rows: seq<Entry>, host: Host, profiles: Profiles, q: Qualification, now: int, expected: Digest)
    requires var b := CostBatch(rows, [], q.costs, now); b.Ok? ==> Replay(rows + b.value).Err?
    ensures AdmitRows(rows, host, profiles, q, now, expected).Err?
  {
    hide Replay, CostBatch, Append, Readable, EligibleForAll, Premises, Event;
  }

  /** An admission whose costs can be recorded. */
  lemma AdmitCase(
      rows: seq<Entry>, due: seq<Entry>, host: Host, profiles: Profiles, q: Qualification, now: int, expected: Digest)
    requires Readable(rows) && Replay(rows).Ok? && CostBatch(rows, [], q.costs, now) == Ok(due)
    requires Replay(rows + due).Ok?
    ensures var f := Replay(rows + due).value.facts;
      var e := Event(Admit(q), AdmitEventId(q), now, rows + due);
      var r := AdmitRows(rows, host, profiles, q, now, expected);
      if q.context.receiver in profiles && profiles[q.context.receiver] == q.context
         && Revision(Replay(rows).value) == expected && Premises(host, q, now)
         && EligibleForAll(host, q, q.context, now, f)
      then
        if q in f.qualifications then r == Ok(Appended(rows, expected))
        else if e.Err? then r.Err?
        else r == Append(rows, due + [e.value], expected)
      else r.Err?
  {
    hide Replay, CostBatch, Append, Readable, EligibleForAll, Premises, Event;
  }

  // ---- Reservation.

  /** An intent of this qualification and input that has no received and checked answer. */
  predicate Pending(f: Facts, qualification: Digest, input: string) {
    exists i :: i in f.intents && f.intents[i].qualification == qualification && f.intents[i].input == input
                && !(i in f.checked && i in f.outcomes && f.outcomes[i].status == Received)
  }

  /**
   An identity that is on record is a duplicate exactly when the recorded intent has the qualification, input,
   action and cost id of the call, and the cost is on record as the call states it; otherwise it is refused.
  */
  lemma DuplicateIff(rows: seq<Entry>, host: Host, profiles: Profiles, call: UseCall)
    requires Stored(rows) && call.identity in FactsOf(rows).intents
    ensures var f, r := FactsOf(rows), ReserveRows(rows, host, profiles, call);
      var n := f.intents[call.identity];
      && (r.Duplicate? || r.Refused?)
      && (r.Duplicate? <==>
            && call.admissible && call.cost.stage == Use && call.expected == OfEntries(rows)
            && n.qualification == call.qualification && n.input == call.input && n.action == call.action
            && n.cost == call.cost.id
            && call.cost.id in f.costs && f.costs[call.cost.id] == Booking(call.cost, true))
      && (r.Duplicate? ==> r.service == (call.identity in f.services))
  {
    hide *;
    ReadableStored(rows);
    DuplicateCase(rows, host, profiles, call);
    SameUseMeans(FactsOf(rows), call);
  }

  /** A repeated identity is settled before anything else is looked at. */
  lemma DuplicateCase(rows: seq<Entry>, host: Host, profiles: Profiles, call: UseCall)
    requires Readable(rows) && Replay(rows).Ok? && call.identity in Replay(rows).value.facts.intents
    ensures var s, r := Replay(rows).value, ReserveRows(rows, host, profiles, call);
      r == if !call.admissible || call.cost.stage != Use || Revision(s) != call.expected || !SameUse(s.facts, call)
           then Refused else Duplicate(call.identity in s.facts.services)
  {
    hide Replay, Readable, Append, ReserveBatch, MayReserve, SameUse;
  }

  lemma SameUseMeans(f: Facts, call: UseCall)
    requires call.identity in f.intents
    ensures var n := f.intents[call.identity];
      SameUse(f, call) <==>
        && n.qualification == call.qualification && n.input == call.input && n.action == call.action
        && n.cost == call.cost.id
        && call.cost.id in f.costs && f.costs[call.cost.id] == Booking(call.cost, true)
  {
  }

  function UseCostEntry(rows: seq<Entry>, call: UseCall): Entry {
    Entry(Text("use-cost-") + [Hex(OfCost(call.cost), 24)], OfEntries(rows), call.now, PayCost(call.cost))
  }

  function IntentEntry(rows: seq<Entry>, call: UseCall): Entry {
    var n := Intent(call.qualification, call.input, call.action, call.cost.id, OfEntries(rows));
    Entry(call.identity, OfEntries(rows + [UseCostEntry(rows, call)]), call.now, Intend(n))
  }

  function ReservedRowsOf(rows: seq<Entry>, call: UseCall): seq<Entry> {
    rows + [UseCostEntry(rows, call)] + [IntentEntry(rows, call)]
  }

  lemma ReserveBatchIs(rows: seq<Entry>, call: UseCall)
    requires Stored(rows) && call.expected == OfEntries(rows)
    ensures var pay, intend := UseCostEntry(rows, call), IntentEntry(rows, call);
      Builds(rows, [], [pay] + [intend], ReserveBatch(rows, call))
  {
    hide Stored, Replay, Builds, ValidId;
    var pay, intend := UseCostEntry(rows, call), IntentEntry(rows, call);
    var r := ReserveBatch(rows, call);
    assert rows + [] == rows && [] + [pay] == [pay] && [pay] + [intend] == [pay, intend];
    assert UseCostEventId(call.cost) == pay.id && IntentOf(call) == intend.body.intent;
    EventStored(pay.body, pay.id, call.now, rows);
    if Replay(rows + [pay]).Ok? && ValidId(pay.id) && ValidTick(call.now) {
      ReplayStoredOne(rows, [], pay);
      EventStored(intend.body, intend.id, call.now, rows + [pay]);
      if ValidId(intend.id) {
        LastBuilt(rows, [pay], intend);
      } else {
        BuildsNothing(rows, [pay], intend, [], r);
      }
      assert [intend] + [] == [intend];
      BuildsCons(rows, [], pay, [intend], r);
    } else {
      if Replay(rows + [pay]).Err? && r.Ok? { EventReplays2(intend, rows + [pay]); }
      BuildsNothing(rows, [], pay, [intend], r);
    }
  }

  lemma EventReplays2(e: Entry, before: seq<Entry>)
    requires Replay(before).Err?
    ensures Event(e.body, e.id, e.time, before).Err?
  {
    hide Replay;
  }

  /** An entry that is added whether or not it can follow. */
  lemma LastBuilt(rows: seq<Entry>, batch: seq<Entry>, e: Entry)
    requires Stored(rows + batch) && e.previous == OfEntries(rows + batch)
    ensures Builds(rows, batch, [e], Ok(batch + [e]))
  {
    hide Stored, Replay;
    assert rows + (batch + [e]) == rows + batch + [e];
    if Replay(rows + batch + [e]).Ok? { ReplayStoredOne(rows, batch, e); }
  }

  /** Receiver, time and eligibility allow the use, and nothing of its scope is pending. */
  predicate MayUse(host: Host, profiles: Profiles, call: UseCall, f: Facts) {
    && call.qualification.OfQualification?
    && var q := call.qualification.qualification;
      && q in f.qualifications && !Pending(f, call.qualification, call.input)
      && q.context.receiver in profiles && 0 <= call.now <= 0x8000_0000
      && Eligible(host, q, profiles[q.context.receiver], call.input, call.now, f)
  }

  lemma MayReserveIs(host: Host, profiles: Profiles, call: UseCall, s: State)
    requires Linked(s.facts)
    ensures MayReserve(host, profiles, call, s) <==> MayUse(host, profiles, call, s.facts)
  {
    hide Eligible;
  }

  /**
   A new identity is reserved exactly when the call is admissible, its cost is a use cost, the revision is the
   present one, receiver, time, eligibility and scope allow it, and its cost and intent can follow. It is
   never called a duplicate.
  */
  lemma ReserveIff(rows: seq<Entry>, host: Host, profiles: Profiles, call: UseCall)
    requires Stored(rows) && call.identity !in FactsOf(rows).intents
    ensures var all, r := ReservedRowsOf(rows, call), ReserveRows(rows, host, profiles, call);
      && (r.Reserved? || r.Refused?)
      && (r.Reserved? <==>
            && call.admissible && call.cost.stage == Use && call.expected == OfEntries(rows)
            && MayUse(host, profiles, call, FactsOf(rows)) && Stored(all))
      && (r.Reserved? ==>
            var q := call.qualification.qualification;
            r == Reserved(all, Ticket(call.identity, q, profiles[q.context.receiver], call.input, call.now,
                                      OfEntries(all))))
  {
    hide Replay, Readable, Stored, Append, ReserveBatch, MayReserve, MayUse, Builds, UseCostEntry, IntentEntry;
    ReadableStored(rows);
    StoredLinked(rows);
    MayReserveIs(host, profiles, call, Replay(rows).value);
    if call.expected == OfEntries(rows) { ReserveCommits(rows, call); }
    if MayUse(host, profiles, call, FactsOf(rows)) { MayUseShape(host, profiles, call, FactsOf(rows)); }
  }

  lemma MayUseShape(host: Host, profiles: Profiles, call: UseCall, f: Facts)
    requires MayUse(host, profiles, call, f)
    ensures call.qualification.OfQualification? && call.qualification.qualification.context.receiver in profiles
  {
  }

  lemma ReserveCommits(rows: seq<Entry>, call: UseCall)
    requires Stored(rows) && call.expected == OfEntries(rows)
    ensures var b, all := ReserveBatch(rows, call), ReservedRowsOf(rows, call);
      && (Stored(all) <==> b.Ok? && Append(rows, b.value, call.expected).Ok?)
      && (Stored(all) ==> Append(rows, b.value, call.expected).value == Appended(all, OfEntries(all)))
  {
    hide Stored, Replay, Append, ReserveBatch;
    var pay, intend := UseCostEntry(rows, call), IntentEntry(rows, call);
    ReserveBatchIs(rows, call);
    assert rows + [] + ([pay] + [intend]) == ReservedRowsOf(rows, call);
    assert [] + ([pay] + [intend]) == [pay] + [intend];
    assert rows + ([pay] + [intend]) == ReservedRowsOf(rows, call);
    LinkupNone(rows);
    assert rows + [] == rows && [] + [pay] == [pay];
    LinkupSnoc(rows, [], pay);
    LinkupSnoc(rows, [pay], intend);
    AppendStored(rows, [pay] + [intend], call.expected);
    var b := ReserveBatch(rows, call);
    if b.Ok? && Replay(rows + b.value).Err? { AppendRefused(rows, b.value, call.expected); }
  }

  // ---- Execution.

  function OutcomeRow(t: Ticket, result: ToolResult): Body {
    match result
    case Answers(text) => Outcome(t.identity, text, Received)
    case TimesOut => Outcome(t.identity, "", Timeout)
    case _ => Outcome(t.identity, "", Lost)
  }

  /** The row that a use adds under a suffix of its identity. */
  function UseRow(rows: seq<Entry>, t: Ticket, suffix: string, body: Body): seq<Entry> {
    rows + [Entry(t.identity + Text(suffix), OfEntries(rows), t.now, body)]
  }

  /** The rows with attempt, outcome, check and reconciliation of a use. */
  function UsedRows(rows: seq<Entry>, t: Ticket, result: ToolResult): seq<Entry> {
    var attempted := UseRow(rows, t, "-attempt", Attempt(t.identity));
    var answered := UseRow(attempted, t, "-outcome", OutcomeRow(t, result));
    var checked := UseRow(answered, t, "-check", Check(t.identity, "normalize-checker-v1"));
    UseRow(checked, t, "-reconcile", Reconcile(t.identity))
  }

  lemma UsedIs(rows: seq<Entry>, t: Ticket, result: ToolResult)
    requires !result.Raises?
    ensures UsedRows(rows, t, result) == rows + UseEntries(rows, t, result)
  {
    var es := UseEntries(rows, t, result);
    assert rows + [es[0]] + [es[1]] == rows + [es[0], es[1]];
    assert rows + [es[0]] + [es[1]] + [es[2]] == rows + [es[0], es[1], es[2]];
    assert OutcomeRow(t, result) == OutcomeBody(t.identity, result);
  }

  lemma UseLinked(rows: seq<Entry>, t: Ticket, result: ToolResult)
    ensures Linkup(rows, UseEntries(rows, t, result))
  {
    hide UseEntries, WithRecords;
    var es := UseEntries(rows, t, result);
    forall k | 0 <= k < 4 ensures es[k].previous == OfEntries(rows + es[..k]) {
      RecordsStep(rows, t, result, k);
      RecordsAre(rows, t, result, k);
    }
  }

  lemma RecordsAre(rows: seq<Entry>, t: Ticket, result: ToolResult, k: nat)
    requires k <= 4
    ensures WithRecords(rows, t, result, k) == rows + UseEntries(rows, t, result)[..k]
  {
  }

  /** Rows with all four records: every prefix of them replays, and their ids are valid. */
  lemma UsedReplays(rows: seq<Entry>, t: Ticket, result: ToolResult)
    requires Stored(rows + UseEntries(rows, t, result))
    ensures RecordsReplay(rows, t, result, 4)
    ensures forall k :: 0 <= k < 4 ==> ValidId(UseEntries(rows, t, result)[k].id)
  {
    hide Stored, Replay, UseEntries, WithRecords, ValidId;
    var es := UseEntries(rows, t, result);
    var all := rows + es;
    forall j: nat | j <= 4 ensures Stored(WithRecords(rows, t, result, j)) {
      RecordsAre(rows, t, result, j);
      assert all == rows + es[..j] + es[j..];
      PrefixStored(rows + es[..j], es[j..]);
    }
    forall j: nat | j <= 4 ensures Replay(WithRecords(rows, t, result, j)).Ok? {
      ReadableStored(WithRecords(rows, t, result, j));
    }
    forall k | 0 <= k < 4 ensures ValidId(es[k].id) {
      RecordsStep(rows, t, result, k);
      StoredValid(WithRecords(rows, t, result, k), es[k]);
    }
  }

  lemma ClosesIff(rows: seq<Entry>, t: Ticket, result: ToolResult)
    requires Stored(rows) && ValidTick(t.now) && t.reserved == OfEntries(rows)
    ensures var all, c := UsedRows(rows, t, result), CloseRows(rows, AttemptOf(rows, t), t, result);
      && (c.Ok? <==> !result.Raises? && Stored(all))
      && (c.Ok? ==> c.value == Appended(all, OfEntries(all)))
  {
    hide Stored, Replay, UseEntries, UsedRows, ClosingBatch, Append, ValidId, AttemptOf, RecordsReplay;
    if !result.Raises? {
      ClosingBatchIff(rows, t, result);
      UsedIs(rows, t, result);
      UseLinked(rows, t, result);
      AppendStored(rows, UseEntries(rows, t, result), t.reserved);
      if Stored(UsedRows(rows, t, result)) {
        UsedReplays(rows, t, result);
        Fewer(rows, t, result, 3);
      }
    }
  }

  /**
   The tool is called exactly when the rows are those the reservation left, the use is eligible on them and
   its attempt has a valid id. What it did is recorded exactly when it did not raise and the four rows of the
   use can follow; then those four are added, and no other row.
  */
  lemma ExecuteIff(rows: seq<Entry>, host: Host, t: Ticket, result: ToolResult)
    requires Stored(rows)
    ensures var all, r := UsedRows(rows, t, result), ExecuteRows(rows, host, t, result);
      && (r.Ran? <==>
            && t.reserved == OfEntries(rows) && 0 <= t.now <= 0x8000_0000
            && Eligible(host, t.q, t.context, t.input, t.now, FactsOf(rows))
            && ValidId(t.identity + Text("-attempt")))
      && (r.Ran? ==> (r.committed.Ok? <==> !result.Raises? && Stored(all)))
      && (r.Ran? && r.committed.Ok? ==> r.committed.value == Appended(all, OfEntries(all)))
  {
    hide *;
    ReadableStored(rows);
    ExecuteCase(rows, host, t, result);
    if t.reserved == OfEntries(rows) && 0 <= t.now <= 0x8000_0000 {
      TickMeans(t.now);
      ClosesIff(rows, t, result);
    }
  }

  lemma TickMeans(now: int)
    ensures ValidTick(now) <==> 0 <= now <= 0x8000_0000
  {
  }

  lemma ExecuteCase(rows: seq<Entry>, host: Host, t: Ticket, result: ToolResult)
    requires Stored(rows) && Readable(rows) && Replay(rows).Ok?
    requires Revision(Replay(rows).value) == OfEntries(rows) && FactsOf(rows) == Replay(rows).value.facts
    ensures ExecuteRows(rows, host, t, result) ==
      if t.reserved == OfEntries(rows) && 0 <= t.now <= 0x8000_0000
         && Eligible(host, t.q, t.context, t.input, t.now, FactsOf(rows)) && ValidId(t.identity + Text("-attempt"))
      then Ran(CloseRows(rows, AttemptOf(rows, t), t, result)) else Fenced
  {
    hide Stored, Replay, Readable, Eligible, CloseRows, ValidId, FactsOf;
    EventStored(Attempt(t.identity), t.identity + Text("-attempt"), t.now, rows);
  }

  // ---- The block that a use leaves.

  /** The block of a checked negative, if the tool answered and the answer was wrong. */
  function NegativeOf(t: Ticket, result: ToolResult): seq<Block>
    requires Artifact(t.q).Some?
  {
    match result
    case Answers(text) =>
      if text == Native.Normalized(t.input) then []
      else
        [Block(Artifact(t.q).value, OfContext(t.q.context), t.input, t.now, t.identity + Text("-check"),
               "checked-negative")]
    case _ => []
  }

  lemma OnlyChecksBlock(rows: seq<Entry>, e: Entry)
    requires Stored(rows + [e]) && (e.body.Attempt? || e.body.Outcome? || e.body.Reconcile?)
    ensures FactsOf(rows + [e]).blocks == FactsOf(rows).blocks
  {
    hide Stored, FactsOf;
    var all := rows + [e];
    BlocksGrow(all);
    assert all[..|all| - 1] == rows && all[|all| - 1] == e;
  }

  lemma CheckedBlock(rows: seq<Entry>, e: Entry, t: Ticket, result: ToolResult)
    requires Stored(rows) && Stored(rows + [e]) && !result.Raises?
    requires e.body == Check(t.identity, "normalize-checker-v1")
    requires e.id == t.identity + Text("-check") && e.time == t.now
    requires Progress(FactsOf(rows), FactsOf(rows), t, AnswerOf(result), 2) && Waiting(FactsOf(rows), t)
    ensures FactsOf(rows + [e]).blocks == FactsOf(rows).blocks + NegativeOf(t, result)
  {
    hide Stored, FactsOf, Artifact, Linked;
    StoredFront(rows, e);
    CheckBlocks(FactsOf(rows), e, t.identity, e.body.checker);
    var before, after := FactsOf(rows).blocks, FactsOf(rows + [e]).blocks;
    assert before + [] == before;
    assert |after| == |before| + 1 ==> after == after[..|before|] + [after[|before|]];
  }

  /** The intent of the ticket is on record and its artifact is known. */
  predicate Waiting(f: Facts, t: Ticket) {
    && t.identity in f.intents && f.intents[t.identity].input == t.input
    && f.intents[t.identity].qualification == OfQualification(t.q) && Artifact(t.q).Some?
  }

  lemma StillWaiting(f: Facts, g: Facts, t: Ticket, a: Answer, k: nat)
    requires Waits(f, t) && Progress(f, g, t, a, k)
    ensures Waiting(g, t) && Progress(g, g, t, a, k)
  {
  }

  lemma UseBlocksOf(rows: seq<Entry>, t: Ticket, result: ToolResult)
    requires Stored(rows) && Waits(FactsOf(rows), t) && !result.Raises? && Stored(rows + UseEntries(rows, t, result))
    ensures FactsOf(rows + UseEntries(rows, t, result)).blocks == FactsOf(rows).blocks + NegativeOf(t, result)
  {
    hide *;
    UsedReplays(rows, t, result);
    ArtifactKnown(FactsOf(rows), t);
    forall k: nat | k <= 4 ensures RecordsReplay(rows, t, result, k) { Fewer(rows, t, result, k); }
    var es := UseEntries(rows, t, result);
    var w0, w1, w2 := WithRecords(rows, t, result, 0), WithRecords(rows, t, result, 1), WithRecords(rows, t, result, 2);
    var w3, w4 := WithRecords(rows, t, result, 3), WithRecords(rows, t, result, 4);
    forall k: nat | k < 4 ensures Stored(WithRecords(rows, t, result, k))
      ensures Stored(WithRecords(rows, t, result, k) + [es[k]])
      ensures WithRecords(rows, t, result, k + 1) == WithRecords(rows, t, result, k) + [es[k]]
    {
      RecordsStored(rows, t, result, k);
      RecordsStored(rows, t, result, k + 1);
      RecordsStep(rows, t, result, k);
    }
    RecordsStep(rows, t, result, 0);
    RecordsStep(rows, t, result, 2);
    RecordsAre(rows, t, result, 4);
    assert es[..4] == es;
    BodiesAre(rows, t, result);
    RecordsProgress(rows, t, result, 2);
    StillWaiting(FactsOf(rows), FactsOf(w2), t, AnswerOf(result), 2);
    OnlyChecksBlock(w0, es[0]);
    OnlyChecksBlock(w1, es[1]);
    CheckedBlock(w2, es[2], t, result);
    OnlyChecksBlock(w3, es[3]);
  }

  lemma BodiesAre(rows: seq<Entry>, t: Ticket, result: ToolResult)
    ensures var es := UseEntries(rows, t, result);
      && es[0].body.Attempt? && es[1].body.Outcome? && es[3].body.Reconcile?
      && es[2].body == Check(t.identity, "normalize-checker-v1") && es[2].id == t.identity + Text("-check")
  {
  }

  lemma ArtifactKnown(f: Facts, t: Ticket)
    requires Waits(f, t)
    ensures Artifact(t.q).Some?
  {
  }

  lemma Fewer(rows: seq<Entry>, t: Ticket, result: ToolResult, k: nat)
    requires RecordsReplay(rows, t, result, 4) && k <= 4
    ensures RecordsReplay(rows, t, result, k)
  {
    hide Replay, WithRecords;
  }

  /**
   A use that commits adds one block, with the artifact, context, input and time of the use under the id of
   its check, exactly when the tool answered and the answer is not the normal form of the input.
  */
  lemma UseBlocks(rows: seq<Entry>, host: Host, t: Ticket, result: ToolResult)
    requires JournalInv(rows) && HoldsIntent(t)
    requires ExecuteRows(rows, host, t, result).Ran? && ExecuteRows(rows, host, t, result).committed.Ok?
    ensures Artifact(t.q).Some?
    ensures FactsOf(ExecuteRows(rows, host, t, result).committed.value.rows).blocks ==
            FactsOf(rows).blocks + NegativeOf(t, result)
  {
    hide *;
    InvStored(rows);
    RanShape(rows, host, t, result);
    FencedWaits(rows, host, t);
    ArtifactKnown(FactsOf(rows), t);
    ExecuteIff(rows, host, t, result);
    UsedIs(rows, t, result);
    UseBlocksOf(rows, t, result);
  }
}
