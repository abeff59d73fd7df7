/**
 When a reserved use completes: exactly which answers can be recorded, and what becomes of a use whose
 answer was not.
*/
module Completion {
  import opened Basics
  import opened Models
  import opened Journal
  import opened JournalLaws
  import opened Store
  import opened Chains
  import opened Eligibility
  import opened Agreement
  import opened Runtime
  import opened Protocol
  import opened Steps
  import opened Uses
  import opened Safety
  import opened Settlement
  import opened Effects
  import Native

  // ---- One more entry.

  /** What an entry chained to stored rows needs besides its effect on the state. */
  ghost predicate Appendable(rows: seq<Entry>, e: Entry) {
    |rows| < EVENT_LIMIT && ValidEntry(e) && !HasRow(rows, e.id) && FitsList(rows + [e])
  }

  lemma StepChained(s: State, rows: seq<Entry>, e: Entry)
    requires Sound(s) && s.unique == rows && FitsList(rows) && e.previous == OfEntries(rows)
    ensures Step(s, e).Ok? <==> ValidEntry(e) && FitsEntry(e) && e.id !in s.ids && Apply(s.facts, e).Ok?
    ensures Step(s, e).Ok? ==>
      Step(s, e).value.unique == rows + [e] && Step(s, e).value.facts == Apply(s.facts, e).value
  {
    hide Apply, FitsList, FitsEntry, ValidEntry;
    if Step(s, e).Ok? { ChainedIsNew(s, e); }
  }

  lemma StoredFits(rows: seq<Entry>)
    requires Stored(rows)
    ensures Replay(rows).Ok? && Fold(EMPTY, rows) == Replay(rows) && Replay(rows).value.unique == rows
    ensures FitsList(rows) && FactsOf(rows) == Replay(rows).value.facts && Linked(FactsOf(rows))
  {
    hide Fold, FitsList;
  }

  lemma FitsFront(rows: seq<Entry>, e: Entry)
    requires FitsList(rows + [e])
    ensures FitsList(rows) && FitsEntry(e)
  {
    var all := rows + [e];
    FitsListParts(all, |rows|);
    assert all[..|rows|] == rows && all[|rows|] == e;
  }

  /** Stored rows can be extended by a chained entry exactly when the limits allow it and it applies. */
  lemma ExtendsIff(rows: seq<Entry>, e: Entry)
    requires Stored(rows) && e.previous == OfEntries(rows)
    ensures Linked(FactsOf(rows))
    ensures Replay(rows + [e]).Ok? <==> Appendable(rows, e) && Apply(FactsOf(rows), e).Ok?
    ensures Replay(rows + [e]).Ok? ==> Stored(rows + [e]) && FactsOf(rows + [e]) == Apply(FactsOf(rows), e).value
  {
    hide Fold, Apply, ValidEntry, FitsList, FitsEntry, Step, HasRow;
    StoredFits(rows);
    var s := Replay(rows).value;
    StoredIds(rows);
    FoldSnoc(EMPTY, rows, e);
    StepChained(s, rows, e);
    if FitsList(rows + [e]) { FitsFront(rows, e); }
  }

  lemma EventStored(body: Body, id: Id, time: int, before: seq<Entry>)
    requires Stored(before)
    ensures Event(body, id, time, before) ==
      if ValidId(id) && ValidTick(time) then Ok(Entry(id, OfEntries(before), time, body)) else Err(InvalidModel)
  {
    hide Replay;
  }

  // ---- The four records of a use.

  function ClosingEntry(rows: seq<Entry>, t: Ticket, suffix: string, body: Body): Entry {
    Entry(t.identity + Text(suffix), OfEntries(rows), t.now, body)
  }

  function AttemptOf(rows: seq<Entry>, t: Ticket): Entry {
    ClosingEntry(rows, t, "-attempt", Attempt(t.identity))
  }

  function OutcomeOf(rows: seq<Entry>, t: Ticket, result: ToolResult): Entry {
    ClosingEntry(rows + [AttemptOf(rows, t)], t, "-outcome", OutcomeBody(t.identity, result))
  }

  function CheckOf(rows: seq<Entry>, t: Ticket, result: ToolResult): Entry {
    ClosingEntry(rows + [AttemptOf(rows, t), OutcomeOf(rows, t, result)], t, "-check", Check(t.identity, CHECKER))
  }

  function ReconcileOf(rows: seq<Entry>, t: Ticket, result: ToolResult): Entry {
    ClosingEntry(rows + [AttemptOf(rows, t), OutcomeOf(rows, t, result), CheckOf(rows, t, result)], t, "-reconcile",
                 Reconcile(t.identity))
  }

  /** Attempt, outcome, check and reconciliation, each chained to the ones before it. */
  function UseEntries(rows: seq<Entry>, t: Ticket, result: ToolResult): (es: seq<Entry>)
    ensures |es| == 4
  {
    [AttemptOf(rows, t), OutcomeOf(rows, t, result), CheckOf(rows, t, result), ReconcileOf(rows, t, result)]
  }

  /** The rows with the first `k` of them. */
  function WithRecords(rows: seq<Entry>, t: Ticket, result: ToolResult, k: nat): seq<Entry>
    requires k <= 4
  {
    rows + UseEntries(rows, t, result)[..k]
  }

  lemma RecordsStep(rows: seq<Entry>, t: Ticket, result: ToolResult, k: nat)
    requires k < 4
    ensures WithRecords(rows, t, result, 0) == rows
    ensures WithRecords(rows, t, result, k + 1) == WithRecords(rows, t, result, k) + [UseEntries(rows, t, result)[k]]
    ensures UseEntries(rows, t, result)[k].previous == OfEntries(WithRecords(rows, t, result, k))
    ensures UseEntries(rows, t, result)[k].time == t.now
  {
    var es := UseEntries(rows, t, result);
    assert es[..1] == [es[0]] && es[..2] == [es[0], es[1]] && es[..3] == [es[0], es[1], es[2]];
    assert es[..k + 1] == es[..k] + [es[k]];
  }

  lemma RecordBodies(rows: seq<Entry>, t: Ticket, result: ToolResult)
    ensures var es, i := UseEntries(rows, t, result), t.identity;
      && es[0].body == Attempt(i) && es[0].id == i + Text("-attempt")
      && es[1].body == OutcomeBody(i, result) && es[1].id == i + Text("-outcome")
      && es[2].body == Check(i, CHECKER) && es[2].id == i + Text("-check")
      && es[3].body == Reconcile(i) && es[3].id == i + Text("-reconcile")
  {
  }

  /** Their four ids are distinct, whatever the identity of the use. */
  lemma RecordIdsDistinct(rows: seq<Entry>, t: Ticket, result: ToolResult, j: nat, k: nat)
    requires j < k < 4
    ensures UseEntries(rows, t, result)[j].id != UseEntries(rows, t, result)[k].id
  {
    hide UseEntries;
    RecordBodies(rows, t, result);
    var i, es := t.identity, UseEntries(rows, t, result);
    assert es[0].id[|i| + 1] == Ch('a') && es[1].id[|i| + 1] == Ch('o');
  }

  /** What the first `k` records need: each is appendable to the rows with those before it, and applies. */
  ghost predicate RecordsReplay(rows: seq<Entry>, t: Ticket, result: ToolResult, k: nat)
    requires k <= 4
  {
    forall j: nat :: j <= k ==> Replay(WithRecords(rows, t, result, j)).Ok?
  }

  lemma {:induction false} RecordsStored(rows: seq<Entry>, t: Ticket, result: ToolResult, k: nat)
    requires Stored(rows) && k <= 4 && RecordsReplay(rows, t, result, k)
    ensures Stored(WithRecords(rows, t, result, k))
  {
    hide Replay, WithRecords, UseEntries;
    if k == 0 {
      RecordsStep(rows, t, result, 0);
    } else {
      RecordsStored(rows, t, result, k - 1);
      RecordsStep(rows, t, result, k - 1);
      ExtendsIff(WithRecords(rows, t, result, k - 1), UseEntries(rows, t, result)[k - 1]);
    }
  }

  // ---- Their effect.

  /** The intent waits: nothing has been recorded of its use yet, and a negative can name its artifact. */
  predicate Waits(f: Facts, t: Ticket) {
    && t.identity in f.intents && t.identity !in f.attempts && t.identity !in f.outcomes
    && f.intents[t.identity].input == t.input && f.intents[t.identity].qualification == OfQualification(t.q)
    && |t.input| <= Native.TEXT_LIMIT && Artifact(t.q).Some?
  }

  /** Where the state dictionary stands after `k` of the records. */
  predicate Progress(f: Facts, g: Facts, t: Ticket, a: Answer, k: nat) {
    var i := t.identity;
    && g.intents == f.intents
    && (if k == 0 then i !in g.attempts else i in g.attempts)
    && (if k <= 1 then i !in g.outcomes else i in g.outcomes && g.outcomes[i] == a)
    && (k >= 3 ==> i in g.checked)
  }

  lemma AttemptProgress(f: Facts, g: Facts, t: Ticket, a: Answer, e: Entry)
    requires Waits(f, t) && Linked(g) && Progress(f, g, t, a, 0) && e.body == Attempt(t.identity)
    ensures Apply(g, e).Ok? && Progress(f, Apply(g, e).value, t, a, 1)
  {
    hide Linked;
  }

  lemma OutcomeProgress(f: Facts, g: Facts, t: Ticket, a: Answer, e: Entry)
    requires Linked(g) && Progress(f, g, t, a, 1) && e.body == Outcome(t.identity, a.output, a.status)
    ensures Apply(g, e).Ok? && Progress(f, Apply(g, e).value, t, a, 2)
  {
    hide Linked;
  }

  lemma CheckProgress(f: Facts, g: Facts, t: Ticket, a: Answer, e: Entry)
    requires Waits(f, t) && Linked(g) && Progress(f, g, t, a, 2) && e.body == Check(t.identity, CHECKER)
    ensures Apply(g, e).Ok? <==> |a.output| <= Native.TEXT_LIMIT
    ensures Apply(g, e).Ok? ==> Progress(f, Apply(g, e).value, t, a, 3)
  {
    hide Passed;
  }

  lemma ReconcileProgress(f: Facts, g: Facts, t: Ticket, a: Answer, e: Entry)
    requires Linked(g) && Progress(f, g, t, a, 3) && e.body == Reconcile(t.identity)
    ensures Apply(g, e).Ok? && Progress(f, Apply(g, e).value, t, a, 4)
  {
    hide Linked;
  }

  lemma ProgressApplies(f: Facts, g: Facts, t: Ticket, a: Answer, k: nat, e: Entry)
    requires Waits(f, t) && Linked(g) && Progress(f, g, t, a, k) && k < 4
    requires k == 0 ==> e.body == Attempt(t.identity)
    requires k == 1 ==> e.body == Outcome(t.identity, a.output, a.status)
    requires k == 2 ==> e.body == Check(t.identity, CHECKER)
    requires k == 3 ==> e.body == Reconcile(t.identity)
    ensures Apply(g, e).Ok? <==> (k == 2 ==> |a.output| <= Native.TEXT_LIMIT)
    ensures Apply(g, e).Ok? ==> Progress(f, Apply(g, e).value, t, a, k + 1)
  {
    hide *;
    if k == 0 {
      AttemptProgress(f, g, t, a, e);
    } else if k == 1 {
      OutcomeProgress(f, g, t, a, e);
    } else if k == 2 {
      CheckProgress(f, g, t, a, e);
    } else {
      ReconcileProgress(f, g, t, a, e);
    }
  }

  lemma RecordBody(rows: seq<Entry>, t: Ticket, result: ToolResult, k: nat)
    requires k < 4
    ensures var e, i, a := UseEntries(rows, t, result)[k], t.identity, AnswerOf(result);
      && (k == 0 ==> e.body == Attempt(i))
      && (k == 1 ==> e.body == Outcome(i, a.output, a.status))
      && (k == 2 ==> e.body == Check(i, CHECKER))
      && (k == 3 ==> e.body == Reconcile(i))
  {
  }

  lemma {:induction false} RecordsProgress(rows: seq<Entry>, t: Ticket, result: ToolResult, k: nat)
    requires Stored(rows) && Waits(FactsOf(rows), t) && k <= 4 && RecordsReplay(rows, t, result, k)
    ensures Stored(WithRecords(rows, t, result, k))
    ensures Linked(FactsOf(WithRecords(rows, t, result, k)))
    ensures Progress(FactsOf(rows), FactsOf(WithRecords(rows, t, result, k)), t, AnswerOf(result), k)
  {
    hide Replay, WithRecords, UseEntries, FactsOf, Waits, Progress, Apply, Linked, Stored, Appendable;
    RecordsStored(rows, t, result, k);
    StoredLinked(WithRecords(rows, t, result, k));
    if k == 0 {
      RecordsStep(rows, t, result, 0);
      NoProgress(FactsOf(rows), t, AnswerOf(result));
    } else {
      RecordsProgress(rows, t, result, k - 1);
      RecordsStep(rows, t, result, k - 1);
      var before, e := WithRecords(rows, t, result, k - 1), UseEntries(rows, t, result)[k - 1];
      ExtendsIff(before, e);
      RecordBody(rows, t, result, k - 1);
      ProgressApplies(FactsOf(rows), FactsOf(before), t, AnswerOf(result), k - 1, e);
    }
  }

  lemma NoProgress(f: Facts, t: Ticket, a: Answer)
    requires Waits(f, t)
    ensures Progress(f, f, t, a, 0)
  {
  }

  /** The next record goes through exactly when its id and the limits allow it. */
  ghost predicate RecordFits(rows: seq<Entry>, t: Ticket, result: ToolResult, k: nat)
    requires k < 4
  {
    && Appendable(WithRecords(rows, t, result, k), UseEntries(rows, t, result)[k])
    && (k == 2 ==> |AnswerOf(result).output| <= Native.TEXT_LIMIT)
  }

  lemma RecordFitsIff(rows: seq<Entry>, t: Ticket, result: ToolResult, k: nat)
    requires Stored(rows) && Waits(FactsOf(rows), t) && k < 4 && RecordsReplay(rows, t, result, k)
    ensures RecordsReplay(rows, t, result, k + 1) <==> RecordFits(rows, t, result, k)
  {
    hide Replay, WithRecords, UseEntries, FactsOf, Waits, Progress, Apply, Linked, Stored, Appendable;
    RecordsProgress(rows, t, result, k);
    RecordsStep(rows, t, result, k);
    var before, e := WithRecords(rows, t, result, k), UseEntries(rows, t, result)[k];
    ExtendsIff(before, e);
    RecordBody(rows, t, result, k);
    ProgressApplies(FactsOf(rows), FactsOf(before), t, AnswerOf(result), k, e);
    assert RecordsReplay(rows, t, result, k + 1) <==> Replay(WithRecords(rows, t, result, k + 1)).Ok?;
  }

  // ---- Exactly when a use commits.

  /**
   What a caller can see of rows, ticket and answer: room for four entries, four valid and unused ids, an
   answer within the text limit, and a list that can be digested.
  */
  ghost predicate UseFits(rows: seq<Entry>, t: Ticket, result: ToolResult) {
    var es := UseEntries(rows, t, result);
    && |rows| + 4 <= EVENT_LIMIT
    && (forall k :: 0 <= k < 4 ==> ValidId(es[k].id) && !HasRow(rows, es[k].id))
    && |AnswerOf(result).output| <= Native.TEXT_LIMIT
    && FitsList(rows + es)
  }

  lemma RecordValid(rows: seq<Entry>, t: Ticket, result: ToolResult, k: nat)
    requires k < 4 && ValidTick(t.now)
    ensures ValidEntry(UseEntries(rows, t, result)[k]) <==> ValidId(UseEntries(rows, t, result)[k].id)
  {
    hide ValidId, UseEntries;
    RecordsStep(rows, t, result, k);
    RecordBody(rows, t, result, k);
  }

  lemma RecordUnused(rows: seq<Entry>, t: Ticket, result: ToolResult, k: nat)
    requires k < 4
    ensures var id := UseEntries(rows, t, result)[k].id;
      HasRow(WithRecords(rows, t, result, k), id) <==> HasRow(rows, id)
  {
    hide UseEntries;
    var es := UseEntries(rows, t, result);
    var id, all := es[k].id, WithRecords(rows, t, result, k);
    forall j | 0 <= j < k ensures es[j].id != id { RecordIdsDistinct(rows, t, result, j, k); }
    if HasRow(rows, id) {
      var j :| 0 <= j < |rows| && rows[j].id == id;
      assert all[j].id == id;
    }
    if HasRow(all, id) {
      var j :| 0 <= j < |all| && all[j].id == id;
      assert j < |rows|;
    }
  }

  lemma RecordsPrefix(rows: seq<Entry>, t: Ticket, result: ToolResult, k: nat)
    requires k <= 4 && FitsList(rows + UseEntries(rows, t, result))
    ensures FitsList(WithRecords(rows, t, result, k))
  {
    hide UseEntries, FitsList;
    var all := rows + UseEntries(rows, t, result);
    FitsListParts(all, |rows| + k);
    assert all[..|rows| + k] == WithRecords(rows, t, result, k);
  }

  lemma UseFitsIff(rows: seq<Entry>, t: Ticket, result: ToolResult)
    requires ValidTick(t.now)
    ensures UseFits(rows, t, result) <==> forall k: nat :: k < 4 ==> RecordFits(rows, t, result, k)
  {
    hide UseEntries, FitsList, HasRow, ValidEntry, ValidId;
    forall k: nat | k < 4
      ensures RecordFits(rows, t, result, k) <==>
        && |rows| + k < EVENT_LIMIT && ValidId(UseEntries(rows, t, result)[k].id)
        && !HasRow(rows, UseEntries(rows, t, result)[k].id)
        && FitsList(WithRecords(rows, t, result, k + 1))
        && (k == 2 ==> |AnswerOf(result).output| <= Native.TEXT_LIMIT)
    {
      RecordsStep(rows, t, result, k);
      RecordValid(rows, t, result, k);
      RecordUnused(rows, t, result, k);
    }
    assert WithRecords(rows, t, result, 4) == rows + UseEntries(rows, t, result);
    if UseFits(rows, t, result) {
      forall k: nat | k < 4 ensures RecordFits(rows, t, result, k) { RecordsPrefix(rows, t, result, k + 1); }
    }
    if forall k: nat :: k < 4 ==> RecordFits(rows, t, result, k) {
      assert RecordFits(rows, t, result, 2) && RecordFits(rows, t, result, 3);
      forall k | 0 <= k < 4
        ensures ValidId(UseEntries(rows, t, result)[k].id) && !HasRow(rows, UseEntries(rows, t, result)[k].id)
      {
        assert RecordFits(rows, t, result, k);
      }
    }
  }

  lemma NoRecordsReplay(rows: seq<Entry>, t: Ticket, result: ToolResult)
    requires Stored(rows)
    ensures RecordsReplay(rows, t, result, 0)
  {
    hide Replay, WithRecords, UseEntries;
    RecordsStep(rows, t, result, 0);
  }

  lemma RecordsReplayIff(rows: seq<Entry>, t: Ticket, result: ToolResult)
    requires Stored(rows) && Waits(FactsOf(rows), t) && ValidTick(t.now)
    ensures RecordsReplay(rows, t, result, 4) <==> UseFits(rows, t, result)
  {
    hide Replay, WithRecords, UseEntries, FactsOf, Waits, Stored, RecordFits, UseFits;
    UseFitsIff(rows, t, result);
    NoRecordsReplay(rows, t, result);
    FirstReplays(rows, t, result, 4);
  }

  lemma {:induction false} FirstReplays(rows: seq<Entry>, t: Ticket, result: ToolResult, k: nat)
    requires Stored(rows) && Waits(FactsOf(rows), t) && k <= 4 && RecordsReplay(rows, t, result, 0)
    ensures RecordsReplay(rows, t, result, k) <==> forall j: nat :: j < k ==> RecordFits(rows, t, result, j)
  {
    hide Replay, WithRecords, UseEntries, FactsOf, Waits, Stored, RecordFits;
    if k > 0 {
      FirstReplays(rows, t, result, k - 1);
      if RecordsReplay(rows, t, result, k - 1) { RecordFitsIff(rows, t, result, k - 1); }
      assert RecordsReplay(rows, t, result, k) ==> RecordsReplay(rows, t, result, k - 1);
    }
  }

  lemma ThreeRecords(rows: seq<Entry>, t: Ticket, result: ToolResult)
    ensures WithRecords(rows, t, result, 0) == rows
    ensures WithRecords(rows, t, result, 1) == rows + [AttemptOf(rows, t)]
    ensures WithRecords(rows, t, result, 2) == rows + [AttemptOf(rows, t), OutcomeOf(rows, t, result)]
    ensures WithRecords(rows, t, result, 3) ==
      rows + [AttemptOf(rows, t), OutcomeOf(rows, t, result), CheckOf(rows, t, result)]
    ensures WithRecords(rows, t, result, 4) == rows + UseEntries(rows, t, result)
  {
    var es := UseEntries(rows, t, result);
    assert es[..1] == [es[0]] && es[..2] == [es[0], es[1]] && es[..3] == [es[0], es[1], es[2]] && es[..4] == es;
  }

  lemma ReplayStored(rows: seq<Entry>, t: Ticket, result: ToolResult, k: nat)
    requires Stored(rows) && k < 4 && Stored(WithRecords(rows, t, result, k))
    requires Replay(WithRecords(rows, t, result, k + 1)).Ok?
    ensures Stored(WithRecords(rows, t, result, k + 1))
  {
    hide Replay, WithRecords, UseEntries, Stored, Appendable;
    RecordsStep(rows, t, result, k);
    ExtendsIff(WithRecords(rows, t, result, k), UseEntries(rows, t, result)[k]);
  }

  /** The batch is made exactly when the first three records replay and the ids are valid; it is these four. */
  lemma ClosingBatchIff(rows: seq<Entry>, t: Ticket, result: ToolResult)
    requires Stored(rows) && ValidTick(t.now)
    ensures var r := ClosingBatch(rows, AttemptOf(rows, t), t, result);
      var es := UseEntries(rows, t, result);
      && (r.Ok? <==> RecordsReplay(rows, t, result, 3) && ValidId(es[1].id) && ValidId(es[2].id) && ValidId(es[3].id))
      && (r.Ok? ==> r.value == es)
  {
    hide Replay, Stored, ValidId, WithRecords;
    var es := UseEntries(rows, t, result);
    ThreeRecords(rows, t, result);
    NoRecordsReplay(rows, t, result);
    var i := t.identity;
    if Replay(WithRecords(rows, t, result, 1)).Ok? {
      ReplayStored(rows, t, result, 0);
      EventStored(OutcomeBody(i, result), i + Text("-outcome"), t.now, WithRecords(rows, t, result, 1));
      if Replay(WithRecords(rows, t, result, 2)).Ok? {
        ReplayStored(rows, t, result, 1);
        EventStored(Check(i, CHECKER), i + Text("-check"), t.now, WithRecords(rows, t, result, 2));
        if Replay(WithRecords(rows, t, result, 3)).Ok? {
          ReplayStored(rows, t, result, 2);
          EventStored(Reconcile(i), i + Text("-reconcile"), t.now, WithRecords(rows, t, result, 3));
        }
      }
    }
  }

  /** The intent is the last row, so nothing can have been recorded of its use. */
  lemma LastWaits(rows: seq<Entry>, i: Id)
    requires Stored(rows) && rows != [] && rows[|rows| - 1].id == i && rows[|rows| - 1].body.Intend?
    ensures i !in FactsOf(rows).attempts && i !in FactsOf(rows).outcomes
  {
    hide Replay, Apply;
    var n := |rows| - 1;
    assert rows == rows[..n] + [rows[n]];
    StoredFront(rows[..n], rows[n]);
    ApplyIntend(FactsOf(rows[..n]), rows[n]);
    assert FactsOf(rows[..n]).intents.Keys <= Replay(rows[..n]).value.ids.Keys;
  }

  /** The input was admitted, so it is within the text limit, and its artifact is known. */
  lemma EligibleInput(rows: seq<Entry>, host: Host, q: Qualification, context: Context, input: string, now: int)
    requires Stored(rows) && Resolves(FactsOf(rows), OfQualification(q))
      && Eligible(host, q, context, input, now, FactsOf(rows))
    ensures |input| <= Native.TEXT_LIMIT && Artifact(q).Some?
  {
    hide FactsOf, Stored, AllPaid, Withdrawn, Blocked, Artifact;
    StoredAdmittedValid(rows);
    assert ValidQualification(q);
  }

  lemma FencedWaits(rows: seq<Entry>, host: Host, t: Ticket)
    requires Stored(rows) && HoldsIntent(t) && FenceHolds(host, t, Replay(rows).value)
    ensures Waits(FactsOf(rows), t) && ValidTick(t.now)
  {
    hide Replay, Eligible, Artifact, OpenRef;
    FencedRows(rows, host, t);
    LastWaits(rows, t.identity);
    StoredLinked(rows);
    EligibleInput(rows, host, t.q, t.context, t.input, t.now);
  }

  /** The fence held, and the attempt is the first of the four records. */
  lemma RanShape(rows: seq<Entry>, host: Host, t: Ticket, result: ToolResult)
    requires Stored(rows) && ExecuteRows(rows, host, t, result).Ran?
    ensures FenceHolds(host, t, Replay(rows).value) && ValidTick(t.now) && ValidId(AttemptOf(rows, t).id)
    ensures t.reserved == OfEntries(rows) && Readable(rows)
    ensures ExecuteRows(rows, host, t, result).committed == CloseRows(rows, AttemptOf(rows, t), t, result)
  {
    hide Replay, Eligible, CloseRows, Readable, ValidId;
    EventStored(Attempt(t.identity), t.identity + Text("-attempt"), t.now, rows);
  }

  lemma AppendIff(rows: seq<Entry>, batch: seq<Entry>)
    requires Stored(rows) && Readable(rows)
    ensures Append(rows, batch, OfEntries(rows)).Ok? <==> Replay(rows + batch).Ok?
  {
    hide Replay, Readable;
  }

  /**
   When the fence holds and the tool is called, the use is committed exactly when the call did not raise
   and its records fit. Otherwise the tool has run and nothing of it is on record.
  */
  lemma UseCommitsIff(rows: seq<Entry>, host: Host, t: Ticket, result: ToolResult)
    requires JournalInv(rows) && HoldsIntent(t) && ExecuteRows(rows, host, t, result).Ran?
    ensures ExecuteRows(rows, host, t, result).committed.Ok? <==> !result.Raises? && UseFits(rows, t, result)
  {
    hide *;
    InvStored(rows);
    RanShape(rows, host, t, result);
    FencedWaits(rows, host, t);
    CommitsIff(rows, t, result);
  }

  lemma CommitsIff(rows: seq<Entry>, t: Ticket, result: ToolResult)
    requires Stored(rows) && Readable(rows) && Waits(FactsOf(rows), t) && ValidTick(t.now)
      && t.reserved == OfEntries(rows)
    ensures CloseRows(rows, AttemptOf(rows, t), t, result).Ok? <==> !result.Raises? && UseFits(rows, t, result)
  {
    hide Replay, Stored, Readable, FactsOf, Waits, FitsList, ValidId, HasRow, Append, ClosingBatch, WithRecords,
      UseEntries;
    ClosingBatchIff(rows, t, result);
    RecordsReplayIff(rows, t, result);
    ThreeRecords(rows, t, result);
    AppendIff(rows, UseEntries(rows, t, result));
    assert RecordsReplay(rows, t, result, 4) <==>
      RecordsReplay(rows, t, result, 3) && Replay(WithRecords(rows, t, result, 4)).Ok?;
  }

  /** An answer longer than the text limit is never recorded, right or wrong. */
  lemma OverlongAnswerLost(rows: seq<Entry>, host: Host, t: Ticket, text: string)
    requires JournalInv(rows) && HoldsIntent(t) && ExecuteRows(rows, host, t, Answers(text)).Ran?
    requires |text| > Native.TEXT_LIMIT
    ensures ExecuteRows(rows, host, t, Answers(text)).committed.Err?
  {
    hide JournalInv, HoldsIntent, ExecuteRows, UseEntries, FitsList, HasRow, ValidId;
    UseCommitsIff(rows, host, t, Answers(text));
  }

  // ---- The tool is reached.

  lemma EligibleKept(
      host: Host, q: Qualification, context: Context, input: string, now: int, f: Facts, g: Facts)
    requires Eligible(host, q, context, input, now, f) && Extends(f, g) && SameRevocations(f, g)
    ensures Eligible(host, q, context, input, now, g)
  {
    hide Premises;
  }

  lemma IntendCalm(f: Facts, e: Entry)
    requires Linked(f) && e.body.Intend? && Apply(f, e).Ok?
    ensures SameRevocations(f, Apply(f, e).value)
  {
  }

  /** Cost and intent of a reservation revoke nothing. */
  lemma ReservedCalm(rows: seq<Entry>, pay: Entry, intend: Entry)
    requires Stored(rows + [pay] + [intend]) && pay.body.PayCost? && intend.body.Intend?
    ensures SameRevocations(FactsOf(rows), FactsOf(rows + [pay] + [intend]))
  {
    hide Replay, FactsOf, Stored, Apply;
    StoredFront(rows + [pay], intend);
    StoredFront(rows, pay);
    ApplyQuiet(FactsOf(rows), pay);
    IntendCalm(FactsOf(rows + [pay]), intend);
  }

  lemma ReservedEligible(rows: seq<Entry>, host: Host, profiles: Profiles, call: UseCall)
    requires Stored(rows) && ReserveRows(rows, host, profiles, call).Reserved?
    ensures var t := ReserveRows(rows, host, profiles, call).ticket;
      ValidTick(t.now) && Eligible(host, t.q, t.context, t.input, t.now, FactsOf(rows))
  {
    hide Replay, Append, ReserveBatch, Readable, Eligible, PendingInScope;
  }

  lemma StoredFence(rows: seq<Entry>, host: Host, t: Ticket)
    requires Stored(rows) && t.reserved == OfEntries(rows) && ValidTick(t.now)
    requires Eligible(host, t.q, t.context, t.input, t.now, FactsOf(rows))
    ensures Readable(rows) && Replay(rows).Ok? && FenceHolds(host, t, Replay(rows).value)
  {
    hide Eligible;
    ReplayReadable(rows);
  }

  lemma RanIff(rows: seq<Entry>, host: Host, t: Ticket, result: ToolResult)
    requires Stored(rows) && Readable(rows) && FenceHolds(host, t, Replay(rows).value)
    ensures ExecuteRows(rows, host, t, result).Ran? <==> ValidId(t.identity + Text("-attempt"))
  {
    hide Replay, Eligible, CloseRows, Readable, ValidId;
    EventStored(Attempt(t.identity), t.identity + Text("-attempt"), t.now, rows);
  }

  /**
   A reserved use whose second transaction comes next, on the same host, calls the tool exactly when the id
   of its attempt is a valid one.
  */
  lemma ReservedRunsIff(rows: seq<Entry>, host: Host, profiles: Profiles, call: UseCall, result: ToolResult)
    requires JournalInv(rows) && ReserveRows(rows, host, profiles, call).Reserved?
    ensures var r := ReserveRows(rows, host, profiles, call);
      ExecuteRows(r.rows, host, r.ticket, result).Ran? <==> ValidId(call.identity + Text("-attempt"))
  {
    hide *;
    var r := ReserveRows(rows, host, profiles, call);
    InvStored(rows);
    ReserveKeeps(rows, host, profiles, call);
    InvStored(r.rows);
    ReserveShape(rows, host, profiles, call);
    ReservationRecords(rows, host, profiles, call);
    ReservedEligible(rows, host, profiles, call);
    var pay, intend := r.rows[|rows|], r.rows[|rows| + 1];
    assert r.rows == rows + [pay] + [intend];
    ReservedCalm(rows, pay, intend);
    IntentsStay(rows, r.rows);
    EligibleKept(host, r.ticket.q, r.ticket.context, r.ticket.input, r.ticket.now, FactsOf(rows), FactsOf(r.rows));
    StoredFence(r.rows, host, r.ticket);
    RanIff(r.rows, host, r.ticket, result);
  }

  // ---- A use that was not committed.

  /** Reserved, without an outcome, and no caller holds its ticket. */
  ghost predicate Abandoned(sys: System, i: Id) {
    && i in FactsOf(sys.rows).intents && i !in FactsOf(sys.rows).outcomes
    && forall t :: t in sys.pending ==> t.identity != i
  }

  lemma GrowthAbandons(sys: System, rows: seq<Entry>, i: Id)
    requires Abandoned(sys, i) && sys.rows <= rows && Stored(rows) && i !in FactsOf(rows).outcomes
    ensures Abandoned(sys.(rows := rows), i)
  {
    hide FactsOf, Stored, Extends;
    IntentsStay(sys.rows, rows);
    ExtendsIntents(FactsOf(sys.rows), FactsOf(rows));
  }

  lemma ExecutingAbandons(sys: System, t: Ticket, result: ToolResult, crash: bool, i: Id)
    requires Inv(sys) && Abandoned(sys, i) && t in sys.pending
    ensures Abandoned(Execute(sys, t, result, crash), i)
  {
    hide Inv, JournalInv, HoldsIntent, FactsOf, ExecuteRows, Stored, Eligible, Passed;
    PendingHolds(sys, t);
    var r := ExecuteRows(sys.rows, sys.host, t, result);
    if r.Ran? {
      ExecuteKeeps(sys.rows, sys.host, t, result);
      if r.committed.Ok? {
        InvStored(r.committed.value.rows);
        GrowthAbandons(sys, r.committed.value.rows, i);
      }
    }
  }

  lemma NextKeepsAbandoned(sys: System, a: Action, i: Id)
    requires Inv(sys) && Abandoned(sys, i)
    ensures Abandoned(Next(sys, a), i)
  {
    hide Inv, AdmitRows, RecordRows, RunRows, ReserveRows, Execute, JournalInv, TicketInv, FactsOf, Stored;
    InvJournal(sys);
    match a
    case Admission(profiles, q, now, expected) =>
      var r := AdmitRows(sys.rows, sys.host, profiles, q, now, expected);
      if r.Ok? {
        AdmissionKeeps(sys.rows, sys.host, profiles, q, now, expected);
        InvStored(r.value.rows);
        GrowthAbandons(sys, r.value.rows, i);
      }
    case HostRecord(body, id, now, expected) =>
      var r := RecordRows(sys.rows, body, id, now, expected);
      if r.Ok? {
        RecordKeeps(sys.rows, body, id, now, expected);
        InvStored(r.value.rows);
        GrowthAbandons(sys, r.value.rows, i);
      }
    case Exposing(profiles, receiver, input, now, query, views) =>
      var r := RunRows(sys.rows, sys.host, profiles, receiver, input, now, query, views);
      if r.Ok? {
        RunKeeps(sys.rows, sys.host, profiles, receiver, input, now, query, views);
        InvStored(r.value.rows);
        GrowthAbandons(sys, r.value.rows, i);
      }
    case Reserving(profiles, call) =>
      var r := ReserveRows(sys.rows, sys.host, profiles, call);
      if r.Reserved? {
        ReserveKeeps(sys.rows, sys.host, profiles, call);
        InvStored(r.rows);
        GrowthAbandons(sys, r.rows, i);
      }
    case Executing(ticket, result, crash) =>
      if ticket in sys.pending { ExecutingAbandons(sys, ticket, result, crash, i); }
    case _ =>
  }

  lemma {:induction false} RunKeepsAbandoned(host: Host, actions: seq<Action>, more: seq<Action>, i: Id)
    requires Abandoned(Run(host, actions), i)
    ensures Abandoned(Run(host, actions + more), i)
    decreases |more|
  {
    hide Abandoned, Next, Inv;
    if more == [] {
      assert actions + more == actions;
    } else {
      var n := |more| - 1;
      var all := actions + more;
      assert all[..|all| - 1] == actions + more[..n];
      RunKeepsAbandoned(host, actions, more[..n], i);
      RunInv(host, actions + more[..n]);
      NextKeepsAbandoned(Run(host, actions + more[..n]), more[n], i);
    }
  }

  /** The tool did not run, or the process stopped, or the records were refused. */
  ghost predicate Lost(sys: System, t: Ticket, result: ToolResult, crash: bool) {
    ExecuteRows(sys.rows, sys.host, t, result).Fenced? || crash || result.Raises? || !UseFits(sys.rows, t, result)
  }

  lemma PendingUnanswered(sys: System, t: Ticket)
    requires Inv(sys) && t in sys.pending
    ensures t.identity in FactsOf(sys.rows).intents && t.identity !in FactsOf(sys.rows).outcomes
    ensures forall u :: u in sys.pending && u.identity == t.identity ==> u == t
  {
    hide JournalInv, HoldsIntent, Justified, FactsOf;
    TicketKnown(sys.rows, t);
  }

  lemma LostAbandons(sys: System, t: Ticket, result: ToolResult, crash: bool)
    requires Inv(sys) && t in sys.pending && Lost(sys, t, result, crash)
    ensures Abandoned(Execute(sys, t, result, crash), t.identity)
  {
    hide Inv, JournalInv, HoldsIntent, FactsOf, ExecuteRows, UseFits, Stored;
    PendingHolds(sys, t);
    PendingUnanswered(sys, t);
    if ExecuteRows(sys.rows, sys.host, t, result).Ran? { UseCommitsIff(sys.rows, sys.host, t, result); }
  }

  lemma RunNext(host: Host, actions: seq<Action>, a: Action)
    ensures Run(host, actions + [a]) == Next(Run(host, actions), a)
  {
    hide Next;
    var all := actions + [a];
    assert all[..|all| - 1] == actions && all[|all| - 1] == a;
  }

  /** An intent without an outcome is unresolved, and no other use of its scope can be reserved. */
  lemma AbandonedCloses(rows: seq<Entry>, i: Id, host: Host, profiles: Profiles, call: UseCall)
    requires JournalInv(rows) && i in FactsOf(rows).intents && i !in FactsOf(rows).outcomes
    ensures i !in FactsOf(rows).attempts && Unresolved(FactsOf(rows), i) && !Served(FactsOf(rows), i)
    ensures var n := FactsOf(rows).intents[i];
      call.qualification == n.qualification && call.input == n.input ==>
        !ReserveRows(rows, host, profiles, call).Reserved?
  {
    hide FactsOf, Stored, Guarded, CostBound, ReserveRows, PendingInScope, OpenRef;
    InvOrder(rows);
    InvStored(rows);
    PendingFound(FactsOf(rows), i);
    if ReserveRows(rows, host, profiles, call).Reserved? { ReserveShape(rows, host, profiles, call); }
  }

  /**
   A use whose second transaction was fenced, crashed, raised or could not record its answer stays without
   attempt and outcome in every continuation, and its scope is closed to every further use.
  */
  lemma LostForever(
      host: Host, actions: seq<Action>, sys: System, s: State, t: Ticket, result: ToolResult, crash: bool,
      more: seq<Action>, later: System, u: State, now: Host, profiles: Profiles, call: UseCall)
    requires Reached(host, actions, sys, s) && t in sys.pending && Lost(sys, t, result, crash)
    requires Reached(host, actions + [Executing(t, result, crash)] + more, later, u)
    ensures var i, f := t.identity, u.facts;
      && i in f.intents && i !in f.attempts && i !in f.outcomes && Unresolved(f, i) && !Served(f, i)
      && (call.qualification == f.intents[i].qualification && call.input == f.intents[i].input ==>
            !ReserveRows(later.rows, now, profiles, call).Reserved?)
  {
    hide *;
    var next := actions + [Executing(t, result, crash)];
    ReachedInv(host, actions, sys, s);
    RunNext(host, actions, Executing(t, result, crash));
    LostAbandons(sys, t, result, crash);
    ExecutingNext(sys, t, result, crash);
    RunKeepsAbandoned(host, next, more, t.identity);
    ReachedInv(host, next + more, later, u);
    AbandonedFacts(later, t.identity);
    AbandonedCloses(later.rows, t.identity, now, profiles, call);
  }

  lemma CrashingAbandons(sys: System, t: Ticket)
    requires Inv(sys) && t in sys.pending
    ensures Abandoned(Next(sys, Crashing(t)), t.identity)
  {
    hide Inv, FactsOf;
    PendingUnanswered(sys, t);
  }

  /** So does a use whose process stopped between its two transactions. */
  lemma CrashedForever(
      host: Host, actions: seq<Action>, sys: System, s: State, t: Ticket, more: seq<Action>, later: System, u: State,
      now: Host, profiles: Profiles, call: UseCall)
    requires Reached(host, actions, sys, s) && t in sys.pending
    requires Reached(host, actions + [Crashing(t)] + more, later, u)
    ensures var i, f := t.identity, u.facts;
      && i in f.intents && i !in f.attempts && i !in f.outcomes && Unresolved(f, i) && !Served(f, i)
      && (call.qualification == f.intents[i].qualification && call.input == f.intents[i].input ==>
            !ReserveRows(later.rows, now, profiles, call).Reserved?)
  {
    hide *;
    var next := actions + [Crashing(t)];
    ReachedInv(host, actions, sys, s);
    RunNext(host, actions, Crashing(t));
    CrashingAbandons(sys, t);
    RunKeepsAbandoned(host, next, more, t.identity);
    ReachedInv(host, next + more, later, u);
    AbandonedFacts(later, t.identity);
    AbandonedCloses(later.rows, t.identity, now, profiles, call);
  }

  lemma ExecutingNext(sys: System, t: Ticket, result: ToolResult, crash: bool)
    requires t in sys.pending
    ensures Next(sys, Executing(t, result, crash)) == Execute(sys, t, result, crash)
  {
    hide Execute;
  }

  lemma AbandonedFacts(sys: System, i: Id)
    requires Abandoned(sys, i)
    ensures i in FactsOf(sys.rows).intents && i !in FactsOf(sys.rows).outcomes
  {
  }

  /** The tool is called and nothing of the call can be recorded. */
  lemma OverlongCall(rows: seq<Entry>, host: Host, profiles: Profiles, call: UseCall, text: string)
    requires JournalInv(rows) && ReserveRows(rows, host, profiles, call).Reserved?
    requires ValidId(call.identity + Text("-attempt")) && |text| > Native.TEXT_LIMIT
    ensures var r := ReserveRows(rows, host, profiles, call);
      && r.ticket.identity == call.identity
      && ExecuteRows(r.rows, host, r.ticket, Answers(text)).Ran?
      && !UseFits(r.rows, r.ticket, Answers(text))
  {
    hide JournalInv, ReserveRows, ExecuteRows, UseEntries, FitsList, HasRow, ValidId;
    InvStored(rows);
    ReserveShape(rows, host, profiles, call);
    ReservedRunsIff(rows, host, profiles, call, Answers(text));
  }

  lemma ReservingNext(sys: System, profiles: Profiles, call: UseCall)
    requires ReserveRows(sys.rows, sys.host, profiles, call).Reserved?
    ensures var r := ReserveRows(sys.rows, sys.host, profiles, call);
      Next(sys, Reserving(profiles, call)) == sys.(rows := r.rows, pending := sys.pending + {r.ticket})
  {
    hide ReserveRows;
  }

  lemma ExecutedLogged(sys: System, t: Ticket, result: ToolResult, crash: bool)
    requires ExecuteRows(sys.rows, sys.host, t, result).Ran?
    ensures Execute(sys, t, result, crash).invoked == sys.invoked + [Invocation(t, sys.rows, sys.host, result)]
  {
    hide ExecuteRows;
  }

  /**
   At the end of every run that reserves a use: the tool is called, answers with more than the text limit,
   and in every continuation the use has neither attempt nor outcome and closes its scope.
  */
  lemma OverlongAnswerInEveryRun(
      host: Host, actions: seq<Action>, sys: System, s: State, profiles: Profiles, call: UseCall, text: string,
      more: seq<Action>, later: System, u: State, now: Host, others: Profiles, retry: UseCall)
    requires Reached(host, actions, sys, s) && ReserveRows(sys.rows, sys.host, profiles, call).Reserved?
    requires ValidId(call.identity + Text("-attempt")) && |text| > Native.TEXT_LIMIT
    requires var t := ReserveRows(sys.rows, sys.host, profiles, call).ticket;
      Reached(host, actions + [Reserving(profiles, call)] + [Executing(t, Answers(text), false)] + more, later, u)
    ensures var i, f, n := call.identity, u.facts, |sys.invoked|;
      && n < |later.invoked| && later.invoked[n].ticket.identity == i && later.invoked[n].result == Answers(text)
      && i in f.intents && i !in f.attempts && i !in f.outcomes && Unresolved(f, i) && !Served(f, i)
      && (retry.qualification == f.intents[i].qualification && retry.input == f.intents[i].input ==>
            !ReserveRows(later.rows, now, others, retry).Reserved?)
  {
    hide *;
    var r := ReserveRows(sys.rows, sys.host, profiles, call);
    var t, reserve := r.ticket, actions + [Reserving(profiles, call)];
    var execute := Executing(t, Answers(text), false);
    ReachedInv(host, actions, sys, s);
    OverlongCall(sys.rows, sys.host, profiles, call, text);
    RunNext(host, actions, Reserving(profiles, call));
    ReservingNext(sys, profiles, call);
    var reserved := Run(host, reserve);
    RunReaches(host, reserve);
    StoredFacts(reserved.rows);
    assert Lost(reserved, t, Answers(text), false) by { NotFittingLost(reserved, t, Answers(text), false); }
    LostForever(host, reserve, reserved, Replay(reserved.rows).value, t, Answers(text), false, more, later, u, now,
                others, retry);
    RunNext(host, reserve, execute);
    ExecutingNext(reserved, t, Answers(text), false);
    ExecutedLogged(reserved, t, Answers(text), false);
    RunGrows(host, reserve + [execute], more);
    ReachedInv(host, reserve + [execute] + more, later, u);
  }

  lemma NotFittingLost(sys: System, t: Ticket, result: ToolResult, crash: bool)
    requires !UseFits(sys.rows, t, result)
    ensures Lost(sys, t, result, crash)
  {
    hide UseFits, ExecuteRows;
  }
}
