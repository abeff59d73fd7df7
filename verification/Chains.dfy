/** Lists of stored rows taken entry by entry, and batches whose entries are chained to them. */
module Chains {
  import opened Basics
  import opened Models
  import opened Journal
  import opened JournalLaws
  import opened Store

  /** The state dictionary that rows replay to. */
  ghost function FactsOf(rows: seq<Entry>): Facts {
    if Replay(rows).Ok? then Replay(rows).value.facts else NO_FACTS
  }

  ghost predicate IsReplay(r: Result<State>, rows: seq<Entry>) {
    r == Replay(rows)
  }

  /** The rows can be stored, and this is the state that they replay to. */
  ghost predicate Replays(rows: seq<Entry>, s: State) {
    forall r: Result<State> :: IsReplay(r, rows) ==> r == Ok(s) && s.unique == rows
  }

  lemma ReplaysMeans(rows: seq<Entry>, s: State)
    requires Replays(rows, s)
    ensures Stored(rows) && Replay(rows) == Ok(s) && FactsOf(rows) == s.facts
  {
    hide Replay;
    assert IsReplay(Replay(rows), rows);
  }

  lemma StoredReplays(rows: seq<Entry>)
    requires Stored(rows)
    ensures Replays(rows, Replay(rows).value)
  {
    hide Replay;
  }

  lemma StoredFront(front: seq<Entry>, e: Entry)
    requires Stored(front + [e])
    ensures Stored(front)
    ensures e.previous == OfEntries(front) && e.id !in Replay(front).value.ids
    ensures Linked(FactsOf(front)) && Apply(FactsOf(front), e).Ok?
    ensures FactsOf(front + [e]) == Apply(FactsOf(front), e).value
  {
    hide *;
    FrontStored(front, e);
    LastApplies(front, e);
  }

  lemma FrontStored(front: seq<Entry>, e: Entry)
    requires Stored(front + [e])
    ensures Stored(front) && e.id !in Replay(front).value.ids
  {
    hide Apply, Fold, Sound;
    assert (front + [e])[..|front|] == front;
    FoldSnoc(EMPTY, front, e);
    FitsListParts(front + [e], |front|);
    FrontReplays(front, e);
  }

  lemma LastApplies(front: seq<Entry>, e: Entry)
    requires Stored(front + [e]) && Stored(front) && e.id !in Replay(front).value.ids
    ensures e.previous == OfEntries(front)
    ensures Linked(FactsOf(front)) && Apply(FactsOf(front), e).Ok?
    ensures FactsOf(front + [e]) == Apply(FactsOf(front), e).value
  {
    hide Apply, Fold;
    FoldSnoc(EMPTY, front, e);
  }

  lemma FrontReplays(front: seq<Entry>, e: Entry)
    requires Stored(front + [e]) && Fold(EMPTY, front).Ok? && FitsList(front)
    requires Step(Fold(EMPTY, front).value, e) == Fold(EMPTY, front + [e])
    ensures Replay(front).Ok? && Replay(front).value.unique == front
    ensures e.id !in Replay(front).value.ids
  {
    hide Fold;
    var s := Replay(front).value;
    StepSound(s, e);
    ReplayFirsts(front);
    assert |front + [e]| == |front| + 1;
    assert s.unique + [e] == front + [e];
    assert (s.unique + [e])[..|front|] == s.unique && (front + [e])[..|front|] == front;
  }

  lemma {:induction false} StoredPrefix(es: seq<Entry>, k: nat)
    requires Stored(es) && k <= |es|
    ensures Stored(es[..k])
  {
    hide *;
    if k == |es| {
      assert es[..k] == es;
    } else {
      var n := |es| - 1;
      assert es == es[..n] + [es[n]];
      StoredFront(es[..n], es[n]);
      StoredPrefix(es[..n], k);
      assert es[..n][..k] == es[..k];
    }
  }

  /** Each stored entry is chained to the rows before it and applies to their state. */
  lemma StoredAt(es: seq<Entry>, k: nat)
    requires Stored(es) && k < |es|
    ensures Stored(es[..k]) && Stored(es[..k + 1])
    ensures Linked(FactsOf(es[..k])) && Apply(FactsOf(es[..k]), es[k]).Ok?
    ensures FactsOf(es[..k + 1]) == Apply(FactsOf(es[..k]), es[k]).value
  {
    hide *;
    StoredPrefix(es, k + 1);
    assert es[..k + 1] == es[..k] + [es[k]];
    StoredFront(es[..k], es[k]);
  }

  /** Facts grow along the rows. */
  lemma FactsGrow(es: seq<Entry>, j: nat, k: nat)
    requires Stored(es) && j <= k <= |es|
    ensures Extends(FactsOf(es[..j]), FactsOf(es[..k]))
  {
    hide Replay;
    StoredPrefix(es, j);
    StoredPrefix(es, k);
    assert es[..k] == es[..j] + es[j..k];
    ReplayContinues(es[..j], es[j..k]);
    FoldExtends(Replay(es[..j]).value, es[j..k]);
  }

  lemma StoredLinked(es: seq<Entry>)
    requires Stored(es)
    ensures Linked(FactsOf(es)) && Judged(FactsOf(es)) && Settled(FactsOf(es))
  {
  }

  // ---- Chained batches.

  ghost predicate ChainedAt(rows: seq<Entry>, batch: seq<Entry>, k: nat)
    requires k < |batch|
  {
    && Replay(rows + batch[..k]).Ok?
    && batch[k].previous == Revision(Replay(rows + batch[..k]).value)
  }

  /** Every batch entry names the revision of the rows and batch before it. */
  ghost predicate Chained(rows: seq<Entry>, batch: seq<Entry>) {
    forall k :: 0 <= k < |batch| ==> ChainedAt(rows, batch, k)
  }

  lemma ChainedFront(rows: seq<Entry>, batch: seq<Entry>, k: nat)
    requires Chained(rows, batch) && k <= |batch|
    ensures Chained(rows, batch[..k])
  {
    forall j | 0 <= j < k ensures ChainedAt(rows, batch[..k], j) {
      assert ChainedAt(rows, batch, j);
      assert batch[..k][..j] == batch[..j];
    }
  }

  lemma ChainedSnoc(rows: seq<Entry>, batch: seq<Entry>, body: Body, id: Id, time: int)
    requires Chained(rows, batch) && Event(body, id, time, rows + batch).Ok?
    ensures Chained(rows, batch + [Event(body, id, time, rows + batch).value])
  {
    var e := Event(body, id, time, rows + batch).value;
    var all := batch + [e];
    forall j | 0 <= j < |all| ensures ChainedAt(rows, all, j) {
      if j < |batch| {
        assert ChainedAt(rows, batch, j);
        assert all[..j] == batch[..j];
      } else {
        assert all[..j] == batch;
      }
    }
  }

  /** A chained batch that replays is all new: the rows become the rows with the batch at the end. */
  lemma {:induction false} ChainStored(rows: seq<Entry>, batch: seq<Entry>)
    requires Stored(rows) && Chained(rows, batch) && Replay(rows + batch).Ok?
    ensures Stored(rows + batch)
    decreases |batch|
  {
    hide Replay;
    if batch == [] {
      assert rows + batch == rows;
    } else {
      var n := |batch| - 1;
      var front, e := batch[..n], batch[n];
      assert ChainedAt(rows, batch, n);
      ChainedFront(rows, batch, n);
      ChainStored(rows, front);
      assert rows + batch == (rows + front) + [e];
      ChainOne(rows + front, e);
    }
  }

  lemma ChainOne(rows: seq<Entry>, e: Entry)
    requires Stored(rows) && e.previous == OfEntries(rows) && Replay(rows + [e]).Ok?
    ensures Stored(rows + [e])
  {
    hide Fold, Sound, FitsList;
    FoldSnoc(EMPTY, rows, e);
    ChainedIsNew(Replay(rows).value, e);
  }

  lemma AppendChained(rows: seq<Entry>, batch: seq<Entry>, expected: Digest)
    requires Stored(rows) && Chained(rows, batch) && Append(rows, batch, expected).Ok?
    ensures Append(rows, batch, expected).value.rows == rows + batch
    ensures Append(rows, batch, expected).value.revision == OfEntries(rows + batch)
    ensures Stored(rows + batch)
  {
    AppendReadable(rows, batch, expected);
    AppendInserts(rows, batch, expected);
    ChainStored(rows, batch);
  }
}
