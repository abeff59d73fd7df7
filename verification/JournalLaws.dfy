/** Laws of replay: concatenation, redelivery, first occurrences, and growth that undoes nothing. */
module JournalLaws {
  import opened Basics
  import opened Models
  import opened Journal

  /** Continuing a replay that may have failed. */
  ghost function Continue(r: Result<State>, es: seq<Entry>): Result<State>
    requires r.Ok? ==> Sound(r.value)
  {
    match r
    case Err(error) => Err(error)
    case Ok(s) => Fold(s, es)
  }

  /** Replaying `a + b` is replaying `b` from the state that `a` leaves. */
  lemma {:induction false} FoldConcat(s: State, a: seq<Entry>, b: seq<Entry>)
    requires Sound(s)
    ensures Fold(s, a + b) == Continue(Fold(s, a), b)
    decreases |a|
  {
    if a == [] {
      assert a + b == b;
    } else {
      assert (a + b)[1..] == a[1..] + b;
      if Step(s, a[0]).Ok? {
        StepSound(s, a[0]);
        FoldConcat(Step(s, a[0]).value, a[1..], b);
      }
    }
  }

  lemma FoldOne(s: State, e: Entry)
    requires Sound(s)
    ensures Fold(s, [e]) == Step(s, e)
  {
    if Step(s, e).Ok? {
      StepSound(s, e);
      assert [e][1..] == [];
    }
  }

  lemma FoldSnoc(s: State, es: seq<Entry>, e: Entry)
    requires Sound(s)
    ensures Fold(s, es + [e]) == if Fold(s, es).Ok? then Step(Fold(s, es).value, e) else Fold(s, es)
  {
    FoldConcat(s, es, [e]);
    if Fold(s, es).Ok? { FoldOne(Fold(s, es).value, e); }
  }

  lemma SubMapTransitive<K, V>(a: map<K, V>, b: map<K, V>, c: map<K, V>)
    requires SubMap(a, b) && SubMap(b, c)
    ensures SubMap(a, c)
  {
  }

  lemma ExtendsTransitive(f: Facts, g: Facts, h: Facts)
    requires Extends(f, g) && Extends(g, h)
    ensures Extends(f, h)
  {
    SubMapTransitive(f.costs, g.costs, h.costs);
    SubMapTransitive(f.intents, g.intents, h.intents);
    SubMapTransitive(f.attempts, g.attempts, h.attempts);
    SubMapTransitive(f.outcomes, g.outcomes, h.outcomes);
    SubMapTransitive(f.checked, g.checked, h.checked);
  }

  lemma ExtendsReflexive(f: Facts)
    ensures Extends(f, f)
  {
  }

  /** Later entries undo nothing: costs, blocks, intents, outcomes and services stay as recorded. */
  lemma {:induction false} FoldExtends(s: State, es: seq<Entry>)
    requires Sound(s) && Fold(s, es).Ok?
    ensures s.unique <= Fold(s, es).value.unique
    ensures Extends(s.facts, Fold(s, es).value.facts)
    decreases |es|
  {
    if es == [] {
      ExtendsReflexive(s.facts);
    } else {
      var t := Step(s, es[0]).value;
      StepSound(s, es[0]);
      FoldExtends(t, es[1..]);
      ExtendsTransitive(s.facts, t.facts, Fold(s, es).value.facts);
    }
  }

  // ---- First occurrences.

  /** The entries whose id was not seen before. */
  function Firsts(seen: set<Id>, es: seq<Entry>): seq<Entry>
    decreases |es|
  {
    if es == [] then []
    else if es[0].id in seen then Firsts(seen, es[1..])
    else [es[0]] + Firsts(seen + {es[0].id}, es[1..])
  }

  lemma StepIds(s: State, e: Entry)
    requires Sound(s) && Step(s, e).Ok?
    ensures Step(s, e).value.ids.Keys == s.ids.Keys + {e.id}
    ensures e.id in s.ids ==> Step(s, e).value == s
  {
  }

  lemma FirstsCons(done: seq<Entry>, seen: set<Id>, es: seq<Entry>)
    requires es != []
    ensures done + Firsts(seen, es) ==
      (if es[0].id in seen then done else done + [es[0]]) + Firsts(seen + {es[0].id}, es[1..])
  {
    if es[0].id in seen { assert seen + {es[0].id} == seen; }
  }

  lemma {:induction false} FoldKeepsFirsts(s: State, es: seq<Entry>)
    requires Sound(s) && Fold(s, es).Ok?
    ensures Fold(s, es).value.unique == s.unique + Firsts(s.ids.Keys, es)
    decreases |es|
  {
    if es != [] {
      StepSound(s, es[0]);
      StepIds(s, es[0]);
      FirstsCons(s.unique, s.ids.Keys, es);
      FoldKeepsFirsts(Step(s, es[0]).value, es[1..]);
    }
  }

  /** A state that its own list of unique entries replays to. */
  ghost predicate SelfMade(s: State) {
    Sound(EMPTY) && Fold(EMPTY, s.unique) == Ok(s)
  }

  lemma {:induction false} FoldSelfMade(s: State, es: seq<Entry>)
    requires Sound(s) && SelfMade(s) && Fold(s, es).Ok?
    ensures SelfMade(Fold(s, es).value)
    decreases |es|
  {
    if es != [] {
      var t := Step(s, es[0]).value;
      StepSound(s, es[0]);
      FoldSnoc(EMPTY, s.unique, es[0]);
      FoldSelfMade(t, es[1..]);
    }
  }

  lemma {:induction false} FirstsShorter(seen: set<Id>, es: seq<Entry>)
    ensures |Firsts(seen, es)| <= |es|
    decreases |es|
  {
    if es != [] {
      FirstsShorter(seen, es[1..]);
      FirstsShorter(seen + {es[0].id}, es[1..]);
    }
  }

  lemma ReplaySelfMade(es: seq<Entry>)
    requires Replay(es).Ok?
    ensures SelfMade(Replay(es).value)
  {
    FoldSelfMade(EMPTY, es);
  }

  lemma ReplayFirsts(es: seq<Entry>)
    requires Replay(es).Ok?
    ensures Replay(es).value.unique == Firsts({}, es)
    ensures |Replay(es).value.unique| <= |es|
  {
    FoldKeepsFirsts(EMPTY, es);
    FirstsShorter({}, es);
    assert EMPTY.ids.Keys == {};
    assert [] + Firsts({}, es) == Firsts({}, es);
  }

  /** A replayed state is also what its own unique entries replay to. */
  lemma ReplayUnique(es: seq<Entry>)
    requires Replay(es).Ok?
    ensures Replay(Replay(es).value.unique) == Replay(es)
  {
    ReplaySelfMade(es);
    ReplayFirsts(es);
  }

  /** Replay of an accepted list equals replay of its first occurrences. */
  lemma ReplayFirstOccurrences(es: seq<Entry>)
    requires Replay(es).Ok?
    ensures Replay(Firsts({}, es)) == Replay(es)
  {
    ReplayUnique(es);
    ReplayFirsts(es);
  }

  // ---- Redelivery and conflict.

  lemma FoldHead(s: State, es: seq<Entry>)
    requires Sound(s) && Fold(s, es).Ok? && es != []
    ensures Linked(s.facts) && Step(s, es[0]).Ok? && Sound(Step(s, es[0]).value)
    ensures Fold(s, es) == Fold(Step(s, es[0]).value, es[1..])
  {
    hide Step;
    StepSound(s, es[0]);
  }

  lemma StepDelivers(s: State, e: Entry)
    requires Sound(s) && Step(s, e).Ok?
    ensures ValidEntry(e) && FitsEntry(e)
    ensures e.id in Step(s, e).value.ids && Step(s, e).value.ids[e.id] == OfEntry(e)
  {
    hide Apply, ValidEntry;
  }

  lemma StepKeepsIds(s: State, e: Entry, id: Id)
    requires Sound(s) && Step(s, e).Ok? && id in s.ids
    ensures id in Step(s, e).value.ids && Step(s, e).value.ids[id] == s.ids[id]
  {
    hide Apply, ValidEntry;
  }

  lemma {:induction false} DeliveredIndexed(s: State, es: seq<Entry>, k: nat)
    requires Sound(s) && Fold(s, es).Ok? && k < |es|
    ensures var t := Fold(s, es).value;
      ValidEntry(es[k]) && FitsEntry(es[k]) && es[k].id in t.ids && t.ids[es[k].id] == OfEntry(es[k])
    decreases |es|
  {
    hide *;
    FoldHead(s, es);
    var t := Step(s, es[0]).value;
    StepDelivers(s, es[0]);
    if k > 0 {
      DeliveredIndexed(t, es[1..], k - 1);
    } else {
      IdsKept(t, es[1..], es[0].id);
    }
  }

  lemma {:induction false} IdsKept(s: State, es: seq<Entry>, id: Id)
    requires Sound(s) && Fold(s, es).Ok? && id in s.ids
    ensures id in Fold(s, es).value.ids && Fold(s, es).value.ids[id] == s.ids[id]
    decreases |es|
  {
    if es == [] {
    } else {
      hide *;
      FoldHead(s, es);
      StepKeepsIds(s, es[0], id);
      IdsKept(Step(s, es[0]).value, es[1..], id);
    }
  }

  /**
   Delivering an entry again changes nothing while the list is within the event limit, against
   which the redelivery counts; the same id with other content is always refused.
  */
  lemma Redelivery(es: seq<Entry>, k: nat, e: Entry)
    requires Replay(es).Ok? && k < |es| && e.id == es[k].id
    ensures e == es[k] && |es| < EVENT_LIMIT ==> Replay(es + [e]) == Replay(es)
    ensures e != es[k] || |es| >= EVENT_LIMIT ==> Replay(es + [e]).Err?
  {
    RedeliveryStep(Replay(es).value, es[k], e) by { DeliveredIndexed(EMPTY, es, k); }
    FoldSnoc(EMPTY, es, e);
  }

  lemma RedeliveryStep(s: State, first: Entry, e: Entry)
    requires Sound(s) && ValidEntry(first) && FitsEntry(first) && first.id in s.ids && s.ids[first.id] == OfEntry(first)
    requires e.id == first.id
    ensures e == first ==> Step(s, e) == Ok(s)
    ensures e != first ==> Step(s, e).Err?
  {
    hide Apply, ValidEntry;
  }

  /** An entry whose parent is the present revision is never taken for a redelivery. */
  lemma ChainedIsNew(s: State, e: Entry)
    requires Sound(s) && Step(s, e).Ok? && e.previous == Revision(s)
    ensures e.id !in s.ids
    ensures Step(s, e).value.unique == s.unique + [e]
    ensures Apply(s.facts, e).Ok? && Step(s, e).value.facts == Apply(s.facts, e).value
  {
    assert forall i :: 0 <= i < |s.unique| ==> |s.unique[..i]| < |s.unique|;
  }

  /** Equal revisions mean equal lists, equal lists equal states. */
  lemma RevisionDeterminesState(a: seq<Entry>, b: seq<Entry>)
    requires Replay(a).Ok? && Replay(b).Ok? && Revision(Replay(a).value) == Revision(Replay(b).value)
    ensures Replay(a).value == Replay(b).value
  {
    ReplayUnique(a);
    ReplayUnique(b);
  }
}
