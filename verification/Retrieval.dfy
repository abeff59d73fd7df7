/**
 `ReceiverRuntime._retrieve`: judge every admitted qualification, sort, keep one view per memory by
 filling a dictionary from the back, cut to the limit.
*/
module Retrieval {
  import opened Basics
  import opened Models
  import opened Journal
  import opened Eligibility

  /** Whether a claim contains the query, case folded; the folding itself is not modelled. */
  type Query = string -> bool

  predicate Misses(query: Query, v: View) {
    v.claim.None? || !query(v.claim.value)
  }

  /** Order by (query mismatch, memory id). */
  predicate RankBefore(query: Query, v: View, w: View) {
    if Misses(query, v) == Misses(query, w) then Less(v.memoryId, w.memoryId) else Misses(query, w)
  }

  /** Order by the sort key (query mismatch, memory id, minus expiry). */
  predicate Precedes(query: Query, v: View, w: View) {
    if Misses(query, v) == Misses(query, w) && v.memoryId == w.memoryId then v.expiry > w.expiry
    else RankBefore(query, v, w)
  }

  lemma PrecedesNegative(query: Query, u: View, v: View, w: View)
    requires !Precedes(query, v, u) && !Precedes(query, w, v)
    ensures !Precedes(query, w, u)
  {
    LessTotal(u.memoryId, v.memoryId);
    LessTotal(v.memoryId, w.memoryId);
    LessIrreflexive(u.memoryId);
    LessIrreflexive(v.memoryId);
    if Less(u.memoryId, v.memoryId) && Less(v.memoryId, w.memoryId) {
      LessTransitive(u.memoryId, v.memoryId, w.memoryId);
    }
    if Less(u.memoryId, w.memoryId) { LessAsymmetric(u.memoryId, w.memoryId); }
  }

  predicate Sorted(query: Query, views: seq<View>) {
    forall i, j :: 0 <= i < j < |views| ==> !Precedes(query, views[j], views[i])
  }

  /** Puts `v` before everything that it does not have to follow: equal keys keep their order. */
  function InsertView(query: Query, v: View, sorted: seq<View>): (r: seq<View>)
    requires Sorted(query, sorted)
    ensures Sorted(query, r)
    ensures forall x :: x in r <==> x == v || x in sorted
  {
    if sorted == [] then [v]
    else if Precedes(query, sorted[0], v) then
      assert Sorted(query, sorted[1..]);
      var rest := InsertView(query, v, sorted[1..]);
      KeepHead(query, v, sorted, rest);
      [sorted[0]] + rest
    else
      NewHead(query, v, sorted);
      [v] + sorted
  }

  lemma NewHead(query: Query, v: View, sorted: seq<View>)
    requires sorted != [] && Sorted(query, sorted) && !Precedes(query, sorted[0], v)
    ensures Sorted(query, [v] + sorted)
  {
    var r := [v] + sorted;
    forall j | 0 < j < |r| ensures !Precedes(query, r[j], v) {
      if j > 1 { PrecedesNegative(query, v, sorted[0], sorted[j - 1]); }
    }
  }

  lemma KeepHead(query: Query, v: View, sorted: seq<View>, rest: seq<View>)
    requires sorted != [] && Sorted(query, sorted) && Precedes(query, sorted[0], v)
    requires Sorted(query, rest) && forall x :: x in rest <==> x == v || x in sorted[1..]
    ensures Sorted(query, [sorted[0]] + rest)
    ensures forall x :: x in [sorted[0]] + rest <==> x == v || x in sorted
  {
    var r := [sorted[0]] + rest;
    forall j | 0 < j < |r| ensures !Precedes(query, r[j], sorted[0]) {
      assert rest[j - 1] in rest;
      if rest[j - 1] == v {
        LessIrreflexive(v.memoryId);
        if Less(sorted[0].memoryId, v.memoryId) { LessAsymmetric(sorted[0].memoryId, v.memoryId); }
      } else {
        var k :| 0 <= k < |sorted[1..]| && sorted[1..][k] == rest[j - 1];
        assert sorted[k + 1] == rest[j - 1];
      }
    }
    assert sorted == [sorted[0]] + sorted[1..];
  }

  /** `views.sort(key=...)`, which is stable. */
  function StableSort(query: Query, views: seq<View>): (r: seq<View>)
    ensures Sorted(query, r)
    ensures forall x :: x in r <==> x in views
  {
    if views == [] then []
    else
      assert views == [views[0]] + views[1..];
      InsertView(query, views[0], StableSort(query, views[1..]))
  }

  /** The first view of a memory. */
  function First(views: seq<View>, id: string): Option<View> {
    if views == [] then None
    else if views[0].memoryId == id then Some(views[0])
    else First(views[1..], id)
  }

  /** The view of a memory that expires last, the earliest in the list among equals. */
  function Best(views: seq<View>, id: string): Option<View> {
    if views == [] then None
    else
      var rest := Best(views[1..], id);
      if views[0].memoryId != id then rest
      else if rest.Some? && rest.value.expiry > views[0].expiry then rest
      else Some(views[0])
  }

  /** What `Best` means: nothing of the same memory expires later, and nothing as late comes earlier. */
  lemma {:induction false} BestIsLatest(views: seq<View>, id: string)
    ensures Best(views, id).None? <==> forall i :: 0 <= i < |views| ==> views[i].memoryId != id
    ensures Best(views, id).Some? ==>
      exists k :: 0 <= k < |views| && views[k] == Best(views, id).value && LatestAt(views, id, k)
  {
    if views != [] {
      var rest := views[1..];
      BestIsLatest(rest, id);
      assert forall i :: 0 <= i < |rest| ==> rest[i] == views[i + 1];
      assert forall i :: 0 < i < |views| ==> views[i] == rest[i - 1];
      if Best(rest, id).Some? {
        var k :| 0 <= k < |rest| && rest[k] == Best(rest, id).value && LatestAt(rest, id, k);
        if Best(views, id) == Best(rest, id) && (views[0].memoryId != id || rest[k].expiry > views[0].expiry) {
          assert LatestAt(views, id, k + 1);
        } else {
          assert LatestAt(views, id, 0);
        }
      } else if Best(views, id).Some? {
        assert LatestAt(views, id, 0);
      }
    }
  }

  predicate LatestAt(views: seq<View>, id: string, k: nat) {
    && k < |views|
    && views[k].memoryId == id
    && forall j :: 0 <= j < |views| && views[j].memoryId == id ==>
         views[j].expiry < views[k].expiry || (views[j].expiry == views[k].expiry && k <= j)
  }

  /** Views of one memory carry one claim. */
  predicate OneClaimEach(views: seq<View>) {
    forall i, j :: 0 <= i < |views| && 0 <= j < |views| && views[i].memoryId == views[j].memoryId ==>
      views[i].claim == views[j].claim
  }

  lemma {:induction false} FirstFound(views: seq<View>, id: string)
    ensures First(views, id).Some? ==> First(views, id).value in views && First(views, id).value.memoryId == id
    ensures First(views, id).None? <==> forall x :: x in views ==> x.memoryId != id
  {
    if views != [] {
      FirstFound(views[1..], id);
      assert views == [views[0]] + views[1..];
    }
  }

  lemma {:induction false} InsertFirst(query: Query, v: View, sorted: seq<View>, id: string)
    requires Sorted(query, sorted)
    requires forall x :: x in sorted && x.memoryId == v.memoryId ==> x.claim == v.claim
    ensures First(InsertView(query, v, sorted), id) ==
      (if v.memoryId != id then First(sorted, id)
       else if First(sorted, id).Some? && First(sorted, id).value.expiry > v.expiry then First(sorted, id)
       else Some(v))
  {
    if sorted == [] {
      assert [v][1..] == [];
    } else if Precedes(query, sorted[0], v) {
      assert Sorted(query, sorted[1..]);
      InsertFirst(query, v, sorted[1..], id);
      var rest := InsertView(query, v, sorted[1..]);
      assert ([sorted[0]] + rest)[1..] == rest;
    } else {
      assert ([v] + sorted)[1..] == sorted;
      FirstFound(sorted, id);
      if v.memoryId == id && First(sorted, id).Some? {
        var w := First(sorted, id).value;
        var k :| 0 <= k < |sorted| && sorted[k] == w;
        if k > 0 { PrecedesNegative(query, v, sorted[0], w); }
      }
    }
  }

  /** The first view of each memory after sorting is the one that expires last. */
  lemma {:induction false} SortFirst(query: Query, views: seq<View>, id: string)
    requires OneClaimEach(views)
    ensures First(StableSort(query, views), id) == Best(views, id)
  {
    if views != [] {
      var rest := views[1..];
      assert forall i :: 0 <= i < |rest| ==> rest[i] == views[i + 1];
      SortFirst(query, rest, id);
      InsertFirst(query, views[0], StableSort(query, rest), id);
    }
  }

  // ---- The dictionary.

  predicate DistinctMemories(d: seq<View>) {
    forall i, j :: 0 <= i < j < |d| ==> d[i].memoryId != d[j].memoryId
  }

  function Position(d: seq<View>, id: string): (k: nat)
    ensures k <= |d|
    ensures k < |d| ==> d[k].memoryId == id
    ensures forall i :: 0 <= i < k ==> d[i].memoryId != id
  {
    if d == [] || d[0].memoryId == id then 0 else 1 + Position(d[1..], id)
  }

  /** `d[v.memory_id] = v`: a present key keeps its place, a new one goes to the end. */
  function Put(d: seq<View>, v: View): seq<View> {
    var k := Position(d, v.memoryId);
    if k < |d| then d[k := v] else d + [v]
  }

  function Reversed(d: seq<View>): (r: seq<View>)
    ensures |r| == |d| && forall i :: 0 <= i < |d| ==> r[i] == d[|d| - 1 - i]
  {
    seq(|d|, i requires 0 <= i < |d| => d[|d| - 1 - i])
  }

  /** In strict order by (query mismatch, memory id). */
  predicate Ranked(query: Query, r: seq<View>) {
    forall i, j :: 0 <= i < j < |r| ==> RankBefore(query, r[i], r[j])
  }

  /** The whole result before the cut: one view per memory, the best one, in strict rank order. */
  ghost predicate IsRanking(query: Query, views: seq<View>, r: seq<View>) {
    && Ranked(query, r)
    && DistinctMemories(r)
    && (forall k :: 0 <= k < |r| ==> Best(views, r[k].memoryId) == Some(r[k]))
    && (forall id :: Best(views, id).Some? ==> Best(views, id).value in r)
  }

  /** What the dictionary holds once the views from `n` on have been put, last first. */
  ghost predicate Holds(query: Query, sorted: seq<View>, n: nat, d: seq<View>)
    requires n <= |sorted|
  {
    && DistinctMemories(d)
    && Ranked(query, Reversed(d))
    && (forall k :: 0 <= k < |d| ==> First(sorted[n..], d[k].memoryId) == Some(d[k]))
    && (forall id :: First(sorted[n..], id).Some? ==> First(sorted[n..], id).value in d)
  }

  lemma PutHolds(query: Query, sorted: seq<View>, n: nat, d: seq<View>)
    requires 0 < n <= |sorted| && Sorted(query, sorted) && OneClaimEach(sorted) && Holds(query, sorted, n, d)
    ensures Holds(query, sorted, n - 1, Put(d, sorted[n - 1]))
  {
    var v := sorted[n - 1];
    var e := Put(d, v);
    var tail := sorted[n - 1..];
    assert tail[0] == v && tail[1..] == sorted[n..];
    PutRanked(query, sorted, n, d);
    forall id | First(tail, id).Some? ensures First(tail, id).value in e {
      if id == v.memoryId {
        assert e[Position(d, v.memoryId)] == v;
      } else {
        var w := First(sorted[n..], id).value;
        FirstFound(sorted[n..], id);
        var k :| 0 <= k < |d| && d[k] == w;
        assert e[k] == w;
      }
    }
  }

  lemma FromSuffix(sorted: seq<View>, n: nat, w: View)
    requires n <= |sorted| && w in sorted[n..]
    ensures exists m :: n <= m < |sorted| && sorted[m] == w
  {
    var k :| 0 <= k < |sorted[n..]| && sorted[n..][k] == w;
    assert sorted[n + k] == w;
  }

  lemma PutRanked(query: Query, sorted: seq<View>, n: nat, d: seq<View>)
    requires 0 < n <= |sorted| && Sorted(query, sorted) && OneClaimEach(sorted) && Holds(query, sorted, n, d)
    ensures Ranked(query, Reversed(Put(d, sorted[n - 1]))) && DistinctMemories(Put(d, sorted[n - 1]))
  {
    var v := sorted[n - 1];
    var e := Put(d, v);
    var p := Position(d, v.memoryId);
    forall k | 0 <= k < |d|
      ensures if d[k].memoryId == v.memoryId then d[k].claim == v.claim else RankBefore(query, v, d[k])
    {
      FirstFound(sorted[n..], d[k].memoryId);
      FromSuffix(sorted, n, d[k]);
      var m :| n <= m < |sorted| && sorted[m] == d[k];
      LessTotal(v.memoryId, d[k].memoryId);
    }
    forall i, j | 0 <= i < j < |e| ensures RankBefore(query, e[j], e[i]) {
      assert i < |d|;
      if j < |d| {
        assert RankBefore(query, d[j], d[i]) by {
          assert Reversed(d)[|d| - 1 - j] == d[j] && Reversed(d)[|d| - 1 - i] == d[i];
        }
      }
    }
  }

  /** The views `_retrieve` sorts: one per eligible qualification, in admission order. */
  function EligibleViews(
      host: Host, qs: seq<Qualification>, context: Context, input: string, now: int, s: State): seq<View> {
    if qs == [] then []
    else
      var front := EligibleViews(host, qs[..|qs| - 1], context, input, now, s);
      var q := qs[|qs| - 1];
      if Eligible(host, q, context, input, now, s.facts)
      then front + [Viewed(q, context, Revision(s), []).(claim := Promotion(host, q))]
      else front
  }

  /** The others, with their reasons. */
  function ExcludedViews(
      host: Host, qs: seq<Qualification>, context: Context, input: string, now: int, s: State): seq<View> {
    if qs == [] then []
    else
      var front := ExcludedViews(host, qs[..|qs| - 1], context, input, now, s);
      var q := qs[|qs| - 1];
      if Eligible(host, q, context, input, now, s.facts) then front
      else front + [Viewed(q, context, Revision(s), Reasons(host, q, context, input, now, s.facts))]
  }

  /** `v` is the finished view of an eligible qualification among `qs`. */
  predicate Shows(
    host: Host, qs: seq<Qualification>, context: Context, input: string, now: int, s: State, v: View)
  {
    && v.qualification.OfQualification?
    && var q := v.qualification.qualification;
      && q in qs
      && Eligible(host, q, context, input, now, s.facts)
      && v == Viewed(q, context, Revision(s), []).(claim := Promotion(host, q))
  }

  lemma {:induction false} EligibleViewsShape(
      host: Host, qs: seq<Qualification>, context: Context, input: string, now: int, s: State)
    ensures forall v :: v in EligibleViews(host, qs, context, input, now, s) ==>
      Shows(host, qs, context, input, now, s, v)
  {
    if qs != [] {
      var front := qs[..|qs| - 1];
      EligibleViewsShape(host, front, context, input, now, s);
      forall v | v in EligibleViews(host, qs, context, input, now, s)
        ensures Shows(host, qs, context, input, now, s, v)
      {
        assert v in EligibleViews(host, front, context, input, now, s) ==>
          Shows(host, front, context, input, now, s, v);
      }
    }
  }

  /** The claim belongs to the memory, not to the qualification. */
  lemma EligibleViewsOneClaim(
      host: Host, qs: seq<Qualification>, context: Context, input: string, now: int, s: State)
    ensures OneClaimEach(EligibleViews(host, qs, context, input, now, s))
  {
    EligibleViewsShape(host, qs, context, input, now, s);
    var views := EligibleViews(host, qs, context, input, now, s);
    forall k | 0 <= k < |views|
      ensures views[k].memoryId in host.records && views[k].claim == Some(host.records[views[k].memoryId])
    {
      assert views[k] in views;
    }
  }

  lemma {:induction false} EligibleViewsComplete(
      host: Host, qs: seq<Qualification>, context: Context, input: string, now: int, s: State, q: Qualification)
    requires q in qs && Eligible(host, q, context, input, now, s.facts)
    ensures var v := Viewed(q, context, Revision(s), []).(claim := Promotion(host, q));
      v in EligibleViews(host, qs, context, input, now, s)
  {
    var last := qs[|qs| - 1];
    if q != last {
      assert q in qs[..|qs| - 1] by {
        var k :| 0 <= k < |qs| && qs[k] == q;
        assert qs[..|qs| - 1][k] == q;
      }
      EligibleViewsComplete(host, qs[..|qs| - 1], context, input, now, s, q);
    }
  }

  /** Positions of `qs`, in order: exactly those where the qualification is judged `eligible` so. */
  predicate Selects(
    host: Host, qs: seq<Qualification>, context: Context, input: string, now: int, s: State, eligible: bool,
    at: seq<nat>)
  {
    && (forall j, k :: 0 <= j < k < |at| ==> at[j] < at[k])
    && (forall k :: 0 <= k < |at| ==> at[k] < |qs|)
    && (forall i: nat :: i < |qs| ==> (i in at <==> Eligible(host, qs[i], context, input, now, s.facts) == eligible))
  }

  /** The view of what was excluded from this position: not eligible, for reasons that it lists. */
  predicate Excludes(
    host: Host, q: Qualification, context: Context, input: string, now: int, s: State, v: View)
  {
    && !v.eligible && v.reasons != [] && v.reasons == Reasons(host, q, context, input, now, s.facts)
    && v.qualification == OfQualification(q) && v.snapshot == OfEntries(s.unique) && v.claim == None
    && v.memoryId == q.memoryId && v.updateId == q.updateId && v.workflowDigest == q.workflowDigest
    && v.contextDigest == OfContext(context) && v.expiry == q.validUntil
    && v.executionAuthority == None && v.sourceAuthentication == None
  }

  predicate LeavesOut(
    host: Host, qs: seq<Qualification>, context: Context, input: string, now: int, s: State, excluded: seq<View>,
    at: seq<nat>)
  {
    && Selects(host, qs, context, input, now, s, false, at)
    && |excluded| == |at|
    && forall k :: 0 <= k < |at| ==> Excludes(host, qs[at[k]], context, input, now, s, excluded[k])
  }

  lemma SelectsNext(
      host: Host, qs: seq<Qualification>, context: Context, input: string, now: int, s: State, eligible: bool,
      at: seq<nat>)
    requires qs != [] && Selects(host, qs[..|qs| - 1], context, input, now, s, eligible, at)
    ensures var n := |qs| - 1;
      var there := Eligible(host, qs[n], context, input, now, s.facts) == eligible;
      Selects(host, qs, context, input, now, s, eligible, if there then at + [n] else at)
  {
    hide Eligible;
    var n := |qs| - 1;
    var front := qs[..n];
    forall i: nat | i < n
      ensures i in at <==> Eligible(host, qs[i], context, input, now, s.facts) == eligible
    {
      assert front[i] == qs[i];
    }
    assert n !in at;
  }

  lemma ExcludedView(host: Host, q: Qualification, context: Context, input: string, now: int, s: State)
    requires !Eligible(host, q, context, input, now, s.facts)
    ensures Excludes(host, q, context, input, now, s,
                     Viewed(q, context, Revision(s), Reasons(host, q, context, input, now, s.facts)))
  {
    hide Reasons, Eligible, Reported;
    NoReasonIffEligible(host, q, context, input, now, s.facts);
  }

  /** Exactly the qualifications that are not eligible are excluded, each once, in admission order. */
  lemma {:induction false} ExcludedByPosition(
      host: Host, qs: seq<Qualification>, context: Context, input: string, now: int, s: State) returns (at: seq<nat>)
    ensures LeavesOut(host, qs, context, input, now, s, ExcludedViews(host, qs, context, input, now, s), at)
    decreases |qs|
  {
    hide LeavesOut, Eligible, Reasons, Viewed;
    if qs == [] {
      at := [];
      NoneExcluded(host, context, input, now, s);
    } else {
      var n := |qs| - 1;
      var front := ExcludedByPosition(host, qs[..n], context, input, now, s);
      var out := ExcludedViews(host, qs[..n], context, input, now, s);
      if Eligible(host, qs[n], context, input, now, s.facts) {
        at := front;
        ExcludedKept(host, qs, context, input, now, s, out, front);
      } else {
        at := front + [n];
        ExcludedView(host, qs[n], context, input, now, s);
        var v := Viewed(qs[n], context, Revision(s), Reasons(host, qs[n], context, input, now, s.facts));
        ExcludedMore(host, qs, context, input, now, s, out, front, v);
      }
    }
  }

  lemma NoneExcluded(host: Host, context: Context, input: string, now: int, s: State)
    ensures LeavesOut(host, [], context, input, now, s, [], [])
  {
  }

  lemma ExcludedKept(
      host: Host, qs: seq<Qualification>, context: Context, input: string, now: int, s: State, out: seq<View>,
      at: seq<nat>)
    requires qs != [] && LeavesOut(host, qs[..|qs| - 1], context, input, now, s, out, at)
    requires Eligible(host, qs[|qs| - 1], context, input, now, s.facts)
    ensures LeavesOut(host, qs, context, input, now, s, out, at)
  {
    hide Eligible, Excludes, Selects;
    SelectsNext(host, qs, context, input, now, s, false, at);
    SelectsWithin(host, qs[..|qs| - 1], context, input, now, s, false, at);
  }

  lemma ExcludedMore(
      host: Host, qs: seq<Qualification>, context: Context, input: string, now: int, s: State, out: seq<View>,
      at: seq<nat>, v: View)
    requires qs != [] && LeavesOut(host, qs[..|qs| - 1], context, input, now, s, out, at)
    requires !Eligible(host, qs[|qs| - 1], context, input, now, s.facts)
    requires Excludes(host, qs[|qs| - 1], context, input, now, s, v)
    ensures LeavesOut(host, qs, context, input, now, s, out + [v], at + [|qs| - 1])
  {
    hide Eligible, Excludes, Selects;
    SelectsNext(host, qs, context, input, now, s, false, at);
    SelectsWithin(host, qs[..|qs| - 1], context, input, now, s, false, at);
  }

  lemma SelectsWithin(
      host: Host, qs: seq<Qualification>, context: Context, input: string, now: int, s: State, eligible: bool,
      at: seq<nat>)
    requires Selects(host, qs, context, input, now, s, eligible, at)
    ensures forall k :: 0 <= k < |at| ==> at[k] < |qs|
  {
    hide Eligible;
  }

  /** The finished view of an eligible qualification: the promoted claim of its memory, and no reason. */
  predicate Finished(host: Host, q: Qualification, context: Context, s: State, v: View) {
    && v.eligible && v.reasons == [] && v.qualification == OfQualification(q) && v.snapshot == OfEntries(s.unique)
    && v.memoryId == q.memoryId && v.updateId == q.updateId && v.workflowDigest == q.workflowDigest
    && v.contextDigest == OfContext(context) && v.expiry == q.validUntil
    && v.executionAuthority == None && v.sourceAuthentication == None
    && q.memoryId in host.records && v.claim == Some(host.records[q.memoryId])
  }

  predicate Admits(
    host: Host, qs: seq<Qualification>, context: Context, input: string, now: int, s: State, views: seq<View>,
    at: seq<nat>)
  {
    && Selects(host, qs, context, input, now, s, true, at)
    && |views| == |at|
    && forall k :: 0 <= k < |at| ==> Finished(host, qs[at[k]], context, s, views[k])
  }

  lemma EligibleView(host: Host, q: Qualification, context: Context, input: string, now: int, s: State)
    requires Eligible(host, q, context, input, now, s.facts)
    ensures Finished(host, q, context, s, Viewed(q, context, Revision(s), []).(claim := Promotion(host, q)))
  {
    hide Reported, AllPaid, Withdrawn, Blocked;
  }

  /** Exactly the eligible qualifications are ranked, each once, in admission order. */
  lemma {:induction false} EligibleByPosition(
      host: Host, qs: seq<Qualification>, context: Context, input: string, now: int, s: State) returns (at: seq<nat>)
    ensures Admits(host, qs, context, input, now, s, EligibleViews(host, qs, context, input, now, s), at)
    decreases |qs|
  {
    hide Admits, Eligible, Viewed, Promotion;
    if qs == [] {
      at := [];
      NoneEligible(host, context, input, now, s);
    } else {
      var n := |qs| - 1;
      var front := EligibleByPosition(host, qs[..n], context, input, now, s);
      var out := EligibleViews(host, qs[..n], context, input, now, s);
      if Eligible(host, qs[n], context, input, now, s.facts) {
        at := front + [n];
        EligibleView(host, qs[n], context, input, now, s);
        var v := Viewed(qs[n], context, Revision(s), []).(claim := Promotion(host, qs[n]));
        EligibleMore(host, qs, context, input, now, s, out, front, v);
      } else {
        at := front;
        EligibleSame(host, qs, context, input, now, s, out, front);
      }
    }
  }

  lemma NoneEligible(host: Host, context: Context, input: string, now: int, s: State)
    ensures Admits(host, [], context, input, now, s, [], [])
  {
  }

  lemma EligibleSame(
      host: Host, qs: seq<Qualification>, context: Context, input: string, now: int, s: State, out: seq<View>,
      at: seq<nat>)
    requires qs != [] && Admits(host, qs[..|qs| - 1], context, input, now, s, out, at)
    requires !Eligible(host, qs[|qs| - 1], context, input, now, s.facts)
    ensures Admits(host, qs, context, input, now, s, out, at)
  {
    hide Eligible, Finished, Selects;
    SelectsNext(host, qs, context, input, now, s, true, at);
    SelectsWithin(host, qs[..|qs| - 1], context, input, now, s, true, at);
  }

  lemma EligibleMore(
      host: Host, qs: seq<Qualification>, context: Context, input: string, now: int, s: State, out: seq<View>,
      at: seq<nat>, v: View)
    requires qs != [] && Admits(host, qs[..|qs| - 1], context, input, now, s, out, at)
    requires Eligible(host, qs[|qs| - 1], context, input, now, s.facts)
    requires Finished(host, qs[|qs| - 1], context, s, v)
    ensures Admits(host, qs, context, input, now, s, out + [v], at + [|qs| - 1])
  {
    hide Eligible, Finished, Selects;
    SelectsNext(host, qs, context, input, now, s, true, at);
    SelectsWithin(host, qs[..|qs| - 1], context, input, now, s, true, at);
  }

  datatype Retrieved = Retrieved(views: seq<View>, excluded: seq<View>, snapshot: Digest)

  /** What the retrieval returns: the ranking of the eligible views, cut to the limit. */
  ghost predicate IsRetrieval(
    host: Host, context: Context, input: string, now: int, query: Query, limit: nat, s: State, r: seq<View>)
  {
    exists all: seq<View> :: IsRanking(query, EligibleViews(host, s.facts.qualifications, context, input, now, s), all)
      && r == all[..if limit < |all| then limit else |all|]
  }

  lemma DictionaryRanks(query: Query, views: seq<View>, distinct: seq<View>)
    requires OneClaimEach(views)
    requires Holds(query, StableSort(query, views), 0, distinct)
    ensures IsRanking(query, views, Reversed(distinct))
  {
    var sorted := StableSort(query, views);
    var all := Reversed(distinct);
    assert sorted[0..] == sorted;
    forall id ensures First(sorted, id) == Best(views, id) { SortFirst(query, views, id); }
    forall id | Best(views, id).Some? ensures Best(views, id).value in all {
      var k :| 0 <= k < |distinct| && distinct[k] == First(sorted, id).value;
      assert all[|distinct| - 1 - k] == distinct[k];
    }
  }

  lemma SortedOneClaim(query: Query, views: seq<View>)
    requires OneClaimEach(views)
    ensures OneClaimEach(StableSort(query, views))
  {
    var sorted := StableSort(query, views);
    forall i, j | 0 <= i < |sorted| && 0 <= j < |sorted| && sorted[i].memoryId == sorted[j].memoryId
      ensures sorted[i].claim == sorted[j].claim
    {
      assert sorted[i] in views && sorted[j] in views;
    }
  }

  lemma HoldsNothing(query: Query, sorted: seq<View>)
    ensures Holds(query, sorted, |sorted|, [])
  {
  }

  method Rank(query: Query, views: seq<View>) returns (all: seq<View>)
    requires OneClaimEach(views)
    ensures IsRanking(query, views, all)
  {
    hide Holds, OneClaimEach, Put, IsRanking, Sorted;
    var sorted := StableSort(query, views);
    SortedOneClaim(query, views);
    HoldsNothing(query, sorted);
    var distinct: seq<View> := [];
    var n := |sorted|;
    while n > 0
      invariant 0 <= n <= |sorted|
      invariant Holds(query, sorted, n, distinct)
    {
      PutHolds(query, sorted, n, distinct);
      n := n - 1;
      distinct := Put(distinct, sorted[n]);
    }
    DictionaryRanks(query, views, distinct);
    return Reversed(distinct);
  }

  method Retrieve(
    host: Host, context: Context, input: string, now: int, query: Query, limit: nat, s: State)
    returns (r: Result<Retrieved>)
    requires 1 <= limit <= 32
    ensures r.Ok? <==> s.facts.qualifications == [] || ValidTick(now)
    ensures r.Ok? ==> r.value.excluded == ExcludedViews(host, s.facts.qualifications, context, input, now, s)
    ensures r.Ok? ==> r.value.snapshot == Revision(s)
    ensures r.Ok? ==> IsRetrieval(host, context, input, now, query, limit, s, r.value.views)
    ensures r.Ok? ==> exists at: seq<nat> ::
      LeavesOut(host, s.facts.qualifications, context, input, now, s, r.value.excluded, at)
  {
    hide Reasons, Eligible, Promotion, Reported, LeavesOut;
    var views: seq<View> := [];
    var excluded: seq<View> := [];
    var qs := s.facts.qualifications;
    for n := 0 to |qs|
      invariant n > 0 ==> ValidTick(now)
      invariant views == EligibleViews(host, qs[..n], context, input, now, s)
      invariant excluded == ExcludedViews(host, qs[..n], context, input, now, s)
    {
      NoReasonIffEligible(host, qs[n], context, input, now, s.facts);
      assert qs[..n + 1][..n] == qs[..n];
      var view := Decide(host, qs[n], context, input, now, s);
      if view.Err? { return Err(view.error); }
      if view.value.eligible {
        views := views + [view.value.(claim := Promotion(host, qs[n]))];
      } else {
        excluded := excluded + [view.value];
      }
    }
    assert qs[..|qs|] == qs;
    EligibleViewsOneClaim(host, qs, context, input, now, s);
    var all := Rank(query, views);
    ghost var at := ExcludedByPosition(host, qs, context, input, now, s);
    return Ok(Retrieved(all[..if limit < |all| then limit else |all|], excluded, Revision(s)));
  }

  // ---- What retrieval promises.

  lemma {:induction false} RankedUnique(query: Query, a: seq<View>, b: seq<View>)
    requires Ranked(query, a) && Ranked(query, b) && forall x :: x in a <==> x in b
    ensures a == b
  {
    assert a != [] ==> a[0] in b;
    assert b != [] ==> b[0] in a;
    if a != [] {
      RankedHead(query, a, b);
      RankedHead(query, b, a);
      RankedTail(query, a);
      RankedTail(query, b);
      RankedUnique(query, a[1..], b[1..]);
      assert a == [a[0]] + a[1..] && b == [b[0]] + b[1..];
    }
  }

  lemma RankIrreflexive(query: Query, v: View, w: View)
    requires RankBefore(query, v, w)
    ensures v != w && !RankBefore(query, w, v)
  {
    LessIrreflexive(v.memoryId);
    if Less(v.memoryId, w.memoryId) { LessAsymmetric(v.memoryId, w.memoryId); }
  }

  lemma RankedHead(query: Query, a: seq<View>, b: seq<View>)
    requires a != [] && b != [] && Ranked(query, a) && Ranked(query, b)
    requires forall x :: x in a <==> x in b
    ensures a[0] == b[0]
  {
    assert a[0] in b && b[0] in a;
    var i :| 0 <= i < |b| && b[i] == a[0];
    var j :| 0 <= j < |a| && a[j] == b[0];
    if i > 0 { RankIrreflexive(query, b[0], b[i]); }
  }

  lemma RankedTail(query: Query, a: seq<View>)
    requires a != [] && Ranked(query, a)
    ensures Ranked(query, a[1..])
    ensures forall x :: x in a[1..] <==> x in a && x != a[0]
  {
    assert a == [a[0]] + a[1..];
    forall i | 0 < i < |a| ensures a[i] != a[0] { RankIrreflexive(query, a[0], a[i]); }
  }

  /** The ranking of given views is one list: dictionary order and sort leave no choice. */
  lemma RankingUnique(query: Query, views: seq<View>, a: seq<View>, b: seq<View>)
    requires IsRanking(query, views, a) && IsRanking(query, views, b)
    ensures a == b
  {
    RankedUnique(query, a, b);
  }

  /** Every returned view is accepted by the independent checker on the same state, input and time. */
  lemma RetrievedViewsCheck(
      host: Host, context: Context, input: string, now: int, query: Query, limit: nat, s: State, r: seq<View>, k: nat)
    requires AdmittedValid(s.facts)
    requires IsRetrieval(host, context, input, now, query, limit, s, r) && k < |r|
    ensures CheckView(host, r[k], context, input, now, s)
  {
    var views := EligibleViews(host, s.facts.qualifications, context, input, now, s);
    var all: seq<View> :| IsRanking(query, views, all) && r == all[..if limit < |all| then limit else |all|];
    BestIsLatest(views, all[k].memoryId);
    assert r[k] in views;
    EligibleViewsShape(host, s.facts.qualifications, context, input, now, s);
    ViewAgreement(host, r[k], context, input, now, s);
  }

  /** The query is found in the claim. */
  predicate Hits(query: Query, v: View) {
    v.claim.Some? && query(v.claim.value)
  }

  /** Hits first, and then by the id of the memory. */
  predicate Above(query: Query, v: View, w: View) {
    (Hits(query, v) && !Hits(query, w)) || ((Hits(query, v) <==> Hits(query, w)) && Less(v.memoryId, w.memoryId))
  }

  lemma AboveIs(query: Query, v: View, w: View)
    ensures Above(query, v, w) <==> RankBefore(query, v, w)
  {
  }

  /** Where the best view of a memory stands among the views that are ranked. */
  lemma BestPosition(
      host: Host, qs: seq<Qualification>, context: Context, input: string, now: int, s: State, views: seq<View>,
      at: seq<nat>, v: View)
    requires Admits(host, qs, context, input, now, s, views, at) && Best(views, v.memoryId) == Some(v)
    ensures exists i: nat :: i in at && i < |qs| && Finished(host, qs[i], context, s, v) && BestOf(qs, at, i)
  {
    hide Eligible, Selects, Best, Finished;
    BestIsLatest(views, v.memoryId);
    var k :| 0 <= k < |views| && views[k] == v && LatestAt(views, v.memoryId, k);
    SelectsWithin(host, qs, context, input, now, s, true, at);
    var i := at[k];
    FinishedFields(host, qs[i], context, s, v);
    forall j: nat | j in at && j < |qs| && qs[j].memoryId == qs[i].memoryId
      ensures qs[j].validUntil < qs[i].validUntil || (qs[j].validUntil == qs[i].validUntil && i <= j)
    {
      var m :| 0 <= m < |at| && at[m] == j;
      SelectsOrder(host, qs, context, input, now, s, at, k, m);
      FinishedFields(host, qs[j], context, s, views[m]);
    }
    assert i in at;
    assert BestOf(qs, at, i);
  }

  lemma FinishedFields(host: Host, q: Qualification, context: Context, s: State, v: View)
    requires Finished(host, q, context, s, v)
    ensures v.memoryId == q.memoryId && v.expiry == q.validUntil
  {
  }

  lemma SelectsOrder(
      host: Host, qs: seq<Qualification>, context: Context, input: string, now: int, s: State, at: seq<nat>,
      k: nat, m: nat)
    requires Selects(host, qs, context, input, now, s, true, at) && k < |at| && m < |at|
    ensures at[k] <= at[m] <==> k <= m
  {
    hide Eligible;
  }

  /** Of the positions listed, this has the latest end of validity for its memory, and is the first that does. */
  predicate BestOf(qs: seq<Qualification>, at: seq<nat>, i: nat) {
    && i < |qs|
    && forall j: nat :: j in at && j < |qs| && qs[j].memoryId == qs[i].memoryId ==>
         qs[j].validUntil < qs[i].validUntil || (qs[j].validUntil == qs[i].validUntil && i <= j)
  }

  /** The position of an eligible qualification that no other of its memory outlasts or precedes. */
  predicate Leads(
    host: Host, qs: seq<Qualification>, context: Context, input: string, now: int, f: Facts, i: nat)
  {
    && i < |qs| && Eligible(host, qs[i], context, input, now, f)
    && forall j: nat ::
         j < |qs| && Eligible(host, qs[j], context, input, now, f) && qs[j].memoryId == qs[i].memoryId ==>
           qs[j].validUntil < qs[i].validUntil || (qs[j].validUntil == qs[i].validUntil && i <= j)
  }

  /** The finished view of a position that leads. */
  ghost predicate Led(
    host: Host, qs: seq<Qualification>, context: Context, input: string, now: int, s: State, v: View)
  {
    exists i: nat :: i < |qs| && Leads(host, qs, context, input, now, s.facts, i)
        && Finished(host, qs[i], context, s, v)
  }

  lemma BestLeads(
      host: Host, qs: seq<Qualification>, context: Context, input: string, now: int, s: State, at: seq<nat>, i: nat)
    requires Selects(host, qs, context, input, now, s, true, at) && i in at && BestOf(qs, at, i)
    ensures Leads(host, qs, context, input, now, s.facts, i)
  {
    hide Eligible;
  }

  /**
   What is shown, in the order shown: the finished view of a leading position of its memory each time; hits
   before the others, each by memory id; no memory twice; no more than the limit.
  */
  lemma RetrievalShows(
      host: Host, context: Context, input: string, now: int, query: Query, limit: nat, s: State, r: seq<View>)
    requires IsRetrieval(host, context, input, now, query, limit, s, r)
    ensures |r| <= limit
    ensures forall j, k :: 0 <= j < k < |r| ==> Above(query, r[j], r[k]) && r[j].memoryId != r[k].memoryId
    ensures forall k :: 0 <= k < |r| ==>
      Led(host, s.facts.qualifications, context, input, now, s, r[k])
  {
    hide Eligible, Admits, Best, Finished, BestOf, Leads, RankBefore, Above;
    var qs := s.facts.qualifications;
    var views := EligibleViews(host, qs, context, input, now, s);
    var at := EligibleByPosition(host, qs, context, input, now, s);
    var all: seq<View> :| IsRanking(query, views, all) && r == all[..if limit < |all| then limit else |all|];
    forall k | 0 <= k < |r|
      ensures Led(host, qs, context, input, now, s, r[k])
    {
      assert r[k] == all[k];
      BestPosition(host, qs, context, input, now, s, views, at, r[k]);
      var i: nat :| i in at && i < |qs| && Finished(host, qs[i], context, s, r[k]) && BestOf(qs, at, i);
      AdmitsSelects(host, qs, context, input, now, s, views, at);
      BestLeads(host, qs, context, input, now, s, at, i);
    }
    forall j, k | 0 <= j < k < |r| ensures Above(query, r[j], r[k]) { AboveIs(query, r[j], r[k]); }
  }

  lemma AdmitsSelects(
      host: Host, qs: seq<Qualification>, context: Context, input: string, now: int, s: State, views: seq<View>,
      at: seq<nat>)
    requires Admits(host, qs, context, input, now, s, views, at)
    ensures Selects(host, qs, context, input, now, s, true, at)
  {
    hide Selects, Finished;
  }

  /**
   What is not shown: an eligible qualification whose memory is missing has the limit used up by views that
   are all above its own.
  */
  lemma RetrievalMisses(
      host: Host, context: Context, input: string, now: int, query: Query, limit: nat, s: State, r: seq<View>,
      q: Qualification)
    requires IsRetrieval(host, context, input, now, query, limit, s, r)
    requires q in s.facts.qualifications && Eligible(host, q, context, input, now, s.facts)
    ensures forall k :: 0 <= k < |r| && r[k].memoryId == q.memoryId ==> r[k].expiry >= q.validUntil
    ensures (forall k :: 0 <= k < |r| ==> r[k].memoryId != q.memoryId) ==>
      |r| == limit && forall w: View :: Finished(host, q, context, s, w) ==>
        forall k :: 0 <= k < |r| ==> Above(query, r[k], w)
  {
    hide Eligible, Best, RankBefore, Above, EligibleViews, Finished;
    var qs := s.facts.qualifications;
    var views := EligibleViews(host, qs, context, input, now, s);
    var all: seq<View> :| IsRanking(query, views, all) && r == all[..if limit < |all| then limit else |all|];
    var v := EligibleRanked(host, context, input, now, query, s, all, q);
    var m :| 0 <= m < |all| && all[m] == v;
    assert forall k :: 0 <= k < |r| ==> r[k] == all[k];
    if forall k :: 0 <= k < |r| ==> r[k].memoryId != q.memoryId {
      forall w: View, k | Finished(host, q, context, s, w) && 0 <= k < |r| ensures Above(query, r[k], w) {
        AboveIs(query, r[k], v);
        AboveClaim(query, r[k], v, w, host, q, context, s);
      }
    }
  }

  lemma AboveClaim(
      query: Query, u: View, v: View, w: View, host: Host, q: Qualification, context: Context, s: State)
    requires Above(query, u, v) && Finished(host, q, context, s, w)
    requires v.memoryId == q.memoryId && q.memoryId in host.records && v.claim == Some(host.records[q.memoryId])
    ensures Above(query, u, w)
  {
  }

  /** The memory of an eligible qualification is in the whole ranking, with an expiry at least as late. */
  lemma EligibleRanked(
      host: Host, context: Context, input: string, now: int, query: Query, s: State, all: seq<View>, q: Qualification)
    returns (v: View)
    requires IsRanking(query, EligibleViews(host, s.facts.qualifications, context, input, now, s), all)
    requires q in s.facts.qualifications && Eligible(host, q, context, input, now, s.facts)
    ensures v in all && v.memoryId == q.memoryId && v.expiry >= q.validUntil
    ensures q.memoryId in host.records && v.claim == Some(host.records[q.memoryId])
    ensures forall u :: u in all && u.memoryId == q.memoryId ==> u == v
  {
    hide AllPaid, Withdrawn, Blocked, Reported, RankBefore;
    var qs := s.facts.qualifications;
    var views := EligibleViews(host, qs, context, input, now, s);
    EligibleViewsComplete(host, qs, context, input, now, s, q);
    EligibleViewsOneClaim(host, qs, context, input, now, s);
    BestIsLatest(views, q.memoryId);
    v := Best(views, q.memoryId).value;
  }

  /** With no truncation no memory with an eligible qualification is missing, and none expires later than shown. */
  lemma NoEligibleMemoryMissing(
      host: Host, context: Context, input: string, now: int, query: Query, limit: nat, s: State, r: seq<View>,
      q: Qualification)
    requires IsRetrieval(host, context, input, now, query, limit, s, r) && |r| < limit
    requires q in s.facts.qualifications && Eligible(host, q, context, input, now, s.facts)
    ensures exists k :: 0 <= k < |r| && r[k].memoryId == q.memoryId && r[k].expiry >= q.validUntil
  {
    var views := EligibleViews(host, s.facts.qualifications, context, input, now, s);
    var all: seq<View> :| IsRanking(query, views, all) && r == all[..if limit < |all| then limit else |all|];
    EligibleViewsComplete(host, s.facts.qualifications, context, input, now, s, q);
    BestIsLatest(views, q.memoryId);
    assert r == all;
  }
}
