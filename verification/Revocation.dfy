/**
 Revocation is monotone: nothing relies on a qualification after one of its dependencies is withdrawn
 or after a block covers it, and a block stays in every longer journal, for every host and clock.
*/
module Revocation {
  import opened Basics
  import opened Wire
  import opened Models
  import opened Journal
  import opened JournalLaws
  import opened Store
  import opened Chains
  import opened Eligibility
  import opened Retrieval
  import opened Runtime
  import opened Protocol
  import opened Steps
  import opened Uses
  import opened Safety

  // ---- Order of entries in a journal.

  /** The entry admits, exposes, intends or attempts a use of the qualification on the input. */
  predicate Relies(f: Facts, e: Entry, q: Qualification, input: string) {
    match e.body
    case Admit(p) => p == q && input in q.context.inputs
    case Expose(d, i) => d == OfQualification(q) && i == input
    case Intend(n) => n.qualification == OfQualification(q) && n.input == input
    case Attempt(i) => i in f.intents && f.intents[i].qualification == OfQualification(q) && f.intents[i].input == input
    case _ => false
  }

  /** What is guarded when it is appended was open just then. */
  lemma ReliesOpen(f: Facts, g: Facts, e: Entry, q: Qualification, input: string)
    requires Guard(f, e) && SubMap(f.intents, g.intents) && Relies(g, e, q, input)
    ensures Open(f, q, input)
  {
    hide Open;
    if e.body.Admit? {
      var i :| 0 <= i < |q.context.inputs| && q.context.inputs[i] == input;
      assert Open(f, q, q.context.inputs[i]);
    }
  }

  /** A qualification that an entry relies on is open on the facts of every earlier moment. */
  lemma OpenBefore(rows: seq<Entry>, a: nat, b: nat, q: Qualification, input: string)
    requires JournalInv(rows) && a <= b < |rows| && Relies(FactsOf(rows), rows[b], q, input)
    ensures Open(FactsOf(rows[..a]), q, input)
  {
    hide FactsOf, Stored, Whole, OneOpenPerScope, CostBound, Guard, Relies, Open;
    assert rows[..|rows|] == rows;
    FactsGrow(rows, a, b);
    FactsGrow(rows, b, |rows|);
    GrownIntents(FactsOf(rows[..b]), FactsOf(rows));
    assert Guard(FactsOf(rows[..b]), rows[b]);
    ReliesOpen(FactsOf(rows[..b]), FactsOf(rows), rows[b], q, input);
    OpenEarlier(FactsOf(rows[..a]), FactsOf(rows[..b]), q, input);
  }

  lemma GrownIntents(f: Facts, g: Facts)
    requires Extends(f, g)
    ensures SubMap(f.intents, g.intents)
  {
  }

  lemma OpenEarlier(f: Facts, g: Facts, q: Qualification, input: string)
    requires Extends(f, g) && Open(g, q, input)
    ensures Open(f, q, input)
  {
    assert forall i :: 0 <= i < |f.withdrawn| ==> f.withdrawn[i] == g.withdrawn[i];
    assert forall i :: 0 <= i < |f.blocks| ==> f.blocks[i] == g.blocks[i];
  }

  /** What a withdrawal, an invalidation and a negative check leave in the state. */
  lemma ApplyRevocation(f: Facts, e: Entry)
    requires Linked(f) && Apply(f, e).Ok?
    ensures var g := Apply(f, e).value;
      match e.body
      case Withdraw(d, reason) => Withdrawal(d, reason, e.time, e.id) in g.withdrawn
      case Invalidate(a, c, i, reason) => Block(Str(a), c, i, e.time, e.id, reason) in g.blocks
      case Check(i, _) => NegativeRecorded(f, g, e, i)
      case _ => true
  {
  }

  predicate NegativeRecorded(f: Facts, g: Facts, e: Entry, i: Id) {
    && i in f.intents && i in f.outcomes
    && var n, a := f.intents[i], f.outcomes[i];
       a.status == Received && !Passed(n, a) ==>
         && n.qualification.OfQualification?
         && var q := n.qualification.qualification;
            Artifact(q).Some? && Negative(n, q, Artifact(q).value, e) in g.blocks
  }

  /**
   No admission, exposure, intent or attempt comes after the withdrawal of a dependency of its
   qualification.
  */
  lemma NothingAfterWithdrawal(
      host: Host, actions: seq<Action>, sys: System, s: State, a: nat, b: nat, q: Qualification, input: string)
    requires Reached(host, actions, sys, s) && a < b < |sys.rows|
    requires sys.rows[a].body.Withdraw? && sys.rows[a].body.dependency in q.context.dependencies
    ensures !Relies(s.facts, sys.rows[b], q, input)
  {
    hide Run, Reached, FactsOf, Stored, Apply, Inv, Relies, Guarded, Whole, OneOpenPerScope, CostBound, Replay;
    var rows := sys.rows;
    ReachedInv(host, actions, sys, s);
    if Relies(s.facts, rows[b], q, input) {
      OpenBefore(rows, a + 1, b, q, input);
      StoredAt(rows, a);
      ApplyRevocation(FactsOf(rows[..a]), rows[a]);
    }
  }

  /** The block covers every use of the qualification's artifact in its context on the input. */
  lemma BlockCloses(f: Facts, b: Block, q: Qualification, input: string)
    requires b in f.blocks && Covers(b, q, q.context, input)
    ensures !Open(f, q, input)
  {
  }

  /** Nor after an invalidation that covers it, dated at or after the start of its validity. */
  lemma NothingAfterInvalidation(
      host: Host, actions: seq<Action>, sys: System, s: State, a: nat, b: nat, q: Qualification)
    requires Reached(host, actions, sys, s) && a < b < |sys.rows|
    requires var e := sys.rows[a];
      && e.body.Invalidate?
      && Artifact(q) == Some(Str(e.body.artifact)) && e.body.context == OfContext(q.context) && q.validFrom <= e.time
    ensures !Relies(s.facts, sys.rows[b], q, sys.rows[a].body.input)
  {
    hide Run, Reached, FactsOf, Stored, Apply, Inv, Relies, Guarded, Whole, OneOpenPerScope, CostBound, Open, Replay;
    var rows, e := sys.rows, sys.rows[a];
    ReachedInv(host, actions, sys, s);
    if Relies(s.facts, rows[b], q, e.body.input) {
      OpenBefore(rows, a + 1, b, q, e.body.input);
      StoredAt(rows, a);
      ApplyRevocation(FactsOf(rows[..a]), e);
      BlockCloses(FactsOf(rows[..a + 1]),
                  Block(Str(e.body.artifact), e.body.context, e.body.input, e.time, e.id, e.body.reason),
                  q, e.body.input);
    }
  }

  /** The answer of a use was received and the checker refused it. */
  predicate RefusedAnswer(f: Facts, i: Id) {
    && i in f.intents && i in f.outcomes
    && f.outcomes[i].status == Received
    && !Passed(f.intents[i], f.outcomes[i])
  }

  /** The artifact and context that the use relied on, valid from no later than the check. */
  predicate SameEvidence(f: Facts, i: Id, q: Qualification, time: int) {
    && i in f.intents && f.intents[i].qualification.OfQualification?
    && var p := f.intents[i].qualification.qualification;
       Artifact(q) == Artifact(p) && q.context == p.context && q.validFrom <= time
  }

  /** The block is on record and covers the qualification in its own context on the input. */
  predicate BlockedBy(f: Facts, b: Block, q: Qualification, input: string) {
    b in f.blocks && Covers(b, q, q.context, input)
  }

  lemma BlockedShuts(f: Facts, b: Block, q: Qualification, input: string)
    requires BlockedBy(f, b, q, input)
    ensures !Open(f, q, input)
  {
    BlockCloses(f, b, q, input);
  }

  /** A check of a refused answer puts its block in the state. */
  lemma NegativeBlocks(rows: seq<Entry>, s: State, a: nat, t: State, i: Id, q: Qualification)
    requires Replays(rows, s) && a < |rows| && Replays(rows[..a + 1], t)
    requires rows[a].body.Check? && rows[a].body.of == i
    requires RefusedAnswer(s.facts, i) && SameEvidence(s.facts, i, q, rows[a].time)
    ensures exists b :: BlockedBy(t.facts, b, q, s.facts.intents[i].input) && b.time == rows[a].time
  {
    hide FactsOf, Stored, Apply, Replay, Replays, RefusedAnswer, SameEvidence, NegativeRecorded, BlockedBy, Extends;
    ReplaysMeans(rows, s);
    ReplaysMeans(rows[..a + 1], t);
    StoredAt(rows, a);
    ApplyRevocation(FactsOf(rows[..a]), rows[a]);
    assert rows[..|rows|] == rows;
    FactsGrow(rows, a, |rows|);
    assert i in s.facts.intents by { RefusedKnown(s.facts, i); }
    NegativeInState(FactsOf(rows[..a]), t.facts, s.facts, rows[a], i, q);
  }

  lemma RefusedKnown(f: Facts, i: Id)
    requires RefusedAnswer(f, i)
    ensures i in f.intents && i in f.outcomes
  {
  }

  /** `f` before the check, `g` after it, `h` at the end. */
  lemma NegativeInState(f: Facts, g: Facts, h: Facts, e: Entry, i: Id, q: Qualification)
    requires NegativeRecorded(f, g, e, i) && Extends(f, h)
    requires RefusedAnswer(h, i) && SameEvidence(h, i, q, e.time)
    ensures exists b :: BlockedBy(g, b, q, h.intents[i].input) && b.time == e.time
  {
    hide Passed;
    GrownUses(f, h, i);
    var n := f.intents[i];
    var p := n.qualification.qualification;
    assert BlockedBy(g, Negative(n, p, Artifact(p).value, e), q, n.input);
  }

  lemma GrownUses(f: Facts, g: Facts, i: Id)
    requires Extends(f, g) && i in f.intents && i in f.outcomes
    ensures i in g.intents && g.intents[i] == f.intents[i] && i in g.outcomes && g.outcomes[i] == f.outcomes[i]
  {
  }

  lemma PrefixReplays(rows: seq<Entry>, k: nat) returns (t: State)
    requires Stored(rows) && k <= |rows|
    ensures Replays(rows[..k], t) && FactsOf(rows[..k]) == t.facts
  {
    hide Replay, Replays, Stored, FactsOf;
    StoredPrefix(rows, k);
    StoredReplays(rows[..k]);
    StoredFacts(rows[..k]);
    t := Replay(rows[..k]).value;
  }

  /** Nor after a use of the same artifact, context and input ended in a checked negative. */
  lemma NothingAfterNegative(
      host: Host, actions: seq<Action>, sys: System, s: State, a: nat, b: nat, i: Id, q: Qualification)
    requires Reached(host, actions, sys, s) && a < b < |sys.rows|
    requires sys.rows[a].body.Check? && sys.rows[a].body.of == i
    requires RefusedAnswer(s.facts, i) && SameEvidence(s.facts, i, q, sys.rows[a].time)
    ensures !Relies(s.facts, sys.rows[b], q, s.facts.intents[i].input)
  {
    hide *;
    RefusedKnown(s.facts, i);
    var rows, input := sys.rows, s.facts.intents[i].input;
    ReachedInv(host, actions, sys, s);
    StoredReplays(rows);
    if Relies(s.facts, rows[b], q, input) {
      OpenBefore(rows, a + 1, b, q, input);
      var t := PrefixReplays(rows, a + 1);
      NegativeBlocks(rows, s, a, t, i, q);
      var blk :| BlockedBy(t.facts, blk, q, input);
      BlockedShuts(t.facts, blk, q, input);
    }
  }

  // ---- A block is for good.

  lemma BlockStays(rows: seq<Entry>, s: State, later: seq<Entry>, t: State, b: Block)
    requires Replays(rows, s) && Replays(later, t) && rows <= later && b in s.facts.blocks
    ensures b in t.facts.blocks
  {
    hide FactsOf, Stored, Replays, Replay;
    ReplaysMeans(rows, s);
    ReplaysMeans(later, t);
    IntentsStay(rows, later);
    var k :| 0 <= k < |s.facts.blocks| && s.facts.blocks[k] == b;
    assert t.facts.blocks[k] == b;
  }

  lemma NotEligible(host: Host, q: Qualification, context: Context, input: string, now: int, f: Facts, b: Block)
    requires b in f.blocks && Covers(b, q, context, input)
    ensures !Eligible(host, q, context, input, now, f)
  {
  }

  lemma BlockShuts(rows: seq<Entry>, s: State, later: seq<Entry>, t: State, b: Block, q: Qualification, input: string)
    requires Replays(rows, s) && Replays(later, t) && rows <= later && BlockedBy(s.facts, b, q, input)
    ensures BlockedBy(t.facts, b, q, input) && !Open(t.facts, q, input)
  {
    hide Replays, Covers, Open;
    BlockStays(rows, s, later, t, b);
    BlockCloses(t.facts, b, q, input);
  }

  /** Every later decision rejects, whatever host, context, clock and journal extension. */
  lemma BlockRejectsDecisions(
      rows: seq<Entry>, s: State, later: seq<Entry>, t: State, b: Block, host: Host, q: Qualification, context: Context,
      input: string, now: int)
    requires Replays(rows, s) && Replays(later, t) && rows <= later && BlockedBy(s.facts, b, q, input)
    ensures !Eligible(host, q, context, input, now, t.facts)
  {
    hide Replays, Covers;
    BlockStays(rows, s, later, t, b);
    if q.context == context { NotEligible(host, q, context, input, now, t.facts, b); }
  }

  /** Every later view check rejects. */
  lemma BlockRejectsViews(
      rows: seq<Entry>, s: State, later: seq<Entry>, t: State, b: Block, host: Host, view: View, context: Context,
      input: string, now: int)
    requires Replays(rows, s) && Replays(later, t) && rows <= later
    requires view.qualification.OfQualification? && BlockedBy(s.facts, b, view.qualification.qualification, input)
    ensures !CheckView(host, view, context, input, now, t)
  {
    hide Replays, Promotion, Reconstructs;
    var q := view.qualification.qualification;
    BlockStays(rows, s, later, t, b);
    var i :| 0 <= i < |t.facts.blocks| && t.facts.blocks[i] == b;
    assert ArtifactOrNull(q) == b.artifact;
  }

  /** No later retrieval shows the qualification. */
  lemma BlockRejectsRetrieval(
      rows: seq<Entry>, s: State, later: seq<Entry>, t: State, b: Block, host: Host, q: Qualification, context: Context,
      input: string, now: int, query: Query, limit: nat, views: seq<View>)
    requires Replays(rows, s) && Replays(later, t) && rows <= later && BlockedBy(s.facts, b, q, input)
    requires IsRetrieval(host, context, input, now, query, limit, t, views)
    ensures forall k :: 0 <= k < |views| ==> views[k].qualification != OfQualification(q)
  {
    hide Replays, Eligible, IsRetrieval, Covers, Open, BlockedBy;
    BlockShuts(rows, s, later, t, b, q, input);
    RetrievalOpen(host, context, input, now, query, limit, t, views);
  }

  lemma OpenFor(f: Facts, q: Qualification, input: string)
    requires OpenRef(f, OfQualification(q), input)
    ensures Open(f, q, input)
  {
  }

  /** No later reservation goes through. */
  lemma BlockRejectsUse(
      rows: seq<Entry>, s: State, later: seq<Entry>, t: State, b: Block, host: Host, profiles: Profiles, call: UseCall)
    requires Replays(rows, s) && Replays(later, t) && rows <= later
    requires call.qualification.OfQualification? && BlockedBy(s.facts, b, call.qualification.qualification, call.input)
    ensures !ReserveRows(later, host, profiles, call).Reserved?
  {
    hide *;
    var q := call.qualification.qualification;
    ReplaysMeans(later, t);
    if ReserveRows(later, host, profiles, call).Reserved? {
      ReserveShape(later, host, profiles, call);
      BlockShuts(rows, s, later, t, b, q, call.input);
      OpenFor(t.facts, q, call.input);
    }
  }

  /** Admission judges every input on the journal with the costs appended, so the block stops it. */
  lemma BlockRejectsAdmission(
      rows: seq<Entry>, s: State, later: seq<Entry>, t: State, b: Block, host: Host, profiles: Profiles,
      q: Qualification, input: string, now: int, expected: Digest)
    requires Replays(rows, s) && Replays(later, t) && rows <= later && BlockedBy(s.facts, b, q, input)
    requires input in q.context.inputs
    ensures AdmitRows(later, host, profiles, q, now, expected).Err?
  {
    hide Replays, Replay, CostBatch, Append, Readable, Event, Premises, Eligible, Covers;
    var r := AdmitRows(later, host, profiles, q, now, expected);
    if r.Ok? {
      var batch := CostBatch(later, [], q.costs, now).value;
      var u := Replay(later + batch).value;
      assert EligibleForAll(host, q, q.context, now, u.facts);
      var i :| 0 <= i < |q.context.inputs| && q.context.inputs[i] == input;
      BlockStays(rows, s, later, t, b);
      BlockSurvives(later, t, batch, b);
      NotEligible(host, q, q.context, q.context.inputs[i], now, u.facts, b);
    }
  }

  lemma BlockSurvives(later: seq<Entry>, t: State, batch: seq<Entry>, b: Block)
    requires Replays(later, t) && b in t.facts.blocks && Replay(later + batch).Ok?
    ensures b in Replay(later + batch).value.facts.blocks
  {
    hide Replay, Replays;
    ReplaysMeans(later, t);
    ReplayContinues(later, batch);
    FoldExtends(t, batch);
    var k :| 0 <= k < |t.facts.blocks| && t.facts.blocks[k] == b;
    assert Replay(later + batch).value.facts.blocks[k] == b;
  }

  /** A withdrawn dependency is withdrawn for good. */
  lemma WithdrawalRejectsDecisions(
      rows: seq<Entry>, s: State, later: seq<Entry>, t: State, host: Host, q: Qualification, context: Context,
      input: string, now: int)
    requires Replays(rows, s) && Replays(later, t) && rows <= later && Withdrawn(s.facts, context)
    ensures !Eligible(host, q, context, input, now, t.facts)
  {
    hide FactsOf, Stored, Covers, Replays, Replay;
    ReplaysMeans(rows, s);
    ReplaysMeans(later, t);
    IntentsStay(rows, later);
    var i :| 0 <= i < |s.facts.withdrawn| && s.facts.withdrawn[i].dependency in context.dependencies;
    assert t.facts.withdrawn[i] == s.facts.withdrawn[i];
  }

  /** A block says nothing about a qualification whose validity starts after it. */
  lemma BlockSparesLater(
      host: Host, q: Qualification, context: Context, input: string, now: int, f: Facts, k: nat)
    requires k < |f.blocks| && f.blocks[k].time < q.validFrom
    ensures Eligible(host, q, context, input, now, f) <==>
            Eligible(host, q, context, input, now, f.(blocks := f.blocks[..k] + f.blocks[k + 1..]))
  {
    var g := f.(blocks := f.blocks[..k] + f.blocks[k + 1..]);
    if i :| 0 <= i < |f.blocks| && Covers(f.blocks[i], q, context, input) {
      assert g.blocks[if i < k then i else i - 1] == f.blocks[i];
    }
    if i :| 0 <= i < |g.blocks| && Covers(g.blocks[i], q, context, input) {
      assert g.blocks[i] == f.blocks[if i < k then i else i + 1];
    }
  }
}
