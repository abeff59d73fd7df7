/**
 Two judgements of one question, written separately: `Decide` lists the reasons against an admitted
 qualification, `CheckView` accepts or refuses a finished view. They are proved to agree.
*/
module Eligibility {
  import opened Basics
  import opened Wire
  import opened Models
  import opened Journal

  /**
   What the legacy tables and the pinned native packages answer. `promoted` holds the qualifications
   whose memory passes the promotion recheck now, `records` the claims of the memories, `native` the
   qualifications that reconstruct at a time; `refusals` is what the exception says when one of them does
   not hold. A host may change all of it between transactions.
  */
  datatype Host = Host(
    records: map<string, string>, promoted: set<Qualification>, native: set<(Qualification, int)>,
    refusals: map<(Qualification, int), string>)

  /** The claim of the memory, when its promotion holds. */
  function Promotion(host: Host, q: Qualification): Option<string> {
    if q in host.promoted && q.memoryId in host.records then Some(host.records[q.memoryId]) else None
  }

  /** Reconstruction validates the candidate against its schema, which requires `artifact_digest`. */
  predicate Reconstructs(host: Host, q: Qualification, now: int) {
    (q, now) in host.native && Artifact(q).Some?
  }

  /** `candidate.get("artifact_digest")` */
  function ArtifactOrNull(q: Qualification): Tree {
    match Artifact(q)
    case None => Null
    case Some(t) => t
  }

  /** A block of this artifact, context and input, no older than the start of validity. */
  predicate Covers(b: Block, q: Qualification, context: Context, input: string) {
    b.artifact == ArtifactOrNull(q) && b.context == OfContext(context) && b.input == input && q.validFrom <= b.time
  }

  datatype Reason =
    | ContextOrInputMismatch
    | ExposureNotPermitted
    | OutsideValidity
    | UnpaidCost
    | DependencyWithdrawn
    | ScopedInvalidation(event: Id)
    | PremiseFailed(message: string)

  predicate Withdrawn(f: Facts, context: Context) {
    exists i :: 0 <= i < |f.withdrawn| && f.withdrawn[i].dependency in context.dependencies
  }

  predicate Blocked(f: Facts, q: Qualification, context: Context, input: string) {
    exists i :: 0 <= i < |f.blocks| && Covers(f.blocks[i], q, context, input)
  }

  predicate Premises(host: Host, q: Qualification, now: int) {
    Promotion(host, q).Some? && Reconstructs(host, q, now)
  }

  /** What an empty list of reasons comes to. */
  predicate Eligible(host: Host, q: Qualification, context: Context, input: string, now: int, f: Facts) {
    && q.context == context && input in context.inputs
    && context.expose
    && q.validFrom <= now < q.validUntil
    && AllPaid(f, q.costs)
    && !Withdrawn(f, context)
    && !Blocked(f, q, context, input)
    && Premises(host, q, now)
  }

  /** The message of the exception that promotion or reconstruction raises. */
  function Refusal(host: Host, q: Qualification, now: int): string {
    if (q, now) in host.refusals then host.refusals[(q, now)] else ""
  }

  /** The fields of a decision that no other code reads. */
  datatype Report = Report(
    parseValid: bool, bindingChecks: bool, structure: Option<string>, evidenceScope: string,
    dependencyStatus: string, unsupported: seq<string>, residuals: seq<string>)

  datatype View = View(
    eligible: bool, reasons: seq<Reason>, snapshot: Digest, qualification: Digest, memoryId: string,
    updateId: string, workflowDigest: string, contextDigest: Digest, expiry: int,
    executionAuthority: Option<string>, sourceAuthentication: Option<string>, claim: Option<string>, report: Report)

  /** A reason as it prints; the hexadecimal digits of an id print as zeros. */
  function ReasonText(r: Reason): string {
    match r
    case ContextOrInputMismatch => "receiver_context_or_input_mismatch"
    case ExposureNotPermitted => "host_exposure_not_permitted"
    case OutsideValidity => "outside_validity"
    case UnpaidCost => "unpaid_cost"
    case DependencyWithdrawn => "dependency_withdrawn"
    case ScopedInvalidation(event) => "scoped_invalidation:" + IdText(event)
    case PremiseFailed(message) => message
  }

  const WITHDRAWN := "withdrawn"

  predicate WordAt(text: string, i: nat) {
    i + |WITHDRAWN| <= |text| && text[i..i + |WITHDRAWN|] == WITHDRAWN
  }

  /** `"withdrawn" in text` */
  predicate SaysWithdrawn(text: string) {
    exists i: nat :: i < |text| && WordAt(text, i)
  }

  predicate AnySaysWithdrawn(reasons: seq<Reason>) {
    exists k :: 0 <= k < |reasons| && SaysWithdrawn(ReasonText(reasons[k]))
  }

  function Reported(reasons: seq<Reason>): Report {
    Report(true, reasons == [], if reasons == [] then Some("native-ALT-source-replay") else None,
           "finite normalize-lines inputs only; host-recorded",
           if AnySaysWithdrawn(reasons) then WITHDRAWN else "current",
           ["remote authentication", "host execution permission"], [])
  }

  function Viewed(q: Qualification, context: Context, snapshot: Digest, reasons: seq<Reason>): View {
    View(reasons == [], reasons, snapshot, OfQualification(q), q.memoryId, q.updateId, q.workflowDigest,
         OfContext(context), q.validUntil, None, None, None, Reported(reasons))
  }

  function BlockReasons(blocks: seq<Block>, q: Qualification, context: Context, input: string): seq<Reason> {
    if blocks == [] then []
    else
      var rest := BlockReasons(blocks[..|blocks| - 1], q, context, input);
      var last := blocks[|blocks| - 1];
      if Covers(last, q, context, input) then rest + [ScopedInvalidation(last.event)] else rest
  }

  function When(found: bool, reason: Reason): seq<Reason> {
    if found then [reason] else []
  }

  /** Reasons that need no table and no loop. */
  function DirectReasons(q: Qualification, context: Context, input: string, now: int, f: Facts): seq<Reason> {
    When(q.context != context || input !in context.inputs, ContextOrInputMismatch)
    + When(!context.expose, ExposureNotPermitted)
    + When(!(q.validFrom <= now < q.validUntil), OutsideValidity)
    + When(!AllPaid(f, q.costs), UnpaidCost)
    + When(Withdrawn(f, context), DependencyWithdrawn)
  }

  /** All reasons, in the order they are found. */
  function Reasons(host: Host, q: Qualification, context: Context, input: string, now: int, f: Facts): seq<Reason> {
    DirectReasons(q, context, input, now, f)
    + BlockReasons(f.blocks, q, context, input)
    + When(!Premises(host, q, now), PremiseFailed(Refusal(host, q, now)))
  }

  lemma {:induction false} BlockReasonsEmpty(blocks: seq<Block>, q: Qualification, context: Context, input: string)
    ensures BlockReasons(blocks, q, context, input) == [] <==>
      forall i :: 0 <= i < |blocks| ==> !Covers(blocks[i], q, context, input)
  {
    if blocks != [] {
      var front := blocks[..|blocks| - 1];
      BlockReasonsEmpty(front, q, context, input);
      assert forall i :: 0 <= i < |front| ==> front[i] == blocks[i];
    }
  }

  /** No reason is found exactly when every condition holds. */
  lemma NoReasonIffEligible(host: Host, q: Qualification, context: Context, input: string, now: int, f: Facts)
    ensures Reasons(host, q, context, input, now, f) == [] <==> Eligible(host, q, context, input, now, f)
  {
    BlockReasonsEmpty(f.blocks, q, context, input);
  }

  lemma WhenHas(found: bool, reason: Reason, r: Reason)
    ensures r in When(found, reason) <==> found && r == reason
  {
  }

  lemma {:induction false} BlockListed(blocks: seq<Block>, q: Qualification, context: Context, input: string, r: Reason)
    ensures r in BlockReasons(blocks, q, context, input) <==>
      exists i :: 0 <= i < |blocks| && Covers(blocks[i], q, context, input) && r == ScopedInvalidation(blocks[i].event)
    decreases |blocks|
  {
    hide Covers;
    if blocks != [] {
      var front := blocks[..|blocks| - 1];
      BlockListed(front, q, context, input, r);
      assert forall i :: 0 <= i < |front| ==> front[i] == blocks[i];
    }
  }

  lemma DirectListed(q: Qualification, context: Context, input: string, now: int, f: Facts, r: Reason)
    ensures r in DirectReasons(q, context, input, now, f) <==>
      match r
      case ContextOrInputMismatch => q.context != context || input !in context.inputs
      case ExposureNotPermitted => !context.expose
      case OutsideValidity => now < q.validFrom || q.validUntil <= now
      case UnpaidCost => exists c :: c in q.costs && !(c.id in f.costs && f.costs[c.id] == Booking(c, true))
      case DependencyWithdrawn =>
        exists i :: 0 <= i < |f.withdrawn| && f.withdrawn[i].dependency in context.dependencies
      case _ => false
  {
    hide When;
    WhenHas(q.context != context || input !in context.inputs, ContextOrInputMismatch, r);
    WhenHas(!context.expose, ExposureNotPermitted, r);
    WhenHas(!(q.validFrom <= now < q.validUntil), OutsideValidity, r);
    WhenHas(!AllPaid(f, q.costs), UnpaidCost, r);
    WhenHas(Withdrawn(f, context), DependencyWithdrawn, r);
  }

  /** Each reason is listed exactly when its own condition fails. */
  lemma ReasonListedIff(host: Host, q: Qualification, context: Context, input: string, now: int, f: Facts, r: Reason)
    ensures r in Reasons(host, q, context, input, now, f) <==>
      match r
      case ContextOrInputMismatch => q.context != context || input !in context.inputs
      case ExposureNotPermitted => !context.expose
      case OutsideValidity => now < q.validFrom || q.validUntil <= now
      case UnpaidCost => exists c :: c in q.costs && !(c.id in f.costs && f.costs[c.id] == Booking(c, true))
      case DependencyWithdrawn =>
        exists i :: 0 <= i < |f.withdrawn| && f.withdrawn[i].dependency in context.dependencies
      case ScopedInvalidation(event) =>
        exists i :: 0 <= i < |f.blocks| && f.blocks[i].event == event
          && (if Artifact(q).Some? then f.blocks[i].artifact == Artifact(q).value else f.blocks[i].artifact == Null)
          && f.blocks[i].context == OfContext(context) && f.blocks[i].input == input && q.validFrom <= f.blocks[i].time
      case PremiseFailed(message) =>
        && !(q in host.promoted && q.memoryId in host.records && (q, now) in host.native && Artifact(q).Some?)
        && message == (if (q, now) in host.refusals then host.refusals[(q, now)] else "")
  {
    hide DirectReasons, BlockReasons, When, Artifact;
    DirectListed(q, context, input, now, f, r);
    BlockListed(f.blocks, q, context, input, r);
    WhenHas(!Premises(host, q, now), PremiseFailed(Refusal(host, q, now)), r);
  }

  /** The place of a kind of reason in the list. */
  function Place(r: Reason): nat {
    match r
    case ContextOrInputMismatch => 0
    case ExposureNotPermitted => 1
    case OutsideValidity => 2
    case UnpaidCost => 3
    case DependencyWithdrawn => 4
    case ScopedInvalidation(_) => 5
    case PremiseFailed(_) => 6
  }

  /** By place, and no kind twice but for invalidations. */
  predicate InPlaceOrder(reasons: seq<Reason>) {
    forall j, k :: 0 <= j < k < |reasons| ==>
      Place(reasons[j]) < Place(reasons[k]) || (reasons[j].ScopedInvalidation? && reasons[k].ScopedInvalidation?)
  }

  lemma OrderedConcat(a: seq<Reason>, b: seq<Reason>)
    requires InPlaceOrder(a) && InPlaceOrder(b)
    requires forall x, y :: x in a && y in b ==> Place(x) < Place(y)
    ensures InPlaceOrder(a + b)
  {
    hide Place;
    var all := a + b;
    forall j, k | 0 <= j < k < |all|
      ensures Place(all[j]) < Place(all[k]) || (all[j].ScopedInvalidation? && all[k].ScopedInvalidation?)
    {
      if j < |a| <= k { assert all[j] in a && all[k] in b; }
    }
  }

  lemma DirectOrdered(q: Qualification, context: Context, input: string, now: int, f: Facts)
    ensures InPlaceOrder(DirectReasons(q, context, input, now, f))
    ensures forall r :: r in DirectReasons(q, context, input, now, f) ==> Place(r) < 5
  {
    hide AllPaid, Withdrawn, When, InPlaceOrder;
    var a := When(q.context != context || input !in context.inputs, ContextOrInputMismatch);
    var b := When(!context.expose, ExposureNotPermitted);
    var c := When(!(q.validFrom <= now < q.validUntil), OutsideValidity);
    var d := When(!AllPaid(f, q.costs), UnpaidCost);
    NoneOrdered();
    OrderedMore([], q.context != context || input !in context.inputs, ContextOrInputMismatch);
    assert [] + a == a;
    OrderedMore(a, !context.expose, ExposureNotPermitted);
    OrderedMore(a + b, !(q.validFrom <= now < q.validUntil), OutsideValidity);
    OrderedMore(a + b + c, !AllPaid(f, q.costs), UnpaidCost);
    OrderedMore(a + b + c + d, Withdrawn(f, context), DependencyWithdrawn);
  }

  lemma NoneOrdered()
    ensures InPlaceOrder([])
  {
  }

  lemma OrderedMore(a: seq<Reason>, found: bool, reason: Reason)
    requires InPlaceOrder(a) && forall r :: r in a ==> Place(r) < Place(reason)
    ensures InPlaceOrder(a + When(found, reason))
    ensures forall r :: r in a + When(found, reason) ==> Place(r) < Place(reason) + 1
  {
    hide InPlaceOrder, Place;
    assert InPlaceOrder(When(found, reason)) by { OneOrdered(found, reason); }
    OrderedConcat(a, When(found, reason));
  }

  lemma OneOrdered(found: bool, reason: Reason)
    ensures InPlaceOrder(When(found, reason))
  {
  }

  /** Invalidations are listed in the order of the blocks. */
  lemma {:induction false} BlocksInTurn(a: seq<Block>, b: seq<Block>, q: Qualification, context: Context, input: string)
    ensures BlockReasons(a + b, q, context, input) ==
            BlockReasons(a, q, context, input) + BlockReasons(b, q, context, input)
    decreases |b|
  {
    hide Covers;
    if b == [] {
      assert a + b == a;
    } else {
      var n := |b| - 1;
      BlocksInTurn(a, b[..n], q, context, input);
      assert (a + b)[..|a + b| - 1] == a + b[..n];
    }
  }

  lemma BlocksOrdered(blocks: seq<Block>, q: Qualification, context: Context, input: string)
    ensures forall r :: r in BlockReasons(blocks, q, context, input) ==> r.ScopedInvalidation?
    ensures InPlaceOrder(BlockReasons(blocks, q, context, input))
  {
    forall r | r in BlockReasons(blocks, q, context, input) ensures r.ScopedInvalidation? {
      BlockListed(blocks, q, context, input, r);
    }
    var rs := BlockReasons(blocks, q, context, input);
    assert forall k :: 0 <= k < |rs| ==> rs[k] in rs;
  }

  /** Reasons are listed in the order in which the conditions are looked at. */
  lemma ReasonsOrdered(host: Host, q: Qualification, context: Context, input: string, now: int, f: Facts)
    ensures InPlaceOrder(Reasons(host, q, context, input, now, f))
  {
    hide DirectReasons, BlockReasons, Premises, Refusal;
    var a, b := DirectReasons(q, context, input, now, f), BlockReasons(f.blocks, q, context, input);
    DirectOrdered(q, context, input, now, f);
    BlocksOrdered(f.blocks, q, context, input);
    OrderedConcat(a, b);
    OrderedConcat(a + b, When(!Premises(host, q, now), PremiseFailed(Refusal(host, q, now))));
  }

  /** The straight-line part of the decision. */
  method ListDirectReasons(q: Qualification, context: Context, input: string, now: int, f: Facts)
    returns (reasons: seq<Reason>)
    ensures reasons == DirectReasons(q, context, input, now, f)
  {
    reasons := [];
    if q.context != context || input !in context.inputs { reasons := [ContextOrInputMismatch]; }
    if !context.expose { reasons := reasons + [ExposureNotPermitted]; }
    if !(q.validFrom <= now < q.validUntil) { reasons := reasons + [OutsideValidity]; }
    if !AllPaid(f, q.costs) { reasons := reasons + [UnpaidCost]; }
    if Withdrawn(f, context) { reasons := reasons + [DependencyWithdrawn]; }
  }

  // ---- The dependency status, which is read off the text of the reasons.

  predicate Lacks(text: string, c: char) {
    forall i :: 0 <= i < |text| ==> text[i] != c
  }

  lemma WordStarts(text: string, i: nat)
    requires WordAt(text, i)
    ensures i < |text| && text[i] == 'w'
  {
    assert text[i..i + |WITHDRAWN|][0] == text[i];
  }

  lemma NotSaid(text: string)
    requires Lacks(text, 'w')
    ensures !SaysWithdrawn(text)
  {
    if SaysWithdrawn(text) {
      var i: nat :| i < |text| && WordAt(text, i);
      WordStarts(text, i);
    }
  }

  /** A prefix without the first letter adds no occurrence. */
  lemma SaidAfter(prefix: string, text: string)
    requires Lacks(prefix, 'w')
    ensures SaysWithdrawn(prefix + text) <==> SaysWithdrawn(text)
  {
    var all := prefix + text;
    if SaysWithdrawn(all) {
      var i: nat :| i < |all| && WordAt(all, i);
      WordStarts(all, i);
      var j := i - |prefix|;
      assert text[j..j + |WITHDRAWN|] == all[i..i + |WITHDRAWN|];
      assert WordAt(text, j);
    }
    if SaysWithdrawn(text) {
      var j: nat :| j < |text| && WordAt(text, j);
      var i := |prefix| + j;
      assert all[i..i + |WITHDRAWN|] == text[j..j + |WITHDRAWN|];
      assert WordAt(all, i);
    }
  }

  lemma FixedTexts()
    ensures !SaysWithdrawn(ReasonText(ContextOrInputMismatch)) && !SaysWithdrawn(ReasonText(ExposureNotPermitted))
    ensures !SaysWithdrawn(ReasonText(OutsideValidity)) && !SaysWithdrawn(ReasonText(UnpaidCost))
    ensures SaysWithdrawn(ReasonText(DependencyWithdrawn))
    ensures forall e: Id :: SaysWithdrawn(ReasonText(ScopedInvalidation(e))) <==> SaysWithdrawn(IdText(e))
  {
    NotSaid("receiver_context_or_input_mismatch");
    NotSaid("host_exposure_not_permitted");
    NotSaid("outside_validity");
    NotSaid("unpaid_cost");
    SaidAfter("dependency_", WITHDRAWN);
    assert "dependency_" + WITHDRAWN == "dependency_withdrawn";
    assert WordAt(WITHDRAWN, 0);
    forall e: Id ensures SaysWithdrawn(ReasonText(ScopedInvalidation(e))) <==> SaysWithdrawn(IdText(e)) {
      SaidAfter("scoped_invalidation:", IdText(e));
    }
  }

  lemma AnySaidConcat(a: seq<Reason>, b: seq<Reason>)
    ensures AnySaysWithdrawn(a + b) <==> AnySaysWithdrawn(a) || AnySaysWithdrawn(b)
  {
    var all := a + b;
    if AnySaysWithdrawn(a) {
      var k :| 0 <= k < |a| && SaysWithdrawn(ReasonText(a[k]));
      assert all[k] == a[k];
    }
    if AnySaysWithdrawn(b) {
      var k :| 0 <= k < |b| && SaysWithdrawn(ReasonText(b[k]));
      assert all[|a| + k] == b[k];
    }
  }

  lemma SaidWhen(found: bool, reason: Reason)
    ensures AnySaysWithdrawn(When(found, reason)) <==> found && SaysWithdrawn(ReasonText(reason))
  {
    if found { assert When(found, reason)[0] == reason; }
  }

  /** A covering block whose event id has the word in it. */
  predicate BlockSaysWithdrawn(blocks: seq<Block>, q: Qualification, context: Context, input: string) {
    exists i :: 0 <= i < |blocks| && Covers(blocks[i], q, context, input) && SaysWithdrawn(IdText(blocks[i].event))
  }

  lemma {:induction false} BlocksSaid(blocks: seq<Block>, q: Qualification, context: Context, input: string)
    ensures AnySaysWithdrawn(BlockReasons(blocks, q, context, input)) <==> BlockSaysWithdrawn(blocks, q, context, input)
  {
    hide SaysWithdrawn, ReasonText, IdText, Covers;
    if blocks != [] {
      var front, last := blocks[..|blocks| - 1], blocks[|blocks| - 1];
      BlocksSaid(front, q, context, input);
      FixedTexts();
      AnySaidConcat(BlockReasons(front, q, context, input), [ScopedInvalidation(last.event)]);
      SaidWhen(true, ScopedInvalidation(last.event));
      assert forall i :: 0 <= i < |front| ==> front[i] == blocks[i];
    }
  }

  lemma DirectSaid(q: Qualification, context: Context, input: string, now: int, f: Facts)
    ensures AnySaysWithdrawn(DirectReasons(q, context, input, now, f)) <==> Withdrawn(f, context)
  {
    hide SaysWithdrawn, ReasonText, AnySaysWithdrawn, Withdrawn, AllPaid;
    FixedTexts();
    var a := When(q.context != context || input !in context.inputs, ContextOrInputMismatch);
    var b := When(!context.expose, ExposureNotPermitted);
    var c := When(!(q.validFrom <= now < q.validUntil), OutsideValidity);
    var d := When(!AllPaid(f, q.costs), UnpaidCost);
    var e := When(Withdrawn(f, context), DependencyWithdrawn);
    SaidWhen(q.context != context || input !in context.inputs, ContextOrInputMismatch);
    SaidWhen(!context.expose, ExposureNotPermitted);
    SaidWhen(!(q.validFrom <= now < q.validUntil), OutsideValidity);
    SaidWhen(!AllPaid(f, q.costs), UnpaidCost);
    SaidWhen(Withdrawn(f, context), DependencyWithdrawn);
    AnySaidConcat(a, b);
    AnySaidConcat(a + b, c);
    AnySaidConcat(a + b + c, d);
    AnySaidConcat(a + b + c + d, e);
  }

  /**
   The dependency status says withdrawn exactly when a dependency is withdrawn, or when the word occurs in
   the id of a covering block or in the message of a failed premise.
  */
  lemma DependencyStatusIff(host: Host, q: Qualification, context: Context, input: string, now: int, s: State)
    ensures var f := s.facts;
      var report := Viewed(q, context, Revision(s), Reasons(host, q, context, input, now, f)).report;
      report.dependencyStatus == WITHDRAWN <==>
      || Withdrawn(f, context)
      || BlockSaysWithdrawn(f.blocks, q, context, input)
      || (!Premises(host, q, now) && SaysWithdrawn(Refusal(host, q, now)))
  {
    hide SaysWithdrawn, AnySaysWithdrawn, Withdrawn, DirectReasons, BlockReasons, BlockSaysWithdrawn, Premises;
    var f := s.facts;
    var a, b := DirectReasons(q, context, input, now, f), BlockReasons(f.blocks, q, context, input);
    var c := When(!Premises(host, q, now), PremiseFailed(Refusal(host, q, now)));
    DirectSaid(q, context, input, now, f);
    BlocksSaid(f.blocks, q, context, input);
    SaidWhen(!Premises(host, q, now), PremiseFailed(Refusal(host, q, now)));
    AnySaidConcat(a, b);
    AnySaidConcat(a + b, c);
    assert WITHDRAWN != "current" by { assert |WITHDRAWN| != |"current"|; }
  }

  /** The rest of the report. */
  lemma ReportMeans(host: Host, q: Qualification, context: Context, input: string, now: int, s: State)
    ensures var eligible := Eligible(host, q, context, input, now, s.facts);
      var report := Viewed(q, context, Revision(s), Reasons(host, q, context, input, now, s.facts)).report;
      && report.parseValid && report.bindingChecks == eligible
      && report.structure == (if eligible then Some("native-ALT-source-replay") else None)
      && report.evidenceScope == "finite normalize-lines inputs only; host-recorded"
      && (report.dependencyStatus == "withdrawn" || report.dependencyStatus == "current")
      && report.unsupported == ["remote authentication", "host execution permission"] && report.residuals == []
  {
    hide Reasons, Eligible, SaysWithdrawn;
    NoReasonIffEligible(host, q, context, input, now, s.facts);
  }

  /** `decision(con, q, context, input_text, now, state)` */
  method Decide(host: Host, q: Qualification, context: Context, input: string, now: int, s: State)
    returns (r: Result<View>)
    ensures r.Ok? <==> ValidTick(now)
    ensures r.Ok? ==> r.value == Viewed(q, context, Revision(s), Reasons(host, q, context, input, now, s.facts))
    ensures r.Ok? ==> (r.value.eligible <==> Eligible(host, q, context, input, now, s.facts))
  {
    hide DirectReasons, Covers, Premises, Reported, Eligible, Refusal;
    if !ValidTick(now) { return Err(InvalidModel); }
    var f := s.facts;
    var reasons := ListDirectReasons(q, context, input, now, f);
    ghost var found := reasons;
    for n := 0 to |f.blocks|
      invariant reasons == found + BlockReasons(f.blocks[..n], q, context, input)
    {
      assert f.blocks[..n + 1][..n] == f.blocks[..n];
      if Covers(f.blocks[n], q, context, input) { reasons := reasons + [ScopedInvalidation(f.blocks[n].event)]; }
    }
    assert f.blocks[..|f.blocks|] == f.blocks;
    assert reasons + [] == reasons;
    if !Premises(host, q, now) { reasons := reasons + [PremiseFailed(Refusal(host, q, now))]; }
    assert reasons == Reasons(host, q, context, input, now, f);
    NoReasonIffEligible(host, q, context, input, now, f);
    return Ok(Viewed(q, context, Revision(s), reasons));
  }

  /**
   `check_view`: every test the consumer makes, in its own terms. It looks the artifact up in every
   block, so a candidate without one fails as soon as there is a block.
  */
  predicate CheckView(host: Host, view: View, context: Context, input: string, now: int, s: State) {
    && Resolves(s.facts, view.qualification)
    && var q := view.qualification.qualification;
      && view.snapshot == Revision(s)
      && q.context == context
      && context.expose
      && input in context.inputs
      && q.validFrom <= now < q.validUntil
      && view.memoryId == q.memoryId
      && view.updateId == q.updateId
      && view.workflowDigest == q.workflowDigest
      && view.contextDigest == OfContext(context)
      && view.expiry == q.validUntil
      && view.executionAuthority == None
      && view.sourceAuthentication == None
      && view.eligible
      && (forall c :: c in q.costs ==> c.id in s.facts.costs && s.facts.costs[c.id] == Booking(c, true))
      && (set i | 0 <= i < |s.facts.withdrawn| :: s.facts.withdrawn[i].dependency)
         * (set d | d in context.dependencies) == {}
      && (forall i :: 0 <= i < |s.facts.blocks| ==>
            && Artifact(q).Some?
            && var b := s.facts.blocks[i];
               !((b.artifact, b.context, b.input) == (Artifact(q).value, OfContext(context), input)
                 && b.time >= q.validFrom))
      && Promotion(host, q).Some?
      && view.claim == Promotion(host, q)
      && Reconstructs(host, q, now)
  }

  /** Every qualification on record passed its field bounds. */
  predicate AdmittedValid(f: Facts) {
    forall q :: q in f.qualifications ==> ValidTick(q.validFrom) && ValidTick(q.validUntil)
  }

  lemma WithdrawnTwoWays(f: Facts, context: Context)
    ensures Withdrawn(f, context) <==>
      (set i | 0 <= i < |f.withdrawn| :: f.withdrawn[i].dependency) * (set d | d in context.dependencies) != {}
  {
    var gone := set i | 0 <= i < |f.withdrawn| :: f.withdrawn[i].dependency;
    var needed := set d | d in context.dependencies;
    if Withdrawn(f, context) {
      var i :| 0 <= i < |f.withdrawn| && f.withdrawn[i].dependency in context.dependencies;
      assert f.withdrawn[i].dependency in gone * needed;
    }
    if gone * needed != {} {
      var d :| d in gone * needed;
      var i :| 0 <= i < |f.withdrawn| && f.withdrawn[i].dependency == d;
    }
  }

  /**
   The two judgements define one relation: a view is accepted exactly when it names an admitted
   qualification that is eligible, and is that decision's own view with the promoted claim.
  */
  lemma ViewAgreement(host: Host, view: View, context: Context, input: string, now: int, s: State)
    requires AdmittedValid(s.facts)
    ensures CheckView(host, view, context, input, now, s) <==>
      && Resolves(s.facts, view.qualification)
      && var q := view.qualification.qualification;
        && ValidTick(now)
        && Eligible(host, q, context, input, now, s.facts)
        && view == Viewed(q, context, Revision(s), []).(
             claim := Promotion(host, q), reasons := view.reasons, report := view.report)
  {
    hide Reported;
    WithdrawnTwoWays(s.facts, context);
    if Resolves(s.facts, view.qualification) {
      var q := view.qualification.qualification;
      assert Artifact(q).Some? ==> ArtifactOrNull(q) == Artifact(q).value;
    }
  }
}
