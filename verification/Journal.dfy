/**
 The lifecycle state that a journal replays to: one step of `replay` as a function, the fold of it
 over a list of entries, and what every step keeps.
*/
module Journal {
  import opened Basics
  import opened Wire
  import opened Models
  import Native

  const EVENT_LIMIT := 256
  const CHECKER := "normalize-checker-v1"

  datatype Block = Block(artifact: Tree, context: Digest, input: string, time: int, event: Id, reason: string)

  datatype Withdrawal = Withdrawal(dependency: string, reason: string, time: int, event: Id)

  datatype Answer = Answer(output: string, status: Status)

  datatype Exposure = Exposure(qualification: Digest, input: string)

  /** A recorded cost; `whole` when its data states the unit, as the data of an obligation does. */
  datatype Booking = Booking(cost: Cost, whole: bool)

  /** The state dictionary. Qualifications are keyed by digest and kept in admission order. */
  datatype Facts = Facts(
    qualifications: seq<Qualification>,
    costs: map<string, Booking>,
    blocks: seq<Block>,
    withdrawn: seq<Withdrawal>,
    allegations: seq<Block>,
    intents: map<Id, Intent>,
    attempts: map<Id, Id>,
    outcomes: map<Id, Answer>,
    checked: map<Id, bool>,
    services: seq<Id>,
    exposures: seq<Exposure>)

  /** The two local variables of the loop and the dictionary it fills. */
  datatype State = State(unique: seq<Entry>, ids: map<Id, Digest>, facts: Facts)

  const NO_FACTS := Facts([], map[], [], [], [], map[], map[], map[], map[], [], [])

  const EMPTY := State([], map[], NO_FACTS)

  function Revision(s: State): Digest {
    OfEntries(s.unique)
  }

  /** `digest in state["qualifications"]` */
  predicate Resolves(f: Facts, d: Digest) {
    d.OfQualification? && d.qualification in f.qualifications
  }

  predicate Paid(f: Facts, c: Cost) {
    c.id in f.costs && f.costs[c.id] == Booking(c, true)
  }

  predicate AllPaid(f: Facts, costs: seq<Cost>) {
    forall c :: c in costs ==> Paid(f, c)
  }

  /** What lets later lookups in the state dictionary succeed. */
  predicate Linked(f: Facts) {
    && (forall i :: i in f.intents ==> Resolves(f, f.intents[i].qualification) && f.intents[i].cost in f.costs)
    && f.attempts.Keys <= f.intents.Keys
    && f.outcomes.Keys <= f.attempts.Keys
    && f.checked.Keys <= f.outcomes.Keys
  }

  /** The operation record that the outcome check builds for an intent. */
  function CheckedOperation(n: Intent, a: Answer): Native.Operation {
    Native.Operation(Native.Registered, n.input, a.output, true,
                     if a.status == Received then Native.Success else Native.Unknown)
  }

  predicate Passed(n: Intent, a: Answer) {
    Native.Checked(CheckedOperation(n, a))
  }

  function Negative(n: Intent, q: Qualification, artifact: Tree, e: Entry): Block {
    Block(artifact, OfContext(q.context), n.input, e.time, e.id, "checked-negative")
  }

  function ApplyCost(f: Facts, b: Booking): Result<Facts> {
    if b.cost.id in f.costs && f.costs[b.cost.id] != b then Err(ConflictingCost)
    else Ok(f.(costs := f.costs[b.cost.id := b]))
  }

  function ApplyAdmit(f: Facts, q: Qualification): Result<Facts> {
    if !AllPaid(f, q.costs) then Err(UnpaidObligation)
    else if q in f.qualifications then Ok(f)
    else Ok(f.(qualifications := f.qualifications + [q]))
  }

  function ApplyIntent(f: Facts, id: Id, n: Intent): Result<Facts> {
    if !Resolves(f, n.qualification) || n.cost !in f.costs then Err(UnboundReference)
    else Ok(f.(intents := f.intents[id := n]))
  }

  function ApplyAttempt(f: Facts, i: Id, id: Id): Result<Facts> {
    if i !in f.intents || i in f.attempts then Err(UnboundReference)
    else Ok(f.(attempts := f.attempts[i := id]))
  }

  function ApplyOutcome(f: Facts, i: Id, a: Answer): Result<Facts> {
    if i !in f.attempts || i in f.outcomes then Err(UnboundReference)
    else Ok(f.(outcomes := f.outcomes[i := a]))
  }

  function ApplyCheck(f: Facts, e: Entry, i: Id, checker: string): Result<Facts>
    requires Linked(f)
  {
    if checker != CHECKER || i !in f.outcomes then Err(UnboundReference)
    else
      var n, a := f.intents[i], f.outcomes[i];
      if |n.input| > Native.TEXT_LIMIT || |a.output| > Native.TEXT_LIMIT then Err(InvalidModel)
      else
        var g := f.(checked := f.checked[i := Passed(n, a)]);
        if a.status != Received || Passed(n, a) then Ok(g)
        else
          var q := n.qualification.qualification;
          if Artifact(q).None? then Err(UnboundReference)
          else Ok(g.(blocks := g.blocks + [Negative(n, q, Artifact(q).value, e)]))
  }

  function ApplyReconcile(f: Facts, i: Id): Result<Facts> {
    if i !in f.checked then Err(UnboundReference)
    else if f.checked[i] && i !in f.services then Ok(f.(services := f.services + [i]))
    else Ok(f)
  }

  /** The part of a step that depends on the kind of the entry. */
  function Apply(f: Facts, e: Entry): Result<Facts>
    requires Linked(f)
  {
    match e.body
    case PayCost(c) => ApplyCost(f, Booking(c, true))
    case NoteCost(c) => ApplyCost(f, Booking(c, false))
    case Admit(q) => ApplyAdmit(f, q)
    case Invalidate(artifact, context, input, reason) =>
      Ok(f.(blocks := f.blocks + [Block(Str(artifact), context, input, e.time, e.id, reason)]))
    case Allege(artifact, context, input, reason) =>
      Ok(f.(allegations := f.allegations + [Block(Str(artifact), context, input, e.time, e.id, reason)]))
    case Withdraw(dependency, reason) =>
      Ok(f.(withdrawn := f.withdrawn + [Withdrawal(dependency, reason, e.time, e.id)]))
    case Expose(d, input) =>
      if !Resolves(f, d) then Err(UnboundReference)
      else Ok(f.(exposures := f.exposures + [Exposure(d, input)]))
    case Intend(n) => ApplyIntent(f, e.id, n)
    case Attempt(i) => ApplyAttempt(f, i, e.id)
    case Outcome(i, output, status) => ApplyOutcome(f, i, Answer(output, status))
    case Check(i, checker) => ApplyCheck(f, e, i, checker)
    case Reconcile(i) => ApplyReconcile(f, i)
    case Correction(_) => Err(UnsupportedCorrection)
    case Malformed(_, _) => Err(UnboundReference)
  }

  /** One turn of the loop: validate, digest, skip a redelivery, demand the parent, apply, record. */
  ghost function Step(s: State, e: Entry): Result<State>
    requires Linked(s.facts)
  {
    if !ValidEntry(e) then Err(InvalidModel)
    else if !FitsEntry(e) then Err(ByteLimit)
    else if e.id in s.ids then
      if s.ids[e.id] == OfEntry(e) then Ok(s) else Err(ConflictingId)
    else if !FitsList(s.unique) then Err(ByteLimit)
    else if e.previous != Revision(s) then Err(StaleRevision)
    else
      var f :- Apply(s.facts, e);
      Ok(State(s.unique + [e], s.ids[e.id := OfEntry(e)], f))
  }

  // ---- What holds of every replayed state.

  /** `ids` indexes `unique`, whose entries each name the list before them as their parent. */
  predicate Indexed(unique: seq<Entry>, ids: map<Id, Digest>) {
    && ids.Keys == (set i | 0 <= i < |unique| :: unique[i].id)
    && (forall i :: 0 <= i < |unique| ==> ids[unique[i].id] == OfEntry(unique[i]))
    && (forall i, j :: 0 <= i < j < |unique| ==> unique[i].id != unique[j].id)
    && (forall i :: 0 <= i < |unique| ==> unique[i].previous == OfEntries(unique[..i]))
  }

  /** Every recorded check result is the checker's. */
  predicate Judged(f: Facts)
    requires Linked(f)
  {
    forall i :: i in f.checked ==> f.checked[i] == Passed(f.intents[i], f.outcomes[i])
  }

  /** Services are distinct intents that passed; obligations are paid; costs sit under their own id. */
  predicate Settled(f: Facts) {
    && (forall i :: i in f.services ==> i in f.checked && f.checked[i])
    && (forall j, k :: 0 <= j < k < |f.services| ==> f.services[j] != f.services[k])
    && (forall q :: q in f.qualifications ==> AllPaid(f, q.costs))
    && (forall k :: k in f.costs ==> f.costs[k].cost.id == k)
  }

  predicate Sound(s: State) {
    && Indexed(s.unique, s.ids)
    && Linked(s.facts)
    && Judged(s.facts)
    && Settled(s.facts)
    && s.facts.intents.Keys <= s.ids.Keys
  }

  predicate SubMap<K, V(==)>(a: map<K, V>, b: map<K, V>) {
    forall k :: k in a ==> k in b && a[k] == b[k]
  }

  /** Everything recorded in `f` is still recorded, unchanged, in `g`. */
  predicate Extends(f: Facts, g: Facts) {
    && f.qualifications <= g.qualifications
    && f.blocks <= g.blocks
    && f.withdrawn <= g.withdrawn
    && f.allegations <= g.allegations
    && f.services <= g.services
    && f.exposures <= g.exposures
    && SubMap(f.costs, g.costs)
    && SubMap(f.intents, g.intents)
    && SubMap(f.attempts, g.attempts)
    && SubMap(f.outcomes, g.outcomes)
    && SubMap(f.checked, g.checked)
  }

  /** What is settled depends on qualifications, costs, verdicts and services only. */
  lemma SettledFrame(f: Facts, g: Facts)
    requires Settled(f) && g.qualifications == f.qualifications && g.costs == f.costs
    requires g.checked == f.checked && g.services == f.services
    ensures Settled(g)
  {
    hide AllPaid;
    forall q | q in g.qualifications ensures AllPaid(g, q.costs) { PaidFrame(f, g, q.costs); }
  }

  lemma PaidFrame(f: Facts, g: Facts, costs: seq<Cost>)
    requires AllPaid(f, costs) && g.costs == f.costs
    ensures AllPaid(g, costs)
  {
  }

  lemma CostKeeps(f: Facts, b: Booking)
    requires Linked(f) && Settled(f) && ApplyCost(f, b).Ok?
    ensures var g := ApplyCost(f, b).value; Linked(g) && Settled(g) && Extends(f, g)
  {
  }

  lemma AdmitKeeps(f: Facts, q: Qualification)
    requires Linked(f) && Settled(f) && ApplyAdmit(f, q).Ok?
    ensures var g := ApplyAdmit(f, q).value; Linked(g) && Settled(g) && Extends(f, g)
  {
    hide AllPaid;
    var g := ApplyAdmit(f, q).value;
    forall p | p in g.qualifications ensures AllPaid(g, p.costs) { PaidFrame(f, g, p.costs); }
  }

  lemma IntentKeeps(f: Facts, id: Id, n: Intent)
    requires Linked(f) && Settled(f) && id !in f.intents && ApplyIntent(f, id, n).Ok?
    ensures var g := ApplyIntent(f, id, n).value; Linked(g) && Settled(g) && Extends(f, g)
  {
    hide Settled;
    SettledFrame(f, ApplyIntent(f, id, n).value);
  }

  lemma AttemptKeeps(f: Facts, i: Id, id: Id)
    requires Linked(f) && Settled(f) && ApplyAttempt(f, i, id).Ok?
    ensures var g := ApplyAttempt(f, i, id).value; Linked(g) && Settled(g) && Extends(f, g)
  {
    hide Settled;
    SettledFrame(f, ApplyAttempt(f, i, id).value);
  }

  lemma OutcomeKeeps(f: Facts, i: Id, a: Answer)
    requires Linked(f) && Settled(f) && ApplyOutcome(f, i, a).Ok?
    ensures var g := ApplyOutcome(f, i, a).value; Linked(g) && Settled(g) && Extends(f, g)
  {
    hide Settled;
    SettledFrame(f, ApplyOutcome(f, i, a).value);
  }

  /** A second check of the same intent finds what the first one found. */
  lemma VerdictKeeps(f: Facts, i: Id)
    requires Linked(f) && Judged(f) && Settled(f) && i in f.outcomes
    ensures var g := f.(checked := f.checked[i := Passed(f.intents[i], f.outcomes[i])]);
      Linked(g) && Settled(g) && SubMap(f.checked, g.checked) && Judged(g)
  {
    hide Passed;
    assert i in f.checked ==> f.checked[i] == Passed(f.intents[i], f.outcomes[i]);
  }

  lemma BlocksKeep(f: Facts, blocks: seq<Block>)
    requires Linked(f) && Judged(f) && Settled(f)
    ensures var g := f.(blocks := blocks); Linked(g) && Settled(g) && Judged(g)
  {
  }

  lemma CheckShape(f: Facts, e: Entry, i: Id, checker: string)
    requires Linked(f) && ApplyCheck(f, e, i, checker).Ok?
    ensures i in f.outcomes
    ensures var g := ApplyCheck(f, e, i, checker).value;
      && f.blocks <= g.blocks
      && g == f.(checked := f.checked[i := Passed(f.intents[i], f.outcomes[i])], blocks := g.blocks)
  {
  }

  lemma CheckKeeps(f: Facts, e: Entry, i: Id, checker: string)
    requires Linked(f) && Judged(f) && Settled(f) && ApplyCheck(f, e, i, checker).Ok?
    ensures var g := ApplyCheck(f, e, i, checker).value; Linked(g) && Settled(g) && Extends(f, g) && Judged(g)
  {
    CheckShape(f, e, i, checker);
    VerdictKeeps(f, i);
    var g := ApplyCheck(f, e, i, checker).value;
    BlocksKeep(f.(checked := g.checked), g.blocks);
  }

  lemma ReconcileKeeps(f: Facts, i: Id)
    requires Linked(f) && Settled(f) && ApplyReconcile(f, i).Ok?
    ensures var g := ApplyReconcile(f, i).value; Linked(g) && Settled(g) && Extends(f, g)
  {
    hide AllPaid;
    var g := ApplyReconcile(f, i).value;
    forall q | q in g.qualifications ensures AllPaid(g, q.costs) { PaidFrame(f, g, q.costs); }
  }

  lemma JudgedFrame(f: Facts, g: Facts)
    requires Linked(f) && Linked(g) && Judged(f)
    requires g.checked == f.checked && SubMap(f.intents, g.intents) && SubMap(f.outcomes, g.outcomes)
    ensures Judged(g)
  {
  }

  lemma LoggedKeeps(f: Facts, e: Entry)
    requires e.body.Invalidate? || e.body.Allege? || e.body.Withdraw? || e.body.Expose?
    requires Linked(f) && Settled(f) && Apply(f, e).Ok?
    ensures var g := Apply(f, e).value; Linked(g) && Settled(g) && Extends(f, g)
  {
    hide Settled, ApplyCost, ApplyAdmit, ApplyIntent, ApplyAttempt, ApplyOutcome, ApplyCheck, ApplyReconcile;
    SettledFrame(f, Apply(f, e).value);
  }

  /** An entry that applies keeps the state in order and changes nothing recorded. */
  lemma ApplyKeeps(f: Facts, e: Entry)
    requires Linked(f) && Judged(f) && Settled(f) && e.id !in f.intents && Apply(f, e).Ok?
    ensures var g := Apply(f, e).value; Linked(g) && Judged(g) && Settled(g) && Extends(f, g)
  {
    hide Linked, Judged, Settled, ApplyCost, ApplyAdmit, ApplyIntent, ApplyAttempt, ApplyOutcome, ApplyCheck,
      ApplyReconcile;
    match e.body {
      case PayCost(c) => CostKeeps(f, Booking(c, true));
      case NoteCost(c) => CostKeeps(f, Booking(c, false));
      case Admit(q) => AdmitKeeps(f, q);
      case Intend(n) => IntentKeeps(f, e.id, n);
      case Attempt(i) => AttemptKeeps(f, i, e.id);
      case Outcome(i, output, status) => OutcomeKeeps(f, i, Answer(output, status));
      case Check(i, checker) => CheckKeeps(f, e, i, checker);
      case Reconcile(i) => ReconcileKeeps(f, i);
      case _ => LoggedKeeps(f, e);
    }
    if !e.body.Check? {
      ApplyUnchecked(f, e);
      JudgedFrame(f, Apply(f, e).value);
    }
  }

  lemma ApplyUnchecked(f: Facts, e: Entry)
    requires Linked(f) && Apply(f, e).Ok? && !e.body.Check?
    ensures Apply(f, e).value.checked == f.checked
  {
  }

  lemma ApplyIntents(f: Facts, e: Entry)
    requires Linked(f) && Apply(f, e).Ok?
    ensures Apply(f, e).value.intents == if e.body.Intend? then f.intents[e.id := e.body.intent] else f.intents
  {
  }

  lemma AppendIndexed(unique: seq<Entry>, ids: map<Id, Digest>, e: Entry)
    requires Indexed(unique, ids) && e.id !in ids && e.previous == OfEntries(unique)
    ensures Indexed(unique + [e], ids[e.id := OfEntry(e)])
  {
    var all := unique + [e];
    assert all[|unique|] == e;
    forall i | 0 <= i < |all| ensures all[i].previous == OfEntries(all[..i]) {
      assert i < |unique| ==> all[..i] == unique[..i];
      assert i == |unique| ==> all[..i] == unique;
    }
  }

  lemma StepSound(s: State, e: Entry)
    requires Sound(s) && Step(s, e).Ok?
    ensures Sound(Step(s, e).value) && Extends(s.facts, Step(s, e).value.facts)
    ensures Step(s, e).value.unique == if e.id in s.ids then s.unique else s.unique + [e]
  {
    if e.id !in s.ids {
      ApplyKeeps(s.facts, e);
      ApplyIntents(s.facts, e);
      AppendIndexed(s.unique, s.ids, e);
    }
  }

  // ---- The fold.

  ghost function Fold(s: State, es: seq<Entry>): (r: Result<State>)
    requires Sound(s)
    ensures r.Ok? ==> Sound(r.value)
    decreases |es|
  {
    if es == [] then Ok(s)
    else
      match Step(s, es[0])
      case Err(error) => Err(error)
      case Ok(t) =>
        StepSound(s, es[0]);
        Fold(t, es[1..])
  }

  /** `replay(entries)` */
  ghost function Replay(es: seq<Entry>): (r: Result<State>)
    ensures r.Ok? ==> Sound(r.value)
  {
    if |es| > EVENT_LIMIT then Err(EventLimit)
    else
      var s :- Fold(EMPTY, es);
      if FitsList(s.unique) then Ok(s) else Err(ByteLimit)
  }
}
