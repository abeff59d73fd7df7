/** The closed records of the sidecar journal, their field bounds and the trees they encode to. */
module Models {
  import opened Basics
  import opened Wire
  import Rational

  const TICK_LIMIT := 0x8000_0000

  /**
   A digest stands for the value it was taken of, so it is injective by construction. `Opaque` is
   any other string found where a digest is expected.
  */
  datatype Digest =
    | OfEntries(entries: seq<Entry>)
    | OfEntry(entry: Entry)
    | OfQualification(qualification: Qualification)
    | OfContext(context: Context)
    | OfCost(cost: Cost)
    | Opaque(text: string)

  /** One piece of an event id: a character, or the first `width` characters of a digest. */
  datatype Sym = Ch(c: char) | Hex(of: Digest, width: nat)

  type Id = seq<Sym>

  datatype Stage = Formation | Verification | Transfer | Refresh | Maintenance | Use

  datatype Cost = Cost(id: string, stage: Stage, amount: string)

  datatype Context = Context(
    workspace: string, receiver: string, mission: string, taskFamily: string, context: string,
    inputs: seq<string>, protocol: string, evaluator: string, toolVersion: string, clock: string,
    dependencies: seq<string>, checks: seq<string>, restrictions: seq<string>, expose: bool)

  /** Sources and native records are carried as the JSON they are. */
  datatype Qualification = Qualification(
    memoryId: string, updateId: string, workflowDigest: string, context: Context,
    validFrom: int, validUntil: int, cutoff: int,
    training: Tree, evaluation: Tree, formation: Tree, candidate: Tree, offer: Tree, mapping: Tree,
    costs: seq<Cost>)

  datatype Status = Received | Timeout | Lost

  datatype Intent = Intent(qualification: Digest, input: string, action: Tree, cost: string, snapshot: Digest)

  /**
   The kind of an entry together with its data. `NoteCost` is a cost that leaves out its unit, which has
   a default. `Malformed` is any data whose keys or values do not fit the kind, with the data kept as JSON.
  */
  datatype Body =
    | PayCost(cost: Cost)
    | NoteCost(cost: Cost)
    | Admit(q: Qualification)
    | Invalidate(artifact: string, context: Digest, input: string, reason: string)
    | Allege(artifact: string, context: Digest, input: string, reason: string)
    | Withdraw(dependency: string, reason: string)
    | Expose(qualification: Digest, input: string)
    | Intend(intent: Intent)
    | Attempt(of: Id)
    | Outcome(of: Id, output: string, status: Status)
    | Check(of: Id, checker: string)
    | Reconcile(of: Id)
    | Correction(data: Tree)
    | Malformed(kind: string, data: Tree)

  datatype Entry = Entry(id: Id, previous: Digest, time: int, body: Body)

  // ---- Field bounds.

  predicate NameChar(c: char) {
    'A' <= c <= 'Z' || 'a' <= c <= 'z' || '0' <= c <= '9' || c in {'_', '.', ':', '-'}
  }

  predicate ValidName(s: string) {
    1 <= |s| <= 120 && forall i :: 0 <= i < |s| ==> NameChar(s[i])
  }

  predicate ValidHash(s: string) {
    |s| == 64 && forall i :: 0 <= i < |s| ==> '0' <= s[i] <= '9' || 'a' <= s[i] <= 'f'
  }

  predicate ValidTick(t: int) {
    0 <= t <= TICK_LIMIT
  }

  predicate Distinct(values: seq<string>) {
    && (forall i, j :: 0 <= i < j < |values| ==> values[i] != values[j])
    && (forall i :: 0 <= i < |values| ==> |values[i]| <= 4096)
  }

  predicate ValidCost(c: Cost) {
    ValidName(c.id) && Rational.Exact(c.amount)
  }

  predicate ValidContext(c: Context) {
    && ValidName(c.workspace) && ValidName(c.receiver) && ValidName(c.mission) && ValidName(c.taskFamily)
    && ValidName(c.context) && ValidName(c.protocol) && ValidName(c.evaluator) && ValidName(c.toolVersion)
    && ValidName(c.clock)
    && 1 <= |c.inputs| <= 8 && Distinct(c.inputs)
    && 1 <= |c.dependencies| <= 8 && Distinct(c.dependencies)
    && (forall d :: d in c.dependencies ==> ValidHash(d))
    && 1 <= |c.checks| <= 8 && Distinct(c.checks) && (forall k :: k in c.checks ==> ValidName(k))
    && |c.restrictions| <= 8 && Distinct(c.restrictions) && (forall k :: k in c.restrictions ==> ValidName(k))
  }

  predicate ValidQualification(q: Qualification) {
    && ValidName(q.memoryId) && ValidName(q.updateId) && ValidHash(q.workflowDigest) && ValidContext(q.context)
    && ValidTick(q.validFrom) && ValidTick(q.validUntil) && ValidTick(q.cutoff)
    && q.training.Array? && 2 <= |q.training.items| <= 8
    && q.evaluation.Array? && 1 <= |q.evaluation.items| <= 8
    && q.formation.Object? && q.candidate.Object? && q.offer.Object? && q.mapping.Object?
    && 1 <= |q.costs| <= 32 && (forall c :: c in q.costs ==> ValidCost(c))
  }

  /** `candidate.get(key)`; the last of several equal keys would win, but a parsed object has none. */
  function Lookup(t: Tree, key: string): Option<Tree> {
    if t.Object? then LookupField(t.fields, key) else None
  }

  function LookupField(fields: seq<Field>, key: string): Option<Tree> {
    if fields == [] then None
    else if fields[0].key == key then Some(fields[0].item)
    else LookupField(fields[1..], key)
  }

  function Artifact(q: Qualification): Option<Tree> {
    Lookup(q.candidate, "artifact_digest")
  }

  // ---- Ids.

  function Text(s: string): (id: Id)
    ensures |id| == |s| && forall i :: 0 <= i < |s| ==> id[i] == Ch(s[i])
  {
    seq(|s|, i requires 0 <= i < |s| => Ch(s[i]))
  }

  function IdLength(id: Id): nat {
    if id == [] then 0 else (if id[0].Hex? then id[0].width else 1) + IdLength(id[1..])
  }

  predicate ValidId(id: Id) {
    1 <= IdLength(id) <= 120 && forall i :: 0 <= i < |id| && id[i].Ch? ==> NameChar(id[i].c)
  }

  /** The models inside the data validate. */
  predicate ValidBody(b: Body) {
    && (forall c :: c in (if b.PayCost? || b.NoteCost? then {b.cost} else {}) ==> ValidCost(c))
    && (forall q :: q in (if b.Admit? then {b.q} else {}) ==> ValidQualification(q))
  }

  predicate ValidEntry(e: Entry) {
    ValidId(e.id) && ValidTick(e.time) && ValidBody(e.body)
  }

  function CostEventId(c: Cost): Id { Text("cost-") + [Hex(OfCost(c), 24)] }

  function UseCostEventId(c: Cost): Id { Text("use-cost-") + [Hex(OfCost(c), 24)] }

  function AdmitEventId(q: Qualification): Id { Text("admit-") + [Hex(OfQualification(q), 24)] }

  function ExposureEventId(snapshot: Digest, index: nat): Id {
    Text("exposure-") + [Hex(snapshot, 20)] + Text(Rational.PrintNat(index))
  }

  // ---- Trees. A digest prints as 64 hexadecimal characters; which ones does not matter to sizes.

  function Zeros(n: nat): string { seq(n, _ => '0') }

  function DigestTree(d: Digest): Tree {
    Str(if d.Opaque? then d.text else Zeros(64))
  }

  function IdText(id: Id): string {
    if id == [] then ""
    else (if id[0].Hex? then Zeros(id[0].width) else [id[0].c]) + IdText(id[1..])
  }

  /** Letters, digits, underscore, dot, colon and hyphen. */
  predicate NameText(s: string) {
    forall i :: 0 <= i < |s| ==>
      ('A' <= s[i] <= 'Z') || ('a' <= s[i] <= 'z') || ('0' <= s[i] <= '9') || s[i] in ['_', '.', ':', '-']
  }

  lemma NameTextConcat(a: string, b: string)
    ensures NameText(a + b) <==> NameText(a) && NameText(b)
  {
    var all := a + b;
    assert forall i :: 0 <= i < |a| ==> all[i] == a[i];
    assert forall i :: 0 <= i < |b| ==> all[|a| + i] == b[i];
  }

  lemma NameOne(c: char)
    ensures NameText([c]) <==> NameChar(c)
  {
    assert [c][0] == c;
  }

  lemma {:induction false} IdPrints(id: Id)
    ensures |IdText(id)| == IdLength(id)
    ensures NameText(IdText(id)) <==> forall i :: 0 <= i < |id| && id[i].Ch? ==> NameChar(id[i].c)
  {
    hide NameText, NameChar;
    if id == [] {
      assert NameText("") by { NoText(); }
    } else {
      var rest := id[1..];
      IdPrints(rest);
      var first := if id[0].Hex? then Zeros(id[0].width) else [id[0].c];
      NameTextConcat(first, IdText(rest));
      if id[0].Hex? { ZerosName(id[0].width); } else { NameOne(id[0].c); }
      assert forall i :: 0 <= i < |rest| ==> rest[i] == id[i + 1];
      assert forall i :: 0 < i < |id| ==> id[i] == rest[i - 1];
    }
  }

  lemma NoText()
    ensures NameText("")
  {
  }

  lemma ZerosName(n: nat)
    ensures NameText(Zeros(n))
  {
  }

  /** An id is valid exactly when its text has 1 to 120 characters, all of them of names. */
  lemma ValidIdIff(id: Id)
    ensures ValidId(id) <==> 1 <= |IdText(id)| <= 120 && NameText(IdText(id))
  {
    hide NameText, NameChar;
    IdPrints(id);
  }

  function Strings(values: seq<string>): Tree {
    Array(seq(|values|, i requires 0 <= i < |values| => Str(values[i])))
  }

  function StageName(s: Stage): string {
    match s
    case Formation => "formation"
    case Verification => "verification"
    case Transfer => "transfer"
    case Refresh => "refresh"
    case Maintenance => "maintenance"
    case Use => "use"
  }

  function CostTree(c: Cost): Tree {
    Object([Field("amount", Str(c.amount)), Field("id", Str(c.id)), Field("stage", Str(StageName(c.stage))),
            Field("unit", Str("work-unit"))])
  }

  function UnitlessTree(c: Cost): Tree {
    Object([Field("amount", Str(c.amount)), Field("id", Str(c.id)), Field("stage", Str(StageName(c.stage)))])
  }

  function CostTrees(costs: seq<Cost>): seq<Tree> {
    seq(|costs|, i requires 0 <= i < |costs| => CostTree(costs[i]))
  }

  function ContextTree(c: Context): Tree {
    Object([Field("checks", Strings(c.checks)), Field("clock", Str(c.clock)), Field("context", Str(c.context)),
            Field("dependencies", Strings(c.dependencies)), Field("evaluator", Str(c.evaluator)),
            Field("expose", Bool(c.expose)), Field("inputs", Strings(c.inputs)), Field("mission", Str(c.mission)),
            Field("protocol", Str(c.protocol)), Field("receiver", Str(c.receiver)),
            Field("restrictions", Strings(c.restrictions)), Field("task_family", Str(c.taskFamily)),
            Field("tool_version", Str(c.toolVersion)), Field("version", Str("oawm_receiver_v1")),
            Field("workspace", Str(c.workspace))])
  }

  function QualificationTree(q: Qualification): Tree {
    Object([Field("candidate", q.candidate), Field("context", ContextTree(q.context)),
            Field("costs", Array(CostTrees(q.costs))), Field("cutoff", Int(q.cutoff)),
            Field("evaluation", q.evaluation), Field("execution_authority", Null), Field("formation", q.formation),
            Field("mapping", q.mapping), Field("memory_id", Str(q.memoryId)), Field("offer", q.offer),
            Field("source_authentication", Null), Field("training", q.training),
            Field("update_id", Str(q.updateId)), Field("valid_from", Int(q.validFrom)),
            Field("valid_until", Int(q.validUntil)), Field("version", Str("oawm_qualification_v1")),
            Field("workflow_digest", Str(q.workflowDigest))])
  }

  function StatusName(s: Status): string {
    match s
    case Received => "received"
    case Timeout => "timeout"
    case Lost => "unknown"
  }

  function ScopeTree(artifact: string, context: Digest, input: string, reason: string): Tree {
    Object([Field("artifact", Str(artifact)), Field("context", DigestTree(context)), Field("input", Str(input)),
            Field("reason", Str(reason))])
  }

  function BodyTree(b: Body): Tree {
    match b
    case PayCost(c) => CostTree(c)
    case NoteCost(c) => UnitlessTree(c)
    case Admit(q) => QualificationTree(q)
    case Invalidate(a, c, i, r) => ScopeTree(a, c, i, r)
    case Allege(a, c, i, r) => ScopeTree(a, c, i, r)
    case Withdraw(d, r) => Object([Field("dependency", Str(d)), Field("reason", Str(r))])
    case Expose(q, i) => Object([Field("input", Str(i)), Field("qualification", DigestTree(q))])
    case Intend(n) =>
      Object([Field("action", n.action), Field("cost", Str(n.cost)), Field("input", Str(n.input)),
              Field("qualification", DigestTree(n.qualification)), Field("snapshot", DigestTree(n.snapshot))])
    case Attempt(i) => Object([Field("intent", Str(IdText(i)))])
    case Outcome(i, output, status) =>
      Object([Field("intent", Str(IdText(i))), Field("output", Str(output)), Field("status", Str(StatusName(status)))])
    case Check(i, checker) => Object([Field("checker", Str(checker)), Field("intent", Str(IdText(i)))])
    case Reconcile(i) => Object([Field("intent", Str(IdText(i)))])
    case Correction(data) => data
    case Malformed(_, data) => data
  }

  function KindName(b: Body): string {
    match b
    case PayCost(_) => "cost"
    case NoteCost(_) => "cost"
    case Admit(_) => "admit"
    case Invalidate(_, _, _, _) => "invalidate"
    case Allege(_, _, _, _) => "allegation"
    case Withdraw(_, _) => "withdraw"
    case Expose(_, _) => "exposure"
    case Intend(_) => "intent"
    case Attempt(_) => "attempt"
    case Outcome(_, _, _) => "outcome"
    case Check(_, _) => "checked"
    case Reconcile(_) => "reconciled"
    case Correction(_) => "correction"
    case Malformed(kind, _) => kind
  }

  function EntryTree(e: Entry): Tree {
    Object([Field("data", BodyTree(e.body)), Field("id", Str(IdText(e.id))), Field("kind", Str(KindName(e.body))),
            Field("previous", DigestTree(e.previous)), Field("time", Int(e.time)),
            Field("version", Str("oawm_lifecycle_v1"))])
  }

  function EntryTrees(es: seq<Entry>): (r: seq<Tree>)
    ensures |r| == |es| && forall i :: 0 <= i < |es| ==> r[i] == EntryTree(es[i])
  {
    seq(|es|, i requires 0 <= i < |es| => EntryTree(es[i]))
  }

  predicate EncodesEntry(t: Tree, e: Entry) {
    t == EntryTree(e)
  }

  predicate EncodesList(t: Tree, es: seq<Entry>) {
    t == Array(EntryTrees(es))
  }

  /** `digest(entry)` raises nothing: `loads` accepts what the entry encodes to. */
  ghost predicate FitsEntry(e: Entry) {
    forall t :: EncodesEntry(t, e) ==> Accepted(t)
  }

  /** `digest(list of entries)` raises nothing. */
  ghost predicate FitsList(es: seq<Entry>) {
    forall t :: EncodesList(t, es) ==> Accepted(t)
  }

  method DigestEntry(e: Entry) returns (r: Result<Digest>)
    ensures r.Ok? <==> FitsEntry(e)
    ensures r.Ok? ==> r.value == OfEntry(e)
  {
    var t := EntryTree(e);
    assert EncodesEntry(t, e);
    var loaded := Loads(Encode(t), t);
    return if loaded.Ok? then Ok(OfEntry(e)) else Err(loaded.error);
  }

  method DigestList(es: seq<Entry>) returns (r: Result<Digest>)
    ensures r.Ok? <==> FitsList(es)
    ensures r.Ok? ==> r.value == OfEntries(es)
  {
    var t := Array(EntryTrees(es));
    assert EncodesList(t, es);
    var loaded := Loads(Encode(t), t);
    return if loaded.Ok? then Ok(OfEntries(es)) else Err(loaded.error);
  }

  /** What fits as a list fits entry by entry, prefix by prefix, and as rows side by side. */
  lemma FitsListParts(es: seq<Entry>, k: nat)
    requires FitsList(es) && k <= |es|
    ensures FitsList(es[..k])
    ensures forall i :: 0 <= i < |es| ==> FitsEntry(es[i])
    ensures TotalLength(EntryTrees(es)) <= BYTE_LIMIT
  {
    assert EncodesList(Array(EntryTrees(es)), es);
    assert EntryTrees(es) == EntryTrees(es[..k]) + EntryTrees(es[k..]);
    AcceptedPrefix(EntryTrees(es[..k]), EntryTrees(es[k..]));
    assert EntryTrees(es) == EntryTrees(es) + [];
    AcceptedPrefix(EntryTrees(es), []);
    forall i | 0 <= i < |es| ensures FitsEntry(es[i]) {
      AcceptedItem(Array(EntryTrees(es)), i);
    }
  }

  // ---- Field bounds, by kind of field.

  /** A list of distinct texts, of `low` to 8 of them, none longer than 4096 characters. */
  predicate ShortList(values: seq<string>, low: nat) {
    && low <= |values| <= 8 && (forall v :: v in values ==> |v| <= 4096)
    && forall i, j :: 0 <= i < |values| && 0 <= j < |values| && values[i] == values[j] ==> i == j
  }

  lemma ShortListIs(values: seq<string>, low: nat)
    ensures ShortList(values, low) <==> low <= |values| <= 8 && Distinct(values)
  {
  }

  /** The fields of a qualification that are single names. */
  function SingleNames(q: Qualification): seq<string> {
    var c := q.context;
    [q.memoryId, q.updateId, c.workspace, c.receiver, c.mission, c.taskFamily, c.context, c.protocol, c.evaluator,
     c.toolVersion, c.clock]
  }

  function CostIds(costs: seq<Cost>): seq<string> {
    seq(|costs|, i requires 0 <= i < |costs| => costs[i].id)
  }

  /** All its fields that are names. */
  function NameFields(q: Qualification): seq<string> {
    SingleNames(q) + q.context.checks + q.context.restrictions + CostIds(q.costs)
  }

  predicate NameField(s: string) {
    1 <= |s| <= 120 && NameText(s)
  }

  predicate HashField(s: string) {
    |s| == 64 && forall i :: 0 <= i < 64 ==> s[i] in "0123456789abcdef"
  }

  lemma NameFieldIs(s: string)
    ensures NameField(s) <==> ValidName(s)
  {
  }

  lemma HashFieldIs(s: string)
    ensures HashField(s) <==> ValidHash(s)
  {
    var digits := "0123456789abcdef";
    forall c: char ensures c in digits <==> '0' <= c <= '9' || 'a' <= c <= 'f' {
      if '0' <= c <= '9' { assert digits[c as int - '0' as int] == c; }
      if 'a' <= c <= 'f' { assert digits[c as int - 'a' as int + 10] == c; }
    }
  }

  lemma NamesSplit(q: Qualification)
    ensures (forall s :: s in NameFields(q) ==> ValidName(s)) <==>
      && ValidName(q.memoryId) && ValidName(q.updateId)
      && var c := q.context;
        && ValidName(c.workspace) && ValidName(c.receiver) && ValidName(c.mission) && ValidName(c.taskFamily)
        && ValidName(c.context) && ValidName(c.protocol) && ValidName(c.evaluator) && ValidName(c.toolVersion)
        && ValidName(c.clock)
        && (forall k :: k in c.checks ==> ValidName(k)) && (forall k :: k in c.restrictions ==> ValidName(k))
        && (forall i :: 0 <= i < |q.costs| ==> ValidName(q.costs[i].id))
  {
    hide ValidName;
    var single := SingleNames(q);
    assert forall i :: 0 <= i < 11 ==> single[i] in single;
    assert single[0] == q.memoryId && single[1] == q.updateId && single[2] == q.context.workspace
        && single[3] == q.context.receiver && single[4] == q.context.mission && single[5] == q.context.taskFamily
        && single[6] == q.context.context && single[7] == q.context.protocol && single[8] == q.context.evaluator
        && single[9] == q.context.toolVersion && single[10] == q.context.clock;
    hide SingleNames, CostIds;
    IdsListed(q.costs);
    assert forall s :: s in NameFields(q) <==>
      s in single || s in q.context.checks || s in q.context.restrictions || s in CostIds(q.costs);
  }

  lemma IdsListed(costs: seq<Cost>)
    ensures (forall s :: s in CostIds(costs) ==> ValidName(s)) <==> forall i :: 0 <= i < |costs| ==>
      ValidName(costs[i].id)
  {
    hide ValidName;
    var ids := CostIds(costs);
    forall i | 0 <= i < |costs| ensures costs[i].id in ids { assert ids[i] in ids; }
  }

  /**
   A qualification validates exactly when names have 1 to 120 characters of names, digests 64 hexadecimal
   digits, times fit 31 bits, lists are short and without repetition, and sources and costs are few enough.
  */
  lemma ValidQualificationIff(q: Qualification)
    ensures ValidQualification(q) <==>
      && (forall s :: s in NameFields(q) ==> NameField(s))
      && (forall s :: s in [q.workflowDigest] + q.context.dependencies ==> HashField(s))
      && (forall t :: t in [q.validFrom, q.validUntil, q.cutoff] ==> 0 <= t <= 0x8000_0000)
      && ShortList(q.context.inputs, 1) && ShortList(q.context.dependencies, 1) && ShortList(q.context.checks, 1)
      && ShortList(q.context.restrictions, 0)
      && q.training.Array? && 2 <= |q.training.items| <= 8 && q.evaluation.Array? && 1 <= |q.evaluation.items| <= 8
      && q.formation.Object? && q.candidate.Object? && q.offer.Object? && q.mapping.Object?
      && 1 <= |q.costs| <= 32 && forall i :: 0 <= i < |q.costs| ==> Rational.Exact(q.costs[i].amount)
  {
    hide NameFields, NameField, HashField, ValidName, ValidHash, Distinct, ShortList, Rational.Exact;
    NamesSplit(q);
    forall s ensures NameField(s) <==> ValidName(s) { NameFieldIs(s); }
    forall s ensures HashField(s) <==> ValidHash(s) { HashFieldIs(s); }
    ShortListIs(q.context.inputs, 1);
    ShortListIs(q.context.dependencies, 1);
    ShortListIs(q.context.checks, 1);
    ShortListIs(q.context.restrictions, 0);
    TicksListed(q);
    HashesListed(q);
    CostsListed(q.costs);
  }

  lemma TicksListed(q: Qualification)
    ensures (forall t :: t in [q.validFrom, q.validUntil, q.cutoff] ==> 0 <= t <= 0x8000_0000) <==>
      ValidTick(q.validFrom) && ValidTick(q.validUntil) && ValidTick(q.cutoff)
  {
    var all := [q.validFrom, q.validUntil, q.cutoff];
    assert all[0] in all && all[1] in all && all[2] in all;
  }

  lemma HashesListed(q: Qualification)
    ensures (forall s :: s in [q.workflowDigest] + q.context.dependencies ==> ValidHash(s)) <==>
      ValidHash(q.workflowDigest) && forall d :: d in q.context.dependencies ==> ValidHash(d)
  {
    hide ValidHash;
    assert q.workflowDigest in [q.workflowDigest];
  }

  lemma CostsListed(costs: seq<Cost>)
    ensures (forall c :: c in costs ==> ValidCost(c)) <==>
      && (forall i :: 0 <= i < |costs| ==> ValidName(costs[i].id))
      && forall i :: 0 <= i < |costs| ==> Rational.Exact(costs[i].amount)
  {
    hide ValidName, Rational.Exact;
    assert forall i :: 0 <= i < |costs| ==> costs[i] in costs;
    if forall c :: c in costs ==> ValidCost(c) {
      forall i | 0 <= i < |costs| ensures ValidName(costs[i].id) && Rational.Exact(costs[i].amount) {
        assert ValidCost(costs[i]);
      }
    }
  }
}
