/**
 The certification operations of the kernel. Each reads the tables and then makes a list of writes, one
 transaction each; it ends early when it raises, and a crash may cut it between any two writes.
*/
module Pipeline {
  import opened Basics
  import opened Records
  import opened Evidence
  import opened Tables
  import Native
  import Rational

  /** What an operation writes in order, and what it returns if every write succeeds. */
  datatype Plan<T> = Plan(writes: seq<Write>, result: Result<T>)

  function Refuse<T>(error: Error): Plan<T> {
    Plan([], Err(error))
  }

  // ---- Events.

  /** `Event.create`: the nonce stands for the random part and the time of the seed. */
  function MakeEvent(nonce: nat, run: Text, kind: string, payload: Json, parents: seq<Text>): (e: Event)
    ensures e.id.EventId? && e.payloadDigest == PayloadHash(e.payload)
  {
    var d := PayloadHash(payload);
    Event(EventId(EventSeed(nonce, run, kind, d, parents)), nonce, run, kind, payload, d, parents)
  }

  /** `str(metadata.get("run_id") or default)` for run ids that are strings. */
  function RunOf(metadata: map<Text, Json>, otherwise: string): Text {
    match Get(metadata, "run_id")
    case Some(Str(run)) => if run == Plain("") then Plain(otherwise) else run
    case _ => Plain(otherwise)
  }

  function SignatureOf(metadata: map<Text, Json>): Text {
    match Get(metadata, "interface_signature")
    case Some(Str(signature)) => signature
    case _ => Plain("agent.workflow.v1")
  }

  function MemoryRef(r: MemoryRecord): Json {
    Object(map[
      Plain("memory_id") := Str(r.memoryId),
      Plain("update_id") := Str(r.updateId),
      Plain("content_digest") := Str(ContentHash(ContentOf(r)))
    ])
  }

  function OperationName(op: Operation): string {
    match op
    case Wrote => "write"
    case Replaced => "replace"
    case Deleted => "delete"
    case Read => "read"
    case Used => "use"
    case Verified => "verify"
    case Corrected => "correct"
    case Promoted => "promote"
  }

  function OperationPayload(op: Operation, memories: seq<MemoryRecord>, details: map<Text, Json>): Json {
    Object(map[
      Plain("operation") := Str(Plain(OperationName(op))),
      Plain("memory_ids") := Array(seq(|memories|, i requires 0 <= i < |memories| => Str(memories[i].memoryId))),
      Plain("memory_refs") := Array(seq(|memories|, i requires 0 <= i < |memories| => MemoryRef(memories[i]))),
      Plain("details") := Object(details)
    ])
  }

  /** `record_memory_operation` */
  function OperationEvent(
      nonce: nat, op: Operation, run: Text, memories: seq<MemoryRecord>, details: map<Text, Json>): (e: Event)
    ensures e.id.EventId?
  {
    MakeEvent(nonce, run, "memory_" + OperationName(op), OperationPayload(op, memories, details), [])
  }

  // ---- Observing and proposing.

  /** `observe`: the claim is what the kernel makes of kind and payload. */
  function ObservePlan(
    db: Db, kind: string, payload: Json, run: Text, parents: seq<Text>, claim: string, indexed: bool,
    nonce: nat): Plan<Event>
  {
    var event := MakeEvent(nonce, run, kind, payload, parents);
    if !Digestible(payload) then Refuse(InvalidModel)
    else if !indexed then Plan([PutEvent(event)], Ok(event))
    else
      var metadata := map[
        Plain("kind") := Str(Plain(kind)), Plain("run_id") := Str(run), Plain("obs_seq") := Int(|db.events| + 1)];
      match CreateRecord(Raw, Content(claim, [event.id], metadata, [], []))
      case Err(error) => Plan([PutEvent(event)], Err(error))
      case Ok(record) =>
        Plan([PutEvent(event), PutRecord(Change(record, Wrote, "", None, Some(event.id)))], Ok(event))
  }

  function EventIds(events: seq<Event>): (r: seq<Text>)
    ensures |r| == |events| && forall i :: 0 <= i < |r| ==> r[i] == events[i].id
  {
    seq(|events|, i requires 0 <= i < |events| => events[i].id)
  }

  function Kinds(events: seq<Event>): (r: seq<string>)
    ensures |r| == |events| && forall i :: 0 <= i < |r| ==> r[i] == events[i].kind
  {
    seq(|events|, i requires 0 <= i < |events| => events[i].kind)
  }

  function Listed(names: seq<string>): string {
    if names == [] then "" else if |names| == 1 then names[0] else names[0] + ", " + Listed(names[1..])
  }

  function ProposalClaim(events: seq<Event>): string {
    "Workflow candidate from " + Rational.PrintNat(|events|) + " observable event(s): "
    + Listed(Native.SortedSet(Kinds(events)))
  }

  function PlainStrings(names: seq<string>): Json {
    Array(seq(|names|, i requires 0 <= i < |names| => Str(Plain(names[i]))))
  }

  function Clamp(low: int, n: int, high: int): int {
    if n < low then low else if n > high then high else n
  }

  /** What the caller of a proposal chooses. */
  datatype Proposal = Proposal(
    run: Text, scope: string, tools: Option<seq<Text>>, caps: Option<Dict>, signature: Option<Text>)

  /** The caps asked for, taken as they are, or a default from the number of events. */
  function CapsFor(p: Proposal, count: nat): Dict {
    if p.caps.Some? then p.caps.value else map[Plain("max_steps") := Int(Clamp(1, count + 1, 32))]
  }

  function ProposedMetadata(p: Proposal, events: seq<Event>): map<Text, Json> {
    map[
      Plain("scope") := Str(Plain(p.scope)),
      Plain("steps") := PlainStrings(Kinds(events)),
      Plain("tools") := Array(Strings(if p.tools.Some? then p.tools.value else [])),
      Plain("resource_caps") := Object(CapsFor(p, |events|)),
      Plain("input_event_ids") := Array(Strings(EventIds(events))),
      Plain("proposal_scope") := Str(Plain(p.scope)),
      Plain("run_id") := Str(p.run),
      Plain("interface_signature") :=
        Str(if p.signature.Some? && p.signature.value != Plain("") then p.signature.value
            else Plain("agent.workflow.v1"))
    ]
  }

  /** The proposer's record is created once, which strips its claim, and again with the full metadata. */
  function ProposedContent(p: Proposal, events: seq<Event>): Content {
    Content(Strip(ProposalClaim(events)), EventIds(events), ProposedMetadata(p, events), [], [])
  }

  function ProposePlan(db: Db, p: Proposal): Plan<MemoryRecord> {
    var events := EventsOf(db.events, p.run);
    if events == [] then Refuse(Rejected)
    else
      match CreateRecord(Candidate, ProposedContent(p, events))
      case Err(error) => Refuse(error)
      case Ok(record) => Plan([PutRecord(Change(record, Wrote, "proposed from run", None, None))], Ok(record))
  }

  // ---- Verification.

  function EventDigest(events: seq<Event>, id: Text): Option<Text> {
    if events == [] then None
    else if events[0].id == id then Some(events[0].payloadDigest)
    else EventDigest(events[1..], id)
  }

  function Missing(events: seq<Event>, ids: seq<Text>): seq<Text> {
    if ids == [] then []
    else if EventDigest(events, ids[0]).None? then [ids[0]] + Missing(events, ids[1..])
    else Missing(events, ids[1..])
  }

  function Found(events: seq<Event>, sources: seq<Text>): map<Text, Text> {
    map s | s in sources && EventDigest(events, s).Some? :: EventDigest(events, s).value
  }

  /** `_collect_event_digests` */
  function Collect(events: seq<Event>, sources: seq<Text>): Authority {
    Authority(Found(events, sources), Missing(events, sources))
  }

  function Bound(intent: Option<ActionIntent>): Option<Text> {
    if intent.Some? then Some(intent.value.id) else None
  }

  /** `PromotionReceipt.create` */
  function MakeReceipt(
    r: MemoryRecord, strict: bool, checks: seq<CheckResult>, refs: seq<Text>, bound: Option<Text>,
    verification: nat): Receipt
  {
    var seed := ReceiptSeed(r.memoryId, r.updateId, bound, strict, checks, AllPassed(checks), refs);
    Receipt(ReceiptId(verification, ReceiptHash(seed)), verification, ReceiptHash(seed), seed)
  }

  function EvidenceRefs(m: Manifest, bound: Option<Text>): seq<Text> {
    [m.id, m.replay] + if bound.Some? then [bound.value] else []
  }

  function CheckJson(c: CheckResult): Json {
    Object(map[Plain("checker_name") := Str(Plain(c.checker)), Plain("passed") := Bool(c.passed)])
  }

  function ReceiptDetails(q: Receipt): map<Text, Json> {
    map[
      Plain("receipt_id") := Str(q.id),
      Plain("verification_id") := Int(q.verification),
      Plain("receipt_digest") := Str(q.digest)
    ]
  }

  function VerifyDetails(q: Receipt, m: Manifest): map<Text, Json> {
    var checks := q.seed.checks;
    ReceiptDetails(q)[
      Plain("result") := Str(Plain(if q.seed.passed then "passed" else "failed"))][
      Plain("checks") := Array(seq(|checks|, i requires 0 <= i < |checks| => CheckJson(checks[i])))][
      Plain("evidence_refs") := Array(Strings([m.id, m.replay]))]
  }

  function PromoteDetails(q: Receipt, contract: Contract, r: MemoryRecord): map<Text, Json> {
    ReceiptDetails(q)[
      Plain("workflow_contract_id") := Str(contract.id)][
      Plain("supersedes") := Array(Strings(r.supersedes))]
  }

  datatype Setting = Setting(readers: Readers, strict: bool)

  /** The manifest that verification builds first; none when building it raises. */
  function BuiltManifest(setting: Setting, db: Db, r: MemoryRecord, created: Json): Option<Manifest> {
    if ToolsOf(r).None? || CapsOf(r).None? then None
    else CreateManifest(setting.readers, r, Collect(db.events, r.sources).digests, ToolsOf(r).value, CapsOf(r).value,
                        created)
  }

  function ReceiptFor(
    setting: Setting, db: Db, r: MemoryRecord, m: Manifest, intent: Option<ActionIntent>, verification: nat): Receipt
  {
    var checks := CheckAll(setting.readers, r, Dump(m), intent, Collect(db.events, r.sources));
    MakeReceipt(r, setting.strict, checks, EvidenceRefs(m, Bound(intent)), Bound(intent), verification)
  }

  /** `verify`: the lane table is not consulted; whatever fails goes to quarantine from wherever it is. */
  function VerifyPlan(
    setting: Setting, db: Db, id: Text, intent: Option<ActionIntent>, nonce: nat, verification: nat, created: Json)
    : Plan<Receipt>
  {
    if id !in db.records then Refuse(UnboundReference)
    else
      var r := db.records[id].raw;
      match BuiltManifest(setting, db, r, created)
      case None => Refuse(InvalidModel)
      case Some(m) =>
        var q := ReceiptFor(setting, db, r, m, intent, verification);
        var run := RunOf(r.metadata, "verification");
        var event := MakeEvent(nonce, run, "memory_verify", OperationPayload(Verified, [r], VerifyDetails(q, m)),
                               r.sources);
        var lane := if q.seed.passed then Shadow else Quarantine;
        var moved := Moved(r, lane, if q.seed.passed then "verified in shadow lane" else "", Some(q.id));
        Plan([PutManifest(m), PutReceipt(q), PutEvent(event),
              PutRecord(Change(moved, Verified, moved.reason, Some(q.id), None))], Ok(q))
  }

  // ---- Promotion.

  predicate Passing(q: Receipt, update: Text) {
    q.seed.passed && q.seed.checks != [] && AllPassed(q.seed.checks) && q.seed.update == update
  }

  /** The last passing receipt for the update. */
  function LastPassing(receipts: seq<Receipt>, update: Text): Option<Receipt> {
    if receipts == [] then None
    else
      var last := receipts[|receipts| - 1];
      if Passing(last, update) then Some(last) else LastPassing(receipts[..|receipts| - 1], update)
  }

  function CheckerNames(checks: seq<CheckResult>): seq<string> {
    seq(|checks|, i requires 0 <= i < |checks| => checks[i].checker)
  }

  /** `WorkflowContract.from_candidate` */
  function ContractOf(r: MemoryRecord, q: Receipt, clock: nat): Contract {
    Contract(ContractId(ContractSeed(r.memoryId, r.updateId, r.claim, r.sources, q.id, q.digest)),
             r.memoryId, r.updateId, q.id, q.digest, ContentHash(ContentOf(r)), r.sources, CheckerNames(q.seed.checks),
             clock)
  }

  function CertifiedBy(r: MemoryRecord, q: Receipt, contract: Contract): MemoryRecord {
    r.(lane := Certified, contractId := Some(contract.id), receiptId := Some(q.id),
       reason := "promoted with passing receipt")
  }

  function SupersededBy(r: MemoryRecord, q: Text): Change {
    Change(Moved(r, Superseded, "superseded", Some(q)), Replaced, "superseded", Some(q), None)
  }

  /**
   The loop over superseded memories: each is read as the writes so far have left it. It stops at a
   memory that is missing or may not move; what was written before stays.
  */
  function SupersedeWrites(db: Db, ids: seq<Text>, q: Text): Plan<bool>
    decreases |ids|
  {
    if ids == [] then Plan([], Ok(true))
    else if ids[0] !in db.records then Refuse(UnboundReference)
    else if !MayMove(db.records[ids[0]].lane, Superseded) then Refuse(Rejected)
    else
      var w := PutRecord(SupersededBy(db.records[ids[0]].raw, q));
      var rest := SupersedeWrites(Written(db, w), ids[1..], q);
      Plan([w] + rest.writes, rest.result)
  }

  /** What a promotion writes: contract, certified record, superseded memories, event. */
  datatype Promotion = Promotion(
    contract: Contract, certified: MemoryRecord, supersedes: seq<Text>, receipt: Text, event: Event)

  /** `promote` up to its first write. */
  function Promotes(db: Db, id: Text, nonce: nat, clock: nat): Result<Promotion> {
    if id !in db.records then Err(UnboundReference)
    else
      var r := db.records[id].raw;
      match LastPassing(ReceiptsOf(db.receipts, id), r.updateId)
      case None => Err(Rejected)
      case Some(q) =>
        if !MayMove(r.lane, Certified) then Err(Rejected)
        else
          var contract := ContractOf(r, q, clock);
          var certified := CertifiedBy(r, q, contract);
          var event := MakeEvent(nonce, RunOf(r.metadata, "promotion"), "memory_promote",
                                 OperationPayload(Promoted, [certified], PromoteDetails(q, contract, r)), r.sources);
          Ok(Promotion(contract, certified, r.supersedes, q.id, event))
  }

  function FirstWrites(m: Promotion): (ws: seq<Write>)
    ensures |ws| == 2
  {
    [PutContract(m.contract), PutRecord(Change(m.certified, Promoted, m.certified.reason, Some(m.receipt), None))]
  }

  function PromotePlan(db: Db, id: Text, nonce: nat, clock: nat): Plan<MemoryRecord> {
    match Promotes(db, id, nonce, clock)
    case Err(error) => Refuse(error)
    case Ok(m) =>
      var first := FirstWrites(m);
      var rest := SupersedeWrites(Written(Written(db, first[0]), first[1]), m.supersedes, m.receipt);
      match rest.result
      case Err(error) => Plan(first + rest.writes, Err(error))
      case Ok(_) => Plan(first + rest.writes + [PutEvent(m.event)], Ok(m.certified))
  }

  // ---- Correction, retirement, contradiction, supersession.

  function CorrectedMetadata(original: MemoryRecord, run: Text, inputs: nat): map<Text, Json> {
    map[
      Plain("proposal_scope") := Str(Plain("correction")),
      Plain("run_id") := Str(run),
      Plain("corrected_from") := Str(original.memoryId),
      Plain("interface_signature") := Str(SignatureOf(original.metadata)),
      Plain("resource_caps") := Object(CapsJson(map[Plain("max_steps") := Clamp(1, inputs * 2, 32)])),
      Plain("steps") := PlainStrings(["Correct memory", "Verify supporting observable correction events"])
    ]
  }

  function CorrectPlan(
      db: Db, id: Text, claim: string, run: Option<Text>, sources: seq<Text>, nonce: nat): Plan<MemoryRecord> {
    if id !in db.records then Refuse(UnboundReference)
    else
      var original := db.records[id].raw;
      var actual := if run.Some? && run.value != Plain("") then run.value else RunOf(original.metadata, "correction");
      var details := map[
        Plain("corrected_claim") := Str(Plain(claim)), Plain("supporting_source_event_ids") := Array(Strings(sources))];
      var event := OperationEvent(nonce, Corrected, actual, [original], details);
      var inputs := [event.id] + sources;
      match CreateRecord(Candidate, Content(claim, inputs, CorrectedMetadata(original, actual, |inputs|), [id], []))
      case Err(error) => Plan([PutEvent(event)], Err(error))
      case Ok(record) =>
        Plan([PutEvent(event), PutRecord(Change(record, Corrected, "correction candidate", None, Some(event.id)))],
             Ok(record))
  }

  function RetirePlan(db: Db, id: Text, reason: string, nonce: nat): Plan<MemoryRecord> {
    if id !in db.records then Refuse(UnboundReference)
    else
      var r := db.records[id].raw;
      if !MayMove(r.lane, Tombstone) then Refuse(Rejected)
      else
        var retired := Moved(r, Tombstone, reason, None);
        var event := OperationEvent(nonce, Deleted, RunOf(r.metadata, "retire"), [retired],
                                    map[Plain("reason") := Str(Plain(reason))]);
        Plan([PutRecord(Change(retired, Deleted, reason, retired.receiptId, None)), PutEvent(event)], Ok(retired))
  }

  function ContradictedMetadata(original: MemoryRecord, run: Text, reason: string): map<Text, Json> {
    map[
      Plain("proposal_scope") := Str(Plain("contradiction")),
      Plain("run_id") := Str(run),
      Plain("reason") := Str(Plain(reason)),
      Plain("interface_signature") := Str(SignatureOf(original.metadata)),
      Plain("tools") := Array([]),
      Plain("resource_caps") := Object(CapsJson(map[Plain("max_steps") := 4]))
    ]
  }

  function ContradictPlan(
      db: Db, id: Text, claim: string, sources: seq<Text>, reason: string, nonce: nat): Plan<MemoryRecord> {
    if id !in db.records then Refuse(UnboundReference)
    else
      var original := db.records[id].raw;
      var run := RunOf(original.metadata, "contradiction");
      var details := map[
        Plain("claim") := Str(Plain(claim)), Plain("reason") := Str(Plain(reason)),
        Plain("source_event_ids") := Array(Strings(sources))];
      var event := OperationEvent(nonce, Corrected, run, [original], details);
      match CreateRecord(Contradiction,
                         Content(claim, [event.id] + sources, ContradictedMetadata(original, run, reason), [], [id]))
      case Err(error) => Plan([PutEvent(event)], Err(error))
      case Ok(record) =>
        Plan([PutEvent(event), PutRecord(Change(record, Corrected, reason, None, Some(event.id)))], Ok(record))
  }

  function ReceiptAt(receipts: seq<Receipt>, id: Text): Option<Receipt> {
    if receipts == [] then None
    else if receipts[0].id == id then Some(receipts[0])
    else ReceiptAt(receipts[1..], id)
  }

  /** Why `supersede` raises before it writes, if it does. */
  function SupersedeRefusal(db: Db, earlier: Text, newer: Text, receipt: Text): Option<Error> {
    if earlier !in db.records || newer !in db.records then Some(UnboundReference)
    else if ReceiptAt(db.receipts, receipt).None? then Some(UnboundReference)
    else
      var q := ReceiptAt(db.receipts, receipt).value;
      if db.records[newer].lane != Certified || !q.seed.passed || q.seed.candidate != newer then Some(Rejected)
      else if !MayMove(db.records[earlier].lane, Superseded) then Some(Rejected)
      else None
  }

  /** The event goes to the run of the newer memory and refers to both as they are after the move. */
  function SupersedeEvent(first: MemoryRecord, second: MemoryRecord, receipt: Text, nonce: nat): (e: Event)
    ensures e.id.EventId?
  {
    var moved := SupersededBy(first, receipt).record;
    var latest := if second.memoryId == first.memoryId then moved else second;
    OperationEvent(nonce, Replaced, RunOf(second.metadata, "supersede"), [moved, latest],
                   map[Plain("receipt_id") := Str(receipt)])
  }

  function SupersedePlan(db: Db, earlier: Text, newer: Text, receipt: Text, nonce: nat): Plan<MemoryRecord> {
    match SupersedeRefusal(db, earlier, newer, receipt)
    case Some(error) => Refuse(error)
    case None =>
      var first, second := db.records[earlier].raw, db.records[newer].raw;
      var c := SupersededBy(first, receipt);
      Plan([PutRecord(c), PutEvent(SupersedeEvent(first, second, receipt, nonce))], Ok(c.record))
  }

  // ---- Runs.

  datatype Step =
    | Observing(kind: string, payload: Json, run: Text, parents: seq<Text>, claim: string, indexed: bool, nonce: nat)
    | Proposing(proposal: Proposal)
    | Verifying(id: Text, intent: Option<ActionIntent>, nonce: nat, verification: nat, created: Json)
    | Promoting(id: Text, nonce: nat, clock: nat)
    | Correcting(id: Text, claim: string, into: Option<Text>, sources: seq<Text>, nonce: nat)
    | Retiring(id: Text, reason: string, nonce: nat)
    | Contradicting(id: Text, claim: string, sources: seq<Text>, reason: string, nonce: nat)
    | Superseding(earlier: Text, newer: Text, receipt: Text, nonce: nat)

  function WritesOf(setting: Setting, db: Db, step: Step): seq<Write> {
    match step
    case Observing(kind, payload, run, parents, claim, indexed, nonce) =>
      ObservePlan(db, kind, payload, run, parents, claim, indexed, nonce).writes
    case Proposing(p) => ProposePlan(db, p).writes
    case Verifying(id, intent, nonce, verification, created) =>
      VerifyPlan(setting, db, id, intent, nonce, verification, created).writes
    case Promoting(id, nonce, clock) => PromotePlan(db, id, nonce, clock).writes
    case Correcting(id, claim, run, sources, nonce) => CorrectPlan(db, id, claim, run, sources, nonce).writes
    case Retiring(id, reason, nonce) => RetirePlan(db, id, reason, nonce).writes
    case Contradicting(id, claim, sources, reason, nonce) =>
      ContradictPlan(db, id, claim, sources, reason, nonce).writes
    case Superseding(earlier, newer, receipt, nonce) => SupersedePlan(db, earlier, newer, receipt, nonce).writes
  }

  /** The stamp that `now_utc` prints reads back as a time; an empty run id is replaced before use. */
  predicate ValidStep(setting: Setting, step: Step) {
    && (step.Verifying? ==> setting.readers.stamp(step.created) && !HasFloat(step.created))
    && (step.Observing? ==> step.run != Plain(""))
  }

  /** An operation cut after some number of writes; a cut past the end is no cut. */
  datatype Move = Move(step: Step, cut: nat)

  function After(setting: Setting, db: Db, m: Move): Db {
    WrittenAll(db, Take(WritesOf(setting, db, m.step), m.cut))
  }

  /** The tables after a run from fresh storage, last move last. */
  function RunDb(setting: Setting, moves: seq<Move>): Db {
    if moves == [] then EMPTY_DB
    else After(setting, RunDb(setting, moves[..|moves| - 1]), moves[|moves| - 1])
  }
}
