/**
 The transactions of the receiver runtime, each as a function of the rows and the host it finds. The
 methods that carry them out are in `Receiver`.
*/
module Runtime {
  import opened Basics
  import opened Wire
  import opened Models
  import opened Journal
  import opened Store
  import opened Eligibility
  import opened Retrieval

  type Profiles = map<string, Context>

  // ---- Admission.

  /** One chained cost entry for every obligation that is not on record yet. */
  ghost function CostBatch(rows: seq<Entry>, batch: seq<Entry>, costs: seq<Cost>, now: int): Result<seq<Entry>>
    decreases |costs|
  {
    if costs == [] then Ok(batch)
    else
      var s :- Replay(rows + batch);
      if costs[0].id in s.facts.costs then CostBatch(rows, batch, costs[1..], now)
      else
        var e :- Event(PayCost(costs[0]), CostEventId(costs[0]), now, rows + batch);
        CostBatch(rows, batch + [e], costs[1..], now)
  }

  predicate EligibleForAll(host: Host, q: Qualification, context: Context, now: int, f: Facts) {
    && (context.inputs == [] || ValidTick(now))
    && forall i :: 0 <= i < |context.inputs| ==> Eligible(host, q, context, context.inputs[i], now, f)
  }

  ghost function AdmitRows(
    rows: seq<Entry>, host: Host, profiles: Profiles, q: Qualification, now: int, expected: Digest): Result<Appended>
  {
    if q.context.receiver !in profiles || profiles[q.context.receiver] != q.context then Err(Rejected)
    else if !Readable(rows) then Err(ByteLimit)
    else
      var found :- Replay(rows);
      if Revision(found) != expected then Err(StaleRevision)
      else if !Premises(host, q, now) then Err(Rejected)
      else
        var batch :- CostBatch(rows, [], q.costs, now);
        var s :- Replay(rows + batch);
        if !EligibleForAll(host, q, q.context, now, s.facts) then Err(Rejected)
        else if q in s.facts.qualifications then Ok(Appended(rows, expected))
        else
          var e :- Event(Admit(q), AdmitEventId(q), now, rows + batch);
          Append(rows, batch + [e], expected)
  }

  // ---- Host records.

  predicate Recordable(b: Body) {
    KindName(b) in {"invalidate", "withdraw", "allegation", "cost", "correction"}
  }

  ghost function RecordRows(rows: seq<Entry>, body: Body, id: Id, now: int, expected: Digest): Result<Appended> {
    if !Recordable(body) then Err(Rejected)
    else if !Readable(rows) then Err(ByteLimit)
    else
      var e :- Event(body, id, now, rows);
      Append(rows, [e], expected)
  }

  // ---- Exposure.

  const RUN_LIMIT := 8

  ghost function ExposureBatch(
    rows: seq<Entry>, batch: seq<Entry>, views: seq<View>, input: string, now: int, snapshot: Digest, index: nat)
    : Result<seq<Entry>>
    decreases |views|
  {
    if views == [] then Ok(batch)
    else
      var e :- Event(Expose(views[0].qualification, input), ExposureEventId(snapshot, index), now, rows + batch);
      ExposureBatch(rows, batch + [e], views[1..], input, now, snapshot, index + 1)
  }

  /** `run`, given the views that retrieval returns; they are unique by `RankingUnique`. */
  ghost function RunRows(
    rows: seq<Entry>, host: Host, profiles: Profiles, receiver: string, input: string, now: int, query: Query,
    views: seq<View>): Result<Appended>
  {
    if receiver !in profiles then Err(Rejected)
    else if !Readable(rows) then Err(ByteLimit)
    else
      var s :- Replay(rows);
      if s.facts.qualifications != [] && !ValidTick(now) then Err(InvalidModel)
      else if !IsRetrieval(host, profiles[receiver], input, now, query, RUN_LIMIT, s, views) then Err(Rejected)
      else
        var batch :- ExposureBatch(rows, [], views, input, now, Revision(s), 0);
        Append(rows, batch, Revision(s))
  }

  // ---- Use, first transaction: reserve.

  /** `admissible` stands for the profile, tool, argument, receipt and action gate checks made before. */
  datatype UseCall = UseCall(
    qualification: Digest, input: string, identity: Id, now: int, expected: Digest, action: Tree, cost: Cost,
    admissible: bool)

  /** What the second transaction of a use keeps of the first. */
  datatype Ticket = Ticket(
    identity: Id, q: Qualification, context: Context, input: string, now: int, reserved: Digest)

  datatype Reservation =
    | Refused
    | Duplicate(service: bool)
    | Reserved(rows: seq<Entry>, ticket: Ticket)

  predicate Unresolved(f: Facts, i: Id) {
    && i in f.intents
    && (i in f.checked ==> i !in f.outcomes || f.outcomes[i].status != Received)
  }

  predicate PendingInScope(f: Facts, qualification: Digest, input: string) {
    exists i :: i in f.intents && Unresolved(f, i)
                && f.intents[i].qualification == qualification && f.intents[i].input == input
  }

  predicate SameUse(f: Facts, call: UseCall)
    requires call.identity in f.intents
  {
    var n := f.intents[call.identity];
    && n.qualification == call.qualification
    && n.input == call.input
    && n.action == call.action
    && n.cost == call.cost.id
    && Paid(f, call.cost)
  }

  /** The registered context of the receiver, when the reservation may go ahead. */
  predicate MayReserve(host: Host, profiles: Profiles, call: UseCall, s: State) {
    && !PendingInScope(s.facts, call.qualification, call.input)
    && Resolves(s.facts, call.qualification)
    && var q := call.qualification.qualification;
      && q.context.receiver in profiles
      && ValidTick(call.now)
      && Eligible(host, q, profiles[q.context.receiver], call.input, call.now, s.facts)
  }

  function IntentOf(call: UseCall): Intent {
    Intent(call.qualification, call.input, call.action, call.cost.id, call.expected)
  }

  ghost function ReserveBatch(rows: seq<Entry>, call: UseCall): Result<seq<Entry>> {
    var pay :- Event(PayCost(call.cost), UseCostEventId(call.cost), call.now, rows);
    var intend :- Event(Intend(IntentOf(call)), call.identity, call.now, rows + [pay]);
    Ok([pay, intend])
  }

  ghost function ReserveRows(rows: seq<Entry>, host: Host, profiles: Profiles, call: UseCall): Reservation {
    if !call.admissible || call.cost.stage != Use || !Readable(rows) || Replay(rows).Err? then Refused
    else
      var s := Replay(rows).value;
      if Revision(s) != call.expected then Refused
      else if call.identity in s.facts.intents then
        if SameUse(s.facts, call) then Duplicate(call.identity in s.facts.services) else Refused
      else if !MayReserve(host, profiles, call, s) then Refused
      else
        match ReserveBatch(rows, call)
        case Err(_) => Refused
        case Ok(batch) =>
          match Append(rows, batch, call.expected)
          case Err(_) => Refused
          case Ok(a) =>
            var q := call.qualification.qualification;
            Reserved(a.rows, Ticket(call.identity, q, profiles[q.context.receiver], call.input, call.now, a.revision))
  }

  // ---- Use, second transaction: recheck under the write fence, invoke, record.

  /** What `invoke_tool` comes to; `Raises` covers every exception it lets through. */
  datatype ToolResult = Answers(text: string) | TimesOut | Fails | Raises

  function AnswerOf(result: ToolResult): Answer {
    match result
    case Answers(text) => Answer(text, Received)
    case TimesOut => Answer("", Timeout)
    case _ => Answer("", Lost)
  }

  function OutcomeBody(i: Id, result: ToolResult): Body {
    Outcome(i, AnswerOf(result).output, AnswerOf(result).status)
  }

  /** `Ran` when the tool was invoked, whether or not the records of it were committed. */
  datatype Execution = Fenced | Ran(committed: Result<Appended>)

  predicate FenceHolds(host: Host, t: Ticket, s: State) {
    && Revision(s) == t.reserved
    && ValidTick(t.now)
    && Eligible(host, t.q, t.context, t.input, t.now, s.facts)
  }

  /** The three records that follow the attempt. */
  ghost function ClosingBatch(rows: seq<Entry>, attempt: Entry, t: Ticket, result: ToolResult): Result<seq<Entry>> {
    var outcome :- Event(OutcomeBody(t.identity, result), t.identity + Text("-outcome"), t.now, rows + [attempt]);
    var check :- Event(Check(t.identity, CHECKER), t.identity + Text("-check"), t.now, rows + [attempt, outcome]);
    var close :- Event(Reconcile(t.identity), t.identity + Text("-reconcile"), t.now, rows + [attempt, outcome, check]);
    Ok([attempt, outcome, check, close])
  }

  /** The records of a tool call; none when the call raised. */
  ghost function CloseRows(rows: seq<Entry>, attempt: Entry, t: Ticket, result: ToolResult): Result<Appended> {
    if result.Raises? then Err(Rejected)
    else
      var batch :- ClosingBatch(rows, attempt, t, result);
      Append(rows, batch, t.reserved)
  }

  ghost function ExecuteRows(rows: seq<Entry>, host: Host, t: Ticket, result: ToolResult): Execution {
    if !Readable(rows) || Replay(rows).Err? || !FenceHolds(host, t, Replay(rows).value) then Fenced
    else
      match Event(Attempt(t.identity), t.identity + Text("-attempt"), t.now, rows)
      case Err(_) => Fenced
      case Ok(attempt) =>
        Ran(CloseRows(rows, attempt, t, result))
  }
}
