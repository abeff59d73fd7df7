/**
 The persisted objects of the certification pipeline. A digest, and an id cut from one, is a free
 constructor over what was digested; every other string is `Plain`.
*/
module Records {
  import opened Basics

  datatype Lane = Raw | Candidate | Shadow | Certified | Superseded | Quarantine | Tombstone | Contradiction

  datatype Text =
    | Plain(text: string)
    | EventId(event: EventSeed)
    | MemoryId(lane: Lane, content: Content)
    | UpdateId(memory: Text, hash: Text)
    | ContentHash(content: Content)
    | PayloadHash(payload: Json)
    | ReplayHash(replay: ReplaySeed)
    | ManifestId(manifest: ManifestSeed)
    | ReceiptHash(receipt: ReceiptSeed)
    | ReceiptId(verification: nat, hash: Text)
    | ContractId(contract: ContractSeed)

  /** A JSON value. A float is its digits, and whether it is finite. */
  datatype Json =
    | Null
    | Bool(flag: bool)
    | Int(number: int)
    | Float(digits: string, finite: bool)
    | Str(value: Text)
    | Array(items: seq<Json>)
    | Object(members: map<Text, Json>)

  datatype Content = Content(
    claim: string, sources: seq<Text>, metadata: map<Text, Json>, supersedes: seq<Text>, contradicts: seq<Text>)

  datatype EventSeed = EventSeed(nonce: nat, run: Text, kind: string, payload: Text, parents: seq<Text>)

  datatype ReplaySeed = ReplaySeed(
    candidate: Text, update: Text, claim: string, inputs: seq<Text>, digests: map<Text, Text>, hash: Text,
    tools: seq<Text>, caps: map<Text, Json>)

  datatype ManifestSeed = ManifestSeed(
    candidate: Text, update: Text, inputs: seq<Text>, digests: map<Text, Text>, hash: Text, replay: Text)

  datatype ReceiptSeed = ReceiptSeed(
    candidate: Text, update: Text, bound: Option<Text>, strict: bool, checks: seq<CheckResult>, passed: bool,
    refs: seq<Text>)

  datatype ContractSeed = ContractSeed(
    candidate: Text, update: Text, claim: string, sources: seq<Text>, receipt: Text, receiptHash: Text)

  datatype CheckResult = CheckResult(checker: string, passed: bool)

  datatype Event = Event(id: Text, nonce: nat, run: Text, kind: string, payload: Json, payloadDigest: Text,
                         parents: seq<Text>)

  datatype MemoryRecord = MemoryRecord(
    memoryId: Text, updateId: Text, lane: Lane, claim: string, sources: seq<Text>, supersedes: seq<Text>,
    contradicts: seq<Text>, contractId: Option<Text>, receiptId: Option<Text>, reason: string,
    metadata: map<Text, Json>)

  datatype Receipt = Receipt(id: Text, verification: nat, digest: Text, seed: ReceiptSeed)

  /** The bound parts of a workflow contract; `created` is the clock value stamped on it. */
  datatype Contract = Contract(
    id: Text, sourceMemory: Text, sourceUpdate: Text, receipt: Text, receiptHash: Text, candidateDigest: Text,
    sources: seq<Text>, checkers: seq<string>, created: nat)

  datatype Manifest = Manifest(
    schema: Text, id: Text, candidate: Text, update: Text, inputs: seq<Text>, digests: map<Text, Text>, hash: Text,
    replay: Text, tools: seq<Text>, caps: map<Text, int>, created: Json)

  datatype ActionIntent = ActionIntent(id: Text, tool: Text, caps: map<Text, int>)

  /** `text.startswith(prefix)` for the prefixes of ids; a bare digest has only hexadecimal digits. */
  predicate Starts(t: Text, prefix: string) {
    match t
    case Plain(s) => prefix <= s
    case EventId(_) => prefix == "evt_"
    case MemoryId(_, _) => prefix == "mem_"
    case UpdateId(_, _) => prefix == "upd_"
    case ManifestId(_) => prefix == "evm_"
    case ReceiptId(_, _) => prefix == "rcp_"
    case ContractId(_) => prefix == "wfc_"
    case _ => false
  }

  function Get(members: map<Text, Json>, key: string): Option<Json> {
    if Plain(key) in members then Some(members[Plain(key)]) else None
  }

  // ---- `str.strip`.

  const SPACES: set<char> := {
    '\t', '\n', '\U{000B}', '\U{000C}', '\r', '\U{001C}', '\U{001D}', '\U{001E}', '\U{001F}', ' ', '\U{0085}',
    '\U{00A0}', '\U{1680}', '\U{2000}', '\U{2001}', '\U{2002}', '\U{2003}', '\U{2004}', '\U{2005}', '\U{2006}',
    '\U{2007}', '\U{2008}', '\U{2009}', '\U{200A}', '\U{2028}', '\U{2029}', '\U{202F}', '\U{205F}', '\U{3000}'
  }

  function StripLeft(s: string): (r: string)
    ensures r == "" || r[0] !in SPACES
  {
    if s != "" && s[0] in SPACES then StripLeft(s[1..]) else s
  }

  function StripRight(s: string): (r: string)
    ensures r <= s && (r == "" || r[|r| - 1] !in SPACES)
  {
    if s != "" && s[|s| - 1] in SPACES then StripRight(s[..|s| - 1]) else s
  }

  function Strip(s: string): string {
    StripRight(StripLeft(s))
  }

  lemma StripIdempotent(s: string)
    ensures Strip(Strip(s)) == Strip(s)
  {
    var r := Strip(s);
    assert r != "" ==> r[0] == StripLeft(s)[0];
  }

  /** White space by code point. */
  predicate Blank(c: char) {
    var n := c as int;
    || 9 <= n <= 13 || 28 <= n <= 32 || n == 0x85 || n == 0xA0 || n == 0x1680 || 0x2000 <= n <= 0x200A
    || n == 0x2028 || n == 0x2029 || n == 0x202F || n == 0x205F || n == 0x3000
  }

  predicate AllBlank(s: string) {
    forall i :: 0 <= i < |s| ==> Blank(s[i])
  }

  lemma SpacesAreBlank(c: char)
    ensures c in SPACES <==> Blank(c)
  {
  }

  lemma {:induction false} StripLeftMeans(s: string)
    ensures exists before: string :: AllBlank(before) && s == before + StripLeft(s)
  {
    hide Blank;
    if s != "" && s[0] in SPACES {
      StripLeftMeans(s[1..]);
      var before: string :| AllBlank(before) && s[1..] == before + StripLeft(s[1..]);
      SpacesAreBlank(s[0]);
      var all := [s[0]] + before;
      assert s == all + StripLeft(s);
      assert AllBlank(all);
    } else {
      assert AllBlank("") && s == "" + StripLeft(s);
    }
  }

  lemma {:induction false} StripRightMeans(s: string)
    ensures exists after: string :: AllBlank(after) && s == StripRight(s) + after
    decreases |s|
  {
    hide Blank;
    var n := |s| - 1;
    if s != "" && s[n] in SPACES {
      StripRightMeans(s[..n]);
      var after: string :| AllBlank(after) && s[..n] == StripRight(s[..n]) + after;
      SpacesAreBlank(s[n]);
      var all := after + [s[n]];
      assert s == StripRight(s) + all;
      assert AllBlank(all);
    } else {
      assert AllBlank("") && s == StripRight(s) + "";
    }
  }

  /** Stripping takes white space off both ends, and as much of it as there is. */
  lemma StripMeans(s: string)
    ensures exists before: string, after: string ::
      AllBlank(before) && AllBlank(after) && s == before + Strip(s) + after
    ensures Strip(s) != "" ==> !Blank(Strip(s)[0]) && !Blank(Strip(s)[|Strip(s)| - 1])
    ensures Strip(s) == "" <==> AllBlank(s)
  {
    hide Blank;
    var left, r := StripLeft(s), Strip(s);
    StripLeftMeans(s);
    StripRightMeans(left);
    var before: string :| AllBlank(before) && s == before + left;
    var after: string :| AllBlank(after) && left == r + after;
    assert s == before + r + after;
    if r != "" {
      SpacesAreBlank(r[0]);
      SpacesAreBlank(r[|r| - 1]);
      assert r[0] == left[0];
      assert s[|before|] == r[0];
    } else {
      assert left == after && s == before + after;
    }
  }

  // ---- Records.

  function ContentOf(r: MemoryRecord): Content {
    Content(r.claim, r.sources, r.metadata, r.supersedes, r.contradicts)
  }

  /** `digest_json` raises on a float that is not finite. */
  predicate Digestible(j: Json) {
    match j
    case Float(_, finite) => finite
    case Array(items) => forall i :: 0 <= i < |items| ==> Digestible(items[i])
    case Object(members) => forall k :: k in members ==> Digestible(members[k])
    case _ => true
  }

  /** `MemoryRecord.create`: the ids digest the claim as given, the record holds it stripped. */
  function CreateRecord(lane: Lane, c: Content): Result<MemoryRecord> {
    if Strip(c.claim) == "" || !Digestible(Object(c.metadata)) then Err(InvalidModel)
    else
      var id := MemoryId(lane, c);
      Ok(MemoryRecord(id, UpdateId(id, ContentHash(c)), lane, Strip(c.claim), c.sources, c.supersedes, c.contradicts,
                      None, None, "", c.metadata))
  }

  /** `moved`: only the lane, the reason and the receipt change; a missing receipt keeps the old one. */
  function Moved(r: MemoryRecord, lane: Lane, reason: string, receipt: Option<Text>): MemoryRecord {
    r.(lane := lane, reason := reason, receiptId := if receipt.Some? then receipt else r.receiptId)
  }

  /** The update id names the memory and its present content. */
  predicate UpdateBinds(r: MemoryRecord) {
    r.updateId == UpdateId(r.memoryId, ContentHash(ContentOf(r)))
  }

  /** A created record binds its own content exactly when the claim came stripped. */
  lemma CreatedBinds(lane: Lane, c: Content)
    requires CreateRecord(lane, c).Ok?
    ensures UpdateBinds(CreateRecord(lane, c).value) <==> Strip(c.claim) == c.claim
  {
    assert ContentOf(CreateRecord(lane, c).value) == c.(claim := Strip(c.claim));
  }

  // ---- Lanes.

  function Targets(source: Lane): set<Lane> {
    match source
    case Raw => {Candidate, Contradiction, Tombstone}
    case Candidate => {Shadow, Quarantine, Contradiction, Tombstone}
    case Shadow => {Certified, Quarantine, Contradiction, Tombstone}
    case Certified => {Superseded, Contradiction, Tombstone}
    case Superseded => {Contradiction, Tombstone}
    case Quarantine => {Candidate, Tombstone}
    case Contradiction => {Candidate, Tombstone}
    case Tombstone => {}
  }

  /** `assert_transition_allowed` raises nothing: staying put is always allowed. */
  predicate MayMove(source: Lane, target: Lane) {
    source == target || target in Targets(source)
  }

  /** The moves that the table names, and staying put. */
  lemma LaneTable(source: Lane, target: Lane)
    ensures MayMove(source, target) <==> source == target || (source, target) in {
      (Raw, Candidate), (Raw, Contradiction), (Raw, Tombstone),
      (Candidate, Shadow), (Candidate, Quarantine), (Candidate, Contradiction), (Candidate, Tombstone),
      (Shadow, Certified), (Shadow, Quarantine), (Shadow, Contradiction), (Shadow, Tombstone),
      (Certified, Superseded), (Certified, Contradiction), (Certified, Tombstone),
      (Superseded, Contradiction), (Superseded, Tombstone),
      (Quarantine, Candidate), (Quarantine, Tombstone),
      (Contradiction, Candidate), (Contradiction, Tombstone)}
  {
  }

  /** Once here, never certified again. */
  predicate Revoked(lane: Lane) {
    lane in {Superseded, Quarantine, Tombstone, Contradiction}
  }
}
