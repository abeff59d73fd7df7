/**
 The seven default checkers over digest-bound evidence: what they accept together is the manifest
 that the pipeline itself would build, and what the pipeline builds they accept.
*/
module Evidence {
  import opened Basics
  import opened Records
  import Rational

  /**
   What the model library reads from other values: an integer from a string or a float, and whether a
   value is a time stamp.
  */
  datatype Readers = Readers(integer: Text -> Option<int>, whole: string -> Option<int>, stamp: Json -> bool)

  type Dict = map<Text, Json>

  const MAX_STEPS := 128

  // ---- Reading JSON.

  predicate AllStrings(items: seq<Json>) {
    forall i :: 0 <= i < |items| ==> items[i].Str?
  }

  function Texts(items: seq<Json>): (r: seq<Text>)
    requires AllStrings(items)
    ensures |r| == |items| && forall i :: 0 <= i < |r| ==> r[i] == items[i].value
  {
    seq(|items|, i requires 0 <= i < |items| => items[i].value)
  }

  function Strings(texts: seq<Text>): (r: seq<Json>)
    ensures |r| == |texts| && forall i :: 0 <= i < |r| ==> r[i] == Str(texts[i])
  {
    seq(|texts|, i requires 0 <= i < |texts| => Str(texts[i]))
  }

  /** A list of strings, or the default when the key is missing. */
  function StringList(d: Dict, key: string, missing: Option<seq<Text>>): Option<seq<Text>> {
    match Get(d, key)
    case None => missing
    case Some(j) => if j.Array? && AllStrings(j.items) then Some(Texts(j.items)) else None
  }

  function StringMap(d: Dict, key: string): Option<map<Text, Text>> {
    match Get(d, key)
    case None => Some(map[])
    case Some(j) =>
      if j.Object? && (forall k :: k in j.members ==> j.members[k].Str?)
      then Some(map k | k in j.members :: j.members[k].value)
      else None
  }

  function String(d: Dict, key: string): Option<Text> {
    match Get(d, key)
    case None => None
    case Some(j) => if j.Str? then Some(j.value) else None
  }

  /** An `int` field in lax mode: booleans count, and so do strings and floats that read as integers. */
  function ReadInt(readers: Readers, j: Json): Option<int> {
    match j
    case Int(n) => Some(n)
    case Bool(b) => Some(if b then 1 else 0)
    case Str(t) => readers.integer(t)
    case Float(digits, _) => readers.whole(digits)
    case _ => None
  }

  function ReadCaps(readers: Readers, caps: Dict): Option<map<Text, int>> {
    if forall k :: k in caps ==> ReadInt(readers, caps[k]).Some?
    then Some(map k | k in caps :: ReadInt(readers, caps[k]).value)
    else None
  }

  function CapsJson(caps: map<Text, int>): Dict {
    map k | k in caps :: Int(caps[k])
  }

  predicate PlainCaps(caps: Dict) {
    forall k :: k in caps ==> caps[k].Int?
  }

  /** `==` between JSON values, for which `True == 1`; floats are refused elsewhere. */
  predicate Same(a: Json, b: Json)
    decreases a
  {
    match (a, b)
    case (Int(n), Bool(f)) => n == if f then 1 else 0
    case (Bool(f), Int(n)) => n == if f then 1 else 0
    case (Array(s), Array(t)) => |s| == |t| && forall i :: 0 <= i < |s| ==> Same(s[i], t[i])
    case (Object(m), Object(n)) => m.Keys == n.Keys && forall k :: k in m ==> Same(m[k], n[k])
    case _ => a == b
  }

  predicate HasFloat(j: Json) {
    match j
    case Float(_, _) => true
    case Array(items) => exists i :: 0 <= i < |items| && HasFloat(items[i])
    case Object(members) => exists k :: k in members && HasFloat(members[k])
    case _ => false
  }

  // ---- Manifests.

  const FIELDS := {
    Plain("schema_version"), Plain("manifest_id"), Plain("candidate_id"), Plain("candidate_update_id"),
    Plain("input_event_ids"), Plain("input_event_digests"), Plain("candidate_digest"), Plain("replay_digest"),
    Plain("declared_tools"), Plain("resource_caps"), Plain("created_at")
  }

  const SCHEMA := Plain("1.1")

  function CapsField(readers: Readers, d: Dict): Option<map<Text, int>> {
    match Get(d, "resource_caps")
    case None => Some(map[])
    case Some(j) => if j.Object? then ReadCaps(readers, j.members) else None
  }

  /** Field values of the right types and no further field. */
  predicate Parses(readers: Readers, d: Dict) {
    && d.Keys <= FIELDS
    && (Get(d, "schema_version").None? || String(d, "schema_version").Some?)
    && String(d, "manifest_id").Some?
    && String(d, "candidate_id").Some?
    && String(d, "candidate_update_id").Some?
    && StringList(d, "input_event_ids", None).Some?
    && StringMap(d, "input_event_digests").Some?
    && String(d, "candidate_digest").Some?
    && String(d, "replay_digest").Some?
    && StringList(d, "declared_tools", Some([])).Some?
    && CapsField(readers, d).Some?
    && (Get(d, "created_at").None? || readers.stamp(Get(d, "created_at").value))
  }

  /** `EvidenceManifest(**evidence)` */
  function Parse(readers: Readers, d: Dict): Manifest
    requires Parses(readers, d)
  {
    Manifest(
      if Get(d, "schema_version").None? then SCHEMA else String(d, "schema_version").value,
      String(d, "manifest_id").value,
      String(d, "candidate_id").value,
      String(d, "candidate_update_id").value,
      StringList(d, "input_event_ids", None).value,
      StringMap(d, "input_event_digests").value,
      String(d, "candidate_digest").value,
      String(d, "replay_digest").value,
      StringList(d, "declared_tools", Some([])).value,
      CapsField(readers, d).value,
      if Get(d, "created_at").None? then Null else Get(d, "created_at").value)
  }

  function ReplayOf(r: MemoryRecord, inputs: seq<Text>, digests: map<Text, Text>, tools: seq<Text>, caps: Dict): Text {
    ReplayHash(ReplaySeed(r.memoryId, r.updateId, r.claim, inputs, digests, ContentHash(ContentOf(r)), tools, caps))
  }

  function ManifestIdOf(r: MemoryRecord, inputs: seq<Text>, digests: map<Text, Text>, replay: Text): Text {
    ManifestId(ManifestSeed(r.memoryId, r.updateId, inputs, digests, ContentHash(ContentOf(r)), replay))
  }

  /** `EvidenceManifest.create`: the digests take the caps as given, the field holds them as integers. */
  function CreateManifest(
    readers: Readers, r: MemoryRecord, digests: map<Text, Text>, tools: seq<Text>, caps: Dict, created: Json)
    : Option<Manifest>
  {
    match ReadCaps(readers, caps)
    case None => None
    case Some(read) =>
      var replay := ReplayOf(r, r.sources, digests, tools, caps);
      Some(Manifest(SCHEMA, ManifestIdOf(r, r.sources, digests, replay), r.memoryId, r.updateId, r.sources, digests,
                    ContentHash(ContentOf(r)), replay, tools, read, created))
  }

  /** `manifest.model_dump(mode="json")` */
  function Dump(m: Manifest): Dict {
    map[
      Plain("schema_version") := Str(m.schema),
      Plain("manifest_id") := Str(m.id),
      Plain("candidate_id") := Str(m.candidate),
      Plain("candidate_update_id") := Str(m.update),
      Plain("input_event_ids") := Array(Strings(m.inputs)),
      Plain("input_event_digests") := Object(map k | k in m.digests :: Str(m.digests[k])),
      Plain("candidate_digest") := Str(m.hash),
      Plain("replay_digest") := Str(m.replay),
      Plain("declared_tools") := Array(Strings(m.tools)),
      Plain("resource_caps") := Object(CapsJson(m.caps)),
      Plain("created_at") := m.created
    ]
  }

  /** Equal but for the schema version and the time stamp. */
  predicate SameManifest(a: Manifest, b: Manifest) {
    a == b.(schema := a.schema, created := a.created)
  }

  // ---- The checkers.

  /** What the pipeline knows of the source events: their digests, and the ids it did not find. */
  datatype Authority = Authority(digests: map<Text, Text>, missing: seq<Text>)

  function ToolsOf(r: MemoryRecord): Option<seq<Text>> {
    StringList(r.metadata, "tools", Some([]))
  }

  function CapsOf(r: MemoryRecord): Option<Dict> {
    match Get(r.metadata, "resource_caps")
    case None => Some(map[])
    case Some(j) => if j.Object? then Some(j.members) else None
  }

  predicate SchemaPasses(r: MemoryRecord) {
    && Starts(r.memoryId, "mem_") && Starts(r.updateId, "upd_")
    && (r.lane == Candidate || r.lane == Shadow)
    && r.claim != ""
    && r.sources != []
    && forall i :: 0 <= i < |r.sources| ==> Starts(r.sources[i], "evt_")
  }

  predicate Unique(texts: seq<Text>) {
    forall i, j :: 0 <= i < j < |texts| ==> texts[i] != texts[j]
  }

  predicate InputsPass(r: MemoryRecord, d: Dict, known: Authority) {
    && Unique(r.sources)
    && StringList(d, "input_event_ids", None) == Some(r.sources)
    && known.missing == []
    && Get(d, "input_event_digests").Some?
    && StringMap(d, "input_event_digests").Some?
    && var digests := StringMap(d, "input_event_digests").value;
      && digests.Keys == (set s | s in r.sources)
      && known.digests.Keys == (set s | s in r.sources)
      && forall s :: s in r.sources ==> digests[s] == known.digests[s]
  }

  predicate ManifestPasses(readers: Readers, r: MemoryRecord, d: Dict) {
    && Parses(readers, d)
    && var m := Parse(readers, d);
      && m.candidate == r.memoryId
      && m.update == r.updateId
      && m.hash == ContentHash(ContentOf(r))
      && m.replay == ReplayOf(r, m.inputs, m.digests, m.tools, CapsJson(m.caps))
      && m.id == ManifestIdOf(r, m.inputs, m.digests, m.replay)
  }

  predicate DigestPasses(r: MemoryRecord, d: Dict) {
    Get(d, "candidate_digest") == Some(Str(ContentHash(ContentOf(r)))) && UpdateBinds(r)
  }

  predicate ToolsPass(r: MemoryRecord, d: Dict, intent: Option<ActionIntent>) {
    && ToolsOf(r).Some?
    && StringList(d, "declared_tools", None) == ToolsOf(r)
    && (intent.Some? ==> intent.value.tool in ToolsOf(r).value)
  }

  predicate BoundaryPasses(r: MemoryRecord, d: Dict) {
    !HasFloat(Object(r.metadata)) && !HasFloat(Object(d))
  }

  function StepsOf(caps: Dict): Json {
    match Get(caps, "max_steps")
    case None => Int(32)
    case Some(j) => j
  }

  predicate StepsInRange(j: Json) {
    match j
    case Int(n) => 1 <= n <= MAX_STEPS
    case Bool(b) => b
    case _ => false
  }

  predicate CapsPass(r: MemoryRecord, d: Dict, intent: Option<ActionIntent>) {
    && CapsOf(r).Some?
    && var caps := CapsOf(r).value;
      && Same(match Get(d, "resource_caps") case None => Object(map[]) case Some(j) => j, Object(caps))
      && (intent.Some? ==> Same(Object(CapsJson(intent.value.caps)), Object(caps)))
      && StepsInRange(StepsOf(caps))
  }

  /** The results in the order of `create_default_checkers`. */
  function CheckAll(
    readers: Readers, r: MemoryRecord, d: Dict, intent: Option<ActionIntent>, known: Authority): seq<CheckResult>
  {
    [ CheckResult("candidate-schema", SchemaPasses(r)),
      CheckResult("input-set", InputsPass(r, d, known)),
      CheckResult("evidence-manifest", ManifestPasses(readers, r, d)),
      CheckResult("digest", DigestPasses(r, d)),
      CheckResult("declared-tools", ToolsPass(r, d, intent)),
      CheckResult("deterministic-boundary", BoundaryPasses(r, d)),
      CheckResult("resource-caps", CapsPass(r, d, intent)) ]
  }

  predicate AllPassed(checks: seq<CheckResult>) {
    forall i :: 0 <= i < |checks| ==> checks[i].passed
  }

  predicate Accepts(readers: Readers, r: MemoryRecord, d: Dict, intent: Option<ActionIntent>, known: Authority) {
    && SchemaPasses(r)
    && InputsPass(r, d, known)
    && ManifestPasses(readers, r, d)
    && DigestPasses(r, d)
    && ToolsPass(r, d, intent)
    && BoundaryPasses(r, d)
    && CapsPass(r, d, intent)
  }

  lemma AllPassedIffAccepts(readers: Readers, r: MemoryRecord, d: Dict, intent: Option<ActionIntent>, known: Authority)
    ensures AllPassed(CheckAll(readers, r, d, intent, known)) <==> Accepts(readers, r, d, intent, known)
  {
    hide SchemaPasses, InputsPass, ManifestPasses, DigestPasses, ToolsPass, BoundaryPasses, CapsPass;
    var all := CheckAll(readers, r, d, intent, known);
    assert AllPassed(all) ==> all[0].passed && all[1].passed && all[2].passed && all[3].passed && all[4].passed
                              && all[5].passed && all[6].passed;
  }

  /** A float sits at the path `p` below `path`; `shown` is how a key prints. */
  predicate FloatAt(value: Json, path: string, shown: Text -> string, p: string) {
    match value
    case Float(_, finite) => p == path + if finite then "" else " (non-finite)"
    case Object(members) => exists k :: k in members && FloatAt(members[k], path + "." + shown(k), shown, p)
    case Array(items) =>
      exists i :: 0 <= i < |items| && FloatAt(items[i], path + "[" + Rational.PrintNat(i) + "]", shown, p)
    case _ => false
  }

  predicate FloatUnder(members: Dict, keys: set<Text>, path: string, shown: Text -> string, p: string)
    requires keys <= members.Keys
  {
    exists k :: k in keys && FloatAt(members[k], path + "." + shown(k), shown, p)
  }

  predicate FloatBefore(items: seq<Json>, n: nat, path: string, shown: Text -> string, p: string)
    requires n <= |items|
  {
    exists i :: 0 <= i < n && FloatAt(items[i], path + "[" + Rational.PrintNat(i) + "]", shown, p)
  }

  lemma FloatsInside(path: string, shown: Text -> string, members: Dict, items: seq<Json>)
    ensures forall p :: FloatAt(Object(members), path, shown, p) <==> FloatUnder(members, members.Keys, path, shown, p)
    ensures forall p :: FloatAt(Array(items), path, shown, p) <==> FloatBefore(items, |items|, path, shown, p)
  {
  }

  lemma FloatUnderNone(members: Dict, path: string, shown: Text -> string)
    ensures forall p :: !FloatUnder(members, members.Keys - members.Keys, path, shown, p)
  {
  }

  lemma FloatBeforeNone(items: seq<Json>, path: string, shown: Text -> string)
    ensures forall p :: !FloatBefore(items, 0, path, shown, p)
  {
  }

  lemma FloatsAdded(
      members: Dict, keys: set<Text>, key: Text, path: string, shown: Text -> string, found: seq<string>,
      inner: seq<string>)
    requires keys <= members.Keys && key in members
    requires forall p :: p in found <==> FloatUnder(members, keys, path, shown, p)
    requires forall p :: p in inner <==> FloatAt(members[key], path + "." + shown(key), shown, p)
    ensures forall p :: p in found + inner <==> FloatUnder(members, keys + {key}, path, shown, p)
  {
    hide FloatAt;
  }

  lemma FloatsFollow(
      items: seq<Json>, n: nat, path: string, shown: Text -> string, found: seq<string>, inner: seq<string>)
    requires n < |items|
    requires forall p :: p in found <==> FloatBefore(items, n, path, shown, p)
    requires forall p :: p in inner <==> FloatAt(items[n], path + "[" + Rational.PrintNat(n) + "]", shown, p)
    ensures forall p :: p in found + inner <==> FloatBefore(items, n + 1, path, shown, p)
  {
    hide FloatAt, Rational.PrintNat;
  }

  lemma {:induction false} FloatHasPath(value: Json, path: string, shown: Text -> string) returns (p: string)
    requires HasFloat(value)
    ensures FloatAt(value, path, shown, p)
    decreases value
  {
    match value
    case Object(members) =>
      var k :| k in members && HasFloat(members[k]);
      p := FloatHasPath(members[k], path + "." + shown(k), shown);
    case Array(items) =>
      var i :| 0 <= i < |items| && HasFloat(items[i]);
      p := FloatHasPath(items[i], path + "[" + Rational.PrintNat(i) + "]", shown);
    case Float(_, finite) =>
      p := path + if finite then "" else " (non-finite)";
  }

  lemma {:induction false} PathIsFloat(value: Json, path: string, shown: Text -> string, p: string)
    requires FloatAt(value, path, shown, p)
    ensures HasFloat(value)
    decreases value
  {
    match value
    case Object(members) =>
      var k :| k in members && FloatAt(members[k], path + "." + shown(k), shown, p);
      PathIsFloat(members[k], path + "." + shown(k), shown, p);
    case Array(items) =>
      var i :| 0 <= i < |items| && FloatAt(items[i], path + "[" + Rational.PrintNat(i) + "]", shown, p);
      PathIsFloat(items[i], path + "[" + Rational.PrintNat(i) + "]", shown, p);
    case _ =>
  }

  lemma NoPathsNoFloat(value: Json, path: string, shown: Text -> string, found: seq<string>)
    requires forall p :: p in found <==> FloatAt(value, path, shown, p)
    ensures found == [] <==> !HasFloat(value)
  {
    hide HasFloat, FloatAt;
    if HasFloat(value) {
      var p := FloatHasPath(value, path, shown);
      assert p in found;
    }
    if found != [] {
      assert found[0] in found;
      PathIsFloat(value, path, shown, found[0]);
    }
  }

  /** The paths of all floats and no others. Members are met in any order. */
  method FindFloatPaths(value: Json, path: string, shown: Text -> string) returns (found: seq<string>)
    ensures forall p :: p in found <==> FloatAt(value, path, shown, p)
    ensures found == [] <==> !HasFloat(value)
    decreases value
  {
    match value {
      case Float(_, finite) =>
        return [path + if finite then "" else " (non-finite)"];
      case Object(members) =>
        hide FloatAt, FloatUnder, HasFloat;
        found := [];
        var keys := members.Keys;
        FloatUnderNone(members, path, shown);
        while keys != {}
          invariant keys <= members.Keys
          invariant forall p :: p in found <==> FloatUnder(members, members.Keys - keys, path, shown, p)
          decreases |keys|
        {
          var key :| key in keys;
          var inner := FindFloatPaths(members[key], path + "." + shown(key), shown);
          FloatsAdded(members, members.Keys - keys, key, path, shown, found, inner);
          assert members.Keys - (keys - {key}) == (members.Keys - keys) + {key};
          found := found + inner;
          keys := keys - {key};
        }
        assert members.Keys - keys == members.Keys;
        FloatsInside(path, shown, members, []);
        NoPathsNoFloat(value, path, shown, found);
      case Array(items) =>
        hide FloatAt, FloatBefore, HasFloat;
        found := [];
        FloatBeforeNone(items, path, shown);
        for n := 0 to |items|
          invariant forall p :: p in found <==> FloatBefore(items, n, path, shown, p)
        {
          var inner := FindFloatPaths(items[n], path + "[" + Rational.PrintNat(n) + "]", shown);
          FloatsFollow(items, n, path, shown, found, inner);
          found := found + inner;
        }
        FloatsInside(path, shown, map[], items);
        NoPathsNoFloat(value, path, shown, found);
      case _ =>
        return [];
    }
  }

  // ---- Accepted evidence is the pipeline's own.

  lemma SameReads(readers: Readers, a: Json, b: Json)
    requires Same(a, b)
    ensures ReadInt(readers, a) == ReadInt(readers, b)
  {
  }

  lemma SameCaps(readers: Readers, a: Dict, b: Dict)
    requires Same(Object(a), Object(b))
    ensures ReadCaps(readers, a) == ReadCaps(readers, b)
  {
    hide ReadInt;
    forall k | k in a ensures ReadInt(readers, a[k]) == ReadInt(readers, b[k]) { SameReads(readers, a[k], b[k]); }
    assert a.Keys == b.Keys;
    if ReadCaps(readers, a).Some? {
      assert forall k :: k in b ==> k in a && ReadInt(readers, b[k]).Some?;
      assert ReadCaps(readers, a).value == ReadCaps(readers, b).value;
    }
  }

  lemma PlainCapsRead(readers: Readers, caps: Dict)
    requires ReadCaps(readers, caps).Some?
    ensures CapsJson(ReadCaps(readers, caps).value) == caps <==> PlainCaps(caps)
  {
    var read := ReadCaps(readers, caps).value;
    if CapsJson(read) == caps {
      forall k | k in caps ensures caps[k].Int? { assert CapsJson(read)[k] == caps[k]; }
    }
  }

  lemma AcceptedCaps(readers: Readers, r: MemoryRecord, d: Dict, intent: Option<ActionIntent>)
    requires Parses(readers, d) && CapsPass(r, d, intent)
    ensures CapsOf(r).Some? && ReadCaps(readers, CapsOf(r).value) == Some(Parse(readers, d).caps)
  {
    hide Parses, StepsInRange;
    var caps := CapsOf(r).value;
    assert CapsField(readers, d).Some? by { ParsesCaps(readers, d); }
    match Get(d, "resource_caps")
    case None => SameCaps(readers, map[], caps);
    case Some(j) => SameCaps(readers, j.members, caps);
  }

  lemma ParsesCaps(readers: Readers, d: Dict)
    requires Parses(readers, d)
    ensures CapsField(readers, d).Some?
  {
  }

  lemma AcceptedInputs(readers: Readers, r: MemoryRecord, d: Dict, known: Authority)
    requires Parses(readers, d) && InputsPass(r, d, known)
    ensures Parse(readers, d).inputs == r.sources && Parse(readers, d).digests == known.digests
  {
    var digests := StringMap(d, "input_event_digests").value;
    assert forall s :: s in digests ==> digests[s] == known.digests[s];
  }

  /**
   Evidence that all seven checkers accept is, up to schema version and time stamp, the manifest that
   `EvidenceManifest.create` builds from the record and the authoritative event digests, exactly when
   every resource cap of the record is a plain integer. A boolean or a numeric string as a cap is read
   as an integer by the checker but digested as it stands by `create`.
  */
  lemma AcceptedEvidenceIsBuilt(
      readers: Readers, r: MemoryRecord, d: Dict, intent: Option<ActionIntent>, known: Authority, created: Json)
    requires Accepts(readers, r, d, intent, known)
    ensures var built := CreateManifest(readers, r, known.digests, ToolsOf(r).value, CapsOf(r).value, created);
      built.Some? && (SameManifest(Parse(readers, d), built.value) <==> PlainCaps(CapsOf(r).value))
  {
    hide SchemaPasses, BoundaryPasses, CapsPass, InputsPass, Parses, Parse, ReadCaps;
    var m := Parse(readers, d);
    AcceptedCaps(readers, r, d, intent);
    AcceptedInputs(readers, r, d, known);
    AcceptedTools(readers, r, d, intent);
    PlainCapsRead(readers, CapsOf(r).value);
  }

  lemma AcceptedTools(readers: Readers, r: MemoryRecord, d: Dict, intent: Option<ActionIntent>)
    requires Parses(readers, d) && ToolsPass(r, d, intent)
    ensures Parse(readers, d).tools == ToolsOf(r).value
  {
  }

  // ---- Built evidence is accepted.

  lemma DumpedStrings(texts: seq<Text>)
    ensures AllStrings(Strings(texts)) && Texts(Strings(texts)) == texts
  {
  }

  lemma DumpedCaps(readers: Readers, caps: map<Text, int>)
    ensures ReadCaps(readers, CapsJson(caps)) == Some(caps)
  {
    assert ReadCaps(readers, CapsJson(caps)).value == caps;
  }

  lemma DumpGets(m: Manifest)
    ensures var d := Dump(m);
      && d.Keys == FIELDS
      && Get(d, "schema_version") == Some(Str(m.schema))
      && Get(d, "manifest_id") == Some(Str(m.id))
      && Get(d, "candidate_id") == Some(Str(m.candidate))
      && Get(d, "candidate_update_id") == Some(Str(m.update))
      && Get(d, "input_event_ids") == Some(Array(Strings(m.inputs)))
      && Get(d, "input_event_digests") == Some(Object(map k | k in m.digests :: Str(m.digests[k])))
      && Get(d, "candidate_digest") == Some(Str(m.hash))
      && Get(d, "replay_digest") == Some(Str(m.replay))
      && Get(d, "declared_tools") == Some(Array(Strings(m.tools)))
      && Get(d, "resource_caps") == Some(Object(CapsJson(m.caps)))
      && Get(d, "created_at") == Some(m.created)
  {
  }

  /** Parsing undoes dumping. */
  lemma ParseDump(readers: Readers, m: Manifest)
    requires readers.stamp(m.created)
    ensures Parses(readers, Dump(m)) && Parse(readers, Dump(m)) == m
  {
    hide Dump, ReadCaps;
    DumpGets(m);
    DumpedStrings(m.inputs);
    DumpedStrings(m.tools);
    DumpedCaps(readers, m.caps);
    var digests := map k | k in m.digests :: Str(m.digests[k]);
    assert (map k | k in digests :: digests[k].value) == m.digests;
  }

  /** Dumping undoes parsing, when every field is stated and the caps are plain. */
  lemma DumpParse(readers: Readers, d: Dict)
    requires Parses(readers, d) && FIELDS <= d.Keys && PlainCaps(d[Plain("resource_caps")].members)
    ensures Dump(Parse(readers, d)) == d
  {
    hide Dump, ReadCaps, PlainCaps;
    var m := Parse(readers, d);
    DumpGets(m);
    ListsBack(d, "input_event_ids", None);
    ListsBack(d, "declared_tools", Some([]));
    MapBack(d, "input_event_digests");
    PlainCapsRead(readers, d[Plain("resource_caps")].members);
    var e := Dump(m);
    forall k | k in FIELDS ensures e[k] == d[k] {
    }
  }

  lemma ListsBack(d: Dict, key: string, missing: Option<seq<Text>>)
    requires Plain(key) in d && StringList(d, key, missing).Some?
    ensures Array(Strings(StringList(d, key, missing).value)) == d[Plain(key)]
  {
    assert Strings(Texts(d[Plain(key)].items)) == d[Plain(key)].items;
  }

  lemma MapBack(d: Dict, key: string)
    requires Plain(key) in d && StringMap(d, key).Some?
    ensures Object(map k | k in StringMap(d, key).value :: Str(StringMap(d, key).value[k])) == d[Plain(key)]
  {
    var members := d[Plain(key)].members;
    var read := StringMap(d, key).value;
    assert (map k | k in read :: Str(read[k])) == members;
  }

  lemma NoFloatInStrings(texts: seq<Text>)
    ensures !HasFloat(Array(Strings(texts)))
  {
  }

  lemma DumpHasNoFloat(m: Manifest)
    requires !HasFloat(m.created)
    ensures !HasFloat(Object(Dump(m)))
  {
    NoFloatInStrings(m.inputs);
    NoFloatInStrings(m.tools);
    assert !HasFloat(Object(CapsJson(m.caps)));
    var digests := map k | k in m.digests :: Str(m.digests[k]);
    assert !HasFloat(Object(digests));
    var d := Dump(m);
    forall k | k in d ensures !HasFloat(d[k]) {
    }
  }

  lemma SameRefl(j: Json)
    ensures Same(j, j)
  {
  }

  lemma IntCapsSame(readers: Readers, caps: Dict)
    requires ReadCaps(readers, caps).Some? && PlainCaps(caps)
    ensures Same(Object(CapsJson(ReadCaps(readers, caps).value)), Object(caps))
  {
    PlainCapsRead(readers, caps);
    SameRefl(Object(caps));
  }

  /** What every checker but the one of caps asks of a record. */
  predicate OtherwiseVerifiable(r: MemoryRecord, known: Authority) {
    && SchemaPasses(r)
    && Unique(r.sources) && known.missing == [] && known.digests.Keys == (set s | s in r.sources)
    && UpdateBinds(r) && ToolsOf(r).Some? && !HasFloat(Object(r.metadata))
  }

  predicate CapsOk(r: MemoryRecord) {
    CapsOf(r).Some? && PlainCaps(CapsOf(r).value) && StepsInRange(StepsOf(CapsOf(r).value))
  }

  /** What a record must be for the evidence built from it to pass. */
  predicate Verifiable(r: MemoryRecord, intent: Option<ActionIntent>, known: Authority) {
    && OtherwiseVerifiable(r, known) && CapsOk(r)
    && (intent.Some? ==> intent.value.tool in ToolsOf(r).value)
    && (intent.Some? ==> Same(Object(CapsJson(intent.value.caps)), Object(CapsOf(r).value)))
  }

  /**
   The evidence that the pipeline builds passes all seven checkers exactly when the record is in the
   candidate or shadow lane with unique sources that are all stored, a claim that was given stripped,
   string tools, plain integer caps within range, no float, and an action that fits.
  */
  lemma BuiltEvidencePasses(
      readers: Readers, r: MemoryRecord, intent: Option<ActionIntent>, known: Authority, created: Json)
    requires readers.stamp(created) && !HasFloat(created)
    requires ToolsOf(r).Some? && CapsOf(r).Some?
    requires CreateManifest(readers, r, known.digests, ToolsOf(r).value, CapsOf(r).value, created).Some?
    ensures var d := Dump(CreateManifest(readers, r, known.digests, ToolsOf(r).value, CapsOf(r).value, created).value);
      Accepts(readers, r, d, intent, known) <==> Verifiable(r, intent, known)
  {
    hide SchemaPasses, StepsInRange, Parse, Parses, HasFloat, ReadCaps, Same;
    var m := CreateManifest(readers, r, known.digests, ToolsOf(r).value, CapsOf(r).value, created).value;
    ParseDump(readers, m);
    DumpHasNoFloat(m);
    DumpedInputs(r, m, known);
    DumpedTools(m);
    PlainCapsRead(readers, CapsOf(r).value);
    if Verifiable(r, intent, known) {
      IntCapsSame(readers, CapsOf(r).value);
    }
  }

  lemma DumpedTools(m: Manifest)
    ensures StringList(Dump(m), "declared_tools", None) == Some(m.tools)
    ensures Get(Dump(m), "resource_caps") == Some(Object(CapsJson(m.caps)))
    ensures Get(Dump(m), "candidate_digest") == Some(Str(m.hash))
  {
    hide Dump;
    DumpGets(m);
    DumpedStrings(m.tools);
  }

  lemma DumpedInputs(r: MemoryRecord, m: Manifest, known: Authority)
    requires m.inputs == r.sources && m.digests == known.digests
    ensures InputsPass(r, Dump(m), known) <==>
      Unique(r.sources) && known.missing == [] && known.digests.Keys == (set s | s in r.sources)
  {
    DumpedStrings(m.inputs);
    var digests := map k | k in m.digests :: Str(m.digests[k]);
    assert (map k | k in digests :: digests[k].value) == m.digests;
  }

  // ---- A cap that reads as an integer but is none.

  /** The one cap `max_steps: true`, and what the model library reads of it. */
  const BOOLEAN_CAP: Dict := map[Plain("max_steps") := Bool(true)]

  const CAP_READ: map<Text, int> := map[Plain("max_steps") := 1]

  /** The manifest that a caller may supply for a record with that cap: all as built, the cap as an integer. */
  function IntegerManifest(r: MemoryRecord, known: Authority, tools: seq<Text>, created: Json): Manifest {
    var replay := ReplayOf(r, r.sources, known.digests, tools, CapsJson(CAP_READ));
    Manifest(SCHEMA, ManifestIdOf(r, r.sources, known.digests, replay), r.memoryId, r.updateId, r.sources,
             known.digests,
             ContentHash(ContentOf(r)), replay, tools, CAP_READ, created)
  }

  lemma BooleanCapReads()
    ensures Same(Object(CapsJson(CAP_READ)), Object(BOOLEAN_CAP)) && !PlainCaps(BOOLEAN_CAP)
    ensures StepsInRange(StepsOf(BOOLEAN_CAP))
  {
    var ints := CapsJson(CAP_READ);
    assert ints == map[Plain("max_steps") := Int(1)];
    assert forall k :: k in ints ==> Same(ints[k], BOOLEAN_CAP[k]);
    assert !BOOLEAN_CAP[Plain("max_steps")].Int?;
  }

  /**
   For every record with that cap and nothing else against it the supplied evidence passes all seven
   checkers, and the evidence that the pipeline builds does not.
  */
  lemma BooleanCapAccepted(readers: Readers, r: MemoryRecord, known: Authority, created: Json)
    requires readers.stamp(created) && !HasFloat(created)
    requires OtherwiseVerifiable(r, known) && CapsOf(r) == Some(BOOLEAN_CAP)
    ensures var supplied := IntegerManifest(r, known, ToolsOf(r).value, created);
      var built := CreateManifest(readers, r, known.digests, ToolsOf(r).value, BOOLEAN_CAP, created);
      && Accepts(readers, r, Dump(supplied), None, known)
      && built.Some? && !SameManifest(supplied, built.value)
      && !Accepts(readers, r, Dump(built.value), None, known)
  {
    hide SchemaPasses, UpdateBinds, InputsPass, Parses, Parse, Dump, ContentOf, ReplayOf, ManifestIdOf, HasFloat,
      Unique, ToolsOf, CapsOf, StringList, Same, PlainCaps, ReadCaps, StepsInRange, StepsOf, Accepts, CreateManifest,
      SameManifest;
    var m := IntegerManifest(r, known, ToolsOf(r).value, created);
    ParseDump(readers, m);
    DumpHasNoFloat(m);
    DumpedInputs(r, m, known);
    DumpedTools(m);
    BooleanCapReads();
    SuppliedAccepted(readers, r, m, known);
    AcceptedEvidenceIsBuilt(readers, r, Dump(m), None, known, created);
    BuiltEvidencePasses(readers, r, None, known, created);
  }

  lemma SuppliedAccepted(readers: Readers, r: MemoryRecord, m: Manifest, known: Authority)
    requires OtherwiseVerifiable(r, known) && CapsOf(r) == Some(BOOLEAN_CAP) && InputsPass(r, Dump(m), known)
    requires Parses(readers, Dump(m)) && Parse(readers, Dump(m)) == m
    requires m.candidate == r.memoryId && m.update == r.updateId && m.hash == ContentHash(ContentOf(r))
    requires m.caps == CAP_READ && m.replay == ReplayOf(r, m.inputs, m.digests, m.tools, CapsJson(CAP_READ))
    requires m.id == ManifestIdOf(r, m.inputs, m.digests, m.replay)
    requires Get(Dump(m), "candidate_digest") == Some(Str(m.hash)) && !HasFloat(Object(Dump(m)))
    requires StringList(Dump(m), "declared_tools", None) == Some(m.tools) && m.tools == ToolsOf(r).value
    requires Get(Dump(m), "resource_caps") == Some(Object(CapsJson(CAP_READ)))
    ensures Accepts(readers, r, Dump(m), None, known)
  {
    hide SchemaPasses, UpdateBinds, InputsPass, Parses, Parse, Dump, ContentOf, ReplayOf, ManifestIdOf, HasFloat,
      Unique, ToolsOf, CapsOf, StringList, Same, StepsInRange, StepsOf;
    BooleanCapReads();
  }

  // ---- Exactly which evidence is accepted.

  /** Digests and tools are stated, and the caps are those of the record, an absent field standing for none. */
  predicate StatesAll(d: Dict, caps: Dict) {
    && Plain("input_event_digests") in d && Plain("declared_tools") in d
    && Same(if Plain("resource_caps") in d then d[Plain("resource_caps")] else Object(map[]), Object(caps))
  }

  /**
   For a record with plain caps the seven checkers accept exactly the evidence that states everything,
   holds no float and parses to the manifest built from the record, and they do so only for a record whose
   own evidence would pass.
  */
  lemma AcceptedIff(
      readers: Readers, r: MemoryRecord, d: Dict, intent: Option<ActionIntent>, known: Authority, created: Json)
    requires ToolsOf(r).Some? && CapsOf(r).Some? && PlainCaps(CapsOf(r).value)
    ensures var built := CreateManifest(readers, r, known.digests, ToolsOf(r).value, CapsOf(r).value, created);
      built.Some? &&
      (Accepts(readers, r, d, intent, known) <==>
        && Verifiable(r, intent, known) && StatesAll(d, CapsOf(r).value) && !HasFloat(Object(d))
        && Parses(readers, d) && SameManifest(Parse(readers, d), built.value))
  {
    hide SchemaPasses, BoundaryPasses, CapsPass, InputsPass, ManifestPasses, DigestPasses, ToolsPass, Parses, Parse,
      ReadCaps, SameManifest, Verifiable, StatesAll, HasFloat, CreateManifest, ToolsOf, CapsOf, PlainCaps;
    PlainBuilt(readers, r, known, created);
    var built := CreateManifest(readers, r, known.digests, ToolsOf(r).value, CapsOf(r).value, created).value;
    if Accepts(readers, r, d, intent, known) {
      AcceptedEvidenceIsBuilt(readers, r, d, intent, known, created);
      AcceptedStates(readers, r, d, intent, known);
    }
    if Verifiable(r, intent, known) && StatesAll(d, CapsOf(r).value) && !HasFloat(Object(d))
       && Parses(readers, d) && SameManifest(Parse(readers, d), built)
    {
      StatedAccepted(readers, r, d, intent, known, created);
    }
  }

  lemma PlainBuilt(readers: Readers, r: MemoryRecord, known: Authority, created: Json)
    requires ToolsOf(r).Some? && CapsOf(r).Some? && PlainCaps(CapsOf(r).value)
    ensures CreateManifest(readers, r, known.digests, ToolsOf(r).value, CapsOf(r).value, created).Some?
  {
    hide ToolsOf, CapsOf, ReplayOf, ManifestIdOf;
  }

  lemma AcceptedStates(readers: Readers, r: MemoryRecord, d: Dict, intent: Option<ActionIntent>, known: Authority)
    requires Accepts(readers, r, d, intent, known) && PlainCaps(CapsOf(r).value)
    ensures Verifiable(r, intent, known) && StatesAll(d, CapsOf(r).value) && !HasFloat(Object(d)) && Parses(readers, d)
  {
    hide SchemaPasses, Parses, Parse, ReplayOf, ManifestIdOf, HasFloat, StepsInRange, Same, ContentOf, Unique;
  }

  lemma StatedAccepted(
      readers: Readers, r: MemoryRecord, d: Dict, intent: Option<ActionIntent>, known: Authority, created: Json)
    requires ToolsOf(r).Some? && CapsOf(r).Some? && PlainCaps(CapsOf(r).value)
    requires CreateManifest(readers, r, known.digests, ToolsOf(r).value, CapsOf(r).value, created).Some?
    requires Verifiable(r, intent, known) && StatesAll(d, CapsOf(r).value) && !HasFloat(Object(d))
    requires Parses(readers, d)
    requires SameManifest(
      Parse(readers, d), CreateManifest(readers, r, known.digests, ToolsOf(r).value, CapsOf(r).value, created).value)
    ensures Accepts(readers, r, d, intent, known)
  {
    hide SchemaPasses, ReplayOf, ManifestIdOf, HasFloat, StepsInRange, Same, ContentOf, Unique, Parses, ReadCaps;
    PlainCapsRead(readers, CapsOf(r).value);
    ParsedFields(readers, d);
  }

  /** What parsing took from the fields. */
  lemma ParsedFields(readers: Readers, d: Dict)
    requires Parses(readers, d)
    ensures var m := Parse(readers, d);
      && StringList(d, "input_event_ids", None) == Some(m.inputs)
      && StringMap(d, "input_event_digests") == Some(m.digests)
      && String(d, "candidate_digest") == Some(m.hash)
      && (Plain("declared_tools") in d ==> StringList(d, "declared_tools", None) == Some(m.tools))
  {
  }
}
