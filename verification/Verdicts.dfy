/** What a verification leaves behind, and what a record needs to pass it. */
module Verdicts {
  import opened Basics
  import opened Records
  import opened Evidence
  import opened Tables
  import opened Pipeline
  import opened Kernel
  import opened Growth
  import opened Outcomes

  // ---- Verification.

  const CHECKERS := ["candidate-schema", "input-set", "evidence-manifest", "digest", "declared-tools",
                     "deterministic-boundary", "resource-caps"]

  /** The evidence that verification builds: the caps as they stand are digested, and kept as they read. */
  function EvidenceOf(
    r: MemoryRecord, digests: map<Text, Text>, tools: seq<Text>, caps: Dict, read: map<Text, int>, created: Json)
    : Manifest
  {
    var hash := ContentHash(Content(r.claim, r.sources, r.metadata, r.supersedes, r.contradicts));
    var replay := ReplayHash(ReplaySeed(r.memoryId, r.updateId, r.claim, r.sources, digests, hash, tools, caps));
    Manifest(Plain("1.1"), ManifestId(ManifestSeed(r.memoryId, r.updateId, r.sources, digests, hash, replay)),
             r.memoryId,
             r.updateId, r.sources, digests, hash, replay, tools, read, created)
  }

  /** The digest of the first stored event of each source that has one. */
  ghost predicate DigestsOf(events: seq<Event>, sources: seq<Text>, digests: map<Text, Text>) {
    && (forall s :: s in digests <==> s in sources && HasEvent(events, s))
    && forall s :: s in digests ==>
         exists k :: 0 <= k < |events| && events[k].id == s && events[k].payloadDigest == digests[s]
           && forall j :: 0 <= j < k ==> events[j].id != s
  }

  lemma {:induction false} FirstDigest(events: seq<Event>, id: Text)
    ensures EventDigest(events, id).Some? <==> HasEvent(events, id)
    ensures EventDigest(events, id).Some? ==>
      exists k :: 0 <= k < |events| && events[k].id == id && events[k].payloadDigest == EventDigest(events, id).value
        && forall j :: 0 <= j < k ==> events[j].id != id
  {
    if events != [] {
      var rest := events[1..];
      FirstDigest(rest, id);
      assert forall k :: 0 <= k < |rest| ==> rest[k] == events[k + 1];
      assert forall k :: 0 < k < |events| ==> events[k] == rest[k - 1];
      if events[0].id != id && EventDigest(rest, id).Some? {
        var k :| 0 <= k < |rest| && rest[k].id == id && rest[k].payloadDigest == EventDigest(rest, id).value
          && forall j :: 0 <= j < k ==> rest[j].id != id;
        assert events[k + 1].id == id;
      }
    }
  }

  lemma CollectedDigests(events: seq<Event>, sources: seq<Text>)
    ensures DigestsOf(events, sources, Collect(events, sources).digests)
    ensures Collect(events, sources).missing == [] <==>
      forall k :: 0 <= k < |sources| ==> HasEvent(events, sources[k])
  {
    hide EventDigest, HasEvent;
    forall s ensures EventDigest(events, s).Some? <==> HasEvent(events, s) { FirstDigest(events, s); }
    forall s | s in Found(events, sources)
      ensures exists k :: 0 <= k < |events| && events[k].id == s
                          && events[k].payloadDigest == Found(events, sources)[s]
                          && forall j :: 0 <= j < k ==> events[j].id != s
    {
      FirstDigest(events, s);
    }
    MissingMeans(events, sources);
  }

  /** Verification can build its evidence exactly when tools and caps read; it is this. */
  lemma BuiltOutcome(setting: Setting, db: Db, r: MemoryRecord, created: Json)
    ensures var known := Collect(db.events, r.sources);
      BuiltManifest(setting, db, r, created) ==
        if ToolsOf(r).Some? && CapsOf(r).Some? && ReadCaps(setting.readers, CapsOf(r).value).Some?
        then Some(EvidenceOf(r, known.digests, ToolsOf(r).value, CapsOf(r).value,
                             ReadCaps(setting.readers, CapsOf(r).value).value, created))
        else None
  {
    hide ToolsOf, CapsOf, ReadCaps, Collect;
  }

  function ReceiptRow(
    r: MemoryRecord, strict: bool, checks: seq<CheckResult>, passed: bool, m: Manifest, intent: Option<ActionIntent>,
    verification: nat): Receipt
  {
    var bound := if intent.Some? then Some(intent.value.id) else None;
    var refs := if intent.Some? then [m.id, m.replay, intent.value.id] else [m.id, m.replay];
    var seed := ReceiptSeed(r.memoryId, r.updateId, bound, strict, checks, passed, refs);
    Receipt(ReceiptId(verification, ReceiptHash(seed)), verification, ReceiptHash(seed), seed)
  }

  function CheckRow(c: CheckResult): Json {
    Object(map[Plain("checker_name") := Str(Plain(c.checker)), Plain("passed") := Bool(c.passed)])
  }

  function VerificationPayload(r: MemoryRecord, q: Receipt, m: Manifest): Json {
    AboutOne("verify", r, VerificationDetails(q, m))
  }

  function VerificationDetails(q: Receipt, m: Manifest): map<Text, Json> {
    map[
      Plain("receipt_id") := Str(q.id), Plain("verification_id") := Int(q.verification),
      Plain("receipt_digest") := Str(q.digest),
      Plain("result") := Str(Plain(if q.seed.passed then "passed" else "failed")),
      Plain("checks") := Array(seq(|q.seed.checks|, i requires 0 <= i < |q.seed.checks| => CheckRow(q.seed.checks[i]))),
      Plain("evidence_refs") := Array([Str(m.id), Str(m.replay)])]
  }

  lemma VerifyKind()
    ensures OperationName(Verified) == "verify"
  {
  }

  lemma VerificationPayloadIs(r: MemoryRecord, q: Receipt, m: Manifest)
    ensures OperationPayload(Verified, [r], VerifyDetails(q, m)) == VerificationPayload(r, q, m)
  {
    hide OperationPayload, AboutOne, VerifyDetails, VerificationDetails;
    PayloadOne(Verified, r, VerifyDetails(q, m));
    VerifyKind();
    DetailsAre(q, m);
  }

  lemma DetailsAre(q: Receipt, m: Manifest)
    ensures VerifyDetails(q, m) == VerificationDetails(q, m)
  {
    var a, b := VerifyDetails(q, m), VerificationDetails(q, m);
    assert a[Plain("checks")].items == b[Plain("checks")].items;
    assert a[Plain("evidence_refs")].items == b[Plain("evidence_refs")].items;
    assert a.Keys == b.Keys;
    forall k | k in a ensures a[k] == b[k] {
    }
  }

  lemma ChecksNamed(readers: Readers, r: MemoryRecord, d: Dict, intent: Option<ActionIntent>, known: Authority)
    ensures var checks := CheckAll(readers, r, d, intent, known);
      |checks| == 7 && forall k :: 0 <= k < 7 ==> checks[k].checker == CHECKERS[k]
  {
    hide SchemaPasses, InputsPass, ManifestPasses, DigestPasses, ToolsPass, BoundaryPasses, CapsPass;
  }

  lemma ReceiptIs(
      setting: Setting, db: Db, r: MemoryRecord, m: Manifest, intent: Option<ActionIntent>, verification: nat)
    ensures var checks := CheckAll(setting.readers, r, Dump(m), intent, Collect(db.events, r.sources));
      ReceiptFor(setting, db, r, m, intent, verification) ==
      ReceiptRow(r, setting.strict, checks, AllPassed(checks), m, intent, verification)
  {
    hide CheckAll, Dump, Collect, AllPassed;
    assert [m.id, m.replay] + [] == [m.id, m.replay];
    if intent.Some? { assert [m.id, m.replay] + [intent.value.id] == [m.id, m.replay, intent.value.id]; }
  }

  /** The record after a verification. */
  function VerifiedRecord(r: MemoryRecord, passed: bool, receipt: Text): MemoryRecord {
    r.(lane := if passed then Shadow else Quarantine, reason := if passed then "verified in shadow lane" else "",
       receiptId := Some(receipt))
  }

  lemma VerifyPlanIs(
      setting: Setting, db: Db, id: Text, intent: Option<ActionIntent>, nonce: nat, verification: nat, created: Json,
      run: Text, m: Manifest, q: Receipt)
    requires id in db.records && InRun(db.records[id].raw.metadata, "verification", run)
    requires BuiltManifest(setting, db, db.records[id].raw, created) == Some(m)
    requires q == ReceiptFor(setting, db, db.records[id].raw, m, intent, verification)
    ensures var r := db.records[id].raw;
      var moved := VerifiedRecord(r, q.seed.passed, q.id);
      VerifyPlan(setting, db, id, intent, nonce, verification, created) ==
      Plan([PutManifest(m), PutReceipt(q),
            PutEvent(MakeEvent(nonce, run, "memory_verify", VerificationPayload(r, q, m), r.sources)),
            PutRecord(Change(moved, Verified, moved.reason, Some(q.id), None))], Ok(q))
  {
    hide BuiltManifest, ReceiptFor, OperationPayload, VerificationPayload, VerifyDetails, RunOf, InRun;
    VerificationPayloadIs(db.records[id].raw, q, m);
    RunIs(db.records[id].raw.metadata, "verification", run);
  }

  /** A verification that cannot build its evidence, or finds no record, writes nothing. */
  lemma VerifyRefused(
      setting: Setting, db: Db, id: Text, intent: Option<ActionIntent>, nonce: nat, verification: nat, created: Json)
    requires id in db.records ==> BuiltManifest(setting, db, db.records[id].raw, created).None?
    ensures var plan := VerifyPlan(setting, db, id, intent, nonce, verification, created);
      plan.result.Err? && Left(db, plan) == db
  {
    hide BuiltManifest;
  }

  /**
   With evidence built, a verification goes through exactly for unused receipt and event ids. It adds the
   evidence, a receipt with the results of the seven checkers, which has passed exactly when all of them did,
   and the event; the record goes to shadow if the receipt has passed, and to quarantine if not.
  */
  lemma VerifyOutcome(
      setting: Setting, db: Db, id: Text, intent: Option<ActionIntent>, nonce: nat, verification: nat, created: Json,
      run: Text, m: Manifest)
    requires RowsTrue(db) && id in db.records && InRun(db.records[id].raw.metadata, "verification", run)
    requires BuiltManifest(setting, db, db.records[id].raw, created) == Some(m)
    ensures var r := db.records[id].raw;
      var known := Collect(db.events, r.sources);
      var checks := CheckAll(setting.readers, r, Dump(m), intent, known);
      var passed := Accepts(setting.readers, r, Dump(m), intent, known);
      var q := ReceiptRow(r, setting.strict, checks, passed, m, intent, verification);
      var plan := VerifyPlan(setting, db, id, intent, nonce, verification, created);
      var g, payload, moved := Left(db, plan), VerificationPayload(r, q, m), VerifiedRecord(r, passed, q.id);
      && |checks| == 7 && (forall k :: 0 <= k < 7 ==> checks[k].checker == CHECKERS[k])
      && (Done(db, plan) <==>
            && !HasReceipt(db.receipts, q.id)
            && !HasEvent(db.events, NewEventId(nonce, run, "memory_verify", payload, r.sources)))
      && (Done(db, plan) ==> plan.result.value == q)
      && (Done(db, plan) ==> Logged(db, g, nonce, run, "memory_verify", payload, r.sources))
      && (Done(db, plan) ==> g.manifests == db.manifests + [m] && g.receipts == db.receipts + [q]
                             && g.contracts == db.contracts)
      && (Done(db, plan) ==> Saved(db, g, moved, Verified, moved.reason, Some(q.id), None))
  {
    hide *;
    var r := db.records[id].raw;
    var known := Collect(db.events, r.sources);
    var checks := CheckAll(setting.readers, r, Dump(m), intent, known);
    AllPassedIffAccepts(setting.readers, r, Dump(m), intent, known);
    ChecksNamed(setting.readers, r, Dump(m), intent, known);
    ReceiptIs(setting, db, r, m, intent, verification);
    var q := ReceiptFor(setting, db, r, m, intent, verification);
    ReceiptPassed(r, setting.strict, checks, AllPassed(checks), m, intent, verification);
    VerifyPlanIs(setting, db, id, intent, nonce, verification, created, run, m, q);
    var plan := VerifyPlan(setting, db, id, intent, nonce, verification, created);
    DoneIs(db, plan);
    var payload, moved := VerificationPayload(r, q, m), VerifiedRecord(r, q.seed.passed, q.id);
    EventIs(nonce, run, "memory_verify", payload, r.sources);
    VerifyRows(db, m, q, MakeEvent(nonce, run, "memory_verify", payload, r.sources),
               Change(moved, Verified, moved.reason, Some(q.id), None));
    LoggedIs(db, Left(db, plan), nonce, run, "memory_verify", payload, r.sources);
  }

  lemma ReceiptPassed(
      r: MemoryRecord, strict: bool, checks: seq<CheckResult>, passed: bool, m: Manifest, intent: Option<ActionIntent>,
      verification: nat)
    ensures ReceiptRow(r, strict, checks, passed, m, intent, verification).seed.passed == passed
  {
  }

  lemma VerifyRows(db: Db, m: Manifest, q: Receipt, e: Event, c: Change)
    requires e.payloadDigest == PayloadHash(e.payload) && c.receiptId == Some(q.id)
    ensures var ws := [PutManifest(m), PutReceipt(q), PutEvent(e), PutRecord(c)];
      var g := WrittenAll(db, ws);
      && (AllSucceed(db, ws) <==> !HasReceipt(db.receipts, q.id) && !HasEvent(db.events, e.id))
      && (AllSucceed(db, ws) ==>
            && g.events == db.events + [e] && g.manifests == db.manifests + [m] && g.receipts == db.receipts + [q]
            && g.contracts == db.contracts
            && Saved(db, g, c.record, c.operation, c.reason, Some(q.id), c.eventId))
  {
    hide WrittenAll, AllSucceed, HasEvent, HasReceipt, Upserted, Saved;
    VerifyWrites(db, m, q, e, c);
    var mid := Written(Written(Written(db, PutManifest(m)), PutReceipt(q)), PutEvent(e));
    SavedAfter(db, mid, c.record, c.operation, c.reason, c.receiptId, c.eventId);
    UpsertedRest(mid, c);
  }

  // ---- What a record needs to pass.

  /** A list of distinct texts. */
  predicate NoRepeats(texts: seq<Text>) {
    forall j, k :: 0 <= j < k < |texts| ==> texts[j] != texts[k]
  }

  /** The tools that the metadata lists, which are none if it does not say. */
  predicate ToolList(metadata: map<Text, Json>, tools: seq<Text>) {
    if Plain("tools") !in metadata then tools == []
    else
      var j := metadata[Plain("tools")];
      j.Array? && |j.items| == |tools| && forall k :: 0 <= k < |tools| ==> j.items[k] == Str(tools[k])
  }

  /** The caps that the metadata has, which are none if it does not say. */
  predicate CapList(metadata: map<Text, Json>, caps: Dict) {
    if Plain("resource_caps") !in metadata then caps == map[] else metadata[Plain("resource_caps")] == Object(caps)
  }

  /** Plain integers only, and a step cap, if there is one, of 1 to 128. */
  predicate CapsInRange(caps: Dict) {
    && (forall k :: k in caps ==> caps[k].Int?)
    && (Plain("max_steps") in caps ==> 1 <= caps[Plain("max_steps")].number <= 128)
  }

  lemma ToolsRead(r: MemoryRecord, tools: seq<Text>)
    ensures ToolsOf(r) == Some(tools) <==> ToolList(r.metadata, tools)
  {
    if ToolList(r.metadata, tools) && Plain("tools") in r.metadata {
      assert Texts(r.metadata[Plain("tools")].items) == tools;
    }
  }

  lemma CapsRead(r: MemoryRecord, caps: Dict)
    ensures CapsOf(r) == Some(caps) <==> CapList(r.metadata, caps)
  {
  }

  lemma CapsRanged(caps: Dict)
    ensures PlainCaps(caps) && StepsInRange(StepsOf(caps)) <==> CapsInRange(caps)
  {
  }

  /** Prefixes of ids; the ids that the kernel makes have them. */
  predicate Prefixed(r: MemoryRecord) {
    && (r.memoryId.MemoryId? || (r.memoryId.Plain? && "mem_" <= r.memoryId.text))
    && (r.updateId.UpdateId? || (r.updateId.Plain? && "upd_" <= r.updateId.text))
    && forall k :: 0 <= k < |r.sources| ==>
         r.sources[k].EventId? || (r.sources[k].Plain? && "evt_" <= r.sources[k].text)
  }

  lemma StartsMeans(t: Text)
    ensures Starts(t, "mem_") <==> t.MemoryId? || (t.Plain? && "mem_" <= t.text)
    ensures Starts(t, "upd_") <==> t.UpdateId? || (t.Plain? && "upd_" <= t.text)
    ensures Starts(t, "evt_") <==> t.EventId? || (t.Plain? && "evt_" <= t.text)
  {
    var mem, upd, evt := "mem_", "upd_", "evt_";
    assert mem[0] == 'm' && upd[0] == 'u' && evt[0] == 'e';
    var evm, rcp, wfc := "evm_", "rcp_", "wfc_";
    assert evm[0] == 'e' && evm[2] == 'm' && evt[2] == 't' && rcp[0] == 'r' && wfc[0] == 'w';
  }

  lemma SchemaMeans(r: MemoryRecord)
    ensures SchemaPasses(r) <==>
      Prefixed(r) && (r.lane == Candidate || r.lane == Shadow) && r.claim != "" && r.sources != []
  {
    hide Starts;
    StartsMeans(r.memoryId);
    StartsMeans(r.updateId);
    forall k | 0 <= k < |r.sources|
      ensures Starts(r.sources[k], "evt_") <==>
        r.sources[k].EventId? || (r.sources[k].Plain? && "evt_" <= r.sources[k].text)
    {
      StartsMeans(r.sources[k]);
    }
  }

  /**
   What a record needs for the evidence built from it to pass: candidate or shadow lane, a claim, distinct
   sources that are all stored, ids that bind the present content, no float, integer caps in range, and for
   an action one of its tools and the very caps.
  */
  lemma VerifiableMeans(
      r: MemoryRecord, intent: Option<ActionIntent>, events: seq<Event>, tools: seq<Text>, caps: Dict)
    requires ToolList(r.metadata, tools) && CapList(r.metadata, caps)
    ensures Verifiable(r, intent, Collect(events, r.sources)) <==>
      && Prefixed(r) && (r.lane == Candidate || r.lane == Shadow) && r.claim != "" && r.sources != []
      && NoRepeats(r.sources) && (forall k :: 0 <= k < |r.sources| ==> HasEvent(events, r.sources[k]))
      && r.updateId ==
           UpdateId(r.memoryId, ContentHash(Content(r.claim, r.sources, r.metadata, r.supersedes, r.contradicts)))
      && !HasFloat(Object(r.metadata)) && CapsInRange(caps)
      && (intent.Some? ==> intent.value.tool in tools && CapsJson(intent.value.caps) == caps)
  {
    hide SchemaPasses, ToolsOf, CapsOf, Collect, Prefixed, HasFloat, PlainCaps, StepsInRange, StepsOf, CapsInRange,
      HasEvent, ToolList, CapList, Same, CapsJson;
    var known := Collect(events, r.sources);
    SchemaMeans(r);
    ToolsRead(r, tools);
    CapsRead(r, caps);
    CapsRanged(caps);
    CollectedDigests(events, r.sources);
    AllKnown(events, r.sources, known.digests);
    if intent.Some? && PlainCaps(caps) { SameIntCaps(intent.value.caps, caps); }
  }

  lemma AllKnown(events: seq<Event>, sources: seq<Text>, digests: map<Text, Text>)
    requires DigestsOf(events, sources, digests)
    ensures (forall k :: 0 <= k < |sources| ==> HasEvent(events, sources[k])) <==>
      digests.Keys == (set s | s in sources)
  {
    hide HasEvent;
    if digests.Keys == (set s | s in sources) {
      forall k | 0 <= k < |sources| ensures HasEvent(events, sources[k]) {
        assert sources[k] in (set s | s in sources);
      }
    }
    if forall k :: 0 <= k < |sources| ==> HasEvent(events, sources[k]) {
      forall s ensures s in digests.Keys <==> s in (set s | s in sources) {
        if s in sources { var k :| 0 <= k < |sources| && sources[k] == s; }
      }
    }
  }

  lemma SameIntCaps(a: map<Text, int>, caps: Dict)
    requires PlainCaps(caps)
    ensures Same(Object(CapsJson(a)), Object(caps)) <==> CapsJson(a) == caps
  {
  }
}
