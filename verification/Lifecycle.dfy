/** The way to certification: what a proposal needs to pass, and that nothing else stands between. */
module Lifecycle {
  import opened Basics
  import opened Records
  import opened Evidence
  import opened Tables
  import opened Growth
  import opened Pipeline
  import opened Certification
  import opened Lanes
  import opened Kernel
  import Native
  import Rational

  // ---- The parts of a proposed record.

  lemma ProposedFields(p: Proposal, events: seq<Event>)
    ensures var m := ProposedMetadata(p, events);
      && Get(m, "tools") == Some(Array(Strings(if p.tools.Some? then p.tools.value else [])))
      && Get(m, "resource_caps") == Some(Object(CapsFor(p, |events|)))
  {
  }

  lemma ProposedHasNoFloat(p: Proposal, events: seq<Event>)
    requires !HasFloat(Object(CapsFor(p, |events|)))
    ensures !HasFloat(Object(ProposedMetadata(p, events)))
  {
    var m := ProposedMetadata(p, events);
    var tools := Array(Strings(if p.tools.Some? then p.tools.value else []));
    NoFloatInStrings(if p.tools.Some? then p.tools.value else []);
    NoFloatInStrings(EventIds(events));
    NoFloatInNames(Kinds(events));
    forall k | k in m ensures !HasFloat(m[k]) {
    }
  }

  lemma NoFloatInNames(names: seq<string>)
    ensures !HasFloat(PlainStrings(names))
  {
  }

  lemma NoFloatInCaps(caps: Dict)
    requires PlainCaps(caps)
    ensures !HasFloat(Object(caps))
  {
  }

  lemma {:induction false} EventsOfUnique(events: seq<Event>, run: Text)
    requires EventsTrue(events)
    ensures Unique(EventIds(EventsOf(events, run)))
    ensures forall i :: 0 <= i < |EventsOf(events, run)| ==> EventsOf(events, run)[i] in events
  {
    if events != [] {
      var front, last := events[..|events| - 1], events[|events| - 1];
      EventsOfUnique(front, run);
      assert events == front + [last];
      var es := EventsOf(front, run);
      forall i | 0 <= i < |es| ensures es[i].id != last.id {
        var k :| 0 <= k < |front| && front[k] == es[i];
        assert events[k] == es[i];
      }
    }
  }

  lemma AllCollected(events: seq<Event>, sources: seq<Text>)
    requires forall i :: 0 <= i < |sources| ==> HasEvent(events, sources[i])
    ensures var known := Collect(events, sources); known.missing == [] && known.digests.Keys == (set s | s in sources)
  {
    hide HasEvent;
    forall i | 0 <= i < |sources| ensures EventDigest(events, sources[i]).Some? { HasDigest(events, sources[i]); }
    MissingMeans(events, sources);
  }

  lemma ProposedSources(setting: Setting, db: Db, run: Text)
    requires CertInv(setting, db)
    ensures var ids := EventIds(EventsOf(db.events, run));
      && Unique(ids)
      && (forall i :: 0 <= i < |ids| ==> HasEvent(db.events, ids[i]) && Starts(ids[i], "evt_"))
  {
    hide Rooted, Proven, BuiltFor, Backed, HasEvent;
    EventsOfUnique(db.events, run);
    EventsOfStored(db.events, run);
    var es := EventsOf(db.events, run);
    forall i | 0 <= i < |es| ensures es[i].id.EventId? {
      var k :| 0 <= k < |db.events| && db.events[k] == es[i];
    }
  }

  lemma ProposedRecord(p: Proposal, events: seq<Event>)
    requires events != [] && CreateRecord(Candidate, ProposedContent(p, events)).Ok?
    ensures var r := CreateRecord(Candidate, ProposedContent(p, events)).value;
      && r.memoryId.MemoryId? && r.updateId.UpdateId? && r.lane == Candidate && r.claim != "" && UpdateBinds(r)
      && r.sources == EventIds(events) && r.metadata == ProposedMetadata(p, events) && r.supersedes == []
  {
    hide ProposalClaim, ProposedMetadata, ContentOf;
    var c := ProposedContent(p, events);
    StripIdempotent(ProposalClaim(events));
    CreatedBinds(Candidate, c);
  }

  lemma {:induction false} StripKeeps(s: string)
    requires s != "" && s[0] !in SPACES
    ensures StripRight(s) != ""
    decreases |s|
  {
    if |s| > 1 && s[|s| - 1] in SPACES { StripKeeps(s[..|s| - 1]); }
  }

  lemma ClaimStays(events: seq<Event>)
    ensures Strip(ProposalClaim(events)) != "" && Strip(Strip(ProposalClaim(events))) != ""
  {
    hide Native.SortedSet, Listed, Rational.PrintNat;
    assert ProposalClaim(events)[0] == 'W';
    StripKeeps(ProposalClaim(events));
    StripIdempotent(ProposalClaim(events));
  }

  lemma ProposedDigestible(p: Proposal, events: seq<Event>)
    ensures Digestible(Object(ProposedMetadata(p, events))) <==> Digestible(Object(CapsFor(p, |events|)))
  {
    var m := ProposedMetadata(p, events);
    if Digestible(Object(CapsFor(p, |events|))) {
      forall k | k in m ensures Digestible(m[k]) {
      }
    } else {
      assert !Digestible(m[Plain("resource_caps")]);
    }
  }

  /** A proposal is refused only when its run has no events or its caps hold a float that is not finite. */
  lemma ProposalMadeIff(db: Db, p: Proposal)
    ensures ProposePlan(db, p).result.Ok? <==>
      EventsOf(db.events, p.run) != [] && (p.caps.Some? ==> Digestible(Object(p.caps.value)))
  {
    hide Strip, ProposalClaim, ProposedMetadata;
    var events := EventsOf(db.events, p.run);
    ClaimStays(events);
    ProposedDigestible(p, events);
    DefaultDigestible(p, |events|);
  }

  lemma DefaultDigestible(p: Proposal, count: nat)
    ensures p.caps.None? ==> Digestible(Object(CapsFor(p, count)))
  {
  }

  /** All but the caps is right by construction: sources, claim, tools and metadata. */
  lemma ProposalOtherwiseVerifiable(setting: Setting, moves: seq<Move>, db: Db, p: Proposal)
    requires Reached(setting, moves, db) && ProposePlan(db, p).result.Ok?
    requires !HasFloat(Object(CapsFor(p, |EventsOf(db.events, p.run)|)))
    ensures var r := ProposePlan(db, p).result.value; OtherwiseVerifiable(r, Collect(db.events, r.sources))
  {
    hide Reached, RunDb, CertInv, Synced, ProposedContent, CreateRecord, Collect, HasFloat, Starts, UpdateBinds, Unique,
      ProposedMetadata, HasEvent, CapsFor;
    ReachedInv(setting, moves, db);
    var events := EventsOf(db.events, p.run);
    var r := ProposePlan(db, p).result.value;
    ProposedRecord(p, events);
    ProposedSources(setting, db, p.run);
    AllCollected(db.events, r.sources);
    ProposedFields(p, events);
    ProposedHasNoFloat(p, events);
    DumpedStrings(if p.tools.Some? then p.tools.value else []);
    IdPrefixes(r);
  }

  lemma ProposalCaps(db: Db, p: Proposal)
    requires ProposePlan(db, p).result.Ok?
    ensures CapsOf(ProposePlan(db, p).result.value) == Some(CapsFor(p, |EventsOf(db.events, p.run)|))
  {
    hide ProposedContent, CreateRecord, ProposedMetadata, CapsFor;
    var events := EventsOf(db.events, p.run);
    ProposedRecord(p, events);
    ProposedFields(p, events);
  }

  /**
   A proposal made in any run can be verified exactly when the caps asked for, if any, are plain integers
   with the step cap in range.
  */
  lemma ProposalVerifiableIff(setting: Setting, moves: seq<Move>, db: Db, p: Proposal)
    requires Reached(setting, moves, db) && ProposePlan(db, p).result.Ok?
    ensures var r := ProposePlan(db, p).result.value;
      Verifiable(r, None, Collect(db.events, r.sources)) <==>
      (p.caps.Some? ==> PlainCaps(p.caps.value) && StepsInRange(StepsOf(p.caps.value)))
  {
    hide Reached, ProposePlan, OtherwiseVerifiable, Collect, HasFloat, StepsInRange, CapsOf, PlainCaps;
    var caps := CapsFor(p, |EventsOf(db.events, p.run)|);
    ProposalCaps(db, p);
    if p.caps.None? { DefaultCapsInRange(p, EventsOf(db.events, p.run)); }
    if PlainCaps(caps) {
      NoFloatInCaps(caps);
      ProposalOtherwiseVerifiable(setting, moves, db, p);
    }
  }

  /**
   A boolean step cap, which a proposal takes as it is: in every run a caller can write evidence that
   passes all seven checkers, while the evidence that the pipeline builds fails.
  */
  lemma BooleanCapProposal(setting: Setting, moves: seq<Move>, db: Db, p: Proposal, created: Json)
    requires Reached(setting, moves, db) && EventsOf(db.events, p.run) != [] && p.caps == Some(BOOLEAN_CAP)
    requires setting.readers.stamp(created) && !HasFloat(created)
    ensures ProposePlan(db, p).result.Ok?
    ensures var r := ProposePlan(db, p).result.value;
      var known := Collect(db.events, r.sources);
      && (exists d: Dict :: Accepts(setting.readers, r, d, None, known))
      && BuiltManifest(setting, db, r, created).Some?
      && !Accepts(setting.readers, r, Dump(BuiltManifest(setting, db, r, created).value), None, known)
  {
    hide *;
    BooleanCapPlain();
    ProposalMadeIff(db, p);
    var r := ProposePlan(db, p).result.value;
    assert CapsFor(p, |EventsOf(db.events, p.run)|) == BOOLEAN_CAP by { CapsAsked(p, |EventsOf(db.events, p.run)|); }
    ProposalOtherwiseVerifiable(setting, moves, db, p);
    ProposalCaps(db, p);
    BooleanCapAccepted(setting.readers, r, Collect(db.events, r.sources), created);
    BuiltIs(setting, db, r, created);
  }

  lemma BooleanCapPlain()
    ensures !HasFloat(Object(BOOLEAN_CAP)) && Digestible(Object(BOOLEAN_CAP))
  {
  }

  lemma CapsAsked(p: Proposal, count: nat)
    requires p.caps.Some?
    ensures CapsFor(p, count) == p.caps.value
  {
  }

  lemma BuiltIs(setting: Setting, db: Db, r: MemoryRecord, created: Json)
    requires OtherwiseVerifiable(r, Collect(db.events, r.sources)) && CapsOf(r).Some?
    ensures BuiltManifest(setting, db, r, created) ==
      CreateManifest(setting.readers, r, Collect(db.events, r.sources).digests, ToolsOf(r).value, CapsOf(r).value,
                     created)
  {
  }

  lemma IdPrefixes(r: MemoryRecord)
    ensures r.memoryId.MemoryId? ==> Starts(r.memoryId, "mem_")
    ensures r.updateId.UpdateId? ==> Starts(r.updateId, "upd_")
  {
  }

  lemma DefaultCapsInRange(p: Proposal, events: seq<Event>)
    requires p.caps.None?
    ensures PlainCaps(CapsFor(p, |events|)) && StepsInRange(StepsOf(CapsFor(p, |events|)))
  {
  }

  // ---- Verification and promotion of a verifiable record.

  lemma PlainCapsReadable(readers: Readers, caps: Dict)
    requires PlainCaps(caps)
    ensures ReadCaps(readers, caps).Some?
  {
  }

  /** An event with the nonce in its id, true to its payload. */
  predicate Numbered(e: Event, nonce: nat) {
    e.id.EventId? && e.id.event.nonce == nonce && e.payloadDigest == PayloadHash(e.payload)
  }

  /** A verifiable record passes: its receipt is passing and it moves to the shadow lane. */
  lemma VerifiablePasses(setting: Setting, db: Db, id: Text, nonce: nat, verification: nat, created: Json)
    requires id in db.records && setting.readers.stamp(created) && !HasFloat(created)
    requires Verifiable(db.records[id].raw, None, Collect(db.events, db.records[id].raw.sources))
    ensures var plan := VerifyPlan(setting, db, id, None, nonce, verification, created);
      var r := db.records[id].raw;
      && plan.result.Ok? && |plan.writes| == 4
      && plan.writes[0].PutManifest? && plan.writes[1] == PutReceipt(plan.result.value)
      && plan.result.value.id.ReceiptId? && plan.result.value.id.verification == verification
      && plan.writes[2].PutEvent? && Numbered(plan.writes[2].event, nonce)
      && plan.result.value.seed.candidate == r.memoryId && Passing(plan.result.value, r.updateId)
      && plan.writes[3].PutRecord?
      && plan.writes[3].change.record == Moved(r, Shadow, "verified in shadow lane", Some(plan.result.value.id))
  {
    hide Verifiable, Collect, HasFloat, Dump, CheckAll, AllPassed, CreateManifest, Moved, VerifyDetails,
      OperationPayload;
    var r := db.records[id].raw;
    var known := Collect(db.events, r.sources);
    VerifiableBuilds(setting, db, r, created);
    var m := BuiltManifest(setting, db, r, created).value;
    BuiltEvidencePasses(setting.readers, r, None, known, created);
    AllPassedIffAccepts(setting.readers, r, Dump(m), None, known);
    SevenChecks(setting.readers, r, Dump(m), None, known);
  }

  lemma SevenChecks(readers: Readers, r: MemoryRecord, d: Dict, intent: Option<ActionIntent>, known: Authority)
    ensures CheckAll(readers, r, d, intent, known) != []
  {
    hide SchemaPasses, InputsPass, ManifestPasses, DigestPasses, ToolsPass, BoundaryPasses, CapsPass;
  }

  lemma VerifiableBuilds(setting: Setting, db: Db, r: MemoryRecord, created: Json)
    requires Verifiable(r, None, Collect(db.events, r.sources))
    ensures ToolsOf(r).Some? && CapsOf(r).Some? && BuiltManifest(setting, db, r, created).Some?
  {
    hide Collect, HasFloat, StepsInRange, ReplayOf, ManifestIdOf, ReadCaps;
    PlainCapsReadable(setting.readers, CapsOf(r).value);
  }

  lemma ReceiptLast(receipts: seq<Receipt>, q: Receipt, update: Text)
    requires Passing(q, update)
    ensures LastPassing(ReceiptsOf(receipts + [q], q.seed.candidate), update) == Some(q)
  {
    hide Passing;
    assert (receipts + [q])[..|receipts|] == receipts;
    var front := ReceiptsOf(receipts, q.seed.candidate);
    assert ReceiptsOf(receipts + [q], q.seed.candidate) == front + [q];
    assert (front + [q])[..|front|] == front;
  }

  /**
   A shadow record whose last receipt is passing is promoted; without superseded memories nothing can stop
   it but its writes.
  */
  lemma ShadowPromotes(db: Db, id: Text, q: Receipt, nonce: nat, clock: nat)
    requires id in db.records && db.records[id].raw.lane == Shadow && db.records[id].raw.supersedes == []
    requires LastPassing(ReceiptsOf(db.receipts, id), db.records[id].raw.updateId) == Some(q)
    ensures var plan := PromotePlan(db, id, nonce, clock);
      var r := db.records[id].raw;
      && plan.result.Ok? && |plan.writes| == 3
      && plan.writes[0] == PutContract(ContractOf(r, q, clock)) && plan.writes[1].PutRecord?
      && plan.writes[2].PutEvent? && Numbered(plan.writes[2].event, nonce)
      && plan.writes[1].change.record == CertifiedBy(r, q, ContractOf(r, q, clock))
  {
    hide LastPassing, ReceiptsOf, ContractOf, CertifiedBy, PromoteDetails, OperationPayload;
    var r := db.records[id].raw;
    var c := CertifiedBy(r, q, ContractOf(r, q, clock));
    assert [PutContract(ContractOf(r, q, clock))] + [] == [PutContract(ContractOf(r, q, clock))];
  }

  lemma {:induction false} RecordWritten(db: Db, ws: seq<Write>, n: nat)
    requires AllSucceed(db, ws) && n < |ws| && ws[n].PutRecord?
    requires forall k :: 0 <= k < |ws| && k != n ==> !ws[k].PutRecord?
    ensures var id := ws[n].change.record.memoryId;
      id in WrittenAll(db, ws).records && WrittenAll(db, ws).records[id] == RowOf(ws[n].change.record)
    decreases |ws|
  {
    hide RowOf, Fails;
    assert forall k :: 0 <= k < |ws| - 1 ==> ws[1..][k] == ws[k + 1];
    if n > 0 {
      RecordWritten(Written(db, ws[0]), ws[1..], n - 1);
    } else {
      RowKept(Written(db, ws[0]), ws[1..], ws[0].change.record.memoryId);
    }
  }

  lemma {:induction false} RowKept(db: Db, ws: seq<Write>, id: Text)
    requires id in db.records && forall k :: 0 <= k < |ws| ==> !ws[k].PutRecord?
    ensures id in WrittenAll(db, ws).records && WrittenAll(db, ws).records[id] == db.records[id]
    decreases |ws|
  {
    hide Fails;
    if ws != [] && !Fails(db, ws[0]) {
      assert forall k :: 0 <= k < |ws| - 1 ==> ws[1..][k] == ws[k + 1];
      RowKept(Written(db, ws[0]), ws[1..], id);
    }
  }

  lemma VerifyReceipts(db: Db, m: Manifest, q: Receipt, e: Event, c: Change)
    requires AllSucceed(db, [PutManifest(m), PutReceipt(q), PutEvent(e), PutRecord(c)])
    ensures WrittenAll(db, [PutManifest(m), PutReceipt(q), PutEvent(e), PutRecord(c)]).receipts == db.receipts + [q]
  {
    hide WrittenAll, AllSucceed;
    VerifyWrites(db, m, q, e, c);
  }

  /** Verified and promoted, one after the other, with no write refused. */
  ghost predicate Certifies(
      setting: Setting, db: Db, id: Text, verify: Step, promote: Step, shadow: Db, certified: Db) {
    && verify.Verifying? && verify.id == id && verify.intent == None && ValidStep(setting, verify)
    && promote.Promoting? && promote.id == id
    && AllSucceed(db, WritesOf(setting, db, verify)) && shadow == WrittenAll(db, WritesOf(setting, db, verify))
    && AllSucceed(shadow, WritesOf(setting, shadow, promote))
      && certified == WrittenAll(shadow, WritesOf(setting, shadow, promote))
  }

  /** A verifiable record is in the shadow lane after verification and certified after promotion. */
  lemma VerifiableIsCertified(
      setting: Setting, db: Db, id: Text, verify: Step, promote: Step, shadow: Db, certified: Db)
    requires id in db.records && db.records[id].raw.memoryId == id && db.records[id].raw.supersedes == []
    requires Verifiable(db.records[id].raw, None, Collect(db.events, db.records[id].raw.sources))
    requires Certifies(setting, db, id, verify, promote, shadow, certified)
    ensures LaneNow(shadow, id) == Some(Shadow) && LaneNow(certified, id) == Some(Certified)
  {
    hide VerifyPlan, PromotePlan, Verifiable, Collect, HasFloat, WrittenAll, AllSucceed, Passing, LastPassing,
      ReceiptsOf;
    var r := db.records[id].raw;
    VerifiablePasses(setting, db, id, verify.nonce, verify.verification, verify.created);
    var ws := WritesOf(setting, db, verify);
    var q := VerifyPlan(setting, db, id, None, verify.nonce, verify.verification, verify.created).result.value;
    RecordWritten(db, ws, 3);
    assert ws == [PutManifest(ws[0].manifest), PutReceipt(q), PutEvent(ws[2].event), PutRecord(ws[3].change)];
    VerifyReceipts(db, ws[0].manifest, q, ws[2].event, ws[3].change);
    ReceiptLast(db.receipts, q, r.updateId);
    ShadowPromotes(shadow, id, q, promote.nonce, promote.clock);
    RecordWritten(shadow, WritesOf(setting, shadow, promote), 1);
  }

  /**
   From any run: a proposal with caps in range, verified and then promoted, is certified. So the
   conditions on certified records are met by every memory that takes this way.
  */
  lemma ProposalsCanBeCertified(
      setting: Setting, moves: seq<Move>, db: Db, p: Proposal, verify: Step, promote: Step, shadow: Db, certified: Db)
    requires Reached(setting, moves, db) && ProposePlan(db, p).result.Ok?
    requires p.caps.Some? ==> PlainCaps(p.caps.value) && StepsInRange(StepsOf(p.caps.value))
    requires Certifies(setting, WrittenAll(db, ProposePlan(db, p).writes), ProposePlan(db, p).result.value.memoryId,
                       verify, promote, shadow, certified)
    ensures LaneNow(certified, ProposePlan(db, p).result.value.memoryId) == Some(Certified)
  {
    hide Reached, ProposePlan, Verifiable, StepsInRange, Certifies, RowOf;
    var r := ProposePlan(db, p).result.value;
    ProposalShape(db, p);
    ProposalVerifiableIff(setting, moves, db, p);
    var w := PutRecord(Change(r, Wrote, "proposed from run", None, None));
    SingleWrite(db, w);
    var proposed := Written(db, w);
    RowRaw(r);
    ProposalSupersedes(db, p);
    VerifiableIsCertified(setting, proposed, r.memoryId, verify, promote, shadow, certified);
  }

  lemma RowRaw(r: MemoryRecord)
    ensures RowOf(r).raw == r
  {
  }

  lemma ProposalSupersedes(db: Db, p: Proposal)
    requires ProposePlan(db, p).result.Ok?
    ensures ProposePlan(db, p).result.value.supersedes == []
  {
    hide ProposalClaim, ProposedMetadata;
  }
}
