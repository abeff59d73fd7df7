/** The checks that look back: receipt verification, the promotion recheck and the strict audit. */
module Rechecks {
  import opened Basics
  import opened Records
  import opened Evidence
  import opened Tables
  import opened Growth
  import opened Pipeline
  import opened Certification
  import opened Races

  /** `DefaultReceiptVerifier.verify_receipt` */
  predicate VerifyReceipt(q: Receipt, m: Manifest, r: MemoryRecord) {
    && q.seed.candidate == r.memoryId
    && q.seed.update == r.updateId
    && m.candidate == q.seed.candidate
    && m.update == q.seed.update
    && m.id in q.seed.refs
    && (q.seed.bound.Some? ==> q.seed.bound.value in q.seed.refs)
    && q.digest == ReceiptHash(q.seed)
  }

  /** `next((ref for ref in refs if ref.startswith("evm_")), "")` */
  function ManifestRef(refs: seq<Text>): Text {
    if refs == [] then Plain("") else if Starts(refs[0], "evm_") then refs[0] else ManifestRef(refs[1..])
  }

  /** `AgentKernel.verify_receipt` on a receipt that was found. */
  predicate ReceiptHolds(db: Db, q: Receipt) {
    var id := ManifestRef(q.seed.refs);
    && id != Plain("")
    && q.seed.candidate in db.records
    && ManifestWith(db.manifests, id).Some?
    && VerifyReceipt(q, ManifestWith(db.manifests, id).value, db.records[q.seed.candidate].raw)
  }

  /** The checkers of the strict audit, on the record as it stands, with its stored manifest and events. */
  predicate StrictRecheck(setting: Setting, db: Db, q: Receipt) {
    var id := ManifestRef(q.seed.refs);
    && id != Plain("")
    && q.seed.candidate in db.records
    && ManifestWith(db.manifests, id).Some?
    && var r := db.records[q.seed.candidate].raw;
       Accepts(setting.readers, r, Dump(ManifestWith(db.manifests, id).value), None, Collect(db.events, r.sources))
  }

  predicate SomeManifest(db: Db, id: Text) {
    exists k :: 0 <= k < |db.manifests| && db.manifests[k].id == id
  }

  /** What the recheck asks of one manifest row with the referenced id. */
  predicate ManifestRechecks(setting: Setting, db: Db, r: MemoryRecord, q: Receipt, m: Manifest) {
    && VerifyReceipt(q, m, r)
    && Accepts(setting.readers, r.(lane := Shadow), Dump(m), None, Collect(db.events, r.sources))
  }

  /**
   `eligibility.promotion`, short of the qualification's own fields: whichever manifest row with the
   referenced id the query picks, every condition on record, receipt, contract and events holds.
  */
  predicate PromotionRechecks(setting: Setting, db: Db, r: MemoryRecord) {
    && r.lane == Certified && UpdateBinds(r)
    && r.receiptId.Some? && r.contractId.Some?
    && ReceiptAt(db.receipts, r.receiptId.value).Some?
    && r.contractId.value in db.contracts
    && var q, c := ReceiptAt(db.receipts, r.receiptId.value).value, db.contracts[r.contractId.value];
      && q.seed.checks != [] && q.seed.passed && AllPassed(q.seed.checks)
      && SomeManifest(db, ManifestRef(q.seed.refs))
      && (forall k :: 0 <= k < |db.manifests| && db.manifests[k].id == ManifestRef(q.seed.refs) ==>
            ManifestRechecks(setting, db, r, q, db.manifests[k]))
      && c.sourceUpdate == r.updateId && c.sourceMemory == r.memoryId && c.receipt == q.id
      && (forall s :: s in r.sources ==> HasEvent(db.events, s) && PayloadsTrue(db.events, s))
  }

  /** The stored payload of the event matches its digest. */
  predicate PayloadsTrue(events: seq<Event>, id: Text) {
    forall k :: 0 <= k < |events| && events[k].id == id ==> events[k].payloadDigest == PayloadHash(events[k].payload)
  }

  /** `promotion` for a qualification that names this memory, update and workflow digest. */
  predicate PromotionAccepts(setting: Setting, db: Db, id: Text, update: Text, workflow: Text) {
    && id in db.records
    && var r := db.records[id].raw;
      && r.updateId == update && ContentHash(ContentOf(r)) == workflow
      && PromotionRechecks(setting, db, r)
  }

  // ---- Receipts.

  lemma {:induction false} ManifestFound(manifests: seq<Manifest>, id: Text)
    ensures ManifestWith(manifests, id).Some? <==> exists k :: 0 <= k < |manifests| && manifests[k].id == id
    ensures ManifestWith(manifests, id).Some? ==>
      ManifestWith(manifests, id).value in manifests && ManifestWith(manifests, id).value.id == id
  {
    if manifests != [] {
      var front := manifests[..|manifests| - 1];
      ManifestFound(front, id);
      assert forall k :: 0 <= k < |front| ==> front[k] == manifests[k];
    }
  }

  lemma {:induction false} ReceiptFound(receipts: seq<Receipt>, id: Text)
    ensures ReceiptAt(receipts, id).Some? <==> exists k :: 0 <= k < |receipts| && receipts[k].id == id
    ensures ReceiptAt(receipts, id).Some? ==>
      ReceiptAt(receipts, id).value in receipts && ReceiptAt(receipts, id).value.id == id
  {
    if receipts != [] {
      var rest := receipts[1..];
      ReceiptFound(rest, id);
      assert forall k :: 0 <= k < |rest| ==> rest[k] == receipts[k + 1];
      assert forall k :: 0 < k < |receipts| ==> receipts[k] == rest[k - 1];
    }
  }

  lemma InvReceipt(setting: Setting, db: Db, q: Receipt)
    requires CertInv(setting, db) && q in db.receipts
    ensures Backed(db, q) && db.records[q.seed.candidate].raw.memoryId == q.seed.candidate
  {
    hide Rooted, Proven, BuiltFor;
    var k :| 0 <= k < |db.receipts| && db.receipts[k] == q;
    assert Backed(db, db.receipts[k]);
  }

  lemma InvManifest(setting: Setting, db: Db, m: Manifest)
    requires CertInv(setting, db) && m in db.manifests
    ensures BuiltFor(setting, db, m)
  {
    hide Rooted, Proven, BuiltFor, Backed;
    var k :| 0 <= k < |db.manifests| && db.manifests[k] == m;
    assert BuiltFor(setting, db, db.manifests[k]);
  }

  /** The id of a built manifest says whose it is and which digests it carries. */
  lemma BuiltIdentity(setting: Setting, db: Db, m: Manifest)
    requires BuiltFor(setting, db, m) && db.records[m.candidate].raw.memoryId == m.candidate
    ensures m.id.ManifestId?
    ensures m.id.manifest.candidate == m.candidate && m.id.manifest.update == m.update
      && m.id.manifest.digests == m.digests
    ensures m.update == db.records[m.candidate].raw.updateId
  {
    hide HasFloat, ReadCaps;
  }

  lemma InvRow(setting: Setting, db: Db, m: Manifest)
    requires CertInv(setting, db) && BuiltFor(setting, db, m)
    ensures db.records[m.candidate].raw.memoryId == m.candidate
  {
    hide Rooted, Proven, Backed;
  }

  lemma FirstRef(q: Receipt)
    requires q.seed.refs != [] && q.seed.refs[0].ManifestId?
    ensures ManifestRef(q.seed.refs) == q.seed.refs[0]
  {
  }

  /** A stored receipt and a stored manifest that it refers to are of one record. */
  lemma ReceiptManifest(setting: Setting, db: Db, q: Receipt, m: Manifest)
    requires CertInv(setting, db) && q in db.receipts && m in db.manifests && m.id == ManifestRef(q.seed.refs)
    ensures Backed(db, q) && BuiltFor(setting, db, m)
    ensures m.candidate == q.seed.candidate
    ensures VerifyReceipt(q, m, db.records[q.seed.candidate].raw)
    ensures q.seed.passed ==> m.digests == Collect(db.events, db.records[q.seed.candidate].raw.sources).digests
  {
    hide CertInv, BuiltFor, Sturdy, Collect;
    InvReceipt(setting, db, q);
    InvManifest(setting, db, m);
    InvRow(setting, db, m);
    BuiltIdentity(setting, db, m);
    FirstRef(q);
  }

  /** Every receipt that a kernel has made verifies, in every interleaving, whatever happened to its memory since. */
  lemma ReceiptsAlwaysVerify(setting: Setting, turns: seq<Turn>, world: World, id: Text)
    requires Played(setting, turns, world) && ReceiptAt(world.db.receipts, id).Some?
    ensures ReceiptHolds(world.db, ReceiptAt(world.db.receipts, id).value)
  {
    hide Play, Played, AllAdmitted, CertInv, Synced, VerifyReceipt, BuiltFor, Sturdy, Collect;
    PlayedInv(setting, turns, world);
    var q := ReceiptAt(world.db.receipts, id).value;
    ReceiptFound(world.db.receipts, id);
    InvReceipt(setting, world.db, q);
    FirstRef(q);
    ManifestFound(world.db.manifests, ManifestRef(q.seed.refs));
    ReceiptManifest(setting, world.db, q, ManifestWith(world.db.manifests, ManifestRef(q.seed.refs)).value);
  }

  // ---- Checkers again.

  /** The stored manifest is still the one that would be built now; so it passes just when it passed before. */
  lemma ManifestStillBuilt(setting: Setting, db: Db, q: Receipt, m: Manifest, lane: Lane)
    requires CertInv(setting, db) && q in db.receipts && m in db.manifests && m.id == ManifestRef(q.seed.refs)
    requires q.seed.passed
    ensures var r := db.records[q.seed.candidate].raw;
      && Backed(db, q)
      && (Accepts(setting.readers, r.(lane := lane), Dump(m), None, Collect(db.events, r.sources)) <==>
          lane in {Candidate, Shadow})
  {
    hide CertInv, Accepts, Dump, Collect, HasFloat, ReadCaps, Verifiable;
    ReceiptManifest(setting, db, q, m);
    var r := db.records[q.seed.candidate].raw;
    var s := r.(lane := lane);
    var known := Collect(db.events, r.sources);
    assert CreateManifest(setting.readers, s, known.digests, ToolsOf(s).value, CapsOf(s).value, m.created) == Some(m);
    BuiltEvidencePasses(setting.readers, s, None, known, m.created);
    VerifiableInLane(r, lane, known);
  }

  lemma VerifiableInLane(r: MemoryRecord, lane: Lane, known: Authority)
    requires Verifiable(r.(lane := Shadow), None, known)
    ensures Verifiable(r.(lane := lane), None, known) <==> lane in {Candidate, Shadow}
  {
    hide HasFloat;
  }

  /**
   The strict audit of a passing receipt passes exactly while its memory is still in the candidate or
   shadow lane: once promoted, the very checks that certified it refuse its lane.
  */
  lemma StrictRecheckByLane(setting: Setting, turns: seq<Turn>, world: World, id: Text)
    requires Played(setting, turns, world)
    requires ReceiptAt(world.db.receipts, id).Some? && ReceiptAt(world.db.receipts, id).value.seed.passed
    ensures var q := ReceiptAt(world.db.receipts, id).value;
      && q.seed.candidate in world.db.records
      && (StrictRecheck(setting, world.db, q) <==> world.db.records[q.seed.candidate].lane in {Candidate, Shadow})
  {
    hide Play, Played, AllAdmitted, CertInv, Synced, BuiltFor, Sturdy, Collect, Accepts, Dump;
    PlayedInv(setting, turns, world);
    var q := ReceiptAt(world.db.receipts, id).value;
    ReceiptFound(world.db.receipts, id);
    InvReceipt(setting, world.db, q);
    FirstRef(q);
    ManifestFound(world.db.manifests, ManifestRef(q.seed.refs));
    var r := world.db.records[q.seed.candidate].raw;
    InvRooted(setting, world.db, q.seed.candidate);
    ManifestStillBuilt(setting, world.db, q, ManifestWith(world.db.manifests, ManifestRef(q.seed.refs)).value, r.lane);
    assert r.(lane := r.lane) == r;
  }

  lemma SturdyMeans(events: seq<Event>, r: MemoryRecord)
    requires Sturdy(events, r)
    ensures UpdateBinds(r) && forall s :: s in r.sources ==> HasEvent(events, s)
  {
    hide HasFloat, SchemaPasses, ToolsOf, CapsOf;
    var known := Collect(events, r.sources);
    assert ContentOf(r.(lane := Shadow)) == ContentOf(r);
    forall s | s in r.sources ensures HasEvent(events, s) {
      assert s in (set x | x in r.sources);
      assert s in known.digests;
      HasDigest(events, s);
    }
  }

  /** Receipts with one id are one receipt. */
  lemma OneReceipt(db: Db, a: Receipt, b: Receipt)
    requires Backed(db, a) && Backed(db, b) && a.id == b.id
    ensures a == b
  {
    hide Sturdy, Collect;
  }

  /** The receipt that the record names. */
  lemma NamedReceipt(setting: Setting, db: Db, id: Text)
    requires CertInv(setting, db) && id in db.records && db.records[id].lane == Certified
    ensures var r := db.records[id].raw;
      && r.memoryId == id && r.lane == Certified
      && r.receiptId.Some? && r.contractId.Some? && r.contractId.value in db.contracts
      && ReceiptAt(db.receipts, r.receiptId.value).Some?
      && ReceiptAt(db.receipts, r.receiptId.value).value in db.receipts
      && Proves(ReceiptAt(db.receipts, r.receiptId.value).value, db.contracts[r.contractId.value], r)
  {
    hide Rooted, BuiltFor, Backed, Passing;
    var r := db.records[id].raw;
    var k :| 0 <= k < |db.receipts| && Proves(db.receipts[k], db.contracts[r.contractId.value], r);
    var q := db.receipts[k];
    ReceiptFound(db.receipts, q.id);
    var found := ReceiptAt(db.receipts, q.id).value;
    InvReceipt(setting, db, q);
    InvReceipt(setting, db, found);
    OneReceipt(db, q, found);
  }

  lemma CertifiedPasses(setting: Setting, db: Db, id: Text)
    requires CertInv(setting, db) && id in db.records && db.records[id].lane == Certified
    ensures PromotionRechecks(setting, db, db.records[id].raw)
  {
    hide CertInv, BuiltFor, Sturdy, Collect, Accepts, Dump, VerifyReceipt, UpdateBinds, HasEvent;
    var r := db.records[id].raw;
    NamedReceipt(setting, db, id);
    var q := ReceiptAt(db.receipts, r.receiptId.value).value;
    InvReceipt(setting, db, q);
    FirstRef(q);
    SturdyMeans(db.events, r);
    InvEvents(setting, db);
    assert forall s :: s in r.sources ==> PayloadsTrue(db.events, s);
    forall k | 0 <= k < |db.manifests| && db.manifests[k].id == ManifestRef(q.seed.refs)
      ensures ManifestRechecks(setting, db, r, q, db.manifests[k])
    {
      ReceiptManifest(setting, db, q, db.manifests[k]);
      ManifestStillBuilt(setting, db, q, db.manifests[k], Shadow);
    }
  }

  /**
   The recheck that every later use of a qualification makes of its memory, in every interleaving: it passes
   exactly when the memory is certified now under the update and with the content that the qualification names.
  */
  lemma CertifiedRechecks(setting: Setting, turns: seq<Turn>, world: World, id: Text, update: Text, workflow: Text)
    requires Played(setting, turns, world)
    ensures PromotionAccepts(setting, world.db, id, update, workflow) <==>
      && LaneNow(world.db, id) == Some(Certified)
      && world.db.records[id].raw.updateId == update
      && workflow == ContentHash(ContentOf(world.db.records[id].raw))
  {
    hide Play, Played, AllAdmitted, CertInv, Synced, Accepts, Dump, Collect, VerifyReceipt, UpdateBinds, HasEvent,
      ManifestRechecks, PayloadsTrue;
    PlayedInv(setting, turns, world);
    if LaneNow(world.db, id) == Some(Certified) { CertifiedPasses(setting, world.db, id); }
  }

  // ---- On tables that anyone may have written.

  /**
   A receipt under the digest of one that a kernel made verifies exactly when nothing in it was changed, for
   the memory and update it was made for, and with evidence of those that it refers to.
  */
  lemma ReceiptTamperEvident(
      setting: Setting, turns: seq<Turn>, world: World, made: Receipt, q: Receipt, m: Manifest, r: MemoryRecord)
    requires Played(setting, turns, world) && made in world.db.receipts && q.digest == made.digest
    ensures VerifyReceipt(q, m, r) <==>
      && q.seed == made.seed && r.memoryId == made.seed.candidate && r.updateId == made.seed.update
      && m.candidate == made.seed.candidate && m.update == made.seed.update && m.id in made.seed.refs
  {
    hide Play, Played, AllAdmitted, CertInv, Synced, Sturdy, Collect;
    PlayedInv(setting, turns, world);
    InvReceipt(setting, world.db, made);
  }

  /**
   What the promotion recheck establishes, whoever wrote the tables: the record is certified and binds its
   content; the receipt that it names has passed for it and digests itself; evidence that the receipt refers
   to has its content and the digests of its stored sources, whose payloads are intact; the contract that it
   names is of that memory, update and receipt.
  */
  lemma RecheckProves(setting: Setting, db: Db, r: MemoryRecord) returns (q: Receipt, m: Manifest, c: Contract)
    requires PromotionRechecks(setting, db, r)
    ensures r.lane == Certified
    ensures r.updateId ==
      UpdateId(r.memoryId, ContentHash(Content(r.claim, r.sources, r.metadata, r.supersedes, r.contradicts)))
    ensures q in db.receipts && r.receiptId == Some(q.id) && q.digest == ReceiptHash(q.seed)
    ensures q.seed.candidate == r.memoryId && q.seed.update == r.updateId && q.seed.passed && q.seed.checks != []
    ensures forall k :: 0 <= k < |q.seed.checks| ==> q.seed.checks[k].passed
    ensures q.seed.bound.Some? ==> q.seed.bound.value in q.seed.refs
    ensures m in db.manifests && m.id in q.seed.refs && m.candidate == r.memoryId && m.update == r.updateId
    ensures m.hash == ContentHash(Content(r.claim, r.sources, r.metadata, r.supersedes, r.contradicts))
    ensures m.inputs == r.sources && m.digests == Collect(db.events, r.sources).digests
    ensures forall s :: s in r.sources ==> HasEvent(db.events, s) && forall k ::
      0 <= k < |db.events| && db.events[k].id == s ==> db.events[k].payloadDigest == PayloadHash(db.events[k].payload)
    ensures Some(c) == (if r.contractId.Some? && r.contractId.value in db.contracts
                        then Some(db.contracts[r.contractId.value]) else None)
    ensures c.sourceMemory == r.memoryId && c.sourceUpdate == r.updateId && c.receipt == q.id
  {
    hide Accepts, Dump, Collect, HasEvent;
    q, c := ReceiptAt(db.receipts, r.receiptId.value).value, db.contracts[r.contractId.value];
    ReceiptFound(db.receipts, r.receiptId.value);
    var k :| 0 <= k < |db.manifests| && db.manifests[k].id == ManifestRef(q.seed.refs);
    m := db.manifests[k];
    assert ManifestRechecks(setting, db, r, q, m);
    AcceptedShows(setting.readers, r, m, Collect(db.events, r.sources));
  }

  lemma AcceptedShows(readers: Readers, r: MemoryRecord, m: Manifest, known: Authority)
    requires Accepts(readers, r.(lane := Shadow), Dump(m), None, known)
    ensures m.hash == ContentHash(ContentOf(r)) && m.inputs == r.sources && m.digests == known.digests
  {
    hide SchemaPasses, ToolsPass, BoundaryPasses, CapsPass, Dump, Parses, Parse, ManifestPasses;
    DumpGets(m);
    DumpedStrings(m.inputs);
    assert ContentOf(r.(lane := Shadow)) == ContentOf(r);
    var digests := map k | k in m.digests :: Str(m.digests[k]);
    assert (map k | k in digests :: digests[k].value) == m.digests;
    assert forall s :: s in known.digests ==> s in m.digests && m.digests[s] == known.digests[s];
  }

  lemma InvEvents(setting: Setting, db: Db)
    requires CertInv(setting, db)
    ensures EventsTrue(db.events)
  {
    hide Rooted, Proven, BuiltFor, Backed;
  }
}
