/**
 What the tables keep in every run of certification operations, with a crash allowed after any write:
 a certified record is backed by its receipt, evidence and contract.
*/
module Certification {
  import opened Basics
  import opened Records
  import opened Evidence
  import opened Tables
  import opened Plans
  import opened Growth
  import opened Pipeline

  // ---- The invariant.

  /** The ids are those of the content, which is never edited, and the first source is stored. */
  predicate Rooted(events: seq<Event>, r: MemoryRecord) {
    && r.memoryId.MemoryId?
    && var c := r.memoryId.content;
      && r.updateId == UpdateId(r.memoryId, ContentHash(c))
      && ContentOf(r) == c.(claim := Strip(c.claim))
      && r.claim != ""
      && r.sources != [] && HasEvent(events, r.sources[0])
  }

  /** The receipt is passing, for the record's present update, and the contract is of the two. */
  predicate Proves(q: Receipt, c: Contract, r: MemoryRecord) {
    && r.receiptId == Some(q.id)
    && Passing(q, r.updateId) && q.seed.candidate == r.memoryId
    && r.contractId == Some(c.id)
    && c.sourceMemory == r.memoryId && c.sourceUpdate == r.updateId
    && c.receipt == q.id && c.receiptHash == q.digest
    && c.candidateDigest == ContentHash(ContentOf(r))
  }

  /** A stored receipt and a stored contract that certify the record. */
  predicate Proven(db: Db, r: MemoryRecord) {
    && r.contractId.Some? && r.contractId.value in db.contracts
    && exists k :: 0 <= k < |db.receipts| && Proves(db.receipts[k], db.contracts[r.contractId.value], r)
  }

  /** The manifest is what the pipeline builds for its record from the digests that it names. */
  predicate BuiltFor(setting: Setting, db: Db, m: Manifest) {
    && m.candidate in db.records
    && setting.readers.stamp(m.created) && !HasFloat(m.created)
    && var r := db.records[m.candidate].raw;
      && ToolsOf(r).Some? && CapsOf(r).Some?
      && CreateManifest(setting.readers, r, m.digests, ToolsOf(r).value, CapsOf(r).value, m.created) == Some(m)
  }

  /** What a passing verification established of the record, whatever lane it is in now. */
  predicate Sturdy(events: seq<Event>, r: MemoryRecord) {
    Verifiable(r.(lane := Shadow), None, Collect(events, r.sources))
  }

  /** The receipt digests itself, refers to a stored manifest of its record and, if it passed, rightly so. */
  predicate Backed(db: Db, q: Receipt) {
    && q.digest == ReceiptHash(q.seed) && q.id == ReceiptId(q.verification, q.digest)
    && q.seed.candidate in db.records
    && var r := db.records[q.seed.candidate].raw;
      && q.seed.update == r.updateId
      && |q.seed.refs| >= 2 && q.seed.refs[0].ManifestId?
      && q.seed.refs[0].manifest.candidate == r.memoryId && q.seed.refs[0].manifest.update == r.updateId
      && (exists k :: 0 <= k < |db.manifests| && db.manifests[k].id == q.seed.refs[0])
      && (q.seed.bound.Some? ==> q.seed.bound.value in q.seed.refs)
      && q.seed.passed == AllPassed(q.seed.checks) && q.seed.checks != []
      && (q.seed.passed ==>
            && Sturdy(db.events, r)
            && q.seed.refs[0].manifest.digests == Collect(db.events, r.sources).digests)
  }

  /** Stored events carry the digests of their own payloads and have ids of their own. */
  predicate EventsTrue(events: seq<Event>) {
    && (forall k :: 0 <= k < |events| ==>
        events[k].payloadDigest == PayloadHash(events[k].payload) && events[k].id.EventId?)
    && (forall j, k :: 0 <= j < k < |events| ==> events[j].id != events[k].id)
  }

  /** A contract is stored under its own id, which digests the id of a stored receipt. */
  predicate ContractTrue(db: Db, id: Text, c: Contract) {
    c.id == id && id.ContractId? && HasReceipt(db.receipts, id.contract.receipt)
  }

  ghost predicate CertInv(setting: Setting, db: Db) {
    && RowsTrue(db) && EventsTrue(db.events)
    && (forall id :: id in db.contracts ==> ContractTrue(db, id, db.contracts[id]))
    && (forall id :: id in db.records ==> Rooted(db.events, db.records[id].raw))
    && (forall id :: id in db.records && db.records[id].lane == Certified ==> Proven(db, db.records[id].raw))
    && (forall k :: 0 <= k < |db.manifests| ==> BuiltFor(setting, db, db.manifests[k]))
    && (forall k :: 0 <= k < |db.receipts| ==> Backed(db, db.receipts[k]))
  }

  // ---- What one write must bring to keep it.

  ghost predicate Admissible(setting: Setting, db: Db, w: Write) {
    match w
    case PutRecord(c) => Rooted(db.events, c.record) && (c.record.lane == Certified ==> Proven(db, c.record))
    case PutManifest(m) => BuiltFor(setting, db, m)
    case PutReceipt(q) => Backed(db, q)
    case PutEvent(e) => e.id.EventId?
    case PutContract(c) => ContractTrue(db, c.id, c)
  }

  ghost function Admits(setting: Setting): Rule {
    (db, w) => Admissible(setting, db, w)
  }

  lemma HasEventStays(events: seq<Event>, e: Event, id: Text)
    requires HasEvent(events, id)
    ensures HasEvent(events + [e], id)
  {
    var i :| 0 <= i < |events| && events[i].id == id;
    assert (events + [e])[i].id == id;
  }

  lemma RootedStays(events: seq<Event>, e: Event, r: MemoryRecord)
    requires Rooted(events, r)
    ensures Rooted(events + [e], r)
  {
    HasEventStays(events, e, r.sources[0]);
  }

  // ---- What holds of an object holds of it in grown tables.

  lemma RootedGrows(events: seq<Event>, later: seq<Event>, r: MemoryRecord)
    requires Rooted(events, r) && EventsGrow(events, later)
    ensures Rooted(later, r)
  {
    hide HasEvent, EventsGrow;
    HasEventGrows(events, later, r.sources[0]);
  }

  lemma ProvenGrows(db: Db, g: Db, r: MemoryRecord)
    requires Proven(db, r) && Grows(db, g)
    ensures Proven(g, r)
  {
    hide Proves, EventsGrow, SameMemory;
    var k :| 0 <= k < |db.receipts| && Proves(db.receipts[k], db.contracts[r.contractId.value], r);
    assert db.receipts[k] in g.receipts;
    var l :| 0 <= l < |g.receipts| && g.receipts[l] == db.receipts[k];
    assert Proves(g.receipts[l], g.contracts[r.contractId.value], r);
  }

  lemma BuiltGrows(setting: Setting, db: Db, g: Db, m: Manifest)
    requires BuiltFor(setting, db, m) && Grows(db, g)
    ensures BuiltFor(setting, g, m)
  {
    hide EventsGrow, HasFloat;
  }

  lemma SturdyGrows(events: seq<Event>, later: seq<Event>, r: MemoryRecord)
    requires Sturdy(events, r) && EventsGrow(events, later)
    ensures Sturdy(later, r) && Collect(later, r.sources) == Collect(events, r.sources)
  {
    hide Verifiable, Collect, EventsGrow;
    VerifiablePresent(r.(lane := Shadow), Collect(events, r.sources));
    CollectGrows(events, later, r.sources);
  }

  lemma VerifiablePresent(r: MemoryRecord, known: Authority)
    requires Verifiable(r, None, known)
    ensures known.missing == []
  {
  }

  lemma SturdySame(events: seq<Event>, a: MemoryRecord, b: MemoryRecord)
    requires SameMemory(a, b)
    ensures Sturdy(events, a) <==> Sturdy(events, b)
  {
    hide Collect, HasFloat;
  }

  lemma BackedGrows(db: Db, g: Db, q: Receipt)
    requires Backed(db, q) && Grows(db, g)
    ensures Backed(g, q)
  {
    hide Sturdy, Collect, EventsGrow, AllPassed;
    var r, s := db.records[q.seed.candidate].raw, g.records[q.seed.candidate].raw;
    var k :| 0 <= k < |db.manifests| && db.manifests[k].id == q.seed.refs[0];
    assert db.manifests[k] in g.manifests;
    if q.seed.passed {
      SturdyGrows(db.events, g.events, r);
      SturdySame(g.events, r, s);
    }
  }

  lemma ContractGrows(db: Db, g: Db, id: Text, c: Contract)
    requires ContractTrue(db, id, c) && Grows(db, g)
    ensures ContractTrue(g, id, c)
  {
    hide EventsGrow, SameMemory, HasReceipt;
    HasReceiptGrows(db.receipts, g.receipts, id.contract.receipt);
  }

  /** What may be written may also be written to grown tables. */
  lemma AdmissibleGrows(setting: Setting, db: Db, g: Db, w: Write)
    requires Admissible(setting, db, w) && Grows(db, g)
    ensures Admissible(setting, g, w)
  {
    hide Rooted, Proven, BuiltFor, Backed, ContractTrue, EventsGrow, SameMemory;
    match w
    case PutRecord(c) =>
      RootedGrows(db.events, g.events, c.record);
      if c.record.lane == Certified { ProvenGrows(db, g, c.record); }
    case PutManifest(m) => BuiltGrows(setting, db, g, m);
    case PutReceipt(q) => BackedGrows(db, g, q);
    case PutContract(c) => ContractGrows(db, g, c.id, c);
    case PutEvent(_) =>
  }

  lemma PlanGrows(setting: Setting, db: Db, g: Db, ws: seq<Write>)
    requires AllMeet(Admits(setting), db, ws) && Grows(db, g)
    ensures AllMeet(Admits(setting), g, ws)
  {
    hide Admissible, AllMeet, Grows;
    forall d: Db, e: Db, w: Write | Grows(d, e) && Admits(setting)(d, w) ensures Admits(setting)(e, w) {
      AdmissibleGrows(setting, d, e, w);
    }
    MeetGrows(Admits(setting), db, g, ws);
  }

  // ---- One write.

  /** Two records of one memory differ in lane, reason, receipt and contract only. */
  lemma RootedSame(events: seq<Event>, later: seq<Event>, a: MemoryRecord, b: MemoryRecord)
    requires Rooted(events, a) && Rooted(later, b) && a.memoryId == b.memoryId
    ensures SameMemory(a, b)
  {
  }

  lemma AdmissibleWriteGrows(setting: Setting, db: Db, w: Write)
    requires CertInv(setting, db) && Admissible(setting, db, w) && !Fails(db, w)
    ensures Grows(db, Written(db, w))
  {
    hide Rooted, Proven, BuiltFor, Backed, ContractTrue, Fails, Grows;
    if w.PutRecord? && w.change.record.memoryId in db.records {
      var id := w.change.record.memoryId;
      RootedSame(db.events, db.events, db.records[id].raw, w.change.record);
    }
    WriteGrows(db, w);
  }

  lemma RecordsKeep(setting: Setting, db: Db, w: Write)
    requires CertInv(setting, db) && Admissible(setting, db, w) && Grows(db, Written(db, w))
    ensures var g := Written(db, w); RowsTrue(g)
    ensures var g := Written(db, w); forall id :: id in g.records ==> Rooted(g.events, g.records[id].raw)
    ensures var g := Written(db, w);
      forall id :: id in g.records && g.records[id].lane == Certified ==> Proven(g, g.records[id].raw)
  {
    hide Rooted, Proven, BuiltFor, Backed, ContractTrue, SameMemory, EventsGrow, EventsTrue, Without, RevisionOf,
      IndexRowOf;
    var g := Written(db, w);
    AdmissibleGrows(setting, db, g, w);
    forall id | id in g.records
      ensures Rooted(g.events, g.records[id].raw)
      ensures g.records[id].lane == Certified ==> Proven(g, g.records[id].raw)
    {
      if !(w.PutRecord? && w.change.record.memoryId == id) {
        RootedGrows(db.events, g.events, db.records[id].raw);
        if g.records[id].lane == Certified { ProvenGrows(db, g, db.records[id].raw); }
      }
    }
  }

  lemma EvidenceKeeps(setting: Setting, db: Db, w: Write)
    requires CertInv(setting, db) && Admissible(setting, db, w) && Grows(db, Written(db, w))
    ensures var g := Written(db, w); forall id :: id in g.contracts ==> ContractTrue(g, id, g.contracts[id])
    ensures var g := Written(db, w); forall k :: 0 <= k < |g.manifests| ==> BuiltFor(setting, g, g.manifests[k])
    ensures var g := Written(db, w); forall k :: 0 <= k < |g.receipts| ==> Backed(g, g.receipts[k])
  {
    hide Rooted, Proven, BuiltFor, Backed, ContractTrue, Grows, RowsTrue, EventsTrue, Without, RevisionOf, IndexRowOf;
    var g := Written(db, w);
    AdmissibleGrows(setting, db, g, w);
    forall id | id in g.contracts ensures ContractTrue(g, id, g.contracts[id]) {
      if !(w.PutContract? && w.contract.id == id) { ContractGrows(db, g, id, db.contracts[id]); }
    }
    forall k | 0 <= k < |g.manifests| ensures BuiltFor(setting, g, g.manifests[k]) {
      if k < |db.manifests| { BuiltGrows(setting, db, g, db.manifests[k]); }
    }
    forall k | 0 <= k < |g.receipts| ensures Backed(g, g.receipts[k]) {
      if k < |db.receipts| { BackedGrows(db, g, db.receipts[k]); }
    }
  }

  lemma EventsKeep(db: Db, w: Write)
    requires EventsTrue(db.events) && !Fails(db, w) && (w.PutEvent? ==> w.event.id.EventId?)
    ensures EventsTrue(Written(db, w).events)
  {
    hide Without, RevisionOf, IndexRowOf;
  }

  lemma WriteKeeps(setting: Setting, db: Db, w: Write)
    requires CertInv(setting, db) && Admissible(setting, db, w) && !Fails(db, w)
    ensures CertInv(setting, Written(db, w))
  {
    hide Rooted, Proven, BuiltFor, Backed, ContractTrue, Fails, Grows, EventsTrue, RowsTrue, Written;
    AdmissibleWriteGrows(setting, db, w);
    RecordsKeep(setting, db, w);
    EvidenceKeeps(setting, db, w);
    EventsKeep(db, w);
  }

  lemma WritesKeep(setting: Setting, db: Db, ws: seq<Write>, cut: nat)
    requires CertInv(setting, db) && AllMeet(Admits(setting), db, ws)
    ensures CertInv(setting, WrittenAll(db, Take(ws, cut)))
  {
    hide CertInv, Admissible, AllMeet, Fails, Written, WrittenAll;
    forall d: Db, w: Write | CertInv(setting, d) && Admits(setting)(d, w) && !Fails(d, w)
      ensures CertInv(setting, Written(d, w))
    {
      WriteKeeps(setting, d, w);
    }
    MeetKeeps(Admits(setting), d => CertInv(setting, d), db, ws, cut);
  }

  // ---- The operations.

  lemma CreatedRooted(events: seq<Event>, lane: Lane, c: Content)
    requires CreateRecord(lane, c).Ok? && c.sources != [] && HasEvent(events, c.sources[0])
    ensures Rooted(events, CreateRecord(lane, c).value)
  {
  }

  lemma MovedRooted(events: seq<Event>, r: MemoryRecord, lane: Lane, reason: string, receipt: Option<Text>)
    requires Rooted(events, r)
    ensures Rooted(events, Moved(r, lane, reason, receipt))
  {
  }

  /** An event, then a record whose first source it is. */
  lemma EventThenRecord(setting: Setting, db: Db, e: Event, lane: Lane, c: Content, change: Change)
    requires lane != Certified && CreateRecord(lane, c).Ok? && c.sources != [] && c.sources[0] == e.id && e.id.EventId?
    requires change.record == CreateRecord(lane, c).value
    ensures AllMeet(Admits(setting), db, [PutEvent(e), PutRecord(change)])
  {
    hide Rooted;
    var g := Written(db, PutEvent(e));
    assert g.events[|db.events|] == e;
    CreatedRooted(g.events, lane, c);
    CreatedLane(lane, c);
    MeetTwo(Admits(setting), db, PutEvent(e), PutRecord(change));
  }

  lemma ObserveAdmissible(
      setting: Setting, db: Db, kind: string, payload: Json, run: Text, parents: seq<Text>, claim: string,
      indexed: bool, nonce: nat)
    ensures AllMeet(Admits(setting), db, ObservePlan(db, kind, payload, run, parents, claim, indexed, nonce).writes)
  {
    hide AllMeet, CreateRecord, Digestible;
    MeetNone(Admits(setting), db);
    var e := MakeEvent(nonce, run, kind, payload, parents);
    MeetOne(Admits(setting), db, PutEvent(e));
    if indexed {
      var metadata := map[
        Plain("kind") := Str(Plain(kind)), Plain("run_id") := Str(run), Plain("obs_seq") := Int(|db.events| + 1)];
      var c := Content(claim, [e.id], metadata, [], []);
      if CreateRecord(Raw, c).Ok? {
        EventThenRecord(setting, db, e, Raw, c, Change(CreateRecord(Raw, c).value, Wrote, "", None, Some(e.id)));
      }
    }
  }

  lemma {:induction false} EventsOfStored(events: seq<Event>, run: Text)
    ensures forall i :: 0 <= i < |EventsOf(events, run)| ==> HasEvent(events, EventsOf(events, run)[i].id)
  {
    if events != [] {
      var front, last := events[..|events| - 1], events[|events| - 1];
      EventsOfStored(front, run);
      assert events == front + [last];
      forall i | 0 <= i < |EventsOf(front, run)| ensures HasEvent(events, EventsOf(front, run)[i].id) {
        HasEventStays(front, last, EventsOf(front, run)[i].id);
      }
      assert events[|front|] == last;
    }
  }

  lemma ProposeAdmissible(setting: Setting, db: Db, p: Proposal)
    ensures AllMeet(Admits(setting), db, ProposePlan(db, p).writes)
  {
    hide Rooted, CreateRecord, ProposedMetadata, ProposalClaim;
    var events := EventsOf(db.events, p.run);
    var c := ProposedContent(p, events);
    if events != [] && CreateRecord(Candidate, c).Ok? {
      EventsOfStored(db.events, p.run);
      CreatedRooted(db.events, Candidate, c);
      CreatedLane(Candidate, c);
      MeetOne(Admits(setting), db, ProposePlan(db, p).writes[0]);
    }
  }

  lemma CreatedLane(lane: Lane, c: Content)
    requires CreateRecord(lane, c).Ok?
    ensures var r := CreateRecord(lane, c).value; r.lane == lane && r.memoryId == MemoryId(lane, c)
  {
  }

  lemma CorrectAdmissible(
      setting: Setting, db: Db, id: Text, claim: string, run: Option<Text>, sources: seq<Text>, nonce: nat)
    ensures AllMeet(Admits(setting), db, CorrectPlan(db, id, claim, run, sources, nonce).writes)
  {
    hide AllMeet, CreateRecord, CorrectedMetadata, OperationEvent;
    MeetNone(Admits(setting), db);
    if id in db.records {
      var ws := CorrectPlan(db, id, claim, run, sources, nonce).writes;
      MeetOne(Admits(setting), db, ws[0]);
      if |ws| == 2 {
        var original := db.records[id].raw;
        var actual := if run.Some? && run.value != Plain("") then run.value else RunOf(original.metadata, "correction");
        var e := ws[0].event;
        var inputs := [e.id] + sources;
        var c := Content(claim, inputs, CorrectedMetadata(original, actual, |inputs|), [id], []);
        EventThenRecord(setting, db, e, Candidate, c, ws[1].change);
      }
    }
  }

  lemma ContradictAdmissible(
      setting: Setting, db: Db, id: Text, claim: string, sources: seq<Text>, reason: string, nonce: nat)
    ensures AllMeet(Admits(setting), db, ContradictPlan(db, id, claim, sources, reason, nonce).writes)
  {
    hide AllMeet, CreateRecord, ContradictedMetadata, OperationEvent;
    MeetNone(Admits(setting), db);
    if id in db.records {
      var ws := ContradictPlan(db, id, claim, sources, reason, nonce).writes;
      MeetOne(Admits(setting), db, ws[0]);
      if |ws| == 2 {
        var original := db.records[id].raw;
        var run := RunOf(original.metadata, "contradiction");
        var e := ws[0].event;
        var c := Content(claim, [e.id] + sources, ContradictedMetadata(original, run, reason), [], [id]);
        EventThenRecord(setting, db, e, Contradiction, c, ws[1].change);
      }
    }
  }

  /** A move to a lane other than certified, then an event. */
  lemma MoveThenEvent(setting: Setting, db: Db, c: Change, e: Event)
    requires Rooted(db.events, c.record) && c.record.lane != Certified && e.id.EventId?
    ensures AllMeet(Admits(setting), db, [PutRecord(c), PutEvent(e)])
  {
    hide Rooted, Upserted;
    MeetTwo(Admits(setting), db, PutRecord(c), PutEvent(e));
  }

  lemma InvRooted(setting: Setting, db: Db, id: Text)
    requires CertInv(setting, db) && id in db.records
    ensures Rooted(db.events, db.records[id].raw) && db.records[id] == RowOf(db.records[id].raw)
    ensures db.records[id].raw.memoryId == id
  {
    hide Rooted, Proven, BuiltFor, Backed;
  }

  lemma RetireAdmissible(setting: Setting, db: Db, id: Text, reason: string, nonce: nat)
    requires CertInv(setting, db)
    ensures AllMeet(Admits(setting), db, RetirePlan(db, id, reason, nonce).writes)
  {
    hide AllMeet, CertInv, Rooted, OperationEvent;
    if id in db.records {
      InvRooted(setting, db, id);
      var ws := RetirePlan(db, id, reason, nonce).writes;
      if ws != [] {
        MovedRooted(db.events, db.records[id].raw, Tombstone, reason, None);
        MoveThenEvent(setting, db, ws[0].change, ws[1].event);
      } else {
        MeetNone(Admits(setting), db);
      }
    } else {
      MeetNone(Admits(setting), db);
    }
  }

  lemma SupersedeAdmissible(setting: Setting, db: Db, earlier: Text, newer: Text, receipt: Text, nonce: nat)
    requires CertInv(setting, db)
    ensures AllMeet(Admits(setting), db, SupersedePlan(db, earlier, newer, receipt, nonce).writes)
  {
    hide AllMeet, CertInv, Rooted, OperationEvent;
    MeetNone(Admits(setting), db);
    var ws := SupersedePlan(db, earlier, newer, receipt, nonce).writes;
    if ws != [] {
      InvRooted(setting, db, earlier);
      MovedRooted(db.events, db.records[earlier].raw, Superseded, "superseded", Some(receipt));
      MoveThenEvent(setting, db, ws[0].change, ws[1].event);
    }
  }

  // ---- Verification.

  lemma BuiltNow(setting: Setting, db: Db, id: Text, created: Json)
    requires CertInv(setting, db) && id in db.records && setting.readers.stamp(created) && !HasFloat(created)
    requires BuiltManifest(setting, db, db.records[id].raw, created).Some?
    ensures BuiltFor(setting, db, BuiltManifest(setting, db, db.records[id].raw, created).value)
  {
    hide CertInv, HasFloat, ReadCaps, ReplayOf, ManifestIdOf, Collect;
    InvRooted(setting, db, id);
  }

  /** A record whose built evidence passes is sturdy. */
  lemma PassedIsSturdy(
      setting: Setting, db: Db, r: MemoryRecord, m: Manifest, intent: Option<ActionIntent>, created: Json)
    requires BuiltManifest(setting, db, r, created) == Some(m) && setting.readers.stamp(created) && !HasFloat(created)
    requires AllPassed(CheckAll(setting.readers, r, Dump(m), intent, Collect(db.events, r.sources)))
    ensures Sturdy(db.events, r)
  {
    hide Accepts, CheckAll, AllPassed, Collect, Dump, HasFloat, CreateManifest, Verifiable;
    var known := Collect(db.events, r.sources);
    AllPassedIffAccepts(setting.readers, r, Dump(m), intent, known);
    BuiltEvidencePasses(setting.readers, r, intent, known, created);
    VerifiableInShadow(r, intent, known);
  }

  lemma VerifiableInShadow(r: MemoryRecord, intent: Option<ActionIntent>, known: Authority)
    requires Verifiable(r, intent, known)
    ensures Verifiable(r.(lane := Shadow), None, known)
  {
    hide HasFloat, Same;
  }

  lemma ReceiptBacked(
      setting: Setting, db: Db, r: MemoryRecord, m: Manifest, intent: Option<ActionIntent>, verification: nat,
      created: Json)
    requires r.memoryId in db.records && db.records[r.memoryId].raw == r
    requires BuiltManifest(setting, db, r, created) == Some(m) && setting.readers.stamp(created) && !HasFloat(created)
    ensures Backed(Written(db, PutManifest(m)), ReceiptFor(setting, db, r, m, intent, verification))
  {
    hide Sturdy, HasFloat, Dump, ReadCaps, ReplayOf, SchemaPasses, InputsPass, ManifestPasses, DigestPasses, ToolsPass,
      BoundaryPasses, CapsPass, Collect;
    var g := Written(db, PutManifest(m));
    var q := ReceiptFor(setting, db, r, m, intent, verification);
    assert g.manifests[|db.manifests|].id == q.seed.refs[0];
    assert q.seed.bound.Some? ==> q.seed.refs[2] == q.seed.bound.value;
    if q.seed.passed { PassedIsSturdy(setting, db, r, m, intent, created); }
  }

  lemma VerifyAdmissible(
      setting: Setting, db: Db, id: Text, intent: Option<ActionIntent>, nonce: nat, verification: nat, created: Json)
    requires CertInv(setting, db) && setting.readers.stamp(created) && !HasFloat(created)
    ensures AllMeet(Admits(setting), db, VerifyPlan(setting, db, id, intent, nonce, verification, created).writes)
  {
    hide AllMeet, CertInv, HasFloat, Rooted, BuiltFor, Backed, BuiltManifest, ReceiptFor, VerifyDetails;
    MeetNone(Admits(setting), db);
    var ws := VerifyPlan(setting, db, id, intent, nonce, verification, created).writes;
    if ws != [] {
      var r := db.records[id].raw;
      var m := BuiltManifest(setting, db, r, created).value;
      var q := ReceiptFor(setting, db, r, m, intent, verification);
      InvRooted(setting, db, id);
      BuiltNow(setting, db, id, created);
      ReceiptBacked(setting, db, r, m, intent, verification, created);
      var db1 := Written(db, ws[0]);
      var db2 := Written(db1, ws[1]);
      RootedStays(db.events, ws[2].event, r);
      MovedRooted(db.events + [ws[2].event], r, ws[3].change.record.lane, ws[3].change.record.reason, Some(q.id));
      MeetTwo(Admits(setting), db2, ws[2], ws[3]);
      MeetCons(Admits(setting), db1, ws[1], [ws[2], ws[3]]);
      assert [ws[1]] + [ws[2], ws[3]] == [ws[1], ws[2], ws[3]];
      MeetCons(Admits(setting), db, ws[0], [ws[1], ws[2], ws[3]]);
      assert ws == [ws[0]] + [ws[1], ws[2], ws[3]];
    }
  }

  // ---- Promotion.

  lemma {:induction false} LastPassingFound(receipts: seq<Receipt>, update: Text)
    ensures LastPassing(receipts, update).Some? ==>
      LastPassing(receipts, update).value in receipts && Passing(LastPassing(receipts, update).value, update)
  {
    hide Passing;
    if receipts != [] {
      LastPassingFound(receipts[..|receipts| - 1], update);
      assert receipts[|receipts| - 1] in receipts;
    }
  }

  lemma CertifiedProven(db: Db, r: MemoryRecord, q: Receipt, contract: Contract)
    requires q in db.receipts && Passing(q, r.updateId) && q.seed.candidate == r.memoryId
    requires contract.id in db.contracts && db.contracts[contract.id] == contract
    requires contract.sourceMemory == r.memoryId && contract.sourceUpdate == r.updateId
    requires contract.receipt == q.id && contract.receiptHash == q.digest
    requires contract.candidateDigest == ContentHash(ContentOf(r))
    ensures Proven(db, CertifiedBy(r, q, contract))
  {
    var k :| 0 <= k < |db.receipts| && db.receipts[k] == q;
    assert Proves(db.receipts[k], contract, CertifiedBy(r, q, contract));
  }

  lemma CertifiedRooted(events: seq<Event>, r: MemoryRecord, q: Receipt, contract: Contract)
    requires Rooted(events, r)
    ensures Rooted(events, CertifiedBy(r, q, contract))
  {
  }

  lemma {:induction false} SupersedeLoop(setting: Setting, db: Db, ids: seq<Text>, q: Text)
    requires CertInv(setting, db)
    ensures AllMeet(Admits(setting), db, SupersedeWrites(db, ids, q).writes)
    decreases |ids|
  {
    hide AllMeet, CertInv, Rooted, MayMove;
    MeetNone(Admits(setting), db);
    if ids != [] && ids[0] in db.records && MayMove(db.records[ids[0]].lane, Superseded) {
      var w := PutRecord(SupersededBy(db.records[ids[0]].raw, q));
      InvRooted(setting, db, ids[0]);
      MovedRooted(db.events, db.records[ids[0]].raw, Superseded, "superseded", Some(q));
      WriteKeeps(setting, db, w);
      SupersedeLoop(setting, Written(db, w), ids[1..], q);
      MeetCons(Admits(setting), db, w, SupersedeWrites(Written(db, w), ids[1..], q).writes);
    }
  }

  /** The contract, the certified record, and the superseded records. */
  lemma PromotionAdmissible(
      setting: Setting, db: Db, r: MemoryRecord, q: Receipt, contract: Contract, c: Change, rest: seq<Write>)
    requires CertInv(setting, db) && Rooted(db.events, r) && c.record == CertifiedBy(r, q, contract)
    requires q in db.receipts && Passing(q, r.updateId) && q.seed.candidate == r.memoryId
    requires contract.sourceMemory == r.memoryId && contract.sourceUpdate == r.updateId
    requires contract.receipt == q.id && contract.receiptHash == q.digest
    requires contract.candidateDigest == ContentHash(ContentOf(r))
    requires contract.id.ContractId? && contract.id.contract.receipt == q.id
    requires rest == SupersedeWrites(Written(Written(db, PutContract(contract)), PutRecord(c)), r.supersedes,
                                     q.id).writes
    ensures AllMeet(Admits(setting), db, [PutContract(contract), PutRecord(c)] + rest)
  {
    hide AllMeet, CertInv, Rooted, Proven, SupersedeWrites, Passing, ContentOf, CertifiedBy;
    var g := Written(db, PutContract(contract));
    CertifiedRooted(db.events, r, q, contract);
    CertifiedProven(g, r, q, contract);
    ReceiptStored(db.receipts, q);
    if !Fails(db, PutContract(contract)) {
      WriteKeeps(setting, db, PutContract(contract));
      WriteKeeps(setting, g, PutRecord(c));
      SupersedeLoop(setting, Written(g, PutRecord(c)), r.supersedes, q.id);
      MeetCons(Admits(setting), g, PutRecord(c), rest);
    }
    MeetCons(Admits(setting), db, PutContract(contract), [PutRecord(c)] + rest);
    assert [PutContract(contract)] + ([PutRecord(c)] + rest) == [PutContract(contract), PutRecord(c)] + rest;
  }

  lemma ReceiptStored(receipts: seq<Receipt>, q: Receipt)
    requires q in receipts
    ensures HasReceipt(receipts, q.id)
  {
  }

  lemma ContractFields(r: MemoryRecord, q: Receipt, clock: nat)
    ensures var c := ContractOf(r, q, clock);
      && c.sourceMemory == r.memoryId && c.sourceUpdate == r.updateId
      && c.receipt == q.id && c.receiptHash == q.digest && c.candidateDigest == ContentHash(ContentOf(r))
      && c.id.ContractId? && c.id.contract.receipt == q.id
  {
    hide ContentOf;
  }

  lemma PromoteAdmissible(setting: Setting, db: Db, id: Text, nonce: nat, clock: nat)
    requires CertInv(setting, db)
    ensures AllMeet(Admits(setting), db, PromotePlan(db, id, nonce, clock).writes)
  {
    hide AllMeet, CertInv, Rooted, SupersedeWrites, LastPassing, ReceiptsOf, MayMove, ContractOf, MakeEvent,
      CertifiedBy;
    MeetNone(Admits(setting), db);
    var ws := PromotePlan(db, id, nonce, clock).writes;
    if ws != [] {
      var r := db.records[id].raw;
      InvRooted(setting, db, id);
      var q := LastPassing(ReceiptsOf(db.receipts, id), r.updateId).value;
      LastPassingFound(ReceiptsOf(db.receipts, id), r.updateId);
      ReceiptsOfMeans(db.receipts, id);
      var contract := ContractOf(r, q, clock);
      ContractFields(r, q, clock);
      var c := ws[1].change;
      var rest := SupersedeWrites(Written(Written(db, PutContract(contract)), PutRecord(c)), r.supersedes, q.id);
      PromotionAdmissible(setting, db, r, q, contract, c, rest.writes);
      var body := [PutContract(contract), PutRecord(c)] + rest.writes;
      if rest.result.Ok? { MeetLast(Admits(setting), db, body, PutEvent(ws[|ws| - 1].event)); }
    }
  }

  // ---- Runs.

  lemma StepAdmissible(setting: Setting, db: Db, step: Step)
    requires CertInv(setting, db) && ValidStep(setting, step)
    ensures AllMeet(Admits(setting), db, WritesOf(setting, db, step))
  {
    hide AllMeet, CertInv, HasFloat, ObservePlan, ProposePlan, VerifyPlan, PromotePlan, CorrectPlan, RetirePlan,
      ContradictPlan, SupersedePlan;
    match step
    case Observing(kind, payload, run, parents, claim, indexed, nonce) =>
      ObserveAdmissible(setting, db, kind, payload, run, parents, claim, indexed, nonce);
    case Proposing(p) => ProposeAdmissible(setting, db, p);
    case Verifying(id, intent, nonce, verification, created) =>
      VerifyAdmissible(setting, db, id, intent, nonce, verification, created);
    case Promoting(id, nonce, clock) => PromoteAdmissible(setting, db, id, nonce, clock);
    case Correcting(id, claim, into, sources, nonce) => CorrectAdmissible(setting, db, id, claim, into, sources, nonce);
    case Retiring(id, reason, nonce) => RetireAdmissible(setting, db, id, reason, nonce);
    case Contradicting(id, claim, sources, reason, nonce) =>
      ContradictAdmissible(setting, db, id, claim, sources, reason, nonce);
    case Superseding(earlier, newer, receipt, nonce) =>
      SupersedeAdmissible(setting, db, earlier, newer, receipt, nonce);
  }

  ghost predicate ValidRun(setting: Setting, moves: seq<Move>) {
    forall k :: 0 <= k < |moves| ==> ValidStep(setting, moves[k].step)
  }

  /** In every run, however its operations were cut, the tables keep the invariant and stay in step. */
  lemma {:induction false} RunKeeps(setting: Setting, moves: seq<Move>)
    requires ValidRun(setting, moves)
    ensures CertInv(setting, RunDb(setting, moves)) && Synced(RunDb(setting, moves))
    decreases |moves|
  {
    hide CertInv, Synced, WritesOf, ValidStep;
    if moves == [] {
      FreshHolds(setting);
    } else {
      var n := |moves| - 1;
      var db := RunDb(setting, moves[..n]);
      RunKeeps(setting, moves[..n]);
      StepAdmissible(setting, db, moves[n].step);
      var ws := WritesOf(setting, db, moves[n].step);
      WritesKeep(setting, db, ws, moves[n].cut);
      WritesKeepSynced(db, Take(ws, moves[n].cut));
    }
  }

  lemma FreshHolds(setting: Setting)
    ensures CertInv(setting, EMPTY_DB) && Synced(EMPTY_DB)
  {
  }

  ghost predicate IsRunDb(db: Db, setting: Setting, moves: seq<Move>) {
    db == RunDb(setting, moves)
  }

  /** The tables after a run from fresh storage. */
  ghost predicate Reached(setting: Setting, moves: seq<Move>, db: Db) {
    ValidRun(setting, moves) && forall d: Db :: IsRunDb(d, setting, moves) ==> d == db
  }

  lemma RunReaches(setting: Setting, moves: seq<Move>)
    requires ValidRun(setting, moves)
    ensures Reached(setting, moves, RunDb(setting, moves))
  {
    hide RunDb, ValidRun;
  }

  lemma ReachedInv(setting: Setting, moves: seq<Move>, db: Db)
    requires Reached(setting, moves, db)
    ensures ValidRun(setting, moves) && db == RunDb(setting, moves)
    ensures CertInv(setting, db) && Synced(db) && RowsTrue(db)
  {
    hide RunDb, ValidRun, CertInv, Synced, RowsTrue;
    assert IsRunDb(RunDb(setting, moves), setting, moves);
    RunKeeps(setting, moves);
    SyncedRows(db);
  }

  lemma SyncedRows(db: Db)
    requires Synced(db)
    ensures RowsTrue(db)
  {
    hide IndexTrue, RevisionsCurrent, LanesChained;
  }
}
