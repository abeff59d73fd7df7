/**
 The storage adapter and the kernel as objects: every method does the writes of its plan one by one and
 leaves exactly the tables that the plan says.
*/
module Kernel {
  import opened Basics
  import opened Records
  import opened Evidence
  import opened Tables
  import opened Pipeline

  function Outcome(db: Db, w: Write): Db {
    if Fails(db, w) then db else Written(db, w)
  }

  class SQLiteStorage {
    var events: seq<Event>
    var records: map<Text, Row>
    var revisions: seq<Revision>
    var index: seq<IndexRow>
    var contracts: map<Text, Contract>
    var receipts: seq<Receipt>
    var manifests: seq<Manifest>

    ghost function Tables(): Db
      reads this
    {
      Db(events, records, revisions, index, contracts, receipts, manifests)
    }

    constructor ()
      ensures Tables() == EMPTY_DB
    {
      events, records, revisions, index := [], map[], [], [];
      contracts, receipts, manifests := map[], [], [];
    }

    method AppendEvent(event: Event) returns (r: Result<Event>)
      modifies this
      ensures Tables() == Outcome(old(Tables()), PutEvent(event))
      ensures r == if Fails(old(Tables()), PutEvent(event)) then Err(Rejected) else Ok(event)
    {
      if event.payloadDigest != PayloadHash(event.payload) { return Err(Rejected); }
      if HasEvent(events, event.id) { return Err(Rejected); }
      events := events + [event];
      return Ok(event);
    }

    /** Current row, revision and index row change in one transaction; the old lane is read first. */
    method UpsertMemoryRecord(change: Change)
      modifies this
      ensures Tables() == Upserted(old(Tables()), change)
    {
      var record := change.record;
      var before := if record.memoryId in records then Some(records[record.memoryId].lane) else None;
      records := records[record.memoryId := RowOf(record)];
      revisions := revisions + [RevisionOf(change, before)];
      index := Without(index, record.memoryId);
      index := index + [IndexRowOf(record)];
    }

    method GetMemoryRecord(id: Text) returns (r: Result<MemoryRecord>)
      ensures r == if id in records then Ok(records[id].raw) else Err(UnboundReference)
    {
      return if id in records then Ok(records[id].raw) else Err(UnboundReference);
    }

    method CreateContract(contract: Contract) returns (r: Result<Contract>)
      modifies this
      ensures Tables() == Outcome(old(Tables()), PutContract(contract))
      ensures r == if Fails(old(Tables()), PutContract(contract)) then Err(Rejected) else Ok(contract)
    {
      if contract.id in contracts {
        assert contracts[contract.id] == contract ==> contracts[contract.id := contract] == contracts;
        return if contracts[contract.id] != contract then Err(Rejected) else Ok(contract);
      }
      contracts := contracts[contract.id := contract];
      return Ok(contract);
    }

    method CreateReceipt(receipt: Receipt) returns (r: Result<Receipt>)
      modifies this
      ensures Tables() == Outcome(old(Tables()), PutReceipt(receipt))
      ensures r == if Fails(old(Tables()), PutReceipt(receipt)) then Err(Rejected) else Ok(receipt)
    {
      if HasReceipt(receipts, receipt.id) { return Err(Rejected); }
      receipts := receipts + [receipt];
      return Ok(receipt);
    }

    method CreateEvidenceManifest(manifest: Manifest)
      modifies this
      ensures Tables() == Written(old(Tables()), PutManifest(manifest))
    {
      manifests := manifests + [manifest];
    }
  }

  // ---- Plans step by step.

  lemma WrittenCons(db: Db, w: Write, ws: seq<Write>)
    ensures WrittenAll(db, [w] + ws) == if Fails(db, w) then db else WrittenAll(Written(db, w), ws)
    ensures AllSucceed(db, [w] + ws) <==> !Fails(db, w) && AllSucceed(Written(db, w), ws)
  {
    assert ([w] + ws)[1..] == ws;
  }

  lemma {:induction false} WrittenConcat(db: Db, a: seq<Write>, b: seq<Write>)
    ensures WrittenAll(db, a + b) == if AllSucceed(db, a) then WrittenAll(WrittenAll(db, a), b) else WrittenAll(db, a)
    ensures AllSucceed(db, a + b) <==> AllSucceed(db, a) && AllSucceed(WrittenAll(db, a), b)
    decreases |a|
  {
    hide Fails, Written;
    if a == [] {
      assert a + b == b;
    } else {
      assert (a + b)[1..] == a[1..] + b;
      if !Fails(db, a[0]) { WrittenConcat(Written(db, a[0]), a[1..], b); }
    }
  }

  lemma WrittenOne(db: Db, w: Write)
    ensures WrittenAll(db, [w]) == Outcome(db, w) && (AllSucceed(db, [w]) <==> !Fails(db, w))
  {
    assert [w] + [] == [w];
    WrittenCons(db, w, []);
  }

  lemma WrittenTwo(db: Db, v: Write, w: Write)
    ensures WrittenAll(db, [v, w]) == if Fails(db, v) then db else Outcome(Written(db, v), w)
    ensures AllSucceed(db, [v, w]) <==> !Fails(db, v) && !Fails(Written(db, v), w)
  {
    assert [v] + [w] == [v, w];
    WrittenCons(db, v, [w]);
    WrittenOne(Written(db, v), w);
  }

  /** The tables are those the plan leaves, and the call returns what the plan does, or raises. */
  ghost predicate Did<T(!new)>(before: Db, after: Db, plan: Plan<T>, r: Result<T>) {
    && after == WrittenAll(before, plan.writes)
    && (r.Ok? <==> plan.result.Ok? && AllSucceed(before, plan.writes))
    && (r.Ok? ==> r.value == plan.result.value)
  }

  class AgentKernel {
    const storage: SQLiteStorage
    const setting: Setting

    constructor (storage: SQLiteStorage, setting: Setting)
      ensures this.storage == storage && this.setting == setting
    {
      this.storage := storage;
      this.setting := setting;
    }

    method Observe(kind: string, payload: Json, run: Text, parents: seq<Text>, claim: string, indexed: bool, nonce: nat)
      returns (r: Result<Event>)
      modifies storage
      ensures Did(old(storage.Tables()), storage.Tables(),
                  ObservePlan(old(storage.Tables()), kind, payload, run, parents, claim, indexed, nonce), r)
    {
      hide CreateRecord;
      ghost var db := storage.Tables();
      NoWritesAtAll(db);
      if !Digestible(payload) { return Err(InvalidModel); }
      var count := |storage.events|;
      var event := MakeEvent(nonce, run, kind, payload, parents);
      WrittenOne(db, PutEvent(event));
      var metadata := map[
        Plain("kind") := Str(Plain(kind)), Plain("run_id") := Str(run), Plain("obs_seq") := Int(count + 1)];
      var record := CreateRecord(Raw, Content(claim, [event.id], metadata, [], []));
      if record.Ok? {
        WrittenTwo(db, PutEvent(event), PutRecord(Change(record.value, Wrote, "", None, Some(event.id))));
      }
      var stored := storage.AppendEvent(event);
      if stored.Err? || !indexed { return stored; }
      if record.Err? { return Err(record.error); }
      storage.UpsertMemoryRecord(Change(record.value, Wrote, "", None, Some(event.id)));
      return stored;
    }

    method ProposeMemory(p: Proposal) returns (r: Result<MemoryRecord>)
      modifies storage
      ensures Did(old(storage.Tables()), storage.Tables(), ProposePlan(old(storage.Tables()), p), r)
    {
      hide CreateRecord, ProposedContent;
      var events := EventsOf(storage.events, p.run);
      if events == [] { return Err(Rejected); }
      r := CreateRecord(Candidate, ProposedContent(p, events));
      if r.Err? { return; }
      WrittenOne(storage.Tables(), PutRecord(Change(r.value, Wrote, "proposed from run", None, None)));
      storage.UpsertMemoryRecord(Change(r.value, Wrote, "proposed from run", None, None));
    }

    /** The dictionary of digests and the list of missing ids, filled in one loop. */
    method CollectEventDigests(sources: seq<Text>) returns (known: Authority)
      ensures known == Collect(storage.events, sources)
    {
      hide Found, EventDigest;
      FoundNone(storage.events);
      var digests: map<Text, Text> := map[];
      var missing: seq<Text> := [];
      for n := 0 to |sources|
        invariant digests == Found(storage.events, sources[..n])
        invariant Missing(storage.events, sources) == missing + Missing(storage.events, sources[n..])
      {
        assert sources[n..][0] == sources[n] && sources[n..][1..] == sources[n + 1..];
        FoundNext(storage.events, sources, n);
        match EventDigest(storage.events, sources[n]) {
          case Some(digest) => digests := digests[sources[n] := digest];
          case None => missing := missing + [sources[n]];
        }
      }
      assert sources[..|sources|] == sources;
      return Authority(digests, missing);
    }

    /** `build_evidence`: stores the manifest it builds; raises before that when the caps do not read. */
    method BuildEvidence(candidate: MemoryRecord, created: Json) returns (r: Result<Manifest>)
      modifies storage
      ensures var built := BuiltManifest(setting, old(storage.Tables()), candidate, created);
        && (r.Ok? <==> built.Some?)
        && (r.Ok? ==> r.value == built.value)
        && storage.Tables() ==
             if r.Ok? then Written(old(storage.Tables()), PutManifest(r.value)) else old(storage.Tables())
    {
      var known := CollectEventDigests(candidate.sources);
      var tools, caps := ToolsOf(candidate), CapsOf(candidate);
      if tools.None? || caps.None? { return Err(InvalidModel); }
      var manifest := CreateManifest(setting.readers, candidate, known.digests, tools.value, caps.value, created);
      if manifest.None? { return Err(InvalidModel); }
      storage.CreateEvidenceManifest(manifest.value);
      return Ok(manifest.value);
    }

    method Verify(
        id: Text, intent: Option<ActionIntent>, nonce: nat, verification: nat,
        created: Json) returns (r: Result<Receipt>)
      modifies storage
      ensures Did(old(storage.Tables()), storage.Tables(),
                  VerifyPlan(setting, old(storage.Tables()), id, intent, nonce, verification, created), r)
    {
      hide BuiltManifest, CheckAll, VerifyDetails, OperationPayload, Collect, WrittenAll, AllSucceed, RunOf, Dump,
        AllPassed, Moved;
      ghost var db := storage.Tables();
      NoWritesAtAll(db);
      var found := storage.GetMemoryRecord(id);
      if found.Err? { return Err(UnboundReference); }
      var candidate := found.value;
      var known := CollectEventDigests(candidate.sources);
      var manifest := BuildEvidence(candidate, created);
      if manifest.Err? { return Err(manifest.error); }
      var m := manifest.value;
      var checks := CheckAll(setting.readers, candidate, Dump(m), intent, known);
      var receipt := MakeReceipt(candidate, setting.strict, checks, EvidenceRefs(m, Bound(intent)), Bound(intent),
                                 verification);
      var passed := receipt.seed.passed;
      var event := MakeEvent(nonce, RunOf(candidate.metadata, "verification"), "memory_verify",
                             OperationPayload(Verified, [candidate], VerifyDetails(receipt, m)), candidate.sources);
      var moved := Moved(candidate, if passed then Shadow else Quarantine,
                         if passed then "verified in shadow lane" else "", Some(receipt.id));
      var change := Change(moved, Verified, moved.reason, Some(receipt.id), None);
      ghost var ws := [PutManifest(m), PutReceipt(receipt), PutEvent(event), PutRecord(change)];
      assert VerifyPlan(setting, db, id, intent, nonce, verification, created) == Plan(ws, Ok(receipt));
      VerifyWrites(db, m, receipt, event, change);
      var stored := storage.CreateReceipt(receipt);
      if stored.Err? { return stored; }
      var appended := storage.AppendEvent(event);
      if appended.Err? { return Err(appended.error); }
      storage.UpsertMemoryRecord(change);
      return Ok(receipt);
    }

    method Promote(id: Text, nonce: nat, clock: nat) returns (r: Result<MemoryRecord>)
      modifies storage
      ensures Did(old(storage.Tables()), storage.Tables(), PromotePlan(old(storage.Tables()), id, nonce, clock), r)
    {
      hide LastPassing, ReceiptsOf, ContractOf, OperationPayload, PromoteDetails, MayMove, SupersedeWrites, WrittenAll,
        AllSucceed;
      ghost var db := storage.Tables();
      NoWritesAtAll(db);
      var found := storage.GetMemoryRecord(id);
      if found.Err? { return Err(UnboundReference); }
      var candidate := found.value;
      var passing := LastPassing(ReceiptsOf(storage.receipts, id), candidate.updateId);
      if passing.None? { return Err(Rejected); }
      var receipt := passing.value;
      if !MayMove(candidate.lane, Certified) { return Err(Rejected); }
      var contract := ContractOf(candidate, receipt, clock);
      var certified := CertifiedBy(candidate, receipt, contract);
      var change := Change(certified, Promoted, certified.reason, Some(receipt.id), None);
      var event := MakeEvent(nonce, RunOf(candidate.metadata, "promotion"), "memory_promote",
                             OperationPayload(Promoted, [certified], PromoteDetails(receipt, contract, candidate)),
                             candidate.sources);
      ghost var g := Written(Written(db, PutContract(contract)), PutRecord(change));
      ghost var rest := SupersedeWrites(g, candidate.supersedes, receipt.id);
      ghost var first := [PutContract(contract), PutRecord(change)];
      ghost var plan := PromotePlan(db, id, nonce, clock);
      assert plan.writes == first + rest.writes + if rest.result.Ok? then [PutEvent(event)] else [];
      assert plan.result == if rest.result.Ok? then Ok(certified) else Err(rest.result.error);
      SupersedesSucceed(g, candidate.supersedes, receipt.id);
      PromoteWrites(db, PutContract(contract), PutRecord(change), rest, PutEvent(event));
      var created := storage.CreateContract(contract);
      if created.Err? { return Err(created.error); }
      storage.UpsertMemoryRecord(change);
      assert storage.Tables() == g;
      var superseded := SupersedeEach(candidate.supersedes, receipt.id);
      if superseded.Err? { return Err(superseded.error); }
      var appended := storage.AppendEvent(event);
      if appended.Err? { return Err(appended.error); }
      return Ok(certified);
    }

    /** The loop over superseded memories; what it wrote before it raises stays. */
    method SupersedeEach(ids: seq<Text>, q: Text) returns (r: Result<bool>)
      modifies storage
      ensures var plan := SupersedeWrites(old(storage.Tables()), ids, q);
        storage.Tables() == WrittenAll(old(storage.Tables()), plan.writes) && r.Ok? == plan.result.Ok?
    {
      ghost var db := storage.Tables();
      for n := 0 to |ids|
        invariant var plan, left := SupersedeWrites(db, ids, q), SupersedeWrites(storage.Tables(), ids[n..], q);
          && WrittenAll(db, plan.writes) == WrittenAll(storage.Tables(), left.writes)
          && plan.result.Ok? == left.result.Ok?
      {
        assert ids[n..][0] == ids[n] && ids[n..][1..] == ids[n + 1..];
        ghost var here := storage.Tables();
        var found := storage.GetMemoryRecord(ids[n]);
        if found.Err? { return Err(UnboundReference); }
        if !MayMove(storage.records[ids[n]].lane, Superseded) { return Err(Rejected); }
        ghost var w := PutRecord(SupersededBy(found.value, q));
        WrittenCons(here, w, SupersedeWrites(Written(here, w), ids[n + 1..], q).writes);
        storage.UpsertMemoryRecord(SupersededBy(found.value, q));
      }
      return Ok(true);
    }

    method CorrectMemory(id: Text, claim: string, run: Option<Text>, sources: seq<Text>, nonce: nat)
      returns (r: Result<MemoryRecord>)
      modifies storage
      ensures Did(old(storage.Tables()), storage.Tables(),
                  CorrectPlan(old(storage.Tables()), id, claim, run, sources, nonce), r)
    {
      hide CreateRecord, CorrectedMetadata, OperationEvent;
      ghost var db := storage.Tables();
      var found := storage.GetMemoryRecord(id);
      if found.Err? { return Err(UnboundReference); }
      var original := found.value;
      var actual := if run.Some? && run.value != Plain("") then run.value else RunOf(original.metadata, "correction");
      var details := map[
        Plain("corrected_claim") := Str(Plain(claim)), Plain("supporting_source_event_ids") := Array(Strings(sources))];
      var event := OperationEvent(nonce, Corrected, actual, [original], details);
      var inputs := [event.id] + sources;
      var record := CreateRecord(Candidate,
                                 Content(claim, inputs, CorrectedMetadata(original, actual, |inputs|), [id], []));
      WrittenOne(db, PutEvent(event));
      if record.Ok? {
        WrittenTwo(db, PutEvent(event),
                   PutRecord(Change(record.value, Corrected, "correction candidate", None, Some(event.id))));
      }
      var appended := storage.AppendEvent(event);
      if appended.Err? { return Err(appended.error); }
      if record.Err? { return record; }
      storage.UpsertMemoryRecord(Change(record.value, Corrected, "correction candidate", None, Some(event.id)));
      return record;
    }

    /** The writes that retirement and supersession end with. */
    method MoveThenRecord(change: Change, event: Event) returns (r: Result<MemoryRecord>)
      modifies storage
      ensures var ws := [PutRecord(change), PutEvent(event)];
        && storage.Tables() == WrittenAll(old(storage.Tables()), ws)
        && r == if AllSucceed(old(storage.Tables()), ws) then Ok(change.record) else Err(Rejected)
    {
      WrittenTwo(storage.Tables(), PutRecord(change), PutEvent(event));
      storage.UpsertMemoryRecord(change);
      var appended := storage.AppendEvent(event);
      return if appended.Ok? then Ok(change.record) else Err(Rejected);
    }

    method Retire(id: Text, reason: string, nonce: nat) returns (r: Result<MemoryRecord>)
      modifies storage
      ensures Did(old(storage.Tables()), storage.Tables(), RetirePlan(old(storage.Tables()), id, reason, nonce), r)
    {
      hide OperationEvent, MayMove, WrittenAll, AllSucceed, RunOf;
      NoWritesAtAll(storage.Tables());
      var found := storage.GetMemoryRecord(id);
      if found.Err? { return Err(UnboundReference); }
      var record := found.value;
      if !MayMove(record.lane, Tombstone) { return Err(Rejected); }
      var retired := Moved(record, Tombstone, reason, None);
      var event := OperationEvent(nonce, Deleted, RunOf(record.metadata, "retire"), [retired],
                                  map[Plain("reason") := Str(Plain(reason))]);
      r := MoveThenRecord(Change(retired, Deleted, reason, retired.receiptId, None), event);
    }

    method Contradict(
        id: Text, claim: string, sources: seq<Text>, reason: string, nonce: nat) returns (r: Result<MemoryRecord>)
      modifies storage
      ensures Did(old(storage.Tables()), storage.Tables(),
                  ContradictPlan(old(storage.Tables()), id, claim, sources, reason, nonce), r)
    {
      hide CreateRecord, ContradictedMetadata, OperationEvent;
      ghost var db := storage.Tables();
      var found := storage.GetMemoryRecord(id);
      if found.Err? { return Err(UnboundReference); }
      var original := found.value;
      var run := RunOf(original.metadata, "contradiction");
      var details := map[
        Plain("claim") := Str(Plain(claim)), Plain("reason") := Str(Plain(reason)),
        Plain("source_event_ids") := Array(Strings(sources))];
      var event := OperationEvent(nonce, Corrected, run, [original], details);
      var content := Content(claim, [event.id] + sources, ContradictedMetadata(original, run, reason), [], [id]);
      var record := CreateRecord(Contradiction, content);
      WrittenOne(db, PutEvent(event));
      if record.Ok? {
        WrittenTwo(db, PutEvent(event), PutRecord(Change(record.value, Corrected, reason, None, Some(event.id))));
      }
      var appended := storage.AppendEvent(event);
      if appended.Err? { return Err(appended.error); }
      if record.Err? { return record; }
      storage.UpsertMemoryRecord(Change(record.value, Corrected, reason, None, Some(event.id)));
      return record;
    }

    method Supersede(earlier: Text, newer: Text, receipt: Text, nonce: nat) returns (r: Result<MemoryRecord>)
      modifies storage
      ensures Did(old(storage.Tables()), storage.Tables(),
                  SupersedePlan(old(storage.Tables()), earlier, newer, receipt, nonce), r)
    {
      hide SupersedeRefusal, SupersedeEvent, WrittenAll, AllSucceed, SupersededBy;
      ghost var db := storage.Tables();
      ghost var plan := SupersedePlan(db, earlier, newer, receipt, nonce);
      NoWritesAtAll(db);
      var refusal := CheckSupersede(earlier, newer, receipt);
      if refusal.Some? {
        assert plan == Refuse(refusal.value);
        return Err(refusal.value);
      }
      assert earlier in storage.records && newer in storage.records by { SupersedeFound(db, earlier, newer, receipt); }
      var first, second := storage.records[earlier].raw, storage.records[newer].raw;
      var change, event := SupersededBy(first, receipt), SupersedeEvent(first, second, receipt, nonce);
      assert plan == Plan([PutRecord(change), PutEvent(event)], Ok(change.record));
      r := MoveThenRecord(change, event);
      assert storage.Tables() == WrittenAll(db, plan.writes);
    }

    /** The lookups and conditions before the first write, in their order. */
    method CheckSupersede(earlier: Text, newer: Text, receipt: Text) returns (refusal: Option<Error>)
      ensures refusal == SupersedeRefusal(storage.Tables(), earlier, newer, receipt)
    {
      hide MayMove;
      var first := storage.GetMemoryRecord(earlier);
      if first.Err? { return Some(UnboundReference); }
      var second := storage.GetMemoryRecord(newer);
      if second.Err? { return Some(UnboundReference); }
      var stored := ReceiptAt(storage.receipts, receipt);
      if stored.None? { return Some(UnboundReference); }
      if storage.records[newer].lane != Certified { return Some(Rejected); }
      if !stored.value.seed.passed || stored.value.seed.candidate != newer { return Some(Rejected); }
      if !MayMove(storage.records[earlier].lane, Superseded) { return Some(Rejected); }
      return None;
    }
  }

  lemma SupersedeFound(db: Db, earlier: Text, newer: Text, receipt: Text)
    requires SupersedeRefusal(db, earlier, newer, receipt).None?
    ensures earlier in db.records && newer in db.records
  {
  }

  lemma FoundNone(events: seq<Event>)
    ensures Found(events, []) == map[]
  {
  }

  lemma FoundNext(events: seq<Event>, sources: seq<Text>, n: nat)
    requires n < |sources|
    ensures Found(events, sources[..n + 1]) ==
      match EventDigest(events, sources[n])
      case Some(digest) => Found(events, sources[..n])[sources[n] := digest]
      case None => Found(events, sources[..n])
  {
    hide EventDigest;
    assert forall s :: s in sources[..n + 1] <==> s in sources[..n] || s == sources[n];
  }

  // ---- Longer plans.

  lemma NoWritesAtAll(db: Db)
    ensures WrittenAll(db, []) == db && AllSucceed(db, [])
  {
  }

  lemma VerifyWrites(db: Db, m: Manifest, q: Receipt, e: Event, c: Change)
    ensures var ws := [PutManifest(m), PutReceipt(q), PutEvent(e), PutRecord(c)];
      var db1 := Written(db, PutManifest(m));
      var db2 := Written(db1, PutReceipt(q));
      && WrittenAll(db, ws) == (if Fails(db1, PutReceipt(q)) then db1
                                else if Fails(db2, PutEvent(e)) then db2
                                else Upserted(Written(db2, PutEvent(e)), c))
      && (AllSucceed(db, ws) <==> !Fails(db1, PutReceipt(q)) && !Fails(db2, PutEvent(e)))
  {
    hide WrittenAll, AllSucceed;
    var db1 := Written(db, PutManifest(m));
    var db2 := Written(db1, PutReceipt(q));
    WrittenTwo(db2, PutEvent(e), PutRecord(c));
    WrittenCons(db1, PutReceipt(q), [PutEvent(e), PutRecord(c)]);
    assert [PutReceipt(q)] + [PutEvent(e), PutRecord(c)] == [PutReceipt(q), PutEvent(e), PutRecord(c)];
    WrittenCons(db, PutManifest(m), [PutReceipt(q), PutEvent(e), PutRecord(c)]);
    assert [PutManifest(m)] + [PutReceipt(q), PutEvent(e), PutRecord(c)]
        == [PutManifest(m), PutReceipt(q), PutEvent(e), PutRecord(c)];
  }

  lemma {:induction false} SupersedesSucceed(db: Db, ids: seq<Text>, q: Text)
    ensures AllSucceed(db, SupersedeWrites(db, ids, q).writes)
    decreases |ids|
  {
    hide MayMove, Written;
    if ids != [] && ids[0] in db.records && MayMove(db.records[ids[0]].lane, Superseded) {
      var w := PutRecord(SupersededBy(db.records[ids[0]].raw, q));
      SupersedesSucceed(Written(db, w), ids[1..], q);
      WrittenCons(db, w, SupersedeWrites(Written(db, w), ids[1..], q).writes);
    }
  }

  /** Contract, certified record, superseded records, and the event when nothing has raised. */
  lemma PromoteWrites(db: Db, v: Write, w: Write, rest: Plan<bool>, e: Write)
    requires w.PutRecord? && AllSucceed(Written(Written(db, v), w), rest.writes)
    ensures var ws := [v, w] + rest.writes + if rest.result.Ok? then [e] else [];
      var g := Written(Written(db, v), w);
      var h := WrittenAll(g, rest.writes);
      && WrittenAll(db, ws) == (if Fails(db, v) then db else if rest.result.Err? then h else Outcome(h, e))
      && (AllSucceed(db, ws) <==> !Fails(db, v) && (rest.result.Ok? ==> !Fails(h, e)))
  {
    hide WrittenAll, AllSucceed, Written;
    var last := if rest.result.Ok? then [e] else [];
    var g := Written(Written(db, v), w);
    var h := WrittenAll(g, rest.writes);
    WrittenConcat(g, rest.writes, last);
    WrittenOne(h, e);
    NoWritesAtAll(h);
    WrittenCons(Written(db, v), w, rest.writes + last);
    WrittenCons(db, v, [w] + (rest.writes + last));
    assert [v] + ([w] + (rest.writes + last)) == [v, w] + rest.writes + last;
  }
}
