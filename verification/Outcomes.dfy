/**
 What each certification operation leaves behind: exactly when it goes through, and then the event, the
 record and the revision that it adds, written out; every other row stays. Promotion and verification are in
 `Promotions` and `Verdicts`.
*/
module Outcomes {
  import opened Basics
  import opened Records
  import opened Evidence
  import opened Tables
  import opened Pipeline
  import opened Kernel
  import opened Lifecycle
  import Native
  import Rational

  /** The operation raised nothing and all its writes went through. */
  predicate Done<T(!new)>(db: Db, plan: Plan<T>) {
    plan.result.Ok? && AllSucceed(db, plan.writes)
  }

  function Left<T(!new)>(db: Db, plan: Plan<T>): Db {
    WrittenAll(db, plan.writes)
  }

  // ---- Rows.

  function NewEventId(nonce: nat, run: Text, kind: string, payload: Json, parents: seq<Text>): Text {
    EventId(EventSeed(nonce, run, kind, PayloadHash(payload), parents))
  }

  /** One new event, at the end. */
  predicate Logged(db: Db, g: Db, nonce: nat, run: Text, kind: string, payload: Json, parents: seq<Text>) {
    g.events == db.events
      + [Event(NewEventId(nonce, run, kind, payload, parents), nonce, run, kind, payload, PayloadHash(payload),
               parents)]
  }

  /** A record as it is created: ids over the claim as given, the claim stripped, no contract, no receipt. */
  function Fresh(lane: Lane, c: Content): MemoryRecord {
    var id := MemoryId(lane, c);
    MemoryRecord(id, UpdateId(id, ContentHash(c)), lane, Strip(c.claim), c.sources, c.supersedes, c.contradicts,
                 None, None, "", c.metadata)
  }

  function RecordRow(r: MemoryRecord): Row {
    Row(r.lane, r.claim, r.contractId, r.receiptId, r)
  }

  function RevisionRow(
    db: Db, r: MemoryRecord, op: Operation, reason: string, receipt: Option<Text>, event: Option<Text>): Revision
  {
    Revision(r.memoryId, r.updateId,
             ContentHash(Content(r.claim, r.sources, r.metadata, r.supersedes, r.contradicts)), op,
             if r.memoryId in db.records then Some(db.records[r.memoryId].lane) else None, r.lane, reason, receipt,
             event, r)
  }

  /** The record is the current one, searchable as it is now, and has one more revision. */
  predicate Saved(
    db: Db, g: Db, r: MemoryRecord, op: Operation, reason: string, receipt: Option<Text>, event: Option<Text>)
  {
    && g.records == db.records[r.memoryId := RecordRow(r)]
    && g.revisions == db.revisions + [RevisionRow(db, r, op, reason, receipt, event)]
    && g.index != []
    && g.index[|g.index| - 1] ==
         IndexRow(r.memoryId, r.lane, r.claim, Body(r.claim, r.metadata, r.sources, r.contractId, r.receiptId))
  }

  predicate SameRecords(db: Db, g: Db) {
    g.records == db.records && g.revisions == db.revisions && g.index == db.index
  }

  /** No contract, receipt or manifest is added. */
  predicate SameProofs(db: Db, g: Db) {
    g.contracts == db.contracts && g.receipts == db.receipts && g.manifests == db.manifests
  }

  function Reference(r: MemoryRecord): Json {
    Object(map[
      Plain("memory_id") := Str(r.memoryId),
      Plain("update_id") := Str(r.updateId),
      Plain("content_digest") := Str(ContentHash(Content(r.claim, r.sources, r.metadata, r.supersedes, r.contradicts)))
    ])
  }

  function About(name: string, ids: seq<Json>, refs: seq<Json>, details: map<Text, Json>): Json {
    Object(map[
      Plain("operation") := Str(Plain(name)), Plain("memory_ids") := Array(ids), Plain("memory_refs") := Array(refs),
      Plain("details") := Object(details)])
  }

  function AboutOne(name: string, r: MemoryRecord, details: map<Text, Json>): Json {
    About(name, [Str(r.memoryId)], [Reference(r)], details)
  }

  lemma PayloadOne(op: Operation, r: MemoryRecord, details: map<Text, Json>)
    ensures OperationPayload(op, [r], details) == AboutOne(OperationName(op), r, details)
  {
    assert seq(1, i requires 0 <= i < 1 => Str([r][i].memoryId)) == [Str(r.memoryId)];
    assert seq(1, i requires 0 <= i < 1 => MemoryRef([r][i])) == [Reference(r)];
  }

  lemma KindsOfEvents()
    ensures "memory_" + OperationName(Corrected) == "memory_correct"
    ensures "memory_" + OperationName(Deleted) == "memory_delete"
    ensures "memory_" + OperationName(Replaced) == "memory_replace"
  {
  }

  /** The run that the metadata names by a string that is not empty, or the other one. */
  predicate InRun(metadata: map<Text, Json>, otherwise: string, run: Text) {
    if Plain("run_id") in metadata && metadata[Plain("run_id")].Str? && metadata[Plain("run_id")].value != Plain("")
    then run == metadata[Plain("run_id")].value
    else run == Plain(otherwise)
  }

  lemma RunIs(metadata: map<Text, Json>, otherwise: string, run: Text)
    requires InRun(metadata, otherwise, run)
    ensures run == RunOf(metadata, otherwise)
  {
  }

  lemma SavedBy(db: Db, r: MemoryRecord, op: Operation, reason: string, receipt: Option<Text>, event: Option<Text>)
    ensures Saved(db, Upserted(db, Change(r, op, reason, receipt, event)), r, op, reason,
                  if receipt.Some? then receipt else r.receiptId, event)
  {
    hide Without;
  }

  lemma SavedAfter(
      db: Db, mid: Db, r: MemoryRecord, op: Operation, reason: string, receipt: Option<Text>, event: Option<Text>)
    requires SameRecords(db, mid)
    ensures Saved(db, Upserted(mid, Change(r, op, reason, receipt, event)), r, op, reason,
                  if receipt.Some? then receipt else r.receiptId, event)
  {
    hide Without;
  }

  lemma DoneIs<T(!new)>(db: Db, plan: Plan<T>)
    ensures Done(db, plan) <==> plan.result.Ok? && AllSucceed(db, plan.writes)
    ensures Left(db, plan) == WrittenAll(db, plan.writes)
  {
  }

  lemma EventIs(nonce: nat, run: Text, kind: string, payload: Json, parents: seq<Text>)
    ensures MakeEvent(nonce, run, kind, payload, parents) ==
      Event(NewEventId(nonce, run, kind, payload, parents), nonce, run, kind, payload, PayloadHash(payload), parents)
  {
  }

  lemma LoggedIs(db: Db, g: Db, nonce: nat, run: Text, kind: string, payload: Json, parents: seq<Text>)
    ensures Logged(db, g, nonce, run, kind, payload, parents) <==>
      g.events == db.events + [MakeEvent(nonce, run, kind, payload, parents)]
  {
  }

  // ---- Observation.

  lemma CreatedFresh(lane: Lane, c: Content)
    ensures CreateRecord(lane, c) ==
      if Strip(c.claim) != "" && Digestible(Object(c.metadata)) then Ok(Fresh(lane, c)) else Err(InvalidModel)
  {
    hide Strip, Digestible;
  }

  function ObservedContent(db: Db, kind: string, run: Text, claim: string, event: Text): Content {
    Content(claim, [event],
            map[Plain("kind") := Str(Plain(kind)), Plain("run_id") := Str(run),
                Plain("obs_seq") := Int(|db.events| + 1)],
            [], [])
  }

  lemma ObservedDigestible(db: Db, kind: string, run: Text, claim: string, event: Text)
    ensures Digestible(Object(ObservedContent(db, kind, run, claim, event).metadata))
  {
    var m := ObservedContent(db, kind, run, claim, event).metadata;
    forall k | k in m ensures Digestible(m[k]) {
    }
  }

  /**
   An observation goes through exactly for a payload that can be digested, an unused event id and, if it is
   indexed, a claim that is not blank. It adds the event, and if indexed a raw record with it as source.
  */
  lemma ObserveOutcome(
      db: Db, kind: string, payload: Json, run: Text, parents: seq<Text>, claim: string, indexed: bool, nonce: nat)
    ensures var id := NewEventId(nonce, run, kind, payload, parents);
      var plan := ObservePlan(db, kind, payload, run, parents, claim, indexed, nonce);
      var g := Left(db, plan);
      && (Done(db, plan) <==> Digestible(payload) && !HasEvent(db.events, id) && (indexed ==> Strip(claim) != ""))
      && (Done(db, plan) ==> Logged(db, g, nonce, run, kind, payload, parents) && SameProofs(db, g))
      && (Done(db, plan) && !indexed ==> SameRecords(db, g))
      && (Done(db, plan) && indexed ==>
            Saved(db, g, Fresh(Raw, ObservedContent(db, kind, run, claim, id)), Wrote, "", None, Some(id)))
  {
    hide WrittenAll, AllSucceed, HasEvent, Digestible, Strip, Upserted, CreateRecord, Saved;
    var event := MakeEvent(nonce, run, kind, payload, parents);
    NoWritesAtAll(db);
    WrittenOne(db, PutEvent(event));
    var c := ObservedContent(db, kind, run, claim, event.id);
    CreatedFresh(Raw, c);
    ObservedDigestible(db, kind, run, claim, event.id);
    var r := Fresh(Raw, c);
    WrittenTwo(db, PutEvent(event), PutRecord(Change(r, Wrote, "", None, Some(event.id))));
    SavedAfter(db, Written(db, PutEvent(event)), r, Wrote, "", None, Some(event.id));
    UpsertedRest(Written(db, PutEvent(event)), Change(r, Wrote, "", None, Some(event.id)));
  }

  lemma UpsertedRest(db: Db, c: Change)
    ensures Upserted(db, c).events == db.events && SameProofs(db, Upserted(db, c))
  {
  }

  // ---- An event and a new record.

  /** The two writes of a correction and of a contradiction. */
  lemma EventAndRecord(db: Db, e: Event, c: Change)
    ensures var ws := [PutEvent(e), PutRecord(c)];
      && (AllSucceed(db, ws) <==> !Fails(db, PutEvent(e)))
      && (AllSucceed(db, ws) ==>
            && WrittenAll(db, ws).events == db.events + [e] && SameProofs(db, WrittenAll(db, ws))
            && Saved(db, WrittenAll(db, ws), c.record, c.operation, c.reason,
                     if c.receiptId.Some? then c.receiptId else c.record.receiptId, c.eventId))
  {
    hide WrittenAll, AllSucceed, HasEvent, Upserted, Saved;
    WrittenTwo(db, PutEvent(e), PutRecord(c));
    SavedAfter(db, Written(db, PutEvent(e)), c.record, c.operation, c.reason, c.receiptId, c.eventId);
    UpsertedRest(Written(db, PutEvent(e)), c);
  }

  /** The two writes of a retirement and of a supersession. */
  lemma RecordAndEvent(db: Db, c: Change, e: Event)
    ensures var ws := [PutRecord(c), PutEvent(e)];
      && (AllSucceed(db, ws) <==> !Fails(db, PutEvent(e)))
      && (AllSucceed(db, ws) ==>
            && WrittenAll(db, ws).events == db.events + [e] && SameProofs(db, WrittenAll(db, ws))
            && Saved(db, WrittenAll(db, ws), c.record, c.operation, c.reason,
                     if c.receiptId.Some? then c.receiptId else c.record.receiptId, c.eventId))
  {
    hide WrittenAll, AllSucceed, HasEvent, Upserted, Saved;
    WrittenTwo(db, PutRecord(c), PutEvent(e));
    SavedBy(db, c.record, c.operation, c.reason, c.receiptId, c.eventId);
    UpsertedRest(db, c);
    SavedFrame(db, Upserted(db, c), e, c);
  }

  lemma SavedFrame(db: Db, mid: Db, e: Event, c: Change)
    requires Saved(db, mid, c.record, c.operation, c.reason,
                   if c.receiptId.Some? then c.receiptId else c.record.receiptId, c.eventId)
    ensures Saved(db, Written(mid, PutEvent(e)), c.record, c.operation, c.reason,
                  if c.receiptId.Some? then c.receiptId else c.record.receiptId, c.eventId)
  {
  }

  // ---- Proposal.

  /** The positions of the events of a run, in order, none left out. */
  predicate RunAt(events: seq<Event>, run: Text, at: seq<nat>) {
    && (forall j, k :: 0 <= j < k < |at| ==> at[j] < at[k])
    && (forall k :: 0 <= k < |at| ==> at[k] < |events|)
    && forall i: nat :: i < |events| ==> (i in at <==> events[i].run == run)
  }

  /** The events at these positions. */
  predicate EventsAt(events: seq<Event>, at: seq<nat>, found: seq<Event>) {
    |found| == |at| && forall k :: 0 <= k < |at| ==> at[k] < |events| && found[k] == events[at[k]]
  }

  lemma RunAtNext(events: seq<Event>, run: Text, at: seq<nat>)
    requires events != [] && RunAt(events[..|events| - 1], run, at)
    ensures var n := |events| - 1; RunAt(events, run, if events[n].run == run then at + [n] else at)
  {
    var n := |events| - 1;
    assert forall i: nat :: i < n ==> events[..n][i] == events[i];
    assert n !in at;
  }

  lemma {:induction false} EventsOfRun(events: seq<Event>, run: Text) returns (at: seq<nat>)
    ensures RunAt(events, run, at) && EventsAt(events, at, EventsOf(events, run))
    decreases |events|
  {
    hide RunAt;
    if events == [] {
      at := [];
      NoEvents(run);
    } else {
      var n := |events| - 1;
      var front := EventsOfRun(events[..n], run);
      RunAtNext(events, run, front);
      at := if events[n].run == run then front + [n] else front;
    }
  }

  lemma NoEvents(run: Text)
    ensures RunAt([], run, [])
  {
  }

  /** The metadata of a proposal from these events. */
  function ProposalMetadata(p: Proposal, events: seq<Event>): map<Text, Json> {
    var n := |events|;
    map[
      Plain("scope") := Str(Plain(p.scope)),
      Plain("steps") := Array(seq(n, i requires 0 <= i < n => Str(Plain(events[i].kind)))),
      Plain("tools") := if p.tools.Some? then Array(Strings(p.tools.value)) else Array([]),
      Plain("resource_caps") :=
        if p.caps.Some? then Object(p.caps.value)
        else Object(map[Plain("max_steps") := Int(if n >= 32 then 32 else n + 1)]),
      Plain("input_event_ids") := Array(seq(n, i requires 0 <= i < n => Str(events[i].id))),
      Plain("proposal_scope") := Str(Plain(p.scope)),
      Plain("run_id") := Str(p.run),
      Plain("interface_signature") :=
        if p.signature.Some? && p.signature.value != Plain("") then Str(p.signature.value)
        else Str(Plain("agent.workflow.v1"))
    ]
  }

  /** A claim of the number and the kinds of the events, each kind once and in order. */
  function ProposalText(events: seq<Event>): string {
    var kinds := seq(|events|, i requires 0 <= i < |events| => events[i].kind);
    "Workflow candidate from " + Rational.PrintNat(|events|) + " observable event(s): "
    + Listed(Native.SortedSet(kinds))
  }

  function ProposalOf(p: Proposal, events: seq<Event>): MemoryRecord {
    Fresh(Candidate,
          Content(Strip(ProposalText(events)),
                  seq(|events|, i requires 0 <= i < |events| => events[i].id), ProposalMetadata(p, events), [], []))
  }

  lemma ProposalTextIs(events: seq<Event>)
    ensures ProposalText(events) == ProposalClaim(events)
  {
    assert Kinds(events) == seq(|events|, i requires 0 <= i < |events| => events[i].kind);
  }

  lemma ProposalMetadataIs(p: Proposal, events: seq<Event>)
    ensures ProposedMetadata(p, events) == ProposalMetadata(p, events)
  {
    var a, b := ProposedMetadata(p, events), ProposalMetadata(p, events);
    assert a[Plain("steps")].items == b[Plain("steps")].items;
    assert a[Plain("input_event_ids")].items == b[Plain("input_event_ids")].items;
    assert Strings([]) == [];
    assert a.Keys == b.Keys;
    forall k | k in a ensures a[k] == b[k] {
    }
  }

  lemma ProposalIs(p: Proposal, events: seq<Event>)
    ensures Fresh(Candidate, ProposedContent(p, events)) == ProposalOf(p, events)
  {
    hide ProposedMetadata, ProposalMetadata, ProposalClaim, ProposalText, Strip;
    ProposalTextIs(events);
    ProposalMetadataIs(p, events);
    assert EventIds(events) == seq(|events|, i requires 0 <= i < |events| => events[i].id);
  }

  /**
   A proposal goes through exactly for a run with events and caps, if any are asked for, without a float that
   is not finite. It adds a candidate of the events of the run and no event.
  */
  lemma ProposeOutcome(db: Db, p: Proposal, at: seq<nat>, found: seq<Event>)
    requires RunAt(db.events, p.run, at) && EventsAt(db.events, at, found)
    ensures var plan := ProposePlan(db, p);
      var g := Left(db, plan);
      && (Done(db, plan) <==> found != [] && (p.caps.Some? ==> Digestible(Object(p.caps.value))))
      && (Done(db, plan) ==> plan.result.value == ProposalOf(p, found))
      && (Done(db, plan) ==> g.events == db.events && SameProofs(db, g))
      && (Done(db, plan) ==> Saved(db, g, ProposalOf(p, found), Wrote, "proposed from run", None, None))
  {
    hide *;
    var other := EventsOfRun(db.events, p.run);
    SamePositions(db.events, p.run, at, other, found, EventsOf(db.events, p.run));
    ProposalMadeIff(db, p);
    DoneIs(db, ProposePlan(db, p));
    if ProposePlan(db, p).result.Ok? {
      ProposePlanIs(db, p);
      ProposalIs(p, found);
      ProposeRows(db, ProposalOf(p, found));
    }
  }

  lemma ProposeRows(db: Db, r: MemoryRecord)
    requires r.receiptId == None
    ensures var ws := [PutRecord(Change(r, Wrote, "proposed from run", None, None))];
      var g := WrittenAll(db, ws);
      && AllSucceed(db, ws) && g.events == db.events && SameProofs(db, g)
      && Saved(db, g, r, Wrote, "proposed from run", None, None)
  {
    hide WrittenAll, AllSucceed, Upserted, Saved;
    WrittenOne(db, PutRecord(Change(r, Wrote, "proposed from run", None, None)));
    SavedBy(db, r, Wrote, "proposed from run", None, None);
    UpsertedRest(db, Change(r, Wrote, "proposed from run", None, None));
  }

  lemma ProposePlanIs(db: Db, p: Proposal)
    requires ProposePlan(db, p).result.Ok?
    ensures var r := Fresh(Candidate, ProposedContent(p, EventsOf(db.events, p.run)));
      ProposePlan(db, p) == Plan([PutRecord(Change(r, Wrote, "proposed from run", None, None))], Ok(r))
      && r.receiptId == None
  {
    hide CreateRecord, ProposedContent;
    CreatedFresh(Candidate, ProposedContent(p, EventsOf(db.events, p.run)));
  }

  lemma SamePositions(
      events: seq<Event>, run: Text, a: seq<nat>, b: seq<nat>, found: seq<Event>, other: seq<Event>)
    requires RunAt(events, run, a) && RunAt(events, run, b) && EventsAt(events, a, found) && EventsAt(events, b, other)
    ensures found == other
  {
    forall i ensures i in a <==> i in b {
      if i in a || i in b { assert i < |events|; }
    }
    IncreasingSame(a, b);
  }

  lemma {:induction false} IncreasingSame(a: seq<nat>, b: seq<nat>)
    requires forall j, k :: 0 <= j < k < |a| ==> a[j] < a[k]
    requires forall j, k :: 0 <= j < k < |b| ==> b[j] < b[k]
    requires forall i :: i in a <==> i in b
    ensures a == b
    decreases |a|
  {
    assert b != [] ==> b[0] in a;
    if a != [] {
      assert a[0] in b && b != [] && b[0] in a;
      var n, m := |a| - 1, |b| - 1;
      LastSame(a, b);
      forall i ensures i in a[..n] <==> i in b[..m] {
        InFront(a, i);
        InFront(b, i);
      }
      IncreasingSame(a[..n], b[..m]);
      assert a == a[..n] + [a[n]] && b == b[..m] + [b[m]];
    }
  }

  lemma LastSame(a: seq<nat>, b: seq<nat>)
    requires a != [] && b != []
    requires forall j, k :: 0 <= j < k < |a| ==> a[j] < a[k]
    requires forall j, k :: 0 <= j < k < |b| ==> b[j] < b[k]
    requires forall i :: i in a <==> i in b
    ensures a[|a| - 1] == b[|b| - 1]
  {
    assert a[|a| - 1] in b && b[|b| - 1] in a;
  }

  lemma InFront(a: seq<nat>, i: nat)
    requires a != [] && forall j, k :: 0 <= j < k < |a| ==> a[j] < a[k]
    ensures i in a[..|a| - 1] <==> i in a && i != a[|a| - 1]
  {
    var n := |a| - 1;
    assert a == a[..n] + [a[n]];
    if i in a[..n] { var k :| 0 <= k < n && a[..n][k] == i; }
  }

  // ---- Correction.

  function CorrectionMetadata(original: MemoryRecord, run: Text, signature: Text, sources: nat): map<Text, Json> {
    map[
      Plain("proposal_scope") := Str(Plain("correction")),
      Plain("run_id") := Str(run),
      Plain("corrected_from") := Str(original.memoryId),
      Plain("interface_signature") := Str(signature),
      Plain("resource_caps") := Object(map[
        Plain("max_steps") := Int(if sources > 16 then 32 else if sources < 1 then 1 else sources * 2)]),
      Plain("steps") := Array([
        Str(Plain("Correct memory")), Str(Plain("Verify supporting observable correction events"))])
    ]
  }

  /** The signature that the metadata names by a string, or the default one. */
  predicate Signed(metadata: map<Text, Json>, signature: Text) {
    if Plain("interface_signature") in metadata && metadata[Plain("interface_signature")].Str?
    then signature == metadata[Plain("interface_signature")].value
    else signature == Plain("agent.workflow.v1")
  }

  lemma OneCap(n: int)
    ensures CapsJson(map[Plain("max_steps") := n]) == map[Plain("max_steps") := Int(n)]
  {
  }

  lemma CorrectionMetadataIs(original: MemoryRecord, run: Text, sources: nat)
    ensures CorrectedMetadata(original, run, sources) ==
            CorrectionMetadata(original, run, SignatureOf(original.metadata), sources)
  {
    OneCap(Clamp(1, sources * 2, 32));
    var names := ["Correct memory", "Verify supporting observable correction events"];
    assert seq(2, i requires 0 <= i < 2 => Str(Plain(names[i]))) == [Str(Plain(names[0])), Str(Plain(names[1]))];
  }

  /** A candidate of the corrected claim, which supersedes the original and contradicts nothing. */
  function CorrectionOf(
    original: MemoryRecord, claim: string, run: Text, signature: Text, sources: seq<Text>, event: Text): MemoryRecord
  {
    Fresh(Candidate,
          Content(claim, [event] + sources, CorrectionMetadata(original, run, signature, |sources| + 1),
                  [original.memoryId], []))
  }

  function CorrectionPayload(original: MemoryRecord, claim: string, sources: seq<Text>): Json {
    AboutOne("correct", original, map[
      Plain("corrected_claim") := Str(Plain(claim)), Plain("supporting_source_event_ids") := Array(Strings(sources))])
  }

  lemma SignatureIs(metadata: map<Text, Json>, signature: Text)
    requires Signed(metadata, signature)
    ensures signature == SignatureOf(metadata)
  {
  }

  /** The run asked for, unless it is empty; else the run of the memory. */
  predicate CorrectionRun(original: MemoryRecord, asked: Option<Text>, run: Text) {
    if asked.Some? && asked.value != Plain("") then run == asked.value
    else InRun(original.metadata, "correction", run)
  }

  lemma CorrectionRunIs(original: MemoryRecord, asked: Option<Text>, run: Text)
    requires CorrectionRun(original, asked, run)
    ensures run == if asked.Some?
      && asked.value != Plain("") then asked.value else RunOf(original.metadata, "correction")
  {
    if asked.None? || asked.value == Plain("") { RunIs(original.metadata, "correction", run); }
  }

  lemma CorrectionDigestible(original: MemoryRecord, run: Text, signature: Text, sources: nat)
    ensures Digestible(Object(CorrectionMetadata(original, run, signature, sources)))
  {
    var m := CorrectionMetadata(original, run, signature, sources);
    forall k | k in m ensures Digestible(m[k]) {
    }
  }

  /**
   A correction goes through exactly for a memory on record, a claim that is not blank and an unused event id.
   It adds the event and a candidate of the new claim, which has the event as its first source and
   supersedes the original; the original stays as it is.
  */
  lemma CorrectOutcome(
      db: Db, id: Text, claim: string, asked: Option<Text>, sources: seq<Text>, nonce: nat, run: Text, signature: Text)
    requires RowsTrue(db)
    requires id in db.records ==>
      CorrectionRun(db.records[id].raw, asked, run) && Signed(db.records[id].raw.metadata, signature)
    ensures var plan := CorrectPlan(db, id, claim, asked, sources, nonce);
      var g := Left(db, plan);
      if id !in db.records then !Done(db, plan)
      else
        var original := db.records[id].raw;
        var payload := CorrectionPayload(original, claim, sources);
        var event := NewEventId(nonce, run, "memory_correct", payload, []);
        var made := CorrectionOf(original, claim, run, signature, sources, event);
        && (Done(db, plan) <==> Strip(claim) != "" && !HasEvent(db.events, event))
        && (Done(db, plan) ==> Logged(db, g, nonce, run, "memory_correct", payload, []) && SameProofs(db, g))
        && (Done(db, plan) ==> Saved(db, g, made, Corrected, "correction candidate", None, Some(event)))
  {
    hide WrittenAll, AllSucceed, HasEvent, Digestible, Strip, CreateRecord, Saved, CorrectedMetadata,
      CorrectionMetadata, OperationPayload, AboutOne, SameProofs, RunOf, InRun, CorrectionRun, SignatureOf, Signed;
    if id in db.records {
      var original := db.records[id].raw;
      var details := map[
        Plain("corrected_claim") := Str(Plain(claim)), Plain("supporting_source_event_ids") := Array(Strings(sources))];
      KindsOfEvents();
      CorrectionRunIs(original, asked, run);
      SignatureIs(original.metadata, signature);
      PayloadOne(Corrected, original, details);
      CorrectionMetadataIs(original, run, |sources| + 1);
      CorrectionDigestible(original, run, signature, |sources| + 1);
      var event := OperationEvent(nonce, Corrected, run, [original], details);
      assert |[event.id] + sources| == |sources| + 1;
      var c := Content(claim, [event.id] + sources, CorrectionMetadata(original, run, signature, |sources| + 1), [id],
                       []);
      CreatedFresh(Candidate, c);
      EventAndRecord(db, event, Change(Fresh(Candidate, c), Corrected, "correction candidate", None, Some(event.id)));
    }
  }

  // ---- Contradiction.

  function ContradictionMetadata(run: Text, signature: Text, reason: string): map<Text, Json> {
    map[
      Plain("proposal_scope") := Str(Plain("contradiction")),
      Plain("run_id") := Str(run),
      Plain("reason") := Str(Plain(reason)),
      Plain("interface_signature") := Str(signature),
      Plain("tools") := Array([]),
      Plain("resource_caps") := Object(map[Plain("max_steps") := Int(4)])
    ]
  }

  lemma ContradictionMetadataIs(original: MemoryRecord, run: Text, reason: string)
    ensures ContradictedMetadata(original, run, reason) ==
            ContradictionMetadata(run, SignatureOf(original.metadata), reason)
  {
    OneCap(4);
  }

  lemma ContradictionDigestible(run: Text, signature: Text, reason: string)
    ensures Digestible(Object(ContradictionMetadata(run, signature, reason)))
  {
    var m := ContradictionMetadata(run, signature, reason);
    forall k | k in m ensures Digestible(m[k]) {
    }
  }

  /** A record of the opposing claim in the contradiction lane, which contradicts the original. */
  function ContradictionOf(
    id: Text, claim: string, run: Text, signature: Text, sources: seq<Text>, reason: string, event: Text): MemoryRecord
  {
    Fresh(Contradiction,
          Content(claim, [event] + sources, ContradictionMetadata(run, signature, reason), [], [id]))
  }

  function ContradictionPayload(original: MemoryRecord, claim: string, sources: seq<Text>, reason: string): Json {
    AboutOne("correct", original, map[
      Plain("claim") := Str(Plain(claim)), Plain("reason") := Str(Plain(reason)),
      Plain("source_event_ids") := Array(Strings(sources))])
  }

  /**
   A contradiction goes through exactly for a memory on record, a claim that is not blank and an unused event
   id. It adds the event and a contradicting record; the original stays in its lane.
  */
  lemma ContradictOutcome(
      db: Db, id: Text, claim: string, sources: seq<Text>, reason: string, nonce: nat, run: Text, signature: Text)
    requires RowsTrue(db)
    requires id in db.records ==>
      InRun(db.records[id].raw.metadata, "contradiction", run) && Signed(db.records[id].raw.metadata, signature)
    ensures var plan := ContradictPlan(db, id, claim, sources, reason, nonce);
      var g := Left(db, plan);
      if id !in db.records then !Done(db, plan)
      else
        var payload := ContradictionPayload(db.records[id].raw, claim, sources, reason);
        var event := NewEventId(nonce, run, "memory_correct", payload, []);
        var made := ContradictionOf(id, claim, run, signature, sources, reason, event);
        && (Done(db, plan) <==> Strip(claim) != "" && !HasEvent(db.events, event))
        && (Done(db, plan) ==> Logged(db, g, nonce, run, "memory_correct", payload, []) && SameProofs(db, g))
        && (Done(db, plan) ==> Saved(db, g, made, Corrected, reason, None, Some(event)))
  {
    hide WrittenAll, AllSucceed, HasEvent, Digestible, Strip, CreateRecord, Saved, ContradictedMetadata,
      ContradictionMetadata, OperationPayload, AboutOne, SameProofs, RunOf, InRun, SignatureOf, Signed;
    if id in db.records {
      var original := db.records[id].raw;
      var details := map[
        Plain("claim") := Str(Plain(claim)), Plain("reason") := Str(Plain(reason)),
        Plain("source_event_ids") := Array(Strings(sources))];
      KindsOfEvents();
      RunIs(original.metadata, "contradiction", run);
      SignatureIs(original.metadata, signature);
      PayloadOne(Corrected, original, details);
      ContradictionMetadataIs(original, run, reason);
      ContradictionDigestible(run, signature, reason);
      var event := OperationEvent(nonce, Corrected, run, [original], details);
      var c := Content(claim, [event.id] + sources, ContradictionMetadata(run, signature, reason), [], [id]);
      CreatedFresh(Contradiction, c);
      EventAndRecord(db, event, Change(Fresh(Contradiction, c), Corrected, reason, None, Some(event.id)));
    }
  }

  // ---- Retirement and supersession.

  lemma AlwaysRetirable(lane: Lane)
    ensures MayMove(lane, Tombstone)
  {
  }

  lemma Supersedable(lane: Lane)
    ensures MayMove(lane, Superseded) <==> lane == Certified || lane == Superseded
  {
  }

  /**
   A retirement goes through exactly for a memory on record and an unused event id, from every lane. The
   memory goes to the tombstone lane with the reason and keeps everything else.
  */
  lemma RetireOutcome(db: Db, id: Text, reason: string, nonce: nat, run: Text)
    requires RowsTrue(db)
    requires id in db.records ==> InRun(db.records[id].raw.metadata, "retire", run)
    ensures var plan := RetirePlan(db, id, reason, nonce);
      var g := Left(db, plan);
      if id !in db.records then !Done(db, plan)
      else
        var retired := db.records[id].raw.(lane := Tombstone, reason := reason);
        var payload := AboutOne("delete", retired, map[Plain("reason") := Str(Plain(reason))]);
        && (Done(db, plan) <==> !HasEvent(db.events, NewEventId(nonce, run, "memory_delete", payload, [])))
        && (Done(db, plan) ==> Logged(db, g, nonce, run, "memory_delete", payload, []) && SameProofs(db, g))
        && (Done(db, plan) ==> Saved(db, g, retired, Deleted, reason, retired.receiptId, None))
  {
    hide WrittenAll, AllSucceed, HasEvent, Saved, OperationPayload, AboutOne, SameProofs, MayMove;
    if id in db.records {
      var r := db.records[id].raw;
      AlwaysRetirable(r.lane);
      var retired := r.(lane := Tombstone, reason := reason);
      var details := map[Plain("reason") := Str(Plain(reason))];
      KindsOfEvents();
      RunIs(r.metadata, "retire", run);
      PayloadOne(Deleted, retired, details);
      var event := OperationEvent(nonce, Deleted, run, [retired], details);
      RecordAndEvent(db, Change(retired, Deleted, reason, retired.receiptId, None), event);
    }
  }

  /** The first stored receipt with the id has passed, and is for this memory. */
  predicate ProofIs(receipts: seq<Receipt>, id: Text, candidate: Text) {
    exists k :: 0 <= k < |receipts| && receipts[k].id == id && receipts[k].seed.passed
      && receipts[k].seed.candidate == candidate && forall j :: 0 <= j < k ==> receipts[j].id != id
  }

  lemma {:induction false} ReceiptFirst(receipts: seq<Receipt>, id: Text)
    ensures ReceiptAt(receipts, id).None? <==> forall k :: 0 <= k < |receipts| ==> receipts[k].id != id
    ensures ReceiptAt(receipts, id).Some? ==>
      exists k :: 0 <= k < |receipts| && receipts[k] == ReceiptAt(receipts, id).value && receipts[k].id == id
        && forall j :: 0 <= j < k ==> receipts[j].id != id
  {
    if receipts != [] {
      var rest := receipts[1..];
      ReceiptFirst(rest, id);
      assert forall k :: 0 <= k < |rest| ==> rest[k] == receipts[k + 1];
      if receipts[0].id != id && ReceiptAt(rest, id).Some? {
        var k :| 0 <= k < |rest| && rest[k] == ReceiptAt(rest, id).value && rest[k].id == id
          && forall j :: 0 <= j < k ==> rest[j].id != id;
        assert forall j :: 0 < j < k + 1 ==> receipts[j] == rest[j - 1];
        assert receipts[k + 1].id == id;
      }
    }
  }

  lemma ProofAt(receipts: seq<Receipt>, id: Text, candidate: Text)
    ensures ProofIs(receipts, id, candidate) <==>
      var q := ReceiptAt(receipts, id); q.Some? && q.value.seed.passed && q.value.seed.candidate == candidate
  {
    ReceiptFirst(receipts, id);
  }

  lemma RefusedIff(db: Db, earlier: Text, newer: Text, receipt: Text)
    ensures SupersedeRefusal(db, earlier, newer, receipt).None? <==>
      && earlier in db.records && newer in db.records && ProofIs(db.receipts, receipt, newer)
      && db.records[newer].lane == Certified
      && (db.records[earlier].lane == Certified || db.records[earlier].lane == Superseded)
  {
    hide MayMove, ReceiptAt, ProofIs;
    ProofAt(db.receipts, receipt, newer);
    if earlier in db.records { Supersedable(db.records[earlier].lane); }
  }

  /** What the event of a supersession says: both memories, as they are afterwards. */
  function ReplacePayload(moved: MemoryRecord, newer: MemoryRecord, receipt: Text): Json {
    var latest := if newer.memoryId == moved.memoryId then moved else newer;
    About("replace", [Str(moved.memoryId), Str(latest.memoryId)], [Reference(moved), Reference(latest)],
          map[Plain("receipt_id") := Str(receipt)])
  }

  lemma PayloadTwo(op: Operation, r: MemoryRecord, u: MemoryRecord, details: map<Text, Json>)
    ensures OperationPayload(op, [r, u], details) ==
            About(OperationName(op), [Str(r.memoryId), Str(u.memoryId)], [Reference(r), Reference(u)], details)
  {
    var both := [r, u];
    assert seq(2, i requires 0 <= i < 2 => Str(both[i].memoryId)) == [Str(r.memoryId), Str(u.memoryId)];
    assert seq(2, i requires 0 <= i < 2 => MemoryRef(both[i])) == [Reference(r), Reference(u)];
  }

  /**
   A supersession goes through exactly when both memories are on record, the first stored receipt of the id
   has passed for the newer one, the newer one is certified, the earlier one is certified or superseded
   already, and the event id is unused. The earlier one becomes superseded with that receipt; the newer one stays.
  */
  lemma SupersedeOutcome(db: Db, earlier: Text, newer: Text, receipt: Text, nonce: nat, run: Text)
    requires RowsTrue(db)
    requires newer in db.records ==> InRun(db.records[newer].raw.metadata, "supersede", run)
    ensures var plan := SupersedePlan(db, earlier, newer, receipt, nonce);
      var g := Left(db, plan);
      if earlier !in db.records || newer !in db.records then !Done(db, plan)
      else
        var moved := db.records[earlier].raw.(lane := Superseded, reason := "superseded", receiptId := Some(receipt));
        var payload := ReplacePayload(moved, db.records[newer].raw, receipt);
        && (Done(db, plan) <==>
              && ProofIs(db.receipts, receipt, newer)
              && db.records[newer].lane == Certified
              && (db.records[earlier].lane == Certified || db.records[earlier].lane == Superseded)
              && !HasEvent(db.events, NewEventId(nonce, run, "memory_replace", payload, [])))
        && (Done(db, plan) ==> Logged(db, g, nonce, run, "memory_replace", payload, []) && SameProofs(db, g))
        && (Done(db, plan) ==> Saved(db, g, moved, Replaced, "superseded", Some(receipt), None))
  {
    hide WrittenAll, AllSucceed, HasEvent, Saved, OperationPayload, SameProofs, MayMove, SupersedeRefusal, ProofIs,
      About;
    RefusedIff(db, earlier, newer, receipt);
    if earlier in db.records && newer in db.records {
      var moved := db.records[earlier].raw.(lane := Superseded, reason := "superseded", receiptId := Some(receipt));
      var second := db.records[newer].raw;
      var latest := if second.memoryId == moved.memoryId then moved else second;
      var details := map[Plain("receipt_id") := Str(receipt)];
      KindsOfEvents();
      RunIs(second.metadata, "supersede", run);
      PayloadTwo(Replaced, moved, latest, details);
      var event := SupersedeEvent(db.records[earlier].raw, second, receipt, nonce);
      RecordAndEvent(db, Change(moved, Replaced, "superseded", Some(receipt), None), event);
    }
  }
}
