/**
 What a promotion leaves behind, whole or half done, and what that makes of a correction: promoted, it takes
 the place of its original.
*/
module Promotions {
  import opened Basics
  import opened Records
  import opened Evidence
  import opened Tables
  import opened Pipeline
  import opened Kernel
  import opened Certification
  import opened Outcomes

  // ---- Promotion.

  /** What a memory is once another has taken its place. */
  function Replacement(r: MemoryRecord, receipt: Text): MemoryRecord {
    r.(lane := Superseded, reason := "superseded", receiptId := Some(receipt))
  }

  predicate MaySupersede(db: Db, ids: seq<Text>) {
    forall s :: s in ids ==> s in db.records && (db.records[s].lane == Certified || db.records[s].lane == Superseded)
  }

  /** The memories listed are superseded with this receipt; every other one is as it was. */
  predicate AllSuperseded(db: Db, g: Db, ids: seq<Text>, receipt: Text) {
    && g.records.Keys == db.records.Keys
    && forall s :: s in db.records ==>
         g.records[s] == if s in ids then RecordRow(Replacement(db.records[s].raw, receipt)) else db.records[s]
  }

  /** One more revision for each memory listed, in order. */
  predicate Replacements(db: Db, g: Db, ids: seq<Text>, receipt: Text) {
    var n := |db.revisions|;
    && |g.revisions| == n + |ids| && g.revisions[..n] == db.revisions
    && forall k :: 0 <= k < |ids| && ids[k] in db.records ==>
         var v := g.revisions[n + k];
         && v.memoryId == ids[k] && v.operation == Replaced && v.after == Superseded && v.reason == "superseded"
         && v.receiptId == Some(receipt) && v.eventId == None
           && v.record == Replacement(db.records[ids[k]].raw, receipt)
  }

  predicate OnlyRecords(db: Db, g: Db) {
    g.events == db.events && SameProofs(db, g)
  }

  lemma NoneSuperseded(db: Db, receipt: Text)
    ensures AllSuperseded(db, db, [], receipt) && Replacements(db, db, [], receipt) && OnlyRecords(db, db)
  {
  }

  /** The tables after the first memory of the list. */
  function FirstReplaced(db: Db, id: Text, receipt: Text): Db
    requires id in db.records
  {
    Upserted(db, SupersededBy(db.records[id].raw, receipt))
  }

  lemma FirstRows(db: Db, id: Text, receipt: Text)
    requires RowsTrue(db) && id in db.records
    ensures var mid := FirstReplaced(db, id, receipt);
      && RowsTrue(mid) && AllSuperseded(db, mid, [id], receipt) && Replacements(db, mid, [id], receipt)
      && OnlyRecords(db, mid)
  {
    hide Without, IndexRowOf;
  }

  lemma SupersededOn(db: Db, mid: Db, g: Db, id: Text, rest: seq<Text>, receipt: Text)
    requires AllSuperseded(db, mid, [id], receipt) && AllSuperseded(mid, g, rest, receipt)
    ensures AllSuperseded(db, g, [id] + rest, receipt)
  {
  }

  lemma ReplacedOn(db: Db, mid: Db, g: Db, id: Text, rest: seq<Text>, receipt: Text)
    requires AllSuperseded(db, mid, [id], receipt)
    requires Replacements(db, mid, [id], receipt) && Replacements(mid, g, rest, receipt)
    ensures Replacements(db, g, [id] + rest, receipt)
  {
    var n, ids := |db.revisions|, [id] + rest;
    assert g.revisions[..n] == g.revisions[..n + 1][..n];
    forall k | 0 <= k < |ids| && ids[k] in db.records
      ensures var v := g.revisions[n + k];
        && v.memoryId == ids[k] && v.operation == Replaced && v.after == Superseded && v.reason == "superseded"
        && v.receiptId == Some(receipt) && v.eventId == None && v.record == Replacement(db.records[ids[k]].raw, receipt)
    {
      if k == 0 {
        assert g.revisions[n] == g.revisions[..n + 1][n];
      } else {
        assert ids[k] == rest[k - 1] && g.revisions[n + k] == g.revisions[|mid.revisions| + (k - 1)];
      }
    }
  }

  lemma MaySupersedeOn(db: Db, mid: Db, ids: seq<Text>, receipt: Text)
    requires ids != [] && ids[0] in db.records && AllSuperseded(db, mid, [ids[0]], receipt)
    requires MayMove(db.records[ids[0]].lane, Superseded)
    ensures MaySupersede(db, ids) <==> MaySupersede(mid, ids[1..])
  {
    hide Targets;
    Supersedable(db.records[ids[0]].lane);
    assert ids == [ids[0]] + ids[1..];
    if MaySupersede(mid, ids[1..]) {
      forall s | s in ids
        ensures s in db.records && (db.records[s].lane == Certified || db.records[s].lane == Superseded)
      {
        assert s != ids[0] ==> s in ids[1..] && mid.records[s] == db.records[s];
      }
    }
  }

  lemma {:induction false} SupersedeEachOutcome(db: Db, ids: seq<Text>, receipt: Text)
    requires RowsTrue(db)
    ensures var plan := SupersedeWrites(db, ids, receipt);
      var g := WrittenAll(db, plan.writes);
      && (plan.result.Ok? <==> MaySupersede(db, ids))
      && (plan.result.Ok? ==>
            AllSuperseded(db, g, ids, receipt) && Replacements(db, g, ids, receipt) && OnlyRecords(db, g))
    decreases |ids|
  {
    hide RowsTrue, MayMove, Upserted, SupersededBy, AllSuperseded, Replacements, WrittenAll;
    if ids == [] {
      NoneSuperseded(db, receipt);
      NoWritesAtAll(db);
    } else if ids[0] in db.records && MayMove(db.records[ids[0]].lane, Superseded) {
      var mid := FirstReplaced(db, ids[0], receipt);
      FirstRows(db, ids[0], receipt);
      MaySupersedeOn(db, mid, ids, receipt);
      SupersedeEachOutcome(mid, ids[1..], receipt);
      var w := PutRecord(SupersededBy(db.records[ids[0]].raw, receipt));
      WrittenCons(db, w, SupersedeWrites(mid, ids[1..], receipt).writes);
      assert ids == [ids[0]] + ids[1..];
      if MaySupersede(db, ids) {
        var g := WrittenAll(mid, SupersedeWrites(mid, ids[1..], receipt).writes);
        SupersededOn(db, mid, g, ids[0], ids[1..], receipt);
        ReplacedOn(db, mid, g, ids[0], ids[1..], receipt);
      }
    } else if ids[0] in db.records {
      Supersedable(db.records[ids[0]].lane);
    }
  }

  /** A receipt that lets the memory be promoted as it is. */
  predicate Supports(q: Receipt, id: Text, update: Text) {
    && q.seed.candidate == id && q.seed.update == update && q.seed.passed && q.seed.checks != []
    && forall k :: 0 <= k < |q.seed.checks| ==> q.seed.checks[k].passed
  }

  /** The last stored receipt that does. */
  predicate LastSupport(receipts: seq<Receipt>, id: Text, update: Text, q: Receipt) {
    exists k :: 0 <= k < |receipts| && receipts[k] == q && Supports(q, id, update)
      && forall j :: k < j < |receipts| ==> !Supports(receipts[j], id, update)
  }

  lemma {:induction false} LastSupportIs(receipts: seq<Receipt>, id: Text, update: Text)
    ensures var found := LastPassing(ReceiptsOf(receipts, id), update);
      && (found.None? <==> forall k :: 0 <= k < |receipts| ==> !Supports(receipts[k], id, update))
      && (found.Some? ==> LastSupport(receipts, id, update, found.value))
  {
    hide Supports, LastPassing, ReceiptsOf, LastSupport;
    if receipts == [] {
      NoSupport(id, update);
    } else {
      var n := |receipts| - 1;
      LastSupportIs(receipts[..n], id, update);
      LastPassingNext(receipts, id, update);
      assert forall k :: 0 <= k < n ==> receipts[k] == receipts[..n][k];
      if Supports(receipts[n], id, update) {
        SupportNew(receipts, id, update);
      } else if LastPassing(ReceiptsOf(receipts[..n], id), update).Some? {
        SupportKept(receipts, id, update, LastPassing(ReceiptsOf(receipts[..n], id), update).value);
      }
    }
  }

  lemma SupportNew(receipts: seq<Receipt>, id: Text, update: Text)
    requires receipts != [] && Supports(receipts[|receipts| - 1], id, update)
    ensures LastSupport(receipts, id, update, receipts[|receipts| - 1])
  {
    hide Supports;
  }

  lemma SupportKept(receipts: seq<Receipt>, id: Text, update: Text, q: Receipt)
    requires receipts != [] && !Supports(receipts[|receipts| - 1], id, update)
    requires LastSupport(receipts[..|receipts| - 1], id, update, q)
    ensures LastSupport(receipts, id, update, q)
    ensures exists k :: 0 <= k < |receipts| && Supports(receipts[k], id, update)
  {
    hide Supports;
    var front := receipts[..|receipts| - 1];
    var k :| 0 <= k < |front| && front[k] == q && Supports(q, id, update)
      && forall j :: k < j < |front| ==> !Supports(front[j], id, update);
    forall j | k < j < |receipts| ensures !Supports(receipts[j], id, update) {
      if j < |front| { assert front[j] == receipts[j]; }
    }
    assert receipts[k] == q;
  }

  lemma NoSupport(id: Text, update: Text)
    ensures LastPassing(ReceiptsOf([], id), update).None?
  {
  }

  lemma LastPassingNext(receipts: seq<Receipt>, id: Text, update: Text)
    requires receipts != []
    ensures var last := receipts[|receipts| - 1];
      LastPassing(ReceiptsOf(receipts, id), update) ==
        if Supports(last, id, update) then Some(last)
        else LastPassing(ReceiptsOf(receipts[..|receipts| - 1], id), update)
  {
    var front, last := ReceiptsOf(receipts[..|receipts| - 1], id), receipts[|receipts| - 1];
    assert (front + [last])[..|front|] == front;
  }

  /** The contract of a promotion. */
  function ContractRow(r: MemoryRecord, q: Receipt, clock: nat): Contract {
    Contract(ContractId(ContractSeed(r.memoryId, r.updateId, r.claim, r.sources, q.id, q.digest)),
             r.memoryId, r.updateId, q.id, q.digest,
             ContentHash(Content(r.claim, r.sources, r.metadata, r.supersedes, r.contradicts)), r.sources,
             seq(|q.seed.checks|, i requires 0 <= i < |q.seed.checks| => q.seed.checks[i].checker), clock)
  }

  function CertifiedRecord(r: MemoryRecord, q: Receipt, clock: nat): MemoryRecord {
    r.(lane := Certified, contractId := Some(ContractRow(r, q, clock).id), receiptId := Some(q.id),
       reason := "promoted with passing receipt")
  }

  function PromotionPayload(r: MemoryRecord, q: Receipt, clock: nat): Json {
    AboutOne("promote", CertifiedRecord(r, q, clock), map[
      Plain("receipt_id") := Str(q.id), Plain("verification_id") := Int(q.verification),
      Plain("receipt_digest") := Str(q.digest), Plain("workflow_contract_id") := Str(ContractRow(r, q, clock).id),
      Plain("supersedes") := Array(Strings(r.supersedes))])
  }

  lemma PromoteKind()
    ensures "memory_" + OperationName(Promoted) == "memory_promote"
    ensures OperationName(Promoted) == "promote" && OperationName(Verified) == "verify"
  {
  }

  lemma PromotionDetails(r: MemoryRecord, q: Receipt, clock: nat)
    ensures ContractOf(r, q, clock) == ContractRow(r, q, clock)
    ensures CertifiedBy(r, q, ContractOf(r, q, clock)) == CertifiedRecord(r, q, clock)
    ensures OperationPayload(Promoted, [CertifiedRecord(r, q, clock)],
                             PromoteDetails(q, ContractRow(r, q, clock), r)) ==
            PromotionPayload(r, q, clock)
  {
    hide OperationPayload, AboutOne;
    PayloadOne(Promoted, CertifiedRecord(r, q, clock), PromoteDetails(q, ContractRow(r, q, clock), r));
    PromoteKind();
    var names := seq(|q.seed.checks|, i requires 0 <= i < |q.seed.checks| => q.seed.checks[i].checker);
    assert CheckerNames(q.seed.checks) == names;
  }

  lemma MayCertify(lane: Lane)
    ensures MayMove(lane, Certified) <==> lane == Shadow || lane == Certified
  {
  }

  /** What the tables hold of a promotion before its last write, the event. */
  predicate CertifiedIn(db: Db, g: Db, r: MemoryRecord, q: Receipt, clock: nat) {
    && AllSuperseded(db.(records := db.records[r.memoryId := RecordRow(CertifiedRecord(r, q, clock))]), g, r.supersedes,
                     q.id)
    && g.contracts == db.contracts[ContractRow(r, q, clock).id := ContractRow(r, q, clock)]
    && g.receipts == db.receipts && g.manifests == db.manifests
  }

  /** The revisions of a promotion: its own, and one for each superseded memory. */
  predicate CertifiedLog(db: Db, g: Db, r: MemoryRecord, q: Receipt, clock: nat) {
    var made := CertifiedRecord(r, q, clock);
    Replacements(
      db.(records := db.records[r.memoryId := RecordRow(made)],
          revisions := db.revisions + [RevisionRow(db, made, Promoted, made.reason, Some(q.id), None)]),
      g, r.supersedes, q.id)
  }

  /** Only these tables matter to the two predicates. */
  lemma SameSuperseded(a: Db, b: Db, g: Db, h: Db, ids: seq<Text>, receipt: Text)
    requires a.records == b.records && a.revisions == b.revisions && g.records == h.records
      && g.revisions == h.revisions
    ensures AllSuperseded(a, g, ids, receipt) <==> AllSuperseded(b, h, ids, receipt)
    ensures Replacements(a, g, ids, receipt) <==> Replacements(b, h, ids, receipt)
    ensures MaySupersede(a, ids) <==> MaySupersede(b, ids)
  {
  }

  lemma CertifiedSaved(db: Db, mid: Db, made: MemoryRecord, receipt: Text)
    requires SameRecords(db, mid)
    ensures var g := Upserted(mid, Change(made, Promoted, made.reason, Some(receipt), None));
      && g.records == db.records[made.memoryId := RecordRow(made)]
      && g.revisions == db.revisions + [RevisionRow(db, made, Promoted, made.reason, Some(receipt), None)]
      && g.contracts == mid.contracts && OnlyRecords(mid, g)
      && (RowsTrue(db) ==> RowsTrue(g))
  {
    hide Without, IndexRowOf;
  }

  lemma OthersSupersedable(db: Db, g: Db, made: MemoryRecord, ids: seq<Text>)
    requires g.records == db.records[made.memoryId := RecordRow(made)] && made.memoryId !in ids
    ensures MaySupersede(g, ids) <==> MaySupersede(db, ids)
  {
  }

  /** The last support is the receipt that promotion finds. */
  lemma SupportFound(receipts: seq<Receipt>, id: Text, update: Text, q: Receipt)
    requires LastSupport(receipts, id, update, q)
    ensures LastPassing(ReceiptsOf(receipts, id), update) == Some(q)
  {
    hide Supports, LastPassing, ReceiptsOf;
    LastSupportIs(receipts, id, update);
    var k :| 0 <= k < |receipts| && receipts[k] == q && Supports(q, id, update)
      && forall j :: k < j < |receipts| ==> !Supports(receipts[j], id, update);
    var found := LastPassing(ReceiptsOf(receipts, id), update).value;
    var m :| 0 <= m < |receipts| && receipts[m] == found && Supports(found, id, update)
      && forall j :: m < j < |receipts| ==> !Supports(receipts[j], id, update);
    assert m == k;
  }

  lemma PromotesIs(db: Db, id: Text, nonce: nat, clock: nat, run: Text, q: Receipt)
    requires id in db.records && InRun(db.records[id].raw.metadata, "promotion", run)
    requires LastSupport(db.receipts, id, db.records[id].raw.updateId, q)
    ensures var r := db.records[id].raw;
      Promotes(db, id, nonce, clock) ==
        if r.lane == Shadow || r.lane == Certified
        then Ok(Promotion(ContractRow(r, q, clock), CertifiedRecord(r, q, clock), r.supersedes, q.id,
                          MakeEvent(nonce, run, "memory_promote", PromotionPayload(r, q, clock), r.sources)))
        else Err(Rejected)
  {
    hide LastPassing, ReceiptsOf, LastSupport, MayMove, OperationPayload, PromotionPayload, PromoteDetails, InRun,
      RunOf, ContractOf, ContractRow, CertifiedBy, CertifiedRecord;
    var r := db.records[id].raw;
    SupportFound(db.receipts, id, r.updateId, q);
    MayCertify(r.lane);
    PromotionDetails(r, q, clock);
    RunIs(r.metadata, "promotion", run);
  }

  /** No support among the receipts: nothing is written. */
  lemma PromoteUnsupported(db: Db, id: Text, nonce: nat, clock: nat)
    requires id in db.records ==>
      forall k :: 0 <= k < |db.receipts| ==> !Supports(db.receipts[k], id, db.records[id].raw.updateId)
    ensures PromotePlan(db, id, nonce, clock).result.Err? && Left(db, PromotePlan(db, id, nonce, clock)) == db
  {
    hide LastPassing, ReceiptsOf, Supports, MayMove;
    if id in db.records { LastSupportIs(db.receipts, id, db.records[id].raw.updateId); }
    NoWritesAtAll(db);
  }

  /**
   With a last supporting receipt, a promotion goes through exactly from shadow or certified, with no other
   contract under the id, every superseded memory on record as certified or superseded, and an unused event
   id. Then the contract is stored, the memory is certified, each memory that it supersedes is superseded
   with the same receipt, the event is logged, and every other record is as it was.
  */
  lemma PromoteOutcome(db: Db, id: Text, nonce: nat, clock: nat, run: Text, q: Receipt)
    requires RowsTrue(db) && id in db.records && id !in db.records[id].raw.supersedes
    requires InRun(db.records[id].raw.metadata, "promotion", run)
    requires LastSupport(db.receipts, id, db.records[id].raw.updateId, q)
    ensures var r := db.records[id].raw;
      var plan := PromotePlan(db, id, nonce, clock);
      var g, payload, c := Left(db, plan), PromotionPayload(r, q, clock), ContractRow(r, q, clock);
      && (Done(db, plan) <==>
            && (r.lane == Shadow || r.lane == Certified)
            && (c.id in db.contracts ==> db.contracts[c.id] == c)
            && MaySupersede(db, r.supersedes)
            && !HasEvent(db.events, NewEventId(nonce, run, "memory_promote", payload, r.sources)))
      && (Done(db, plan) ==> plan.result.value == CertifiedRecord(r, q, clock))
      && (Done(db, plan) ==> Logged(db, g, nonce, run, "memory_promote", payload, r.sources))
      && (Done(db, plan) ==> CertifiedIn(db, g, r, q, clock) && CertifiedLog(db, g, r, q, clock))
  {
    hide *;
    var r := db.records[id].raw;
    RowsRaw(db, id);
    PromotesIs(db, id, nonce, clock, run, q);
    if r.lane == Shadow || r.lane == Certified {
      CertifiedIds(r, q, clock);
      PromotePlanIs(db, id, nonce, clock);
      PromoteRows(db, r, q, clock, MakeEvent(nonce, run, "memory_promote", PromotionPayload(r, q, clock), r.sources));
      EventIs(nonce, run, "memory_promote", PromotionPayload(r, q, clock), r.sources);
      DoneIs(db, PromotePlan(db, id, nonce, clock));
      LoggedIs(db, Left(db, PromotePlan(db, id, nonce, clock)), nonce, run, "memory_promote",
               PromotionPayload(r, q, clock), r.sources);
    } else {
      PromoteRefused(db, id, nonce, clock);
      DoneIs(db, PromotePlan(db, id, nonce, clock));
    }
  }

  lemma RowsRaw(db: Db, id: Text)
    requires RowsTrue(db) && id in db.records
    ensures db.records[id].raw.memoryId == id
  {
  }

  lemma CertifiedIds(r: MemoryRecord, q: Receipt, clock: nat)
    ensures CertifiedRecord(r, q, clock).memoryId == r.memoryId
  {
  }

  lemma PromoteRefused(db: Db, id: Text, nonce: nat, clock: nat)
    requires Promotes(db, id, nonce, clock).Err?
    ensures PromotePlan(db, id, nonce, clock).result.Err?
  {
    hide Promotes;
  }

  lemma PromotePlanIs(db: Db, id: Text, nonce: nat, clock: nat)
    requires Promotes(db, id, nonce, clock).Ok?
    ensures var m := Promotes(db, id, nonce, clock).value;
      var v, w := PutContract(m.contract),
                  PutRecord(Change(m.certified, Promoted, m.certified.reason, Some(m.receipt), None));
      var rest := SupersedeWrites(Written(Written(db, v), w), m.supersedes, m.receipt);
      var plan := PromotePlan(db, id, nonce, clock);
      && plan.writes == [v, w] + rest.writes + (if rest.result.Ok? then [PutEvent(m.event)] else [])
      && (plan.result.Ok? <==> rest.result.Ok?)
      && (plan.result.Ok? ==> plan.result.value == m.certified)
  {
    hide Promotes, Written, SupersedeWrites;
    var m := Promotes(db, id, nonce, clock).value;
    var first := FirstWrites(m);
    var rest := SupersedeWrites(Written(Written(db, first[0]), first[1]), m.supersedes, m.receipt);
    assert first + rest.writes + [] == first + rest.writes;
  }

  /** The writes of a promotion, and the tables that they leave. */
  lemma PromoteRows(db: Db, r: MemoryRecord, q: Receipt, clock: nat, e: Event)
    requires RowsTrue(db) && r.memoryId !in r.supersedes && e.payloadDigest == PayloadHash(e.payload)
    ensures var made, c := CertifiedRecord(r, q, clock), ContractRow(r, q, clock);
      var v, w := PutContract(c), PutRecord(Change(made, Promoted, made.reason, Some(q.id), None));
      var rest := SupersedeWrites(Written(Written(db, v), w), r.supersedes, q.id);
      var ws := [v, w] + rest.writes + (if rest.result.Ok? then [PutEvent(e)] else []);
      && (rest.result.Ok? <==> MaySupersede(db, r.supersedes))
      && (rest.result.Ok? ==>
            (AllSucceed(db, ws) <==> (c.id in db.contracts ==> db.contracts[c.id] == c) && !HasEvent(db.events, e.id)))
      && (rest.result.Ok? && AllSucceed(db, ws) ==>
            && WrittenAll(db, ws).events == db.events + [e]
            && CertifiedIn(db, WrittenAll(db, ws), r, q, clock) && CertifiedLog(db, WrittenAll(db, ws), r, q, clock))
  {
    hide CertifiedRecord, ContractRow, Upserted, WrittenAll, AllSucceed, RowsTrue, HasEvent, AllSuperseded,
      Replacements, MaySupersede, SupersedeWrites, RecordRow, RevisionRow;
    var made, c := CertifiedRecord(r, q, clock), ContractRow(r, q, clock);
    CertifiedIds(r, q, clock);
    var v, w := PutContract(c), PutRecord(Change(made, Promoted, made.reason, Some(q.id), None));
    var mid := Written(Written(db, v), w);
    var rest := SupersedeWrites(mid, r.supersedes, q.id);
    CertifiedSaved(db, Written(db, v), made, q.id);
    OthersSupersedable(db, mid, made, r.supersedes);
    SupersedeEachOutcome(mid, r.supersedes, q.id);
    SupersedesSucceed(mid, r.supersedes, q.id);
    PromoteWrites(db, v, w, rest, PutEvent(e));
    if rest.result.Ok? {
      var h := WrittenAll(mid, rest.writes);
      var k := Written(h, PutEvent(e));
      var begun := db.(records := db.records[r.memoryId := RecordRow(made)],
                       revisions := db.revisions + [RevisionRow(db, made, Promoted, made.reason, Some(q.id), None)]);
      SameSuperseded(mid, begun, h, k, r.supersedes, q.id);
      CertifiedRows(db, begun, k, r, q, clock);
    }
  }

  lemma CertifiedRows(db: Db, begun: Db, g: Db, r: MemoryRecord, q: Receipt, clock: nat)
    requires begun.records == db.records[r.memoryId := RecordRow(CertifiedRecord(r, q, clock))]
    requires AllSuperseded(begun, g, r.supersedes, q.id)
    ensures AllSuperseded(db.(records := db.records[r.memoryId := RecordRow(CertifiedRecord(r, q, clock))]), g,
                          r.supersedes, q.id)
  {
    hide CertifiedRecord, RecordRow;
  }

  // ---- A correction, once promoted.

  /** A memory is never among those it supersedes: its id digests theirs. */
  lemma NeverItself(id: Text)
    requires id.MemoryId?
    ensures id !in id.content.supersedes
  {
    forall k | 0 <= k < |id.content.supersedes| ensures id.content.supersedes[k] != id {
    }
  }

  lemma OwnContent(setting: Setting, db: Db, id: Text)
    requires CertInv(setting, db) && id in db.records
    ensures var r := db.records[id].raw;
      && r.memoryId == id && id.MemoryId? && r.supersedes == id.content.supersedes && id !in r.supersedes
  {
    hide Proven, Backed, BuiltFor, ContractTrue, EventsTrue, HasEvent, Strip;
    NeverItself(id);
  }

  /** The memory that a correction makes. */
  lemma CorrectionMade(db: Db, id: Text, claim: string, asked: Option<Text>, sources: seq<Text>, nonce: nat)
    requires CorrectPlan(db, id, claim, asked, sources, nonce).result.Ok?
    ensures var made := CorrectPlan(db, id, claim, asked, sources, nonce).result.value.memoryId;
      made.MemoryId? && made.lane == Candidate && made.content.supersedes == [id] && made.content.contradicts == []
  {
    hide Strip, Digestible, CorrectedMetadata, OperationEvent;
  }

  lemma PromotedSupport(db: Db, id: Text, nonce: nat, clock: nat) returns (q: Receipt)
    requires id in db.records && Promotes(db, id, nonce, clock).Ok?
    ensures LastSupport(db.receipts, id, db.records[id].raw.updateId, q)
  {
    hide LastPassing, ReceiptsOf, LastSupport, Supports;
    LastSupportIs(db.receipts, id, db.records[id].raw.updateId);
    q := LastPassing(ReceiptsOf(db.receipts, id), db.records[id].raw.updateId).value;
  }

  lemma RunExists(metadata: map<Text, Json>, otherwise: string) returns (run: Text)
    ensures InRun(metadata, otherwise, run)
  {
    run := RunOf(metadata, otherwise);
  }

  lemma CertifiedMeans(db: Db, g: Db, r: MemoryRecord, q: Receipt, clock: nat, id: Text)
    requires CertifiedIn(db, g, r, q, clock) && r.supersedes == [id] && id in db.records && id != r.memoryId
    ensures id in g.records && r.memoryId in g.records
    ensures g.records[id].raw ==
      db.records[id].raw.(lane := Superseded, reason := "superseded", receiptId := Some(q.id))
    ensures g.records[id].lane == Superseded
    ensures g.records[r.memoryId].lane == Certified && g.records[r.memoryId].raw.receiptId == Some(q.id)
    ensures forall s :: s in db.records && s != id && s != r.memoryId ==>
      s in g.records && g.records[s] == db.records[s]
  {
    hide ContractRow;
  }

  /**
   A correction, once promoted, takes the place of its original: at the end of every run, whenever the memory
   that some correction made is promoted, the original becomes superseded by the same receipt, and no third
   memory changes.
  */
  lemma CorrectionSupersedes(
      setting: Setting, moves: seq<Move>, db: Db, id: Text, claim: string, asked: Option<Text>, sources: seq<Text>,
      nonce: nat, later: seq<Move>, now: Db, made: Text, event: nat, clock: nat)
    requires Reached(setting, moves, db) && CorrectPlan(db, id, claim, asked, sources, nonce).result.Ok?
    requires made == CorrectPlan(db, id, claim, asked, sources, nonce).result.value.memoryId
    requires Reached(setting, later, now) && Done(now, PromotePlan(now, made, event, clock))
    ensures var g := Left(now, PromotePlan(now, made, event, clock));
      && id in now.records && id in g.records && made in g.records && id != made
      && g.records[made].lane == Certified && g.records[id].lane == Superseded
      && g.records[id].raw == now.records[id].raw.(
           lane := Superseded, reason := "superseded", receiptId := g.records[made].raw.receiptId)
      && forall s :: s in now.records && s != id && s != made ==> s in g.records && g.records[s] == now.records[s]
  {
    hide *;
    ReachedInv(setting, later, now);
    CorrectionMade(db, id, claim, asked, sources, nonce);
    DoneIs(now, PromotePlan(now, made, event, clock));
    PromotionFound(now, made, event, clock);
    OwnContent(setting, now, made);
    var q := PromotedSupport(now, made, event, clock);
    var run := RunExists(now.records[made].raw.metadata, "promotion");
    PromoteOutcome(now, made, event, clock, run, q);
    OnlySuperseded(now, [id], id);
    CertifiedMeans(now, Left(now, PromotePlan(now, made, event, clock)), now.records[made].raw, q, clock, id);
  }

  lemma OnlySuperseded(db: Db, ids: seq<Text>, id: Text)
    requires MaySupersede(db, ids) && ids == [id]
    ensures id in db.records
  {
  }

  lemma PromotionFound(db: Db, id: Text, nonce: nat, clock: nat)
    requires PromotePlan(db, id, nonce, clock).result.Ok?
    ensures id in db.records && Promotes(db, id, nonce, clock).Ok?
  {
    hide LastPassing, ReceiptsOf, MayMove, SupersedeWrites;
  }

  // ---- A promotion that stops half way.

  lemma {:induction false} LoopSpares(db: Db, ids: seq<Text>, receipt: Text, id: Text)
    requires RowsTrue(db) && id in db.records && id !in ids
    ensures var g := WrittenAll(db, SupersedeWrites(db, ids, receipt).writes);
      id in g.records && g.records[id] == db.records[id] && g.events == db.events
    decreases |ids|
  {
    hide RowsTrue, MayMove, Upserted, SupersededBy, WrittenAll, AllSuperseded, Replacements;
    NoWritesAtAll(db);
    if ids != [] && ids[0] in db.records && MayMove(db.records[ids[0]].lane, Superseded) {
      var mid := FirstReplaced(db, ids[0], receipt);
      FirstRows(db, ids[0], receipt);
      OtherKept(db, mid, ids[0], receipt, id);
      LoopSpares(mid, ids[1..], receipt, id);
      var w := PutRecord(SupersededBy(db.records[ids[0]].raw, receipt));
      WrittenCons(db, w, SupersedeWrites(mid, ids[1..], receipt).writes);
    }
  }

  lemma OtherKept(db: Db, mid: Db, id: Text, receipt: Text, other: Text)
    requires AllSuperseded(db, mid, [id], receipt) && other in db.records && other != id
    ensures other in mid.records && mid.records[other] == db.records[other]
  {
  }

  /**
   When a memory to be superseded may not be, the promotion raises after its own memory is certified: the
   certified record stays, under its contract, and no event tells of it.
  */
  lemma PromotionHalfDone(db: Db, id: Text, nonce: nat, clock: nat, q: Receipt)
    requires RowsTrue(db) && id in db.records && id !in db.records[id].raw.supersedes
    requires LastSupport(db.receipts, id, db.records[id].raw.updateId, q)
    requires db.records[id].lane == Shadow || db.records[id].lane == Certified
    requires var c := ContractRow(db.records[id].raw, q, clock); c.id in db.contracts ==> db.contracts[c.id] == c
    requires !MaySupersede(db, db.records[id].raw.supersedes)
    ensures var plan := PromotePlan(db, id, nonce, clock);
      var g := Left(db, plan);
      && plan.result.Err?
      && id in g.records && g.records[id].lane == Certified
      && g.records[id] == RecordRow(CertifiedRecord(db.records[id].raw, q, clock))
      && g.events == db.events
  {
    hide *;
    var r := db.records[id].raw;
    RowsRaw(db, id);
    RowLane(db, id);
    var run := RunExists(r.metadata, "promotion");
    PromotesIs(db, id, nonce, clock, run, q);
    CertifiedIds(r, q, clock);
    PromotePlanIs(db, id, nonce, clock);
    DoneIs(db, PromotePlan(db, id, nonce, clock));
    HalfRows(db, r, q, clock);
  }

  lemma RowLane(db: Db, id: Text)
    requires RowsTrue(db) && id in db.records
    ensures db.records[id].lane == db.records[id].raw.lane
  {
  }

  lemma HalfRows(db: Db, r: MemoryRecord, q: Receipt, clock: nat)
    requires RowsTrue(db) && r.memoryId !in r.supersedes && !MaySupersede(db, r.supersedes)
    requires var c := ContractRow(r, q, clock); c.id in db.contracts ==> db.contracts[c.id] == c
    ensures var made, c := CertifiedRecord(r, q, clock), ContractRow(r, q, clock);
      var v, w := PutContract(c), PutRecord(Change(made, Promoted, made.reason, Some(q.id), None));
      var rest := SupersedeWrites(Written(Written(db, v), w), r.supersedes, q.id);
      var g := WrittenAll(db, [v, w] + rest.writes + []);
      && rest.result.Err?
      && r.memoryId in g.records && g.records[r.memoryId] == RecordRow(made) && RecordRow(made).lane == Certified
      && g.events == db.events
  {
    hide ContractRow, Upserted, WrittenAll, AllSucceed, RowsTrue, HasEvent, MaySupersede, SupersedeWrites, RevisionRow;
    var made, c := CertifiedRecord(r, q, clock), ContractRow(r, q, clock);
    var v, w := PutContract(c), PutRecord(Change(made, Promoted, made.reason, Some(q.id), None));
    var mid := Written(Written(db, v), w);
    var rest := SupersedeWrites(mid, r.supersedes, q.id);
    CertifiedSaved(db, Written(db, v), made, q.id);
    OthersSupersedable(db, mid, made, r.supersedes);
    SupersedeEachOutcome(mid, r.supersedes, q.id);
    SupersedesSucceed(mid, r.supersedes, q.id);
    LoopSpares(mid, r.supersedes, q.id, r.memoryId);
    PromoteWrites(db, v, w, rest, w);
  }

  /**
   So a correction of a memory that is neither certified nor superseded, say a candidate or a retired one,
   is certified by a promotion that raises: at the end of every run, and without an event.
  */
  lemma CorrectionHalfPromoted(
      setting: Setting, moves: seq<Move>, db: Db, id: Text, claim: string, asked: Option<Text>, sources: seq<Text>,
      nonce: nat, later: seq<Move>, now: Db, made: Text, event: nat, clock: nat, q: Receipt)
    requires Reached(setting, moves, db) && CorrectPlan(db, id, claim, asked, sources, nonce).result.Ok?
    requires made == CorrectPlan(db, id, claim, asked, sources, nonce).result.value.memoryId
    requires Reached(setting, later, now) && made in now.records && now.records[made].lane == Shadow
    requires LastSupport(now.receipts, made, now.records[made].raw.updateId, q)
    requires var c := ContractRow(now.records[made].raw, q, clock); c.id in now.contracts ==> now.contracts[c.id] == c
    requires id in now.records ==> now.records[id].lane != Certified && now.records[id].lane != Superseded
    ensures var plan := PromotePlan(now, made, event, clock);
      var g := Left(now, plan);
      plan.result.Err? && made in g.records && g.records[made].lane == Certified && g.events == now.events
  {
    hide *;
    ReachedInv(setting, later, now);
    CorrectionMade(db, id, claim, asked, sources, nonce);
    OwnContent(setting, now, made);
    MayNot(now, now.records[made].raw.supersedes, id);
    PromotionHalfDone(now, made, event, clock, q);
  }

  lemma MayNot(db: Db, ids: seq<Text>, id: Text)
    requires id in ids && (id in db.records ==> db.records[id].lane != Certified && db.records[id].lane != Superseded)
    ensures !MaySupersede(db, ids)
  {
  }
}
