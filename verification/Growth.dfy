/**
 Tables that have grown: nothing that is looked up in the smaller ones is answered differently by the
 larger ones. What a plan does by the rules on the first it does by the rules on the second.
*/
module Growth {
  import opened Basics
  import opened Records
  import opened Tables
  import opened Plans
  import opened Pipeline

  /** Two records of one memory: lane, reason, receipt and contract apart, they are the same. */
  predicate SameMemory(a: MemoryRecord, b: MemoryRecord) {
    b == a.(lane := b.lane, reason := b.reason, receiptId := b.receiptId, contractId := b.contractId)
  }

  ghost predicate EventsGrow(events: seq<Event>, later: seq<Event>) {
    forall id :: EventDigest(events, id).Some? ==> EventDigest(later, id) == EventDigest(events, id)
  }

  ghost predicate Grows(db: Db, g: Db) {
    && EventsGrow(db.events, g.events)
    && (forall q :: q in db.receipts ==> q in g.receipts)
    && (forall m :: m in db.manifests ==> m in g.manifests)
    && (forall id :: id in db.contracts ==> id in g.contracts && g.contracts[id] == db.contracts[id])
    && (forall id :: id in db.records ==> id in g.records && SameMemory(db.records[id].raw, g.records[id].raw))
  }

  // ---- Looking up events.

  lemma {:induction false} HasDigest(events: seq<Event>, id: Text)
    ensures HasEvent(events, id) <==> EventDigest(events, id).Some?
  {
    if events != [] {
      var rest := events[1..];
      HasDigest(rest, id);
      assert forall k :: 0 <= k < |rest| ==> rest[k] == events[k + 1];
      assert forall k :: 0 < k < |events| ==> events[k] == rest[k - 1];
    }
  }

  lemma {:induction false} DigestSnoc(events: seq<Event>, e: Event, id: Text)
    ensures EventDigest(events + [e], id) ==
      if EventDigest(events, id).Some? then EventDigest(events, id)
      else if e.id == id then Some(e.payloadDigest) else None
  {
    if events == [] {
      assert events + [e] == [e];
    } else if events[0].id != id {
      assert (events + [e])[1..] == events[1..] + [e];
      DigestSnoc(events[1..], e, id);
    }
  }

  lemma HasEventGrows(events: seq<Event>, later: seq<Event>, id: Text)
    requires EventsGrow(events, later) && HasEvent(events, id)
    ensures HasEvent(later, id)
  {
    HasDigest(events, id);
    HasDigest(later, id);
  }

  lemma HasReceiptGrows(receipts: seq<Receipt>, later: seq<Receipt>, id: Text)
    requires (forall q :: q in receipts ==> q in later) && HasReceipt(receipts, id)
    ensures HasReceipt(later, id)
  {
    var k :| 0 <= k < |receipts| && receipts[k].id == id;
    assert receipts[k] in later;
  }

  lemma {:induction false} MissingMeans(events: seq<Event>, ids: seq<Text>)
    ensures Missing(events, ids) == [] <==> forall i :: 0 <= i < |ids| ==> EventDigest(events, ids[i]).Some?
  {
    if ids != [] {
      MissingMeans(events, ids[1..]);
      assert forall i :: 0 < i < |ids| ==> ids[i] == ids[1..][i - 1];
      assert forall i :: 0 <= i < |ids| - 1 ==> ids[1..][i] == ids[i + 1];
    }
  }

  /** When every source is stored, later events change nothing about them. */
  lemma CollectGrows(events: seq<Event>, later: seq<Event>, sources: seq<Text>)
    requires EventsGrow(events, later) && Collect(events, sources).missing == []
    ensures Collect(later, sources) == Collect(events, sources)
  {
    MissingMeans(events, sources);
    MissingMeans(later, sources);
    var a, b := Collect(events, sources), Collect(later, sources);
    forall s | s in sources ensures EventDigest(later, s) == EventDigest(events, s) {
      var i :| 0 <= i < |sources| && sources[i] == s;
    }
    assert a.digests == b.digests;
  }

  // ---- Growing.

  lemma GrowsRefl(db: Db)
    ensures Grows(db, db)
  {
  }

  /** The write is of a memory that was not there, or of the same. */
  predicate KeepsMemory(db: Db, w: Write) {
    w.PutRecord? && w.change.record.memoryId in db.records ==>
      SameMemory(db.records[w.change.record.memoryId].raw, w.change.record)
  }

  lemma WriteGrows(db: Db, w: Write)
    requires KeepsMemory(db, w) && !Fails(db, w)
    ensures Grows(db, Written(db, w))
  {
    hide HasEvent, HasReceipt;
    var g := Written(db, w);
    match w
    case PutEvent(e) =>
      forall id | EventDigest(db.events, id).Some? ensures EventDigest(g.events, id) == EventDigest(db.events, id) {
        DigestSnoc(db.events, e, id);
      }
    case _ =>
  }

  /** A write that is refused stays refused. */
  lemma FailsGrows(db: Db, g: Db, w: Write)
    requires Grows(db, g) && Fails(db, w)
    ensures Fails(g, w)
  {
    hide EventsGrow, HasEvent, HasReceipt, SameMemory;
    match w
    case PutEvent(e) => if HasEvent(db.events, e.id) { HasEventGrows(db.events, g.events, e.id); }
    case PutReceipt(q) => HasReceiptGrows(db.receipts, g.receipts, q.id);
    case _ =>
  }

  lemma EventGrowsBoth(events: seq<Event>, later: seq<Event>, e: Event)
    requires EventsGrow(events, later) && !HasEvent(later, e.id)
    ensures EventsGrow(events + [e], later + [e])
  {
    HasDigest(later, e.id);
    forall id | EventDigest(events + [e], id).Some?
      ensures EventDigest(later + [e], id) == EventDigest(events + [e], id)
    {
      DigestSnoc(events, e, id);
      DigestSnoc(later, e, id);
    }
  }

  lemma GrowsWritten(db: Db, g: Db, w: Write)
    requires Grows(db, g) && !Fails(g, w)
    ensures !Fails(db, w) && Grows(Written(db, w), Written(g, w))
  {
    hide EventsGrow, HasEvent, HasReceipt, Fails, Without, RevisionOf, IndexRowOf;
    if Fails(db, w) { FailsGrows(db, g, w); }
    match w
    case PutEvent(e) =>
      assert !HasEvent(g.events, e.id) by { EventFails(g, e); }
      EventGrowsBoth(db.events, g.events, e);
    case PutContract(c) => ContractFails(db, c);
    case _ =>
  }

  lemma EventFails(db: Db, e: Event)
    ensures HasEvent(db.events, e.id) ==> Fails(db, PutEvent(e))
  {
  }

  lemma ContractFails(db: Db, c: Contract)
    ensures c.id in db.contracts && db.contracts[c.id] != c ==> Fails(db, PutContract(c))
  {
  }

  /** A rule that growth does not break is met by a plan on grown tables too. */
  lemma {:induction false} MeetGrows(rule: Rule, db: Db, g: Db, ws: seq<Write>)
    requires AllMeet(rule, db, ws) && Grows(db, g)
    requires forall d: Db, e: Db, w: Write :: Grows(d, e) && rule(d, w) ==> rule(e, w)
    ensures AllMeet(rule, g, ws)
    decreases |ws|
  {
    hide Grows, Fails, Written;
    if ws != [] && !Fails(g, ws[0]) {
      GrowsWritten(db, g, ws[0]);
      MeetGrows(rule, Written(db, ws[0]), Written(g, ws[0]), ws[1..]);
    }
  }
}
