/**
 The append-only log of one host. A row holds the text an entry encodes to, so the log is modelled
 as the list of its entries; a transaction that raises leaves it as it was.
*/
module Store {
  import opened Basics
  import opened Wire
  import opened Models
  import opened Journal
  import opened JournalLaws

  /** Row texts taken together, row count and every single row are within the limits on reading. */
  ghost predicate Readable(rows: seq<Entry>) {
    && TotalLength(EntryTrees(rows)) <= BYTE_LIMIT
    && |rows| <= EVENT_LIMIT
    && forall i :: 0 <= i < |rows| ==> FitsEntry(rows[i]) && ValidEntry(rows[i])
  }

  /** `INSERT` of every batch entry whose id has no row yet. */
  function Inserted(rows: seq<Entry>, batch: seq<Entry>): seq<Entry>
    decreases |batch|
  {
    if batch == [] then rows
    else Inserted(if HasRow(rows, batch[0].id) then rows else rows + [batch[0]], batch[1..])
  }

  predicate HasRow(rows: seq<Entry>, id: Id) {
    exists i :: 0 <= i < |rows| && rows[i].id == id
  }

  datatype Appended = Appended(rows: seq<Entry>, revision: Digest)

  /** `append(con, batch, expected)` on the rows it finds. */
  ghost function Append(rows: seq<Entry>, batch: seq<Entry>, expected: Digest): Result<Appended> {
    if !Readable(rows) then Err(ByteLimit)
    else
      var current :- Replay(rows);
      if Revision(current) != expected then Err(StaleRevision)
      else
        var result :- Replay(rows + batch);
        Ok(Appended(Inserted(rows, batch), Revision(result)))
  }

  /** `event(kind, identity, data, time, old)`: an entry chained to what the entries before it replay to. */
  ghost function Event(body: Body, id: Id, time: int, before: seq<Entry>): Result<Entry> {
    var s :- Replay(before);
    var e := Entry(id, Revision(s), time, body);
    if ValidId(id) && ValidTick(time) then Ok(e) else Err(InvalidModel)
  }

  /** Rows that a run of appends can have left. */
  ghost predicate Stored(rows: seq<Entry>) {
    Replay(rows).Ok? && Replay(rows).value.unique == rows
  }

  lemma EmptyStored()
    ensures Stored([])
  {
    assert EntryTrees([]) == [];
    forall t | EncodesList(t, []) ensures Accepted(t) {
      assert Encode(t) == "[]";
      assert Bytes("[]") <= 8 by {
        assert "[]"[1..] == "]" && "]"[1..] == "";
      }
    }
  }

  lemma {:induction false} InsertedFirsts(rows: seq<Entry>, seen: set<Id>, batch: seq<Entry>)
    requires forall id :: id in seen <==> HasRow(rows, id)
    ensures Inserted(rows, batch) == rows + Firsts(seen, batch)
    decreases |batch|
  {
    if batch == [] {
      assert rows + [] == rows;
    } else {
      var e := batch[0];
      var next := if HasRow(rows, e.id) then rows else rows + [e];
      FirstsCons(rows, seen, batch);
      forall id ensures id in seen + {e.id} <==> HasRow(next, id) {
        if HasRow(rows, id) {
          var i :| 0 <= i < |rows| && rows[i].id == id;
          assert next[i].id == id;
        }
        assert HasRow(rows, e.id) || next[|rows|] == e;
      }
      InsertedFirsts(next, seen + {e.id}, batch[1..]);
    }
  }

  lemma StoredIds(rows: seq<Entry>)
    requires Stored(rows)
    ensures forall id :: id in Replay(rows).value.ids <==> HasRow(rows, id)
  {
  }

  lemma ReplayContinues(rows: seq<Entry>, batch: seq<Entry>)
    requires Replay(rows).Ok? && Replay(rows + batch).Ok?
    ensures Fold(Replay(rows).value, batch) == Replay(rows + batch)
  {
    FoldConcat(EMPTY, rows, batch);
  }

  /** The rows after a successful append are the unique entries of the state that append computed. */
  lemma AppendInserts(rows: seq<Entry>, batch: seq<Entry>, expected: Digest)
    requires Stored(rows) && Append(rows, batch, expected).Ok?
    ensures Append(rows, batch, expected).value.rows == Replay(rows + batch).value.unique
    ensures rows <= Append(rows, batch, expected).value.rows
  {
    hide Replay, Fold, Readable, Inserted, Firsts, HasRow;
    var s := Replay(rows).value;
    ReplayContinues(rows, batch);
    FoldKeepsFirsts(s, batch);
    StoredIds(rows);
    InsertedFirsts(rows, s.ids.Keys, batch);
    assert rows <= rows + Firsts(s.ids.Keys, batch);
  }

  lemma ReplayReadable(es: seq<Entry>)
    requires Replay(es).Ok?
    ensures Readable(Replay(es).value.unique)
  {
    var rows := Replay(es).value.unique;
    FitsListParts(rows, |rows|);
    ReplayFirsts(es);
    forall i | 0 <= i < |rows| ensures ValidEntry(rows[i]) {
      UniqueDelivered(EMPTY, es, i);
    }
  }

  lemma {:induction false} UniqueDelivered(s: State, es: seq<Entry>, i: nat)
    requires Sound(s) && Fold(s, es).Ok? && i < |Fold(s, es).value.unique|
    ensures i < |s.unique| || ValidEntry(Fold(s, es).value.unique[i])
    decreases |es|
  {
    if es != [] {
      StepSound(s, es[0]);
      var t := Step(s, es[0]).value;
      UniqueDelivered(t, es[1..], i);
      FoldExtends(t, es[1..]);
    }
  }

  /**
   A successful append leaves rows that can always be read back, that replay to exactly the state
   append computed, and that keep every row there was.
  */
  lemma AppendReadable(rows: seq<Entry>, batch: seq<Entry>, expected: Digest)
    requires Stored(rows) && Append(rows, batch, expected).Ok?
    ensures var a := Append(rows, batch, expected).value;
      && Stored(a.rows)
      && Readable(a.rows)
      && rows <= a.rows
      && Replay(a.rows) == Replay(rows + batch)
      && a.revision == Revision(Replay(a.rows).value) == OfEntries(a.rows)
  {
    hide Replay, Readable, Inserted;
    AppendInserts(rows, batch, expected);
    ReplayUnique(rows + batch);
    ReplayReadable(rows + batch);
  }

  /** A successful append was made against the revision of the rows it found. */
  lemma AppendExpected(rows: seq<Entry>, batch: seq<Entry>, expected: Digest)
    requires Stored(rows) && Append(rows, batch, expected).Ok?
    ensures expected == OfEntries(rows)
  {
  }

  /**
   Compare and swap: once an append against a revision has added an entry, no later append against
   that revision succeeds, whatever was appended in between.
  */
  lemma AtMostOneAppend(rows: seq<Entry>, batch: seq<Entry>, expected: Digest, later: seq<Entry>, other: seq<Entry>)
    requires Stored(rows) && Append(rows, batch, expected).Ok?
    requires Append(rows, batch, expected).value.rows != rows
    requires Append(rows, batch, expected).value.rows <= later && Stored(later)
    ensures Append(later, other, expected).Err?
  {
    AppendExpected(rows, batch, expected);
    AppendInserts(rows, batch, expected);
    assert |rows| < |later|;
    if Append(later, other, expected).Ok? { AppendExpected(later, other, expected); }
  }

  // ---- The methods that do it.

  /** Same outcome; the source's several messages for one failing digest are not told apart. */
  ghost predicate Agrees<T(!new)>(r: Result<T>, spec: Result<T>) {
    r.Ok? == spec.Ok? && (r.Ok? ==> r.value == spec.value)
  }

  /** `replay(entries)`: one pass that fills the dictionary and its two indexes. */
  method ReplayEntries(entries: seq<Entry>) returns (r: Result<State>)
    ensures Agrees(r, Replay(entries))
  {
    if |entries| > EVENT_LIMIT { return Err(EventLimit); }
    var unique: seq<Entry> := [];
    var ids: map<Id, Digest> := map[];
    var facts := NO_FACTS;
    for n := 0 to |entries|
      invariant Sound(State(unique, ids, facts))
      invariant Continue(Ok(State(unique, ids, facts)), entries[n..]) == Fold(EMPTY, entries)
    {
      var entry := entries[n];
      assert entries[n..][0] == entry && entries[n..][1..] == entries[n + 1..];
      ghost var s := State(unique, ids, facts);
      if !ValidEntry(entry) { return Err(InvalidModel); }
      var value := DigestEntry(entry);
      if value.Err? { return Err(value.error); }
      if entry.id in ids {
        if ids[entry.id] != value.value { return Err(ConflictingId); }
        continue;
      }
      var parent := DigestList(unique);
      if parent.Err? { return Err(parent.error); }
      if entry.previous != parent.value { return Err(StaleRevision); }
      var applied := Apply(facts, entry);
      if applied.Err? { return Err(applied.error); }
      StepSound(s, entry);
      unique, ids, facts := unique + [entry], ids[entry.id := value.value], applied.value;
    }
    var revision := DigestList(unique);
    if revision.Err? { return Err(revision.error); }
    return Ok(State(unique, ids, facts));
  }

  class EventTable {
    var rows: seq<Entry>

    constructor ()
      ensures rows == []
    {
      rows := [];
    }

    /** `entries(con)`: refuses an oversized table before it parses a row. */
    method Entries() returns (r: Result<seq<Entry>>)
      ensures r.Ok? <==> Readable(rows)
      ensures r.Ok? <==>
        && TotalLength(EntryTrees(rows)) <= 2_000_000 && |rows| <= 256
        && forall i :: 0 <= i < |rows| ==> FitsEntry(rows[i]) && ValidEntry(rows[i])
      ensures r.Ok? ==> r.value == rows
    {
      hide FitsEntry, ValidEntry, TotalLength;
      if TotalLength(EntryTrees(rows)) > BYTE_LIMIT { return Err(ByteLimit); }
      if |rows| > EVENT_LIMIT { return Err(EventLimit); }
      for n := 0 to |rows|
        invariant forall i :: 0 <= i < n ==> FitsEntry(rows[i]) && ValidEntry(rows[i])
      {
        var loaded := DigestEntry(rows[n]);
        if loaded.Err? { return Err(loaded.error); }
        if !ValidEntry(rows[n]) { return Err(InvalidModel); }
      }
      return Ok(rows);
    }

    /** `append(con, batch, expected)` in one transaction. */
    method AppendBatch(batch: seq<Entry>, expected: Digest) returns (r: Result<Digest>)
      modifies this
      ensures r.Ok? <==> Append(old(rows), batch, expected).Ok?
      ensures r.Ok? ==> rows == Append(old(rows), batch, expected).value.rows
      ensures r.Ok? ==> r.value == Append(old(rows), batch, expected).value.revision
      ensures r.Err? ==> rows == old(rows)
    {
      var before := Entries();
      if before.Err? { return Err(before.error); }
      var current := ReplayEntries(before.value);
      if current.Err? { return Err(current.error); }
      if Revision(current.value) != expected { return Err(StaleRevision); }
      var result := ReplayEntries(before.value + batch);
      if result.Err? { return Err(result.error); }
      for n := 0 to |batch|
        invariant Inserted(rows, batch[n..]) == Inserted(old(rows), batch)
      {
        assert batch[n..][0] == batch[n] && batch[n..][1..] == batch[n + 1..];
        if !HasRow(rows, batch[n].id) { rows := rows + [batch[n]]; }
      }
      assert batch[|batch|..] == [];
      return Ok(Revision(result.value));
    }
  }
}
