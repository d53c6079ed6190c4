/** The flow_records table and the two ways batches are written to it.

    The reference is one first-wins fold: insert a row unless its (received_at, dedup_key) pair is
    already there, NULL keys being distinct. COPY with fallback (PostgreSQL) and chunked
    INSERT IGNORE in one transaction (MariaDB) are proved to have the effect of that fold. */
module Storage {
  import opened Basics

  /** `key` is the 16-byte digest read as a number; `body` stands for the other columns. */
  datatype Row = Row(receivedAt: int, key: Option<nat>, body: nat)

  /** What the nullable unique index indexes. */
  datatype Slot = Slot(receivedAt: int, key: nat)

  predicate Keyed(r: Row) { r.key.Some? }

  function SlotOf(r: Row): Slot
    requires Keyed(r)
  {
    Slot(r.receivedAt, r.key.value)
  }

  // ---------------------------------------------------------------- the reference fold

  predicate Occupied(rows: seq<Row>, s: Slot) {
    exists i :: 0 <= i < |rows| && Keyed(rows[i]) && SlotOf(rows[i]) == s
  }

  predicate Rejects(rows: seq<Row>, r: Row) {
    Keyed(r) && Occupied(rows, SlotOf(r))
  }

  function Insert(rows: seq<Row>, r: Row): seq<Row> {
    if Rejects(rows, r) then rows else rows + [r]
  }

  function InsertAll(rows: seq<Row>, batch: seq<Row>): seq<Row> {
    if batch == [] then rows
    else Insert(InsertAll(rows, batch[..|batch| - 1]), batch[|batch| - 1])
  }

  function Flatten(batches: seq<seq<Row>>): seq<Row> {
    if batches == [] then [] else Flatten(batches[..|batches| - 1]) + batches[|batches| - 1]
  }

  /** Writing batch after batch. */
  function WriteAll(rows: seq<Row>, batches: seq<seq<Row>>): seq<Row> {
    if batches == [] then rows
    else InsertAll(WriteAll(rows, batches[..|batches| - 1]), batches[|batches| - 1])
  }

  lemma {:induction false} InsertAllAppend(rows: seq<Row>, a: seq<Row>, b: seq<Row>)
    ensures InsertAll(rows, a + b) == InsertAll(InsertAll(rows, a), b)
  {
    if b == [] {
      assert a + b == a;
    } else {
      var front := b[..|b| - 1];
      assert (a + b)[..|a + b| - 1] == a + front;
      InsertAllAppend(rows, a, front);
    }
  }

  /** Batch boundaries do not matter. */
  lemma {:induction false} GroupingIrrelevant(rows: seq<Row>, batches: seq<seq<Row>>)
    ensures WriteAll(rows, batches) == InsertAll(rows, Flatten(batches))
  {
    if batches != [] {
      var front := batches[..|batches| - 1];
      GroupingIrrelevant(rows, front);
      InsertAllAppend(rows, Flatten(front), batches[|batches| - 1]);
    }
  }

  // ---------------------------------------------------------------- exactly once

  function SlotCount(rows: seq<Row>, s: Slot): nat {
    if rows == [] then 0
    else
      var r := rows[|rows| - 1];
      SlotCount(rows[..|rows| - 1], s) + if Keyed(r) && SlotOf(r) == s then 1 else 0
  }

  lemma {:induction false} OccupiedCount(rows: seq<Row>, s: Slot)
    ensures Occupied(rows, s) <==> SlotCount(rows, s) > 0
  {
    if rows != [] {
      var front, r := rows[..|rows| - 1], rows[|rows| - 1];
      OccupiedCount(front, s);
      if Occupied(front, s) {
        var i :| 0 <= i < |front| && Keyed(front[i]) && SlotOf(front[i]) == s;
        assert rows[i] == front[i];
      }
      if Occupied(rows, s) && !(Keyed(r) && SlotOf(r) == s) {
        var i :| 0 <= i < |rows| && Keyed(rows[i]) && SlotOf(rows[i]) == s;
        assert front[i] == rows[i];
      }
    }
  }

  lemma InsertCount(rows: seq<Row>, r: Row, s: Slot)
    ensures SlotCount(Insert(rows, r), s) ==
            if Keyed(r) && SlotOf(r) == s && SlotCount(rows, s) == 0 then 1 else SlotCount(rows, s)
  {
    OccupiedCount(rows, s);
    if Keyed(r) { OccupiedCount(rows, SlotOf(r)); }
    if !Rejects(rows, r) { assert (rows + [r])[..|rows|] == rows; }
  }

  /** Every delivered slot ends up stored exactly once (whatever was stored before is kept),
      and no other slot appears. */
  lemma {:induction false} DeliveredSlotsStoredOnce(rows: seq<Row>, w: seq<Row>, s: Slot)
    ensures SlotCount(InsertAll(rows, w), s) ==
            if SlotCount(rows, s) == 0 && Occupied(w, s) then 1 else SlotCount(rows, s)
  {
    OccupiedCount(w, s);
    if w != [] {
      var front, r := w[..|w| - 1], w[|w| - 1];
      DeliveredSlotsStoredOnce(rows, front, s);
      OccupiedCount(front, s);
      InsertCount(InsertAll(rows, front), r, s);
    }
  }

  /** A duplicate is a row with the same received_at and the same dedup key, both of them. */
  lemma SlotIsTimeAndKey(r: Row, s: Row)
    requires Keyed(r) && Keyed(s)
    ensures SlotOf(r) == SlotOf(s) <==> r.receivedAt == s.receivedAt && r.key == s.key
  {
  }

  /** No two rows of the table share received_at and a key that is not NULL. */
  ghost predicate NoDuplicates(rows: seq<Row>) {
    forall i, j :: 0 <= i < j < |rows| && rows[i].key.Some? ==>
      !(rows[i].receivedAt == rows[j].receivedAt && rows[i].key == rows[j].key)
  }

  /** The unique index is never violated ... */
  lemma {:induction false} NoTwoAlike(rows: seq<Row>, w: seq<Row>)
    requires NoDuplicates(rows)
    ensures NoDuplicates(InsertAll(rows, w))
  {
    if w != [] {
      var before, r := InsertAll(rows, w[..|w| - 1]), w[|w| - 1];
      NoTwoAlike(rows, w[..|w| - 1]);
      if !Rejects(before, r) {
        forall i | 0 <= i < |before| && before[i].key.Some?
          ensures !(before[i].receivedAt == r.receivedAt && before[i].key == r.key)
        {
          if Keyed(r) { SlotIsTimeAndKey(before[i], r); }
        }
      }
    }
  }

  /** ... and every keyed row written is in the table, itself or as an earlier row with its time and
      key. */
  lemma KeyedIsStored(rows: seq<Row>, w: seq<Row>, r: Row) returns (n: nat)
    requires r.key.Some? && r in w
    ensures n < |InsertAll(rows, w)|
    ensures InsertAll(rows, w)[n].receivedAt == r.receivedAt && InsertAll(rows, w)[n].key == r.key
  {
    var table := InsertAll(rows, w);
    assert Occupied(w, SlotOf(r));
    DeliveredSlotsStoredOnce(rows, w, SlotOf(r));
    OccupiedCount(table, SlotOf(r));
    n :| 0 <= n < |table| && Keyed(table[n]) && SlotOf(table[n]) == SlotOf(r);
    SlotIsTimeAndKey(table[n], r);
  }

  /** A row that nothing else shares time and key with is stored, exactly once. */
  lemma DistinctRowIsStored(rows: seq<Row>, w: seq<Row>, r: Row)
    requires r.key.Some? && r in w
    requires forall x :: x in rows ==> !(x.receivedAt == r.receivedAt && x.key == r.key)
    requires forall x :: x in w && x.receivedAt == r.receivedAt && x.key == r.key ==> x == r
    ensures multiset(InsertAll(rows, w))[r] == 1
  {
    forall x | x in w && Keyed(x) && SlotOf(x) == SlotOf(r) ensures x == r { SlotIsTimeAndKey(x, r); }
    OnlyRowOfItsSlot(rows, w, r);
    if Occupied(rows, SlotOf(r)) {
      var x := RowFor(rows, SlotOf(r));
      SlotIsTimeAndKey(x, r);
      assert false;
    }
    assert r !in rows;
  }

  /** Rows without a key are stored once per write, the identical ones included. */
  lemma {:induction false} UnkeyedStoredPerWrite(rows: seq<Row>, w: seq<Row>, r: Row)
    requires !Keyed(r)
    ensures multiset(InsertAll(rows, w))[r] == multiset(rows)[r] + multiset(w)[r]
  {
    if w != [] {
      var front, x := w[..|w| - 1], w[|w| - 1];
      assert w == front + [x];
      UnkeyedStoredPerWrite(rows, front, r);
    }
  }

  /** First wins: what is stored stays, in place; later duplicates never replace it. */
  lemma {:induction false} FirstWins(rows: seq<Row>, w: seq<Row>)
    ensures rows <= InsertAll(rows, w)
  {
    if w != [] { FirstWins(rows, w[..|w| - 1]); }
  }

  function Unkeyed(w: seq<Row>): seq<Row> {
    if w == [] then []
    else Unkeyed(w[..|w| - 1]) + if Keyed(w[|w| - 1]) then [] else [w[|w| - 1]]
  }

  lemma {:induction false} UnkeyedIffNotKeyed(w: seq<Row>)
    ensures Unkeyed(w) == [] <==> forall i :: 0 <= i < |w| ==> Keyed(w[i])
  {
    if w != [] { UnkeyedIffNotKeyed(w[..|w| - 1]); }
  }

  /** A batch whose keyed rows are all taken adds its unkeyed rows and nothing else. */
  lemma {:induction false} TakenBatch(rows: seq<Row>, w: seq<Row>)
    requires forall i :: 0 <= i < |w| && Keyed(w[i]) ==> Occupied(rows, SlotOf(w[i]))
    ensures InsertAll(rows, w) == rows + Unkeyed(w)
  {
    if w != [] {
      var front, r := w[..|w| - 1], w[|w| - 1];
      TakenBatch(rows, front);
      if Keyed(r) {
        var i :| 0 <= i < |rows| && Keyed(rows[i]) && SlotOf(rows[i]) == SlotOf(r);
        assert (rows + Unkeyed(front))[i] == rows[i];
      }
    }
  }

  /** Once a batch was written, and whatever was written since, its keyed rows are taken. */
  lemma DeliveredIsTaken(rows: seq<Row>, w: seq<Row>, since: seq<seq<Row>>, s: Slot)
    requires Occupied(w, s)
    ensures Occupied(WriteAll(InsertAll(rows, w), since), s)
  {
    var later := InsertAll(rows, w);
    DeliveredSlotsStoredOnce(rows, w, s);
    GroupingIrrelevant(later, since);
    DeliveredSlotsStoredOnce(later, Flatten(since), s);
    OccupiedCount(WriteAll(later, since), s);
  }

  /** Redelivery, any number of other batches later, stores the batch's unkeyed rows once more and
      nothing else. So it changes nothing exactly if every row of the batch has a key. */
  lemma RedeliveryIsIdempotent(rows: seq<Row>, w: seq<Row>, since: seq<seq<Row>>)
    ensures var now := WriteAll(InsertAll(rows, w), since);
            && InsertAll(now, w) == now + Unkeyed(w)
            && (InsertAll(now, w) == now <==> forall i :: 0 <= i < |w| ==> Keyed(w[i]))
  {
    var now := WriteAll(InsertAll(rows, w), since);
    forall i | 0 <= i < |w| && Keyed(w[i]) ensures Occupied(now, SlotOf(w[i])) {
      assert Occupied(w, SlotOf(w[i]));
      DeliveredIsTaken(rows, w, since, SlotOf(w[i]));
    }
    TakenBatch(now, w);
    UnkeyedIffNotKeyed(w);
    assert |now + Unkeyed(w)| == |now| + |Unkeyed(w)|;
  }

  lemma OccupiedAfter(rows: seq<Row>, w: seq<Row>, s: Slot)
    ensures Occupied(InsertAll(rows, w), s) <==> Occupied(rows, s) || Occupied(w, s)
  {
    DeliveredSlotsStoredOnce(rows, w, s);
    OccupiedCount(rows, s);
    OccupiedCount(InsertAll(rows, w), s);
  }

  /** A keyed row that is the only one delivered for its slot is stored if the slot was free. */
  lemma {:induction false} OnlyRowOfItsSlot(rows: seq<Row>, w: seq<Row>, r: Row)
    requires Keyed(r) && forall x :: x in w && Keyed(x) && SlotOf(x) == SlotOf(r) ==> x == r
    ensures multiset(InsertAll(rows, w))[r] == multiset(rows)[r] + if !Occupied(rows, SlotOf(r)) && r in w then 1 else 0
  {
    if w != [] {
      var front, x := w[..|w| - 1], w[|w| - 1];
      assert w == front + [x];
      OnlyRowOfItsSlot(rows, front, r);
      OccupiedAfter(rows, front, SlotOf(r));
      assert Occupied(front, SlotOf(r)) <==> r in front;
    }
  }

  /** A row that is not delivered is stored as often as before. */
  lemma {:induction false} NotDelivered(rows: seq<Row>, w: seq<Row>, r: Row)
    requires r !in w
    ensures multiset(InsertAll(rows, w))[r] == multiset(rows)[r]
  {
    if w != [] {
      assert w == w[..|w| - 1] + [w[|w| - 1]];
      NotDelivered(rows, w[..|w| - 1], r);
    }
  }

  /** What two histories deliver for one slot is one and the same row. */
  ghost predicate SlotsDetermineRows(w1: seq<Row>, w2: seq<Row>) {
    forall x, y :: x in w1 && y in w2 && Keyed(x) && Keyed(y) && SlotOf(x) == SlotOf(y) ==> x == y
  }

  /** Both histories deliver the same slots, and the same unkeyed rows equally often. */
  ghost predicate SameDeliveries(w1: seq<Row>, w2: seq<Row>) {
    && (forall s :: Occupied(w1, s) <==> Occupied(w2, s))
    && (forall r :: !Keyed(r) ==> multiset(w1)[r] == multiset(w2)[r])
  }

  lemma RowFor(w: seq<Row>, s: Slot) returns (r: Row)
    requires Occupied(w, s)
    ensures r in w && Keyed(r) && SlotOf(r) == s
  {
    var i :| 0 <= i < |w| && Keyed(w[i]) && SlotOf(w[i]) == s;
    r := w[i];
  }

  lemma SameRowStored(rows: seq<Row>, w1: seq<Row>, w2: seq<Row>, r: Row)
    requires SameDeliveries(w1, w2) && SlotsDetermineRows(w1, w2) && Keyed(r) && r in w1
    ensures r in w2 && multiset(InsertAll(rows, w1))[r] == multiset(InsertAll(rows, w2))[r]
  {
    assert Occupied(w1, SlotOf(r));
    var y := RowFor(w2, SlotOf(r));
    assert y == r;
    OnlyRowOfItsSlot(rows, w1, r);
    OnlyRowOfItsSlot(rows, w2, r);
  }

  /** Order, repetition and grouping are invisible in what is stored: two delivery histories that
      deliver the same slots and the same unkeyed rows leave the same number of rows per slot and
      the same unkeyed rows; and the very same rows if a slot determines its row, as it does when
      what is delivered again is the same message. Keyed rows may be delivered any number of times
      in either. */
  lemma DeliveryOrderIrrelevant(rows: seq<Row>, h1: seq<seq<Row>>, h2: seq<seq<Row>>)
    requires SameDeliveries(Flatten(h1), Flatten(h2))
    ensures forall s :: SlotCount(WriteAll(rows, h1), s) == SlotCount(WriteAll(rows, h2), s)
    ensures forall r :: !Keyed(r) ==> multiset(WriteAll(rows, h1))[r] == multiset(WriteAll(rows, h2))[r]
    ensures SlotsDetermineRows(Flatten(h1), Flatten(h2)) ==>
              multiset(WriteAll(rows, h1)) == multiset(WriteAll(rows, h2))
  {
    var w1, w2 := Flatten(h1), Flatten(h2);
    GroupingIrrelevant(rows, h1);
    GroupingIrrelevant(rows, h2);
    forall s ensures SlotCount(WriteAll(rows, h1), s) == SlotCount(WriteAll(rows, h2), s) {
      DeliveredSlotsStoredOnce(rows, w1, s);
      DeliveredSlotsStoredOnce(rows, w2, s);
    }
    forall r | !Keyed(r) ensures multiset(WriteAll(rows, h1))[r] == multiset(WriteAll(rows, h2))[r] {
      UnkeyedStoredPerWrite(rows, w1, r);
      UnkeyedStoredPerWrite(rows, w2, r);
    }
    if SlotsDetermineRows(w1, w2) {
      forall r | Keyed(r) ensures multiset(WriteAll(rows, h1))[r] == multiset(WriteAll(rows, h2))[r] {
        if r in w1 {
          SameRowStored(rows, w1, w2, r);
        } else if r in w2 {
          SameRowStored(rows, w2, w1, r);
        } else {
          NotDelivered(rows, w1, r);
          NotDelivered(rows, w2, r);
        }
      }
    }
  }

  // ---------------------------------------------------------------- the table and its writers

  datatype Stored = Stored(id: nat, row: Row)

  datatype CopyResult = Copied | UniqueViolation | OtherError

  function RowsOf(t: seq<Stored>): (r: seq<Row>)
    ensures |r| == |t|
  {
    Each(t, (s: Stored) => s.row)
  }

  lemma RowsOfAppend(t: seq<Stored>, s: Stored)
    ensures RowsOf(t + [s]) == RowsOf(t) + [s.row]
  {
  }

  predicate Conflicts(rows: seq<Row>, batch: seq<Row>) {
    exists i :: 0 <= i < |batch| && Rejects(rows + batch[..i], batch[i])
  }

  /** Without a conflict the fold stores the whole batch, in order. */
  lemma {:induction false} NoConflictStoresAll(rows: seq<Row>, batch: seq<Row>)
    requires !Conflicts(rows, batch)
    ensures InsertAll(rows, batch) == rows + batch
  {
    if batch != [] {
      var n := |batch| - 1;
      var front := batch[..n];
      forall i | 0 <= i < n ensures !Rejects(rows + front[..i], front[i]) {
        assert front[..i] == batch[..i];
        assert !Rejects(rows + batch[..i], batch[i]);
      }
      NoConflictStoresAll(rows, front);
      assert !Rejects(rows + batch[..n], batch[n]);
      assert rows + front + [batch[n]] == rows + batch;
    }
  }

  /** flow_records: rows in insertion order, each with the value its identity column was given. */
  class FlowTable {
    var rows: seq<Stored>
    var nextId: nat

    /** (received_at, seq) identifies a row because ids are never reused, not even after a
        discarded COPY or a rolled back transaction. */
    ghost predicate Valid()
      reads this
    {
      && (forall i :: 0 <= i < |rows| ==> rows[i].id < nextId)
      && (forall i, j :: 0 <= i < j < |rows| ==> rows[i].id < rows[j].id)
    }

    ghost function Contents(): seq<Row>
      reads this
    {
      RowsOf(rows)
    }

    constructor ()
      ensures Valid() && Contents() == []
    {
      rows, nextId := [], 0;
    }

    /** COPY: all rows or none. `brokenAt` is the row at which the connection fails, if any; after
        the last row `ending` says how the command ends. */
    method CopyFrom(batch: seq<Row>, brokenAt: nat, ending: Ending) returns (r: CopyResult)
      requires Valid()
      modifies this
      ensures Valid() && nextId >= old(nextId)
      ensures r == Copied ==> brokenAt >= |batch| && ending == Well && !Conflicts(old(Contents()), batch)
      ensures r == Copied ==> Contents() == old(Contents()) + batch
      ensures r == UniqueViolation ==> Conflicts(old(Contents()), batch) && rows == old(rows)
      ensures Conflicts(old(Contents()), batch) && brokenAt >= |batch| ==> r == UniqueViolation
      ensures r == OtherError ==> brokenAt < |batch| || ending != Well
      ensures r == OtherError && rows != old(rows) ==>
                ending == Unconfirmed && !Conflicts(old(Contents()), batch) && Contents() == old(Contents()) + batch
    {
      var staged := rows;
      for i := 0 to |batch|
        invariant rows == old(rows) && nextId >= old(nextId)
        invariant RowsOf(staged) == old(Contents()) + batch[..i]
        invariant forall j :: 0 <= j < |staged| ==> staged[j].id < nextId
        invariant forall j, k :: 0 <= j < k < |staged| ==> staged[j].id < staged[k].id
        invariant forall j :: 0 <= j < i ==> !Rejects(old(Contents()) + batch[..j], batch[j])
        invariant i <= brokenAt
      {
        if i == brokenAt { return OtherError; }
        if Rejects(RowsOf(staged), batch[i]) {
          nextId := nextId + 1;
          return UniqueViolation;
        }
        RowsOfAppend(staged, Stored(nextId, batch[i]));
        assert batch[..i + 1] == batch[..i] + [batch[i]];
        staged := staged + [Stored(nextId, batch[i])];
        nextId := nextId + 1;
      }
      assert batch[..|batch|] == batch;
      if ending == Undone { return OtherError; }
      rows := staged;
      r := if ending == Well then Copied else OtherError;
    }

    /** One INSERT ... ON CONFLICT DO NOTHING, or one INSERT IGNORE, of many rows. A skipped row
        burns an id. The statement is atomic. */
    method InsertIgnore(batch: seq<Row>, ending: Ending) returns (ok: bool)
      requires Valid()
      modifies this
      ensures Valid() && nextId >= old(nextId)
      ensures ok == (ending == Well)
      ensures ending != Undone ==> Contents() == InsertAll(old(Contents()), batch)
      ensures ending == Undone ==> rows == old(rows)
    {
      if ending == Undone { return false; }
      for i := 0 to |batch|
        invariant Valid() && nextId >= old(nextId)
        invariant Contents() == InsertAll(old(Contents()), batch[..i])
      {
        assert batch[..i + 1][..i] == batch[..i];
        if !Rejects(RowsOf(rows), batch[i]) {
          RowsOfAppend(rows, Stored(nextId, batch[i]));
          rows := rows + [Stored(nextId, batch[i])];
        }
        nextId := nextId + 1;
      }
      assert batch[..|batch|] == batch;
      ok := ending == Well;
    }

    /** PostgreSQL: COPY, and the conflict-tolerant insert only if the index rejected a row. */
    method WriteBatchCopy(batch: seq<Row>, brokenAt: nat, copyEnding: Ending, insertEnding: Ending) returns (ok: bool)
      requires Valid()
      modifies this
      ensures Valid()
      ensures rows == old(rows) || Contents() == InsertAll(old(Contents()), batch)
      ensures ok ==> Contents() == InsertAll(old(Contents()), batch)
      ensures !ok && rows != old(rows) ==> copyEnding == Unconfirmed || insertEnding == Unconfirmed
      ensures brokenAt >= |batch| && copyEnding == insertEnding == Well ==> ok
      ensures ok && batch != [] ==>
                if Conflicts(old(Contents()), batch) then insertEnding == Well
                else brokenAt >= |batch| && copyEnding == Well
    {
      if |batch| == 0 { return true; }
      var r := CopyFrom(batch, brokenAt, copyEnding);
      if !Conflicts(old(Contents()), batch) { NoConflictStoresAll(old(Contents()), batch); }
      match r
      case Copied =>
        ok := true;
      case OtherError =>
        ok := false;
      case UniqueViolation =>
        ok := InsertIgnore(batch, insertEnding);
    }

    /** The statements of one transaction: at most `insertRows` rows each, up to the one that fails. */
    method InsertChunks(batch: seq<Row>, brokenAt: nat) returns (ok: bool)
      requires Valid()
      modifies this
      ensures Valid() && nextId >= old(nextId)
      ensures ok ==> Contents() == InsertAll(old(Contents()), batch)
      ensures ok <==> brokenAt * 1000 >= |batch|
    {
      var start := 0;
      ghost var n, base := 0, Contents();
      assert InsertAll(base, batch[..0]) == base;
      while start < |batch|
        invariant start == n * INSERT_ROWS && n <= brokenAt
        invariant Valid() && nextId >= old(nextId)
        invariant Contents() == InsertAll(base, batch[..Min(start, |batch|)])
      {
        var end := Min(start + INSERT_ROWS, |batch|);
        ghost var done := batch[..start];
        var stored := InsertIgnore(batch[start..end], if start == brokenAt * INSERT_ROWS then Undone else Well);
        if !stored {
          return false;
        }
        InsertAllAppend(base, done, batch[start..end]);
        assert done + batch[start..end] == batch[..end];
        start, n := start + INSERT_ROWS, n + 1;
      }
      assert batch[..|batch|] == batch;
      ok := true;
    }

    /** MariaDB: one transaction of INSERT IGNORE statements. `brokenAt` is the statement that fails,
        if any; `commit` is how COMMIT ends. */
    method WriteBatchChunked(batch: seq<Row>, brokenAt: nat, commit: Ending) returns (ok: bool)
      requires Valid()
      modifies this
      ensures Valid()
      ensures rows == old(rows) || Contents() == InsertAll(old(Contents()), batch)
      ensures ok ==> Contents() == InsertAll(old(Contents()), batch)
      ensures !ok && rows != old(rows) ==> commit == Unconfirmed
      ensures ok <==> |batch| == 0 || (brokenAt * 1000 >= |batch| && commit == Well)
    {
      if |batch| == 0 { return true; }
      var before := rows;
      var inserted := InsertChunks(batch, brokenAt);
      if !inserted || commit == Undone {
        rows := before;   // ROLLBACK
        return false;
      }
      ok := commit == Well;
    }
  }

  const INSERT_ROWS := 1000

  function Min(a: nat, b: nat): nat { if a < b then a else b }
}
