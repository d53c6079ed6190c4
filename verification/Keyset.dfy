/** Keyset pagination over (received_at DESC, seq DESC). A walk follows cursors from page to page
    while the table changes underneath. Times are nanoseconds since 1970. */
module Keyset {
  import opened Basics

  datatype Key = Key(at: int, id: int)

  datatype Flow = Flow(exporter: int, src: nat, dst: nat, protocol: nat)

  type Table = map<Key, Flow>

  datatype Query = Query(start: int, end: int, exporter: int, src: Option<nat>, dst: Option<nat>,
                         protocol: Option<nat>, limit: int)

  /** The opaque page token: a 64-bit count of nanoseconds, and seq. */
  datatype Cursor = Cursor(t: int, id: int)

  datatype Page = Page(keys: seq<Key>, next: Option<Cursor>)

  const DEFAULT_LIMIT := 100
  const MAX_LIMIT := 1000

  function Limit(q: Query): (n: nat)
    ensures 1 <= n <= MAX_LIMIT
  {
    if q.limit <= 0 then DEFAULT_LIMIT else if q.limit > MAX_LIMIT then MAX_LIMIT else q.limit
  }

  predicate Before(a: Key, b: Key) { a.at < b.at || (a.at == b.at && a.id < b.id) }

  /** The WHERE clause. Bounds reach the database in whole microseconds, as the cursor does. */
  predicate Matches(q: Query, k: Key, f: Flow) {
    && InWindow(q, k.at)
    && (q.exporter == 0 || f.exporter == q.exporter)
    && (q.src.None? || f.src == q.src.value)
    && (q.dst.None? || f.dst == q.dst.value)
    && (q.protocol.None? || f.protocol == q.protocol.value)
  }

  predicate InWindow(q: Query, at: int) { Micro(q.start) <= at < Micro(q.end) }

  predicate Hit(t: Table, q: Query, k: Key) { k in t && Matches(q, k, t[k]) }

  // ---------------------------------------------------------------- the cursor

  /** int64 arithmetic wraps around. */
  function Wrap(n: int): (w: int)
    ensures -TWO63 <= w < TWO63
  {
    (n + TWO63) % TWO64 - TWO63
  }

  predicate Representable(at: int) { -TWO63 <= at < TWO63 }

  /** last.ReceivedAt.UnixNano() */
  function Encode(k: Key): Cursor { Cursor(Wrap(k.at), k.id) }

  /** The instant the database compares with: time.Unix(0, t), sent in whole microseconds. */
  function Instant(c: Cursor): int { Micro(c.t) }

  predicate Below(k: Key, c: Option<Cursor>) {
    c.None? || Before(k, Key(Instant(c.value), c.value.id))
  }

  /** A cursor names the row it was made from exactly when the row's time fits in 64 bits of
      nanoseconds, that is between the years 1677 and 2262. */
  lemma CursorIsExact(k: Key)
    requires k.at % 1000 == 0
    ensures Instant(Encode(k)) == k.at <==> Representable(k.at)
  {
    var w := Wrap(k.at);
    if Representable(k.at) {
      assert w == k.at;
    } else {
      WrapIsFar(k.at);
    }
  }

  lemma WrapIsFar(n: int)
    requires !Representable(n)
    ensures n >= TWO63 ==> Wrap(n) <= n - TWO64
    ensures n < -TWO63 ==> Wrap(n) >= n + TWO64
  {
    var m := n + TWO63;
    assert m == m / TWO64 * TWO64 + m % TWO64;
    if n >= TWO63 { assert m / TWO64 >= 1; } else { assert m / TWO64 <= -1; }
  }

  // ---------------------------------------------------------------- one page

  ghost predicate Descending(keys: seq<Key>) {
    forall i, j :: 0 <= i < j < |keys| ==> Before(keys[j], keys[i])
  }

  /** What `ORDER BY received_at DESC, seq DESC LIMIT n` returns for the page's WHERE clause. */
  ghost predicate Answers(t: Table, q: Query, c: Option<Cursor>, n: nat, rows: seq<Key>) {
    && |rows| <= n
    && Descending(rows)
    && (forall k :: k in rows ==> Hit(t, q, k) && Below(k, c))
    && (forall k :: Hit(t, q, k) && Below(k, c) ==>
         k in rows || (|rows| == n && n > 0 && Before(k, rows[n - 1])))
  }

  /** One row more than the page is asked for, to learn whether there are more. */
  function PageOf(limit: nat, rows: seq<Key>): Page
    requires limit > 0
  {
    if |rows| > limit then Page(rows[..limit], Some(Encode(rows[limit - 1]))) else Page(rows, None)
  }

  /** The scan loop of Query. */
  method ScanPage(limit: nat, rows: seq<Key>) returns (page: Page)
    requires limit > 0
    ensures page == PageOf(limit, rows)
  {
    var keys: seq<Key>, more, i := [], false, 0;
    while i < |rows|
      invariant 0 <= i <= |rows| && i <= limit && keys == rows[..i] && !more
    {
      if |keys| == limit {
        more := true;
        break;
      }
      keys := keys + [rows[i]];
      i := i + 1;
    }
    if more {
      return Page(keys, Some(Encode(keys[|keys| - 1])));
    }
    return Page(keys, None);
  }

  /** A page followed by another ends exactly at its cursor and skips nothing above it; a last page
      skips nothing at all. */
  lemma PageSkipsNothing(t: Table, q: Query, c: Option<Cursor>, limit: nat, rows: seq<Key>, k: Key)
    requires limit > 0 && Answers(t, q, c, limit + 1, rows) && Hit(t, q, k) && Below(k, c)
    ensures var page := PageOf(limit, rows);
            k in page.keys || (page.next.Some? && |page.keys| == limit && Before(k, page.keys[limit - 1]))
  {
    if |rows| > limit {
      assert Before(rows[limit], rows[limit - 1]);
      if k in rows {
        var i :| 0 <= i < |rows| && rows[i] == k;
        assert i < limit ==> rows[..limit][i] == k;
      }
    }
  }

  // ---------------------------------------------------------------- a walk

  /** Page `i` is answered from `tables[i]`; any inserts and deletes may happen in between. */
  ghost predicate Walk(q: Query, tables: seq<Table>, results: seq<seq<Key>>) {
    && |tables| == |results| > 0
    && forall i :: 0 <= i < |results| ==> WalkAt(q, tables, results, i)
  }

  ghost predicate WalkAt(q: Query, tables: seq<Table>, results: seq<seq<Key>>, i: nat)
    requires i < |tables| == |results|
  {
    && Answers(tables[i], q, CursorFor(q, results, i), Limit(q) + 1, results[i])
    && (i > 0 ==> PageOf(Limit(q), results[i - 1]).next.Some?)
  }

  ghost function CursorFor(q: Query, results: seq<seq<Key>>, i: nat): Option<Cursor>
    requires i < |results|
  {
    if i == 0 then None else PageOf(Limit(q), results[i - 1]).next
  }

  ghost function Collected(q: Query, results: seq<seq<Key>>): seq<Key> {
    if results == [] then []
    else Collected(q, results[..|results| - 1]) + PageOf(Limit(q), results[|results| - 1]).keys
  }

  /** The window is empty, or its first and its last microsecond fit in the cursor. */
  predicate WindowFits(q: Query) {
    Micro(q.start) < Micro(q.end) ==> Representable(Micro(q.start)) && Representable(Micro(q.end) - 1000)
  }

  lemma WindowMicros(q: Query, at: int)
    requires at % 1000 == 0
    ensures Micro(q.start) % 1000 == 0 && (Micro(q.end) - 1000) % 1000 == 0
    ensures InWindow(q, at) <==> Micro(q.start) <= at <= Micro(q.end) - 1000
  {
    assert Micro(q.start) == q.start / 1000 * 1000 && Micro(q.end) == q.end / 1000 * 1000;
    assert at == at / 1000 * 1000;
  }

  ghost predicate WholeMicros(t: Table) { forall k :: k in t ==> k.at % 1000 == 0 }

  lemma WalkPrefix(q: Query, tables: seq<Table>, results: seq<seq<Key>>)
    requires Walk(q, tables, results) && |results| > 1
    ensures Walk(q, tables[..|tables| - 1], results[..|results| - 1])
  {
    var n := |results| - 1;
    forall i | 0 <= i < n ensures WalkAt(q, tables[..n], results[..n], i) {
      assert WalkAt(q, tables, results, i);
    }
  }

  /** The next page's cursor is the last key collected so far. */
  lemma CursorIsLastKey(q: Query, tables: seq<Table>, results: seq<seq<Key>>)
    requires WindowFits(q) && Walk(q, tables, results)
    requires forall i :: 0 <= i < |tables| ==> WholeMicros(tables[i])
    requires PageOf(Limit(q), results[|results| - 1]).next.Some?
    ensures var all, next := Collected(q, results), PageOf(Limit(q), results[|results| - 1]).next;
            && |all| > 0
            && all[|all| - 1] == results[|results| - 1][Limit(q) - 1]
            && forall k :: Below(k, next) <==> Before(k, all[|all| - 1])
  {
    var i := |results| - 1;
    assert WalkAt(q, tables, results, i);
    var last := results[i][Limit(q) - 1];
    assert last in results[i];
    WindowMicros(q, last.at);
    CursorIsExact(last);
  }

  /** No repeats, in order: whatever happens to the table between pages, the keys collected are
      strictly descending, and each matched when its page was answered. */
  lemma {:induction false} WalkDescends(q: Query, tables: seq<Table>, results: seq<seq<Key>>)
    requires WindowFits(q) && Walk(q, tables, results)
    requires forall i :: 0 <= i < |tables| ==> WholeMicros(tables[i])
    ensures Descending(Collected(q, results))
    ensures forall k :: k in Collected(q, results) ==> exists i :: 0 <= i < |tables| && Hit(tables[i], q, k)
  {
    var n := |results| - 1;
    assert WalkAt(q, tables, results, n);
    var page := PageOf(Limit(q), results[n]).keys;
    assert forall k :: k in page ==> k in results[n];
    if n == 0 {
      assert Collected(q, results[..0]) == [];
    } else {
      WalkPrefix(q, tables, results);
      WalkDescends(q, tables[..n], results[..n]);
      CursorIsLastKey(q, tables[..n], results[..n]);
      var front := Collected(q, results[..n]);
      forall i, j | 0 <= i < |front| && 0 <= j < |page| ensures Before(page[j], front[i]) {
        assert page[j] in results[n];
        assert Before(page[j], front[|front| - 1]);
      }
      forall k | k in front ensures exists i :: 0 <= i < |tables| && Hit(tables[i], q, k) {
        var i :| 0 <= i < n && Hit(tables[..n][i], q, k);
        assert Hit(tables[i], q, k);
      }
    }
  }

  /** Nothing is missed: a row that matches throughout is collected, or still lies ahead. */
  lemma {:induction false} WalkMissesNothing(q: Query, tables: seq<Table>, results: seq<seq<Key>>, k: Key)
    requires WindowFits(q) && Walk(q, tables, results)
    requires forall i :: 0 <= i < |tables| ==> WholeMicros(tables[i]) && Hit(tables[i], q, k)
    ensures var next := PageOf(Limit(q), results[|results| - 1]).next;
            k in Collected(q, results) || (next.Some? && Below(k, next))
  {
    var n := |results| - 1;
    assert WalkAt(q, tables, results, n);
    if n > 0 {
      WalkPrefix(q, tables, results);
      WalkMissesNothing(q, tables[..n], results[..n], k);
    }
    if k !in Collected(q, results[..n]) {
      PageSkipsNothing(tables[n], q, CursorFor(q, results, n), Limit(q), results[n], k);
      if PageOf(Limit(q), results[n]).next.Some? { CursorIsLastKey(q, tables, results); }
    }
  }

  /** A finished walk over a table that does not change returns exactly the matching rows, in order,
      each once. */
  lemma FixedTableWalk(q: Query, t: Table, results: seq<seq<Key>>)
    requires WindowFits(q) && WholeMicros(t)
    requires Walk(q, seq(|results|, _ => t), results) && PageOf(Limit(q), results[|results| - 1]).next.None?
    ensures Descending(Collected(q, results))
    ensures forall k :: k in Collected(q, results) <==> Hit(t, q, k)
  {
    var tables := seq(|results|, _ => t);
    WalkDescends(q, tables, results);
    forall k | Hit(t, q, k) ensures k in Collected(q, results) {
      WalkMissesNothing(q, tables, results, k);
    }
  }

  /** The same in the query's own terms: the rows of the window, whose exporter, addresses and
      protocol are the ones given, if any are, newest first. */
  lemma WalkAnswersTheQuery(q: Query, t: Table, results: seq<seq<Key>>)
    requires WindowFits(q) && WholeMicros(t)
    requires Walk(q, seq(|results|, _ => t), results) && PageOf(Limit(q), results[|results| - 1]).next.None?
    ensures forall k :: k in Collected(q, results) <==>
              && k in t
              && q.start - q.start % 1000 <= k.at < q.end - q.end % 1000
              && (q.exporter != 0 ==> t[k].exporter == q.exporter)
              && (q.src.Some? ==> t[k].src == q.src.value)
              && (q.dst.Some? ==> t[k].dst == q.dst.value)
              && (q.protocol.Some? ==> t[k].protocol == q.protocol.value)
    ensures var all := Collected(q, results);
            forall i, j :: 0 <= i < j < |all| ==>
              all[i].at > all[j].at || (all[i].at == all[j].at && all[i].id > all[j].id)
  {
    FixedTableWalk(q, t, results);
    assert forall k :: k in Collected(q, results) <==> Hit(t, q, k);
  }

  /** Pages have the size that was asked for, 100 rows if none was, and never more than 1000; only
      the last may have fewer. */
  lemma PageSizes(q: Query, tables: seq<Table>, results: seq<seq<Key>>, i: nat)
    requires Walk(q, tables, results) && i < |results|
    ensures var n := |PageOf(Limit(q), results[i]).keys|;
            var size := if q.limit <= 0 then 100 else if q.limit <= 1000 then q.limit else 1000;
            n <= size && (i + 1 < |results| ==> n == size)
  {
    assert WalkAt(q, tables, results, i);
    if i + 1 < |results| { assert WalkAt(q, tables, results, i + 1); }
  }

  /** Every page but the last is full, so a walk over n matching rows has at most n / limit + 1. */
  lemma WalkTerminates(q: Query, t: Table, results: seq<seq<Key>>)
    requires WindowFits(q) && WholeMicros(t) && Walk(q, seq(|results|, _ => t), results)
    ensures (|results| - 1) * Limit(q) <= |t|
  {
    var all := Collected(q, results);
    var tables := seq(|results|, _ => t);
    WalkDescends(q, tables, results);
    FullPages(q, tables, results);
    DistinctKeys(all);
    assert (set k | k in all) <= t.Keys;
    SubsetSize((set k | k in all), t.Keys);
  }

  lemma {:induction false} FullPages(q: Query, tables: seq<Table>, results: seq<seq<Key>>)
    requires Walk(q, tables, results)
    ensures (|results| - 1) * Limit(q) <= |Collected(q, results)|
    ensures PageOf(Limit(q), results[|results| - 1]).next.Some? ==> |results| * Limit(q) <= |Collected(q, results)|
  {
    var n := |results| - 1;
    assert WalkAt(q, tables, results, n);
    if n > 0 {
      WalkPrefix(q, tables, results);
      FullPages(q, tables[..n], results[..n]);
      assert (n + 1) * Limit(q) == n * Limit(q) + Limit(q);
    }
  }

  lemma {:induction false} DistinctKeys(keys: seq<Key>)
    requires Descending(keys)
    ensures |set k | k in keys| == |keys|
  {
    if keys != [] {
      var front, last := keys[..|keys| - 1], keys[|keys| - 1];
      DistinctKeys(front);
      assert (set k | k in keys) == (set k | k in front) + {last};
      assert last !in front;
    }
  }

  // ---------------------------------------------------------------- exactly when

  /** No repeats so far, and if the walk is over, nothing missed that matched throughout. */
  ghost predicate Faithful(q: Query, tables: seq<Table>, results: seq<seq<Key>>)
    requires |results| > 0
  {
    && Descending(Collected(q, results))
    && (PageOf(Limit(q), results[|results| - 1]).next.None? ==>
      forall k :: HitsAll(tables, q, k) ==> k in Collected(q, results))
  }

  ghost predicate HitsAll(tables: seq<Table>, q: Query, k: Key) {
    forall i :: 0 <= i < |tables| ==> Hit(tables[i], q, k)
  }

  ghost predicate AllWholeMicros(tables: seq<Table>) { forall i :: 0 <= i < |tables| ==> WholeMicros(tables[i]) }

  /** Walks are faithful, whatever is inserted and deleted between pages, if and only if the window
      fits the cursor's 64 bits. */
  lemma FaithfulIffWindowFits(q: Query)
    ensures WindowFits(q) <==>
            forall tables, results :: AllWholeMicros(tables) && Walk(q, tables, results) ==> Faithful(q, tables, results)
  {
    if WindowFits(q) {
      forall tables, results | AllWholeMicros(tables) && Walk(q, tables, results) ensures Faithful(q, tables, results) {
        WalkDescends(q, tables, results);
        forall k | HitsAll(tables, q, k) && PageOf(Limit(q), results[|results| - 1]).next.None?
          ensures k in Collected(q, results)
        {
          WalkMissesNothing(q, tables, results, k);
        }
      }
    } else {
      WindowMicros(q, 0);
      var at := if Representable(Micro(q.start)) then Micro(q.end) - 1000 else Micro(q.start);
      WindowMicros(q, at);
      var t, results := BrokenWalk(q, at);
      assert !Faithful(q, [t, t], results);
    }
  }

  /** `m` rows at one instant, newest first. */
  function RowsAt(at: int, m: nat): (keys: seq<Key>)
    ensures |keys| == m && forall i :: 0 <= i < m ==> keys[i] == Key(at, m - i)
  {
    seq(m, i => Key(at, m - i))
  }

  /** At an instant that does not fit, one row more than a page holds is enough: the second page is
      empty although a row is left, or it starts over. */
  lemma BrokenWalk(q: Query, at: int) returns (t: Table, results: seq<seq<Key>>)
    requires InWindow(q, at) && at % 1000 == 0 && !Representable(at)
    ensures WholeMicros(t) && Walk(q, [t, t], results) && !Faithful(q, [t, t], results)
  {
    var n := Limit(q);
    var keys := RowsAt(at, n + 1);
    var f := Flow(q.exporter, if q.src.Some? then q.src.value else 0, if q.dst.Some? then q.dst.value else 0,
                  if q.protocol.Some? then q.protocol.value else 0);
    t := map k | k in keys :: f;
    assert forall k :: Hit(t, q, k) <==> k in keys;
    var c := Some(Encode(keys[n - 1]));
    var second := if at >= TWO63 then [] else keys;
    results := [keys, second];
    WrapIsFar(at);
    assert forall k :: k in keys ==> k.at == at;
    assert WalkAt(q, [t, t], results, 0);
    assert forall k :: k in keys ==> (Below(k, c) <==> at < -TWO63);
    assert WalkAt(q, [t, t], results, 1);
    CollectTwo(q, keys, second);
    if at >= TWO63 {
      assert HitsAll([t, t], q, keys[n]);
      assert keys[n] !in keys[..n];
    } else {
      var all := Collected(q, results);
      assert all[0] == keys[0] == all[n];
      assert !Before(all[n], all[0]);
    }
  }

  lemma CollectTwo(q: Query, r0: seq<Key>, r1: seq<Key>)
    ensures Collected(q, [r0, r1]) == PageOf(Limit(q), r0).keys + PageOf(Limit(q), r1).keys
  {
    assert Collected(q, [r0]) == PageOf(Limit(q), r0).keys by {
      assert [r0][..0] == [];
      assert Collected(q, [r0][..0]) == [];
    }
    assert [r0, r1][..1] == [r0];
    assert Collected(q, [r0, r1]) == Collected(q, [r0, r1][..1]) + PageOf(Limit(q), r1).keys;
  }
}
