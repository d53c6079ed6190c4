/** The write watermark: workers complete batches out of order, `written` advances through the
    contiguous prefix only, and rejected ranges are remembered until a waiter has been told.

    `Mark` and the functions over it are the specification; `Watermark` below is the mutable
    object, and each of its methods is proved equal to one of the functions. */
module WatermarkModel {

  datatype Span = Span(first: nat, last: nat)

  /** What one pass through the body of `await` decides; `Wait` blocks until the next wake-up. */
  datatype Answer = Written | WriteFailed | Canceled | Wait

  datatype Mark = Mark(written: nat, done: map<nat, nat>, failed: seq<Span>, closed: bool)

  const Fresh := Mark(0, map[], [], false)

  // ---------------------------------------------------------------- the operations

  /** The advance loop: follow `done` from `written + 1` as long as it leads somewhere. */
  function Advance(written: nat, done: map<nat, nat>): (nat, map<nat, nat>)
    decreases |done|
  {
    if written + 1 in done then
      Shrinks(done, written + 1);
      Advance(done[written + 1], done - {written + 1})
    else (written, done)
  }

  lemma Shrinks(done: map<nat, nat>, f: nat)
    requires f in done
    ensures |done - {f}| < |done|
  {
    assert (done - {f}).Keys == done.Keys - {f};
  }

  function Complete(m: Mark, s: Span, ok: bool): Mark {
    var (written, done) := Advance(m.written, m.done[s.first := s.last]);
    Mark(written, done, if ok then m.failed else m.failed + [s], m.closed)
  }

  /** The failed ranges that survive a report to a waiter for `seq`. */
  function Beyond(failed: seq<Span>, s: nat): (kept: seq<Span>)
    ensures forall f :: f in kept <==> f in failed && f.first > s
  {
    if failed == [] then []
    else
      var rest := Beyond(failed[..|failed| - 1], s);
      var f := failed[|failed| - 1];
      assert failed == failed[..|failed| - 1] + [f];
      if f.first > s then rest + [f] else rest
  }

  /** One pass of `await`. Only the head of `failed` decides whether a failure is reported. */
  function Await(m: Mark, s: nat): (Answer, Mark) {
    if |m.failed| > 0 && m.failed[0].first <= s then (WriteFailed, m.(failed := Beyond(m.failed, s)))
    else if m.written >= s then (Written, m)
    else if m.closed then (Canceled, m)
    else (Wait, m)
  }

  /** The repaired pass: the whole list decides. */
  function AwaitAll(m: Mark, s: nat): (Answer, Mark) {
    if exists f :: f in m.failed && f.first <= s then (WriteFailed, m.(failed := Beyond(m.failed, s)))
    else if m.written >= s then (Written, m)
    else if m.closed then (Canceled, m)
    else (Wait, m)
  }

  // ---------------------------------------------------------------- tiled batches

  /** Where the first `k` batches end. */
  function End(b: seq<Span>, k: nat): nat
    requires k <= |b|
  {
    if k == 0 then 0 else b[k - 1].last
  }

  /** Batches in flush order: each starts where its predecessor ended, densely from 1. */
  ghost predicate Tiles(b: seq<Span>) {
    forall i :: 0 <= i < |b| ==> TileAt(b, i)
  }

  ghost predicate TileAt(b: seq<Span>, i: nat)
    requires i < |b|
  {
    b[i].first == End(b, i) + 1 && b[i].first <= b[i].last
  }

  /** `Complete` never looks at the flush order; this is what it means to follow it.
      `k` is the number of leading batches that are all in the completed set `c`. */
  ghost predicate Tracks(m: Mark, b: seq<Span>, c: set<nat>, k: nat) {
    Reaches(m.written, m.done, b, c, k) && k !in c
  }

  ghost predicate Reaches(written: nat, done: map<nat, nat>, b: seq<Span>, c: set<nat>, k: nat) {
    && Tiles(b)
    && (forall i :: i in c ==> i < |b|)
    && k <= |b|
    && (forall i :: 0 <= i < k ==> i in c)
    && written == End(b, k)
    && (forall i :: i in c && k <= i ==> b[i].first in done && done[b[i].first] == b[i].last)
    && (forall f :: f in done ==> exists i :: i in c && k <= i && b[i].first == f)
  }

  lemma {:induction false} TilesIncrease(b: seq<Span>, i: nat, j: nat)
    requires Tiles(b) && i < j < |b|
    ensures b[i].last < b[j].first
  {
    assert TileAt(b, j) && TileAt(b, j - 1);
    if i + 1 < j { TilesIncrease(b, i, j - 1); }
  }

  lemma EndMonotone(b: seq<Span>, i: nat, j: nat)
    requires Tiles(b) && i <= j <= |b|
    ensures End(b, i) <= End(b, j)
    ensures i < j ==> b[i].last <= End(b, j)
  {
    if i < j {
      assert TileAt(b, i) && TileAt(b, j - 1);
      if i < j - 1 { TilesIncrease(b, i, j - 1); }
    }
  }

  /** The advance loop stops exactly at the end of the contiguous prefix. */
  lemma {:induction false} AdvanceReaches(written: nat, done: map<nat, nat>, b: seq<Span>, c: set<nat>, k: nat)
    returns (k': nat)
    requires Reaches(written, done, b, c, k)
    ensures k <= k' && k' !in c
    ensures var (w, d) := Advance(written, done); Reaches(w, d, b, c, k')
    decreases |done|
  {
    if written + 1 in done {
      var i :| i in c && k <= i && b[i].first == written + 1;
      assert TileAt(b, k);
      if k < i { TilesIncrease(b, k, i); }
      assert i == k;
      var rest := done - {written + 1};
      Shrinks(done, written + 1);
      forall j | j in c && k + 1 <= j
        ensures b[j].first in rest && rest[b[j].first] == b[j].last
      {
        TilesIncrease(b, k, j);
      }
      k' := AdvanceReaches(done[written + 1], rest, b, c, k + 1);
    } else {
      k' := k;
      assert k in c ==> TileAt(b, k);
    }
  }

  /** One completion, in any order, keeps the watermark on the contiguous prefix. */
  lemma CompleteTracks(m: Mark, b: seq<Span>, c: set<nat>, k: nat, j: nat, ok: bool) returns (k': nat)
    requires Tracks(m, b, c, k)
    requires j < |b| && j !in c
    ensures k <= k'
    ensures Tracks(Complete(m, b[j], ok), b, c + {j}, k')
  {
    var done := m.done[b[j].first := b[j].last];
    var c' := c + {j};
    forall i | i in c' && k <= i
      ensures b[i].first in done && done[b[i].first] == b[i].last
    {
      assert TileAt(b, i) && TileAt(b, j);
      if i < j { TilesIncrease(b, i, j); } else if j < i { TilesIncrease(b, j, i); }
    }
    k' := AdvanceReaches(m.written, done, b, c', k);
  }

  /** Flushing another batch changes nothing the watermark knows. */
  lemma ExtendTracks(m: Mark, b: seq<Span>, c: set<nat>, k: nat, s: Span)
    requires Tracks(m, b, c, k)
    requires s.first == End(b, |b|) + 1 && s.first <= s.last
    ensures Tracks(m, b + [s], c, k)
  {
    var b' := b + [s];
    forall i | 0 <= i < |b'|
      ensures TileAt(b', i)
    {
      assert i < |b| ==> TileAt(b, i);
    }
    forall f | f in m.done
      ensures exists i :: i in c && k <= i && b'[i].first == f
    {
      var i :| i in c && k <= i && b[i].first == f;
      assert b'[i].first == f;
    }
  }

  /** `s` went through a batch of the completed set. */
  ghost predicate Covered(b: seq<Span>, c: set<nat>, s: nat) {
    exists i :: i in c && i < |b| && b[i].first <= s <= b[i].last
  }

  lemma {:induction false} TileOf(b: seq<Span>, k: nat, s: nat) returns (i: nat)
    requires Tiles(b) && k <= |b| && 1 <= s <= End(b, k)
    ensures i < k && b[i].first <= s <= b[i].last
    decreases k
  {
    assert TileAt(b, k - 1);
    if b[k - 1].first <= s { i := k - 1; } else { i := TileOf(b, k - 1, s); }
  }

  /** `written` is the largest n such that all of 1..n went through a completed batch. */
  lemma WrittenIsLargestPrefix(m: Mark, b: seq<Span>, c: set<nat>, k: nat, n: nat)
    requires Tracks(m, b, c, k)
    ensures n <= m.written <==> forall s :: 1 <= s <= n ==> Covered(b, c, s)
  {
    if n <= m.written {
      forall s | 1 <= s <= n ensures Covered(b, c, s) {
        var i := TileOf(b, k, s);
      }
    } else {
      var s := m.written + 1;
      if Covered(b, c, s) {
        var i :| i in c && i < |b| && b[i].first <= s <= b[i].last;
        if i < k { EndMonotone(b, i, k); } else { assert TileAt(b, k); TilesIncrease(b, k, i); }
        assert false;
      }
    }
  }

  // ---------------------------------------------------------------- whole histories

  /** One call of `complete`: which batch, and whether every sink took it. */
  datatype Outcome = Outcome(batch: nat, ok: bool)

  ghost function Completed(h: seq<Outcome>): set<nat> {
    set i | 0 <= i < |h| :: h[i].batch
  }

  ghost predicate Distinct(h: seq<Outcome>) {
    forall i, j :: 0 <= i < j < |h| ==> h[i].batch != h[j].batch
  }

  ghost predicate Refers(h: seq<Outcome>, b: seq<Span>) {
    forall i :: 0 <= i < |h| ==> h[i].batch < |b|
  }

  function Replay(b: seq<Span>, h: seq<Outcome>): Mark
    requires Refers(h, b)
  {
    if h == [] then Fresh
    else
      var o := h[|h| - 1];
      Complete(Replay(b, h[..|h| - 1]), b[o.batch], o.ok)
  }

  /** The rejected ranges of a history, in completion order. */
  function Rejected(b: seq<Span>, h: seq<Outcome>): seq<Span>
    requires Refers(h, b)
  {
    if h == [] then []
    else
      var o := h[|h| - 1];
      Rejected(b, h[..|h| - 1]) + if o.ok then [] else [b[o.batch]]
  }

  /** Refinement over whole histories: whatever the order in which distinct batches complete,
      `written` is the contiguous prefix, `done` holds exactly the completed ranges beyond it,
      and `failed` lists the rejected ones in completion order. */
  lemma {:induction false} EveryOrderTracks(b: seq<Span>, h: seq<Outcome>) returns (k: nat)
    requires Tiles(b) && Refers(h, b) && Distinct(h)
    ensures Tracks(Replay(b, h), b, Completed(h), k)
    ensures Replay(b, h).failed == Rejected(b, h)
  {
    if h == [] {
      k := 0;
    } else {
      var front, o := h[..|h| - 1], h[|h| - 1];
      var k0 := EveryOrderTracks(b, front);
      assert Completed(h) == Completed(front) + {o.batch} by {
        forall x | x in Completed(h) ensures x in Completed(front) + {o.batch} {
          var i :| 0 <= i < |h| && h[i].batch == x;
          if i < |h| - 1 { assert front[i].batch == x; }
        }
        forall x | x in Completed(front) ensures x in Completed(h) {
          var i :| 0 <= i < |front| && front[i].batch == x;
          assert h[i].batch == x;
        }
      }
      k := CompleteTracks(Replay(b, front), b, Completed(front), k0, o.batch, o.ok);
    }
  }

  // ---------------------------------------------------------------- soundness of the answer

  ghost predicate Sorted(failed: seq<Span>) {
    forall i, j :: 0 <= i < j < |failed| ==> failed[i].first <= failed[j].first
  }

  /** `Written` is a sound answer for `s`: no unreported failure starts at or below it. */
  ghost predicate Sound(m: Mark, s: nat) {
    Await(m, s).0 == Written ==> forall f :: f in m.failed ==> f.first > s
  }

  /** No unreported failure that the prefix has already passed hides behind a younger head. */
  ghost predicate HeadIsOldest(m: Mark) {
    forall f :: f in m.failed && f.first <= m.written ==> m.failed[0].first <= f.first
  }

  /** Exactly when `await` keeps its promise to every waiter. */
  lemma SoundIffHeadIsOldest(m: Mark)
    ensures HeadIsOldest(m) <==> forall s :: Sound(m, s)
  {
    if !HeadIsOldest(m) {
      var f :| f in m.failed && f.first <= m.written && f.first < m.failed[0].first;
      assert !Sound(m, f.first);
    }
  }

  /** The promise is not kept in general: [3,4] rejected, then [1,2] rejected, and `await(2)` is told
      that everything up to 2 is written. */
  lemma RejectedOutOfOrder()
    ensures var m := Complete(Complete(Fresh, Span(3, 4), false), Span(1, 2), false);
            Await(m, 2) == (Written, m) && Span(1, 2) in m.failed
  {
    var m1 := Complete(Fresh, Span(3, 4), false);
    assert m1.written == 0 && m1.done == map[3 := 4];
    var d := m1.done[1 := 2];
    var d' := d - {1};
    assert d' == map[3 := 4];
    assert d' - {3} == map[];
    assert Advance(0, d) == Advance(2, d') == Advance(4, d' - {3});
    var m := Complete(m1, Span(1, 2), false);
    assert m.failed == [Span(3, 4), Span(1, 2)];
    assert m.failed[1] == Span(1, 2);
  }

  /** A sorted list is enough, and a report keeps it sorted. */
  lemma SortedIsSound(m: Mark, s: nat)
    requires Sorted(m.failed)
    ensures Sound(m, s) && Sorted(Await(m, s).1.failed)
  {
    BeyondSorted(m.failed, s);
  }

  lemma {:induction false} BeyondSorted(failed: seq<Span>, s: nat)
    requires Sorted(failed)
    ensures Sorted(Beyond(failed, s))
  {
    if failed != [] {
      var front, f := failed[..|failed| - 1], failed[|failed| - 1];
      BeyondSorted(front, s);
      var rest := Beyond(front, s);
      forall x | x in front ensures x.first <= f.first {
        var j :| 0 <= j < |front| && front[j] == x;
        assert failed[j] == x;
      }
      assert forall i :: 0 <= i < |rest| ==> rest[i] in front;
    }
  }

  /** On a sorted list the repair changes nothing. */
  lemma RepairAgreesWhenSorted(m: Mark, s: nat)
    requires Sorted(m.failed)
    ensures AwaitAll(m, s) == Await(m, s)
  {
    if exists f :: f in m.failed && f.first <= s {
      var f :| f in m.failed && f.first <= s;
      var j :| 0 <= j < |m.failed| && m.failed[j] == f;
      assert m.failed[0].first <= f.first;
    } else if |m.failed| > 0 {
      assert m.failed[0] in m.failed;
    }
  }

  /** `await` forgets ranges without waking anyone. That is safe: a waiter that had to wait
      would still have to wait after any other waiter's report, sorted or not. */
  lemma ReportsWakeNobody(m: Mark, s: nat, other: nat)
    requires Await(m, s).0 == Wait
    ensures Await(Await(m, other).1, s).0 == Wait
  {
    var m' := Await(m, other).1;
    if |m'.failed| > 0 { assert m'.failed[0] in m'.failed; }
  }

  // ---------------------------------------------------------------- the object

  class Watermark {
    var written: nat
    var done: map<nat, nat>
    var failed: seq<Span>
    var closed: bool
    /** How often `changed` was closed and replaced; a waiter holding an older value wakes up. */
    var wakes: nat

    ghost function State(): Mark
      reads this
    {
      Mark(written, done, failed, closed)
    }

    constructor ()
      ensures State() == Fresh
    {
      written, done, failed, closed, wakes := 0, map[], [], false, 0;
    }

    method CompleteBatch(first: nat, last: nat, ok: bool)
      modifies this
      ensures State() == Complete(old(State()), Span(first, last), ok)
      ensures wakes > old(wakes)
    {
      if !ok {
        failed := failed + [Span(first, last)];
      }
      done := done[first := last];
      while written + 1 in done
        invariant Advance(written, done) == Advance(old(written), old(done)[first := last])
        invariant failed == (if ok then old(failed) else old(failed) + [Span(first, last)])
        invariant closed == old(closed) && wakes == old(wakes)
        decreases |done|
      {
        Shrinks(done, written + 1);
        var last' := done[written + 1];
        done := done - {written + 1};
        written := last';
      }
      wakes := wakes + 1;
    }

    method Close()
      modifies this
      ensures State() == old(State()).(closed := true)
      ensures wakes > old(wakes)
    {
      closed := true;
      wakes := wakes + 1;
    }

    method AwaitOnce(s: nat) returns (a: Answer)
      modifies this
      ensures (a, State()) == Await(old(State()), s)
      ensures wakes == old(wakes)
    {
      if |failed| > 0 && failed[0].first <= s {
        var kept := [];
        for i := 0 to |failed|
          invariant State() == old(State()) && wakes == old(wakes)
          invariant kept == Beyond(failed[..i], s)
        {
          assert failed[..i + 1][..i] == failed[..i];
          if failed[i].first > s {
            kept := kept + [failed[i]];
          }
        }
        assert failed[..|failed|] == failed;
        failed := kept;
        return WriteFailed;
      }
      if written >= s {
        return Written;
      }
      if closed {
        return Canceled;
      }
      return Wait;
    }
  }
}
