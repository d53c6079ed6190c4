/** The pipeline between sources and sinks as a value that steps: offers give records dense
    sequence numbers, the batcher recovers each batch's range by counting, and workers finish
    batches in any order. `Good` is what every step keeps. */
module PipelineModel {
  import opened Basics
  import opened Storage
  import opened WatermarkModel

  /** New refuses options that are not all positive, and an empty list of sinks. */
  datatype Options = Options(bufferSize: nat, batchSize: nat, workers: nat, sinks: nat) {
    predicate Valid() { bufferSize >= 1 && batchSize >= 1 && workers >= 1 && sinks >= 1 }
  }

  /** A record on its way through: from a push source, or from offset `off` of partition `part`. */
  datatype Item = Push(row: Row) | Pull(part: nat, off: nat, row: Row)

  datatype Batch = Batch(items: seq<Item>, span: Span)

  /** offerMu: `Held` is the moment between the channel send and `next++`. */
  datatype Lock = Free | Held

  /** Where `Run` is: in its main loop, in the drain loop, past it, or returned. */
  datatype Phase = Running | Draining | Flushing | Stopped

  /** One sink's answer to one batch. `Unconfirmed` rows were stored although an error came back. */
  datatype Reply = Accepted | Rejected | Unconfirmed

  datatype Pipe = Pipe(
    accepted: seq<Item>,      // history: every record ever sent into the buffer, in channel order
    buf: seq<Item>,
    next: nat,
    lock: Lock,
    pending: seq<Item>,
    taken: nat,
    first: nat,
    batches: seq<Batch>,      // history: every flushed batch, in flush order
    inflight: set<nat>,       // batches a worker holds
    history: seq<Outcome>,    // history: completions, in completion order
    mark: Mark,
    stores: seq<seq<Item>>,   // per sink, what it has stored, in write order
    phase: Phase,
    drained: nat,             // history: records accepted when the drain loop last saw the buffer empty
    base: seq<seq<Item>>,     // history: what the sinks held when this process started
    replies: seq<seq<Reply>>) // history: per completion, what each sink answered

  function Start(stores: seq<seq<Item>>): Pipe {
    Pipe([], [], 0, Free, [], 0, 1, [], {}, [], Fresh, stores, Running, 0, stores, [])
  }

  // ---------------------------------------------------------------- the steps

  /** The non-blocking send inside tryOffer. */
  predicate CanSend(o: Options, p: Pipe) { p.lock == Free && |p.buf| < o.bufferSize }

  function Send(p: Pipe, x: Item): Pipe {
    p.(accepted := p.accepted + [x], buf := p.buf + [x], lock := Held)
  }

  /** The rest of tryOffer: the sequence number handed out is the new `next`. */
  function Count(p: Pipe): Pipe { p.(next := p.next + 1, lock := Free) }

  predicate CanTake(o: Options, p: Pipe) {
    p.phase in {Running, Draining} && |p.buf| > 0 && |p.pending| < o.batchSize
  }

  function Take(p: Pipe): Pipe
    requires |p.buf| > 0
  {
    p.(buf := p.buf[1..], pending := p.pending + [p.buf[0]], taken := p.taken + 1)
  }

  predicate CanFlush(o: Options, p: Pipe) {
    p.phase != Stopped && |p.pending| > 0 && |p.inflight| < o.workers
  }

  /** The unbuffered hand-over to a free worker. */
  function Flush(p: Pipe): Pipe {
    p.(batches := p.batches + [Batch(p.pending, Span(p.first, p.taken))],
       inflight := p.inflight + {|p.batches|},
       first := p.taken + 1,
       pending := [])
  }

  function Succeeded(replies: seq<Reply>): nat {
    if replies == [] then 0
    else Succeeded(replies[..|replies| - 1]) + if replies[|replies| - 1] == Accepted then 1 else 0
  }

  /** What `write` returns. */
  function WriteOk(replies: seq<Reply>): bool {
    if Succeeded(replies) == 0 then false else Succeeded(replies) == |replies|
  }

  lemma {:induction false} WriteOkMeansEverySink(replies: seq<Reply>)
    ensures Succeeded(replies) <= |replies|
    ensures Succeeded(replies) == |replies| <==> forall k :: 0 <= k < |replies| ==> replies[k] == Accepted
    ensures WriteOk(replies) <==> |replies| > 0 && forall k :: 0 <= k < |replies| ==> replies[k] == Accepted
  {
    if replies != [] { WriteOkMeansEverySink(replies[..|replies| - 1]); }
  }

  function Deliver(stores: seq<seq<Item>>, replies: seq<Reply>, items: seq<Item>): (s: seq<seq<Item>>)
    requires |replies| == |stores|
    ensures |s| == |stores|
  {
    seq(|stores|, k requires 0 <= k < |stores| =>
      if replies[k] == Rejected then stores[k] else stores[k] + items)
  }

  predicate CanFinish(p: Pipe, j: nat, replies: seq<Reply>) {
    j in p.inflight && j < |p.batches| && |replies| == |p.stores|
  }

  /** A worker writes batch `j` to every sink and completes it on the watermark. */
  function Finish(p: Pipe, j: nat, replies: seq<Reply>): Pipe
    requires CanFinish(p, j, replies)
  {
    var ok := WriteOk(replies);
    p.(inflight := p.inflight - {j},
       history := p.history + [Outcome(j, ok)],
       mark := Complete(p.mark, p.batches[j].span, ok),
       stores := Deliver(p.stores, replies, p.batches[j].items),
       replies := p.replies + [replies])
  }

  /** Shutdown: cancel, then the drain loop finds the buffer empty, then the workers are joined. */
  predicate CanAdvancePhase(p: Pipe) {
    match p.phase
    case Running => true
    case Draining => |p.buf| == 0
    case Flushing => |p.pending| == 0 && p.inflight == {}
    case Stopped => false
  }

  function AdvancePhase(p: Pipe): Pipe {
    match p.phase
    case Running => p.(phase := Draining)
    case Draining => p.(phase := Flushing, drained := |p.accepted|)
    case _ => p.(phase := Stopped, mark := p.mark.(closed := true))
  }

  // ---------------------------------------------------------------- what every step keeps

  ghost function Spans(batches: seq<Batch>): (s: seq<Span>)
    ensures |s| == |batches| && forall i :: 0 <= i < |s| ==> s[i] == batches[i].span
  {
    seq(|batches|, i requires 0 <= i < |batches| => batches[i].span)
  }

  /** Sequence numbers agree with counting. */
  ghost predicate Counted(o: Options, p: Pipe) {
    && |p.buf| <= o.bufferSize
    && |p.pending| <= o.batchSize
    && 1 <= p.first <= p.taken + 1 <= |p.accepted| + 1
    && p.buf == p.accepted[p.taken..]
    && p.pending == p.accepted[p.first - 1..p.taken]
    && |p.accepted| == p.next + (if p.lock == Held then 1 else 0)
    && (p.phase in {Flushing, Stopped} ==> p.taken == p.drained)
    && (p.phase == Stopped ==> p.pending == [] && p.inflight == {})
    && (p.phase == Stopped <==> p.mark.closed)
  }

  /** Batch `i` carries exactly the records its range numbers. */
  ghost predicate BatchAt(o: Options, p: Pipe, i: nat)
    requires i < |p.batches|
  {
    var b := p.batches[i];
    && 1 <= b.span.first <= b.span.last < p.first
    && b.span.last <= |p.accepted|
    && b.items == p.accepted[b.span.first - 1..b.span.last]
    && |b.items| <= o.batchSize
  }

  ghost predicate Batched(o: Options, p: Pipe) {
    && Tiles(Spans(p.batches))
    && End(Spans(p.batches), |p.batches|) == p.first - 1
    && forall i :: 0 <= i < |p.batches| ==> BatchAt(o, p, i)
  }

  /** Every flushed batch is with exactly one worker or has completed exactly once. */
  ghost predicate Worked(o: Options, p: Pipe) {
    && Distinct(p.history)
    && Refers(p.history, Spans(p.batches))
    && |p.inflight| <= o.workers
    && (forall i :: i in p.inflight ==> i < |p.batches| && i !in Completed(p.history))
    && (forall i :: 0 <= i < |p.batches| ==> i in p.inflight || i in Completed(p.history))
  }

  /** `f` is the range of a batch some sink rejected. */
  ghost predicate WasRejected(p: Pipe, f: Span) {
    exists i :: 0 <= i < |p.history| && !p.history[i].ok && p.history[i].batch < |p.batches|
                && f == p.batches[p.history[i].batch].span
  }

  ghost predicate Marked(p: Pipe) {
    && (exists k :: Tracks(p.mark, Spans(p.batches), Completed(p.history), k))
    && (forall f :: f in p.mark.failed ==> WasRejected(p, f))
  }

  ghost predicate Holds(stores: seq<seq<Item>>, x: Item) {
    forall k :: 0 <= k < |stores| ==> x in stores[k]
  }

  ghost predicate Stocked(o: Options, p: Pipe) {
    && |p.stores| == o.sinks
    && (forall i, x ::
      (0 <= i < |p.history| && p.history[i].ok && p.history[i].batch < |p.batches|
       && x in p.batches[p.history[i].batch].items) ==> Holds(p.stores, x))
  }

  /** What sink `k` was given, in completion order: the batches it did not reject, once each. */
  ghost function Received(batches: seq<Batch>, h: seq<Outcome>, replies: seq<seq<Reply>>, k: nat): seq<Item>
    requires |replies| == |h|
  {
    if h == [] then []
    else
      var n := |h| - 1;
      Received(batches, h[..n], replies[..n], k)
      + if Took(replies[n], k) && h[n].batch < |batches| then batches[h[n].batch].items else []
  }

  /** Sink `k` stored the batch, whether it said so or not. */
  ghost predicate Took(replies: seq<Reply>, k: nat) { k < |replies| && replies[k] != Rejected }

  /** Every sink holds what it held at the start and what it was given since, and nothing else. */
  ghost predicate Logged(p: Pipe) {
    && |p.replies| == |p.history| && |p.base| == |p.stores|
    && (forall i :: 0 <= i < |p.history| ==>
         |p.replies[i]| == |p.stores| && p.history[i].ok == WriteOk(p.replies[i]))
    && (forall k :: 0 <= k < |p.stores| ==>
         p.stores[k] == p.base[k] + Received(p.batches, p.history, p.replies, k))
  }

  ghost predicate Good(o: Options, p: Pipe) {
    Counted(o, p) && Batched(o, p) && Worked(o, p) && Marked(p) && Stocked(o, p) && Logged(p)
  }

  lemma StartIsGood(o: Options, stores: seq<seq<Item>>)
    requires |stores| == o.sinks
    ensures Good(o, Start(stores))
  {
    var p := Start(stores);
    assert Completed(p.history) == {};
    assert Tracks(p.mark, Spans(p.batches), Completed(p.history), 0);
  }

  /** The half of the invariant that the offerers and the batcher keep among themselves. */
  ghost predicate Front(o: Options, p: Pipe) { Counted(o, p) && Batched(o, p) }

  lemma SendFront(o: Options, p: Pipe, x: Item)
    requires Front(o, p) && CanSend(o, p)
    ensures Front(o, Send(p, x))
  {
    var q := Send(p, x);
    forall i | 0 <= i < |q.batches| ensures BatchAt(o, q, i) { assert BatchAt(o, p, i); }
  }

  lemma CountFront(o: Options, p: Pipe)
    requires Front(o, p) && p.lock == Held
    ensures Front(o, Count(p)) && Count(p).next == |p.accepted|
  {
    var q := Count(p);
    forall i | 0 <= i < |q.batches| ensures BatchAt(o, q, i) { assert BatchAt(o, p, i); }
  }

  lemma TakeFront(o: Options, p: Pipe)
    requires Front(o, p) && CanTake(o, p)
    ensures Front(o, Take(p))
    ensures Take(p).pending[|p.pending|] == p.accepted[Take(p).taken - 1]
  {
    var q := Take(p);
    forall i | 0 <= i < |q.batches| ensures BatchAt(o, q, i) { assert BatchAt(o, p, i); }
  }

  lemma FlushFront(o: Options, p: Pipe)
    requires Front(o, p) && |p.pending| > 0
    ensures Front(o, Flush(p))
    ensures Spans(Flush(p).batches) == Spans(p.batches) + [Span(p.first, p.taken)]
  {
    var q, s := Flush(p), Span(p.first, p.taken);
    assert Spans(q.batches) == Spans(p.batches) + [s];
    forall i | 0 <= i < |q.batches| ensures TileAt(Spans(q.batches), i) && BatchAt(o, q, i) {
      if i < |p.batches| { assert TileAt(Spans(p.batches), i) && BatchAt(o, p, i); }
    }
  }

  /** In the phases of shutdown too. */
  lemma PhaseFront(o: Options, p: Pipe)
    requires Front(o, p) && CanAdvancePhase(p)
    ensures Front(o, AdvancePhase(p))
  {
    var q := AdvancePhase(p);
    forall i | 0 <= i < |q.batches| ensures BatchAt(o, q, i) { assert BatchAt(o, p, i); }
  }

  lemma SendKeeps(o: Options, p: Pipe, x: Item)
    requires Good(o, p) && CanSend(o, p)
    ensures Good(o, Send(p, x))
  {
    var q := Send(p, x);
    SendFront(o, p, x);
    forall f | f in q.mark.failed ensures WasRejected(q, f) { assert WasRejected(p, f); }
  }

  lemma CountKeeps(o: Options, p: Pipe)
    requires Good(o, p) && p.lock == Held
    ensures Good(o, Count(p))
    ensures Count(p).next == |p.accepted|
  {
    var q := Count(p);
    CountFront(o, p);
    forall f | f in q.mark.failed ensures WasRejected(q, f) { assert WasRejected(p, f); }
  }

  lemma TakeKeeps(o: Options, p: Pipe)
    requires Good(o, p) && CanTake(o, p)
    ensures Good(o, Take(p))
    ensures Take(p).pending[|p.pending|] == p.accepted[Take(p).taken - 1]
  {
    var q := Take(p);
    TakeFront(o, p);
    forall f | f in q.mark.failed ensures WasRejected(q, f) { assert WasRejected(p, f); }
  }

  lemma FlushKeeps(o: Options, p: Pipe)
    requires Good(o, p) && CanFlush(o, p)
    ensures Good(o, Flush(p))
  {
    var q := Flush(p);
    FlushFront(o, p);
    FlushTracks(o, p);
    FlushWorked(o, p);
    FlushLogged(o, p);
    hide Counted, Batched, Tiles, Logged;
    forall f | f in q.mark.failed ensures WasRejected(q, f) { assert WasRejected(p, f); }
    forall i, x | 0 <= i < |q.history| && q.history[i].ok && q.history[i].batch < |q.batches|
                  && x in q.batches[q.history[i].batch].items
      ensures Holds(q.stores, x)
    {
      assert q.history[i].batch < |Spans(p.batches)|;
    }
  }

  lemma {:induction false} ReceivedFlush(batches: seq<Batch>, b: Batch, h: seq<Outcome>, replies: seq<seq<Reply>>,
                                         k: nat)
    requires |replies| == |h| && forall i :: 0 <= i < |h| ==> h[i].batch < |batches|
    ensures Received(batches + [b], h, replies, k) == Received(batches, h, replies, k)
  {
    if h != [] { ReceivedFlush(batches, b, h[..|h| - 1], replies[..|h| - 1], k); }
  }

  lemma FlushLogged(o: Options, p: Pipe)
    requires Logged(p) && Worked(o, p)
    ensures Logged(Flush(p))
  {
    forall k | 0 <= k < |p.stores|
      ensures Received(Flush(p).batches, p.history, p.replies, k) == Received(p.batches, p.history, p.replies, k)
    {
      ReceivedFlush(p.batches, Batch(p.pending, Span(p.first, p.taken)), p.history, p.replies, k);
    }
  }

  lemma FlushTracks(o: Options, p: Pipe)
    requires Good(o, p) && CanFlush(o, p)
    ensures var q := Flush(p); exists k :: Tracks(q.mark, Spans(q.batches), Completed(q.history), k)
  {
    var q := Flush(p);
    FlushFront(o, p);
    var k :| Tracks(p.mark, Spans(p.batches), Completed(p.history), k);
    ExtendTracks(p.mark, Spans(p.batches), Completed(p.history), k, Span(p.first, p.taken));
  }

  lemma FlushWorked(o: Options, p: Pipe)
    requires Worked(o, p) && CanFlush(o, p)
    ensures Worked(o, Flush(p))
  {
    NotYetCompleted(p.history, Spans(p.batches), |p.batches|);
  }

  lemma NotYetCompleted(h: seq<Outcome>, b: seq<Span>, i: nat)
    requires Refers(h, b) && i >= |b|
    ensures i !in Completed(h)
  {
  }

  lemma CompletedAppend(h: seq<Outcome>, x: Outcome)
    ensures Completed(h + [x]) == Completed(h) + {x.batch}
  {
    var h' := h + [x];
    forall b | b in Completed(h) ensures b in Completed(h') {
      var i :| 0 <= i < |h| && h[i].batch == b;
      assert h'[i].batch == b;
    }
    assert h'[|h|].batch in Completed(h');
  }

  lemma FinishKeeps(o: Options, p: Pipe, j: nat, replies: seq<Reply>)
    requires Good(o, p) && CanFinish(p, j, replies)
    ensures Good(o, Finish(p, j, replies))
  {
    var q := Finish(p, j, replies);
    FinishTracks(p, j, replies);
    FinishRejected(p, j, replies);
    FinishWorked(o, p, j, replies);
    FinishStocks(o, p, j, replies);
    FinishLogged(p, j, replies);
    hide Marked, Worked, Stocked, Logged, Tiles;
    forall i | 0 <= i < |q.batches| ensures BatchAt(o, q, i) { assert BatchAt(o, p, i); }
  }

  lemma FinishTracks(p: Pipe, j: nat, replies: seq<Reply>)
    requires CanFinish(p, j, replies) && Marked(p) && j !in Completed(p.history)
    ensures var q := Finish(p, j, replies);
            exists k :: Tracks(q.mark, Spans(q.batches), Completed(q.history), k)
  {
    var q := Finish(p, j, replies);
    var c := Completed(p.history);
    CompletedAppend(p.history, Outcome(j, WriteOk(replies)));
    var k :| Tracks(p.mark, Spans(p.batches), c, k);
    var k' := CompleteTracks(p.mark, Spans(p.batches), c, k, j, WriteOk(replies));
    assert Tracks(q.mark, Spans(q.batches), Completed(q.history), k');
  }

  lemma FinishWorked(o: Options, p: Pipe, j: nat, replies: seq<Reply>)
    requires CanFinish(p, j, replies) && Worked(o, p)
    ensures Worked(o, Finish(p, j, replies))
  {
    CompletedAppend(p.history, Outcome(j, WriteOk(replies)));
    FinishDistinct(p, j, replies);
  }

  lemma FinishDistinct(p: Pipe, j: nat, replies: seq<Reply>)
    requires CanFinish(p, j, replies) && Distinct(p.history) && j !in Completed(p.history)
    ensures Distinct(Finish(p, j, replies).history)
  {
    forall i | 0 <= i < |p.history| ensures p.history[i].batch != j {
      assert p.history[i].batch in Completed(p.history);
    }
  }

  lemma FinishRejected(p: Pipe, j: nat, replies: seq<Reply>)
    requires CanFinish(p, j, replies) && Marked(p)
    ensures var q := Finish(p, j, replies); forall f :: f in q.mark.failed ==> WasRejected(q, f)
  {
    var q := Finish(p, j, replies);
    forall f | f in q.mark.failed ensures WasRejected(q, f) {
      if f in p.mark.failed {
        var i :| 0 <= i < |p.history| && !p.history[i].ok && p.history[i].batch < |p.batches|
                 && f == p.batches[p.history[i].batch].span;
        assert q.history[i] == p.history[i];
      } else {
        assert q.history[|p.history|] == Outcome(j, false);
      }
    }
  }

  lemma FinishStocks(o: Options, p: Pipe, j: nat, replies: seq<Reply>)
    requires CanFinish(p, j, replies) && Stocked(o, p)
    ensures Stocked(o, Finish(p, j, replies))
  {
    var q := Finish(p, j, replies);
    WriteOkMeansEverySink(replies);
    forall i, x | 0 <= i < |q.history| && q.history[i].ok && q.history[i].batch < |q.batches|
                  && x in q.batches[q.history[i].batch].items
      ensures Holds(q.stores, x)
    {
      if i < |p.history| {
        assert q.history[i] == p.history[i];
        assert Holds(p.stores, x);
      }
    }
  }

  lemma FinishLogged(p: Pipe, j: nat, replies: seq<Reply>)
    requires CanFinish(p, j, replies) && Logged(p)
    ensures Logged(Finish(p, j, replies))
  {
    var q := Finish(p, j, replies);
    forall k | 0 <= k < |q.stores| ensures q.stores[k] == q.base[k] + Received(q.batches, q.history, q.replies, k) {
      ReceivedNext(p.batches, p.history, p.replies, k, Outcome(j, WriteOk(replies)), replies);
      DeliveredAt(p.base[k], Received(p.batches, p.history, p.replies, k), p.stores, replies, p.batches[j].items, k);
    }
    hide Received, Complete, Succeeded, WriteOk, Deliver;
  }

  lemma DeliveredAt(base: seq<Item>, before: seq<Item>, stores: seq<seq<Item>>, replies: seq<Reply>, items: seq<Item>,
                    k: nat)
    requires |replies| == |stores| && k < |stores| && stores[k] == base + before
    ensures Deliver(stores, replies, items)[k] == base + (before + if Took(replies, k) then items else [])
  {
    assert before + [] == before && (base + before) + items == base + (before + items);
  }

  lemma ReceivedNext(batches: seq<Batch>, h: seq<Outcome>, replies: seq<seq<Reply>>, k: nat, x: Outcome, r: seq<Reply>)
    requires |replies| == |h|
    ensures Received(batches, h + [x], replies + [r], k) ==
            Received(batches, h, replies, k) + if Took(r, k) && x.batch < |batches| then batches[x.batch].items else []
  {
    assert (h + [x])[..|h|] == h && (replies + [r])[..|h|] == replies;
  }

  lemma AdvancePhaseKeeps(o: Options, p: Pipe)
    requires Good(o, p) && CanAdvancePhase(p)
    ensures Good(o, AdvancePhase(p))
  {
    var q := AdvancePhase(p);
    PhaseFront(o, p);
    hide Counted, Batched;
    var k :| Tracks(p.mark, Spans(p.batches), Completed(p.history), k);
    assert Tracks(q.mark, Spans(q.batches), Completed(q.history), k);
    forall f | f in q.mark.failed ensures WasRejected(q, f) { assert WasRejected(p, f); }
  }

  /** A report to a waiter only shortens `failed`. */
  lemma ReportKeeps(o: Options, p: Pipe, m: Mark)
    requires Good(o, p)
    requires m == p.mark.(failed := m.failed) && forall f :: f in m.failed ==> f in p.mark.failed
    ensures Good(o, p.(mark := m))
  {
    var q := p.(mark := m);
    var k :| Tracks(p.mark, Spans(p.batches), Completed(p.history), k);
    assert Tracks(q.mark, Spans(q.batches), Completed(q.history), k);
    forall i | 0 <= i < |q.batches| ensures BatchAt(o, q, i) { assert BatchAt(o, p, i); }
    forall f | f in q.mark.failed ensures WasRejected(q, f) { assert WasRejected(p, f); }
  }

  // ---------------------------------------------------------------- consequences

  /** A written record without a pending failure in front of it is in every sink. */
  lemma WrittenIsStored(o: Options, p: Pipe, s: nat)
    requires Good(o, p) && 1 <= s <= p.mark.written
    requires forall i :: 0 <= i < |p.history| && !p.history[i].ok && p.history[i].batch < |p.batches|
                         ==> !(p.batches[p.history[i].batch].span.first <= s <= p.batches[p.history[i].batch].span.last)
    ensures s <= |p.accepted| && Holds(p.stores, p.accepted[s - 1])
  {
    var i := CompletionOf(o, p, s);
    assert p.history[i].ok;
    hide Batched, Worked, Marked, Counted;
    assert Holds(p.stores, p.accepted[s - 1]);
  }

  /** A written record is in some completed batch. */
  lemma CompletionOf(o: Options, p: Pipe, s: nat) returns (i: nat)
    requires Good(o, p) && 1 <= s <= p.mark.written
    ensures i < |p.history| && p.history[i].batch < |p.batches| && s <= |p.accepted|
    ensures var batch := p.batches[p.history[i].batch];
            batch.span.first <= s <= batch.span.last && p.accepted[s - 1] in batch.items
  {
    var b, c := Spans(p.batches), Completed(p.history);
    var k :| Tracks(p.mark, b, c, k);
    var j := TileOf(b, k, s);
    assert j in c;
    i :| 0 <= i < |p.history| && p.history[i].batch == j;
    assert BatchAt(o, p, j);
    assert p.batches[j].items[s - p.batches[j].span.first] == p.accepted[s - 1];
  }

  /** Conservation: every accepted record is buffered, pending, with a worker or completed, in
      exactly one of these places, and where its number says. */
  lemma RecordIsInOnePlace(o: Options, p: Pipe, s: nat)
    requires Good(o, p) && 1 <= s <= |p.accepted|
    ensures s > p.taken ==> p.buf[s - p.taken - 1] == p.accepted[s - 1]
    ensures p.first <= s <= p.taken ==> p.pending[s - p.first] == p.accepted[s - 1]
    ensures var b := Spans(p.batches);
            && (s < p.first <==> Covered(b, p.inflight, s) || Covered(b, Completed(p.history), s))
            && !(Covered(b, p.inflight, s) && Covered(b, Completed(p.history), s))
  {
    var b, c := Spans(p.batches), Completed(p.history);
    if s < p.first {
      var i := TileOf(b, |b|, s);
      assert i in p.inflight || i in c;
    }
    if Covered(b, p.inflight, s) { CoveredIsFlushed(o, p, p.inflight, s); }
    if Covered(b, c, s) { CoveredIsFlushed(o, p, c, s); }
    if Covered(b, p.inflight, s) && Covered(b, c, s) {
      var i :| i in p.inflight && i < |b| && b[i].first <= s <= b[i].last;
      var j :| j in c && j < |b| && b[j].first <= s <= b[j].last;
      if i < j { TilesIncrease(b, i, j); } else if j < i { TilesIncrease(b, j, i); }
      assert false;
    }
  }

  lemma CoveredIsFlushed(o: Options, p: Pipe, c: set<nat>, s: nat)
    requires Batched(o, p) && Covered(Spans(p.batches), c, s)
    ensures s < p.first
  {
    var b := Spans(p.batches);
    var i :| i in c && i < |b| && b[i].first <= s <= b[i].last;
    assert BatchAt(o, p, i);
  }

  /** Completions in flush order: what one worker alone produces. */
  ghost predicate InFlushOrder(p: Pipe) {
    && (forall i :: 0 <= i < |p.history| ==> p.history[i].batch == i)
    && |p.batches| == |p.history| + |p.inflight|
    && p.inflight <= {|p.history|}
  }

  /** Failed batches complete in sequence order. */
  ghost predicate FailuresInOrder(h: seq<Outcome>) {
    forall i, j :: 0 <= i < j < |h| && !h[i].ok && !h[j].ok ==> h[i].batch <= h[j].batch
  }

  lemma FlushOneWorker(o: Options, p: Pipe)
    requires InFlushOrder(p) && CanFlush(o, p) && o.workers == 1
    ensures InFlushOrder(Flush(p))
  {
    assert p.inflight == {};
  }

  lemma FinishOneWorker(p: Pipe, j: nat, replies: seq<Reply>)
    requires InFlushOrder(p) && CanFinish(p, j, replies)
    ensures InFlushOrder(Finish(p, j, replies))
  {
    assert p.inflight == {j};
  }

  /** With failures in order, a completion keeps the list sorted. */
  lemma FinishSorted(o: Options, p: Pipe, j: nat, replies: seq<Reply>)
    requires Good(o, p) && CanFinish(p, j, replies)
    requires Sorted(p.mark.failed) && FailuresInOrder(Finish(p, j, replies).history)
    ensures Sorted(Finish(p, j, replies).mark.failed)
  {
    if !WriteOk(replies) {
      forall n | 0 <= n < |p.mark.failed| ensures p.mark.failed[n].first <= p.batches[j].span.first {
        OlderFailure(o, p, j, p.mark.failed[n]);
      }
    }
  }

  lemma OlderFailure(o: Options, p: Pipe, j: nat, f: Span)
    requires Batched(o, p) && j < |p.batches| && WasRejected(p, f)
    requires FailuresInOrder(p.history + [Outcome(j, false)])
    ensures f.first <= p.batches[j].span.first
  {
    var i :| 0 <= i < |p.history| && !p.history[i].ok && p.history[i].batch < |p.batches|
             && f == p.batches[p.history[i].batch].span;
    var h := p.history + [Outcome(j, false)];
    assert !h[i].ok && !h[|p.history|].ok;
    var b, x := Spans(p.batches), p.history[i].batch;
    assert TileAt(b, x);
    if x < j { TilesIncrease(b, x, j); }
  }

  ghost function Items(batches: seq<Batch>): seq<Item> {
    if batches == [] then [] else Items(batches[..|batches| - 1]) + batches[|batches| - 1].items
  }

  /** The batches, one after the other, are the records below `first`, in sequence order. */
  lemma {:induction false} BatchesInOrder(o: Options, p: Pipe, n: nat)
    requires Front(o, p) && n <= |p.batches|
    ensures End(Spans(p.batches), n) < p.first && Items(p.batches[..n]) == p.accepted[..End(Spans(p.batches), n)]
  {
    if n > 0 {
      BatchesInOrder(o, p, n - 1);
      assert TileAt(Spans(p.batches), n - 1) && BatchAt(o, p, n - 1);
      assert p.batches[..n][..n - 1] == p.batches[..n - 1];
    }
  }

  lemma AllBatchesInOrder(o: Options, p: Pipe)
    requires Front(o, p)
    ensures Items(p.batches) == p.accepted[..p.first - 1]
  {
    BatchesInOrder(o, p, |p.batches|);
    assert p.batches[..|p.batches|] == p.batches;
  }

  /** After `Run` has returned, the records accepted before the drain loop found the buffer empty
      went out in batches, in order, each batch completed exactly once, and each record is through.
      The others, sent later, are all still in the buffer. */
  lemma StoppedMeansHandedOver(o: Options, p: Pipe)
    requires Good(o, p) && p.phase == Stopped
    ensures p.drained <= |p.accepted| && Items(p.batches) == p.accepted[..p.drained]
    ensures p.buf == p.accepted[p.drained..]
    ensures forall s :: 1 <= s <= |p.accepted| ==>
              (s <= p.drained <==> Covered(Spans(p.batches), Completed(p.history), s))
    ensures multiset(BatchesOf(p.history)) == multiset(Below(|p.batches|))
  {
    var b, c := Spans(p.batches), Completed(p.history);
    forall s | 1 <= s <= |p.accepted| ensures s <= p.drained <==> Covered(b, c, s) {
      if s <= p.drained {
        var i := TileOf(b, |b|, s);
      } else if Covered(b, c, s) {
        CoveredIsFlushed(o, p, c, s);
      }
    }
    AllBatchesInOrder(o, p);
    AllCompleted(o, p);
  }

  /** The records of the batches in `c`. */
  ghost function ItemsIn(batches: seq<Batch>, c: set<nat>): multiset<Item> {
    if batches == [] then multiset{}
    else
      var n := |batches| - 1;
      ItemsIn(batches[..n], c) + if n in c then multiset(batches[n].items) else multiset{}
  }

  lemma {:induction false} ItemsInNone(batches: seq<Batch>, c: set<nat>)
    requires forall j :: j in c ==> j >= |batches|
    ensures ItemsIn(batches, c) == multiset{}
  {
    if batches != [] { ItemsInNone(batches[..|batches| - 1], c); }
  }

  lemma {:induction false} ItemsInMore(batches: seq<Batch>, c: set<nat>, j: nat)
    requires j !in c
    ensures ItemsIn(batches, c + {j}) ==
            ItemsIn(batches, c) + if j < |batches| then multiset(batches[j].items) else multiset{}
  {
    if batches != [] { ItemsInMore(batches[..|batches| - 1], c, j); }
  }

  lemma {:induction false} ItemsInAll(batches: seq<Batch>, c: set<nat>)
    requires forall j: nat :: j < |batches| ==> j in c
    ensures ItemsIn(batches, c) == multiset(Items(batches))
  {
    if batches != [] { ItemsInAll(batches[..|batches| - 1], c); }
  }

  /** The batches that sink `k` took. */
  ghost function TakenBy(h: seq<Outcome>, replies: seq<seq<Reply>>, k: nat): set<nat>
    requires |replies| == |h|
  {
    set i | 0 <= i < |h| && Took(replies[i], k) :: h[i].batch
  }

  lemma {:induction false} ReceivedOnce(batches: seq<Batch>, h: seq<Outcome>, replies: seq<seq<Reply>>, k: nat)
    requires |replies| == |h| && Distinct(h)
    ensures multiset(Received(batches, h, replies, k)) == ItemsIn(batches, TakenBy(h, replies, k))
  {
    if h == [] {
      ItemsInNone(batches, TakenBy(h, replies, k));
    } else {
      var n := |h| - 1;
      ReceivedOnce(batches, h[..n], replies[..n], k);
      var c := TakenBy(h[..n], replies[..n], k);
      var before := Received(batches, h[..n], replies[..n], k);
      TakenNext(h, replies, k);
      if Took(replies[n], k) {
        assert h[n].batch !in c;
        ItemsInMore(batches, c, h[n].batch);
      } else {
        assert c + {} == c;
        assert Received(batches, h, replies, k) == before + [] == before;
      }
    }
  }

  lemma TakenNext(h: seq<Outcome>, replies: seq<seq<Reply>>, k: nat)
    requires |replies| == |h| > 0
    ensures var n := |h| - 1;
            TakenBy(h, replies, k) == TakenBy(h[..n], replies[..n], k) + if Took(replies[n], k) then {h[n].batch} else {}
  {
    var n := |h| - 1;
    forall x | x in TakenBy(h, replies, k)
      ensures x in TakenBy(h[..n], replies[..n], k) || (Took(replies[n], k) && x == h[n].batch)
    {
      var i :| 0 <= i < |h| && Took(replies[i], k) && h[i].batch == x;
      if i < n { assert h[..n][i].batch == x && Took(replies[..n][i], k); }
    }
    forall x | x in TakenBy(h[..n], replies[..n], k) ensures x in TakenBy(h, replies, k) {
      var i :| 0 <= i < n && Took(replies[..n][i], k) && h[..n][i].batch == x;
      assert h[i].batch == x && Took(replies[i], k);
    }
  }

  /** How often a sink has a record: as often as it had it at the start, and once for each time the
      record is in a batch that the sink took. */
  lemma SinkHoldsOnce(o: Options, p: Pipe, k: nat)
    requires Good(o, p) && k < |p.stores|
    ensures |p.base| == |p.stores| && |p.replies| == |p.history|
    ensures multiset(p.stores[k]) == multiset(p.base[k]) + ItemsIn(p.batches, TakenBy(p.history, p.replies, k))
  {
    ReceivedOnce(p.batches, p.history, p.replies, k);
  }

  /** After `Run` has returned, a sink that rejected nothing has every record accepted before the
      drain loop ended exactly once more than at the start. */
  lemma StoppedSinkHoldsOnce(o: Options, p: Pipe, k: nat)
    requires Good(o, p) && p.phase == Stopped && k < |p.stores|
    requires forall i :: 0 <= i < |p.replies| ==> Took(p.replies[i], k)
    ensures |p.base| == |p.stores| && p.drained <= |p.accepted|
    ensures multiset(p.stores[k]) == multiset(p.base[k]) + multiset(p.accepted[..p.drained])
  {
    SinkHoldsOnce(o, p, k);
    StoppedMeansHandedOver(o, p);
    var c := TakenBy(p.history, p.replies, k);
    forall j: nat | j < |p.batches| ensures j in c {
      assert j in Completed(p.history);
      var i :| 0 <= i < |p.history| && p.history[i].batch == j;
      assert Took(p.replies[i], k);
    }
    ItemsInAll(p.batches, c);
  }

  /** After `Run` has returned nobody waits: a waiter is told of a failure, that its record is
      written, or that it never will be. */
  lemma StoppedAnswersEveryone(o: Options, p: Pipe, s: nat)
    requires Good(o, p) && p.phase == Stopped
    ensures var (answer, _) := Await(p.mark, s);
            && answer != Wait
            && (s > p.mark.written && p.mark.failed == [] ==> answer == Canceled)
  {
  }

  lemma AllCompleted(o: Options, p: Pipe)
    requires Worked(o, p) && p.inflight == {}
    ensures multiset(BatchesOf(p.history)) == multiset(Below(|p.batches|))
  {
    DistinctBatches(p.history);
    forall i | i in Completed(p.history) ensures i in Below(|p.batches|) {
      assert i < |Spans(p.batches)|;
    }
    assert Completed(p.history) == Below(|p.batches|);
  }

  ghost function BatchesOf(h: seq<Outcome>): seq<nat> {
    seq(|h|, i requires 0 <= i < |h| => h[i].batch)
  }

  lemma {:induction false} DistinctBatches(h: seq<Outcome>)
    requires Distinct(h)
    ensures multiset(Completed(h)) == multiset(BatchesOf(h))
    ensures |Completed(h)| == |h|
  {
    if h == [] {
      assert Completed(h) == {};
    } else {
      var front, x := h[..|h| - 1], h[|h| - 1];
      DistinctBatches(front);
      assert h == front + [x];
      CompletedAppend(front, x);
      assert BatchesOf(h) == BatchesOf(front) + [x.batch];
      assert x.batch !in Completed(front);
    }
  }

  /** The numbers 0..n-1. */
  ghost function Below(n: nat): (r: set<nat>)
    ensures forall i: nat :: i in r <==> i < n
  {
    if n == 0 then {} else Below(n - 1) + {n - 1}
  }

  // ---------------------------------------------------------------- bounded memory

  ghost function Interval(a: nat, b: nat): (r: set<nat>)
    ensures forall s: nat :: s in r <==> a <= s <= b
  {
    Below(b + 1) - Below(a)
  }

  lemma {:induction false} IntervalSize(a: nat, b: nat)
    requires a <= b + 1
    ensures |Interval(a, b)| == b + 1 - a
    decreases b + 1 - a
  {
    if a == b + 1 {
      assert Interval(a, b) == {};
    } else {
      IntervalSize(a + 1, b);
      assert Interval(a, b) == Interval(a + 1, b) + {a};
    }
  }

  /** The sequence numbers of the batches in `js`. */
  ghost function Numbers(p: Pipe, js: set<nat>): set<nat> {
    set s | s in Interval(1, |p.accepted|) && Covered(Spans(p.batches), js, s)
  }

  lemma {:induction false} NumbersBound(o: Options, p: Pipe, js: set<nat>)
    requires Batched(o, p) && forall j :: j in js ==> j < |p.batches|
    ensures |Numbers(p, js)| <= |js| * o.batchSize
    decreases js
  {
    if js == {} {
      assert Numbers(p, js) == {};
    } else {
      var j :| j in js;
      var rest := js - {j};
      NumbersBound(o, p, rest);
      NumbersSplit(o, p, js, j);
      Distribute(|rest|, o.batchSize);
    }
  }

  lemma NumbersSplit(o: Options, p: Pipe, js: set<nat>, j: nat)
    requires Batched(o, p) && j in js && j < |p.batches|
    ensures |Numbers(p, js)| <= |Numbers(p, js - {j})| + o.batchSize
  {
    var span, rest := p.batches[j].span, js - {j};
    assert BatchAt(o, p, j);
    var own := Interval(span.first, span.last);
    IntervalSize(span.first, span.last);
    forall s | s in Numbers(p, js) ensures s in Numbers(p, rest) + own {
      var b := Spans(p.batches);
      var i :| i in js && i < |b| && b[i].first <= s <= b[i].last;
      if i != j { assert Covered(b, rest, s); }
    }
    SubsetSize(Numbers(p, js), Numbers(p, rest) + own);
  }

  lemma Distribute(n: nat, size: nat)
    ensures (n + 1) * size == n * size + size
  {
  }

  lemma Scale(n: nat, m: nat, size: nat)
    requires n <= m
    ensures n * size <= m * size
  {
  }

  ghost function Unfinished(p: Pipe): set<nat> {
    set s | s in Interval(1, |p.accepted|) && !Covered(Spans(p.batches), Completed(p.history), s)
  }

  /** Accepted records that have not been through the sinks are bounded by the options. */
  lemma UnfinishedBound(o: Options, p: Pipe)
    requires Good(o, p)
    ensures |Unfinished(p)| <= o.bufferSize + (o.workers + 1) * o.batchSize
  {
    UnfinishedIsLateOrInFlight(o, p);
    LateBound(o, p);
    InFlightBound(o, p);
    Distribute(o.workers, o.batchSize);
    hide *;
    UnionBound(Unfinished(p), Interval(p.first, |p.accepted|), Numbers(p, p.inflight));
  }

  lemma UnionBound(x: set<nat>, a: set<nat>, b: set<nat>)
    requires x <= a + b
    ensures |x| <= |a| + |b|
  {
    SubsetSize(x, a + b);
  }

  lemma LateBound(o: Options, p: Pipe)
    requires Counted(o, p)
    ensures |Interval(p.first, |p.accepted|)| <= o.bufferSize + o.batchSize
  {
    IntervalSize(p.first, |p.accepted|);
  }

  lemma InFlightBound(o: Options, p: Pipe)
    requires Batched(o, p) && Worked(o, p)
    ensures |Numbers(p, p.inflight)| <= o.workers * o.batchSize
  {
    NumbersBound(o, p, p.inflight);
    Scale(|p.inflight|, o.workers, o.batchSize);
  }

  lemma UnfinishedIsLateOrInFlight(o: Options, p: Pipe)
    requires Good(o, p)
    ensures Unfinished(p) <= Interval(p.first, |p.accepted|) + Numbers(p, p.inflight)
  {
    var b, c := Spans(p.batches), Completed(p.history);
    forall s | s in Unfinished(p) && s < p.first ensures s in Numbers(p, p.inflight) {
      var i := TileOf(b, |b|, s);
      assert i in p.inflight;
      assert Covered(b, p.inflight, s);
    }
  }
}
