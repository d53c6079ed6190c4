/** Offsets, polls and acknowledgements of a pull source, and what committing a poll does. */
module Offsets {
  /** A message by its position in the topic. */
  datatype Ref = Ref(part: nat, off: nat)

  /** Positions per partition after reading `refs` from `pos`. */
  function After(pos: seq<nat>, refs: seq<Ref>): (q: seq<nat>)
    ensures |q| == |pos|
  {
    if refs == [] then pos
    else
      var q := After(pos, refs[..|refs| - 1]);
      var r := refs[|refs| - 1];
      if r.part < |q| then q[r.part := r.off + 1] else q
  }

  /** Every partition is read in order and without a gap, starting at `pos`; partitions may
      interleave freely. */
  predicate Contiguous(pos: seq<nat>, refs: seq<Ref>) {
    if refs == [] then true
    else
      var front, r := refs[..|refs| - 1], refs[|refs| - 1];
      Contiguous(pos, front) && r.part < |pos| && After(pos, front)[r.part] == r.off
  }

  lemma {:induction false} ContiguousSplit(pos: seq<nat>, a: seq<Ref>, b: seq<Ref>)
    ensures Contiguous(pos, a + b) <==> Contiguous(pos, a) && Contiguous(After(pos, a), b)
    ensures After(pos, a + b) == After(After(pos, a), b)
  {
    if b == [] {
      assert a + b == a;
    } else {
      assert (a + b)[..|a + b| - 1] == a + b[..|b| - 1];
      ContiguousSplit(pos, a, b[..|b| - 1]);
    }
  }

  /** A contiguous read covers exactly the offsets between its ends. */
  lemma {:induction false} ContiguousCovers(pos: seq<nat>, refs: seq<Ref>, p: nat)
    requires Contiguous(pos, refs) && p < |pos|
    ensures pos[p] <= After(pos, refs)[p]
    ensures forall off :: Ref(p, off) in refs <==> pos[p] <= off < After(pos, refs)[p]
  {
    if refs != [] {
      var front, r := refs[..|refs| - 1], refs[|refs| - 1];
      ContiguousCovers(pos, front, p);
      assert refs == front + [r];
    }
  }

  /** The offset a commit of `refs` names for partition `p`: one past the highest, 0 if untouched. */
  function Highest(refs: seq<Ref>, p: nat): nat {
    if refs == [] then 0
    else
      var h := Highest(refs[..|refs| - 1], p);
      var r := refs[|refs| - 1];
      if r.part == p && r.off + 1 > h then r.off + 1 else h
  }

  lemma {:induction false} HighestIsAfter(pos: seq<nat>, refs: seq<Ref>, p: nat)
    requires Contiguous(pos, refs) && p < |pos|
    ensures Highest(refs, p) > 0 ==> Highest(refs, p) == After(pos, refs)[p]
    ensures Highest(refs, p) == 0 ==> After(pos, refs)[p] == pos[p]
  {
    if refs != [] {
      var front := refs[..|refs| - 1];
      HighestIsAfter(pos, front, p);
      ContiguousCovers(pos, front, p);
    }
  }

  /** It is one of the messages named and none of them is beyond it, in whatever order they come. */
  lemma {:induction false} HighestNamed(refs: seq<Ref>, p: nat)
    ensures Highest(refs, p) > 0 ==> Ref(p, Highest(refs, p) - 1) in refs
    ensures forall r :: r in refs && r.part == p ==> r.off < Highest(refs, p)
  {
    if refs != [] {
      HighestNamed(refs[..|refs| - 1], p);
      assert refs == refs[..|refs| - 1] + [refs[|refs| - 1]];
    }
  }

  /** A commit overwrites the broker's offset of each partition it names; the broker may apply it
      to any subset `eff` of them. */
  function Commit(committed: seq<nat>, refs: seq<Ref>, eff: set<nat>): (c: seq<nat>)
    ensures |c| == |committed|
  {
    seq(|committed|, p requires 0 <= p < |committed| =>
      if p in eff && Highest(refs, p) > 0 then Highest(refs, p) else committed[p])
  }
}

/** The whole at-least-once path: topic and committed offsets, the pull source's poll loop and
    committer, push offers, the pipeline and its sinks, in any interleaving, with crashes. */
module Spine {
  import opened Basics
  import opened Offsets
  import opened Storage
  import opened WatermarkModel
  import opened PipelineModel

  /** What decoding a message yields. */
  datatype Message = Poison | Decoded(row: Row)

  /** One poll awaiting acknowledgement. `upTo` is history: the positions after it. */
  datatype Ack = Ack(number: nat, records: seq<Ref>, upTo: seq<nat>)

  datatype Session = Session(
    open: bool,            // the poll loop is running
    pos: seq<nat>,         // the client's fetch positions
    fetched: seq<Ref>,     // rest of the current poll
    records: seq<Ref>,     // part of the current poll that was offered or skipped
    last: nat,             // highest sequence number of the current poll, 0 if none
    offering: bool,        // the poll loop holds offerMu
    acks: seq<Ack>,        // oldest first: the one the committer waits on, then the channel
    committing: bool,      // the committer is running
    heard: bool,           // ... or it ended on ErrWriteFailed
    start: nat,            // history: records accepted before this session
    safe: seq<nat>,        // history: positions acknowledged so far
    origin: seq<nat>,      // history: the committed offsets this session started from
    polled: seq<Ref>)      // history: everything this session polled

  datatype State = State(pipe: Pipe, ses: Session, log: seq<seq<Message>>, committed: seq<nat>)

  /** `repaired` selects the whole-list scan instead of the head-only one. */
  datatype Config = Config(opts: Options, repaired: bool)

  const ACK_BACKLOG := 64

  datatype Action =
    | Produce(part: nat, msg: Message)
    | PushSend(row: Row)
    | PushCount
    | Fetch(refs: seq<Ref>)
    | SkipPoison
    | PullSend
    | PullCount
    | HandOff
    | StopPolling
    | Acknowledge(eff: set<nat>)
    | Abort
    | Rewind
    | TakeOne
    | FlushPending
    | FinishBatch(batch: nat, replies: seq<Reply>)
    | NextPhase
    | Crash

  function NewSession(committed: seq<nat>, accepted: nat): Session {
    Session(true, committed, [], [], 0, false, [], true, false, accepted, committed, committed, [])
  }

  predicate InLog(log: seq<seq<Message>>, r: Ref) { r.part < |log| && r.off < |log[r.part]| }

  function At(log: seq<seq<Message>>, r: Ref): Message
    requires InLog(log, r)
  {
    log[r.part][r.off]
  }

  function ItemOf(log: seq<seq<Message>>, r: Ref): Item
    requires InLog(log, r) && At(log, r).Decoded?
  {
    Pull(r.part, r.off, At(log, r).row)
  }

  function Ask(c: Config, m: Mark, s: nat): (Answer, Mark) {
    if c.repaired then AwaitAll(m, s) else Await(m, s)
  }

  predicate HeadInLog(st: State) {
    st.ses.open && |st.ses.fetched| > 0 && InLog(st.log, st.ses.fetched[0])
  }

  predicate Enabled(c: Config, st: State, a: Action) {
    var p, s := st.pipe, st.ses;
    match a
    case Produce(part, msg) => part < |st.log| && (msg.Decoded? ==> Keyed(msg.row))
    case PushSend(_) => CanSend(c.opts, p)
    case PushCount => p.lock == Held && !s.offering
    case Fetch(refs) =>
      && s.open && s.fetched == [] && s.records == []
      && Contiguous(s.pos, refs) && forall r :: r in refs ==> InLog(st.log, r)
    case SkipPoison => !s.offering && HeadInLog(st) && At(st.log, s.fetched[0]).Poison?
    case PullSend => !s.offering && HeadInLog(st) && At(st.log, s.fetched[0]).Decoded? && CanSend(c.opts, p)
    case PullCount => s.offering && p.lock == Held && |s.fetched| > 0
    case HandOff => s.open && s.fetched == [] && s.records != [] && |s.acks| <= ACK_BACKLOG
    case StopPolling => s.open && !s.offering
    case Acknowledge(_) => s.committing && |s.acks| > 0 && Ask(c, p.mark, s.acks[0].number).0 != Wait
    case Abort => s.committing
    case Rewind => !s.open && s.heard
    case TakeOne => CanTake(c.opts, p)
    case FlushPending => CanFlush(c.opts, p)
    case FinishBatch(j, replies) => CanFinish(p, j, replies)
    case NextPhase => CanAdvancePhase(p)
    case Crash => true
  }

  function Next(c: Config, st: State, a: Action): State
    requires Enabled(c, st, a)
  {
    var p, s := st.pipe, st.ses;
    match a
    case Produce(part, msg) => st.(log := st.log[part := st.log[part] + [msg]])
    case PushSend(row) => st.(pipe := Send(p, Push(row)))
    case PushCount => st.(pipe := Count(p))
    case Fetch(refs) => st.(ses := s.(fetched := refs, pos := After(s.pos, refs), last := 0, polled := s.polled + refs))
    case SkipPoison => st.(ses := s.(records := s.records + [s.fetched[0]], fetched := s.fetched[1..]))
    case PullSend => st.(pipe := Send(p, ItemOf(st.log, s.fetched[0])), ses := s.(offering := true))
    case PullCount =>
      var p' := Count(p);
      st.(pipe := p',
          ses := s.(offering := false, last := p'.next,
                    records := s.records + [s.fetched[0]], fetched := s.fetched[1..]))
    case HandOff =>
      st.(ses := s.(acks := s.acks + [Ack(s.last, s.records, s.pos)], records := [], last := 0))
    case StopPolling => st.(ses := s.(open := false, fetched := [], records := []))
    case Acknowledge(eff) => Settle(c, st, eff)
    case Abort => st.(ses := s.(committing := false))
    case Rewind => st.(ses := NewSession(st.committed, |p.accepted|))
    case TakeOne => st.(pipe := Take(p))
    case FlushPending => st.(pipe := Flush(p))
    case FinishBatch(j, replies) => st.(pipe := Finish(p, j, replies))
    case NextPhase => st.(pipe := AdvancePhase(p))
    case Crash => st.(pipe := Start(p.stores), ses := NewSession(st.committed, 0))
  }

  /** The committer on its oldest poll: commit if it is written, report and end otherwise. */
  function Settle(c: Config, st: State, eff: set<nat>): State
    requires |st.ses.acks| > 0
  {
    var s, ack := st.ses, st.ses.acks[0];
    var (answer, m) := Ask(c, st.pipe.mark, ack.number);
    match answer
    case Written =>
      st.(ses := s.(acks := s.acks[1..], safe := ack.upTo),
          committed := Commit(st.committed, ack.records, eff))
    case WriteFailed =>
      st.(pipe := st.pipe.(mark := m), ses := s.(committing := false, heard := true))
    case _ => st.(ses := s.(committing := false))
  }

  predicate Initial(c: Config, st: State) {
    && c.opts.Valid()
    && st.pipe == Start(seq(c.opts.sinks, _ => []))
    && st.committed == seq(|st.log|, _ => 0)
    && (forall p :: 0 <= p < |st.log| ==> st.log[p] == [])
    && st.ses == NewSession(st.committed, 0)
  }

  /** A run: the states it passes through, each reached from the one before by an enabled action. */
  ghost predicate Step(c: Config, st: State, st': State) {
    exists a :: Enabled(c, st, a) && st' == Next(c, st, a)
  }

  ghost predicate Run(c: Config, run: seq<State>) {
    && |run| > 0
    && Initial(c, run[0])
    && forall i :: 0 < i < |run| ==> StepAt(c, run, i)
  }

  ghost predicate StepAt(c: Config, run: seq<State>, i: nat)
    requires 0 < i < |run|
  {
    Step(c, run[i - 1], run[i])
  }

  /** The action that led to state `i`. */
  lemma ActionAt(c: Config, run: seq<State>, i: nat) returns (a: Action)
    requires Run(c, run) && 0 < i < |run|
    ensures Enabled(c, run[i - 1], a) && run[i] == Next(c, run[i - 1], a)
  {
    assert StepAt(c, run, i);
    a :| Enabled(c, run[i - 1], a) && run[i] == Next(c, run[i - 1], a);
  }

  // ---------------------------------------------------------------- the invariant

  /** `x` was given sequence number `n`. */
  ghost predicate Numbered(p: Pipe, n: nat, x: Item) {
    1 <= n <= |p.accepted| && p.accepted[n - 1] == x
  }

  /** Message `r` is accounted for by the sequence numbers in (start, number]. */
  ghost predicate Offered(st: State, r: Ref, number: nat) {
    && InLog(st.log, r)
    && (At(st.log, r).Decoded? ==>
      exists n :: st.ses.start < n <= number && Numbered(st.pipe, n, ItemOf(st.log, r)))
  }

  /** Message `r` did not decode, or is in every sink. */
  ghost predicate Secure(st: State, r: Ref) {
    && InLog(st.log, r)
    && (At(st.log, r).Decoded? ==> Holds(st.pipe.stores, ItemOf(st.log, r)))
  }

  ghost function AckStart(s: Session, i: nat): seq<nat>
    requires i <= |s.acks|
  {
    if i == 0 then s.safe else s.acks[i - 1].upTo
  }

  /** Poll `i` continues where poll `i - 1` ended, and its number covers its records. */
  ghost predicate AckAt(st: State, i: nat)
    requires i < |st.ses.acks|
  {
    var ack := st.ses.acks[i];
    && |AckStart(st.ses, i)| == |st.log|
    && Contiguous(AckStart(st.ses, i), ack.records)
    && ack.upTo == After(AckStart(st.ses, i), ack.records)
    && forall r :: r in ack.records ==> Offered(st, r, ack.number)
  }

  ghost predicate Polling(st: State) {
    var s := st.ses;
    var from := AckStart(s, |s.acks|);
    && |from| == |st.log|
    && Contiguous(from, s.records + s.fetched)
    && s.pos == After(from, s.records + s.fetched)
    && (forall r :: r in s.records ==> Offered(st, r, s.last))
    && (forall r :: r in s.fetched ==> InLog(st.log, r))
  }

  ghost predicate Offering(st: State) {
    var p, s := st.pipe, st.ses;
    && s.open && p.lock == Held && |p.accepted| > s.start
    && HeadInLog(st) && At(st.log, s.fetched[0]).Decoded?
    && p.accepted[|p.accepted| - 1] == ItemOf(st.log, s.fetched[0])
  }

  /** While the committer runs, no failure that touches this session has been forgotten. */
  ghost predicate Remembered(p: Pipe, start: nat) {
    forall i :: 0 <= i < |p.history| && !p.history[i].ok && p.history[i].batch < |p.batches|
                && p.batches[p.history[i].batch].span.last > start
                ==> p.batches[p.history[i].batch].span in p.mark.failed
  }

  ghost predicate Positions(st: State) {
    && |st.committed| == |st.ses.safe| == |st.log|
    && (forall p :: 0 <= p < |st.log| ==> st.committed[p] <= st.ses.safe[p] <= |st.log[p]|)
  }

  /** The session has polled every partition without a gap from the committed offsets it started at. */
  ghost predicate NoGap(st: State) {
    var s := st.ses;
    && |s.origin| == |st.log| == |st.committed| && Contiguous(s.origin, s.polled)
    && s.pos == After(s.origin, s.polled)
    && forall p :: 0 <= p < |st.log| ==> s.origin[p] <= st.committed[p]
  }

  /** Everything acknowledged is in every sink. The only part that needs `Written` to be trusted. */
  ghost predicate Secured(st: State) {
    forall r: Ref :: r.part < |st.log| == |st.ses.safe| && r.off < st.ses.safe[r.part] ==> Secure(st, r)
  }

  ghost predicate KeyedLog(log: seq<seq<Message>>) {
    forall r: Ref :: InLog(log, r) && At(log, r).Decoded? ==> Keyed(At(log, r).row)
  }

  ghost predicate SessionGood(st: State) {
    && Positions(st) && NoGap(st) && |st.ses.acks| <= 65
    && st.ses.start <= |st.pipe.accepted|
    && (forall i :: 0 <= i < |st.ses.acks| ==> AckAt(st, i))
    && (st.ses.open ==> Polling(st))
    && (st.ses.offering ==> Offering(st))
    && (st.ses.committing ==> Remembered(st.pipe, st.ses.start))
  }

  ghost predicate Inv(c: Config, st: State) {
    Good(c.opts, st.pipe) && SessionGood(st) && KeyedLog(st.log)
  }

  // ---------------------------------------------------------------- steps of the pipeline

  /** What a pipeline step must not do to a session. */
  ghost predicate Extends(p: Pipe, q: Pipe) {
    && p.accepted <= q.accepted
    && |p.stores| == |q.stores|
    && forall x :: Holds(p.stores, x) ==> Holds(q.stores, x)
  }

  lemma OfferedExtends(st: State, q: Pipe, r: Ref, number: nat)
    requires Offered(st, r, number) && Extends(st.pipe, q)
    ensures Offered(st.(pipe := q), r, number)
  {
    if At(st.log, r).Decoded? {
      var n :| st.ses.start < n <= number && Numbered(st.pipe, n, ItemOf(st.log, r));
      assert Numbered(q, n, ItemOf(st.log, r));
    }
  }

  lemma PipeStepKeeps(st: State, q: Pipe)
    requires SessionGood(st) && Extends(st.pipe, q)
    requires st.ses.offering ==> Offering(st.(pipe := q))
    requires st.ses.committing ==> Remembered(q, st.ses.start)
    ensures SessionGood(st.(pipe := q))
  {
    var st' := st.(pipe := q);
    forall i | 0 <= i < |st'.ses.acks| ensures AckAt(st', i) {
      assert AckAt(st, i);
      forall r | r in st.ses.acks[i].records ensures Offered(st', r, st.ses.acks[i].number) {
        OfferedExtends(st, q, r, st.ses.acks[i].number);
      }
    }
    if st.ses.open {
      forall r | r in st.ses.records ensures Offered(st', r, st.ses.last) {
        OfferedExtends(st, q, r, st.ses.last);
      }
    }
  }

  lemma FinishExtends(p: Pipe, j: nat, replies: seq<Reply>)
    requires CanFinish(p, j, replies)
    ensures Extends(p, Finish(p, j, replies))
  {
    var q := Finish(p, j, replies);
    forall x | Holds(p.stores, x) ensures Holds(q.stores, x) {
      forall k | 0 <= k < |q.stores| ensures x in q.stores[k] { assert x in p.stores[k]; }
    }
  }

  lemma FinishRemembers(p: Pipe, start: nat, j: nat, replies: seq<Reply>)
    requires CanFinish(p, j, replies) && Remembered(p, start)
    ensures Remembered(Finish(p, j, replies), start)
  {
    var q := Finish(p, j, replies);
    forall i | 0 <= i < |q.history| && !q.history[i].ok && q.history[i].batch < |q.batches|
               && q.batches[q.history[i].batch].span.last > start
      ensures q.batches[q.history[i].batch].span in q.mark.failed
    {
      if i < |p.history| {
        assert p.history[i] == q.history[i];
      } else {
        assert q.mark.failed[|p.mark.failed|] == p.batches[j].span;
      }
    }
  }

  lemma FlushRemembers(o: Options, p: Pipe, start: nat)
    requires Worked(o, p) && Remembered(p, start)
    ensures Remembered(Flush(p), start)
  {
    var q := Flush(p);
    forall i | 0 <= i < |q.history|
      ensures q.batches[q.history[i].batch] == p.batches[p.history[i].batch]
    {
      assert p.history[i].batch < |Spans(p.batches)|;
    }
  }

  lemma SendStep(c: Config, st: State, row: Row)
    requires Inv(c, st) && Enabled(c, st, PushSend(row))
    ensures Inv(c, Next(c, st, PushSend(row)))
  {
    SendKeeps(c.opts, st.pipe, Push(row));
    hide Good;
    PipeStepKeeps(st, Send(st.pipe, Push(row)));
  }

  lemma CountStep(c: Config, st: State)
    requires Inv(c, st) && Enabled(c, st, PushCount)
    ensures Inv(c, Next(c, st, PushCount))
  {
    CountKeeps(c.opts, st.pipe);
    hide Good;
    PipeStepKeeps(st, Count(st.pipe));
  }

  /** Steps that send nothing: the batcher's and the workers'. */
  lemma QuietStep(c: Config, st: State, q: Pipe)
    requires Inv(c, st) && Good(c.opts, q) && Extends(st.pipe, q)
    requires q.accepted == st.pipe.accepted && q.lock == st.pipe.lock
    requires st.ses.committing ==> Remembered(q, st.ses.start)
    ensures Inv(c, st.(pipe := q))
  {
    hide Good, Remembered, Extends;
    assert st.ses.offering ==> Offering(st) && Offering(st.(pipe := q));
    PipeStepKeeps(st, q);
  }

  lemma TakeStep(c: Config, st: State)
    requires Inv(c, st) && Enabled(c, st, TakeOne)
    ensures Inv(c, Next(c, st, TakeOne))
  {
    TakeKeeps(c.opts, st.pipe);
    hide Good;
    QuietStep(c, st, Take(st.pipe));
  }

  lemma FlushStep(c: Config, st: State)
    requires Inv(c, st) && Enabled(c, st, FlushPending)
    ensures Inv(c, Next(c, st, FlushPending))
  {
    FlushKeeps(c.opts, st.pipe);
    if st.ses.committing { FlushRemembers(c.opts, st.pipe, st.ses.start); }
    hide Good, Remembered, SessionGood, KeyedLog;
    QuietStep(c, st, Flush(st.pipe));
  }

  lemma FinishStep(c: Config, st: State, j: nat, replies: seq<Reply>)
    requires Inv(c, st) && Enabled(c, st, FinishBatch(j, replies))
    ensures Inv(c, Next(c, st, FinishBatch(j, replies)))
  {
    FinishKeeps(c.opts, st.pipe, j, replies);
    FinishExtends(st.pipe, j, replies);
    if st.ses.committing { FinishRemembers(st.pipe, st.ses.start, j, replies); }
    hide Inv, Good, Remembered, Extends, Complete, Deliver;
    QuietStep(c, st, Finish(st.pipe, j, replies));
  }

  lemma PhaseStep(c: Config, st: State)
    requires Inv(c, st) && Enabled(c, st, NextPhase)
    ensures Inv(c, Next(c, st, NextPhase))
  {
    AdvancePhaseKeeps(c.opts, st.pipe);
    hide Good;
    QuietStep(c, st, AdvancePhase(st.pipe));
  }

  // ---------------------------------------------------------------- steps of the poll loop

  lemma ProduceStep(c: Config, st: State, part: nat, msg: Message)
    requires Inv(c, st) && Enabled(c, st, Produce(part, msg))
    ensures Inv(c, Next(c, st, Produce(part, msg)))
  {
    var st' := Next(c, st, Produce(part, msg));
    assert forall r :: InLog(st.log, r) ==> InLog(st'.log, r) && At(st'.log, r) == At(st.log, r);
    forall i | 0 <= i < |st'.ses.acks| ensures AckAt(st', i) {
      assert AckAt(st, i);
      forall r | r in st.ses.acks[i].records ensures Offered(st', r, st.ses.acks[i].number) {
        OfferedLogGrows(st, st', r, st.ses.acks[i].number);
      }
    }
    if st.ses.open {
      forall r | r in st.ses.records ensures Offered(st', r, st.ses.last) {
        OfferedLogGrows(st, st', r, st.ses.last);
      }
    }
    forall r: Ref | InLog(st'.log, r) && At(st'.log, r).Decoded? ensures Keyed(At(st'.log, r).row) {
      if InLog(st.log, r) { assert At(st.log, r).Decoded?; }
    }
  }

  lemma OfferedLogGrows(st: State, st': State, r: Ref, number: nat)
    requires Offered(st, r, number)
    requires InLog(st'.log, r) && At(st'.log, r) == At(st.log, r)
    requires st'.pipe == st.pipe && st'.ses.start == st.ses.start
    ensures Offered(st', r, number)
  {
    if At(st.log, r).Decoded? {
      var n :| st.ses.start < n <= number && Numbered(st.pipe, n, ItemOf(st.log, r));
      assert Numbered(st'.pipe, n, ItemOf(st'.log, r));
    }
  }

  lemma FetchStep(c: Config, st: State, refs: seq<Ref>)
    requires Inv(c, st) && Enabled(c, st, Fetch(refs))
    ensures Inv(c, Next(c, st, Fetch(refs)))
  {
    var st' := Next(c, st, Fetch(refs));
    assert st.ses.records + st.ses.fetched == [];
    assert [] + refs == refs;
    ContiguousSplit(st.ses.origin, st.ses.polled, refs);
    AcksCarryOver(st, st');
  }

  /** The current poll's head moves from `fetched` to `records`. */
  lemma HeadMoves(s: Session)
    requires |s.fetched| > 0
    ensures (s.records + [s.fetched[0]]) + s.fetched[1..] == s.records + s.fetched
  {
  }

  /** Acks, and everything acknowledged, depend on neither the current poll nor the committer. */
  lemma AcksCarryOver(st: State, st': State)
    requires SessionGood(st)
    requires st'.log == st.log && st'.committed == st.committed && st'.pipe == st.pipe
    requires st'.ses.acks == st.ses.acks && st'.ses.safe == st.ses.safe && st'.ses.start == st.ses.start
    ensures Positions(st') && forall i :: 0 <= i < |st'.ses.acks| ==> AckAt(st', i)
  {
    forall i | 0 <= i < |st'.ses.acks| ensures AckAt(st', i) {
      assert AckAt(st, i);
      forall r | r in st.ses.acks[i].records ensures Offered(st', r, st.ses.acks[i].number) {
        OfferedLogGrows(st, st', r, st.ses.acks[i].number);
      }
    }
  }

  /** So does the current poll if it is left alone. */
  lemma PollCarriesOver(st: State, st': State)
    requires SessionGood(st) && st.ses.open
    requires st'.log == st.log && st'.pipe == st.pipe
    requires st'.ses == st.ses.(offering := st'.ses.offering, committing := st'.ses.committing, heard := st'.ses.heard)
    ensures Polling(st')
  {
    forall r | r in st.ses.records ensures Offered(st', r, st.ses.last) {
      OfferedLogGrows(st, st', r, st.ses.last);
    }
  }

  /** Steps that change nothing but the flags of the committer and of the lock. */
  lemma FlagsCarryOver(st: State, st': State)
    requires SessionGood(st)
    requires st' == st.(ses := st.ses.(offering := st'.ses.offering, committing := st'.ses.committing,
                                       heard := st'.ses.heard))
    requires st'.ses.offering ==> Offering(st')
    requires st'.ses.committing ==> st.ses.committing
    ensures SessionGood(st')
  {
    AcksCarryOver(st, st');
    if st.ses.open { PollCarriesOver(st, st'); }
  }

  lemma SkipStep(c: Config, st: State)
    requires Inv(c, st) && Enabled(c, st, SkipPoison)
    ensures Inv(c, Next(c, st, SkipPoison))
  {
    var st' := Next(c, st, SkipPoison);
    HeadMoves(st.ses);
    AcksCarryOver(st, st');
    forall r | r in st'.ses.records ensures Offered(st', r, st'.ses.last) {
      if r in st.ses.records { OfferedLogGrows(st, st', r, st.ses.last); }
    }
  }

  lemma PullSendStep(c: Config, st: State)
    requires Inv(c, st) && Enabled(c, st, PullSend)
    ensures Inv(c, Next(c, st, PullSend))
  {
    var x := ItemOf(st.log, st.ses.fetched[0]);
    SendKeeps(c.opts, st.pipe, x);
    hide Good;
    PipeStepKeeps(st, Send(st.pipe, x));
    FlagsCarryOver(st.(pipe := Send(st.pipe, x)), Next(c, st, PullSend));
  }

  /** The number the poll loop receives is the position its record was sent to. */
  lemma PullCountStep(c: Config, st: State)
    requires Inv(c, st) && Enabled(c, st, PullCount)
    ensures Inv(c, Next(c, st, PullCount))
  {
    var st' := Next(c, st, PullCount);
    var quiet := st.(ses := st.ses.(offering := false));
    var mid := quiet.(pipe := Count(st.pipe));
    CountKeeps(c.opts, st.pipe);
    assert |st.pipe.accepted| == st.pipe.next + 1;
    hide Good;
    FlagsCarryOver(st, quiet);
    PipeStepKeeps(quiet, Count(st.pipe));
    PullCountRecords(mid, st');
  }

  lemma PullCountRecords(mid: State, st': State)
    requires SessionGood(mid) && mid.ses.open && |mid.ses.fetched| > 0
    requires HeadInLog(mid) && At(mid.log, mid.ses.fetched[0]).Decoded? && mid.ses.start < |mid.pipe.accepted|
    requires Numbered(mid.pipe, |mid.pipe.accepted|, ItemOf(mid.log, mid.ses.fetched[0]))
    requires st' == mid.(ses := mid.ses.(last := |mid.pipe.accepted|, fetched := mid.ses.fetched[1..],
                                         records := mid.ses.records + [mid.ses.fetched[0]]))
    requires !mid.ses.offering
    ensures SessionGood(st')
  {
    AcksCarryOver(mid, st');
    HeadMoves(mid.ses);
    forall r | r in st'.ses.records ensures Offered(st', r, st'.ses.last) {
      if r in mid.ses.records {
        OfferedLogGrows(mid, st', r, mid.ses.last);
        LastGrows(st', r, mid.ses.last, st'.ses.last);
      }
    }
  }

  lemma LastGrows(st: State, r: Ref, number: nat, number': nat)
    requires Offered(st, r, number)
    requires number' >= |st.pipe.accepted|
    ensures Offered(st, r, number')
  {
  }

  lemma HandOffStep(c: Config, st: State)
    requires Inv(c, st) && Enabled(c, st, HandOff)
    ensures Inv(c, Next(c, st, HandOff))
  {
    var st' := Next(c, st, HandOff);
    var s, s' := st.ses, st'.ses;
    assert s.records + s.fetched == s.records;
    forall i | 0 <= i < |s'.acks| ensures AckAt(st', i) {
      if i < |s.acks| { assert AckAt(st, i); }
      assert AckStart(s', i) == AckStart(s, i);
      forall r | r in s'.acks[i].records ensures Offered(st', r, s'.acks[i].number) {
        OfferedLogGrows(st, st', r, s'.acks[i].number);
      }
    }
    assert s'.records + s'.fetched == [];
  }

  lemma StopStep(c: Config, st: State)
    requires Inv(c, st) && Enabled(c, st, StopPolling)
    ensures Inv(c, Next(c, st, StopPolling))
  {
    AcksCarryOver(st, Next(c, st, StopPolling));
  }

  lemma AbortStep(c: Config, st: State)
    requires Inv(c, st) && Enabled(c, st, Abort)
    ensures Inv(c, Next(c, st, Abort))
  {
    FlagsCarryOver(st, Next(c, st, Abort));
  }

  /** A new session starts from the committed offsets, and no failure reported or pending before it
      can reach a record it will offer. */
  lemma FreshSession(c: Config, st: State, q: Pipe, st': State)
    requires Positions(st) && KeyedLog(st.log)
    requires Good(c.opts, q) && q.stores == st.pipe.stores
    requires st' == st.(pipe := q, ses := NewSession(st.committed, |q.accepted|))
    ensures Inv(c, st')
  {
    forall i | 0 <= i < |q.history| && !q.history[i].ok && q.history[i].batch < |q.batches|
      ensures q.batches[q.history[i].batch].span.last <= |q.accepted|
    {
      assert BatchAt(c.opts, q, q.history[i].batch);
    }
  }

  // ---------------------------------------------------------------- steps of the committer

  lemma AcknowledgeStep(c: Config, st: State, eff: set<nat>)
    requires Inv(c, st) && Enabled(c, st, Acknowledge(eff))
    ensures Inv(c, Next(c, st, Acknowledge(eff)))
  {
    var (answer, _) := Ask(c, st.pipe.mark, st.ses.acks[0].number);
    match answer
    case Written => CommitStep(c, st, eff);
    case WriteFailed => ReportStep(c, st, eff);
    case Canceled => FlagsCarryOver(st, Settle(c, st, eff));
  }

  lemma ReportStep(c: Config, st: State, eff: set<nat>)
    requires Inv(c, st) && |st.ses.acks| > 0
    requires Ask(c, st.pipe.mark, st.ses.acks[0].number).0 == WriteFailed
    ensures Inv(c, Settle(c, st, eff))
  {
    var m := Ask(c, st.pipe.mark, st.ses.acks[0].number).1;
    ReportShortens(c, st.pipe.mark, st.ses.acks[0].number);
    hide Good, Remembered, Ask, Contiguous, After;
    ReportKeeps(c.opts, st.pipe, m);
    var quiet := st.(ses := st.ses.(committing := false, heard := true));
    FlagsCarryOver(st, quiet);
    PipeStepKeeps(quiet, st.pipe.(mark := m));
  }

  lemma ReportShortens(c: Config, m: Mark, n: nat)
    ensures var m' := Ask(c, m, n).1;
            m' == m.(failed := m'.failed) && forall f :: f in m'.failed ==> f in m.failed
  {
  }

  /** What a report forgets reaches no record that is still to be offered, so no later session. */
  lemma ReportForgetsOldRecordsOnly(c: Config, st: State, eff: set<nat>, f: Span)
    requires Inv(c, st) && |st.ses.acks| > 0
    requires f in st.pipe.mark.failed && f !in Settle(c, st, eff).pipe.mark.failed
    ensures Settle(c, st, eff).ses.heard && !Settle(c, st, eff).ses.committing
    ensures f.last <= |st.pipe.accepted|
  {
    var p := st.pipe;
    assert WasRejected(p, f);
    var i :| 0 <= i < |p.history| && !p.history[i].ok && p.history[i].batch < |p.batches|
             && f == p.batches[p.history[i].batch].span;
    assert BatchAt(c.opts, p, p.history[i].batch);
  }

  /** The committer is told that its oldest poll is written. */
  ghost predicate Commits(c: Config, st: State) {
    st.ses.committing && |st.ses.acks| > 0 && Ask(c, st.pipe.mark, st.ses.acks[0].number).0 == Written
  }

  lemma CommitStep(c: Config, st: State, eff: set<nat>)
    requires Inv(c, st) && Commits(c, st)
    ensures Inv(c, Settle(c, st, eff))
  {
    CommitPositions(c, st, eff);
    CommitAcks(c, st, eff);
    hide Good, Ask, Contiguous, After, Commit;
  }

  lemma CommitPositions(c: Config, st: State, eff: set<nat>)
    requires Inv(c, st) && Commits(c, st)
    ensures Positions(Settle(c, st, eff)) && NoGap(Settle(c, st, eff))
  {
    var st' := Settle(c, st, eff);
    assert AckAt(st, 0);
    forall p | 0 <= p < |st.log|
      ensures st'.ses.origin[p] <= st'.committed[p] <= st'.ses.safe[p] <= |st.log[p]|
    {
      CommitAdvances(c, st, eff, p);
    }
    hide Good, Ask;
  }

  /** Committed offsets never go back, and never overtake what is acknowledged. */
  lemma CommitAdvances(c: Config, st: State, eff: set<nat>, p: nat)
    requires Inv(c, st) && Commits(c, st) && p < |st.log|
    ensures var st' := Settle(c, st, eff);
            && |st'.ses.safe| == |st.log|
            && st.committed[p] <= st'.committed[p] <= st'.ses.safe[p] <= |st.log[p]|
  {
    var ack := st.ses.acks[0];
    assert AckAt(st, 0);
    HighestIsAfter(st.ses.safe, ack.records, p);
    ContiguousCovers(st.ses.safe, ack.records, p);
    if st.ses.safe[p] < ack.upTo[p] {
      var r := Ref(p, ack.upTo[p] - 1);
      assert r in ack.records;
      assert Offered(st, r, ack.number);
    }
  }

  /** A commit that takes effect on a partition the poll touched reaches exactly the end of the poll
      there; the other partitions stay where they are. */
  lemma CommitExact(c: Config, st: State, eff: set<nat>, p: nat)
    requires Inv(c, st) && Commits(c, st) && p < |st.log|
    ensures var st' := Settle(c, st, eff);
            && |st'.committed| == |st'.ses.safe| == |st.log|
            && st'.committed[p] ==
               if p in eff && st'.ses.safe[p] != st.ses.safe[p] then st'.ses.safe[p] else st.committed[p]
  {
    var ack := st.ses.acks[0];
    assert AckAt(st, 0);
    HighestIsAfter(st.ses.safe, ack.records, p);
    HighestNamed(ack.records, p);
    ContiguousCovers(st.ses.safe, ack.records, p);
    if Highest(ack.records, p) > 0 { assert Ref(p, Highest(ack.records, p) - 1) in ack.records; }
  }

  /** With commits that reach every partition, what is acknowledged is committed. */
  lemma FullCommitReaches(c: Config, st: State, eff: set<nat>)
    requires Inv(c, st) && Commits(c, st) && st.committed == st.ses.safe
    requires forall p :: 0 <= p < |st.log| ==> p in eff
    ensures Settle(c, st, eff).committed == Settle(c, st, eff).ses.safe
  {
    var st' := Settle(c, st, eff);
    assert AckAt(st, 0);
    forall p | 0 <= p < |st.log| ensures st'.committed[p] == st'.ses.safe[p] { CommitExact(c, st, eff, p); }
  }

  lemma CommitAcks(c: Config, st: State, eff: set<nat>)
    requires SessionGood(st) && Commits(c, st)
    ensures var st' := Settle(c, st, eff);
            && (forall i :: 0 <= i < |st'.ses.acks| ==> AckAt(st', i))
            && (st'.ses.open ==> Polling(st'))
  {
    var st' := Settle(c, st, eff);
    var s, s' := st.ses, st'.ses;
    forall i | 0 <= i < |s'.acks| ensures AckAt(st', i) {
      assert AckAt(st, i + 1);
      assert AckStart(s', i) == AckStart(s, i + 1);
      forall r | r in s'.acks[i].records ensures Offered(st', r, s'.acks[i].number) {
        OfferedLogGrows(st, st', r, s'.acks[i].number);
      }
    }
    if s.open {
      assert AckStart(s', |s'.acks|) == AckStart(s, |s.acks|);
      forall r | r in s.records ensures Offered(st', r, s.last) { OfferedLogGrows(st, st', r, s.last); }
    }
  }

  // ---------------------------------------------------------------- every step of every run

  lemma RewindStep(c: Config, st: State)
    requires Inv(c, st) && Enabled(c, st, Rewind)
    ensures Inv(c, Next(c, st, Rewind))
  {
    FreshSession(c, st, st.pipe, Next(c, st, Rewind));
  }

  lemma CrashStep(c: Config, st: State)
    requires Inv(c, st)
    ensures Inv(c, Next(c, st, Crash))
  {
    StartIsGood(c.opts, st.pipe.stores);
    FreshSession(c, st, Start(st.pipe.stores), Next(c, st, Crash));
  }

  lemma StepKeeps(c: Config, st: State, a: Action)
    requires Inv(c, st) && Enabled(c, st, a)
    ensures Inv(c, Next(c, st, a))
  {
    hide Inv, Enabled, Next;
    match a
    case Produce(part, msg) => ProduceStep(c, st, part, msg);
    case Fetch(refs) => FetchStep(c, st, refs);
    case SkipPoison => SkipStep(c, st);
    case PullSend => PullSendStep(c, st);
    case PullCount => PullCountStep(c, st);
    case HandOff => HandOffStep(c, st);
    case StopPolling => StopStep(c, st);
    case Acknowledge(eff) => AcknowledgeStep(c, st, eff);
    case Abort => AbortStep(c, st);
    case Rewind => RewindStep(c, st);
    case Crash => CrashStep(c, st);
    case PushSend(row) => SendStep(c, st, row);
    case PushCount => CountStep(c, st);
    case TakeOne => TakeStep(c, st);
    case FlushPending => FlushStep(c, st);
    case FinishBatch(j, replies) => FinishStep(c, st, j, replies);
    case NextPhase => PhaseStep(c, st);
  }

  /** The invariant holds in every state of every run, with either scan and any number of workers. */
  lemma {:induction false} RunKeeps(c: Config, run: seq<State>, i: nat)
    requires Run(c, run) && i < |run|
    ensures Inv(c, run[i])
  {
    if i == 0 {
      StartIsGood(c.opts, run[0].pipe.stores);
    } else {
      RunKeeps(c, run, i - 1);
      var a := ActionAt(c, run, i);
      StepKeeps(c, run[i - 1], a);
    }
  }

  lemma StepAdvances(c: Config, st: State, a: Action, p: nat)
    requires Inv(c, st) && Enabled(c, st, a) && p < |st.log|
    ensures var st' := Next(c, st, a);
            |st'.log| == |st.log| == |st'.committed| && st.committed[p] <= st'.committed[p]
  {
    if a.Acknowledge? && Commits(c, st) { CommitAdvances(c, st, a.eff, p); }
  }

  lemma RunAdvances(c: Config, run: seq<State>, j: nat, p: nat)
    requires Run(c, run) && j + 1 < |run| && p < |run[j].log|
    ensures |run[j + 1].committed| == |run[j + 1].log| == |run[j].log| == |run[j].committed|
    ensures run[j].committed[p] <= run[j + 1].committed[p]
  {
    RunKeeps(c, run, j);
    var a := ActionAt(c, run, j + 1);
    StepAdvances(c, run[j], a, p);
  }

  lemma RunPositions(c: Config, run: seq<State>, i: nat)
    requires Run(c, run) && i < |run|
    ensures Positions(run[i])
  {
    hide Run, Inv;
    RunKeeps(c, run, i);
    InvPositions(c, run[i]);
  }

  /** Committed offsets never decrease, across rewinds, failed commits and crashes. */
  lemma {:induction false} CommittedNeverDecreases(c: Config, run: seq<State>, i: nat, j: nat, p: nat)
    requires Run(c, run) && i <= j < |run| && p < |run[i].log|
    ensures |run[j].committed| == |run[j].log| == |run[i].log| == |run[i].committed|
    ensures run[i].committed[p] <= run[j].committed[p]
    decreases j - i
  {
    hide Run;
    if i == j {
      RunPositions(c, run, i);
    } else {
      CommittedNeverDecreases(c, run, i, j - 1, p);
      RunAdvances(c, run, j - 1, p);
    }
  }

  /** From one state to the next by an action that, if it commits, commits on every partition. */
  ghost predicate FullStep(c: Config, st: State, st': State) {
    exists a :: Enabled(c, st, a) && st' == Next(c, st, a)
                && (a.Acknowledge? ==> forall p :: 0 <= p < |st.log| ==> p in a.eff)
  }

  ghost predicate CommitsSucceed(c: Config, run: seq<State>) {
    forall i :: 0 < i < |run| ==> FullStepAt(c, run, i)
  }

  ghost predicate FullStepAt(c: Config, run: seq<State>, i: nat)
    requires 0 < i < |run|
  {
    FullStep(c, run[i - 1], run[i])
  }

  /** Progress is not lost: if no commit fails, then in every state the committed offsets are exactly
      the positions acknowledged, on every partition. */
  lemma {:induction false} CommittedIsAcknowledged(c: Config, run: seq<State>, i: nat)
    requires Run(c, run) && CommitsSucceed(c, run) && i < |run|
    ensures run[i].committed == run[i].ses.safe
  {
    if i > 0 {
      CommittedIsAcknowledged(c, run, i - 1);
      RunKeeps(c, run, i - 1);
      assert FullStepAt(c, run, i);
      var st := run[i - 1];
      var a :| Enabled(c, st, a) && run[i] == Next(c, st, a)
               && (a.Acknowledge? ==> forall p :: 0 <= p < |st.log| ==> p in a.eff);
      hide Run, Inv, Next, Enabled;
      AcknowledgedStep(c, st, a);
    }
  }

  lemma AcknowledgedStep(c: Config, st: State, a: Action)
    requires Inv(c, st) && Enabled(c, st, a) && st.committed == st.ses.safe
    requires a.Acknowledge? ==> forall p :: 0 <= p < |st.log| ==> p in a.eff
    ensures Next(c, st, a).committed == Next(c, st, a).ses.safe
  {
    hide Inv;
    if a.Acknowledge? && Commits(c, st) { FullCommitReaches(c, st, a.eff); }
  }

  /** A rewind and a restart begin where the offsets are committed. */
  lemma ResumesFromCommitted(c: Config, st: State, a: Action)
    requires Enabled(c, st, a) && (a.Rewind? || a.Crash?)
    ensures var st' := Next(c, st, a);
            && st'.committed == st.committed && st'.ses.origin == st'.ses.pos == st'.ses.safe == st.committed
            && st'.ses.polled == [] && st'.ses.acks == [] && st'.ses.open && st'.ses.committing
  {
  }

  /** ... and in every state of every run the session has polled exactly the messages from there to
      its position: a rewind leaves no gap. */
  lemma PolledFromCommitted(c: Config, run: seq<State>, i: nat, r: Ref)
    requires Run(c, run) && i < |run| && r.part < |run[i].log|
    ensures |run[i].ses.origin| == |run[i].ses.pos| == |run[i].log|
    ensures r in run[i].ses.polled <==> run[i].ses.origin[r.part] <= r.off < run[i].ses.pos[r.part]
    ensures |run[i].committed| == |run[i].log| && run[i].ses.origin[r.part] <= run[i].committed[r.part]
  {
    RunKeeps(c, run, i);
    ContiguousCovers(run[i].ses.origin, run[i].ses.polled, r.part);
    assert Ref(r.part, r.off) == r;
  }

  /** In state `j` the committer's oldest poll is told of a failure. */
  ghost predicate Fails(c: Config, st: State) {
    |st.ses.acks| > 0 && Ask(c, st.pipe.mark, st.ses.acks[0].number).0 == WriteFailed
  }

  ghost predicate SameSession(s: Session, s': Session) { s.origin == s'.origin && s.start == s'.start }

  lemma HeardStep(c: Config, st: State, a: Action)
    requires Enabled(c, st, a) && Next(c, st, a).ses.heard
    ensures SameSession(st.ses, Next(c, st, a).ses) && (st.ses.heard || Fails(c, st))
  {
  }

  /** Only a reported write failure makes a session rewind: from a state in which it may, there is an
      earlier state of the same session in which its oldest poll was told of one. */
  lemma {:induction false} RewindNeedsFailure(c: Config, run: seq<State>, i: nat) returns (j: nat)
    requires Run(c, run) && i < |run| && (run[i].ses.heard || Enabled(c, run[i], Rewind))
    ensures j < i && Fails(c, run[j]) && SameSession(run[j].ses, run[i].ses)
  {
    assert run[i].ses.heard;
    var a := ActionAt(c, run, i);
    HeardStep(c, run[i - 1], a);
    hide Run, Next, Enabled;
    if Fails(c, run[i - 1]) { j := i - 1; } else { j := RewindNeedsFailure(c, run, i - 1); }
  }

  // ---------------------------------------------------------------- at least once

  /** The answer `Written` can be trusted: nothing at or below `n` is pending. */
  ghost predicate Trustworthy(c: Config, m: Mark, n: nat) {
    Ask(c, m, n).0 == Written ==> forall f :: f in m.failed ==> f.first > n
  }

  /** The heart of it: a poll whose number is written, with no failure pending at or below it, is
      in every sink, although later polls and other sources share its batches. */
  lemma PollIsSecure(c: Config, st: State, r: Ref)
    requires Inv(c, st) && Commits(c, st) && Trustworthy(c, st.pipe.mark, st.ses.acks[0].number)
    requires r in st.ses.acks[0].records
    ensures Secure(st, r)
  {
    var p, ack := st.pipe, st.ses.acks[0];
    assert AckAt(st, 0);
    assert Offered(st, r, ack.number);
    if At(st.log, r).Decoded? {
      var n :| st.ses.start < n <= ack.number && Numbered(p, n, ItemOf(st.log, r));
      forall i | 0 <= i < |p.history| && !p.history[i].ok && p.history[i].batch < |p.batches|
        ensures !(p.batches[p.history[i].batch].span.first <= n <= p.batches[p.history[i].batch].span.last)
      {
        var span := p.batches[p.history[i].batch].span;
        assert span.last > st.ses.start ==> span in p.mark.failed;
      }
      WrittenIsStored(c.opts, p, n);
    }
  }

  lemma CommitSecures(c: Config, st: State, eff: set<nat>)
    requires Inv(c, st) && Secured(st)
    requires Commits(c, st) && Trustworthy(c, st.pipe.mark, st.ses.acks[0].number)
    ensures Secured(Settle(c, st, eff))
  {
    var st', ack := Settle(c, st, eff), st.ses.acks[0];
    assert AckAt(st, 0);
    forall r: Ref | r.part < |st'.log| && r.off < st'.ses.safe[r.part] ensures Secure(st', r) {
      if r.off >= st.ses.safe[r.part] {
        ContiguousCovers(st.ses.safe, ack.records, r.part);
        assert Ref(r.part, r.off) == r;
        PollIsSecure(c, st, r);
      }
      assert Secure(st, r);
    }
  }

  /** What is secure stays secure as logs and sinks grow. */
  lemma SecuredExtends(st: State, st': State)
    requires Secured(st) && Positions(st) && Positions(st')
    requires forall r :: InLog(st.log, r) ==> InLog(st'.log, r) && At(st'.log, r) == At(st.log, r)
    requires forall x :: Holds(st.pipe.stores, x) ==> Holds(st'.pipe.stores, x)
    requires |st'.log| == |st.log| && forall p :: 0 <= p < |st.log| ==> st'.ses.safe[p] <= st.ses.safe[p]
    ensures Secured(st')
  {
    forall r: Ref | r.part < |st'.log| && r.off < st'.ses.safe[r.part] ensures Secure(st', r) {
      assert Secure(st, r);
    }
  }

  lemma StepSecures(c: Config, st: State, a: Action)
    requires Inv(c, st) && Secured(st) && Enabled(c, st, a)
    requires a.Acknowledge? ==> Trustworthy(c, st.pipe.mark, st.ses.acks[0].number)
    ensures Secured(Next(c, st, a))
  {
    hide Inv, Secured;
    if a.Acknowledge? && Commits(c, st) {
      CommitSecures(c, st, a.eff);
    } else {
      StepGrows(c, st, a);
      SecuredExtends(st, Next(c, st, a));
    }
  }

  /** Apart from commits, no step acknowledges anything, and logs and sinks only grow. */
  lemma StepGrows(c: Config, st: State, a: Action)
    requires Inv(c, st) && Enabled(c, st, a) && !(a.Acknowledge? && Commits(c, st))
    ensures var st' := Next(c, st, a);
            && Positions(st) && Positions(st') && |st'.log| == |st.log|
            && (forall r :: InLog(st.log, r) ==> InLog(st'.log, r) && At(st'.log, r) == At(st.log, r))
            && (forall x :: Holds(st.pipe.stores, x) ==> Holds(st'.pipe.stores, x))
            && (forall p :: 0 <= p < |st.log| ==> st'.ses.safe[p] <= st.ses.safe[p])
  {
    hide Inv;
    StepKeeps(c, st, a);
    InvPositions(c, st);
    InvPositions(c, Next(c, st, a));
    if a.FinishBatch? {
      FinishExtends(st.pipe, a.batch, a.replies);
    }
  }

  lemma InvPositions(c: Config, st: State)
    requires Inv(c, st)
    ensures Positions(st)
  {
  }

  /** Throughout the run, no failure that the watermark has passed hides behind a younger one:
      exactly the states in which the head-only scan answers soundly. */
  ghost predicate HeadsOldest(run: seq<State>) {
    forall i :: 0 <= i < |run| ==> HeadIsOldest(run[i].pipe.mark)
  }

  lemma HeadIsTrustworthy(c: Config, m: Mark, n: nat)
    requires c.repaired || HeadIsOldest(m)
    ensures Trustworthy(c, m, n)
  {
    if !c.repaired {
      SoundIffHeadIsOldest(m);
      assert Sound(m, n);
    }
  }

  lemma {:induction false} RunSecures(c: Config, run: seq<State>, i: nat)
    requires Run(c, run) && i < |run|
    requires c.repaired || HeadsOldest(run)
    ensures Secured(run[i])
  {
    if i == 0 {
      InitialSecured(c, run[0]);
    } else {
      hide Run, Inv, Secured, Next, Enabled, HeadIsOldest;
      RunSecures(c, run, i - 1);
      RunKeeps(c, run, i - 1);
      var a := ActionAt(c, run, i);
      SecuredNext(c, run[i - 1], a);
    }
  }

  lemma InitialSecured(c: Config, st: State)
    requires Initial(c, st)
    ensures Secured(st)
  {
  }

  lemma SecuredNext(c: Config, st: State, a: Action)
    requires Inv(c, st) && Secured(st) && Enabled(c, st, a) && (c.repaired || HeadIsOldest(st.pipe.mark))
    ensures Secured(Next(c, st, a))
  {
    hide Inv, Secured, Next, Trustworthy, HeadIsOldest;
    if a.Acknowledge? { HeadIsTrustworthy(c, st.pipe.mark, st.ses.acks[0].number); }
    StepSecures(c, st, a);
  }

  /** At least once: in every run, of any length and interleaving, every message below a committed
      offset either did not decode or is in every sink. The repaired scan needs no hypothesis. */
  lemma AtLeastOnce(c: Config, run: seq<State>, i: nat, r: Ref)
    requires Run(c, run) && i < |run|
    requires c.repaired || HeadsOldest(run)
    requires r.part < |run[i].committed| && r.off < run[i].committed[r.part]
    ensures Secure(run[i], r)
  {
    RunKeeps(c, run, i);
    RunSecures(c, run, i);
  }

  // ---------------------------------------------------------------- when the head is oldest

  /** Failed batches complete in sequence order throughout the run. */
  ghost predicate InOrder(run: seq<State>) {
    forall i :: 0 <= i < |run| ==> FailuresInOrder(run[i].pipe.history)
  }

  lemma StepSorted(c: Config, st: State, a: Action)
    requires Good(c.opts, st.pipe) && Enabled(c, st, a)
    requires Sorted(st.pipe.mark.failed) && FailuresInOrder(Next(c, st, a).pipe.history)
    ensures Sorted(Next(c, st, a).pipe.mark.failed)
  {
    if a.FinishBatch? {
      FinishSorted(c.opts, st.pipe, a.batch, a.replies);
    } else {
      FailedAfter(c, st, a);
      hide Good, Next, Enabled;
      if a.Acknowledge? { BeyondSorted(st.pipe.mark.failed, st.ses.acks[0].number); }
    }
  }

  lemma FailedAfter(c: Config, st: State, a: Action)
    requires Enabled(c, st, a) && !a.FinishBatch?
    ensures var before, after := st.pipe.mark.failed, Next(c, st, a).pipe.mark.failed;
            after == before || after == [] ||
            (a.Acknowledge? && |st.ses.acks| > 0 && after == Beyond(before, st.ses.acks[0].number))
  {
    hide Beyond, Advance, Contiguous, After, Commit, Highest;
  }

  lemma {:induction false} RunSorted(c: Config, run: seq<State>, i: nat)
    requires Run(c, run) && i < |run| && InOrder(run)
    ensures Sorted(run[i].pipe.mark.failed)
  {
    if i > 0 {
      hide Run, Good, Next, Enabled;
      RunSorted(c, run, i - 1);
      RunKeeps(c, run, i - 1);
      var a := ActionAt(c, run, i);
      StepSorted(c, run[i - 1], a);
    }
  }

  /** With any number of workers, failures that complete in order are enough. */
  lemma InOrderSuffices(c: Config, run: seq<State>)
    requires Run(c, run) && InOrder(run)
    ensures HeadsOldest(run)
  {
    forall i | 0 <= i < |run| ensures HeadIsOldest(run[i].pipe.mark) {
      RunSorted(c, run, i);
    }
  }

  lemma FlushOrderStep(c: Config, st: State, a: Action)
    requires InFlushOrder(st.pipe) && Enabled(c, st, a) && c.opts.workers == 1
    ensures InFlushOrder(Next(c, st, a).pipe)
  {
    if a.FlushPending? {
      FlushOneWorker(c.opts, st.pipe);
    } else if a.FinishBatch? {
      FinishOneWorker(st.pipe, a.batch, a.replies);
    } else {
      var p, q := st.pipe, Next(c, st, a).pipe;
      assert a.Crash? || (q.batches == p.batches && q.history == p.history && q.inflight == p.inflight);
    }
  }

  lemma {:induction false} OneWorkerFlushOrder(c: Config, run: seq<State>, i: nat)
    requires Run(c, run) && i < |run| && c.opts.workers == 1
    ensures InFlushOrder(run[i].pipe)
  {
    if i > 0 {
      var st := run[i - 1];
      OneWorkerFlushOrder(c, run, i - 1);
      var a := ActionAt(c, run, i);
      FlushOrderStep(c, st, a);
    }
  }

  /** One worker needs no hypothesis: its batches complete in flush order. */
  lemma OneWorkerSuffices(c: Config, run: seq<State>)
    requires Run(c, run) && c.opts.workers == 1
    ensures HeadsOldest(run)
  {
    forall j | 0 <= j < |run| ensures FailuresInOrder(run[j].pipe.history) {
      OneWorkerFlushOrder(c, run, j);
    }
    InOrderSuffices(c, run);
  }

  // ---------------------------------------------------------------- shutdown

  /** Nothing was sent since the drain loop ended. */
  ghost predicate NothingLate(p: Pipe) { p.phase in {Flushing, Stopped} ==> p.drained == |p.accepted| }

  /** No offer enters from state `i` to state `j`. */
  ghost predicate OffersOver(run: seq<State>, i: nat, j: nat)
    requires i <= j < |run|
  {
    forall k :: i <= k <= j ==> run[k].pipe.accepted == run[i].pipe.accepted
  }

  lemma LateStep(c: Config, st: State, a: Action)
    requires Enabled(c, st, a) && NothingLate(st.pipe) && Next(c, st, a).pipe.accepted == st.pipe.accepted
    ensures NothingLate(Next(c, st, a).pipe)
  {
  }

  lemma {:induction false} NothingLateInRun(c: Config, run: seq<State>, i: nat, j: nat)
    requires Run(c, run) && i <= j < |run| && OffersOver(run, i, j)
    requires run[i].pipe.phase in {Running, Draining}
    ensures NothingLate(run[j].pipe)
    decreases j - i
  {
    if i < j {
      NothingLateInRun(c, run, i, j - 1);
      var a := ActionAt(c, run, j);
      LateStep(c, run[j - 1], a);
    }
  }

  /** If offers end before the drain loop does, as they do when sources are stopped first, then by
      the time `Run` returns every accepted record went to the sinks exactly once: the batches are
      the accepted records in order, each batch was written once, and a sink that rejected none has
      each record once more than when the process started. */
  lemma ShutdownHandsOverEverything(c: Config, run: seq<State>, i: nat, j: nat)
    requires Run(c, run) && i <= j < |run| && OffersOver(run, i, j)
    requires run[i].pipe.phase in {Running, Draining} && run[j].pipe.phase == Stopped
    ensures var p := run[j].pipe;
            && p.buf == [] && p.pending == [] && p.inflight == {}
            && Items(p.batches) == p.accepted
            && multiset(BatchesOf(p.history)) == multiset(Below(|p.batches|))
            && forall s :: 1 <= s <= |p.accepted| ==> Covered(Spans(p.batches), Completed(p.history), s)
    ensures var p := run[j].pipe;
            && |p.base| == |p.stores|
            && forall k :: 0 <= k < |p.stores| && RejectedNothing(p, k) ==>
                 multiset(p.stores[k]) == multiset(p.base[k]) + multiset(p.accepted)
  {
    RunKeeps(c, run, j);
    NothingLateInRun(c, run, i, j);
    var p := run[j].pipe;
    StoppedMeansHandedOver(c.opts, p);
    hide Run;
    forall k | 0 <= k < |p.stores| && RejectedNothing(p, k)
      ensures multiset(p.stores[k]) == multiset(p.base[k]) + multiset(p.accepted)
    {
      StoppedSinkHoldsOnce(c.opts, p, k);
      assert p.accepted[..p.drained] == p.accepted;
    }
  }

  ghost predicate RejectedNothing(p: Pipe, k: nat) {
    forall i :: 0 <= i < |p.replies| ==> Took(p.replies[i], k)
  }

  ghost predicate CalmStep(c: Config, st: State, st': State) {
    exists a :: Enabled(c, st, a) && st' == Next(c, st, a) && !a.Crash?
  }

  ghost predicate CalmStepAt(c: Config, run: seq<State>, i: nat)
    requires 0 < i < |run|
  {
    CalmStep(c, run[i - 1], run[i])
  }

  ghost predicate CrashFree(c: Config, run: seq<State>) {
    forall i :: 0 < i < |run| ==> CalmStepAt(c, run, i)
  }

  lemma {:induction false} CrashFreeBase(c: Config, run: seq<State>, i: nat)
    requires Run(c, run) && CrashFree(c, run) && i < |run|
    ensures run[i].pipe.base == run[0].pipe.base
  {
    if i > 0 {
      CrashFreeBase(c, run, i - 1);
      assert CalmStepAt(c, run, i);
      var a :| Enabled(c, run[i - 1], a) && run[i] == Next(c, run[i - 1], a) && !a.Crash?;
      hide Run, Next, Enabled;
      BaseStep(c, run[i - 1], a);
    }
  }

  lemma BaseStep(c: Config, st: State, a: Action)
    requires Enabled(c, st, a) && !a.Crash?
    ensures Next(c, st, a).pipe.base == st.pipe.base
  {
  }

  /** In every state of a run without a crash, each sink holds the records of the batches it took,
      once each and nothing else. */
  lemma SinksHoldOnce(c: Config, run: seq<State>, i: nat, k: nat)
    requires Run(c, run) && CrashFree(c, run) && i < |run| && k < |run[i].pipe.stores|
    ensures |run[i].pipe.replies| == |run[i].pipe.history|
    ensures var p := run[i].pipe; multiset(p.stores[k]) == ItemsIn(p.batches, TakenBy(p.history, p.replies, k))
  {
    RunKeeps(c, run, i);
    CrashFreeBase(c, run, i);
    SinkHoldsOnce(c.opts, run[i].pipe, k);
    assert run[0].pipe.base[k] == [];
  }

  // ---------------------------------------------------------------- exactly one row

  /** What a conflict-tolerant sink holds after the writes it stored. */
  ghost function TableOf(store: seq<Item>): seq<Row> { InsertAll([], RowsIn(store)) }

  ghost function RowsIn(store: seq<Item>): seq<Row> { Each(store, (x: Item) => x.row) }

  /** Row `i` of a table has the time and the key of `r`. */
  ghost predicate SameTimeAndKey(rows: seq<Row>, i: nat, r: Row) {
    i < |rows| && rows[i].receivedAt == r.receivedAt && rows[i].key == r.key
  }

  /** End to end: for every decodable message below a committed offset, every sink's table has
      exactly one row with its received_at and its dedup key, however often rewinds, crashes and
      unconfirmed writes delivered it. */
  lemma ExactlyOneRow(c: Config, run: seq<State>, i: nat, r: Ref, k: nat)
    requires Run(c, run) && i < |run|
    requires c.repaired || c.opts.workers == 1 || HeadsOldest(run)
    requires r.part < |run[i].committed| && r.off < run[i].committed[r.part]
    requires k < |run[i].pipe.stores|
    ensures InLog(run[i].log, r)
    ensures At(run[i].log, r).Decoded? ==>
              var table, row := TableOf(run[i].pipe.stores[k]), At(run[i].log, r).row;
              && row.key.Some?
              && (exists n :: SameTimeAndKey(table, n, row))
              && forall n, m :: SameTimeAndKey(table, n, row) && SameTimeAndKey(table, m, row) ==> n == m
  {
    var st := run[i];
    RunKeeps(c, run, i);
    if c.opts.workers == 1 { OneWorkerSuffices(c, run); }
    AtLeastOnce(c, run, i, r);
    if At(st.log, r).Decoded? {
      var x, store := ItemOf(st.log, r), st.pipe.stores[k];
      assert Keyed(x.row);
      assert x in store;
      OneRowFor(store, x);
    }
  }

  lemma OneRowFor(store: seq<Item>, x: Item)
    requires x in store && Keyed(x.row)
    ensures exists n :: SameTimeAndKey(TableOf(store), n, x.row)
    ensures forall n, m ::
              SameTimeAndKey(TableOf(store), n, x.row) && SameTimeAndKey(TableOf(store), m, x.row) ==> n == m
  {
    var n :| 0 <= n < |store| && store[n] == x;
    assert RowsIn(store)[n] == x.row;
    var m := KeyedIsStored([], RowsIn(store), x.row);
    assert SameTimeAndKey(TableOf(store), m, x.row);
    NoTwoAlike([], RowsIn(store));
  }
}
