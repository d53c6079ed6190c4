/** Exactly when the pipeline delivers at least once: with the head-only scan, if and only if there
    is one worker. With two or more, two rejected batches that complete in the wrong order let the
    committer commit a message that is in no sink. */
module Witness {
  import opened Basics
  import opened Offsets
  import opened Storage
  import opened WatermarkModel
  import opened PipelineModel
  import opened Spine

  const X := Row(1, Some(1), 1)
  const Y := Row(2, Some(2), 2)

  lemma Extend(c: Config, run: seq<State>, st: State, a: Action, st': State) returns (longer: seq<State>)
    requires Run(c, run) && run[|run| - 1] == st
    requires Enabled(c, st, a) && st' == Next(c, st, a)
    ensures Run(c, longer) && run <= longer && longer[|longer| - 1] == st'
  {
    longer := run + [st'];
    forall i | 0 < i < |longer| ensures StepAt(c, longer, i) {
      if i < |run| { assert StepAt(c, run, i); }
    }
  }

  /** Nothing is under way except batches held by workers. */
  ghost predicate Quiet(st: State) {
    && st.pipe.lock == Free && st.pipe.buf == [] && st.pipe.pending == [] && st.pipe.phase == Running
    && st.ses.open && st.ses.fetched == [] && st.ses.records == [] && st.ses.last == 0 && !st.ses.offering
    && |st.ses.acks| < ACK_BACKLOG
  }

  /** A message is polled alone, offered, handed to the committer and flushed alone. */
  lemma Forward(c: Config, run: seq<State>, st: State, off: nat, x: Item) returns (longer: seq<State>, st': State)
    requires c.opts.Valid() && Run(c, run) && run[|run| - 1] == st && Quiet(st)
    requires |st.pipe.inflight| < c.opts.workers && |st.ses.pos| == 1 && st.ses.pos[0] == off
    requires InLog(st.log, Ref(0, off)) && At(st.log, Ref(0, off)).Decoded? && x == ItemOf(st.log, Ref(0, off))
    ensures Run(c, longer) && longer[|longer| - 1] == st'
    ensures st' == st.(
                pipe := st.pipe.(accepted := st.pipe.accepted + [x], next := st.pipe.next + 1,
                                 taken := st.pipe.taken + 1, first := st.pipe.taken + 2,
                                 batches := st.pipe.batches + [Batch([x], Span(st.pipe.first, st.pipe.taken + 1))],
                                 inflight := st.pipe.inflight + {|st.pipe.batches|}),
                ses := st.ses.(pos := [off + 1], polled := st.ses.polled + [Ref(0, off)],
                               acks := st.ses.acks + [Ack(st.pipe.next + 1, [Ref(0, off)], [off + 1])]))
  {
    hide Run;
    var r := Ref(0, off);
    var p := st.pipe.(accepted := st.pipe.accepted + [x], next := st.pipe.next + 1);
    var ses := st.ses.(pos := [off + 1], polled := st.ses.polled + [r],
                       acks := st.ses.acks + [Ack(st.pipe.next + 1, [r], [off + 1])]);
    var s4 := st.(pipe := p.(buf := [x]), ses := ses);
    longer := OfferAlone(c, run, st, off, x, s4);
    assert [x][1..] == [] && [] + [x] == [x];
    var s5 := s4.(pipe := p.(buf := [], pending := [x], taken := st.pipe.taken + 1));
    longer := Extend(c, longer, s4, TakeOne, s5);
    st' := Next(c, s5, FlushPending);
    longer := Extend(c, longer, s5, FlushPending, st');
  }

  lemma OfferAlone(c: Config, run: seq<State>, st: State, off: nat, x: Item, st': State) returns (longer: seq<State>)
    requires c.opts.Valid() && Run(c, run) && run[|run| - 1] == st && Quiet(st)
    requires |st.ses.pos| == 1 && st.ses.pos[0] == off
    requires InLog(st.log, Ref(0, off)) && At(st.log, Ref(0, off)).Decoded? && x == ItemOf(st.log, Ref(0, off))
    requires st' == st.(
                pipe := st.pipe.(accepted := st.pipe.accepted + [x], next := st.pipe.next + 1, buf := [x]),
                ses := st.ses.(pos := [off + 1], polled := st.ses.polled + [Ref(0, off)],
                               acks := st.ses.acks + [Ack(st.pipe.next + 1, [Ref(0, off)], [off + 1])]))
    ensures Run(c, longer) && longer[|longer| - 1] == st'
  {
    hide Run;
    var r := Ref(0, off);
    assert [r][1..] == [] && [] + [r] == [r];
    var s1 := st.(ses := st.ses.(fetched := [r], pos := [off + 1], polled := st.ses.polled + [r]));
    var p2 := st.pipe.(accepted := st.pipe.accepted + [x], buf := [x], lock := Held);
    var s2 := s1.(pipe := p2, ses := s1.ses.(offering := true));
    longer := SendAlone(c, run, st, off, x, s2);
    var p3 := p2.(next := st.pipe.next + 1, lock := Free);
    var s3 := s1.(pipe := p3, ses := s1.ses.(last := st.pipe.next + 1, records := [r], fetched := []));
    longer := Extend(c, longer, s2, PullCount, s3);
    longer := Extend(c, longer, s3, HandOff, st');
  }

  lemma SendAlone(c: Config, run: seq<State>, st: State, off: nat, x: Item, st': State) returns (longer: seq<State>)
    requires c.opts.Valid() && Run(c, run) && run[|run| - 1] == st && Quiet(st)
    requires |st.ses.pos| == 1 && st.ses.pos[0] == off
    requires InLog(st.log, Ref(0, off)) && At(st.log, Ref(0, off)).Decoded? && x == ItemOf(st.log, Ref(0, off))
    requires st' == st.(
                pipe := st.pipe.(accepted := st.pipe.accepted + [x], buf := [x], lock := Held),
                ses := st.ses.(fetched := [Ref(0, off)], pos := [off + 1], polled := st.ses.polled + [Ref(0, off)],
                               offering := true))
    ensures Run(c, longer) && longer[|longer| - 1] == st'
  {
    hide Run;
    var r := Ref(0, off);
    assert [r][..0] == [] && [] + [x] == [x];
    assert After(st.ses.pos, [r]) == [off + 1];
    var s1 := st.(ses := st.ses.(fetched := [r], pos := [off + 1], polled := st.ses.polled + [r]));
    longer := Extend(c, run, st, Fetch([r]), s1);
    longer := Extend(c, longer, s1, PullSend, st');
  }

  const LOG := [[Decoded(X), Decoded(Y)]]

  ghost function Empty(c: Config): seq<seq<Item>> { seq(c.opts.sinks, _ => []) }

  /** Both messages polled one by one, offered, and each with a worker of its own. */
  ghost function BothWithWorkers(c: Config): State {
    State(
      Pipe([Pull(0, 0, X), Pull(0, 1, Y)], [], 2, Free, [], 2, 3,
           [Batch([Pull(0, 0, X)], Span(1, 1)), Batch([Pull(0, 1, Y)], Span(2, 2))],
           {0, 1}, [], Fresh, Empty(c), Running, 0, Empty(c), []),
      Session(true, [2], [], [], 0, false, [Ack(1, [Ref(0, 0)], [1]), Ack(2, [Ref(0, 1)], [2])], true, false, 0, [0],
              [0], [Ref(0, 0), Ref(0, 1)]),
      LOG, [0])
  }

  lemma BothInFlight(c: Config) returns (run: seq<State>)
    requires c.opts.Valid() && c.opts.workers >= 2
    ensures Run(c, run) && run[|run| - 1] == BothWithWorkers(c)
  {
    assert seq(1, _ => 0) == [0];
    var s0 := State(Start(Empty(c)), NewSession([0], 0), [[]], [0]);
    assert Initial(c, s0);
    run := [s0];
    var s1 := s0.(log := [[Decoded(X)]]);
    assert s0.log[0] + [Decoded(X)] == [Decoded(X)];
    run := Extend(c, run, s0, Produce(0, Decoded(X)), s1);
    var s2 := s0.(log := LOG);
    assert [Decoded(X)] + [Decoded(Y)] == LOG[0];
    run := Extend(c, run, s1, Produce(0, Decoded(Y)), s2);
    var s3, s4;
    run, s3 := Forward(c, run, s2, 0, Pull(0, 0, X));
    run, s4 := Forward(c, run, s3, 1, Pull(0, 1, Y));
    var goal := BothWithWorkers(c);
    assert s4.pipe.accepted == goal.pipe.accepted;
    assert s4.pipe.batches == goal.pipe.batches;
    assert s4.ses.acks == goal.ses.acks && s4.ses.polled == goal.ses.polled;
  }

  const OUT_OF_ORDER := [Outcome(1, false), Outcome(0, false)]

  ghost function NoSink(c: Config): seq<Reply> { seq(c.opts.sinks, _ => Rejected) }

  /** Both batches rejected, the younger one first. */
  ghost function BothFailed(c: Config): State {
    var st := BothWithWorkers(c);
    st.(pipe := st.pipe.(inflight := {}, history := OUT_OF_ORDER, replies := [NoSink(c), NoSink(c)],
                         mark := Mark(2, map[], [Span(2, 2), Span(1, 1)], false)))
  }

  lemma BothRejected(c: Config) returns (run: seq<State>)
    requires c.opts.Valid() && c.opts.workers >= 2
    ensures Run(c, run) && run[|run| - 1] == BothFailed(c)
  {
    hide Run;
    var s0 := BothWithWorkers(c);
    run := BothInFlight(c);
    var replies := NoSink(c);
    assert !WriteOk(replies) by { WriteOkMeansEverySink(replies); assert replies[0] == Rejected; }
    assert forall items :: Deliver(Empty(c), replies, items) == Empty(c);
    var m1 := Mark(0, map[2 := 2], [Span(2, 2)], false);
    var s1 := s0.(pipe := s0.pipe.(inflight := {0}, history := [Outcome(1, false)], replies := [replies], mark := m1));
    run := Extend(c, run, s0, FinishBatch(1, replies), s1);
    TwoRejected(m1);
    run := Extend(c, run, s1, FinishBatch(0, replies), BothFailed(c));
  }

  /** The poll of the older batch is then committed, although its message is in no sink: with any
      number of workers above one, and any buffer, batch size and sinks. */
  lemma CommittedButNowhereStored(c: Config) returns (run: seq<State>)
    requires c.opts.Valid() && c.opts.workers >= 2 && !c.repaired
    ensures Run(c, run)
    ensures var st := run[|run| - 1];
            && st.committed == [1]
            && st.log == LOG
            && st.pipe.stores == Empty(c)
            && !Secure(st, Ref(0, 0))
    ensures !InOrder(run) && !HeadsOldest(run)
  {
    var s2 := BothFailed(c);
    run := BothRejected(c);
    var before := |run| - 1;
    hide Run;
    assert Highest([Ref(0, 0)], 0) == 1 by { assert [Ref(0, 0)][..0] == []; }
    assert Commit([0], [Ref(0, 0)], {0}) == [1];
    var end := Next(c, s2, Acknowledge({0}));
    run := Extend(c, run, s2, Acknowledge({0}), end);
    assert run[before] == s2;
    assert !HeadIsOldest(s2.pipe.mark) by { assert s2.pipe.mark.failed[1] == Span(1, 1); }
    assert !FailuresInOrder(s2.pipe.history) by { assert OUT_OF_ORDER[1].batch < OUT_OF_ORDER[0].batch; }
    assert At(end.log, Ref(0, 0)) == Decoded(X);
    assert ItemOf(end.log, Ref(0, 0)) !in end.pipe.stores[0];
  }

  /** An offer that read the closing flag in time but sends after the drain loop ended is accepted
      and never handed over. */
  lemma LateOfferIsStranded(c: Config, row: Row) returns (run: seq<State>)
    requires c.opts.Valid()
    ensures Run(c, run)
    ensures var p := run[|run| - 1].pipe; p.phase == Stopped && p.accepted == p.buf == [Push(row)] && p.batches == []
  {
    var s0 := State(Start(Empty(c)), NewSession([], 0), [], []);
    assert seq(0, _ => 0) == [];
    assert Initial(c, s0);
    var s1, s2 := Next(c, s0, NextPhase), Next(c, s0.(pipe := s0.pipe.(phase := Draining)), NextPhase);
    run := Extend(c, [s0], s0, NextPhase, s1);
    run := Extend(c, run, s1, NextPhase, s2);
    var s3 := Next(c, s2, NextPhase);
    run := Extend(c, run, s2, NextPhase, s3);
    run := Extend(c, run, s3, PushSend(row), Next(c, s3, PushSend(row)));
  }

  /** The promise: every message below a committed offset did not decode or is in every sink. */
  ghost predicate Delivered(st: State) {
    forall r: Ref :: r.part < |st.committed| && r.off < st.committed[r.part] ==> Secure(st, r)
  }

  /** A configuration keeps the promise in every state of every run if and only if it has one
      worker, or scans the whole list of failures. */
  lemma AtLeastOnceIff(c: Config)
    requires c.opts.Valid()
    ensures c.repaired || c.opts.workers == 1 <==>
            forall run :: Run(c, run) ==> forall i :: 0 <= i < |run| ==> Delivered(run[i])
  {
    if c.repaired || c.opts.workers == 1 {
      forall run: seq<State> | Run(c, run) ensures forall i :: 0 <= i < |run| ==> Delivered(run[i]) {
        if c.opts.workers == 1 { OneWorkerSuffices(c, run); }
        forall i: int, r: Ref | 0 <= i < |run| && r.part < |run[i].committed| && r.off < run[i].committed[r.part]
          ensures Secure(run[i], r)
        {
          AtLeastOnce(c, run, i, r);
        }
      }
    } else {
      var run := CommittedButNowhereStored(c);
      var st := run[|run| - 1];
      assert Ref(0, 0).off < st.committed[Ref(0, 0).part];
      assert !Delivered(st);
    }
  }

  lemma TwoRejected(m1: Mark)
    requires m1 == Mark(0, map[2 := 2], [Span(2, 2)], false)
    ensures Complete(m1, Span(1, 1), false) == Mark(2, map[], [Span(2, 2), Span(1, 1)], false)
  {
    var d := m1.done[1 := 1];
    assert d - {1} == map[2 := 2];
    assert (d - {1}) - {2} == map[];
    assert Advance(0, d) == Advance(1, d - {1}) == Advance(2, (d - {1}) - {2});
  }
}
