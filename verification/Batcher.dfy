/** The pipeline's sequential code as a mutable object: the one non-blocking send, push offers with
    their counters, and the batcher's take, flush and drain. Every method is a step, or a few, of
    the pipeline model. */
module Batcher {
  import opened PipelineModel
  import opened WatermarkModel

  class Pipeline {
    const opts: Options
    var buf: seq<Item>
    var next: nat
    var space: bool          // a token is in the one-slot channel
    var closing: bool
    var pending: seq<Item>
    var taken: nat
    var first: nat
    var sent: seq<Batch>     // what went through the batches channel
    var ingested: nat
    var dropped: nat
    /** The state of the model this object is in, histories and the workers' part included. */
    ghost var model: Pipe

    ghost predicate Valid()
      reads this
    {
      && opts.Valid() && Front(opts, model)
      && model.buf == buf && model.next == next && model.lock == Free
      && model.pending == pending && model.taken == taken && model.first == first
      && model.batches == sent
      && (closing <==> model.phase != Running)
    }

    constructor (o: Options)
      requires o.Valid()
      ensures Valid() && opts == o && model == Start(seq(o.sinks, _ => [])) && ingested == dropped == 0
    {
      opts := o;
      buf, next, space, closing, pending, taken, first, sent := [], 0, false, false, [], 0, 1, [];
      ingested, dropped := 0, 0;
      model := Start(seq(o.sinks, _ => []));
    }

    /** New: options that are not all positive, or no sinks, give an error and no pipeline. */
    static method New(o: Options) returns (p: Pipeline?)
      ensures p != null <==> o.Valid()
      ensures p != null ==> fresh(p) && p.Valid() && p.opts == o
      ensures p != null ==> p.model == Start(seq(o.sinks, _ => [])) && p.ingested == p.dropped == 0
    {
      if o.bufferSize < 1 || o.batchSize < 1 || o.workers < 1 || o.sinks == 0 {
        return null;
      }
      p := new Pipeline(o);
    }

    /** The non-blocking send: the number handed out is the record's place in channel order. */
    method TryOffer(x: Item) returns (number: nat, ok: bool)
      requires Valid()
      modifies this`buf, this`next, this`model
      ensures Valid() && ok == (|old(buf)| < opts.bufferSize)
      ensures model == if ok then Count(Send(old(model), x)) else old(model)
      ensures ok ==> number == |model.accepted| && model.accepted[number - 1] == x
    {
      if |buf| < opts.bufferSize {
        SendFront(opts, model, x);
        CountFront(opts, Send(model, x));
        model := Count(Send(model, x));
        buf := buf + [x];
        next := next + 1;
        return next, true;
      }
      return 0, false;
    }

    /** A push offer never blocks, and every outcome is counted exactly once. */
    method Offer(x: Item) returns (ok: bool)
      requires Valid()
      modifies this`buf, this`next, this`model, this`ingested, this`dropped
      ensures Valid() && ok == (!closing && |old(buf)| < opts.bufferSize)
      ensures model == if ok then Count(Send(old(model), x)) else old(model)
      ensures ingested == old(ingested) + (if ok then 1 else 0)
      ensures ingested + dropped == old(ingested) + old(dropped) + 1
    {
      if closing {
        dropped := dropped + 1;
        return false;
      }
      var _, sent := TryOffer(x);
      if sent {
        ingested := ingested + 1;
        return true;
      }
      dropped := dropped + 1;
      return false;
    }

    method Take()
      requires Valid() && CanTake(opts, model)
      modifies this`buf, this`taken, this`pending, this`space, this`model
      ensures Valid() && model == PipelineModel.Take(old(model)) && space
      ensures pending == old(pending) + [model.accepted[taken - 1]]
    {
      TakeFront(opts, model);
      model := PipelineModel.Take(model);
      var rec := buf[0];
      buf := buf[1..];
      taken := taken + 1;
      pending := pending + [rec];
      space := true;
    }

    /** Nothing pending, nothing sent; otherwise one step of the model, once a worker is free. */
    method Flush()
      requires Valid() && model.phase != Stopped
      modifies this`sent, this`first, this`pending, this`model
      ensures Valid() && pending == []
      ensures model == if old(pending) == [] then old(model) else PipelineModel.Flush(old(model))
    {
      if |pending| == 0 {
        return;
      }
      FlushFront(opts, model);
      model := PipelineModel.Flush(model);
      sent := sent + [Batch(pending, Span(first, taken))];
      first := taken + 1;
      pending := [];
    }

    /** The drain loop: it ends when it finds the buffer empty. */
    method DrainBuffer()
      requires Valid() && closing && model.phase == Draining && |pending| < opts.batchSize
      modifies this`buf, this`taken, this`pending, this`space, this`sent, this`first, this`model
      ensures Valid() && model.phase == Draining && buf == []
      ensures model.accepted == old(model.accepted) && old(sent) <= sent
    {
      while |buf| > 0
        invariant Valid() && |pending| < opts.batchSize && model.phase == Draining
        invariant model.accepted == old(model.accepted) && old(sent) <= sent
      {
        Take();
        if |pending| >= opts.batchSize {
          Flush();
        }
      }
    }

    /** Shutdown: everything accepted leaves in batches, in order, none larger than the batch size. */
    method Drain()
      requires Valid() && !closing && |pending| < opts.batchSize
      modifies this`buf, this`taken, this`pending, this`space, this`sent, this`first, this`model, this`closing
      ensures Valid() && closing && buf == [] && pending == [] && model.phase == Flushing
      ensures model.accepted == old(model.accepted) && old(sent) <= sent
      ensures Items(sent) == model.accepted && model.drained == taken == next == |model.accepted|
      ensures forall i :: 0 <= i < |sent| ==> |sent[i].items| <= opts.batchSize
    {
      PhaseFront(opts, model);
      model := AdvancePhase(model);
      closing := true;
      DrainBuffer();
      PhaseFront(opts, model);
      model := AdvancePhase(model);
      Flush();
      Drained(opts, model);
    }
  }

  lemma Drained(o: Options, p: Pipe)
    requires Front(o, p) && p.lock == Free && p.buf == [] && p.pending == [] && p.phase == Flushing
    ensures Items(p.batches) == p.accepted && p.drained == p.taken == p.next == |p.accepted|
    ensures forall i :: 0 <= i < |p.batches| ==> |p.batches[i].items| <= o.batchSize
  {
    AllBatchesInOrder(o, p);
    forall i | 0 <= i < |p.batches| ensures |p.batches[i].items| <= o.batchSize {
      assert BatchAt(o, p, i);
    }
  }
}
