/** Exactly when instances that share templates agree, where every announcement went, and how a fleet
    comes to differ. */
module Divergence {
  import opened Basics
  import opened TemplateKeys
  import opened Templates

  // ---------------------------------------------------------------- exactly when

  lemma LostIsNotTheLastWord(h: Partitioner, run: seq<Fleet>, k: nat, i: nat, t: TemplateId)
    requires Run(h, run) && k < |run| && Quiescent(run[k])
    requires i < |run[k].nodes| && t in run[k].nodes[i].lost
    ensures ValidId(t) && |run[k].full| > 0 && Lookup(run[k].nodes[i].templates, t) != LastWord(h, run[k], t)
  {
    var f := run[k];
    var n := f.nodes[i];
    RunKeeps(h, run, k);
    RunSameLast(h, run, k);
    assert NodeGood(h, f.logs, n);
    assert t in n.templates && Lookup(n.read, t) != Some(n.templates[t]);
    assert Settled(h, f.logs, n, t);
    assert Last(f.logs[PartOf(h, Format(t), |f.logs|)], Format(t)) == LastWord(h, f, t);
  }

  /** A quiet instance holds the last word on a template if and only if it did not lose the version
      it holds: in every run, however often exporters re-send and whatever they go back to. */
  lemma AgreesIffNotLost(h: Partitioner, run: seq<Fleet>, k: nat, i: nat, t: TemplateId)
    requires Run(h, run) && k < |run| && Quiescent(run[k])
    requires i < |run[k].nodes| && ValidId(t)
    ensures |run[k].full| > 0
    ensures Lookup(run[k].nodes[i].templates, t) == LastWord(h, run[k], t) <==> t !in run[k].nodes[i].lost
  {
    if t in run[k].nodes[i].lost { LostIsNotTheLastWord(h, run, k, i, t); } else { Converges(h, run, k, i, t); }
  }

  ghost predicate NothingLost(f: Fleet) { forall i :: 0 <= i < |f.nodes| ==> f.nodes[i].lost == {} }

  /** Every instance holds the last word on every template. */
  ghost predicate UpToDate(h: Partitioner, f: Fleet)
    requires |f.full| > 0
  {
    forall i, t :: 0 <= i < |f.nodes| && ValidId(t) ==> Lookup(f.nodes[i].templates, t) == LastWord(h, f, t)
  }

  /** A quiet fleet is up to date if and only if nobody lost a version that it holds. */
  lemma UpToDateIffNothingLost(h: Partitioner, run: seq<Fleet>, k: nat)
    requires Run(h, run) && k < |run| && Quiescent(run[k])
    ensures |run[k].full| > 0
    ensures UpToDate(h, run[k]) <==> NothingLost(run[k])
  {
    var f := run[k];
    RunKeeps(h, run, k);
    RunSameLast(h, run, k);
    hide Run, Good;
    if NothingLost(f) {
      forall i, t | 0 <= i < |f.nodes| && ValidId(t) ensures Lookup(f.nodes[i].templates, t) == LastWord(h, f, t) {
        AgreesIffNotLost(h, run, k, i, t);
      }
    } else {
      var i :| 0 <= i < |f.nodes| && f.nodes[i].lost != {};
      var t :| t in f.nodes[i].lost;
      LostIsNotTheLastWord(h, run, k, i, t);
    }
  }

  ghost predicate AllAgree(f: Fleet) {
    forall i, j :: 0 <= i < |f.nodes| && 0 <= j < |f.nodes| ==> f.nodes[i].templates == f.nodes[j].templates
  }

  ghost predicate NobodyLost(f: Fleet, t: TemplateId) {
    forall i :: 0 <= i < |f.nodes| ==> t !in f.nodes[i].lost
  }

  /** As when one exporter re-sends its template to every instance and every announcement is missed. */
  ghost predicate EverybodyLost(f: Fleet, t: TemplateId, v: nat) {
    forall i :: 0 <= i < |f.nodes| ==> t in f.nodes[i].lost && Lookup(f.nodes[i].templates, t) == Some(v)
  }

  /** The instances of a quiet fleet agree with each other if and only if each template was lost by
      nobody, or by everybody in the same version. */
  lemma FleetAgreesIff(h: Partitioner, run: seq<Fleet>, k: nat)
    requires Run(h, run) && k < |run| && Quiescent(run[k])
    ensures AllAgree(run[k]) <==>
            forall t :: NobodyLost(run[k], t) || exists v :: EverybodyLost(run[k], t, v)
  {
    var f := run[k];
    if AllAgree(f) {
      forall t | !NobodyLost(f, t) ensures exists v :: EverybodyLost(f, t, v) {
        var i :| 0 <= i < |f.nodes| && t in f.nodes[i].lost;
        LostTogether(h, run, k, i, t);
      }
    } else {
      var i, j :| 0 <= i < |f.nodes| && 0 <= j < |f.nodes| && f.nodes[i].templates != f.nodes[j].templates;
      var t := LostBySome(h, run, k, i, j);
      assert !NobodyLost(f, t) && forall v :: !EverybodyLost(f, t, v);
    }
  }

  lemma LostBySome(h: Partitioner, run: seq<Fleet>, k: nat, i: nat, j: nat) returns (t: TemplateId)
    requires Run(h, run) && k < |run| && Quiescent(run[k])
    requires i < |run[k].nodes| && j < |run[k].nodes| && run[k].nodes[i].templates != run[k].nodes[j].templates
    ensures !NobodyLost(run[k], t) && forall v :: !EverybodyLost(run[k], t, v)
  {
    var f := run[k];
    t := DifferAt(f.nodes[i].templates, f.nodes[j].templates);
    RunKeeps(h, run, k);
    assert NodeGood(h, f.logs, f.nodes[i]) && NodeGood(h, f.logs, f.nodes[j]);
    assert ValidId(t);
    hide Run, Good, NodeGood, Quiescent, LastWord;
    AgreesIffNotLost(h, run, k, i, t);
    AgreesIffNotLost(h, run, k, j, t);
    NotEverybody(f, t, i, j);
  }

  lemma NotEverybody(f: Fleet, t: TemplateId, i: nat, j: nat)
    requires i < |f.nodes| && j < |f.nodes| && Lookup(f.nodes[i].templates, t) != Lookup(f.nodes[j].templates, t)
    ensures forall v :: !EverybodyLost(f, t, v)
  {
  }

  lemma LostTogether(h: Partitioner, run: seq<Fleet>, k: nat, i: nat, t: TemplateId)
    requires Run(h, run) && k < |run| && Quiescent(run[k]) && AllAgree(run[k])
    requires i < |run[k].nodes| && t in run[k].nodes[i].lost
    ensures exists v :: EverybodyLost(run[k], t, v)
  {
    var f := run[k];
    LostIsNotTheLastWord(h, run, k, i, t);
    RunKeeps(h, run, k);
    assert NodeGood(h, f.logs, f.nodes[i]);
    assert t in f.nodes[i].templates;
    hide Run, Good, NodeGood;
    forall j | 0 <= j < |f.nodes| ensures t in f.nodes[j].lost {
      AgreesIffNotLost(h, run, k, j, t);
      assert f.nodes[j].templates == f.nodes[i].templates;
    }
    assert EverybodyLost(f, t, f.nodes[i].templates[t]);
  }

  lemma DifferAt(a: map<TemplateId, nat>, b: map<TemplateId, nat>) returns (t: TemplateId)
    requires a != b
    ensures Lookup(a, t) != Lookup(b, t) && (t in a || t in b)
  {
    if a.Keys != b.Keys {
      assert a.Keys - b.Keys != {} || b.Keys - a.Keys != {};
      if a.Keys - b.Keys != {} { t :| t in a.Keys - b.Keys; } else { t :| t in b.Keys - a.Keys; }
    } else {
      t :| t in a && a[t] != b[t];
    }
  }

  // ---------------------------------------------------------------- where announcements go

  ghost function Count(s: seq<Entry>, e: Entry): nat { multiset(s)[e] }

  /** How often `e` is queued, over all instances. */
  ghost function Waiting(nodes: seq<Node>, e: Entry): nat {
    if nodes == [] then 0 else Waiting(nodes[..|nodes| - 1], e) + Count(nodes[|nodes| - 1].queue, e)
  }

  lemma {:induction false} WaitingUpdate(nodes: seq<Node>, i: nat, n': Node, e: Entry)
    requires i < |nodes|
    ensures Waiting(nodes[i := n'], e) + Count(nodes[i].queue, e) == Waiting(nodes, e) + Count(n'.queue, e)
  {
    hide Count;
    var last := |nodes| - 1;
    if i == last {
      assert nodes[i := n'][..last] == nodes[..last];
    } else {
      assert nodes[i := n'][..last] == nodes[..last][i := n'];
      WaitingUpdate(nodes[..last], i, n', e);
    }
  }

  /** A lost version was missed, or there is more on its template to read. */
  ghost predicate LossesKnown(h: Partitioner, f: Fleet, n: Node)
    requires |f.logs| > 0 && |n.pos| == |f.logs|
  {
    forall t :: t in n.lost && t in n.templates ==> Explained(h, f, n, t)
  }

  ghost predicate Explained(h: Partitioner, f: Fleet, n: Node, t: TemplateId)
    requires |f.logs| > 0 && |n.pos| == |f.logs| && t in n.templates
  {
    var key := Format(t);
    var p := PartOf(h, key, |f.logs|);
    Entry(key, n.templates[t]) in f.missed || Mentions(f.logs[p], n.pos[p], key)
  }

  /** Conservation: each version learned is queued, published or missed, as often as it was learned. */
  ghost predicate Conserved(f: Fleet) {
    forall e :: Waiting(f.nodes, e) + Count(f.published, e) + Count(f.missed, e) == Count(f.learned, e)
  }

  ghost predicate AllKnown(h: Partitioner, f: Fleet) {
    && |f.logs| > 0
    && forall i :: 0 <= i < |f.nodes| ==> |f.nodes[i].pos| == |f.logs| && LossesKnown(h, f, f.nodes[i])
  }

  lemma CountConcat(s: seq<Entry>, x: seq<Entry>, e: Entry)
    ensures Count(s + x, e) == Count(s, e) + Count(x, e)
  {
  }

  lemma CountTail(s: seq<Entry>, e: Entry)
    requires |s| > 0
    ensures Count(s, e) == Count(s[1..], e) + Count([s[0]], e)
  {
    assert s == [s[0]] + s[1..];
  }

  /** The step of one instance moves announcements between its queue and the histories. */
  lemma AnnouncementMoves(h: Partitioner, f: Fleet, a: Action, e: Entry)
    requires Enabled(f, a) && !a.Compact?
    ensures var f' := Next(h, f, a);
            && a.node < |f.nodes| && f'.nodes == f.nodes[a.node := f'.nodes[a.node]]
            && Count(f'.nodes[a.node].queue, e) + Count(f'.published, e) + Count(f'.missed, e) + Count(f.learned, e)
               == Count(f.nodes[a.node].queue, e) + Count(f.published, e) + Count(f.missed, e) + Count(f'.learned, e)
  {
    var n := f.nodes[a.node];
    if a.LearnAt? {
      LearnMoves(h, f, a, e);
    } else if a.Restart? {
      CountConcat(f.missed, n.queue, e);
    } else if a.Publish? || a.PublishUnconfirmed? || a.PublishFails? {
      PutMoves(h, f, a, e);
    }
  }

  lemma PutMoves(h: Partitioner, f: Fleet, a: Action, e: Entry)
    requires Enabled(f, a) && (a.Publish? || a.PublishUnconfirmed? || a.PublishFails?)
    ensures var f' := Next(h, f, a);
            Count(f'.nodes[a.node].queue, e) + Count(f'.published, e) + Count(f'.missed, e)
            == Count(f.nodes[a.node].queue, e) + Count(f.published, e) + Count(f.missed, e)
  {
    var n := f.nodes[a.node];
    DoneQueue(n, a.Publish?);
    hide Count, Done, PartOf;
    CountTail(n.queue, e);
    CountConcat(f.published, [n.queue[0]], e);
    CountConcat(f.missed, [n.queue[0]], e);
  }

  lemma DoneQueue(n: Node, stored: bool)
    requires |n.queue| > 0
    ensures Done(n, stored).queue == n.queue[1..]
  {
  }

  lemma LearnMoves(h: Partitioner, f: Fleet, a: Action, e: Entry)
    requires Enabled(f, a) && a.LearnAt?
    ensures var f' := Next(h, f, a);
            Count(f'.nodes[a.node].queue, e) + Count(f'.missed, e) + Count(f.learned, e)
            == Count(f.nodes[a.node].queue, e) + Count(f.missed, e) + Count(f'.learned, e)
  {
    var x := Entry(Format(a.t), a.v);
    CountConcat(f.nodes[a.node].queue, [x], e);
    CountConcat(f.learned, [x], e);
    CountConcat(f.missed, [x], e);
    assert f.missed + [] == f.missed;
    hide Format, HasRoom, Count;
  }

  /** Only new records and compaction change a log, and neither makes news disappear. */
  lemma LogsMention(h: Partitioner, f: Fleet, a: Action, q: nat, from: nat, key: string)
    requires Enabled(f, a) && q < |f.logs| && Mentions(f.logs[q], from, key)
    ensures q < |Next(h, f, a).logs| && Mentions(Next(h, f, a).logs[q], from, key)
  {
    var f' := Next(h, f, a);
    hide Format, Parse;
    if a.Compact? && a.part == q {
      CompactKeepsMentions(f.logs[q], a.off, from, key);
    } else {
      var k :| from <= k < |f.logs[q]| && f.logs[q][k].Some? && f.logs[q][k].value.key == key;
      assert f'.logs[q][k] == f.logs[q][k];
    }
  }

  lemma StaysExplained(h: Partitioner, f: Fleet, a: Action, n: Node, n': Node, t: TemplateId)
    requires |f.logs| > 0 && |n.pos| == |f.logs| && Enabled(f, a)
    requires t in n.templates && Explained(h, f, n, t)
    requires n'.pos == n.pos && t in n'.templates && n'.templates[t] == n.templates[t]
    ensures |Next(h, f, a).logs| == |f.logs| && Explained(h, Next(h, f, a), n', t)
  {
    var key := Format(t);
    var p := PartOf(h, key, |f.logs|);
    if Mentions(f.logs[p], n.pos[p], key) { LogsMention(h, f, a, p, n.pos[p], key); }
    hide Format, Parse;
  }

  /** The instance loses the version it holds as its announcement is dropped or leaves the queue. */
  lemma ActorKnown(h: Partitioner, f: Fleet, a: Action)
    requires Good(h, f) && Enabled(f, a) && !a.Compact? && LossesKnown(h, f, f.nodes[a.node])
    ensures var f' := Next(h, f, a);
            && |f'.nodes| == |f.nodes| && |f'.logs| == |f.logs| && |f'.nodes[a.node].pos| == |f.logs|
            && LossesKnown(h, f', f'.nodes[a.node])
  {
    var n, f' := f.nodes[a.node], Next(h, f, a);
    var n' := f'.nodes[a.node];
    assert NodeGood(h, f.logs, n);
    match a
    case LearnAt(_, u, v, encodes) => LearnKnown(h, f, a);
    case Consume(_, p) => ReadKnown(h, f, n, p);
    case Restart(_) =>
    case TakeHead(_) =>
      forall t | t in n'.lost && t in n'.templates ensures Explained(h, f', n', t) {
        StaysExplained(h, f, a, n, n', t);
      }
    case _ => PutKnown(h, f, a);
  }

  lemma LearnKnown(h: Partitioner, f: Fleet, a: Action)
    requires Good(h, f) && Enabled(f, a) && a.LearnAt? && LossesKnown(h, f, f.nodes[a.node])
    ensures var f' := Next(h, f, a);
            |f'.nodes[a.node].pos| == |f.logs| && LossesKnown(h, f', f'.nodes[a.node])
  {
    var n, f' := f.nodes[a.node], Next(h, f, a);
    var n' := f'.nodes[a.node];
    assert NodeGood(h, f.logs, n);
    hide Good, NodeGood, Format, Parse, HasRoom;
    forall t | t in n'.lost && t in n'.templates ensures Explained(h, f', n', t) {
      if t != a.t || n' == n { StaysExplained(h, f, a, n, n', t); }
    }
  }

  lemma PutKnown(h: Partitioner, f: Fleet, a: Action)
    requires a.Publish? || a.PublishUnconfirmed? || a.PublishFails?
    requires Good(h, f) && Enabled(f, a) && LossesKnown(h, f, f.nodes[a.node])
    ensures var f' := Next(h, f, a);
            |f'.nodes[a.node].pos| == |f.logs| == |f'.logs| && LossesKnown(h, f', f'.nodes[a.node])
  {
    var n, f' := f.nodes[a.node], Next(h, f, a);
    var n' := f'.nodes[a.node];
    assert NodeGood(h, f.logs, n);
    DoneLosses(n, a.Publish?);
    hide Good, NodeGood, Format, Parse, Done;
    forall t | t in n'.lost && t in n'.templates ensures Explained(h, f', n', t) {
      if t in n.lost {
        StaysExplained(h, f, a, n, n', t);
      } else if !a.PublishFails? {
        var p := PartOf(h, Format(t), |f.logs|);
        assert f'.logs[p][|f.logs[p]|] == Some(n.queue[0]);
      }
    }
  }

  lemma ReadKnown(h: Partitioner, f: Fleet, n: Node, p: nat)
    requires |f.logs| > 0 && NodeGood(h, f.logs, n) && p < |f.logs| && n.pos[p] < |f.logs[p]| && LogGood(h, f.logs, p)
    requires LossesKnown(h, f, n)
    ensures LossesKnown(h, f, Read(n, f.logs[p], p))
  {
    var x, n' := f.logs[p][n.pos[p]], Read(n, f.logs[p], p);
    if x.Some? {
      assert Published(x.value);
      var u :| ValidId(u) && x.value.key == Format(u);
      KeyRoundTrip(u);
    }
    hide Format, Parse;
    forall t | t in n'.lost && t in n'.templates ensures Explained(h, f, n', t) {
      assert Explained(h, f, n, t);
      var key := Format(t);
      var q := PartOf(h, key, |f.logs|);
      if Mentions(f.logs[q], n.pos[q], key) {
        var k :| n.pos[q] <= k < |f.logs[q]| && f.logs[q][k].Some? && f.logs[q][k].value.key == key;
        if q == p && k == n.pos[p] { KeyRoundTrip(t); }
      }
    }
  }

  lemma DoneLosses(n: Node, stored: bool)
    requires Held(n) && |n.queue| > 0
    ensures var n' := Done(n, stored);
            n'.templates == n.templates
            && forall t :: t in n'.lost && t !in n.lost ==>
                 t in n.templates && n.queue[0] == Entry(Format(t), n.templates[t])
  {
    var n' := Done(n, stored);
    var t := DoneHead(n, stored);
    hide Format, Parse;
    assert n'.queue == n.queue[1..];
    if t in n'.lost && t !in n.lost {
      assert Awaits(n, t);
      var k :| LastQueued(n.queue, k, Entry(Format(t), n.templates[t]));
    }
  }

  lemma ConservedStep(h: Partitioner, f: Fleet, a: Action)
    requires Conserved(f) && Enabled(f, a)
    ensures Conserved(Next(h, f, a))
  {
    var f' := Next(h, f, a);
    forall e ensures Waiting(f'.nodes, e) + Count(f'.published, e) + Count(f'.missed, e) == Count(f'.learned, e) {
      assert Waiting(f.nodes, e) + Count(f.published, e) + Count(f.missed, e) == Count(f.learned, e);
      if !a.Compact? {
        AnnouncementMoves(h, f, a, e);
        hide Waiting, Count, Next;
        WaitingUpdate(f.nodes, a.node, f'.nodes[a.node], e);
      }
    }
  }

  lemma KnownStep(h: Partitioner, f: Fleet, a: Action)
    requires Good(h, f) && AllKnown(h, f) && Enabled(f, a)
    ensures AllKnown(h, Next(h, f, a))
  {
    var f' := Next(h, f, a);
    if !a.Compact? { ActorKnown(h, f, a); }
    hide Good;
    forall i | 0 <= i < |f'.nodes| && (a.Compact? || i != a.node)
      ensures |f'.nodes[i].pos| == |f'.logs| > 0 && LossesKnown(h, f', f'.nodes[i])
    {
      var n := f.nodes[i];
      forall t | t in n.lost && t in n.templates ensures Explained(h, f', n, t) { StaysExplained(h, f, a, n, n, t); }
    }
  }

  lemma {:induction false} NothingWaiting(nodes: seq<Node>, e: Entry)
    requires forall i :: 0 <= i < |nodes| ==> nodes[i].queue == []
    ensures Waiting(nodes, e) == 0
  {
    if nodes != [] { NothingWaiting(nodes[..|nodes| - 1], e); }
  }

  /** In every state of every run no announcement is unaccounted for. */
  lemma {:induction false} RunConserves(h: Partitioner, run: seq<Fleet>, i: nat)
    requires Run(h, run) && i < |run|
    ensures Conserved(run[i])
  {
    if i == 0 {
      forall e ensures Waiting(run[0].nodes, e) == 0 { NothingWaiting(run[0].nodes, e); }
    } else {
      RunConserves(h, run, i - 1);
      var a := ActionAt(h, run, i);
      hide Conserved, Next, Enabled;
      ConservedStep(h, run[i - 1], a);
    }
  }

  lemma {:induction false} RunKnows(h: Partitioner, run: seq<Fleet>, i: nat)
    requires Run(h, run) && i < |run|
    ensures AllKnown(h, run[i])
  {
    if i > 0 {
      RunKnows(h, run, i - 1);
      RunKeeps(h, run, i - 1);
      var a := ActionAt(h, run, i);
      hide Good, AllKnown, Next, Enabled;
      KnownStep(h, run[i - 1], a);
    }
  }

  /** Once the fleet is quiet, every lost version is one that was missed: a Put that reached the topic
      costs nothing, whatever it reported. */
  lemma LostWasMissed(h: Partitioner, run: seq<Fleet>, k: nat, i: nat, t: TemplateId)
    requires Run(h, run) && k < |run| && Quiescent(run[k])
    requires i < |run[k].nodes| && t in run[k].nodes[i].lost
    ensures t in run[k].nodes[i].templates && Entry(Format(t), run[k].nodes[i].templates[t]) in run[k].missed
  {
    var f := run[k];
    RunKeeps(h, run, k);
    assert NodeGood(h, f.logs, f.nodes[i]);
    RunKnows(h, run, k);
    assert Explained(h, f, f.nodes[i], t);
  }

  /** If no announcement was dropped or failed to reach the topic, and no instance restarted with one
      queued, then a quiet fleet is up to date and all instances agree. */
  lemma NothingMissedConverges(h: Partitioner, run: seq<Fleet>, k: nat)
    requires Run(h, run) && k < |run| && Quiescent(run[k]) && run[k].missed == []
    ensures |run[k].full| > 0 && UpToDate(h, run[k]) && AllAgree(run[k])
  {
    var f := run[k];
    forall i | 0 <= i < |f.nodes| ensures f.nodes[i].lost == {} {
      if f.nodes[i].lost != {} {
        var t :| t in f.nodes[i].lost;
        LostWasMissed(h, run, k, i, t);
      }
    }
    UpToDateIffNothingLost(h, run, k);
    forall i, j | 0 <= i < |f.nodes| && 0 <= j < |f.nodes| ensures f.nodes[i].templates == f.nodes[j].templates {
      FleetAgrees(h, run, k, i, j);
    }
  }

  // ---------------------------------------------------------------- how it happens

  lemma Extend(h: Partitioner, run: seq<Fleet>, f: Fleet, a: Action, f': Fleet) returns (longer: seq<Fleet>)
    requires Run(h, run) && run[|run| - 1] == f && Enabled(f, a) && f' == Next(h, f, a)
    ensures Run(h, longer) && longer[|longer| - 1] == f'
  {
    longer := run + [f'];
    forall i | 0 < i < |longer| ensures StepAt(h, longer, i) {
      if i < |run| { assert StepAt(h, run, i); }
    }
    assert Step(h, f, f');
  }

  /** Two instances, one partition, nothing compacted. */
  ghost function Pair(log: Log, n: Node, m: Node, learned: seq<Entry>, published: seq<Entry>, missed: seq<Entry>): Fleet
  {
    Fleet([log], [n, m], [log], learned, published, missed)
  }

  ghost function Idle(): Node { Node(map[], [], false, [0], map[], {}, {}) }

  lemma StartPair(h: Partitioner) returns (run: seq<Fleet>)
    ensures Run(h, run) && run[|run| - 1] == Pair([], Idle(), Idle(), [], [], [])
  {
    assert Boot(1) == Idle();
    run := [Pair([], Idle(), Idle(), [], [], [])];
  }

  /** The first of two instances learns a template. */
  lemma LearnFirst(h: Partitioner, f: Fleet, t: TemplateId, v: nat, f': Fleet)
    requires |f.nodes| == 2 && ValidId(t)
    requires f' == f.(nodes := [Learn(f.nodes[0], t, v, true), f.nodes[1]], learned := f.learned + [Entry(Format(t), v)],
                      missed := f.missed + if HasRoom(f.nodes[0]) then [] else [Entry(Format(t), v)])
    ensures Enabled(f, LearnAt(0, t, v, true)) && f' == Next(h, f, LearnAt(0, t, v, true))
  {
    assert f.nodes[0 := Learn(f.nodes[0], t, v, true)] == f'.nodes;
  }

  /** One failed publication leaves a quiet fleet in disagreement. */
  lemma LostPublicationDiverges(h: Partitioner, t: TemplateId, v: nat) returns (run: seq<Fleet>)
    requires ValidId(t)
    ensures Run(h, run) && Quiescent(run[|run| - 1]) && |run[|run| - 1].nodes| == 2
    ensures run[|run| - 1].nodes[0].templates == map[t := v] && run[|run| - 1].nodes[1].templates == map[]
  {
    KeyRoundTrip(t);
    hide Format, Parse, Run;
    var e := Entry(Format(t), v);
    run := StartPair(h);
    var f0 := Pair([], Idle(), Idle(), [], [], []);
    var n1 := Node(map[t := v], [e], false, [0], map[], {t}, {});
    assert [] + [e] == [e];
    var f1 := Pair([], n1, Idle(), [e], [], []);
    assert Learn(Idle(), t, v, true) == n1;
    LearnFirst(h, f0, t, v, f1);
    run := Extend(h, run, f0, LearnAt(0, t, v, true), f1);
    var f2 := Pair([], n1.(putting := true), Idle(), [e], [], []);
    run := Extend(h, run, f1, TakeHead(0), f2);
    var f3 := Pair([], Node(map[t := v], [], false, [0], map[], {}, {t}), Idle(), [e], [], [e]);
    assert [e][1..] == [];
    run := Extend(h, run, f2, PublishFails(0), f3);
  }

  ghost function Copies(n: nat, e: Entry): (s: seq<Entry>)
    ensures |s| == n && forall i :: 0 <= i < n ==> s[i] == e
  {
    seq(n, _ => e)
  }

  ghost function LogCopies(n: nat, e: Entry): (s: Log)
    ensures |s| == n && forall i :: 0 <= i < n ==> s[i] == Some(e)
  {
    seq(n, _ => Some(e))
  }

  /** The first instance with `n` announcements of one template waiting. */
  ghost function Filling(t: TemplateId, e: Entry, n: nat): Fleet {
    Pair([], Node(map[t := e.value], Copies(n, e), false, [0], map[], {t}, {}), Idle(), Copies(n, e), [], [])
  }

  lemma FillQueue(h: Partitioner, t: TemplateId, v: nat) returns (run: seq<Fleet>)
    requires ValidId(t)
    ensures Run(h, run) && run[|run| - 1] == Filling(t, Entry(Format(t), v), PUBLISH_QUEUE)
  {
    hide Format, Run;
    var e := Entry(Format(t), v);
    run := StartPair(h);
    assert [] + [e] == [e] == Copies(1, e);
    assert Learn(Idle(), t, v, true) == Filling(t, e, 1).nodes[0];
    LearnFirst(h, Pair([], Idle(), Idle(), [], [], []), t, v, Filling(t, e, 1));
    run := Extend(h, run, Pair([], Idle(), Idle(), [], [], []), LearnAt(0, t, v, true), Filling(t, e, 1));
    var n := 1;
    while n < PUBLISH_QUEUE
      invariant 1 <= n <= PUBLISH_QUEUE && Run(h, run) && |run| > 0 && run[|run| - 1] == Filling(t, e, n)
    {
      var f, f' := Filling(t, e, n), Filling(t, e, n + 1);
      assert Copies(n, e) + [e] == Copies(n + 1, e);
      assert f.nodes[0].templates[t := v] == f'.nodes[0].templates && f.nodes[0].pending + {t} == {t};
      assert Learn(f.nodes[0], t, v, true) == f'.nodes[0];
      LearnFirst(h, f, t, v, f');
      run := Extend(h, run, f, LearnAt(0, t, v, true), f');
      n := n + 1;
    }
  }

  /** The other template is learned when the queue is full; `n` announcements are published. */
  ghost function Publishing(t: TemplateId, e: Entry, u: TemplateId, w: nat, n: nat): Fleet
    requires n <= PUBLISH_QUEUE
  {
    var waiting := PUBLISH_QUEUE - n;
    Pair(LogCopies(n, e),
         Node(map[t := e.value, u := w], Copies(waiting, e), false, [0], map[], if waiting == 0 then {} else {t}, {u}),
         Idle(), Copies(PUBLISH_QUEUE, e) + [Entry(Format(u), w)], Copies(n, e), [Entry(Format(u), w)])
  }

  lemma DropOne(h: Partitioner, t: TemplateId, v: nat, u: TemplateId, w: nat) returns (run: seq<Fleet>)
    requires ValidId(t) && ValidId(u) && t != u
    ensures Run(h, run) && run[|run| - 1] == Publishing(t, Entry(Format(t), v), u, w, 0)
  {
    var e := Entry(Format(t), v);
    run := FillQueue(h, t, v);
    hide Format, Parse, Run;
    var full := Filling(t, e, PUBLISH_QUEUE);
    assert full.nodes[0].pending - {u} == {t} && full.nodes[0].lost + {u} == {u};
    assert Learn(full.nodes[0], u, w, true) == Publishing(t, e, u, w, 0).nodes[0];
    LearnFirst(h, full, u, w, Publishing(t, e, u, w, 0));
    run := Extend(h, run, full, LearnAt(0, u, w, true), Publishing(t, e, u, w, 0));
  }

  lemma DropAndPublish(h: Partitioner, t: TemplateId, v: nat, u: TemplateId, w: nat) returns (run: seq<Fleet>)
    requires ValidId(t) && ValidId(u) && t != u
    ensures Run(h, run) && run[|run| - 1] == Publishing(t, Entry(Format(t), v), u, w, PUBLISH_QUEUE)
  {
    var e := Entry(Format(t), v);
    run := DropOne(h, t, v, u, w);
    KeyRoundTrip(t);
    hide Format, Parse, Run;
    var n := 0;
    hide Publishing;
    while n < PUBLISH_QUEUE
      invariant 0 <= n <= PUBLISH_QUEUE && Run(h, run) && |run| > 0 && run[|run| - 1] == Publishing(t, e, u, w, n)
    {
      run := TakeAndPublish(h, t, e, u, w, n, run);
      n := n + 1;
    }
  }

  lemma TakeAndPublish(h: Partitioner, t: TemplateId, e: Entry, u: TemplateId, w: nat, n: nat, run: seq<Fleet>)
    returns (longer: seq<Fleet>)
    requires n < PUBLISH_QUEUE && e.key == Format(t) && Parse(e.key) == Some(t)
    requires Run(h, run) && run[|run| - 1] == Publishing(t, e, u, w, n)
    ensures Run(h, longer) && longer[|longer| - 1] == Publishing(t, e, u, w, n + 1)
  {
    hide Format, Parse, Run;
    var f := Publishing(t, e, u, w, n);
    var mid := f.(nodes := [f.nodes[0].(putting := true), Idle()]);
    longer := Extend(h, run, f, TakeHead(0), mid);
    PublishOne(h, t, e, u, w, n, mid);
    longer := Extend(h, longer, mid, Publish(0), Publishing(t, e, u, w, n + 1));
  }

  lemma PublishOne(h: Partitioner, t: TemplateId, e: Entry, u: TemplateId, w: nat, n: nat, mid: Fleet)
    requires n < PUBLISH_QUEUE && e.key == Format(t) && Parse(e.key) == Some(t)
    requires var f := Publishing(t, e, u, w, n); mid == f.(nodes := [f.nodes[0].(putting := true), Idle()])
    ensures Enabled(mid, Publish(0)) && Next(h, mid, Publish(0)) == Publishing(t, e, u, w, n + 1)
  {
    hide Format, Parse;
    var f' := Publishing(t, e, u, w, n + 1);
    var waiting := PUBLISH_QUEUE - n;
    assert Copies(waiting, e)[1..] == Copies(waiting - 1, e);
    assert waiting > 1 ==> Copies(waiting - 1, e)[0].key == e.key;
    assert LogCopies(n, e) + [Some(e)] == LogCopies(n + 1, e);
    assert Copies(n, e) + [e] == Copies(n + 1, e);
    assert Done(mid.nodes[0], true) == f'.nodes[0];
    assert PartOf(h, e.key, 1) == 0;
  }

  /** Both watchers read; `a` and `b` are how far they are. */
  ghost function Reading(t: TemplateId, e: Entry, u: TemplateId, w: nat, a: nat, b: nat): Fleet {
    var f := Publishing(t, e, u, w, PUBLISH_QUEUE);
    var seen := if b == 0 then map[] else map[t := e.value];
    f.(nodes := [f.nodes[0].(pos := [a], read := if a == 0 then map[] else map[t := e.value]),
                 Node(seen, [], false, [b], seen, {}, {})])
  }

  /** A full queue is enough: every publication that was queued succeeds, and still the instances
      end up with different templates, because one version was dropped. */
  lemma FullQueueDiverges(h: Partitioner, t: TemplateId, v: nat, u: TemplateId, w: nat) returns (run: seq<Fleet>)
    requires ValidId(t) && ValidId(u) && t != u
    ensures Run(h, run) && Quiescent(run[|run| - 1]) && |run[|run| - 1].nodes| == 2
    ensures run[|run| - 1].nodes[0].templates == map[t := v, u := w]
    ensures run[|run| - 1].nodes[1].templates == map[t := v]
  {
    var e := Entry(Format(t), v);
    run := DropAndPublish(h, t, v, u, w);
    KeyRoundTrip(t);
    hide Format, Parse, Run;
    assert Reading(t, e, u, w, 0, 0) == Publishing(t, e, u, w, PUBLISH_QUEUE);
    var a, b := 0, 0;
    while a < PUBLISH_QUEUE
      invariant 0 <= a <= PUBLISH_QUEUE && Run(h, run) && |run| > 0 && run[|run| - 1] == Reading(t, e, u, w, a, 0)
    {
      ReadOne(h, t, e, u, w, a, 0, 0);
      run := Extend(h, run, Reading(t, e, u, w, a, 0), Consume(0, 0), Reading(t, e, u, w, a + 1, 0));
      a := a + 1;
    }
    while b < PUBLISH_QUEUE
      invariant 0 <= b <= PUBLISH_QUEUE && Run(h, run) && |run| > 0
      invariant run[|run| - 1] == Reading(t, e, u, w, PUBLISH_QUEUE, b)
    {
      ReadOne(h, t, e, u, w, PUBLISH_QUEUE, b, 1);
      run := Extend(h, run, Reading(t, e, u, w, a, b), Consume(1, 0), Reading(t, e, u, w, a, b + 1));
      b := b + 1;
    }
  }

  ghost function AfterRead(t: TemplateId, e: Entry, u: TemplateId, w: nat, a: nat, b: nat, i: nat): Fleet {
    if i == 0 then Reading(t, e, u, w, a + 1, b) else Reading(t, e, u, w, a, b + 1)
  }

  lemma ReadOne(h: Partitioner, t: TemplateId, e: Entry, u: TemplateId, w: nat, a: nat, b: nat, i: nat)
    requires t != u && e.key == Format(t) && Parse(e.key) == Some(t) && i < 2
    requires a <= PUBLISH_QUEUE && b <= PUBLISH_QUEUE && (if i == 0 then a else b) < PUBLISH_QUEUE
    ensures var f := Reading(t, e, u, w, a, b);
            && Enabled(f, Consume(i, 0))
            && Next(h, f, Consume(i, 0)) == AfterRead(t, e, u, w, a, b, i)
  {
    hide Format, Parse;
    var f := Reading(t, e, u, w, a, b);
    var n, n' := f.nodes[i], AfterRead(t, e, u, w, a, b, i).nodes[i];
    assert n.templates[t := e.value] == n'.templates && n.read[t := e.value] == n'.read;
    assert n.lost - {t} == n.lost && n.pending - {t} == n.pending;
    assert n.pos[0 := n.pos[0] + 1] == n'.pos;
    assert Read(n, f.logs[0], 0) == n';
  }
}
