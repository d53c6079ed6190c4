/** Store keys of shared templates: exporter/version/domain/id in decimal. */
module TemplateKeys {
  import opened Basics

  /** An exporter is its canonical address text, which is never empty and has no slash. */
  datatype TemplateId = TemplateId(exporter: string, version: nat, domain: nat, id: nat)

  const MAX16 := 0xffff
  const MAX32 := 0xffff_ffff

  predicate ValidId(t: TemplateId) {
    AddrText(t.exporter) && t.version <= MAX16 && t.domain <= MAX32 && t.id <= MAX16
  }

  predicate AddrText(s: string) { s != "" && '/' !in s }

  function Digit(n: nat): char
    requires n < 10
  {
    '0' + n as char
  }

  /** %d */
  function Decimal(n: nat): (s: string)
    ensures |s| > 0 && forall i :: 0 <= i < |s| ==> '0' <= s[i] <= '9'
  {
    if n < 10 then [Digit(n)] else Decimal(n / 10) + [Digit(n % 10)]
  }

  function Value(s: string): (n: nat)
    requires forall i :: 0 <= i < |s| ==> '0' <= s[i] <= '9'
  {
    if s == "" then 0 else Value(s[..|s| - 1]) * 10 + (s[|s| - 1] as int - '0' as int)
  }

  /** strconv.ParseUint(s, 10, bits) with the largest accepted value. */
  function ParseUint(s: string, max: nat): Option<nat> {
    if s == "" || exists i :: 0 <= i < |s| && !('0' <= s[i] <= '9') then None
    else if Value(s) > max then None
    else Some(Value(s))
  }

  /** strings.Split(s, "/") */
  function Split(s: string): (parts: seq<string>)
    ensures |parts| > 0
  {
    if s == "" then [""]
    else
      var rest := Split(s[1..]);
      if s[0] == '/' then [""] + rest else [[s[0]] + rest[0]] + rest[1..]
  }

  function Format(t: TemplateId): string {
    t.exporter + "/" + Decimal(t.version) + "/" + Decimal(t.domain) + "/" + Decimal(t.id)
  }

  function Parse(key: string): Option<TemplateId> {
    var parts := Split(key);
    if |parts| != 4 || !AddrText(parts[0]) then None
    else
      var v, d, i := ParseUint(parts[1], MAX16), ParseUint(parts[2], MAX32), ParseUint(parts[3], MAX16);
      if v.None? || d.None? || i.None? then None
      else Some(TemplateId(parts[0], v.value, d.value, i.value))
  }

  lemma {:induction false} ValueOfDecimal(n: nat)
    ensures Value(Decimal(n)) == n
  {
    if n >= 10 { ValueOfDecimal(n / 10); }
    var s := Decimal(n);
    assert s[..|s| - 1] == if n < 10 then "" else Decimal(n / 10);
  }

  lemma ParseDecimal(n: nat, max: nat)
    requires n <= max
    ensures ParseUint(Decimal(n), max) == Some(n)
  {
    ValueOfDecimal(n);
  }

  lemma {:induction false} SplitPiece(a: string, rest: string)
    requires '/' !in a
    ensures Split(a + "/" + rest) == [a] + Split(rest)
  {
    var s := a + "/" + rest;
    if a == "" {
      assert s[1..] == rest;
    } else {
      assert s[1..] == a[1..] + "/" + rest;
      SplitPiece(a[1..], rest);
      assert [a[0]] + a[1..] == a;
    }
  }

  lemma {:induction false} SplitLast(a: string)
    requires '/' !in a
    ensures Split(a) == [a]
  {
    if a != "" {
      SplitLast(a[1..]);
      assert [a[0]] + a[1..] == a;
    }
  }

  lemma DecimalHasNoSlash(n: nat)
    ensures '/' !in Decimal(n)
  {
  }

  /** Whatever a key says, only ids that the protocol has are read from it. */
  lemma ParsedIsValid(key: string)
    ensures Parse(key).Some? ==> ValidId(Parse(key).value)
    ensures Parse(key).Some? ==> Parse(key).value.version < 0x1_0000 && Parse(key).value.domain < 0x1_0000_0000
                                 && Parse(key).value.id < 0x1_0000
  {
  }

  /** Every published key parses back, so distinct templates never share a key. */
  lemma KeyRoundTrip(t: TemplateId)
    requires ValidId(t)
    ensures Parse(Format(t)) == Some(t)
  {
    var v, d, i := Decimal(t.version), Decimal(t.domain), Decimal(t.id);
    assert Format(t) == t.exporter + "/" + (v + "/" + (d + "/" + i));
    SplitPiece(t.exporter, v + "/" + (d + "/" + i));
    DecimalHasNoSlash(t.version);
    DecimalHasNoSlash(t.domain);
    DecimalHasNoSlash(t.id);
    SplitPiece(v, d + "/" + i);
    SplitPiece(d, i);
    SplitLast(i);
    ParseDecimal(t.version, MAX16);
    ParseDecimal(t.domain, MAX32);
    ParseDecimal(t.id, MAX16);
  }
}

/** Template sharing between any number of collector instances through a compacted, partitioned
    topic: learn, bounded publish queue, publish, consume, compaction, restart, in any order. */
module Templates {
  import opened Basics
  import opened TemplateKeys

  /** `value` stands for the encoded template. */
  datatype Entry = Entry(key: string, value: nat)

  /** A partition; `None` is an offset that compaction has emptied. */
  type Log = seq<Option<Entry>>

  datatype Node = Node(
    templates: map<TemplateId, nat>,
    queue: seq<Entry>,          // what the publisher is putting, then the queue behind it
    putting: bool,              // the publisher has taken the head
    pos: seq<nat>,              // the watcher's offset per partition
    read: map<TemplateId, nat>, // history: the version the watcher last read of each template
    pending: set<TemplateId>,   // history: held version learned here, its announcement still queued
    lost: set<TemplateId>)      // history: held version learned here, its announcement missed

  datatype Fleet = Fleet(
    logs: seq<Log>,
    nodes: seq<Node>,
    full: seq<Log>,             // history: the logs without compaction
    learned: seq<Entry>,        // history: everything learned from the wire
    published: seq<Entry>,      // history: everything that reached the topic
    missed: seq<Entry>)         // history: everything dropped, failed, or queued when an instance restarted

  const PUBLISH_QUEUE := 1024

  // ---------------------------------------------------------------- one instance

  predicate Queued(queue: seq<Entry>, key: string) {
    exists k :: 0 <= k < |queue| && queue[k].key == key
  }

  predicate HasRoom(n: Node) { |n.queue| < PUBLISH_QUEUE + if n.putting then 1 else 0 }

  function Lookup(m: map<TemplateId, nat>, t: TemplateId): Option<nat> {
    if t in m then Some(m[t]) else None
  }

  /** A template arrives from the wire: install it, and queue it unless it does not encode or the
      queue is full. An exporter that re-sends the version held changes nothing while an earlier
      announcement of it is still queued. */
  function Learn(n: Node, t: TemplateId, v: nat, encodes: bool): Node {
    var n' := n.(templates := n.templates[t := v]);
    if encodes && HasRoom(n)
    then n'.(queue := n.queue + [Entry(Format(t), v)], pending := n.pending + {t}, lost := n.lost - {t})
    else if t in n.pending && Lookup(n.templates, t) == Some(v) then n
    else Miss(n', t)
  }

  /** The announcement of the held version is missed. That is no loss if the version is the one the
      log gave last, as it is when an exporter re-sends what is already shared. */
  function Miss(n: Node, t: TemplateId): Node {
    var known := Lookup(n.read, t) == Lookup(n.templates, t);
    n.(pending := n.pending - {t}, lost := if known then n.lost - {t} else n.lost + {t})
  }

  /** A stored template is installed without being queued again; one whose key or value cannot be
      read, or that the decoder refuses, is ignored. */
  function Apply(n: Node, e: Entry, usable: bool): Node {
    match Parse(e.key)
    case None => n
    case Some(t) =>
      if usable then Install(n, t, e.value) else n
  }

  function Install(n: Node, t: TemplateId, v: nat): Node {
    n.(templates := n.templates[t := v], read := n.read[t := v], pending := n.pending - {t}, lost := n.lost - {t})
  }

  /** The publisher is done with the head, which `stored` says. If it was the last announcement of
      the held version of its template, that version is now shared or missed. */
  function Done(n: Node, stored: bool): Node
    requires |n.queue| > 0
  {
    var e, rest := n.queue[0], n.queue[1..];
    var n' := n.(queue := rest, putting := false);
    match Parse(e.key)
    case None => n'
    case Some(t) =>
      if t !in n.pending || Queued(rest, e.key) then n'
      else if stored then n'.(pending := n.pending - {t})
      else Miss(n', t)
  }

  function Boot(partitions: nat): Node { Node(map[], [], false, seq(partitions, _ => 0), map[], {}, {}) }

  // ---------------------------------------------------------------- the fleet

  datatype Action =
    | LearnAt(node: nat, t: TemplateId, v: nat, encodes: bool)
    | TakeHead(node: nat)
    | Publish(node: nat)
    | PublishUnconfirmed(node: nat)   // the record reached the topic, and Put reports an error
    | PublishFails(node: nat)
    | Consume(node: nat, part: nat)
    | Compact(part: nat, off: nat)
    | Restart(node: nat)

  /** The producer's partitioner, any function of the key. */
  type Partitioner = string -> nat

  function PartOf(h: Partitioner, key: string, partitions: nat): nat
    requires partitions > 0
  {
    h(key) % partitions
  }

  predicate Superseded(log: Log, off: nat) {
    off < |log| && log[off].Some?
    && exists k :: off < k < |log| && log[k].Some? && log[k].value.key == log[off].value.key
  }

  predicate CanPut(f: Fleet, i: nat) {
    i < |f.nodes| && |f.nodes[i].queue| > 0 && f.nodes[i].putting && |f.logs| == |f.full| > 0
  }

  predicate Enabled(f: Fleet, a: Action) {
    match a
    case LearnAt(i, t, v, _) => i < |f.nodes| && ValidId(t)
    case TakeHead(i) => i < |f.nodes| && |f.nodes[i].queue| > 0 && !f.nodes[i].putting
    case Publish(i) => CanPut(f, i)
    case PublishUnconfirmed(i) => CanPut(f, i)
    case PublishFails(i) => CanPut(f, i)
    case Consume(i, p) => i < |f.nodes| && p < |f.logs| && p < |f.nodes[i].pos| && f.nodes[i].pos[p] < |f.logs[p]|
    case Compact(p, off) => p < |f.logs| && Superseded(f.logs[p], off)
    case Restart(i) => i < |f.nodes|
  }

  function Next(h: Partitioner, f: Fleet, a: Action): Fleet
    requires Enabled(f, a)
  {
    match a
    case LearnAt(i, t, v, encodes) =>
      var e, queued := Entry(Format(t), v), encodes && HasRoom(f.nodes[i]);
      f.(nodes := f.nodes[i := Learn(f.nodes[i], t, v, encodes)], learned := f.learned + [e],
         missed := f.missed + if queued then [] else [e])
    case TakeHead(i) => f.(nodes := f.nodes[i := f.nodes[i].(putting := true)])
    case Publish(i) => Append(h, f, f.nodes[i].queue[0]).(nodes := f.nodes[i := Done(f.nodes[i], true)])
    case PublishUnconfirmed(i) => Append(h, f, f.nodes[i].queue[0]).(nodes := f.nodes[i := Done(f.nodes[i], false)])
    case PublishFails(i) =>
      f.(nodes := f.nodes[i := Done(f.nodes[i], false)], missed := f.missed + [f.nodes[i].queue[0]])
    case Consume(i, p) => f.(nodes := f.nodes[i := Read(f.nodes[i], f.logs[p], p)])
    case Compact(p, off) => f.(logs := f.logs[p := f.logs[p][off := None]])
    case Restart(i) => f.(nodes := f.nodes[i := Boot(|f.logs|)], missed := f.missed + f.nodes[i].queue)
  }

  /** The topic after one more record. */
  function Append(h: Partitioner, f: Fleet, e: Entry): Fleet
    requires |f.logs| == |f.full| > 0
  {
    var p := PartOf(h, e.key, |f.logs|);
    f.(logs := f.logs[p := f.logs[p] + [Some(e)]], full := f.full[p := f.full[p] + [Some(e)]],
       published := f.published + [e])
  }

  /** The watcher reads the next offset of partition `p`. What one instance installed and encoded,
      another decodes and installs. */
  function Read(n: Node, log: Log, p: nat): Node
    requires p < |n.pos| && n.pos[p] < |log|
  {
    var x := log[n.pos[p]];
    (if x.Some? then Apply(n, x.value, true) else n).(pos := n.pos[p := n.pos[p] + 1])
  }

  ghost predicate Step(h: Partitioner, f: Fleet, f': Fleet) {
    exists a :: Enabled(f, a) && f' == Next(h, f, a)
  }

  ghost predicate Initial(f: Fleet) {
    && |f.logs| > 0
    && (forall p :: 0 <= p < |f.logs| ==> f.logs[p] == [])
    && (forall i :: 0 <= i < |f.nodes| ==> f.nodes[i] == Boot(|f.logs|))
    && f.full == f.logs && f.learned == f.published == f.missed == []
  }

  ghost predicate Run(h: Partitioner, run: seq<Fleet>) {
    && |run| > 0
    && Initial(run[0])
    && forall i :: 0 < i < |run| ==> StepAt(h, run, i)
  }

  ghost predicate StepAt(h: Partitioner, run: seq<Fleet>, i: nat)
    requires 0 < i < |run|
  {
    Step(h, run[i - 1], run[i])
  }

  // ---------------------------------------------------------------- the last word

  /** The latest value of a key in a partition. */
  function Last(log: Log, key: string): Option<nat> {
    if log == [] then None
    else
      var x := log[|log| - 1];
      if x.Some? && x.value.key == key then Some(x.value.value) else Last(log[..|log| - 1], key)
  }

  predicate Mentions(log: Log, from: nat, key: string) {
    exists k :: from <= k < |log| && log[k].Some? && log[k].value.key == key
  }

  lemma {:induction false} LastAt(log: Log, n: nat, key: string)
    requires n < |log| && log[n].Some? && log[n].value.key == key && !Mentions(log, n + 1, key)
    ensures Last(log, key) == Some(log[n].value.value)
  {
    if n < |log| - 1 {
      assert log[|log| - 1].Some? ==> log[|log| - 1].value.key != key;
      var front := log[..|log| - 1];
      assert forall k :: n + 1 <= k < |front| ==> front[k] == log[k];
      LastAt(front, n, key);
    }
  }

  lemma {:induction false} LastNever(log: Log, key: string)
    requires !Mentions(log, 0, key)
    ensures Last(log, key) == None
  {
    if log != [] {
      var front := log[..|log| - 1];
      assert forall k :: 0 <= k < |front| ==> front[k] == log[k];
      LastNever(front, key);
    }
  }

  /** Compaction never changes the last word on any key. */
  lemma {:induction false} CompactKeepsLast(log: Log, off: nat, key: string)
    requires Superseded(log, off)
    ensures Last(log[off := None], key) == Last(log, key)
  {
    var log' := log[off := None];
    var k :| off < k < |log| && log[k].Some? && log[k].value.key == log[off].value.key;
    var front := log[..|log| - 1];
    assert log'[..|log| - 1] == front[off := None];
    if log[|log| - 1].Some? && log[|log| - 1].value.key == key {
    } else if k < |log| - 1 {
      assert front[k] == log[k];
      CompactKeepsLast(front, off, key);
    } else {
      DropOther(front, off, key);
    }
  }

  lemma {:induction false} DropOther(log: Log, off: nat, key: string)
    requires off < |log| && log[off].Some? && log[off].value.key != key
    ensures Last(log[off := None], key) == Last(log, key)
  {
    var front := log[..|log| - 1];
    if off < |log| - 1 {
      assert log[off := None][..|log| - 1] == front[off := None];
      DropOther(front, off, key);
    } else {
      assert log[off := None][..|log| - 1] == front;
    }
  }

  lemma CompactKeepsMentions(log: Log, off: nat, from: nat, key: string)
    requires Superseded(log, off) && Mentions(log, from, key)
    ensures Mentions(log[off := None], from, key)
  {
    var k :| from <= k < |log| && log[k].Some? && log[k].value.key == key;
    if k == off {
      var j :| off < j < |log| && log[j].Some? && log[j].value.key == log[off].value.key;
      assert log[off := None][j] == log[j];
    } else {
      assert log[off := None][k] == log[k];
    }
  }

  // ---------------------------------------------------------------- the invariant

  /** With a watcher at `pos`, `m` has the log's last word on `t`, or more on `t` is to come. */
  ghost predicate Reflects(h: Partitioner, logs: seq<Log>, pos: seq<nat>, m: map<TemplateId, nat>, t: TemplateId)
    requires |logs| > 0 && |pos| == |logs|
  {
    var key := Format(t);
    var p := PartOf(h, key, |logs|);
    Mentions(logs[p], pos[p], key) || Lookup(m, t) == Last(logs[p], key)
  }

  /** Node `n` either agrees with the log on `t` or has news of it under way, unless it lost it; what
      it read agrees with the log in any case. */
  ghost predicate Settled(h: Partitioner, logs: seq<Log>, n: Node, t: TemplateId)
    requires |logs| > 0 && |n.pos| == |logs|
  {
    && (t in n.lost || t in n.pending || Reflects(h, logs, n.pos, n.templates, t))
    && Reflects(h, logs, n.pos, n.read, t)
  }

  /** The held version of `t` is the last one queued. */
  ghost predicate Awaits(n: Node, t: TemplateId) {
    t in n.templates && exists k :: LastQueued(n.queue, k, Entry(Format(t), n.templates[t]))
  }

  ghost predicate LastQueued(queue: seq<Entry>, k: int, e: Entry) {
    0 <= k < |queue| && queue[k] == e && forall m :: k < m < |queue| ==> queue[m].key != e.key
  }

  ghost predicate Held(n: Node) {
    && (forall t :: t in n.templates ==> ValidId(t))
    && (forall t :: t in n.pending ==> Awaits(n, t))
    && (forall t :: t in n.lost ==> t in n.templates && Lookup(n.read, t) != Some(n.templates[t]))
    && (forall k :: 0 <= k < |n.queue| ==> Published(n.queue[k]))
  }

  ghost predicate NodeGood(h: Partitioner, logs: seq<Log>, n: Node)
    requires |logs| > 0
  {
    && |n.pos| == |logs|
    && (forall p :: 0 <= p < |logs| ==> n.pos[p] <= |logs[p]|)
    && (forall t :: ValidId(t) ==> Settled(h, logs, n, t))
    && Held(n)
  }

  ghost predicate Published(e: Entry) { exists t :: ValidId(t) && e.key == Format(t) }

  /** Every entry is in the partition of its key, and its key is one that a node formatted. */
  ghost predicate LogGood(h: Partitioner, logs: seq<Log>, p: nat)
    requires p < |logs|
  {
    forall k :: 0 <= k < |logs[p]| && logs[p][k].Some? ==>
      Published(logs[p][k].value) && PartOf(h, logs[p][k].value.key, |logs|) == p
  }

  ghost predicate Good(h: Partitioner, f: Fleet) {
    && |f.logs| > 0
    && (forall p :: 0 <= p < |f.logs| ==> LogGood(h, f.logs, p))
    && (forall i :: 0 <= i < |f.nodes| ==> NodeGood(h, f.logs, f.nodes[i]))
  }

  lemma BootIsGood(h: Partitioner, logs: seq<Log>)
    requires |logs| > 0
    ensures NodeGood(h, logs, Boot(|logs|))
  {
    var n := Boot(|logs|);
    forall t | ValidId(t) ensures Settled(h, logs, n, t) {
      var p := PartOf(h, Format(t), |logs|);
      if !Mentions(logs[p], 0, Format(t)) { LastNever(logs[p], Format(t)); }
    }
  }

  lemma SameKey(t: TemplateId, u: TemplateId)
    requires ValidId(t) && ValidId(u) && Format(t) == Format(u)
    ensures t == u
  {
    KeyRoundTrip(t);
    KeyRoundTrip(u);
  }

  lemma LearnHeld(n: Node, t: TemplateId, v: nat, encodes: bool)
    requires Held(n) && ValidId(t)
    ensures Held(Learn(n, t, v, encodes))
  {
    var n' := Learn(n, t, v, encodes);
    hide HasRoom, Format;
    forall k | 0 <= k < |n'.queue| ensures Published(n'.queue[k]) {
      if k < |n.queue| { assert Published(n.queue[k]); }
    }
    forall u | u in n'.pending ensures Awaits(n', u) {
      if n' == n {
        assert Awaits(n, u);
      } else if u == t {
        assert n'.queue == n.queue + [Entry(Format(t), v)];
        assert LastQueued(n'.queue, |n.queue|, Entry(Format(u), n'.templates[u]));
      } else {
        assert Awaits(n, u);
        var e := Entry(Format(u), n.templates[u]);
        var k :| LastQueued(n.queue, k, e);
        if Format(u) == Format(t) { SameKey(t, u); }
        assert LastQueued(n'.queue, k, Entry(Format(u), n'.templates[u]));
      }
    }
  }

  lemma LearnKeeps(h: Partitioner, logs: seq<Log>, n: Node, t: TemplateId, v: nat, encodes: bool)
    requires |logs| > 0 && NodeGood(h, logs, n) && ValidId(t)
    ensures NodeGood(h, logs, Learn(n, t, v, encodes))
  {
    LearnHeld(n, t, v, encodes);
    hide Held, Format;
    forall u | ValidId(u) ensures Settled(h, logs, Learn(n, t, v, encodes), u) {
      assert Settled(h, logs, n, u);
    }
  }

  /** From `n` to `n'` the only news is about `t`, and in the queue. */
  ghost predicate OnlyAbout(n: Node, n': Node, t: TemplateId) {
    && n'.templates == n.templates && n'.read == n.read && n'.pos == n.pos
    && forall u :: u != t ==> (u in n'.pending <==> u in n.pending) && (u in n'.lost <==> u in n.lost)
  }

  /** What the publisher does with the head concerns only the template it is about. */
  lemma DoneHead(n: Node, stored: bool) returns (t: TemplateId)
    requires Held(n) && |n.queue| > 0
    ensures ValidId(t) && n.queue[0].key == Format(t) && Parse(n.queue[0].key) == Some(t)
    ensures OnlyAbout(n, Done(n, stored), t)
  {
    assert Published(n.queue[0]);
    t :| ValidId(t) && n.queue[0].key == Format(t);
    KeyRoundTrip(t);
  }

  lemma DonePending(n: Node, stored: bool, t: TemplateId, u: TemplateId)
    requires Held(n) && |n.queue| > 0 && u in Done(n, stored).pending
    requires ValidId(t) && n.queue[0].key == Format(t) && Parse(n.queue[0].key) == Some(t)
    ensures Awaits(Done(n, stored), u)
  {
    var n' := Done(n, stored);
    hide Format, Parse;
    assert Awaits(n, u);
    var e := Entry(Format(u), n.templates[u]);
    var k :| LastQueued(n.queue, k, e);
    if Format(u) == Format(t) {
      SameKey(t, u);
      var m :| 0 <= m < |n'.queue| && n'.queue[m].key == e.key;
      assert n.queue[m + 1].key == e.key;
    }
    assert k > 0;
    assert LastQueued(n'.queue, k - 1, e);
  }

  lemma DoneHeld(n: Node, stored: bool)
    requires Held(n) && |n.queue| > 0
    ensures Held(Done(n, stored))
  {
    var n' := Done(n, stored);
    var t := DoneHead(n, stored);
    hide Format, Queued;
    forall k | 0 <= k < |n'.queue| ensures Published(n'.queue[k]) { assert Published(n.queue[k + 1]); }
    forall u | u in n'.pending ensures Awaits(n', u) { DonePending(n, stored, t, u); }
    if t in n.pending { assert Awaits(n, t); }
  }

  lemma FailKeeps(h: Partitioner, logs: seq<Log>, n: Node)
    requires |logs| > 0 && NodeGood(h, logs, n) && |n.queue| > 0
    ensures NodeGood(h, logs, Done(n, false))
  {
    var t := DoneHead(n, false);
    DoneHeld(n, false);
    hide Held, Format, Parse;
    forall u | ValidId(u) ensures Settled(h, logs, Done(n, false), u) {
      assert Settled(h, logs, n, u);
    }
  }

  /** A new entry is news for everyone who has not read it. */
  lemma AppendKeeps(h: Partitioner, logs: seq<Log>, n: Node, e: Entry, p: nat)
    requires |logs| > 0 && NodeGood(h, logs, n) && Published(e) && p == PartOf(h, e.key, |logs|)
    ensures NodeGood(h, logs[p := logs[p] + [Some(e)]], n)
  {
    var t :| ValidId(t) && e.key == Format(t);
    hide Held;
    AppendSettles(h, logs, n, n, e, p, t);
  }

  lemma PublishKeeps(h: Partitioner, logs: seq<Log>, n: Node, p: nat, stored: bool)
    requires |logs| > 0 && NodeGood(h, logs, n) && |n.queue| > 0 && p == PartOf(h, n.queue[0].key, |logs|)
    ensures NodeGood(h, logs[p := logs[p] + [Some(n.queue[0])]], Done(n, stored))
  {
    var t := DoneHead(n, stored);
    DoneHeld(n, stored);
    hide Held, Done;
    AppendSettles(h, logs, n, Done(n, stored), n.queue[0], p, t);
  }

  lemma AppendSettles(h: Partitioner, logs: seq<Log>, n: Node, n': Node, e: Entry, p: nat, t: TemplateId)
    requires |logs| > 0 && |n.pos| == |logs| && OnlyAbout(n, n', t)
    requires forall u :: ValidId(u) ==> Settled(h, logs, n, u)
    requires ValidId(t) && e.key == Format(t) && p == PartOf(h, e.key, |logs|) && n.pos[p] <= |logs[p]|
    ensures forall u :: ValidId(u) ==> Settled(h, logs[p := logs[p] + [Some(e)]], n', u)
  {
    var logs' := logs[p := logs[p] + [Some(e)]];
    hide Format, Parse;
    forall u | ValidId(u) ensures Settled(h, logs', n', u) {
      assert Settled(h, logs, n, u);
      if u == t {
        assert logs'[p][|logs[p]|] == Some(e);
        assert Mentions(logs'[p], n.pos[p], Format(u));
      } else {
        if Format(u) == e.key { SameKey(t, u); }
        AppendOther(logs, PartOf(h, Format(u), |logs|), p, e, n.pos, Format(u));
      }
    }
  }

  lemma AppendOther(logs: seq<Log>, q: nat, p: nat, e: Entry, pos: seq<nat>, key: string)
    requires q < |logs| == |pos| && p < |logs| && key != e.key
    ensures var logs' := logs[p := logs[p] + [Some(e)]];
            && Last(logs'[q], key) == Last(logs[q], key)
            && (Mentions(logs[q], pos[q], key) ==> Mentions(logs'[q], pos[q], key))
  {
    var logs' := logs[p := logs[p] + [Some(e)]];
    assert (logs[p] + [Some(e)])[..|logs[p]|] == logs[p];
    if Mentions(logs[q], pos[q], key) {
      var k :| pos[q] <= k < |logs[q]| && logs[q][k].Some? && logs[q][k].value.key == key;
      assert logs'[q][k] == logs[q][k];
    }
  }

  lemma ApplyHeld(n: Node, e: Entry, t: TemplateId)
    requires Held(n) && ValidId(t) && e.key == Format(t)
    ensures Parse(e.key) == Some(t) && Held(Apply(n, e, true))
  {
    KeyRoundTrip(t);
    var n' := Apply(n, e, true);
    hide Format, Parse;
    forall u | u in n'.pending ensures Awaits(n', u) {
      assert Awaits(n, u);
      var k :| LastQueued(n.queue, k, Entry(Format(u), n.templates[u]));
      assert LastQueued(n'.queue, k, Entry(Format(u), n'.templates[u]));
    }
  }

  lemma HeldMoves(n: Node, pos: seq<nat>)
    requires Held(n)
    ensures Held(n.(pos := pos)) && Held(n.(putting := true))
  {
    forall u | u in n.pending ensures Awaits(n.(pos := pos), u) && Awaits(n.(putting := true), u) {
      assert Awaits(n, u);
    }
  }

  /** Reading on: what was news about the entry's key has arrived, or more is to come. */
  lemma ConsumeKeeps(h: Partitioner, logs: seq<Log>, n: Node, p: nat)
    requires |logs| > 0 && NodeGood(h, logs, n) && p < |logs| && n.pos[p] < |logs[p]| && LogGood(h, logs, p)
    ensures NodeGood(h, logs, Read(n, logs[p], p))
  {
    var x := logs[p][n.pos[p]];
    if x.Some? {
      assert Published(x.value);
      var t :| ValidId(t) && x.value.key == Format(t);
      ApplyHeld(n, x.value, t);
      HeldMoves(Apply(n, x.value, true), Read(n, logs[p], p).pos);
      hide Held;
      ReadEntry(h, logs, n, p, t);
    } else {
      HeldMoves(n, Read(n, logs[p], p).pos);
      hide Held;
      ReadGap(h, logs, n, p);
    }
  }

  lemma ReadEntry(h: Partitioner, logs: seq<Log>, n: Node, p: nat, t: TemplateId)
    requires |logs| > 0 && |n.pos| == |logs| && p < |logs| && n.pos[p] < |logs[p]| && logs[p][n.pos[p]].Some?
    requires forall u :: ValidId(u) ==> Settled(h, logs, n, u)
    requires var e := logs[p][n.pos[p]].value;
             ValidId(t) && e.key == Format(t) && Parse(e.key) == Some(t) && PartOf(h, e.key, |logs|) == p
    ensures forall u :: ValidId(u) ==> Settled(h, logs, Read(n, logs[p], p), u)
  {
    var n' := Read(n, logs[p], p);
    hide Format, Parse;
    forall u | ValidId(u) ensures Settled(h, logs, n', u) {
      assert Settled(h, logs, n, u);
      if u == t {
        Arrived(h, logs, n.pos, n'.templates, p, t);
        Arrived(h, logs, n.pos, n'.read, p, t);
      } else {
        if Format(u) == Format(t) { SameKey(t, u); }
        ReadPast(h, logs, n.pos, n.templates, n'.templates, p, u);
        ReadPast(h, logs, n.pos, n.read, n'.read, p, u);
      }
    }
  }

  lemma ReadGap(h: Partitioner, logs: seq<Log>, n: Node, p: nat)
    requires |logs| > 0 && |n.pos| == |logs| && p < |logs| && n.pos[p] < |logs[p]| && logs[p][n.pos[p]].None?
    requires forall u :: ValidId(u) ==> Settled(h, logs, n, u)
    ensures forall u :: ValidId(u) ==> Settled(h, logs, Read(n, logs[p], p), u)
  {
    forall u | ValidId(u) ensures Settled(h, logs, Read(n, logs[p], p), u) {
      assert Settled(h, logs, n, u);
      ReadPast(h, logs, n.pos, n.templates, n.templates, p, u);
      ReadPast(h, logs, n.pos, n.read, n.read, p, u);
    }
  }

  lemma Arrived(h: Partitioner, logs: seq<Log>, pos: seq<nat>, m: map<TemplateId, nat>, p: nat, t: TemplateId)
    requires |logs| > 0 && |pos| == |logs| && p < |logs| && pos[p] < |logs[p]|
    requires t in m && PartOf(h, Format(t), |logs|) == p
    requires logs[p][pos[p]] == Some(Entry(Format(t), m[t]))
    ensures Reflects(h, logs, pos[p := pos[p] + 1], m, t)
  {
    if !Mentions(logs[p], pos[p] + 1, Format(t)) { LastAt(logs[p], pos[p], Format(t)); }
  }

  /** Reading past an offset that is not about `u`. */
  lemma ReadPast(h: Partitioner, logs: seq<Log>, pos: seq<nat>, m: map<TemplateId, nat>, m': map<TemplateId, nat>,
                 p: nat, u: TemplateId)
    requires |logs| > 0 && |pos| == |logs| && p < |logs| && pos[p] < |logs[p]|
    requires logs[p][pos[p]].Some? ==> logs[p][pos[p]].value.key != Format(u)
    requires Lookup(m', u) == Lookup(m, u)
    ensures Reflects(h, logs, pos, m, u) ==> Reflects(h, logs, pos[p := pos[p] + 1], m', u)
  {
    var key := Format(u);
    var q := PartOf(h, key, |logs|);
    if Mentions(logs[q], pos[q], key) {
      var k :| pos[q] <= k < |logs[q]| && logs[q][k].Some? && logs[q][k].value.key == key;
      assert q == p ==> k != pos[p];
    }
  }

  lemma CompactKeeps(h: Partitioner, logs: seq<Log>, n: Node, p: nat, off: nat)
    requires |logs| > 0 && NodeGood(h, logs, n) && p < |logs| && Superseded(logs[p], off)
    ensures NodeGood(h, logs[p := logs[p][off := None]], n)
  {
    var logs' := logs[p := logs[p][off := None]];
    forall u | ValidId(u) ensures Settled(h, logs', n, u) {
      assert Settled(h, logs, n, u);
      var key := Format(u);
      if PartOf(h, key, |logs|) == p {
        CompactKeepsLast(logs[p], off, key);
        if Mentions(logs[p], n.pos[p], key) { CompactKeepsMentions(logs[p], off, n.pos[p], key); }
      }
    }
  }

  lemma LogsStayGood(h: Partitioner, f: Fleet, a: Action)
    requires Good(h, f) && Enabled(f, a)
    ensures |Next(h, f, a).logs| == |f.logs|
    ensures forall p :: 0 <= p < |f.logs| ==> LogGood(h, Next(h, f, a).logs, p)
  {
    var f' := Next(h, f, a);
    if a.Publish? || a.PublishUnconfirmed? {
      assert NodeGood(h, f.logs, f.nodes[a.node]) && Published(f.nodes[a.node].queue[0]);
    }
    hide Format, Parse, NodeGood;
    forall p | 0 <= p < |f.logs| ensures LogGood(h, f'.logs, p) {
      assert LogGood(h, f.logs, p);
    }
  }

  /** The head of `j` reaches the topic, and `j` is told whether it did. */
  lemma PutStep(h: Partitioner, f: Fleet, i: nat, j: nat, stored: bool)
    requires Good(h, f) && CanPut(f, j) && i < |f.nodes|
    ensures |Append(h, f, f.nodes[j].queue[0]).logs| > 0
    ensures NodeGood(h, Append(h, f, f.nodes[j].queue[0]).logs, if i == j then Done(f.nodes[j], stored) else f.nodes[i])
  {
    var e := f.nodes[j].queue[0];
    assert NodeGood(h, f.logs, f.nodes[i]) && NodeGood(h, f.logs, f.nodes[j]);
    assert Published(e);
    hide NodeGood, Done;
    var p := PartOf(h, e.key, |f.logs|);
    if i == j { PublishKeeps(h, f.logs, f.nodes[j], p, stored); } else { AppendKeeps(h, f.logs, f.nodes[i], e, p); }
  }

  /** A replaced instance has forgotten everything and reads every partition from the start. */
  lemma RestartStartsOver(h: Partitioner, f: Fleet, i: nat)
    requires Enabled(f, Restart(i))
    ensures var f' := Next(h, f, Restart(i));
            && f'.logs == f.logs && |f'.nodes| == |f.nodes|
            && f'.nodes[i].templates == map[] && f'.nodes[i].queue == [] && f'.nodes[i].lost == {}
            && |f'.nodes[i].pos| == |f.logs| && (forall p :: 0 <= p < |f.logs| ==> f'.nodes[i].pos[p] == 0)
            && forall j :: 0 <= j < |f.nodes| && j != i ==> f'.nodes[j] == f.nodes[j]
  {
  }

  lemma NodeStep(h: Partitioner, f: Fleet, a: Action, i: nat)
    requires Good(h, f) && Enabled(f, a) && i < |f.nodes|
    ensures |Next(h, f, a).logs| > 0 && |Next(h, f, a).nodes| == |f.nodes|
    ensures NodeGood(h, Next(h, f, a).logs, Next(h, f, a).nodes[i])
  {
    var n := f.nodes[i];
    assert NodeGood(h, f.logs, n);
    match a
    case LearnAt(j, t, v, encodes) => if i == j { LearnKeeps(h, f.logs, n, t, v, encodes); }
    case TakeHead(j) =>
      if i == j {
        HeldMoves(n, n.pos);
        forall u | ValidId(u) ensures Settled(h, f.logs, n.(putting := true), u) { assert Settled(h, f.logs, n, u); }
      }
    case Publish(j) => PutStep(h, f, i, j, true);
    case PublishUnconfirmed(j) => PutStep(h, f, i, j, false);
    case PublishFails(j) => if i == j { FailKeeps(h, f.logs, n); }
    case Consume(j, p) => if i == j { ConsumeKeeps(h, f.logs, n, p); }
    case Compact(p, off) => CompactKeeps(h, f.logs, n, p, off);
    case Restart(j) => if i == j { BootIsGood(h, f.logs); }
  }

  lemma StepKeeps(h: Partitioner, f: Fleet, a: Action)
    requires Good(h, f) && Enabled(f, a)
    ensures Good(h, Next(h, f, a))
  {
    var f' := Next(h, f, a);
    LogsStayGood(h, f, a);
    assert |f'.nodes| == |f.nodes|;
    forall i | 0 <= i < |f'.nodes| ensures NodeGood(h, f'.logs, f'.nodes[i]) {
      NodeStep(h, f, a, i);
    }
  }

  lemma ActionAt(h: Partitioner, run: seq<Fleet>, i: nat) returns (a: Action)
    requires Run(h, run) && 0 < i < |run|
    ensures Enabled(run[i - 1], a) && run[i] == Next(h, run[i - 1], a)
  {
    assert StepAt(h, run, i);
    a :| Enabled(run[i - 1], a) && run[i] == Next(h, run[i - 1], a);
  }

  lemma {:induction false} RunKeeps(h: Partitioner, run: seq<Fleet>, i: nat)
    requires Run(h, run) && i < |run|
    ensures Good(h, run[i])
  {
    if i == 0 {
      BootIsGood(h, run[0].logs);
    } else {
      RunKeeps(h, run, i - 1);
      var a := ActionAt(h, run, i);
      StepKeeps(h, run[i - 1], a);
    }
  }

  // ---------------------------------------------------------------- compaction and replay

  /** Applying a partition from the start. */
  function Replay(log: Log): map<string, nat> {
    if log == [] then map[]
    else
      var m := Replay(log[..|log| - 1]);
      var x := log[|log| - 1];
      if x.Some? then m[x.value.key := x.value.value] else m
  }

  lemma {:induction false} ReplayIsLast(log: Log, key: string)
    ensures (key in Replay(log)) == Last(log, key).Some?
    ensures key in Replay(log) ==> Last(log, key) == Some(Replay(log)[key])
  {
    if log != [] { ReplayIsLast(log[..|log| - 1], key); }
  }

  /** The compacted logs have the full logs' last word on every key. */
  ghost predicate SameLast(logs: seq<Log>, full: seq<Log>) {
    |logs| == |full| && forall p, key :: 0 <= p < |logs| ==> Last(logs[p], key) == Last(full[p], key)
  }

  lemma SameLastStep(h: Partitioner, f: Fleet, a: Action)
    requires Enabled(f, a) && SameLast(f.logs, f.full)
    ensures SameLast(Next(h, f, a).logs, Next(h, f, a).full)
  {
    var f' := Next(h, f, a);
    forall p, key | 0 <= p < |f.logs| ensures Last(f'.logs[p], key) == Last(f'.full[p], key) {
      assert Last(f.logs[p], key) == Last(f.full[p], key);
      if a.Compact? && p == a.part { CompactKeepsLast(f.logs[p], a.off, key); }
      if a.Publish? || a.PublishUnconfirmed? {
        var e := Some(f.nodes[a.node].queue[0]);
        assert (f.logs[p] + [e])[..|f.logs[p]|] == f.logs[p] && (f.full[p] + [e])[..|f.full[p]|] == f.full[p];
      }
    }
  }

  lemma {:induction false} RunSameLast(h: Partitioner, run: seq<Fleet>, i: nat)
    requires Run(h, run) && i < |run|
    ensures SameLast(run[i].logs, run[i].full)
  {
    if i > 0 {
      RunSameLast(h, run, i - 1);
      var a := ActionAt(h, run, i);
      SameLastStep(h, run[i - 1], a);
    }
  }

  /** In every state of every run, whatever was compacted so far, a replay of the log gives what a
      replay of everything ever published would. */
  lemma CompactionInvisible(h: Partitioner, run: seq<Fleet>, i: nat, p: nat)
    requires Run(h, run) && i < |run| && p < |run[i].logs|
    ensures p < |run[i].full| && Replay(run[i].logs[p]) == Replay(run[i].full[p])
  {
    RunSameLast(h, run, i);
    var a, b := Replay(run[i].logs[p]), Replay(run[i].full[p]);
    forall key ensures (key in a <==> key in b) && (key in a ==> a[key] == b[key]) {
      ReplayIsLast(run[i].logs[p], key);
      ReplayIsLast(run[i].full[p], key);
    }
  }

  // ---------------------------------------------------------------- convergence

  /** Nothing queued and every watcher at the end of every partition. */
  ghost predicate Quiescent(f: Fleet) {
    forall i :: 0 <= i < |f.nodes| ==>
      f.nodes[i].queue == [] && |f.nodes[i].pos| == |f.logs|
      && forall p :: 0 <= p < |f.logs| ==> f.nodes[i].pos[p] == |f.logs[p]|
  }

  /** The last word on a template in everything ever published. */
  ghost function LastWord(h: Partitioner, f: Fleet, t: TemplateId): Option<nat>
    requires |f.full| > 0
  {
    Last(f.full[PartOf(h, Format(t), |f.full|)], Format(t))
  }

  /** Convergence, template by template: once the fleet is quiet, every instance holds the last
      word on every template whose held version it did not lose. */
  lemma Converges(h: Partitioner, run: seq<Fleet>, k: nat, i: nat, t: TemplateId)
    requires Run(h, run) && k < |run| && Quiescent(run[k])
    requires i < |run[k].nodes| && ValidId(t) && t !in run[k].nodes[i].lost
    ensures |run[k].full| > 0 && Lookup(run[k].nodes[i].templates, t) == LastWord(h, run[k], t)
  {
    RunKeeps(h, run, k);
    RunSameLast(h, run, k);
    var f := run[k];
    assert NodeGood(h, f.logs, f.nodes[i]);
    assert Settled(h, f.logs, f.nodes[i], t);
    assert Last(f.logs[PartOf(h, Format(t), |f.logs|)], Format(t)) == LastWord(h, f, t);
    NothingPending(f.nodes[i]);
  }

  lemma NothingPending(n: Node)
    requires Held(n) && n.queue == []
    ensures n.pending == {}
  {
    forall t ensures t !in n.pending {
      assert t in n.pending ==> Awaits(n, t);
    }
  }

  /** With nothing lost, all instances end up with the same templates. */
  lemma FleetAgrees(h: Partitioner, run: seq<Fleet>, k: nat, i: nat, j: nat)
    requires Run(h, run) && k < |run| && Quiescent(run[k])
    requires i < |run[k].nodes| && j < |run[k].nodes|
    requires run[k].nodes[i].lost == {} && run[k].nodes[j].lost == {}
    ensures run[k].nodes[i].templates == run[k].nodes[j].templates
  {
    RunKeeps(h, run, k);
    var f := run[k];
    var a, b := f.nodes[i].templates, f.nodes[j].templates;
    assert NodeGood(h, f.logs, f.nodes[i]) && NodeGood(h, f.logs, f.nodes[j]);
    forall t | t in a || t in b ensures Lookup(a, t) == Lookup(b, t) {
      Converges(h, run, k, i, t);
      Converges(h, run, k, j, t);
    }
    forall t ensures t in a <==> t in b {
      if t in a || t in b { assert Lookup(a, t) == Lookup(b, t); }
    }
    forall t | t in a ensures a[t] == b[t] { assert Lookup(a, t) == Lookup(b, t); }
  }

  // ---------------------------------------------------------------- the object

  /** One collector's side of the sharing: the decoder's templates, the queue, and the publisher. */
  class Sharing {
    var templates: map<TemplateId, nat>
    var queue: seq<Entry>
    var putting: Option<Entry>      // what the publisher took from the queue
    ghost var pos: seq<nat>
    ghost var read: map<TemplateId, nat>
    ghost var pending: set<TemplateId>
    ghost var lost: set<TemplateId>

    ghost function State(): Node
      reads this
    {
      Node(templates, (if putting.Some? then [putting.value] else []) + queue, putting.Some?, pos, read, pending, lost)
    }

    constructor (ghost partitions: nat)
      ensures State() == Boot(partitions)
    {
      templates, queue, putting := map[], [], None;
      pos, read, pending, lost := seq(partitions, _ => 0), map[], {}, {};
    }

    /** publishingSystem.AddTemplate: `refused` is an error of the inner system, which is returned;
        a version that does not encode, or finds the queue full, is installed and not shared. */
    method AddTemplate(t: TemplateId, v: nat, refused: bool, encodes: bool) returns (ok: bool)
      modifies this
      ensures ok == !refused
      ensures State() == if refused then old(State()) else Learn(old(State()), t, v, encodes)
      ensures templates == if refused then old(templates) else old(templates)[t := v]
      ensures queue == old(queue) + if !refused && encodes && |old(queue)| < 1024 then [Entry(Format(t), v)] else []
    {
      if refused {
        return false;
      }
      ghost var before := State();
      ghost var after := Learn(before, t, v, encodes);
      templates := templates[t := v];
      if encodes && |queue| < PUBLISH_QUEUE {
        queue := queue + [Entry(Format(t), v)];
        assert State().queue == before.queue + [Entry(Format(t), v)];
      } else {
        assert t in before.pending && Lookup(before.templates, t) == Some(v) ==> templates == before.templates;
      }
      pending, lost := after.pending, after.lost;
      return true;
    }

    /** One turn of the publish loop: `stored` is how Put ends. A failure is logged, never retried. */
    method PublishNext(stored: bool)
      requires putting.None? && |queue| > 0
      modifies this
      ensures State() == Done(old(State()).(putting := true), stored)
    {
      putting := Some(queue[0]);
      queue := queue[1..];
      assert State().queue == old(State().queue);
      ghost var after := Done(State(), stored);
      putting := None;   // Put returned
      pending, lost := after.pending, after.lost;
    }

    /** sharing.apply. Never touches the queue: what comes from the store is not published again. */
    method ApplyStored(e: Entry, usable: bool)
      modifies this
      ensures State() == Apply(old(State()), e, usable) && queue == old(queue)
      ensures !usable || Parse(e.key).None? ==> State() == old(State())
      ensures usable && Parse(e.key).Some? ==> templates == old(templates)[Parse(e.key).value := e.value]
    {
      match Parse(e.key)
      case None =>
      case Some(t) =>
        if usable {
          templates := templates[t := e.value];
          read, pending, lost := read[t := e.value], pending - {t}, lost - {t};
        }
    }
  }
}
