/** Big-endian numbers, as the decoder reads them and the dedup key writes them. */
module BigEndian {
  import opened Basics

  type Byte = n: int | 0 <= n < 256

  function Pow256(w: nat): (p: nat)
    ensures p > 0
  {
    if w == 0 then 1 else 256 * Pow256(w - 1)
  }

  function Value(b: seq<Byte>): nat {
    if b == [] then 0 else Value(b[..|b| - 1]) * 256 + b[|b| - 1]
  }

  /** The low `w` bytes of `n`. */
  function Bytes(n: nat, w: nat): (b: seq<Byte>)
    ensures |b| == w
  {
    if w == 0 then [] else Bytes(n / 256, w - 1) + [n % 256]
  }

  lemma {:induction false} ValueOfBytes(n: nat, w: nat)
    requires n < Pow256(w)
    ensures Value(Bytes(n, w)) == n
  {
    if w > 0 {
      assert n / 256 < Pow256(w - 1);
      ValueOfBytes(n / 256, w - 1);
      assert Bytes(n, w)[..w - 1] == Bytes(n / 256, w - 1);
    }
  }

  /** beUint: the big-endian value modulo 2^64, whatever the length. */
  method BeUint(b: seq<Byte>) returns (n: nat)
    ensures n == Value(b) % TWO64
  {
    n := 0;
    for i := 0 to |b|
      invariant n == Value(b[..i]) % TWO64
    {
      assert b[..i + 1][..i] == b[..i];
      ShiftIn(Value(b[..i]), b[i]);
      n := (n * 256) % TWO64 + b[i];   // n<<8 | c: the shift leaves the low byte clear
    }
    assert b[..|b|] == b;
  }

  lemma ShiftIn(v: nat, c: Byte)
    ensures (v * 256 + c) % TWO64 == ((v % TWO64) * 256) % TWO64 + c
  {
    var q, r := v / TWO64, v % TWO64;
    var s := (r * 256) / TWO64;
    var w := r - s * 0x100_0000_0000_0000;
    ModUnique(r * 256, s, w * 256);
    ModUnique(v * 256 + c, q * 256 + s, w * 256 + c);
  }

  lemma ModUnique(a: int, k: int, rem: int)
    requires a == k * TWO64 + rem && 0 <= rem < TWO64
    ensures a % TWO64 == rem
  {
  }
}

/** The collector's message format between tiers, at the level of the Message struct. */
module Wire {
  import opened Basics
  import opened BigEndian

  /** netip.Addr: the invalid zero value, IPv4, or IPv6 with a zone. */
  datatype Addr = Invalid | V4(bits: nat) | V6(bits: nat, zone: string) {
    predicate Valid() {
      match this
      case Invalid => false
      case V4(n) => n < Pow256(4)
      case V6(n, _) => n < Pow256(16)
    }

    /** ::ffff:a.b.c.d */
    predicate Is4In6() { V6? && bits / TWO32 == 0xffff }

    function Unmap(): Addr { if Is4In6() then V4(bits % TWO32) else this }

    predicate ZoneFree() { V6? ==> zone == "" }

    /** The address without its zone, which is all that netip.Prefix and inet keep. */
    function Unzoned(): Addr { if V6? then V6(bits, "") else this }

    /** The 16-byte form; IPv4 is written as its mapped IPv6 address. */
    function As16(): nat {
      match this
      case Invalid => 0
      case V4(n) => 0xffff * TWO32 + n
      case V6(n, _) => n
    }
  }

  /** flow.FlowRecord. Times are nanoseconds since Go's zero time, so 0 is time.Time{}. */
  datatype Record = Record(
    receivedAt: int, exporter: Addr, exporterId: int, flowType: string, first: int, last: int,
    src: Addr, dst: Addr, srcPort: nat, dstPort: nat, protocol: nat, tcpFlags: nat,
    packets: nat, octets: nat, rate: nat, input: nat, output: nat, srcAs: nat, dstAs: nat,
    nextHop: Addr, dedupKey: Option<nat>)

  const FORMAT := "netflow-collector/v1"

  datatype Message = Message(
    format: string, exporter: Addr, flowType: string, receivedAt: Option<int>, first: int, last: int,
    src: Addr, dst: Addr, srcPort: nat, dstPort: nat, protocol: nat, tcpFlags: nat,
    packets: nat, octets: nat, rate: nat, input: nat, output: nat, srcAs: nat, dstAs: nat,
    nextHop: Option<Addr>)

  datatype Error = NoExporter | UnknownFlowType | NoAddresses | NoSwitched | NoReceivedAt
  datatype Result = Ok(record: Record) | Err(error: Error)

  predicate KnownFlowType(s: string) { s in {"netflow5", "netflow9", "ipfix"} }

  function Encode(r: Record): Message {
    Message(FORMAT, r.exporter, r.flowType, Some(Micro(r.receivedAt)), Micro(r.first), Micro(r.last),
            r.src, r.dst, r.srcPort, r.dstPort, r.protocol, r.tcpFlags,
            r.packets, r.octets, r.rate, r.input, r.output, r.srcAs, r.dstAs,
            if r.nextHop.Invalid? then None else Some(r.nextHop))
  }

  function Decode(m: Message, recordTime: int): Result {
    var receivedAt := if m.receivedAt.Some? then m.receivedAt.value else recordTime;
    if m.exporter.Invalid? then Err(NoExporter)
    else if !KnownFlowType(m.flowType) then Err(UnknownFlowType)
    else if m.src.Invalid? || m.dst.Invalid? then Err(NoAddresses)
    else if m.first == 0 || m.last == 0 then Err(NoSwitched)
    else if receivedAt == 0 then Err(NoReceivedAt)
    else Ok(Record(
      Micro(receivedAt), m.exporter.Unmap(), 0, m.flowType, Micro(m.first), Micro(m.last),
      m.src.Unmap(), m.dst.Unmap(), m.srcPort, m.dstPort, m.protocol, m.tcpFlags,
      m.packets, m.octets, if m.rate == 0 then 1 else m.rate, m.input, m.output, m.srcAs, m.dstAs,
      if m.nextHop.Some? && !m.nextHop.value.Invalid? then m.nextHop.value.Unmap() else Invalid, None))
  }

  /** What a record becomes by crossing a tier. */
  function Normal(r: Record): Record {
    r.(receivedAt := Micro(r.receivedAt), first := Micro(r.first), last := Micro(r.last),
       exporter := r.exporter.Unmap(), src := r.src.Unmap(), dst := r.dst.Unmap(),
       nextHop := r.nextHop.Unmap(), rate := if r.rate == 0 then 1 else r.rate,
       exporterId := 0, dedupKey := None)
  }

  /** The records a tier can carry: complete, with times that survive truncation. */
  predicate Carries(r: Record) {
    && !r.exporter.Invalid? && !r.src.Invalid? && !r.dst.Invalid?
    && (r.flowType == "netflow5" || r.flowType == "netflow9" || r.flowType == "ipfix")
    && Micro(r.receivedAt) != 0 && Micro(r.first) != 0 && Micro(r.last) != 0
  }

  /** Decoding an encoded record gives its normal form exactly when the record can be carried,
      whatever timestamp the transport adds. */
  lemma RoundTrip(r: Record, recordTime: int)
    ensures Decode(Encode(r), recordTime).Ok? <==> Carries(r)
    ensures Carries(r) ==> Decode(Encode(r), recordTime) == Ok(Normal(r))
    ensures Encode(r).format == "netflow-collector/v1"
  {
  }

  /** A message without received_at is one that was received at the transport's timestamp. */
  lemma TransportTimeStandsIn(m: Message, recordTime: int, other: int)
    ensures Decode(m.(receivedAt := None), recordTime) == Decode(m.(receivedAt := Some(recordTime)), other)
    ensures m.receivedAt.None? && Decode(m, recordTime).Ok? ==>
              Decode(m, recordTime).record.receivedAt == recordTime - recordTime % 1000
    ensures m.receivedAt.Some? && Decode(m, recordTime).Ok? ==>
              Decode(m, recordTime).record.receivedAt == m.receivedAt.value - m.receivedAt.value % 1000
  {
  }

  /** What is refused, and which problem is reported first. */
  lemma RefusedFor(m: Message, recordTime: int)
    ensures var answer := Decode(m, recordTime);
            var known := m.flowType == "netflow5" || m.flowType == "netflow9" || m.flowType == "ipfix";
            var addressed := !m.src.Invalid? && !m.dst.Invalid?;
            var timed := m.first != 0 && m.last != 0;
            && (answer == Err(NoExporter) <==> m.exporter.Invalid?)
            && (answer == Err(UnknownFlowType) <==> !m.exporter.Invalid? && !known)
            && (answer == Err(NoAddresses) <==> !m.exporter.Invalid? && known && !addressed)
            && (answer == Err(NoSwitched) <==> !m.exporter.Invalid? && known && addressed && !timed)
            && (answer.Ok? ==> if m.receivedAt.Some? then m.receivedAt.value != 0 else recordTime != 0)
  {
  }

  lemma UnmapTwice(a: Addr)
    ensures a.Unmap().Unmap() == a.Unmap() && a.Unmap().As16() == a.As16()
    ensures a.Unmap().Invalid? == a.Invalid?
  {
  }

  lemma NormalIsStable(r: Record)
    ensures Normal(Normal(r)) == Normal(r)
    ensures Carries(r) ==> Carries(Normal(r))
  {
    UnmapTwice(r.exporter);
    UnmapTwice(r.src);
    UnmapTwice(r.dst);
    UnmapTwice(r.nextHop);
  }

  /** A record sent through one tier after another. */
  function Hops(r: Record, times: seq<int>): Result {
    if times == [] then Ok(r)
    else
      match Hops(r, times[..|times| - 1])
      case Err(e) => Err(e)
      case Ok(s) => Decode(Encode(s), times[|times| - 1])
  }

  /** However many tiers a record crosses, it arrives as after the first. */
  lemma {:induction false} TiersAgree(r: Record, times: seq<int>)
    requires Carries(r) && |times| > 0
    ensures Hops(r, times) == Ok(Normal(r))
  {
    var front, t := times[..|times| - 1], times[|times| - 1];
    if front == [] {
      RoundTrip(r, t);
    } else {
      TiersAgree(r, front);
      NormalIsStable(r);
      RoundTrip(Normal(r), t);
    }
  }

  // ---------------------------------------------------------------- the dedup key

  /** Seconds from Go's zero time to 1970, in nanoseconds. */
  const UNIX_EPOCH := 62135596800 * 1_000_000_000

  /** r.FirstSwitched.UnixMicro() */
  function UnixMicro(t: int): int { (Micro(t) - UNIX_EPOCH) / 1000 }

  /** The digested time is the start in microseconds since 1970, 719162 days after Go's zero time. */
  lemma UnixMicroCounts(s: int, t: int)
    ensures UnixMicro(s) == UnixMicro(t) <==> Micro(s) == Micro(t)
    ensures UnixMicro(t + 1000) == UnixMicro(t) + 1
    ensures UnixMicro(719162 * 86400 * 1_000_000_000) == 0
  {
    assert Micro(s) == s / 1000 * 1000 && Micro(t) == t / 1000 * 1000;
    assert UNIX_EPOCH == 62135596800000000 * 1000;
    assert UnixMicro(s) == s / 1000 - 62135596800000000 && UnixMicro(t) == t / 1000 - 62135596800000000;
    assert (t + 1000) / 1000 == t / 1000 + 1;
    assert Micro(t + 1000) == Micro(t) + 1000;
  }

  function Uint64(n: int): (u: nat)
    ensures u < TWO64
  {
    n % TWO64
  }

  predicate Int64(n: int) { -TWO63 <= n < TWO63 }

  /** The 61 bytes that are digested. */
  function Preimage(r: Record): (b: seq<Byte>)
    ensures |b| == 61
  {
    Bytes(r.exporter.As16(), 16) + Bytes(Uint64(UnixMicro(r.first)), 8) + Bytes(r.src.As16(), 16)
    + Bytes(r.dst.As16(), 16) + Bytes(r.srcPort, 2) + Bytes(r.dstPort, 2) + Bytes(r.protocol, 1)
  }

  /** The fields of a Go record have their types' widths, and its time fits UnixMicro. */
  predicate Typed(r: Record) {
    && (r.exporter.Invalid? || r.exporter.Valid()) && (r.src.Invalid? || r.src.Valid())
    && (r.dst.Invalid? || r.dst.Valid())
    && r.srcPort < Pow256(2) && r.dstPort < Pow256(2) && r.protocol < Pow256(1)
    && Int64(UnixMicro(r.first))
  }

  predicate SameNaturalKey(a: Record, b: Record) {
    && a.exporter.As16() == b.exporter.As16() && Micro(a.first) == Micro(b.first)
    && a.src.As16() == b.src.As16() && a.dst.As16() == b.dst.As16()
    && a.srcPort == b.srcPort && a.dstPort == b.dstPort && a.protocol == b.protocol
  }

  /** A redelivered message collides with itself: crossing tiers changes nothing that is digested. */
  lemma PreimageSurvivesTiers(r: Record)
    ensures Preimage(Normal(r)) == Preimage(r)
  {
    UnmapTwice(r.exporter);
    UnmapTwice(r.src);
    UnmapTwice(r.dst);
    MicroTwice(r.first);
  }

  lemma MicroTwice(t: int)
    ensures Micro(Micro(t)) == Micro(t)
  {
  }

  /** The transport's timestamp is not part of the key, even for messages without received_at. */
  lemma PreimageIgnoresTransport(m: Message, t1: int, t2: int)
    requires Decode(m, t1).Ok? && Decode(m, t2).Ok?
    ensures Preimage(Decode(m, t1).record) == Preimage(Decode(m, t2).record)
  {
  }

  lemma BytesInjective(n: nat, m: nat, w: nat)
    requires n < Pow256(w) && m < Pow256(w)
    ensures Bytes(n, w) == Bytes(m, w) <==> n == m
  {
    ValueOfBytes(n, w);
    ValueOfBytes(m, w);
  }

  lemma As16Fits(a: Addr)
    requires a.Invalid? || a.Valid()
    ensures a.As16() < Pow256(16)
  {
    assert Pow256(4) == TWO32;
    assert Pow256(8) == Pow256(4) * TWO32;
  }

  /** Two records are digested from the same bytes exactly when their natural keys agree. */
  lemma PreimageIsTheNaturalKey(a: Record, b: Record)
    requires Typed(a) && Typed(b)
    ensures Preimage(a) == Preimage(b) <==> SameNaturalKey(a, b)
  {
    UnixMicroCounts(a.first, b.first);
    if Preimage(a) == Preimage(b) {
      SamePieces(a, b);
      Width8();
      Uint64Injective(UnixMicro(a.first), UnixMicro(b.first)) by {
        BytesInjective(Uint64(UnixMicro(a.first)), Uint64(UnixMicro(b.first)), 8);
      }
      SameAddr(a.exporter, b.exporter);
      SameAddr(a.src, b.src);
      SameAddr(a.dst, b.dst);
      BytesInjective(a.srcPort, b.srcPort, 2);
      BytesInjective(a.dstPort, b.dstPort, 2);
      BytesInjective(a.protocol, b.protocol, 1);
    }
  }

  lemma SameAddr(a: Addr, b: Addr)
    requires (a.Invalid? || a.Valid()) && (b.Invalid? || b.Valid())
    requires Bytes(a.As16(), 16) == Bytes(b.As16(), 16)
    ensures a.As16() == b.As16()
  {
    As16Fits(a);
    As16Fits(b);
    BytesInjective(a.As16(), b.As16(), 16);
  }

  lemma SamePieces(a: Record, b: Record)
    requires Preimage(a) == Preimage(b)
    ensures Bytes(a.exporter.As16(), 16) == Bytes(b.exporter.As16(), 16)
    ensures Bytes(Uint64(UnixMicro(a.first)), 8) == Bytes(Uint64(UnixMicro(b.first)), 8)
    ensures Bytes(a.src.As16(), 16) == Bytes(b.src.As16(), 16)
    ensures Bytes(a.dst.As16(), 16) == Bytes(b.dst.As16(), 16)
    ensures Bytes(a.srcPort, 2) == Bytes(b.srcPort, 2)
    ensures Bytes(a.dstPort, 2) == Bytes(b.dstPort, 2)
    ensures Bytes(a.protocol, 1) == Bytes(b.protocol, 1)
  {
    Pieces(a);
    Pieces(b);
  }

  lemma Width8()
    ensures Pow256(8) == TWO64
  {
    assert Pow256(4) == TWO32;
    assert Pow256(8) == 256 * 256 * 256 * 256 * Pow256(4);
  }

  lemma Uint64Injective(n: int, m: int)
    requires Int64(n) && Int64(m) && Uint64(n) == Uint64(m)
    ensures n == m
  {
  }

  lemma Pieces(r: Record)
    ensures var x := Preimage(r);
            && x[0..16] == Bytes(r.exporter.As16(), 16)
            && x[16..24] == Bytes(Uint64(UnixMicro(r.first)), 8)
            && x[24..40] == Bytes(r.src.As16(), 16)
            && x[40..56] == Bytes(r.dst.As16(), 16)
            && x[56..58] == Bytes(r.srcPort, 2)
            && x[58..60] == Bytes(r.dstPort, 2)
            && x[60..61] == Bytes(r.protocol, 1)
  {
  }

  /** Among unmapped addresses without a zone, the 16 bytes tell addresses apart. */
  lemma As16Injective(a: Addr, b: Addr)
    requires a.Valid() && b.Valid() && !a.Is4In6() && !b.Is4In6()
    requires a.ZoneFree() && b.ZoneFree()
    ensures a.As16() == b.As16() <==> a == b
  {
    assert Pow256(4) == TWO32;
  }
}
