/** A record as a flow_records row: unsigned counters go into signed columns and come back. */
module Rows {
  import opened Basics
  import opened Wire

  datatype DbRow = DbRow(
    receivedAt: int, exporterId: int, flowType: string, first: int, last: int, src: Addr, dst: Addr,
    srcPort: int, dstPort: int, protocol: int, tcpFlags: int, packets: int, octets: int,
    rate: int, input: int, output: int, srcAs: int, dstAs: int, nextHop: Option<Addr>, dedupKey: Option<nat>)

  /** int32(x), int64(x): the same bits read as a signed number of the given modulus. */
  function Signed(n: nat, modulus: nat): int
    requires n < modulus
  {
    if n < modulus / 2 then n else n - modulus
  }

  /** uint16(x), uint32(x), uint64(x) */
  function Unsigned(n: int, modulus: nat): int
    requires modulus > 0
  {
    n % modulus
  }

  /** The unsigned fields have their Go types' widths. */
  predicate Widths(r: Record) {
    && r.srcPort < TWO16 && r.dstPort < TWO16 && r.protocol < TWO8 && r.tcpFlags < TWO8
    && r.packets < TWO64 && r.octets < TWO64 && r.rate < TWO32
    && r.input < TWO32 && r.output < TWO32 && r.srcAs < TWO32 && r.dstAs < TWO32
  }

  /** What columns.add and the column types make of one record: inet has no zone. */
  function Store(r: Record, exporterId: int): DbRow
    requires Widths(r)
  {
    DbRow(Micro(r.receivedAt), exporterId, r.flowType, Micro(r.first), Micro(r.last),
          r.src.Unzoned(), r.dst.Unzoned(),
          Signed(r.srcPort, TWO32), Signed(r.dstPort, TWO32), Signed(r.protocol, TWO16), Signed(r.tcpFlags, TWO16),
          Signed(r.packets, TWO64), Signed(r.octets, TWO64), Signed(r.rate, TWO32),
          Signed(r.input, TWO32), Signed(r.output, TWO32), Signed(r.srcAs, TWO32), Signed(r.dstAs, TWO32),
          if r.nextHop.Invalid? then None else Some(r.nextHop.Unzoned()), r.dedupKey)
  }

  /** The row meets the table's checks: addresses present, a known flow type, and values in the
      range of their bigint, integer and smallint columns. An invalid address is sent as NULL. */
  predicate Fits(row: DbRow) {
    && !row.src.Invalid? && !row.dst.Invalid? && KnownFlowType(row.flowType)
    && InRange(row.packets, TWO64) && InRange(row.octets, TWO64)
    && InRange(row.srcPort, TWO32) && InRange(row.dstPort, TWO32) && InRange(row.rate, TWO32)
    && InRange(row.input, TWO32) && InRange(row.output, TWO32)
    && InRange(row.srcAs, TWO32) && InRange(row.dstAs, TWO32)
    && InRange(row.protocol, TWO16) && InRange(row.tcpFlags, TWO16)
  }

  predicate InRange(x: int, modulus: nat) { -(modulus / 2) <= x < modulus / 2 }

  /** scanRecord; `exporter` is the address joined from the exporters table. */
  function Scan(row: DbRow, exporter: Addr): Record {
    Record(row.receivedAt, exporter, row.exporterId, row.flowType, row.first, row.last, row.src, row.dst,
           Unsigned(row.srcPort, TWO16), Unsigned(row.dstPort, TWO16),
           Unsigned(row.protocol, TWO8), Unsigned(row.tcpFlags, TWO8),
           Unsigned(row.packets, TWO64), Unsigned(row.octets, TWO64), Unsigned(row.rate, TWO32),
           Unsigned(row.input, TWO32), Unsigned(row.output, TWO32),
           Unsigned(row.srcAs, TWO32), Unsigned(row.dstAs, TWO32),
           if row.nextHop.Some? then row.nextHop.value else Invalid, row.dedupKey)
  }

  lemma SignRoundTrip(n: nat, modulus: nat)
    requires n < modulus && modulus % 2 == 0
    ensures Unsigned(Signed(n, modulus), modulus) == n
    ensures InRange(Signed(n, modulus), modulus)
  {
    if n < modulus / 2 { SmallModulus(n, modulus); } else { AddModulus(n - modulus, modulus); }
  }

  lemma SmallModulus(n: nat, modulus: nat)
    requires n < modulus
    ensures n % modulus == n
  {
  }

  lemma AddModulus(n: int, modulus: nat)
    requires modulus > 0 && 0 <= n + modulus < modulus
    ensures n % modulus == n + modulus
  {
    assert n == -1 * modulus + (n + modulus);
  }

  /** What reading back gives: times truncated, zones gone, the id filled in. */
  function AsStored(r: Record, exporterId: int): Record {
    r.(receivedAt := Micro(r.receivedAt), first := Micro(r.first), last := Micro(r.last), exporterId := exporterId,
       exporter := r.exporter.Unzoned(), src := r.src.Unzoned(), dst := r.dst.Unzoned(),
       nextHop := r.nextHop.Unzoned())
  }

  predicate ZoneFree(r: Record) {
    r.exporter.ZoneFree() && r.src.ZoneFree() && r.dst.ZoneFree() && r.nextHop.ZoneFree()
  }

  /** The table takes a record exactly if it has both addresses and a known flow type: every counter
      fits and reads back, the ones above the signed maximum included. The addresses read back
      exactly if none has a zone. The exporter's own row has no zone either. */
  lemma StoreRoundTrip(r: Record, exporterId: int)
    requires Widths(r)
    ensures Fits(Store(r, exporterId)) <==>
            && !r.src.Invalid? && !r.dst.Invalid?
            && (r.flowType == "netflow5" || r.flowType == "netflow9" || r.flowType == "ipfix")
    ensures var back := Scan(Store(r, exporterId), r.exporter.Unzoned());
            && back == AsStored(r, exporterId)
            && (ZoneFree(r) <==>
                back == r.(receivedAt := back.receivedAt, first := back.first, last := back.last,
                           exporterId := exporterId))
  {
    SignRoundTrip(r.packets, TWO64);
    SignRoundTrip(r.octets, TWO64);
    SignRoundTrip(r.rate, TWO32);
    SignRoundTrip(r.input, TWO32);
    SignRoundTrip(r.output, TWO32);
    SignRoundTrip(r.srcAs, TWO32);
    SignRoundTrip(r.dstAs, TWO32);
  }

  // ---------------------------------------------------------------- row form and column form

  /** A value with the type of the column it goes into. */
  datatype Cell =
    | At(time: int) | Text(text: string) | Inet(addr: Addr) | NullableInet(hop: Option<Addr>)
    | Int2(n: int) | Int4(n: int) | Int8(n: int) | Bytes(key: Option<nat>)

  /** A row as the column list of flow_records names it. */
  function Cells(row: DbRow): seq<Cell> {
    [At(row.receivedAt), Int8(row.exporterId), Text(row.flowType), At(row.first), At(row.last),
     Inet(row.src), Inet(row.dst), Int4(row.srcPort), Int4(row.dstPort), Int2(row.protocol),
     Int2(row.tcpFlags), Int8(row.packets), Int8(row.octets), Int4(row.rate), Int4(row.input),
     Int4(row.output), Int4(row.srcAs), Int4(row.dstAs), NullableInet(row.nextHop), Bytes(row.dedupKey)]
  }

  /** The driver's encoding of an address, for both statements. */
  function Sent(a: Addr): Cell { Inet(a.Unzoned()) }

  function SentOrNull(a: Option<Addr>): Cell { NullableInet(UnzonedOrNull(a)) }

  function UnzonedOrNull(a: Option<Addr>): Option<Addr> {
    if a.None? then None else Some(a.value.Unzoned())
  }

  /** unnest of parallel arrays: row `i` takes the `i`-th element of each. */
  function Unnest(columns: seq<seq<Cell>>): (rows: seq<seq<Cell>>)
    requires |columns| > 0 && forall j :: 0 <= j < |columns| ==> |columns[j]| == |columns[0]|
  {
    seq(|columns[0]|, i requires 0 <= i < |columns[0]| =>
      seq(|columns|, j requires 0 <= j < |columns| => columns[j][i]))
  }

  /** One batch as twenty parallel slices. */
  datatype Columns = Columns(
    receivedAt: seq<int>, exporterId: seq<int>, flowType: seq<string>, first: seq<int>,
    last: seq<int>, src: seq<Addr>, dst: seq<Addr>, srcPort: seq<int>,
    dstPort: seq<int>, protocol: seq<int>, tcpFlags: seq<int>, packets: seq<int>,
    octets: seq<int>, rate: seq<int>, input: seq<int>, output: seq<int>,
    srcAs: seq<int>, dstAs: seq<int>, nextHop: seq<Option<Addr>>, dedupKey: seq<Option<nat>>)
  {
    /** The slices have one length. */
    ghost predicate Valid() {
      && |receivedAt| == |exporterId| == |flowType| == |first| == |last|
      && |src| == |dst| == |srcPort| == |dstPort| == |protocol| == |receivedAt|
      && |tcpFlags| == |packets| == |octets| == |rate| == |input| == |receivedAt|
      && |output| == |srcAs| == |dstAs| == |nextHop| == |dedupKey| == |receivedAt|
    }

    /** The row the slices stand for at one index. */
    ghost function RowAt(i: nat): DbRow
      requires Valid() && i < |receivedAt|
    {
      DbRow(receivedAt[i], exporterId[i], flowType[i], first[i], last[i], src[i].Unzoned(), dst[i].Unzoned(),
            srcPort[i], dstPort[i], protocol[i], tcpFlags[i], packets[i], octets[i], rate[i],
            input[i], output[i], srcAs[i], dstAs[i], UnzonedOrNull(nextHop[i]), dedupKey[i])
    }

    /** columns.add: one append to each slice. */
    function Add(r: Record, id: int): Columns
      requires Widths(r)
    {
      Columns(
        receivedAt + [Micro(r.receivedAt)], exporterId + [id],
        flowType + [r.flowType], first + [Micro(r.first)],
        last + [Micro(r.last)], src + [r.src],
        dst + [r.dst], srcPort + [Signed(r.srcPort, TWO32)],
        dstPort + [Signed(r.dstPort, TWO32)], protocol + [Signed(r.protocol, TWO16)],
        tcpFlags + [Signed(r.tcpFlags, TWO16)], packets + [Signed(r.packets, TWO64)],
        octets + [Signed(r.octets, TWO64)], rate + [Signed(r.rate, TWO32)],
        input + [Signed(r.input, TWO32)], output + [Signed(r.output, TWO32)],
        srcAs + [Signed(r.srcAs, TWO32)], dstAs + [Signed(r.dstAs, TWO32)],
        nextHop + [if r.nextHop.Invalid? then None else Some(r.nextHop)], dedupKey + [r.dedupKey])
    }

    /** The arguments of the unnest insert. */
    function Args(): (columns: seq<seq<Cell>>)
      requires Valid()
      ensures |columns| == 20 && forall j :: 0 <= j < 20 ==> |columns[j]| == |receivedAt|
    {
      [Each(receivedAt, x => At(x)), Each(exporterId, x => Int8(x)), Each(flowType, x => Text(x)),
       Each(first, x => At(x)), Each(last, x => At(x)), Each(src, Sent),
       Each(dst, Sent), Each(srcPort, x => Int4(x)), Each(dstPort, x => Int4(x)),
       Each(protocol, x => Int2(x)), Each(tcpFlags, x => Int2(x)), Each(packets, x => Int8(x)),
       Each(octets, x => Int8(x)), Each(rate, x => Int4(x)), Each(input, x => Int4(x)),
       Each(output, x => Int4(x)), Each(srcAs, x => Int4(x)), Each(dstAs, x => Int4(x)),
       Each(nextHop, SentOrNull), Each(dedupKey, x => Bytes(x))]
    }

    /** What COPY is given for row `i`. */
    function CopyRow(i: nat): seq<Cell>
      requires Valid() && i < |receivedAt|
    {
      [At(receivedAt[i]), Int8(exporterId[i]), Text(flowType[i]), At(first[i]),
       At(last[i]), Sent(src[i]), Sent(dst[i]), Int4(srcPort[i]),
       Int4(dstPort[i]), Int2(protocol[i]), Int2(tcpFlags[i]), Int8(packets[i]),
       Int8(octets[i]), Int4(rate[i]), Int4(input[i]), Int4(output[i]),
       Int4(srcAs[i]), Int4(dstAs[i]), SentOrNull(nextHop[i]), Bytes(dedupKey[i])]
    }
  }

  lemma AddAppends(c: Columns, r: Record, id: int)
    requires c.Valid() && Widths(r)
    ensures var d := c.Add(r, id);
            && d.Valid() && |d.receivedAt| == |c.receivedAt| + 1
            && d.RowAt(|c.receivedAt|) == Store(r, id)
            && forall i :: 0 <= i < |c.receivedAt| ==> d.RowAt(i) == c.RowAt(i)
  {
  }

  lemma ArgsAt(c: Columns, i: nat)
    requires c.Valid() && i < |c.receivedAt|
    ensures |c.CopyRow(i)| == 20 && forall j :: 0 <= j < 20 ==> c.Args()[j][i] == c.CopyRow(i)[j]
  {
  }

  lemma UnnestAt(columns: seq<seq<Cell>>, i: nat, row: seq<Cell>)
    requires |columns| > 0 && forall j :: 0 <= j < |columns| ==> |columns[j]| == |columns[0]|
    requires i < |columns[0]| && |row| == |columns|
    requires forall j :: 0 <= j < |columns| ==> columns[j][i] == row[j]
    ensures Unnest(columns)[i] == row
  {
  }

  /** COPY and the unnest insert are given the same rows in the same order, and these are the
      batch's rows in the order of the table's columns. */
  lemma FormsAgree(c: Columns)
    requires c.Valid()
    ensures |Unnest(c.Args())| == |c.receivedAt|
    ensures forall i :: 0 <= i < |c.receivedAt| ==> Unnest(c.Args())[i] == c.CopyRow(i) == Cells(c.RowAt(i))
  {
    var args := c.Args();
    hide Columns.Args;
    forall i | 0 <= i < |c.receivedAt| ensures Unnest(args)[i] == c.CopyRow(i) {
      ArgsAt(c, i);
      UnnestAt(args, i, c.CopyRow(i));
    }
  }

  /** Reading back a row of the batch gives the record it was made from, as far as the table keeps it. */
  ghost predicate ReadsBack(row: DbRow, r: Record, id: int) {
    Scan(row, r.exporter.Unzoned()) == AsStored(r, id)
  }

  /** The batch loop of WriteBatch: row `i` is record `i` under its exporter's id. */
  method Fill(records: seq<Record>, ids: map<Addr, int>) returns (c: Columns)
    requires forall r :: r in records ==> Widths(r) && r.exporter in ids
    ensures c.Valid() && |c.receivedAt| == |records|
    ensures forall i :: 0 <= i < |records| ==> ReadsBack(c.RowAt(i), records[i], ids[records[i].exporter])
  {
    c := Columns([], [], [], [], [], [], [], [], [], [], [], [], [], [], [], [], [], [], [], []);
    for k := 0 to |records|
      invariant c.Valid() && |c.receivedAt| == k
      invariant forall i :: 0 <= i < k ==> ReadsBack(c.RowAt(i), records[i], ids[records[i].exporter])
    {
      var r := records[k];
      assert r in records;
      AddAppends(c, r, ids[r.exporter]);
      StoreRoundTrip(r, ids[r.exporter]);
      c := c.Add(r, ids[r.exporter]);
    }
  }
}
