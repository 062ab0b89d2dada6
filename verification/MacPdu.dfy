/** UL-SCH MAC PDUs: packing a BSR CE and SDUs into a grant, and parsing any byte string (mac_pdu.cpp). Subheaders and
    payloads alternate, so this is not the layout of section 6.1.2 of TS 36.321. */
module MacPdu {
  import opened Arithmetic
  import opened CommonTypes

  const MAX_DATA_LCID: nat := 10
  const LCID_TRUNCATED_BSR: nat := 28
  const LCID_SHORT_BSR: nat := 29
  const LCID_LONG_BSR: nat := 30
  const LCID_PADDING: nat := 31

  datatype Sdu = Sdu(lcid: nat, size: nat)

  datatype Packed = Packed(written: nat, sduBytes: nat, bsrBytes: nat, paddingBytes: nat, ok: bool)

  datatype Unpacked = Unpacked(ok: bool, bsr: BsrCe, sdus: seq<Sdu>, paddingBytes: nat, consumed: nat)

  const NO_BSR := BsrCe(ShortBsr, [])
  const NOTHING_PACKED := Packed(0, 0, 0, 0, false)
  const NOTHING_UNPACKED := Unpacked(false, NO_BSR, [], 0, 0)

  // ---- Octets ----

  function Subheader(lcid: nat, more: bool): Byte {
    lcid % 32 + if more then 32 else 0
  }

  function Lcid(b: Byte): nat { b % 32 }

  predicate HasMore(b: Byte) { b / 32 % 2 == 1 }

  /** The F/L octet keeps seven bits of the length. */
  function LengthField(n: nat): Byte { n % 128 }

  /** The octet with its E bit cleared. */
  function Last(b: Byte): Byte {
    if HasMore(b) then b - 32 else b
  }

  function BsrLcid(format: BsrFormat): nat {
    match format
    case ShortBsr => LCID_SHORT_BSR
    case TruncatedBsr => LCID_TRUNCATED_BSR
    case LongBsr => LCID_LONG_BSR
  }

  // ---- BSR control elements ----

  function BsrLen(bsr: BsrCe): nat {
    if bsr.format == LongBsr then 3 else if bsr.reports == [] then 0 else 1
  }

  /** Index reported for an LCG: the first report for it counts, an unreported LCG counts as empty. */
  function IndexFor(reports: seq<BsrReport>, lcg: nat): nat {
    if reports == [] then 0 else if reports[0].lcgId == lcg then reports[0].bufferSize % 64
        else IndexFor(reports[1..], lcg)
  }

  function LongBits(i0: nat, i1: nat, i2: nat, i3: nat): nat {
    ((i0 * 64 + i1) * 64 + i2) * 64 + i3
  }

  function Join(b0: nat, b1: nat, b2: nat): nat {
    b0 * 65536 + b1 * 256 + b2
  }

  function EncodeBsr(bsr: BsrCe): (s: seq<Byte>)
    ensures |s| == BsrLen(bsr)
  {
    if BsrLen(bsr) == 0 then []
    else if bsr.format != LongBsr then [bsr.reports[0].lcgId % 4 * 64 + bsr.reports[0].bufferSize % 64]
    else
      var bits := LongBits(IndexFor(bsr.reports, 0), IndexFor(bsr.reports, 1), IndexFor(bsr.reports, 2),
                           IndexFor(bsr.reports, 3));
      [bits / 65536 % 256, bits / 256 % 256, bits % 256]
  }

  function DecodeBsr(lcid: nat, s: seq<Byte>): BsrCe
    requires |s| == if lcid == LCID_LONG_BSR then 3 else 1
  {
    if lcid == LCID_LONG_BSR then
      var bits := Join(s[0], s[1], s[2]);
      BsrCe(LongBsr, [BsrReport(0, bits / 262144 % 64), BsrReport(1, bits / 4096 % 64), BsrReport(2, bits / 64 % 64),
                      BsrReport(3, bits % 64)])
    else BsrCe(if lcid == LCID_TRUNCATED_BSR then TruncatedBsr else ShortBsr, [BsrReport(s[0] / 64 % 4, s[0] % 64)])
  }

  predicate InRange(bsr: BsrCe) {
    forall r <- bsr.reports :: r.lcgId < 4 && r.bufferSize < 64
  }

  /** What the receiver sees of a BSR: a Long BSR always names all four LCGs, the others exactly their first report. */
  function Seen(bsr: BsrCe): BsrCe {
    if BsrLen(bsr) == 0 then NO_BSR
    else if bsr.format != LongBsr then BsrCe(bsr.format, [bsr.reports[0]])
    else BsrCe(LongBsr, [BsrReport(0, IndexFor(bsr.reports, 0)), BsrReport(1, IndexFor(bsr.reports, 1)),
                         BsrReport(2, IndexFor(bsr.reports, 2)), BsrReport(3, IndexFor(bsr.reports, 3))])
  }

  lemma {:induction false} IndexInRange(reports: seq<BsrReport>, lcg: nat)
    ensures IndexFor(reports, lcg) < 64
  {
    if reports != [] && reports[0].lcgId != lcg { IndexInRange(reports[1..], lcg); }
  }

  lemma LongBitsDecode(i0: nat, i1: nat, i2: nat, i3: nat)
    requires i0 < 64 && i1 < 64 && i2 < 64 && i3 < 64
    ensures var bits := LongBits(i0, i1, i2, i3);
            && bits < 0x100_0000
            && bits / 262144 % 64 == i0 && bits / 4096 % 64 == i1 && bits / 64 % 64 == i2 && bits % 64 == i3
  {
    var bits := LongBits(i0, i1, i2, i3);
    DivModUnique(bits, 262144, i0, i1 * 4096 + i2 * 64 + i3);
    DivModUnique(bits, 4096, i0 * 64 + i1, i2 * 64 + i3);
    DivModUnique(i0 * 64 + i1, 64, i0, i1);
    DivModUnique(bits, 64, (i0 * 64 + i1) * 64 + i2, i3);
    DivModUnique((i0 * 64 + i1) * 64 + i2, 64, i0 * 64 + i1, i2);
  }

  lemma OctetsOfJoin(b0: nat, b1: nat, b2: nat)
    requires b0 < 256 && b1 < 256 && b2 < 256
    ensures var bits := Join(b0, b1, b2); bits / 65536 % 256 == b0 && bits / 256 % 256 == b1 && bits % 256 == b2
  {
    var bits := Join(b0, b1, b2);
    DivModUnique(bits, 65536, b0, b1 * 256 + b2);
    DivModUnique(bits, 256, b0 * 256 + b1, b2);
    DivModUnique(b0 * 256 + b1, 256, b0, b1);
  }

  lemma OctetsJoin(bits: nat)
    requires bits < 0x100_0000
    ensures Join(bits / 65536 % 256, bits / 256 % 256, bits % 256) == bits
  {
    var (b0, r) := (bits / 65536, bits % 65536);
    var (b1, b2) := (r / 256, r % 256);
    assert bits == Join(b0, b1, b2);
    OctetsOfJoin(b0, b1, b2);
  }

  lemma BsrRoundTrip(bsr: BsrCe)
    requires InRange(bsr) && BsrLen(bsr) > 0
    ensures DecodeBsr(BsrLcid(bsr.format), EncodeBsr(bsr)) == Seen(bsr)
  {
    if bsr.format == LongBsr {
      var (i0, i1, i2, i3) := (IndexFor(bsr.reports, 0), IndexFor(bsr.reports, 1), IndexFor(bsr.reports, 2),
                               IndexFor(bsr.reports, 3));
      IndexInRange(bsr.reports, 0);
      IndexInRange(bsr.reports, 1);
      IndexInRange(bsr.reports, 2);
      IndexInRange(bsr.reports, 3);
      LongBitsDecode(i0, i1, i2, i3);
      OctetsJoin(LongBits(i0, i1, i2, i3));
    } else {
      assert bsr.reports[0] in bsr.reports;
    }
  }

  // ---- Parsing ----

  function ParseFrom(s: seq<Byte>, pos: nat, acc: Unpacked): (u: Unpacked)
    requires pos <= |s|
    ensures u.consumed <= |s|
    decreases |s| - pos, 0
  {
    if pos == |s| then acc.(consumed := pos)
    else
      var (lcid, more) := (Lcid(s[pos]), HasMore(s[pos]));
      if lcid == LCID_PADDING then acc.(paddingBytes := acc.paddingBytes + (|s| - (pos + 1)), consumed := pos + 1)
      else if lcid <= MAX_DATA_LCID then
        if pos + 1 == |s| then acc.(consumed := pos + 1)
        else
          var n := s[pos + 1] % 128;
          if pos + 2 + n > |s| then acc.(consumed := pos + 2)
          else Continue(s, pos + 2 + n, acc.(sdus := acc.sdus + [Sdu(lcid, n)]), more)
      else
        var n := if lcid == LCID_LONG_BSR then 3 else 1;
        if pos + 1 + n > |s| then acc.(consumed := pos + 1)
        else
          var next := if lcid >= LCID_TRUNCATED_BSR then acc.(bsr := DecodeBsr(lcid, s[pos + 1..pos + 1 + n])) else acc;
          Continue(s, pos + 1 + n, next, more)
  }

  function Continue(s: seq<Byte>, pos: nat, acc: Unpacked, more: bool): (u: Unpacked)
    requires pos <= |s|
    ensures u.consumed <= |s|
    decreases |s| - pos, 1
  {
    if more then ParseFrom(s, pos, acc) else acc.(consumed := pos)
  }

  function Parse(s: seq<Byte>): (u: Unpacked)
    ensures u.consumed <= |s|
  {
    if s == [] then NOTHING_UNPACKED else ParseFrom(s, 0, NOTHING_UNPACKED).(ok := true)
  }

  /** The parser: it stays inside the buffer and terminates on any bytes. */
  method Unpack(buf: array<Byte>, len: nat) returns (res: Unpacked)
    requires len <= buf.Length
    ensures res == Parse(buf[..len]) && res.consumed <= len
  {
    res := NOTHING_UNPACKED;
    if len == 0 {
      return;
    }
    ghost var s := buf[..len];
    var pos, hasMore := 0, true;
    while pos < len && hasMore
      invariant pos <= len
      invariant ParseFrom(s, 0, NOTHING_UNPACKED) == Continue(s, pos, res, hasMore)
      decreases len - pos
    {
      var sh := buf[pos];
      var lcid, e := Lcid(sh), HasMore(sh);
      pos := pos + 1;
      if lcid == LCID_PADDING {
        res := res.(paddingBytes := res.paddingBytes + (len - pos));
        hasMore := false;
        break;
      }
      if lcid <= MAX_DATA_LCID {
        if pos >= len { hasMore := false; break; }
        var l := buf[pos] % 128;
        pos := pos + 1;
        if pos + l > len { hasMore := false; break; }
        res := res.(sdus := res.sdus + [Sdu(lcid, l)]);
        pos := pos + l;
      } else if lcid == LCID_LONG_BSR {
        if pos + 3 > len { hasMore := false; break; }
        res := res.(bsr := DecodeBsr(lcid, buf[pos..pos + 3]));
        assert buf[pos..pos + 3] == s[pos..pos + 3];
        pos := pos + 3;
      } else if lcid == LCID_SHORT_BSR || lcid == LCID_TRUNCATED_BSR {
        if pos + 1 > len { hasMore := false; break; }
        res := res.(bsr := DecodeBsr(lcid, buf[pos..pos + 1]));
        assert buf[pos..pos + 1] == s[pos..pos + 1];
        pos := pos + 1;
      } else {
        if pos + 1 > len { hasMore := false; break; }
        pos := pos + 1;
      }
      hasMore := e;
    }
    res := res.(consumed := pos, ok := true);
  }

  // ---- Packing, on the contents of the buffer ----

  predicate BsrFits(bsr: BsrCe, grant: nat) {
    0 < BsrLen(bsr) && 1 + BsrLen(bsr) <= grant
  }

  predicate SduFits(sdus: seq<Sdu>, pos: nat, grant: nat) {
    sdus != [] && pos + 3 <= grant && sdus[0].lcid <= MAX_DATA_LCID
  }

  /** Bytes of the next SDU that are carried. */
  function Share(sdus: seq<Sdu>, pos: nat, grant: nat): nat
    requires SduFits(sdus, pos, grant)
  {
    Min(sdus[0].size, grant - pos - 2)
  }

  /** Padding fills what is left; when nothing is left the last subheader's E bit is cleared. */
  function Finished(buf: seq<Byte>, pos: nat, grant: nat, last: int): (b: seq<Byte>)
    requires pos <= grant <= |buf| && -1 <= last < pos
    ensures |b| == |buf|
  {
    if pos < grant then buf[..pos] + [Subheader(LCID_PADDING, false)] + seq(grant - pos - 1, _ => 0) + buf[grant..]
    else if last >= 0 then buf[last := Last(buf[last])]
    else buf
  }

  function WithSdu(buf: seq<Byte>, pos: nat, lcid: nat, n: nat): (b: seq<Byte>)
    requires pos + 2 <= |buf|
    ensures |b| == |buf|
  {
    buf[..pos] + [Subheader(lcid, true), LengthField(n)] + buf[pos + 2..]
  }

  function PackSdus(buf: seq<Byte>, pos: nat, grant: nat, last: int, sdus: seq<Sdu>): (b: seq<Byte>)
    requires pos <= grant <= |buf| && -1 <= last < pos
    ensures |b| == |buf|
    decreases |sdus|
  {
    if !SduFits(sdus, pos, grant) then Finished(buf, pos, grant, last)
    else
      var n := Share(sdus, pos, grant);
      PackSdus(WithSdu(buf, pos, sdus[0].lcid, n), pos + 2 + n, grant, pos, sdus[1..])
  }

  function WithBsr(buf: seq<Byte>, bsr: BsrCe): (b: seq<Byte>)
    requires 1 + BsrLen(bsr) <= |buf|
    ensures |b| == |buf|
  {
    [Subheader(BsrLcid(bsr.format), true)] + EncodeBsr(bsr) + buf[1 + BsrLen(bsr)..]
  }

  function PackBytes(buf: seq<Byte>, grant: nat, bsr: BsrCe, sdus: seq<Sdu>): (b: seq<Byte>)
    requires grant <= |buf|
    ensures |b| == |buf|
  {
    if grant == 0 then buf
    else if BsrFits(bsr, grant) then PackSdus(WithBsr(buf, bsr), 1 + BsrLen(bsr), grant, 0, sdus)
    else PackSdus(buf, 0, grant, -1, sdus)
  }

  /** The SDUs that are carried: a prefix of those offered, the last of them possibly cut. */
  function Carried(sdus: seq<Sdu>, pos: nat, grant: nat): seq<Sdu>
    decreases |sdus|
  {
    if !SduFits(sdus, pos, grant) then []
    else
      var n := Share(sdus, pos, grant);
      [Sdu(sdus[0].lcid, n)] + Carried(sdus[1..], pos + 2 + n, grant)
  }

  function EndOf(sdus: seq<Sdu>, pos: nat, grant: nat): (end: nat)
    requires pos <= grant
    ensures pos <= end <= grant
    decreases |sdus|
  {
    if !SduFits(sdus, pos, grant) then pos else EndOf(sdus[1..], pos + 2 + Share(sdus, pos, grant), grant)
  }

  function Bytes(sdus: seq<Sdu>): nat {
    if sdus == [] then 0 else sdus[0].size + Bytes(sdus[1..])
  }

  function BsrEnd(bsr: BsrCe, grant: nat): nat {
    if BsrFits(bsr, grant) then 1 + BsrLen(bsr) else 0
  }

  /** What packing reports: the grant is filled exactly. */
  function PackedResult(grant: nat, bsr: BsrCe, sdus: seq<Sdu>): Packed {
    if grant == 0 then NOTHING_PACKED
    else
      var pos := BsrEnd(bsr, grant);
      Packed(grant, Bytes(Carried(sdus, pos, grant)), pos, grant - EndOf(sdus, pos, grant), true)
  }

  method WriteBsr(buf: array<Byte>, grant: nat, bsr: BsrCe) returns (pos: nat, last: int)
    requires 0 < grant <= buf.Length
    modifies buf
    ensures pos == BsrEnd(bsr, grant) <= grant && last == if BsrFits(bsr, grant) then 0 else -1
    ensures buf[..] == if BsrFits(bsr, grant) then WithBsr(old(buf[..]), bsr) else old(buf[..])
  {
    pos, last := 0, -1;
    var bodyLen := BsrLen(bsr);
    if bodyLen > 0 && pos + 1 + bodyLen <= grant {
      var body := EncodeBsr(bsr);
      forall i | 0 <= i < bodyLen { buf[1 + i] := body[i]; }
      buf[0] := Subheader(BsrLcid(bsr.format), true);
      last, pos := 0, 1 + bodyLen;
    }
  }

  /** The SDU part of a PDU packed so far: `rest` is still to come at `pos`, and finishing it gives the PDU asked
      for. */
  predicate SdusUnderway(start: nat, first: int, sdus: seq<Sdu>, was: seq<Byte>, grant: nat,
                         pos: nat, last: int, rest: seq<Sdu>, now: seq<Byte>, sduBytes: nat) {
    && start <= grant && -1 <= first < start && pos <= grant && -1 <= last < pos && grant <= |was| == |now|
    && PackSdus(now, pos, grant, last, rest) == PackSdus(was, start, grant, first, sdus)
    && EndOf(rest, pos, grant) == EndOf(sdus, start, grant)
    && sduBytes + Bytes(Carried(rest, pos, grant)) == Bytes(Carried(sdus, start, grant))
  }

  lemma OneMoreSdu(start: nat, first: int, sdus: seq<Sdu>, was: seq<Byte>, grant: nat,
                   pos: nat, last: int, rest: seq<Sdu>, now: seq<Byte>, sduBytes: nat)
    requires SdusUnderway(start, first, sdus, was, grant, pos, last, rest, now, sduBytes) && SduFits(rest, pos, grant)
    ensures var n := Share(rest, pos, grant);
            SdusUnderway(start, first, sdus, was, grant,
                         pos + 2 + n, pos, rest[1..], WithSdu(now, pos, rest[0].lcid, n), sduBytes + n)
  {
  }

  method WriteSdu(buf: array<Byte>, pos: nat, lcid: nat, n: nat)
    requires pos + 2 <= buf.Length
    modifies buf
    ensures buf[..] == WithSdu(old(buf[..]), pos, lcid, n)
  {
    buf[pos] := Subheader(lcid, true);
    buf[pos + 1] := LengthField(n);
  }

  method WriteSdus(buf: array<Byte>, grant: nat, start: nat, first: int, sdus: seq<Sdu>)
    returns (pos: nat, last: int, sduBytes: nat)
    requires start <= grant <= buf.Length && -1 <= first < start
    modifies buf
    ensures pos == EndOf(sdus, start, grant) && sduBytes == Bytes(Carried(sdus, start, grant)) && -1 <= last < pos
    ensures Finished(buf[..], pos, grant, last) == PackSdus(old(buf[..]), start, grant, first, sdus)
  {
    pos, last, sduBytes := start, first, 0;
    var i := 0;
    ghost var (was, rest) := (buf[..], sdus);
    while i < |sdus|
      invariant i <= |sdus| && rest == sdus[i..]
      invariant SdusUnderway(start, first, sdus, was, grant, pos, last, rest, buf[..], sduBytes)
    {
      if pos + 3 > grant { break; }
      if sdus[i].lcid > MAX_DATA_LCID { break; }
      OneMoreSdu(start, first, sdus, was, grant, pos, last, rest, buf[..], sduBytes);
      var n := Min(sdus[i].size, grant - pos - 2);
      WriteSdu(buf, pos, sdus[i].lcid, n);
      last := pos;
      pos := pos + 2 + n;
      sduBytes := sduBytes + n;
      rest := rest[1..];
      i := i + 1;
    }
    assert !SduFits(rest, pos, grant);
  }

  method WritePadding(buf: array<Byte>, grant: nat, pos: nat, last: int)
    requires pos <= grant <= buf.Length && -1 <= last < pos
    modifies buf
    ensures buf[..] == Finished(old(buf[..]), pos, grant, last)
  {
    var remain := grant - pos;
    if remain >= 1 {
      buf[pos] := Subheader(LCID_PADDING, false);
      forall k | pos + 1 <= k < grant { buf[k] := 0; }
    } else if last >= 0 {
      buf[last] := Last(buf[last]);
    }
  }

  /** The packer: whatever the buffer held, it fills the grant exactly and leaves everything behind it alone. */
  method Pack(buf: array<Byte>, grant: nat, bsr: BsrCe, sdus: seq<Sdu>) returns (res: Packed)
    requires grant <= buf.Length
    modifies buf
    ensures buf[..] == PackBytes(old(buf[..]), grant, bsr, sdus)
    ensures res == PackedResult(grant, bsr, sdus)
  {
    if grant == 0 {
      return NOTHING_PACKED;
    }
    var start, first := WriteBsr(buf, grant, bsr);
    var pos, last, sduBytes := WriteSdus(buf, grant, start, first, sdus);
    WritePadding(buf, grant, pos, last);
    res := Packed(grant, sduBytes, start, grant - pos, true);
  }

  // ---- What the receiver recovers ----

  lemma FinishedKeeps(buf: seq<Byte>, pos: nat, grant: nat, last: int, i: nat)
    requires pos <= grant <= |buf| && -1 <= last < pos && i < |buf| && (i < pos || grant <= i)
    ensures Finished(buf, pos, grant, last)[i] == if i == last && pos == grant then Last(buf[i]) else buf[i]
  {
  }

  lemma WithSduKeeps(buf: seq<Byte>, pos: nat, lcid: nat, n: nat, i: nat)
    requires pos + 2 <= |buf| && i < |buf|
    ensures WithSdu(buf, pos, lcid, n)[i] == if i == pos then Subheader(lcid, true) else if i == pos + 1
        then LengthField(n) else buf[i]
  {
  }

  /** Packing from `pos` on leaves earlier bytes alone, except that the last subheader learns whether anything
      follows. */
  lemma {:induction false} PackKeeps(buf: seq<Byte>, pos: nat, grant: nat, last: int, sdus: seq<Sdu>, i: nat)
    requires pos <= grant <= |buf| && -1 <= last < pos && i < |buf| && (i < pos || grant <= i)
    ensures PackSdus(buf, pos, grant, last, sdus)[i] == if i == last && pos == grant then Last(buf[i]) else buf[i]
    decreases |sdus|
  {
    if SduFits(sdus, pos, grant) {
      var n := Share(sdus, pos, grant);
      WithSduKeeps(buf, pos, sdus[0].lcid, n, i);
      PackKeeps(WithSdu(buf, pos, sdus[0].lcid, n), pos + 2 + n, grant, pos, sdus[1..], i);
    } else {
      FinishedKeeps(buf, pos, grant, last, i);
    }
  }

  predicate AllShort(sdus: seq<Sdu>) {
    forall i :: 0 <= i < |sdus| ==> sdus[i].size <= 127
  }

  lemma {:induction false} SdusGrow(s: seq<Byte>, pos: nat, acc: Unpacked)
    requires pos <= |s|
    ensures acc.sdus <= ParseFrom(s, pos, acc).sdus
    decreases |s| - pos
  {
    if pos < |s| {
      var (lcid, more) := (Lcid(s[pos]), HasMore(s[pos]));
      if more && lcid != LCID_PADDING {
        if lcid <= MAX_DATA_LCID {
          if pos + 1 < |s| && pos + 2 + s[pos + 1] % 128 <= |s| {
            SdusGrow(s, pos + 2 + s[pos + 1] % 128, acc.(sdus := acc.sdus + [Sdu(lcid, s[pos + 1] % 128)]));
          }
        } else {
          var n := if lcid == LCID_LONG_BSR then 3 else 1;
          if pos + 1 + n <= |s| {
            var next := if lcid >= LCID_TRUNCATED_BSR then acc.(bsr := DecodeBsr(lcid, s[pos + 1..pos + 1 + n]))
                else acc;
            SdusGrow(s, pos + 1 + n, next);
          }
        }
      }
    }
  }

  /** The receiver's state after the SDU part of a PDU of `grant` bytes that ends at `end`. */
  function Recovered(acc: Unpacked, sdus: seq<Sdu>, end: nat, grant: nat): Unpacked
    requires end <= grant
  {
    acc.(sdus := acc.sdus + sdus,
         paddingBytes := acc.paddingBytes + (if end < grant then grant - end - 1 else 0),
         consumed := if end < grant then end + 1 else grant)
  }

  lemma SubheaderBits(lcid: nat, more: bool)
    requires lcid < 32
    ensures Lcid(Subheader(lcid, more)) == lcid && HasMore(Subheader(lcid, more)) == more
    ensures Last(Subheader(lcid, more)) == Subheader(lcid, false)
  {
  }

  lemma ParsesPadding(s: seq<Byte>, pos: nat, acc: Unpacked)
    requires pos <= |s| && (pos < |s| ==> s[pos] == Subheader(LCID_PADDING, false))
    ensures Continue(s, pos, acc, pos < |s|) == Recovered(acc, [], pos, |s|)
  {
    SubheaderBits(LCID_PADDING, false);
    assert acc.sdus + [] == acc.sdus;
  }

  /** One carried SDU, as the receiver parses it: only seven bits of its length survive. */
  lemma ParsesSdu(s: seq<Byte>, pos: nat, lcid: nat, n: nat, acc: Unpacked)
    requires pos + 2 + n <= |s| && lcid <= MAX_DATA_LCID
    requires s[pos] == Subheader(lcid, pos + 2 + n < |s|) && s[pos + 1] == LengthField(n)
    ensures pos + 2 + n % 128 <= |s|
    ensures ParseFrom(s, pos, acc) ==
        Continue(s, pos + 2 + n % 128, acc.(sdus := acc.sdus + [Sdu(lcid, n % 128)]), pos + 2 + n < |s|)
  {
    SubheaderBits(lcid, pos + 2 + n < |s|);
    var l := s[pos + 1] % 128;
    assert l == n % 128 <= n;
  }

  lemma FirstSduBytes(buf: seq<Byte>, pos: nat, grant: nat, last: int, sdus: seq<Sdu>)
    requires pos <= grant <= |buf| && -1 <= last < pos && SduFits(sdus, pos, grant)
    ensures var (b, n) := (PackSdus(buf, pos, grant, last, sdus), Share(sdus, pos, grant));
            b[pos] == Subheader(sdus[0].lcid, pos + 2 + n < grant) && b[pos + 1] == LengthField(n)
  {
    var (lcid, n) := (sdus[0].lcid, Share(sdus, pos, grant));
    var next := WithSdu(buf, pos, lcid, n);
    PackKeeps(next, pos + 2 + n, grant, pos, sdus[1..], pos);
    PackKeeps(next, pos + 2 + n, grant, pos, sdus[1..], pos + 1);
    WithSduKeeps(buf, pos, lcid, n, pos);
    WithSduKeeps(buf, pos, lcid, n, pos + 1);
    SubheaderBits(lcid, true);
  }

  /** The first SDU packed at pos, seen by the receiver of the finished PDU. */
  lemma FirstSduParses(buf: seq<Byte>, pos: nat, grant: nat, last: int, sdus: seq<Sdu>, acc: Unpacked)
    requires pos <= grant <= |buf| && -1 <= last < pos && SduFits(sdus, pos, grant)
    ensures var (s, lcid, n) := (PackSdus(buf, pos, grant, last, sdus)[..grant], sdus[0].lcid, Share(sdus, pos, grant));
            Continue(s, pos, acc, true) ==
            Continue(s, pos + 2 + n % 128, acc.(sdus := acc.sdus + [Sdu(lcid, n % 128)]), pos + 2 + n < grant)
  {
    FirstSduBytes(buf, pos, grant, last, sdus);
    var b := PackSdus(buf, pos, grant, last, sdus);
    ParsesSdu(b[..grant], pos, sdus[0].lcid, Share(sdus, pos, grant), acc);
  }

  lemma LongSduIsLost(s: seq<Byte>, pos: nat, acc: Unpacked, lcid: nat, n: nat, rest: seq<Sdu>, more: bool)
    requires pos <= |s| && n > 127
    ensures Continue(s, pos, acc.(sdus := acc.sdus + [Sdu(lcid, n % 128)]), more).sdus != acc.sdus +
        ([Sdu(lcid, n)] + rest)
  {
    var wrong := acc.(sdus := acc.sdus + [Sdu(lcid, n % 128)]);
    SdusGrow(s, pos, wrong);
    WrongAt(acc.sdus, Sdu(lcid, n % 128), Sdu(lcid, n), rest, Continue(s, pos, wrong, more).sdus);
  }

  ghost predicate RecoversOnlyShort(got: Unpacked, acc: Unpacked, carried: seq<Sdu>, end: nat, grant: nat)
    requires end <= grant
  {
    && (AllShort(carried) ==> got == Recovered(acc, carried, end, grant))
    && (!AllShort(carried) ==> got.sdus != acc.sdus + carried)
  }

  lemma RecoversOneMore(got: Unpacked, acc: Unpacked, head: Sdu, rest: seq<Sdu>, end: nat, grant: nat)
    requires end <= grant && head.size <= 127
    requires RecoversOnlyShort(got, acc.(sdus := acc.sdus + [head]), rest, end, grant)
    ensures RecoversOnlyShort(got, acc, [head] + rest, end, grant)
  {
    HeadShort(head, rest);
    assert acc.sdus + ([head] + rest) == acc.sdus + [head] + rest;
  }

  lemma LongHeadIsLost(buf: seq<Byte>, pos: nat, grant: nat, last: int, sdus: seq<Sdu>, acc: Unpacked)
    requires pos <= grant <= |buf| && -1 <= last < pos && SduFits(sdus, pos, grant) && Share(sdus, pos, grant) > 127
    ensures RecoversOnlyShort(Continue(PackSdus(buf, pos, grant, last, sdus)[..grant], pos, acc, true), acc,
                              Carried(sdus, pos, grant), EndOf(sdus, pos, grant), grant)
  {
    var n := Share(sdus, pos, grant);
    var rest := Carried(sdus[1..], pos + 2 + n, grant);
    FirstSduParses(buf, pos, grant, last, sdus, acc);
    HeadShort(Sdu(sdus[0].lcid, n), rest);
    LongSduIsLost(PackSdus(buf, pos, grant, last, sdus)[..grant], pos + 2 + n % 128, acc, sdus[0].lcid, n, rest,
                  pos + 2 + n < grant);
  }

  lemma {:induction false} RecoversAfter(buf: seq<Byte>, pos: nat, grant: nat, last: int, sdus: seq<Sdu>, acc: Unpacked)
    requires pos <= grant <= |buf| && -1 <= last < pos
    ensures RecoversOnlyShort(Continue(PackSdus(buf, pos, grant, last, sdus)[..grant], pos, acc, pos < grant), acc,
                              Carried(sdus, pos, grant), EndOf(sdus, pos, grant), grant)
    decreases |sdus|
  {
    var s := PackSdus(buf, pos, grant, last, sdus)[..grant];
    if !SduFits(sdus, pos, grant) {
      ParsesPadding(s, pos, acc);
    } else if Share(sdus, pos, grant) > 127 {
      LongHeadIsLost(buf, pos, grant, last, sdus, acc);
    } else {
      var n := Share(sdus, pos, grant);
      var head := Sdu(sdus[0].lcid, n);
      FirstSduParses(buf, pos, grant, last, sdus, acc);
      RecoversAfter(WithSdu(buf, pos, head.lcid, n), pos + 2 + n, grant, pos, sdus[1..],
                    acc.(sdus := acc.sdus + [head]));
      RecoversOneMore(Continue(s, pos, acc, true), acc, head, Carried(sdus[1..], pos + 2 + n, grant),
                      EndOf(sdus, pos, grant), grant);
    }
  }

  lemma HeadShort(head: Sdu, rest: seq<Sdu>)
    ensures AllShort([head] + rest) <==> head.size <= 127 && AllShort(rest)
  {
    if AllShort([head] + rest) {
      assert ([head] + rest)[0] == head;
      assert forall i :: 0 <= i < |rest| ==> ([head] + rest)[i + 1] == rest[i];
    }
  }

  lemma WrongAt(front: seq<Sdu>, got: Sdu, sent: Sdu, rest: seq<Sdu>, all: seq<Sdu>)
    requires front + [got] <= all && got != sent
    ensures all != front + ([sent] + rest)
  {
    assert all[|front|] == (front + [got])[|front|] == got;
    assert (front + ([sent] + rest))[|front|] == sent;
  }

  lemma WithBsrKeeps(buf: seq<Byte>, bsr: BsrCe)
    requires 0 < BsrLen(bsr) && 1 + BsrLen(bsr) <= |buf|
    ensures var b := WithBsr(buf, bsr);
            && b[0] == Subheader(BsrLcid(bsr.format), true) && b[1..1 + BsrLen(bsr)] == EncodeBsr(bsr)
            && b[1 + BsrLen(bsr)..] == buf[1 + BsrLen(bsr)..]
  {
  }

  /** The BSR CE at the front of a finished PDU, seen by the receiver. */
  lemma BsrParses(buf: seq<Byte>, grant: nat, bsr: BsrCe, sdus: seq<Sdu>, acc: Unpacked)
    requires 0 < grant <= |buf| && InRange(bsr) && BsrFits(bsr, grant)
    ensures var (s, pos) := (PackBytes(buf, grant, bsr, sdus)[..grant], 1 + BsrLen(bsr));
            ParseFrom(s, 0, acc) == Continue(s, pos, acc.(bsr := Seen(bsr)), pos < grant)
  {
    var (b, w, pos) := (PackBytes(buf, grant, bsr, sdus), WithBsr(buf, bsr), 1 + BsrLen(bsr));
    WithBsrKeeps(buf, bsr);
    PackKeeps(w, pos, grant, 0, sdus, 0);
    SubheaderBits(BsrLcid(bsr.format), true);
    SubheaderBits(BsrLcid(bsr.format), pos < grant);
    forall i | 1 <= i < pos ensures b[i] == w[i] {
      PackKeeps(w, pos, grant, 0, sdus, i);
    }
    assert b[..grant][1..pos] == w[1..pos];
    BsrRoundTrip(bsr);
  }

  /** What the receiver is owed: the BSR if it fitted, then the carried SDUs, then padding. */
  function Owed(grant: nat, bsr: BsrCe, sdus: seq<Sdu>): Unpacked {
    var pos := BsrEnd(bsr, grant);
    if pos > grant then NOTHING_UNPACKED
    else Recovered(Unpacked(true, if BsrFits(bsr, grant) then Seen(bsr) else NO_BSR, [], 0, 0),
                   Carried(sdus, pos, grant), EndOf(sdus, pos, grant), grant)
  }

  /** Nothing behind the grant is written. */
  lemma PackStaysInGrant(buf: seq<Byte>, grant: nat, bsr: BsrCe, sdus: seq<Sdu>)
    requires grant <= |buf|
    ensures PackBytes(buf, grant, bsr, sdus)[grant..] == buf[grant..]
  {
    var b := PackBytes(buf, grant, bsr, sdus);
    forall i | grant <= i < |buf| ensures b[i] == buf[i] {
      if BsrFits(bsr, grant) {
        WithBsrKeeps(buf, bsr);
        assert WithBsr(buf, bsr)[1 + BsrLen(bsr)..][i - 1 - BsrLen(bsr)] == buf[i];
        PackKeeps(WithBsr(buf, bsr), 1 + BsrLen(bsr), grant, 0, sdus, i);
      } else if grant > 0 {
        PackKeeps(buf, 0, grant, -1, sdus, i);
      }
    }
  }

  /** MAC PDU round trip, whatever bytes the buffer held: the receiver recovers the BSR and exactly the carried SDUs
      when every carried SDU has at most 127 bytes. The seven-bit length field makes that condition exact: with a
      longer SDU on board the recovered list is wrong. */
  lemma PduRoundTrip(buf: seq<Byte>, grant: nat, bsr: BsrCe, sdus: seq<Sdu>)
    requires 0 < grant <= |buf| && InRange(bsr)
    ensures var (s, carried) := (PackBytes(buf, grant, bsr, sdus)[..grant], Carried(sdus, BsrEnd(bsr, grant), grant));
            && (AllShort(carried) ==> Parse(s) == Owed(grant, bsr, sdus))
            && (Parse(s).sdus == carried <==> AllShort(carried))
  {
    var (s, pos) := (PackBytes(buf, grant, bsr, sdus)[..grant], BsrEnd(bsr, grant));
    var acc := NOTHING_UNPACKED.(bsr := if BsrFits(bsr, grant) then Seen(bsr) else NO_BSR);
    if BsrFits(bsr, grant) {
      BsrParses(buf, grant, bsr, sdus, NOTHING_UNPACKED);
      RecoversAfter(WithBsr(buf, bsr), pos, grant, 0, sdus, acc);
    } else {
      RecoversAfter(buf, 0, grant, -1, sdus, acc);
    }
    assert [] + Carried(sdus, pos, grant) == Carried(sdus, pos, grant);
  }

  /** What is carried is a prefix of what was offered: the same channels, and only the last SDU may be cut. */
  lemma {:induction false} CarriedIsPrefix(sdus: seq<Sdu>, pos: nat, grant: nat, i: nat)
    requires i < |Carried(sdus, pos, grant)|
    ensures i < |sdus| && Carried(sdus, pos, grant)[i].lcid == sdus[i].lcid
    ensures Carried(sdus, pos, grant)[i].size <= sdus[i].size
    ensures i + 1 < |Carried(sdus, pos, grant)| ==> Carried(sdus, pos, grant)[i] == sdus[i]
    decreases i
  {
    var n := Share(sdus, pos, grant);
    if i > 0 {
      CarriedIsPrefix(sdus[1..], pos + 2 + n, grant, i - 1);
    }
  }

  /** The grant is exactly the CE, two octets and the bytes of each carried SDU, and the padding. */
  lemma {:induction false} EndIsExact(sdus: seq<Sdu>, pos: nat, grant: nat)
    requires pos <= grant
    ensures EndOf(sdus, pos, grant) == pos + 2 * |Carried(sdus, pos, grant)| + Bytes(Carried(sdus, pos, grant))
    decreases |sdus|
  {
    if SduFits(sdus, pos, grant) {
      EndIsExact(sdus[1..], pos + 2 + Share(sdus, pos, grant), grant);
    }
  }

  /** As much is carried as fits: packing stops short of the last SDU only at an LCID that carries no data, or when
      fewer than three bytes of the grant are left; an SDU is cut only to fill the grant exactly. */
  lemma {:induction false} CarriedIsMaximal(sdus: seq<Sdu>, pos: nat, grant: nat)
    requires pos <= grant
    ensures var (carried, end) := (Carried(sdus, pos, grant), EndOf(sdus, pos, grant));
            && |carried| <= |sdus|
            && (forall i :: 0 <= i < |carried| ==> carried[i].lcid <= 10)
            && (|carried| < |sdus| ==> end + 3 > grant || sdus[|carried|].lcid > 10)
            && (carried != [] && carried[|carried| - 1].size < sdus[|carried| - 1].size ==> end == grant)
    decreases |sdus|
  {
    if SduFits(sdus, pos, grant) {
      CarriedIsMaximal(sdus[1..], pos + 2 + Share(sdus, pos, grant), grant);
    }
  }

  /** SDUs that lie one after the other before `end`, each behind its two octets, on data LCIDs and shorter than 128
      bytes. */
  predicate LieBefore(sdus: seq<Sdu>, end: nat) {
    Bytes(sdus) + 2 * |sdus| <= end && forall d <- sdus :: d.lcid <= 10 && d.size < 128
  }

  lemma {:induction false} BytesAppend(sdus: seq<Sdu>, d: Sdu)
    ensures Bytes(sdus + [d]) == Bytes(sdus) + d.size
  {
    if sdus != [] {
      BytesAppend(sdus[1..], d);
      assert (sdus + [d])[1..] == sdus[1..] + [d];
    }
  }

  lemma OneMoreLies(sdus: seq<Sdu>, pos: nat, d: Sdu)
    requires LieBefore(sdus, pos) && d.lcid <= 10 && d.size < 128
    ensures LieBefore(sdus + [d], pos + 2 + d.size)
  {
    BytesAppend(sdus, d);
  }

  /** Whatever the bytes, the SDUs that are parsed lie inside the buffer. */
  lemma {:induction false} ParsedFit(s: seq<Byte>, pos: nat, acc: Unpacked)
    requires pos <= |s| && LieBefore(acc.sdus, pos)
    ensures var u := ParseFrom(s, pos, acc); acc.sdus <= u.sdus && LieBefore(u.sdus, u.consumed) && u.consumed <= |s|
    decreases |s| - pos
  {
    if pos < |s| {
      var (lcid, more) := (Lcid(s[pos]), HasMore(s[pos]));
      if lcid <= MAX_DATA_LCID {
        if pos + 1 < |s| && pos + 2 + s[pos + 1] % 128 <= |s| {
          var n := s[pos + 1] % 128;
          OneMoreLies(acc.sdus, pos, Sdu(lcid, n));
          if more { ParsedFit(s, pos + 2 + n, acc.(sdus := acc.sdus + [Sdu(lcid, n)])); }
        }
      } else if lcid != LCID_PADDING && more {
        var n := if lcid == LCID_LONG_BSR then 3 else 1;
        if pos + 1 + n <= |s| {
          var next := if lcid >= LCID_TRUNCATED_BSR then acc.(bsr := DecodeBsr(lcid, s[pos + 1..pos + 1 + n])) else acc;
          ParsedFit(s, pos + 1 + n, next);
        }
      }
    }
  }
}
