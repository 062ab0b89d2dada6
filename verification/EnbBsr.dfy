/** The eNB's side of buffer status reporting (enb_bsr_manager.cpp, enb_handle_bsr_pdu in main.cpp): unpacking a PDU,
    the per-LCG view, and what reaches the scheduler. */
module EnbBsr {
  import opened CommonTypes
  import opened MacPdu
  import opened Scheduler
  import UeBsr

  type View = v: seq<nat> | |v| == NOF_LCGS witness [0, 0, 0, 0]

  /** Reports applied in order; one for an unknown LCG is skipped. */
  function Reported(view: View, reports: seq<BsrReport>): View
    decreases |reports|
  {
    if reports == [] then view
    else
      var (front, r) := (reports[..|reports| - 1], reports[|reports| - 1]);
      if r.lcgId >= NOF_LCGS then Reported(view, front)
      else Reported(view, front)[r.lcgId := BsrIndexToBytes(r.bufferSize)]
  }

  /** A Long BSR replaces the whole view, the others only what they report. */
  function Received(view: View, bsr: BsrCe): View {
    if bsr.reports == [] then view else Reported(if bsr.format == LongBsr then [0, 0, 0, 0] else view, bsr.reports)
  }

  /** The scheduler is told of the non-empty LCGs of the view. */
  function Forwarded(c: UeCtx, view: View, n: nat): UeCtx
    requires n <= NOF_LCGS
  {
    if n == 0 then c
    else
      var d := Forwarded(c, view, n - 1);
      if view[n - 1] > 0 then OnBsr(d, n - 1, BytesToBsrIndex(view[n - 1])) else d
  }

  function OnPdu(view: View, c: UeCtx, pdu: seq<Byte>): (View, UeCtx) {
    if pdu == [] || Parse(pdu).bsr.reports == [] then (view, c)
    else
      var v := Received(view, Parse(pdu).bsr);
      (v, Forwarded(c, v, NOF_LCGS))
  }

  class EnbBsrManager {
    var ueDb: map<Rnti, View>
    var totalRx: nat
    var shortCount: nat
    var truncatedCount: nat
    var longCount: nat

    constructor ()
      ensures ueDb == map[] && totalRx == 0 && shortCount == truncatedCount == longCount == 0
    {
      ueDb, totalRx, shortCount, truncatedCount, longCount := map[], 0, 0, 0, 0;
    }

    method AddUe(rnti: Rnti)
      modifies this`ueDb
      ensures ueDb == if rnti in old(ueDb) then old(ueDb) else old(ueDb)[rnti := [0, 0, 0, 0]]
    {
      if rnti !in ueDb {
        ueDb := ueDb[rnti := [0, 0, 0, 0]];
      }
    }

    /** Decodes a BSR into the UE's view; every accepted BSR is counted under exactly one format. */
    method ReceiveBsr(rnti: Rnti, bsr: BsrCe) returns (ok: bool)
      requires totalRx == shortCount + truncatedCount + longCount
      modifies this
      ensures ok == (rnti in old(ueDb) && bsr.reports != [])
      ensures ueDb == if ok then old(ueDb)[rnti := Received(old(ueDb)[rnti], bsr)] else old(ueDb)
      ensures totalRx == shortCount + truncatedCount + longCount == old(totalRx) + (if ok then 1 else 0)
      ensures longCount == old(longCount) + (if ok && bsr.format == LongBsr then 1 else 0)
      ensures shortCount == old(shortCount) + (if ok && bsr.format == ShortBsr then 1 else 0)
    {
      if rnti !in ueDb || |bsr.reports| == 0 {
        return false;
      }
      var view: View := ueDb[rnti];
      if bsr.format == LongBsr {
        view := [0, 0, 0, 0];
      }
      ghost var start := view;
      for i := 0 to |bsr.reports|
        invariant view == Reported(start, bsr.reports[..i])
      {
        assert bsr.reports[..i + 1][..i] == bsr.reports[..i];
        var r := bsr.reports[i];
        if r.lcgId < NOF_LCGS {
          view := view[r.lcgId := BsrIndexToBytes(r.bufferSize)];
        }
      }
      assert bsr.reports[..|bsr.reports|] == bsr.reports;
      ueDb := ueDb[rnti := view];
      totalRx := totalRx + 1;
      match bsr.format {
        case ShortBsr => shortCount := shortCount + 1;
        case TruncatedBsr => truncatedCount := truncatedCount + 1;
        case LongBsr => longCount := longCount + 1;
      }
      ok := true;
    }

    method GetUlBuffer(rnti: Rnti, lcg: nat) returns (bytes: nat)
      ensures bytes == if rnti in ueDb && lcg < NOF_LCGS then ueDb[rnti][lcg] else 0
    {
      bytes := if rnti !in ueDb || lcg >= NOF_LCGS then 0 else ueDb[rnti][lcg];
    }
  }

  // ---- From the UE's buffers to the scheduler's estimate ----

  /** What the eNB decodes for a buffer of `bytes`: zero only for zero, and otherwise at least min(bytes, 150000). */
  function Decoded(bytes: nat): nat {
    BsrIndexToBytes(BytesToBsrIndex(bytes))
  }

  lemma DecodedIndexFits(bytes: nat)
    ensures BytesToBsrIndex(bytes) % 256 == BytesToBsrIndex(bytes)
  {
    QuantiserIsLeastCovering(bytes);
  }

  lemma ForwardedOne(bytes: nat)
    ensures Decoded(bytes) > 0 <==> bytes > 0
    ensures BsrIndexToBytes(BytesToBsrIndex(Decoded(bytes)) % 256) == Decoded(bytes)
  {
    DecodedCoversDemand(bytes);
    DecodedIndexFits(Decoded(bytes));
    RequantisingKeepsBytes(BytesToBsrIndex(bytes));
  }

  lemma {:induction false} ForwardedAt(c: UeCtx, view: View, n: nat, i: nat)
    requires n <= NOF_LCGS && i < NOF_LCGS
    ensures Forwarded(c, view, n).ulBuffer[i] ==
            if i < n && view[i] > 0 then BsrIndexToBytes(BytesToBsrIndex(view[i]) % 256) else c.ulBuffer[i]
  {
    if n > 0 {
      ForwardedAt(c, view, n - 1, i);
    }
  }

  lemma LongIndexLast(sizes: seq<nat>, n: nat, lcg: nat)
    requires n < |sizes| <= NOF_LCGS
    ensures var front := UeBsr.LongReports(sizes, n);
            IndexFor(UeBsr.LongReports(sizes, n + 1), lcg) ==
            if sizes[n] > 0 && lcg == n then BytesToBsrIndex(sizes[n]) else IndexFor(front, lcg)
  {
    var front := UeBsr.LongReports(sizes, n);
    LongReportsBelow(sizes, n);
    QuantiserIsLeastCovering(sizes[n]);
    if sizes[n] > 0 {
      IndexForAppend(front, BsrReport(n, BytesToBsrIndex(sizes[n])), lcg);
    } else {
      assert front + [] == front;
    }
  }

  lemma {:induction false} NotReported(reports: seq<BsrReport>, lcg: nat)
    requires forall r <- reports :: r.lcgId != lcg
    ensures IndexFor(reports, lcg) == 0
  {
    if reports != [] {
      assert reports[0] in reports;
      NotReported(reports[1..], lcg);
    }
  }

  /** The index the receiver reads for an LCG is the one the sender's Long BSR reports, zero when it reports none. */
  lemma {:induction false} LongIndex(sizes: seq<nat>, n: nat, lcg: nat)
    requires n <= |sizes| <= NOF_LCGS
    ensures IndexFor(UeBsr.LongReports(sizes, n), lcg) == if lcg < n then BytesToBsrIndex(sizes[lcg]) else 0
  {
    LongReportsBelow(sizes, n);
    if lcg >= n {
      NotReported(UeBsr.LongReports(sizes, n), lcg);
    } else {
      LongIndexLast(sizes, n - 1, lcg);
      LongIndex(sizes, n - 1, lcg);
    }
  }

  lemma {:induction false} LongReportsBelow(sizes: seq<nat>, n: nat)
    requires n <= |sizes|
    ensures forall r <- UeBsr.LongReports(sizes, n) :: r.lcgId < n
  {
    if n > 0 { LongReportsBelow(sizes, n - 1); }
  }

  lemma {:induction false} IndexForAppend(reports: seq<BsrReport>, r: BsrReport, lcg: nat)
    requires forall q <- reports :: q.lcgId != r.lcgId
    ensures IndexFor(reports + [r], lcg) == if lcg == r.lcgId then r.bufferSize % 64 else IndexFor(reports, lcg)
  {
    if reports != [] {
      assert (reports + [r])[1..] == reports[1..] + [r];
      IndexForAppend(reports[1..], r, lcg);
      assert reports[0] in reports;
    }
  }

  lemma ReportedStep(view: View, reports: seq<BsrReport>, n: nat)
    requires n < |reports| && reports[n].lcgId < NOF_LCGS
    ensures Reported(view, reports[..n + 1]) ==
        Reported(view, reports[..n])[reports[n].lcgId := BsrIndexToBytes(reports[n].bufferSize)]
  {
    assert reports[..n + 1][..n] == reports[..n];
  }

  lemma FourReported(view: View, i0: nat, i1: nat, i2: nat, i3: nat)
    ensures Reported(view, [BsrReport(0, i0), BsrReport(1, i1), BsrReport(2, i2), BsrReport(3, i3)]) ==
            [BsrIndexToBytes(i0), BsrIndexToBytes(i1), BsrIndexToBytes(i2), BsrIndexToBytes(i3)]
  {
    var reports := [BsrReport(0, i0), BsrReport(1, i1), BsrReport(2, i2), BsrReport(3, i3)];
    ReportedStep(view, reports, 0);
    ReportedStep(view, reports, 1);
    ReportedStep(view, reports, 2);
    ReportedStep(view, reports, 3);
    assert reports[..0] == [] && reports[..4] == reports;
  }

  /** The view after a Long BSR has been packed and unpacked: the decoded size of every LCG. */
  lemma LongView(view: View, sizes: seq<nat>)
    requires |sizes| == NOF_LCGS
    ensures Received(view, Seen(BsrCe(LongBsr, UeBsr.LongReports(sizes, NOF_LCGS)))) ==
            [Decoded(sizes[0]), Decoded(sizes[1]), Decoded(sizes[2]), Decoded(sizes[3])]
  {
    LongIndex(sizes, NOF_LCGS, 0);
    LongIndex(sizes, NOF_LCGS, 1);
    LongIndex(sizes, NOF_LCGS, 2);
    LongIndex(sizes, NOF_LCGS, 3);
    FourReported([0, 0, 0, 0], BytesToBsrIndex(sizes[0]), BytesToBsrIndex(sizes[1]), BytesToBsrIndex(sizes[2]),
                 BytesToBsrIndex(sizes[3]));
  }

  lemma OneReported(view: View, r: BsrReport)
    requires r.lcgId < NOF_LCGS
    ensures Reported(view, [r]) == view[r.lcgId := BsrIndexToBytes(r.bufferSize)]
  {
    assert [r][..0] == [];
  }

  /** The BSR path: a Long BSR for any buffer sizes, packed into any grant that holds it, unpacked, decoded and
      forwarded, leaves the scheduler with the decoded size of every non-empty LCG, which covers the demand. An LCG
      reported empty keeps its old estimate, because zeros are not forwarded. */
  lemma LongBsrCoversDemand(buf: seq<Byte>, grant: nat, sizes: seq<nat>, view: View, c: UeCtx, i: nat)
    requires |sizes| == NOF_LCGS && 4 <= grant <= |buf| && i < NOF_LCGS
    ensures var bsr := BsrCe(LongBsr, UeBsr.LongReports(sizes, NOF_LCGS));
            var (v, d) := OnPdu(view, c, PackBytes(buf, grant, bsr, [])[..grant]);
            && v[i] == Decoded(sizes[i])
            && d.ulBuffer[i] == (if sizes[i] > 0 then Decoded(sizes[i]) else c.ulBuffer[i])
            && d.ulBuffer[i] >= Min(sizes[i], MAX_REPORTABLE_BYTES)
  {
    var bsr := BsrCe(LongBsr, UeBsr.LongReports(sizes, NOF_LCGS));
    UeBsr.LongReportsInRange(sizes, NOF_LCGS);
    PduRoundTrip(buf, grant, bsr, []);
    LongView(view, sizes);
    var v := Received(view, Seen(bsr));
    ForwardedOne(sizes[i]);
    ForwardedAt(c, v, NOF_LCGS, i);
    DecodedCoversDemand(sizes[i]);
  }

  /** The same for a Short or Truncated BSR and the one LCG it reports. */
  lemma ShortBsrCoversDemand(buf: seq<Byte>, grant: nat, format: BsrFormat, lcg: nat, bytes: nat, view: View, c: UeCtx)
    requires format != LongBsr && lcg < NOF_LCGS && 2 <= grant <= |buf|
    ensures var (v, d) := OnPdu(view, c,
                                PackBytes(buf, grant, BsrCe(format, [BsrReport(lcg, BytesToBsrIndex(bytes))]),
                                          [])[..grant]);
            && v == view[lcg := Decoded(bytes)]
            && d.ulBuffer[lcg] == (if bytes > 0 then Decoded(bytes) else c.ulBuffer[lcg])
            && d.ulBuffer[lcg] >= Min(bytes, MAX_REPORTABLE_BYTES)
  {
    var bsr := BsrCe(format, [BsrReport(lcg, BytesToBsrIndex(bytes))]);
    QuantiserIsLeastCovering(bytes);
    PduRoundTrip(buf, grant, bsr, []);
    OneReported(view, bsr.reports[0]);
    var v := Received(view, bsr);
    ForwardedOne(bytes);
    ForwardedAt(c, v, NOF_LCGS, lcg);
    DecodedCoversDemand(bytes);
  }
}
