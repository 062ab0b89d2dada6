/** What the eNB uplink scheduler computes: link adaptation, first-fit PRB allocation, and the phases of one TTI as
    functions on the scheduler's state (enb_ul_scheduler.cpp). The imperative scheduler is in UlScheduler.dfy. */
module Scheduler {
  import opened Arithmetic
  import opened CommonTypes

  // ---- Per-UE scheduling context; a recorded TB is never empty ----

  datatype TbInfo = TbInfo(tbs: nat, mcs: nat, nPrb: nat, valid: bool)

  datatype UeSched = UeSched(
    srPending: bool, ulBuffer: seq<nat>, totalUlBuffer: nat, ulSnr: int, cqi: nat,
    pendingRetx: seq<bool>, ndi: seq<bool>, busy: seq<bool>, tb: seq<TbInfo>, ttiSinceSched: nat)

  type UeCtx = c: UeSched |
      && |c.ulBuffer| == NOF_LCGS
      && |c.pendingRetx| == |c.ndi| == |c.busy| == |c.tb| == MAX_HARQ_PROCESSES
      && (forall p :: 0 <= p < MAX_HARQ_PROCESSES && c.tb[p].valid ==> c.tb[p].tbs > 0 && c.tb[p].nPrb > 0)
    witness NEW_UE

  const NO_TB := TbInfo(0, 0, 0, false)

  const NEW_UE := UeSched(false, [0, 0, 0, 0], 0, 200, 0,
                          seq(MAX_HARQ_PROCESSES, _ => false), seq(MAX_HARQ_PROCESSES, _ => false),
                          seq(MAX_HARQ_PROCESSES, _ => false), seq(MAX_HARQ_PROCESSES, _ => NO_TB), 0)

  datatype SchedResult = SchedResult(rnti: Rnti, grant: UlGrant, isRetx: bool)

  /** What the grant itself tells of its kind: a retransmission asks for no particular redundancy version, a new TB
      for 0. */
  predicate MeantAsRetx(g: UlGrant) {
    g.rv == -1
  }

  const NO_GRANT := UlGrant(0, 0, 0, 0, 0, 0, -1, false, false, false, 0)

  function Sum(s: seq<nat>): nat {
    if s == [] then 0 else s[0] + Sum(s[1..])
  }

  // ---- Indications from the air interface ----

  function MaxEach(a: seq<nat>, b: seq<nat>): (m: seq<nat>)
    requires |a| == |b|
    ensures |m| == |a| && forall i :: 0 <= i < |m| ==> m[i] == Max(a[i], b[i])
  {
    seq(|a|, i requires 0 <= i < |a| => Max(a[i], b[i]))
  }

  function OnSr(c: UeCtx, pending: seq<nat>): UeCtx
    requires |pending| == NOF_LCGS
  {
    var buffer := MaxEach(c.ulBuffer, pending);
    c.(srPending := true, ulBuffer := buffer,
       totalUlBuffer := if buffer == c.ulBuffer then c.totalUlBuffer else Sum(buffer))
  }

  /** The index parameter is narrowed to eight bits before the table is consulted. */
  function OnBsr(c: UeCtx, lcg: nat, index: nat): UeCtx {
    if lcg >= NOF_LCGS then c
    else
      var buffer := c.ulBuffer[lcg := BsrIndexToBytes(index % 256)];
      c.(ulBuffer := buffer, totalUlBuffer := Sum(buffer))
  }

  function OnCrc(c: UeCtx, pid: nat, crcOk: bool): UeCtx {
    if pid >= MAX_HARQ_PROCESSES then c
    else if crcOk then
      c.(pendingRetx := c.pendingRetx[pid := false], busy := c.busy[pid := false],
         tb := c.tb[pid := c.tb[pid].(valid := false)])
    else
      c.(pendingRetx := c.pendingRetx[pid := true], busy := c.busy[pid := true])
  }

  /** What is left of the LCG estimates after a grant of `bytes`, taken from LCG 0 upwards. */
  function Deducted(buffer: seq<nat>, bytes: nat): (left: seq<nat>)
    ensures |left| == |buffer|
  {
    if buffer == [] then []
    else
      var taken := Min(bytes, buffer[0]);
      [buffer[0] - taken] + Deducted(buffer[1..], bytes - taken)
  }

  /** Issuing a grant lowers the total estimate by exactly min(tbs, total). */
  lemma {:induction false} DeductionIsExact(buffer: seq<nat>, bytes: nat)
    ensures Sum(Deducted(buffer, bytes)) == Sum(buffer) - Min(bytes, Sum(buffer))
  {
    if buffer != [] {
      DeductionIsExact(buffer[1..], bytes - Min(bytes, buffer[0]));
      var d := Deducted(buffer, bytes);
      assert d[1..] == Deducted(buffer[1..], bytes - Min(bytes, buffer[0]));
    }
  }

  /** Estimates are taken from LCG 0 upwards: one loses bytes only once all before it are empty. */
  lemma {:induction false} DeductionIsInOrder(buffer: seq<nat>, bytes: nat, i: nat, j: nat)
    requires i < j < |buffer|
    ensures Deducted(buffer, bytes)[j] <= buffer[j]
    ensures Deducted(buffer, bytes)[j] < buffer[j] ==> Deducted(buffer, bytes)[i] == 0
  {
    var rest := bytes - Min(bytes, buffer[0]);
    if i > 0 {
      DeductionIsInOrder(buffer[1..], rest, i - 1, j - 1);
    } else if bytes <= buffer[0] {
      NothingTaken(buffer[1..]);
    } else if j > 1 {
      DeductionIsInOrder(buffer[1..], rest, 0, j - 1);
    }
  }

  lemma {:induction false} NothingTaken(buffer: seq<nat>)
    ensures Deducted(buffer, 0) == buffer
  {
    if buffer != [] { NothingTaken(buffer[1..]); }
  }

  // ---- Link adaptation ----

  function McsSearch(snr: int, i: nat): (mcs: nat)
    requires i < |SNR_MCS_THRESHOLD|
    ensures mcs <= i
  {
    if snr >= SNR_MCS_THRESHOLD[i] then i else if i == 0 then 0 else McsSearch(snr, i - 1)
  }

  function McsFromSnr(snr: int): nat {
    McsSearch(snr, 28)
  }

  function McsFromCqi(cqi: nat): nat {
    if cqi == 0 then 0 else Min((cqi - 1) * 2, 28)
  }

  function McsOf(c: UeCtx): nat {
    if c.cqi > 0 then McsFromCqi(c.cqi) else McsFromSnr(c.ulSnr)
  }

  /** The selected MCS is the highest whose threshold the SNR meets. */
  lemma {:induction false} McsIsHighestSupported(snr: int, i: nat)
    requires i < |SNR_MCS_THRESHOLD|
    ensures forall j :: McsSearch(snr, i) < j <= i ==> snr < SNR_MCS_THRESHOLD[j]
    ensures snr >= SNR_MCS_THRESHOLD[McsSearch(snr, i)] || McsSearch(snr, i) == 0
  {
    if snr < SNR_MCS_THRESHOLD[i] && i > 0 { McsIsHighestSupported(snr, i - 1); }
  }

  /** A reported CQI counts two MCS to a step, up to 28; without one the MCS is the highest whose threshold the SNR
      meets. */
  lemma McsChoice(c: UeCtx)
    ensures 1 <= c.cqi <= 15 ==> McsOf(c) == 2 * c.cqi - 2
    ensures c.cqi == 0 ==> McsOf(c) <= 28 && (c.ulSnr >= SNR_MCS_THRESHOLD[McsOf(c)] || McsOf(c) == 0)
    ensures c.cqi == 0 ==> forall j :: 0 <= j <= 28 && c.ulSnr >= SNR_MCS_THRESHOLD[j] ==> j <= McsOf(c)
  {
    McsIsHighestSupported(c.ulSnr, 28);
  }

  const ANCHOR_MCS: seq<nat> := [0, 5, 10, 15, 20, 28]
  const ANCHOR_BITS: seq<nat> := [16, 64, 120, 176, 272, 456]

  function AnchorBelow(mcs: nat, lo: nat): (i: nat)
    requires lo < |ANCHOR_MCS|
    ensures lo <= i < |ANCHOR_MCS|
    decreases |ANCHOR_MCS| - lo
  {
    if lo + 1 < |ANCHOR_MCS| && ANCHOR_MCS[lo + 1] <= mcs then AnchorBelow(mcs, lo + 1) else lo
  }

  function BitsPerPrb(mcs: nat): nat {
    if mcs == 0 then 16
    else if mcs >= 28 then 456
    else
      var lo := AnchorBelow(mcs, 0);
      if lo + 1 >= |ANCHOR_MCS| || mcs < ANCHOR_MCS[lo] then 456
      else
        var (bits, step) := (ANCHOR_BITS[lo + 1] - ANCHOR_BITS[lo], ANCHOR_MCS[lo + 1] - ANCHOR_MCS[lo]);
        ANCHOR_BITS[lo] + bits * (mcs - ANCHOR_MCS[lo]) / step
  }

  function Tbs(mcs: nat, nPrb: nat): nat {
    BitsPerPrb(mcs) * nPrb / 8
  }

  lemma BitsPerPrbSegments(mcs: nat)
    requires mcs < 28
    ensures BitsPerPrb(mcs) ==
            if mcs < 5 then 16 + 48 * mcs / 5
            else if mcs < 10 then 64 + 56 * (mcs - 5) / 5
            else if mcs < 15 then 120 + 56 * (mcs - 10) / 5
            else if mcs < 20 then 176 + 96 * (mcs - 15) / 5
            else 272 + 184 * (mcs - 20) / 8
  {
    var lo := if mcs < 5 then 0 else if mcs < 10 then 1 else if mcs < 15 then 2 else if mcs < 20 then 3 else 4;
    AnchorBelowIs(mcs, 0, lo);
  }

  lemma {:induction false} AnchorBelowIs(mcs: nat, lo: nat, i: nat)
    requires lo <= i < 5 && ANCHOR_MCS[i] <= mcs < ANCHOR_MCS[i + 1]
    ensures AnchorBelow(mcs, lo) == i
    decreases i - lo
  {
    if lo < i {
      assert ANCHOR_MCS[lo + 1] <= ANCHOR_MCS[i];
      AnchorBelowIs(mcs, lo + 1, i);
    }
  }

  lemma {:induction false} BitsPerPrbMonotone(m1: nat, m2: nat)
    requires m1 <= m2
    ensures 16 <= BitsPerPrb(m1) <= BitsPerPrb(m2)
    decreases m2 - m1
  {
    if m1 < 28 { BitsPerPrbSegments(m1); }
    if m1 < m2 {
      if m1 + 1 < 28 { BitsPerPrbSegments(m1 + 1); }
      BitsPerPrbMonotone(m1 + 1, m2);
    }
  }

  /** The TBS grows with the MCS and with the PRBs, across all interpolated anchors, and is positive for any PRB. */
  lemma TbsMonotone(m1: nat, n1: nat, m2: nat, n2: nat)
    requires m1 <= m2 && n1 <= n2
    ensures Tbs(m1, n1) <= Tbs(m2, n2)
    ensures n1 >= 1 ==> Tbs(m1, n1) >= 2
  {
    BitsPerPrbMonotone(m1, m2);
    MulMonotone(BitsPerPrb(m1), BitsPerPrb(m2), n1, n2);
    if n1 >= 1 { MulMonotone(16, BitsPerPrb(m1), 1, n1); }
  }

  /** The TBS in closed form, for every MCS and number of PRBs: the anchors 0, 5, 10, 15, 20 and 28 carry 16, 64,
      120, 176, 272 and 456 bits in a PRB, between them the rate is the floor of the linear interpolation, and above
      28 it stays. */
  lemma TbsClosedForm(mcs: nat, n: nat)
    ensures mcs < 5 ==> Tbs(mcs, n) == (16 + (64 - 16) * mcs / 5) * n / 8
    ensures 5 <= mcs < 10 ==> Tbs(mcs, n) == (64 + (120 - 64) * (mcs - 5) / 5) * n / 8
    ensures 10 <= mcs < 15 ==> Tbs(mcs, n) == (120 + (176 - 120) * (mcs - 10) / 5) * n / 8
    ensures 15 <= mcs < 20 ==> Tbs(mcs, n) == (176 + (272 - 176) * (mcs - 15) / 5) * n / 8
    ensures 20 <= mcs < 28 ==> Tbs(mcs, n) == (272 + (456 - 272) * (mcs - 20) / 8) * n / 8
    ensures mcs >= 28 ==> Tbs(mcs, n) == 456 * n / 8
  {
    if mcs < 28 { BitsPerPrbSegments(mcs); }
  }

  // ---- First-fit PRB pool ----

  predicate FreeRun(prb: seq<bool>, start: nat, n: nat) {
    start + n <= |prb| && forall k :: start <= k < start + n ==> !prb[k]
  }

  /** Least start at or after `start` of a free run of n PRBs, or -1. */
  function FirstFit(prb: seq<bool>, n: nat, start: nat): (r: int)
    decreases |prb| - start
  {
    if start + n > |prb| then -1
    else if FreeRun(prb, start, n) then start
    else if start < |prb| then FirstFit(prb, n, start + 1)
    else -1
  }

  function Mark(prb: seq<bool>, start: nat, n: nat): (m: seq<bool>)
    requires start + n <= |prb|
    ensures |m| == |prb| && forall k :: 0 <= k < |m| ==> m[k] == (prb[k] || start <= k < start + n)
  {
    prb[..start] + seq(n, _ => true) + prb[start + n..]
  }

  lemma {:induction false} FirstFitIsLeast(prb: seq<bool>, n: nat, start: nat)
    ensures var r := FirstFit(prb, n, start);
            && (r >= 0 ==> start <= r && FreeRun(prb, r, n) && forall s :: start <= s < r ==> !FreeRun(prb, s, n))
            && (r < 0 ==> r == -1 && forall s :: start <= s ==> !FreeRun(prb, s, n))
    decreases |prb| - start
  {
    if start + n <= |prb| && !FreeRun(prb, start, n) && start < |prb| {
      FirstFitIsLeast(prb, n, start + 1);
    }
  }

  function PrbAlloc(prb: seq<bool>, n: nat): (int, seq<bool>) {
    if n == 0 || n > |prb| then (-1, prb)
    else
      FirstFitIsLeast(prb, n, 0);
      var start := FirstFit(prb, n, 0);
      if start < 0 then (-1, prb) else (start, Mark(prb, start, n))
  }

  // ---- Grants ----

  function FirstFree(busy: seq<bool>, i: nat): (pid: int)
    requires i <= |busy|
    ensures pid == -1 || i <= pid < |busy|
    ensures pid >= 0 ==> !busy[pid] && forall j :: i <= j < pid ==> busy[j]
    ensures pid < 0 ==> forall j :: i <= j < |busy| ==> busy[j]
    decreases |busy| - i
  {
    if i == |busy| then -1 else if !busy[i] then i else FirstFree(busy, i + 1)
  }

  function DivUp(a: nat, b: nat): nat
    requires b > 0
  {
    (a + b - 1) / b
  }

  /** PRBs needed for the demand, at the PRB efficiency of the MCS. */
  function Demand(c: UeCtx): nat {
    if c.totalUlBuffer == 0 then 100 else c.totalUlBuffer
  }

  function PrbsFor(c: UeCtx): nat {
    DivUp(Demand(c), Max(Tbs(McsOf(c), 1), 1))
  }

  function RetxGrant(c: UeCtx, prb: seq<bool>, rnti: Rnti, tti: nat, pid: nat): (seq<bool>, UlGrant)
    requires pid < MAX_HARQ_PROCESSES
  {
    var tb := c.tb[pid];
    if !tb.valid then (prb, NO_GRANT)
    else
      var (start, marked) := PrbAlloc(prb, tb.nPrb);
      if start < 0 then (marked, NO_GRANT)
      else (marked, UlGrant(rnti, pid, tb.tbs, tb.nPrb, start, tb.mcs, -1, c.ndi[pid], true, false, tti))
  }

  /** A new TB of n PRBs on process pid: the NDI is toggled and the TB recorded for retransmissions. */
  function NewTb(c: UeCtx, rnti: Rnti, tti: nat, pid: nat, n: nat, start: nat): (UeCtx, UlGrant)
    requires pid < MAX_HARQ_PROCESSES && n > 0
  {
    var mcs := McsOf(c);
    TbsMonotone(mcs, n, mcs, n);
    (c.(tb := c.tb[pid := TbInfo(Tbs(mcs, n), mcs, n, true)], ndi := c.ndi[pid := !c.ndi[pid]]),
     UlGrant(rnti, pid, Tbs(mcs, n), n, start, mcs, 0, !c.ndi[pid], true, false, tti))
  }

  function Committed(c: UeCtx, pid: nat, tbs: nat): UeCtx
    requires pid < MAX_HARQ_PROCESSES
  {
    var buffer := Deducted(c.ulBuffer, tbs);
    c.(busy := c.busy[pid := true], srPending := false, ulBuffer := buffer, totalUlBuffer := Sum(buffer))
  }

  // ---- The phases of one TTI ----

  datatype Sched = Sched(db: map<Rnti, UeCtx>, prb: seq<bool>, results: seq<SchedResult>)

  function RntisOf(results: seq<SchedResult>): set<Rnti> {
    set r <- results :: r.rnti
  }

  /** Whether process pid of the UE can be retransmitted now. */
  predicate Servable(c: UeCtx, prb: seq<bool>, pid: nat)
    requires pid < MAX_HARQ_PROCESSES
  {
    c.pendingRetx[pid] && c.tb[pid].valid && PrbAlloc(prb, c.tb[pid].nPrb).0 >= 0
  }

  function FirstServable(c: UeCtx, prb: seq<bool>, pid: nat): (p: nat)
    requires pid <= MAX_HARQ_PROCESSES
    ensures pid <= p <= MAX_HARQ_PROCESSES
    ensures p < MAX_HARQ_PROCESSES ==> Servable(c, prb, p)
    decreases MAX_HARQ_PROCESSES - pid
  {
    if pid == MAX_HARQ_PROCESSES || Servable(c, prb, pid) then pid else FirstServable(c, prb, pid + 1)
  }

  predicate Dropped(c: UeCtx, below: nat, p: nat)
    requires p < MAX_HARQ_PROCESSES
  {
    p < below && c.pendingRetx[p] && !c.tb[p].valid
  }

  /** The drop guard: processes below `below` that are pending without a recorded TB are released. */
  function Guarded(c: UeCtx, below: nat): UeCtx {
    c.(pendingRetx := seq(MAX_HARQ_PROCESSES, p
                          requires 0 <= p < MAX_HARQ_PROCESSES => c.pendingRetx[p] && !Dropped(c, below, p)),
       busy := seq(MAX_HARQ_PROCESSES, p requires 0 <= p < MAX_HARQ_PROCESSES => c.busy[p] && !Dropped(c, below, p)))
  }

  /** Retransmission phase for one UE: the lowest pending process that can be served gets the UE's one grant. */
  function RetxUe(s: Sched, rnti: Rnti, tti: nat): (s': Sched)
    requires rnti in s.db
    ensures s'.db.Keys == s.db.Keys && |s'.prb| == |s.prb|
  {
    var p := FirstServable(s.db[rnti], s.prb, 0);
    var c := Guarded(s.db[rnti], p);
    if p == MAX_HARQ_PROCESSES then s.(db := s.db[rnti := c])
    else
      var (prb, g) := RetxGrant(c, s.prb, rnti, tti, p);
      Sched(s.db[rnti := c.(pendingRetx := c.pendingRetx[p := false], ttiSinceSched := 0)], prb,
            s.results + [SchedResult(rnti, g, true)])
  }

  predicate AllKnown(rntis: seq<Rnti>, known: set<Rnti>) {
    forall i :: 0 <= i < |rntis| ==> rntis[i] in known
  }

  function RetxAll(s: Sched, rntis: seq<Rnti>, tti: nat): (s': Sched)
    requires AllKnown(rntis, s.db.Keys)
    ensures s'.db.Keys == s.db.Keys && |s'.prb| == |s.prb|
    decreases |rntis|
  {
    if rntis == [] then s else RetxAll(RetxUe(s, rntis[0], tti), rntis[1..], tti)
  }

  /** The new-transmission phases; each serves UEs in a given order. */
  datatype Phase = PfNew | RrNew | EpfGuard(starveTti: nat, minPrb: nat) | EpfNew

  predicate Wants(c: UeCtx) {
    c.totalUlBuffer > 0 || c.srPending
  }

  /** Every new-transmission phase passes over UEs without demand; the starvation guard only considers starving ones. */
  predicate Considered(c: UeCtx, phase: Phase) {
    Wants(c) && (phase.EpfGuard? ==> c.ttiSinceSched > phase.starveTti)
  }

  /** PRBs the phase asks for: the starvation guard caps the demand by the reserved share. */
  function Wanted(c: UeCtx, phase: Phase, totalPrb: nat): nat {
    if phase.EpfGuard? then Min(Max(Min(PrbsFor(c), phase.minPrb), 1), totalPrb) else Min(PrbsFor(c), totalPrb)
  }

  predicate IsEpf(phase: Phase) {
    phase.EpfGuard? || phase.EpfNew?
  }

  /** A new TB for a UE on an idle process, if its PRBs fit; the EPF phases also restart the starvation counter. */
  function Issue(s: Sched, granted: set<Rnti>, rnti: Rnti, tti: nat, phase: Phase, pid: nat): (r: (Sched, set<Rnti>))
    requires rnti in s.db && pid < MAX_HARQ_PROCESSES
    ensures r.0.db.Keys == s.db.Keys && |r.0.prb| == |s.prb|
  {
    var n := Wanted(s.db[rnti], phase, |s.prb|);
    var (start, prb) := PrbAlloc(s.prb, n);
    if start < 0 then (s.(prb := prb), granted)
    else
      var (c, g) := NewTb(s.db[rnti], rnti, tti, pid, n, start);
      if g.tbs > 0 || phase.EpfGuard? then
        var d := Committed(c, pid, g.tbs);
        (Sched(s.db[rnti := if IsEpf(phase) then d.(ttiSinceSched := 0) else d], prb,
               s.results + [SchedResult(rnti, g, false)]),
         if IsEpf(phase) then granted + {rnti} else granted)
      else (s.(db := s.db[rnti := c], prb := prb), granted)
  }

  /** One UE in one new-transmission phase. */
  function Serve(s: Sched, granted: set<Rnti>, rnti: Rnti, tti: nat, phase: Phase): (r: (Sched, set<Rnti>))
    requires rnti in s.db
    ensures r.0.db.Keys == s.db.Keys && |r.0.prb| == |s.prb|
  {
    var c := s.db[rnti];
    if rnti in granted || !Considered(c, phase) then (s, granted)
    else
      var pid := FirstFree(c.busy, 0);
      if pid < 0 then (s, granted) else Issue(s, granted, rnti, tti, phase, pid)
  }

  function ServeAll(s: Sched, granted: set<Rnti>, order: seq<Rnti>, tti: nat, phase: Phase): (r: (Sched, set<Rnti>))
    requires AllKnown(order, s.db.Keys)
    ensures r.0.db.Keys == s.db.Keys && |r.0.prb| == |s.prb|
    decreases |order|
  {
    if order == [] then (s, granted)
    else
      var (s', granted') := Serve(s, granted, order[0], tti, phase);
      ServeAll(s', granted', order[1..], tti, phase)
  }

  function Started(db: map<Rnti, UeCtx>, totalPrb: nat): Sched {
    Sched(db, seq(totalPrb, _ => false), [])
  }

  function RunPf(db: map<Rnti, UeCtx>, totalPrb: nat, rntis: seq<Rnti>, order: seq<Rnti>, tti: nat): Sched
    requires AllKnown(rntis, db.Keys) && AllKnown(order, db.Keys)
  {
    var s := RetxAll(Started(db, totalPrb), rntis, tti);
    ServeAll(s, RntisOf(s.results), order, tti, PfNew).0
  }

  function Rotated(rntis: seq<Rnti>, offset: nat): (order: seq<Rnti>)
    ensures |order| == |rntis|
    ensures forall k :: 0 <= k < |order| ==> order[k] == rntis[(offset + k) % |rntis|]
    ensures forall known: set<Rnti> :: AllKnown(rntis, known) ==> AllKnown(order, known)
  {
    seq(|rntis|, k requires 0 <= k < |rntis| => rntis[(offset + k) % |rntis|])
  }

  function RunRr(db: map<Rnti, UeCtx>, totalPrb: nat, rntis: seq<Rnti>, offset: nat, tti: nat): Sched
    requires AllKnown(rntis, db.Keys)
  {
    var s := RetxAll(Started(db, totalPrb), rntis, tti);
    ServeAll(s, RntisOf(s.results), Rotated(rntis, offset), tti, RrNew).0
  }

  function Aged(db: map<Rnti, UeCtx>): map<Rnti, UeCtx> {
    map r | r in db :: db[r].(ttiSinceSched := db[r].ttiSinceSched + 1)
  }

  function RunEpf(db: map<Rnti, UeCtx>, totalPrb: nat, rntis: seq<Rnti>, order: seq<Rnti>, tti: nat,
                  starveTti: nat, minPrb: nat): Sched
    requires AllKnown(rntis, db.Keys) && AllKnown(order, db.Keys)
  {
    var s := RetxAll(Started(Aged(db), totalPrb), rntis, tti);
    var (s', granted) := ServeAll(s, RntisOf(s.results), order, tti, EpfGuard(starveTti, minPrb));
    ServeAll(s', granted, order, tti, EpfNew).0
  }
}
