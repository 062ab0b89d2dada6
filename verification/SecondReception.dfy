/** With a receiver at least as good as the scheduler believes and no quality reports, no TB is received more than
    twice: the second reception of a TB is always decoded, so nothing is ever discarded. */
module SecondReception {
  import opened CommonTypes
  import opened TtiThreads
  import opened TtiDeterminism
  import opened TtiRuns
  import opened Scheduler
  import opened SchedulerSafety
  import opened GrantSizing
  import UeHarq
  import EnbHarq
  import opened HarqLane
  import opened HarqLoop
  import opened HarqRuns

  /** Two receptions decode a TB of this MCS. */
  predicate TwoDecode(mcs: nat, snr: int) {
    EnbHarq.EffectiveSnr(snr, 2) >= EnbHarq.DecodeThreshold(mcs)
  }

  /** The receiver is no worse than the scheduler believes, and the scheduler goes by the SNR. */
  predicate WellJudged(c: UeCtx, rxSnr: int) {
    c.cqi == 0 && rxSnr >= c.ulSnr >= SNR_MCS_THRESHOLD[0]
  }

  /** The combining gain of one more reception exceeds the decoding margin, so the MCS chosen for the SNR is decoded. */
  lemma ChosenMcsDecodes(c: UeCtx, rxSnr: int)
    requires WellJudged(c, rxSnr)
    ensures TwoDecode(McsOf(c), rxSnr)
  {
    McsIsHighestSupported(c.ulSnr, 28);
  }

  /** A TB the scheduler sizes for such a receiver is decoded in at most two receptions, out of any number allowed
      above one. */
  lemma TwoReceptionsSuffice(c: UeCtx, rxSnr: int, p: EnbHarq.RxProc, g: UlGrant, maxTx: nat)
    requires WellJudged(c, rxSnr) && maxTx >= 2 && g.ndiPresent && !p.ndiKnown && g.mcs == McsOf(c)
    ensures var (n, ack) := EnbHarq.Attempts(p, g, rxSnr, maxTx); n <= 2 && ack
  {
    ChosenMcsDecodes(c, rxSnr);
    EnbHarq.SoftCombiningClosedForm(p, g, rxSnr, maxTx);
  }

  // ---- One process ----

  predicate QuickLane(l: Lane, snr: int) {
    (l.busy ==> TwoDecode(l.tb.mcs, snr)) && Receptions(l.rx) <= 1
  }

  lemma QuickReception(l: Lane, cfg: UeHarq.HarqConfig, snr: int)
    requires SentLane(l, cfg) && QuickLane(l, snr) && cfg.maxHarqTx >= 2
    ensures var (x, res) := EnbHarq.Receive(l.rx, l.pdu[0].item, snr, cfg.maxHarqTx);
            !res.discarded && res.txCount <= 2 && (res.txCount == 2 ==> res.crcOk) && Receptions(x) <= 1
  {
  }

  lemma QuickLaneKept(l: Lane, i: Issued, cfg: UeHarq.HarqConfig, snr: int, t: nat)
    requires LaneInv(l, cfg, t) && IssueOk(l, i) && QuickLane(l, snr) && cfg.maxHarqTx >= 2
    requires i.NewGrant? ==> TwoDecode(i.g.mcs, snr)
    ensures QuickLane(LaneStep(l, i, cfg, snr, t), snr)
  {
    if HeadDue(l.pdu, t).Some? {
      assert SentLane(l, cfg);
      QuickReception(l, cfg, snr);
    }
  }

  // ---- One link ----

  /** Indications and scheduling leave the quality the scheduler believes in alone, and new grants use the MCS chosen
      for it. */
  ghost predicate KeepsQuality<U, E(!new), S(!new)>(b: Bodies<U, E, S>, h: Parts<U, E>) {
    && (forall e: E, m: SrMsg :: SameRadio(h.sched(e), h.sched(b.onSr(e, m))))
    && (forall e: E, m: PduMsg :: SameRadio(h.sched(e), h.sched(b.onPdu(e, m))))
    && forall cells: map<Rnti, E>, shared: S, t: nat ::
         var plan := b.schedule(cells, shared, t);
         (forall r :: r in cells ==> Closed(h.sched(cells[r]))) ==>
           forall r :: r in cells && r in plan.0 ==> Judges(h.sched(cells[r]), h.sched(plan.0[r]), GrantsFor(plan.2, r))
  }

  ghost predicate Judges(c: UeCtx, d: UeCtx, gs: seq<UlGrant>) {
    SameRadio(c, d) && forall i :: 0 <= i < |gs| && !MeantAsRetx(gs[i]) ==> gs[i].mcs == McsOf(c)
  }

  ghost predicate QuickLink<U, E>(h: Parts<U, E>, l: Link<U, E>) {
    && WellJudged(h.sched(l.e), h.rx(l.e).ulSnrX100) && h.rx(l.e).stats.discard == 0
    && forall pid :: 0 <= pid < MAX_HARQ_PROCESSES ==> QuickLane(LaneOf(h, l, pid), h.rx(l.e).ulSnrX100)
  }

  lemma PduKeepsQuality<U, E(!new), S(!new)>(b: Bodies<U, E, S>, h: Parts<U, E>, maxTx: nat, e: E, m: PduMsg)
    requires FaithfulEnb(b, h, maxTx) && KeepsQuality(b, h)
    ensures SameRadio(h.sched(e), h.sched(PduReceived(b, e, [m]).0))
  {
    var heard := b.onPdu(e, m);
    var (got, crcOk, discarded) := b.receive(heard, m);
    assert h.sched(got) == h.sched(heard);
    assert TaskCell(b, e, m, 4) == b.onCrc(got, m, discarded || crcOk);
  }

  lemma QuickPdu<U(!new), E(!new), S(!new)>(p: Loop<U, E, S>, l: Link<U, E>, e: E, t: nat)
    requires InLoop(p) && KeepsQuality(p.b, p.h) && p.cfg.maxHarqTx >= 2
    requires LinkInv(p.h, p.cfg, p.totalPrb, l, t) && QuickLink(p.h, l) && p.h.rx(e) == p.h.rx(l.e)
    ensures var f := PduReceived(p.b, e, Due(l.pdu, t)).0;
            && SameRadio(p.h.sched(e), p.h.sched(f)) && p.h.rx(f).ulSnrX100 == p.h.rx(e).ulSnrX100
            && p.h.rx(f).stats.discard == 0
  {
    HeadsDue(l, t);
    var m := HeadDue(l.pdu, t);
    if m.Some? {
      var pid := m.value.grant.pid;
      OfPop(l.pdu, PduPid, PduGrant, pid, t);
      EnbReceived(p.b, p.h, p.cfg, e, m.value);
      PduKeepsQuality(p.b, p.h, p.cfg.maxHarqTx, e, m.value);
      QuickDue(LaneOf(p.h, l, pid), p.cfg, p.h.rx(l.e).ulSnrX100, t);
    }
  }

  lemma QuickDue(l: Lane, cfg: UeHarq.HarqConfig, snr: int, t: nat)
    requires LaneInv(l, cfg, t) && QuickLane(l, snr) && cfg.maxHarqTx >= 2 && HeadDue(l.pdu, t).Some?
    ensures var res := EnbHarq.Receive(l.rx, HeadDue(l.pdu, t).value, snr, cfg.maxHarqTx).1;
            !res.discarded && res.txCount <= 2 && (res.txCount == 2 ==> res.crcOk)
  {
    assert SentLane(l, cfg);
    QuickReception(l, cfg, snr);
  }

  lemma QuickLanes<U(!new), E(!new), S(!new)>(p: Loop<U, E, S>, r: Rnti, l: Link<U, E>, e: E, gs: seq<UlGrant>, t: nat,
                                              pid: nat)
    requires InLoop(p) && p.cfg.maxHarqTx >= 2 && pid < MAX_HARQ_PROCESSES
    requires LinkInv(p.h, p.cfg, p.totalPrb, l, t) && QuickLink(p.h, l) && p.h.rx(e) == p.h.rx(l.e)
    requires Serves(p.h.sched(l.e), p.h.sched(e), gs, p.totalPrb, t) && Judges(p.h.sched(l.e), p.h.sched(e), gs)
    ensures QuickLane(LaneOf(p.h, RoundLink(p.b, r, l, e, gs, t), pid), p.h.rx(l.e).ulSnrX100)
  {
    LaneRound(p.b, p.h, p.cfg, p.arrivals, r, l, e, gs, p.totalPrb, t, pid);
    IssuedIsOk(p.h, l, p.h.sched(e), gs, p.totalPrb, t, pid);
    ChosenMcsDecodes(p.h.sched(l.e), p.h.rx(l.e).ulSnrX100);
    QuickLaneKept(LaneOf(p.h, l, pid), IssuedTo(gs, pid), p.cfg, p.h.rx(l.e).ulSnrX100, t);
  }

  lemma QuickLinkKept<U(!new), E(!new), S(!new)>(p: Loop<U, E, S>, r: Rnti, l: Link<U, E>, e: E, gs: seq<UlGrant>,
                                                 t: nat)
    requires InLoop(p) && KeepsQuality(p.b, p.h) && p.cfg.maxHarqTx >= 2
    requires LinkInv(p.h, p.cfg, p.totalPrb, l, t) && QuickLink(p.h, l) && p.h.rx(e) == p.h.rx(l.e)
    requires Serves(p.h.sched(l.e), p.h.sched(e), gs, p.totalPrb, t) && Judges(p.h.sched(l.e), p.h.sched(e), gs)
    ensures QuickLink(p.h, RoundLink(p.b, r, l, e, gs, t))
  {
    QuickPdu(p, l, e, t);
    forall pid | 0 <= pid < MAX_HARQ_PROCESSES
      ensures QuickLane(LaneOf(p.h, RoundLink(p.b, r, l, e, gs, t), pid), p.h.rx(l.e).ulSnrX100)
    {
      QuickLanes(p, r, l, e, gs, t, pid);
    }
  }

  // ---- The cell, and runs ----

  lemma {:induction false} SrsKeepQuality<U, E(!new), S(!new)>(b: Bodies<U, E, S>, h: Parts<U, E>, e: E, ms: seq<SrMsg>)
    requires KeepsQuality(b, h)
    ensures SameRadio(h.sched(e), h.sched(FoldSr(b, e, ms)))
    decreases |ms|
  {
    if ms != [] {
      var front := ms[..|ms| - 1];
      SrsKeepQuality(b, h, e, front);
      assert SameRadio(h.sched(FoldSr(b, e, front)), h.sched(b.onSr(FoldSr(b, e, front), ms[|ms| - 1])));
    }
  }

  lemma JudgesAfter(c: UeCtx, c': UeCtx, d: UeCtx, gs: seq<UlGrant>)
    requires SameRadio(c, c') && Judges(c', d, gs)
    ensures Judges(c, d, gs)
  {
  }

  lemma PlanJudges<U, E(!new), S(!new)>(b: Bodies<U, E, S>, h: Parts<U, E>, cells: map<Rnti, E>, shared: S, t: nat,
                                        r: Rnti)
    requires KeepsQuality(b, h) && r in cells && forall q :: q in cells ==> Closed(h.sched(cells[q]))
    ensures var plan := b.schedule(cells, shared, t);
            r in plan.0 ==> Judges(h.sched(cells[r]), h.sched(plan.0[r]), GrantsFor(plan.2, r))
  {
  }

  lemma RoundJudges<U(!new), E(!new), S(!new)>(p: Loop<U, E, S>, c: Cell<U, E, S>, t: nat, r: Rnti)
    requires InLoop(p) && KeepsQuality(p.b, p.h) && CellInv(p.h, p.cfg, p.totalPrb, c, t) && r in c.links
    ensures var plan := p.b.schedule(Requested(p.b, c, t), c.shared, t);
            r in plan.0 && Judges(p.h.sched(c.links[r].e), p.h.sched(plan.0[r]), GrantsFor(plan.2, r))
  {
    var cells := Requested(p.b, c, t);
    var plan := p.b.schedule(cells, c.shared, t);
    KeysKept(p.b, c, t);
    forall q | q in cells ensures Closed(p.h.sched(cells[q])) {
      RequestedIsClosed(p.b, p.h, p.cfg, p.totalPrb, c, t, q);
    }
    PlanJudges(p.b, p.h, cells, c.shared, t, r);
    SrsKeepQuality(p.b, p.h, c.links[r].e, Due(c.links[r].sr, t));
    JudgesAfter(p.h.sched(c.links[r].e), p.h.sched(cells[r]), p.h.sched(plan.0[r]), GrantsFor(plan.2, r));
  }

  ghost predicate QuickCell<U, E, S>(p: Loop<U, E, S>, c: Cell<U, E, S>, t: nat) {
    CellInv(p.h, p.cfg, p.totalPrb, c, t) && forall r :: r in c.links ==> QuickLink(p.h, c.links[r])
  }

  lemma QuickRound<U(!new), E(!new), S(!new)>(p: Loop<U, E, S>, c: Cell<U, E, S>, t: nat, next: nat)
    requires InLoop(p) && KeepsQuality(p.b, p.h) && p.cfg.maxHarqTx >= 2 && QuickCell(p, c, t) && next == t + 1
    ensures QuickCell(p, NextRound(p.b, c, t), next)
  {
    NextRoundInv(p, c, t);
    KeysKept(p.b, c, t);
    RoundServes(p.b, p.h, p.cfg, p.totalPrb, c, t);
    var plan := p.b.schedule(Requested(p.b, c, t), c.shared, t);
    forall r | r in c.links ensures QuickLink(p.h, RoundLink(p.b, r, c.links[r], plan.0[r], GrantsFor(plan.2, r), t)) {
      RoundJudges(p, c, t, r);
      QuickLinkKept(p, r, c.links[r], plan.0[r], GrantsFor(plan.2, r), t);
    }
  }

  ghost function QuickCellOf<U(!new), E(!new), S(!new)>(p: Loop<U, E, S>): CellProperty<U, E, S> {
    (c: Cell<U, E, S>, t: nat) => QuickCell(p, c, t)
  }

  lemma QuickRounds<U(!new), E(!new), S(!new)>(p: Loop<U, E, S>, c: Cell<U, E, S>, start: nat, end: nat)
    requires InLoop(p) && KeepsQuality(p.b, p.h) && p.cfg.maxHarqTx >= 2 && QuickCellOf(p)(c, start) && start <= end
    ensures QuickCellOf(p)(Rounds(p.b, c, start, end), end)
  {
    var inv := QuickCellOf(p);
    forall d: Cell<U, E, S>, t: nat, next: nat | t < end && inv(d, t) && next == t + 1
      ensures inv(NextRound(p.b, d, t), next) {
      QuickRound(p, d, t, next);
    }
    RoundsKeep(p.b, c, start, start, end, end, inv);
  }

  lemma FreshIsQuick<U(!new), E(!new), S(!new)>(p: Loop<U, E, S>, l: Link<U, E>)
    requires FreshLink(p.h, l) && WellJudged(p.h.sched(l.e), p.h.rx(l.e).ulSnrX100)
    ensures QuickLink(p.h, l)
  {
  }

  lemma FreshQuickCell<U(!new), E(!new), S(!new)>(p: Loop<U, E, S>, s: Sys<U, E, S>, t: nat)
    requires SameKeys(s) && forall k :: k in s.ues ==> FreshLink(p.h, LinkAt(s, k))
    requires forall k :: k in s.ues ==> WellJudged(p.h.sched(s.cells[k]), p.h.rx(s.cells[k]).ulSnrX100)
    ensures QuickCellOf(p)(ViewOf(s), t)
  {
    FreshCell(p, s, t);
    CellInvIs(p, ViewOf(s), t);
    ViewLinks(s);
    forall k | k in ViewOf(s).links ensures QuickLink(p.h, ViewOf(s).links[k]) {
      FreshIsQuick(p, LinkAt(s, k));
    }
  }

  /** In every run of the threads from a fresh start in which every receiver is at least as good as the scheduler
      believes, no TB is ever discarded, and between TTIs no TB has been received more than once without success. */
  lemma ThreadsNeverDiscard<U(!new), E(!new), S(!new)>(p: Loop<U, E, S>, states: seq<Sys<U, E, S>>,
                                                       acts: seq<seq<Actor>>, t: nat, n: nat, now: nat)
    requires InLoop(p) && KeepsQuality(p.b, p.h) && p.cfg.maxHarqTx >= 2
    requires Runs(p.b, states, acts, t) && SysOk(states[0], t) && n <= |acts| && now == t + n
    requires forall k :: k in states[0].ues ==> FreshLink(p.h, LinkAt(states[0], k))
    requires forall k :: k in states[0].ues ==>
        WellJudged(p.h.sched(states[0].cells[k]), p.h.rx(states[0].cells[k]).ulSnrX100)
    ensures SameKeys(states[n]) && QuickCellOf(p)(ViewOf(states[n]), now)
  {
    FreshQuickCell(p, states[0], t);
    QuickRounds(p, ViewOf(states[0]), t, now);
    RunsAreRounds(p.b, states, acts, t, n, now);
    InStepIs(p, ViewOf(states[0]), t, states[n], now, QuickCellOf(p));
  }
}
