/** What holds of every run of the threads of a new system (ClosedLoop), whatever the interleavings, the traffic, the
    algorithm, the ranking of the UEs and the tie-breaking of the sort. */
module SystemRuns {
  import opened CommonTypes
  import opened TtiThreads
  import opened TtiDeterminism
  import opened TtiRuns
  import opened TimedChannels
  import C = TtiClocks
  import opened ClockedThreads
  import Scheduler
  import opened SchedulerSafety
  import opened LcgBuffer
  import UeHarq
  import EnbHarq
  import EnbBsr
  import MacPdu
  import opened CellSchedule
  import opened GrantSizing
  import opened SecondReception
  import opened HarqLane
  import opened HarqLoop
  import opened HarqRuns
  import opened HarqBytes
  import opened ClosedLoop

  type System = Sys<Ue, EnbCell, nat>

  /** A run of a new system from TTI t, and its state n, at the start of TTI `now`. */
  ghost predicate InRun(x: Setup, channels: map<Rnti, Buffers>, snr: Rnti -> int, states: seq<System>,
                        acts: seq<seq<Actor>>, t: nat, n: nat, now: nat) {
    SetupOk(x) && Runs(BodiesOf(x), states, acts, t) && states[0] == NewSystem(x, channels, snr) && n <= |acts|
      && now == t + n
  }

  /** Two runs of the same new system agree at the start of every TTI that both reach. */
  lemma SystemRunsAgree(x: Setup, channels: map<Rnti, Buffers>, snr: Rnti -> int, states: seq<System>,
                        acts: seq<seq<Actor>>, states': seq<System>, acts': seq<seq<Actor>>, t: nat, n: nat, now: nat)
    requires InRun(x, channels, snr, states, acts, t, n, now) && InRun(x, channels, snr, states', acts', t, n, now)
    ensures SameKeys(states[n]) && SameKeys(states'[n]) && Is(ViewOf(states[n]))(ViewOf(states'[n]))
  {
    CellSchedules(x);
    NewSystemIsFresh(x, channels, snr, states[0], t);
    RunsAgree(BodiesOf(x), states, acts, states', acts', t, n);
  }

  /** Every complete run of the clock and the workers of a new system is such a run: the theorems below hold of it. */
  lemma SystemIsClocked(x: Setup, channels: map<Rnti, Buffers>, snr: Rnti -> int, rntis: seq<Rnti>,
                        ms: seq<Machine<Ue, EnbCell, nat>>, mvs: seq<Move>, s0: System, maxTti: nat)
    returns (states: seq<System>, acts: seq<seq<Actor>>)
    requires SetupOk(x) && s0 == NewSystem(x, channels, snr)
    requires Traces(BodiesOf(x), rntis, ms, mvs) && Starts(rntis, ms[0], s0, maxTti) && C.Final(ms[|mvs|].clock)
    ensures InRun(x, channels, snr, states, acts, 0, maxTti + 1, maxTti + 1) && |acts| == maxTti + 1
    ensures states[maxTti + 1] == Restarted(ms[|mvs|].body)
  {
    var y := TraceTold(BodiesOf(x), rntis, ms, mvs, |mvs|, s0, maxTti);
    states, acts := y.states, y.acts;
  }

  /** The messages of process pid of UE r, and what the three parties hold for it. */
  ghost function LaneAt(s: System, r: Rnti, pid: nat): Lane
    requires SameKeys(s) && r in s.ues && pid < MAX_HARQ_PROCESSES
  {
    LaneOf(PartsOf(), LinkAt(s, r), pid)
  }

  lemma LaneInvAt(x: Setup, s: System, now: nat, r: Rnti, pid: nat)
    requires SetupOk(x) && SameKeys(s) && CellInvOf(LoopOf(x))(ViewOf(s), now) && r in s.ues && pid < MAX_HARQ_PROCESSES
    ensures LaneInv(LaneAt(s, r, pid), x.harq, now) && Accounted(s.cells[r].rx) && Closed(s.cells[r].sched)
  {
    ViewLinks(s);
    ProcessesAgree(LoopOf(x), ViewOf(s), now, r, pid);
  }

  /** Three-party HARQ agreement at the start of every TTI, for every process of every UE: a grant or PDU due in the
      TTI is understood as the scheduler meant it; exactly one grant or PDU is in flight when the process is busy
      without a retransmission pending, and none otherwise; a retransmission is only pending with a TB recorded; the
      receiver's counters add up. */
  lemma SystemAgrees(x: Setup, channels: map<Rnti, Buffers>, snr: Rnti -> int, states: seq<System>,
                     acts: seq<seq<Actor>>, t: nat, n: nat, now: nat, r: Rnti, pid: nat)
    requires InRun(x, channels, snr, states, acts, t, n, now) && r in states[n].ues && pid < MAX_HARQ_PROCESSES
    ensures SameKeys(states[n])
    ensures var l := LaneAt(states[n], r, pid);
            && (HeadDue(l.grant, now).Some? ==> GrantAgreed(l, x.harq, now))
            && (HeadDue(l.pdu, now).Some? ==> PduAgreed(l, x.harq, states[n].cells[r].rx.ulSnrX100, now))
            && |l.grant| + |l.pdu| == (if l.busy && !l.pending then 1 else 0)
            && (l.pending ==> l.busy && l.tb.valid)
    ensures Accounted(states[n].cells[r].rx)
  {
    SystemKeepsInv(x, channels, snr, states, acts, t, n, now);
    LaneInvAt(x, states[n], now, r, pid);
    var l := LaneAt(states[n], r, pid);
    LaneMeans(l, x.harq, states[n].cells[r].rx.ulSnrX100, now);
  }

  lemma LaneMeans(l: Lane, cfg: UeHarq.HarqConfig, snr: int, now: nat)
    requires LaneInv(l, cfg, now)
    ensures HeadDue(l.grant, now).Some? ==> GrantAgreed(l, cfg, now)
    ensures HeadDue(l.pdu, now).Some? ==> PduAgreed(l, cfg, snr, now)
    ensures |l.grant| + |l.pdu| == (if l.busy && !l.pending then 1 else 0)
    ensures l.pending ==> l.busy && l.tb.valid
  {
    SingleToken(l, cfg, now);
    if HeadDue(l.grant, now).Some? { GrantIsUnderstood(l, cfg, now); }
    if HeadDue(l.pdu, now).Some? { PduIsUnderstood(l, cfg, snr, now); }
  }

  /** The byte ledger of UE r at the start of TTI `now`, for a run from the cell c in TTI t. */
  ghost function Account(x: Setup, c: Cell<Ue, EnbCell, nat>, r: Rnti, t: nat, now: nat)
    : HarqBytes.Account<Ue, EnbCell, nat>
    requires SetupOk(x) && r in c.links
  {
    SystemIsInLoop(x);
    AccountAt(LoopOf(x), c, r, t, now)
  }

  lemma AccountIsKept(x: Setup, states: seq<System>, acts: seq<seq<Actor>>, t: nat, n: nat, now: nat, r: Rnti)
    requires SetupOk(x) && Runs(BodiesOf(x), states, acts, t) && SysOk(states[0], t) && n <= |acts| && now == t + n
    requires r in ViewOf(states[0]).links
      && forall k :: k in states[0].ues ==> FreshLink(PartsOf(), LinkAt(states[0], k))
    ensures var y := Account(x, ViewOf(states[0]), r, t, now);
            SameKeys(states[n]) && LedgerInv(LoopOf(x), r, y.led, y.offered)(ViewOf(states[n]), now)
  {
    SystemIsInLoop(x);
    ThreadsLoseNoByte(LoopOf(x), states, acts, t, n, now, r);
  }

  lemma AccountIsOffered(x: Setup, s: System, t: nat, now: nat, r: Rnti)
    requires SetupOk(x) && SameKeys(s) && r in s.ues && t <= now
    requires forall k :: k in s.ues ==> FreshLink(PartsOf(), LinkAt(s, k))
    ensures r in ViewOf(s).links
    ensures Account(x, ViewOf(s), r, t, now).offered ==
        Total(s.ues[r].u.channels) + ArrivedIn(LoopOf(x).arrivals, r, t, now)
  {
    SystemIsInLoop(x);
    ViewLinks(s);
    FreshCell(LoopOf(x), s, t);
    AccountHolds(LoopOf(x), ViewOf(s), r, t, now);
  }

  lemma AccountCovers(x: Setup, s: System, now: nat, r: Rnti, led: Taking, offered: nat)
    requires SetupOk(x) && SameKeys(s) && LedgerInv(LoopOf(x), r, led, offered)(ViewOf(s), now)
    ensures r in s.ues && offered <= Total(s.ues[r].u.channels) + Scheduler.Sum(led.taken) + led.acked
  {
    LedgerMeans(LoopOf(x), ViewOf(s), now, r, led, offered);
    ViewLinks(s);
  }

  lemma FreshLosesNothing(x: Setup, states: seq<System>, acts: seq<seq<Actor>>, t: nat, n: nat, now: nat, r: Rnti)
    requires SetupOk(x) && Runs(BodiesOf(x), states, acts, t) && SysOk(states[0], t) && n <= |acts| && now == t + n
    requires r in states[0].ues && forall k :: k in states[0].ues ==> FreshLink(PartsOf(), LinkAt(states[0], k))
    ensures r in ViewOf(states[0]).links && r in states[n].ues
    ensures var led := Account(x, ViewOf(states[0]), r, t, now).led;
            Total(states[0].ues[r].u.channels) + ArrivedIn(LoopOf(x).arrivals, r, t, now)
              <= Total(states[n].ues[r].u.channels) + Scheduler.Sum(led.taken) + led.acked
  {
    AccountIsOffered(x, states[0], t, now, r);
    AccountIsKept(x, states, acts, t, n, now, r);
    var y := Account(x, ViewOf(states[0]), r, t, now);
    AccountCovers(x, states[n], now, r, y.led, y.offered);
  }

  /** No byte is lost in any run of the threads of a new system: what UE r had buffered and what has arrived since is
      at most what is buffered, what its unresolved TBs took, and what its acknowledged TBs took. */
  lemma SystemLosesNothing(x: Setup, channels: map<Rnti, Buffers>, snr: Rnti -> int, states: seq<System>,
                           acts: seq<seq<Actor>>, t: nat, n: nat, now: nat, r: Rnti)
    requires InRun(x, channels, snr, states, acts, t, n, now)
    requires r in states[0].ues
    ensures SameKeys(states[0]) && r in ViewOf(states[0]).links && r in states[n].ues
    ensures var led := Account(x, ViewOf(states[0]), r, t, now).led;
            Total(states[0].ues[r].u.channels) + ArrivedIn(LoopOf(x).arrivals, r, t, now)
              <= Total(states[n].ues[r].u.channels) + Scheduler.Sum(led.taken) + led.acked
  {
    NewSystemIsFresh(x, channels, snr, states[0], t);
    FreshLosesNothing(x, states, acts, t, n, now, r);
  }

  /** The retransmission deadline in any run of the threads of a new system with one UE: a TB whose grant was sent in
      the TTI before state n, after k receptions, is acknowledged or discarded in state n + 9j - 1 for some j of at
      most maxHarqTx - k. */
  lemma SystemMeetsDeadline(x: Setup, channels: map<Rnti, Buffers>, snr: Rnti -> int, states: seq<System>,
                            acts: seq<seq<Actor>>, t: nat, n: nat, now: nat, r: Rnti, pid: nat, k: nat)
    returns (j: nat, m: nat, later: nat)
    requires InRun(x, channels, snr, states, acts, t, n, now)
    requires (forall q :: q in channels <==> q == r) && SameKeys(states[n]) && r in ViewOf(states[n]).links
      && pid < MAX_HARQ_PROCESSES
    requires GrantLeft(PartsOf(), ViewOf(states[n]).links[r], pid, now)
    requires k == Receptions(LaneOf(PartsOf(), ViewOf(states[n]).links[r], pid).rx)
    ensures 1 <= j <= x.harq.maxHarqTx - k && m == n + 9 * j - 1 && later == t + m
    ensures m <= |acts| ==>
              SameKeys(states[m]) && r in ViewOf(states[m]).links
                && IdleLane(LaneOf(PartsOf(), ViewOf(states[m]).links[r], pid))
  {
    SystemIsInLoop(x);
    NewSystemIsFresh(x, channels, snr, states[0], t);
    OneFreshLink(states[0], channels, r);
    j, m, later := FreshDeadline(LoopOf(x), states, acts, t, n, now, r, pid, k);
  }

  lemma OneFreshLink(s: System, channels: map<Rnti, Buffers>, r: Rnti)
    requires SameKeys(s) && SameDomain(s.ues, channels) && (forall q :: q in channels <==> q == r)
    requires forall q :: q in s.ues ==> FreshLink(PartsOf(), LinkAt(s, q))
    ensures r in ViewOf(s).links && (forall q :: q in ViewOf(s).links ==> q == r)
      && FreshLink(PartsOf(), ViewOf(s).links[r])
  {
    ViewLinks(s);
  }

  // ---- A TB is received at most twice ----

  lemma {:induction false} ForwardingKeepsQuality(c: Scheduler.UeCtx, view: EnbBsr.View, n: nat)
    requires n <= NOF_LCGS
    ensures SameRadio(c, EnbBsr.Forwarded(c, view, n))
  {
    if n > 0 { ForwardingKeepsQuality(c, view, n - 1); }
  }

  lemma HearingKeepsQuality(e: EnbCell, m: PduMsg)
    ensures SameRadio(e.sched, HearPdu(e, m).sched)
  {
    if m.pdu != [] && MacPdu.Parse(m.pdu).bsr.reports != [] {
      ForwardingKeepsQuality(e.sched, EnbBsr.Received(e.view, MacPdu.Parse(m.pdu).bsr), NOF_LCGS);
    }
  }

  lemma ResultsJudge(p: Policy, db: map<Rnti, Scheduler.UeCtx>, offset: nat, t: nat, r: Rnti)
    requires Ranks(p) && AllClosed(db) && r in db
    ensures r in RunTti(p, db, offset, t).db
    ensures Judges(db[r], RunTti(p, db, offset, t).db[r], GrantsFor(Grants(RunTti(p, db, offset, t).results), r))
  {
    var s := RunTti(p, db, offset, t);
    QualityIsKept(p, db, offset, t, r);
    TtiOneEach(p, db, offset, t);
    GrantOfResult(s.results, r);
    forall i | 0 <= i < |s.results| && s.results[i].rnti == r && !Scheduler.MeantAsRetx(s.results[i].grant)
      ensures s.results[i].grant.mcs == Scheduler.McsOf(db[r])
    {
      KindIsInGrant(p, db, offset, t, s.results[i]);
      GrantsCoverDemand(p, db, offset, t, s.results[i]);
    }
  }

  lemma CellJudges(x: Setup, cells: map<Rnti, EnbCell>, offset: nat, t: nat, r: Rnti)
    requires SetupOk(x) && r in cells && forall k :: k in cells ==> Closed(cells[k].sched)
    ensures var plan := ScheduleCell(x, cells, offset, t);
            r in plan.0 && Judges(cells[r].sched, plan.0[r].sched, GrantsFor(plan.2, r))
  {
    ContextsOf(cells);
    assert AllClosed(Contexts(cells));
    ResultsJudge(x.policy, Contexts(cells), offset, t, r);
  }

  lemma SystemKeepsQuality(x: Setup)
    requires SetupOk(x)
    ensures KeepsQuality(BodiesOf(x), PartsOf())
  {
    var (b, h) := (BodiesOf(x), PartsOf());
    forall e: EnbCell, m: PduMsg ensures SameRadio(h.sched(e), h.sched(b.onPdu(e, m))) {
      HearingKeepsQuality(e, m);
    }
    forall cells: map<Rnti, EnbCell>, offset: nat, t: nat
      ensures var plan := b.schedule(cells, offset, t);
              (forall r :: r in cells ==> Closed(h.sched(cells[r]))) ==>
                forall r :: r in cells && r in plan.0 ==>
                    Judges(h.sched(cells[r]), h.sched(plan.0[r]), GrantsFor(plan.2, r))
    {
      if forall r :: r in cells ==> Closed(h.sched(cells[r])) {
        forall r | r in cells
          ensures var plan := ScheduleCell(x, cells, offset, t);
                  r in plan.0 && Judges(cells[r].sched, plan.0[r].sched, GrantsFor(plan.2, r))
        {
          assert forall k :: k in cells ==> Closed(h.sched(cells[k]));
          CellJudges(x, cells, offset, t, r);
        }
      }
    }
  }

  lemma NewCellsAreJudged(x: Setup, channels: map<Rnti, Buffers>, snr: Rnti -> int, s: System)
    requires s == NewSystem(x, channels, snr) && forall r :: r in channels ==> snr(r) >= 200
    ensures forall r :: r in s.ues ==> r in s.cells && WellJudged(s.cells[r].sched, s.cells[r].rx.ulSnrX100)
  {
  }

  lemma QuickAt(x: Setup, s: System, now: nat, r: Rnti, pid: nat)
    requires SetupOk(x) && x.harq.maxHarqTx >= 2 && SameKeys(s) && QuickCellOf(LoopOf(x))(ViewOf(s), now)
    requires r in s.ues && pid < MAX_HARQ_PROCESSES
    ensures s.cells[r].rx.stats.discard == 0 && Receptions(s.cells[r].rx.procs[pid]) <= 1
    ensures var l := LaneAt(s, r, pid);
            HeadDue(l.pdu, now).Some? ==>
              var res := EnbHarq.Receive(l.rx, HeadDue(l.pdu, now).value, s.cells[r].rx.ulSnrX100, x.harq.maxHarqTx).1;
              !res.discarded && res.txCount <= 2 && (res.txCount == 2 ==> res.crcOk)
  {
    ViewLinks(s);
    var l := LaneAt(s, r, pid);
    assert QuickCell(LoopOf(x), ViewOf(s), now);
    assert QuickLink(PartsOf(), LinkAt(s, r)) && LaneInv(l, x.harq, now);
    if HeadDue(l.pdu, now).Some? { QuickDue(l, x.harq, s.cells[r].rx.ulSnrX100, now); }
  }

  /** With every receiver at 2 dB or better, which is what the scheduler believes of a new UE, and at least two
      transmissions allowed: in every run of the threads no TB is ever discarded, and every TB is acknowledged on its
      first or second reception. */
  lemma SystemNeverDiscards(x: Setup, channels: map<Rnti, Buffers>, snr: Rnti -> int, states: seq<System>,
                            acts: seq<seq<Actor>>, t: nat, n: nat, now: nat, r: Rnti, pid: nat)
    requires InRun(x, channels, snr, states, acts, t, n, now) && x.harq.maxHarqTx >= 2
    requires (forall k :: k in channels ==> snr(k) >= 200) && r in states[n].ues && pid < MAX_HARQ_PROCESSES
    ensures SameKeys(states[n])
    ensures states[n].cells[r].rx.stats.discard == 0 && Receptions(states[n].cells[r].rx.procs[pid]) <= 1
    ensures var l := LaneAt(states[n], r, pid);
            HeadDue(l.pdu, now).Some? ==>
              var res := EnbHarq.Receive(l.rx, HeadDue(l.pdu, now).value, states[n].cells[r].rx.ulSnrX100,
                                         x.harq.maxHarqTx).1;
              !res.discarded && res.txCount <= 2 && (res.txCount == 2 ==> res.crcOk)
  {
    SystemIsInLoop(x);
    SystemKeepsQuality(x);
    NewSystemIsFresh(x, channels, snr, states[0], t);
    NewCellsAreJudged(x, channels, snr, states[0]);
    ThreadsNeverDiscard(LoopOf(x), states, acts, t, n, now);
    QuickAt(x, states[n], now, r, pid);
  }
}
