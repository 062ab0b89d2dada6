/** Runs of the closed loop: agreement in every reachable state, and the retransmission deadline. */
module HarqRuns {
  import opened CommonTypes
  import opened TimedChannels
  import opened TtiThreads
  import opened TtiDeterminism
  import opened TtiRuns
  import opened Scheduler
  import opened SchedulerSafety
  import UeHarq
  import EnbHarq
  import opened HarqLane
  import opened HarqLoop

  /** A system in the closed loop: worker bodies, where they keep their HARQ state, the configured transmission limit
      (the same at both ends), the traffic and the carrier. */
  datatype Loop<!U, !E, !S> = Loop(b: Bodies<U, E, S>, h: Parts<U, E>, cfg: UeHarq.HarqConfig,
                                   arrivals: (Rnti, nat) -> nat, totalPrb: nat)

  ghost predicate InLoop<U(!new), E(!new), S(!new)>(p: Loop<U, E, S>) {
    && Schedules(p.b) && FaithfulUe(p.b, p.h, p.cfg, p.arrivals) && FaithfulEnb(p.b, p.h, p.cfg.maxHarqTx)
    && FaithfulScheduler(p.b, p.h, p.totalPrb) && p.cfg.maxHarqTx >= 1
  }

  // ---- The invariant over runs ----

  /** Nothing sent, nothing received, nothing scheduled. */
  predicate FreshLink<U, E>(h: Parts<U, E>, l: Link<U, E>) {
    var (c, u) := (h.sched(l.e), h.rx(l.e));
    && l.sr == [] && l.grant == [] && l.pdu == [] && l.phich == []
    && (forall pid :: 0 <= pid < MAX_HARQ_PROCESSES ==>
          h.procs(l.u)[pid] == UeHarq.IDLE_PROC && u.procs[pid] == EnbHarq.IDLE_RX
          && !c.busy[pid] && !c.pendingRetx[pid] && !c.tb[pid].valid)
    && c.totalUlBuffer == Sum(c.ulBuffer) && u.stats == EnbHarq.Stats(0, 0, 0, 0, 0, 0)
  }

  lemma {:induction false} NothingPending(procs: seq<EnbHarq.RxProc>)
    requires forall i :: 0 <= i < |procs| ==> procs[i] == EnbHarq.IDLE_RX
    ensures PendingCount(procs) == 0
    decreases |procs|
  {
    if procs != [] { NothingPending(procs[..|procs| - 1]); }
  }

  lemma FreshInv<U, E>(h: Parts<U, E>, cfg: UeHarq.HarqConfig, totalPrb: nat, l: Link<U, E>, t: nat)
    requires FreshLink(h, l)
    ensures LinkInv(h, cfg, totalPrb, l, t)
  {
    NothingPending(h.rx(l.e).procs);
    forall pid | 0 <= pid < MAX_HARQ_PROCESSES ensures LaneInv(LaneOf(h, l, pid), cfg, t) {
      assert LaneOf(h, l, pid).grant == [] && LaneOf(h, l, pid).pdu == [] && LaneOf(h, l, pid).phich == [];
      assert IdleLane(LaneOf(h, l, pid));
    }
  }

  lemma NextRoundInv<U(!new), E(!new), S(!new)>(p: Loop<U, E, S>, c: Cell<U, E, S>, t: nat)
    requires InLoop(p) && CellInv(p.h, p.cfg, p.totalPrb, c, t)
    ensures CellInv(p.h, p.cfg, p.totalPrb, NextRound(p.b, c, t), t + 1)
  {
    KeysKept(p.b, c, t);
    RoundInv(p.b, p.h, p.cfg, p.arrivals, p.totalPrb, c, t);
  }

  ghost function CellInvOf<U(!new), E(!new), S(!new)>(p: Loop<U, E, S>): (Cell<U, E, S>, nat) -> bool {
    (c: Cell<U, E, S>, t: nat) => CellInv(p.h, p.cfg, p.totalPrb, c, t)
  }

  lemma InvAtLink<U(!new), E(!new), S(!new)>(p: Loop<U, E, S>, c: Cell<U, E, S>, t: nat, r: Rnti)
    requires CellInvOf(p)(c, t) && r in c.links
    ensures LinkInv(p.h, p.cfg, p.totalPrb, c.links[r], t)
  {
  }

  lemma CellInvIs<U(!new), E(!new), S(!new)>(p: Loop<U, E, S>, c: Cell<U, E, S>, t: nat)
    ensures CellInvOf(p)(c, t) <==> CellInv(p.h, p.cfg, p.totalPrb, c, t)
  {
  }

  lemma NextInv<U(!new), E(!new), S(!new)>(p: Loop<U, E, S>, c: Cell<U, E, S>, t: nat, next: nat)
    requires InLoop(p) && CellInvOf(p)(c, t) && next == t + 1
    ensures CellInvOf(p)(NextRound(p.b, c, t), next)
  {
    NextRoundInv(p, c, t);
    CellInvIs(p, NextRound(p.b, c, t), next);
  }

  lemma CellInvStep<U(!new), E(!new), S(!new)>(p: Loop<U, E, S>)
    requires InLoop(p)
    ensures forall c: Cell<U, E, S>, t: nat, next: nat {:trigger CellInvOf(p)(NextRound(p.b, c, t), next)} ::
              CellInvOf(p)(c, t) && next == t + 1 ==> CellInvOf(p)(NextRound(p.b, c, t), next)
  {
    forall c: Cell<U, E, S>, t: nat, next: nat | CellInvOf(p)(c, t) && next == t + 1
      ensures CellInvOf(p)(NextRound(p.b, c, t), next) {
      NextInv(p, c, t, next);
    }
  }

  lemma RoundsInv<U(!new), E(!new), S(!new)>(p: Loop<U, E, S>, c: Cell<U, E, S>, start: nat, end: nat)
    requires InLoop(p) && CellInvOf(p)(c, start) && start <= end
    ensures CellInvOf(p)(Rounds(p.b, c, start, end), end)
  {
    CellInvStep(p);
    RoundsKeep(p.b, c, start, start, end, end, CellInvOf(p));
  }

  lemma FreshCell<U(!new), E(!new), S(!new)>(p: Loop<U, E, S>, s: Sys<U, E, S>, t: nat)
    requires SameKeys(s) && forall k :: k in s.ues ==> FreshLink(p.h, LinkAt(s, k))
    ensures CellInvOf(p)(ViewOf(s), t)
  {
    var c := ViewOf(s);
    ViewLinks(s);
    forall k | k in c.links ensures LinkInv(p.h, p.cfg, p.totalPrb, c.links[k], t) {
      FreshInv(p.h, p.cfg, p.totalPrb, LinkAt(s, k), t);
    }
  }

  lemma InStepKeepsInv<U(!new), E(!new), S(!new)>(p: Loop<U, E, S>, c: Cell<U, E, S>, start: nat, s: Sys<U, E, S>,
                                                  now: nat)
    requires Schedules(p.b) && InStep(p.b, c, start)(s, now) && CellInvOf(p)(Rounds(p.b, c, start, now), now)
    ensures SameKeys(s) && CellInvOf(p)(ViewOf(s), now)
  {
    InStepMeans(p.b, c, start, s, now);
  }

  /** In every run of the threaded system from a fresh start, under all interleavings, every link satisfies the
      closed-loop invariant at the start of every TTI. */
  lemma ThreadsKeepInv<U(!new), E(!new), S(!new)>(p: Loop<U, E, S>, states: seq<Sys<U, E, S>>, acts: seq<seq<Actor>>,
                                                  t: nat, n: nat, now: nat)
    requires InLoop(p) && Runs(p.b, states, acts, t) && SysOk(states[0], t) && n <= |acts| && now == t + n
    requires forall k :: k in states[0].ues ==> FreshLink(p.h, LinkAt(states[0], k))
    ensures SameKeys(states[n]) && CellInvOf(p)(ViewOf(states[n]), now)
  {
    FreshCell(p, states[0], t);
    RoundsInv(p, ViewOf(states[0]), t, now);
    RunsAreRounds(p.b, states, acts, t, n, now);
    InStepKeepsInv(p, ViewOf(states[0]), t, states[n], now);
  }

  /** What the invariant says of one process of one UE. With HarqLane.GrantIsUnderstood and HarqLane.PduIsUnderstood,
      LaneInv is the agreement of the scheduler, the UE and the receiver on every message due in the TTI. */
  lemma ProcessesAgree<U(!new), E(!new), S(!new)>(p: Loop<U, E, S>, c: Cell<U, E, S>, now: nat, r: Rnti, pid: nat)
    requires CellInvOf(p)(c, now) && r in c.links && pid < MAX_HARQ_PROCESSES
    ensures var l := LaneOf(p.h, c.links[r], pid);
            && LaneInv(l, p.cfg, now)
            && |l.grant| + |l.pdu| == (if l.busy && !l.pending then 1 else 0)
            && (l.pending ==> l.busy && l.tb.valid)
    ensures Closed(p.h.sched(c.links[r].e)) && Accounted(p.h.rx(c.links[r].e))
  {
    InvAtLink(p, c, now, r);
    LinkIsClosed(p.h, p.cfg, p.totalPrb, c.links[r], now);
    assert LaneInv(LaneOf(p.h, c.links[r], pid), p.cfg, now);
    SingleToken(LaneOf(p.h, c.links[r], pid), p.cfg, now);
  }

  // ---- Deadlines in a cell with one UE ----

  predicate OnePending(c: UeCtx) {
    forall p, q :: 0 <= p < q < MAX_HARQ_PROCESSES ==> !(c.pendingRetx[p] && c.pendingRetx[q])
  }

  predicate HasPending(c: UeCtx, totalPrb: nat) {
    Closed(c) && FitsPool(c, totalPrb) && LowestPending(c, 0) < MAX_HARQ_PROCESSES
  }

  /** With one UE in the cell, the lowest pending process is retransmitted, and it is the UE's only grant of the TTI. */
  ghost predicate PromptScheduler<U, E(!new), S(!new)>(b: Bodies<U, E, S>, h: Parts<U, E>, totalPrb: nat) {
    forall cells: map<Rnti, E>, shared: S, t: nat, r: Rnti ::
      var gs := GrantsFor(b.schedule(cells, shared, t).2, r);
      r in cells && (forall k :: k in cells ==> k == r) && HasPending(h.sched(cells[r]), totalPrb) ==>
        |gs| == 1 && gs[0].pid == LowestPending(h.sched(cells[r]), 0) && MeantAsRetx(gs[0])
  }

  /** A cell whose only UE is r, with at most one process waiting for a retransmission. */
  ghost predicate OneUe<U(!new), E(!new), S(!new)>(p: Loop<U, E, S>, c: Cell<U, E, S>, t: nat, r: Rnti) {
    && InLoop(p) && PromptScheduler(p.b, p.h, p.totalPrb) && CellInv(p.h, p.cfg, p.totalPrb, c, t)
    && r in c.links && (forall k :: k in c.links ==> k == r) && OnePending(p.h.sched(c.links[r].e))
  }

  lemma PendingIsLowest(c: UeCtx, pid: nat)
    requires OnePending(c) && pid < MAX_HARQ_PROCESSES && c.pendingRetx[pid]
    ensures LowestPending(c, 0) == pid
  {
  }

  lemma PendingIsServed<U(!new), E(!new), S(!new)>(p: Loop<U, E, S>, c: Cell<U, E, S>, t: nat, r: Rnti, pid: nat)
    requires OneUe(p, c, t, r) && pid < MAX_HARQ_PROCESSES && p.h.sched(c.links[r].e).pendingRetx[pid]
    ensures IssuedTo(GrantsFor(p.b.schedule(Requested(p.b, c, t), c.shared, t).2, r), pid).RetxGrant?
  {
    var cells := Requested(p.b, c, t);
    assert LinkInv(p.h, p.cfg, p.totalPrb, c.links[r], t);
    RequestedIsClosed(p.b, p.h, p.cfg, p.totalPrb, c, t, r);
    PendingIsLowest(p.h.sched(cells[r]), pid);
    assert forall k :: k in cells ==> k == r;
    assert HasPending(p.h.sched(cells[r]), p.totalPrb);
  }

  /** One TTI of the cell as each process of its only UE sees it. */
  lemma OneUeLane<U(!new), E(!new), S(!new)>(p: Loop<U, E, S>, c: Cell<U, E, S>, t: nat, r: Rnti, pid: nat)
    returns (i: Issued)
    requires OneUe(p, c, t, r) && pid < MAX_HARQ_PROCESSES
    ensures var (l, c') := (c.links[r], NextRound(p.b, c, t));
            && IssueOk(LaneOf(p.h, l, pid), i) && (LaneOf(p.h, l, pid).pending ==> i.RetxGrant?)
            && r in c'.links && (forall k :: k in c'.links ==> k == r)
            && LaneOf(p.h, c'.links[r], pid) == LaneStep(LaneOf(p.h, l, pid), i, p.cfg, p.h.rx(l.e).ulSnrX100, t)
  {
    var (l, plan) := (c.links[r], p.b.schedule(Requested(p.b, c, t), c.shared, t));
    KeysKept(p.b, c, t);
    RoundServes(p.b, p.h, p.cfg, p.totalPrb, c, t);
    assert LinkInv(p.h, p.cfg, p.totalPrb, l, t);
    assert r in plan.0;
    var gs := GrantsFor(plan.2, r);
    LaneRound(p.b, p.h, p.cfg, p.arrivals, r, l, plan.0[r], gs, p.totalPrb, t, pid);
    IssuedIsOk(p.h, l, p.h.sched(plan.0[r]), gs, p.totalPrb, t, pid);
    if LaneOf(p.h, l, pid).pending { PendingIsServed(p, c, t, r, pid); }
    i := IssuedTo(gs, pid);
  }

  /** Only the process whose PDU is due can be left pending by a TTI. */
  lemma PendingAfter<U(!new), E(!new), S(!new)>(p: Loop<U, E, S>, c: Cell<U, E, S>, t: nat, r: Rnti, pid: nat)
    requires OneUe(p, c, t, r) && pid < MAX_HARQ_PROCESSES
    ensures var c' := NextRound(p.b, c, t);
            r in c'.links && (p.h.sched(c'.links[r].e).pendingRetx[pid] ==>
              HeadDue(c.links[r].pdu, t).Some? && HeadDue(c.links[r].pdu, t).value.grant.pid == pid)
  {
    var i := OneUeLane(p, c, t, r, pid);
    assert LinkInv(p.h, p.cfg, p.totalPrb, c.links[r], t);
    OfPop(c.links[r].pdu, PduPid, PduGrant, pid, t);
  }

  lemma OneUeNext<U(!new), E(!new), S(!new)>(p: Loop<U, E, S>, c: Cell<U, E, S>, t: nat, r: Rnti, next: nat)
    requires OneUe(p, c, t, r) && next == t + 1
    ensures OneUe(p, NextRound(p.b, c, t), next, r)
  {
    var c' := NextRound(p.b, c, t);
    NextRoundInv(p, c, t);
    var _ := OneUeLane(p, c, t, r, 0);
    forall pid, q | 0 <= pid < q < MAX_HARQ_PROCESSES
      ensures !(p.h.sched(c'.links[r].e).pendingRetx[pid] && p.h.sched(c'.links[r].e).pendingRetx[q])
    {
      PendingAfter(p, c, t, r, pid);
      PendingAfter(p, c, t, r, q);
    }
  }

  ghost function OneUeOf<U(!new), E(!new), S(!new)>(p: Loop<U, E, S>, r: Rnti): (Cell<U, E, S>, nat) -> bool {
    (c: Cell<U, E, S>, t: nat) => OneUe(p, c, t, r)
  }

  lemma OneUeStep<U(!new), E(!new), S(!new)>(p: Loop<U, E, S>, r: Rnti)
    requires InLoop(p)
    ensures forall c: Cell<U, E, S>, t: nat, next: nat {:trigger OneUeOf(p, r)(NextRound(p.b, c, t), next)} ::
              OneUeOf(p, r)(c, t) && next == t + 1 ==> OneUeOf(p, r)(NextRound(p.b, c, t), next)
  {
    forall c: Cell<U, E, S>, t: nat, next: nat | OneUeOf(p, r)(c, t) && next == t + 1
      ensures OneUeOf(p, r)(NextRound(p.b, c, t), next) {
      OneUeNext(p, c, t, r, next);
    }
  }

  lemma OneUeRounds<U(!new), E(!new), S(!new)>(p: Loop<U, E, S>, c: Cell<U, E, S>, start: nat, end: nat, r: Rnti)
    requires InLoop(p) && OneUeOf(p, r)(c, start) && start <= end
    ensures OneUeOf(p, r)(Rounds(p.b, c, start, end), end)
  {
    OneUeStep(p, r);
    RoundsKeep(p.b, c, start, start, end, end, OneUeOf(p, r));
  }

  // A process's phases in such a cell, as properties of the cell at the start of a TTI.

  type CellProperty<!U, !E, !S> = (Cell<U, E, S>, nat) -> bool

  /** A grant issued in TTI `sent` is on its way, after k receptions of its TB. */
  ghost function Granted<U(!new), E(!new), S(!new)>(p: Loop<U, E, S>, r: Rnti, pid: nat, sent: int, k: nat)
    : CellProperty<U, E, S>
    requires pid < MAX_HARQ_PROCESSES
  {
    (c: Cell<U, E, S>, t: nat) => OneUe(p, c, t, r) &&
      var l := LaneOf(p.h, c.links[r], pid);
          GrantedLane(l, p.cfg) && l.grant[0].sendTti == sent && Receptions(l.rx) == k
  }

  /** The previous TTI issued a grant, after k receptions of its TB. */
  ghost function JustGranted<U(!new), E(!new), S(!new)>(p: Loop<U, E, S>, r: Rnti, pid: nat, k: nat)
    : CellProperty<U, E, S>
    requires pid < MAX_HARQ_PROCESSES
  {
    (c: Cell<U, E, S>, t: nat) => OneUe(p, c, t, r) &&
      var l := LaneOf(p.h, c.links[r], pid);
          GrantedLane(l, p.cfg) && l.grant[0].sendTti + 1 == t && Receptions(l.rx) == k
  }

  /** A PDU sent in TTI `sent` is on its way, after k receptions of its TB. */
  ghost function Sent<U(!new), E(!new), S(!new)>(p: Loop<U, E, S>, r: Rnti, pid: nat, sent: int, k: nat)
    : CellProperty<U, E, S>
    requires pid < MAX_HARQ_PROCESSES
  {
    (c: Cell<U, E, S>, t: nat) => OneUe(p, c, t, r) &&
      var l := LaneOf(p.h, c.links[r], pid); SentLane(l, p.cfg) && l.pdu[0].sendTti == sent && Receptions(l.rx) == k
  }

  /** The TB waits for its retransmission after k receptions. */
  ghost function Waiting<U(!new), E(!new), S(!new)>(p: Loop<U, E, S>, r: Rnti, pid: nat, k: nat): CellProperty<U, E, S>
    requires pid < MAX_HARQ_PROCESSES
  {
    (c: Cell<U, E, S>, t: nat) => OneUe(p, c, t, r) &&
      var l := LaneOf(p.h, c.links[r], pid); WaitingLane(l, p.cfg) && Receptions(l.rx) == k
  }

  /** The TB has been acknowledged or discarded. */
  ghost function Resolved<U(!new), E(!new), S(!new)>(p: Loop<U, E, S>, r: Rnti, pid: nat): CellProperty<U, E, S>
    requires pid < MAX_HARQ_PROCESSES
  {
    (c: Cell<U, E, S>, t: nat) => OneUe(p, c, t, r) && IdleLane(LaneOf(p.h, c.links[r], pid))
  }

  /** The PDU has just been received, as the TB's k-th reception. */
  ghost function Received<U(!new), E(!new), S(!new)>(p: Loop<U, E, S>, r: Rnti, pid: nat, k: nat): CellProperty<U, E, S>
    requires pid < MAX_HARQ_PROCESSES
  {
    (c: Cell<U, E, S>, t: nat) => Resolved(p, r, pid)(c, t) || Waiting(p, r, pid, k)(c, t)
  }

  lemma InvAtLane<U(!new), E(!new), S(!new)>(p: Loop<U, E, S>, c: Cell<U, E, S>, t: nat, r: Rnti, pid: nat)
    requires OneUe(p, c, t, r) && pid < MAX_HARQ_PROCESSES
    ensures LaneInv(LaneOf(p.h, c.links[r], pid), p.cfg, t)
  {
    assert LinkInv(p.h, p.cfg, p.totalPrb, c.links[r], t);
  }

  lemma GrantedStays<U(!new), E(!new), S(!new)>(p: Loop<U, E, S>, c: Cell<U, E, S>, t: nat, r: Rnti, pid: nat,
                                                sent: int, k: nat, next: nat)
    requires pid < MAX_HARQ_PROCESSES && next == t + 1 && InLoop(p) && Granted(p, r, pid, sent, k)(c, t)
      && sent + CHANNEL_PROPAGATION_TTI != t
    ensures Granted(p, r, pid, sent, k)(NextRound(p.b, c, t), next)
  {
    OneUeNext(p, c, t, r, next);
    var i := OneUeLane(p, c, t, r, pid);
    InvAtLane(p, c, t, r, pid);
    GrantedStep(LaneOf(p.h, c.links[r], pid), i, p.cfg, p.h.rx(c.links[r].e).ulSnrX100, t);
  }

  lemma GrantedIsSent<U(!new), E(!new), S(!new)>(p: Loop<U, E, S>, c: Cell<U, E, S>, t: nat, r: Rnti, pid: nat,
                                                 sent: int, k: nat, next: nat)
    requires pid < MAX_HARQ_PROCESSES && next == t + 1 && InLoop(p) && Granted(p, r, pid, sent, k)(c, t)
      && sent + CHANNEL_PROPAGATION_TTI == t
    ensures Sent(p, r, pid, t, k)(NextRound(p.b, c, t), next)
  {
    OneUeNext(p, c, t, r, next);
    var i := OneUeLane(p, c, t, r, pid);
    InvAtLane(p, c, t, r, pid);
    GrantedStep(LaneOf(p.h, c.links[r], pid), i, p.cfg, p.h.rx(c.links[r].e).ulSnrX100, t);
  }

  lemma SentStays<U(!new), E(!new), S(!new)>(p: Loop<U, E, S>, c: Cell<U, E, S>, t: nat, r: Rnti, pid: nat, sent: int,
                                             k: nat, next: nat)
    requires pid < MAX_HARQ_PROCESSES && next == t + 1 && InLoop(p) && Sent(p, r, pid, sent, k)(c, t)
      && sent + CHANNEL_PROPAGATION_TTI != t
    ensures Sent(p, r, pid, sent, k)(NextRound(p.b, c, t), next)
  {
    OneUeNext(p, c, t, r, next);
    var i := OneUeLane(p, c, t, r, pid);
    InvAtLane(p, c, t, r, pid);
    SentStep(LaneOf(p.h, c.links[r], pid), i, p.cfg, p.h.rx(c.links[r].e).ulSnrX100, t);
  }

  lemma SentIsReceived<U(!new), E(!new), S(!new)>(p: Loop<U, E, S>, c: Cell<U, E, S>, t: nat, r: Rnti, pid: nat,
                                                  sent: int, k: nat, next: nat)
    requires pid < MAX_HARQ_PROCESSES && next == t + 1 && InLoop(p) && Sent(p, r, pid, sent, k)(c, t)
      && sent + CHANNEL_PROPAGATION_TTI == t
    ensures var d := NextRound(p.b, c, t); Resolved(p, r, pid)(d, next) || Waiting(p, r, pid, k + 1)(d, next)
  {
    OneUeNext(p, c, t, r, next);
    var i := OneUeLane(p, c, t, r, pid);
    InvAtLane(p, c, t, r, pid);
    SentStep(LaneOf(p.h, c.links[r], pid), i, p.cfg, p.h.rx(c.links[r].e).ulSnrX100, t);
  }

  /** A process left pending by one TTI is granted its retransmission in the next. */
  lemma RetransmissionIsPrompt<U(!new), E(!new), S(!new)>(p: Loop<U, E, S>, c: Cell<U, E, S>, t: nat, r: Rnti, pid: nat,
                                                          k: nat, next: nat)
    requires pid < MAX_HARQ_PROCESSES && next == t + 1 && InLoop(p) && Waiting(p, r, pid, k)(c, t)
    ensures Granted(p, r, pid, t, k)(NextRound(p.b, c, t), next)
  {
    OneUeNext(p, c, t, r, next);
    var i := OneUeLane(p, c, t, r, pid);
    InvAtLane(p, c, t, r, pid);
    WaitingStep(LaneOf(p.h, c.links[r], pid), i, p.cfg, p.h.rx(c.links[r].e).ulSnrX100, t);
  }

  lemma GrantArrives<U(!new), E(!new), S(!new)>(p: Loop<U, E, S>, c: Cell<U, E, S>, start: nat, sent: nat, t: nat,
                                                r: Rnti, pid: nat, k: nat, due: nat, next: nat)
    requires pid < MAX_HARQ_PROCESSES && InLoop(p) && start <= t == sent + 1 && due == sent + 4 && next == sent + 5
    requires Granted(p, r, pid, sent, k)(Rounds(p.b, c, start, t), t)
    ensures Sent(p, r, pid, due, k)(Rounds(p.b, c, start, next), next)
  {
    var inv := Granted(p, r, pid, sent, k);
    forall c': Cell<U, E, S>, t': nat, n: nat | t' < due && inv(c', t') && n == t' + 1
      ensures inv(NextRound(p.b, c', t'), n) {
      GrantedStays(p, c', t', r, pid, sent, k, n);
    }
    RoundsKeep(p.b, c, start, t, due, due, inv);
    GrantedIsSent(p, Rounds(p.b, c, start, due), due, r, pid, sent, k, next);
    RoundTaken(p.b, c, start, due, next, Sent(p, r, pid, due, k));
  }

  lemma IsReceived<U(!new), E(!new), S(!new)>(p: Loop<U, E, S>, c: Cell<U, E, S>, t: nat, r: Rnti, pid: nat, k: nat)
    requires pid < MAX_HARQ_PROCESSES && (Resolved(p, r, pid)(c, t) || Waiting(p, r, pid, k)(c, t))
    ensures Received(p, r, pid, k)(c, t)
  {
  }

  lemma MustWait<U(!new), E(!new), S(!new)>(p: Loop<U, E, S>, c: Cell<U, E, S>, t: nat, r: Rnti, pid: nat, k: nat)
    requires pid < MAX_HARQ_PROCESSES && Received(p, r, pid, k)(c, t) && !Resolved(p, r, pid)(c, t)
    ensures Waiting(p, r, pid, k)(c, t)
  {
  }

  lemma PduArrives<U(!new), E(!new), S(!new)>(p: Loop<U, E, S>, c: Cell<U, E, S>, start: nat, sent: nat, t: nat,
                                              r: Rnti, pid: nat, k: nat, due: nat, next: nat)
    requires pid < MAX_HARQ_PROCESSES && InLoop(p) && start <= t == sent + 1 && due == sent + 4 && next == sent + 5
    requires Sent(p, r, pid, sent, k)(Rounds(p.b, c, start, t), t)
    ensures Received(p, r, pid, k + 1)(Rounds(p.b, c, start, next), next)
  {
    var inv := Sent(p, r, pid, sent, k);
    forall c': Cell<U, E, S>, t': nat, n: nat | t' < due && inv(c', t') && n == t' + 1
      ensures inv(NextRound(p.b, c', t'), n) {
      SentStays(p, c', t', r, pid, sent, k, n);
    }
    RoundsKeep(p.b, c, start, t, due, due, inv);
    SentIsReceived(p, Rounds(p.b, c, start, due), due, r, pid, sent, k, next);
    IsReceived(p, NextRound(p.b, Rounds(p.b, c, start, due), due), next, r, pid, k + 1);
    RoundTaken(p.b, c, start, due, next, Received(p, r, pid, k + 1));
  }

  lemma GrantedBound<U(!new), E(!new), S(!new)>(p: Loop<U, E, S>, c: Cell<U, E, S>, t: nat, r: Rnti, pid: nat,
                                                sent: int, k: nat)
    requires pid < MAX_HARQ_PROCESSES && Granted(p, r, pid, sent, k)(c, t)
    ensures k < p.cfg.maxHarqTx
  {
  }

  /** From a grant on its way to the reception of its PDU. */
  lemma TransmissionTakesEight<U(!new), E(!new), S(!new)>(p: Loop<U, E, S>, c: Cell<U, E, S>, start: nat, sent: nat,
                                                          t: nat, r: Rnti, pid: nat, k: nat, done: nat)
    requires pid < MAX_HARQ_PROCESSES && InLoop(p) && start <= t == sent + 1 && done == sent + 9
    requires Granted(p, r, pid, sent, k)(Rounds(p.b, c, start, t), t)
    ensures Received(p, r, pid, k + 1)(Rounds(p.b, c, start, done), done)
  {
    GrantArrives(p, c, start, sent, t, r, pid, k, sent + 4, sent + 5);
    PduArrives(p, c, start, sent + 4, sent + 5, r, pid, k, sent + 8, done);
  }

  lemma Regranted<U(!new), E(!new), S(!new)>(p: Loop<U, E, S>, c: Cell<U, E, S>, start: nat, t: nat, r: Rnti, pid: nat,
                                             k: nat, next: nat)
    requires pid < MAX_HARQ_PROCESSES && InLoop(p) && start <= t && next == t + 1
    requires Waiting(p, r, pid, k)(Rounds(p.b, c, start, t), t)
    ensures Granted(p, r, pid, t, k)(Rounds(p.b, c, start, next), next)
  {
    RetransmissionIsPrompt(p, Rounds(p.b, c, start, t), t, r, pid, k, next);
    RoundTaken(p.b, c, start, t, next, Granted(p, r, pid, t, k));
  }

  // The whole life of a TB, for any notion of "granted at t after k receptions" and of "resolved at t".

  predicate NextGrant(granted: (nat, nat) -> bool, resolved: nat -> bool, maxTx: nat, t: nat, k: nat) {
    k < maxTx && (resolved(t + 8) || granted(t + 9, k + 1))
  }

  /** The TB is granted at each of the times `when`, after k, k + 1, ... receptions, nine TTIs apart. */
  predicate GrantChain(granted: (nat, nat) -> bool, k: nat, when: seq<nat>) {
    && (forall i :: 0 <= i < |when| ==> granted(when[i], k + i))
    && (forall i :: 0 < i < |when| ==> when[i] == when[i - 1] + 9)
  }

  lemma {:induction false} GrantsEndInTime(granted: (nat, nat) -> bool, resolved: nat -> bool, maxTx: nat, t: nat,
                                           k: nat) returns (when: seq<nat>, end: nat)
    requires granted(t, k)
    requires forall t': nat, k': nat {:trigger NextGrant(granted, resolved, maxTx, t', k')} ::
               granted(t', k') ==> NextGrant(granted, resolved, maxTx, t', k')
    ensures 1 <= |when| <= maxTx - k && when[0] == t && GrantChain(granted, k, when)
    ensures end == t + 9 * |when| - 1 && resolved(end)
    decreases maxTx - k
  {
    assert NextGrant(granted, resolved, maxTx, t, k);
    when, end := [t], t + 8;
    if !resolved(t + 8) {
      var more;
      more, end := GrantsEndInTime(granted, resolved, maxTx, t + 9, k + 1);
      when := [t] + more;
      forall i | 0 <= i < |when| ensures granted(when[i], k + i) {
        if i > 0 { assert granted(more[i - 1], k + 1 + (i - 1)); }
      }
    }
  }

  /** One transmission, and the grant of the next one unless the TB is resolved. */
  lemma OneTransmission<U(!new), E(!new), S(!new)>(p: Loop<U, E, S>, c: Cell<U, E, S>, start: nat, sent: nat, t: nat,
                                                   r: Rnti, pid: nat, k: nat, done: nat, next: nat)
    requires pid < MAX_HARQ_PROCESSES && InLoop(p) && start <= t == sent + 1 && done == sent + 9 && next == done + 1
    requires Granted(p, r, pid, sent, k)(Rounds(p.b, c, start, t), t)
    ensures k < p.cfg.maxHarqTx
    ensures Resolved(p, r, pid)(Rounds(p.b, c, start, done), done)
        || Granted(p, r, pid, done, k + 1)(Rounds(p.b, c, start, next), next)
  {
    GrantedBound(p, Rounds(p.b, c, start, t), t, r, pid, sent, k);
    TransmissionTakesEight(p, c, start, sent, t, r, pid, k, done);
    if !Resolved(p, r, pid)(Rounds(p.b, c, start, done), done) {
      MustWait(p, Rounds(p.b, c, start, done), done, r, pid, k + 1);
      Regranted(p, c, start, done, r, pid, k + 1, next);
    }
  }

  ghost function GrantedIn<U(!new), E(!new), S(!new)>(p: Loop<U, E, S>, c: Cell<U, E, S>, start: nat, r: Rnti, pid: nat)
    : (nat, nat) -> bool
    requires pid < MAX_HARQ_PROCESSES && Schedules(p.b)
  {
    (t: nat, k: nat) => start <= t && JustGranted(p, r, pid, k)(Rounds(p.b, c, start, t), t)
  }

  ghost function ResolvedIn<U(!new), E(!new), S(!new)>(p: Loop<U, E, S>, c: Cell<U, E, S>, start: nat, r: Rnti,
                                                       pid: nat): nat -> bool
    requires pid < MAX_HARQ_PROCESSES && Schedules(p.b)
  {
    (t: nat) => Resolved(p, r, pid)(Rounds(p.b, c, start, t), t)
  }

  lemma JustIsGranted<U(!new), E(!new), S(!new)>(p: Loop<U, E, S>, c: Cell<U, E, S>, t: nat, r: Rnti, pid: nat,
                                                 sent: nat, k: nat)
    requires pid < MAX_HARQ_PROCESSES && t == sent + 1
    ensures JustGranted(p, r, pid, k)(c, t) <==> Granted(p, r, pid, sent, k)(c, t)
  {
  }

  lemma JustMeansSent<U(!new), E(!new), S(!new)>(p: Loop<U, E, S>, c: Cell<U, E, S>, t: nat, r: Rnti, pid: nat, k: nat)
    requires pid < MAX_HARQ_PROCESSES && JustGranted(p, r, pid, k)(c, t)
    ensures t > 0
  {
  }

  lemma GrantedInRun<U(!new), E(!new), S(!new)>(p: Loop<U, E, S>, c: Cell<U, E, S>, start: nat, r: Rnti, pid: nat,
                                                t: nat, k: nat)
    requires pid < MAX_HARQ_PROCESSES && Schedules(p.b)
    ensures GrantedIn(p, c, start, r, pid)(t, k) <==>
            start <= t && JustGranted(p, r, pid, k)(Rounds(p.b, c, start, t), t)
  {
  }

  lemma ResolvedInRun<U(!new), E(!new), S(!new)>(p: Loop<U, E, S>, c: Cell<U, E, S>, start: nat, r: Rnti, pid: nat,
                                                 t: nat)
    requires pid < MAX_HARQ_PROCESSES && Schedules(p.b)
    ensures ResolvedIn(p, c, start, r, pid)(t) <==> Resolved(p, r, pid)(Rounds(p.b, c, start, t), t)
  {
  }

  lemma EveryGrantHasNext<U(!new), E(!new), S(!new)>(p: Loop<U, E, S>, c: Cell<U, E, S>, start: nat, r: Rnti, pid: nat,
                                                     sent: nat, t: nat, k: nat, done: nat, next: nat)
    requires pid < MAX_HARQ_PROCESSES && InLoop(p) && GrantedIn(p, c, start, r, pid)(t, k)
    requires t == sent + 1 && done == sent + 9 && next == done + 1
    ensures k < p.cfg.maxHarqTx
      && (ResolvedIn(p, c, start, r, pid)(done) || GrantedIn(p, c, start, r, pid)(next, k + 1))
  {
    GrantedInRun(p, c, start, r, pid, t, k);
    JustIsGranted(p, Rounds(p.b, c, start, t), t, r, pid, sent, k);
    OneTransmission(p, c, start, sent, t, r, pid, k, done, next);
    ResolvedInRun(p, c, start, r, pid, done);
    JustIsGranted(p, Rounds(p.b, c, start, next), next, r, pid, done, k + 1);
    GrantedInRun(p, c, start, r, pid, next, k + 1);
  }

  lemma NextGrantInRun<U(!new), E(!new), S(!new)>(p: Loop<U, E, S>, c: Cell<U, E, S>, start: nat, r: Rnti, pid: nat,
                                                  t: nat, k: nat)
    requires pid < MAX_HARQ_PROCESSES && InLoop(p) && GrantedIn(p, c, start, r, pid)(t, k)
    ensures NextGrant(GrantedIn(p, c, start, r, pid), ResolvedIn(p, c, start, r, pid), p.cfg.maxHarqTx, t, k)
  {
    GrantedInRun(p, c, start, r, pid, t, k);
    JustMeansSent(p, Rounds(p.b, c, start, t), t, r, pid, k);
    EveryGrantHasNext(p, c, start, r, pid, t - 1, t, k, t + 8, t + 9);
  }

  /** Retransmission deadline in a cell with one UE: a TB granted in the TTI before t, after k receptions, is granted
      again exactly every nine TTIs until, after at most maxHarqTx - k of these grants, it is acknowledged or discarded
      in the eighth TTI after the last of them. */
  lemma TbDeadline<U(!new), E(!new), S(!new)>(p: Loop<U, E, S>, c: Cell<U, E, S>, start: nat, t: nat, r: Rnti, pid: nat,
                                              k: nat) returns (when: seq<nat>, end: nat)
    requires pid < MAX_HARQ_PROCESSES && InLoop(p) && GrantedIn(p, c, start, r, pid)(t, k)
    ensures 1 <= |when| <= p.cfg.maxHarqTx - k && when[0] == t
    ensures GrantChain(GrantedIn(p, c, start, r, pid), k, when)
    ensures end == t + 9 * |when| - 1 && ResolvedIn(p, c, start, r, pid)(end)
  {
    forall t': nat, k': nat | GrantedIn(p, c, start, r, pid)(t', k')
      ensures NextGrant(GrantedIn(p, c, start, r, pid), ResolvedIn(p, c, start, r, pid), p.cfg.maxHarqTx, t', k')
    {
      NextGrantInRun(p, c, start, r, pid, t', k');
    }
    when, end := GrantsEndInTime(GrantedIn(p, c, start, r, pid), ResolvedIn(p, c, start, r, pid), p.cfg.maxHarqTx, t,
                                 k);
  }

  lemma FreshOneUe<U(!new), E(!new), S(!new)>(p: Loop<U, E, S>, c: Cell<U, E, S>, t: nat, r: Rnti)
    requires InLoop(p) && PromptScheduler(p.b, p.h, p.totalPrb)
    requires r in c.links && (forall k :: k in c.links ==> k == r) && FreshLink(p.h, c.links[r])
    ensures OneUeOf(p, r)(c, t) && forall pid :: 0 <= pid < MAX_HARQ_PROCESSES ==> Resolved(p, r, pid)(c, t)
  {
    FreshInv(p.h, p.cfg, p.totalPrb, c.links[r], t);
    forall pid | 0 <= pid < MAX_HARQ_PROCESSES ensures IdleLane(LaneOf(p.h, c.links[r], pid)) {
      var l := LaneOf(p.h, c.links[r], pid);
      assert l.grant == [] && l.pdu == [] && l.phich == [];
    }
  }

  lemma IsSame<U(!new), E(!new), S(!new)>(a: Cell<U, E, S>, c: Cell<U, E, S>, inv: CellProperty<U, E, S>, t: nat)
    requires Is(a)(c)
    ensures inv(a, t) == inv(c, t)
  {
  }

  lemma InStepIs<U(!new), E(!new), S(!new)>(p: Loop<U, E, S>, c: Cell<U, E, S>, start: nat, s: Sys<U, E, S>, t: nat,
                                            inv: CellProperty<U, E, S>)
    requires Schedules(p.b) && InStep(p.b, c, start)(s, t)
    ensures SameKeys(s) && inv(Rounds(p.b, c, start, t), t) == inv(ViewOf(s), t)
  {
    InStepMeans(p.b, c, start, s, t);
    IsSame(Rounds(p.b, c, start, t), ViewOf(s), inv, t);
  }

  lemma OneUeInStep<U(!new), E(!new), S(!new)>(p: Loop<U, E, S>, c: Cell<U, E, S>, start: nat, s: Sys<U, E, S>,
                                               now: nat, r: Rnti)
    requires InLoop(p) && OneUeOf(p, r)(c, start) && start <= now && InStep(p.b, c, start)(s, now)
    ensures SameKeys(s) && OneUeOf(p, r)(ViewOf(s), now)
  {
    OneUeRounds(p, c, start, now, r);
    InStepIs(p, c, start, s, now, OneUeOf(p, r));
  }

  /** In every run of the threads from a fresh start with one UE, at most one process of it is waiting for a
      retransmission at the start of any TTI. */
  lemma ThreadsKeepOnePending<U(!new), E(!new), S(!new)>(p: Loop<U, E, S>, states: seq<Sys<U, E, S>>,
                                                         acts: seq<seq<Actor>>, start: nat, n: nat, now: nat, r: Rnti)
    requires InLoop(p) && PromptScheduler(p.b, p.h, p.totalPrb)
    requires Runs(p.b, states, acts, start) && SysOk(states[0], start) && n <= |acts| && now == start + n
    requires r in ViewOf(states[0]).links && (forall k :: k in ViewOf(states[0]).links ==> k == r)
      && FreshLink(p.h, ViewOf(states[0]).links[r])
    ensures SameKeys(states[n]) && OneUeOf(p, r)(ViewOf(states[n]), now)
  {
    FreshOneUe(p, ViewOf(states[0]), start, r);
    RunsAreRounds(p.b, states, acts, start, n, now);
    OneUeInStep(p, ViewOf(states[0]), start, states[n], now, r);
  }

  lemma DeadlineInStep<U(!new), E(!new), S(!new)>(p: Loop<U, E, S>, c: Cell<U, E, S>, start: nat, s: Sys<U, E, S>,
                                                  now: nat, r: Rnti, pid: nat, k: nat)
    returns (j: nat, end: nat)
    requires InLoop(p) && start <= now && InStep(p.b, c, start)(s, now) && SameKeys(s)
    requires pid < MAX_HARQ_PROCESSES && JustGranted(p, r, pid, k)(ViewOf(s), now)
    ensures 1 <= j <= p.cfg.maxHarqTx - k && end == now + 9 * j - 1 && ResolvedIn(p, c, start, r, pid)(end)
  {
    InStepIs(p, c, start, s, now, JustGranted(p, r, pid, k));
    GrantedInRun(p, c, start, r, pid, now, k);
    var when;
    when, end := TbDeadline(p, c, start, now, r, pid, k);
    j := |when|;
  }

  lemma ResolvedInStep<U(!new), E(!new), S(!new)>(p: Loop<U, E, S>, c: Cell<U, E, S>, start: nat, s: Sys<U, E, S>,
                                                  t: nat, r: Rnti, pid: nat)
    requires pid < MAX_HARQ_PROCESSES && Schedules(p.b) && InStep(p.b, c, start)(s, t)
      && ResolvedIn(p, c, start, r, pid)(t)
    ensures SameKeys(s) && Resolved(p, r, pid)(ViewOf(s), t)
  {
    ResolvedInRun(p, c, start, r, pid, t);
    InStepIs(p, c, start, s, t, Resolved(p, r, pid));
  }

  /** The deadline in every run of the threads, under all interleavings: a TB of the only UE granted in the TTI
      before state n, after k receptions, is acknowledged or discarded in state n + 9j - 1 for some j of at most
      maxHarqTx - k, if the run gets that far. */
  lemma ThreadsMeetDeadline<U(!new), E(!new), S(!new)>(p: Loop<U, E, S>, states: seq<Sys<U, E, S>>,
                                                       acts: seq<seq<Actor>>, start: nat, n: nat, now: nat, r: Rnti,
                                                       pid: nat, k: nat) returns (j: nat, m: nat, later: nat)
    requires InLoop(p) && Runs(p.b, states, acts, start) && SysOk(states[0], start) && n <= |acts| && now == start + n
    requires pid < MAX_HARQ_PROCESSES && SameKeys(states[n]) && JustGranted(p, r, pid, k)(ViewOf(states[n]), now)
    ensures 1 <= j <= p.cfg.maxHarqTx - k && m == n + 9 * j - 1 && later == start + m
    ensures m <= |acts| ==> SameKeys(states[m]) && Resolved(p, r, pid)(ViewOf(states[m]), later)
  {
    RunsAreRounds(p.b, states, acts, start, n, now);
    j, later := DeadlineInStep(p, ViewOf(states[0]), start, states[n], now, r, pid, k);
    m := n + 9 * j - 1;
    if m <= |acts| {
      RunsAreRounds(p.b, states, acts, start, m, later);
      ResolvedInStep(p, ViewOf(states[0]), start, states[m], later, r, pid);
    }
  }

  /** A grant sent in the TTI before t is on its way to process pid of UE r. */
  predicate GrantLeft<U, E>(h: Parts<U, E>, l: Link<U, E>, pid: nat, t: nat)
    requires pid < MAX_HARQ_PROCESSES
  {
    var grants := LaneOf(h, l, pid).grant;
    |grants| == 1 && grants[0].sendTti + 1 == t
  }

  lemma GrantIsJust<U(!new), E(!new), S(!new)>(p: Loop<U, E, S>, c: Cell<U, E, S>, t: nat, r: Rnti, pid: nat, k: nat)
    requires pid < MAX_HARQ_PROCESSES && OneUeOf(p, r)(c, t) && r in c.links
    requires GrantLeft(p.h, c.links[r], pid, t) && k == Receptions(LaneOf(p.h, c.links[r], pid).rx)
    ensures JustGranted(p, r, pid, k)(c, t)
  {
    InvAtLane(p, c, t, r, pid);
  }

  lemma ResolvedIsIdle<U(!new), E(!new), S(!new)>(p: Loop<U, E, S>, c: Cell<U, E, S>, t: nat, r: Rnti, pid: nat)
    requires pid < MAX_HARQ_PROCESSES && Resolved(p, r, pid)(c, t)
    ensures r in c.links && IdleLane(LaneOf(p.h, c.links[r], pid))
  {
  }

  /** The same from a fresh start with one UE, for every grant that is ever sent to it. */
  lemma FreshDeadline<U(!new), E(!new), S(!new)>(p: Loop<U, E, S>, states: seq<Sys<U, E, S>>, acts: seq<seq<Actor>>,
                                                 start: nat, n: nat, now: nat, r: Rnti, pid: nat, k: nat)
    returns (j: nat, m: nat, later: nat)
    requires InLoop(p) && PromptScheduler(p.b, p.h, p.totalPrb)
    requires Runs(p.b, states, acts, start) && SysOk(states[0], start) && n <= |acts| && now == start + n
    requires r in ViewOf(states[0]).links && (forall q :: q in ViewOf(states[0]).links ==> q == r)
      && FreshLink(p.h, ViewOf(states[0]).links[r])
    requires SameKeys(states[n]) && r in ViewOf(states[n]).links && pid < MAX_HARQ_PROCESSES
    requires GrantLeft(p.h, ViewOf(states[n]).links[r], pid, now)
      && k == Receptions(LaneOf(p.h, ViewOf(states[n]).links[r], pid).rx)
    ensures 1 <= j <= p.cfg.maxHarqTx - k && m == n + 9 * j - 1 && later == start + m
    ensures m <= |acts| ==> SameKeys(states[m]) && r in ViewOf(states[m]).links
    ensures m <= |acts| ==> IdleLane(LaneOf(p.h, ViewOf(states[m]).links[r], pid))
  {
    ThreadsKeepOnePending(p, states, acts, start, n, now, r);
    GrantIsJust(p, ViewOf(states[n]), now, r, pid, k);
    j, m, later := ThreadsMeetDeadline(p, states, acts, start, n, now, r, pid, k);
    if m <= |acts| { ResolvedIsIdle(p, ViewOf(states[m]), later, r, pid); }
  }
}
