/** The whole system: the worker bodies of main.cpp built from the UE and eNB components, and the closed-loop
    theorems for them (ue_context.h, main.cpp). */
module ClosedLoop {
  import opened CommonTypes
  import opened TimedChannels
  import opened TtiThreads
  import opened TtiRuns
  import Scheduler
  import opened SchedulerSafety
  import opened CellSchedule
  import UeHarq
  import EnbHarq
  import opened LcgBuffer
  import UeBsr
  import EnbBsr
  import SrManager
  import MacPdu
  import opened HarqLoop
  import opened HarqRuns

  type Buffers = chs: seq<Channel> | InOrder(chs) && chs != [] witness [Channel(0, 1, 1, 0, 100, 0, 0, 0)]

  /** A UE with at least one logical channel. */
  datatype Ue = Ue(procs: Procs, channels: Buffers, bsr: UeBsr.Bsr, sr: SrManager.Sr, hasGrant: bool,
                   lastPdu: seq<Byte>)

  /** What the eNB keeps for one UE. */
  datatype EnbCell = EnbCell(sched: Scheduler.UeCtx, rx: EnbHarq.RxEntity, view: EnbBsr.View)

  /** The configuration: `sorter` is what the sort by priority produces, `traffic` the arrivals of a TTI, each naming
      one of the UE's channels by position. */
  datatype Setup = Setup(policy: Policy, harq: UeHarq.HarqConfig, bsr: UeBsr.BsrConfig, sr: SrManager.SrConfig,
                         sorter: seq<Channel> -> seq<nat>, traffic: (Rnti, nat) -> seq<(nat, nat)>)

  ghost predicate SetupOk(x: Setup) {
    && Ranks(x.policy) && x.harq.maxHarqTx >= 1
    && forall chs: seq<Channel> :: IsServiceOrder(x.sorter(chs), chs)
  }

  // ---- Operations on the buffers keep the channels ----

  lemma SameChannels(a: seq<Channel>, b: seq<Channel>)
    requires InOrder(a) && |a| == |b| && forall i :: 0 <= i < |a| ==> a[i].lcg == b[i].lcg && a[i].lcid == b[i].lcid
    ensures InOrder(b)
  {
    forall i, j | 0 <= i < j < |b| ensures Before(b[i], b[j].lcg, b[j].lcid) {
      assert Before(a[i], a[j].lcg, a[j].lcid);
    }
  }

  lemma OrderIsIndexes(order: seq<nat>, chs: seq<Channel>)
    requires IsServiceOrder(order, chs)
    ensures Indexes(order, chs)
  {
  }

  ghost function Served(x: Setup, chs: Buffers, bytes: nat): (r: Buffers)
    requires SetupOk(x)
    ensures Total(r) == Total(chs) - Min(bytes, Total(chs))
  {
    var order := x.sorter(chs);
    OrderIsIndexes(order, chs);
    var (first, left) := FirstPhase(chs, order, bytes);
    assert forall i :: 0 <= i < |chs| ==>
        Consumed(chs, order, bytes)[i].lcg == chs[i].lcg && Consumed(chs, order, bytes)[i].lcid == chs[i].lcid by {
      forall i | 0 <= i < |chs|
        ensures Consumed(chs, order, bytes)[i].lcg == chs[i].lcg && Consumed(chs, order, bytes)[i].lcid == chs[i].lcid {
        FirstPhaseTakes(chs, order, bytes, i);
        SecondPhaseTakes(first, order, left, i);
      }
    }
    SameChannels(chs, Consumed(chs, order, bytes));
    ConsumptionIsExact(chs, order, bytes);
    Consumed(chs, order, bytes)
  }

  ghost function PutBack(chs: Buffers, bytes: nat): (r: Buffers)
    ensures Total(r) == Total(chs) + bytes
  {
    SameChannels(chs, LcgBuffer.Restored(chs, bytes));
    RestoringAdds(chs, bytes);
    LcgBuffer.Restored(chs, bytes)
  }

  ghost function Snapped(chs: Buffers): (r: Buffers)
    ensures Total(r) == Total(chs)
  {
    SameChannels(chs, Snapshot(chs));
    SameBuffers(chs, Snapshot(chs));
    Snapshot(chs)
  }

  ghost function Topped(chs: Buffers): (r: Buffers)
    ensures Total(r) == Total(chs)
  {
    SameChannels(chs, Refilled(chs, 1));
    SameBuffers(chs, Refilled(chs, 1));
    Refilled(chs, 1)
  }

  function Offered(arrivals: seq<(nat, nat)>): nat {
    if arrivals == [] then 0 else Offered(arrivals[..|arrivals| - 1]) + arrivals[|arrivals| - 1].1
  }

  ghost function WithArrivals(chs: Buffers, arrivals: seq<(nat, nat)>): (r: Buffers)
    ensures Total(r) == Total(chs) + Offered(arrivals)
    decreases |arrivals|
  {
    if arrivals == [] then chs
    else
      var before := WithArrivals(chs, arrivals[..|arrivals| - 1]);
      var (k, bytes) := arrivals[|arrivals| - 1];
      var lcid := before[k % |before|].lcid;
      SameChannels(before, Arrived(before, lcid, bytes));
      ArrivalsAdd(before, lcid, bytes);
      Arrived(before, lcid, bytes)
  }

  // ---- The UE worker's body ----

  ghost function HearFeedback(u: Ue, m: PhichMsg): Ue {
    if m.pid >= MAX_HARQ_PROCESSES then u
    else
      var (p, action) := UeHarq.Feedback(u.procs[m.pid], m.ack);
      u.(procs := u.procs[m.pid := p],
         channels := if action.isDiscarded && action.tbs > 0 then PutBack(u.channels, action.tbs) else u.channels)
  }

  ghost function Listen(x: Setup, r: Rnti, u: Ue, t: nat): Ue {
    u.(channels := WithArrivals(Snapped(u.channels), x.traffic(r, t)))
  }

  /** run_tti, and the scheduling request it may have sent. */
  ghost function RunTtiUe(x: Setup, u: Ue, t: nat): (Ue, Option<seq<nat>>) {
    var (bsr, start) := UeBsr.Stepped(u.bsr.(grantAvailable := u.hasGrant), x.bsr, u.channels);
    var sr := SrManager.Stepped(if start then SrManager.Started(u.sr, x.sr) else u.sr, x.sr, t);
    var channels := Topped(u.channels);
    (u.(bsr := bsr, sr := sr.(transmitted := false), channels := channels),
     if sr.transmitted then Some(UeBsr.LcgSizes(channels)) else None)
  }

  /** The BSR that goes with a grant: a triggered one, or else one in the padding. */
  ghost function ReportOn(x: Setup, u: Ue, tbs: nat): (UeBsr.Bsr, BsrCe) {
    var total := UeBsr.UpperBound(u.channels);
    var (bsr, ce) := UeBsr.OnGrant(u.bsr, x.bsr, u.channels, tbs, total);
    if ce.Some? then (bsr, ce.value)
    else if total > 0 && tbs > total then
      var (padded, pad) := UeBsr.OnPadding(bsr, x.bsr, u.channels, tbs - total);
      (padded, if pad.Some? then pad.value else MacPdu.NO_BSR)
    else (bsr, MacPdu.NO_BSR)
  }

  /** The PDU of a new transmission carries the BSR and padding; without a BSR nothing is sent up. */
  ghost function NewPdu(ce: BsrCe, tbs: nat): seq<Byte> {
    if ce.reports == [] || !MacPdu.BsrFits(ce, tbs) then []
    else MacPdu.PackBytes(seq(tbs, _ => 0), tbs, ce, [])
  }

  /** process_ul_grant: a retransmission sends the last packed PDU again. */
  ghost function AnswerGrant(x: Setup, u: Ue, g: UlGrant): (Ue, seq<Byte>)
    requires SetupOk(x)
  {
    var (bsr, ce) := ReportOn(x, u, g.tbs);
    var (p, action) := if g.pid < MAX_HARQ_PROCESSES then UeHarq.Grant(u.procs[g.pid], g, x.harq, false)
                       else (UeHarq.IDLE_PROC, UeHarq.NO_ACTION);
    var pdu := if action.isNewTx then NewPdu(ce, action.tbs) else u.lastPdu;
    var v := u.(sr := SrManager.Granted(u.sr), bsr := UeBsr.AtTtiEnd(bsr, x.bsr, ce), lastPdu := pdu,
                procs := if g.pid < MAX_HARQ_PROCESSES then u.procs[g.pid := p] else u.procs,
                channels := if action.tbs > 0 && action.isNewTx then Served(x, u.channels, action.tbs) else u.channels);
    (v, pdu)
  }

  // ---- The eNB worker's body ----

  ghost function HearSr(e: EnbCell, m: SrMsg): EnbCell {
    if |m.pendingBytes| == NOF_LCGS then e.(sched := Scheduler.OnSr(e.sched, m.pendingBytes)) else e
  }

  ghost function HearPdu(e: EnbCell, m: PduMsg): EnbCell {
    var (view, sched) := EnbBsr.OnPdu(e.view, e.sched, m.pdu);
    e.(view := view, sched := sched)
  }

  ghost function ReceiveTb(x: Setup, e: EnbCell, m: PduMsg): (EnbCell, bool, bool) {
    var (rx, res) := EnbHarq.ReceiveAt(e.rx, m.grant, x.harq.maxHarqTx);
    (e.(rx := rx), res.crcOk, res.discarded)
  }

  ghost function HearCrc(e: EnbCell, m: PduMsg, ok: bool): EnbCell {
    e.(sched := Scheduler.OnCrc(e.sched, m.grant.pid, ok))
  }

  ghost function Contexts(cells: map<Rnti, EnbCell>): map<Rnti, Scheduler.UeCtx> {
    map r | r in cells :: cells[r].sched
  }

  ghost function Grants(results: seq<Scheduler.SchedResult>): (gs: seq<(Rnti, UlGrant)>)
    ensures |gs| == |results| && forall i :: 0 <= i < |gs| ==> gs[i] == (results[i].rnti, results[i].grant)
  {
    seq(|results|, i requires 0 <= i < |results| => (results[i].rnti, results[i].grant))
  }

  ghost function ScheduleCell(x: Setup, cells: map<Rnti, EnbCell>, offset: nat, t: nat)
    : (map<Rnti, EnbCell>, nat, seq<(Rnti, UlGrant)>)
    requires SetupOk(x)
  {
    var s := RunTti(x.policy, Contexts(cells), offset, t);
    TtiOneEach(x.policy, Contexts(cells), offset, t);
    (map r | r in cells :: cells[r].(sched := s.db[r]), OffsetAfter(x.policy, Contexts(cells), offset),
     Grants(s.results))
  }

  ghost function BodiesOf(x: Setup): Bodies<Ue, EnbCell, nat>
    requires SetupOk(x)
  {
    Bodies((r: Rnti, u: Ue, m: PhichMsg) => HearFeedback(u, m),
           (r: Rnti, u: Ue, t: nat) => Listen(x, r, u, t),
           (u: Ue, g: UlGrant) => u.(hasGrant := g.tbs > 0),
           (r: Rnti, u: Ue, t: nat) => RunTtiUe(x, u, t),
           (u: Ue, g: UlGrant) => AnswerGrant(x, u, g),
           (u: Ue) => u.(hasGrant := false),
           (e: EnbCell, m: SrMsg) => HearSr(e, m),
           (cells: map<Rnti, EnbCell>, offset: nat, t: nat) => ScheduleCell(x, cells, offset, t),
           (e: EnbCell, m: PduMsg) => HearPdu(e, m),
           (e: EnbCell, m: PduMsg) => ReceiveTb(x, e, m),
           (e: EnbCell, m: PduMsg, ok: bool) => HearCrc(e, m, ok))
  }

  ghost function PartsOf(): Parts<Ue, EnbCell> {
    Parts((u: Ue) => u.procs, (u: Ue) => Total(u.channels), (e: EnbCell) => e.sched, (e: EnbCell) => e.rx)
  }

  ghost function LoopOf(x: Setup): Loop<Ue, EnbCell, nat>
    requires SetupOk(x)
  {
    Loop(BodiesOf(x), PartsOf(), x.harq, (r: Rnti, t: nat) => Offered(x.traffic(r, t)), x.policy.totalPrb)
  }

  // ---- The bodies do to the HARQ entities what the loop theorems ask ----

  lemma FeedbackIsFaithful(u: Ue, m: PhichMsg)
    ensures HearFeedback(u, m).procs == FeedbackAt(u.procs, m)
    ensures Total(HearFeedback(u, m).channels) == Total(u.channels) + HarqLoop.Restored(u.procs, m)
  {
  }

  lemma AnswerIsFaithful(x: Setup, u: Ue, g: UlGrant)
    requires SetupOk(x)
    ensures AnswerGrant(x, u, g).0.procs == GrantAt(u.procs, g, x.harq)
    ensures Total(AnswerGrant(x, u, g).0.channels) == Total(u.channels) - Taken(u.procs, Total(u.channels), g, x.harq)
  {
  }

  lemma UeIsFaithful(x: Setup)
    requires SetupOk(x)
    ensures FaithfulUe(BodiesOf(x), PartsOf(), x.harq, LoopOf(x).arrivals)
  {
    var (b, h) := (BodiesOf(x), PartsOf());
    forall r: Rnti, u: Ue, m: PhichMsg
      ensures h.procs(b.feedback(r, u, m)) == FeedbackAt(h.procs(u), m)
      ensures h.bytes(b.feedback(r, u, m)) == h.bytes(u) + HarqLoop.Restored(h.procs(u), m)
    {
      FeedbackIsFaithful(u, m);
    }
    forall u: Ue, g: UlGrant
      ensures h.procs(b.process(u, g).0) == GrantAt(h.procs(u), g, x.harq)
      ensures h.bytes(b.process(u, g).0) == h.bytes(u) - Taken(h.procs(u), h.bytes(u), g, x.harq)
    {
      AnswerIsFaithful(x, u, g);
    }
  }

  lemma SrIsReported(e: EnbCell, m: SrMsg)
    ensures HarqLoop.Reported(e.sched, HearSr(e, m).sched) && HearSr(e, m).rx == e.rx
  {
  }

  lemma {:induction false} ForwardedIsReported(c: Scheduler.UeCtx, view: EnbBsr.View, n: nat)
    requires n <= NOF_LCGS
    ensures HarqLoop.Reported(c, EnbBsr.Forwarded(c, view, n))
  {
    if n > 0 { ForwardedIsReported(c, view, n - 1); }
  }

  lemma PduIsReported(e: EnbCell, m: PduMsg)
    ensures HarqLoop.Reported(e.sched, HearPdu(e, m).sched) && HearPdu(e, m).rx == e.rx
  {
    if m.pdu != [] && MacPdu.Parse(m.pdu).bsr.reports != [] {
      ForwardedIsReported(e.sched, EnbBsr.Received(e.view, MacPdu.Parse(m.pdu).bsr), NOF_LCGS);
    }
  }

  lemma EnbIsFaithful(x: Setup)
    requires SetupOk(x)
    ensures FaithfulEnb(BodiesOf(x), PartsOf(), x.harq.maxHarqTx)
  {
    var (b, h) := (BodiesOf(x), PartsOf());
    forall e: EnbCell, m: SrMsg
      ensures HarqLoop.Reported(h.sched(e), h.sched(b.onSr(e, m))) && h.rx(b.onSr(e, m)) == h.rx(e) {
      SrIsReported(e, m);
    }
    forall e: EnbCell, m: PduMsg
      ensures HarqLoop.Reported(h.sched(e), h.sched(b.onPdu(e, m))) && h.rx(b.onPdu(e, m)) == h.rx(e) {
      PduIsReported(e, m);
    }
  }

  // ---- Scheduling ----

  lemma ContextsOf(cells: map<Rnti, EnbCell>)
    ensures Contexts(cells).Keys == cells.Keys && forall r :: r in cells ==> Contexts(cells)[r] == cells[r].sched
  {
  }

  lemma GrantsAreDistinct(x: Setup, cells: map<Rnti, EnbCell>, offset: nat, t: nat)
    requires SetupOk(x)
    ensures var plan := ScheduleCell(x, cells, offset, t);
            && SameDomain(cells, plan.0) && OneGrantEach(plan.2)
            && forall i :: 0 <= i < |plan.2| ==> plan.2[i].0 in cells
  {
    ContextsOf(cells);
    TtiOneEach(x.policy, Contexts(cells), offset, t);
  }

  lemma CellSchedules(x: Setup)
    requires SetupOk(x)
    ensures Schedules(BodiesOf(x))
  {
    var b := BodiesOf(x);
    forall cells: map<Rnti, EnbCell>, offset: nat, t: nat
      ensures var plan := b.schedule(cells, offset, t);
              SameDomain(cells, plan.0) && OneGrantEach(plan.2)
                && forall i :: 0 <= i < |plan.2| ==> plan.2[i].0 in cells
    {
      GrantsAreDistinct(x, cells, offset, t);
    }
  }

  /** A RNTI's grants, picked out of the TTI's results: its own one, or none. */
  lemma {:induction false} GrantOfResult(results: seq<Scheduler.SchedResult>, r: Rnti)
    requires forall i, j :: 0 <= i < j < |results| ==> results[i].rnti != results[j].rnti
    ensures forall i :: 0 <= i < |results| && results[i].rnti == r ==>
        GrantsFor(Grants(results), r) == [results[i].grant]
    ensures (forall i :: 0 <= i < |results| ==> results[i].rnti != r) ==> GrantsFor(Grants(results), r) == []
    decreases |results|
  {
    if results != [] {
      var front := results[..|results| - 1];
      GrantOfResult(front, r);
      assert Grants(results)[..|results| - 1] == Grants(front);
    }
  }

  lemma UeIsServed(db: map<Rnti, Scheduler.UeCtx>, s: Scheduler.Sched, t: nat, r: Rnti)
    requires Sound(db, s, t) && r in db
    ensures Serves(db[r], s.db[r], GrantsFor(Grants(s.results), r), |s.prb|, t)
  {
    GrantOfResult(s.results, r);
    if r in Scheduler.RntisOf(s.results) {
      var res :| res in s.results && res.rnti == r;
      var i :| 0 <= i < |s.results| && s.results[i] == res;
      assert GrantEffect(db[r], s.db[r], s.results[i], t);
      assert Scheduler.SchedResult(r, res.grant, Scheduler.MeantAsRetx(res.grant)) == res;
    } else {
      forall i | 0 <= i < |s.results| ensures s.results[i].rnti != r { assert s.results[i] in s.results; }
      assert SameHarq(db[r], s.db[r]);
    }
  }

  lemma CellIsServed(x: Setup, cells: map<Rnti, EnbCell>, offset: nat, t: nat, r: Rnti)
    requires SetupOk(x) && r in cells && forall k :: k in cells ==> Closed(cells[k].sched)
    ensures var plan := ScheduleCell(x, cells, offset, t);
            && r in plan.0 && plan.0[r].rx == cells[r].rx
            && Serves(cells[r].sched, plan.0[r].sched, GrantsFor(plan.2, r), x.policy.totalPrb, t)
  {
    ContextsOf(cells);
    var db := Contexts(cells);
    assert AllClosed(db);
    TtiIsSound(x.policy, db, offset, t);
    UeIsServed(db, RunTti(x.policy, db, offset, t), t, r);
  }

  lemma SchedulerIsFaithful(x: Setup)
    requires SetupOk(x)
    ensures FaithfulScheduler(BodiesOf(x), PartsOf(), x.policy.totalPrb)
  {
    var (b, h) := (BodiesOf(x), PartsOf());
    forall cells: map<Rnti, EnbCell>, offset: nat, t: nat
      ensures var plan := b.schedule(cells, offset, t);
              (forall r :: r in cells ==> Closed(h.sched(cells[r]))) ==>
                forall r :: r in cells && r in plan.0 ==>
                  h.rx(plan.0[r]) == h.rx(cells[r])
                    && Serves(h.sched(cells[r]), h.sched(plan.0[r]), GrantsFor(plan.2, r), x.policy.totalPrb, t)
    {
      if forall r :: r in cells ==> Closed(h.sched(cells[r])) {
        forall r | r in cells
          ensures var plan := ScheduleCell(x, cells, offset, t);
                  r in plan.0 && plan.0[r].rx == cells[r].rx
                    && Serves(cells[r].sched, plan.0[r].sched, GrantsFor(plan.2, r), x.policy.totalPrb, t)
        {
          assert forall k :: k in cells ==> Closed(h.sched(cells[k]));
          CellIsServed(x, cells, offset, t, r);
        }
      }
    }
  }

  lemma LoneUeIsServed(x: Setup, cells: map<Rnti, EnbCell>, offset: nat, t: nat, r: Rnti)
    requires SetupOk(x) && r in cells && (forall k :: k in cells ==> k == r)
      && HasPending(cells[r].sched, x.policy.totalPrb)
    ensures var gs := GrantsFor(ScheduleCell(x, cells, offset, t).2, r);
            |gs| == 1 && gs[0].pid == LowestPending(cells[r].sched, 0) && Scheduler.MeantAsRetx(gs[0])
  {
    ContextsOf(cells);
    var db := Contexts(cells);
    assert db.Keys == {r};
    LoneRetransmission(x.policy, db, offset, t, r);
    TtiIsSound(x.policy, db, offset, t);
    var s := RunTti(x.policy, db, offset, t);
    GrantOfResult(s.results, r);
    assert GrantEffect(db[r], s.db[r], s.results[0], t);
  }

  lemma SchedulerIsPrompt(x: Setup)
    requires SetupOk(x)
    ensures PromptScheduler(BodiesOf(x), PartsOf(), x.policy.totalPrb)
  {
    var (b, h) := (BodiesOf(x), PartsOf());
    forall cells: map<Rnti, EnbCell>, offset: nat, t: nat, r: Rnti
      ensures var gs := GrantsFor(b.schedule(cells, offset, t).2, r);
              r in cells && (forall k :: k in cells ==> k == r) && HasPending(h.sched(cells[r]), x.policy.totalPrb) ==>
                |gs| == 1 && gs[0].pid == LowestPending(h.sched(cells[r]), 0) && Scheduler.MeantAsRetx(gs[0])
    {
      if r in cells && (forall k :: k in cells ==> k == r) && HasPending(h.sched(cells[r]), x.policy.totalPrb) {
        LoneUeIsServed(x, cells, offset, t, r);
      }
    }
  }

  /** The system of main.cpp is in the closed loop: every theorem of TtiRuns, HarqRuns and HarqBytes applies to it,
      for every traffic, algorithm, ranking and tie-breaking of the sort. */
  lemma SystemIsInLoop(x: Setup)
    requires SetupOk(x)
    ensures InLoop(LoopOf(x)) && PromptScheduler(LoopOf(x).b, LoopOf(x).h, LoopOf(x).totalPrb)
  {
    CellSchedules(x);
    UeIsFaithful(x);
    EnbIsFaithful(x);
    SchedulerIsFaithful(x);
    SchedulerIsPrompt(x);
  }

  // ---- Fresh systems, and what holds of all their runs ----

  function Eight<V>(v: V): (s: seq<V>)
    ensures |s| == MAX_HARQ_PROCESSES && forall i :: 0 <= i < |s| ==> s[i] == v
  {
    [v, v, v, v, v, v, v, v]
  }

  ghost function NewUe(x: Setup, channels: Buffers): Ue {
    Ue(Eight(UeHarq.IDLE_PROC), channels,
       UeBsr.Bsr(UeBsr.NoTrigger, x.bsr.periodicTimer, 0, x.bsr.periodicTimer > 0, false, false), SrManager.IDLE_SR,
         false, [])
  }

  ghost function NewCell(snr: int): EnbCell {
    EnbCell(Scheduler.UeSched(false, [0, 0, 0, 0], 0, 200, 0, Eight(false), Eight(false), Eight(false),
                              Eight(Scheduler.NO_TB), 0),
            EnbHarq.RxUe(snr, Eight(EnbHarq.IDLE_RX), EnbHarq.Stats(0, 0, 0, 0, 0, 0)), [0, 0, 0, 0])
  }

  ghost function ForEach<V>(channels: map<Rnti, Buffers>, value: Rnti -> V): (m: map<Rnti, V>)
    ensures forall r: Rnti :: (r in m <==> r in channels) && (r in m ==> m[r] == value(r))
  {
    map r | r in channels :: value(r)
  }

  ghost function NewWorker(x: Setup, channels: Buffers): UeThread<Ue> {
    UeThread(PopPhich, 0, NewUe(x, channels), [], None, [])
  }

  /** UEs just registered at the eNB, each with its channels and its channel quality. */
  ghost function NewSystem(x: Setup, channels: map<Rnti, Buffers>, snr: Rnti -> int): Sys<Ue, EnbCell, nat> {
    var noGrants: Queue<UlGrant> := [];
    var noPhich: Queue<PhichMsg> := [];
    Sys(map r | r in channels :: NewWorker(x, channels[r]), EnbThread(PopSr, 0, []), [],
        ForEach(channels, (r: Rnti) => NewCell(snr(r))), 0, [], [],
        ForEach(channels, (r: Rnti) => noGrants), ForEach(channels, (r: Rnti) => noPhich))
  }

  lemma NothingSent<U, E, S>(s: Sys<U, E, S>, t: nat)
    requires AtStart(s) && SameKeys(s) && s.sr == [] && s.pdu == []
      && forall r :: r in s.ues ==> s.grant[r] == [] && s.phich[r] == []
    ensures SysOk(s, t)
  {
  }

  lemma NewLinkIsFresh(x: Setup, channels: Buffers, snr: int)
    ensures var l: Link<Ue, EnbCell> := Link(NewUe(x, channels), NewCell(snr), [], [], [], []); FreshLink(PartsOf(), l)
  {
  }

  lemma NewLinkAt(x: Setup, channels: map<Rnti, Buffers>, snr: Rnti -> int, r: Rnti)
    requires r in channels
    ensures var s := NewSystem(x, channels, snr); SameKeys(s) && FreshLink(PartsOf(), LinkAt(s, r))
  {
    var s := NewSystem(x, channels, snr);
    assert LinkAt(s, r) == Link(NewUe(x, channels[r]), NewCell(snr(r)), [], [], [], []);
    NewLinkIsFresh(x, channels[r], snr(r));
  }

  lemma NewSystemIsQuiet(x: Setup, channels: map<Rnti, Buffers>, snr: Rnti -> int, s: Sys<Ue, EnbCell, nat>)
    requires s == NewSystem(x, channels, snr)
    ensures AtStart(s) && SameKeys(s) && s.sr == [] && s.pdu == []
      && forall r :: r in s.ues ==> s.grant[r] == [] && s.phich[r] == []
  {
  }

  lemma NewSystemIsFresh(x: Setup, channels: map<Rnti, Buffers>, snr: Rnti -> int, s: Sys<Ue, EnbCell, nat>, t: nat)
    requires s == NewSystem(x, channels, snr)
    ensures SysOk(s, t) && forall r :: r in s.ues ==> FreshLink(PartsOf(), LinkAt(s, r))
  {
    NewSystemIsQuiet(x, channels, snr, s);
    NothingSent(s, t);
    forall r | r in s.ues ensures FreshLink(PartsOf(), LinkAt(s, r)) {
      NewLinkAt(x, channels, snr, r);
    }
  }

  /** In every run of the threads of a new system, whatever the interleavings, the links satisfy the closed-loop
      invariant at the start of every TTI. */
  lemma SystemKeepsInv(x: Setup, channels: map<Rnti, Buffers>, snr: Rnti -> int, states: seq<Sys<Ue, EnbCell, nat>>,
                       acts: seq<seq<Actor>>, t: nat, n: nat, now: nat)
    requires SetupOk(x) && Runs(BodiesOf(x), states, acts, t) && states[0] == NewSystem(x, channels, snr) && n <= |acts|
      && now == t + n
    ensures SameKeys(states[n]) && CellInvOf(LoopOf(x))(ViewOf(states[n]), now)
  {
    SystemIsInLoop(x);
    NewSystemIsFresh(x, channels, snr, states[0], t);
    ThreadsKeepInv(LoopOf(x), states, acts, t, n, now);
  }
}
