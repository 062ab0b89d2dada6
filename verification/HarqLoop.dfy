/** The whole link of one UE: every TTI acts on each HARQ process as HarqLane describes, whatever else the MAC does. */
module HarqLoop {
  import opened CommonTypes
  import opened TimedChannels
  import opened TtiThreads
  import opened TtiDeterminism
  import opened TtiRuns
  import opened Scheduler
  import opened SchedulerSafety
  import UeHarq
  import EnbHarq
  import opened HarqLane

  type Procs = s: seq<UeHarq.UeProc> | |s| == MAX_HARQ_PROCESSES
    witness seq(MAX_HARQ_PROCESSES, _ => UeHarq.IDLE_PROC)

  /** Where a UE state keeps its HARQ processes and how many bytes it has buffered, and where an eNB cell keeps the
      scheduler's context and the HARQ receiver of the UE. */
  datatype Parts<!U, !E> = Parts(procs: U -> Procs, bytes: U -> nat, sched: E -> UeCtx, rx: E -> EnbHarq.RxEntity)

  // ---- What the thread bodies do to the HARQ entities ----

  function FeedbackAt(ps: Procs, m: PhichMsg): Procs {
    if m.pid < MAX_HARQ_PROCESSES then ps[m.pid := UeHarq.Feedback(ps[m.pid], m.ack).0] else ps
  }

  /** Bytes put back when a NACK makes the UE give a TB up. */
  function Restored(ps: Procs, m: PhichMsg): nat {
    if m.pid < MAX_HARQ_PROCESSES && UeHarq.Feedback(ps[m.pid], m.ack).1.isDiscarded
    then UeHarq.Feedback(ps[m.pid], m.ack).1.tbs else 0
  }

  function GrantAt(ps: Procs, g: UlGrant, cfg: UeHarq.HarqConfig): Procs {
    if g.pid < MAX_HARQ_PROCESSES then ps[g.pid := UeHarq.Grant(ps[g.pid], g, cfg, false).0] else ps
  }

  /** Bytes a new transmission takes from the buffers. */
  function Taken(ps: Procs, bytes: nat, g: UlGrant, cfg: UeHarq.HarqConfig): nat {
    if g.pid < MAX_HARQ_PROCESSES && UeHarq.Grant(ps[g.pid], g, cfg, false).1.isNewTx
    then Min(UeHarq.Grant(ps[g.pid], g, cfg, false).1.tbs, bytes) else 0
  }

  ghost predicate FaithfulUe<U(!new), E, S>(b: Bodies<U, E, S>, h: Parts<U, E>, cfg: UeHarq.HarqConfig,
                                            arrivals: (Rnti, nat) -> nat) {
    && (forall r: Rnti, u: U, m: PhichMsg ::
          h.procs(b.feedback(r, u, m)) == FeedbackAt(h.procs(u), m)
          && h.bytes(b.feedback(r, u, m)) == h.bytes(u) + Restored(h.procs(u), m))
    && (forall r: Rnti, u: U, t: nat ::
          h.procs(b.listen(r, u, t)) == h.procs(u) && h.bytes(b.listen(r, u, t)) == h.bytes(u) + arrivals(r, t))
    && (forall u: U, g: UlGrant :: h.procs(b.check(u, g)) == h.procs(u) && h.bytes(b.check(u, g)) == h.bytes(u))
    && (forall r: Rnti, u: U, t: nat ::
        h.procs(b.run(r, u, t).0) == h.procs(u) && h.bytes(b.run(r, u, t).0) == h.bytes(u))
    && (forall u: U, g: UlGrant ::
          h.procs(b.process(u, g).0) == GrantAt(h.procs(u), g, cfg)
          && h.bytes(b.process(u, g).0) == h.bytes(u) - Taken(h.procs(u), h.bytes(u), g, cfg))
    && (forall u: U :: h.procs(b.finish(u)) == h.procs(u) && h.bytes(b.finish(u)) == h.bytes(u))
  }

  /** Buffer reports leave the HARQ bookkeeping alone and keep the total estimate the sum of the LCG estimates. */
  predicate Reported(c: UeCtx, d: UeCtx) {
    SameHarq(c, d) && (c.totalUlBuffer == Sum(c.ulBuffer) ==> d.totalUlBuffer == Sum(d.ulBuffer))
  }

  ghost predicate FaithfulEnb<U, E(!new), S>(b: Bodies<U, E, S>, h: Parts<U, E>, maxTx: nat) {
    && (forall e: E, m: SrMsg :: Reported(h.sched(e), h.sched(b.onSr(e, m))) && h.rx(b.onSr(e, m)) == h.rx(e))
    && (forall e: E, m: PduMsg :: Reported(h.sched(e), h.sched(b.onPdu(e, m))) && h.rx(b.onPdu(e, m)) == h.rx(e))
    && (forall e: E, m: PduMsg ::
          var (u, res) := EnbHarq.ReceiveAt(h.rx(e), m.grant, maxTx);
          var (f, crcOk, discarded) := b.receive(e, m);
          h.rx(f) == u && h.sched(f) == h.sched(e) && (crcOk, discarded) == (res.crcOk, res.discarded))
    && (forall e: E, m: PduMsg, ok: bool ::
          h.sched(b.onCrc(e, m, ok)) == OnCrc(h.sched(e), m.grant.pid, ok) && h.rx(b.onCrc(e, m, ok)) == h.rx(e))
  }

  /** What one TTI of scheduling does to one UE, given the grants it issued to it. */
  predicate Serves(c: UeCtx, d: UeCtx, gs: seq<UlGrant>, totalPrb: nat, t: nat) {
    && d.totalUlBuffer == Sum(d.ulBuffer)
    && (if gs == [] then SameHarq(c, d)
        else
          && |gs| == 1 && 0 < gs[0].nPrb <= totalPrb
          && GrantEffect(c, d, SchedResult(gs[0].rnti, gs[0], MeantAsRetx(gs[0])), t))
  }

  ghost predicate FaithfulScheduler<U, E(!new), S(!new)>(b: Bodies<U, E, S>, h: Parts<U, E>, totalPrb: nat) {
    forall cells: map<Rnti, E>, shared: S, t: nat ::
      var plan := b.schedule(cells, shared, t);
      (forall r :: r in cells ==> Closed(h.sched(cells[r]))) ==>
        forall r :: r in cells && r in plan.0 ==>
          h.rx(plan.0[r]) == h.rx(cells[r])
            && Serves(h.sched(cells[r]), h.sched(plan.0[r]), GrantsFor(plan.2, r), totalPrb, t)
  }

  // ---- One process of a link ----

  function MapItems<T, V>(q: Queue<T>, f: T -> V): (m: Queue<V>)
    ensures |m| == |q| && forall i :: 0 <= i < |q| ==> m[i] == Entry(f(q[i].item), q[i].sendTti)
  {
    seq(|q|, i requires 0 <= i < |q| => Entry(f(q[i].item), q[i].sendTti))
  }

  function GrantPid(g: UlGrant): nat { g.pid }

  function PduPid(m: PduMsg): nat { m.grant.pid }

  function PhichPid(m: PhichMsg): nat { m.pid }

  function GrantAsIs(g: UlGrant): UlGrant { g }

  function PduGrant(m: PduMsg): UlGrant { m.grant }

  function PhichAck(m: PhichMsg): bool { m.ack }

  /** The messages of one process in a queue of the link. */
  function Of<T, V>(q: Queue<T>, pidOf: T -> nat, f: T -> V, pid: nat): Queue<V> {
    MapItems(Only(q, pidOf, pid), f)
  }

  function LaneOf<U, E>(h: Parts<U, E>, l: Link<U, E>, pid: nat): Lane
    requires pid < MAX_HARQ_PROCESSES
  {
    var c := h.sched(l.e);
    Lane(h.procs(l.u)[pid], c.busy[pid], c.pendingRetx[pid], c.ndi[pid], c.tb[pid], h.rx(l.e).procs[pid],
         Of(l.grant, GrantPid, GrantAsIs, pid), Of(l.pdu, PduPid, PduGrant, pid), Of(l.phich, PhichPid, PhichAck, pid))
  }

  predicate PidsKnown<T>(q: Queue<T>, pidOf: T -> nat) {
    forall i :: 0 <= i < |q| ==> pidOf(q[i].item) < MAX_HARQ_PROCESSES
  }

  // ---- Popping and pushing, process by process ----

  lemma DueIsHead<T>(q: Queue<T>, t: nat)
    requires Recent(q, t)
    ensures Due(q, t) == AsSeq(HeadDue(q, t)) && Rest(q, t) == Pop(q, t).1
  {
    DueIsFourOld(q, t);
  }

  function Picked<T, V>(m: Option<T>, pidOf: T -> nat, f: T -> V, pid: nat): Option<V> {
    if m.Some? && pidOf(m.value) == pid then Some(f(m.value)) else None
  }

  ghost predicate Picks<T>(own: Queue<T>, q: Queue<T>) {
    forall i :: 0 <= i < |own| ==> own[i] in q
  }

  lemma RecentAppend<T>(front: Queue<T>, own: Queue<T>, e: Entry<T>, t: nat)
    requires Recent(front + [e], t) && Recent(own, t) && Picks(own, front)
    ensures Recent(own + [e], t) && Picks(own, front + [e]) && Picks(own + [e], front + [e])
  {
    var q := front + [e];
    assert q[|front|] == e;
    forall i | 0 <= i < |own| ensures own[i].sendTti < e.sendTti {
      var j :| 0 <= j < |front| && front[j] == own[i];
      assert q[j] == own[i];
    }
  }

  lemma RecentFront<T>(q: Queue<T>, t: nat)
    requires Recent(q, t) && q != []
    ensures Recent(q[..|q| - 1], t) && q == q[..|q| - 1] + [q[|q| - 1]]
  {
  }

  lemma {:induction false} OnlyRecent<T>(q: Queue<T>, pidOf: T -> nat, pid: nat, t: nat)
    requires Recent(q, t)
    ensures Recent(Only(q, pidOf, pid), t) && Picks(Only(q, pidOf, pid), q)
    decreases |q|
  {
    if q != [] {
      RecentFront(q, t);
      var (front, last) := (q[..|q| - 1], q[|q| - 1]);
      OnlyRecent(front, pidOf, pid, t);
      RecentAppend(front, Only(front, pidOf, pid), last, t);
      assert Only(front, pidOf, pid) + [] == Only(front, pidOf, pid);
    }
  }

  lemma OnlyOne<T>(e: Entry<T>, pidOf: T -> nat, pid: nat)
    ensures Only([e], pidOf, pid) == if pidOf(e.item) == pid then [e] else []
  {
    assert [e][..0] == [];
    assert Only<T>([], pidOf, pid) == [];
  }

  lemma MapConcat<T, V>(a: Queue<T>, c: Queue<T>, f: T -> V)
    ensures MapItems(a + c, f) == MapItems(a, f) + MapItems(c, f)
  {
  }

  lemma OfConcat<T, V>(a: Queue<T>, c: Queue<T>, pidOf: T -> nat, f: T -> V, pid: nat)
    ensures Of(a + c, pidOf, f, pid) == Of(a, pidOf, f, pid) + Of(c, pidOf, f, pid)
  {
    OnlyConcat(a, c, pidOf, pid);
    MapConcat(Only(a, pidOf, pid), Only(c, pidOf, pid), f);
  }

  lemma OfOne<T, V>(e: Entry<T>, pidOf: T -> nat, f: T -> V, pid: nat)
    ensures Of([e], pidOf, f, pid) == if pidOf(e.item) == pid then [Entry(f(e.item), e.sendTti)] else []
  {
    OnlyOne(e, pidOf, pid);
  }

  lemma OfNothingDue<T, V>(q: Queue<T>, pidOf: T -> nat, f: T -> V, pid: nat, t: nat)
    requires Recent(q, t) && (q == [] || !Visible(q[0], t))
    ensures Pop(Of(q, pidOf, f, pid), t) == (None, Of(q, pidOf, f, pid))
  {
    OnlyRecent(q, pidOf, pid, t);
    var own := Only(q, pidOf, pid);
    if own != [] {
      assert own[0] in q;
      var i :| 0 <= i < |q| && q[i] == own[0];
      assert q[0].sendTti <= q[i].sendTti;
    }
  }

  /** Taking what is due from the link's queue takes what is due from each process's share of it. */
  lemma OfPop<T, V>(q: Queue<T>, pidOf: T -> nat, f: T -> V, pid: nat, t: nat)
    requires Recent(q, t)
    ensures Pop(Of(q, pidOf, f, pid), t) == (Picked(HeadDue(q, t), pidOf, f, pid), Of(Pop(q, t).1, pidOf, f, pid))
  {
    if q == [] || !Visible(q[0], t) {
      OfNothingDue(q, pidOf, f, pid, t);
    } else {
      assert q == [q[0]] + q[1..];
      OfConcat([q[0]], q[1..], pidOf, f, pid);
      OfOne(q[0], pidOf, f, pid);
      OfNothingDue(q[1..], pidOf, f, pid, t);
      var (front, rest) := (Of([q[0]], pidOf, f, pid), Of(q[1..], pidOf, f, pid));
      assert if pidOf(q[0].item) == pid then (front + rest)[1..] == rest else front + rest == rest;
    }
  }

  lemma OfPush<T, V>(q: Queue<T>, items: seq<T>, pidOf: T -> nat, f: T -> V, pid: nat, t: nat)
    requires |items| <= 1
    ensures Of(q + Tag(items, t), pidOf, f, pid) ==
            Of(q, pidOf, f, pid) + Tag(if items != [] && pidOf(items[0]) == pid then [f(items[0])] else [], t)
  {
    if items == [] {
      assert q + Tag(items, t) == q;
    } else {
      assert Tag(items, t) == [Entry(items[0], t)];
      OfConcat(q, Tag(items, t), pidOf, f, pid);
      OfOne(Entry(items[0], t), pidOf, f, pid);
    }
  }

  // ---- One TTI of the link is one step of every lane ----

  function HeardAll(ps: Procs, m: Option<PhichMsg>): Procs {
    if m.Some? then FeedbackAt(ps, m.value) else ps
  }

  function AnsweredAll(ps: Procs, g: Option<UlGrant>, cfg: UeHarq.HarqConfig): Procs {
    if g.Some? then GrantAt(ps, g.value, cfg) else ps
  }

  lemma UeHeardProcs<U(!new), E, S>(b: Bodies<U, E, S>, h: Parts<U, E>, cfg: UeHarq.HarqConfig,
                                    arrivals: (Rnti, nat) -> nat, r: Rnti, u: U, m: Option<PhichMsg>, t: nat)
    requires FaithfulUe(b, h, cfg, arrivals)
    ensures var v := UeHeard(b, r, u, AsSeq(m), t);
            && h.procs(v) == HeardAll(h.procs(u), m)
            && h.bytes(v) == h.bytes(u) + arrivals(r, t) + (if m.Some? then Restored(h.procs(u), m.value) else 0)
  {
    if m.Some? {
      assert [m.value][..0] == [];
      assert FoldFeedback(b, r, u, [m.value]) == b.feedback(r, FoldFeedback(b, r, u, []), m.value);
    }
  }

  lemma UeRoundProcs<U(!new), E, S>(b: Bodies<U, E, S>, h: Parts<U, E>, cfg: UeHarq.HarqConfig,
                                    arrivals: (Rnti, nat) -> nat, r: Rnti, u: U, m: Option<PhichMsg>,
                                    g: Option<UlGrant>, t: nat)
    requires FaithfulUe(b, h, cfg, arrivals)
    ensures var (v, pdus) := UeSent(b, r, u, AsSeq(m), AsSeq(g), t);
            var (ps, bytes) := (HeardAll(h.procs(u), m), h.bytes(UeHeard(b, r, u, AsSeq(m), t)));
            && h.procs(b.finish(v)) == AnsweredAll(ps, g, cfg)
            && h.bytes(b.finish(v)) == bytes - (if g.Some? then Taken(ps, bytes, g.value, cfg) else 0)
            && |pdus| == (if g.Some? then 1 else 0) && (g.Some? ==> pdus[0].grant == g.value && pdus[0].rnti == r)
  {
    var (ph, gs) := (AsSeq(m), AsSeq(g));
    UeHeardProcs(b, h, cfg, arrivals, r, u, m, t);
    var v := UeHeard(b, r, u, ph, t);
    if g.Some? {
      assert [g.value][..0] == [];
      assert FoldCheck(b, v, [g.value]) == b.check(FoldCheck(b, v, []), g.value);
      var w := UeRan(b, r, u, ph, gs, t).0;
      assert ProcessAll(b, r, w, [g.value]).0 == b.process(ProcessAll(b, r, w, []).0, g.value).0;
    }
  }

  /** What scheduling does to one process, given the UE's grants of the TTI. */
  function IssuedTo(gs: seq<UlGrant>, pid: nat): Issued {
    if gs == [] || gs[0].pid != pid then Nothing else if MeantAsRetx(gs[0]) then RetxGrant(gs[0]) else NewGrant(gs[0])
  }

  lemma HeadsDue<U, E>(l: Link<U, E>, t: nat)
    requires LinkOk(l, t)
    ensures Due(l.phich, t) == AsSeq(HeadDue(l.phich, t)) && Rest(l.phich, t) == Pop(l.phich, t).1
    ensures Due(l.grant, t) == AsSeq(HeadDue(l.grant, t)) && Rest(l.grant, t) == Pop(l.grant, t).1
    ensures Due(l.pdu, t) == AsSeq(HeadDue(l.pdu, t)) && Rest(l.pdu, t) == Pop(l.pdu, t).1
  {
    DueIsHead(l.phich, t);
    DueIsHead(l.grant, t);
    DueIsHead(l.pdu, t);
  }

  lemma ProcsAt(ps: Procs, m: Option<PhichMsg>, g: Option<UlGrant>, cfg: UeHarq.HarqConfig, pid: nat)
    requires pid < MAX_HARQ_PROCESSES
    ensures AnsweredAll(HeardAll(ps, m), g, cfg)[pid] ==
            Answered(Heard(ps[pid], Picked(m, PhichPid, PhichAck, pid)), Picked(g, GrantPid, GrantAsIs, pid), cfg)
  {
  }

  lemma LaneUe<U(!new), E, S>(b: Bodies<U, E, S>, h: Parts<U, E>, cfg: UeHarq.HarqConfig, arrivals: (Rnti, nat) -> nat,
                              r: Rnti, l: Link<U, E>, e: E, gs: seq<UlGrant>, t: nat, pid: nat)
    requires FaithfulUe(b, h, cfg, arrivals) && LinkOk(l, t) && pid < MAX_HARQ_PROCESSES
    ensures var (l', lane) := (RoundLink(b, r, l, e, gs, t), LaneOf(h, l, pid));
            h.procs(l'.u)[pid] == Answered(Heard(lane.ue, HeadDue(lane.phich, t)), HeadDue(lane.grant, t), cfg)
  {
    HeadsDue(l, t);
    UeRoundProcs(b, h, cfg, arrivals, r, l.u, HeadDue(l.phich, t), HeadDue(l.grant, t), t);
    OfPop(l.phich, PhichPid, PhichAck, pid, t);
    OfPop(l.grant, GrantPid, GrantAsIs, pid, t);
    ProcsAt(h.procs(l.u), HeadDue(l.phich, t), HeadDue(l.grant, t), cfg, pid);
  }

  lemma LanePdu<U(!new), E, S>(b: Bodies<U, E, S>, h: Parts<U, E>, cfg: UeHarq.HarqConfig, arrivals: (Rnti, nat) -> nat,
                               r: Rnti, l: Link<U, E>, e: E, gs: seq<UlGrant>, t: nat, pid: nat)
    requires FaithfulUe(b, h, cfg, arrivals) && LinkOk(l, t) && pid < MAX_HARQ_PROCESSES
    ensures var lane := LaneOf(h, l, pid);
            Of(RoundLink(b, r, l, e, gs, t).pdu, PduPid, PduGrant, pid) ==
            Pop(lane.pdu, t).1 + Tag(AsSeq(HeadDue(lane.grant, t)), t)
  {
    HeadsDue(l, t);
    UeRoundProcs(b, h, cfg, arrivals, r, l.u, HeadDue(l.phich, t), HeadDue(l.grant, t), t);
    OfPop(l.grant, GrantPid, GrantAsIs, pid, t);
    OfPop(l.pdu, PduPid, PduGrant, pid, t);
    OfPush(Pop(l.pdu, t).1, UeSent(b, r, l.u, Due(l.phich, t), Due(l.grant, t), t).1, PduPid, PduGrant, pid, t);
  }

  /** The cell after the due PDU, in terms of the cell after scheduling. */
  lemma EnbReceived<U, E(!new), S>(b: Bodies<U, E, S>, h: Parts<U, E>, cfg: UeHarq.HarqConfig, e: E, m: PduMsg)
    requires FaithfulEnb(b, h, cfg.maxHarqTx)
    ensures var (f, acks) := PduReceived(b, e, [m]);
            var (u, res) := EnbHarq.ReceiveAt(h.rx(e), m.grant, cfg.maxHarqTx);
            && h.rx(f) == u && acks == [PhichMsg(m.rnti, m.grant.pid, res.crcOk)]
            && exists c: UeCtx ::
                 Reported(h.sched(e), c) && h.sched(f) == OnCrc(c, m.grant.pid, res.discarded || res.crcOk)
  {
    var heard := b.onPdu(e, m);
    var (got, crcOk, discarded) := b.receive(heard, m);
    assert h.rx(heard) == h.rx(e);
    assert Reported(h.sched(e), h.sched(heard)) && h.sched(got) == h.sched(heard);
    assert TaskCell(b, e, m, 4) == b.onCrc(got, m, discarded || crcOk);
  }

  lemma LaneIssued(c: UeCtx, d: UeCtx, gs: seq<UlGrant>, totalPrb: nat, t: nat, pid: nat)
    requires Serves(c, d, gs, totalPrb, t) && pid < MAX_HARQ_PROCESSES
    ensures var i := IssuedTo(gs, pid);
            && d.busy[pid] == (c.busy[pid] || i.NewGrant?)
              && d.pendingRetx[pid] == (c.pendingRetx[pid] && !i.RetxGrant?)
            && d.ndi[pid] == (if i.NewGrant? then i.g.ndi else c.ndi[pid])
            && d.tb[pid] == (if i.NewGrant? then TbInfo(i.g.tbs, i.g.mcs, i.g.nPrb, true) else c.tb[pid])
  {
  }

  /** The due PDU changes the state of its own process only. */
  lemma LaneCrc<U, E(!new), S>(b: Bodies<U, E, S>, h: Parts<U, E>, cfg: UeHarq.HarqConfig, e: E, m: PduMsg, pid: nat)
    requires FaithfulEnb(b, h, cfg.maxHarqTx) && pid < MAX_HARQ_PROCESSES && m.grant.pid < MAX_HARQ_PROCESSES
    ensures var (c, d) := (h.sched(e), h.sched(PduReceived(b, e, [m]).0));
            var res := EnbHarq.ReceiveAt(h.rx(e), m.grant, cfg.maxHarqTx).1;
            && d.ndi[pid] == c.ndi[pid]
            && (d.busy[pid], d.pendingRetx[pid], d.tb[pid]) ==
               if pid != m.grant.pid then (c.busy[pid], c.pendingRetx[pid], c.tb[pid])
               else if res.discarded || res.crcOk then (false, false, c.tb[pid].(valid := false))
                 else (true, true, c.tb[pid])
  {
    EnbReceived(b, h, cfg, e, m);
  }

  /** Scheduling, then the due PDU, as one process sees them. */
  lemma LaneEnb<U, E(!new), S>(b: Bodies<U, E, S>, h: Parts<U, E>, cfg: UeHarq.HarqConfig, l: Link<U, E>, e: E,
                               gs: seq<UlGrant>, m: Option<PduMsg>, totalPrb: nat, t: nat, pid: nat)
    requires FaithfulEnb(b, h, cfg.maxHarqTx) && pid < MAX_HARQ_PROCESSES
    requires Serves(h.sched(l.e), h.sched(e), gs, totalPrb, t) && h.rx(e) == h.rx(l.e)
    requires m.Some? ==> m.value.grant.pid < MAX_HARQ_PROCESSES
    ensures var lane := LaneOf(h, l, pid);
            var (f, snr, mine) := (PduReceived(b, e, AsSeq(m)).0, h.rx(l.e).ulSnrX100,
                                   Picked(m, PduPid, PduGrant, pid));
            var s := Scheduled(lane, IssuedTo(gs, pid));
            var after := if mine.Some? then ReceivedTb(s, mine.value, snr, cfg.maxHarqTx) else s;
            && h.sched(f).busy[pid] == after.busy && h.sched(f).pendingRetx[pid] == after.pending
              && h.sched(f).ndi[pid] == after.ndi
            && h.sched(f).tb[pid] == after.tb && h.rx(f).procs[pid] == after.rx && h.rx(f).ulSnrX100 == snr
  {
    LaneIssued(h.sched(l.e), h.sched(e), gs, totalPrb, t, pid);
    if m.Some? {
      EnbReceived(b, h, cfg, e, m.value);
      LaneCrc(b, h, cfg, e, m.value, pid);
    }
  }

  lemma LaneAcks<U, E(!new), S>(b: Bodies<U, E, S>, h: Parts<U, E>, cfg: UeHarq.HarqConfig, r: Rnti, l: Link<U, E>,
                                e: E, gs: seq<UlGrant>, t: nat, pid: nat)
    requires FaithfulEnb(b, h, cfg.maxHarqTx) && LinkOk(l, t) && pid < MAX_HARQ_PROCESSES && h.rx(e) == h.rx(l.e)
    ensures var lane := LaneOf(h, l, pid);
            Of(RoundLink(b, r, l, e, gs, t).phich, PhichPid, PhichAck, pid) ==
            Pop(lane.phich, t).1 + Tag(AckOf(lane.rx, HeadDue(lane.pdu, t), h.rx(l.e).ulSnrX100, cfg.maxHarqTx), t)
  {
    HeadsDue(l, t);
    OfPop(l.phich, PhichPid, PhichAck, pid, t);
    OfPop(l.pdu, PduPid, PduGrant, pid, t);
    var m := HeadDue(l.pdu, t);
    if m.Some? { EnbReceived(b, h, cfg, e, m.value); }
    OfPush(Pop(l.phich, t).1, PduReceived(b, e, AsSeq(m)).1, PhichPid, PhichAck, pid, t);
  }

  lemma LaneGrants<U, E, S>(b: Bodies<U, E, S>, h: Parts<U, E>, r: Rnti, l: Link<U, E>, e: E, gs: seq<UlGrant>, t: nat,
                            pid: nat)
    requires LinkOk(l, t) && pid < MAX_HARQ_PROCESSES && |gs| <= 1
    ensures Of(RoundLink(b, r, l, e, gs, t).grant, GrantPid, GrantAsIs, pid) ==
            Pop(LaneOf(h, l, pid).grant, t).1 + Tag(GrantOf(IssuedTo(gs, pid)), t)
  {
    HeadsDue(l, t);
    OfPop(l.grant, GrantPid, GrantAsIs, pid, t);
    OfPush(Pop(l.grant, t).1, gs, GrantPid, GrantAsIs, pid, t);
  }

  lemma IssuedIsOk<U, E>(h: Parts<U, E>, l: Link<U, E>, d: UeCtx, gs: seq<UlGrant>, totalPrb: nat, t: nat, pid: nat)
    requires Serves(h.sched(l.e), d, gs, totalPrb, t) && pid < MAX_HARQ_PROCESSES
    ensures IssueOk(LaneOf(h, l, pid), IssuedTo(gs, pid))
  {
  }

  /** One TTI of the link is one step of each of its lanes. */
  lemma LaneRound<U(!new), E(!new), S>(b: Bodies<U, E, S>, h: Parts<U, E>, cfg: UeHarq.HarqConfig,
                                       arrivals: (Rnti, nat) -> nat, r: Rnti, l: Link<U, E>, e: E, gs: seq<UlGrant>,
                                       totalPrb: nat, t: nat, pid: nat)
    requires FaithfulUe(b, h, cfg, arrivals) && FaithfulEnb(b, h, cfg.maxHarqTx) && LinkOk(l, t)
      && pid < MAX_HARQ_PROCESSES
    requires Serves(h.sched(l.e), h.sched(e), gs, totalPrb, t) && h.rx(e) == h.rx(l.e) && PidsKnown(l.pdu, PduPid)
    ensures LaneOf(h, RoundLink(b, r, l, e, gs, t), pid) ==
            LaneStep(LaneOf(h, l, pid), IssuedTo(gs, pid), cfg, h.rx(l.e).ulSnrX100, t)
  {
    HeadsDue(l, t);
    OfPop(l.pdu, PduPid, PduGrant, pid, t);
    LaneUe(b, h, cfg, arrivals, r, l, e, gs, t, pid);
    LanePdu(b, h, cfg, arrivals, r, l, e, gs, t, pid);
    LaneEnb(b, h, cfg, l, e, gs, HeadDue(l.pdu, t), totalPrb, t, pid);
    LaneAcks(b, h, cfg, r, l, e, gs, t, pid);
    LaneGrants(b, h, r, l, e, gs, t, pid);
  }

  // ---- The invariant of a link ----

  predicate AllLanes<U, E>(h: Parts<U, E>, cfg: UeHarq.HarqConfig, l: Link<U, E>, t: nat) {
    forall pid :: 0 <= pid < MAX_HARQ_PROCESSES ==> LaneInv(LaneOf(h, l, pid), cfg, t)
  }

  predicate AllPidsKnown<U, E>(l: Link<U, E>) {
    PidsKnown(l.grant, GrantPid) && PidsKnown(l.pdu, PduPid) && PidsKnown(l.phich, PhichPid)
  }

  predicate FitsPool(c: UeCtx, totalPrb: nat) {
    forall p :: 0 <= p < MAX_HARQ_PROCESSES && c.tb[p].valid ==> c.tb[p].nPrb <= totalPrb
  }

  function PendingCount(procs: seq<EnbHarq.RxProc>): nat {
    if procs == [] then 0
    else PendingCount(procs[..|procs| - 1]) + (if procs[|procs| - 1].state == RetxPending then 1 else 0)
  }

  /** Receiver accounting: every reception is an ACK or a NACK, and a new TB or a combination; every new TB is by now
      acknowledged, discarded, or waiting for its retransmission. */
  predicate Accounted(u: EnbHarq.RxEntity) {
    && u.stats.rx == u.stats.ack + u.stats.nack == u.stats.newTb + u.stats.softCombine
    && u.stats.newTb == u.stats.ack + u.stats.discard + PendingCount(u.procs)
  }

  predicate LinkInv<U, E>(h: Parts<U, E>, cfg: UeHarq.HarqConfig, totalPrb: nat, l: Link<U, E>, t: nat) {
    && LinkOk(l, t) && AllPidsKnown(l) && AllLanes(h, cfg, l, t)
    && h.sched(l.e).totalUlBuffer == Sum(h.sched(l.e).ulBuffer) && FitsPool(h.sched(l.e), totalPrb)
    && Accounted(h.rx(l.e))
  }

  /** In the closed loop a pending retransmission always has a recorded TB, so the scheduler's drop guard never
      fires. */
  lemma LinkIsClosed<U, E>(h: Parts<U, E>, cfg: UeHarq.HarqConfig, totalPrb: nat, l: Link<U, E>, t: nat)
    requires LinkInv(h, cfg, totalPrb, l, t)
    ensures Closed(h.sched(l.e)) && forall below :: Guarded(h.sched(l.e), below) == h.sched(l.e)
  {
    var c := h.sched(l.e);
    forall p | 0 <= p < MAX_HARQ_PROCESSES
      ensures (c.pendingRetx[p] ==> c.busy[p]) && (c.busy[p] ==> c.tb[p].valid && c.tb[p].tbs > 0 && c.tb[p].nPrb > 0)
    {
      assert LaneInv(LaneOf(h, l, p), cfg, t);
    }
    forall below ensures Guarded(c, below) == c { NothingGuarded(c, below); }
  }

  lemma LanesKept<U(!new), E(!new), S>(b: Bodies<U, E, S>, h: Parts<U, E>, cfg: UeHarq.HarqConfig,
                                       arrivals: (Rnti, nat) -> nat, r: Rnti, l: Link<U, E>, e: E, gs: seq<UlGrant>,
                                       totalPrb: nat, t: nat)
    requires FaithfulUe(b, h, cfg, arrivals) && FaithfulEnb(b, h, cfg.maxHarqTx) && cfg.maxHarqTx >= 1
    requires LinkOk(l, t) && PidsKnown(l.pdu, PduPid) && AllLanes(h, cfg, l, t)
    requires Serves(h.sched(l.e), h.sched(e), gs, totalPrb, t) && h.rx(e) == h.rx(l.e)
    ensures AllLanes(h, cfg, RoundLink(b, r, l, e, gs, t), t + 1)
  {
    forall pid | 0 <= pid < MAX_HARQ_PROCESSES
      ensures LaneInv(LaneOf(h, RoundLink(b, r, l, e, gs, t), pid), cfg, t + 1) {
      LaneRound(b, h, cfg, arrivals, r, l, e, gs, totalPrb, t, pid);
      IssuedIsOk(h, l, h.sched(e), gs, totalPrb, t, pid);
      LaneInvKept(LaneOf(h, l, pid), IssuedTo(gs, pid), cfg, h.rx(l.e).ulSnrX100, t);
    }
  }

  lemma PidsPushed<T>(q: Queue<T>, items: seq<T>, pidOf: T -> nat, t: nat)
    requires PidsKnown(q, pidOf) && forall i :: 0 <= i < |items| ==> pidOf(items[i]) < MAX_HARQ_PROCESSES
    ensures PidsKnown(Rest(q, t) + Tag(items, t), pidOf)
  {
  }

  lemma PidsKept<U(!new), E(!new), S>(b: Bodies<U, E, S>, h: Parts<U, E>, cfg: UeHarq.HarqConfig,
                                      arrivals: (Rnti, nat) -> nat, r: Rnti, l: Link<U, E>, e: E, gs: seq<UlGrant>,
                                      totalPrb: nat, t: nat)
    requires FaithfulUe(b, h, cfg, arrivals) && LinkOk(l, t) && AllPidsKnown(l)
    requires Serves(h.sched(l.e), h.sched(e), gs, totalPrb, t)
    ensures AllPidsKnown(RoundLink(b, r, l, e, gs, t))
  {
    HeadsDue(l, t);
    UeRoundProcs(b, h, cfg, arrivals, r, l.u, HeadDue(l.phich, t), HeadDue(l.grant, t), t);
    PidsPushed(l.grant, gs, GrantPid, t);
    PidsPushed(l.pdu, UeSent(b, r, l.u, Due(l.phich, t), Due(l.grant, t), t).1, PduPid, t);
    PidsPushed(l.phich, PduReceived(b, e, Due(l.pdu, t)).1, PhichPid, t);
  }

  lemma {:induction false} PendingCountUpdate(procs: seq<EnbHarq.RxProc>, i: nat, p: EnbHarq.RxProc)
    requires i < |procs|
    ensures PendingCount(procs[i := p]) ==
            PendingCount(procs) + (if p.state == RetxPending then 1 else 0) - (if procs[i].state == RetxPending then 1
                  else 0)
    decreases |procs|
  {
    var n := |procs| - 1;
    if i < n {
      PendingCountUpdate(procs[..n], i, p);
      assert procs[i := p][..n] == procs[..n][i := p];
    } else {
      assert procs[i := p][..n] == procs[..n];
    }
  }

  lemma ReceptionIsAccounted(u: EnbHarq.RxEntity, g: UlGrant, maxTx: nat)
    requires Accounted(u) && g.pid < MAX_HARQ_PROCESSES
    requires EnbHarq.ClassedNew(u.procs[g.pid], g) <==> u.procs[g.pid].state != RetxPending
    ensures Accounted(EnbHarq.ReceiveAt(u, g, maxTx).0)
  {
    PendingCountUpdate(u.procs, g.pid, EnbHarq.Receive(u.procs[g.pid], g, u.ulSnrX100, maxTx).0);
  }

  lemma AccountsKept<U(!new), E(!new), S>(b: Bodies<U, E, S>, h: Parts<U, E>, cfg: UeHarq.HarqConfig, l: Link<U, E>,
                                          e: E, t: nat)
    requires FaithfulEnb(b, h, cfg.maxHarqTx) && LinkOk(l, t) && AllPidsKnown(l) && AllLanes(h, cfg, l, t)
    requires Accounted(h.rx(l.e)) && h.rx(e) == h.rx(l.e)
    ensures Accounted(h.rx(PduReceived(b, e, Due(l.pdu, t)).0))
  {
    HeadsDue(l, t);
    var m := HeadDue(l.pdu, t);
    if m.Some? {
      var pid := m.value.grant.pid;
      EnbReceived(b, h, cfg, e, m.value);
      OfPop(l.pdu, PduPid, PduGrant, pid, t);
      PduIsUnderstood(LaneOf(h, l, pid), cfg, h.rx(l.e).ulSnrX100, t);
      PduFindsReceiver(LaneOf(h, l, pid), cfg, t);
      ReceptionIsAccounted(h.rx(e), m.value.grant, cfg.maxHarqTx);
    }
  }

  lemma PduFindsReceiver(l: Lane, cfg: UeHarq.HarqConfig, t: nat)
    requires LaneInv(l, cfg, t) && HeadDue(l.pdu, t).Some?
    ensures EnbHarq.ClassedNew(l.rx, HeadDue(l.pdu, t).value) <==> l.rx.state != RetxPending
  {
    assert SentLane(l, cfg);
  }

  lemma BooksKept<U(!new), E(!new), S>(b: Bodies<U, E, S>, h: Parts<U, E>, cfg: UeHarq.HarqConfig, l: Link<U, E>, e: E,
                                       gs: seq<UlGrant>, totalPrb: nat, t: nat)
    requires FaithfulEnb(b, h, cfg.maxHarqTx) && LinkOk(l, t)
    requires Serves(h.sched(l.e), h.sched(e), gs, totalPrb, t) && FitsPool(h.sched(l.e), totalPrb)
    ensures var c := h.sched(PduReceived(b, e, Due(l.pdu, t)).0);
        c.totalUlBuffer == Sum(c.ulBuffer) && FitsPool(c, totalPrb)
  {
    HeadsDue(l, t);
    assert FitsPool(h.sched(e), totalPrb);
    var m := HeadDue(l.pdu, t);
    if m.Some? {
      EnbReceived(b, h, cfg, e, m.value);
    }
  }

  /** Every TTI keeps the invariant of a link, whatever the schedule and whatever the channel does. */
  lemma LinkInvKept<U(!new), E(!new), S>(b: Bodies<U, E, S>, h: Parts<U, E>, cfg: UeHarq.HarqConfig,
                                         arrivals: (Rnti, nat) -> nat, r: Rnti, l: Link<U, E>, e: E, gs: seq<UlGrant>,
                                         totalPrb: nat, t: nat)
    requires FaithfulUe(b, h, cfg, arrivals) && FaithfulEnb(b, h, cfg.maxHarqTx) && cfg.maxHarqTx >= 1
    requires LinkInv(h, cfg, totalPrb, l, t)
    requires Serves(h.sched(l.e), h.sched(e), gs, totalPrb, t) && h.rx(e) == h.rx(l.e)
    ensures LinkInv(h, cfg, totalPrb, RoundLink(b, r, l, e, gs, t), t + 1)
  {
    RoundLinkOk(b, r, l, e, gs, t);
    LanesKept(b, h, cfg, arrivals, r, l, e, gs, totalPrb, t);
    PidsKept(b, h, cfg, arrivals, r, l, e, gs, totalPrb, t);
    AccountsKept(b, h, cfg, l, e, t);
    BooksKept(b, h, cfg, l, e, gs, totalPrb, t);
  }

  // ---- The invariant of the whole cell ----

  ghost predicate CellInv<U, E, S>(h: Parts<U, E>, cfg: UeHarq.HarqConfig, totalPrb: nat, c: Cell<U, E, S>, t: nat) {
    match c
    case Cell(links, _) => forall r :: r in links ==> LinkInv(h, cfg, totalPrb, links[r], t)
  }

  lemma {:induction false} SrsReported<U, E(!new), S>(b: Bodies<U, E, S>, h: Parts<U, E>, maxTx: nat, e: E,
                                                      ms: seq<SrMsg>)
    requires FaithfulEnb(b, h, maxTx)
    ensures Reported(h.sched(e), h.sched(FoldSr(b, e, ms))) && h.rx(FoldSr(b, e, ms)) == h.rx(e)
    decreases |ms|
  {
    if ms != [] {
      var front := ms[..|ms| - 1];
      SrsReported(b, h, maxTx, e, front);
      assert Reported(h.sched(FoldSr(b, e, front)), h.sched(b.onSr(FoldSr(b, e, front), ms[|ms| - 1])));
      assert h.rx(b.onSr(FoldSr(b, e, front), ms[|ms| - 1])) == h.rx(FoldSr(b, e, front));
    }
  }

  lemma ReportedIsClosed(c: UeCtx, d: UeCtx)
    requires Closed(c) && Reported(c, d)
    ensures Closed(d)
  {
  }

  lemma ServesAfterReport(c: UeCtx, c': UeCtx, d: UeCtx, gs: seq<UlGrant>, totalPrb: nat, t: nat)
    requires Reported(c, c') && Serves(c', d, gs, totalPrb, t)
    ensures Serves(c, d, gs, totalPrb, t)
  {
  }

  lemma RequestedIsClosed<U, E(!new), S>(b: Bodies<U, E, S>, h: Parts<U, E>, cfg: UeHarq.HarqConfig, totalPrb: nat,
                                         c: Cell<U, E, S>, t: nat, r: Rnti)
    requires FaithfulEnb(b, h, cfg.maxHarqTx) && r in c.links && LinkInv(h, cfg, totalPrb, c.links[r], t)
    ensures var e := Requested(b, c, t)[r];
            Closed(h.sched(e)) && Reported(h.sched(c.links[r].e), h.sched(e)) && h.rx(e) == h.rx(c.links[r].e)
  {
    var l := c.links[r];
    LinkIsClosed(h, cfg, totalPrb, l, t);
    SrsReported(b, h, cfg.maxHarqTx, l.e, Due(l.sr, t));
    ReportedIsClosed(h.sched(l.e), h.sched(Requested(b, c, t)[r]));
  }

  /** What scheduling does to each link of a cell in the closed loop. */
  lemma RoundServes<U, E(!new), S(!new)>(b: Bodies<U, E, S>, h: Parts<U, E>, cfg: UeHarq.HarqConfig, totalPrb: nat,
                                         c: Cell<U, E, S>, t: nat)
    requires FaithfulEnb(b, h, cfg.maxHarqTx) && FaithfulScheduler(b, h, totalPrb) && CellInv(h, cfg, totalPrb, c, t)
    ensures var plan := b.schedule(Requested(b, c, t), c.shared, t);
            forall r :: r in c.links && r in plan.0 ==>
              && Serves(h.sched(c.links[r].e), h.sched(plan.0[r]), GrantsFor(plan.2, r), totalPrb, t)
              && h.rx(plan.0[r]) == h.rx(c.links[r].e)
  {
    var cells := Requested(b, c, t);
    var plan := b.schedule(cells, c.shared, t);
    forall r | r in cells
      ensures Closed(h.sched(cells[r])) && Reported(h.sched(c.links[r].e), h.sched(cells[r]))
        && h.rx(cells[r]) == h.rx(c.links[r].e)
    {
      RequestedIsClosed(b, h, cfg, totalPrb, c, t, r);
    }
    forall r | r in c.links && r in plan.0
      ensures Serves(h.sched(c.links[r].e), h.sched(plan.0[r]), GrantsFor(plan.2, r), totalPrb, t)
        && h.rx(plan.0[r]) == h.rx(c.links[r].e)
    {
      assert r in cells;
      ServesAfterReport(h.sched(c.links[r].e), h.sched(cells[r]), h.sched(plan.0[r]), GrantsFor(plan.2, r), totalPrb,
                        t);
    }
  }

  lemma RoundInv<U(!new), E(!new), S(!new)>(b: Bodies<U, E, S>, h: Parts<U, E>, cfg: UeHarq.HarqConfig,
                                            arrivals: (Rnti, nat) -> nat, totalPrb: nat, c: Cell<U, E, S>, t: nat)
    requires FaithfulUe(b, h, cfg, arrivals) && FaithfulEnb(b, h, cfg.maxHarqTx) && FaithfulScheduler(b, h, totalPrb)
    requires cfg.maxHarqTx >= 1 && CellInv(h, cfg, totalPrb, c, t) && KeepsKeys(b, c, t)
    ensures CellInv(h, cfg, totalPrb, Round(b, c, t), t + 1)
  {
    RoundServes(b, h, cfg, totalPrb, c, t);
    var plan := b.schedule(Requested(b, c, t), c.shared, t);
    forall r | r in c.links
      ensures LinkInv(h, cfg, totalPrb, RoundLink(b, r, c.links[r], plan.0[r], GrantsFor(plan.2, r), t), t + 1)
    {
      LinkInvKept(b, h, cfg, arrivals, r, c.links[r], plan.0[r], GrantsFor(plan.2, r), totalPrb, t);
    }
  }
}
