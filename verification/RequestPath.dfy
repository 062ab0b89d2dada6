/** From data at the UE to a grant: the arrival triggers a BSR, the BSR a scheduling request, and four TTIs later the
    scheduler serves it, in every run of the threads. */
module RequestPath {
  import opened CommonTypes
  import opened TimedChannels
  import opened TtiThreads
  import opened TtiRuns
  import Scheduler
  import opened UlSchedulers
  import opened LcgBuffer
  import UeHarq
  import UeBsr
  import EnbBsr
  import MacPdu
  import BsrContent
  import SrManager
  import opened ClosedLoop
  import opened SystemRuns
  import opened RrFairness
  import opened SchedulerService
  import opened ServiceRuns

  // ---- The UE asks ----

  /** In TTI t the UE of link l gets its only arrival, on its channel i: data for an empty LCG, or for a channel that
      beats all with data. No grant and no feedback is due, and it is free to send a scheduling request. */
  predicate Asks(x: Setup, r: Rnti, l: Link<Ue, EnbCell>, t: nat, k: nat, bytes: nat, i: nat) {
    && Due(l.phich, t) == [] && Due(l.grant, t) == []
    && x.traffic(r, t) == [(k, bytes)] && bytes > 0
    && i == Find(l.u.channels, l.u.channels[k % |l.u.channels|].lcid) < |l.u.channels|
    && (!BsrContent.HasData(l.u.channels, l.u.channels[i].lcg) || BsrContent.BeatsAll(l.u.channels, i))
    && l.u.sr.state == SrManager.SrIdle && l.u.sr.prohibit <= 1 && x.sr.enabled && x.sr.dsrTransmax >= 1
  }

  lemma OneArrival(x: Setup, r: Rnti, u: Ue, t: nat, k: nat, bytes: nat)
    requires x.traffic(r, t) == [(k, bytes)]
    ensures Listen(x, r, u, t).channels == Arrived(Snapshot(u.channels), u.channels[k % |u.channels|].lcid, bytes)
  {
    assert [(k, bytes)][..0] == [];
    assert WithArrivals(Snapped(u.channels), []) == Snapped(u.channels);
  }

  lemma {:induction false} ToppedBytes(chs: seq<Channel>, lcg: nat)
    ensures UeBsr.LcgBytes(Refilled(chs, 1), lcg) == UeBsr.LcgBytes(chs, lcg)
    decreases |chs|
  {
    if chs != [] {
      ToppedBytes(chs[..|chs| - 1], lcg);
      assert Refilled(chs, 1)[..|chs| - 1] == Refilled(chs[..|chs| - 1], 1);
    }
  }

  lemma ArrivedBytes(chs: seq<Channel>, lcid: nat, bytes: nat, i: nat)
    requires i == Find(chs, lcid) < |chs|
    ensures UeBsr.LcgBytes(Arrived(Snapshot(chs), lcid, bytes), chs[i].lcg) >= bytes
  {
    BsrContent.ArrivedAfterSnapshot(chs, lcid, bytes, i);
    BsrContent.LcgBytesUpdate(Snapshot(chs), i, Snapshot(chs)[i].(newBuffer := chs[i].newBuffer + bytes), chs[i].lcg);
    BsrContent.LcgBytesUpdate(Snapshot(chs), i, Snapshot(chs)[i].(newBuffer := 0), chs[i].lcg);
  }

  /** run_tti over data that is noticed sends a scheduling request at once, if there is no grant and one may be sent. */
  lemma NoticedIsRequested(x: Setup, u: Ue, t: nat)
    requires UeBsr.Stepped(u.bsr.(grantAvailable := u.hasGrant), x.bsr, u.channels).1
    requires u.sr.state == SrManager.SrIdle && u.sr.prohibit <= 1 && x.sr.enabled && x.sr.dsrTransmax >= 1
    ensures RunTtiUe(x, u, t).1 == Some(UeBsr.LcgSizes(Topped(u.channels)))
  {
  }

  lemma RanIs(x: Setup, r: Rnti, u: Ue, t: nat)
    requires SetupOk(x)
    ensures UeRan(BodiesOf(x), r, u, [], [], t).1 ==
            var sizes := RunTtiUe(x, Listen(x, r, u, t), t).1; if sizes.Some? then Some(SrMsg(r, sizes.value)) else None
  {
  }

  /** The arrival is turned into a scheduling request in the same TTI, with at least the bytes that have arrived. */
  lemma ArrivalIsRequested(x: Setup, r: Rnti, l: Link<Ue, EnbCell>, t: nat, k: nat, bytes: nat, i: nat)
    requires SetupOk(x) && Asks(x, r, l, t, k, bytes, i) && !l.u.hasGrant
    ensures var sent := UeRan(BodiesOf(x), r, l.u, [], [], t).1;
            && sent.Some? && sent.value.rnti == r && |sent.value.pendingBytes| == NOF_LCGS
            && sent.value.pendingBytes[l.u.channels[i].lcg] >= bytes
  {
    var (chs, lcid) := (l.u.channels, l.u.channels[k % |l.u.channels|].lcid);
    var v := Listen(x, r, l.u, t);
    OneArrival(x, r, l.u, t, k, bytes);
    BsrContent.ArrivalTriggers(l.u.bsr.(grantAvailable := false), x.bsr, chs, lcid, bytes);
    NoticedIsRequested(x, v, t);
    RanIs(x, r, l.u, t);
    ArrivedBytes(chs, lcid, bytes, i);
    ToppedBytes(v.channels, chs[i].lcg);
  }

  // ---- The request travels ----

  lemma StaysQueued<T>(q: Queue<T>, e: Entry<T>, t: nat, items: seq<T>)
    requires Recent(q, t) && e in q && t < e.sendTti + 4
    ensures e in Rest(q, t) + Tag(items, t)
  {
    DueIsFourOld(q, t);
    var j :| 0 <= j < |q| && q[j] == e;
    assert j >= VisibleCount(q, t) ==> Rest(q, t)[j - VisibleCount(q, t)] == e;
  }

  lemma ComesDue<T>(q: Queue<T>, e: Entry<T>, t: nat)
    requires Recent(q, t) && e in q && t == e.sendTti + 4
    ensures Due(q, t) == [e.item]
  {
    DueIsFourOld(q, t);
    var j :| 0 <= j < |q| && q[j] == e;
    assert q[0].sendTti + 4 >= t;
  }

  lemma SysOkInRun(x: Setup, channels: map<Rnti, Buffers>, snr: Rnti -> int, states: seq<System>, acts: seq<seq<Actor>>,
                   t: nat, n: nat, now: nat)
    requires InRun(x, channels, snr, states, acts, t, n, now)
    ensures SysOk(states[n], now) && Schedules(BodiesOf(x))
  {
    CellSchedules(x);
    NewSystemIsFresh(x, channels, snr, states[0], t);
    RunsAreRounds(BodiesOf(x), states, acts, t, n, now);
    InStepMeans(BodiesOf(x), ViewOf(states[0]), t, states[n], now);
  }

  /** What one TTI does to the link of a UE: its own computation, with whatever the scheduler gave it. */
  ghost predicate OneTti(b: Bodies<Ue, EnbCell, nat>, r: Rnti, l: Link<Ue, EnbCell>, l': Link<Ue, EnbCell>, t: nat) {
    exists e: EnbCell, gs: seq<UlGrant> :: l' == RoundLink(b, r, l, e, gs, t)
  }

  lemma OneTtiOfLink(b: Bodies<Ue, EnbCell, nat>, s: System, acts: seq<Actor>, s': System, t: nat, next: nat, r: Rnti)
    requires Schedules(b) && SysOk(s, t) && RunsTti(b, s, acts, s', t) && r in s.ues && next == t + 1
    ensures SysOk(s', next) && r in s'.ues && OneTti(b, r, LinkAt(s, r), LinkAt(s', r), t)
  {
    TtiIsRound(b, s, acts, s', t);
    KeysKept(b, ViewOf(s), t);
    var (cells, shared, grants) := b.schedule(Requested(b, ViewOf(s), t), ViewOf(s).shared, t);
    assert ViewOf(s').links[r] == RoundLink(b, r, ViewOf(s).links[r], cells[r], GrantsFor(grants, r), t);
  }

  lemma SentByLink(b: Bodies<Ue, EnbCell, nat>, r: Rnti, l: Link<Ue, EnbCell>, l': Link<Ue, EnbCell>, t: nat, m: SrMsg)
    requires OneTti(b, r, l, l', t) && UeRan(b, r, l.u, Due(l.phich, t), Due(l.grant, t), t).1 == Some(m)
    ensures Entry(m, t) in l'.sr
  {
    assert Tag([m], t)[0] == Entry(m, t);
  }

  lemma KeptByLink(b: Bodies<Ue, EnbCell, nat>, r: Rnti, l: Link<Ue, EnbCell>, l': Link<Ue, EnbCell>, t: nat, m: SrMsg,
                   sent: nat)
    requires OneTti(b, r, l, l', t) && LinkOk(l, t) && Entry(m, sent) in l.sr && t < sent + 4
    ensures Entry(m, sent) in l'.sr
  {
    StaysQueued(l.sr, Entry(m, sent), t, AsSeq(UeRan(b, r, l.u, Due(l.phich, t), Due(l.grant, t), t).1));
  }

  /** The request m, sent by UE r in TTI `sent`, is on its way at the start of TTI t. */
  ghost predicate OnItsWay(s: System, t: nat, r: Rnti, m: SrMsg, sent: nat) {
    SysOk(s, t) && r in s.ues && Entry(m, sent) in LinkAt(s, r).sr
  }

  lemma StaysOnItsWay(b: Bodies<Ue, EnbCell, nat>, s: System, acts: seq<Actor>, s': System, t: nat, next: nat, r: Rnti,
                      m: SrMsg, sent: nat)
    requires Schedules(b) && RunsTti(b, s, acts, s', t) && OnItsWay(s, t, r, m, sent) && t < sent + 4 && next == t + 1
    ensures OnItsWay(s', next, r, m, sent)
  {
    OneTtiOfLink(b, s, acts, s', t, next, r);
    KeptByLink(b, r, LinkAt(s, r), LinkAt(s', r), t, m, sent);
  }

  ghost function OnWay(r: Rnti, m: SrMsg, sent: nat): (System, nat) -> bool {
    (s: System, t: nat) => OnItsWay(s, t, r, m, sent)
  }

  lemma StepAt(b: Bodies<Ue, EnbCell, nat>, states: seq<System>, acts: seq<seq<Actor>>, start: nat, j: nat, next: nat,
               at: nat)
    requires Runs(b, states, acts, start) && j < |acts| && next == j + 1 && at == start + j
    ensures next < |states| && RunsTti(b, states[j], acts[j], states[next], at)
  {
  }

  lemma OneTtiOnWay(b: Bodies<Ue, EnbCell, nat>, s: System, acts: seq<Actor>, s': System, t: nat, next: nat, r: Rnti,
                    m: SrMsg, sent: nat)
    requires Schedules(b) && RunsTti(b, s, acts, s', t) && OnWay(r, m, sent)(s, t) && t < sent + 4 && next == t + 1
    ensures OnWay(r, m, sent)(s', next)
  {
    StaysOnItsWay(b, s, acts, s', t, next, r, m, sent);
  }

  lemma NextOnWay(b: Bodies<Ue, EnbCell, nat>, states: seq<System>, acts: seq<seq<Actor>>, start: nat, j: nat,
                  next: nat, at: nat, now: nat, r: Rnti, m: SrMsg, sent: nat)
    requires Schedules(b) && Runs(b, states, acts, start) && j < |acts| && next == j + 1 && at == start + j
      && now == at + 1
    requires at < sent + 4 && OnWay(r, m, sent)(states[j], at)
    ensures OnWay(r, m, sent)(states[next], now)
  {
    StepAt(b, states, acts, start, j, next, at);
    OneTtiOnWay(b, states[j], acts[j], states[next], at, now, r, m, sent);
  }

  lemma TwoOnWay(b: Bodies<Ue, EnbCell, nat>, states: seq<System>, acts: seq<seq<Actor>>, start: nat, j: nat, end: nat,
                 at: nat, now: nat, r: Rnti, m: SrMsg, sent: nat)
    requires Schedules(b) && Runs(b, states, acts, start) && j + 2 == end <= |acts| && at == start + j && now == at + 2
    requires now <= sent + 4 && OnWay(r, m, sent)(states[j], at)
    ensures OnWay(r, m, sent)(states[end], now)
  {
    var (mid, next) := (j + 1, at + 1);
    NextOnWay(b, states, acts, start, j, mid, at, next, r, m, sent);
    NextOnWay(b, states, acts, start, mid, end, next, now, r, m, sent);
  }

  /** A request sent in TTI `sent` is still there three TTIs after the TTI that follows. */
  lemma RequestTravels(b: Bodies<Ue, EnbCell, nat>, states: seq<System>, acts: seq<seq<Actor>>, start: nat, j: nat,
                       end: nat, at: nat, now: nat, r: Rnti, m: SrMsg, sent: nat)
    requires Schedules(b) && Runs(b, states, acts, start) && j + 3 == end <= |acts| && at == start + j && now == at + 3
    requires at == sent + 1 && OnWay(r, m, sent)(states[j], at)
    ensures OnWay(r, m, sent)(states[end], now)
  {
    var (mid, next) := (j + 2, at + 2);
    TwoOnWay(b, states, acts, start, j, mid, at, next, r, m, sent);
    NextOnWay(b, states, acts, start, mid, end, next, now, r, m, sent);
  }

  // ---- The scheduler hears it ----

  lemma RequestRaises(e: EnbCell, m: SrMsg, lcg: nat)
    requires |m.pendingBytes| == NOF_LCGS && lcg < NOF_LCGS
    ensures var d := HearSr(e, m).sched; d.srPending && d.ulBuffer[lcg] >= m.pendingBytes[lcg]
  {
  }

  lemma HeardInTti(x: Setup, s: System, t: nat, r: Rnti, m: SrMsg, lcg: nat)
    requires SetupOk(x) && SameKeys(s) && r in s.ues && Due(LinkAt(s, r).sr, t) == [m]
    requires |m.pendingBytes| == NOF_LCGS && lcg < NOF_LCGS
    ensures r in ContextsIn(x, s, t)
    ensures var c := ContextsIn(x, s, t)[r]; c.srPending && c.ulBuffer[lcg] >= m.pendingBytes[lcg]
  {
    var (b, e) := (BodiesOf(x), LinkAt(s, r).e);
    RequestRaises(e, m, lcg);
    assert [m][..0] == [] && FoldSr(b, e, []) == e;
    assert Requested(b, ViewOf(s), t)[r] == FoldSr(b, e, [m]);
  }

  /** The request is due at the start of TTI t. */
  ghost predicate DueNow(s: System, t: nat, r: Rnti, m: SrMsg) {
    SameKeys(s) && r in s.ues && Due(LinkAt(s, r).sr, t) == [m]
  }

  lemma ArrivesDue(s: System, t: nat, r: Rnti, m: SrMsg, sent: nat)
    requires OnWay(r, m, sent)(s, t) && t == sent + 4
    ensures DueNow(s, t, r, m)
  {
    assert LinkOk(LinkAt(s, r), t);
    ComesDue(LinkAt(s, r).sr, Entry(m, sent), t);
  }

  lemma SentInTti(b: Bodies<Ue, EnbCell, nat>, s: System, acts: seq<Actor>, s': System, t: nat, next: nat, r: Rnti,
                  m: SrMsg)
    requires Schedules(b) && SysOk(s, t) && RunsTti(b, s, acts, s', t) && r in s.ues && next == t + 1
    requires var l := LinkAt(s, r); UeRan(b, r, l.u, Due(l.phich, t), Due(l.grant, t), t).1 == Some(m)
    ensures OnWay(r, m, t)(s', next)
  {
    OneTtiOfLink(b, s, acts, s', t, next, r);
    SentByLink(b, r, LinkAt(s, r), LinkAt(s', r), t, m);
  }

  lemma Arrives(b: Bodies<Ue, EnbCell, nat>, states: seq<System>, acts: seq<seq<Actor>>, start: nat, n: nat, now: nat,
                end: nat, later: nat, r: Rnti, m: SrMsg)
    requires Schedules(b) && Runs(b, states, acts, start) && n + 4 == end <= |acts| && now == start + n
      && later == now + 4
    requires SysOk(states[n], now) && r in states[n].ues
    requires var l := LinkAt(states[n], r); UeRan(b, r, l.u, Due(l.phich, now), Due(l.grant, now), now).1 == Some(m)
    ensures DueNow(states[end], later, r, m)
  {
    var (j, at) := (n + 1, now + 1);
    StepAt(b, states, acts, start, n, j, now);
    SentInTti(b, states[n], acts[n], states[j], now, at, r, m);
    RequestTravels(b, states, acts, start, j, end, at, later, r, m, now);
    ArrivesDue(states[end], later, r, m, now);
  }

  lemma RoundKeepsLink(b: Bodies<Ue, EnbCell, nat>, c: Cell<Ue, EnbCell, nat>, t: nat, r: Rnti)
    requires Schedules(b)
    ensures r in NextRound(b, c, t).links <==> r in c.links
  {
    KeysKept(b, c, t);
  }

  lemma SameLinks(c: Cell<Ue, EnbCell, nat>, s: System, r: Rnti)
    requires SameKeys(s) && Is(c)(ViewOf(s))
    ensures r in c.links <==> r in s.ues
  {
    ViewKeys(s);
  }

  lemma KeysStay(b: Bodies<Ue, EnbCell, nat>, s: System, acts: seq<Actor>, s': System, t: nat, r: Rnti)
    requires Schedules(b) && SysOk(s, t) && RunsTti(b, s, acts, s', t)
    ensures r in s.ues <==> r in s'.ues
  {
    TtiIsRound(b, s, acts, s', t);
    RoundKeepsLink(b, ViewOf(s), t, r);
    SameLinks(ViewOf(s), s, r);
    SameLinks(NextRound(b, ViewOf(s), t), s', r);
  }

  lemma FinishDrops(x: Setup, r: Rnti, l: Link<Ue, EnbCell>, l': Link<Ue, EnbCell>, t: nat)
    requires SetupOk(x) && OneTti(BodiesOf(x), r, l, l', t)
    ensures !l'.u.hasGrant
  {
  }

  /** UE r holds no grant flag in state s. */
  ghost predicate NoFlag(s: System, r: Rnti) {
    SameKeys(s) && (r in s.ues ==> !LinkAt(s, r).u.hasGrant)
  }

  lemma FlagIsDropped(x: Setup, s: System, acts: seq<Actor>, s': System, t: nat, next: nat, r: Rnti)
    requires SetupOk(x) && Schedules(BodiesOf(x)) && SysOk(s, t) && RunsTti(BodiesOf(x), s, acts, s', t)
      && next == t + 1
      && SysOk(s', next)
    ensures NoFlag(s', r)
  {
    KeysStay(BodiesOf(x), s, acts, s', t, r);
    if r in s.ues {
      OneTtiOfLink(BodiesOf(x), s, acts, s', t, next, r);
      FinishDrops(x, r, LinkAt(s, r), LinkAt(s', r), t);
    }
  }

  lemma NewHasNoFlag(x: Setup, channels: map<Rnti, Buffers>, snr: Rnti -> int, s: System, r: Rnti)
    requires s == NewSystem(x, channels, snr)
    ensures NoFlag(s, r)
  {
    NewSystemIsFresh(x, channels, snr, s, 0);
  }

  lemma NoFlagAfter(x: Setup, channels: map<Rnti, Buffers>, snr: Rnti -> int, states: seq<System>,
                    acts: seq<seq<Actor>>, t: nat, n: nat, now: nat, next: nat, later: nat, r: Rnti)
    requires InRun(x, channels, snr, states, acts, t, n, now) && InRun(x, channels, snr, states, acts, t, next, later)
    requires next == n + 1
    ensures NoFlag(states[next], r)
  {
    SysOkInRun(x, channels, snr, states, acts, t, n, now);
    SysOkInRun(x, channels, snr, states, acts, t, next, later);
    StepAt(BodiesOf(x), states, acts, t, n, next, now);
    FlagIsDropped(x, states[n], acts[n], states[next], now, later, r);
  }

  /** The flag that a grant is at hand, which holds back scheduling requests, never outlives a TTI. */
  lemma NoFlagAtStart(x: Setup, channels: map<Rnti, Buffers>, snr: Rnti -> int, states: seq<System>,
                      acts: seq<seq<Actor>>, t: nat, n: nat, now: nat, r: Rnti)
    requires InRun(x, channels, snr, states, acts, t, n, now)
    ensures NoFlag(states[n], r)
  {
    if n > 0 {
      NoFlagAfter(x, channels, snr, states, acts, t, n - 1, now - 1, n, now, r);
    } else {
      NewHasNoFlag(x, channels, snr, states[n], r);
    }
  }

  /** UE r asks in the TTI that starts in state s. */
  ghost predicate AsksIn(x: Setup, s: System, t: nat, r: Rnti, k: nat, bytes: nat, i: nat) {
    SameKeys(s) && r in s.ues && Asks(x, r, LinkAt(s, r), t, k, bytes, i)
  }

  /** In every run, data that a UE must report reaches the scheduler as a scheduling request exactly four TTIs later:
      the UE's flag is raised then, and its estimate covers the data that has arrived. */
  lemma RequestIsHeard(x: Setup, channels: map<Rnti, Buffers>, snr: Rnti -> int, states: seq<System>,
                       acts: seq<seq<Actor>>, t: nat, n: nat, now: nat, end: nat, later: nat, r: Rnti, k: nat,
                       bytes: nat, i: nat)
    requires InRun(x, channels, snr, states, acts, t, n, now) && n + 4 == end <= |acts| && later == now + 4
    requires AsksIn(x, states[n], now, r, k, bytes, i)
    ensures SameKeys(states[end]) && r in states[end].ues && r in ContextsIn(x, states[end], later)
    ensures var c := ContextsIn(x, states[end], later)[r];
            c.srPending && c.ulBuffer[LinkAt(states[n], r).u.channels[i].lcg] >= bytes
  {
    var l := LinkAt(states[n], r);
    SysOkInRun(x, channels, snr, states, acts, t, n, now);
    NoFlagAtStart(x, channels, snr, states, acts, t, n, now, r);
    ArrivalIsRequested(x, r, l, now, k, bytes, i);
    var m := UeRan(BodiesOf(x), r, l.u, [], [], now).1.value;
    Arrives(BodiesOf(x), states, acts, t, n, now, end, later, r, m);
    HeardInTti(x, states[end], later, r, m, l.u.channels[i].lcg);
  }

  /** Under proportional fair the request is then answered: if the UE has an idle process, no UE ranked before it is
      ready, and the TTI retransmits nothing, it gets a new TB four TTIs after the data has arrived. */
  lemma RequestIsAnswered(x: Setup, channels: map<Rnti, Buffers>, snr: Rnti -> int, states: seq<System>,
                          acts: seq<seq<Actor>>, t: nat, n: nat, now: nat, end: nat, later: nat, r: Rnti, k: nat,
                          bytes: nat, i: nat, p: nat)
    requires InRun(x, channels, snr, states, acts, t, n, now) && n + 4 == end <= |acts| && later == now + 4
    requires AsksIn(x, states[n], now, r, k, bytes, i) && x.policy.algorithm == ProportionalFair
      && x.policy.totalPrb > 0
    requires SameKeys(states[end]) && FirstReady(x, states[end], later, p) && OrderIn(x, states[end], later)[p] == r
    requires NoRetx(IssuedIn(x, states[end], later))
    ensures HasGrant(IssuedIn(x, states[end], later), 0, r)
  {
    RequestIsHeard(x, channels, snr, states, acts, t, n, now, end, later, r, k, bytes, i);
    CellInRun(x, channels, snr, states, acts, t, end, later);
    HeadInRun(x, states[end], later, p);
  }

  /** No UE ranked before place p has both demand and an idle process, and the one at p has an idle process. */
  ghost predicate FirstReady(x: Setup, s: System, now: nat, p: nat)
    requires SetupOk(x) && SameKeys(s)
  {
    var (db, order) := (ContextsIn(x, s, now), OrderIn(x, s, now));
    && p < |order| && order[p] in db && HasIdle(db[order[p]])
    && forall k :: 0 <= k < p ==> order[k] in db && !Ready(db[order[k]])
  }

  lemma HeadInRun(x: Setup, s: System, now: nat, p: nat)
    requires SetupOk(x) && SameKeys(s) && x.policy.algorithm == ProportionalFair && x.policy.totalPrb > 0
    requires InCell(ContextsIn(x, s, now), ListIn(x, s, now), OrderIn(x, s, now)) && FirstReady(x, s, now, p)
    requires ContextsIn(x, s, now)[OrderIn(x, s, now)[p]].srPending && NoRetx(IssuedIn(x, s, now))
    ensures HasGrant(IssuedIn(x, s, now), 0, OrderIn(x, s, now)[p])
  {
    PfHeadIsServed(ContextsIn(x, s, now), x.policy.totalPrb, ListIn(x, s, now), OrderIn(x, s, now), now, p);
  }

  // ---- The grant carries the report back ----

  lemma PduCarries(ce: BsrCe, tbs: nat)
    requires ce.reports != [] && MacPdu.BsrFits(ce, tbs)
    ensures NewPdu(ce, tbs) == MacPdu.PackBytes(seq(tbs, _ => 0), tbs, ce, [])[..tbs]
  {
    WholeSlice(MacPdu.PackBytes(seq(tbs, _ => 0), tbs, ce, []), tbs);
  }

  lemma NothingReported(b: UeBsr.Bsr, cfg: UeBsr.BsrConfig, chs: Buffers, tbs: nat, lcg: nat)
    requires lcg < NOF_LCGS && tbs >= 2 && (tbs >= 4 || !BsrContent.Several(chs))
    ensures UeBsr.Generated(b, cfg, chs, tbs).1.Some?
    ensures UeBsr.Generated(b, cfg, chs, tbs).1.value.reports == [] ==> UeBsr.LcgBytes(chs, lcg) == 0
  {
    BsrContent.FormatIsDecided(b, cfg, chs, tbs);
    BsrContent.ReportIsComplete(b, cfg, chs, tbs);
    BsrContent.LcgBytesZero(chs, lcg);
  }

  lemma NewPduCovers(b: UeBsr.Bsr, cfg: UeBsr.BsrConfig, chs: Buffers, tbs: nat, view: EnbBsr.View,
                     c: Scheduler.UeCtx, lcg: nat, ce: BsrCe)
    requires lcg < NOF_LCGS && tbs >= 2 && (tbs >= 4 || !BsrContent.Several(chs))
    requires UeBsr.Generated(b, cfg, chs, tbs).1 == Some(ce)
    ensures EnbBsr.OnPdu(view, c, NewPdu(ce, tbs)).1.ulBuffer[lcg] >=
            Min(UeBsr.LcgBytes(chs, lcg), MAX_REPORTABLE_BYTES)
  {
    NothingReported(b, cfg, chs, tbs, lcg);
    if ce.reports != [] {
      UeBsr.GeneratedFits(b, cfg, chs, tbs, tbs);
      PduCarries(ce, tbs);
      BsrContent.OwnReportCovers(b, cfg, chs, tbs, seq(tbs, _ => 0), tbs, view, c, lcg);
    }
  }

  lemma WholeSlice<T>(s: seq<T>, n: nat)
    requires n == |s|
    ensures s[..n] == s
  {
  }

  lemma AnswerCarries(x: Setup, u: Ue, g: UlGrant)
    requires SetupOk(x) && g.pid < MAX_HARQ_PROCESSES
    requires UeHarq.Grant(u.procs[g.pid], g, x.harq, false).1.isNewTx
    requires UeHarq.Grant(u.procs[g.pid], g, x.harq, false).1.tbs == g.tbs
    requires UeBsr.OnGrant(u.bsr, x.bsr, u.channels, g.tbs, UeBsr.UpperBound(u.channels)).1.Some?
    ensures AnswerGrant(x, u, g).1 ==
            NewPdu(UeBsr.OnGrant(u.bsr, x.bsr, u.channels, g.tbs, UeBsr.UpperBound(u.channels)).1.value, g.tbs)
  {
  }

  /** A new transmission that cannot hold everything buffered carries a triggered BSR: when the eNB has handled its
      PDU, the scheduler's estimates cover what every LCG held, unless the grant has less than four bytes and several
      LCGs have data. */
  lemma AnswerReports(x: Setup, r: Rnti, u: Ue, g: UlGrant, e: EnbCell, lcg: nat)
    requires SetupOk(x) && g.pid < MAX_HARQ_PROCESSES && lcg < NOF_LCGS
    requires UeHarq.Grant(u.procs[g.pid], g, x.harq, false).1.isNewTx
    requires UeHarq.Grant(u.procs[g.pid], g, x.harq, false).1.tbs == g.tbs
    requires (u.bsr.trigger == UeBsr.Regular || u.bsr.trigger == UeBsr.Periodic) && 2 <= g.tbs < Total(u.channels)
    requires g.tbs >= 4 || !BsrContent.Several(u.channels)
    ensures HearPdu(e, PduMsg(r, g, AnswerGrant(x, u, g).1)).sched.ulBuffer[lcg] >=
            Min(UeBsr.LcgBytes(u.channels, lcg), MAX_REPORTABLE_BYTES)
  {
    BsrContent.UpperBoundCovers(u.channels);
    BsrContent.GrantReports(u.bsr, x.bsr, u.channels, g.tbs, UeBsr.UpperBound(u.channels));
    NewPduCovers(u.bsr, x.bsr, u.channels, g.tbs, e.view, e.sched, lcg,
                 UeBsr.Generated(u.bsr, x.bsr, u.channels, g.tbs).1.value);
    AnswerCarries(x, u, g);
  }

  // ---- What else a TTI does at the UE ----

  /** run_tti fills every token bucket by one TTI's worth and leaves the buffers alone; while a grant is at hand, an
      idle UE sends no scheduling request. */
  lemma RunFillsBuckets(x: Setup, u: Ue, t: nat, i: nat)
    requires i < |u.channels| && u.channels[i].tokens <= u.channels[i].pbr * u.channels[i].bsd
    ensures var (v, sent) := RunTtiUe(x, u, t);
            && |v.channels| == |u.channels| && !v.sr.transmitted
            && v.channels[i] == u.channels[i].(tokens := Min(u.channels[i].tokens + u.channels[i].pbr,
                                                             u.channels[i].pbr * u.channels[i].bsd))
            && (u.hasGrant && u.sr.state == SrManager.SrIdle && !u.sr.transmitted ==> sent.None?)
  {
    BsrContent.StepTriggers(u.bsr.(grantAvailable := u.hasGrant), x.bsr, u.channels);
  }
}
