/** No byte is lost across HARQ discards: a ledger of the bytes each TB took from the buffers. */
module HarqBytes {
  import opened CommonTypes
  import opened TtiThreads
  import opened TtiRuns
  import opened Scheduler
  import UeHarq
  import opened HarqLane
  import opened HarqLoop
  import opened HarqRuns

  /** Bytes taken by acknowledged TBs, and bytes taken by the unresolved TB of each process. */
  datatype Ledger = Ledger(acked: nat, taken: seq<nat>)

  type Taking = l: Ledger | |l.taken| == MAX_HARQ_PROCESSES witness Ledger(0, seq(MAX_HARQ_PROCESSES, _ => 0))

  predicate Live(p: UeHarq.UeProc) {
    p.State() != Inactive
  }

  /** Feedback: an ACK settles what the TB took, a discard puts at least that much back. */
  function HeardLedger(led: Taking, ps: Procs, m: Option<PhichMsg>): Taking {
    if m.None? || m.value.pid >= MAX_HARQ_PROCESSES || !Live(ps[m.value.pid]) then led
    else
      var pid := m.value.pid;
      if m.value.ack then led.(acked := led.acked + led.taken[pid], taken := led.taken[pid := 0])
      else if UeHarq.Feedback(ps[pid], false).1.isDiscarded then led.(taken := led.taken[pid := 0])
      else led
  }

  function AnsweredLedger(led: Taking, ps: Procs, bytes: nat, g: Option<UlGrant>, cfg: UeHarq.HarqConfig): Taking {
    if g.None? || g.value.pid >= MAX_HARQ_PROCESSES then led
    else if !UeHarq.Grant(ps[g.value.pid], g.value, cfg, false).1.isNewTx then led
    else led.(taken := led.taken[g.value.pid := Taken(ps, bytes, g.value, cfg)])
  }

  /** Every byte offered is buffered, or in an unresolved TB, or was acknowledged. */
  predicate LedgerOk(ps: Procs, bytes: nat, led: Taking, offered: nat) {
    && offered <= bytes + Sum(led.taken) + led.acked
    && forall pid :: 0 <= pid < MAX_HARQ_PROCESSES && led.taken[pid] > 0 ==>
      Live(ps[pid]) && led.taken[pid] <= ps[pid].tbs
  }

  lemma {:induction false} SumUpdate(s: seq<nat>, i: nat, v: nat)
    requires i < |s|
    ensures Sum(s[i := v]) == Sum(s) - s[i] + v
  {
    if i > 0 {
      SumUpdate(s[1..], i - 1, v);
      assert s[i := v][1..] == s[1..][i - 1 := v];
    } else {
      assert s[i := v][1..] == s[1..];
    }
  }

  lemma HeardOk(ps: Procs, bytes: nat, led: Taking, offered: nat, m: Option<PhichMsg>)
    requires LedgerOk(ps, bytes, led, offered)
    ensures LedgerOk(HeardAll(ps, m), bytes + (if m.Some? then Restored(ps, m.value) else 0), HeardLedger(led, ps, m),
                     offered)
  {
    if m.Some? && m.value.pid < MAX_HARQ_PROCESSES {
      SumUpdate(led.taken, m.value.pid, 0);
    }
  }

  /** A new TB takes from the buffers only when its process holds nothing; a retransmission takes nothing. */
  lemma AnsweredOk(ps: Procs, bytes: nat, led: Taking, offered: nat, g: UlGrant, cfg: UeHarq.HarqConfig)
    requires LedgerOk(ps, bytes, led, offered) && g.pid < MAX_HARQ_PROCESSES
    requires var action := UeHarq.Grant(ps[g.pid], g, cfg, false).1;
             if action.isNewTx then !Live(ps[g.pid]) else action.isRetx && Live(ps[g.pid]) && g.tbs == ps[g.pid].tbs
    ensures LedgerOk(GrantAt(ps, g, cfg), bytes - Taken(ps, bytes, g, cfg),
                     AnsweredLedger(led, ps, bytes, Some(g), cfg), offered)
  {
    SumUpdate(led.taken, g.pid, Taken(ps, bytes, g, cfg));
  }

  /** When a retransmission grant reaches the UE it is for the TB the process holds. */
  lemma RetransmissionKeepsSize(l: Lane, cfg: UeHarq.HarqConfig, t: nat)
    requires LaneInv(l, cfg, t) && HeadDue(l.grant, t).Some? && HeadDue(l.grant, t).value.rv == -1
    ensures HeadDue(l.grant, t).value.tbs == Heard(l.ue, HeadDue(l.phich, t)).tbs
  {
    assert GrantedLane(l, cfg);
    GrantReachesUe(l, cfg, t);
  }

  // ---- One TTI of a link ----

  ghost function LedgerNext<U, E, S>(p: Loop<U, E, S>, r: Rnti, l: Link<U, E>, led: Taking, t: nat): Taking {
    var (m, g) := (HeadDue(l.phich, t), HeadDue(l.grant, t));
    var heard := HeardLedger(led, p.h.procs(l.u), m);
    var bytes := p.h.bytes(UeHeard(p.b, r, l.u, Due(l.phich, t), t));
    AnsweredLedger(heard, HeardAll(p.h.procs(l.u), m), bytes, g, p.cfg)
  }

  lemma LedgerKept<U(!new), E(!new), S(!new)>(p: Loop<U, E, S>, r: Rnti, l: Link<U, E>, e: E, gs: seq<UlGrant>,
                                              led: Taking, offered: nat, t: nat)
    requires FaithfulUe(p.b, p.h, p.cfg, p.arrivals) && LinkInv(p.h, p.cfg, p.totalPrb, l, t)
    requires LedgerOk(p.h.procs(l.u), p.h.bytes(l.u), led, offered)
    ensures var u := RoundLink(p.b, r, l, e, gs, t).u;
        LedgerOk(p.h.procs(u), p.h.bytes(u), LedgerNext(p, r, l, led, t), offered + p.arrivals(r, t))
  {
    var (m, g, ps) := (HeadDue(l.phich, t), HeadDue(l.grant, t), p.h.procs(l.u));
    HeadsDue(l, t);
    UeHeardProcs(p.b, p.h, p.cfg, p.arrivals, r, l.u, m, t);
    UeRoundProcs(p.b, p.h, p.cfg, p.arrivals, r, l.u, m, g, t);
    HeardOk(ps, p.h.bytes(l.u), led, offered, m);
    if g.Some? {
      GrantMeetsProcess(p, l, t, g.value);
      AnsweredOk(HeardAll(ps, m), p.h.bytes(UeHeard(p.b, r, l.u, Due(l.phich, t), t)), HeardLedger(led, ps, m),
                 offered + p.arrivals(r, t), g.value, p.cfg);
    }
  }

  lemma GrantMeetsLane(lane: Lane, cfg: UeHarq.HarqConfig, t: nat)
    requires LaneInv(lane, cfg, t) && HeadDue(lane.grant, t).Some?
    ensures var (g, q) := (HeadDue(lane.grant, t).value, Heard(lane.ue, HeadDue(lane.phich, t)));
            var action := UeHarq.Grant(q, g, cfg, false).1;
            if action.isNewTx then !Live(q) else action.isRetx && Live(q) && g.tbs == q.tbs
  {
    assert GrantedLane(lane, cfg);
    GrantIsUnderstood(lane, cfg, t);
    if HeadDue(lane.grant, t).value.rv != 0 { RetransmissionKeepsSize(lane, cfg, t); }
  }

  lemma LaneOfGrant<U(!new), E(!new), S(!new)>(p: Loop<U, E, S>, l: Link<U, E>, t: nat, g: UlGrant)
    requires LinkInv(p.h, p.cfg, p.totalPrb, l, t) && HeadDue(l.grant, t) == Some(g)
    ensures g.pid < MAX_HARQ_PROCESSES && LaneInv(LaneOf(p.h, l, g.pid), p.cfg, t)
    ensures HeadDue(LaneOf(p.h, l, g.pid).grant, t) == Some(g)
  {
    assert GrantPid(l.grant[0].item) == g.pid;
    OfPop(l.grant, GrantPid, GrantAsIs, g.pid, t);
  }

  lemma ProcessHeard<U(!new), E(!new), S(!new)>(p: Loop<U, E, S>, l: Link<U, E>, t: nat, pid: nat)
    requires Recent(l.phich, t) && pid < MAX_HARQ_PROCESSES
    ensures var lane := LaneOf(p.h, l, pid);
            HeardAll(p.h.procs(l.u), HeadDue(l.phich, t))[pid] == Heard(lane.ue, HeadDue(lane.phich, t))
  {
    OfPop(l.phich, PhichPid, PhichAck, pid, t);
  }

  lemma GrantMeetsProcess<U(!new), E(!new), S(!new)>(p: Loop<U, E, S>, l: Link<U, E>, t: nat, g: UlGrant)
    requires LinkInv(p.h, p.cfg, p.totalPrb, l, t) && HeadDue(l.grant, t) == Some(g)
    ensures g.pid < MAX_HARQ_PROCESSES &&
            var q := HeardAll(p.h.procs(l.u), HeadDue(l.phich, t))[g.pid];
            var action := UeHarq.Grant(q, g, p.cfg, false).1;
            if action.isNewTx then !Live(q) else action.isRetx && Live(q) && g.tbs == q.tbs
  {
    LaneOfGrant(p, l, t, g);
    ProcessHeard(p, l, t, g.pid);
    GrantMeetsLane(LaneOf(p.h, l, g.pid), p.cfg, t);
  }

  // ---- Runs ----

  ghost function LedgerInv<U, E, S>(p: Loop<U, E, S>, r: Rnti, led: Taking, offered: nat)
    : (Cell<U, E, S>, nat) -> bool {
    (c: Cell<U, E, S>, t: nat) => r in c.links
      && LedgerOk(p.h.procs(c.links[r].u), p.h.bytes(c.links[r].u), led, offered)
  }

  function OfferedBy(arrivals: (Rnti, nat) -> nat, r: Rnti, offered: nat, t: nat): nat {
    offered + arrivals(r, t)
  }

  lemma LedgerOfNext<U(!new), E(!new), S(!new)>(p: Loop<U, E, S>, c: Cell<U, E, S>, led: Taking, offered: nat, t: nat,
                                                r: Rnti)
    requires InLoop(p) && CellInvOf(p)(c, t) && LedgerInv(p, r, led, offered)(c, t) && r in c.links
    ensures var d := NextRound(p.b, c, t);
            && r in d.links
            && LedgerOk(p.h.procs(d.links[r].u), p.h.bytes(d.links[r].u), LedgerNext(p, r, c.links[r], led, t),
                        OfferedBy(p.arrivals, r, offered, t))
  {
    var l := c.links[r];
    InvAtLink(p, c, t, r);
    KeysKept(p.b, c, t);
    var plan := p.b.schedule(Requested(p.b, c, t), c.shared, t);
    LedgerKept(p, r, l, plan.0[r], GrantsFor(plan.2, r), led, offered, t);
  }

  lemma LedgerIs<U(!new), E(!new), S(!new)>(p: Loop<U, E, S>, c: Cell<U, E, S>, led: Taking, offered: nat, t: nat,
                                            r: Rnti)
    requires r in c.links && LedgerOk(p.h.procs(c.links[r].u), p.h.bytes(c.links[r].u), led, offered)
    ensures LedgerInv(p, r, led, offered)(c, t)
  {
  }

  lemma LedgerStep<U(!new), E(!new), S(!new)>(p: Loop<U, E, S>, c: Cell<U, E, S>, led: Taking, offered: nat, t: nat,
                                              next: nat, r: Rnti)
    requires InLoop(p) && CellInvOf(p)(c, t) && LedgerInv(p, r, led, offered)(c, t) && r in c.links && next == t + 1
    ensures LedgerInv(p, r, LedgerNext(p, r, c.links[r], led, t),
                      OfferedBy(p.arrivals, r, offered, t))(NextRound(p.b, c, t), next)
  {
    LedgerOfNext(p, c, led, offered, t, r);
    LedgerIs(p, NextRound(p.b, c, t), LedgerNext(p, r, c.links[r], led, t), OfferedBy(p.arrivals, r, offered, t), next,
             r);
  }

  /** A cell together with the ledger of its UE r and the bytes offered to that UE so far. */
  datatype Account<U, E, S> = Account(c: Cell<U, E, S>, led: Taking, offered: nat)

  ghost function AccountedRound<U(!new), E(!new), S(!new)>(p: Loop<U, E, S>, r: Rnti)
    : (Account<U, E, S>, nat) -> Account<U, E, S>
    requires Schedules(p.b)
  {
    (x: Account<U, E, S>, t: nat) =>
      Account(NextRound(p.b, x.c, t), if r in x.c.links then LedgerNext(p, r, x.c.links[r], x.led, t) else x.led,
              OfferedBy(p.arrivals, r, x.offered, t))
  }

  /** x in TTI `start`, taken through one step per TTI to TTI `end`. */
  ghost function Iterate<X>(f: (X, nat) -> X, x: X, start: nat, end: nat): X
    decreases end
  {
    if end <= start then x else f(Iterate(f, x, start, end - 1), end - 1)
  }

  lemma {:induction false} IterateKeeps<X(!new)>(f: (X, nat) -> X, x: X, start: nat, end: nat, inv: (X, nat) -> bool)
    requires inv(x, start) && start <= end
    requires forall y: X, t: nat, next: nat {:trigger inv(f(y, t), next)} :: inv(y, t) && next == t + 1 ==>
        inv(f(y, t), next)
    ensures inv(Iterate(f, x, start, end), end)
    decreases end
  {
    if start < end {
      IterateKeeps(f, x, start, end - 1, inv);
    }
  }

  ghost function AccountInv<U(!new), E(!new), S(!new)>(p: Loop<U, E, S>, r: Rnti): (Account<U, E, S>, nat) -> bool {
    (x: Account<U, E, S>, t: nat) => CellInvOf(p)(x.c, t) && LedgerInv(p, r, x.led, x.offered)(x.c, t)
  }

  lemma AccountIs<U(!new), E(!new), S(!new)>(p: Loop<U, E, S>, r: Rnti, c: Cell<U, E, S>, led: Taking, offered: nat,
                                             t: nat)
    requires CellInvOf(p)(c, t) && LedgerInv(p, r, led, offered)(c, t)
    ensures AccountInv(p, r)(Account(c, led, offered), t)
  {
  }

  lemma RoundAccounted<U(!new), E(!new), S(!new)>(p: Loop<U, E, S>, r: Rnti, x: Account<U, E, S>, t: nat, next: nat,
                                                  inv: (Account<U, E, S>, nat) -> bool)
    requires Schedules(p.b) && r in x.c.links
    requires inv(Account(NextRound(p.b, x.c, t), LedgerNext(p, r, x.c.links[r], x.led, t),
                         OfferedBy(p.arrivals, r, x.offered, t)), next)
    ensures inv(AccountedRound(p, r)(x, t), next)
  {
  }

  lemma AccountParts<U(!new), E(!new), S(!new)>(p: Loop<U, E, S>, r: Rnti, x: Account<U, E, S>, t: nat)
    requires AccountInv(p, r)(x, t)
    ensures CellInvOf(p)(x.c, t) && LedgerInv(p, r, x.led, x.offered)(x.c, t) && r in x.c.links
  {
  }

  lemma AccountStep<U(!new), E(!new), S(!new)>(p: Loop<U, E, S>, r: Rnti, x: Account<U, E, S>, t: nat, next: nat)
    requires InLoop(p) && AccountInv(p, r)(x, t) && next == t + 1
    ensures AccountInv(p, r)(AccountedRound(p, r)(x, t), next)
  {
    AccountParts(p, r, x, t);
    NextInv(p, x.c, t, next);
    LedgerStep(p, x.c, x.led, x.offered, t, next, r);
    AccountIs(p, r, NextRound(p.b, x.c, t), LedgerNext(p, r, x.c.links[r], x.led, t),
              OfferedBy(p.arrivals, r, x.offered, t), next);
    RoundAccounted(p, r, x, t, next, AccountInv(p, r));
  }

  lemma {:induction false} ZeroSum(s: seq<nat>)
    requires forall i :: 0 <= i < |s| ==> s[i] == 0
    ensures Sum(s) == 0
  {
    if s != [] { ZeroSum(s[1..]); }
  }

  /** An account opened at the start of a run: what is buffered has been offered, and no TB has taken anything. */
  ghost function Opened<U, E, S>(p: Loop<U, E, S>, c: Cell<U, E, S>, r: Rnti): Account<U, E, S>
    requires r in c.links
  {
    Account(c, Ledger(0, seq(MAX_HARQ_PROCESSES, _ => 0)), p.h.bytes(c.links[r].u))
  }

  lemma OpenedInv<U(!new), E(!new), S(!new)>(p: Loop<U, E, S>, c: Cell<U, E, S>, r: Rnti, t: nat)
    requires r in c.links && CellInvOf(p)(c, t)
    ensures AccountInv(p, r)(Opened(p, c, r), t)
  {
    ZeroSum(Opened(p, c, r).led.taken);
  }

  lemma LedgerMeans<U(!new), E(!new), S(!new)>(p: Loop<U, E, S>, c: Cell<U, E, S>, t: nat, r: Rnti, led: Taking,
                                               offered: nat)
    requires LedgerInv(p, r, led, offered)(c, t)
    ensures r in c.links && LedgerOk(p.h.procs(c.links[r].u), p.h.bytes(c.links[r].u), led, offered)
  {
  }

  // ---- The account follows the threaded system ----

  /** Bytes that arrived for UE r in the TTIs from `start` up to `end`. */
  function ArrivedIn(arrivals: (Rnti, nat) -> nat, r: Rnti, start: nat, end: nat): nat
    decreases end
  {
    if end <= start then 0 else ArrivedIn(arrivals, r, start, end - 1) + arrivals(r, end - 1)
  }

  /** The account is that of the cell after the rounds so far, and has been offered what has arrived so far. */
  ghost function Follows<U(!new), E(!new), S(!new)>(p: Loop<U, E, S>, r: Rnti, c: Cell<U, E, S>, start: nat,
                                                    initial: nat): (Account<U, E, S>, nat) -> bool
    requires Schedules(p.b)
  {
    (x: Account<U, E, S>, t: nat) => start <= t && Is(Rounds(p.b, c, start, t))(x.c)
      && x.offered == initial + ArrivedIn(p.arrivals, r, start, t)
  }

  lemma FollowsIs<U(!new), E(!new), S(!new)>(p: Loop<U, E, S>, r: Rnti, c: Cell<U, E, S>, start: nat, initial: nat,
                                             x: Account<U, E, S>, t: nat)
    requires Schedules(p.b)
    ensures Follows(p, r, c, start, initial)(x, t) <==>
            start <= t && Is(Rounds(p.b, c, start, t))(x.c) && x.offered == initial + ArrivedIn(p.arrivals, r, start, t)
  {
  }

  lemma FollowsNext<U(!new), E(!new), S(!new)>(p: Loop<U, E, S>, r: Rnti, c: Cell<U, E, S>, start: nat, initial: nat,
                                               x: Account<U, E, S>, t: nat, next: nat)
    requires Schedules(p.b) && Follows(p, r, c, start, initial)(x, t) && next == t + 1
    ensures Follows(p, r, c, start, initial)(AccountedRound(p, r)(x, t), next)
  {
    FollowsIs(p, r, c, start, initial, x, t);
    var y := AccountedRound(p, r)(x, t);
    AccountedCell(p, r, x, t);
    IsRound(p.b, Rounds(p.b, c, start, t), x.c, y.c, t);
    RoundTaken(p.b, c, start, t, next, (d: Cell<U, E, S>, u: nat) => Is(d)(y.c));
    FollowsIs(p, r, c, start, initial, y, next);
  }

  lemma AccountedCell<U(!new), E(!new), S(!new)>(p: Loop<U, E, S>, r: Rnti, x: Account<U, E, S>, t: nat)
    requires Schedules(p.b)
    ensures var y := AccountedRound(p, r)(x, t);
        Is(NextRound(p.b, x.c, t))(y.c) && y.offered == x.offered + p.arrivals(r, t)
  {
  }

  lemma AccountFollows<U(!new), E(!new), S(!new)>(p: Loop<U, E, S>, c: Cell<U, E, S>, start: nat, r: Rnti, end: nat)
    requires Schedules(p.b) && r in c.links && start <= end
    ensures Follows(p, r, c, start, p.h.bytes(c.links[r].u))(Iterate(AccountedRound(p, r), Opened(p, c, r), start, end),
                                                             end)
  {
    var (f, inv) := (AccountedRound(p, r), Follows(p, r, c, start, p.h.bytes(c.links[r].u)));
    NoRounds(p.b, c, start);
    FollowsIs(p, r, c, start, p.h.bytes(c.links[r].u), Opened(p, c, r), start);
    forall y: Account<U, E, S>, t: nat, next: nat | inv(y, t) && next == t + 1 ensures inv(f(y, t), next) {
      FollowsNext(p, r, c, start, p.h.bytes(c.links[r].u), y, t, next);
    }
    IterateKeeps(f, Opened(p, c, r), start, end, inv);
  }

  lemma SameCell<U(!new), E(!new), S(!new)>(a: Cell<U, E, S>, c: Cell<U, E, S>, d: Cell<U, E, S>,
                                            inv: (Cell<U, E, S>, nat) -> bool, t: nat)
    requires Is(a)(c) && Is(a)(d) && inv(c, t)
    ensures inv(d, t)
  {
  }

  /** The ledger of UE r at the start of TTI `end`, after the rounds from the start. */
  ghost function AccountAt<U(!new), E(!new), S(!new)>(p: Loop<U, E, S>, c: Cell<U, E, S>, r: Rnti, start: nat, end: nat)
    : Account<U, E, S>
    requires Schedules(p.b) && r in c.links
  {
    Iterate(AccountedRound(p, r), Opened(p, c, r), start, end)
  }

  lemma AccountHolds<U(!new), E(!new), S(!new)>(p: Loop<U, E, S>, c: Cell<U, E, S>, r: Rnti, start: nat, end: nat)
    requires InLoop(p) && CellInvOf(p)(c, start) && r in c.links && start <= end
    ensures var x := AccountAt(p, c, r, start, end);
            && AccountInv(p, r)(x, end) && Is(Rounds(p.b, c, start, end))(x.c)
            && x.offered == p.h.bytes(c.links[r].u) + ArrivedIn(p.arrivals, r, start, end)
  {
    OpenedInv(p, c, r, start);
    var (f, inv) := (AccountedRound(p, r), AccountInv(p, r));
    forall y: Account<U, E, S>, t: nat, next: nat | inv(y, t) && next == t + 1 ensures inv(f(y, t), next) {
      AccountStep(p, r, y, t, next);
    }
    IterateKeeps(f, Opened(p, c, r), start, end, inv);
    AccountFollows(p, c, start, r, end);
    FollowsIs(p, r, c, start, p.h.bytes(c.links[r].u), AccountAt(p, c, r, start, end), end);
  }

  lemma InStepLosesNothing<U(!new), E(!new), S(!new)>(p: Loop<U, E, S>, c: Cell<U, E, S>, r: Rnti, start: nat,
                                                      s: Sys<U, E, S>, now: nat)
    requires InLoop(p) && CellInvOf(p)(c, start) && r in c.links && start <= now && InStep(p.b, c, start)(s, now)
    ensures var x := AccountAt(p, c, r, start, now); SameKeys(s) && LedgerInv(p, r, x.led, x.offered)(ViewOf(s), now)
  {
    AccountHolds(p, c, r, start, now);
    var x := AccountAt(p, c, r, start, now);
    AccountParts(p, r, x, now);
    InStepMeans(p.b, c, start, s, now);
    SameCell(Rounds(p.b, c, start, now), x.c, ViewOf(s), LedgerInv(p, r, x.led, x.offered), now);
  }

  /** No byte is lost: in every run of the threads from a fresh start, under all interleavings, the ledger of every
      UE r covers what r had buffered at the start and what has arrived for it since. */
  lemma ThreadsLoseNoByte<U(!new), E(!new), S(!new)>(p: Loop<U, E, S>, states: seq<Sys<U, E, S>>, acts: seq<seq<Actor>>,
                                                     t: nat, n: nat, now: nat, r: Rnti)
    requires InLoop(p) && Runs(p.b, states, acts, t) && SysOk(states[0], t) && n <= |acts| && now == t + n
      && r in ViewOf(states[0]).links
    requires forall k :: k in states[0].ues ==> FreshLink(p.h, LinkAt(states[0], k))
    ensures var x := AccountAt(p, ViewOf(states[0]), r, t, now);
        SameKeys(states[n]) && LedgerInv(p, r, x.led, x.offered)(ViewOf(states[n]), now)
  {
    FreshCell(p, states[0], t);
    RunsAreRounds(p.b, states, acts, t, n, now);
    InStepLosesNothing(p, ViewOf(states[0]), r, t, states[n], now);
  }
}
