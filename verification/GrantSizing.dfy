/** How large new grants are, and at which MCS, over a whole TTI of any algorithm. */
module GrantSizing {
  import opened Arithmetic
  import opened CommonTypes
  import opened Scheduler
  import opened SchedulerSafety
  import opened CellSchedule
  import opened UlSchedulers

  predicate SameRadio(c: UeCtx, d: UeCtx) {
    c.cqi == d.cqi && c.ulSnr == d.ulSnr
  }

  /** A new grant uses the MCS of the UE's reported quality, and is as large as the demand or as `cap` PRBs at this
      MCS, but spends no more PRBs than the demand needs. */
  predicate SizedFor(c: UeCtx, g: UlGrant, cap: nat) {
    && g.mcs == McsOf(c) && g.tbs == Tbs(g.mcs, g.nPrb) && g.tbs >= Min(Demand(c), Tbs(g.mcs, cap))
    && Min(PrbsFor(c), cap) <= g.nPrb <= PrbsFor(c)
  }

  /** PRBs a phase may spend on one UE: the starvation guard is held to its reserved share. */
  function Ceiling(phase: Phase, totalPrb: nat): nat {
    if phase.EpfGuard? then Min(Max(phase.minPrb, 1), totalPrb) else totalPrb
  }

  lemma BytesPerPrbScale(mcs: nat, n: nat)
    ensures Tbs(mcs, n) >= Tbs(mcs, 1) * n
  {
    DivScale(BitsPerPrb(mcs), n);
  }

  lemma EnoughPrbs(c: UeCtx)
    ensures PrbsFor(c) >= 1 && Tbs(McsOf(c), PrbsFor(c)) >= Demand(c)
  {
    var (mcs, n) := (McsOf(c), PrbsFor(c));
    TbsMonotone(mcs, 1, mcs, 1);
    CeilingCovers(Demand(c), Tbs(mcs, 1));
    BytesPerPrbScale(mcs, n);
    assert Tbs(mcs, 1) * n == n * Tbs(mcs, 1);
  }

  /** The PRBs asked for are the least number that carries the demand at the rate of one PRB; a UE that only sent a
      scheduling request counts as 100 bytes. */
  lemma PrbsAreLeast(c: UeCtx, n: nat)
    ensures var bytes := if c.totalUlBuffer == 0 then 100 else c.totalUlBuffer;
            n >= PrbsFor(c) <==> n * Tbs(McsOf(c), 1) >= bytes
  {
    var (rate, bytes) := (Tbs(McsOf(c), 1), Demand(c));
    TbsMonotone(McsOf(c), 1, McsOf(c), 1);
    CeilingIsLeast(bytes, rate, n);
  }

  lemma CeilingIsLeast(a: nat, b: nat, n: nat)
    requires b > 0
    ensures n >= DivUp(a, b) <==> n * b >= a
  {
    var q := DivUp(a, b);
    CeilingCovers(a, b);
    assert (a + b - 1) == q * b + (a + b - 1) % b;
    if n >= q {
      MulMonotone(q, n, b, b);
    } else {
      MulMonotone(n, q - 1, b, b);
      assert (q - 1) * b == q * b - b;
    }
  }

  /** The PRBs a phase asks for carry the demand, or are all it may spend. */
  lemma WantedIsSized(c: UeCtx, phase: Phase, totalPrb: nat)
    ensures Tbs(McsOf(c), Wanted(c, phase, totalPrb)) >= Min(Demand(c), Tbs(McsOf(c), Ceiling(phase, totalPrb)))
  {
    var (mcs, n) := (McsOf(c), Wanted(c, phase, totalPrb));
    EnoughPrbs(c);
    if n >= PrbsFor(c) {
      TbsMonotone(mcs, PrbsFor(c), mcs, n);
    } else {
      assert n == Ceiling(phase, totalPrb);
    }
  }

  // ---- Over the phases of a TTI ----

  /** What the sizing of a UE's grant depends on has not changed since the start of the TTI. */
  predicate SameNeed(c: UeCtx, d: UeCtx) {
    c.totalUlBuffer == d.totalUlBuffer && c.ttiSinceSched == d.ttiSinceSched
  }

  /** `cap` gives the PRBs a UE may get, by the TTIs since it was last scheduled. */
  ghost predicate Adapted(db: map<Rnti, UeCtx>, s: Sched, cap: nat -> nat) {
    && s.db.Keys == db.Keys
    && (forall r :: r in db ==> SameRadio(db[r], s.db[r]) && (r !in RntisOf(s.results) ==> SameNeed(db[r], s.db[r])))
    && (forall i :: 0 <= i < |s.results| ==> s.results[i].rnti in db)
    && (forall i :: 0 <= i < |s.results| && !s.results[i].isRetx ==>
          SizedFor(db[s.results[i].rnti], s.results[i].grant, cap(db[s.results[i].rnti].ttiSinceSched)))
  }

  lemma OneGrantMore(db: map<Rnti, UeCtx>, s: Sched, cap: nat -> nat, d: UeCtx, prb: seq<bool>, r: SchedResult)
    requires Adapted(db, s, cap) && r.rnti in db && SameRadio(s.db[r.rnti], d)
    requires !r.isRetx ==> SizedFor(db[r.rnti], r.grant, cap(db[r.rnti].ttiSinceSched))
    ensures Adapted(db, Sched(s.db[r.rnti := d], prb, s.results + [r]), cap)
  {
    RntisAppend(s.results, r);
  }

  lemma RetxIsAdapted(db: map<Rnti, UeCtx>, s: Sched, cap: nat -> nat, rnti: Rnti, t: nat)
    requires Adapted(db, s, cap) && rnti in db
    ensures Adapted(db, RetxUe(s, rnti, t), cap)
  {
    var p := FirstServable(s.db[rnti], s.prb, 0);
    var c := Guarded(s.db[rnti], p);
    if p < MAX_HARQ_PROCESSES {
      var (prb, g) := RetxGrant(c, s.prb, rnti, t, p);
      OneGrantMore(db, s, cap, c.(pendingRetx := c.pendingRetx[p := false], ttiSinceSched := 0), prb,
                   SchedResult(rnti, g, true));
    }
  }

  lemma {:induction false} RetxAllAdapted(db: map<Rnti, UeCtx>, s: Sched, cap: nat -> nat, rntis: seq<Rnti>, t: nat)
    requires Adapted(db, s, cap) && AllKnown(rntis, db.Keys)
    ensures Adapted(db, RetxAll(s, rntis, t), cap)
    decreases |rntis|
  {
    if rntis != [] {
      RetxIsAdapted(db, s, cap, rntis[0], t);
      RetxAllAdapted(db, RetxUe(s, rntis[0], t), cap, rntis[1..], t);
    }
  }

  lemma NewTbIsSized(c0: UeCtx, c: UeCtx, rnti: Rnti, t: nat, pid: nat, start: nat, phase: Phase, totalPrb: nat,
                     cap: nat)
    requires pid < MAX_HARQ_PROCESSES && SameRadio(c0, c) && SameNeed(c0, c) && cap <= Ceiling(phase, totalPrb)
    requires Wanted(c, phase, totalPrb) > 0
    ensures var (d, g) := NewTb(c, rnti, t, pid, Wanted(c, phase, totalPrb), start);
            SizedFor(c0, g, cap) && SameRadio(c, Committed(d, pid, g.tbs)) && SameRadio(c, d) && g.tbs > 0
  {
    WantedIsSized(c, phase, totalPrb);
    TbsMonotone(McsOf(c), cap, McsOf(c), Ceiling(phase, totalPrb));
    TbsMonotone(McsOf(c), Wanted(c, phase, totalPrb), McsOf(c), Wanted(c, phase, totalPrb));
  }

  /** The phase never asks for less than `cap` allows a UE it considers. */
  ghost predicate Allows(phase: Phase, totalPrb: nat, cap: nat -> nat) {
    forall c: UeCtx :: Considered(c, phase) ==> cap(c.ttiSinceSched) <= Ceiling(phase, totalPrb)
  }

  lemma ServeIsAdapted(db: map<Rnti, UeCtx>, s: Sched, cap: nat -> nat, granted: set<Rnti>, rnti: Rnti, t: nat,
                       phase: Phase)
    requires Adapted(db, s, cap) && rnti in db && (rnti in RntisOf(s.results) ==> rnti in granted)
    requires Allows(phase, |s.prb|, cap)
    ensures Adapted(db, Serve(s, granted, rnti, t, phase).0, cap)
  {
    var c := s.db[rnti];
    if rnti !in granted && Considered(c, phase) && FirstFree(c.busy, 0) >= 0 {
      var (pid, n) := (FirstFree(c.busy, 0), Wanted(c, phase, |s.prb|));
      var (start, prb) := PrbAlloc(s.prb, n);
      if start >= 0 {
        NewTbIsSized(db[rnti], c, rnti, t, pid, start, phase, |s.prb|, cap(c.ttiSinceSched));
        var (c', g) := NewTb(c, rnti, t, pid, n, start);
        var d := Committed(c', pid, g.tbs);
        OneGrantMore(db, s, cap, if IsEpf(phase) then d.(ttiSinceSched := 0) else d, prb, SchedResult(rnti, g, false));
      }
    }
  }

  lemma RestRecorded(order: seq<Rnti>, served: set<Rnti>, granted: set<Rnti>, served': set<Rnti>, granted': set<Rnti>)
    requires order != [] && Distinct(order) && served' <= served + {order[0]} && granted <= granted'
    requires forall i :: 0 <= i < |order| && order[i] in served ==> order[i] in granted
    ensures Distinct(order[1..])
      && forall i :: 0 <= i < |order[1..]| && order[1..][i] in served' ==> order[1..][i] in granted'
  {
  }

  lemma {:induction false} ServeAllAdapted(db: map<Rnti, UeCtx>, s: Sched, cap: nat -> nat, granted: set<Rnti>,
                                           order: seq<Rnti>, t: nat, phase: Phase)
    requires Adapted(db, s, cap) && AllKnown(order, db.Keys) && Distinct(order) && Allows(phase, |s.prb|, cap)
    requires forall i :: 0 <= i < |order| && order[i] in RntisOf(s.results) ==> order[i] in granted
    ensures Adapted(db, ServeAll(s, granted, order, t, phase).0, cap)
    decreases |order|
  {
    if order != [] {
      var (next, more) := Serve(s, granted, order[0], t, phase);
      ServeIsAdapted(db, s, cap, granted, order[0], t, phase);
      ServedOnly(s, granted, order[0], t, phase);
      RestRecorded(order, RntisOf(s.results), granted, RntisOf(next.results), more);
      ServeAllAdapted(db, next, cap, more, order[1..], t, phase);
    }
  }

  lemma ServedOnly(s: Sched, granted: set<Rnti>, rnti: Rnti, t: nat, phase: Phase)
    requires rnti in s.db
    ensures var (next, more) := Serve(s, granted, rnti, t, phase);
            RntisOf(next.results) <= RntisOf(s.results) + {rnti} && granted <= more
  {
    var next := Serve(s, granted, rnti, t, phase).0;
    if next.results != s.results { RntisAppend(s.results, next.results[|s.results|]); }
  }

  lemma StartAdapted(db: map<Rnti, UeCtx>, totalPrb: nat, cap: nat -> nat)
    ensures Adapted(db, Started(db, totalPrb), cap)
  {
  }

  /** PRBs the policy allows a UE that has waited this long: all of them, except that EPF's starvation guard may serve a
      starving UE first with no more than its reserved share. */
  function ShareOf(p: Policy, waited: nat): nat {
    if p.algorithm == Epf && waited > p.starveTti then Min(Max(p.minPrb, 1), p.totalPrb) else p.totalPrb
  }

  function Cap(p: Policy): nat -> nat {
    (waited: nat) => ShareOf(p, waited)
  }

  ghost function Start(p: Policy, db: map<Rnti, UeCtx>): map<Rnti, UeCtx> {
    if p.algorithm == Epf then Aged(db) else db
  }

  lemma RrAdapted(p: Policy, db: map<Rnti, UeCtx>, rntis: seq<Rnti>, offset: nat, t: nat)
    requires AllKnown(rntis, db.Keys) && Distinct(rntis) && p.algorithm != Epf
    ensures Adapted(db, RunRr(db, p.totalPrb, rntis, offset, t), Cap(p))
  {
    StartAdapted(db, p.totalPrb, Cap(p));
    RetxAllAdapted(db, Started(db, p.totalPrb), Cap(p), rntis, t);
    RotationIsDistinct(rntis, offset);
    var s := RetxAll(Started(db, p.totalPrb), rntis, t);
    ServeAllAdapted(db, s, Cap(p), RntisOf(s.results), Rotated(rntis, offset), t, RrNew);
  }

  lemma PfAdapted(p: Policy, db: map<Rnti, UeCtx>, rntis: seq<Rnti>, order: seq<Rnti>, t: nat)
    requires AllKnown(rntis, db.Keys) && AllKnown(order, db.Keys) && Distinct(order) && p.algorithm != Epf
    ensures Adapted(db, RunPf(db, p.totalPrb, rntis, order, t), Cap(p))
  {
    StartAdapted(db, p.totalPrb, Cap(p));
    RetxAllAdapted(db, Started(db, p.totalPrb), Cap(p), rntis, t);
    var s := RetxAll(Started(db, p.totalPrb), rntis, t);
    ServeAllAdapted(db, s, Cap(p), RntisOf(s.results), order, t, PfNew);
  }

  lemma EpfAdapted(p: Policy, db: map<Rnti, UeCtx>, rntis: seq<Rnti>, order: seq<Rnti>, t: nat)
    requires AllKnown(rntis, db.Keys) && AllKnown(order, db.Keys) && Distinct(order) && p.algorithm == Epf
    ensures Adapted(Aged(db), RunEpf(db, p.totalPrb, rntis, order, t, p.starveTti, p.minPrb), Cap(p))
  {
    var (aged, guard) := (Aged(db), EpfGuard(p.starveTti, p.minPrb));
    StartAdapted(aged, p.totalPrb, Cap(p));
    RetxAllAdapted(aged, Started(aged, p.totalPrb), Cap(p), rntis, t);
    var s := RetxAll(Started(aged, p.totalPrb), rntis, t);
    ServeAllAdapted(aged, s, Cap(p), RntisOf(s.results), order, t, guard);
    EpfRecordsGrants(s, RntisOf(s.results), order, t, guard);
    var (s', granted) := ServeAll(s, RntisOf(s.results), order, t, guard);
    ServeAllAdapted(aged, s', Cap(p), granted, order, t, EpfNew);
  }

  lemma TtiIsAdapted(p: Policy, db: map<Rnti, UeCtx>, offset: nat, t: nat)
    requires Ranks(p)
    ensures Adapted(Start(p, db), RunTti(p, db, offset, t), Cap(p))
  {
    ListedIsKnown(db.Keys);
    match p.algorithm
    case RoundRobin => RrAdapted(p, db, Listed(db.Keys), offset, t);
    case ProportionalFair => PfAdapted(p, db, Listed(db.Keys), p.ranking(db, t), t);
    case Epf => EpfAdapted(p, db, Listed(db.Keys), p.ranking(db, t), t);
  }

  lemma AdaptedAt(p: Policy, db: map<Rnti, UeCtx>, s: Sched, i: nat)
    requires Adapted(Start(p, db), s, Cap(p)) && i < |s.results| && !s.results[i].isRetx
    ensures s.results[i].rnti in db
    ensures var (c, g) := (db[s.results[i].rnti], s.results[i].grant);
            SizedFor(c, g, ShareOf(p, if p.algorithm == Epf then c.ttiSinceSched + 1 else c.ttiSinceSched))
  {
  }

  /** Every new grant of a TTI, whatever the algorithm and the ranking, uses the MCS of the UE's reported quality and
      is at least min(demand, what the whole carrier holds at this MCS), with no PRB more than the demand needs. Only
      a UE that EPF finds starving may get less: min(demand, what the reserved share holds). */
  lemma GrantsCoverDemand(p: Policy, db: map<Rnti, UeCtx>, offset: nat, t: nat, res: SchedResult)
    requires Ranks(p) && res in RunTti(p, db, offset, t).results && !res.isRetx
    ensures res.rnti in db && res.grant.mcs == McsOf(db[res.rnti])
    ensures var (c, g) := (db[res.rnti], res.grant);
            && g.tbs == Tbs(g.mcs, g.nPrb) && g.nPrb <= PrbsFor(c)
            && (p.algorithm != Epf || c.ttiSinceSched + 1 <= p.starveTti ==> g.nPrb >= Min(PrbsFor(c), p.totalPrb))
            && (p.algorithm == Epf && c.ttiSinceSched + 1 > p.starveTti ==>
                  g.tbs >= Min(Demand(c), Tbs(g.mcs, Min(Max(p.minPrb, 1), p.totalPrb))))
            && (p.algorithm != Epf || c.ttiSinceSched + 1 <= p.starveTti ==>
                g.tbs >= Min(Demand(c), Tbs(g.mcs, p.totalPrb)))
  {
    var s := RunTti(p, db, offset, t);
    TtiIsAdapted(p, db, offset, t);
    var i :| 0 <= i < |s.results| && s.results[i] == res;
    AdaptedAt(p, db, s, i);
  }

  lemma QualityIsKept(p: Policy, db: map<Rnti, UeCtx>, offset: nat, t: nat, r: Rnti)
    requires Ranks(p) && r in db
    ensures r in RunTti(p, db, offset, t).db && SameRadio(db[r], RunTti(p, db, offset, t).db[r])
  {
    TtiIsAdapted(p, db, offset, t);
  }
}
