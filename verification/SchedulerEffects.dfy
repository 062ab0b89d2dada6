/** What a TTI leaves in every UE's context: the estimates, the scheduling request flag and the starvation counter. */
module SchedulerEffects {
  import opened CommonTypes
  import opened Scheduler
  import opened SchedulerSafety
  import opened UlSchedulers
  import opened CellSchedule
  import opened GrantSizing

  /** What a grant does beyond HARQ: a new TB answers the scheduling request and lowers the total estimate by exactly
      min(tbs, total), taken from LCG 0 upwards; a retransmission leaves both as they were. Under EPF any grant, and
      elsewhere a retransmission, restarts the starvation counter. The radio reports stay. */
  predicate Settled(c: UeCtx, d: UeCtx, res: SchedResult, epf: bool) {
    && d.ulSnr == c.ulSnr && d.cqi == c.cqi
    && d.ttiSinceSched == (if res.isRetx || epf then 0 else c.ttiSinceSched)
    && if res.isRetx then d.srPending == c.srPending && d.ulBuffer == c.ulBuffer && d.totalUlBuffer == c.totalUlBuffer
       else
         && !d.srPending && d.totalUlBuffer == c.totalUlBuffer - Min(res.grant.tbs, c.totalUlBuffer)
         && d.totalUlBuffer == Sum(d.ulBuffer)
         && (forall j :: 0 <= j < NOF_LCGS ==> d.ulBuffer[j] <= c.ulBuffer[j])
         && (forall i, j :: 0 <= i < j < NOF_LCGS && d.ulBuffer[j] < c.ulBuffer[j] ==> d.ulBuffer[i] == 0)
  }

  /** Every granted UE is settled, and every other context is untouched. */
  predicate Tracks(db: map<Rnti, UeCtx>, s: Sched, epf: bool) {
    && s.db.Keys == db.Keys
    && (forall r :: r in db && r !in RntisOf(s.results) ==> s.db[r] == db[r])
    && (forall j :: 0 <= j < |s.results| ==>
          s.results[j].rnti in db && Settled(db[s.results[j].rnti], s.db[s.results[j].rnti], s.results[j], epf))
  }

  lemma TracksOneMore(db: map<Rnti, UeCtx>, s: Sched, epf: bool, d: UeCtx, prb: seq<bool>, res: SchedResult)
    requires Tracks(db, s, epf) && res.rnti in db && res.rnti !in RntisOf(s.results)
    requires Settled(db[res.rnti], d, res, epf)
    ensures Tracks(db, Sched(s.db[res.rnti := d], prb, s.results + [res]), epf)
  {
    RntisAppend(s.results, res);
    assert forall j :: 0 <= j < |s.results| ==> s.results[j] in s.results;
  }

  lemma RetxTracks(db: map<Rnti, UeCtx>, s: Sched, epf: bool, rnti: Rnti, t: nat)
    requires Tracks(db, s, epf) && AllClosed(db) && rnti in db && rnti !in RntisOf(s.results)
    ensures Tracks(db, RetxUe(s, rnti, t), epf)
    ensures RntisOf(RetxUe(s, rnti, t).results) <= RntisOf(s.results) + {rnti}
  {
    var c := s.db[rnti];
    var p := FirstServable(c, s.prb, 0);
    NothingGuarded(c, p);
    assert s.db[rnti := c] == s.db;
    if p < MAX_HARQ_PROCESSES {
      var (prb, g) := RetxGrant(c, s.prb, rnti, t, p);
      RntisAppend(s.results, SchedResult(rnti, g, true));
      TracksOneMore(db, s, epf, c.(pendingRetx := c.pendingRetx[p := false], ttiSinceSched := 0), prb,
                    SchedResult(rnti, g, true));
    }
  }

  lemma {:induction false} RetxAllTracks(db: map<Rnti, UeCtx>, s: Sched, epf: bool, rntis: seq<Rnti>, t: nat)
    requires Tracks(db, s, epf) && AllClosed(db) && Waiting(db.Keys, RntisOf(s.results), rntis)
    ensures Tracks(db, RetxAll(s, rntis, t), epf)
    decreases |rntis|
  {
    if rntis != [] {
      RetxTracks(db, s, epf, rntis[0], t);
      OneServed(db.Keys, RntisOf(s.results), rntis, RntisOf(RetxUe(s, rntis[0], t).results));
      RetxAllTracks(db, RetxUe(s, rntis[0], t), epf, rntis[1..], t);
    }
  }

  lemma CommitSettles(c: UeCtx, rnti: Rnti, t: nat, pid: nat, n: nat, start: nat, epf: bool)
    requires Closed(c) && pid < MAX_HARQ_PROCESSES && n > 0
    ensures var (c', g) := NewTb(c, rnti, t, pid, n, start);
            var d := Committed(c', pid, g.tbs);
            Settled(c, if epf then d.(ttiSinceSched := 0) else d, SchedResult(rnti, g, false), epf)
  {
    var g := NewTb(c, rnti, t, pid, n, start).1;
    DeductionIsExact(c.ulBuffer, g.tbs);
    forall i, j | 0 <= i < j < NOF_LCGS
      ensures Deducted(c.ulBuffer, g.tbs)[j] <= c.ulBuffer[j]
      ensures Deducted(c.ulBuffer, g.tbs)[j] < c.ulBuffer[j] ==> Deducted(c.ulBuffer, g.tbs)[i] == 0
    {
      DeductionIsInOrder(c.ulBuffer, g.tbs, i, j);
    }
  }

  lemma ServeTracks(db: map<Rnti, UeCtx>, s: Sched, granted: set<Rnti>, rnti: Rnti, t: nat, phase: Phase)
    requires Tracks(db, s, IsEpf(phase)) && AllClosed(db) && rnti in db
      && (rnti in RntisOf(s.results) ==> rnti in granted)
    ensures Tracks(db, Serve(s, granted, rnti, t, phase).0, IsEpf(phase))
  {
    var c := s.db[rnti];
    if rnti !in granted && Considered(c, phase) && FirstFree(c.busy, 0) >= 0 {
      var (pid, n) := (FirstFree(c.busy, 0), Wanted(c, phase, |s.prb|));
      var (start, prb) := PrbAlloc(s.prb, n);
      if start >= 0 {
        var (c', g) := NewTb(c, rnti, t, pid, n, start);
        var d := Committed(c', pid, g.tbs);
        TbsMonotone(McsOf(c), n, McsOf(c), n);
        CommitSettles(c, rnti, t, pid, n, start, IsEpf(phase));
        TracksOneMore(db, s, IsEpf(phase), if IsEpf(phase) then d.(ttiSinceSched := 0) else d, prb,
                      SchedResult(rnti, g, false));
      }
    }
  }

  lemma {:induction false} ServeAllTracks(db: map<Rnti, UeCtx>, s: Sched, granted: set<Rnti>, order: seq<Rnti>, t: nat,
                                          phase: Phase)
    requires Tracks(db, s, IsEpf(phase)) && AllClosed(db) && AllKnown(order, db.Keys) && Distinct(order)
    requires forall i :: 0 <= i < |order| && order[i] in RntisOf(s.results) ==> order[i] in granted
    ensures Tracks(db, ServeAll(s, granted, order, t, phase).0, IsEpf(phase))
    decreases |order|
  {
    if order != [] {
      var (next, more) := Serve(s, granted, order[0], t, phase);
      ServeTracks(db, s, granted, order[0], t, phase);
      ServedOnly(s, granted, order[0], t, phase);
      RestRecorded(order, RntisOf(s.results), granted, RntisOf(next.results), more);
      ServeAllTracks(db, next, more, order[1..], t, phase);
    }
  }

  lemma OnePhase(db: map<Rnti, UeCtx>, totalPrb: nat, rntis: seq<Rnti>, order: seq<Rnti>, t: nat, phase: Phase)
    requires AllClosed(db) && AllKnown(rntis, db.Keys) && Distinct(rntis) && AllKnown(order, db.Keys) && Distinct(order)
    ensures var s := RetxAll(Started(db, totalPrb), rntis, t);
            Tracks(db, ServeAll(s, RntisOf(s.results), order, t, phase).0, IsEpf(phase))
  {
    RetxAllTracks(db, Started(db, totalPrb), IsEpf(phase), rntis, t);
    var s := RetxAll(Started(db, totalPrb), rntis, t);
    ServeAllTracks(db, s, RntisOf(s.results), order, t, phase);
  }

  lemma AgedClosed(db: map<Rnti, UeCtx>)
    requires AllClosed(db)
    ensures AllClosed(Aged(db)) && Aged(db).Keys == db.Keys
  {
    forall r | r in Aged(db) ensures Closed(Aged(db)[r]) { assert Closed(db[r]); }
  }

  lemma TwoPhases(db: map<Rnti, UeCtx>, totalPrb: nat, rntis: seq<Rnti>, order: seq<Rnti>, t: nat, starveTti: nat,
                  minPrb: nat)
    requires AllClosed(db) && AllKnown(rntis, db.Keys) && Distinct(rntis) && AllKnown(order, db.Keys) && Distinct(order)
    ensures Tracks(Aged(db), RunEpf(db, totalPrb, rntis, order, t, starveTti, minPrb), true)
  {
    var (aged, guard) := (Aged(db), EpfGuard(starveTti, minPrb));
    AgedClosed(db);
    OnePhase(aged, totalPrb, rntis, order, t, guard);
    var s := RetxAll(Started(aged, totalPrb), rntis, t);
    var (s', granted) := ServeAll(s, RntisOf(s.results), order, t, guard);
    EpfRecordsGrants(s, RntisOf(s.results), order, t, guard);
    ServeAllTracks(aged, s', granted, order, t, EpfNew);
  }

  lemma RrTracks(db: map<Rnti, UeCtx>, totalPrb: nat, rntis: seq<Rnti>, offset: nat, t: nat)
    requires AllClosed(db) && AllKnown(rntis, db.Keys) && Distinct(rntis)
    ensures Tracks(db, RunRr(db, totalPrb, rntis, offset, t), false)
  {
    RotationIsDistinct(rntis, offset);
    OnePhase(db, totalPrb, rntis, Rotated(rntis, offset), t, RrNew);
  }

  lemma PfTracks(db: map<Rnti, UeCtx>, totalPrb: nat, rntis: seq<Rnti>, order: seq<Rnti>, t: nat)
    requires AllClosed(db) && AllKnown(rntis, db.Keys) && Distinct(rntis) && AllKnown(order, db.Keys) && Distinct(order)
    ensures Tracks(db, RunPf(db, totalPrb, rntis, order, t), false)
  {
    OnePhase(db, totalPrb, rntis, order, t, PfNew);
  }

  /** Every TTI of every algorithm settles exactly the UEs it grants and leaves the context of every other UE as it
      was, except that EPF first counts the TTI for all of them. */
  lemma TtiSettles(p: Policy, db: map<Rnti, UeCtx>, offset: nat, t: nat)
    requires Ranks(p) && AllClosed(db)
    ensures Tracks(Start(p, db), RunTti(p, db, offset, t), p.algorithm == Epf)
  {
    ListedIsKnown(db.Keys);
    match p.algorithm
    case RoundRobin => RrTracks(db, p.totalPrb, Listed(db.Keys), offset, t);
    case ProportionalFair => PfTracks(db, p.totalPrb, Listed(db.Keys), p.ranking(db, t), t);
    case Epf => TwoPhases(db, p.totalPrb, Listed(db.Keys), p.ranking(db, t), t, p.starveTti, p.minPrb);
  }

  /** EPF's counter counts the TTIs since a UE was last granted: a grant restarts it, any other TTI adds one. */
  lemma CounterCountsTtis(p: Policy, db: map<Rnti, UeCtx>, offset: nat, t: nat, r: Rnti)
    requires Ranks(p) && AllClosed(db) && p.algorithm == Epf && r in db
    ensures var s := RunTti(p, db, offset, t);
            r in s.db && s.db[r].ttiSinceSched == if r in RntisOf(s.results) then 0 else db[r].ttiSinceSched + 1
  {
    TtiSettles(p, db, offset, t);
    var s := RunTti(p, db, offset, t);
    if r in RntisOf(s.results) {
      var res :| res in s.results && res.rnti == r;
      var j :| 0 <= j < |s.results| && s.results[j] == res;
      assert Settled(Start(p, db)[r], s.db[r], s.results[j], true);
    }
  }

  // ---- What an indication leaves ----

  /** A scheduling request leaves its flag, so that the UE is served even without known data, and raises each
      estimate to what the UE is known to have pending; no estimate falls. */
  lemma SrRaises(c: UeCtx, pending: seq<nat>)
    requires |pending| == NOF_LCGS && c.totalUlBuffer == Sum(c.ulBuffer)
    ensures var d := OnSr(c, pending);
            && d.srPending && d.totalUlBuffer == Sum(d.ulBuffer) && SameHarq(c, d) && SameRadio(c, d)
            && d.ttiSinceSched == c.ttiSinceSched
            && forall i :: 0 <= i < NOF_LCGS ==>
                 d.ulBuffer[i] >= c.ulBuffer[i] && d.ulBuffer[i] >= pending[i]
                   && d.ulBuffer[i] in {c.ulBuffer[i], pending[i]}
  {
  }

  /** A BSR sets the one estimate it names to what its index stands for, and the total to the new sum. */
  lemma BsrSets(c: UeCtx, lcg: nat, index: nat, i: nat)
    requires lcg < NOF_LCGS && index < 256 && i < NOF_LCGS
    ensures var d := OnBsr(c, lcg, index);
            && d.ulBuffer[i] == (if i == lcg then BsrIndexToBytes(index) else c.ulBuffer[i])
            && d.totalUlBuffer == Sum(d.ulBuffer)
            && SameHarq(c, d) && SameRadio(c, d) && d.srPending == c.srPending && d.ttiSinceSched == c.ttiSinceSched
  {
    assert index % 256 == index;
  }

  /** The drop guard: the retransmission phase releases the UE's processes that await a retransmission but have no
      recorded TB, all of them, or those below the process it grants; every other process stays busy or idle as it
      was. */
  lemma DeadAreReleased(s: Sched, rnti: Rnti, t: nat, q: nat)
    requires rnti in s.db && q < MAX_HARQ_PROCESSES
    ensures var (c, next) := (s.db[rnti], RetxUe(s, rnti, t));
            var dead := c.pendingRetx[q] && !c.tb[q].valid;
            && (dead && (next.results == s.results || q < next.results[|s.results|].grant.pid) ==>
                  !next.db[rnti].pendingRetx[q] && !next.db[rnti].busy[q])
            && (!dead ==> next.db[rnti].busy[q] == c.busy[q])
  {
    var c := s.db[rnti];
    var p := FirstServable(c, s.prb, 0);
    if p < MAX_HARQ_PROCESSES {
      PrbAllocIsFirstFit(s.prb, c.tb[p].nPrb);
    }
  }
}
