/** One TTI of scheduling as a function of the whole cell: any of the three algorithms, under any ranking of the UEs. */
module CellSchedule {
  import opened CommonTypes
  import opened Scheduler
  import opened SchedulerSafety
  import opened UlSchedulers

  /** The configuration of the scheduler; `ranking` stands for the PF and EPF metrics. */
  datatype Policy = Policy(algorithm: Algorithm, totalPrb: nat, starveTti: nat, minPrb: nat,
                           ranking: (map<Rnti, UeCtx>, nat) -> seq<Rnti>)

  ghost predicate Ranks(p: Policy) {
    forall db: map<Rnti, UeCtx>, t: nat :: AllKnown(p.ranking(db, t), db.Keys) && Distinct(p.ranking(db, t))
  }

  // ---- The UEs in ascending order, as the scheduler's map iterates over them ----

  lemma {:induction false} LeastExists(s: set<Rnti>, x: Rnti)
    requires x in s
    ensures exists r :: r in s && forall q :: q in s ==> r <= q
    decreases x
  {
    if y :| y in s && y < x { LeastExists(s, y); }
  }

  ghost function Least(s: set<Rnti>): (r: Rnti)
    requires s != {}
    ensures r in s && forall q :: q in s ==> r <= q
  {
    var x :| x in s;
    LeastExists(s, x);
    var r :| r in s && forall q :: q in s ==> r <= q;
    r
  }

  ghost function Listed(s: set<Rnti>): (rntis: seq<Rnti>)
    ensures StrictlyAscending(rntis) && forall r :: r in rntis <==> r in s
  {
    if s == {} then []
    else
      var rest := Listed(s - {Least(s)});
      assert forall i :: 0 <= i < |rest| ==> rest[i] in rest;
      [Least(s)] + rest
  }

  lemma ListedIsKnown(s: set<Rnti>)
    ensures AllKnown(Listed(s), s) && Distinct(Listed(s))
  {
    forall i | 0 <= i < |Listed(s)| ensures Listed(s)[i] in s { assert Listed(s)[i] in Listed(s); }
    AscendingIsDistinct(Listed(s));
  }

  ghost function RunTti(p: Policy, db: map<Rnti, UeCtx>, offset: nat, t: nat): (s: Sched)
    requires Ranks(p)
  {
    var (rntis, order) := (Listed(db.Keys), p.ranking(db, t));
    ListedIsKnown(db.Keys);
    match p.algorithm
    case RoundRobin => RunRr(db, p.totalPrb, rntis, offset, t)
    case ProportionalFair => RunPf(db, p.totalPrb, rntis, order, t)
    case Epf => RunEpf(db, p.totalPrb, rntis, order, t, p.starveTti, p.minPrb)
  }

  ghost function OffsetAfter(p: Policy, db: map<Rnti, UeCtx>, offset: nat): nat {
    if p.algorithm == RoundRobin && db.Keys != {} then NextOffset(offset) else offset
  }

  // ---- Whatever the bookkeeping holds, each UE gets at most one grant ----

  predicate OneEach(results: seq<SchedResult>, known: set<Rnti>) {
    && (forall i :: 0 <= i < |results| ==> results[i].rnti in known)
    && (forall i, j :: 0 <= i < j < |results| ==> results[i].rnti != results[j].rnti)
  }

  lemma OneMoreEach(results: seq<SchedResult>, known: set<Rnti>, r: SchedResult)
    requires OneEach(results, known) && r.rnti in known && r.rnti !in RntisOf(results)
    ensures OneEach(results + [r], known) && RntisOf(results + [r]) == RntisOf(results) + {r.rnti}
  {
    RntisAppend(results, r);
    forall i | 0 <= i < |results| ensures results[i].rnti != r.rnti { assert results[i] in results; }
  }

  lemma {:induction false} RetxOneEach(s: Sched, rntis: seq<Rnti>, t: nat)
    requires OneEach(s.results, s.db.Keys) && Waiting(s.db.Keys, RntisOf(s.results), rntis)
    ensures OneEach(RetxAll(s, rntis, t).results, s.db.Keys)
    decreases |rntis|
  {
    if rntis != [] {
      var next := RetxUe(s, rntis[0], t);
      if next.results != s.results {
        OneMoreEach(s.results, s.db.Keys, next.results[|s.results|]);
      }
      OneServed(s.db.Keys, RntisOf(s.results), rntis, RntisOf(next.results));
      RetxOneEach(next, rntis[1..], t);
    }
  }

  lemma {:induction false} ServeOneEach(s: Sched, granted: set<Rnti>, order: seq<Rnti>, t: nat, phase: Phase)
    requires OneEach(s.results, s.db.Keys) && AllKnown(order, s.db.Keys) && Distinct(order)
    requires forall i :: 0 <= i < |order| && order[i] in RntisOf(s.results) ==> order[i] in granted
    ensures OneEach(ServeAll(s, granted, order, t, phase).0.results, s.db.Keys)
    decreases |order|
  {
    if order != [] {
      var (next, more) := Serve(s, granted, order[0], t, phase);
      if next.results != s.results {
        OneMoreEach(s.results, s.db.Keys, next.results[|s.results|]);
      }
      ServeOneEach(next, more, order[1..], t, phase);
    }
  }

  lemma RrOneEach(db: map<Rnti, UeCtx>, totalPrb: nat, rntis: seq<Rnti>, offset: nat, t: nat)
    requires AllKnown(rntis, db.Keys) && Distinct(rntis)
    ensures OneEach(RunRr(db, totalPrb, rntis, offset, t).results, db.Keys)
  {
    RetxOneEach(Started(db, totalPrb), rntis, t);
    var s := RetxAll(Started(db, totalPrb), rntis, t);
    RotationIsDistinct(rntis, offset);
    ServeOneEach(s, RntisOf(s.results), Rotated(rntis, offset), t, RrNew);
  }

  lemma PfOneEach(db: map<Rnti, UeCtx>, totalPrb: nat, rntis: seq<Rnti>, order: seq<Rnti>, t: nat)
    requires AllKnown(rntis, db.Keys) && Distinct(rntis) && AllKnown(order, db.Keys) && Distinct(order)
    ensures OneEach(RunPf(db, totalPrb, rntis, order, t).results, db.Keys)
  {
    RetxOneEach(Started(db, totalPrb), rntis, t);
    var s := RetxAll(Started(db, totalPrb), rntis, t);
    ServeOneEach(s, RntisOf(s.results), order, t, PfNew);
  }

  lemma EpfOneEach(db: map<Rnti, UeCtx>, totalPrb: nat, rntis: seq<Rnti>, order: seq<Rnti>, t: nat, starveTti: nat,
                   minPrb: nat)
    requires AllKnown(rntis, db.Keys) && Distinct(rntis) && AllKnown(order, db.Keys) && Distinct(order)
    ensures OneEach(RunEpf(db, totalPrb, rntis, order, t, starveTti, minPrb).results, db.Keys)
  {
    var aged := Aged(db);
    assert aged.Keys == db.Keys;
    RetxOneEach(Started(aged, totalPrb), rntis, t);
    var s := RetxAll(Started(aged, totalPrb), rntis, t);
    ServeOneEach(s, RntisOf(s.results), order, t, EpfGuard(starveTti, minPrb));
    EpfRecordsGrants(s, RntisOf(s.results), order, t, EpfGuard(starveTti, minPrb));
    var (s', granted) := ServeAll(s, RntisOf(s.results), order, t, EpfGuard(starveTti, minPrb));
    ServeOneEach(s', granted, order, t, EpfNew);
  }

  lemma TtiOneEach(p: Policy, db: map<Rnti, UeCtx>, offset: nat, t: nat)
    requires Ranks(p)
    ensures RunTti(p, db, offset, t).db.Keys == db.Keys && OneEach(RunTti(p, db, offset, t).results, db.Keys)
  {
    ListedIsKnown(db.Keys);
    match p.algorithm
    case RoundRobin => RrOneEach(db, p.totalPrb, Listed(db.Keys), offset, t);
    case ProportionalFair => PfOneEach(db, p.totalPrb, Listed(db.Keys), p.ranking(db, t), t);
    case Epf => EpfOneEach(db, p.totalPrb, Listed(db.Keys), p.ranking(db, t), t, p.starveTti, p.minPrb);
  }

  lemma TtiIsSound(p: Policy, db: map<Rnti, UeCtx>, offset: nat, t: nat)
    requires Ranks(p) && AllClosed(db)
    ensures Sound(db, RunTti(p, db, offset, t), t) && |RunTti(p, db, offset, t).prb| == p.totalPrb
  {
    ListedIsKnown(db.Keys);
    match p.algorithm
    case RoundRobin => RrIsSound(db, p.totalPrb, Listed(db.Keys), offset, t);
    case ProportionalFair => PfIsSound(db, p.totalPrb, Listed(db.Keys), p.ranking(db, t), t);
    case Epf => EpfIsSound(db, p.totalPrb, Listed(db.Keys), p.ranking(db, t), t, p.starveTti, p.minPrb);
  }

  /** A grant tells the UE and the receiver what the scheduler recorded: `isRetx` is exactly what the grant says. */
  lemma KindIsInGrant(p: Policy, db: map<Rnti, UeCtx>, offset: nat, t: nat, res: SchedResult)
    requires Ranks(p) && AllClosed(db) && res in RunTti(p, db, offset, t).results
    ensures res.isRetx == MeantAsRetx(res.grant)
  {
    TtiIsSound(p, db, offset, t);
    var s := RunTti(p, db, offset, t);
    var i :| 0 <= i < |s.results| && s.results[i] == res;
    assert GrantEffect(db[res.rnti], s.db[res.rnti], s.results[i], t);
  }

  // ---- A cell with one UE ----

  lemma {:induction false} NobodyServed(s: Sched, granted: set<Rnti>, order: seq<Rnti>, t: nat, phase: Phase)
    requires AllKnown(order, s.db.Keys) && s.db.Keys <= granted
    ensures ServeAll(s, granted, order, t, phase) == (s, granted)
    decreases |order|
  {
    if order != [] { NobodyServed(s, granted, order[1..], t, phase); }
  }

  lemma ListedOne(rnti: Rnti)
    ensures Listed({rnti}) == [rnti]
  {
    assert Least({rnti}) == rnti;
    assert {rnti} - {rnti} == {};
  }

  lemma {:induction false} AgedPending(db: map<Rnti, UeCtx>, rnti: Rnti, pid: nat)
    requires rnti in db && pid <= MAX_HARQ_PROCESSES
    ensures LowestPending(Aged(db)[rnti], pid) == LowestPending(db[rnti], pid)
    decreases MAX_HARQ_PROCESSES - pid
  {
    if pid < MAX_HARQ_PROCESSES { AgedPending(db, rnti, pid + 1); }
  }

  /** Whichever algorithm runs, a lone UE with a retransmission pending gets its lowest one, and nothing else, in
      this TTI. */
  lemma LoneRetransmission(p: Policy, db: map<Rnti, UeCtx>, offset: nat, t: nat, rnti: Rnti)
    requires Ranks(p) && db.Keys == {rnti} && Closed(db[rnti]) && LowestPending(db[rnti], 0) < MAX_HARQ_PROCESSES
    requires forall q :: 0 <= q < MAX_HARQ_PROCESSES && db[rnti].tb[q].valid ==> db[rnti].tb[q].nPrb <= p.totalPrb
    ensures var results := RunTti(p, db, offset, t).results;
            |results| == 1 && results[0].rnti == rnti && results[0].isRetx
              && results[0].grant.pid == LowestPending(db[rnti], 0)
  {
    var aged := if p.algorithm == Epf then Aged(db) else db;
    AgedPending(db, rnti, 0);
    ListedOne(rnti);
    ListedIsKnown(db.Keys);
    OneUeRetxIsPrompt(aged, p.totalPrb, rnti, t);
    var s := RetxAll(Started(aged, p.totalPrb), [rnti], t);
    assert s.results[0] in s.results && rnti in RntisOf(s.results);
    var order := if p.algorithm == RoundRobin then Rotated([rnti], offset) else p.ranking(db, t);
    match p.algorithm
    case RoundRobin => NobodyServed(s, RntisOf(s.results), order, t, RrNew);
    case ProportionalFair => NobodyServed(s, RntisOf(s.results), order, t, PfNew);
    case Epf =>
      NobodyServed(s, RntisOf(s.results), order, t, EpfGuard(p.starveTti, p.minPrb));
      NobodyServed(s, RntisOf(s.results), order, t, EpfNew);
  }
}
