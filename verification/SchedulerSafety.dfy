/** What one TTI of scheduling guarantees, for every algorithm and every order in which its metric ranks the UEs. */
module SchedulerSafety {
  import opened CommonTypes
  import opened Arithmetic
  import opened Scheduler

  // ---- PRB occupation ----

  predicate InGrant(g: UlGrant, k: nat) {
    g.prbStart <= k < g.prbStart + g.nPrb
  }

  predicate Occupied(results: seq<SchedResult>, k: nat) {
    exists i :: 0 <= i < |results| && InGrant(results[i].grant, k)
  }

  predicate Disjoint(g: UlGrant, h: UlGrant) {
    g.prbStart + g.nPrb <= h.prbStart || h.prbStart + h.nPrb <= g.prbStart
  }

  /** Grants are non-empty, inside the pool, pairwise disjoint, at most one per RNTI, and the pool marks exactly
      them. */
  predicate Packed(prb: seq<bool>, results: seq<SchedResult>) {
    && (forall i :: 0 <= i < |results| ==>
          && results[i].rnti == results[i].grant.rnti
          && results[i].grant.nPrb > 0 && results[i].grant.tbs > 0
          && results[i].grant.prbStart + results[i].grant.nPrb <= |prb|)
    && (forall i, j :: 0 <= i < j < |results| ==>
          results[i].rnti != results[j].rnti && Disjoint(results[i].grant, results[j].grant))
    && (forall k :: 0 <= k < |prb| ==> (prb[k] <==> Occupied(results, k)))
  }

  lemma RntisAppend(results: seq<SchedResult>, r: SchedResult)
    ensures RntisOf(results + [r]) == RntisOf(results) + {r.rnti}
  {
    assert forall q :: q in results + [r] <==> q in results || q == r;
  }

  lemma PackOne(prb: seq<bool>, results: seq<SchedResult>, r: SchedResult)
    requires Packed(prb, results) && r.rnti == r.grant.rnti && r.rnti !in RntisOf(results)
    requires r.grant.nPrb > 0 && r.grant.tbs > 0 && FreeRun(prb, r.grant.prbStart, r.grant.nPrb)
    ensures Packed(Mark(prb, r.grant.prbStart, r.grant.nPrb), results + [r])
  {
    var g := r.grant;
    var more := results + [r];
    forall i | 0 <= i < |results| ensures results[i].rnti != r.rnti && Disjoint(results[i].grant, g) {
      assert results[i] in results;
      var h := results[i].grant;
      var k := Max(h.prbStart, g.prbStart);
      assert InGrant(h, k) ==> Occupied(results, k);
    }
    forall k | 0 <= k < |prb| ensures Occupied(more, k) <==> Occupied(results, k) || InGrant(g, k) {
      if Occupied(results, k) {
        var i :| 0 <= i < |results| && InGrant(results[i].grant, k);
        assert more[i] == results[i];
      }
      assert more[|results|] == r;
      if Occupied(more, k) {
        var i :| 0 <= i < |more| && InGrant(more[i].grant, k);
        assert i < |results| ==> results[i] == more[i];
      }
    }
  }

  // ---- HARQ bookkeeping of one UE ----

  /** A pending retransmission belongs to a busy process with a recorded TB: the scheduler's drop guard never fires. */
  predicate Closed(c: UeCtx) {
    && c.totalUlBuffer == Sum(c.ulBuffer)
    && forall p :: 0 <= p < MAX_HARQ_PROCESSES ==>
         && (c.pendingRetx[p] ==> c.busy[p])
         && (c.busy[p] ==> c.tb[p].valid && c.tb[p].tbs > 0 && c.tb[p].nPrb > 0)
  }

  predicate SameHarq(c: UeCtx, d: UeCtx) {
    c.pendingRetx == d.pendingRetx && c.ndi == d.ndi && c.busy == d.busy && c.tb == d.tb
  }

  /** What a grant means for the UE's bookkeeping: a retransmission replays the recorded TB with an unchanged NDI; a new
      transmission takes an idle process, toggles its NDI and records the TB. Nothing else changes. */
  predicate GrantEffect(c: UeCtx, d: UeCtx, r: SchedResult, tti: nat) {
    var g := r.grant;
    && g.rnti == r.rnti && g.pid < MAX_HARQ_PROCESSES
    && g.tbs > 0 && g.ndiPresent && !g.isRar && g.ttiTx == tti
    && if r.isRetx then
         && c.pendingRetx[g.pid] && c.tb[g.pid] == TbInfo(g.tbs, g.mcs, g.nPrb, true)
         && g.ndi == c.ndi[g.pid] && g.rv == -1
         && d.pendingRetx == c.pendingRetx[g.pid := false]
         && d.ndi == c.ndi && d.busy == c.busy && d.tb == c.tb
       else
         && !c.busy[g.pid] && g.ndi == !c.ndi[g.pid] && g.rv == 0
         && d.ndi == c.ndi[g.pid := g.ndi] && d.busy == c.busy[g.pid := true]
         && d.tb == c.tb[g.pid := TbInfo(g.tbs, g.mcs, g.nPrb, true)]
         && d.pendingRetx == c.pendingRetx
  }

  lemma GrantEffectCloses(c: UeCtx, d: UeCtx, r: SchedResult, tti: nat)
    requires Closed(c) && GrantEffect(c, d, r, tti) && d.totalUlBuffer == Sum(d.ulBuffer) && r.grant.nPrb > 0
    ensures Closed(d)
  {
  }

  /** The bookkeeping after part of a TTI, against the contexts the TTI started from: every granted UE has exactly the
      effect of its grant, and every other UE's HARQ bookkeeping is untouched. */
  predicate Booked(db: map<Rnti, UeCtx>, now: map<Rnti, UeCtx>, results: seq<SchedResult>, tti: nat) {
    && now.Keys == db.Keys
    && (forall r :: r in now ==> now[r].totalUlBuffer == Sum(now[r].ulBuffer))
    && (forall i :: 0 <= i < |results| ==>
          results[i].rnti in db && GrantEffect(db[results[i].rnti], now[results[i].rnti], results[i], tti))
    && (forall r :: r in now && r !in RntisOf(results) ==> SameHarq(db[r], now[r]))
  }

  lemma BookOne(db: map<Rnti, UeCtx>, now: map<Rnti, UeCtx>, results: seq<SchedResult>, tti: nat, d: UeCtx,
                r: SchedResult)
    requires Booked(db, now, results, tti) && r.rnti in db && r.rnti !in RntisOf(results)
    requires GrantEffect(now[r.rnti], d, r, tti) && d.totalUlBuffer == Sum(d.ulBuffer)
    ensures Booked(db, now[r.rnti := d], results + [r], tti)
  {
    var (next, more) := (now[r.rnti := d], results + [r]);
    RntisAppend(results, r);
    assert SameHarq(db[r.rnti], now[r.rnti]);
    forall i | 0 <= i < |more|
      ensures more[i].rnti in db && GrantEffect(db[more[i].rnti], next[more[i].rnti], more[i], tti)
    {
      if i < |results| {
        assert results[i] in results;
      }
    }
  }

  predicate AllClosed(db: map<Rnti, UeCtx>) {
    forall r :: r in db ==> Closed(db[r])
  }

  predicate Sound(db: map<Rnti, UeCtx>, s: Sched, tti: nat) {
    Packed(s.prb, s.results) && Booked(db, s.db, s.results, tti)
  }

  lemma GrantOne(db: map<Rnti, UeCtx>, s: Sched, tti: nat, d: UeCtx, prb: seq<bool>, r: SchedResult)
    requires Sound(db, s, tti) && r.rnti in db && r.rnti !in RntisOf(s.results)
    requires FreeRun(s.prb, r.grant.prbStart, r.grant.nPrb) && prb == Mark(s.prb, r.grant.prbStart, r.grant.nPrb)
    requires GrantEffect(s.db[r.rnti], d, r, tti) && d.totalUlBuffer == Sum(d.ulBuffer) && r.grant.nPrb > 0
    ensures Sound(db, Sched(s.db[r.rnti := d], prb, s.results + [r]), tti)
    ensures RntisOf(s.results + [r]) == RntisOf(s.results) + {r.rnti}
  {
    PackOne(s.prb, s.results, r);
    BookOne(db, s.db, s.results, tti, d, r);
    RntisAppend(s.results, r);
  }

  /** A UE without a grant so far still has its bookkeeping closed. */
  lemma UntouchedIsClosed(db: map<Rnti, UeCtx>, s: Sched, tti: nat, rnti: Rnti)
    requires AllClosed(db) && Sound(db, s, tti) && rnti in db && rnti !in RntisOf(s.results)
    ensures rnti in s.db && Closed(s.db[rnti])
  {
    assert SameHarq(db[rnti], s.db[rnti]);
  }

  lemma NothingGuarded(c: UeCtx, below: nat)
    requires Closed(c)
    ensures Guarded(c, below) == c
  {
    var d := Guarded(c, below);
    assert d.pendingRetx == c.pendingRetx && d.busy == c.busy;
  }

  lemma RetxGrantFacts(c: UeCtx, prb: seq<bool>, rnti: Rnti, tti: nat, pid: nat)
    requires pid < MAX_HARQ_PROCESSES && Servable(c, prb, pid)
    ensures var (marked, g) := RetxGrant(c, prb, rnti, tti, pid);
            && g.tbs > 0 && g.nPrb > 0 && g.rnti == rnti
            && FreeRun(prb, g.prbStart, g.nPrb) && marked == Mark(prb, g.prbStart, g.nPrb)
            && GrantEffect(c, c.(pendingRetx := c.pendingRetx[pid := false], ttiSinceSched := 0),
                           SchedResult(rnti, g, true), tti)
  {
    FirstFitIsLeast(prb, c.tb[pid].nPrb, 0);
  }

  lemma RetxUeSound(db: map<Rnti, UeCtx>, s: Sched, rnti: Rnti, tti: nat)
    requires AllClosed(db) && Sound(db, s, tti) && rnti in db && rnti !in RntisOf(s.results)
    ensures Sound(db, RetxUe(s, rnti, tti), tti)
    ensures RntisOf(RetxUe(s, rnti, tti).results) <= RntisOf(s.results) + {rnti}
  {
    UntouchedIsClosed(db, s, tti, rnti);
    var c := s.db[rnti];
    var p := FirstServable(c, s.prb, 0);
    NothingGuarded(c, p);
    if p == MAX_HARQ_PROCESSES {
      assert s.db[rnti := c] == s.db;
    } else {
      RetxGrantFacts(c, s.prb, rnti, tti, p);
      var (prb, g) := RetxGrant(c, s.prb, rnti, tti, p);
      GrantOne(db, s, tti, c.(pendingRetx := c.pendingRetx[p := false], ttiSinceSched := 0), prb,
               SchedResult(rnti, g, true));
    }
  }

  predicate Distinct(rntis: seq<Rnti>) {
    forall i, j :: 0 <= i < j < |rntis| ==> rntis[i] != rntis[j]
  }

  /** Known UEs still to serve, none of them twice and none with a grant yet. */
  predicate Waiting(known: set<Rnti>, granted: set<Rnti>, todo: seq<Rnti>) {
    AllKnown(todo, known) && Distinct(todo) && forall i :: 0 <= i < |todo| ==> todo[i] !in granted
  }

  lemma OneServed(known: set<Rnti>, granted: set<Rnti>, todo: seq<Rnti>, more: set<Rnti>)
    requires Waiting(known, granted, todo) && todo != [] && more <= granted + {todo[0]}
    ensures Waiting(known, more, todo[1..])
  {
  }

  lemma {:induction false} RetxAllSound(db: map<Rnti, UeCtx>, s: Sched, rntis: seq<Rnti>, tti: nat)
    requires AllClosed(db) && Sound(db, s, tti) && Waiting(db.Keys, RntisOf(s.results), rntis)
    ensures Sound(db, RetxAll(s, rntis, tti), tti)
    decreases |rntis|
  {
    if rntis != [] {
      RetxUeSound(db, s, rntis[0], tti);
      OneServed(db.Keys, RntisOf(s.results), rntis, RntisOf(RetxUe(s, rntis[0], tti).results));
      RetxAllSound(db, RetxUe(s, rntis[0], tti), rntis[1..], tti);
    }
  }

  lemma NewTbFacts(c: UeCtx, prb: seq<bool>, rnti: Rnti, tti: nat, pid: nat, n: nat)
    requires pid < MAX_HARQ_PROCESSES && Closed(c) && !c.busy[pid]
    ensures var (start, marked) := PrbAlloc(prb, n);
            if start >= 0 && n > 0 then
              var (d, g) := NewTb(c, rnti, tti, pid, n, start);
              && FreeRun(prb, start, n) && marked == Mark(prb, start, n) && n > 0 && g.tbs > 0
              && GrantEffect(c, Committed(d, pid, g.tbs), SchedResult(rnti, g, false), tti)
            else marked == prb
  {
    FirstFitIsLeast(prb, n, 0);
    TbsMonotone(McsOf(c), n, McsOf(c), n);
  }

  lemma ServeSound(db: map<Rnti, UeCtx>, s: Sched, granted: set<Rnti>, rnti: Rnti, tti: nat, phase: Phase)
    requires AllClosed(db) && Sound(db, s, tti) && rnti in db && (rnti in RntisOf(s.results) ==> rnti in granted)
    ensures var (t, more) := Serve(s, granted, rnti, tti, phase);
            && Sound(db, t, tti)
            && RntisOf(t.results) <= RntisOf(s.results) + {rnti}
            && granted <= more
  {
    if rnti in s.db && rnti !in granted && Considered(s.db[rnti], phase) {
      UntouchedIsClosed(db, s, tti, rnti);
      var c := s.db[rnti];
      var pid := FirstFree(c.busy, 0);
      var n := Wanted(c, phase, |s.prb|);
      var (start, prb) := PrbAlloc(s.prb, n);
      if pid >= 0 {
        NewTbFacts(c, s.prb, rnti, tti, pid, n);
        if start >= 0 {
          var (c', g) := NewTb(c, rnti, tti, pid, n, start);
          var d := Committed(c', pid, g.tbs);
          GrantOne(db, s, tti, if IsEpf(phase) then d.(ttiSinceSched := 0) else d, prb, SchedResult(rnti, g, false));
        }
      }
    }
  }

  lemma {:induction false} ServeAllSound(db: map<Rnti, UeCtx>, s: Sched, granted: set<Rnti>, order: seq<Rnti>, tti: nat,
                                         phase: Phase)
    requires AllClosed(db) && Sound(db, s, tti) && AllKnown(order, db.Keys) && Distinct(order)
    requires forall i :: 0 <= i < |order| && order[i] in RntisOf(s.results) ==> order[i] in granted
    ensures Sound(db, ServeAll(s, granted, order, tti, phase).0, tti)
    decreases |order|
  {
    if order != [] {
      ServeSound(db, s, granted, order[0], tti, phase);
      var (t, more) := Serve(s, granted, order[0], tti, phase);
      ServeAllSound(db, t, more, order[1..], tti, phase);
    }
  }

  /** EPF keeps its set of granted UEs complete while it serves them. */
  lemma {:induction false} EpfRecordsGrants(s: Sched, granted: set<Rnti>, order: seq<Rnti>, tti: nat, phase: Phase)
    requires AllKnown(order, s.db.Keys) && RntisOf(s.results) <= granted && (IsEpf(phase))
    ensures var (t, more) := ServeAll(s, granted, order, tti, phase); RntisOf(t.results) <= more
    decreases |order|
  {
    if order != [] {
      var (t, more) := Serve(s, granted, order[0], tti, phase);
      if t.results != s.results { RntisAppend(s.results, t.results[|s.results|]); }
      EpfRecordsGrants(t, more, order[1..], tti, phase);
    }
  }

  lemma StartSound(db: map<Rnti, UeCtx>, totalPrb: nat, tti: nat)
    requires AllClosed(db)
    ensures Sound(db, Started(db, totalPrb), tti)
  {
  }

  /** PF under any ranking: the TTI's grants are packed and each has exactly its HARQ effect. */
  lemma PfIsSound(db: map<Rnti, UeCtx>, totalPrb: nat, rntis: seq<Rnti>, order: seq<Rnti>, tti: nat)
    requires AllClosed(db) && AllKnown(rntis, db.Keys) && AllKnown(order, db.Keys) && Distinct(rntis) && Distinct(order)
    ensures Sound(db, RunPf(db, totalPrb, rntis, order, tti), tti)
    ensures |RunPf(db, totalPrb, rntis, order, tti).prb| == totalPrb
  {
    StartSound(db, totalPrb, tti);
    RetxAllSound(db, Started(db, totalPrb), rntis, tti);
    var s := RetxAll(Started(db, totalPrb), rntis, tti);
    ServeAllSound(db, s, RntisOf(s.results), order, tti, PfNew);
  }

  lemma RotationIsDistinct(rntis: seq<Rnti>, offset: nat)
    requires Distinct(rntis)
    ensures Distinct(Rotated(rntis, offset))
  {
    var (n, order) := (|rntis|, Rotated(rntis, offset));
    forall i, j | 0 <= i < j < |order| ensures order[i] != order[j] {
      ModDiffers(offset + i, offset + j, n);
    }
  }

  lemma RrIsSound(db: map<Rnti, UeCtx>, totalPrb: nat, rntis: seq<Rnti>, offset: nat, tti: nat)
    requires AllClosed(db) && AllKnown(rntis, db.Keys) && Distinct(rntis)
    ensures Sound(db, RunRr(db, totalPrb, rntis, offset, tti), tti)
    ensures |RunRr(db, totalPrb, rntis, offset, tti).prb| == totalPrb
  {
    StartSound(db, totalPrb, tti);
    RetxAllSound(db, Started(db, totalPrb), rntis, tti);
    RotationIsDistinct(rntis, offset);
    var s := RetxAll(Started(db, totalPrb), rntis, tti);
    ServeAllSound(db, s, RntisOf(s.results), Rotated(rntis, offset), tti, RrNew);
  }

  /** EPF: the starvation guard and the metric phase together still give each UE at most one grant. Ageing the
      starvation counters touches no HARQ state. */
  lemma EpfIsSound(db: map<Rnti, UeCtx>, totalPrb: nat, rntis: seq<Rnti>, order: seq<Rnti>, tti: nat, starveTti: nat,
                   minPrb: nat)
    requires AllClosed(db) && AllKnown(rntis, db.Keys) && AllKnown(order, db.Keys) && Distinct(rntis) && Distinct(order)
    ensures Sound(db, RunEpf(db, totalPrb, rntis, order, tti, starveTti, minPrb), tti)
    ensures |RunEpf(db, totalPrb, rntis, order, tti, starveTti, minPrb).prb| == totalPrb
  {
    var aged := Aged(db);
    StartSound(aged, totalPrb, tti);
    RetxAllSound(aged, Started(aged, totalPrb), rntis, tti);
    var s := RetxAll(Started(aged, totalPrb), rntis, tti);
    ServeAllSound(aged, s, RntisOf(s.results), order, tti, EpfGuard(starveTti, minPrb));
    EpfRecordsGrants(s, RntisOf(s.results), order, tti, EpfGuard(starveTti, minPrb));
    var (s', granted) := ServeAll(s, RntisOf(s.results), order, tti, EpfGuard(starveTti, minPrb));
    ServeAllSound(aged, s', granted, order, tti, EpfNew);
    AgeingIsInvisible(db, RunEpf(db, totalPrb, rntis, order, tti, starveTti, minPrb), tti);
  }

  lemma AgeingIsInvisible(db: map<Rnti, UeCtx>, s: Sched, tti: nat)
    requires Sound(Aged(db), s, tti)
    ensures Sound(db, s, tti)
  {
    forall i | 0 <= i < |s.results|
      ensures GrantEffect(db[s.results[i].rnti], s.db[s.results[i].rnti], s.results[i], tti) {
      assert SameHarq(db[s.results[i].rnti], Aged(db)[s.results[i].rnti]);
    }
  }

  /** After a sound TTI the closed-loop bookkeeping invariant holds again. */
  lemma SoundCloses(db: map<Rnti, UeCtx>, s: Sched, tti: nat)
    requires AllClosed(db) && Sound(db, s, tti)
    ensures AllClosed(s.db)
  {
    forall r | r in s.db ensures Closed(s.db[r]) {
      if r in RntisOf(s.results) {
        var res :| res in s.results && res.rnti == r;
        var i :| 0 <= i < |s.results| && s.results[i] == res;
        GrantEffectCloses(db[r], s.db[r], s.results[i], tti);
      } else {
        assert SameHarq(db[r], s.db[r]);
      }
    }
  }

  predicate StrictlyAscending(rntis: seq<Rnti>) {
    forall i, j :: 0 <= i < j < |rntis| ==> rntis[i] < rntis[j]
  }

  lemma AscendingIsDistinct(rntis: seq<Rnti>)
    requires StrictlyAscending(rntis)
    ensures Distinct(rntis)
  {
  }

  /** The allocator is sound, complete and lowest-start. */
  lemma PrbAllocIsFirstFit(prb: seq<bool>, n: nat)
    ensures var (start, marked) := PrbAlloc(prb, n);
            && (start >= 0 ==> FreeRun(prb, start, n) && marked == Mark(prb, start, n))
            && (start >= 0 ==> forall s: nat :: s < start ==> !FreeRun(prb, s, n))
            && (start < 0 ==> start == -1 && marked == prb)
            && (start == -1 <==> n == 0 || n > |prb| || forall s: nat :: !FreeRun(prb, s, n))
  {
    FirstFitIsLeast(prb, n, 0);
  }

  lemma CeilingCovers(a: nat, b: nat)
    requires b > 0
    ensures DivUp(a, b) * b >= a
  {
  }

  // ---- Who is served first ----

  lemma {:induction false} AllFreeFits(totalPrb: nat, n: nat)
    requires 0 < n <= totalPrb
    ensures PrbAlloc(seq(totalPrb, _ => false), n).0 == 0
  {
    var prb := seq(totalPrb, _ => false);
    assert FreeRun(prb, 0, n);
  }

  function LowestPending(c: UeCtx, pid: nat): (p: nat)
    requires pid <= MAX_HARQ_PROCESSES
    ensures pid <= p <= MAX_HARQ_PROCESSES
    ensures p < MAX_HARQ_PROCESSES ==> c.pendingRetx[p]
    ensures forall q :: pid <= q < p ==> !c.pendingRetx[q]
    decreases MAX_HARQ_PROCESSES - pid
  {
    if pid == MAX_HARQ_PROCESSES || c.pendingRetx[pid] then pid else LowestPending(c, pid + 1)
  }

  lemma {:induction false} ServeAllKeepsResults(s: Sched, granted: set<Rnti>, order: seq<Rnti>, tti: nat, phase: Phase)
    requires AllKnown(order, s.db.Keys)
    ensures s.results <= ServeAll(s, granted, order, tti, phase).0.results
    decreases |order|
  {
    if order != [] {
      var (t, more) := Serve(s, granted, order[0], tti, phase);
      ServeAllKeepsResults(t, more, order[1..], tti, phase);
    }
  }

  lemma {:induction false} LowestPendingIsServed(c: UeCtx, prb: seq<bool>, pid: nat)
    requires pid <= MAX_HARQ_PROCESSES
    requires LowestPending(c, pid) < MAX_HARQ_PROCESSES ==> Servable(c, prb, LowestPending(c, pid))
    ensures FirstServable(c, prb, pid) == LowestPending(c, pid)
    decreases MAX_HARQ_PROCESSES - pid
  {
    if pid < MAX_HARQ_PROCESSES && !c.pendingRetx[pid] { LowestPendingIsServed(c, prb, pid + 1); }
  }

  /** In a cell with one UE, whichever algorithm runs, a TTI that starts with retransmissions pending serves the lowest
      pending process first, and that is the UE's only grant in the TTI. */
  lemma OneUeRetxIsPrompt(db: map<Rnti, UeCtx>, totalPrb: nat, rnti: Rnti, tti: nat)
    requires db.Keys == {rnti} && Closed(db[rnti])
    requires forall p :: 0 <= p < MAX_HARQ_PROCESSES && db[rnti].pendingRetx[p] ==> db[rnti].tb[p].nPrb <= totalPrb
    requires LowestPending(db[rnti], 0) < MAX_HARQ_PROCESSES
    ensures var s := RetxAll(Started(db, totalPrb), [rnti], tti);
            |s.results| == 1 && s.results[0].rnti == rnti && s.results[0].isRetx
            && s.results[0].grant.pid == LowestPending(db[rnti], 0)
  {
    var s := Started(db, totalPrb);
    AllFreeFits(totalPrb, db[rnti].tb[LowestPending(db[rnti], 0)].nPrb);
    LowestPendingIsServed(db[rnti], s.prb, 0);
    assert RetxAll(RetxUe(s, rnti, tti), [rnti][1..], tti) == RetxUe(s, rnti, tti);
  }

  lemma RetxUeOutcome(s: Sched, rnti: Rnti, tti: nat)
    requires AllClosed(s.db) && rnti in s.db
    ensures AllClosed(RetxUe(s, rnti, tti).db)
    ensures s.results <= RetxUe(s, rnti, tti).results
    ensures RetxUe(s, rnti, tti).results == s.results ==> RetxUe(s, rnti, tti) == s
  {
    var c := s.db[rnti];
    NothingGuarded(c, FirstServable(c, s.prb, 0));
    assert s.db[rnti := c] == s.db;
  }

  lemma {:induction false} RetxAllOutcome(s: Sched, rntis: seq<Rnti>, tti: nat)
    requires AllClosed(s.db) && AllKnown(rntis, s.db.Keys)
    ensures s.results <= RetxAll(s, rntis, tti).results
    ensures RetxAll(s, rntis, tti).results == s.results ==> RetxAll(s, rntis, tti) == s
    decreases |rntis|
  {
    if rntis != [] {
      RetxUeOutcome(s, rntis[0], tti);
      RetxAllOutcome(RetxUe(s, rntis[0], tti), rntis[1..], tti);
    }
  }

  lemma FirstServed(s: Sched, rnti: Rnti, tti: nat)
    requires rnti in s.db && s.prb == seq(|s.prb|, _ => false) && |s.prb| > 0
    requires Wants(s.db[rnti]) && FirstFree(s.db[rnti].busy, 0) >= 0
    ensures var (t, _) := Serve(s, {}, rnti, tti, RrNew);
            && |t.results| == |s.results| + 1 && s.results <= t.results
            && t.results[|s.results|].rnti == rnti && !t.results[|s.results|].isRetx
  {
    var c := s.db[rnti];
    var n := Wanted(c, RrNew, |s.prb|);
    CeilingCovers(Demand(c), Max(Tbs(McsOf(c), 1), 1));
    AllFreeFits(|s.prb|, n);
    TbsMonotone(McsOf(c), n, McsOf(c), n);
  }

  /** The head of the round-robin order gets the TTI's first grant when it has demand and a free process and no
      retransmission was granted. */
  lemma RrHeadIsGranted(db: map<Rnti, UeCtx>, totalPrb: nat, rntis: seq<Rnti>, offset: nat, tti: nat)
    requires AllClosed(db) && AllKnown(rntis, db.Keys) && Distinct(rntis) && rntis != [] && totalPrb > 0
    requires RetxAll(Started(db, totalPrb), rntis, tti).results == []
    requires Wants(db[rntis[offset % |rntis|]]) && FirstFree(db[rntis[offset % |rntis|]].busy, 0) >= 0
    ensures var results := RunRr(db, totalPrb, rntis, offset, tti).results;
            |results| > 0 && results[0].rnti == rntis[offset % |rntis|] && !results[0].isRetx
  {
    var s := Started(db, totalPrb);
    RetxAllOutcome(s, rntis, tti);
    var order := Rotated(rntis, offset);
    FirstServed(s, order[0], tti);
    var (t, more) := Serve(s, {}, order[0], tti, RrNew);
    ServeAllKeepsResults(t, more, order[1..], tti, RrNew);
    assert RntisOf(s.results) == {};
  }

  // ---- Round-robin rotation over many TTIs ----

  const OFFSET_SPAN: nat := 0x1_0000_0000

  /** Who heads the order after `t` further TTIs; the offset is a 32-bit counter. */
  function HeadIndex(offset: nat, t: nat, n: nat): nat
    requires n > 0
  {
    ((offset + t) % OFFSET_SPAN) % n
  }

  lemma HeadWithoutWrap(offset: nat, t: nat, n: nat)
    requires n > 0 && offset + t < OFFSET_SPAN
    ensures HeadIndex(offset, t, n) == (offset + t) % n
  {
    DivModUnique(offset + t, OFFSET_SPAN, 0, offset + t);
  }

  lemma ResidueReached(offset: nat, n: nat, u: nat) returns (t: nat)
    requires u < n
    ensures t < n && (offset + t) % n == u
  {
    var q, r := offset / n, offset % n;
    if u >= r {
      t := u - r;
      DivModUnique(offset + t, n, q, u);
    } else {
      t := u + n - r;
      assert offset + t == (q + 1) * n + u;
      DivModUnique(offset + t, n, q + 1, u);
    }
  }

  /** A window of n TTIs is fair when the 32-bit offset does not wrap inside it, or when n divides the counter's
      span. */
  predicate FairWindow(offset: nat, n: nat)
    requires n > 0
  {
    offset + n <= OFFSET_SPAN || OFFSET_SPAN % n == 0
  }

  lemma HeadInFairWindow(offset: nat, t: nat, n: nat)
    requires n > 0 && offset < OFFSET_SPAN && t < n <= OFFSET_SPAN && FairWindow(offset, n)
    ensures HeadIndex(offset, t, n) == (offset + t) % n
  {
    if offset + t < OFFSET_SPAN {
      HeadWithoutWrap(offset, t, n);
    } else {
      var late := offset + t - OFFSET_SPAN;
      var (span, q) := (OFFSET_SPAN / n, late / n);
      DivModUnique(offset + t, OFFSET_SPAN, 1, late);
      assert OFFSET_SPAN == span * n && late == q * n + late % n;
      assert offset + t == (span + q) * n + late % n;
      DivModUnique(offset + t, n, span + q, late % n);
    }
  }

  /** In a fair window of n TTIs each of the n UEs heads the order exactly once. */
  lemma EachHeadsExactlyOnce(offset: nat, n: nat, u: nat) returns (t: nat)
    requires 0 < n <= OFFSET_SPAN && u < n && offset < OFFSET_SPAN && FairWindow(offset, n)
    ensures t < n && HeadIndex(offset, t, n) == u
    ensures forall t' :: 0 <= t' < n && t' != t ==> HeadIndex(offset, t', n) != u
  {
    t := ResidueReached(offset, n, u);
    HeadInFairWindow(offset, t, n);
    forall t' | 0 <= t' < n && t' != t ensures HeadIndex(offset, t', n) != u {
      HeadInFairWindow(offset, t', n);
      ModDiffers(offset + Min(t, t'), offset + Max(t, t'), n);
    }
  }

  /** In every other window some UE heads the order twice, so another one not at all: with three UEs the first UE heads
      it in two TTIs running when the offset wraps. */
  lemma WrapRepeatsAHead(offset: nat, n: nat) returns (t: nat, t': nat)
    requires 0 < n <= OFFSET_SPAN && offset < OFFSET_SPAN && !FairWindow(offset, n)
    ensures t < t' < n && HeadIndex(offset, t, n) == HeadIndex(offset, t', n)
    ensures HeadIndex(OFFSET_SPAN - 1, 0, 3) == HeadIndex(OFFSET_SPAN - 1, 1, 3) == 0
  {
    var (k, m, span) := (OFFSET_SPAN - offset, OFFSET_SPAN % n, OFFSET_SPAN / n);
    assert OFFSET_SPAN == span * n + m;
    if k >= m {
      t, t' := k - m, k;
      HeadWithoutWrap(offset, t, n);
      DivModUnique(offset + t, n, span, 0);
      DivModUnique(offset + t', OFFSET_SPAN, 1, 0);
    } else {
      t, t' := 0, m;
      HeadWithoutWrap(offset, t, n);
      DivModUnique(offset, n, span, m - k);
      DivModUnique(offset + t', OFFSET_SPAN, 1, m - k);
      DivModUnique(m - k, n, 0, m - k);
    }
  }
}
