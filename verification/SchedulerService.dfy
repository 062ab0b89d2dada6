/** Who is granted: for every phase of a TTI, exactly which UEs get a grant, in terms of what they need and of the
    PRBs that the grants before them have left free. */
module SchedulerService {
  import opened CommonTypes
  import opened Scheduler
  import opened SchedulerSafety

  // ---- PRBs left when a UE's turn comes ----

  /** PRB k went to one of the first `first` grants of the TTI, or to a UE whose turn came earlier. */
  predicate TakenBefore(results: seq<SchedResult>, first: nat, early: seq<Rnti>, k: nat) {
    exists j :: 0 <= j < |results| && (j < first || results[j].rnti in early) && InGrant(results[j].grant, k)
  }

  predicate FreeAt(results: seq<SchedResult>, first: nat, early: seq<Rnti>, totalPrb: nat, n: nat, start: nat) {
    start + n <= totalPrb && forall k :: start <= k < start + n ==> !TakenBefore(results, first, early, k)
  }

  /** n adjacent PRBs are still free. */
  ghost predicate Room(results: seq<SchedResult>, first: nat, early: seq<Rnti>, totalPrb: nat, n: nat) {
    exists start: nat :: FreeAt(results, first, early, totalPrb, n, start)
  }

  predicate HasIdle(c: UeCtx) {
    exists p :: 0 <= p < MAX_HARQ_PROCESSES && !c.busy[p]
  }

  predicate HasGrant(results: seq<SchedResult>, from: nat, r: Rnti) {
    exists j :: from <= j < |results| && results[j].rnti == r
  }

  lemma RoomIsFree(prb: seq<bool>, now: seq<SchedResult>, results: seq<SchedResult>, first: nat, early: seq<Rnti>,
                   n: nat)
    requires Packed(prb, now) && now <= results && first <= |now|
    requires forall j :: first <= j < |now| ==> results[j].rnti in early
    requires forall j :: |now| <= j < |results| ==> results[j].rnti !in early
    ensures Room(results, first, early, |prb|, n) <==> exists start: nat :: FreeRun(prb, start, n)
  {
    forall k | 0 <= k < |prb| ensures prb[k] <==> TakenBefore(results, first, early, k) {
      TakenIsOccupied(now, results, first, early, k);
    }
    if start: nat :| FreeRun(prb, start, n) {
      assert FreeAt(results, first, early, |prb|, n, start);
    }
    if start: nat :| FreeAt(results, first, early, |prb|, n, start) {
      assert FreeRun(prb, start, n);
    }
  }

  lemma TakenIsOccupied(now: seq<SchedResult>, results: seq<SchedResult>, first: nat, early: seq<Rnti>, k: nat)
    requires now <= results && first <= |now|
    requires forall j :: first <= j < |now| ==> results[j].rnti in early
    requires forall j :: |now| <= j < |results| ==> results[j].rnti !in early
    ensures TakenBefore(results, first, early, k) <==> Occupied(now, k)
  {
    if TakenBefore(results, first, early, k) {
      var j :| 0 <= j < |results| && (j < first || results[j].rnti in early) && InGrant(results[j].grant, k);
      assert now[j] == results[j];
    }
    if Occupied(now, k) {
      var j :| 0 <= j < |now| && InGrant(now[j].grant, k);
      assert results[j] == now[j];
    }
  }

  // ---- What any phase does ----

  /** A phase granted UEs of `order` only, all of one kind, and left the context of everybody without a grant as it
      was. */
  ghost predicate Adds(s: Sched, order: seq<Rnti>, s': Sched, retx: bool) {
    && s.results <= s'.results && s'.db.Keys == s.db.Keys && |s'.prb| == |s.prb|
    && (forall j :: |s.results| <= j < |s'.results| ==> s'.results[j].rnti in order && s'.results[j].isRetx == retx)
    && (forall r :: r in s.db && !HasGrant(s'.results, |s.results|, r) ==> s'.db[r] == s.db[r])
  }

  lemma AddsMore(s: Sched, a: seq<Rnti>, s1: Sched, b: seq<Rnti>, s2: Sched, retx: bool)
    requires Adds(s, a, s1, retx) && Adds(s1, b, s2, retx)
    ensures Adds(s, a + b, s2, retx)
  {
    forall j | |s.results| <= j < |s2.results| ensures s2.results[j].rnti in a + b && s2.results[j].isRetx == retx {
      if j < |s1.results| { assert s2.results[j] == s1.results[j]; }
    }
    forall r | r in s.db && !HasGrant(s2.results, |s.results|, r) ensures s2.db[r] == s.db[r] {
      assert forall j :: 0 <= j < |s1.results| ==> s2.results[j] == s1.results[j];
      assert !HasGrant(s1.results, |s.results|, r) && !HasGrant(s2.results, |s1.results|, r);
    }
  }

  /** `early` are the UEs ranked before r, `later` are r and those behind it. */
  ghost predicate Ranked(early: seq<Rnti>, r: Rnti, later: seq<Rnti>) {
    later != [] && later[0] == r && r !in early && Distinct(later) && forall q :: q in later ==> q !in early
  }

  lemma OrderSplits(order: seq<Rnti>, i: nat)
    requires Distinct(order) && i < |order|
    ensures Ranked(order[..i], order[i], order[i..])
    ensures order[i..] == [order[i]] + order[i + 1..] && order[i] !in order[i + 1..]
  {
  }

  lemma PartsKnown(order: seq<Rnti>, i: nat, known: set<Rnti>)
    requires AllKnown(order, known) && Distinct(order) && i <= |order|
    ensures AllKnown(order[..i], known) && AllKnown(order[i..], known) && Distinct(order[..i])
  {
  }

  lemma TailSplits(order: seq<Rnti>, i: nat)
    requires 0 < i <= |order|
    ensures order[..i][0] == order[0] && order[..i][1..] == order[1..][..i - 1] && order[1..][i - 1..] == order[i..]
  {
  }

  /** The phase when r's turn comes: its context is as before, and the grants so far went to UEs ranked before it. */
  ghost predicate Reached(s: Sched, s1: Sched, results: seq<SchedResult>, early: seq<Rnti>, r: Rnti) {
    && Packed(s1.prb, s1.results) && |s1.prb| == |s.prb| && r in s.db && r in s1.db && s1.db[r] == s.db[r]
      && r !in early
    && s.results <= s1.results <= results
    && (forall j :: |s.results| <= j < |s1.results| ==> s1.results[j].rnti in early)
    && (forall j :: |s1.results| <= j < |results| ==> results[j].rnti !in early)
  }

  lemma ReachedBy(s: Sched, early: seq<Rnti>, s1: Sched, r: Rnti, later: seq<Rnti>, s2: Sched, retx: bool)
    requires Ranked(early, r, later) && r in s.db && Packed(s1.prb, s1.results)
    requires Adds(s, early, s1, retx) && Adds(s1, later, s2, retx)
    ensures Reached(s, s1, s2.results, early, r)
  {
    assert !HasGrant(s1.results, |s.results|, r);
  }

  lemma RoomAt(s: Sched, s1: Sched, results: seq<SchedResult>, early: seq<Rnti>, r: Rnti, n: nat)
    requires Reached(s, s1, results, early, r)
    ensures Room(results, |s.results|, early, |s1.prb|, n) <==> exists start: nat :: FreeRun(s1.prb, start, n)
  {
    assert forall j :: 0 <= j < |s1.results| ==> results[j] == s1.results[j];
    RoomIsFree(s1.prb, s1.results, results, |s.results|, early, n);
  }

  lemma GrantedLater(s: Sched, s1: Sched, results: seq<SchedResult>, early: seq<Rnti>, r: Rnti)
    requires Reached(s, s1, results, early, r)
    ensures HasGrant(results, |s.results|, r) <==> HasGrant(results, |s1.results|, r)
  {
    assert forall j :: 0 <= j < |s1.results| ==> s1.results[j] == results[j];
  }

  // ---- The retransmission phase ----

  lemma {:induction false} LeastServable(c: UeCtx, prb: seq<bool>, pid: nat)
    requires pid <= MAX_HARQ_PROCESSES
    ensures forall q :: pid <= q < FirstServable(c, prb, pid) ==> !Servable(c, prb, q)
    decreases MAX_HARQ_PROCESSES - pid
  {
    if pid < MAX_HARQ_PROCESSES && !Servable(c, prb, pid) { LeastServable(c, prb, pid + 1); }
  }

  /** Process p awaits a retransmission, and the PRBs of its TB are free. */
  ghost predicate CanResend(c: UeCtx, prb: seq<bool>, p: nat)
    requires p < MAX_HARQ_PROCESSES
  {
    c.pendingRetx[p] && exists start: nat :: FreeRun(prb, start, c.tb[p].nPrb)
  }

  lemma ServableMeans(c: UeCtx, prb: seq<bool>, p: nat)
    requires Closed(c) && p < MAX_HARQ_PROCESSES
    ensures Servable(c, prb, p) <==> CanResend(c, prb, p)
  {
    PrbAllocIsFirstFit(prb, c.tb[p].nPrb);
  }

  /** Of the processes of the UE, p is the lowest that can be resent now. */
  ghost predicate Lowest(c: UeCtx, prb: seq<bool>, p: nat)
    requires p < MAX_HARQ_PROCESSES
  {
    CanResend(c, prb, p) && forall q: nat :: q < p ==> !CanResend(c, prb, q)
  }

  /** A UE's turn: it gets the lowest process that it can resend now, or nothing happens. */
  lemma RetxTurn(s: Sched, r: Rnti, t: nat)
    requires r in s.db && Closed(s.db[r])
    ensures Adds(s, [r], RetxUe(s, r, t), true) && |RetxUe(s, r, t).results| <= |s.results| + 1
    ensures forall p: nat :: p < MAX_HARQ_PROCESSES ==>
              (Lowest(s.db[r], s.prb, p) <==>
               (RetxUe(s, r, t).results != s.results && RetxUe(s, r, t).results[|s.results|].grant.pid == p))
  {
    var c := s.db[r];
    var p := FirstServable(c, s.prb, 0);
    LeastServable(c, s.prb, 0);
    NothingGuarded(c, p);
    assert s.db[r := c] == s.db;
    forall q: nat | q < MAX_HARQ_PROCESSES ensures Servable(c, s.prb, q) <==> CanResend(c, s.prb, q) {
      ServableMeans(c, s.prb, q);
    }
    if p < MAX_HARQ_PROCESSES { assert RetxUe(s, r, t).results[|s.results|].rnti == r; }
  }

  predicate ClosedAll(db: map<Rnti, UeCtx>, rntis: seq<Rnti>) {
    forall r <- rntis :: r in db && Closed(db[r])
  }

  lemma {:induction false} RetxAllAdds(s: Sched, rntis: seq<Rnti>, t: nat)
    requires AllKnown(rntis, s.db.Keys) && Distinct(rntis) && ClosedAll(s.db, rntis)
    ensures Adds(s, rntis, RetxAll(s, rntis, t), true)
    decreases |rntis|
  {
    if rntis != [] {
      var s1 := RetxUe(s, rntis[0], t);
      OrderSplits(rntis, 0);
      RetxTurn(s, rntis[0], t);
      OthersStayClosed(s, rntis[0], s1, rntis[1..]);
      RetxAllAdds(s1, rntis[1..], t);
      AddsMore(s, [rntis[0]], s1, rntis[1..], RetxAll(s1, rntis[1..], t), true);
      assert [rntis[0]] + rntis[1..] == rntis;
    }
  }

  lemma OthersStayClosed(s: Sched, r: Rnti, s1: Sched, rest: seq<Rnti>)
    requires Adds(s, [r], s1, true) && r !in rest && ClosedAll(s.db, rest)
    ensures ClosedAll(s1.db, rest)
  {
    forall q <- rest ensures q in s1.db && Closed(s1.db[q]) {
      assert !HasGrant(s1.results, |s.results|, q);
    }
  }

  lemma {:induction false} RetxAllSplits(s: Sched, rntis: seq<Rnti>, t: nat, i: nat)
    requires AllKnown(rntis, s.db.Keys) && i <= |rntis|
    ensures AllKnown(rntis[i..], RetxAll(s, rntis[..i], t).db.Keys)
    ensures RetxAll(s, rntis, t) == RetxAll(RetxAll(s, rntis[..i], t), rntis[i..], t)
    decreases i
  {
    if i == 0 {
      assert rntis[..0] == [] && rntis[0..] == rntis;
    } else {
      TailSplits(rntis, i);
      RetxAllSplits(RetxUe(s, rntis[0], t), rntis[1..], t, i - 1);
    }
  }

  /** r is granted process p, counting the grants from number `from` on. */
  predicate GrantedPid(results: seq<SchedResult>, from: nat, r: Rnti, p: nat) {
    exists j :: from <= j < |results| && results[j].rnti == r && results[j].grant.pid == p
  }

  /** Process p of the UE awaits a retransmission, and finds its PRBs beside those of the UEs before it. */
  ghost predicate Resends(c: UeCtx, results: seq<SchedResult>, early: seq<Rnti>, totalPrb: nat, p: nat)
    requires p < MAX_HARQ_PROCESSES
  {
    c.pendingRetx[p] && Room(results, 0, early, totalPrb, c.tb[p].nPrb)
  }

  /** UEs served afterwards do not change which process r has been granted. */
  lemma GrantStays(s: Sched, r: Rnti, s1: Sched, rest: seq<Rnti>, s2: Sched, p: nat)
    requires Adds(s, [r], s1, true) && |s1.results| <= |s.results| + 1 && Adds(s1, rest, s2, true) && r !in rest
    ensures GrantedPid(s2.results, |s.results|, r, p) <==>
            (s1.results != s.results && s1.results[|s.results|].grant.pid == p)
  {
    assert forall j :: 0 <= j < |s1.results| ==> s2.results[j] == s1.results[j];
    if s1.results != s.results { assert s2.results[|s.results|].rnti in [r]; }
  }

  lemma RetxInTurn(s: Sched, r: Rnti, rest: seq<Rnti>, s1: Sched, t: nat, p: nat)
    requires r in s.db && r !in rest && Distinct(rest) && Closed(s.db[r]) && ClosedAll(s.db, rest)
    requires AllKnown(rest, s.db.Keys) && p < MAX_HARQ_PROCESSES && s1 == RetxUe(s, r, t)
    ensures GrantedPid(RetxAll(s1, rest, t).results, |s.results|, r, p) <==> Lowest(s.db[r], s.prb, p)
  {
    RetxTurn(s, r, t);
    OthersStayClosed(s, r, s1, rest);
    RetxAllAdds(s1, rest, t);
    GrantStays(s, r, s1, rest, RetxAll(s1, rest, t), p);
  }

  /** Exactly when UE r, after the UEs `early`, is granted its process p. */
  ghost predicate ResendsLowest(c: UeCtx, results: seq<SchedResult>, early: seq<Rnti>, totalPrb: nat, p: nat)
    requires p < MAX_HARQ_PROCESSES
  {
    Resends(c, results, early, totalPrb, p) && forall q: nat :: q < p ==> !Resends(c, results, early, totalPrb, q)
  }

  lemma LowestIsResent(s: Sched, s1: Sched, results: seq<SchedResult>, early: seq<Rnti>, r: Rnti, p: nat)
    requires s.results == [] && Reached(s, s1, results, early, r) && p < MAX_HARQ_PROCESSES
    ensures Lowest(s1.db[r], s1.prb, p) <==> ResendsLowest(s.db[r], results, early, |s.prb|, p)
    ensures GrantedPid(results, 0, r, p) <==> GrantedPid(results, |s1.results|, r, p)
  {
    forall q: nat | q < MAX_HARQ_PROCESSES
      ensures CanResend(s1.db[r], s1.prb, q) <==> Resends(s.db[r], results, early, |s.prb|, q) {
      RoomAt(s, s1, results, early, r, s.db[r].tb[q].nPrb);
    }
    assert forall j :: 0 <= j < |s1.results| ==> results[j] == s1.results[j];
  }

  lemma RetxUntil(db: map<Rnti, UeCtx>, s: Sched, early: seq<Rnti>, later: seq<Rnti>, r: Rnti, t: nat)
    requires AllClosed(db) && s == Started(db, |s.prb|) && AllKnown(early, db.Keys) && AllKnown(later, db.Keys)
    requires Distinct(early) && Ranked(early, r, later)
    ensures var s1 := RetxAll(s, early, t);
            ClosedAll(s1.db, later) && Reached(s, s1, RetxAll(s1, later, t).results, early, r)
  {
    var s1 := RetxAll(s, early, t);
    StartSound(db, |s.prb|, t);
    RetxAllSound(db, s, early, t);
    SoundCloses(db, s1, t);
    RetxAllAdds(s, early, t);
    RetxAllAdds(s1, later, t);
    ReachedBy(s, early, s1, r, later, RetxAll(s1, later, t), true);
  }

  lemma RetxDecides(db: map<Rnti, UeCtx>, s: Sched, early: seq<Rnti>, s1: Sched, r: Rnti, later: seq<Rnti>, t: nat,
                    p: nat)
    requires AllClosed(db) && s == Started(db, |s.prb|) && AllKnown(early, db.Keys) && AllKnown(later, db.Keys)
    requires Distinct(early) && Ranked(early, r, later) && p < MAX_HARQ_PROCESSES && s1 == RetxAll(s, early, t)
    ensures var results := RetxAll(s1, later, t).results;
            GrantedPid(results, 0, r, p) <==> ResendsLowest(db[r], results, early, |s.prb|, p)
  {
    RetxUntil(db, s, early, later, r, t);
    OrderSplits(later, 0);
    RetxInTurn(s1, r, later[1..], RetxUe(s1, r, t), t, p);
    LowestIsResent(s, s1, RetxAll(s1, later, t).results, early, r, p);
  }

  lemma SplitResends(db: map<Rnti, UeCtx>, s: Sched, rntis: seq<Rnti>, t: nat, i: nat, early: seq<Rnti>,
                     later: seq<Rnti>, p: nat)
    requires AllClosed(db) && s == Started(db, |s.prb|) && AllKnown(rntis, db.Keys) && Distinct(rntis)
    requires i < |rntis| && early == rntis[..i] && later == rntis[i..] && p < MAX_HARQ_PROCESSES
    ensures var results := RetxAll(s, rntis, t).results;
            GrantedPid(results, 0, rntis[i], p) <==> ResendsLowest(db[rntis[i]], results, early, |s.prb|, p)
  {
    OrderSplits(rntis, i);
    PartsKnown(rntis, i, db.Keys);
    RetxAllSplits(s, rntis, t, i);
    RetxDecides(db, s, early, RetxAll(s, early, t), rntis[i], later, t, p);
  }

  /** Exactly which retransmissions a TTI issues: UE rntis[i] is granted its process p if and only if p awaits a
      retransmission and finds its PRBs beside those of the UEs before it in the list, and no lower process of the UE
      does. */
  lemma RetxServes(db: map<Rnti, UeCtx>, totalPrb: nat, rntis: seq<Rnti>, t: nat, i: nat, p: nat)
    requires AllClosed(db) && AllKnown(rntis, db.Keys) && Distinct(rntis) && i < |rntis| && p < MAX_HARQ_PROCESSES
    ensures var (results, c, early) := (RetxAll(Started(db, totalPrb), rntis, t).results, db[rntis[i]], rntis[..i]);
            GrantedPid(results, 0, rntis[i], p) <==>
              (Resends(c, results, early, totalPrb, p)
               && forall q: nat :: q < p ==> !Resends(c, results, early, totalPrb, q))
  {
    SplitResends(db, Started(db, totalPrb), rntis, t, i, rntis[..i], rntis[i..], p);
  }

  // ---- A new-transmission phase ----

  lemma ServeAdds(s: Sched, granted: set<Rnti>, r: Rnti, t: nat, phase: Phase)
    requires r in s.db
    ensures Adds(s, [r], Serve(s, granted, r, t, phase).0, false)
  {
    var (s', n) := (Serve(s, granted, r, t, phase).0, Wanted(s.db[r], phase, |s.prb|));
    TbsMonotone(McsOf(s.db[r]), n, McsOf(s.db[r]), n);
    PrbAllocIsFirstFit(s.prb, n);
    if |s'.results| > |s.results| { assert s'.results[|s.results|].rnti == r; }
  }

  /** What a phase has done, and whom it has recorded as granted. */
  ghost predicate Extends(s: Sched, granted: set<Rnti>, order: seq<Rnti>, s': Sched, granted': set<Rnti>) {
    Adds(s, order, s', false) && forall r :: r !in order ==> (r in granted' <==> r in granted)
  }

  lemma ServeExtends(s: Sched, granted: set<Rnti>, r: Rnti, t: nat, phase: Phase)
    requires r in s.db
    ensures Extends(s, granted, [r], Serve(s, granted, r, t, phase).0, Serve(s, granted, r, t, phase).1)
  {
    ServeAdds(s, granted, r, t, phase);
  }

  lemma ExtendsMore(s: Sched, granted: set<Rnti>, a: seq<Rnti>, s1: Sched, granted1: set<Rnti>, b: seq<Rnti>, s2: Sched,
                    granted2: set<Rnti>)
    requires Extends(s, granted, a, s1, granted1) && Extends(s1, granted1, b, s2, granted2)
    ensures Extends(s, granted, a + b, s2, granted2)
  {
    AddsMore(s, a, s1, b, s2, false);
  }

  lemma {:induction false} ServeAllExtends(s: Sched, granted: set<Rnti>, order: seq<Rnti>, t: nat, phase: Phase)
    requires AllKnown(order, s.db.Keys)
    ensures Extends(s, granted, order, ServeAll(s, granted, order, t, phase).0, ServeAll(s, granted, order, t, phase).1)
    decreases |order|
  {
    if order != [] {
      var (s1, granted1) := Serve(s, granted, order[0], t, phase);
      ServeExtends(s, granted, order[0], t, phase);
      ServeAllExtends(s1, granted1, order[1..], t, phase);
      var (s2, granted2) := ServeAll(s1, granted1, order[1..], t, phase);
      ExtendsMore(s, granted, [order[0]], s1, granted1, order[1..], s2, granted2);
      assert [order[0]] + order[1..] == order;
    }
  }

  lemma {:induction false} ServeAllSplits(s: Sched, granted: set<Rnti>, order: seq<Rnti>, t: nat, phase: Phase, i: nat)
    requires AllKnown(order, s.db.Keys) && i <= |order|
    ensures var (s1, granted1) := ServeAll(s, granted, order[..i], t, phase);
            && AllKnown(order[i..], s1.db.Keys)
            && ServeAll(s, granted, order, t, phase) == ServeAll(s1, granted1, order[i..], t, phase)
    decreases i
  {
    if i == 0 {
      assert order[..0] == [] && order[0..] == order;
    } else {
      var (s1, granted1) := Serve(s, granted, order[0], t, phase);
      TailSplits(order, i);
      ServeAllSplits(s1, granted1, order[1..], t, phase, i - 1);
    }
  }

  /** A UE's turn: it is granted exactly when it needs to be, has an idle process, and its PRBs fit. */
  lemma Turn(s: Sched, granted: set<Rnti>, r: Rnti, t: nat, phase: Phase)
    requires r in s.db
    ensures var (c, s') := (s.db[r], Serve(s, granted, r, t, phase).0);
            && |s'.results| <= |s.results| + 1
            && (|s'.results| == |s.results| + 1 ==> s'.results[|s.results|].rnti == r)
            && (|s'.results| == |s.results| + 1 <==>
                && r !in granted && (c.totalUlBuffer > 0 || c.srPending)
                && (phase.EpfGuard? ==> c.ttiSinceSched > phase.starveTti)
                && HasIdle(c) && |s.prb| > 0 && exists start: nat :: FreeRun(s.prb, start, Wanted(c, phase, |s.prb|)))
  {
    var c := s.db[r];
    var n := Wanted(c, phase, |s.prb|);
    IdleIsFound(c);
    WantedInRange(c, phase, |s.prb|);
    PrbAllocIsFirstFit(s.prb, n);
    TbsMonotone(McsOf(c), n, McsOf(c), n);
  }

  lemma IdleIsFound(c: UeCtx)
    ensures HasIdle(c) <==> FirstFree(c.busy, 0) >= 0
  {
    if FirstFree(c.busy, 0) >= 0 { assert !c.busy[FirstFree(c.busy, 0)]; }
  }

  lemma WantedInRange(c: UeCtx, phase: Phase, totalPrb: nat)
    ensures Wanted(c, phase, totalPrb) <= totalPrb && (totalPrb > 0 <==> Wanted(c, phase, totalPrb) > 0)
  {
    CeilingCovers(Demand(c), Max(Tbs(McsOf(c), 1), 1));
  }

  /** A phase about to serve the UEs of `order`. */
  ghost predicate Opens(db: map<Rnti, UeCtx>, s: Sched, granted: set<Rnti>, order: seq<Rnti>, t: nat) {
    AllClosed(db) && Sound(db, s, t) && AllKnown(order, db.Keys) && Distinct(order) && granted == RntisOf(s.results)
  }

  /** `order` is served in two parts: the UEs before one UE, and this UE with those behind it. */
  ghost predicate InParts(s: Sched, granted: set<Rnti>, early: seq<Rnti>, s1: Sched, granted1: set<Rnti>,
                          later: seq<Rnti>, s2: Sched, granted2: set<Rnti>, t: nat, phase: Phase) {
    && AllKnown(early, s.db.Keys) && AllKnown(later, s1.db.Keys)
    && (s1, granted1) == ServeAll(s, granted, early, t, phase)
      && (s2, granted2) == ServeAll(s1, granted1, later, t, phase)
  }

  lemma PackedUntil(db: map<Rnti, UeCtx>, s: Sched, granted: set<Rnti>, early: seq<Rnti>, t: nat, phase: Phase)
    requires Opens(db, s, granted, early, t)
    ensures AllKnown(early, s.db.Keys)
    ensures var s1 := ServeAll(s, granted, early, t, phase).0; Packed(s1.prb, s1.results)
  {
    ServeAllSound(db, s, granted, early, t, phase);
  }

  lemma PartsExtend(s: Sched, granted: set<Rnti>, early: seq<Rnti>, s1: Sched, granted1: set<Rnti>, later: seq<Rnti>,
                    s2: Sched, granted2: set<Rnti>, t: nat, phase: Phase)
    requires InParts(s, granted, early, s1, granted1, later, s2, granted2, t, phase)
    ensures Extends(s, granted, early, s1, granted1) && Extends(s1, granted1, later, s2, granted2)
  {
    ServeAllExtends(s, granted, early, t, phase);
    ServeAllExtends(s1, granted1, later, t, phase);
  }

  /** A UE with demand and an idle process, starving if the phase asks for it. */
  predicate IsDue(c: UeCtx, phase: Phase) {
    (c.totalUlBuffer > 0 || c.srPending) && (phase.EpfGuard? ==> c.ttiSinceSched > phase.starveTti) && HasIdle(c)
  }

  /** r has no grant yet, is due, and finds its PRBs among those that neither the grants before the phase nor the UEs
      `early` have taken. */
  ghost predicate CanServe(s: Sched, results: seq<SchedResult>, early: seq<Rnti>, r: Rnti, phase: Phase) {
    && r in s.db && r !in RntisOf(s.results) && IsDue(s.db[r], phase)
    && |s.prb| > 0 && Room(results, |s.results|, early, |s.prb|, Wanted(s.db[r], phase, |s.prb|))
  }

  lemma TurnDecides(s: Sched, s1: Sched, granted1: set<Rnti>, later: seq<Rnti>, s2: Sched, early: seq<Rnti>, r: Rnti,
                    t: nat, phase: Phase)
    requires later != [] && AllKnown(later, s1.db.Keys) && Distinct(later) && r == later[0]
    requires s2 == ServeAll(s1, granted1, later, t, phase).0
    requires Reached(s, s1, s2.results, early, r) && (r in granted1 <==> r in RntisOf(s.results))
    ensures HasGrant(s2.results, |s.results|, r) <==> CanServe(s, s2.results, early, r, phase)
  {
    TurnInPhase(s1, granted1, later, t, phase);
    RoomAt(s, s1, s2.results, early, r, Wanted(s.db[r], phase, |s.prb|));
    GrantedLater(s, s1, s2.results, early, r);
  }

  lemma PartsReach(s: Sched, granted: set<Rnti>, early: seq<Rnti>, s1: Sched, granted1: set<Rnti>, r: Rnti,
                   later: seq<Rnti>, s2: Sched, granted2: set<Rnti>, t: nat, phase: Phase)
    requires Ranked(early, r, later) && r in s.db && Packed(s1.prb, s1.results) && granted == RntisOf(s.results)
    requires InParts(s, granted, early, s1, granted1, later, s2, granted2, t, phase)
    ensures Reached(s, s1, s2.results, early, r) && (r in granted1 <==> r in RntisOf(s.results))
  {
    PartsExtend(s, granted, early, s1, granted1, later, s2, granted2, t, phase);
    ReachedBy(s, early, s1, r, later, s2, false);
  }

  lemma PartsDecide(s: Sched, granted: set<Rnti>, early: seq<Rnti>, s1: Sched, granted1: set<Rnti>, r: Rnti,
                    later: seq<Rnti>, s2: Sched, granted2: set<Rnti>, t: nat, phase: Phase)
    requires Ranked(early, r, later) && r in s.db && Packed(s1.prb, s1.results) && granted == RntisOf(s.results)
    requires InParts(s, granted, early, s1, granted1, later, s2, granted2, t, phase)
    ensures HasGrant(s2.results, |s.results|, r) <==> CanServe(s, s2.results, early, r, phase)
  {
    PartsReach(s, granted, early, s1, granted1, r, later, s2, granted2, t, phase);
    TurnDecides(s, s1, granted1, later, s2, early, r, t, phase);
  }

  lemma SplitServes(s: Sched, granted: set<Rnti>, order: seq<Rnti>, t: nat, phase: Phase, i: nat, early: seq<Rnti>,
                    later: seq<Rnti>, s1: Sched, granted1: set<Rnti>)
    requires AllKnown(order, s.db.Keys) && Distinct(order) && i < |order| && early == order[..i] && later == order[i..]
    requires (s1, granted1) == ServeAll(s, granted, early, t, phase)
    requires granted == RntisOf(s.results) && Packed(s1.prb, s1.results)
    ensures var results := ServeAll(s, granted, order, t, phase).0.results;
            HasGrant(results, |s.results|, order[i]) <==> CanServe(s, results, early, order[i], phase)
  {
    var (s2, granted2) := ServeAll(s, granted, order, t, phase);
    ServeAllSplits(s, granted, order, t, phase, i);
    OrderSplits(order, i);
    PartsDecide(s, granted, early, s1, granted1, order[i], later, s2, granted2, t, phase);
  }

  /** Exactly which UEs a phase grants: a ranked UE is granted if and only if it has no grant yet, has demand (and is
      starving, for the starvation guard), has an idle process, and finds its PRBs among those that neither the
      grants before the phase nor the UEs ranked before it have taken. */
  lemma PhaseServes(db: map<Rnti, UeCtx>, s: Sched, granted: set<Rnti>, order: seq<Rnti>, t: nat, phase: Phase, i: nat)
    requires Opens(db, s, granted, order, t) && i < |order| && AllKnown(order, s.db.Keys)
    ensures var results := ServeAll(s, granted, order, t, phase).0.results;
            HasGrant(results, |s.results|, order[i]) <==> CanServe(s, results, order[..i], order[i], phase)
  {
    var early := order[..i];
    PackedUntil(db, s, granted, early, t, phase);
    var (s1, granted1) := ServeAll(s, granted, early, t, phase);
    SplitServes(s, granted, order, t, phase, i, early, order[i..], s1, granted1);
  }

  /** The head of what is left of the order is granted in this phase if and only if it is granted in its turn. */
  lemma TurnInPhase(s: Sched, granted: set<Rnti>, order: seq<Rnti>, t: nat, phase: Phase)
    requires AllKnown(order, s.db.Keys) && Distinct(order) && order != []
    ensures var results := ServeAll(s, granted, order, t, phase).0.results;
            var (r, c) := (order[0], s.db[order[0]]);
            HasGrant(results, |s.results|, r) <==>
              && r !in granted && (c.totalUlBuffer > 0 || c.srPending)
              && (phase.EpfGuard? ==> c.ttiSinceSched > phase.starveTti)
              && HasIdle(c) && |s.prb| > 0 && exists start: nat :: FreeRun(s.prb, start, Wanted(c, phase, |s.prb|))
  {
    var (s1, granted1) := Serve(s, granted, order[0], t, phase);
    var s2 := ServeAll(s1, granted1, order[1..], t, phase).0;
    Turn(s, granted, order[0], t, phase);
    ServeAdds(s, granted, order[0], t, phase);
    ServeAllExtends(s1, granted1, order[1..], t, phase);
    OrderSplits(order, 0);
    if |s1.results| == |s.results| + 1 {
      assert s2.results[|s.results|] == s1.results[|s.results|];
    }
    if HasGrant(s2.results, |s.results|, order[0]) {
      var j :| |s.results| <= j < |s2.results| && s2.results[j].rnti == order[0];
      assert j < |s1.results|;
    }
  }

  // ---- The three algorithms ----

  /** UEs known to the scheduler, each listed once and with its bookkeeping closed. */
  ghost predicate InCell(db: map<Rnti, UeCtx>, rntis: seq<Rnti>, order: seq<Rnti>) {
    && AllClosed(db) && AllKnown(rntis, db.Keys) && Distinct(rntis) && AllKnown(order, db.Keys) && Distinct(order)
  }

  lemma RetxPhase(db: map<Rnti, UeCtx>, s: Sched, rntis: seq<Rnti>, t: nat, s1: Sched)
    requires InCell(db, rntis, []) && s == Started(db, |s.prb|) && s1 == RetxAll(s, rntis, t)
    ensures Sound(db, s1, t) && Adds(s, rntis, s1, true)
  {
    StartSound(db, |s.prb|, t);
    RetxAllSound(db, s, rntis, t);
    RetxAllAdds(s, rntis, t);
  }

  /** How many grants the retransmission phase issues. */
  function RetxEnd(db: map<Rnti, UeCtx>, totalPrb: nat, rntis: seq<Rnti>, t: nat): nat
    requires AllKnown(rntis, db.Keys)
  {
    |RetxAll(Started(db, totalPrb), rntis, t).results|
  }

  /** The grants of a TTI whose first `first` ones are the retransmissions, in which `order` was then served. */
  ghost predicate Follows(results: seq<SchedResult>, first: nat, order: seq<Rnti>) {
    && first <= |results| && (forall j :: 0 <= j < |results| ==> (results[j].isRetx <==> j < first))
    && (forall j :: first <= j < |results| ==> results[j].rnti in order)
  }

  lemma FollowsFrom(s: Sched, rntis: seq<Rnti>, s1: Sched, order: seq<Rnti>, s2: Sched)
    requires s.results == [] && Adds(s, rntis, s1, true) && Adds(s1, order, s2, false)
    ensures s1.results <= s2.results && Follows(s2.results, |s1.results|, order)
    ensures forall r :: r in s.db && r !in RntisOf(s1.results) ==> s1.db[r] == s.db[r]
  {
    assert forall j :: 0 <= j < |s1.results| ==> s2.results[j] == s1.results[j];
    forall r | r in s.db && r !in RntisOf(s1.results) ensures s1.db[r] == s.db[r] {
      assert forall j :: 0 <= j < |s1.results| ==> s1.results[j] in s1.results;
      assert !HasGrant(s1.results, 0, r);
    }
  }

  lemma NewTbPhase(db: map<Rnti, UeCtx>, s: Sched, rntis: seq<Rnti>, order: seq<Rnti>, t: nat, phase: Phase, s1: Sched,
                   granted: set<Rnti>)
    requires InCell(db, rntis, order) && s == Started(db, |s.prb|) && s1 == RetxAll(s, rntis, t)
    requires granted == RntisOf(s1.results)
    ensures AllKnown(order, s1.db.Keys)
    ensures Adds(s, rntis, s1, true) && Adds(s1, order, ServeAll(s1, granted, order, t, phase).0, false)
    ensures Opens(db, s1, granted, order, t)
  {
    RetxPhase(db, s, rntis, t, s1);
    ServeAllExtends(s1, granted, order, t, phase);
  }

  lemma PrefixTaken<T>(before: seq<T>, all: seq<T>)
    requires before <= all
    ensures all[..|before|] == before
  {
  }

  lemma NotGrantedYet(before: seq<SchedResult>, results: seq<SchedResult>, r: Rnti)
    requires before <= results
    ensures r in RntisOf(before) <==> HasGrant(results[..|before|], 0, r)
  {
    PrefixTaken(before, results);
    if HasGrant(before, 0, r) {
      var j :| 0 <= j < |before| && before[j].rnti == r;
      assert before[j] in before;
    }
  }

  /** r is served after the first `first` grants, for n PRBs: it has no grant yet, has data or a scheduling request
      waiting and an idle process, and n adjacent PRBs are left by these grants and by the UEs `early`. */
  ghost predicate GetsTurn(c: UeCtx, results: seq<SchedResult>, first: nat, early: seq<Rnti>, r: Rnti, totalPrb: nat,
                           n: nat)
    requires first <= |results|
  {
    && !HasGrant(results[..first], 0, r) && (c.totalUlBuffer > 0 || c.srPending) && HasIdle(c)
    && totalPrb > 0 && Room(results, first, early, totalPrb, n)
  }

  /** CanServe, told by the contexts the TTI started from. */
  lemma TurnFromStart(db: map<Rnti, UeCtx>, s1: Sched, results: seq<SchedResult>, early: seq<Rnti>, r: Rnti,
                      phase: Phase)
    requires r in db && s1.db.Keys == db.Keys && s1.results <= results
    requires r !in RntisOf(s1.results) ==> s1.db[r] == db[r]
    ensures CanServe(s1, results, early, r, phase) <==>
            GetsTurn(db[r], results, |s1.results|, early, r, |s1.prb|, Wanted(db[r], phase, |s1.prb|))
            && (phase.EpfGuard? ==> db[r].ttiSinceSched > phase.starveTti)
  {
    NotGrantedYet(s1.results, results, r);
  }

  lemma ServesFrom(db: map<Rnti, UeCtx>, s: Sched, rntis: seq<Rnti>, order: seq<Rnti>, t: nat, phase: Phase, i: nat,
                   s1: Sched, granted: set<Rnti>, results: seq<SchedResult>)
    requires InCell(db, rntis, order) && s == Started(db, |s.prb|) && s1 == RetxAll(s, rntis, t) && i < |order|
    requires granted == RntisOf(s1.results) && results == ServeAll(s1, granted, order, t, phase).0.results
    ensures Follows(results, |s1.results|, order)
    ensures HasGrant(results, |s1.results|, order[i]) <==>
            GetsTurn(db[order[i]], results, |s1.results|, order[..i], order[i], |s.prb|,
                     Wanted(db[order[i]], phase, |s.prb|))
            && (phase.EpfGuard? ==> db[order[i]].ttiSinceSched > phase.starveTti)
  {
    NewTbPhase(db, s, rntis, order, t, phase, s1, granted);
    FollowsFrom(s, rntis, s1, order, ServeAll(s1, granted, order, t, phase).0);
    PhaseServes(db, s1, granted, order, t, phase, i);
    TurnFromStart(db, s1, results, order[..i], order[i], phase);
  }

  /** Proportional fair, under any ranking: a ranked UE is granted a new TB if and only if it has no retransmission
      in this TTI, has demand and an idle process, and the PRBs it needs are free beside the retransmissions and the
      UEs ranked before it. Nobody else is. */
  lemma PfServes(db: map<Rnti, UeCtx>, totalPrb: nat, rntis: seq<Rnti>, order: seq<Rnti>, t: nat, i: nat)
    requires InCell(db, rntis, order) && i < |order|
    ensures var (results, first) := (RunPf(db, totalPrb, rntis, order, t).results, RetxEnd(db, totalPrb, rntis, t));
            var (r, c) := (order[i], db[order[i]]);
            && Follows(results, first, order)
            && (HasGrant(results, first, r) <==>
                GetsTurn(c, results, first, order[..i], r, totalPrb, Min(PrbsFor(c), totalPrb)))
  {
    var s := Started(db, totalPrb);
    var s1 := RetxAll(s, rntis, t);
    ServesFrom(db, s, rntis, order, t, PfNew, i, s1, RntisOf(s1.results), RunPf(db, totalPrb, rntis, order, t).results);
  }

  /** Round robin, at any offset: the same in the order of the rotation. */
  lemma RrServes(db: map<Rnti, UeCtx>, totalPrb: nat, rntis: seq<Rnti>, offset: nat, t: nat, i: nat)
    requires InCell(db, rntis, []) && i < |rntis|
    ensures var (results, first) := (RunRr(db, totalPrb, rntis, offset, t).results, RetxEnd(db, totalPrb, rntis, t));
            var (r, early) := (Rotated(rntis, offset)[i], Rotated(rntis, offset)[..i]);
            && Follows(results, first, Rotated(rntis, offset))
            && (HasGrant(results, first, r) <==>
                GetsTurn(db[r], results, first, early, r, totalPrb, Min(PrbsFor(db[r]), totalPrb)))
  {
    var (s, order) := (Started(db, totalPrb), Rotated(rntis, offset));
    var s1 := RetxAll(s, rntis, t);
    RotationIsDistinct(rntis, offset);
    ServesFrom(db, s, rntis, order, t, RrNew, i, s1, RntisOf(s1.results),
               RunRr(db, totalPrb, rntis, offset, t).results);
  }

  // ---- EPF: the starvation guard, then the metric ----

  lemma {:induction false} EpfRecordsExactly(s: Sched, granted: set<Rnti>, order: seq<Rnti>, t: nat, phase: Phase)
    requires AllKnown(order, s.db.Keys) && granted == RntisOf(s.results) && IsEpf(phase)
    ensures var (s', granted') := ServeAll(s, granted, order, t, phase); granted' == RntisOf(s'.results)
    decreases |order|
  {
    if order != [] {
      var (s1, granted1) := Serve(s, granted, order[0], t, phase);
      if s1.results != s.results { RntisAppend(s.results, s1.results[|s.results|]); }
      var n := Wanted(s.db[order[0]], phase, |s.prb|);
      TbsMonotone(McsOf(s.db[order[0]]), n, McsOf(s.db[order[0]]), n);
      EpfRecordsExactly(s1, granted1, order[1..], t, phase);
    }
  }

  /** Where the guard's grants end. */
  function GuardEnd(db: map<Rnti, UeCtx>, totalPrb: nat, rntis: seq<Rnti>, order: seq<Rnti>, t: nat, starveTti: nat,
                    minPrb: nat): nat
    requires AllKnown(rntis, db.Keys) && AllKnown(order, db.Keys)
  {
    var s := RetxAll(Started(Aged(db), totalPrb), rntis, t);
    |ServeAll(s, RntisOf(s.results), order, t, EpfGuard(starveTti, minPrb)).0.results|
  }

  lemma SecondFollows(s: Sched, rntis: seq<Rnti>, s1: Sched, order: seq<Rnti>, s2: Sched, s3: Sched)
    requires s.results == [] && Adds(s, rntis, s1, true) && Adds(s1, order, s2, false) && Adds(s2, order, s3, false)
    ensures s2.results <= s3.results && Follows(s3.results, |s1.results|, order)
    ensures forall r :: r in s.db && r !in RntisOf(s2.results) ==> s2.db[r] == s.db[r]
  {
    assert forall j :: 0 <= j < |s2.results| ==> s3.results[j] == s2.results[j];
    FollowsFrom(s, rntis, s1, order, s2);
    forall r | r in s.db && r !in RntisOf(s2.results) ensures s2.db[r] == s.db[r] {
      assert forall j :: 0 <= j < |s2.results| ==> s2.results[j] in s2.results;
      assert forall j :: 0 <= j < |s1.results| ==> s1.results[j] == s2.results[j];
      assert !HasGrant(s2.results, |s1.results|, r) && r !in RntisOf(s1.results);
    }
  }

  lemma GuardPhase(db: map<Rnti, UeCtx>, s: Sched, rntis: seq<Rnti>, order: seq<Rnti>, t: nat, guard: Phase, s1: Sched,
                   granted1: set<Rnti>, s2: Sched, granted2: set<Rnti>)
    requires InCell(db, rntis, order) && s == Started(db, |s.prb|) && s1 == RetxAll(s, rntis, t) && guard.EpfGuard?
    requires granted1 == RntisOf(s1.results) && (s2, granted2) == ServeAll(s1, granted1, order, t, guard)
    ensures Adds(s, rntis, s1, true) && Adds(s1, order, s2, false) && Opens(db, s2, granted2, order, t)
  {
    NewTbPhase(db, s, rntis, order, t, guard, s1, granted1);
    ServeAllSound(db, s1, granted1, order, t, guard);
    EpfRecordsExactly(s1, granted1, order, t, guard);
  }

  lemma SecondServes(db: map<Rnti, UeCtx>, s: Sched, rntis: seq<Rnti>, order: seq<Rnti>, t: nat, guard: Phase, i: nat,
                     s1: Sched, granted1: set<Rnti>, s2: Sched, granted2: set<Rnti>, results: seq<SchedResult>)
    requires InCell(db, rntis, order) && s == Started(db, |s.prb|) && s1 == RetxAll(s, rntis, t) && guard.EpfGuard?
    requires granted1 == RntisOf(s1.results) && (s2, granted2) == ServeAll(s1, granted1, order, t, guard)
    requires results == ServeAll(s2, granted2, order, t, EpfNew).0.results && i < |order|
    ensures s2.results <= results && Follows(results, |s1.results|, order)
    ensures HasGrant(results, |s2.results|, order[i]) <==>
            GetsTurn(db[order[i]], results, |s2.results|, order[..i], order[i], |s.prb|,
                     Min(PrbsFor(db[order[i]]), |s.prb|))
  {
    GuardPhase(db, s, rntis, order, t, guard, s1, granted1, s2, granted2);
    ServeAllExtends(s2, granted2, order, t, EpfNew);
    SecondFollows(s, rntis, s1, order, s2, ServeAll(s2, granted2, order, t, EpfNew).0);
    PhaseServes(db, s2, granted2, order, t, EpfNew, i);
    TurnFromStart(db, s2, results, order[..i], order[i], EpfNew);
  }

  lemma AgedInCell(db: map<Rnti, UeCtx>, rntis: seq<Rnti>, order: seq<Rnti>)
    requires InCell(db, rntis, order)
    ensures InCell(Aged(db), rntis, order)
  {
    forall r | r in Aged(db) ensures Closed(Aged(db)[r]) { assert Closed(db[r]); }
    assert Aged(db).Keys == db.Keys;
  }

  /** r is served by the guard, which has issued the grants `guarded` when it ends, and by the metric phase, exactly
      in these cases. */
  ghost predicate EpfGrants(c: UeCtx, guarded: seq<SchedResult>, results: seq<SchedResult>, first: nat,
                            early: seq<Rnti>, r: Rnti, totalPrb: nat, starveTti: nat, minPrb: nat)
    requires first <= |guarded| <= |results|
  {
    && (HasGrant(guarded, first, r) <==>
        GetsTurn(c, guarded, first, early, r, totalPrb, Min(Max(Min(PrbsFor(c), minPrb), 1), totalPrb))
        && c.ttiSinceSched + 1 > starveTti)
    && (HasGrant(results, |guarded|, r) <==>
        GetsTurn(c, results, |guarded|, early, r, totalPrb, Min(PrbsFor(c), totalPrb)))
  }

  lemma GetsTurnAged(db: map<Rnti, UeCtx>, results: seq<SchedResult>, first: nat, early: seq<Rnti>, r: Rnti,
                     totalPrb: nat, n: nat)
    requires r in db && first <= |results|
    ensures GetsTurn(Aged(db)[r], results, first, early, r, totalPrb, n) <==>
            GetsTurn(db[r], results, first, early, r, totalPrb, n)
    ensures PrbsFor(Aged(db)[r]) == PrbsFor(db[r])
  {
  }

  lemma GuardServes(db: map<Rnti, UeCtx>, s: Sched, rntis: seq<Rnti>, order: seq<Rnti>, t: nat, guard: Phase, i: nat,
                    s1: Sched, granted1: set<Rnti>, results: seq<SchedResult>)
    requires InCell(db, rntis, order) && s == Started(Aged(db), |s.prb|) && i < |order| && guard.EpfGuard?
    requires AllKnown(rntis, s.db.Keys) && s1 == RetxAll(s, rntis, t) && granted1 == RntisOf(s1.results)
    requires AllKnown(order, s1.db.Keys) && results == ServeAll(s1, granted1, order, t, guard).0.results
    ensures var (r, c) := (order[i], db[order[i]]);
            var n := Min(Max(Min(PrbsFor(c), guard.minPrb), 1), |s.prb|);
            |s1.results| <= |results| && (HasGrant(results, |s1.results|, r) <==>
            GetsTurn(c, results, |s1.results|, order[..i], r, |s.prb|, n) && c.ttiSinceSched + 1 > guard.starveTti)
  {
    AgedInCell(db, rntis, order);
    ServesFrom(Aged(db), s, rntis, order, t, guard, i, s1, granted1, results);
    GetsTurnAged(db, results, |s1.results|, order[..i], order[i], |s.prb|, Wanted(Aged(db)[order[i]], guard, |s.prb|));
  }

  lemma MetricServes(db: map<Rnti, UeCtx>, s: Sched, rntis: seq<Rnti>, order: seq<Rnti>, t: nat, guard: Phase, i: nat,
                     s1: Sched, granted1: set<Rnti>, s2: Sched, granted2: set<Rnti>, results: seq<SchedResult>)
    requires InCell(db, rntis, order) && s == Started(Aged(db), |s.prb|) && i < |order| && guard.EpfGuard?
    requires AllKnown(rntis, s.db.Keys) && s1 == RetxAll(s, rntis, t) && granted1 == RntisOf(s1.results)
    requires AllKnown(order, s1.db.Keys) && (s2, granted2) == ServeAll(s1, granted1, order, t, guard)
    requires results == ServeAll(s2, granted2, order, t, EpfNew).0.results
    ensures s2.results <= results && Follows(results, |s1.results|, order)
    ensures var (r, c) := (order[i], db[order[i]]);
            HasGrant(results, |s2.results|, r) <==>
            GetsTurn(c, results, |s2.results|, order[..i], r, |s.prb|, Min(PrbsFor(c), |s.prb|))
  {
    AgedInCell(db, rntis, order);
    SecondServes(Aged(db), s, rntis, order, t, guard, i, s1, granted1, s2, granted2, results);
    GetsTurnAged(db, results, |s2.results|, order[..i], order[i], |s.prb|, Min(PrbsFor(db[order[i]]), |s.prb|));
  }

  lemma EpfServesIn(db: map<Rnti, UeCtx>, s: Sched, rntis: seq<Rnti>, order: seq<Rnti>, t: nat, guard: Phase, i: nat,
                    s1: Sched, granted1: set<Rnti>, s2: Sched, granted2: set<Rnti>, results: seq<SchedResult>)
    requires InCell(db, rntis, order) && s == Started(Aged(db), |s.prb|) && i < |order| && guard.EpfGuard?
    requires AllKnown(rntis, s.db.Keys) && s1 == RetxAll(s, rntis, t) && granted1 == RntisOf(s1.results)
    requires AllKnown(order, s1.db.Keys) && (s2, granted2) == ServeAll(s1, granted1, order, t, guard)
    requires results == ServeAll(s2, granted2, order, t, EpfNew).0.results
    ensures Follows(results, |s1.results|, order) && |s1.results| <= |s2.results| && s2.results <= results
    ensures EpfGrants(db[order[i]], s2.results, results, |s1.results|, order[..i], order[i], |s.prb|, guard.starveTti,
                      guard.minPrb)
  {
    GuardServes(db, s, rntis, order, t, guard, i, s1, granted1, s2.results);
    MetricServes(db, s, rntis, order, t, guard, i, s1, granted1, s2, granted2, results);
  }

  /** EPF, under any ranking. First the starvation guard serves, with no more than the reserved share, the UEs that
      have gone without a grant for more than starveTti TTIs, counting this one; then the metric phase serves
      everybody else. In each of the two a ranked UE is granted if and only if it has no grant yet, has demand and an
      idle process, and its PRBs are free beside the grants before the phase and those to the UEs ranked before it. */
  lemma EpfServes(db: map<Rnti, UeCtx>, totalPrb: nat, rntis: seq<Rnti>, order: seq<Rnti>, t: nat, starveTti: nat,
                  minPrb: nat, i: nat)
    requires InCell(db, rntis, order) && i < |order|
    ensures var results := RunEpf(db, totalPrb, rntis, order, t, starveTti, minPrb).results;
            var (first, guard) := (RetxEnd(Aged(db), totalPrb, rntis, t),
                                   GuardEnd(db, totalPrb, rntis, order, t, starveTti, minPrb));
            && Follows(results, first, order) && first <= guard <= |results|
            && EpfGrants(db[order[i]], results[..guard], results, first, order[..i], order[i], totalPrb, starveTti,
                         minPrb)
  {
    var s := Started(Aged(db), totalPrb);
    var s1 := RetxAll(s, rntis, t);
    var (s2, granted2) := ServeAll(s1, RntisOf(s1.results), order, t, EpfGuard(starveTti, minPrb));
    var results := RunEpf(db, totalPrb, rntis, order, t, starveTti, minPrb).results;
    EpfServesIn(db, s, rntis, order, t, EpfGuard(starveTti, minPrb), i, s1, RntisOf(s1.results), s2, granted2, results);
    PrefixTaken(s2.results, results);
  }

  // ---- The first UE in line ----

  predicate Ready(c: UeCtx) {
    (c.totalUlBuffer > 0 || c.srPending) && HasIdle(c)
  }

  predicate NoRetx(results: seq<SchedResult>) {
    forall j :: 0 <= j < |results| ==> !results[j].isRetx
  }

  lemma NoneFirst(results: seq<SchedResult>, first: nat, order: seq<Rnti>)
    requires Follows(results, first, order) && NoRetx(results)
    ensures first == 0
  {
    assert 0 < |results| ==> !results[0].isRetx;
  }

  lemma NothingTakenBefore(results: seq<SchedResult>, early: seq<Rnti>, totalPrb: nat, n: nat)
    requires n <= totalPrb && forall r <- early :: !HasGrant(results, 0, r)
    ensures Room(results, 0, early, totalPrb, n)
  {
    assert FreeAt(results, 0, early, totalPrb, n, 0);
  }

  /** Proportional fair: the first ranked UE that has demand and an idle process is granted a new TB in every TTI
      without retransmissions. */
  lemma PfHeadIsServed(db: map<Rnti, UeCtx>, totalPrb: nat, rntis: seq<Rnti>, order: seq<Rnti>, t: nat, i: nat)
    requires InCell(db, rntis, order) && i < |order| && totalPrb > 0 && Ready(db[order[i]])
    requires forall k :: 0 <= k < i ==> !Ready(db[order[k]])
    requires NoRetx(RunPf(db, totalPrb, rntis, order, t).results)
    ensures HasGrant(RunPf(db, totalPrb, rntis, order, t).results, 0, order[i])
  {
    var results := RunPf(db, totalPrb, rntis, order, t).results;
    PfServes(db, totalPrb, rntis, order, t, i);
    NoneFirst(results, RetxEnd(db, totalPrb, rntis, t), order);
    forall k | 0 <= k < i ensures !HasGrant(results, 0, order[k]) {
      PfServes(db, totalPrb, rntis, order, t, k);
    }
    NothingTakenBefore(results, order[..i], totalPrb, Min(PrbsFor(db[order[i]]), totalPrb));
  }

  /** EPF: nobody starves behind a better metric. The first ranked UE among those that have demand, an idle process
      and more than starveTti TTIs without a grant is granted a new TB in every TTI without retransmissions. */
  lemma StarvingIsServed(db: map<Rnti, UeCtx>, totalPrb: nat, rntis: seq<Rnti>, order: seq<Rnti>, t: nat,
                         starveTti: nat, minPrb: nat, i: nat)
    requires InCell(db, rntis, order) && i < |order| && totalPrb > 0
    requires Ready(db[order[i]]) && db[order[i]].ttiSinceSched + 1 > starveTti
    requires forall k :: 0 <= k < i ==> !(Ready(db[order[k]]) && db[order[k]].ttiSinceSched + 1 > starveTti)
    requires NoRetx(RunEpf(db, totalPrb, rntis, order, t, starveTti, minPrb).results)
    ensures HasGrant(RunEpf(db, totalPrb, rntis, order, t, starveTti, minPrb).results, 0, order[i])
  {
    var results := RunEpf(db, totalPrb, rntis, order, t, starveTti, minPrb).results;
    var guard := GuardEnd(db, totalPrb, rntis, order, t, starveTti, minPrb);
    EpfServes(db, totalPrb, rntis, order, t, starveTti, minPrb, i);
    NoneFirst(results, RetxEnd(Aged(db), totalPrb, rntis, t), order);
    forall k | 0 <= k < i ensures !HasGrant(results[..guard], 0, order[k]) {
      EpfServes(db, totalPrb, rntis, order, t, starveTti, minPrb, k);
    }
    var n := Min(Max(Min(PrbsFor(db[order[i]]), minPrb), 1), totalPrb);
    NothingTakenBefore(results[..guard], order[..i], totalPrb, n);
    if HasGrant(results[..guard], 0, order[i]) {
      var j :| 0 <= j < guard && results[..guard][j].rnti == order[i];
      assert results[j].rnti == order[i];
    }
  }
}
