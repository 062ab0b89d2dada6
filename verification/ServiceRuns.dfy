/** Who is granted in every run of the threads: the service theorems of one TTI, for the contexts the scheduler sees. */
module ServiceRuns {
  import opened CommonTypes
  import opened TtiThreads
  import opened Scheduler
  import opened UlSchedulers
  import opened CellSchedule
  import opened ClosedLoop
  import opened SystemRuns
  import opened RrFairness
  import opened SchedulerService

  /** In the TTI that starts in state s, the UEs in the order of the metric. */
  ghost function OrderIn(x: Setup, s: System, now: nat): seq<Rnti>
    requires SetupOk(x) && SameKeys(s)
  {
    x.policy.ranking(ContextsIn(x, s, now), now)
  }

  ghost function ListIn(x: Setup, s: System, now: nat): seq<Rnti>
    requires SetupOk(x) && SameKeys(s)
  {
    Listed(ContextsIn(x, s, now).Keys)
  }

  lemma CellInRun(x: Setup, channels: map<Rnti, Buffers>, snr: Rnti -> int, states: seq<System>, acts: seq<seq<Actor>>,
                  t: nat, n: nat, now: nat)
    requires InRun(x, channels, snr, states, acts, t, n, now)
    ensures SameKeys(states[n])
    ensures InCell(ContextsIn(x, states[n], now), ListIn(x, states[n], now), OrderIn(x, states[n], now))
  {
    SystemKeepsInv(x, channels, snr, states, acts, t, n, now);
    ContextsKnown(x, states[n], now);
    ListedIsKnown(ContextsIn(x, states[n], now).Keys);
  }

  /** The UE at place i of the ranking gets a new TB exactly when it has no retransmission, has demand and an idle
      process, and finds its PRBs. */
  ghost predicate ServedByRank(db: map<Rnti, UeCtx>, issued: seq<SchedResult>, first: nat, order: seq<Rnti>,
                               totalPrb: nat, i: nat) {
    && Follows(issued, first, order) && i < |order| && order[i] in db
    && var c := db[order[i]];
    (HasGrant(issued, first, order[i]) <==>
     GetsTurn(c, issued, first, order[..i], order[i], totalPrb, Min(PrbsFor(c), totalPrb)))
  }

  /** Proportional fair in every run: a ranked UE gets a new TB in a TTI if and only if the TTI retransmits nothing
      for it, it has demand and an idle process, and the PRBs it needs are free beside the retransmissions and the
      UEs ranked before it. */
  lemma PfServesInRun(x: Setup, channels: map<Rnti, Buffers>, snr: Rnti -> int, states: seq<System>,
                      acts: seq<seq<Actor>>, t: nat, n: nat, now: nat, i: nat) returns (first: nat)
    requires InRun(x, channels, snr, states, acts, t, n, now) && x.policy.algorithm == ProportionalFair
    requires SameKeys(states[n]) && i < |OrderIn(x, states[n], now)|
    ensures ServedByRank(ContextsIn(x, states[n], now), IssuedIn(x, states[n], now), first, OrderIn(x, states[n], now),
                         x.policy.totalPrb, i)
  {
    CellInRun(x, channels, snr, states, acts, t, n, now);
    var (db, list, order) := (ContextsIn(x, states[n], now), ListIn(x, states[n], now), OrderIn(x, states[n], now));
    PfServes(db, x.policy.totalPrb, list, order, now, i);
    first := RetxEnd(db, x.policy.totalPrb, list, now);
  }

  /** EPF in every run: no UE starves behind better metrics. In a TTI without retransmissions, the first ranked UE
      among those with demand, an idle process and more than starveTti TTIs without a grant gets a new TB. */
  lemma StarvingIsServedInRun(x: Setup, channels: map<Rnti, Buffers>, snr: Rnti -> int, states: seq<System>,
                              acts: seq<seq<Actor>>, t: nat, n: nat, now: nat, i: nat)
    requires InRun(x, channels, snr, states, acts, t, n, now) && x.policy.algorithm == Epf && x.policy.totalPrb > 0
    requires SameKeys(states[n]) && i < |OrderIn(x, states[n], now)| && NoRetx(IssuedIn(x, states[n], now))
    requires Overdue(x, states[n], now, i) && forall k: nat :: k < i ==> !Overdue(x, states[n], now, k)
    ensures HasGrant(IssuedIn(x, states[n], now), 0, OrderIn(x, states[n], now)[i])
  {
    CellInRun(x, channels, snr, states, acts, t, n, now);
    var (db, list, order) := (ContextsIn(x, states[n], now), ListIn(x, states[n], now), OrderIn(x, states[n], now));
    forall k | 0 <= k < i ensures !(Ready(db[order[k]]) && db[order[k]].ttiSinceSched + 1 > x.policy.starveTti) {
      assert !Overdue(x, states[n], now, k);
    }
    StarvingIsServed(db, x.policy.totalPrb, list, order, now, x.policy.starveTti, x.policy.minPrb, i);
  }

  /** The UE at this place of the ranking has demand and an idle process, and has waited too long. */
  ghost predicate Overdue(x: Setup, s: System, now: nat, i: nat)
    requires SetupOk(x) && SameKeys(s)
  {
    var (db, order) := (ContextsIn(x, s, now), OrderIn(x, s, now));
    && i < |order| && order[i] in db && Ready(db[order[i]])
    && db[order[i]].ttiSinceSched + 1 > x.policy.starveTti
  }
}
