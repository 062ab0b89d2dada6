/** Round robin over whole runs: in any fair window of n TTIs each of the n UEs comes first in exactly one TTI, and
    is granted in it when it has demand and a free process and no retransmission takes the TTI. */
module RrFairness {
  import opened Arithmetic
  import opened CommonTypes
  import opened TtiThreads
  import opened TtiRuns
  import opened Scheduler
  import opened SchedulerSafety
  import opened UlSchedulers
  import opened CellSchedule
  import opened LcgBuffer
  import opened HarqLoop
  import opened HarqRuns
  import opened ClosedLoop
  import opened SystemRuns

  // ---- The offset of the rotation, round after round ----

  lemma NextOffsetIs(offset: nat, t: nat)
    ensures NextOffset((offset + t) % OFFSET_SPAN) == (offset + t + 1) % OFFSET_SPAN
  {
  }

  /** At the start of TTI t the same UEs are there as in TTI `start`, and the offset has moved by one every TTI. */
  ghost function OffsetIs(known: set<Rnti>, offset: nat, start: nat): (Cell<Ue, EnbCell, nat>, nat) -> bool {
    (c: Cell<Ue, EnbCell, nat>, t: nat) =>
      start <= t && c.links.Keys == known && c.shared == (offset + (t - start)) % OFFSET_SPAN
  }

  lemma OffsetStep(x: Setup, known: set<Rnti>, offset: nat, start: nat, c: Cell<Ue, EnbCell, nat>, t: nat, next: nat)
    requires SetupOk(x) && x.policy.algorithm == RoundRobin && known != {} && Schedules(BodiesOf(x))
    requires OffsetIs(known, offset, start)(c, t) && next == t + 1
    ensures OffsetIs(known, offset, start)(NextRound(BodiesOf(x), c, t), next)
  {
    var cells := Requested(BodiesOf(x), c, t);
    assert cells.Keys == known;
    ContextsOf(cells);
    KeysKept(BodiesOf(x), c, t);
    NextOffsetIs(offset, t - start);
    assert NextRound(BodiesOf(x), c, t).links.Keys == c.links.Keys;
  }

  lemma OffsetRounds(x: Setup, c: Cell<Ue, EnbCell, nat>, start: nat, end: nat)
    requires SetupOk(x) && x.policy.algorithm == RoundRobin && c.links != map[] && Schedules(BodiesOf(x))
    requires c.shared < OFFSET_SPAN && start <= end
    ensures OffsetIs(c.links.Keys, c.shared, start)(Rounds(BodiesOf(x), c, start, end), end)
  {
    var inv := OffsetIs(c.links.Keys, c.shared, start);
    forall d: Cell<Ue, EnbCell, nat>, t: nat, next: nat | t < end && inv(d, t) && next == t + 1
      ensures inv(NextRound(BodiesOf(x), d, t), next)
    {
      OffsetStep(x, c.links.Keys, c.shared, start, d, t, next);
    }
    RoundsKeep(BodiesOf(x), c, start, start, end, end, inv);
  }

  // ---- Who comes first ----

  lemma {:induction false} ListedOnce(s: set<Rnti>)
    ensures |Listed(s)| == |s|
    decreases s
  {
    if s != {} { ListedOnce(s - {CellSchedule.Least(s)}); }
  }

  /** The UE that the rotation serves first in the TTI that starts in state s. */
  ghost function HeadOf(s: System): Rnti
    requires s.ues.Keys != {}
  {
    ListedOnce(s.ues.Keys);
    Rotated(Listed(s.ues.Keys), s.shared)[0]
  }

  lemma OffsetMeans(known: set<Rnti>, start: nat, s: System, n: nat, now: nat)
    requires SameKeys(s) && OffsetIs(known, 0, start)(ViewOf(s), now) && now == start + n
    ensures s.ues.Keys == known && s.shared == n % OFFSET_SPAN
  {
    ViewKeys(s);
  }

  lemma ViewKeys<U, E, S>(s: Sys<U, E, S>)
    requires SameKeys(s)
    ensures ViewOf(s).links.Keys == s.ues.Keys
  {
  }

  /** A run of the UEs `known` under round robin, from a state where the rotation starts with the first of them. */
  ghost predicate Rotates(x: Setup, known: set<Rnti>, states: seq<System>, acts: seq<seq<Actor>>, t: nat) {
    && SetupOk(x) && x.policy.algorithm == RoundRobin && Schedules(BodiesOf(x)) && Runs(BodiesOf(x), states, acts, t)
    && SysOk(states[0], t) && states[0].ues.Keys == known != {} && states[0].shared == 0
  }

  lemma StateOffset(x: Setup, c: Cell<Ue, EnbCell, nat>, known: set<Rnti>, offset: nat, start: nat, s: System, now: nat)
    requires SetupOk(x) && x.policy.algorithm == RoundRobin && c.links.Keys == known != {}
      && c.shared == offset < OFFSET_SPAN
    requires start <= now && Schedules(BodiesOf(x)) && InStep(BodiesOf(x), c, start)(s, now)
    ensures SameKeys(s) && OffsetIs(known, offset, start)(ViewOf(s), now)
  {
    OffsetRounds(x, c, start, now);
    InStepIs(LoopOf(x), c, start, s, now, OffsetIs(known, offset, start));
  }

  lemma OffsetInRun(x: Setup, known: set<Rnti>, states: seq<System>, acts: seq<seq<Actor>>, t: nat, n: nat, now: nat)
    requires Rotates(x, known, states, acts, t) && n <= |acts| && now == t + n
    ensures SameKeys(states[n]) && OffsetIs(known, 0, t)(ViewOf(states[n]), now)
  {
    ViewKeys(states[0]);
    RunsAreRounds(BodiesOf(x), states, acts, t, n, now);
    StateOffset(x, ViewOf(states[0]), known, 0, t, states[n], now);
  }

  lemma OffsetAt(x: Setup, known: set<Rnti>, states: seq<System>, acts: seq<seq<Actor>>, t: nat, n: nat, now: nat)
    requires Rotates(x, known, states, acts, t) && n <= |acts| && now == t + n
    ensures SameKeys(states[n]) && states[n].ues.Keys == known && states[n].shared == n % OFFSET_SPAN
  {
    OffsetInRun(x, known, states, acts, t, n, now);
    OffsetMeans(known, t, states[n], n, now);
  }

  lemma OffsetSplits(n: nat, j: nat)
    ensures (n % OFFSET_SPAN + j) % OFFSET_SPAN == (n + j) % OFFSET_SPAN
  {
    assert n == (n / OFFSET_SPAN) * OFFSET_SPAN + n % OFFSET_SPAN;
    var a := n % OFFSET_SPAN + j;
    assert a == (a / OFFSET_SPAN) * OFFSET_SPAN + a % OFFSET_SPAN;
    DivModUnique(n + j, OFFSET_SPAN, n / OFFSET_SPAN + a / OFFSET_SPAN, a % OFFSET_SPAN);
  }

  lemma HeadIndexAt(n: nat, j: nat, at: nat, size: nat)
    requires size > 0 && at == n + j
    ensures HeadIndex(n % OFFSET_SPAN, j, size) == at % OFFSET_SPAN % size
  {
    OffsetSplits(n, j);
  }

  lemma HeadOfIs(s: System, known: set<Rnti>, offset: nat)
    requires s.ues.Keys == known != {} && s.shared == offset
    ensures |known| == |Listed(known)| > 0 && HeadOf(s) == Listed(known)[offset % |known|]
  {
    ListedOnce(known);
  }

  lemma ListedIndex(known: set<Rnti>, r: Rnti) returns (u: nat)
    requires r in known
    ensures u < |Listed(known)| == |known| && Distinct(Listed(known)) && Listed(known)[u] == r
  {
    ListedOnce(known);
    ListedIsKnown(known);
    u :| 0 <= u < |Listed(known)| && Listed(known)[u] == r;
  }

  lemma HeadIs(s: System, known: set<Rnti>, n: nat, at: nat, r: Rnti, u: nat, k: nat)
    requires s.ues.Keys == known && s.shared == at % OFFSET_SPAN && n <= at < n + |known|
    requires u < |Listed(known)| == |known| && Distinct(Listed(known)) && Listed(known)[u] == r
    requires k < |known| && HeadIndex(n % OFFSET_SPAN, k, |known|) == u
    requires forall j :: 0 <= j < |known| && j != k ==> HeadIndex(n % OFFSET_SPAN, j, |known|) != u
    ensures HeadOf(s) == r <==> at == n + k
  {
    var (j: nat, head) := (at - n, s.shared % |known|);
    HeadIndexAt(n, j, at, |known|);
    HeadOfIs(s, known, s.shared);
    assert head == HeadIndex(n % OFFSET_SPAN, j, |known|);
  }

  lemma NewSystemKeys(x: Setup, channels: map<Rnti, Buffers>, snr: Rnti -> int, s: System)
    requires s == NewSystem(x, channels, snr)
    ensures s.ues.Keys == channels.Keys && s.shared == 0
  {
  }

  /** Every run of a new system under round robin rotates. */
  lemma NewSystemRotates(x: Setup, channels: map<Rnti, Buffers>, snr: Rnti -> int, states: seq<System>,
                         acts: seq<seq<Actor>>, t: nat)
    requires InRun(x, channels, snr, states, acts, t, 0, t) && x.policy.algorithm == RoundRobin && channels != map[]
    ensures Rotates(x, channels.Keys, states, acts, t)
  {
    CellSchedules(x);
    NewSystemIsFresh(x, channels, snr, states[0], t);
    NewSystemKeys(x, channels, snr, states[0]);
  }

  /** Round-robin fairness in every run of the threads: in a fair window of TTIs, one for each UE, every UE comes
      first in exactly one of them. The window that starts in state n is fair unless the 32-bit offset wraps inside
      it and the number of UEs does not divide 2^32 (FairWindow; WrapRepeatsAHead is the converse). */
  lemma EachComesFirstOnce(x: Setup, known: set<Rnti>, states: seq<System>, acts: seq<seq<Actor>>, t: nat, n: nat,
                           r: Rnti)
    returns (first: nat)
    requires Rotates(x, known, states, acts, t) && r in known && |known| <= OFFSET_SPAN
    requires n + |known| <= |acts| + 1 && FairWindow(n % OFFSET_SPAN, |known|)
    ensures n <= first < n + |known|
    ensures forall at :: n <= at < n + |known| ==>
        states[at].ues.Keys == known && (HeadOf(states[at]) == r <==> at == first)
  {
    var u := ListedIndex(known, r);
    var k := EachHeadsExactlyOnce(n % OFFSET_SPAN, |known|, u);
    first := n + k;
    forall at | n <= at < n + |known|
      ensures states[at].ues.Keys == known && (HeadOf(states[at]) == r <==> at == first) {
      OffsetAt(x, known, states, acts, t, at, t + at);
      HeadIs(states[at], known, n, at, r, u, k);
    }
  }

  // ---- Who is granted ----

  /** The contexts the scheduler sees in the TTI that starts in state s, after the requests due in it. */
  ghost function ContextsIn(x: Setup, s: System, now: nat): map<Rnti, UeCtx>
    requires SetupOk(x) && SameKeys(s)
  {
    Contexts(Requested(BodiesOf(x), ViewOf(s), now))
  }

  /** What the scheduler issues in that TTI. */
  ghost function IssuedIn(x: Setup, s: System, now: nat): seq<SchedResult>
    requires SetupOk(x) && SameKeys(s)
  {
    RunTti(x.policy, ContextsIn(x, s, now), s.shared, now).results
  }

  lemma {:induction false} RetxOnlyRetx(s: Sched, rntis: seq<Rnti>, t: nat)
    requires AllKnown(rntis, s.db.Keys) && forall i :: 0 <= i < |s.results| ==> s.results[i].isRetx
    ensures forall i :: 0 <= i < |RetxAll(s, rntis, t).results| ==> RetxAll(s, rntis, t).results[i].isRetx
    decreases |rntis|
  {
    if rntis != [] { RetxOnlyRetx(RetxUe(s, rntis[0], t), rntis[1..], t); }
  }

  lemma NoRetxIssued(db: map<Rnti, UeCtx>, totalPrb: nat, rntis: seq<Rnti>, offset: nat, t: nat)
    requires AllKnown(rntis, db.Keys) && Distinct(rntis)
    requires forall res <- RunRr(db, totalPrb, rntis, offset, t).results :: !res.isRetx
    ensures RetxAll(Started(db, totalPrb), rntis, t).results == []
  {
    var s := RetxAll(Started(db, totalPrb), rntis, t);
    RetxOnlyRetx(Started(db, totalPrb), rntis, t);
    ServeAllKeepsResults(s, RntisOf(s.results), Rotated(rntis, offset), t, RrNew);
    var all := RunRr(db, totalPrb, rntis, offset, t).results;
    if all != [] { assert all[0] in all; }
  }

  lemma ContextIsClosed(x: Setup, c: Cell<Ue, EnbCell, nat>, now: nat, r: Rnti)
    requires SetupOk(x) && CellInvOf(LoopOf(x))(c, now) && r in c.links
    ensures Closed(Requested(BodiesOf(x), c, now)[r].sched)
  {
    EnbIsFaithful(x);
    InvAtLink(LoopOf(x), c, now, r);
    RequestedIsClosed(BodiesOf(x), PartsOf(), x.harq, x.policy.totalPrb, c, now, r);
  }

  lemma AllContextsClosed(x: Setup, c: Cell<Ue, EnbCell, nat>, now: nat)
    requires SetupOk(x) && CellInvOf(LoopOf(x))(c, now)
    ensures AllClosed(Contexts(Requested(BodiesOf(x), c, now)))
    ensures Contexts(Requested(BodiesOf(x), c, now)).Keys == c.links.Keys
  {
    var cells := Requested(BodiesOf(x), c, now);
    ContextsOf(cells);
    forall r | r in cells ensures Closed(cells[r].sched) {
      ContextIsClosed(x, c, now, r);
    }
  }

  lemma ContextsKnown(x: Setup, s: System, now: nat)
    requires SetupOk(x) && SameKeys(s) && CellInvOf(LoopOf(x))(ViewOf(s), now)
    ensures ContextsIn(x, s, now).Keys == s.ues.Keys && AllClosed(ContextsIn(x, s, now))
  {
    AllContextsClosed(x, ViewOf(s), now);
    ViewKeys(s);
  }

  lemma HeadIsGranted(x: Setup, s: System, db: map<Rnti, UeCtx>, now: nat)
    requires Ranks(x.policy) && x.policy.algorithm == RoundRobin && x.policy.totalPrb > 0 && s.ues.Keys == db.Keys != {}
      && AllClosed(db)
    requires Wants(db[HeadOf(s)]) && FirstFree(db[HeadOf(s)].busy, 0) >= 0
    requires forall res <- RunTti(x.policy, db, s.shared, now).results :: !res.isRetx
    ensures var issued := RunTti(x.policy, db, s.shared, now).results;
            issued != [] && issued[0].rnti == HeadOf(s) && !issued[0].isRetx
  {
    var rntis := Listed(db.Keys);
    ListedOnce(db.Keys);
    ListedIsKnown(db.Keys);
    NoRetxIssued(db, x.policy.totalPrb, rntis, s.shared, now);
    RrHeadIsGranted(db, x.policy.totalPrb, rntis, s.shared, now);
  }

  /** In every run of the threads, the UE that comes first gets the first grant of the TTI, for a new TB, when it has
      demand and a free process and the TTI issues no retransmission. */
  lemma FirstIsGranted(x: Setup, channels: map<Rnti, Buffers>, snr: Rnti -> int, states: seq<System>,
                       acts: seq<seq<Actor>>, t: nat, n: nat, now: nat)
    requires InRun(x, channels, snr, states, acts, t, n, now) && x.policy.algorithm == RoundRobin
      && x.policy.totalPrb > 0
    requires SameKeys(states[n]) && states[n].ues.Keys != {} && HeadOf(states[n]) in ContextsIn(x, states[n], now)
    requires Wants(ContextsIn(x, states[n], now)[HeadOf(states[n])])
    requires FirstFree(ContextsIn(x, states[n], now)[HeadOf(states[n])].busy, 0) >= 0
    requires forall res <- IssuedIn(x, states[n], now) :: !res.isRetx
    ensures var issued := IssuedIn(x, states[n], now);
        issued != [] && issued[0].rnti == HeadOf(states[n]) && !issued[0].isRetx
  {
    SystemKeepsInv(x, channels, snr, states, acts, t, n, now);
    ContextsKnown(x, states[n], now);
    HeadIsGranted(x, states[n], ContextsIn(x, states[n], now), now);
  }
}
