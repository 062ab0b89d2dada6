/** Whole simulations: many TTIs, each run under an arbitrary interleaving, end in the state of the sequential
    rounds. */
module TtiRuns {
  import opened CommonTypes
  import opened TimedChannels
  import opened TtiThreads
  import opened TtiDeterminism

  // ---- Queues between TTIs ----

  /** At the start of TTI t: at most one message per send time, in order, and nothing older than the propagation
      delay. */
  predicate Recent<T>(q: Queue<T>, t: nat) {
    && (forall i :: 0 <= i < |q| ==> q[i].sendTti < t <= q[i].sendTti + CHANNEL_PROPAGATION_TTI)
    && (forall i, j :: 0 <= i < j < |q| ==> q[i].sendTti < q[j].sendTti)
  }

  predicate LinkOk<U, E>(l: Link<U, E>, t: nat) {
    Recent(l.sr, t) && Recent(l.grant, t) && Recent(l.pdu, t) && Recent(l.phich, t)
  }

  ghost predicate CellOk<U, E, S>(c: Cell<U, E, S>, t: nat) {
    forall r :: r in c.links ==> LinkOk(c.links[r], t)
  }

  /** Exactly the message sent four TTIs ago, if there is one, is due. */
  lemma DueIsFourOld<T>(q: Queue<T>, t: nat)
    requires Recent(q, t)
    ensures VisibleCount(q, t) <= 1
    ensures VisibleCount(q, t) == 1 <==> q != [] && q[0].sendTti + CHANNEL_PROPAGATION_TTI == t
  {
    if |q| > 1 { assert !Visible(q[1], t); }
  }

  lemma RecentNext<T>(q: Queue<T>, items: seq<T>, t: nat)
    requires Recent(q, t) && |items| <= 1
    ensures Recent(Rest(q, t) + Tag(items, t), t + 1)
  {
    DueIsFourOld(q, t);
  }

  lemma RoundLinkOk<U, E, S>(b: Bodies<U, E, S>, r: Rnti, l: Link<U, E>, e: E, gs: seq<UlGrant>, t: nat)
    requires LinkOk(l, t) && |gs| <= 1
    ensures LinkOk(RoundLink(b, r, l, e, gs, t), t + 1)
  {
    var due := Due(l.grant, t);
    DueIsFourOld(l.grant, t);
    var pdus := UeSent(b, r, l.u, Due(l.phich, t), due, t).1;
    RecentNext(l.sr, AsSeq(UeRan(b, r, l.u, Due(l.phich, t), due, t).1), t);
    RecentNext(l.grant, gs, t);
    RecentNext(l.pdu, pdus, t);
    RecentNext(l.phich, PduReceived(b, e, Due(l.pdu, t)).1, t);
  }

  // ---- What is asked of the scheduler ----

  /** Scheduling keeps the set of UEs and gives each of them at most one grant. */
  ghost predicate Schedules<U, E(!new), S(!new)>(b: Bodies<U, E, S>) {
    forall cells: map<Rnti, E>, shared: S, t: nat ::
      var plan := b.schedule(cells, shared, t);
      SameDomain(cells, plan.0) && OneGrantEach(plan.2) && forall i :: 0 <= i < |plan.2| ==> plan.2[i].0 in cells
  }

  predicate OneGrantEach(gs: seq<(Rnti, UlGrant)>) {
    forall i, j :: 0 <= i < j < |gs| ==> gs[i].0 != gs[j].0
  }

  lemma {:induction false} NoGrantFor(gs: seq<(Rnti, UlGrant)>, r: Rnti)
    requires forall i :: 0 <= i < |gs| ==> gs[i].0 != r
    ensures GrantsFor(gs, r) == []
    decreases |gs|
  {
    if gs != [] { NoGrantFor(gs[..|gs| - 1], r); }
  }

  lemma {:induction false} OneGrantFor(gs: seq<(Rnti, UlGrant)>, r: Rnti)
    requires OneGrantEach(gs)
    ensures |GrantsFor(gs, r)| <= 1
    decreases |gs|
  {
    if gs != [] {
      if gs[|gs| - 1].0 == r { NoGrantFor(gs[..|gs| - 1], r); } else { OneGrantFor(gs[..|gs| - 1], r); }
    }
  }

  lemma KeysKept<U, E(!new), S(!new)>(b: Bodies<U, E, S>, c: Cell<U, E, S>, t: nat)
    requires Schedules(b)
    ensures KeepsKeys(b, c, t)
  {
    var cells := Requested(b, c, t);
    assert SameDomain(cells, b.schedule(cells, c.shared, t).0);
    assert forall r :: r in c.links <==> r in cells;
  }

  lemma RoundOk<U, E(!new), S(!new)>(b: Bodies<U, E, S>, c: Cell<U, E, S>, t: nat)
    requires Schedules(b) && CellOk(c, t) && KeepsKeys(b, c, t)
    ensures CellOk(Round(b, c, t), t + 1)
  {
    var cells := Requested(b, c, t);
    var plan := b.schedule(cells, c.shared, t);
    assert OneGrantEach(plan.2);
    forall r | r in c.links ensures LinkOk(RoundLink(b, r, c.links[r], plan.0[r], GrantsFor(plan.2, r), t), t + 1) {
      OneGrantFor(plan.2, r);
      RoundLinkOk(b, r, c.links[r], plan.0[r], GrantsFor(plan.2, r), t);
    }
  }

  // ---- The threaded system between TTIs ----

  predicate OwnersKnown<T, V>(q: Queue<T>, owner: T -> Rnti, known: map<Rnti, V>) {
    forall i :: 0 <= i < |q| ==> owner(q[i].item) in known
  }

  /** A shared queue between TTIs. */
  predicate SharedReady<T, V>(q: Queue<T>, owner: T -> Rnti, known: map<Rnti, V>, t: nat) {
    Sorted(q) && OwnersKnown(q, owner, known) && forall i :: 0 <= i < |q| ==> q[i].sendTti < t
  }

  ghost predicate SysOk<U, E, S>(s: Sys<U, E, S>, t: nat) {
    && AtStart(s) && SameKeys(s)
    && SharedReady(s.sr, SrRnti, s.ues, t) && SharedReady(s.pdu, PduRnti, s.ues, t)
    && forall r :: r in s.ues ==> LinkOk(LinkAt(s, r), t)
  }

  lemma SharedNext<T, V>(q0: Queue<T>, t: nat, owner: T -> Rnti, pushed: map<Rnti, seq<T>>, q: Queue<T>,
                         known0: map<Rnti, V>, known: map<Rnti, V>)
    requires SharedReady(q0, owner, known0, t) && SharedOk(q0, VisibleCount(q0, t), t, owner, pushed, q)
    requires SameDomain(pushed, known) && SameDomain(known0, known)
    ensures SharedReady(q, owner, known, t + 1)
  {
    var k := |q0| - VisibleCount(q0, t);
    forall i | 0 <= i < |q| ensures owner(q[i].item) in known && q[i].sendTti <= t && (i >= k ==> q[i].sendTti == t) {
      if i < k {
        assert q[..k][i] == q0[VisibleCount(q0, t)..][i];
      } else {
        assert q[k..][i - k] == q[i];
      }
    }
    forall i, j | 0 <= i <= j < |q| ensures q[i].sendTti <= q[j].sendTti {
      if j < k {
        assert q[..k][i] == q0[VisibleCount(q0, t)..][i] && q[..k][j] == q0[VisibleCount(q0, t)..][j];
      }
    }
  }

  lemma {:induction false} OnlyContains<T>(q: Queue<T>, owner: T -> Rnti, i: nat) returns (k: nat)
    requires i < |q|
    ensures k < |Only(q, owner, owner(q[i].item))| && Only(q, owner, owner(q[i].item))[k] == q[i]
    decreases |q|
  {
    var front := q[..|q| - 1];
    if i == |front| {
      k := |Only(front, owner, owner(q[i].item))|;
    } else {
      k := OnlyContains(front, owner, i);
    }
  }

  lemma {:induction false} OnlyKeepsOrder<T>(q: Queue<T>, owner: T -> Rnti, i: nat, j: nat) returns (k: nat, m: nat)
    requires i < j < |q| && owner(q[i].item) == owner(q[j].item)
    ensures var own := Only(q, owner, owner(q[i].item)); k < m < |own| && own[k] == q[i] && own[m] == q[j]
    decreases |q|
  {
    var front := q[..|q| - 1];
    if j == |front| {
      k := OnlyContains(front, owner, i);
      m := |Only(front, owner, owner(q[i].item))|;
    } else {
      k, m := OnlyKeepsOrder(front, owner, i, j);
    }
  }

  lemma OnePduDue<U, E, S>(s: Sys<U, E, S>, t: nat)
    requires SysOk(s, t)
    ensures OnePduEach(s.pdu, t)
  {
    forall i, j | 0 <= i < j < VisibleCount(s.pdu, t) ensures s.pdu[i].item.rnti != s.pdu[j].item.rnti {
      assert Visible(s.pdu[i], t) && Visible(s.pdu[j], t);
      assert PduRnti(s.pdu[i].item) in s.ues;
      assert LinkOk(LinkAt(s, s.pdu[i].item.rnti), t);
      if s.pdu[i].item.rnti == s.pdu[j].item.rnti {
        var k, m := OnlyKeepsOrder(s.pdu, PduRnti, i, j);
      }
    }
  }

  lemma EntriesReady<T, V>(q: Queue<T>, owner: T -> Rnti, known: map<Rnti, V>, t: nat)
    requires SharedReady(q, owner, known, t)
    ensures SentBefore(q, t) && forall e <- q :: owner(e.item) in known
  {
  }

  lemma SysStartOk<U, E(!new), S(!new)>(b: Bodies<U, E, S>, s: Sys<U, E, S>, t: nat)
    requires Schedules(b) && SysOk(s, t)
    ensures StartOk(b, s, t)
  {
    OnePduDue(s, t);
    KeysKept(b, ViewOf(s), t);
    PlanGrantsKnown(b, s, t);
    forall r | r in s.ues ensures SentBefore(s.grant[r], t) && SentBefore(s.phich[r], t) {
      assert LinkOk(LinkAt(s, r), t);
    }
    EntriesReady(s.sr, SrRnti, s.ues, t);
    EntriesReady(s.pdu, PduRnti, s.ues, t);
    assert forall e <- s.sr :: SrRnti(e.item) in s.ues;
    assert forall e <- s.pdu :: PduRnti(e.item) in s.ues;
  }

  lemma PlanGrantsKnown<U, E(!new), S(!new)>(b: Bodies<U, E, S>, s: Sys<U, E, S>, t: nat)
    requires Schedules(b) && SameKeys(s)
    ensures forall i :: 0 <= i < |Plan(b, s, t).2| ==> Plan(b, s, t).2[i].0 in s.ues
  {
    var cells := Requested(b, ViewOf(s), t);
    assert SameDomain(cells, b.schedule(cells, s.shared, t).0);
    assert forall r :: r in cells <==> r in s.ues;
  }

  // ---- Whole runs ----

  /** One TTI under some interleaving, after which the workers enter the next one. */
  ghost predicate RunsTti<U(!new), E(!new), S(!new)>(b: Bodies<U, E, S>, s: Sys<U, E, S>, acts: seq<Actor>,
                                                     s': Sys<U, E, S>, t: nat) {
    exists end :: Interleaves(b, s, acts, end, t) && AtEnd(end) && s' == Restarted(end)
  }

  /** A run over consecutive TTIs from t, one interleaving per TTI; states[k] is the system at the start of TTI t +
      k. */
  ghost predicate Runs<U(!new), E(!new), S(!new)>(b: Bodies<U, E, S>, states: seq<Sys<U, E, S>>, acts: seq<seq<Actor>>,
                                                  t: nat) {
    |states| == |acts| + 1 && forall k :: 0 <= k < |acts| ==> RunsTti(b, states[k], acts[k], states[k + 1], t + k)
  }

  ghost function NextRound<U, E(!new), S(!new)>(b: Bodies<U, E, S>, c: Cell<U, E, S>, t: nat): Cell<U, E, S>
    requires Schedules(b)
  {
    KeysKept(b, c, t);
    Round(b, c, t)
  }

  /** The cell at the start of TTI `end`, after sequential rounds from TTI `start`. */
  ghost function Rounds<U, E(!new), S(!new)>(b: Bodies<U, E, S>, c: Cell<U, E, S>, start: nat, end: nat): Cell<U, E, S>
    requires Schedules(b)
    decreases end
  {
    if end <= start then c else NextRound(b, Rounds(b, c, start, end - 1), end - 1)
  }

  lemma EndShared<U, E, S>(b: Bodies<U, E, S>, s0: Sys<U, E, S>, t: nat, s: Sys<U, E, S>)
    requires SharedReady(s0.sr, SrRnti, s0.ues, t) && SharedReady(s0.pdu, PduRnti, s0.ues, t)
    requires SameKeys(s0) && SameDomain(s0.ues, s.ues)
    requires UeSide(b, s0, t, s, VisibleCount(s0.sr, t), VisibleCount(s0.pdu, t))
    ensures SharedReady(s.sr, SrRnti, s.ues, t + 1) && SharedReady(s.pdu, PduRnti, s.ues, t + 1)
  {
    SharedNext(s0.sr, t, SrRnti, SrPushes(s.ues), s.sr, s0.ues, s.ues);
    SharedNext(s0.pdu, t, PduRnti, PduPushes(s.ues), s.pdu, s0.ues, s.ues);
  }

  lemma RestartedView<U, E, S>(s: Sys<U, E, S>)
    requires SameKeys(s)
    ensures SameKeys(Restarted(s)) && ViewOf(Restarted(s)) == ViewOf(s)
    ensures forall r :: r in s.ues ==> LinkAt(Restarted(s), r) == LinkAt(s, r)
  {
    var s' := Restarted(s);
    assert forall r: Rnti :: r in s'.ues <==> r in s.ues;
  }

  lemma OneTti<U(!new), E(!new), S(!new)>(b: Bodies<U, E, S>, s: Sys<U, E, S>, acts: seq<Actor>, end: Sys<U, E, S>,
                                          t: nat)
    requires Schedules(b) && SysOk(s, t) && Interleaves(b, s, acts, end, t) && AtEnd(end)
    ensures SysOk(Restarted(end), t + 1) && KeepsKeys(b, ViewOf(s), t)
      && ViewOf(Restarted(end)) == Round(b, ViewOf(s), t)
  {
    SysStartOk(b, s, t);
    InterleavingIndependence(b, s, acts, end, t);
    InvAtStart(b, s, t);
    RunInv(b, s, s, acts, end, t);
    EndInv(b, s, t, end);
    EndShared(b, s, t, end);
    RestartedView(end);
    ViewLinks(s);
    ViewLinks(end);
    RoundOk(b, ViewOf(s), t);
    RestartedOk(end, t + 1);
  }

  lemma RestartedOk<U, E, S>(end: Sys<U, E, S>, t: nat)
    requires SameKeys(end) && SharedReady(end.sr, SrRnti, end.ues, t) && SharedReady(end.pdu, PduRnti, end.ues, t)
    requires forall r :: r in ViewOf(end).links ==> LinkOk(ViewOf(end).links[r], t)
    ensures SysOk(Restarted(end), t)
  {
    RestartedView(end);
    ViewLinks(end);
    forall r | r in Restarted(end).ues ensures LinkOk(LinkAt(Restarted(end), r), t) {
      assert r in end.ues;
    }
  }

  /** Equality with x, as a function value so that the solver does not take states as large as a cell apart. */
  ghost function Is<X>(x: X): X -> bool {
    y => y == x
  }

  lemma TtiIsRound<U(!new), E(!new), S(!new)>(b: Bodies<U, E, S>, s: Sys<U, E, S>, acts: seq<Actor>, s': Sys<U, E, S>,
                                              t: nat)
    requires Schedules(b) && SysOk(s, t) && RunsTti(b, s, acts, s', t)
    ensures SysOk(s', t + 1) && Is(NextRound(b, ViewOf(s), t))(ViewOf(s'))
  {
    var end :| Interleaves(b, s, acts, end, t) && AtEnd(end) && s' == Restarted(end);
    OneTti(b, s, acts, end, t);
  }

  lemma IsRound<U, E(!new), S(!new)>(b: Bodies<U, E, S>, before: Cell<U, E, S>, v: Cell<U, E, S>, w: Cell<U, E, S>,
                                     t: nat)
    requires Schedules(b) && Is(before)(v) && Is(NextRound(b, v, t))(w)
    ensures Is(NextRound(b, before, t))(w)
  {
  }

  lemma RoundTaken<U(!new), E(!new), S(!new)>(b: Bodies<U, E, S>, c: Cell<U, E, S>, start: nat, t: nat, next: nat,
                                              inv: (Cell<U, E, S>, nat) -> bool)
    requires Schedules(b) && start <= t && next == t + 1 && inv(NextRound(b, Rounds(b, c, start, t), t), next)
    ensures inv(Rounds(b, c, start, next), next)
  {
  }

  /** The threaded system stands, at the start of TTI t, where the sequential rounds from c in TTI `start` do. */
  ghost function InStep<U(!new), E(!new), S(!new)>(b: Bodies<U, E, S>, c: Cell<U, E, S>, start: nat)
    : (Sys<U, E, S>, nat) -> bool
    requires Schedules(b)
  {
    (s: Sys<U, E, S>, t: nat) => SysOk(s, t) && Is(Rounds(b, c, start, t))(ViewOf(s))
  }

  lemma NoRounds<U(!new), E(!new), S(!new)>(b: Bodies<U, E, S>, c: Cell<U, E, S>, t: nat)
    requires Schedules(b)
    ensures Is(Rounds(b, c, t, t))(c)
  {
  }

  lemma StartsInStep<U(!new), E(!new), S(!new)>(b: Bodies<U, E, S>, s: Sys<U, E, S>, t: nat)
    requires Schedules(b) && SysOk(s, t)
    ensures InStep(b, ViewOf(s), t)(s, t)
  {
    NoRounds(b, ViewOf(s), t);
    assert InStep(b, ViewOf(s), t)(s, t) == (SysOk(s, t) && Is(Rounds(b, ViewOf(s), t, t))(ViewOf(s)));
  }

  lemma InStepMeans<U(!new), E(!new), S(!new)>(b: Bodies<U, E, S>, c: Cell<U, E, S>, start: nat, s: Sys<U, E, S>,
                                               t: nat)
    requires Schedules(b) && InStep(b, c, start)(s, t)
    ensures SysOk(s, t) && Is(Rounds(b, c, start, t))(ViewOf(s))
  {
  }

  lemma StaysInStep<U(!new), E(!new), S(!new)>(b: Bodies<U, E, S>, c: Cell<U, E, S>, start: nat, s: Sys<U, E, S>,
                                               acts: seq<Actor>, s': Sys<U, E, S>, t: nat, next: nat)
    requires Schedules(b) && InStep(b, c, start)(s, t) && RunsTti(b, s, acts, s', t) && start <= t && next == t + 1
    ensures InStep(b, c, start)(s', next)
  {
    TtiIsRound(b, s, acts, s', t);
    IsRound(b, Rounds(b, c, start, t), ViewOf(s), ViewOf(s'), t);
    RoundTaken(b, c, start, t, next, (d: Cell<U, E, S>, u: nat) => Is(d)(ViewOf(s')));
  }

  /** Whatever the interleavings, the threaded system goes through the states of the sequential rounds. */
  lemma {:induction false} RunsAreRounds<U(!new), E(!new), S(!new)>(b: Bodies<U, E, S>, states: seq<Sys<U, E, S>>,
      acts: seq<seq<Actor>>, t: nat, n: nat, now: nat)
    requires Schedules(b) && Runs(b, states, acts, t) && SysOk(states[0], t) && n <= |acts| && now == t + n
    ensures InStep(b, ViewOf(states[0]), t)(states[n], now)
    decreases n
  {
    if n == 0 {
      StartsInStep(b, states[0], t);
    } else {
      RunsAreRounds(b, states, acts, t, n - 1, now - 1);
      assert RunsTti(b, states[n - 1], acts[n - 1], states[n - 1 + 1], t + (n - 1));
      StaysInStep(b, ViewOf(states[0]), t, states[n - 1], acts[n - 1], states[n], now - 1, now);
    }
  }

  /** Two runs from the same start agree at the start of every TTI that both reach. */
  lemma RunsAgree<U(!new), E(!new), S(!new)>(b: Bodies<U, E, S>, r1: seq<Sys<U, E, S>>, a1: seq<seq<Actor>>,
                                             r2: seq<Sys<U, E, S>>, a2: seq<seq<Actor>>, t: nat, n: nat)
    requires Schedules(b) && Runs(b, r1, a1, t) && Runs(b, r2, a2, t) && r1[0] == r2[0] && SysOk(r1[0], t)
    requires n <= |a1| && n <= |a2|
    ensures SameKeys(r1[n]) && SameKeys(r2[n]) && Is(ViewOf(r1[n]))(ViewOf(r2[n]))
  {
    RunsAreRounds(b, r1, a1, t, n, t + n);
    RunsAreRounds(b, r2, a2, t, n, t + n);
    InStepMeans(b, ViewOf(r1[0]), t, r1[n], t + n);
    InStepMeans(b, ViewOf(r1[0]), t, r2[n], t + n);
  }

  /** What holds at the start of TTI `mid`, and what every round up to TTI `until` keeps, holds until then. */
  lemma {:induction false} RoundsKeep<U(!new), E(!new), S(!new)>(b: Bodies<U, E, S>, c: Cell<U, E, S>, start: nat,
      mid: nat, end: nat, until: nat, inv: (Cell<U, E, S>, nat) -> bool)
    requires Schedules(b) && start <= mid <= end <= until && inv(Rounds(b, c, start, mid), mid)
    requires forall c': Cell<U, E, S>, t: nat, next: nat {:trigger inv(NextRound(b, c', t), next)} ::
               t < until && inv(c', t) && next == t + 1 ==> inv(NextRound(b, c', t), next)
    ensures inv(Rounds(b, c, start, end), end)
    decreases end
  {
    if mid < end {
      RoundsKeep(b, c, start, mid, end - 1, until, inv);
    }
  }
}
