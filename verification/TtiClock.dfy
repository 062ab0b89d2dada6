/** The barrier clock that advances all worker threads TTI by TTI (tti_clock and run_tti_worker). A wait on the
    condition variable is a step that is enabled when its predicate holds; every critical section is one atomic step. */
module TtiClocks {

  /** Initial value of the TTI counter: no worker may start before the clock announces TTI 0. */
  const NOT_ANNOUNCED: nat := 0xFFFF_FFFF

  // ---- The clock's shared variables ----

  datatype Shared = Shared(current: nat, doneCount: nat, done: bool)

  function Announced(v: Shared, t: nat): Shared {
    v.(current := t, doneCount := 0)
  }

  function Marked(v: Shared): Shared {
    v.(doneCount := v.doneCount + 1)
  }

  function Finished(v: Shared, maxTti: nat): Shared {
    v.(current := maxTti + 1, done := true)
  }

  predicate MayProceed(v: Shared, target: nat) {
    v.done || v.current == target
  }

  class TtiClock {
    const maxTti: nat
    const numWorkers: nat
    var current: nat
    var doneCount: nat
    var done: bool

    constructor (maxTti: nat, numWorkers: nat)
      ensures this.maxTti == maxTti && this.numWorkers == numWorkers
      ensures Vars() == Shared(NOT_ANNOUNCED, 0, false)
    {
      this.maxTti, this.numWorkers := maxTti, numWorkers;
      current, doneCount, done := NOT_ANNOUNCED, 0, false;
    }

    function Vars(): Shared
      reads this
    {
      Shared(current, doneCount, done)
    }

    method Announce(t: nat)
      modifies this
      ensures Vars() == Announced(old(Vars()), t)
    {
      current := t;
      doneCount := 0;
    }

    method MarkTtiDone()
      modifies this
      ensures Vars() == Marked(old(Vars()))
    {
      doneCount := doneCount + 1;
    }

    method Finish()
      modifies this
      ensures Vars() == Finished(old(Vars()), maxTti)
    {
      current := maxTti + 1;
      done := true;
    }
  }

  // ---- Threads ----

  datatype WorkerPc = Waiting(tti: nat) | Checking(tti: nat) | InBody(tti: nat) | Marking(tti: nat) | Exited

  datatype ClockPc = Announcing(tti: nat) | Barrier(tti: nat) | Finishing | Stopped

  /** `log[i]` lists the TTIs whose body worker i has executed. */
  datatype Sys = Sys(maxTti: nat, clock: ClockPc, vars: Shared, workers: seq<WorkerPc>, log: seq<seq<nat>>)

  datatype Action = ClockStep | WorkerStep(i: nat)

  function Init(maxTti: nat, n: nat): Sys {
    Sys(maxTti, Announcing(0), Shared(NOT_ANNOUNCED, 0, false), seq(n, _ => Waiting(0)), seq(n, _ => []))
  }

  predicate Enabled(s: Sys, a: Action) {
    match a
    case ClockStep => !s.clock.Stopped? && (s.clock.Barrier? ==> s.vars.doneCount >= |s.workers|)
    case WorkerStep(i) =>
      && i < |s.workers| && i < |s.log|
      && !s.workers[i].Exited?
      && (s.workers[i].Waiting? ==> MayProceed(s.vars, s.workers[i].tti))
  }

  function Step(s: Sys, a: Action): Sys
    requires Enabled(s, a)
  {
    match a
    case ClockStep =>
      (match s.clock
       case Announcing(t) => s.(clock := Barrier(t), vars := Announced(s.vars, t))
       case Barrier(t) => s.(clock := if t + 1 <= s.maxTti then Announcing(t + 1) else Finishing)
       case Finishing => s.(clock := Stopped, vars := Finished(s.vars, s.maxTti))
       case Stopped => s)
    case WorkerStep(i) =>
      match s.workers[i]
      case Waiting(k) => s.(workers := s.workers[i := Checking(k)])
      case Checking(k) => s.(workers := s.workers[i := if s.vars.done then Exited else InBody(k)])
      case InBody(k) => s.(workers := s.workers[i := Marking(k)], log := s.log[i := s.log[i] + [k]])
      case Marking(k) => s.(workers := s.workers[i := NextWait(k, s.maxTti)], vars := Marked(s.vars))
      case Exited => s
  }

  function NextWait(k: nat, maxTti: nat): WorkerPc {
    if k + 1 <= maxTti then Waiting(k + 1) else Exited
  }

  predicate Final(s: Sys) {
    s.clock.Stopped? && forall i :: 0 <= i < |s.workers| ==> s.workers[i].Exited?
  }

  /** Any interleaving: a sequence of actions, each enabled when it is taken. */
  ghost predicate IsRun(s: Sys, acts: seq<Action>, end: Sys)
    decreases |acts|
  {
    if acts == [] then s == end
    else Enabled(s, acts[0]) && IsRun(Step(s, acts[0]), acts[1..], end)
  }

  // ---- The invariant ----

  function UpTo(k: nat): (s: seq<nat>)
    ensures |s| == k && forall i :: 0 <= i < k ==> s[i] == i
  {
    seq(k, i => i)
  }

  function BodiesRun(w: WorkerPc, maxTti: nat): nat {
    match w
    case Marking(k) => k + 1
    case Exited => maxTti + 1
    case _ => w.tti
  }

  predicate Past(w: WorkerPc, t: nat, maxTti: nat) {
    w == NextWait(t, maxTti)
  }

  predicate AtTti(w: WorkerPc, t: nat) {
    !w.Exited? && w.tti == t
  }

  function CountPast(ws: seq<WorkerPc>, t: nat, maxTti: nat): (n: nat)
    ensures n <= |ws|
  {
    if ws == [] then 0
    else (if Past(ws[|ws| - 1], t, maxTti) then 1 else 0) + CountPast(ws[..|ws| - 1], t, maxTti)
  }

  /** Every worker has run its body for the TTIs before the one it is in, in order. */
  predicate LogsOk(s: Sys) {
    |s.workers| == |s.log| && forall i :: 0 <= i < |s.log| ==> s.log[i] == UpTo(BodiesRun(s.workers[i], s.maxTti))
  }

  predicate Inv(s: Sys) {
    && |s.workers| > 0 && LogsOk(s)
    && s.maxTti < NOT_ANNOUNCED
    && (s.vars.done <==> s.clock.Stopped?)
    && match s.clock
       case Announcing(t) =>
         && t <= s.maxTti
         && s.vars.current == (if t == 0 then NOT_ANNOUNCED else t - 1)
         && (forall i :: 0 <= i < |s.workers| ==> s.workers[i] == Waiting(t))
       case Barrier(t) =>
         && t == s.vars.current <= s.maxTti
         && (forall i :: 0 <= i < |s.workers| ==> AtTti(s.workers[i], t) || Past(s.workers[i], t, s.maxTti))
         && s.vars.doneCount == CountPast(s.workers, t, s.maxTti)
       case _ => forall i :: 0 <= i < |s.workers| ==> s.workers[i].Exited?
  }

  lemma {:induction false} CountPastUpdate(ws: seq<WorkerPc>, t: nat, maxTti: nat, i: nat, w: WorkerPc)
    requires i < |ws|
    ensures CountPast(ws[i := w], t, maxTti) ==
            CountPast(ws, t, maxTti) + (if Past(w, t, maxTti) then 1 else 0) - (if Past(ws[i], t, maxTti) then 1 else 0)
  {
    if i < |ws| - 1 {
      CountPastUpdate(ws[..|ws| - 1], t, maxTti, i, w);
      assert ws[i := w][..|ws| - 1] == ws[..|ws| - 1][i := w];
    } else {
      assert ws[i := w][..|ws| - 1] == ws[..|ws| - 1];
    }
  }

  lemma {:induction false} CountPastFull(ws: seq<WorkerPc>, t: nat, maxTti: nat)
    ensures CountPast(ws, t, maxTti) == |ws| <==> forall i :: 0 <= i < |ws| ==> Past(ws[i], t, maxTti)
    ensures CountPast(ws, t, maxTti) == 0 <==> forall i :: 0 <= i < |ws| ==> !Past(ws[i], t, maxTti)
  {
    if ws != [] {
      CountPastFull(ws[..|ws| - 1], t, maxTti);
      assert forall i :: 0 <= i < |ws| - 1 ==> ws[i] == ws[..|ws| - 1][i];
    }
  }

  lemma InitInv(maxTti: nat, n: nat)
    requires maxTti < NOT_ANNOUNCED && n >= 1
    ensures Inv(Init(maxTti, n))
  {
  }

  lemma ClockStepInv(s: Sys)
    requires Inv(s) && Enabled(s, ClockStep)
    ensures Inv(Step(s, ClockStep))
  {
    match s.clock
    case Announcing(t) => CountPastFull(s.workers, t, s.maxTti);
    case Barrier(t) => CountPastFull(s.workers, t, s.maxTti);
    case _ =>
  }

  lemma OneMoreBody(k: nat, s: seq<nat>)
    requires s == UpTo(k)
    ensures s + [k] == UpTo(k + 1)
  {
  }

  lemma WorkerKeepsLogs(s: Sys, i: nat)
    requires LogsOk(s) && Enabled(s, WorkerStep(i)) && !s.vars.done && s.workers[i].tti <= s.maxTti
    ensures LogsOk(Step(s, WorkerStep(i)))
  {
    if s.workers[i].InBody? { OneMoreBody(s.workers[i].tti, s.log[i]); }
  }

  /** Only a barrier lets a worker move, and the worker stays in the announced TTI or enters the next one. */
  lemma WorkerAtBarrier(s: Sys, i: nat)
    requires Inv(s) && Enabled(s, WorkerStep(i))
    ensures s.clock.Barrier? && AtTti(s.workers[i], s.vars.current)
    ensures var (w, t) := (Step(s, WorkerStep(i)).workers[i], s.vars.current); AtTti(w, t) || Past(w, t, s.maxTti)
    ensures Past(Step(s, WorkerStep(i)).workers[i], s.vars.current, s.maxTti) <==> s.workers[i].Marking?
  {
  }

  lemma WorkerStepInv(s: Sys, i: nat)
    requires Inv(s) && Enabled(s, WorkerStep(i))
    ensures Inv(Step(s, WorkerStep(i)))
  {
    WorkerAtBarrier(s, i);
    WorkerKeepsLogs(s, i);
    CountPastUpdate(s.workers, s.vars.current, s.maxTti, i, Step(s, WorkerStep(i)).workers[i]);
  }

  // ---- Run measure: every step uses up exactly one unit ----

  function WorkerRank(w: WorkerPc, maxTti: nat): int {
    match w
    case Waiting(k) => 4 * (maxTti + 1 - k)
    case Checking(k) => 4 * (maxTti + 1 - k) - 1
    case InBody(k) => 4 * (maxTti + 1 - k) - 2
    case Marking(k) => 4 * (maxTti + 1 - k) - 3
    case Exited => 0
  }

  function WorkerRanks(ws: seq<WorkerPc>, maxTti: nat): int {
    if ws == [] then 0 else WorkerRank(ws[|ws| - 1], maxTti) + WorkerRanks(ws[..|ws| - 1], maxTti)
  }

  function ClockRank(c: ClockPc, maxTti: nat): int {
    match c
    case Announcing(t) => 2 * (maxTti - t) + 3
    case Barrier(t) => 2 * (maxTti - t) + 2
    case Finishing => 1
    case Stopped => 0
  }

  function Rank(s: Sys): int {
    ClockRank(s.clock, s.maxTti) + WorkerRanks(s.workers, s.maxTti)
  }

  lemma {:induction false} WorkerRanksUpdate(ws: seq<WorkerPc>, maxTti: nat, i: nat, w: WorkerPc)
    requires i < |ws|
    ensures WorkerRanks(ws[i := w], maxTti) ==
        WorkerRanks(ws, maxTti) + WorkerRank(w, maxTti) - WorkerRank(ws[i], maxTti)
  {
    if i < |ws| - 1 {
      WorkerRanksUpdate(ws[..|ws| - 1], maxTti, i, w);
      assert ws[i := w][..|ws| - 1] == ws[..|ws| - 1][i := w];
    } else {
      assert ws[i := w][..|ws| - 1] == ws[..|ws| - 1];
    }
  }

  lemma {:induction false} WorkerRanksBounds(ws: seq<WorkerPc>, maxTti: nat)
    requires forall i :: 0 <= i < |ws| ==> ws[i].Exited? || ws[i].tti <= maxTti
    ensures WorkerRanks(ws, maxTti) >= 0
    ensures WorkerRanks(ws, maxTti) == 0 <==> forall i :: 0 <= i < |ws| ==> ws[i].Exited?
  {
    if ws != [] {
      WorkerRanksBounds(ws[..|ws| - 1], maxTti);
      assert forall i :: 0 <= i < |ws| - 1 ==> ws[i] == ws[..|ws| - 1][i];
    }
  }

  lemma {:induction false} InitialWorkerRanks(n: nat, maxTti: nat)
    ensures WorkerRanks(seq(n, _ => Waiting(0)), maxTti) == n * 4 * (maxTti + 1)
  {
    var ws := seq(n, _ => Waiting(0));
    if n > 0 {
      InitialWorkerRanks(n - 1, maxTti);
      assert ws[..n - 1] == seq(n - 1, _ => Waiting(0));
      assert n * 4 * (maxTti + 1) == (n - 1) * 4 * (maxTti + 1) + 4 * (maxTti + 1);
    }
  }

  lemma WorkerStepRank(s: Sys, i: nat)
    requires Inv(s) && Enabled(s, WorkerStep(i))
    ensures Rank(Step(s, WorkerStep(i))) == Rank(s) - 1
  {
    WorkerAtBarrier(s, i);
    WorkerRanksUpdate(s.workers, s.maxTti, i, Step(s, WorkerStep(i)).workers[i]);
  }

  /** Each enabled step keeps the invariant and lowers the measure by exactly one. */
  lemma StepInvAndRank(s: Sys, a: Action)
    requires Inv(s) && Enabled(s, a)
    ensures Inv(Step(s, a)) && Rank(Step(s, a)) == Rank(s) - 1
  {
    match a
    case ClockStep =>
      ClockStepInv(s);
    case WorkerStep(i) =>
      WorkerStepInv(s, i);
      WorkerStepRank(s, i);
  }

  /** No deadlock: whenever the run is not over, some thread can take a step. */
  lemma SomeActionEnabled(s: Sys) returns (a: Action)
    requires Inv(s) && !Final(s)
    ensures Enabled(s, a)
  {
    a := ClockStep;
    if s.clock.Barrier? && s.vars.doneCount < |s.workers| {
      var t := s.clock.tti;
      CountPastFull(s.workers, t, s.maxTti);
      var i :| 0 <= i < |s.workers| && !Past(s.workers[i], t, s.maxTti);
      a := WorkerStep(i);
    }
  }

  lemma {:induction false} RunInv(s: Sys, acts: seq<Action>, end: Sys)
    requires Inv(s) && IsRun(s, acts, end)
    ensures Inv(end) && Rank(end) == Rank(s) - |acts|
    ensures end.maxTti == s.maxTti && |end.workers| == |s.workers|
    decreases |acts|
  {
    if acts != [] {
      StepInvAndRank(s, acts[0]);
      RunInv(Step(s, acts[0]), acts[1..], end);
    }
  }

  /** Barrier correctness, in every state any interleaving of n workers and the clock can reach: every worker has run
      its body exactly once for each TTI of a prefix 0,1,..; workers inside a body are all in the TTI the clock
      announced; and the end flag is only ever up when no worker owes a TTI. */
  lemma BarrierIsSafe(maxTti: nat, n: nat, acts: seq<Action>, s: Sys)
    requires maxTti < NOT_ANNOUNCED && n >= 1
    requires IsRun(Init(maxTti, n), acts, s)
    ensures |s.log| == |s.workers| == n
    ensures forall i :: 0 <= i < n ==> s.log[i] == UpTo(|s.log[i]|) && |s.log[i]| <= maxTti + 1
    ensures forall i :: 0 <= i < n && s.workers[i].InBody? ==> s.workers[i].tti == s.vars.current == |s.log[i]|
    ensures forall i, j :: 0 <= i < n && 0 <= j < n ==> |s.log[i]| <= |s.log[j]| + 1
    ensures forall i :: 0 <= i < n && s.vars.done ==> s.log[i] == UpTo(maxTti + 1)
  {
    InitInv(maxTti, n);
    RunInv(Init(maxTti, n), acts, s);
    assert forall i :: 0 <= i < n ==> |s.log[i]| == BodiesRun(s.workers[i], maxTti);
  }

  lemma NoRankIsFinal(s: Sys)
    requires Inv(s)
    ensures Rank(s) >= 0 && (Final(s) <==> Rank(s) == 0)
    ensures Final(s) <==> forall a :: !Enabled(s, a)
  {
    WorkerRanksBounds(s.workers, s.maxTti);
    if !Final(s) {
      var a := SomeActionEnabled(s);
    }
  }

  /** Liveness: every run takes at most a fixed number of steps; a run that cannot be extended has taken exactly that
      many, and then every worker has run all its TTIs and all threads have stopped. */
  lemma BarrierTerminates(maxTti: nat, n: nat, acts: seq<Action>, s: Sys)
    requires maxTti < NOT_ANNOUNCED && n >= 1
    requires IsRun(Init(maxTti, n), acts, s)
    ensures |acts| <= 4 * n * (maxTti + 1) + 2 * maxTti + 3
    ensures (forall a :: !Enabled(s, a)) <==> |acts| == 4 * n * (maxTti + 1) + 2 * maxTti + 3
    ensures (forall a :: !Enabled(s, a)) <==> Final(s)
    ensures Final(s) ==> forall i :: 0 <= i < |s.log| ==> s.log[i] == UpTo(maxTti + 1)
  {
    InitInv(maxTti, n);
    RunInv(Init(maxTti, n), acts, s);
    InitialWorkerRanks(n, maxTti);
    NoRankIsFinal(s);
    assert n * 4 * (maxTti + 1) == 4 * n * (maxTti + 1);
  }
}
