/** The threads of TtiThreads driven by the clock of TtiClocks: one worker for each UE and one for the eNB, each
    running its body step by step between the clock's announcements. Every run of this machine is a run in the sense
    of TtiRuns. */
module ClockedThreads {
  import opened CommonTypes
  import C = TtiClocks
  import opened TtiThreads
  import opened TtiDeterminism
  import opened TtiRuns

  datatype Machine<U, E, S> = Machine(clock: C.Sys, body: Sys<U, E, S>)

  /** A step of the clock protocol, or a step of worker i's body. */
  datatype Move = Tick(a: C.Action) | Work(i: nat, actor: Actor)

  /** Worker i < |rntis| serves the UE rntis[i]; the last worker is the eNB's, which also owns the tasks it spawns. */
  predicate Owns(rntis: seq<Rnti>, i: nat, a: Actor) {
    match a
    case UeActor(r) => i < |rntis| && rntis[i] == r
    case _ => i == |rntis|
  }

  predicate BodyDone<U, E, S>(rntis: seq<Rnti>, s: Sys<U, E, S>, i: nat) {
    if i < |rntis| then rntis[i] in s.ues && s.ues[rntis[i]].pc == UeDone else s.enb.pc == EnbDone
  }

  function FreshThread<U>(w: UeThread<U>): UeThread<U> {
    UeThread(PopPhich, 0, w.u, [], None, [])
  }

  /** A worker enters its body with fresh local variables. */
  function Entered<U, E, S>(rntis: seq<Rnti>, s: Sys<U, E, S>, i: nat): Sys<U, E, S> {
    if i < |rntis| then
      if rntis[i] in s.ues then s.(ues := s.ues[rntis[i] := FreshThread(s.ues[rntis[i]])]) else s
    else s.(enb := EnbThread(PopSr, 0, []), tasks := [])
  }

  predicate MayMove<U, E, S>(rntis: seq<Rnti>, m: Machine<U, E, S>, mv: Move) {
    match mv
    case Tick(a) =>
      && C.Enabled(m.clock, a)
      && (a.WorkerStep? && m.clock.workers[a.i].InBody? ==> BodyDone(rntis, m.body, a.i))
    case Work(i, a) => i < |m.clock.workers| && m.clock.workers[i].InBody? && Owns(rntis, i, a) && CanStep(m.body, a)
  }

  predicate Enters(c: C.Sys, a: C.Action) {
    a.WorkerStep? && a.i < |c.workers| && c.workers[a.i].Checking? && !c.vars.done
  }

  function Moved<U, E, S>(b: Bodies<U, E, S>, rntis: seq<Rnti>, m: Machine<U, E, S>, mv: Move): Machine<U, E, S>
    requires MayMove(rntis, m, mv)
  {
    match mv
    case Tick(a) => Machine(C.Step(m.clock, a), if Enters(m.clock, a) then Entered(rntis, m.body, a.i) else m.body)
    case Work(i, a) => m.(body := Step(b, m.body, a, m.clock.workers[i].tti))
  }

  /** The machine's states under some interleaving. */
  ghost predicate Traces<U(!new), E(!new), S(!new)>(b: Bodies<U, E, S>, rntis: seq<Rnti>, ms: seq<Machine<U, E, S>>,
                                                    mvs: seq<Move>) {
    |ms| == |mvs| + 1 && forall k :: 0 <= k < |mvs| ==>
      MayMove(rntis, ms[k], mvs[k]) && ms[k + 1] == Moved(b, rntis, ms[k], mvs[k])
  }

  ghost predicate Starts<U, E, S>(rntis: seq<Rnti>, m: Machine<U, E, S>, s: Sys<U, E, S>, maxTti: nat) {
    && m == Machine(C.Init(maxTti, |rntis| + 1), s) && maxTti < C.NOT_ANNOUNCED && AtStart(s)
    && AllDistinct(rntis) && forall r :: r in s.ues <==> r in rntis
  }

  // ---- What the threads of the TTI have done so far ----

  /** The worker has not entered its body of TTI t yet. */
  predicate Outside(w: C.WorkerPc, t: nat) {
    w == C.Waiting(t) || w == C.Checking(t)
  }

  ghost predicate UeOutside(rntis: seq<Rnti>, ws: seq<C.WorkerPc>, r: Rnti, t: nat) {
    exists i :: 0 <= i < |rntis| && i < |ws| && rntis[i] == r && Outside(ws[i], t)
  }

  predicate EnbOutside(rntis: seq<Rnti>, ws: seq<C.WorkerPc>, t: nat) {
    |rntis| < |ws| && Outside(ws[|rntis|], t)
  }

  /** The body as the threads of TTI t see it: who has not entered yet still has to start. */
  ghost function Seen<U, E, S>(rntis: seq<Rnti>, ws: seq<C.WorkerPc>, s: Sys<U, E, S>, t: nat): Sys<U, E, S> {
    s.(ues := map r | r in s.ues :: if UeOutside(rntis, ws, r, t) then FreshThread(s.ues[r]) else s.ues[r],
       enb := if EnbOutside(rntis, ws, t) then EnbThread(PopSr, 0, []) else s.enb,
       tasks := if EnbOutside(rntis, ws, t) then [] else s.tasks)
  }

  /** Nobody is outside: the body is seen as it is. */
  lemma SeenAsIs<U, E, S>(rntis: seq<Rnti>, ws: seq<C.WorkerPc>, s: Sys<U, E, S>, t: nat)
    requires forall i :: 0 <= i < |ws| ==> !Outside(ws[i], t)
    ensures Seen(rntis, ws, s, t) == s
  {
    assert forall r :: r in s.ues ==> !UeOutside(rntis, ws, r, t);
    assert Seen(rntis, ws, s, t).ues == s.ues;
  }

  /** Everybody is outside: the body is seen restarted. */
  lemma SeenRestarted<U, E, S>(rntis: seq<Rnti>, ws: seq<C.WorkerPc>, s: Sys<U, E, S>, t: nat)
    requires |ws| == |rntis| + 1 && (forall i :: 0 <= i < |ws| ==> Outside(ws[i], t))
      && forall r :: r in s.ues ==> r in rntis
    ensures Seen(rntis, ws, s, t) == Restarted(s)
  {
    forall r | r in s.ues ensures UeOutside(rntis, ws, r, t) {
      var i :| 0 <= i < |rntis| && rntis[i] == r;
    }
    assert Seen(rntis, ws, s, t).ues == Restarted(s).ues;
  }

  lemma RestartedAsIs<U, E, S>(s: Sys<U, E, S>)
    requires AtStart(s)
    ensures Restarted(s) == s
  {
    assert Restarted(s).ues == s.ues;
  }

  predicate AllDistinct(rntis: seq<Rnti>) {
    forall i, j :: 0 <= i < j < |rntis| ==> rntis[i] != rntis[j]
  }

  lemma UeOutsideIs(rntis: seq<Rnti>, ws: seq<C.WorkerPc>, i: nat, t: nat)
    requires AllDistinct(rntis) && i < |rntis| && i < |ws|
    ensures UeOutside(rntis, ws, rntis[i], t) <==> Outside(ws[i], t)
  {
  }

  /** A worker's step inside the clock protocol changes how no other worker is seen. */
  lemma OtherOutside(rntis: seq<Rnti>, ws: seq<C.WorkerPc>, i: nat, w: C.WorkerPc, r: Rnti, t: nat)
    requires i < |ws| && (i < |rntis| ==> rntis[i] != r)
    ensures UeOutside(rntis, ws[i := w], r, t) <==> UeOutside(rntis, ws, r, t)
  {
    if UeOutside(rntis, ws, r, t) {
      var j :| 0 <= j < |rntis| && j < |ws| && rntis[j] == r && Outside(ws[j], t);
      assert ws[i := w][j] == ws[j];
    }
    if UeOutside(rntis, ws[i := w], r, t) {
      var j :| 0 <= j < |rntis| && j < |ws| && rntis[j] == r && Outside(ws[i := w][j], t);
      assert ws[i := w][j] == ws[j];
    }
  }

  lemma SeenSame<U, E, S>(rntis: seq<Rnti>, ws: seq<C.WorkerPc>, s: Sys<U, E, S>, i: nat, w: C.WorkerPc, t: nat)
    requires AllDistinct(rntis) && i < |ws| && (Outside(ws[i], t) <==> Outside(w, t))
    ensures Seen(rntis, ws[i := w], s, t) == Seen(rntis, ws, s, t)
  {
    forall r | r in s.ues ensures UeOutside(rntis, ws[i := w], r, t) <==> UeOutside(rntis, ws, r, t) {
      if i < |rntis| && rntis[i] == r {
        UeOutsideIs(rntis, ws, i, t);
        UeOutsideIs(rntis, ws[i := w], i, t);
      } else {
        OtherOutside(rntis, ws, i, w, r, t);
      }
    }
    assert Seen(rntis, ws[i := w], s, t).ues == Seen(rntis, ws, s, t).ues;
  }

  lemma OutsideAfter(rntis: seq<Rnti>, ws: seq<C.WorkerPc>, i: nat, r: Rnti, t: nat)
    requires AllDistinct(rntis) && i < |ws| && r in rntis
    ensures UeOutside(rntis, ws[i := C.InBody(t)], r, t) <==>
            UeOutside(rntis, ws, r, t) && !(i < |rntis| && rntis[i] == r)
  {
    if i < |rntis| && rntis[i] == r {
      UeOutsideIs(rntis, ws[i := C.InBody(t)], i, t);
    } else {
      OtherOutside(rntis, ws, i, C.InBody(t), r, t);
    }
  }

  lemma SeenEnteredUe<U, E, S>(rntis: seq<Rnti>, ws: seq<C.WorkerPc>, s: Sys<U, E, S>, i: nat, t: nat)
    requires AllDistinct(rntis) && i < |rntis| && |ws| == |rntis| + 1 && Outside(ws[i], t)
      && forall r :: r in s.ues <==> r in rntis
    ensures Seen(rntis, ws[i := C.InBody(t)], Entered(rntis, s, i), t) == Seen(rntis, ws, s, t)
  {
    var (ws', s') := (ws[i := C.InBody(t)], Entered(rntis, s, i));
    UeOutsideIs(rntis, ws, i, t);
    forall r | r in s.ues ensures Seen(rntis, ws', s', t).ues[r] == Seen(rntis, ws, s, t).ues[r] {
      OutsideAfter(rntis, ws, i, r, t);
    }
    assert Seen(rntis, ws', s', t).ues == Seen(rntis, ws, s, t).ues;
  }

  lemma SeenEnteredEnb<U, E, S>(rntis: seq<Rnti>, ws: seq<C.WorkerPc>, s: Sys<U, E, S>, t: nat)
    requires |ws| == |rntis| + 1 && Outside(ws[|rntis|], t)
    ensures Seen(rntis, ws[|rntis| := C.InBody(t)], Entered(rntis, s, |rntis|), t) == Seen(rntis, ws, s, t)
  {
    var (ws', s') := (ws[|rntis| := C.InBody(t)], Entered(rntis, s, |rntis|));
    forall r | r in s.ues ensures UeOutside(rntis, ws', r, t) <==> UeOutside(rntis, ws, r, t) {
      OtherOutside(rntis, ws, |rntis|, C.InBody(t), r, t);
    }
    assert Seen(rntis, ws', s', t).ues == Seen(rntis, ws, s, t).ues;
  }

  // ---- Steps of a body ----

  lemma UeStepIsLocal<U, E, S>(b: Bodies<U, E, S>, s: Sys<U, E, S>, r: Rnti, t: nat, ues: map<Rnti, UeThread<U>>,
                               enb: EnbThread, tasks: seq<Task>)
    requires CanStep(s, UeActor(r)) && r in ues && ues[r] == s.ues[r]
    ensures var (v, s') := (s.(ues := ues, enb := enb, tasks := tasks), UeStep(b, s, r, t));
            && CanStep(v, UeActor(r)) && r in s'.ues
            && UeStep(b, v, r, t) == s'.(ues := ues[r := s'.ues[r]], enb := enb, tasks := tasks)
            && s'.ues == s.ues[r := s'.ues[r]] && s'.enb == s.enb && s'.tasks == s.tasks
  {
  }

  lemma PopSrIsLocal<U, E, S>(b: Bodies<U, E, S>, s: Sys<U, E, S>, t: nat, ues: map<Rnti, UeThread<U>>)
    ensures EnbPopSr(b, s.(ues := ues), t) == EnbPopSr(b, s, t).(ues := ues) && EnbPopSr(b, s, t).ues == s.ues
  {
  }

  lemma PopPduIsLocal<U, E, S>(s: Sys<U, E, S>, t: nat, ues: map<Rnti, UeThread<U>>)
    ensures EnbPopPdu(s.(ues := ues), t) == EnbPopPdu(s, t).(ues := ues) && EnbPopPdu(s, t).ues == s.ues
  {
  }

  lemma EnbStepIsLocal<U, E, S>(b: Bodies<U, E, S>, s: Sys<U, E, S>, t: nat, ues: map<Rnti, UeThread<U>>)
    requires CanStep(s, EnbActor)
    ensures CanStep(s.(ues := ues), EnbActor)
    ensures EnbStep(b, s.(ues := ues), t) == EnbStep(b, s, t).(ues := ues) && EnbStep(b, s, t).ues == s.ues
  {
    PopSrIsLocal(b, s, t, ues);
    PopPduIsLocal(s, t, ues);
  }

  lemma TaskStepIsLocal<U, E, S>(b: Bodies<U, E, S>, s: Sys<U, E, S>, k: nat, t: nat, ues: map<Rnti, UeThread<U>>)
    requires CanStep(s, TaskActor(k))
    ensures CanStep(s.(ues := ues), TaskActor(k))
    ensures TaskStep(b, s.(ues := ues), k, t) == TaskStep(b, s, k, t).(ues := ues) && TaskStep(b, s, k, t).ues == s.ues
  {
  }

  lemma SeenUpdate<U, E, S>(rntis: seq<Rnti>, ws: seq<C.WorkerPc>, s: Sys<U, E, S>, s': Sys<U, E, S>, r: Rnti,
                            w: UeThread<U>, t: nat)
    requires !UeOutside(rntis, ws, r, t) && s'.ues == s.ues[r := w] && s'.enb == s.enb && s'.tasks == s.tasks
    ensures var (v, v') := (Seen(rntis, ws, s, t), Seen(rntis, ws, s', t));
            v' == s'.(ues := v.ues[r := w], enb := v.enb, tasks := v.tasks)
  {
    assert Seen(rntis, ws, s', t).ues == Seen(rntis, ws, s, t).ues[r := w];
  }

  lemma SeenUeStep<U, E, S>(b: Bodies<U, E, S>, rntis: seq<Rnti>, ws: seq<C.WorkerPc>, s: Sys<U, E, S>, r: Rnti, t: nat)
    requires CanStep(s, UeActor(r)) && !UeOutside(rntis, ws, r, t)
    ensures CanStep(Seen(rntis, ws, s, t), UeActor(r))
    ensures UeStep(b, Seen(rntis, ws, s, t), r, t) == Seen(rntis, ws, UeStep(b, s, r, t), t)
  {
    var v := Seen(rntis, ws, s, t);
    assert v == s.(ues := v.ues, enb := v.enb, tasks := v.tasks);
    UeStepIsLocal(b, s, r, t, v.ues, v.enb, v.tasks);
    SeenUpdate(rntis, ws, s, UeStep(b, s, r, t), r, UeStep(b, s, r, t).ues[r], t);
  }

  lemma SeenWithoutEnb<U, E, S>(rntis: seq<Rnti>, ws: seq<C.WorkerPc>, s: Sys<U, E, S>, s': Sys<U, E, S>, t: nat)
    requires !EnbOutside(rntis, ws, t) && s'.ues == s.ues
    ensures Seen(rntis, ws, s', t) == s'.(ues := Seen(rntis, ws, s, t).ues)
  {
  }

  lemma SeenEnbStep<U, E, S>(b: Bodies<U, E, S>, rntis: seq<Rnti>, ws: seq<C.WorkerPc>, s: Sys<U, E, S>, t: nat)
    requires CanStep(s, EnbActor) && !EnbOutside(rntis, ws, t)
    ensures CanStep(Seen(rntis, ws, s, t), EnbActor)
    ensures EnbStep(b, Seen(rntis, ws, s, t), t) == Seen(rntis, ws, EnbStep(b, s, t), t)
  {
    SeenWithoutEnb(rntis, ws, s, s, t);
    EnbStepIsLocal(b, s, t, Seen(rntis, ws, s, t).ues);
    SeenWithoutEnb(rntis, ws, s, EnbStep(b, s, t), t);
  }

  lemma SeenTaskStep<U, E, S>(b: Bodies<U, E, S>, rntis: seq<Rnti>, ws: seq<C.WorkerPc>, s: Sys<U, E, S>, k: nat,
                              t: nat)
    requires CanStep(s, TaskActor(k)) && !EnbOutside(rntis, ws, t)
    ensures CanStep(Seen(rntis, ws, s, t), TaskActor(k))
    ensures TaskStep(b, Seen(rntis, ws, s, t), k, t) == Seen(rntis, ws, TaskStep(b, s, k, t), t)
  {
    SeenWithoutEnb(rntis, ws, s, s, t);
    TaskStepIsLocal(b, s, k, t, Seen(rntis, ws, s, t).ues);
    SeenWithoutEnb(rntis, ws, s, TaskStep(b, s, k, t), t);
  }

  /** A worker's step is the same step in the view of its TTI. */
  lemma SeenStep<U, E, S>(b: Bodies<U, E, S>, rntis: seq<Rnti>, ws: seq<C.WorkerPc>, s: Sys<U, E, S>, i: nat, a: Actor,
                          t: nat)
    requires AllDistinct(rntis) && i < |ws| && ws[i] == C.InBody(t) && Owns(rntis, i, a) && CanStep(s, a)
    ensures CanStep(Seen(rntis, ws, s, t), a)
    ensures Step(b, Seen(rntis, ws, s, t), a, t) == Seen(rntis, ws, Step(b, s, a, t), t)
  {
    match a
    case UeActor(r) =>
      UeOutsideIs(rntis, ws, i, t);
      SeenUeStep(b, rntis, ws, s, r, t);
    case EnbActor => SeenEnbStep(b, rntis, ws, s, t);
    case TaskActor(k) => SeenTaskStep(b, rntis, ws, s, k, t);
  }

  lemma {:induction false} InterleavesOneMore<U, E, S>(b: Bodies<U, E, S>, s: Sys<U, E, S>, acts: seq<Actor>,
                                                       mid: Sys<U, E, S>, a: Actor, t: nat)
    requires Interleaves(b, s, acts, mid, t) && CanStep(mid, a)
    ensures Interleaves(b, s, acts + [a], Step(b, mid, a, t), t)
    decreases |acts|
  {
    if acts == [] {
      assert (acts + [a])[1..] == [];
    } else {
      InterleavesOneMore(b, Step(b, s, acts[0], t), acts[1..], mid, a, t);
      assert (acts + [a])[1..] == acts[1..] + [a];
    }
  }

  // ---- The run that the machine has gone through ----

  /** Whole TTIs with one interleaving each, and the interleaving of the TTI under way. */
  datatype Story<U, E, S> = Story(states: seq<Sys<U, E, S>>, acts: seq<seq<Actor>>, part: seq<Actor>)

  /** Who has left the body of TTI t has finished it. */
  predicate LeftDone<U, E, S>(rntis: seq<Rnti>, m: Machine<U, E, S>, t: nat) {
    var ws := m.clock.workers;
    forall i :: 0 <= i < |ws| && (ws[i] == C.Marking(t) || C.Past(ws[i], t, m.clock.maxTti)) ==>
      BodyDone(rntis, m.body, i)
  }

  ghost predicate Wired<U, E, S>(rntis: seq<Rnti>, m: Machine<U, E, S>) {
    C.Inv(m.clock) && |m.clock.workers| == |rntis| + 1 && AllDistinct(rntis)
      && forall r :: r in m.body.ues <==> r in rntis
  }

  ghost predicate ToldAt<U(!new), E(!new), S(!new)>(b: Bodies<U, E, S>, rntis: seq<Rnti>, m: Machine<U, E, S>,
                                                    y: Story<U, E, S>) {
    match m.clock.clock
    case Announcing(t) =>
      && |y.acts| == t && y.part == [] && |y.states| == t + 1
      && y.states[t] == Seen(rntis, m.clock.workers, m.body, t)
    case Barrier(t) =>
      && |y.acts| == t && |y.states| == t + 1 && LeftDone(rntis, m, t)
      && Interleaves(b, y.states[t], y.part, Seen(rntis, m.clock.workers, m.body, t), t)
    case _ =>
      && |y.acts| == m.clock.maxTti + 1 && |y.states| == m.clock.maxTti + 2
      && y.states[m.clock.maxTti + 1] == Restarted(m.body)
  }

  ghost predicate Tells<U(!new), E(!new), S(!new)>(b: Bodies<U, E, S>, rntis: seq<Rnti>, m: Machine<U, E, S>,
                                                   y: Story<U, E, S>, s0: Sys<U, E, S>) {
    Wired(rntis, m) && Runs(b, y.states, y.acts, 0) && y.states[0] == s0 && ToldAt(b, rntis, m, y)
  }

  lemma StepKeepsUes<U, E, S>(b: Bodies<U, E, S>, s: Sys<U, E, S>, a: Actor, t: nat)
    requires CanStep(s, a)
    ensures forall r :: r in Step(b, s, a, t).ues <==> r in s.ues
  {
    match a
    case UeActor(r) => UeStepIsLocal(b, s, r, t, s.ues, s.enb, s.tasks);
    case EnbActor => EnbStepIsLocal(b, s, t, s.ues);
    case TaskActor(k) => TaskStepIsLocal(b, s, k, t, s.ues);
  }

  /** A worker's step leaves the others' bodies where they are. */
  lemma OthersDone<U, E, S>(b: Bodies<U, E, S>, rntis: seq<Rnti>, s: Sys<U, E, S>, i: nat, a: Actor, t: nat, j: nat)
    requires AllDistinct(rntis) && Owns(rntis, i, a) && CanStep(s, a) && i <= |rntis| && j <= |rntis| && j != i
      && BodyDone(rntis, s, j)
    ensures BodyDone(rntis, Step(b, s, a, t), j)
  {
    match a
    case UeActor(r) => UeStepIsLocal(b, s, r, t, s.ues, s.enb, s.tasks);
    case EnbActor => EnbStepIsLocal(b, s, t, s.ues);
    case TaskActor(k) => TaskStepIsLocal(b, s, k, t, s.ues);
  }

  lemma WorkTold<U(!new), E(!new), S(!new)>(b: Bodies<U, E, S>, rntis: seq<Rnti>, m: Machine<U, E, S>, i: nat, a: Actor,
                                            y: Story<U, E, S>, s0: Sys<U, E, S>)
    requires Tells(b, rntis, m, y, s0) && MayMove(rntis, m, Work(i, a))
    ensures Tells(b, rntis, Moved(b, rntis, m, Work(i, a)), y.(part := y.part + [a]), s0)
  {
    var (ws, t, m') := (m.clock.workers, m.clock.workers[i].tti, Moved(b, rntis, m, Work(i, a)));
    C.WorkerAtBarrier(m.clock, i);
    StepKeepsUes(b, m.body, a, t);
    SeenStep(b, rntis, ws, m.body, i, a, t);
    InterleavesOneMore(b, y.states[t], y.part, Seen(rntis, ws, m.body, t), a, t);
    forall j | 0 <= j < |ws| && (ws[j] == C.Marking(t) || C.Past(ws[j], t, m.clock.maxTti))
      ensures BodyDone(rntis, m'.body, j) {
      OthersDone(b, rntis, m.body, i, a, t, j);
    }
  }

  lemma EnteredDone<U, E, S>(rntis: seq<Rnti>, s: Sys<U, E, S>, i: nat, j: nat)
    requires AllDistinct(rntis) && i <= |rntis| && j <= |rntis| && j != i && BodyDone(rntis, s, j)
    ensures BodyDone(rntis, Entered(rntis, s, i), j)
  {
  }

  lemma EnterTold<U(!new), E(!new), S(!new)>(b: Bodies<U, E, S>, rntis: seq<Rnti>, m: Machine<U, E, S>, i: nat,
                                             y: Story<U, E, S>, s0: Sys<U, E, S>)
    requires Tells(b, rntis, m, y, s0) && MayMove(rntis, m, Tick(C.WorkerStep(i))) && Enters(m.clock, C.WorkerStep(i))
    ensures Tells(b, rntis, Moved(b, rntis, m, Tick(C.WorkerStep(i))), y, s0)
  {
    var (ws, t, m') := (m.clock.workers, m.clock.workers[i].tti, Moved(b, rntis, m, Tick(C.WorkerStep(i))));
    C.WorkerAtBarrier(m.clock, i);
    C.WorkerStepInv(m.clock, i);
    if i < |rntis| { SeenEnteredUe(rntis, ws, m.body, i, t); } else { SeenEnteredEnb(rntis, ws, m.body, t); }
    forall j | 0 <= j < |ws| && (m'.clock.workers[j] == C.Marking(t) || C.Past(m'.clock.workers[j], t, m.clock.maxTti))
      ensures BodyDone(rntis, m'.body, j)
    {
      EnteredDone(rntis, m.body, i, j);
    }
  }

  lemma ProtocolTold<U(!new), E(!new), S(!new)>(b: Bodies<U, E, S>, rntis: seq<Rnti>, m: Machine<U, E, S>, i: nat,
                                                y: Story<U, E, S>, s0: Sys<U, E, S>)
    requires Tells(b, rntis, m, y, s0) && MayMove(rntis, m, Tick(C.WorkerStep(i))) && !Enters(m.clock, C.WorkerStep(i))
    ensures Tells(b, rntis, Moved(b, rntis, m, Tick(C.WorkerStep(i))), y, s0)
  {
    var (ws, t, c') := (m.clock.workers, m.clock.workers[i].tti, C.Step(m.clock, C.WorkerStep(i)));
    C.WorkerAtBarrier(m.clock, i);
    C.WorkerStepInv(m.clock, i);
    assert c'.workers == ws[i := c'.workers[i]];
    SeenSame(rntis, ws, m.body, i, c'.workers[i], t);
  }

  lemma AllLeft<U, E, S>(rntis: seq<Rnti>, m: Machine<U, E, S>, t: nat)
    requires Wired(rntis, m) && LeftDone(rntis, m, t) && m.clock.clock == C.Barrier(t)
      && C.Enabled(m.clock, C.ClockStep)
    ensures AtEnd(m.body) && Seen(rntis, m.clock.workers, m.body, t) == m.body
    ensures forall i :: 0 <= i < |m.clock.workers| ==> m.clock.workers[i] == C.NextWait(t, m.clock.maxTti)
  {
    var ws := m.clock.workers;
    C.CountPastFull(ws, t, m.clock.maxTti);
    assert forall i :: 0 <= i < |ws| ==> C.Past(ws[i], t, m.clock.maxTti);
    assert BodyDone(rntis, m.body, |rntis|);
    forall r | r in m.body.ues ensures m.body.ues[r].pc == UeDone {
      var i :| 0 <= i < |rntis| && rntis[i] == r;
      assert BodyDone(rntis, m.body, i);
    }
    SeenAsIs(rntis, ws, m.body, t);
  }

  lemma RunsOneMore<U(!new), E(!new), S(!new)>(b: Bodies<U, E, S>, states: seq<Sys<U, E, S>>, acts: seq<seq<Actor>>,
                                               part: seq<Actor>, end: Sys<U, E, S>, t: nat)
    requires Runs(b, states, acts, 0) && |acts| == t && Interleaves(b, states[t], part, end, t) && AtEnd(end)
    ensures Runs(b, states + [Restarted(end)], acts + [part], 0)
  {
    var (more, all) := (states + [Restarted(end)], acts + [part]);
    assert RunsTti(b, states[t], part, Restarted(end), t);
    forall k | 0 <= k < |all| ensures RunsTti(b, more[k], all[k], more[k + 1], 0 + k) {
      if k < t { assert RunsTti(b, states[k], acts[k], states[k + 1], 0 + k); }
    }
  }

  lemma BarrierTold<U(!new), E(!new), S(!new)>(b: Bodies<U, E, S>, rntis: seq<Rnti>, m: Machine<U, E, S>,
                                               y: Story<U, E, S>, s0: Sys<U, E, S>, t: nat)
    requires Tells(b, rntis, m, y, s0) && MayMove(rntis, m, Tick(C.ClockStep)) && m.clock.clock == C.Barrier(t)
    ensures Tells(b, rntis, Moved(b, rntis, m, Tick(C.ClockStep)),
                  Story(y.states + [Restarted(m.body)], y.acts + [y.part], []), s0)
  {
    var m' := Moved(b, rntis, m, Tick(C.ClockStep));
    AllLeft(rntis, m, t);
    RunsOneMore(b, y.states, y.acts, y.part, m.body, t);
    C.ClockStepInv(m.clock);
    if t + 1 <= m.clock.maxTti {
      SeenRestarted(rntis, m.clock.workers, m.body, t + 1);
    }
  }

  lemma ClockTold<U(!new), E(!new), S(!new)>(b: Bodies<U, E, S>, rntis: seq<Rnti>, m: Machine<U, E, S>,
                                             y: Story<U, E, S>, s0: Sys<U, E, S>)
    requires Tells(b, rntis, m, y, s0) && MayMove(rntis, m, Tick(C.ClockStep)) && !m.clock.clock.Barrier?
    ensures Tells(b, rntis, Moved(b, rntis, m, Tick(C.ClockStep)), y, s0)
  {
    C.ClockStepInv(m.clock);
  }

  lemma OneMoreTold<U(!new), E(!new), S(!new)>(b: Bodies<U, E, S>, rntis: seq<Rnti>, m: Machine<U, E, S>, mv: Move,
                                               y: Story<U, E, S>, s0: Sys<U, E, S>) returns (y': Story<U, E, S>)
    requires Tells(b, rntis, m, y, s0) && MayMove(rntis, m, mv)
    ensures Tells(b, rntis, Moved(b, rntis, m, mv), y', s0)
  {
    y' := y;
    match mv
    case Work(i, a) =>
      y' := y.(part := y.part + [a]);
      WorkTold(b, rntis, m, i, a, y, s0);
    case Tick(a) =>
      match a {
        case WorkerStep(i) => if Enters(m.clock, a) { EnterTold(b, rntis, m, i, y, s0); }
            else { ProtocolTold(b, rntis, m, i, y, s0); }
        case ClockStep =>
          if m.clock.clock.Barrier? {
            y' := Story(y.states + [Restarted(m.body)], y.acts + [y.part], []);
            BarrierTold(b, rntis, m, y, s0, m.clock.clock.tti);
          } else {
            ClockTold(b, rntis, m, y, s0);
          }
      }
  }

  // ---- Whole runs of the machine ----

  lemma StartTold<U(!new), E(!new), S(!new)>(b: Bodies<U, E, S>, rntis: seq<Rnti>, m: Machine<U, E, S>,
                                             s0: Sys<U, E, S>, maxTti: nat)
    requires Starts(rntis, m, s0, maxTti)
    ensures Tells(b, rntis, m, Story([s0], [], []), s0)
  {
    C.InitInv(maxTti, |rntis| + 1);
    SeenRestarted(rntis, m.clock.workers, s0, 0);
    RestartedAsIs(s0);
  }

  lemma {:induction false} TraceTold<U(!new), E(!new), S(!new)>(b: Bodies<U, E, S>, rntis: seq<Rnti>,
      ms: seq<Machine<U, E, S>>, mvs: seq<Move>, n: nat, s0: Sys<U, E, S>, maxTti: nat) returns (y: Story<U, E, S>)
    requires Traces(b, rntis, ms, mvs) && Starts(rntis, ms[0], s0, maxTti) && n <= |mvs|
    ensures Tells(b, rntis, ms[n], y, s0) && ms[n].clock.maxTti == maxTti
    decreases n
  {
    if n == 0 {
      StartTold(b, rntis, ms[0], s0, maxTti);
      y := Story([s0], [], []);
    } else {
      y := TraceTold(b, rntis, ms, mvs, n - 1, s0, maxTti);
      assert MayMove(rntis, ms[n - 1], mvs[n - 1]) && ms[n - 1 + 1] == Moved(b, rntis, ms[n - 1], mvs[n - 1]);
      y := OneMoreTold(b, rntis, ms[n - 1], mvs[n - 1], y, s0);
    }
  }

  lemma SameView<U, E, S>(s: Sys<U, E, S>)
    requires SameKeys(Restarted(s))
    ensures SameKeys(s) && ViewOf(s) == ViewOf(Restarted(s))
  {
    assert forall r: Rnti :: r in s.ues <==> r in Restarted(s).ues;
    RestartedView(s);
  }

  /** The clock makes the threads equal to the sequential rounds: however the workers and the clock interleave, when
      the machine has stopped every worker has run its body once for each TTI 0..maxTti, and its state is that of the
      rounds 0..maxTti. */
  lemma ClockedIsSequential<U(!new), E(!new), S(!new)>(b: Bodies<U, E, S>, rntis: seq<Rnti>, ms: seq<Machine<U, E, S>>,
                                                       mvs: seq<Move>, s0: Sys<U, E, S>, maxTti: nat, end: nat)
    requires Schedules(b) && SysOk(s0, 0) && Traces(b, rntis, ms, mvs) && Starts(rntis, ms[0], s0, maxTti)
    requires C.Final(ms[|mvs|].clock) && end == maxTti + 1
    ensures forall i :: 0 <= i < |ms[|mvs|].clock.log| ==> ms[|mvs|].clock.log[i] == C.UpTo(end)
    ensures SameKeys(ms[|mvs|].body) && Is(Rounds(b, ViewOf(s0), 0, end))(ViewOf(ms[|mvs|].body))
  {
    var (n, m) := (|mvs|, ms[|mvs|]);
    var y := TraceTold(b, rntis, ms, mvs, n, s0, maxTti);
    RunsAreRounds(b, y.states, y.acts, 0, end, end);
    InStepMeans(b, ViewOf(s0), 0, y.states[end], end);
    SameView(m.body);
  }

  /** While the clock is at a TTI, the workers in their bodies are at work on the state that the rounds before it
      lead to. */
  lemma WorkersFollowRounds<U(!new), E(!new), S(!new)>(b: Bodies<U, E, S>, rntis: seq<Rnti>, m: Machine<U, E, S>,
                                                       y: Story<U, E, S>, s0: Sys<U, E, S>, t: nat)
    requires Schedules(b) && SysOk(s0, 0) && Tells(b, rntis, m, y, s0) && m.clock.clock == C.Barrier(t)
    ensures SysOk(y.states[t], t) && Is(Rounds(b, ViewOf(s0), 0, t))(ViewOf(y.states[t]))
    ensures StartOk(b, y.states[t], t)
      && Interleaves(b, y.states[t], y.part, Seen(rntis, m.clock.workers, m.body, t), t)
  {
    RunsAreRounds(b, y.states, y.acts, 0, t, t);
    InStepMeans(b, ViewOf(s0), 0, y.states[t], t);
    SysStartOk(b, y.states[t], t);
  }

  lemma WorkerCanStep<U, E, S>(rntis: seq<Rnti>, ws: seq<C.WorkerPc>, s: Sys<U, E, S>, i: nat, t: nat)
    returns (a: Actor)
    requires SameKeys(Seen(rntis, ws, s, t)) && EnbReady(Seen(rntis, ws, s, t))
      && (forall r :: r in s.ues <==> r in rntis)
    requires i < |ws| == |rntis| + 1 && ws[i] == C.InBody(t) && !BodyDone(rntis, s, i)
    ensures Owns(rntis, i, a) && CanStep(s, a)
  {
    var v := Seen(rntis, ws, s, t);
    assert forall r :: r in v.ues <==> r in s.ues;
    if i < |rntis| {
      a := UeActor(rntis[i]);
    } else {
      SeenWithoutEnb(rntis, ws, s, s, t);
      a := EnbCanAdvance(v);
    }
  }

  lemma BodyCanStep<U(!new), E(!new), S(!new)>(b: Bodies<U, E, S>, rntis: seq<Rnti>, m: Machine<U, E, S>, i: nat,
                                               y: Story<U, E, S>, s0: Sys<U, E, S>, t: nat) returns (a: Actor)
    requires Schedules(b) && SysOk(s0, 0) && Tells(b, rntis, m, y, s0) && m.clock.clock == C.Barrier(t)
    requires i < |m.clock.workers| && m.clock.workers[i] == C.InBody(t) && !BodyDone(rntis, m.body, i)
    ensures Owns(rntis, i, a) && CanStep(m.body, a)
  {
    WorkersFollowRounds(b, rntis, m, y, s0, t);
    ThreadsReady(b, y.states[t], y.part, Seen(rntis, m.clock.workers, m.body, t), t);
    a := WorkerCanStep(rntis, m.clock.workers, m.body, i, t);
  }

  /** No deadlock: until the clock protocol is over, some thread can take a step. */
  lemma MachineCanMove<U(!new), E(!new), S(!new)>(b: Bodies<U, E, S>, rntis: seq<Rnti>, ms: seq<Machine<U, E, S>>,
                                                  mvs: seq<Move>, s0: Sys<U, E, S>, maxTti: nat) returns (mv: Move)
    requires Schedules(b) && SysOk(s0, 0) && Traces(b, rntis, ms, mvs) && Starts(rntis, ms[0], s0, maxTti)
    requires !C.Final(ms[|mvs|].clock)
    ensures MayMove(rntis, ms[|mvs|], mv)
  {
    var m := ms[|mvs|];
    var y := TraceTold(b, rntis, ms, mvs, |mvs|, s0, maxTti);
    var a := C.SomeActionEnabled(m.clock);
    mv := Tick(a);
    if a.WorkerStep? && m.clock.workers[a.i].InBody? && !BodyDone(rntis, m.body, a.i) {
      C.WorkerAtBarrier(m.clock, a.i);
      var actor := BodyCanStep(b, rntis, m, a.i, y, s0, m.clock.clock.tti);
      mv := Work(a.i, actor);
    }
  }
}
