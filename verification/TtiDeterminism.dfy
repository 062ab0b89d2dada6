/** Every interleaving of the worker threads in a TTI has the effect of the sequential round. */
module TtiDeterminism {
  import opened CommonTypes
  import opened TimedChannels
  import opened TtiThreads

  // ---- Queue facts ----

  lemma {:induction false} VisibleCountDrop<T>(q: Queue<T>, k: nat, t: nat)
    requires k <= VisibleCount(q, t)
    ensures VisibleCount(q[k..], t) == VisibleCount(q, t) - k
    decreases k
  {
    if k > 0 {
      VisibleCountDrop(q[1..], k - 1, t);
      assert q[1..][k - 1..] == q[k..];
    }
  }

  /** A pop sees only what was visible when the TTI began, whatever has been pushed since. */
  lemma PopAfterPushes<T>(q: Queue<T>, k: nat, late: seq<T>, t: nat)
    requires SentBefore(q, t) && k <= VisibleCount(q, t)
    ensures Pop(q[k..] + Tag(late, t), t) ==
            if k < VisibleCount(q, t) then (Some(q[k].item), q[k + 1..] + Tag(late, t))
                else (None, q[k..] + Tag(late, t))
  {
    VisibleCountDrop(q, k, t);
    forall e | e in q[k..] ensures e.sendTti < t { assert e in q; }
    PopHead(q[k..], Tag(late, t), t);
    if k < VisibleCount(q, t) { assert q[k..][1..] == q[k + 1..]; }
  }

  lemma {:induction false} OnlyConcat<T>(a: Queue<T>, b: Queue<T>, owner: T -> Rnti, r: Rnti)
    ensures Only(a + b, owner, r) == Only(a, owner, r) + Only(b, owner, r)
    decreases |b|
  {
    if b == [] {
      assert a + b == a;
    } else {
      assert (a + b)[..|a + b| - 1] == a + b[..|b| - 1];
      OnlyConcat(a, b[..|b| - 1], owner, r);
    }
  }

  /** Where the k-th entry of one RNTI sits in the shared queue. */
  lemma {:induction false} OnlyIndex<T>(q: Queue<T>, owner: T -> Rnti, r: Rnti, k: nat) returns (i: nat)
    requires k < |Only(q, owner, r)|
    ensures i < |q| && q[i] == Only(q, owner, r)[k] && owner(q[i].item) == r
  {
    var front := q[..|q| - 1];
    if k < |Only(front, owner, r)| {
      i := OnlyIndex(front, owner, r, k);
    } else {
      i := |q| - 1;
    }
  }

  lemma OnlyVisibleSplit<T>(q: Queue<T>, owner: T -> Rnti, r: Rnti, t: nat)
    requires Sorted(q)
    ensures forall k :: 0 <= k < |Only(q[..VisibleCount(q, t)], owner, r)| ==>
        Visible(Only(q[..VisibleCount(q, t)], owner, r)[k], t)
    ensures var b := Only(q[VisibleCount(q, t)..], owner, r); b != [] ==> !Visible(b[0], t)
  {
    var n := VisibleCount(q, t);
    forall k | 0 <= k < |Only(q[..n], owner, r)| ensures Visible(Only(q[..n], owner, r)[k], t) {
      var i := OnlyIndex(q[..n], owner, r, k);
    }
    if Only(q[n..], owner, r) != [] {
      var j := OnlyIndex(q[n..], owner, r, 0);
      HeadGatingIsPerMessage(q, t, n + j);
    }
  }

  /** Restricting a queue to one RNTI commutes with taking its visible prefix. */
  lemma OnlyVisible<T>(q: Queue<T>, owner: T -> Rnti, r: Rnti, t: nat)
    requires Sorted(q)
    ensures VisibleCount(Only(q, owner, r), t) == |Only(q[..VisibleCount(q, t)], owner, r)|
    ensures Due(Only(q, owner, r), t) == Items(Only(q[..VisibleCount(q, t)], owner, r))
    ensures Rest(Only(q, owner, r), t) == Only(q[VisibleCount(q, t)..], owner, r)
  {
    var n := VisibleCount(q, t);
    var (a, b) := (Only(q[..n], owner, r), Only(q[n..], owner, r));
    OnlyVisibleSplit(q, owner, r, t);
    assert q[..n] + q[n..] == q;
    OnlyConcat(q[..n], q[n..], owner, r);
    VisibleCountSplit(a, b, t);
    assert (a + b)[..|a|] == a && (a + b)[|a|..] == b;
  }

  // ---- Where each thread stands, as a function of the start of the TTI ----

  function PhichPops<U, E>(l: Link<U, E>, t: nat, w: UeThread<U>): nat {
    if w.pc == PopPhich then w.n else VisibleCount(l.phich, t)
  }

  function GrantPops<U, E>(l: Link<U, E>, t: nat, w: UeThread<U>): nat {
    match w.pc
    case PopPhich => 0
    case PopGrant => w.n
    case _ => VisibleCount(l.grant, t)
  }

  function SrPushed<U>(w: UeThread<U>): seq<SrMsg> {
    if w.pc == SendPdu || w.pc == UeDone then AsSeq(w.sr) else []
  }

  function PduPushed<U>(w: UeThread<U>): seq<PduMsg> {
    if w.pc == SendPdu && w.n <= |w.pdus| then w.pdus[..w.n] else if w.pc == UeDone then w.pdus else []
  }

  function Take<T>(s: seq<T>, n: nat): seq<T> {
    if n <= |s| then s[..n] else s
  }

  ghost predicate UeOk<U, E, S>(b: Bodies<U, E, S>, r: Rnti, l: Link<U, E>, t: nat, w: UeThread<U>) {
    var (ph, gs) := (Due(l.phich, t), Due(l.grant, t));
    match w.pc
    case PopPhich =>
      w.n <= |ph| && w.u == FoldFeedback(b, r, l.u, Take(ph, w.n)) && w.grants == [] && w.sr == None && w.pdus == []
    case PopGrant =>
      && w.n <= |gs| && w.u == FoldCheck(b, UeHeard(b, r, l.u, ph, t), Take(gs, w.n))
      && w.grants == Take(gs, w.n) && w.sr == None && w.pdus == []
    case SendSr =>
      w.grants == gs && (w.u, w.sr) == UeRan(b, r, l.u, ph, gs, t) && w.pdus == []
    case SendPdu =>
      w.n <= |w.pdus| && (w.u, w.pdus) == UeSent(b, r, l.u, ph, gs, t) && w.sr == UeRan(b, r, l.u, ph, gs, t).1
    case UeDone =>
      && w.u == b.finish(UeSent(b, r, l.u, ph, gs, t).0)
      && w.pdus == UeSent(b, r, l.u, ph, gs, t).1 && w.sr == UeRan(b, r, l.u, ph, gs, t).1
  }

  function SrPops(q: Queue<SrMsg>, t: nat, enb: EnbThread): nat {
    if enb.pc == PopSr then enb.n else VisibleCount(q, t)
  }

  function PduPops(q: Queue<PduMsg>, t: nat, enb: EnbThread): nat {
    match enb.pc
    case PopSr => 0
    case SendGrant => 0
    case PopPdu => enb.n
    case _ => VisibleCount(q, t)
  }

  function GrantsSent(enb: EnbThread): seq<(Rnti, UlGrant)> {
    if enb.pc == PopSr then [] else if enb.pc == SendGrant then Take(enb.grants, enb.n) else enb.grants
  }

  /** The first task for a RNTI. */
  function TaskIndex(tasks: seq<Task>, r: Rnti): (i: nat)
    ensures i <= |tasks|
    ensures i < |tasks| ==> tasks[i].msg.rnti == r
    ensures forall j :: 0 <= j < i ==> tasks[j].msg.rnti != r
  {
    if tasks == [] || tasks[0].msg.rnti == r then 0 else 1 + TaskIndex(tasks[1..], r)
  }

  /** The PHICH message of a RNTI's task once the task has passed its third step. */
  function PhichPushed(tasks: seq<Task>, r: Rnti): seq<PhichMsg> {
    var i := TaskIndex(tasks, r);
    if i < |tasks| && tasks[i].k >= 3 then [PhichMsg(r, tasks[i].msg.grant.pid, tasks[i].ack)] else []
  }

  /** The eNB side: cells, tasks and the grants on their way out. `plan` is what scheduling returns in this TTI. */
  ghost predicate EnbOk<U, E, S>(b: Bodies<U, E, S>, s0: Sys<U, E, S>, plan: (map<Rnti, E>, S, seq<(Rnti, UlGrant)>),
                                 t: nat, enb: EnbThread, tasks: seq<Task>, cells: map<Rnti, E>, shared: S) {
    && SameDomain(s0.cells, cells)
    && match enb.pc
       case PopSr =>
         && enb.n <= VisibleCount(s0.sr, t) && tasks == [] && shared == s0.shared
         && forall r :: r in cells ==> cells[r] == FoldSr(b, s0.cells[r], Items(SrOf(Take(s0.sr, enb.n), r)))
       case SendGrant =>
         enb.n <= |enb.grants| && tasks == [] && (cells, shared, enb.grants) == plan
       case _ =>
         && (shared, enb.grants) == (plan.1, plan.2)
         && |tasks| == PduPops(s0.pdu, t, enb) <= VisibleCount(s0.pdu, t)
         && TasksOk(b, s0.pdu, plan.0, tasks, cells)
         && (enb.pc == EnbDone ==> forall i :: 0 <= i < |tasks| ==> tasks[i].k == 4)
  }

  ghost predicate TaskOk<U, E, S>(b: Bodies<U, E, S>, e: E, task: Task, cell: E) {
    && task.k <= 4 && cell == TaskCell(b, e, task.msg, task.k)
    && (task.k >= 2 ==> var (_, ack, discarded) := b.receive(b.onPdu(e, task.msg), task.msg);
        (task.ack, task.discarded) == (ack, discarded))
  }

  ghost predicate TasksOk<U, E, S>(b: Bodies<U, E, S>, pdu: Queue<PduMsg>, planned: map<Rnti, E>, tasks: seq<Task>,
                                   cells: map<Rnti, E>) {
    && SameDomain(planned, cells) && |tasks| <= |pdu|
    && (forall i :: 0 <= i < |tasks| ==>
          && tasks[i].msg == pdu[i].item && tasks[i].msg.rnti in cells
          && TaskOk(b, planned[tasks[i].msg.rnti], tasks[i], cells[tasks[i].msg.rnti]))
    && (forall r :: r in cells && NoTask(tasks, r) ==> cells[r] == planned[r])
  }

  predicate NoTask(tasks: seq<Task>, r: Rnti) {
    forall i :: 0 <= i < |tasks| ==> tasks[i].msg.rnti != r
  }

  // ---- What may be assumed of the start of a TTI ----

  /** No RNTI has two PDUs due. */
  predicate OnePduEach(pdu: Queue<PduMsg>, t: nat) {
    forall i, j :: 0 <= i < j < VisibleCount(pdu, t) ==> pdu[i].item.rnti != pdu[j].item.rnti
  }

  ghost predicate StartOk<U, E, S>(b: Bodies<U, E, S>, s0: Sys<U, E, S>, t: nat) {
    && AtStart(s0) && SameKeys(s0)
    && Sorted(s0.sr) && Sorted(s0.pdu) && SentBefore(s0.sr, t) && SentBefore(s0.pdu, t)
    && (forall r :: r in s0.ues ==> SentBefore(s0.grant[r], t) && SentBefore(s0.phich[r], t))
    && (forall e <- s0.sr :: e.item.rnti in s0.ues) && (forall e <- s0.pdu :: e.item.rnti in s0.ues)
    && OnePduEach(s0.pdu, t)
    && KeepsKeys(b, ViewOf(s0), t)
    && forall i :: 0 <= i < |Plan(b, s0, t).2| ==> Plan(b, s0, t).2[i].0 in s0.ues
  }

  ghost function Plan<U, E, S>(b: Bodies<U, E, S>, s0: Sys<U, E, S>, t: nat): (map<Rnti, E>, S, seq<(Rnti, UlGrant)>)
    requires SameKeys(s0)
  {
    b.schedule(Requested(b, ViewOf(s0), t), s0.shared, t)
  }

  lemma PlanKeys<U, E, S>(b: Bodies<U, E, S>, s0: Sys<U, E, S>, t: nat)
    requires SameKeys(s0) && KeepsKeys(b, ViewOf(s0), t)
    ensures SameDomain(s0.ues, Plan(b, s0, t).0)
  {
    assert forall r :: r in ViewOf(s0).links <==> r in s0.ues;
  }

  // ---- The invariant over all interleavings ----

  /** A queue shared by all UEs: what is left of the start of the TTI, then the pushes of this TTI, in some order across
      UEs but in each UE's own order. */
  ghost predicate SharedOk<T>(q0: Queue<T>, pops: nat, t: nat, owner: T -> Rnti, pushed: map<Rnti, seq<T>>,
                              q: Queue<T>) {
    && pops <= VisibleCount(q0, t)
    && |q| >= |q0| - pops && q[..|q0| - pops] == q0[pops..]
    && var late := q[|q0| - pops..];
       && (forall i :: 0 <= i < |late| ==> late[i].sendTti == t && owner(late[i].item) in pushed)
       && forall r :: r in pushed ==> Only(late, owner, r) == Tag(pushed[r], t)
  }

  lemma SharedStart<T>(q0: Queue<T>, t: nat, owner: T -> Rnti, pushed: map<Rnti, seq<T>>)
    requires forall r :: r in pushed ==> pushed[r] == []
    ensures SharedOk(q0, 0, t, owner, pushed, q0)
  {
    assert q0[0..] == q0 && q0[|q0|..] == [];
  }

  lemma SharedPop<T>(q0: Queue<T>, pops: nat, t: nat, owner: T -> Rnti, pushed: map<Rnti, seq<T>>, q: Queue<T>)
    requires SharedOk(q0, pops, t, owner, pushed, q) && SentBefore(q0, t)
    ensures pops == VisibleCount(q0, t) ==> Pop(q, t) == (None, q)
    ensures pops < VisibleCount(q0, t) ==>
              Pop(q, t) == (Some(q0[pops].item), q[1..]) && SharedOk(q0, pops + 1, t, owner, pushed, q[1..])
  {
    var k := |q0| - pops;
    var late := q[k..];
    assert q == q0[pops..] + late;
    VisibleCountDrop(q0, pops, t);
    forall e | e in q0[pops..] ensures e.sendTti < t { assert e in q0; }
    PopHead(q0[pops..], late, t);
    if pops < VisibleCount(q0, t) {
      assert q0[pops..][1..] == q0[pops + 1..];
      assert q[1..] == q0[pops + 1..] + late && q[1..][k - 1..] == late;
    }
  }

  lemma SharedPush<T>(q0: Queue<T>, pops: nat, t: nat, owner: T -> Rnti, pushed: map<Rnti, seq<T>>, q: Queue<T>,
                      r: Rnti, item: T)
    requires SharedOk(q0, pops, t, owner, pushed, q) && r in pushed && owner(item) == r
    ensures SharedOk(q0, pops, t, owner, pushed[r := pushed[r] + [item]], q + [Entry(item, t)])
  {
    var k := |q0| - pops;
    var (late, more, pushed') := (q[k..], q + [Entry(item, t)], pushed[r := pushed[r] + [item]]);
    assert more[k..] == late + [Entry(item, t)] && more[..k] == q[..k];
    forall r' | r' in pushed' ensures Only(more[k..], owner, r') == Tag(pushed'[r'], t) {
      OnlyConcat(late, [Entry(item, t)], owner, r');
    }
  }

  function SrPushes<U>(ues: map<Rnti, UeThread<U>>): map<Rnti, seq<SrMsg>> {
    map r | r in ues :: SrPushed(ues[r])
  }

  function PduPushes<U>(ues: map<Rnti, UeThread<U>>): map<Rnti, seq<PduMsg>> {
    map r | r in ues :: PduPushed(ues[r])
  }

  /** One UE worker and the two queues it consumes; `acks` and `gs` are the eNB's pushes of this TTI. */
  ghost predicate WorkerOk<U, E, S>(b: Bodies<U, E, S>, r: Rnti, l: Link<U, E>, t: nat, w: UeThread<U>,
                                    acks: seq<PhichMsg>, gs: seq<UlGrant>, phich: Queue<PhichMsg>,
                                    grant: Queue<UlGrant>) {
    && UeOk(b, r, l, t, w)
    && PhichPops(l, t, w) <= VisibleCount(l.phich, t) && GrantPops(l, t, w) <= VisibleCount(l.grant, t)
    && phich == l.phich[PhichPops(l, t, w)..] + Tag(acks, t)
    && grant == l.grant[GrantPops(l, t, w)..] + Tag(gs, t)
  }

  /** WorkerOk against the start of the TTI, as a value, so that framing lemmas need not look inside it. */
  type WorkerInv<!U> = (Rnti, UeThread<U>, seq<PhichMsg>, seq<UlGrant>, Queue<PhichMsg>, Queue<UlGrant>) -> bool

  ghost function WorkerInvOf<U, E, S>(b: Bodies<U, E, S>, s0: Sys<U, E, S>, t: nat): WorkerInv<U>
    requires SameKeys(s0)
  {
    (r, w, acks, gs, phich, grant) => r in s0.ues && WorkerOk(b, r, LinkAt(s0, r), t, w, acks, gs, phich, grant)
  }

  ghost predicate AllWorkers<U>(inv: WorkerInv<U>, tasks: seq<Task>, sent: seq<(Rnti, UlGrant)>,
                                ues: map<Rnti, UeThread<U>>, phich: map<Rnti, Queue<PhichMsg>>,
                                grant: map<Rnti, Queue<UlGrant>>) {
    && SameDomain(ues, phich) && SameDomain(ues, grant)
    && forall r :: r in ues ==> inv(r, ues[r], PhichPushed(tasks, r), GrantsFor(sent, r), phich[r], grant[r])
  }

  /** The workers of s and the two queues only they consume, against the start of the TTI. */
  ghost predicate Workers<U, E, S>(b: Bodies<U, E, S>, s0: Sys<U, E, S>, t: nat, s: Sys<U, E, S>)
    requires SameKeys(s0)
  {
    SameDomain(s0.ues, s.ues) && AllWorkers(WorkerInvOf(b, s0, t), s.tasks, GrantsSent(s.enb), s.ues, s.phich, s.grant)
  }

  /** Everything on the UEs' side, with what the eNB has taken from the shared queues. */
  ghost predicate UeSide<U, E, S>(b: Bodies<U, E, S>, s0: Sys<U, E, S>, t: nat, s: Sys<U, E, S>, srPops: nat,
                                  pduPops: nat)
    requires SameKeys(s0)
  {
    && Workers(b, s0, t, s)
    && SharedOk(s0.sr, srPops, t, SrRnti, SrPushes(s.ues), s.sr)
    && SharedOk(s0.pdu, pduPops, t, PduRnti, PduPushes(s.ues), s.pdu)
  }

  ghost predicate Inv<U, E, S>(b: Bodies<U, E, S>, s0: Sys<U, E, S>, t: nat, s: Sys<U, E, S>)
    requires SameKeys(s0)
  {
    && UeSide(b, s0, t, s, SrPops(s0.sr, t, s.enb), PduPops(s0.pdu, t, s.enb))
    && EnbOk(b, s0, Plan(b, s0, t), t, s.enb, s.tasks, s.cells, s.shared)
  }

  lemma InvAtStart<U, E, S>(b: Bodies<U, E, S>, s0: Sys<U, E, S>, t: nat)
    requires StartOk(b, s0, t)
    ensures Inv(b, s0, t, s0)
  {
    SharedStart(s0.sr, t, SrRnti, SrPushes(s0.ues));
    SharedStart(s0.pdu, t, PduRnti, PduPushes(s0.ues));
    UesAtStart(b, s0, t);
    EnbAtStart(b, s0, t);
  }

  lemma UesAtStart<U, E, S>(b: Bodies<U, E, S>, s0: Sys<U, E, S>, t: nat)
    requires AtStart(s0) && SameKeys(s0)
    ensures AllWorkers(WorkerInvOf(b, s0, t), s0.tasks, GrantsSent(s0.enb), s0.ues, s0.phich, s0.grant)
  {
    forall r | r in s0.ues
      ensures WorkerInvOf(b, s0, t)(r, s0.ues[r], PhichPushed(s0.tasks, r), GrantsFor(GrantsSent(s0.enb), r),
                                    s0.phich[r], s0.grant[r])
    {
      var l := LinkAt(s0, r);
      assert l.phich[0..] + Tag([], t) == l.phich && l.grant[0..] + Tag([], t) == l.grant;
      assert Take(Due(l.phich, t), 0) == [];
      assert WorkerOk(b, r, l, t, s0.ues[r], [], [], s0.phich[r], s0.grant[r]);
    }
  }

  lemma EnbAtStart<U, E, S>(b: Bodies<U, E, S>, s0: Sys<U, E, S>, t: nat)
    requires AtStart(s0) && SameKeys(s0)
    ensures EnbOk(b, s0, Plan(b, s0, t), t, s0.enb, s0.tasks, s0.cells, s0.shared)
  {
    assert Take(s0.sr, 0) == [];
  }

  // ---- UE steps ----

  /** A step of one worker changes its own entry and nobody else's. */
  lemma WorkerUpdate<U>(inv: WorkerInv<U>, tasks: seq<Task>, sent: seq<(Rnti, UlGrant)>, ues: map<Rnti, UeThread<U>>,
                        phich: map<Rnti, Queue<PhichMsg>>, grant: map<Rnti, Queue<UlGrant>>,
                        r: Rnti, w: UeThread<U>, ph: Queue<PhichMsg>, gr: Queue<UlGrant>)
    requires AllWorkers(inv, tasks, sent, ues, phich, grant) && r in ues
    requires inv(r, w, PhichPushed(tasks, r), GrantsFor(sent, r), ph, gr)
    ensures AllWorkers(inv, tasks, sent, ues[r := w], phich[r := ph], grant[r := gr])
    ensures ph == phich[r] ==> phich[r := ph] == phich
    ensures gr == grant[r] ==> grant[r := gr] == grant
  {
  }

  lemma WorkerPushes<U>(ues: map<Rnti, UeThread<U>>, r: Rnti, w: UeThread<U>, srs: seq<SrMsg>, pdus: seq<PduMsg>)
    requires r in ues && SrPushed(w) == SrPushed(ues[r]) + srs && PduPushed(w) == PduPushed(ues[r]) + pdus
    ensures SrPushes(ues[r := w]) == SrPushes(ues)[r := SrPushes(ues)[r] + srs]
    ensures PduPushes(ues[r := w]) == PduPushes(ues)[r := PduPushes(ues)[r] + pdus]
    ensures srs == [] ==> SrPushes(ues[r := w]) == SrPushes(ues)
    ensures pdus == [] ==> PduPushes(ues[r := w]) == PduPushes(ues)
  {
    assert SrPushed(ues[r]) + [] == SrPushed(ues[r]) && PduPushed(ues[r]) + [] == PduPushed(ues[r]);
  }

  lemma PopPhichWorker<U, E, S>(b: Bodies<U, E, S>, r: Rnti, l: Link<U, E>, t: nat, w: UeThread<U>, acks: seq<PhichMsg>,
                                gs: seq<UlGrant>, phich: Queue<PhichMsg>, grant: Queue<UlGrant>)
    requires w.pc == PopPhich && SentBefore(l.phich, t) && WorkerOk(b, r, l, t, w, acks, gs, phich, grant)
    ensures var (m, q) := Pop(phich, t); var w' := HeardPhich(b, r, w, m, t);
            WorkerOk(b, r, l, t, w', acks, gs, q, grant) && SrPushed(w') == SrPushed(w) + []
              && PduPushed(w') == PduPushed(w) + []
  {
    PopAfterPushes(l.phich, w.n, acks, t);
    var ph := Due(l.phich, t);
    if w.n < |ph| {
      assert Take(ph, w.n + 1)[..w.n] == Take(ph, w.n);
    } else {
      assert Take(ph, w.n) == ph && Take(Due(l.grant, t), 0) == [];
    }
  }

  lemma PopPhichKeeps<U, E, S>(b: Bodies<U, E, S>, s0: Sys<U, E, S>, t: nat, s: Sys<U, E, S>, r: Rnti)
    requires SameKeys(s0) && Workers(b, s0, t, s) && CanStep(s, UeActor(r)) && s.ues[r].pc == PopPhich
    requires r in s0.ues && SentBefore(s0.phich[r], t)
    ensures var s' := UePopPhich(b, s, r, t);
            Workers(b, s0, t, s') && SrPushes(s'.ues) == SrPushes(s.ues) && PduPushes(s'.ues) == PduPushes(s.ues)
  {
    var (s', sent) := (UePopPhich(b, s, r, t), GrantsSent(s.enb));
    PopPhichWorker(b, r, LinkAt(s0, r), t, s.ues[r], PhichPushed(s.tasks, r), GrantsFor(sent, r), s.phich[r],
                   s.grant[r]);
    WorkerUpdate(WorkerInvOf(b, s0, t), s.tasks, sent, s.ues, s.phich, s.grant, r, s'.ues[r], s'.phich[r], s.grant[r]);
    WorkerPushes(s.ues, r, s'.ues[r], [], []);
  }

  lemma PopGrantSome<U, E, S>(b: Bodies<U, E, S>, r: Rnti, l: Link<U, E>, t: nat, w: UeThread<U>, acks: seq<PhichMsg>,
                              gs: seq<UlGrant>, phich: Queue<PhichMsg>, grant: Queue<UlGrant>)
    requires w.pc == PopGrant && WorkerOk(b, r, l, t, w, acks, gs, phich, grant) && w.n < VisibleCount(l.grant, t)
    ensures var w' := HeardGrant(b, r, w, Some(l.grant[w.n].item), t);
            && WorkerOk(b, r, l, t, w', acks, gs, phich, l.grant[w.n + 1..] + Tag(gs, t))
            && SrPushed(w') == SrPushed(w) + [] && PduPushed(w') == PduPushed(w) + []
  {
    var due := Due(l.grant, t);
    assert Take(due, w.n + 1) == Take(due, w.n) + [due[w.n]] && Take(due, w.n + 1)[..w.n] == Take(due, w.n);
  }

  lemma PopGrantWorker<U, E, S>(b: Bodies<U, E, S>, r: Rnti, l: Link<U, E>, t: nat, w: UeThread<U>, acks: seq<PhichMsg>,
                                gs: seq<UlGrant>, phich: Queue<PhichMsg>, grant: Queue<UlGrant>)
    requires w.pc == PopGrant && SentBefore(l.grant, t) && WorkerOk(b, r, l, t, w, acks, gs, phich, grant)
    ensures var (g, q) := Pop(grant, t); var w' := HeardGrant(b, r, w, g, t);
            WorkerOk(b, r, l, t, w', acks, gs, phich, q) && SrPushed(w') == SrPushed(w) + []
              && PduPushed(w') == PduPushed(w) + []
  {
    PopAfterPushes(l.grant, w.n, gs, t);
    if w.n < VisibleCount(l.grant, t) {
      PopGrantSome(b, r, l, t, w, acks, gs, phich, grant);
    } else {
      assert Take(Due(l.grant, t), w.n) == Due(l.grant, t);
    }
  }

  lemma PopGrantKeeps<U, E, S>(b: Bodies<U, E, S>, s0: Sys<U, E, S>, t: nat, s: Sys<U, E, S>, r: Rnti)
    requires SameKeys(s0) && Workers(b, s0, t, s) && CanStep(s, UeActor(r)) && s.ues[r].pc == PopGrant
    requires r in s0.ues && SentBefore(s0.grant[r], t)
    ensures var s' := UePopGrant(b, s, r, t);
            Workers(b, s0, t, s') && SrPushes(s'.ues) == SrPushes(s.ues) && PduPushes(s'.ues) == PduPushes(s.ues)
  {
    var (s', sent) := (UePopGrant(b, s, r, t), GrantsSent(s.enb));
    PopGrantWorker(b, r, LinkAt(s0, r), t, s.ues[r], PhichPushed(s.tasks, r), GrantsFor(sent, r), s.phich[r],
                   s.grant[r]);
    WorkerUpdate(WorkerInvOf(b, s0, t), s.tasks, sent, s.ues, s.phich, s.grant, r, s'.ues[r], s.phich[r], s'.grant[r]);
    WorkerPushes(s.ues, r, s'.ues[r], [], []);
  }

  lemma SendSrWorker<U, E, S>(b: Bodies<U, E, S>, r: Rnti, l: Link<U, E>, t: nat, w: UeThread<U>, acks: seq<PhichMsg>,
                              gs: seq<UlGrant>, phich: Queue<PhichMsg>, grant: Queue<UlGrant>)
    requires w.pc == SendSr && WorkerOk(b, r, l, t, w, acks, gs, phich, grant)
    ensures var (u, pdus) := ProcessAll(b, r, w.u, w.grants); var w' := w.(u := u, pdus := pdus, pc := SendPdu, n := 0);
            && WorkerOk(b, r, l, t, w', acks, gs, phich, grant)
            && SrPushed(w') == SrPushed(w) + AsSeq(w.sr) && PduPushed(w') == PduPushed(w) + []
            && (w.sr.Some? ==> w.sr.value.rnti == r)
  {
  }

  lemma SendSrKeeps<U, E, S>(b: Bodies<U, E, S>, s0: Sys<U, E, S>, pops: nat, t: nat, s: Sys<U, E, S>, r: Rnti)
    requires SameKeys(s0) && Workers(b, s0, t, s) && CanStep(s, UeActor(r)) && s.ues[r].pc == SendSr && r in s0.ues
    requires SharedOk(s0.sr, pops, t, SrRnti, SrPushes(s.ues), s.sr)
    ensures var s' := UeSendSr(b, s, r, t);
            Workers(b, s0, t, s') && SharedOk(s0.sr, pops, t, SrRnti, SrPushes(s'.ues), s'.sr)
              && PduPushes(s'.ues) == PduPushes(s.ues)
  {
    var (w, s', sent) := (s.ues[r], UeSendSr(b, s, r, t), GrantsSent(s.enb));
    SendSrWorker(b, r, LinkAt(s0, r), t, w, PhichPushed(s.tasks, r), GrantsFor(sent, r), s.phich[r], s.grant[r]);
    WorkerUpdate(WorkerInvOf(b, s0, t), s.tasks, sent, s.ues, s.phich, s.grant, r, s'.ues[r], s.phich[r], s.grant[r]);
    WorkerPushes(s.ues, r, s'.ues[r], AsSeq(w.sr), []);
    if w.sr.Some? {
      SharedPush(s0.sr, pops, t, SrRnti, SrPushes(s.ues), s.sr, r, w.sr.value);
    }
  }

  lemma SendPduWorker<U, E, S>(b: Bodies<U, E, S>, r: Rnti, l: Link<U, E>, t: nat, w: UeThread<U>, acks: seq<PhichMsg>,
                               gs: seq<UlGrant>, phich: Queue<PhichMsg>, grant: Queue<UlGrant>)
    requires w.pc == SendPdu && WorkerOk(b, r, l, t, w, acks, gs, phich, grant) && w.n < |w.pdus|
    ensures var w' := w.(n := w.n + 1);
            && WorkerOk(b, r, l, t, w', acks, gs, phich, grant) && w.pdus[w.n].rnti == r
            && SrPushed(w') == SrPushed(w) + [] && PduPushed(w') == PduPushed(w) + [w.pdus[w.n]]
  {
    assert w.pdus[..w.n + 1] == w.pdus[..w.n] + [w.pdus[w.n]];
  }

  lemma FinishWorker<U, E, S>(b: Bodies<U, E, S>, r: Rnti, l: Link<U, E>, t: nat, w: UeThread<U>, acks: seq<PhichMsg>,
                              gs: seq<UlGrant>, phich: Queue<PhichMsg>, grant: Queue<UlGrant>)
    requires w.pc == SendPdu && WorkerOk(b, r, l, t, w, acks, gs, phich, grant) && w.n >= |w.pdus|
    ensures var w' := w.(u := b.finish(w.u), pc := UeDone);
            WorkerOk(b, r, l, t, w', acks, gs, phich, grant) && SrPushed(w') == SrPushed(w) + []
              && PduPushed(w') == PduPushed(w) + []
  {
    assert w.pdus[..w.n] == w.pdus;
  }

  lemma SendPduPushes<U, E, S>(b: Bodies<U, E, S>, t: nat, s: Sys<U, E, S>, r: Rnti)
    requires CanStep(s, UeActor(r)) && s.ues[r].pc == SendPdu && s.ues[r].n < |s.ues[r].pdus|
    ensures var (w, s') := (s.ues[r], UeSendPdu(b, s, r, t));
            && SrPushes(s'.ues) == SrPushes(s.ues)
            && PduPushes(s'.ues) == PduPushes(s.ues)[r := PduPushes(s.ues)[r] + [w.pdus[w.n]]]
  {
    var (w, s') := (s.ues[r], UeSendPdu(b, s, r, t));
    assert w.pdus[..w.n + 1] == w.pdus[..w.n] + [w.pdus[w.n]];
    WorkerPushes(s.ues, r, s'.ues[r], [], [w.pdus[w.n]]);
  }

  lemma SendPduWorkers<U, E, S>(b: Bodies<U, E, S>, s0: Sys<U, E, S>, t: nat, s: Sys<U, E, S>, r: Rnti)
    requires SameKeys(s0) && Workers(b, s0, t, s) && CanStep(s, UeActor(r)) && s.ues[r].pc == SendPdu && r in s0.ues
    requires s.ues[r].n < |s.ues[r].pdus|
    ensures Workers(b, s0, t, UeSendPdu(b, s, r, t)) && s.ues[r].pdus[s.ues[r].n].rnti == r
  {
    var (w, s', sent) := (s.ues[r], UeSendPdu(b, s, r, t), GrantsSent(s.enb));
    SendPduWorker(b, r, LinkAt(s0, r), t, w, PhichPushed(s.tasks, r), GrantsFor(sent, r), s.phich[r], s.grant[r]);
    WorkerUpdate(WorkerInvOf(b, s0, t), s.tasks, sent, s.ues, s.phich, s.grant, r, s'.ues[r], s.phich[r], s.grant[r]);
  }

  lemma SendPduKeeps<U, E, S>(b: Bodies<U, E, S>, s0: Sys<U, E, S>, pops: nat, t: nat, s: Sys<U, E, S>, r: Rnti)
    requires SameKeys(s0) && Workers(b, s0, t, s) && CanStep(s, UeActor(r)) && s.ues[r].pc == SendPdu && r in s0.ues
    requires SharedOk(s0.pdu, pops, t, PduRnti, PduPushes(s.ues), s.pdu) && s.ues[r].n < |s.ues[r].pdus|
    ensures var s' := UeSendPdu(b, s, r, t);
            Workers(b, s0, t, s') && SharedOk(s0.pdu, pops, t, PduRnti, PduPushes(s'.ues), s'.pdu)
              && SrPushes(s'.ues) == SrPushes(s.ues)
  {
    SendPduWorkers(b, s0, t, s, r);
    SendPduPushes(b, t, s, r);
    SharedPush(s0.pdu, pops, t, PduRnti, PduPushes(s.ues), s.pdu, r, s.ues[r].pdus[s.ues[r].n]);
  }

  lemma FinishKeeps<U, E, S>(b: Bodies<U, E, S>, s0: Sys<U, E, S>, t: nat, s: Sys<U, E, S>, r: Rnti)
    requires SameKeys(s0) && Workers(b, s0, t, s) && CanStep(s, UeActor(r)) && s.ues[r].pc == SendPdu && r in s0.ues
    requires s.ues[r].n >= |s.ues[r].pdus|
    ensures var s' := UeSendPdu(b, s, r, t);
            Workers(b, s0, t, s') && SrPushes(s'.ues) == SrPushes(s.ues) && PduPushes(s'.ues) == PduPushes(s.ues)
  {
    var (w, s', sent) := (s.ues[r], UeSendPdu(b, s, r, t), GrantsSent(s.enb));
    FinishWorker(b, r, LinkAt(s0, r), t, w, PhichPushed(s.tasks, r), GrantsFor(sent, r), s.phich[r], s.grant[r]);
    WorkerUpdate(WorkerInvOf(b, s0, t), s.tasks, sent, s.ues, s.phich, s.grant, r, s'.ues[r], s.phich[r], s.grant[r]);
    WorkerPushes(s.ues, r, s'.ues[r], [], []);
  }

  lemma PopPhichSide<U, E, S>(b: Bodies<U, E, S>, s0: Sys<U, E, S>, t: nat, s: Sys<U, E, S>, r: Rnti, srPops: nat,
                              pduPops: nat)
    requires SameKeys(s0) && UeSide(b, s0, t, s, srPops, pduPops) && CanStep(s, UeActor(r)) && s.ues[r].pc == PopPhich
    requires r in s0.ues && SentBefore(s0.phich[r], t)
    ensures UeSide(b, s0, t, UePopPhich(b, s, r, t), srPops, pduPops)
  {
    PopPhichKeeps(b, s0, t, s, r);
  }

  lemma PopGrantSide<U, E, S>(b: Bodies<U, E, S>, s0: Sys<U, E, S>, t: nat, s: Sys<U, E, S>, r: Rnti, srPops: nat,
                              pduPops: nat)
    requires SameKeys(s0) && UeSide(b, s0, t, s, srPops, pduPops) && CanStep(s, UeActor(r)) && s.ues[r].pc == PopGrant
    requires r in s0.ues && SentBefore(s0.grant[r], t)
    ensures UeSide(b, s0, t, UePopGrant(b, s, r, t), srPops, pduPops)
  {
    PopGrantKeeps(b, s0, t, s, r);
  }

  lemma SendSrSide<U, E, S>(b: Bodies<U, E, S>, s0: Sys<U, E, S>, t: nat, s: Sys<U, E, S>, r: Rnti, srPops: nat,
                            pduPops: nat)
    requires SameKeys(s0) && UeSide(b, s0, t, s, srPops, pduPops) && CanStep(s, UeActor(r)) && s.ues[r].pc == SendSr
      && r in s0.ues
    ensures UeSide(b, s0, t, UeSendSr(b, s, r, t), srPops, pduPops)
  {
    SendSrKeeps(b, s0, srPops, t, s, r);
  }

  lemma SendPduSide<U, E, S>(b: Bodies<U, E, S>, s0: Sys<U, E, S>, t: nat, s: Sys<U, E, S>, r: Rnti, srPops: nat,
                             pduPops: nat)
    requires SameKeys(s0) && UeSide(b, s0, t, s, srPops, pduPops) && CanStep(s, UeActor(r)) && s.ues[r].pc == SendPdu
      && r in s0.ues
    ensures UeSide(b, s0, t, UeSendPdu(b, s, r, t), srPops, pduPops)
  {
    if s.ues[r].n < |s.ues[r].pdus| {
      SendPduKeeps(b, s0, pduPops, t, s, r);
    } else {
      FinishKeeps(b, s0, t, s, r);
    }
  }

  lemma UeStepSide<U, E, S>(b: Bodies<U, E, S>, s0: Sys<U, E, S>, t: nat, s: Sys<U, E, S>, r: Rnti, srPops: nat,
                            pduPops: nat)
    requires SameKeys(s0) && UeSide(b, s0, t, s, srPops, pduPops) && CanStep(s, UeActor(r))
    requires r in s0.ues && SentBefore(s0.phich[r], t) && SentBefore(s0.grant[r], t)
    ensures UeSide(b, s0, t, UeStep(b, s, r, t), srPops, pduPops)
  {
    match s.ues[r].pc
    case PopPhich => PopPhichSide(b, s0, t, s, r, srPops, pduPops);
    case PopGrant => PopGrantSide(b, s0, t, s, r, srPops, pduPops);
    case SendSr => SendSrSide(b, s0, t, s, r, srPops, pduPops);
    case SendPdu => SendPduSide(b, s0, t, s, r, srPops, pduPops);
    case UeDone =>
  }

  lemma UeStepLeavesEnb<U, E, S>(b: Bodies<U, E, S>, t: nat, s: Sys<U, E, S>, r: Rnti)
    requires CanStep(s, UeActor(r))
    ensures var s' := UeStep(b, s, r, t);
            s'.enb == s.enb && s'.tasks == s.tasks && s'.cells == s.cells && s'.shared == s.shared
  {
  }

  lemma UeStepInv<U, E, S>(b: Bodies<U, E, S>, s0: Sys<U, E, S>, t: nat, s: Sys<U, E, S>, r: Rnti)
    requires SameKeys(s0) && Inv(b, s0, t, s) && CanStep(s, UeActor(r))
    requires r in s0.ues && SentBefore(s0.phich[r], t) && SentBefore(s0.grant[r], t)
    ensures Inv(b, s0, t, UeStep(b, s, r, t))
  {
    UeStepLeavesEnb(b, t, s, r);
    UeStepSide(b, s0, t, s, r, SrPops(s0.sr, t, s.enb), PduPops(s0.pdu, t, s.enb));
  }

  // ---- eNB steps ----

  lemma ItemsAppend<T>(q: Queue<T>, e: Entry<T>)
    ensures Items(q + [e]) == Items(q) + [e.item]
  {
  }

  lemma SrHandled<U, E, S>(b: Bodies<U, E, S>, e: E, q: Queue<SrMsg>, n: nat, r: Rnti)
    requires n < |q|
    ensures var m := q[n].item; var before := FoldSr(b, e, Items(Only(Take(q, n), SrRnti, r)));
            FoldSr(b, e, Items(Only(Take(q, n + 1), SrRnti, r))) == if m.rnti == r then b.onSr(before, m) else before
  {
    var (a, c) := (Take(q, n), Take(q, n + 1));
    assert c[..|c| - 1] == a && c[|c| - 1] == q[n];
    var own := Only(a, SrRnti, r);
    assert own + [] == own;
    if q[n].item.rnti == r {
      ItemsAppend(own, q[n]);
      assert (Items(own) + [q[n].item])[..|own|] == Items(own);
    }
  }

  lemma RequestedAll<U, E, S>(b: Bodies<U, E, S>, s0: Sys<U, E, S>, t: nat, cells: map<Rnti, E>)
    requires SameKeys(s0) && Sorted(s0.sr) && SameDomain(s0.cells, cells)
    requires forall r :: r in cells ==>
        cells[r] == FoldSr(b, s0.cells[r], Items(SrOf(Take(s0.sr, VisibleCount(s0.sr, t)), r)))
    ensures cells == Requested(b, ViewOf(s0), t)
  {
    var c := ViewOf(s0);
    forall r | r in c.links ensures r in cells && cells[r] == FoldSr(b, c.links[r].e, Due(c.links[r].sr, t)) {
      OnlyVisible(s0.sr, SrRnti, r, t);
    }
  }

  lemma PopSrSome<U, E, S>(b: Bodies<U, E, S>, s0: Sys<U, E, S>, cells: map<Rnti, E>, n: nat)
    requires SameDomain(s0.cells, cells) && n < |s0.sr| && s0.sr[n].item.rnti in s0.cells
    requires forall r :: r in cells ==> cells[r] == FoldSr(b, s0.cells[r], Items(SrOf(Take(s0.sr, n), r)))
    ensures var cells' := OnSrAt(b, cells, s0.sr[n].item);
            SameDomain(s0.cells, cells')
              && forall r :: r in cells' ==> cells'[r] == FoldSr(b, s0.cells[r], Items(SrOf(Take(s0.sr, n + 1), r)))
  {
    var cells' := OnSrAt(b, cells, s0.sr[n].item);
    forall r | r in cells' ensures cells'[r] == FoldSr(b, s0.cells[r], Items(SrOf(Take(s0.sr, n + 1), r))) {
      SrHandled(b, s0.cells[r], s0.sr, n, r);
    }
  }

  lemma PopSrEffect<U, E, S>(b: Bodies<U, E, S>, s: Sys<U, E, S>, t: nat, m: SrMsg)
    requires Pop(s.sr, t).0 == Some(m)
    ensures var s' := EnbPopSr(b, s, t);
            s'.enb == s.enb.(n := s.enb.n + 1) && s'.tasks == s.tasks && s'.cells == OnSrAt(b, s.cells, m)
              && s'.shared == s.shared
  {
  }

  lemma PopSrEnbSome<U, E, S>(b: Bodies<U, E, S>, s0: Sys<U, E, S>, plan: (map<Rnti, E>, S, seq<(Rnti, UlGrant)>),
                              t: nat, s: Sys<U, E, S>)
    requires EnbOk(b, s0, plan, t, s.enb, s.tasks, s.cells, s.shared) && s.enb.pc == PopSr
      && s.enb.n < VisibleCount(s0.sr, t)
    requires Pop(s.sr, t).0 == Some(s0.sr[s.enb.n].item) && s0.sr[s.enb.n].item.rnti in s0.cells
    ensures var s' := EnbPopSr(b, s, t); EnbOk(b, s0, plan, t, s'.enb, s'.tasks, s'.cells, s'.shared)
  {
    PopSrEffect(b, s, t, s0.sr[s.enb.n].item);
    PopSrSome(b, s0, s.cells, s.enb.n);
  }

  lemma PopSrEnbNone<U, E, S>(b: Bodies<U, E, S>, s0: Sys<U, E, S>, plan: (map<Rnti, E>, S, seq<(Rnti, UlGrant)>),
                              t: nat, s: Sys<U, E, S>)
    requires s.enb.pc == PopSr && s.tasks == [] && plan == b.schedule(s.cells, s.shared, t) && Pop(s.sr, t).0 == None
    requires SameDomain(s0.cells, plan.0)
    ensures var s' := EnbPopSr(b, s, t); EnbOk(b, s0, plan, t, s'.enb, s'.tasks, s'.cells, s'.shared)
  {
  }

  lemma PlanReached<U, E, S>(b: Bodies<U, E, S>, s0: Sys<U, E, S>, plan: (map<Rnti, E>, S, seq<(Rnti, UlGrant)>),
                             t: nat, s: Sys<U, E, S>)
    requires SameKeys(s0) && EnbOk(b, s0, plan, t, s.enb, s.tasks, s.cells, s.shared) && s.enb.pc == PopSr
    requires Sorted(s0.sr) && s.enb.n == VisibleCount(s0.sr, t)
    ensures s.tasks == [] && Plan(b, s0, t) == b.schedule(s.cells, s.shared, t)
  {
    RequestedAll(b, s0, t, s.cells);
  }

  lemma PopSrEnb<U, E, S>(b: Bodies<U, E, S>, s0: Sys<U, E, S>, plan: (map<Rnti, E>, S, seq<(Rnti, UlGrant)>), t: nat,
                          s: Sys<U, E, S>)
    requires SameKeys(s0) && EnbOk(b, s0, plan, t, s.enb, s.tasks, s.cells, s.shared) && s.enb.pc == PopSr
    requires Sorted(s0.sr) && (forall i :: 0 <= i < |s0.sr| ==> s0.sr[i].item.rnti in s0.cells)
    requires plan == Plan(b, s0, t) && SameDomain(s0.cells, plan.0)
    requires Pop(s.sr, t).0 == if s.enb.n < VisibleCount(s0.sr, t) then Some(s0.sr[s.enb.n].item) else None
    ensures var s' := EnbPopSr(b, s, t); EnbOk(b, s0, plan, t, s'.enb, s'.tasks, s'.cells, s'.shared)
  {
    if s.enb.n < VisibleCount(s0.sr, t) {
      PopSrEnbSome(b, s0, plan, t, s);
    } else {
      PlanReached(b, s0, plan, t, s);
      PopSrEnbNone(b, s0, plan, t, s);
    }
  }

  lemma PopSrInv<U, E, S>(b: Bodies<U, E, S>, s0: Sys<U, E, S>, t: nat, s: Sys<U, E, S>, pduPops: nat)
    requires SameKeys(s0) && UeSide(b, s0, t, s, s.enb.n, pduPops) && s.enb.pc == PopSr && SentBefore(s0.sr, t)
    ensures Pop(s.sr, t).0 == if s.enb.n < VisibleCount(s0.sr, t) then Some(s0.sr[s.enb.n].item) else None
    ensures UeSide(b, s0, t, EnbPopSr(b, s, t), if s.enb.n < VisibleCount(s0.sr, t) then s.enb.n + 1 else s.enb.n,
                   pduPops)
  {
    SharedPop(s0.sr, s.enb.n, t, SrRnti, SrPushes(s.ues), s.sr);
    assert GrantsSent(EnbPopSr(b, s, t).enb) == GrantsSent(s.enb);
  }

  lemma GrantsForAppend(sent: seq<(Rnti, UlGrant)>, r: Rnti, g: UlGrant, k: Rnti)
    ensures GrantsFor(sent + [(r, g)], k) == if k == r then GrantsFor(sent, k) + [g] else GrantsFor(sent, k)
  {
    assert (sent + [(r, g)])[..|sent|] == sent;
    assert GrantsFor(sent, k) + [] == GrantsFor(sent, k);
  }

  /** A grant pushed for one RNTI reaches that RNTI's queue and nobody else's. */
  lemma SentAt<U>(inv: WorkerInv<U>, tasks: seq<Task>, sent: seq<(Rnti, UlGrant)>, ues: map<Rnti, UeThread<U>>,
                  phich: map<Rnti, Queue<PhichMsg>>, grant: map<Rnti, Queue<UlGrant>>, r: Rnti, g: UlGrant,
                  gr: Queue<UlGrant>, k: Rnti)
    requires AllWorkers(inv, tasks, sent, ues, phich, grant) && r in ues && k in ues
    requires inv(r, ues[r], PhichPushed(tasks, r), GrantsFor(sent, r) + [g], phich[r], gr)
    ensures inv(k, ues[k], PhichPushed(tasks, k), GrantsFor(sent + [(r, g)], k), phich[k], grant[r := gr][k])
  {
    GrantsForAppend(sent, r, g, k);
  }

  lemma SentUpdate<U>(inv: WorkerInv<U>, tasks: seq<Task>, sent: seq<(Rnti, UlGrant)>, ues: map<Rnti, UeThread<U>>,
                      phich: map<Rnti, Queue<PhichMsg>>, grant: map<Rnti, Queue<UlGrant>>, r: Rnti, g: UlGrant,
                      gr: Queue<UlGrant>, more: seq<(Rnti, UlGrant)>, after: map<Rnti, Queue<UlGrant>>)
    requires AllWorkers(inv, tasks, sent, ues, phich, grant) && r in ues
    requires inv(r, ues[r], PhichPushed(tasks, r), GrantsFor(sent, r) + [g], phich[r], gr)
    requires more == sent + [(r, g)] && after == grant[r := gr]
    ensures AllWorkers(inv, tasks, more, ues, phich, after)
  {
    forall k | k in ues ensures inv(k, ues[k], PhichPushed(tasks, k), GrantsFor(more, k), phich[k], after[k]) {
      SentAt(inv, tasks, sent, ues, phich, grant, r, g, gr, k);
    }
  }

  lemma GrantPushed<U, E, S>(b: Bodies<U, E, S>, r: Rnti, l: Link<U, E>, t: nat, w: UeThread<U>, acks: seq<PhichMsg>,
                             gs: seq<UlGrant>, phich: Queue<PhichMsg>, grant: Queue<UlGrant>, g: UlGrant)
    requires WorkerOk(b, r, l, t, w, acks, gs, phich, grant)
    ensures WorkerOk(b, r, l, t, w, acks, gs + [g], phich, grant + [Entry(g, t)])
  {
    assert Tag(gs + [g], t) == Tag(gs, t) + [Entry(g, t)];
  }

  lemma AckPushed<U, E, S>(b: Bodies<U, E, S>, r: Rnti, l: Link<U, E>, t: nat, w: UeThread<U>, acks: seq<PhichMsg>,
                           gs: seq<UlGrant>, phich: Queue<PhichMsg>, grant: Queue<UlGrant>, m: PhichMsg)
    requires WorkerOk(b, r, l, t, w, acks, gs, phich, grant)
    ensures WorkerOk(b, r, l, t, w, acks + [m], gs, phich + [Entry(m, t)], grant)
  {
    assert Tag(acks + [m], t) == Tag(acks, t) + [Entry(m, t)];
  }

  lemma SentWorkers<U, E, S>(b: Bodies<U, E, S>, s0: Sys<U, E, S>, t: nat, tasks: seq<Task>, sent: seq<(Rnti, UlGrant)>,
                             ues: map<Rnti, UeThread<U>>, phich: map<Rnti, Queue<PhichMsg>>,
                             grant: map<Rnti, Queue<UlGrant>>, r: Rnti, g: UlGrant)
    requires SameKeys(s0) && AllWorkers(WorkerInvOf(b, s0, t), tasks, sent, ues, phich, grant) && r in ues
    ensures AllWorkers(WorkerInvOf(b, s0, t), tasks, sent + [(r, g)], ues, phich, grant[r := grant[r] + [Entry(g, t)]])
  {
    var inv := WorkerInvOf(b, s0, t);
    assert inv(r, ues[r], PhichPushed(tasks, r), GrantsFor(sent, r), phich[r], grant[r]);
    GrantPushed(b, r, LinkAt(s0, r), t, ues[r], PhichPushed(tasks, r), GrantsFor(sent, r), phich[r], grant[r], g);
    SentUpdate(inv, tasks, sent, ues, phich, grant, r, g, grant[r] + [Entry(g, t)], sent + [(r, g)],
               grant[r := grant[r] + [Entry(g, t)]]);
  }

  lemma SendGrantEffect<U, E, S>(s: Sys<U, E, S>, t: nat, r: Rnti, g: UlGrant)
    requires s.enb.pc == SendGrant && s.enb.n < |s.enb.grants| && s.enb.grants[s.enb.n] == (r, g) && r in s.grant
    ensures var s' := EnbSendGrant(s, t);
            && s'.tasks == s.tasks && s'.ues == s.ues && s'.phich == s.phich && s'.sr == s.sr && s'.pdu == s.pdu
            && GrantsSent(s'.enb) == GrantsSent(s.enb) + [(r, g)]
              && s'.grant == s.grant[r := s.grant[r] + [Entry(g, t)]]
  {
    assert Take(s.enb.grants, s.enb.n + 1) == Take(s.enb.grants, s.enb.n) + [(r, g)];
  }

  lemma SendGrantWorkers<U, E, S>(b: Bodies<U, E, S>, s0: Sys<U, E, S>, t: nat, s: Sys<U, E, S>)
    requires SameKeys(s0) && Workers(b, s0, t, s) && CanStep(s, EnbActor) && s.enb.pc == SendGrant
      && s.enb.n < |s.enb.grants|
    requires s.enb.grants[s.enb.n].0 in s.ues
    ensures Workers(b, s0, t, EnbSendGrant(s, t))
  {
    var (r, g) := s.enb.grants[s.enb.n];
    SendGrantEffect(s, t, r, g);
    SentWorkers(b, s0, t, s.tasks, GrantsSent(s.enb), s.ues, s.phich, s.grant, r, g);
  }

  lemma GrantsAllSent<U, E, S>(b: Bodies<U, E, S>, s0: Sys<U, E, S>, t: nat, s: Sys<U, E, S>)
    requires SameKeys(s0) && Workers(b, s0, t, s) && s.enb.pc == SendGrant && s.enb.n == |s.enb.grants|
    ensures Workers(b, s0, t, EnbSendGrant(s, t))
  {
    assert Take(s.enb.grants, s.enb.n) == s.enb.grants;
  }

  lemma SendGrantInv<U, E, S>(b: Bodies<U, E, S>, s0: Sys<U, E, S>, t: nat, s: Sys<U, E, S>, srPops: nat, pduPops: nat)
    requires SameKeys(s0) && UeSide(b, s0, t, s, srPops, pduPops) && CanStep(s, EnbActor) && s.enb.pc == SendGrant
    requires s.enb.n <= |s.enb.grants| && forall i :: 0 <= i < |s.enb.grants| ==> s.enb.grants[i].0 in s0.ues
    ensures UeSide(b, s0, t, EnbSendGrant(s, t), srPops, pduPops)
  {
    if s.enb.n < |s.enb.grants| {
      SendGrantWorkers(b, s0, t, s);
    } else {
      GrantsAllSent(b, s0, t, s);
    }
  }

  lemma TasksUpdate<U>(inv: WorkerInv<U>, tasks: seq<Task>, tasks': seq<Task>, sent: seq<(Rnti, UlGrant)>,
                       ues: map<Rnti, UeThread<U>>, phich: map<Rnti, Queue<PhichMsg>>, grant: map<Rnti, Queue<UlGrant>>)
    requires AllWorkers(inv, tasks, sent, ues, phich, grant)
    requires forall r :: PhichPushed(tasks', r) == PhichPushed(tasks, r)
    ensures AllWorkers(inv, tasks', sent, ues, phich, grant)
  {
  }

  lemma {:induction false} TaskIndexAppend(tasks: seq<Task>, task: Task, r: Rnti)
    ensures TaskIndex(tasks, r) < |tasks| ==> TaskIndex(tasks + [task], r) == TaskIndex(tasks, r)
    ensures TaskIndex(tasks, r) == |tasks| ==> TaskIndex(tasks + [task], r) >= |tasks|
  {
    if tasks != [] && tasks[0].msg.rnti != r {
      TaskIndexAppend(tasks[1..], task, r);
      assert (tasks + [task])[1..] == tasks[1..] + [task];
    }
  }

  lemma NewTaskIsSilent(tasks: seq<Task>, m: PduMsg)
    ensures forall r :: PhichPushed(tasks + [Task(m, 0, false, false)], r) == PhichPushed(tasks, r)
  {
    forall r ensures PhichPushed(tasks + [Task(m, 0, false, false)], r) == PhichPushed(tasks, r) {
      TaskIndexAppend(tasks, Task(m, 0, false, false), r);
    }
  }

  lemma NoTaskPrefix(tasks: seq<Task>, task: Task, r: Rnti)
    requires NoTask(tasks + [task], r)
    ensures NoTask(tasks, r)
  {
    assert forall i :: 0 <= i < |tasks| ==> tasks[i] == (tasks + [task])[i];
  }

  lemma PopPduTasks<U, E, S>(b: Bodies<U, E, S>, pdu: Queue<PduMsg>, t: nat, planned: map<Rnti, E>, tasks: seq<Task>,
                             cells: map<Rnti, E>)
    requires TasksOk(b, pdu, planned, tasks, cells) && |tasks| < VisibleCount(pdu, t) && OnePduEach(pdu, t)
    requires pdu[|tasks|].item.rnti in cells
    ensures TasksOk(b, pdu, planned, tasks + [Task(pdu[|tasks|].item, 0, false, false)], cells)
  {
    var m := pdu[|tasks|].item;
    var more := tasks + [Task(m, 0, false, false)];
    assert NoTask(tasks, m.rnti);
    forall r | r in cells && NoTask(more, r) ensures cells[r] == planned[r] {
      NoTaskPrefix(tasks, Task(m, 0, false, false), r);
    }
  }

  lemma PopPduEffect<U, E, S>(s: Sys<U, E, S>, t: nat)
    requires s.enb.pc == PopPdu
    ensures var (m, s') := (Pop(s.pdu, t).0, EnbPopPdu(s, t));
            && s'.ues == s.ues && s'.phich == s.phich && s'.grant == s.grant && GrantsSent(s'.enb) == GrantsSent(s.enb)
            && s'.tasks == if m.Some? then s.tasks + [Task(m.value, 0, false, false)] else s.tasks
  {
  }

  lemma TaskStarted<U, E, S>(b: Bodies<U, E, S>, s0: Sys<U, E, S>, t: nat, s: Sys<U, E, S>)
    requires SameKeys(s0) && Workers(b, s0, t, s) && s.enb.pc == PopPdu
    ensures Workers(b, s0, t, EnbPopPdu(s, t))
  {
    PopPduEffect(s, t);
    var (m, s') := (Pop(s.pdu, t).0, EnbPopPdu(s, t));
    assert forall r :: PhichPushed(s'.tasks, r) == PhichPushed(s.tasks, r) by {
      if m.Some? { NewTaskIsSilent(s.tasks, m.value); }
    }
    TasksUpdate(WorkerInvOf(b, s0, t), s.tasks, s'.tasks, GrantsSent(s.enb), s.ues, s.phich, s.grant);
  }

  lemma PopPduInv<U, E, S>(b: Bodies<U, E, S>, s0: Sys<U, E, S>, t: nat, s: Sys<U, E, S>, srPops: nat)
    requires SameKeys(s0) && UeSide(b, s0, t, s, srPops, s.enb.n) && s.enb.pc == PopPdu && SentBefore(s0.pdu, t)
    ensures Pop(s.pdu, t).0 == if s.enb.n < VisibleCount(s0.pdu, t) then Some(s0.pdu[s.enb.n].item) else None
    ensures UeSide(b, s0, t, EnbPopPdu(s, t), srPops, if s.enb.n < VisibleCount(s0.pdu, t) then s.enb.n + 1
                   else s.enb.n)
  {
    SharedPop(s0.pdu, s.enb.n, t, PduRnti, PduPushes(s.ues), s.pdu);
    TaskStarted(b, s0, t, s);
  }

  // ---- Task steps ----

  lemma {:induction false} TaskIndexIs(tasks: seq<Task>, i: nat)
    requires i < |tasks| && forall j :: 0 <= j < i ==> tasks[j].msg.rnti != tasks[i].msg.rnti
    ensures TaskIndex(tasks, tasks[i].msg.rnti) == i
    decreases i
  {
    if i > 0 { TaskIndexIs(tasks[1..], i - 1); }
  }

  lemma {:induction false} TaskIndexStable(tasks: seq<Task>, i: nat, task: Task, r: Rnti)
    requires i < |tasks| && task.msg == tasks[i].msg
    ensures TaskIndex(tasks[i := task], r) == TaskIndex(tasks, r)
    decreases i
  {
    if i > 0 && tasks[0].msg.rnti != r {
      TaskIndexStable(tasks[1..], i - 1, task, r);
      assert tasks[i := task][1..] == tasks[1..][i - 1 := task];
    } else if i == 0 {
      assert tasks[i := task][1..] == tasks[1..];
    }
  }

  predicate DistinctTasks(tasks: seq<Task>) {
    forall i, j :: 0 <= i < j < |tasks| ==> tasks[i].msg.rnti != tasks[j].msg.rnti
  }

  /** A task's step touches the cell of its own RNTI only. */
  lemma TaskUpdate<U, E, S>(b: Bodies<U, E, S>, pdu: Queue<PduMsg>, planned: map<Rnti, E>, tasks: seq<Task>,
                            cells: map<Rnti, E>, i: nat, task: Task, cell: E)
    requires TasksOk(b, pdu, planned, tasks, cells) && DistinctTasks(tasks) && i < |tasks| && task.msg == tasks[i].msg
    requires TaskOk(b, planned[task.msg.rnti], task, cell)
    ensures TasksOk(b, pdu, planned, tasks[i := task], cells[task.msg.rnti := cell])
  {
    var (ts, cs, r) := (tasks[i := task], cells[task.msg.rnti := cell], task.msg.rnti);
    forall k | k in cs && NoTask(ts, k) ensures cs[k] == planned[k] {
      assert ts[i].msg.rnti == r;
      assert forall j :: 0 <= j < |tasks| ==> tasks[j].msg == ts[j].msg;
    }
  }

  lemma PhichPushedStep(tasks: seq<Task>, i: nat, task: Task, r: Rnti)
    requires DistinctTasks(tasks) && i < |tasks| && task.msg == tasks[i].msg
    requires task.k < 3 || (tasks[i].k >= 3 && task.ack == tasks[i].ack) || tasks[i].k == 2
    requires tasks[i].k <= task.k
    ensures PhichPushed(tasks[i := task], r) ==
            if task.k >= 3 && tasks[i].k < 3
                && r == task.msg.rnti then PhichPushed(tasks, r) + [PhichMsg(r, task.msg.grant.pid, task.ack)]
            else PhichPushed(tasks, r)
  {
    TaskIndexStable(tasks, i, task, r);
    TaskIndexIs(tasks, i);
  }

  lemma PhichUpdate<U>(inv: WorkerInv<U>, tasks: seq<Task>, tasks': seq<Task>, sent: seq<(Rnti, UlGrant)>,
                       ues: map<Rnti, UeThread<U>>, phich: map<Rnti, Queue<PhichMsg>>, grant: map<Rnti, Queue<UlGrant>>,
                       r: Rnti, ph: Queue<PhichMsg>)
    requires AllWorkers(inv, tasks, sent, ues, phich, grant) && r in ues
    requires forall k :: k != r ==> PhichPushed(tasks', k) == PhichPushed(tasks, k)
    requires inv(r, ues[r], PhichPushed(tasks', r), GrantsFor(sent, r), ph, grant[r])
    ensures AllWorkers(inv, tasks', sent, ues, phich[r := ph], grant)
  {
  }

  lemma TaskTurnOk<U, E, S>(b: Bodies<U, E, S>, e: E, task: Task, cell: E)
    requires TaskOk(b, e, task, cell) && task.k < 4
    ensures var (cell', next) := TaskTurn(b, cell, task);
            && TaskOk(b, e, next, cell') && next.msg == task.msg && next.k == task.k + 1
            && (task.k >= 2 ==> next.ack == task.ack)
  {
  }

  lemma TaskStepTasks<U, E, S>(b: Bodies<U, E, S>, pdu: Queue<PduMsg>, planned: map<Rnti, E>, s: Sys<U, E, S>, i: nat,
                               t: nat)
    requires CanStep(s, TaskActor(i)) && TasksOk(b, pdu, planned, s.tasks, s.cells) && DistinctTasks(s.tasks)
    ensures TasksOk(b, pdu, planned, TaskStep(b, s, i, t).tasks, TaskStep(b, s, i, t).cells)
  {
    var r := s.tasks[i].msg.rnti;
    TaskTurnOk(b, planned[r], s.tasks[i], s.cells[r]);
    var (e, next) := TaskTurn(b, s.cells[r], s.tasks[i]);
    TaskUpdate(b, pdu, planned, s.tasks, s.cells, i, next, e);
  }

  lemma TaskStepEffect<U, E, S>(b: Bodies<U, E, S>, s: Sys<U, E, S>, i: nat, t: nat, k: Rnti)
    requires CanStep(s, TaskActor(i)) && DistinctTasks(s.tasks)
    ensures var (task, s') := (s.tasks[i], TaskStep(b, s, i, t));
            PhichPushed(s'.tasks, k) == if task.k == 2 && k == task.msg.rnti
              then PhichPushed(s.tasks, k) + [PhichMsg(k, task.msg.grant.pid, task.ack)] else PhichPushed(s.tasks, k)
  {
    PhichPushedStep(s.tasks, i, TaskTurn(b, s.cells[s.tasks[i].msg.rnti], s.tasks[i]).1, k);
  }

  lemma AckWorkers<U, E, S>(b: Bodies<U, E, S>, s0: Sys<U, E, S>, t: nat, tasks: seq<Task>, tasks': seq<Task>,
                            sent: seq<(Rnti, UlGrant)>, ues: map<Rnti, UeThread<U>>, phich: map<Rnti, Queue<PhichMsg>>,
                            grant: map<Rnti, Queue<UlGrant>>, r: Rnti, m: PhichMsg)
    requires SameKeys(s0) && AllWorkers(WorkerInvOf(b, s0, t), tasks, sent, ues, phich, grant) && r in ues
    requires forall k :: PhichPushed(tasks', k) == if k == r then PhichPushed(tasks, k) + [m] else PhichPushed(tasks, k)
    ensures AllWorkers(WorkerInvOf(b, s0, t), tasks', sent, ues, phich[r := phich[r] + [Entry(m, t)]], grant)
  {
    var inv := WorkerInvOf(b, s0, t);
    assert inv(r, ues[r], PhichPushed(tasks, r), GrantsFor(sent, r), phich[r], grant[r]);
    AckPushed(b, r, LinkAt(s0, r), t, ues[r], PhichPushed(tasks, r), GrantsFor(sent, r), phich[r], grant[r], m);
    PhichUpdate(inv, tasks, tasks', sent, ues, phich, grant, r, phich[r] + [Entry(m, t)]);
  }

  lemma TaskStepWorkers<U, E, S>(b: Bodies<U, E, S>, s0: Sys<U, E, S>, t: nat, s: Sys<U, E, S>, i: nat)
    requires SameKeys(s0) && Workers(b, s0, t, s) && CanStep(s, TaskActor(i)) && DistinctTasks(s.tasks)
    ensures Workers(b, s0, t, TaskStep(b, s, i, t))
  {
    var (task, s', sent) := (s.tasks[i], TaskStep(b, s, i, t), GrantsSent(s.enb));
    var r := task.msg.rnti;
    forall k: Rnti ensures PhichPushed(s'.tasks, k) == if task.k == 2 && k == r
      then PhichPushed(s.tasks, k) + [PhichMsg(r, task.msg.grant.pid, task.ack)] else PhichPushed(s.tasks, k)
    {
      TaskStepEffect(b, s, i, t, k);
    }
    if task.k == 2 {
      AckWorkers(b, s0, t, s.tasks, s'.tasks, sent, s.ues, s.phich, s.grant, r,
                 PhichMsg(r, task.msg.grant.pid, task.ack));
    } else {
      TasksUpdate(WorkerInvOf(b, s0, t), s.tasks, s'.tasks, sent, s.ues, s.phich, s.grant);
    }
  }

  lemma TasksAreDistinct<U, E, S>(b: Bodies<U, E, S>, pdu: Queue<PduMsg>, t: nat, planned: map<Rnti, E>,
                                  tasks: seq<Task>, cells: map<Rnti, E>)
    requires TasksOk(b, pdu, planned, tasks, cells) && |tasks| <= VisibleCount(pdu, t) && OnePduEach(pdu, t)
    ensures DistinctTasks(tasks)
  {
  }

  lemma PopSrPops<U, E, S>(b: Bodies<U, E, S>, s0: Sys<U, E, S>, t: nat, s: Sys<U, E, S>)
    requires s.enb.pc == PopSr && s.enb.n <= VisibleCount(s0.sr, t)
    requires Pop(s.sr, t).0 == if s.enb.n < VisibleCount(s0.sr, t) then Some(s0.sr[s.enb.n].item) else None
    ensures var enb := EnbPopSr(b, s, t).enb;
            && SrPops(s0.sr, t, enb) == (if s.enb.n < VisibleCount(s0.sr, t) then s.enb.n + 1 else s.enb.n)
            && PduPops(s0.pdu, t, enb) == 0
  {
  }

  lemma EnbPopSrInv<U, E, S>(b: Bodies<U, E, S>, s0: Sys<U, E, S>, t: nat, s: Sys<U, E, S>)
    requires SameKeys(s0) && Inv(b, s0, t, s) && s.enb.pc == PopSr
    requires Sorted(s0.sr) && SentBefore(s0.sr, t) && forall i :: 0 <= i < |s0.sr| ==> s0.sr[i].item.rnti in s0.cells
    requires SameDomain(s0.cells, Plan(b, s0, t).0)
    ensures Inv(b, s0, t, EnbPopSr(b, s, t))
  {
    PopSrInv(b, s0, t, s, 0);
    PopSrPops(b, s0, t, s);
    PopSrEnb(b, s0, Plan(b, s0, t), t, s);
  }

  lemma SendGrantEnb<U, E, S>(b: Bodies<U, E, S>, s0: Sys<U, E, S>, plan: (map<Rnti, E>, S, seq<(Rnti, UlGrant)>),
                              t: nat, s: Sys<U, E, S>)
    requires EnbOk(b, s0, plan, t, s.enb, s.tasks, s.cells, s.shared) && s.enb.pc == SendGrant && CanStep(s, EnbActor)
    requires SameDomain(s0.cells, plan.0)
    ensures var s' := EnbSendGrant(s, t);
            && EnbOk(b, s0, plan, t, s'.enb, s'.tasks, s'.cells, s'.shared)
            && SrPops(s0.sr, t, s'.enb) == VisibleCount(s0.sr, t) && PduPops(s0.pdu, t, s'.enb) == 0
  {
  }

  lemma EnbSendGrantInv<U, E, S>(b: Bodies<U, E, S>, s0: Sys<U, E, S>, t: nat, s: Sys<U, E, S>)
    requires StartOk(b, s0, t) && Inv(b, s0, t, s) && s.enb.pc == SendGrant && CanStep(s, EnbActor)
    ensures Inv(b, s0, t, EnbSendGrant(s, t))
  {
    SendGrantInv(b, s0, t, s, VisibleCount(s0.sr, t), 0);
    SendGrantEnb(b, s0, Plan(b, s0, t), t, s);
  }

  lemma PopPduEnb<U, E, S>(b: Bodies<U, E, S>, s0: Sys<U, E, S>, plan: (map<Rnti, E>, S, seq<(Rnti, UlGrant)>), t: nat,
                           s: Sys<U, E, S>)
    requires EnbOk(b, s0, plan, t, s.enb, s.tasks, s.cells, s.shared) && s.enb.pc == PopPdu
    requires OnePduEach(s0.pdu, t) && forall i :: 0 <= i < |s0.pdu| ==> s0.pdu[i].item.rnti in s0.cells
    requires Pop(s.pdu, t).0 == if s.enb.n < VisibleCount(s0.pdu, t) then Some(s0.pdu[s.enb.n].item) else None
    ensures var s' := EnbPopPdu(s, t);
            && EnbOk(b, s0, plan, t, s'.enb, s'.tasks, s'.cells, s'.shared)
            && SrPops(s0.sr, t, s'.enb) == VisibleCount(s0.sr, t)
            && PduPops(s0.pdu, t, s'.enb) == (if s.enb.n < VisibleCount(s0.pdu, t) then s.enb.n + 1 else s.enb.n)
  {
    if s.enb.n < VisibleCount(s0.pdu, t) {
      PopPduTasks(b, s0.pdu, t, plan.0, s.tasks, s.cells);
    }
  }

  lemma EnbPopPduInv<U, E, S>(b: Bodies<U, E, S>, s0: Sys<U, E, S>, t: nat, s: Sys<U, E, S>)
    requires StartOk(b, s0, t) && Inv(b, s0, t, s) && s.enb.pc == PopPdu
    ensures Inv(b, s0, t, EnbPopPdu(s, t))
  {
    forall i | 0 <= i < |s0.pdu| ensures s0.pdu[i].item.rnti in s0.cells { assert s0.pdu[i] in s0.pdu; }
    PopPduInv(b, s0, t, s, VisibleCount(s0.sr, t));
    PopPduEnb(b, s0, Plan(b, s0, t), t, s);
  }

  lemma JoinEnb<U, E, S>(b: Bodies<U, E, S>, s0: Sys<U, E, S>, plan: (map<Rnti, E>, S, seq<(Rnti, UlGrant)>), t: nat,
                         s: Sys<U, E, S>)
    requires EnbOk(b, s0, plan, t, s.enb, s.tasks, s.cells, s.shared) && s.enb.pc == Join && CanStep(s, EnbActor)
    ensures var enb := EnbStep(b, s, t).enb;
            && EnbOk(b, s0, plan, t, enb, s.tasks, s.cells, s.shared) && GrantsSent(enb) == GrantsSent(s.enb)
            && SrPops(s0.sr, t, enb) == SrPops(s0.sr, t, s.enb) && PduPops(s0.pdu, t, enb) == PduPops(s0.pdu, t, s.enb)
  {
  }

  lemma EnbJoinInv<U, E, S>(b: Bodies<U, E, S>, s0: Sys<U, E, S>, t: nat, s: Sys<U, E, S>)
    requires SameKeys(s0) && Inv(b, s0, t, s) && s.enb.pc == Join && CanStep(s, EnbActor)
    ensures Inv(b, s0, t, EnbStep(b, s, t))
  {
    JoinEnb(b, s0, Plan(b, s0, t), t, s);
  }

  lemma EnbStepInv<U, E, S>(b: Bodies<U, E, S>, s0: Sys<U, E, S>, t: nat, s: Sys<U, E, S>)
    requires StartOk(b, s0, t) && Inv(b, s0, t, s) && CanStep(s, EnbActor)
    ensures Inv(b, s0, t, EnbStep(b, s, t))
  {
    match s.enb.pc
    case PopSr =>
      forall i | 0 <= i < |s0.sr| ensures s0.sr[i].item.rnti in s0.cells { assert s0.sr[i] in s0.sr; }
      PlanKeys(b, s0, t);
      EnbPopSrInv(b, s0, t, s);
    case SendGrant => EnbSendGrantInv(b, s0, t, s);
    case PopPdu => EnbPopPduInv(b, s0, t, s);
    case Join => EnbJoinInv(b, s0, t, s);
    case EnbDone =>
  }

  lemma TaskStepEnb<U, E, S>(b: Bodies<U, E, S>, s0: Sys<U, E, S>, plan: (map<Rnti, E>, S, seq<(Rnti, UlGrant)>),
                             t: nat, s: Sys<U, E, S>, i: nat)
    requires EnbOk(b, s0, plan, t, s.enb, s.tasks, s.cells, s.shared) && CanStep(s, TaskActor(i))
      && OnePduEach(s0.pdu, t)
    ensures var s' := TaskStep(b, s, i, t);
        EnbOk(b, s0, plan, t, s'.enb, s'.tasks, s'.cells, s'.shared) && DistinctTasks(s.tasks)
  {
    TasksAreDistinct(b, s0.pdu, t, plan.0, s.tasks, s.cells);
    TaskStepTasks(b, s0.pdu, plan.0, s, i, t);
  }

  lemma TaskStepInv<U, E, S>(b: Bodies<U, E, S>, s0: Sys<U, E, S>, t: nat, s: Sys<U, E, S>, i: nat)
    requires SameKeys(s0) && OnePduEach(s0.pdu, t) && Inv(b, s0, t, s) && CanStep(s, TaskActor(i))
    ensures Inv(b, s0, t, TaskStep(b, s, i, t))
  {
    TaskStepEnb(b, s0, Plan(b, s0, t), t, s, i);
    TaskStepWorkers(b, s0, t, s, i);
  }

  lemma StepInv<U, E, S>(b: Bodies<U, E, S>, s0: Sys<U, E, S>, t: nat, s: Sys<U, E, S>, a: Actor)
    requires StartOk(b, s0, t) && Inv(b, s0, t, s) && CanStep(s, a)
    ensures Inv(b, s0, t, Step(b, s, a, t))
  {
    match a
    case UeActor(r) => UeStepInv(b, s0, t, s, r);
    case EnbActor => EnbStepInv(b, s0, t, s);
    case TaskActor(i) => TaskStepInv(b, s0, t, s, i);
  }

  lemma {:induction false} RunInv<U, E, S>(b: Bodies<U, E, S>, s0: Sys<U, E, S>, s: Sys<U, E, S>, acts: seq<Actor>,
                                           s': Sys<U, E, S>, t: nat)
    requires StartOk(b, s0, t) && Inv(b, s0, t, s) && Interleaves(b, s, acts, s', t)
    ensures Inv(b, s0, t, s')
    decreases |acts|
  {
    if acts != [] {
      StepInv(b, s0, t, s, acts[0]);
      RunInv(b, s0, Step(b, s, acts[0], t), acts[1..], s', t);
    }
  }

  // ---- The end of the TTI ----

  /** What is left of a shared queue for one RNTI: what was not yet due, then that RNTI's own pushes. */
  lemma SharedEnd<T>(q0: Queue<T>, t: nat, owner: T -> Rnti, pushed: map<Rnti, seq<T>>, q: Queue<T>, r: Rnti)
    requires SharedOk(q0, VisibleCount(q0, t), t, owner, pushed, q) && Sorted(q0) && r in pushed
    ensures Only(q, owner, r) == Rest(Only(q0, owner, r), t) + Tag(pushed[r], t)
  {
    var k := |q0| - VisibleCount(q0, t);
    OnlyVisible(q0, owner, r, t);
    OnlyConcat(q[..k], q[k..], owner, r);
    assert q == q[..k] + q[k..];
  }

  lemma {:induction false} OnlyDistinct<T>(q: Queue<T>, owner: T -> Rnti, r: Rnti)
    requires forall i, j :: 0 <= i < j < |q| ==> owner(q[i].item) != owner(q[j].item)
    ensures forall i :: 0 <= i < |q| && owner(q[i].item) == r ==> Only(q, owner, r) == [q[i]]
    ensures (forall i :: 0 <= i < |q| ==> owner(q[i].item) != r) ==> Only(q, owner, r) == []
    decreases |q|
  {
    if q != [] { OnlyDistinct(q[..|q| - 1], owner, r); }
  }

  /** A RNTI's due PDU is the message of its task, when it has one. */
  lemma DueIsTask(pdu: Queue<PduMsg>, t: nat, tasks: seq<Task>, r: Rnti)
    requires Sorted(pdu) && OnePduEach(pdu, t) && |tasks| == VisibleCount(pdu, t)
    requires forall i :: 0 <= i < |tasks| ==> tasks[i].msg == pdu[i].item
    ensures var i := TaskIndex(tasks, r); Due(PduOf(pdu, r), t) == if i < |tasks| then [tasks[i].msg] else []
  {
    var (n, i) := (VisibleCount(pdu, t), TaskIndex(tasks, r));
    OnlyVisible(pdu, PduRnti, r, t);
    OnlyDistinct(pdu[..n], PduRnti, r);
    assert forall j :: 0 <= j < n ==> PduRnti(pdu[..n][j].item) == tasks[j].msg.rnti;
  }

  lemma TasksDone<U, E, S>(b: Bodies<U, E, S>, pdu: Queue<PduMsg>, t: nat, planned: map<Rnti, E>, tasks: seq<Task>,
                           cells: map<Rnti, E>, r: Rnti)
    requires TasksOk(b, pdu, planned, tasks, cells) && (forall i :: 0 <= i < |tasks| ==> tasks[i].k == 4) && r in cells
    requires Sorted(pdu) && OnePduEach(pdu, t) && |tasks| == VisibleCount(pdu, t)
    ensures (cells[r], PhichPushed(tasks, r)) == PduReceived(b, planned[r], Due(PduOf(pdu, r), t))
  {
    DueIsTask(pdu, t, tasks, r);
    var i := TaskIndex(tasks, r);
    if i < |tasks| {
      assert TaskOk(b, planned[r], tasks[i], cells[r]);
    } else {
      assert NoTask(tasks, r);
    }
  }

  lemma EndWorker<U, E, S>(b: Bodies<U, E, S>, r: Rnti, l: Link<U, E>, t: nat, w: UeThread<U>, gs: seq<UlGrant>,
                           phich: Queue<PhichMsg>, grant: Queue<UlGrant>, e: E, e': E, acks: seq<PhichMsg>)
    requires WorkerOk(b, r, l, t, w, acks, gs, phich, grant) && w.pc == UeDone
    requires (e', acks) == PduReceived(b, e, Due(l.pdu, t))
    ensures Link(w.u, e', Rest(l.sr, t) + Tag(SrPushed(w), t), grant, Rest(l.pdu, t) + Tag(PduPushed(w), t), phich) ==
            RoundLink(b, r, l, e, gs, t)
  {
  }

  lemma EndWorkerOf<U, E, S>(b: Bodies<U, E, S>, s0: Sys<U, E, S>, t: nat, s: Sys<U, E, S>, r: Rnti,
                             sent: seq<(Rnti, UlGrant)>)
    requires SameKeys(s0) && AllWorkers(WorkerInvOf(b, s0, t), s.tasks, sent, s.ues, s.phich, s.grant) && r in s.ues
    ensures r in s0.ues
    ensures WorkerOk(b, r, LinkAt(s0, r), t, s.ues[r], PhichPushed(s.tasks, r), GrantsFor(sent, r), s.phich[r],
                     s.grant[r])
  {
    assert WorkerInvOf(b, s0, t)(r, s.ues[r], PhichPushed(s.tasks, r), GrantsFor(sent, r), s.phich[r], s.grant[r]);
  }

  lemma EndCell<U, E, S>(b: Bodies<U, E, S>, s0: Sys<U, E, S>, plan: (map<Rnti, E>, S, seq<(Rnti, UlGrant)>), t: nat,
                         s: Sys<U, E, S>, r: Rnti)
    requires EnbOk(b, s0, plan, t, s.enb, s.tasks, s.cells, s.shared) && s.enb.pc == EnbDone && r in s.cells
    requires Sorted(s0.pdu) && OnePduEach(s0.pdu, t)
    ensures r in plan.0 && GrantsSent(s.enb) == plan.2
    ensures (s.cells[r], PhichPushed(s.tasks, r)) == PduReceived(b, plan.0[r], Due(PduOf(s0.pdu, r), t))
  {
    TasksDone(b, s0.pdu, t, plan.0, s.tasks, s.cells, r);
  }

  lemma EndQueues<U, E, S>(b: Bodies<U, E, S>, s0: Sys<U, E, S>, t: nat, s: Sys<U, E, S>, r: Rnti)
    requires SameKeys(s0) && UeSide(b, s0, t, s, VisibleCount(s0.sr, t), VisibleCount(s0.pdu, t)) && r in s.ues
    requires Sorted(s0.sr) && Sorted(s0.pdu)
    ensures SrOf(s.sr, r) == Rest(SrOf(s0.sr, r), t) + Tag(SrPushed(s.ues[r]), t)
    ensures PduOf(s.pdu, r) == Rest(PduOf(s0.pdu, r), t) + Tag(PduPushed(s.ues[r]), t)
  {
    SharedEnd(s0.sr, t, SrRnti, SrPushes(s.ues), s.sr, r);
    SharedEnd(s0.pdu, t, PduRnti, PduPushes(s.ues), s.pdu, r);
  }

  lemma EndLink<U, E, S>(b: Bodies<U, E, S>, s0: Sys<U, E, S>, plan: (map<Rnti, E>, S, seq<(Rnti, UlGrant)>), t: nat,
                         s: Sys<U, E, S>, r: Rnti)
    requires SameKeys(s0) && SameKeys(s) && r in s.ues && r in s0.ues && r in plan.0 && s.ues[r].pc == UeDone
      && s.enb.pc == EnbDone
    requires Sorted(s0.sr) && Sorted(s0.pdu) && OnePduEach(s0.pdu, t)
    requires UeSide(b, s0, t, s, VisibleCount(s0.sr, t), VisibleCount(s0.pdu, t))
    requires EnbOk(b, s0, plan, t, s.enb, s.tasks, s.cells, s.shared)
    ensures LinkAt(s, r) == RoundLink(b, r, LinkAt(s0, r), plan.0[r], GrantsFor(plan.2, r), t)
  {
    EndWorkerOf(b, s0, t, s, r, GrantsSent(s.enb));
    EndQueues(b, s0, t, s, r);
    EndCell(b, s0, plan, t, s, r);
    var l := LinkAt(s0, r);
    EndWorker(b, r, l, t, s.ues[r], GrantsFor(plan.2, r), s.phich[r], s.grant[r], plan.0[r], s.cells[r],
              PhichPushed(s.tasks, r));
  }

  lemma EndInv<U, E, S>(b: Bodies<U, E, S>, s0: Sys<U, E, S>, t: nat, s: Sys<U, E, S>)
    requires SameKeys(s0) && Inv(b, s0, t, s)
    ensures SameKeys(s) && SameDomain(s0.ues, s.ues)
    ensures s.enb.pc == EnbDone ==>
              s.shared == Plan(b, s0, t).1 && UeSide(b, s0, t, s, VisibleCount(s0.sr, t), VisibleCount(s0.pdu, t))
  {
  }

  lemma LinksAfter<U, E, S>(b: Bodies<U, E, S>, links: map<Rnti, Link<U, E>>, links': map<Rnti, Link<U, E>>,
                            cells: map<Rnti, E>, grants: seq<(Rnti, UlGrant)>, t: nat)
    requires SameDomain(links, links') && SameDomain(links, cells)
    requires forall r :: r in links' ==> links'[r] == RoundLink(b, r, links[r], cells[r], GrantsFor(grants, r), t)
    ensures links' == RoundLinks(b, links, cells, grants, t)
  {
  }

  lemma ViewLinks<U, E, S>(s: Sys<U, E, S>)
    requires SameKeys(s)
    ensures SameDomain(ViewOf(s).links, s.ues) && forall r :: r in s.ues ==> ViewOf(s).links[r] == LinkAt(s, r)
  {
  }

  lemma EndView<U, E, S>(b: Bodies<U, E, S>, s0: Sys<U, E, S>, t: nat, s: Sys<U, E, S>,
                         plan: (map<Rnti, E>, S, seq<(Rnti, UlGrant)>))
    requires SameKeys(s0) && SameKeys(s) && SameDomain(s0.ues, s.ues) && SameDomain(s0.ues, plan.0)
    requires forall r :: r in s.ues ==>
        LinkAt(s, r) == RoundLink(b, r, LinkAt(s0, r), plan.0[r], GrantsFor(plan.2, r), t)
    ensures SameDomain(ViewOf(s0).links, plan.0)
      && ViewOf(s).links == RoundLinks(b, ViewOf(s0).links, plan.0, plan.2, t)
  {
    var (links, links') := (ViewOf(s0).links, ViewOf(s).links);
    ViewLinks(s0);
    ViewLinks(s);
    forall r | r in links' ensures links'[r] == RoundLink(b, r, links[r], plan.0[r], GrantsFor(plan.2, r), t) {
      assert r in s.ues && r in s0.ues;
    }
    LinksAfter(b, links, links', plan.0, plan.2, t);
  }

  /** Interleaving independence: however the UE workers, the eNB worker and its tasks interleave within a TTI, the
      state every UE and every cell is left in, and what each of them will find on its channels, is that of the
      sequential round. */
  lemma InterleavingIndependence<U, E, S>(b: Bodies<U, E, S>, s0: Sys<U, E, S>, acts: seq<Actor>, s: Sys<U, E, S>,
                                          t: nat)
    requires StartOk(b, s0, t) && Interleaves(b, s0, acts, s, t) && AtEnd(s)
    ensures SameKeys(s) && ViewOf(s) == Round(b, ViewOf(s0), t)
  {
    InvAtStart(b, s0, t);
    RunInv(b, s0, s0, acts, s, t);
    EndInv(b, s0, t, s);
    var plan := Plan(b, s0, t);
    PlanKeys(b, s0, t);
    assert EnbOk(b, s0, plan, t, s.enb, s.tasks, s.cells, s.shared);
    forall r | r in s.ues ensures LinkAt(s, r) == RoundLink(b, r, LinkAt(s0, r), plan.0[r], GrantsFor(plan.2, r), t) {
      EndLink(b, s0, plan, t, s, r);
    }
    EndView(b, s0, t, s, plan);
  }

  lemma EnbCanStep<U, E, S>(b: Bodies<U, E, S>, s0: Sys<U, E, S>, plan: (map<Rnti, E>, S, seq<(Rnti, UlGrant)>), t: nat,
                            s: Sys<U, E, S>)
    requires EnbOk(b, s0, plan, t, s.enb, s.tasks, s.cells, s.shared)
    ensures forall i :: 0 <= i < |s.tasks| ==> s.tasks[i].k <= 4 && s.tasks[i].msg.rnti in s.cells
    ensures s.enb.pc == SendGrant ==> s.enb.grants == plan.2
  {
  }

  predicate EnbReady<U, E, S>(s: Sys<U, E, S>) {
    && (forall i :: 0 <= i < |s.tasks| ==> s.tasks[i].k <= 4 && s.tasks[i].msg.rnti in s.cells)
    && (s.enb.pc == SendGrant && s.enb.n < |s.enb.grants| ==> s.enb.grants[s.enb.n].0 in s.grant)
  }

  lemma EnbCanAdvance<U, E, S>(s: Sys<U, E, S>) returns (a: Actor)
    requires SameKeys(s) && s.enb.pc != EnbDone && EnbReady(s)
    ensures CanStep(s, a) && (a == EnbActor || a.TaskActor?)
  {
    a := EnbActor;
    if s.enb.pc == Join && exists i :: 0 <= i < |s.tasks| && s.tasks[i].k != 4 {
      var i :| 0 <= i < |s.tasks| && s.tasks[i].k != 4;
      a := TaskActor(i);
    }
  }

  lemma CanAlwaysStep<U, E, S>(s: Sys<U, E, S>) returns (a: Actor)
    requires SameKeys(s) && !AtEnd(s) && EnbReady(s)
    ensures CanStep(s, a)
  {
    if s.enb.pc == EnbDone {
      var r :| r in s.ues && s.ues[r].pc != UeDone;
      a := UeActor(r);
    } else {
      a := EnbCanAdvance(s);
    }
  }

  lemma ThreadsReady<U, E, S>(b: Bodies<U, E, S>, s0: Sys<U, E, S>, acts: seq<Actor>, s: Sys<U, E, S>, t: nat)
    requires StartOk(b, s0, t) && Interleaves(b, s0, acts, s, t)
    ensures SameKeys(s) && EnbReady(s)
  {
    InvAtStart(b, s0, t);
    RunInv(b, s0, s0, acts, s, t);
    EndInv(b, s0, t, s);
    EnbCanStep(b, s0, Plan(b, s0, t), t, s);
  }

  /** No interleaving gets stuck before the end of the TTI. */
  lemma NeverStuck<U, E, S>(b: Bodies<U, E, S>, s0: Sys<U, E, S>, acts: seq<Actor>, s: Sys<U, E, S>, t: nat)
    returns (a: Actor)
    requires StartOk(b, s0, t) && Interleaves(b, s0, acts, s, t) && !AtEnd(s)
    ensures CanStep(s, a)
  {
    ThreadsReady(b, s0, acts, s, t);
    a := CanAlwaysStep(s);
  }
}
