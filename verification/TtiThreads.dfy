/** The worker threads of one TTI (main.cpp): one worker per UE, the eNB worker, and the tasks the eNB worker spawns for
    received PDUs. The bodies of the workers are parameters; what is modelled here is which shared state they touch, in
    which atomic steps, and that the steps of different threads interleave arbitrarily. */
module TtiThreads {
  import opened CommonTypes
  import opened TimedChannels

  /** The deterministic pieces of the worker bodies, for any UE state U, per-UE eNB state E and shared eNB state S. */
  datatype Bodies<!U, !E, !S> = Bodies(
    feedback: (Rnti, U, PhichMsg) -> U,                              // handle one PHICH message
    listen: (Rnti, U, nat) -> U,                                     // buffer snapshot and data arrival
    check: (U, UlGrant) -> U,                                        // note a grant
    run: (Rnti, U, nat) -> (U, Option<seq<nat>>),                    // BSR, SR and token bucket steps
    process: (U, UlGrant) -> (U, seq<Byte>),                         // HARQ, BSR packing and LCP for one grant
    finish: U -> U,                                                  // drop the grant flag
    onSr: (E, SrMsg) -> E,
    schedule: (map<Rnti, E>, S, nat) -> (map<Rnti, E>, S, seq<(Rnti, UlGrant)>),
    onPdu: (E, PduMsg) -> E,                                         // unpack the PDU and feed its BSR to the scheduler
    receive: (E, PduMsg) -> (E, bool, bool),                         // soft combining: CRC result, TB discarded
    onCrc: (E, PduMsg, bool) -> E)                                   // release the process or have it retransmitted

  // ---- Thread states ----

  datatype UePc = PopPhich | PopGrant | SendSr | SendPdu | UeDone

  /** `n` counts the iterations of the loop the worker is in. */
  datatype UeThread<U> = UeThread(pc: UePc, n: nat, u: U, grants: seq<UlGrant>, sr: Option<SrMsg>, pdus: seq<PduMsg>)

  datatype EnbPc = PopSr | SendGrant | PopPdu | Join | EnbDone

  datatype EnbThread = EnbThread(pc: EnbPc, n: nat, grants: seq<(Rnti, UlGrant)>)

  /** One received PDU; `k` counts the atomic steps taken: BSR, receive, PHICH, CRC. */
  datatype Task = Task(msg: PduMsg, k: nat, ack: bool, discarded: bool)

  datatype Sys<U, E, S> = Sys(
    ues: map<Rnti, UeThread<U>>, enb: EnbThread, tasks: seq<Task>, cells: map<Rnti, E>, shared: S,
    sr: Queue<SrMsg>, pdu: Queue<PduMsg>, grant: map<Rnti, Queue<UlGrant>>, phich: map<Rnti, Queue<PhichMsg>>)

  datatype Actor = UeActor(r: Rnti) | EnbActor | TaskActor(i: nat)

  // ---- Folds over message batches ----

  function FoldFeedback<U, E, S>(b: Bodies<U, E, S>, r: Rnti, u: U, ms: seq<PhichMsg>): U {
    if ms == [] then u else b.feedback(r, FoldFeedback(b, r, u, ms[..|ms| - 1]), ms[|ms| - 1])
  }

  function FoldCheck<U, E, S>(b: Bodies<U, E, S>, u: U, gs: seq<UlGrant>): U {
    if gs == [] then u else b.check(FoldCheck(b, u, gs[..|gs| - 1]), gs[|gs| - 1])
  }

  /** Every grant of the TTI yields exactly one PDU. */
  function ProcessAll<U, E, S>(b: Bodies<U, E, S>, r: Rnti, u: U, gs: seq<UlGrant>): (res: (U, seq<PduMsg>))
    ensures |res.1| == |gs|
    ensures forall i :: 0 <= i < |gs| ==> res.1[i].rnti == r && res.1[i].grant == gs[i]
  {
    if gs == [] then (u, [])
    else
      var (v, pdus) := ProcessAll(b, r, u, gs[..|gs| - 1]);
      var (w, pdu) := b.process(v, gs[|gs| - 1]);
      (w, pdus + [PduMsg(r, gs[|gs| - 1], pdu)])
  }

  function FoldSr<U, E, S>(b: Bodies<U, E, S>, e: E, ms: seq<SrMsg>): E {
    if ms == [] then e else b.onSr(FoldSr(b, e, ms[..|ms| - 1]), ms[|ms| - 1])
  }

  /** The state of a UE's cell after k steps of the task for its PDU. */
  function TaskCell<U, E, S>(b: Bodies<U, E, S>, e: E, m: PduMsg, k: nat): E {
    if k == 0 then e
    else if k == 1 then b.onPdu(e, m)
    else if k <= 3 then b.receive(b.onPdu(e, m), m).0
    else var (f, ack, discarded) := b.receive(b.onPdu(e, m), m); b.onCrc(f, m, discarded || ack)
  }

  function TaskAck<U, E, S>(b: Bodies<U, E, S>, e: E, m: PduMsg): PhichMsg {
    PhichMsg(m.rnti, m.grant.pid, b.receive(b.onPdu(e, m), m).1)
  }

  // ---- Atomic steps ----

  predicate CanStep<U, E, S>(s: Sys<U, E, S>, a: Actor) {
    match a
    case UeActor(r) => r in s.ues && r in s.grant && r in s.phich && s.ues[r].pc != UeDone
    case EnbActor =>
      && s.enb.pc != EnbDone
      && (s.enb.pc == Join ==> forall i :: 0 <= i < |s.tasks| ==> s.tasks[i].k == 4)
      && (s.enb.pc == SendGrant && s.enb.n < |s.enb.grants| ==> s.enb.grants[s.enb.n].0 in s.grant)
    case TaskActor(i) =>
      i < |s.tasks| && s.tasks[i].k < 4 && s.tasks[i].msg.rnti in s.cells && s.tasks[i].msg.rnti in s.phich
  }

  function Step<U, E, S>(b: Bodies<U, E, S>, s: Sys<U, E, S>, a: Actor, t: nat): Sys<U, E, S>
    requires CanStep(s, a)
  {
    match a
    case UeActor(r) => UeStep(b, s, r, t)
    case EnbActor => EnbStep(b, s, t)
    case TaskActor(i) => TaskStep(b, s, i, t)
  }

  function UeStep<U, E, S>(b: Bodies<U, E, S>, s: Sys<U, E, S>, r: Rnti, t: nat): Sys<U, E, S>
    requires CanStep(s, UeActor(r))
  {
    match s.ues[r].pc
    case PopPhich => UePopPhich(b, s, r, t)
    case PopGrant => UePopGrant(b, s, r, t)
    case SendSr => UeSendSr(b, s, r, t)
    case SendPdu => UeSendPdu(b, s, r, t)
    case UeDone => s
  }

  /** The worker after one turn of its PHICH loop, and after one turn of its grant loop. */
  function HeardPhich<U, E, S>(b: Bodies<U, E, S>, r: Rnti, w: UeThread<U>, m: Option<PhichMsg>, t: nat): UeThread<U> {
    if m.Some? then w.(u := b.feedback(r, w.u, m.value), n := w.n + 1)
    else w.(u := b.listen(r, w.u, t), pc := PopGrant, n := 0)
  }

  function HeardGrant<U, E, S>(b: Bodies<U, E, S>, r: Rnti, w: UeThread<U>, g: Option<UlGrant>, t: nat): UeThread<U> {
    if g.Some? then w.(u := b.check(w.u, g.value), grants := w.grants + [g.value], n := w.n + 1)
    else
      var (u, sizes) := b.run(r, w.u, t);
      w.(u := u, sr := if sizes.Some? then Some(SrMsg(r, sizes.value)) else None, pc := SendSr, n := 0)
  }

  function UePopPhich<U, E, S>(b: Bodies<U, E, S>, s: Sys<U, E, S>, r: Rnti, t: nat): Sys<U, E, S>
    requires CanStep(s, UeActor(r))
  {
    var (m, q) := Pop(s.phich[r], t);
    s.(ues := s.ues[r := HeardPhich(b, r, s.ues[r], m, t)], phich := s.phich[r := q])
  }

  function UePopGrant<U, E, S>(b: Bodies<U, E, S>, s: Sys<U, E, S>, r: Rnti, t: nat): Sys<U, E, S>
    requires CanStep(s, UeActor(r))
  {
    var (g, q) := Pop(s.grant[r], t);
    s.(ues := s.ues[r := HeardGrant(b, r, s.ues[r], g, t)], grant := s.grant[r := q])
  }

  function UeSendSr<U, E, S>(b: Bodies<U, E, S>, s: Sys<U, E, S>, r: Rnti, t: nat): Sys<U, E, S>
    requires CanStep(s, UeActor(r))
  {
    var w := s.ues[r];
    var (u, pdus) := ProcessAll(b, r, w.u, w.grants);
    s.(ues := s.ues[r := w.(u := u, pdus := pdus, pc := SendPdu, n := 0)],
       sr := if w.sr.Some? then s.sr + [Entry(w.sr.value, t)] else s.sr)
  }

  function UeSendPdu<U, E, S>(b: Bodies<U, E, S>, s: Sys<U, E, S>, r: Rnti, t: nat): Sys<U, E, S>
    requires CanStep(s, UeActor(r))
  {
    var w := s.ues[r];
    if w.n < |w.pdus| then
      s.(ues := s.ues[r := w.(n := w.n + 1)], pdu := s.pdu + [Entry(w.pdus[w.n], t)])
    else s.(ues := s.ues[r := w.(u := b.finish(w.u), pc := UeDone)])
  }

  function EnbStep<U, E, S>(b: Bodies<U, E, S>, s: Sys<U, E, S>, t: nat): Sys<U, E, S>
    requires CanStep(s, EnbActor)
  {
    match s.enb.pc
    case PopSr => EnbPopSr(b, s, t)
    case SendGrant => EnbSendGrant(s, t)
    case PopPdu => EnbPopPdu(s, t)
    case Join => s.(enb := s.enb.(pc := EnbDone))
    case EnbDone => s
  }

  function OnSrAt<U, E, S>(b: Bodies<U, E, S>, cells: map<Rnti, E>, m: SrMsg): map<Rnti, E> {
    if m.rnti in cells then cells[m.rnti := b.onSr(cells[m.rnti], m)] else cells
  }

  function EnbPopSr<U, E, S>(b: Bodies<U, E, S>, s: Sys<U, E, S>, t: nat): Sys<U, E, S> {
    var (m, q) := Pop(s.sr, t);
    if m.Some? then
      s.(sr := q, cells := OnSrAt(b, s.cells, m.value), enb := s.enb.(n := s.enb.n + 1))
    else
      var (cells, shared, grants) := b.schedule(s.cells, s.shared, t);
      s.(cells := cells, shared := shared, enb := EnbThread(SendGrant, 0, grants))
  }

  function EnbSendGrant<U, E, S>(s: Sys<U, E, S>, t: nat): Sys<U, E, S>
    requires s.enb.n < |s.enb.grants| ==> s.enb.grants[s.enb.n].0 in s.grant
  {
    if s.enb.n < |s.enb.grants| then
      var (r, g) := s.enb.grants[s.enb.n];
      s.(grant := s.grant[r := s.grant[r] + [Entry(g, t)]], enb := s.enb.(n := s.enb.n + 1))
    else s.(enb := s.enb.(pc := PopPdu, n := 0))
  }

  function EnbPopPdu<U, E, S>(s: Sys<U, E, S>, t: nat): Sys<U, E, S> {
    var (m, q) := Pop(s.pdu, t);
    if m.Some? then s.(pdu := q, tasks := s.tasks + [Task(m.value, 0, false, false)], enb := s.enb.(n := s.enb.n + 1))
    else s.(enb := s.enb.(pc := Join))
  }

  /** One atomic step of a task: the cell of its RNTI and the task afterwards. */
  function TaskTurn<U, E, S>(b: Bodies<U, E, S>, e: E, task: Task): (E, Task) {
    if task.k == 0 then (b.onPdu(e, task.msg), task.(k := 1))
    else if task.k == 1 then
      var (f, ack, discarded) := b.receive(e, task.msg);
      (f, Task(task.msg, 2, ack, discarded))
    else if task.k == 2 then (e, task.(k := 3))
    else (b.onCrc(e, task.msg, task.discarded || task.ack), task.(k := 4))
  }

  function TaskStep<U, E, S>(b: Bodies<U, E, S>, s: Sys<U, E, S>, i: nat, t: nat): Sys<U, E, S>
    requires CanStep(s, TaskActor(i))
  {
    var (task, r) := (s.tasks[i], s.tasks[i].msg.rnti);
    var (e, next) := TaskTurn(b, s.cells[r], task);
    s.(cells := s.cells[r := e], tasks := s.tasks[i := next],
       phich := if task.k == 2 then s.phich[r := s.phich[r] + [Entry(PhichMsg(r, task.msg.grant.pid, task.ack), t)]]
         else s.phich)
  }

  /** Some interleaving of the threads leads from s to s'. */
  ghost predicate Interleaves<U, E, S>(b: Bodies<U, E, S>, s: Sys<U, E, S>, acts: seq<Actor>, s': Sys<U, E, S>, t: nat)
    decreases |acts|
  {
    if acts == [] then s == s'
    else CanStep(s, acts[0]) && Interleaves(b, Step(b, s, acts[0], t), acts[1..], s', t)
  }

  ghost predicate AtStart<U, E, S>(s: Sys<U, E, S>) {
    && s.enb == EnbThread(PopSr, 0, []) && s.tasks == []
    && forall r :: r in s.ues ==> s.ues[r] == UeThread(PopPhich, 0, s.ues[r].u, [], None, [])
  }

  predicate AtEnd<U, E, S>(s: Sys<U, E, S>) {
    s.enb.pc == EnbDone && forall r :: r in s.ues ==> s.ues[r].pc == UeDone
  }

  /** All workers enter the next TTI. */
  function Restarted<U, E, S>(s: Sys<U, E, S>): (s': Sys<U, E, S>)
    ensures AtStart(s')
  {
    s.(ues := map r | r in s.ues ::
       UeThread(PopPhich, 0, s.ues[r].u, [], None, []), enb := EnbThread(PopSr, 0, []), tasks := [])
  }

  // ---- The sequential view: one record per RNTI ----

  /** All state that belongs to one RNTI, with the shared PUCCH and PUSCH queues restricted to that RNTI. */
  datatype Link<U, E> = Link(u: U, e: E, sr: Queue<SrMsg>, grant: Queue<UlGrant>, pdu: Queue<PduMsg>,
                             phich: Queue<PhichMsg>)

  datatype Cell<U, E, S> = Cell(links: map<Rnti, Link<U, E>>, shared: S)

  /** The entries of a shared queue that belong to one RNTI. */
  function Only<T>(q: Queue<T>, owner: T -> Rnti, r: Rnti): Queue<T> {
    if q == [] then [] else Only(q[..|q| - 1], owner, r) + (if owner(q[|q| - 1].item) == r then [q[|q| - 1]] else [])
  }

  function SrRnti(m: SrMsg): Rnti { m.rnti }

  function PduRnti(m: PduMsg): Rnti { m.rnti }

  function SrOf(q: Queue<SrMsg>, r: Rnti): Queue<SrMsg> {
    Only(q, SrRnti, r)
  }

  function PduOf(q: Queue<PduMsg>, r: Rnti): Queue<PduMsg> {
    Only(q, PduRnti, r)
  }

  function GrantsFor(gs: seq<(Rnti, UlGrant)>, r: Rnti): seq<UlGrant> {
    if gs == [] then [] else GrantsFor(gs[..|gs| - 1], r) + (if gs[|gs| - 1].0 == r then [gs[|gs| - 1].1] else [])
  }

  function Due<T>(q: Queue<T>, t: nat): seq<T> {
    Items(q[..VisibleCount(q, t)])
  }

  function Rest<T>(q: Queue<T>, t: nat): Queue<T> {
    q[VisibleCount(q, t)..]
  }

  ghost predicate SameDomain<A, B>(m: map<Rnti, A>, n: map<Rnti, B>) {
    forall r: Rnti :: r in m <==> r in n
  }

  ghost predicate SameKeys<U, E, S>(s: Sys<U, E, S>) {
    SameDomain(s.ues, s.cells) && SameDomain(s.ues, s.grant) && SameDomain(s.ues, s.phich)
  }

  ghost function ViewOf<U, E, S>(s: Sys<U, E, S>): Cell<U, E, S>
    requires SameKeys(s)
  {
    Cell(map r | r in s.ues :: LinkAt(s, r), s.shared)
  }

  ghost function LinkAt<U, E, S>(s: Sys<U, E, S>, r: Rnti): Link<U, E>
    requires SameKeys(s) && r in s.ues
  {
    Link(s.ues[r].u, s.cells[r], SrOf(s.sr, r), s.grant[r], PduOf(s.pdu, r), s.phich[r])
  }

  // What a UE worker computes in one TTI from the messages due to it.

  function UeHeard<U, E, S>(b: Bodies<U, E, S>, r: Rnti, u: U, ph: seq<PhichMsg>, t: nat): U {
    b.listen(r, FoldFeedback(b, r, u, ph), t)
  }

  function UeRan<U, E, S>(b: Bodies<U, E, S>, r: Rnti, u: U, ph: seq<PhichMsg>, gs: seq<UlGrant>, t: nat)
    : (U, Option<SrMsg>) {
    var (v, sizes) := b.run(r, FoldCheck(b, UeHeard(b, r, u, ph, t), gs), t);
    (v, if sizes.Some? then Some(SrMsg(r, sizes.value)) else None)
  }

  function UeSent<U, E, S>(b: Bodies<U, E, S>, r: Rnti, u: U, ph: seq<PhichMsg>, gs: seq<UlGrant>, t: nat)
    : (U, seq<PduMsg>) {
    ProcessAll(b, r, UeRan(b, r, u, ph, gs, t).0, gs)
  }

  function AsSeq<T>(o: Option<T>): seq<T> {
    if o.Some? then [o.value] else []
  }

  /** The cells after the due SRs, then after scheduling. */
  function Requested<U, E, S>(b: Bodies<U, E, S>, c: Cell<U, E, S>, t: nat): map<Rnti, E> {
    map r | r in c.links :: FoldSr(b, c.links[r].e, Due(c.links[r].sr, t))
  }

  /** The last due PDU's task; a link never has more than one due PDU (see LinkOk). */
  function PduReceived<U, E, S>(b: Bodies<U, E, S>, e: E, ms: seq<PduMsg>): (E, seq<PhichMsg>) {
    if ms == [] then (e, []) else (TaskCell(b, e, ms[0], 4), [TaskAck(b, e, ms[0])])
  }

  ghost predicate KeepsKeys<U, E, S>(b: Bodies<U, E, S>, c: Cell<U, E, S>, t: nat) {
    SameDomain(c.links, b.schedule(Requested(b, c, t), c.shared, t).0)
  }

  function RoundLink<U, E, S>(b: Bodies<U, E, S>, r: Rnti, l: Link<U, E>, e: E, gs: seq<UlGrant>, t: nat): Link<U, E> {
    var (ph, due) := (Due(l.phich, t), Due(l.grant, t));
    var (u, pdus) := UeSent(b, r, l.u, ph, due, t);
    var (e', acks) := PduReceived(b, e, Due(l.pdu, t));
    Link(b.finish(u), e', Rest(l.sr, t) + Tag(AsSeq(UeRan(b, r, l.u, ph, due, t).1), t), Rest(l.grant, t) + Tag(gs, t),
         Rest(l.pdu, t) + Tag(pdus, t), Rest(l.phich, t) + Tag(acks, t))
  }

  function RoundLinks<U, E, S>(b: Bodies<U, E, S>, links: map<Rnti, Link<U, E>>, cells: map<Rnti, E>,
                               grants: seq<(Rnti, UlGrant)>, t: nat): map<Rnti, Link<U, E>>
    requires forall r :: r in links ==> r in cells
  {
    map r | r in links :: RoundLink(b, r, links[r], cells[r], GrantsFor(grants, r), t)
  }

  /** One TTI, run sequentially: every UE, then SRs, scheduling and received PDUs at the eNB. */
  ghost function Round<U, E, S>(b: Bodies<U, E, S>, c: Cell<U, E, S>, t: nat): Cell<U, E, S>
    requires KeepsKeys(b, c, t)
  {
    var (cells, shared, grants) := b.schedule(Requested(b, c, t), c.shared, t);
    Cell(RoundLinks(b, c.links, cells, grants, t), shared)
  }
}
