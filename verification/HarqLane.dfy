/** The closed HARQ loop seen from one process identifier of one UE: the UE process, the scheduler's bookkeeping, the
    eNB receive process, and the messages between them. */
module HarqLane {
  import opened CommonTypes
  import opened TimedChannels
  import opened TtiThreads
  import opened Scheduler
  import UeHarq
  import EnbHarq
  import opened TtiRuns

  /** `pdu` keeps the grant each PDU answers; its payload does not matter to the HARQ entities. */
  datatype Lane = Lane(ue: UeHarq.UeProc, busy: bool, pending: bool, ndi: bool, tb: TbInfo, rx: EnbHarq.RxProc,
                       grant: Queue<UlGrant>, pdu: Queue<UlGrant>, phich: Queue<bool>)

  /** What the scheduler does with this process in one TTI. */
  datatype Issued = Nothing | NewGrant(g: UlGrant) | RetxGrant(g: UlGrant)

  predicate GrantOk(g: UlGrant) {
    g.tbs > 0 && g.ndiPresent && !g.isRar
  }

  predicate IssueOk(l: Lane, i: Issued) {
    match i
    case Nothing => true
    case NewGrant(g) => GrantOk(g) && !l.busy && g.ndi == !l.ndi && g.rv == 0
    case RetxGrant(g) =>
      GrantOk(g) && l.pending && g.ndi == l.ndi && g.rv == -1 && l.tb == TbInfo(g.tbs, g.mcs, g.nPrb, true)
  }

  // ---- One TTI ----

  function HeadDue<T>(q: Queue<T>, t: nat): Option<T> {
    Pop(q, t).0
  }

  /** The UE: feedback first, then the grant. */
  function Heard(p: UeHarq.UeProc, ack: Option<bool>): UeHarq.UeProc {
    if ack.Some? then UeHarq.Feedback(p, ack.value).0 else p
  }

  function Answered(p: UeHarq.UeProc, g: Option<UlGrant>, cfg: UeHarq.HarqConfig): UeHarq.UeProc {
    if g.Some? then UeHarq.Grant(p, g.value, cfg, false).0 else p
  }

  function Scheduled(l: Lane, i: Issued): Lane {
    match i
    case Nothing => l
    case NewGrant(g) => l.(busy := true, ndi := g.ndi, tb := TbInfo(g.tbs, g.mcs, g.nPrb, true))
    case RetxGrant(g) => l.(pending := false)
  }

  /** The eNB receives a TB: soft combining, then the scheduler's CRC indication. A discard is reported as a success. */
  function ReceivedTb(l: Lane, g: UlGrant, snr: int, maxTx: nat): Lane {
    var (x, res) := EnbHarq.Receive(l.rx, g, snr, maxTx);
    if res.crcOk || res.discarded then l.(rx := x, busy := false, pending := false, tb := l.tb.(valid := false))
    else l.(rx := x, busy := true, pending := true)
  }

  function GrantOf(i: Issued): seq<UlGrant> {
    if i.Nothing? then [] else [i.g]
  }

  function AckOf(x: EnbHarq.RxProc, g: Option<UlGrant>, snr: int, maxTx: nat): seq<bool> {
    if g.Some? then [EnbHarq.Receive(x, g.value, snr, maxTx).1.crcOk] else []
  }

  function LaneStep(l: Lane, i: Issued, cfg: UeHarq.HarqConfig, snr: int, t: nat): Lane {
    var (ack, g, m) := (HeadDue(l.phich, t), HeadDue(l.grant, t), HeadDue(l.pdu, t));
    var s := Scheduled(l, i);
    var e := if m.Some? then ReceivedTb(s, m.value, snr, cfg.maxHarqTx) else s;
    e.(ue := Answered(Heard(l.ue, ack), g, cfg),
       grant := Pop(l.grant, t).1 + Tag(GrantOf(i), t),
       pdu := Pop(l.pdu, t).1 + Tag(AsSeq(g), t),
       phich := Pop(l.phich, t).1 + Tag(AckOf(l.rx, m, snr, cfg.maxHarqTx), t))
  }

  // ---- The invariant ----

  /** The UE process once feedback in flight has reached it. */
  function Settled(ue: UeHarq.UeProc, phich: Queue<bool>): UeHarq.UeProc {
    if phich == [] then ue else UeHarq.Feedback(ue, phich[0].item).0
  }

  predicate Configured(p: UeHarq.UeProc, cfg: UeHarq.HarqConfig) {
    p.configured && p.config == cfg && !p.tempRnti && !p.earlyTermination
  }

  /** The UE holds no TB that is still being transmitted; `ndi` is the last NDI the scheduler used. */
  predicate UeIdle(p: UeHarq.UeProc, ndi: bool) {
    p.State() == Inactive && (p.configured ==> p.ndi == ndi)
  }

  /** The UE holds the TB described by ndi and tbs, sent k times so far; the IRV counter follows the count. */
  predicate UeHolds(p: UeHarq.UeProc, ndi: bool, tbs: nat, k: nat, cfg: UeHarq.HarqConfig) {
    && Configured(p, cfg) && !p.ackReceived && p.ndi == ndi && p.tbs == tbs
    && p.txNb == k && p.irv == k % 4 && p.rv == -1
  }

  predicate RxIdle(x: EnbHarq.RxProc) {
    x.state == Inactive && !x.ndiKnown
  }

  /** The receiver keeps the soft bits of the TB's first k receptions. */
  predicate RxHolds(x: EnbHarq.RxProc, ndi: bool, tb: TbInfo, k: nat) {
    x.state == RetxPending && x.ndiKnown && x.ndi == ndi && x.mcs == tb.mcs && x.tbs == tb.tbs
      && x.txCount == x.combined == k
  }

  predicate RxAfter(x: EnbHarq.RxProc, ndi: bool, tb: TbInfo, k: nat) {
    if k == 0 then RxIdle(x) else RxHolds(x, ndi, tb, k)
  }

  /** The TB in flight is the one the scheduler recorded; RV 0 is asked for the first transmission only. */
  predicate InFlight(l: Lane, g: UlGrant, k: nat) {
    && GrantOk(g) && g.ndi == l.ndi && l.tb == TbInfo(g.tbs, g.mcs, g.nPrb, true)
    && k >= 1 && g.rv == (if k == 1 then 0 else -1)
  }

  /** Transmissions of the current TB so far, as the receiver counts them. */
  function Receptions(x: EnbHarq.RxProc): nat {
    if x.ndiKnown then x.txCount else 0
  }

  predicate IdleLane(l: Lane) {
    !l.busy && !l.pending && l.grant == [] && l.pdu == [] && UeIdle(Settled(l.ue, l.phich), l.ndi) && RxIdle(l.rx)
  }

  predicate WaitingLane(l: Lane, cfg: UeHarq.HarqConfig) {
    var k := Receptions(l.rx);
    && l.busy && l.pending && l.grant == [] && l.pdu == [] && l.tb.valid && 1 <= k < cfg.maxHarqTx
    && UeHolds(Settled(l.ue, l.phich), l.ndi, l.tb.tbs, k, cfg) && Settled(l.ue, l.phich).feedbackReceived
      && RxHolds(l.rx, l.ndi, l.tb, k)
  }

  predicate GrantedLane(l: Lane, cfg: UeHarq.HarqConfig) {
    var k := Receptions(l.rx);
    && l.busy && !l.pending && |l.grant| == 1 && l.pdu == [] && k < cfg.maxHarqTx
    && InFlight(l, l.grant[0].item, k + 1) && RxAfter(l.rx, l.ndi, l.tb, k)
    && (if k == 0 then UeIdle(Settled(l.ue, l.phich), !l.ndi)
        else UeHolds(Settled(l.ue, l.phich), l.ndi, l.tb.tbs, k, cfg) && Settled(l.ue, l.phich).feedbackReceived)
    && (l.phich != [] ==> l.phich[0].sendTti < l.grant[0].sendTti)
  }

  predicate SentLane(l: Lane, cfg: UeHarq.HarqConfig) {
    var k := Receptions(l.rx);
    && l.busy && !l.pending && l.grant == [] && |l.pdu| == 1 && l.phich == [] && k < cfg.maxHarqTx
    && InFlight(l, l.pdu[0].item, k + 1) && RxAfter(l.rx, l.ndi, l.tb, k)
    && UeHolds(l.ue, l.ndi, l.tb.tbs, k + 1, cfg) && !l.ue.feedbackReceived
  }

  predicate LaneInv(l: Lane, cfg: UeHarq.HarqConfig, t: nat) {
    && Recent(l.grant, t) && Recent(l.pdu, t) && Recent(l.phich, t) && |l.phich| <= 1
    && !l.ue.earlyTermination && !l.ue.tempRnti
    && (IdleLane(l) || WaitingLane(l, cfg) || GrantedLane(l, cfg) || SentLane(l, cfg))
  }

  lemma PopRecent<T>(q: Queue<T>, items: seq<T>, t: nat)
    requires Recent(q, t) && |items| <= 1
    ensures Recent(Pop(q, t).1 + Tag(items, t), t + 1)
    ensures HeadDue(q, t).Some? <==> q != [] && q[0].sendTti + CHANNEL_PROPAGATION_TTI == t
  {
  }

  lemma QueuesRecent(l: Lane, i: Issued, cfg: UeHarq.HarqConfig, snr: int, t: nat)
    requires LaneInv(l, cfg, t)
    ensures var l' := LaneStep(l, i, cfg, snr, t);
        Recent(l'.grant, t + 1) && Recent(l'.pdu, t + 1) && Recent(l'.phich, t + 1)
  {
    var (ack, g, m) := (HeadDue(l.phich, t), HeadDue(l.grant, t), HeadDue(l.pdu, t));
    PopRecent(l.grant, GrantOf(i), t);
    PopRecent(l.pdu, AsSeq(g), t);
    PopRecent(l.phich, AckOf(l.rx, m, snr, cfg.maxHarqTx), t);
  }

  lemma NothingPopped<T>(t: nat)
    ensures Pop<T>([], t) == (None, []) && forall q: Queue<T> :: q + Tag([], t) == q
  {
  }

  lemma FeedbackKeeps(p: UeHarq.UeProc, ack: bool)
    ensures var q := UeHarq.Feedback(p, ack).0; q.earlyTermination == p.earlyTermination && q.tempRnti == p.tempRnti
  {
  }

  /** Feedback that arrives is feedback that was already counted on. */
  lemma SettledStays(ue: UeHarq.UeProc, phich: Queue<bool>, t: nat)
    requires |phich| <= 1
    ensures Settled(Heard(ue, HeadDue(phich, t)), Pop(phich, t).1 + Tag([], t)) == Settled(ue, phich)
  {
    NothingPopped<bool>(t);
  }

  /** The lane when only feedback moves. */
  function Listened(l: Lane, t: nat): Lane {
    l.(ue := Heard(l.ue, HeadDue(l.phich, t)), phich := Pop(l.phich, t).1 + Tag([], t))
  }

  lemma OnlyListens(l: Lane, i: Issued, cfg: UeHarq.HarqConfig, snr: int, t: nat)
    requires HeadDue(l.grant, t).None? && HeadDue(l.pdu, t).None?
    ensures LaneStep(l, i, cfg, snr, t) == Scheduled(Listened(l, t), i).(grant := l.grant + Tag(GrantOf(i), t))
  {
    NothingPopped<UlGrant>(t);
  }

  lemma ListeningKeeps(l: Lane, cfg: UeHarq.HarqConfig, t: nat)
    requires LaneInv(l, cfg, t)
    ensures var l' := Listened(l, t);
            && Settled(l'.ue, l'.phich) == Settled(l.ue, l.phich) && !l'.ue.earlyTermination && !l'.ue.tempRnti
            && l'.phich <= l.phich && (l'.phich != [] ==> l'.phich == l.phich)
  {
    SettledStays(l.ue, l.phich, t);
    if l.phich != [] { FeedbackKeeps(l.ue, l.phich[0].item); }
  }

  lemma IdleHasNoRetx(l: Lane, i: Issued)
    requires IdleLane(l) && IssueOk(l, i)
    ensures !i.RetxGrant?
  {
  }

  lemma IdleStays(l: Lane, cfg: UeHarq.HarqConfig, snr: int, t: nat)
    requires LaneInv(l, cfg, t) && IdleLane(l)
    ensures IdleLane(LaneStep(l, Nothing, cfg, snr, t))
  {
    ListeningKeeps(l, cfg, t);
    OnlyListens(l, Nothing, cfg, snr, t);
    assert l.grant + Tag([], t) == [];
  }

  lemma BecomesGranted(l: Lane, g: UlGrant, cfg: UeHarq.HarqConfig, t: nat)
    requires IdleLane(l) && IssueOk(l, NewGrant(g)) && cfg.maxHarqTx >= 1 && (l.phich != [] ==> l.phich[0].sendTti < t)
    ensures var l' := Scheduled(l, NewGrant(g)).(grant := [Entry(g, t)]); GrantedLane(l', cfg) && Receptions(l'.rx) == 0
  {
  }

  lemma IdleGranted(l: Lane, g: UlGrant, cfg: UeHarq.HarqConfig, snr: int, t: nat)
    requires LaneInv(l, cfg, t) && IdleLane(l) && IssueOk(l, NewGrant(g)) && cfg.maxHarqTx >= 1
    ensures var l' := LaneStep(l, NewGrant(g), cfg, snr, t);
            GrantedLane(l', cfg) && l'.grant == [Entry(g, t)] && Receptions(l'.rx) == 0
  {
    ListeningKeeps(l, cfg, t);
    OnlyListens(l, NewGrant(g), cfg, snr, t);
    assert l.grant + Tag([g], t) == [Entry(g, t)];
    BecomesGranted(Listened(l, t), g, cfg, t);
  }

  /** The scheduler puts a new TB in flight on an idle process, or leaves the process as it is. */
  lemma IdleStep(l: Lane, i: Issued, cfg: UeHarq.HarqConfig, snr: int, t: nat)
    requires LaneInv(l, cfg, t) && IdleLane(l) && IssueOk(l, i) && cfg.maxHarqTx >= 1
    ensures var l' := LaneStep(l, i, cfg, snr, t);
            if i.NewGrant? then GrantedLane(l', cfg) && l'.grant == [Entry(i.g, t)] && Receptions(l'.rx) == 0
            else IdleLane(l')
  {
    IdleHasNoRetx(l, i);
    if i.NewGrant? { IdleGranted(l, i.g, cfg, snr, t); } else { IdleStays(l, cfg, snr, t); }
  }

  lemma WaitingStep(l: Lane, i: Issued, cfg: UeHarq.HarqConfig, snr: int, t: nat)
    requires LaneInv(l, cfg, t) && WaitingLane(l, cfg) && IssueOk(l, i)
    ensures var l' := LaneStep(l, i, cfg, snr, t);
            && Receptions(l'.rx) == Receptions(l.rx)
            && (if i.RetxGrant? then GrantedLane(l', cfg) && l'.grant == [Entry(i.g, t)] else WaitingLane(l', cfg))
  {
    ListeningKeeps(l, cfg, t);
    OnlyListens(l, i, cfg, snr, t);
    assert l.grant + Tag(GrantOf(i), t) == if i.RetxGrant? then [Entry(i.g, t)] else [];
  }

  /** The grant reaches the UE after all feedback for the process, and the UE sends transmission k + 1. */
  lemma GrantReachesUe(l: Lane, cfg: UeHarq.HarqConfig, t: nat)
    requires LaneInv(l, cfg, t) && GrantedLane(l, cfg) && l.grant[0].sendTti + CHANNEL_PROPAGATION_TTI == t
    ensures l.phich == [] && UeHarq.ClassedNew(l.ue, l.grant[0].item, false) == (Receptions(l.rx) == 0)
    ensures var p := UeHarq.Grant(l.ue, l.grant[0].item, cfg, false).0;
            UeHolds(p, l.ndi, l.tb.tbs, Receptions(l.rx) + 1, cfg) && !p.feedbackReceived
  {
  }

  lemma GrantPopped(l: Lane, cfg: UeHarq.HarqConfig, snr: int, t: nat)
    requires |l.grant| == 1 && l.grant[0].sendTti + CHANNEL_PROPAGATION_TTI == t && l.phich == [] && l.pdu == []
    ensures var g := l.grant[0].item;
            LaneStep(l, Nothing, cfg, snr, t) ==
              l.(ue := UeHarq.Grant(l.ue, g, cfg, false).0, grant := [], pdu := [Entry(g, t)])
  {
    var g := l.grant[0].item;
    assert [] + Tag([g], t) == [Entry(g, t)];
    NothingPopped<UlGrant>(t);
    NothingPopped<bool>(t);
  }

  lemma BecomesSent(l: Lane, p: UeHarq.UeProc, cfg: UeHarq.HarqConfig, t: nat)
    requires GrantedLane(l, cfg) && l.phich == [] && !p.feedbackReceived
    requires UeHolds(p, l.ndi, l.tb.tbs, Receptions(l.rx) + 1, cfg)
    ensures SentLane(l.(ue := p, grant := [], pdu := [Entry(l.grant[0].item, t)]), cfg)
  {
  }

  lemma GrantTaken(l: Lane, cfg: UeHarq.HarqConfig, snr: int, t: nat)
    requires LaneInv(l, cfg, t) && GrantedLane(l, cfg) && l.grant[0].sendTti + CHANNEL_PROPAGATION_TTI == t
    ensures var l' := LaneStep(l, Nothing, cfg, snr, t);
            SentLane(l', cfg) && l'.pdu == [Entry(l.grant[0].item, t)] && l'.rx == l.rx
  {
    GrantReachesUe(l, cfg, t);
    GrantPopped(l, cfg, snr, t);
    BecomesSent(l, UeHarq.Grant(l.ue, l.grant[0].item, cfg, false).0, cfg, t);
  }

  lemma GrantWaits(l: Lane, cfg: UeHarq.HarqConfig, snr: int, t: nat)
    requires LaneInv(l, cfg, t) && GrantedLane(l, cfg) && l.grant[0].sendTti + CHANNEL_PROPAGATION_TTI > t
    ensures var l' := LaneStep(l, Nothing, cfg, snr, t); GrantedLane(l', cfg) && l'.grant == l.grant && l'.rx == l.rx
  {
    ListeningKeeps(l, cfg, t);
    OnlyListens(l, Nothing, cfg, snr, t);
    assert l.grant + Tag([], t) == l.grant;
  }

  lemma GrantedStep(l: Lane, i: Issued, cfg: UeHarq.HarqConfig, snr: int, t: nat)
    requires LaneInv(l, cfg, t) && GrantedLane(l, cfg) && IssueOk(l, i)
    ensures var l' := LaneStep(l, i, cfg, snr, t);
            && i == Nothing && Receptions(l'.rx) == Receptions(l.rx)
            && (if l.grant[0].sendTti + CHANNEL_PROPAGATION_TTI == t then
                  SentLane(l', cfg) && l'.pdu == [Entry(l.grant[0].item, t)]
                else GrantedLane(l', cfg) && l'.grant == l.grant)
  {
    if l.grant[0].sendTti + CHANNEL_PROPAGATION_TTI == t {
      GrantTaken(l, cfg, snr, t);
    } else {
      GrantWaits(l, cfg, snr, t);
    }
  }

  /** The receiver counts the transmission as the UE does; both give the TB up together, or both keep it. */
  lemma TbReceived(l: Lane, cfg: UeHarq.HarqConfig, snr: int)
    requires SentLane(l, cfg) && !l.ue.earlyTermination && !l.ue.tempRnti
    ensures var (x, res) := EnbHarq.Receive(l.rx, l.pdu[0].item, snr, cfg.maxHarqTx);
            var (p, action) := UeHarq.Feedback(l.ue, res.crcOk);
            && res.txCount == l.ue.txNb && res.isNewTb == (l.ue.txNb == 1) && res.tbs == l.ue.tbs
            && action.isDiscarded == res.discarded
            && (if res.crcOk || res.discarded then UeIdle(p, l.ndi) && RxIdle(x)
                else
                  && UeHolds(p, l.ndi, l.tb.tbs, l.ue.txNb, cfg) && p.feedbackReceived
                  && RxHolds(x, l.ndi, l.tb, l.ue.txNb) && l.ue.txNb < cfg.maxHarqTx)
  {
  }

  lemma PduPopped(l: Lane, cfg: UeHarq.HarqConfig, snr: int, t: nat)
    requires |l.pdu| == 1 && l.pdu[0].sendTti + CHANNEL_PROPAGATION_TTI == t && l.phich == [] && l.grant == []
    ensures var g := l.pdu[0].item; var (x, res) := EnbHarq.Receive(l.rx, g, snr, cfg.maxHarqTx);
            LaneStep(l, Nothing, cfg, snr, t) ==
            ReceivedTb(l, g, snr, cfg.maxHarqTx).(pdu := [], phich := [Entry(res.crcOk, t)])
  {
    var res := EnbHarq.Receive(l.rx, l.pdu[0].item, snr, cfg.maxHarqTx).1;
    assert [] + Tag([res.crcOk], t) == [Entry(res.crcOk, t)];
    NothingPopped<UlGrant>(t);
    NothingPopped<bool>(t);
  }

  lemma SentStep(l: Lane, i: Issued, cfg: UeHarq.HarqConfig, snr: int, t: nat)
    requires LaneInv(l, cfg, t) && SentLane(l, cfg) && IssueOk(l, i)
    ensures var l' := LaneStep(l, i, cfg, snr, t);
            && i == Nothing
            && (if l.pdu[0].sendTti + CHANNEL_PROPAGATION_TTI == t then
                  IdleLane(l') || (WaitingLane(l', cfg) && Receptions(l'.rx) == Receptions(l.rx) + 1)
                else SentLane(l', cfg) && l'.pdu == l.pdu && Receptions(l'.rx) == Receptions(l.rx))
            && |l'.phich| <= 1 && !l'.ue.earlyTermination && !l'.ue.tempRnti
  {
    if l.pdu[0].sendTti + CHANNEL_PROPAGATION_TTI == t {
      TbReceived(l, cfg, snr);
      PduPopped(l, cfg, snr, t);
    } else {
      ListeningKeeps(l, cfg, t);
      OnlyListens(l, i, cfg, snr, t);
      assert l.grant + Tag([], t) == l.grant;
      assert Pop(l.pdu, t).1 + Tag([], t) == l.pdu;
    }
  }

  lemma FlagsKept(l: Lane, i: Issued, cfg: UeHarq.HarqConfig, snr: int, t: nat)
    requires LaneInv(l, cfg, t) && !SentLane(l, cfg)
    ensures var l' := LaneStep(l, i, cfg, snr, t); |l'.phich| <= 1 && !l'.ue.earlyTermination && !l'.ue.tempRnti
  {
    if l.phich != [] { FeedbackKeeps(l.ue, l.phich[0].item); }
  }

  /** Every TTI keeps the invariant, whatever the scheduler does with the process. */
  lemma LaneInvKept(l: Lane, i: Issued, cfg: UeHarq.HarqConfig, snr: int, t: nat)
    requires LaneInv(l, cfg, t) && IssueOk(l, i) && cfg.maxHarqTx >= 1
    ensures LaneInv(LaneStep(l, i, cfg, snr, t), cfg, t + 1)
  {
    QueuesRecent(l, i, cfg, snr, t);
    if SentLane(l, cfg) {
      SentStep(l, i, cfg, snr, t);
    } else {
      FlagsKept(l, i, cfg, snr, t);
      if IdleLane(l) { IdleStep(l, i, cfg, snr, t); }
      else if WaitingLane(l, cfg) { WaitingStep(l, i, cfg, snr, t); }
      else { GrantedStep(l, i, cfg, snr, t); }
    }
  }

  // ---- What the invariant says ----

  /** Between TTIs a process is busy without a retransmission pending exactly when one grant or PDU is in flight for it,
      and never more than one is. A retransmission is only pending on a busy process with a recorded TB. */
  lemma SingleToken(l: Lane, cfg: UeHarq.HarqConfig, t: nat)
    requires LaneInv(l, cfg, t)
    ensures |l.grant| + |l.pdu| == if l.busy && !l.pending then 1 else 0
    ensures l.pending ==> l.busy && l.tb.valid
  {
  }

  /** The UE and the scheduler agree on the grant due in TTI t: a new TB only finds the process inactive, a
      retransmission only finds it pending; the UE classes the grant as the scheduler meant it, and its k-th
      transmission carries the k-th redundancy version. */
  predicate GrantAgreed(l: Lane, cfg: UeHarq.HarqConfig, t: nat)
    requires HeadDue(l.grant, t).Some?
  {
    var g := HeadDue(l.grant, t).value;
    var p := Heard(l.ue, HeadDue(l.phich, t));
    var (q, action) := UeHarq.Grant(p, g, cfg, false);
    var k := Receptions(l.rx) + 1;
    && UeHarq.ClassedNew(p, g, false) == action.isNewTx == !action.isRetx == !MeantAsRetx(g) == (k == 1)
    && p.State() == (if MeantAsRetx(g) then RetxPending else Inactive)
    && q.State() == WaitingFb
    && action.txNb == q.txNb == k <= cfg.maxHarqTx && action.tbs == g.tbs
    && action.rv == [0, 2, 3, 1][(k - 1) % 4]
  }

  lemma GrantIsUnderstood(l: Lane, cfg: UeHarq.HarqConfig, t: nat)
    requires LaneInv(l, cfg, t) && HeadDue(l.grant, t).Some?
    ensures GrantAgreed(l, cfg, t)
  {
    assert GrantedLane(l, cfg);
    GrantReachesUe(l, cfg, t);
  }

  /** The receiver agrees with both on the PDU due in TTI t: it classes it as the scheduler meant it, counts as the
      UE does, and gives up exactly the TBs that the UE will give up on this feedback. */
  predicate PduAgreed(l: Lane, cfg: UeHarq.HarqConfig, snr: int, t: nat)
    requires HeadDue(l.pdu, t).Some?
  {
    var g := HeadDue(l.pdu, t).value;
    var res := EnbHarq.Receive(l.rx, g, snr, cfg.maxHarqTx).1;
    var (p, action) := UeHarq.Feedback(l.ue, res.crcOk);
    && res.isNewTb == EnbHarq.ClassedNew(l.rx, g) == !MeantAsRetx(g)
    && res.txCount == l.ue.txNb && res.tbs == l.ue.tbs == g.tbs && res.mcs == g.mcs
    && action.isDiscarded == res.discarded == (!res.crcOk && l.ue.txNb == cfg.maxHarqTx)
    && (res.discarded ==> action.tbs == g.tbs)
    && p.State() == (if res.crcOk || res.discarded then Inactive else RetxPending)
  }

  lemma PduIsUnderstood(l: Lane, cfg: UeHarq.HarqConfig, snr: int, t: nat)
    requires LaneInv(l, cfg, t) && HeadDue(l.pdu, t).Some?
    ensures PduAgreed(l, cfg, snr, t)
  {
    assert SentLane(l, cfg);
    TbReceived(l, cfg, snr);
  }
}
