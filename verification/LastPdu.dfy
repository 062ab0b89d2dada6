/** What a retransmission carries. The UE keeps one last packed PDU for all its processes (ue_context.h), so a
    retransmission repeats the PDU of its own TB only if no other new transmission has replaced it. */
module LastPdu {
  import opened CommonTypes
  import opened LcgBuffer
  import UeHarq
  import UeBsr
  import SrManager
  import opened ClosedLoop

  /** What may happen at the UE between a TB's first transmission and its retransmission. */
  datatype UeEvent = Hears(m: PhichMsg) | Listens(rnti: Rnti,
                                                  t: nat) | Checks(g: UlGrant) | RunsTti(t: nat) | Answers(g: UlGrant)
                   | Finishes

  ghost function After(x: Setup, u: Ue, e: UeEvent): Ue
    requires SetupOk(x)
  {
    match e
    case Hears(m) => HearFeedback(u, m)
    case Listens(rnti, t) => Listen(x, rnti, u, t)
    case Checks(g) => u.(hasGrant := g.tbs > 0)
    case RunsTti(t) => RunTtiUe(x, u, t).0
    case Answers(g) => AnswerGrant(x, u, g).0
    case Finishes => u.(hasGrant := false)
  }

  ghost function AfterAll(x: Setup, u: Ue, es: seq<UeEvent>): Ue
    requires SetupOk(x)
    decreases |es|
  {
    if es == [] then u else After(x, AfterAll(x, u, es[..|es| - 1]), es[|es| - 1])
  }

  /** The grant starts a new TB at the UE. */
  predicate StartsTb(x: Setup, u: Ue, g: UlGrant) {
    g.pid < MAX_HARQ_PROCESSES && UeHarq.Grant(u.procs[g.pid], g, x.harq, false).1.isNewTx
  }

  /** The PDU of the last new TB that was started in es, on any process. */
  ghost function LastStarted(x: Setup, u: Ue, es: seq<UeEvent>): Option<seq<Byte>>
    requires SetupOk(x)
    decreases |es|
  {
    if es == [] then None
    else
      var (front, last) := (es[..|es| - 1], es[|es| - 1]);
      if last.Answers? && StartsTb(x, AfterAll(x, u, front), last.g)
          then Some(AnswerGrant(x, AfterAll(x, u, front), last.g).1)
      else LastStarted(x, u, front)
  }

  lemma OtherGrantsRepeat(x: Setup, u: Ue, g: UlGrant)
    requires SetupOk(x)
    ensures AnswerGrant(x, u, g).0.lastPdu == AnswerGrant(x, u, g).1
    ensures !StartsTb(x, u, g) ==> AnswerGrant(x, u, g).1 == u.lastPdu
  {
  }

  lemma {:induction false} KeepsLastStarted(x: Setup, u: Ue, es: seq<UeEvent>)
    requires SetupOk(x)
    ensures AfterAll(x, u, es).lastPdu == if LastStarted(x, u, es).Some? then LastStarted(x, u, es).value else u.lastPdu
    decreases |es|
  {
    if es != [] {
      var (front, last) := (es[..|es| - 1], es[|es| - 1]);
      KeepsLastStarted(x, u, front);
      if last.Answers? { OtherGrantsRepeat(x, AfterAll(x, u, front), last.g); }
    }
  }

  /** A TB's retransmission carries the PDU of its first transmission if and only if no new TB was started in
      between, on any process, or the last one that was happened to be packed into the same bytes. */
  lemma RetransmissionCarries(x: Setup, u: Ue, first: UlGrant, es: seq<UeEvent>, again: UlGrant)
    requires SetupOk(x) && StartsTb(x, u, first)
    requires !StartsTb(x, AfterAll(x, AnswerGrant(x, u, first).0, es), again)
    ensures var (sent, last) := (AnswerGrant(x, u, first).1, LastStarted(x, AnswerGrant(x, u, first).0, es));
            AnswerGrant(x, AfterAll(x, AnswerGrant(x, u, first).0, es), again).1 == sent <==>
            last.None? || last.value == sent
  {
    var u1 := AnswerGrant(x, u, first).0;
    KeepsLastStarted(x, u1, es);
    OtherGrantsRepeat(x, u, first);
    OtherGrantsRepeat(x, AfterAll(x, u1, es), again);
  }

  // ---- A retransmission that carries another TB's PDU ----

  lemma {:induction false} BufferedIsBounded(chs: seq<Channel>)
    ensures Total(chs) <= UeBsr.UpperBound(chs)
    decreases |chs|
  {
    if chs != [] { BufferedIsBounded(chs[..|chs| - 1]); }
  }

  function TwoByteGrant(pid: nat, rv: int): UlGrant {
    UlGrant(1, pid, 2, 1, 0, 0, rv, true, true, false, 0)
  }

  /** A UE with 100 bytes on one channel and a Regular BSR triggered. */
  ghost function Reporting(): (u: Ue)
    ensures Total(u.channels) == 100 == UeBsr.UpperBound(u.channels)
  {
    var chs := [Channel(0, 1, 1, 0, 100, 100, 100, 0)];
    assert chs[..0] == [];
    Ue(Eight(UeHarq.IDLE_PROC), chs, UeBsr.Bsr(UeBsr.Regular, 0, 0, false, false, false), SrManager.IDLE_SR, false, [])
  }

  lemma FirstReports(x: Setup)
    requires SetupOk(x)
    ensures StartsTb(x, Reporting(), TwoByteGrant(0, 0))
    ensures var (v, pdu) := AnswerGrant(x, Reporting(), TwoByteGrant(0, 0));
            && |pdu| == 2 && v.bsr.trigger == UeBsr.NoTrigger && Total(v.channels) == 98
            && v.procs[1] == UeHarq.IDLE_PROC
              && v.procs[0] == UeHarq.Grant(UeHarq.IDLE_PROC, TwoByteGrant(0, 0), x.harq, false).0
  {
  }

  lemma SecondDoesNot(x: Setup, u: Ue)
    requires SetupOk(x) && u.bsr.trigger == UeBsr.NoTrigger && Total(u.channels) == 98 && u.procs[1] == UeHarq.IDLE_PROC
    ensures StartsTb(x, u, TwoByteGrant(1, 0)) && AnswerGrant(x, u, TwoByteGrant(1, 0)).1 == []
    ensures AnswerGrant(x, u, TwoByteGrant(1, 0)).0.procs[0] == u.procs[0]
  {
    BufferedIsBounded(u.channels);
  }

  lemma AfterTwo(x: Setup, u: Ue, e0: UeEvent, e1: UeEvent)
    requires SetupOk(x)
    ensures AfterAll(x, u, [e0, e1]) == After(x, After(x, u, e0), e1)
  {
    assert [e0, e1][..1] == [e0] && [e0][..0] == [];
    assert AfterAll(x, u, [e0]) == After(x, AfterAll(x, u, []), e0);
  }

  lemma RefusedIsNotNew(x: Setup, u: Ue)
    requires SetupOk(x) && x.harq.maxHarqTx >= 2
    requires u.procs[0] == UeHarq.Grant(UeHarq.IDLE_PROC, TwoByteGrant(0, 0), x.harq, false).0
    ensures var v := HearFeedback(u, PhichMsg(1, 0, false));
        v.lastPdu == u.lastPdu && !StartsTb(x, v, TwoByteGrant(0, -1))
  {
  }

  /** With two processes in flight a retransmission can carry the other TB's PDU: process 0 sends a BSR, process 1
      then starts a TB without one, process 0 is refused, and its retransmission carries nothing. */
  lemma AnotherTbsPdu(x: Setup) returns (u: Ue, es: seq<UeEvent>)
    requires SetupOk(x) && x.harq.maxHarqTx >= 2
    ensures StartsTb(x, u, TwoByteGrant(0, 0)) && AnswerGrant(x, u, TwoByteGrant(0, 0)).1 != []
    ensures var v := AfterAll(x, AnswerGrant(x, u, TwoByteGrant(0, 0)).0, es);
            !StartsTb(x, v, TwoByteGrant(0, -1)) && AnswerGrant(x, v, TwoByteGrant(0, -1)).1 == []
  {
    u := Reporting();
    es := [Answers(TwoByteGrant(1, 0)), Hears(PhichMsg(1, 0, false))];
    FirstReports(x);
    var u1 := AnswerGrant(x, u, TwoByteGrant(0, 0)).0;
    SecondDoesNot(x, u1);
    var u2 := AnswerGrant(x, u1, TwoByteGrant(1, 0)).0;
    AfterTwo(x, u1, es[0], es[1]);
    OtherGrantsRepeat(x, u1, TwoByteGrant(1, 0));
    RefusedIsNotNew(x, u2);
    OtherGrantsRepeat(x, HearFeedback(u2, PhichMsg(1, 0, false)), TwoByteGrant(0, -1));
  }
}
