/** One UE-side uplink HARQ process (ue_ul_harq_manager.cpp). */
module UeHarq {
  import opened CommonTypes

  datatype TxAction = TxAction(isNewTx: bool, isRetx: bool, rv: nat, tbs: nat, txNb: nat, isDiscarded: bool,
                               isMsg3: bool)

  const NO_ACTION := TxAction(false, false, 0, 0, 0, false, false)

  datatype HarqConfig = HarqConfig(maxHarqTx: nat, maxHarqMsg3Tx: nat)

  /** The process record. `ackReceived` is harq_feedback_, `rv` is -1 when the IRV counter decides. */
  datatype UeProc = UeProc(
    txNb: nat, irv: nat, ackReceived: bool, configured: bool, feedbackReceived: bool, ndi: bool, tbs: nat, rv: int,
    config: HarqConfig, tempRnti: bool, consecutiveNack: nat, earlyTermination: bool)
  {
    function State(): HarqState {
      if !configured then Inactive
      else if ackReceived then Inactive
      else if feedbackReceived then RetxPending
      else WaitingFb
    }
  }

  const IDLE_PROC := UeProc(0, 0, false, false, false, false, 0, -1, HarqConfig(4, 4), false, 0, false)

  // ---- What each operation does to the record ----

  function Reset(p: UeProc): UeProc {
    p.(txNb := 0, irv := 0, configured := false, ackReceived := false, feedbackReceived := false,
       tbs := 0, rv := -1, ndi := false, consecutiveNack := 0)
  }

  /** A NACK gives the TB up at the transmission limit, or early when early termination is switched on. */
  predicate GivesUp(p: UeProc, nacks: nat) {
    || p.txNb >= (if p.tempRnti then p.config.maxHarqMsg3Tx else p.config.maxHarqTx)
    || (p.earlyTermination && p.txNb >= 2 && nacks >= 3)
  }

  function Feedback(p: UeProc, ack: bool): (UeProc, TxAction) {
    var live := p.configured && !p.ackReceived;
    if ack then
      (if live then p.(consecutiveNack := 0, ackReceived := true, feedbackReceived := true) else p, NO_ACTION)
    else
      var nacked := p.(consecutiveNack := p.consecutiveNack + 1);
      if !live then (nacked, NO_ACTION)
      else if GivesUp(p, p.consecutiveNack + 1) then
        (Reset(p), NO_ACTION.(isDiscarded := true, tbs := p.tbs, isMsg3 := p.tempRnti))
      else (nacked.(feedbackReceived := true), NO_ACTION)
  }

  function Transmit(p: UeProc): (UeProc, TxAction) {
    (p.(txNb := p.txNb + 1, irv := (p.irv + 1) % 4, rv := if p.rv >= 0 then -1 else p.rv),
     NO_ACTION.(rv := if p.rv >= 0 then p.rv else RvOfIrv(p.irv), tbs := p.tbs, txNb := p.txNb + 1))
  }

  function NewTx(p: UeProc, g: UlGrant, tempRnti: bool): (UeProc, TxAction) {
    var (q, a) := Transmit(p.(ndi := g.ndi, tbs := g.tbs, rv := g.rv, ackReceived := false, feedbackReceived := false,
                              configured := true, txNb := 0, irv := 0));
    (q, a.(isNewTx := true, isMsg3 := g.isRar || tempRnti))
  }

  function Retx(p: UeProc, g: UlGrant): (UeProc, TxAction) {
    var r := if g.ndiPresent
             then p.(irv := if g.rv >= 0 then IrvOfRv(g.rv) else p.irv, tbs := g.tbs, rv := g.rv,
                     ackReceived := false, feedbackReceived := false)
             else p;
    var (q, a) := Transmit(r);
    (q, a.(isRetx := true))
  }

  predicate ClassedNew(p: UeProc, g: UlGrant, tempRnti: bool) {
    || (!tempRnti && g.ndi != p.ndi)
    || (!p.configured && !tempRnti)
    || g.isRar
  }

  function Grant(p: UeProc, g: UlGrant, config: HarqConfig, tempRnti: bool): (UeProc, TxAction) {
    var p := p.(config := config, tempRnti := tempRnti);
    if g.ndiPresent then
      if g.tbs == 0 then (p, NO_ACTION)
      else if ClassedNew(p, g, tempRnti) then NewTx(p, g, tempRnti)
      else if p.configured then Retx(p, g)
      else (p, NO_ACTION)
    else if p.configured && p.feedbackReceived && !p.ackReceived then Retx(p, g)
    else (p, NO_ACTION)
  }

  // ---- The process object ----

  class UlHarqProcess {
    var currentTxNb: nat
    var currentIrv: nat
    var harqFeedback: bool
    var isGrantConfigured: bool
    var feedbackReceived: bool
    var curNdi: bool
    var curTbs: nat
    var curRv: int
    var config: HarqConfig
    var isTempRnti: bool
    var consecutiveNack: nat
    var earlyTerminationEnabled: bool

    function Proc(): UeProc
      reads this
    {
      UeProc(currentTxNb, currentIrv, harqFeedback, isGrantConfigured, feedbackReceived, curNdi, curTbs, curRv,
             config, isTempRnti, consecutiveNack, earlyTerminationEnabled)
    }

    constructor ()
      ensures Proc() == IDLE_PROC
    {
      currentTxNb, currentIrv, harqFeedback, isGrantConfigured, feedbackReceived := 0, 0, false, false, false;
      curNdi, curTbs, curRv := false, 0, -1;
      config, isTempRnti, consecutiveNack, earlyTerminationEnabled := HarqConfig(4, 4), false, 0, false;
    }

    method ApplyPhichFeedback(ack: bool) returns (action: TxAction)
      modifies this
      ensures (Proc(), action) == Feedback(old(Proc()), ack)
    {
      action := NO_ACTION;
      if ack {
        if !isGrantConfigured || harqFeedback {
          return;
        }
        consecutiveNack := 0;
        harqFeedback := true;
        feedbackReceived := true;
        return;
      }
      consecutiveNack := consecutiveNack + 1;
      if !isGrantConfigured || harqFeedback {
        return;
      }
      if !feedbackReceived {
        harqFeedback := false;
        feedbackReceived := true;
      }
      var maxRetx := if isTempRnti then config.maxHarqMsg3Tx else config.maxHarqTx;
      var maxReached := currentTxNb >= maxRetx;
      var earlyTerm := earlyTerminationEnabled && currentTxNb >= 2 && consecutiveNack >= 3;
      if maxReached || earlyTerm {
        action := NO_ACTION.(isDiscarded := true, tbs := curTbs, isMsg3 := isTempRnti);
        ResetProcess();
      }
    }

    method ResetProcess()
      modifies this
      ensures Proc() == Reset(old(Proc()))
    {
      currentTxNb := 0;
      currentIrv := 0;
      isGrantConfigured := false;
      harqFeedback := false;
      feedbackReceived := false;
      curTbs := 0;
      curRv := -1;
      curNdi := false;
      consecutiveNack := 0;
    }

    method GetState() returns (state: HarqState)
      ensures state == Proc().State()
    {
      if !isGrantConfigured { return Inactive; }
      if harqFeedback { return Inactive; }
      if feedbackReceived { return RetxPending; }
      state := WaitingFb;
    }

    method NewGrantUl(g: UlGrant, harqConfig: HarqConfig, tempRnti: bool) returns (action: TxAction)
      modifies this
      ensures (Proc(), action) == Grant(old(Proc()), g, harqConfig, tempRnti)
    {
      config := harqConfig;
      isTempRnti := tempRnti;
      action := NO_ACTION;
      if g.ndiPresent {
        if g.tbs == 0 {
          return;
        }
        var isNewTx := (!tempRnti && g.ndi != curNdi) || (!isGrantConfigured && !tempRnti) || g.isRar;
        if isNewTx {
          action := GenerateNewTx(g, tempRnti);
        } else if isGrantConfigured {
          action := GenerateRetx(g);
        }
      } else if isGrantConfigured {
        if feedbackReceived && !harqFeedback {
          action := GenerateRetx(g);
        }
      }
    }

    method GenerateNewTx(g: UlGrant, tempRnti: bool) returns (action: TxAction)
      modifies this
      ensures (Proc(), action) == NewTx(old(Proc()), g, tempRnti)
    {
      curNdi := g.ndi;
      curTbs := g.tbs;
      curRv := g.rv;
      harqFeedback := false;
      feedbackReceived := false;
      isGrantConfigured := true;
      currentTxNb := 0;
      currentIrv := 0;
      action := GenerateTx();
      action := action.(isNewTx := true, isMsg3 := g.isRar || tempRnti);
    }

    method GenerateRetx(g: UlGrant) returns (action: TxAction)
      modifies this
      ensures (Proc(), action) == Retx(old(Proc()), g)
    {
      if g.ndiPresent {
        if g.rv >= 0 {
          currentIrv := IrvOfRv(g.rv);
        }
        curTbs := g.tbs;
        curRv := g.rv;
        harqFeedback := false;
        feedbackReceived := false;
      }
      action := GenerateTx();
      action := action.(isRetx := true);
    }

    method GenerateTx() returns (action: TxAction)
      modifies this
      ensures (Proc(), action) == Transmit(old(Proc()))
    {
      currentTxNb := currentTxNb + 1;
      action := NO_ACTION.(txNb := currentTxNb);
      if curRv >= 0 {
        action := action.(rv := curRv);
        curRv := -1;
      } else {
        action := action.(rv := RvOfIrv(currentIrv));
      }
      action := action.(tbs := curTbs);
      currentIrv := (currentIrv + 1) % 4;
    }
  }

  // ---- Redundancy versions and giving up ----

  /** The redundancy version after rv in the order 0, 2, 3, 1. */
  function NextRv(rv: nat): nat {
    if rv == 0 then 2 else if rv == 2 then 3 else if rv == 3 then 1 else 0
  }

  /** A retransmission grant that names a redundancy version gets this one, and the next that names none goes on from
      it in the order 0, 2, 3, 1. */
  lemma ExplicitRvContinues(p: UeProc, g: UlGrant, h: UlGrant, config: HarqConfig)
    requires p.configured && g.ndiPresent && h.ndiPresent && g.tbs > 0 && h.tbs > 0 && !g.isRar && !h.isRar
    requires g.ndi == p.ndi == h.ndi && 0 <= g.rv < 4 && h.rv == -1
    ensures var (q, first) := Grant(p, g, config, false);
            var second := Grant(q, h, config, false).1;
            first.isRetx && first.rv == g.rv && second.isRetx && second.rv == NextRv(g.rv)
  {
  }

  /** A new TB is sent with redundancy version 0, and each retransmission that names none with the one after the
      last. */
  lemma RvCycle(p: UeProc, g: UlGrant, h: UlGrant, config: HarqConfig)
    requires g.ndiPresent && h.ndiPresent && g.tbs > 0 && h.tbs > 0 && !g.isRar && !h.isRar && g.rv == 0 && h.rv == -1
    requires (!p.configured || g.ndi != p.ndi) && h.ndi == g.ndi
    ensures var (p1, a1) := Grant(p, g, config, false);
            var (p2, a2) := Grant(p1, h, config, false);
            var (p3, a3) := Grant(p2, h, config, false);
            var (p4, a4) := Grant(p3, h, config, false);
            var a5 := Grant(p4, h, config, false).1;
            && a1.isNewTx && a2.isRetx && a3.isRetx && a4.isRetx && a5.isRetx
            && a1.rv == 0 && a2.rv == 2 && a3.rv == 3 && a4.rv == 1 && a5.rv == 0 && a5.txNb == 5
  {
  }

  /** The transmission after which a TB that is always refused is given up: at the configured limit, Msg3 having its
      own, or, with early termination, from the second transmission on once three refusals in a row have come. */
  function GivenUpAfter(p: UeProc): nat {
    var limit := Max(p.txNb, if p.tempRnti then p.config.maxHarqMsg3Tx else p.config.maxHarqTx);
    if p.earlyTermination then Min(limit, Max(2, p.txNb + Max(0, 2 - p.consecutiveNack))) else limit
  }

  /** The TB in process p, refused and retransmitted until the UE gives it up: how often it was sent in all, and the
      final answer. */
  function Refused(p: UeProc, g: UlGrant): (nat, TxAction)
    requires p.configured && !p.ackReceived && g.ndiPresent && g.tbs > 0 && g.ndi == p.ndi && !g.isRar
    decreases Max(0, (if p.tempRnti then p.config.maxHarqMsg3Tx else p.config.maxHarqTx) - p.txNb)
  {
    var (q, a) := Feedback(p, false);
    if a.isDiscarded then (p.txNb, a) else Refused(Grant(q, g, p.config, p.tempRnti).0, g)
  }

  /** A TB that is never decoded is sent exactly so often, and its bytes are handed back with the discard. */
  lemma {:induction false} RefusedUntilGivenUp(p: UeProc, g: UlGrant)
    requires p.configured && !p.ackReceived && g.ndiPresent && g.tbs > 0 && g.ndi == p.ndi && !g.isRar && p.tbs == g.tbs
    requires p.txNb >= 1
    ensures Refused(p, g) == (GivenUpAfter(p), NO_ACTION.(isDiscarded := true, tbs := g.tbs, isMsg3 := p.tempRnti))
    decreases Max(0, (if p.tempRnti then p.config.maxHarqMsg3Tx else p.config.maxHarqTx) - p.txNb)
  {
    var (q, a) := Feedback(p, false);
    if !a.isDiscarded { RefusedUntilGivenUp(Grant(q, g, p.config, p.tempRnti).0, g); }
  }
}
