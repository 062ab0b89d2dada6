/** The eNB's uplink HARQ receiver: soft combining, CRC model and PHICH decision (enb_ul_harq_manager.cpp). */
module EnbHarq {
  import opened CommonTypes

  datatype RxProc = RxProc(state: HarqState, ndiKnown: bool, ndi: bool, txCount: nat, combined: nat, mcs: nat, tbs: nat,
                           lastCrcOk: bool, lastTti: nat)

  const IDLE_RX := RxProc(Inactive, false, false, 0, 0, 0, 0, false, 0)

  datatype RxResult = RxResult(crcOk: bool, isNewTb: bool, txCount: nat, softCombined: bool, discarded: bool,
                               mcs: nat, tbs: nat, effSnrX100: int)

  const NO_RESULT := RxResult(false, false, 0, false, false, 0, 0, 0)

  datatype Stats = Stats(rx: nat, newTb: nat, ack: nat, nack: nat, discard: nat, softCombine: nat)

  datatype RxUe = RxUe(ulSnrX100: int, procs: seq<RxProc>, stats: Stats)

  type RxEntity = u: RxUe | |u.procs| == MAX_HARQ_PROCESSES
    witness RxUe(200, seq(MAX_HARQ_PROCESSES, _ => IDLE_RX), Stats(0, 0, 0, 0, 0, 0))

  const NEW_ENTITY: RxEntity := RxUe(200, seq(MAX_HARQ_PROCESSES, _ => IDLE_RX), Stats(0, 0, 0, 0, 0, 0))

  function DecodeThreshold(mcs: nat): int {
    SNR_MCS_THRESHOLD[if mcs > 28 then 28 else mcs] + DECODE_MARGIN_X100
  }

  function EffectiveSnr(ulSnr: int, combined: int): int {
    ulSnr + (combined - 1) * IR_GAIN_X100
  }

  // ---- What one reception does to the process record ----

  predicate ClassedNew(p: RxProc, g: UlGrant) {
    if g.ndiPresent then !p.ndiKnown || g.ndi != p.ndi else p.state == Inactive
  }

  /** The record after classifying the TB and before decoding. */
  function Combined(p: RxProc, g: UlGrant): RxProc {
    if ClassedNew(p, g)
    then p.(ndiKnown := true, ndi := g.ndi, mcs := g.mcs, tbs := g.tbs, txCount := 1, combined := 1)
    else p.(txCount := p.txCount + 1, combined := p.combined + 1)
  }

  function Released(p: RxProc): RxProc {
    p.(state := Inactive, ndiKnown := false, txCount := 0, combined := 0, mcs := 0, tbs := 0)
  }

  predicate Decodes(p: RxProc, snr: int) {
    EffectiveSnr(snr, p.combined) >= DecodeThreshold(p.mcs)
  }

  function Receive(p: RxProc, g: UlGrant, snr: int, maxTx: nat): (RxProc, RxResult) {
    var c := Combined(p, g).(lastCrcOk := Decodes(Combined(p, g), snr), lastTti := g.ttiTx);
    var discarded := !Decodes(c, snr) && c.txCount >= maxTx;
    (if Decodes(c, snr) || discarded then Released(c) else c.(state := RetxPending),
     RxResult(Decodes(c, snr), ClassedNew(p, g), c.txCount, !ClassedNew(p, g), discarded, c.mcs, c.tbs,
              EffectiveSnr(snr, c.combined)))
  }

  function Counted(s: Stats, r: RxResult): Stats {
    Stats(s.rx + 1,
          s.newTb + (if r.isNewTb then 1 else 0),
          s.ack + (if r.crcOk then 1 else 0),
          s.nack + (if r.crcOk then 0 else 1),
          s.discard + (if r.discarded then 1 else 0),
          s.softCombine + (if r.isNewTb then 0 else 1))
  }

  /** One reception at the entity of one UE; an out-of-range process identifier changes nothing. */
  function ReceiveAt(u: RxEntity, g: UlGrant, maxTx: nat): (RxEntity, RxResult) {
    if g.pid >= MAX_HARQ_PROCESSES then (u, NO_RESULT)
    else
      var (p, r) := Receive(u.procs[g.pid], g, u.ulSnrX100, maxTx);
      (u.(procs := u.procs[g.pid := p], stats := Counted(u.stats, r)), r)
  }

  class EnbUlHarqManager {
    var maxHarqTx: nat
    var ueDb: map<Rnti, RxEntity>
    var totalStats: Stats

    constructor (maxHarqTx: nat)
      ensures this.maxHarqTx == maxHarqTx && ueDb == map[] && totalStats == Stats(0, 0, 0, 0, 0, 0)
    {
      this.maxHarqTx, ueDb, totalStats := maxHarqTx, map[], Stats(0, 0, 0, 0, 0, 0);
    }

    method AddUe(rnti: Rnti)
      modifies this`ueDb
      ensures ueDb == if rnti in old(ueDb) then old(ueDb) else old(ueDb)[rnti := NEW_ENTITY]
    {
      if rnti !in ueDb {
        ueDb := ueDb[rnti := NEW_ENTITY];
      }
    }

    method SetUlSnr(rnti: Rnti, snrX100: int)
      modifies this`ueDb
      ensures ueDb == if rnti in old(ueDb) then old(ueDb)[rnti := old(ueDb)[rnti].(ulSnrX100 := snrX100)] else old(ueDb)
    {
      if rnti in ueDb {
        ueDb := ueDb[rnti := ueDb[rnti].(ulSnrX100 := snrX100)];
      }
    }

    method ReceiveTb(rnti: Rnti, g: UlGrant) returns (res: RxResult)
      modifies this`ueDb, this`totalStats
      ensures rnti !in old(ueDb) ==> res == NO_RESULT && ueDb == old(ueDb)
      ensures rnti in old(ueDb) ==>
                var (u, r) := ReceiveAt(old(ueDb)[rnti], g, maxHarqTx); res == r && ueDb == old(ueDb)[rnti := u]
      ensures totalStats == if rnti in old(ueDb) && g.pid < MAX_HARQ_PROCESSES then Counted(old(totalStats), res)
                            else old(totalStats)
    {
      res := NO_RESULT;
      if rnti !in ueDb || g.pid >= MAX_HARQ_PROCESSES {
        return;
      }
      var ue := ueDb[rnti];
      var p := ue.procs[g.pid];
      var stats, total := ue.stats, totalStats;

      // New TB or retransmission: an NDI that is unknown or toggled means a new TB.
      var isNewTb := false;
      if g.ndiPresent {
        if !p.ndiKnown || g.ndi != p.ndi {
          isNewTb := true;
        }
      } else {
        isNewTb := p.state == Inactive;
      }
      if isNewTb {
        p := p.(ndiKnown := true, ndi := g.ndi, mcs := g.mcs, tbs := g.tbs, txCount := 1, combined := 1);
        stats := stats.(newTb := stats.newTb + 1);
        total := total.(newTb := total.newTb + 1);
      } else {
        p := p.(txCount := p.txCount + 1, combined := p.combined + 1);
        res := res.(softCombined := true);
        stats := stats.(softCombine := stats.softCombine + 1);
        total := total.(softCombine := total.softCombine + 1);
      }

      // Soft combining and the CRC model.
      var eff := EffectiveSnr(ue.ulSnrX100, p.combined);
      var crcOk := eff >= DecodeThreshold(p.mcs);
      res := res.(crcOk := crcOk, isNewTb := isNewTb, txCount := p.txCount, mcs := p.mcs, tbs := p.tbs,
                  effSnrX100 := eff);
      p := p.(lastCrcOk := crcOk, lastTti := g.ttiTx);
      stats := stats.(rx := stats.rx + 1);
      total := total.(rx := total.rx + 1);

      // State transition and PHICH decision.
      if crcOk {
        stats := stats.(ack := stats.ack + 1);
        total := total.(ack := total.ack + 1);
        p := Released(p);
      } else {
        stats := stats.(nack := stats.nack + 1);
        total := total.(nack := total.nack + 1);
        if p.txCount >= maxHarqTx {
          res := res.(discarded := true);
          stats := stats.(discard := stats.discard + 1);
          total := total.(discard := total.discard + 1);
          p := Released(p);
        } else {
          p := p.(state := RetxPending);
        }
      }
      ueDb := ueDb[rnti := ue.(procs := ue.procs[g.pid := p], stats := stats)];
      totalStats := total;
    }

    method HasRetxPending(rnti: Rnti) returns (pending: bool)
      ensures pending <==>
              rnti in ueDb && exists i :: 0 <= i < MAX_HARQ_PROCESSES && ueDb[rnti].procs[i].state == RetxPending
    {
      if rnti !in ueDb {
        return false;
      }
      for i := 0 to MAX_HARQ_PROCESSES
        invariant forall j :: 0 <= j < i ==> ueDb[rnti].procs[j].state != RetxPending
      {
        if ueDb[rnti].procs[i].state == RetxPending {
          return true;
        }
      }
      pending := false;
    }
  }

  // ---- Soft combining in closed form ----

  /** Receptions needed to decode at a fixed SNR: the least k >= 1 with snr + 200(k-1) >= threshold. */
  function Needed(snr: int, threshold: int): (k: nat)
    ensures k >= 1
    ensures forall j: int :: j >= 1 ==> (EffectiveSnr(snr, j) >= threshold <==> j >= k)
  {
    if snr >= threshold then 1 else 1 + (threshold - snr + IR_GAIN_X100 - 1) / IR_GAIN_X100
  }

  /** The receptions of one TB at a fixed SNR, from its first transmission until it is decoded or discarded: how many,
      and whether the last one was decoded. */
  function Attempts(p: RxProc, g: UlGrant, snr: int, maxTx: nat): (nat, bool)
    requires g.ndiPresent
    decreases if ClassedNew(p, g) then maxTx + 1 else Max(0, maxTx - p.txCount)
  {
    var (q, r) := Receive(p, g, snr, maxTx);
    if r.crcOk || r.discarded then (1, r.crcOk)
    else
      var (n, ack) := Attempts(q, g, snr, maxTx);
      (n + 1, ack)
  }

  lemma {:induction false} RetxAttempts(p: RxProc, g: UlGrant, snr: int, maxTx: nat)
    requires g.ndiPresent && p.ndiKnown && p.ndi == g.ndi && p.mcs == g.mcs
    requires p.txCount == p.combined >= 1
    requires p.txCount < Min(Needed(snr, DecodeThreshold(g.mcs)), maxTx)
    ensures var k := Needed(snr, DecodeThreshold(g.mcs));
            Attempts(p, g, snr, maxTx) == (Min(k, maxTx) - p.txCount, k <= maxTx)
    decreases maxTx - p.txCount
  {
    var (q, r) := Receive(p, g, snr, maxTx);
    if !r.crcOk && !r.discarded {
      RetxAttempts(q, g, snr, maxTx);
    }
  }

  /** At a fixed SNR a TB is received exactly min(k*, max) times, and ends acknowledged exactly when k* <= max. */
  lemma SoftCombiningClosedForm(p: RxProc, g: UlGrant, snr: int, maxTx: nat)
    requires g.ndiPresent && !p.ndiKnown && maxTx >= 1
    ensures var k := Needed(snr, DecodeThreshold(g.mcs));
            Attempts(p, g, snr, maxTx) == (Min(k, maxTx), k <= maxTx)
  {
    var (q, r) := Receive(p, g, snr, maxTx);
    if !r.crcOk && !r.discarded {
      RetxAttempts(q, g, snr, maxTx);
    }
  }

  /** When a TB decodes, in numbers (x100 dB): every reception after the first adds 2 dB, and the TB needs its MCS's
      threshold, capped at MCS 28, and 1 dB more. */
  lemma DecodesExactly(p: RxProc, g: UlGrant, snr: int, maxTx: nat)
    ensures var (c, r) := (Combined(p, g), Receive(p, g, snr, maxTx).1);
            && (r.crcOk <==>
                snr + 200 * (c.combined - 1) >= SNR_MCS_THRESHOLD[if c.mcs > 28 then 28 else c.mcs] + 100)
            && (r.discarded <==> !r.crcOk && c.txCount >= maxTx)
            && (r.isNewTb ==> c.combined == c.txCount == 1 && c.mcs == g.mcs && c.tbs == g.tbs)
            && (!r.isNewTb ==> c.combined == p.combined + 1 && c.txCount == p.txCount + 1 && c.mcs == p.mcs)
  {
  }
}
