/** The imperative uplink scheduler (ul_scheduler). Every method is tied to the functions of module Scheduler. The
    floating point PF and EPF metrics enter as the order in which they rank the UEs, and the EPF constants as their
    integer values. */
module UlSchedulers {
  import opened CommonTypes
  import opened Scheduler
  import opened SchedulerSafety

  datatype Algorithm = RoundRobin | ProportionalFair | Epf

  function Inserted(rntis: seq<Rnti>, rnti: Rnti): seq<Rnti> {
    if rntis == [] || rnti < rntis[0] then [rnti] + rntis
    else [rntis[0]] + Inserted(rntis[1..], rnti)
  }

  lemma {:induction false} InsertedKeepsOrder(rntis: seq<Rnti>, rnti: Rnti)
    requires StrictlyAscending(rntis) && rnti !in rntis
    ensures StrictlyAscending(Inserted(rntis, rnti))
    ensures forall r :: r in Inserted(rntis, rnti) <==> r == rnti || r in rntis
  {
    if rntis != [] && rnti >= rntis[0] {
      assert rntis == [rntis[0]] + rntis[1..];
      InsertedKeepsOrder(rntis[1..], rnti);
      var rest := Inserted(rntis[1..], rnti);
      forall i | 0 <= i < |rest| ensures rntis[0] < rest[i] {
        assert rest[i] in rest;
      }
    }
  }

  function NextOffset(offset: nat): (next: nat)
    ensures next < OFFSET_SPAN
  {
    (offset + 1) % OFFSET_SPAN
  }

  lemma DeductOne(done: seq<nat>, rest: seq<nat>, bytes: nat)
    requires rest != []
    ensures var taken := Min(bytes, rest[0]);
            done + Deducted(rest, bytes) == done + [rest[0] - taken] + Deducted(rest[1..], bytes - taken)
  {
  }

  predicate Safe(db: map<Rnti, UeCtx>, s: Sched, tti: nat) {
    Sound(db, s, tti) && AllClosed(s.db)
  }

  lemma PfIsSafe(db: map<Rnti, UeCtx>, totalPrb: nat, rntis: seq<Rnti>, order: seq<Rnti>, tti: nat, s: Sched)
    requires AllClosed(db) && AllKnown(rntis, db.Keys) && AllKnown(order, db.Keys) && Distinct(rntis) && Distinct(order)
    requires s == RunPf(db, totalPrb, rntis, order, tti)
    ensures Safe(db, s, tti)
  {
    PfIsSound(db, totalPrb, rntis, order, tti);
    SoundCloses(db, s, tti);
  }

  lemma RrIsSafe(db: map<Rnti, UeCtx>, totalPrb: nat, rntis: seq<Rnti>, offset: nat, tti: nat, s: Sched)
    requires AllClosed(db) && AllKnown(rntis, db.Keys) && Distinct(rntis)
    requires s == RunRr(db, totalPrb, rntis, offset, tti)
    ensures Safe(db, s, tti)
  {
    RrIsSound(db, totalPrb, rntis, offset, tti);
    SoundCloses(db, s, tti);
  }

  lemma EpfIsSafe(db: map<Rnti, UeCtx>, totalPrb: nat, rntis: seq<Rnti>, order: seq<Rnti>, tti: nat,
                  starveTti: nat, minPrb: nat, s: Sched)
    requires AllClosed(db) && AllKnown(rntis, db.Keys) && AllKnown(order, db.Keys) && Distinct(rntis) && Distinct(order)
    requires s == RunEpf(db, totalPrb, rntis, order, tti, starveTti, minPrb)
    ensures Safe(db, s, tti)
  {
    EpfIsSound(db, totalPrb, rntis, order, tti, starveTti, minPrb);
    SoundCloses(db, s, tti);
  }

  lemma GuardStep(c: UeCtx, pid: nat)
    requires pid < MAX_HARQ_PROCESSES
    ensures var d := Guarded(c, pid);
            && d.pendingRetx[pid] == c.pendingRetx[pid]
            && Guarded(c, pid + 1) ==
               if c.pendingRetx[pid] && !c.tb[pid].valid
               then d.(pendingRetx := d.pendingRetx[pid := false], busy := d.busy[pid := false])
               else d
  {
    var (d, e) := (Guarded(c, pid), Guarded(c, pid + 1));
    if c.pendingRetx[pid] && !c.tb[pid].valid {
      assert e.pendingRetx == d.pendingRetx[pid := false] && e.busy == d.busy[pid := false];
    } else {
      assert e.pendingRetx == d.pendingRetx && e.busy == d.busy;
    }
  }

  lemma OneChanged(db: map<Rnti, UeCtx>, rnti: Rnti, c: UeCtx)
    requires rnti in db
    ensures db[rnti := c].Keys == db.Keys && (forall r :: r in db[rnti := c] <==> r in db)
    ensures c == db[rnti] ==> db[rnti := c] == db
  {
  }

  /** The retransmission phase from position i of the list on. */
  ghost function RetxFrom(s: Sched, rntis: seq<Rnti>, i: nat, tti: nat): Sched
    requires AllKnown(rntis, s.db.Keys) && i <= |rntis|
    decreases |rntis| - i
  {
    if i == |rntis| then s else RetxFrom(RetxUe(s, rntis[i], tti), rntis, i + 1, tti)
  }

  lemma {:induction false} RetxFromIs(s: Sched, rntis: seq<Rnti>, i: nat, tti: nat)
    requires AllKnown(rntis, s.db.Keys) && i <= |rntis|
    ensures RetxFrom(s, rntis, i, tti) == RetxAll(s, rntis[i..], tti)
    decreases |rntis| - i
  {
    if i < |rntis| {
      assert rntis[i..][0] == rntis[i] && rntis[i..][1..] == rntis[i + 1..];
      RetxFromIs(RetxUe(s, rntis[i], tti), rntis, i + 1, tti);
    }
  }

  /** The retransmission phase stands at position i of the list, in state s. */
  ghost predicate RetxUnderway(start: Sched, s: Sched, rntis: seq<Rnti>, i: nat, tti: nat) {
    && AllKnown(rntis, start.db.Keys) && AllKnown(rntis, s.db.Keys) && i <= |rntis|
    && RetxFrom(start, rntis, 0, tti) == RetxFrom(s, rntis, i, tti)
  }

  lemma RetxGoesOn(start: Sched, s: Sched, s': Sched, rntis: seq<Rnti>, i: nat, tti: nat)
    requires RetxUnderway(start, s, rntis, i, tti) && i < |rntis| && s' == RetxUe(s, rntis[i], tti)
    ensures RetxUnderway(start, s', rntis, i + 1, tti)
  {
  }

  lemma RetxIsDone(start: Sched, s: Sched, rntis: seq<Rnti>, tti: nat)
    requires RetxUnderway(start, s, rntis, |rntis|, tti)
    ensures s == RetxAll(start, rntis, tti)
  {
    RetxFromIs(start, rntis, 0, tti);
    assert rntis[0..] == rntis;
  }

  class UlScheduler {
    const totalPrb: nat
    const prbBusy: array<bool>
    var rntis: seq<Rnti>
    var ueDb: map<Rnti, UeCtx>
    var rrOffset: nat

    ghost predicate Valid()
      reads this
    {
      && prbBusy.Length == totalPrb
      && StrictlyAscending(rntis)
      && (forall r :: r in rntis <==> r in ueDb)
      && rrOffset < OFFSET_SPAN
    }

    ghost function State(results: seq<SchedResult>): Sched
      reads this, prbBusy
    {
      Sched(ueDb, prbBusy[..], results)
    }

    constructor (totalPrb: nat)
      ensures Valid() && ueDb == map[] && rrOffset == 0 && this.totalPrb == totalPrb && fresh(prbBusy)
      ensures prbBusy[..] == seq(totalPrb, _ => false)
    {
      this.totalPrb := totalPrb;
      prbBusy := new bool[totalPrb](_ => false);
      rntis, ueDb, rrOffset := [], map[], 0;
    }

    method AddUe(rnti: Rnti)
      requires Valid()
      modifies this`ueDb, this`rntis
      ensures Valid()
      ensures ueDb == if rnti in old(ueDb) then old(ueDb) else old(ueDb)[rnti := NEW_UE]
    {
      if rnti !in ueDb {
        InsertedKeepsOrder(rntis, rnti);
        rntis := Inserted(rntis, rnti);
        ueDb := ueDb[rnti := NEW_UE];
      }
    }

    // ---- Indications ----

    method HandleSr(rnti: Rnti, pending: seq<nat>)
      requires Valid() && |pending| == NOF_LCGS
      modifies this`ueDb
      ensures Valid()
      ensures ueDb == if rnti in old(ueDb) then old(ueDb)[rnti := OnSr(old(ueDb)[rnti], pending)] else old(ueDb)
    {
      if rnti !in ueDb {
        return;
      }
      var c: UeCtx := ueDb[rnti].(srPending := true);
      var (buffer, updated) := (c.ulBuffer, false);
      for i := 0 to NOF_LCGS
        invariant |buffer| == NOF_LCGS
        invariant forall j :: 0 <= j < i ==> buffer[j] == Max(c.ulBuffer[j], pending[j])
        invariant forall j :: i <= j < NOF_LCGS ==> buffer[j] == c.ulBuffer[j]
        invariant updated <==> buffer != c.ulBuffer
      {
        if pending[i] > buffer[i] {
          buffer := buffer[i := pending[i]];
          updated := true;
        }
      }
      assert buffer == MaxEach(c.ulBuffer, pending);
      c := c.(ulBuffer := buffer);
      if updated {
        var total := SumOf(buffer);
        c := c.(totalUlBuffer := total);
      }
      ueDb := ueDb[rnti := c];
    }

    method SumOf(buffer: seq<nat>) returns (total: nat)
      ensures total == Sum(buffer)
    {
      total := 0;
      var i := |buffer|;
      while i > 0
        invariant 0 <= i <= |buffer|
        invariant total == Sum(buffer[i..])
      {
        i := i - 1;
        assert buffer[i..] == [buffer[i]] + buffer[i + 1..];
        total := total + buffer[i];
      }
    }

    method HandleBsr(rnti: Rnti, lcgId: nat, bsrValue: nat)
      requires Valid()
      modifies this`ueDb
      ensures Valid()
      ensures ueDb == if rnti in old(ueDb) then old(ueDb)[rnti := OnBsr(old(ueDb)[rnti], lcgId, bsrValue)]
          else old(ueDb)
    {
      if rnti !in ueDb || lcgId >= NOF_LCGS {
        return;
      }
      var c: UeCtx := ueDb[rnti];
      var buffer := c.ulBuffer[lcgId := BsrIndexToBytes(bsrValue % 256)];
      var total := SumOf(buffer);
      ueDb := ueDb[rnti := c.(ulBuffer := buffer, totalUlBuffer := total)];
    }

    method HandleCqi(rnti: Rnti, cqi: nat)
      requires Valid()
      modifies this`ueDb
      ensures Valid()
      ensures ueDb == if rnti in old(ueDb)
        && cqi <= 15 then old(ueDb)[rnti := old(ueDb)[rnti].(cqi := cqi)] else old(ueDb)
    {
      if rnti in ueDb && cqi <= 15 {
        ueDb := ueDb[rnti := ueDb[rnti].(cqi := cqi)];
      }
    }

    method HandleUlCrc(rnti: Rnti, pid: nat, crcOk: bool)
      requires Valid()
      modifies this`ueDb
      ensures Valid()
      ensures ueDb == if rnti in old(ueDb) then old(ueDb)[rnti := OnCrc(old(ueDb)[rnti], pid, crcOk)] else old(ueDb)
    {
      if rnti !in ueDb || pid >= MAX_HARQ_PROCESSES {
        return;
      }
      var c: UeCtx := ueDb[rnti];
      if !crcOk {
        c := c.(pendingRetx := c.pendingRetx[pid := true], busy := c.busy[pid := true]);
      } else {
        c := c.(pendingRetx := c.pendingRetx[pid := false], busy := c.busy[pid := false]);
        c := c.(tb := c.tb[pid := c.tb[pid].(valid := false)]);
      }
      ueDb := ueDb[rnti := c];
    }

    // ---- Link adaptation ----

    method CalculateMcs(snr: int) returns (mcs: nat)
      ensures mcs == McsFromSnr(snr)
    {
      var i := 28;
      while i >= 0
        invariant -1 <= i <= 28
        invariant i >= 0 ==> McsFromSnr(snr) == McsSearch(snr, i)
        invariant i < 0 ==> McsFromSnr(snr) == 0
      {
        if snr >= SNR_MCS_THRESHOLD[i] {
          return i;
        }
        i := i - 1;
      }
      mcs := 0;
    }

    method CalculateTbs(mcs: nat, nPrb: nat) returns (tbs: nat)
      ensures tbs == Tbs(mcs, nPrb)
    {
      var bitsPerPrb := InterpolateBits(mcs);
      tbs := bitsPerPrb * nPrb / 8;
    }

    method InterpolateBits(mcs: nat) returns (bits: nat)
      ensures bits == BitsPerPrb(mcs)
    {
      if mcs <= ANCHOR_MCS[0] {
        return ANCHOR_BITS[0];
      }
      if mcs >= ANCHOR_MCS[|ANCHOR_MCS| - 1] {
        return ANCHOR_BITS[|ANCHOR_MCS| - 1];
      }
      var lo := 0;
      while lo + 1 < |ANCHOR_MCS| && ANCHOR_MCS[lo + 1] <= mcs
        invariant lo < |ANCHOR_MCS| && ANCHOR_MCS[lo] <= mcs
        invariant AnchorBelow(mcs, 0) == AnchorBelow(mcs, lo)
      {
        lo := lo + 1;
      }
      var (m0, m1) := (ANCHOR_MCS[lo], ANCHOR_MCS[lo + 1]);
      var (e0, e1) := (ANCHOR_BITS[lo], ANCHOR_BITS[lo + 1]);
      bits := e0 + (e1 - e0) * (mcs - m0) / (m1 - m0);
    }

    method SelectMcs(c: UeCtx) returns (mcs: nat)
      ensures mcs == McsOf(c)
    {
      if c.cqi > 0 {
        return McsFromCqi(c.cqi);
      }
      mcs := CalculateMcs(c.ulSnr);
    }

    // ---- PRB pool ----

    method PrbReset()
      requires Valid()
      modifies prbBusy
      ensures prbBusy[..] == seq(totalPrb, _ => false)
    {
      forall i | 0 <= i < prbBusy.Length {
        prbBusy[i] := false;
      }
    }

    /** First fit: the least start of a free run of n PRBs, which is then marked. */
    method AllocatePrbs(n: nat) returns (start: int)
      requires Valid()
      modifies prbBusy
      ensures (start, prbBusy[..]) == PrbAlloc(old(prbBusy[..]), n)
    {
      if n == 0 || n > totalPrb {
        return -1;
      }
      ghost var prb := prbBusy[..];
      FirstFitIsLeast(prb, n, 0);
      var run := 0;
      for i := 0 to totalPrb
        invariant prbBusy[..] == prb
        invariant run <= i && run < n
        invariant forall k :: i - run <= k < i ==> !prb[k]
        invariant run < i ==> prb[i - run - 1]
        invariant forall s: nat :: s + n <= i ==> !FreeRun(prb, s, n)
      {
        if !prbBusy[i] {
          run := run + 1;
          if run >= n {
            start := i + 1 - n;
            assert FreeRun(prb, start, n);
            MarkPrbs(start, n);
            return;
          }
        } else {
          run := 0;
        }
        forall s: nat | s + n == i + 1 ensures !FreeRun(prb, s, n) {
          assert prb[i - run];
        }
      }
      start := -1;
    }

    method MarkPrbs(start: nat, n: nat)
      requires Valid() && start + n <= totalPrb
      modifies prbBusy
      ensures prbBusy[..] == Mark(old(prbBusy[..]), start, n)
    {
      for k := start to start + n
        invariant forall j :: 0 <= j < totalPrb ==> prbBusy[j] == (old(prbBusy[j]) || start <= j < k)
      {
        prbBusy[k] := true;
      }
    }

    // ---- Grants ----

    method AllocFreePid(c: UeCtx) returns (pid: int)
      ensures pid == FirstFree(c.busy, 0)
    {
      for i := 0 to MAX_HARQ_PROCESSES
        invariant FirstFree(c.busy, 0) == FirstFree(c.busy, i)
      {
        if !c.busy[i] {
          return i;
        }
      }
      pid := -1;
    }

    method TakeFromLcgs(estimates: seq<nat>, tbs: nat) returns (buffer: seq<nat>)
      ensures buffer == Deducted(estimates, tbs)
    {
      buffer := estimates;
      var bytes: nat := tbs;
      var i := 0;
      ghost var (done, rest) := ([], estimates);
      while i < |buffer| && bytes > 0
        invariant |done| == i && buffer == done + rest
        invariant done + Deducted(rest, bytes) == Deducted(estimates, tbs)
      {
        var taken := Min(bytes, buffer[i]);
        DeductOne(done, rest, bytes);
        buffer := buffer[i := buffer[i] - taken];
        done, rest := done + [buffer[i]], rest[1..];
        bytes := bytes - taken;
        i := i + 1;
      }
      if bytes == 0 { NothingTaken(rest); }
    }

    method DeductUlBuffer(c: UeCtx, tbs: nat) returns (d: UeCtx)
      ensures d == c.(ulBuffer := Deducted(c.ulBuffer, tbs), totalUlBuffer := Sum(Deducted(c.ulBuffer, tbs)))
    {
      var buffer := TakeFromLcgs(c.ulBuffer, tbs);
      var total := SumOf(buffer);
      d := c.(ulBuffer := buffer, totalUlBuffer := total);
    }

    /** The context of the UE, with the grant committed: the process is taken and the SR flag and estimates are
        updated. */
    method CommitNewGrant(ctx: UeCtx, pid: nat, tbs: nat) returns (c: UeCtx)
      requires pid < MAX_HARQ_PROCESSES
      ensures c == Committed(ctx, pid, tbs)
    {
      c := ctx.(busy := ctx.busy[pid := true], srPending := false);
      c := DeductUlBuffer(c, tbs);
    }

    method GenerateRetxGrant(c: UeCtx, rnti: Rnti, tti: nat, pid: nat) returns (g: UlGrant)
      requires Valid() && pid < MAX_HARQ_PROCESSES
      modifies prbBusy
      ensures (prbBusy[..], g) == RetxGrant(c, old(prbBusy[..]), rnti, tti, pid)
    {
      var tb := c.tb[pid];
      if !tb.valid {
        return NO_GRANT;
      }
      var start := AllocatePrbs(tb.nPrb);
      if start < 0 {
        return NO_GRANT;
      }
      g := UlGrant(rnti, pid, tb.tbs, tb.nPrb, start, tb.mcs, -1, c.ndi[pid], true, false, tti);
    }

    method PrbDemand(c: UeCtx, mcs: nat) returns (n: nat)
      requires mcs == McsOf(c)
      ensures n == PrbsFor(c)
    {
      var reqBytes := if c.totalUlBuffer == 0 then 100 else c.totalUlBuffer;
      var bytesPerPrb := CalculateTbs(mcs, 1);
      if bytesPerPrb == 0 {
        bytesPerPrb := 1;
      }
      n := (reqBytes + bytesPerPrb - 1) / bytesPerPrb;
    }

    /** A new-transmission grant of n PRBs: records the TB and toggles the NDI in the UE's context. */
    method GenerateNewGrant(ctx: UeCtx, rnti: Rnti, tti: nat, pid: nat, n: nat) returns (c: UeCtx, g: UlGrant)
      requires Valid() && pid < MAX_HARQ_PROCESSES && n <= totalPrb
      modifies prbBusy
      ensures var (start, prb) := PrbAlloc(old(prbBusy[..]), n);
              && prbBusy[..] == prb
              && (c, g) == if start < 0 then (ctx, NO_GRANT) else NewTb(ctx, rnti, tti, pid, n, start)
    {
      c := ctx;
      var mcs := SelectMcs(c);
      var start := AllocatePrbs(n);
      if start < 0 {
        return c, NO_GRANT;
      }
      var tbs := CalculateTbs(mcs, n);
      var ndi := !c.ndi[pid];
      TbsMonotone(mcs, n, mcs, n);
      c := c.(tb := c.tb[pid := TbInfo(tbs, mcs, n, true)]);
      c := c.(ndi := c.ndi[pid := ndi]);
      g := UlGrant(rnti, pid, tbs, n, start, mcs, 0, ndi, true, false, tti);
    }

    // ---- Scheduling phases ----

    method ScheduleRetxFirst(tti: nat) returns (results: seq<SchedResult>)
      requires Valid()
      modifies this`ueDb, prbBusy
      ensures Valid() && AllKnown(rntis, old(ueDb).Keys)
      ensures State(results) == RetxAll(old(State([])), rntis, tti)
    {
      results := [];
      ghost var start := State([]);
      for i := 0 to |rntis|
        invariant Valid() && RetxUnderway(start, State(results), rntis, i, tti)
      {
        ghost var s := State(results);
        results := RetxForUe(rntis[i], tti, results);
        RetxGoesOn(start, s, State(results), rntis, i, tti);
      }
      RetxIsDone(start, State(results), rntis, tti);
    }

    method RetxForUe(rnti: Rnti, tti: nat, sofar: seq<SchedResult>) returns (results: seq<SchedResult>)
      requires Valid() && rnti in ueDb
      modifies this`ueDb, prbBusy
      ensures Valid() && ueDb.Keys == old(ueDb.Keys)
      ensures State(results) == RetxUe(old(State(sofar)), rnti, tti)
    {
      results := sofar;
      var c, g := PickRetx(ueDb[rnti], rnti, tti);
      if g.tbs > 0 {
        c := c.(pendingRetx := c.pendingRetx[g.pid := false], ttiSinceSched := 0);
        results := results + [SchedResult(rnti, g, true)];
      }
      ueDb := ueDb[rnti := c];
    }

    /** A UE's pending processes in ascending order until one gets PRBs; those without a recorded TB are dropped. */
    method PickRetx(ctx: UeCtx, rnti: Rnti, tti: nat) returns (c: UeCtx, g: UlGrant)
      requires Valid()
      modifies prbBusy
      ensures var p := FirstServable(ctx, old(prbBusy[..]), 0);
              && c == Guarded(ctx, p)
              && if p == MAX_HARQ_PROCESSES then g == NO_GRANT && prbBusy[..] == old(prbBusy[..])
                 else (prbBusy[..], g) == RetxGrant(c, old(prbBusy[..]), rnti, tti, p) && g.tbs > 0 && g.pid == p
    {
      c := ctx;
      ghost var prb := prbBusy[..];
      assert Guarded(ctx, 0).pendingRetx == ctx.pendingRetx && Guarded(ctx, 0).busy == ctx.busy;
      for pid := 0 to MAX_HARQ_PROCESSES
        invariant prbBusy[..] == prb
        invariant c == Guarded(ctx, pid)
        invariant FirstServable(ctx, prb, 0) == FirstServable(ctx, prb, pid)
      {
        GuardStep(ctx, pid);
        if c.pendingRetx[pid] {
          if !c.tb[pid].valid {
            c := c.(pendingRetx := c.pendingRetx[pid := false], busy := c.busy[pid := false]);
          } else {
            g := GenerateRetxGrant(c, rnti, tti, pid);
            if g.tbs > 0 {
              return;
            }
          }
        }
      }
      g := NO_GRANT;
    }

    method IssueNewTb(rnti: Rnti, tti: nat, phase: Phase, pid: nat, granted: set<Rnti>, sofar: seq<SchedResult>)
      returns (results: seq<SchedResult>, more: set<Rnti>)
      requires Valid() && rnti in ueDb && pid < MAX_HARQ_PROCESSES
      modifies this`ueDb, prbBusy
      ensures Valid() && ueDb.Keys == old(ueDb.Keys)
      ensures (State(results), more) == Issue(old(State(sofar)), granted, rnti, tti, phase, pid)
    {
      results, more := sofar, granted;
      var c: UeCtx := ueDb[rnti];
      var n := PrbsWanted(c, phase);
      var g;
      c, g := GenerateNewGrant(c, rnti, tti, pid, n);
      if g.tbs > 0 || (phase.EpfGuard? && g.ndiPresent) {
        c := CommitNewGrant(c, pid, g.tbs);
        if IsEpf(phase) {
          c := c.(ttiSinceSched := 0);
          more := granted + {rnti};
        }
        results := results + [SchedResult(rnti, g, false)];
      }
      OneChanged(ueDb, rnti, c);
      ueDb := ueDb[rnti := c];
    }

    method PrbsWanted(c: UeCtx, phase: Phase) returns (n: nat)
      ensures n == Wanted(c, phase, totalPrb)
    {
      var mcs := SelectMcs(c);
      n := PrbDemand(c, mcs);
      if phase.EpfGuard? {
        n := Max(Min(n, phase.minPrb), 1);
      }
      n := Min(n, totalPrb);
    }

    /** One UE's turn in a new-transmission phase. */
    method ServeUe(rnti: Rnti, tti: nat, phase: Phase, granted: set<Rnti>, sofar: seq<SchedResult>)
      returns (results: seq<SchedResult>, more: set<Rnti>)
      requires Valid() && rnti in ueDb
      modifies this`ueDb, prbBusy
      ensures Valid() && ueDb.Keys == old(ueDb.Keys)
      ensures (State(results), more) == Serve(old(State(sofar)), granted, rnti, tti, phase)
    {
      results, more := sofar, granted;
      var c := ueDb[rnti];
      if rnti in granted || !Considered(c, phase) {
        return;
      }
      var pid := AllocFreePid(c);
      if pid < 0 {
        return;
      }
      results, more := IssueNewTb(rnti, tti, phase, pid, granted, sofar);
    }

    method ServeAscending(order: seq<Rnti>, tti: nat, phase: Phase, granted: set<Rnti>, sofar: seq<SchedResult>)
      returns (results: seq<SchedResult>, more: set<Rnti>)
      requires Valid() && AllKnown(order, ueDb.Keys)
      modifies this`ueDb, prbBusy
      ensures Valid() && ueDb.Keys == old(ueDb.Keys)
      ensures (State(results), more) == ServeAll(old(State(sofar)), granted, order, tti, phase)
    {
      results, more := sofar, granted;
      ghost var start := State(sofar);
      assert order[0..] == order;
      for i := 0 to |order|
        invariant Valid() && ueDb.Keys == start.db.Keys
        invariant ServeAll(start, granted, order, tti, phase) == ServeAll(State(results), more, order[i..], tti, phase)
      {
        assert order[i..][1..] == order[i + 1..] && order[i..][0] == order[i];
        results, more := ServeUe(order[i], tti, phase, more, results);
      }
    }

    /** PF: retransmissions first, then new transmissions in the order of the PF metric. */
    method SchedulePf(tti: nat, order: seq<Rnti>) returns (results: seq<SchedResult>)
      requires Valid() && AllKnown(order, ueDb.Keys) && Distinct(order)
      modifies this`ueDb, prbBusy
      ensures Valid() && AllKnown(rntis, old(ueDb).Keys)
      ensures State(results) == RunPf(old(ueDb), totalPrb, rntis, order, tti)
    {
      PrbReset();
      results := ScheduleRetxFirst(tti);
      var granted := RntisOf(results);
      results, granted := ServeAscending(order, tti, PfNew, granted, results);
    }

    /** RR: retransmissions first, then all UEs from a starting point that moves by one every TTI. */
    method ScheduleRr(tti: nat) returns (results: seq<SchedResult>)
      requires Valid()
      modifies this`ueDb, this`rrOffset, prbBusy
      ensures Valid() && AllKnown(rntis, old(ueDb).Keys)
      ensures State(results) == RunRr(old(ueDb), totalPrb, rntis, old(rrOffset), tti)
      ensures rrOffset == if rntis == [] then old(rrOffset) else NextOffset(old(rrOffset))
    {
      PrbReset();
      results := ScheduleRetxFirst(tti);
      var granted := RntisOf(results);
      var order := Rotated(rntis, rrOffset);
      results, granted := ServeAscending(order, tti, RrNew, granted, results);
      if rntis != [] {
        rrOffset := NextOffset(rrOffset);
      }
    }

    /** EPF: ageing, retransmissions, starvation guard, then new transmissions in the order of the EPF metric. */
    method ScheduleEpf(tti: nat, order: seq<Rnti>, starveTti: nat, minPrb: nat) returns (results: seq<SchedResult>)
      requires Valid() && AllKnown(order, ueDb.Keys) && Distinct(order)
      modifies this`ueDb, prbBusy
      ensures Valid() && AllKnown(rntis, old(ueDb).Keys)
      ensures State(results) == RunEpf(old(ueDb), totalPrb, rntis, order, tti, starveTti, minPrb)
    {
      PrbReset();
      ueDb := Aged(ueDb);
      results := ScheduleRetxFirst(tti);
      var granted := RntisOf(results);
      results, granted := ServeAscending(order, tti, EpfGuard(starveTti, minPrb), granted, results);
      results, granted := ServeAscending(order, tti, EpfNew, granted, results);
    }

    /** One TTI of scheduling. Under every algorithm and ranking the grants are packed, each has exactly its effect
        on the HARQ bookkeeping, and the bookkeeping stays closed. */
    method ScheduleUl(algorithm: Algorithm, tti: nat, order: seq<Rnti>, starveTti: nat, minPrb: nat)
      returns (results: seq<SchedResult>)
      requires Valid() && AllKnown(order, ueDb.Keys) && Distinct(order) && AllClosed(ueDb)
      modifies this`ueDb, this`rrOffset, prbBusy
      ensures Valid() && Safe(old(ueDb), State(results), tti)
    {
      AscendingIsDistinct(rntis);
      match algorithm
      case RoundRobin =>
        results := ScheduleRr(tti);
        RrIsSafe(old(ueDb), totalPrb, rntis, old(rrOffset), tti, State(results));
      case ProportionalFair =>
        results := SchedulePf(tti, order);
        PfIsSafe(old(ueDb), totalPrb, rntis, order, tti, State(results));
      case Epf =>
        results := ScheduleEpf(tti, order, starveTti, minPrb);
        EpfIsSafe(old(ueDb), totalPrb, rntis, order, tti, starveTti, minPrb, State(results));
    }
  }
}
