/** What a UE's buffer status report says about its channels, when one is triggered, and what the scheduler makes of
    it. */
module BsrContent {
  import opened CommonTypes
  import opened LcgBuffer
  import opened MacPdu
  import opened Scheduler
  import opened UeBsr
  import EnbBsr

  // ---- The bytes of an LCG ----

  predicate HasData(chs: seq<Channel>, lcg: nat) {
    exists i :: 0 <= i < |chs| && chs[i].lcg == lcg && chs[i].newBuffer > 0
  }

  /** Data in more than one LCG. */
  predicate Several(chs: seq<Channel>) {
    exists i, j :: 0 <= i < j < |chs| && chs[i].lcg != chs[j].lcg && chs[i].newBuffer > 0 && chs[j].newBuffer > 0
  }

  /** A channel's bytes count for its own LCG and for no other. */
  lemma {:induction false} LcgBytesUpdate(chs: seq<Channel>, i: nat, c: Channel, lcg: nat)
    requires i < |chs|
    ensures LcgBytes(chs[i := c], lcg) == LcgBytes(chs, lcg) - (if chs[i].lcg == lcg then chs[i].newBuffer else 0)
                                          + (if c.lcg == lcg then c.newBuffer else 0)
    decreases |chs|
  {
    var (n, d) := (|chs| - 1, chs[i := c]);
    if i < n {
      LcgBytesUpdate(chs[..n], i, c, lcg);
      assert d[..n] == chs[..n][i := c];
    } else {
      assert d[..n] == chs[..n];
    }
  }

  lemma {:induction false} LcgBytesZero(chs: seq<Channel>, lcg: nat)
    ensures LcgBytes(chs, lcg) > 0 <==> HasData(chs, lcg)
    decreases |chs|
  {
    if chs != [] {
      var n := |chs| - 1;
      LcgBytesZero(chs[..n], lcg);
      assert forall i :: 0 <= i < n ==> chs[..n][i] == chs[i];
      if HasData(chs[..n], lcg) {
        var i :| 0 <= i < n && chs[..n][i].lcg == lcg && chs[..n][i].newBuffer > 0;
        assert chs[i].lcg == lcg;
      }
    }
  }

  /** What a snapshot remembers. */
  lemma {:induction false} SnapshotRemembers(chs: seq<Channel>, lcg: nat)
    ensures OldLcgBytes(Snapshot(chs), lcg) == LcgBytes(chs, lcg)
    decreases |chs|
  {
    if chs != [] {
      var n := |chs| - 1;
      SnapshotRemembers(chs[..n], lcg);
      assert Snapshot(chs)[..n] == Snapshot(chs[..n]);
    }
  }

  lemma SizesWithData(chs: seq<Channel>)
    requires InOrder(chs)
    ensures WithData(LcgSizes(chs)) == 0 <==> !AnyData(chs)
    ensures WithData(LcgSizes(chs)) > 1 <==> Several(chs)
    ensures forall lcg :: 0 <= lcg < NOF_LCGS ==> (LcgSizes(chs)[lcg] > 0 <==> HasData(chs, lcg))
  {
    var sizes := LcgSizes(chs);
    SizesAreData(chs);
    CountOfFour(sizes);
    if AnyData(chs) {
      var i :| 0 <= i < |chs| && chs[i].newBuffer > 0;
      assert HasData(chs, chs[i].lcg);
    }
    if Several(chs) {
      var i, j :| 0 <= i < j < |chs| && chs[i].lcg != chs[j].lcg && chs[i].newBuffer > 0 && chs[j].newBuffer > 0;
      assert sizes[chs[i].lcg] > 0 && sizes[chs[j].lcg] > 0;
    }
    if WithData(sizes) > 1 {
      var a, b := TwoOfFour(sizes);
      TwoLcgs(chs, a, b);
    }
  }

  lemma SizesAreData(chs: seq<Channel>)
    ensures forall lcg :: 0 <= lcg < NOF_LCGS ==> (LcgSizes(chs)[lcg] > 0 <==> HasData(chs, lcg))
  {
    forall lcg | 0 <= lcg < NOF_LCGS ensures LcgSizes(chs)[lcg] > 0 <==> HasData(chs, lcg) {
      LcgBytesZero(chs, lcg);
    }
  }

  lemma TwoLcgs(chs: seq<Channel>, a: nat, b: nat)
    requires HasData(chs, a) && HasData(chs, b) && a != b
    ensures Several(chs)
  {
    var i :| 0 <= i < |chs| && chs[i].lcg == a && chs[i].newBuffer > 0;
    var j :| 0 <= j < |chs| && chs[j].lcg == b && chs[j].newBuffer > 0;
    assert i < j || j < i;
  }

  lemma CountOfFour(sizes: seq<nat>)
    requires |sizes| == 4
    ensures WithData(sizes) == (if sizes[0] > 0 then 1 else 0) + (if sizes[1] > 0 then 1 else 0)
                               + (if sizes[2] > 0 then 1 else 0) + (if sizes[3] > 0 then 1 else 0)
  {
    assert sizes[1..][1..] == sizes[2..] && sizes[2..][1..] == sizes[3..] && sizes[3..][1..] == [];
    assert WithData(sizes[3..]) == if sizes[3] > 0 then 1 else 0;
    assert WithData(sizes[2..]) == (if sizes[2] > 0 then 1 else 0) + WithData(sizes[3..]);
    assert WithData(sizes[1..]) == (if sizes[1] > 0 then 1 else 0) + WithData(sizes[2..]);
  }

  lemma TwoOfFour(sizes: seq<nat>) returns (a: nat, b: nat)
    requires |sizes| == 4 && WithData(sizes) > 1
    ensures a < b < 4 && sizes[a] > 0 && sizes[b] > 0
  {
    CountOfFour(sizes);
    a := if sizes[0] > 0 then 0 else if sizes[1] > 0 then 1 else 2;
    b := if sizes[3] > 0 then 3 else if sizes[2] > 0 then 2 else 1;
  }

  // ---- Which LCG a Short or Truncated BSR is about ----

  /** Channel k has data, and no channel with data has a better priority. */
  predicate IsFirstInLine(chs: seq<Channel>, k: nat) {
    && k < |chs| && chs[k].newBuffer > 0
    && forall j :: 0 <= j < |chs| && chs[j].newBuffer > 0 ==> chs[k].priority <= chs[j].priority
  }

  predicate Prioritised(chs: seq<Channel>) {
    exists i :: 0 <= i < |chs| && chs[i].newBuffer > 0 && chs[i].priority < NO_PRIORITY
  }

  lemma {:induction false} BestLcgIsBest(chs: seq<Channel>, n: nat)
    requires n <= |chs|
    ensures var (lcg, best) := BestLcg(chs, n);
            if exists i :: 0 <= i < n && chs[i].newBuffer > 0 && chs[i].priority < NO_PRIORITY then
              && (exists k :: 0 <= k < n && chs[k].newBuffer > 0 && chs[k].lcg == lcg && chs[k].priority == best)
              && (forall j :: 0 <= j < n && chs[j].newBuffer > 0 ==> best <= chs[j].priority)
            else lcg == 0 && best == NO_PRIORITY
  {
    if n > 0 { BestLcgIsBest(chs, n - 1); }
  }

  lemma {:induction false} FirstWithDataIs(sizes: seq<nat>, i: nat)
    requires i <= |sizes| && exists k :: i <= k < |sizes| && sizes[k] > 0
    ensures i <= FirstWithData(sizes, i) < |sizes| && sizes[FirstWithData(sizes, i)] > 0
    decreases |sizes| - i
  {
    if sizes[i] == 0 { FirstWithDataIs(sizes, i + 1); }
  }

  lemma TargetHasData(chs: seq<Channel>, format: BsrFormat)
    requires InOrder(chs) && format != LongBsr && (format == TruncatedBsr <==> Several(chs))
    ensures HasData(chs, Target(chs, format)) <==>
            AnyData(chs) && (!Several(chs) || Prioritised(chs) || HasData(chs, 0))
  {
    SizesWithData(chs);
    BestLcgIsBest(chs, |chs|);
    if WithData(LcgSizes(chs)) == 1 {
      var i :| 0 <= i < |chs| && chs[i].newBuffer > 0;
      assert HasData(chs, chs[i].lcg);
      FirstWithDataIs(LcgSizes(chs), 0);
    }
  }

  lemma TargetIsFirstInLine(chs: seq<Channel>, format: BsrFormat)
    requires InOrder(chs) && format != LongBsr && (format == TruncatedBsr <==> Several(chs)) && Prioritised(chs)
    ensures exists k: nat :: IsFirstInLine(chs, k) && chs[k].lcg == Target(chs, format)
  {
    SizesWithData(chs);
    BestLcgIsBest(chs, |chs|);
    var (lcg, best) := BestLcg(chs, |chs|);
    var k :| 0 <= k < |chs| && chs[k].newBuffer > 0 && chs[k].lcg == lcg && chs[k].priority == best;
    assert IsFirstInLine(chs, k);
    if format == ShortBsr {
      assert HasData(chs, lcg);
      FirstWithDataIs(LcgSizes(chs), 0);
      if Target(chs, format) != lcg { TwoLcgs(chs, Target(chs, format), lcg); }
    }
  }

  // ---- What a report says ----

  /** The format is decided by the space, by the trigger, and by whether more than one LCG has data; any report at
      all needs two bytes. */
  lemma FormatIsDecided(b: Bsr, cfg: BsrConfig, chs: seq<Channel>, space: nat)
    requires InOrder(chs)
    ensures var bsr := Generated(b, cfg, chs, space).1;
            && (bsr.Some? <==> space >= 2)
            && (bsr.Some? ==>
                  bsr.value.format == (if space >= 4 && (Several(chs) || b.trigger == Padding) then LongBsr
                                       else if Several(chs) then TruncatedBsr else ShortBsr))
  {
    SizesWithData(chs);
  }

  /** Only a Truncated BSR leaves its trigger and the periodic timer as they were; any other report clears the
      trigger and restarts the timer. */
  lemma ReportSettles(b: Bsr, cfg: BsrConfig, chs: seq<Channel>, space: nat)
    requires InOrder(chs) && space >= 2
    ensures var (d, bsr) := Generated(b, cfg, chs, space);
            && d.retxCounter == b.retxCounter && d.retxRunning == b.retxRunning && d.grantAvailable == b.grantAvailable
            && (space < 4 && Several(chs) ==> d == b)
            && (space >= 4 || !Several(chs) ==>
                  d.trigger == NoTrigger && (cfg.periodicTimer > 0 ==>
                                             d.periodicRunning && d.periodicCounter == cfg.periodicTimer))
  {
    SizesWithData(chs);
  }

  /** A Short or Truncated BSR names the LCG of a channel that has data and that no channel with data beats in
      priority, with the index of the bytes this LCG holds. */
  lemma OneLcgReported(b: Bsr, cfg: BsrConfig, chs: seq<Channel>, space: nat)
    requires InOrder(chs) && space >= 2 && Prioritised(chs) && Generated(b, cfg, chs, space).1.value.format != LongBsr
    ensures var reports := Generated(b, cfg, chs, space).1.value.reports;
            && |reports| == 1 && reports[0].bufferSize == BytesToBsrIndex(LcgBytes(chs, reports[0].lcgId))
            && (exists k: nat :: IsFirstInLine(chs, k) && chs[k].lcg == reports[0].lcgId)
            && HasData(chs, reports[0].lcgId) && LcgBytes(chs, reports[0].lcgId) > 0
  {
    FormatIsDecided(b, cfg, chs, space);
    var format := Generated(b, cfg, chs, space).1.value.format;
    TargetIsFirstInLine(chs, format);
    TargetHasData(chs, format);
    LcgBytesZero(chs, Target(chs, format));
  }

  /** Exactly when the one LCG named holds data. It fails when nothing is buffered, and when several LCGs have data,
      all at the worst priority 2^32 - 1, and LCG 0 has none: the search for the best priority then stays at LCG 0. */
  lemma OneLcgHoldsData(b: Bsr, cfg: BsrConfig, chs: seq<Channel>, space: nat)
    requires InOrder(chs) && space >= 2 && Generated(b, cfg, chs, space).1.value.format != LongBsr
    ensures var reports := Generated(b, cfg, chs, space).1.value.reports;
            && |reports| == 1
            && (HasData(chs, reports[0].lcgId) <==>
                AnyData(chs) && (!Several(chs) || Prioritised(chs) || HasData(chs, 0)))
  {
    FormatIsDecided(b, cfg, chs, space);
    TargetHasData(chs, Generated(b, cfg, chs, space).1.value.format);
  }

  lemma {:induction false} LongReportsAre(sizes: seq<nat>, n: nat)
    requires n <= |sizes|
    ensures forall r :: r in LongReports(sizes, n) <==>
                        r.lcgId < n && sizes[r.lcgId] > 0 && r.bufferSize == BytesToBsrIndex(sizes[r.lcgId])
    decreases n
  {
    if n > 0 { LongReportsAre(sizes, n - 1); }
  }

  lemma ShortIsComplete(chs: seq<Channel>, lcg: nat)
    requires InOrder(chs) && !Several(chs) && HasData(chs, lcg)
    ensures Target(chs, ShortBsr) == lcg
  {
    var i :| 0 <= i < |chs| && chs[i].lcg == lcg && chs[i].newBuffer > 0;
    TargetHasData(chs, ShortBsr);
    if Target(chs, ShortBsr) != lcg { TwoLcgs(chs, Target(chs, ShortBsr), lcg); }
  }

  /** Every report gives the bytes its LCG holds, and every BSR but a Truncated one reports all LCGs with data. */
  lemma ReportIsComplete(b: Bsr, cfg: BsrConfig, chs: seq<Channel>, space: nat)
    requires InOrder(chs) && space >= 2
    ensures var bsr := Generated(b, cfg, chs, space).1.value;
            && (forall r <- bsr.reports ::
                r.lcgId < NOF_LCGS && r.bufferSize == BytesToBsrIndex(LcgBytes(chs, r.lcgId)))
            && (space >= 4 || !Several(chs) ==>
                  forall lcg :: 0 <= lcg < NOF_LCGS && HasData(chs, lcg) ==>
                    BsrReport(lcg, BytesToBsrIndex(LcgBytes(chs, lcg))) in bsr.reports)
  {
    var bsr := Generated(b, cfg, chs, space).1.value;
    FormatIsDecided(b, cfg, chs, space);
    SizesWithData(chs);
    LongReportsAre(LcgSizes(chs), NOF_LCGS);
    GeneratedFits(b, cfg, chs, space, space);
    if bsr.format == ShortBsr {
      forall lcg | 0 <= lcg < NOF_LCGS && HasData(chs, lcg) ensures Target(chs, ShortBsr) == lcg {
        ShortIsComplete(chs, lcg);
      }
    }
  }

  // ---- From the UE's own report to the scheduler ----

  /** The report the UE generates for its buffers, packed into a PDU, unpacked and forwarded, leaves the scheduler
      with at least what every reported LCG holds, and so with at least what every LCG holds unless the BSR is
      Truncated. */
  lemma OwnReportCovers(b: Bsr, cfg: BsrConfig, chs: seq<Channel>, space: nat, buf: seq<Byte>, grant: nat,
                        view: EnbBsr.View, c: UeCtx, lcg: nat)
    requires InOrder(chs) && 2 <= space <= grant <= |buf| && lcg < NOF_LCGS
    ensures var bsr := Generated(b, cfg, chs, space).1.value;
            var d := EnbBsr.OnPdu(view, c, PackBytes(buf, grant, bsr, [])[..grant]).1;
            (space >= 4 || !Several(chs) || (exists r :: r in bsr.reports && r.lcgId == lcg)) ==>
              d.ulBuffer[lcg] >= Min(LcgBytes(chs, lcg), MAX_REPORTABLE_BYTES)
  {
    var bsr := Generated(b, cfg, chs, space).1.value;
    FormatIsDecided(b, cfg, chs, space);
    LcgBytesZero(chs, lcg);
    if bsr.format == LongBsr {
      EnbBsr.LongBsrCoversDemand(buf, grant, LcgSizes(chs), view, c, lcg);
    } else {
      var target := Target(chs, bsr.format);
      GeneratedFits(b, cfg, chs, space, grant);
      EnbBsr.ShortBsrCoversDemand(buf, grant, bsr.format, target, LcgBytes(chs, target), view, c);
      if !Several(chs) && HasData(chs, lcg) { ShortIsComplete(chs, lcg); }
    }
  }

  // ---- When a BSR is triggered ----

  /** Data arrives on the first channel with the LCID, and on no other. */
  lemma ArrivalOnOne(chs: seq<Channel>, lcid: nat, bytes: nat, j: nat)
    requires j < |chs|
    ensures Arrived(chs, lcid, bytes)[j] ==
            if chs[j].lcid == lcid && forall k :: 0 <= k < j ==> chs[k].lcid != lcid
            then chs[j].(newBuffer := chs[j].newBuffer + bytes) else chs[j]
  {
  }

  /** Channel i beats every channel that has data. */
  predicate BeatsAll(chs: seq<Channel>, i: nat)
    requires i < |chs|
  {
    forall j :: 0 <= j < |chs| && chs[j].priority <= chs[i].priority ==> chs[j].newBuffer == 0
  }

  lemma OldBytesKept(chs: seq<Channel>, i: nat, more: nat, lcg: nat)
    requires i < |chs|
    ensures OldLcgBytes(chs[i := chs[i].(newBuffer := more)], lcg) == OldLcgBytes(chs, lcg)
    decreases |chs|
  {
    var (n, d) := (|chs| - 1, chs[i := chs[i].(newBuffer := more)]);
    if i < n {
      OldBytesKept(chs[..n], i, more, lcg);
      assert d[..n] == chs[..n][i := chs[i].(newBuffer := more)];
    } else {
      assert d[..n] == chs[..n];
    }
  }

  lemma ArrivedAfterSnapshot(chs: seq<Channel>, lcid: nat, bytes: nat, i: nat)
    requires i == Find(chs, lcid) < |chs|
    ensures Arrived(Snapshot(chs), lcid, bytes) ==
            Snapshot(chs)[i := Snapshot(chs)[i].(newBuffer := chs[i].newBuffer + bytes)]
  {
    SameFind(chs, Snapshot(chs), lcid);
  }

  lemma BytesBefore(chs: seq<Channel>, i: nat, more: nat, lcg: nat)
    requires i < |chs|
    ensures OldLcgBytes(Snapshot(chs)[i := Snapshot(chs)[i].(newBuffer := more)], lcg) == 0 <==> !HasData(chs, lcg)
  {
    OldBytesKept(Snapshot(chs), i, more, lcg);
    SnapshotRemembers(chs, lcg);
    LcgBytesZero(chs, lcg);
  }

  lemma NewIsNoticed(chs: seq<Channel>, i: nat, more: nat)
    requires InOrder(chs) && i < |chs| && more > chs[i].newBuffer
    ensures NewData(Snapshot(chs)[i := Snapshot(chs)[i].(newBuffer := more)]) <==> !HasData(chs, chs[i].lcg)
  {
    var after := Snapshot(chs)[i := Snapshot(chs)[i].(newBuffer := more)];
    BytesBefore(chs, i, more, chs[i].lcg);
    if NewData(after) {
      var j :| 0 <= j < |after| && after[j].newBuffer > 0 && after[j].lcg < NOF_LCGS
          && OldLcgBytes(after, after[j].lcg) == 0;
      BytesBefore(chs, i, more, chs[j].lcg);
    } else {
      assert after[i].newBuffer > 0;
    }
  }

  lemma UrgentIsNoticed(chs: seq<Channel>, i: nat, more: nat)
    requires i < |chs| && more > chs[i].newBuffer
    ensures UrgentData(Snapshot(chs)[i := Snapshot(chs)[i].(newBuffer := more)]) <==> BeatsAll(chs, i)
  {
    var after := Snapshot(chs)[i := Snapshot(chs)[i].(newBuffer := more)];
    if UrgentData(after) {
      var j :| 0 <= j < |after| && after[j].newBuffer > after[j].oldBuffer &&
        forall k :: 0 <= k < |after| && after[k].priority <= after[j].priority ==> after[k].oldBuffer == 0;
      assert forall k :: 0 <= k < |chs| ==> after[k].oldBuffer == chs[k].newBuffer;
    }
    if BeatsAll(chs, i) { assert after[i].newBuffer > after[i].oldBuffer; }
  }

  /** After a snapshot, the arrival of data on a channel counts as new exactly when its LCG was empty, and as urgent
      exactly when its priority beats every channel with data. */
  lemma ArrivalIsNoticed(chs: seq<Channel>, lcid: nat, bytes: nat)
    requires InOrder(chs) && bytes > 0 && Find(chs, lcid) < |chs|
    ensures var (i, after) := (Find(chs, lcid), Arrived(Snapshot(chs), lcid, bytes));
            && (NewData(after) <==> !HasData(chs, chs[i].lcg))
            && (UrgentData(after) <==> BeatsAll(chs, i))
            && AnyData(after)
  {
    var (i, after) := (Find(chs, lcid), Arrived(Snapshot(chs), lcid, bytes));
    ArrivedAfterSnapshot(chs, lcid, bytes, i);
    NewIsNoticed(chs, i, chs[i].newBuffer + bytes);
    UrgentIsNoticed(chs, i, chs[i].newBuffer + bytes);
    assert after[i].newBuffer > 0;
  }

  lemma {:induction false} SameFind(chs: seq<Channel>, d: seq<Channel>, lcid: nat)
    requires |chs| == |d| && forall i :: 0 <= i < |chs| ==> chs[i].lcid == d[i].lcid
    ensures Find(chs, lcid) == Find(d, lcid)
  {
    if chs != [] && chs[0].lcid != lcid { SameFind(chs[1..], d[1..], lcid); }
  }

  /** What a TTI leaves triggered: a Regular BSR when it is called for, else what was triggered before, else a
      Periodic BSR when the periodic timer has run out. */
  predicate LeavesTriggered(b: Bsr, d: Bsr, regular: bool) {
    d.trigger == if regular then Regular else if b.trigger != NoTrigger then b.trigger
                 else if b.periodicRunning && b.periodicCounter <= 1 then Periodic else NoTrigger
  }

  /** A TTI calls for a Regular BSR, and for a scheduling request unless a grant is at hand, exactly when new or
      urgent data has arrived or the retransmission timer runs out over data. */
  lemma StepTriggers(b: Bsr, cfg: BsrConfig, chs: seq<Channel>)
    ensures var (d, asked) := Stepped(b, cfg, chs);
            var regular := NewData(chs) || UrgentData(chs) || (AnyData(chs) && b.retxRunning && b.retxCounter <= 1);
            LeavesTriggered(b, d, regular) && (asked <==> regular && !b.grantAvailable)
  {
  }

  /** The arrival of data triggers a Regular BSR in this TTI, and a scheduling request unless a grant is at hand,
      exactly when its LCG was empty or its channel beats every channel with data (or the retransmission timer runs
      out). */
  lemma ArrivalTriggers(b: Bsr, cfg: BsrConfig, chs: seq<Channel>, lcid: nat, bytes: nat)
    requires InOrder(chs) && bytes > 0 && Find(chs, lcid) < |chs|
    ensures var (i, (d, asked)) := (Find(chs, lcid), Stepped(b, cfg, Arrived(Snapshot(chs), lcid, bytes)));
            var noticed := !HasData(chs, chs[i].lcg) || BeatsAll(chs, i) || (b.retxRunning && b.retxCounter <= 1);
            LeavesTriggered(b, d, noticed) && (asked <==> noticed && !b.grantAvailable)
  {
    ArrivalIsNoticed(chs, lcid, bytes);
    StepTriggers(b, cfg, Arrived(Snapshot(chs), lcid, bytes));
  }

  /** TTIs of the procedure in which nothing new arrives. */
  function Quiet(b: Bsr, cfg: BsrConfig, anyData: bool, k: nat): Bsr {
    if k == 0 then b else SteppedOn(Quiet(b, cfg, anyData, k - 1), cfg, anyData, false)
  }

  /** Without new arrivals, a running periodic timer raises a Periodic BSR when it has counted down, and not before. */
  lemma {:induction false} PeriodicFires(b: Bsr, cfg: BsrConfig, anyData: bool, k: nat)
    requires b.periodicRunning && b.trigger == NoTrigger && !b.retxRunning && k <= Max(1, b.periodicCounter)
    ensures var d := Quiet(b, cfg, anyData, k);
            if k < Max(1, b.periodicCounter) then
              d == b.(periodicCounter := if b.periodicCounter == 0 then 0 else b.periodicCounter - k)
            else d == b.(trigger := Periodic, periodicCounter := cfg.periodicTimer)
    decreases k
  {
    if k > 0 { PeriodicFires(b, cfg, anyData, k - 1); }
  }

  /** A running retransmission timer raises a Regular BSR when it has counted down and there is data, and not before;
      it is started anew in either case. */
  lemma {:induction false} RetxFires(b: Bsr, cfg: BsrConfig, anyData: bool, k: nat)
    requires b.retxRunning && k <= Max(1, b.retxCounter)
    ensures var d := Quiet(b, cfg, anyData, k);
            d.retxRunning &&
            if k < Max(1, b.retxCounter) then
              && d.retxCounter == (if b.retxCounter == 0 then 0 else b.retxCounter - k)
              && (b.trigger != Regular ==> d.trigger != Regular)
            else d.retxCounter == cfg.retxTimer && (anyData ==> d.trigger == Regular)
    decreases k
  {
    if k > 0 { RetxFires(b, cfg, anyData, k - 1); }
  }

  /** A report that was sent, and left data behind, is followed by a Regular BSR exactly when the retransmission
      timer started with it has run out. */
  lemma SentAgain(b: Bsr, cfg: BsrConfig, ce: BsrCe, k: nat)
    requires cfg.retxTimer > 0 && ce.reports != [] && b.trigger == NoTrigger && k <= cfg.retxTimer
    ensures Quiet(AtTtiEnd(b, cfg, ce), cfg, true, k).trigger == Regular <==> k == cfg.retxTimer
  {
    RetxFires(AtTtiEnd(b, cfg, ce), cfg, true, k);
  }

  // ---- Grants and padding ----

  /** The bound against which a grant is held covers what is buffered, and is exactly that when no buffer has shrunk
      since the snapshot. */
  lemma {:induction false} UpperBoundCovers(chs: seq<Channel>)
    ensures UpperBound(chs) >= Total(chs)
    ensures (forall i :: 0 <= i < |chs| ==> chs[i].oldBuffer <= chs[i].newBuffer) ==> UpperBound(chs) == Total(chs)
    decreases |chs|
  {
    if chs != [] { UpperBoundCovers(chs[..|chs| - 1]); }
  }

  /** On a grant, a triggered Regular or Periodic BSR is dropped when the grant holds everything, and else reported
      if two bytes are there; nothing else is reported. */
  lemma GrantReports(b: Bsr, cfg: BsrConfig, chs: seq<Channel>, grant: nat, total: nat)
    requires InOrder(chs)
    ensures var (d, bsr) := OnGrant(b, cfg, chs, grant, total);
            && (bsr.Some? <==> (b.trigger == Regular || b.trigger == Periodic) && 2 <= grant < total)
            && (bsr.None? ==> d == if (b.trigger == Regular || b.trigger == Periodic) && grant >= total
                                   then b.(trigger := NoTrigger) else b)
            && (bsr.Some? ==> (d, bsr) == Generated(b, cfg, chs, grant))
  {
    FormatIsDecided(b, cfg, chs, grant);
  }

  /** Padding of two bytes or more always carries a report, a Long one from four bytes on when nothing was triggered. */
  lemma PaddingReports(b: Bsr, cfg: BsrConfig, chs: seq<Channel>, padding: nat)
    requires InOrder(chs)
    ensures var (d, bsr) := OnPadding(b, cfg, chs, padding);
            && (bsr.Some? <==> padding >= 2) && (bsr.None? ==> d == b)
            && (bsr.Some? && padding >= 4 && b.trigger == NoTrigger ==> bsr.value.format == LongBsr)
  {
    FormatIsDecided(if b.trigger == NoTrigger then b.(trigger := Padding) else b, cfg, chs, padding);
  }
}
