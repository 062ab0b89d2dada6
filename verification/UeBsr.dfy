/** The UE's buffer status reporting (ue_bsr_manager.cpp): triggers, timers and the choice of format. */
module UeBsr {
  import opened CommonTypes
  import opened LcgBuffer
  import SrManager
  import opened MacPdu

  const CE_SUBHEADER_LEN: nat := 1
  const SHORT_BSR_SIZE: nat := 1
  const LONG_BSR_SIZE: nat := 3
  const NO_PRIORITY: nat := 0xFFFF_FFFF

  datatype Trigger = NoTrigger | Regular | Periodic | Padding

  datatype BsrConfig = BsrConfig(periodicTimer: nat, retxTimer: nat)

  datatype Bsr = Bsr(trigger: Trigger, periodicCounter: nat, retxCounter: nat, periodicRunning: bool, retxRunning: bool,
                     grantAvailable: bool)

  // ---- What the report is about ----

  function LcgBytes(chs: seq<Channel>, lcg: nat): nat {
    if chs == [] then 0 else LcgBytes(chs[..|chs| - 1], lcg) + if chs[|chs| - 1].lcg == lcg
        then chs[|chs| - 1].newBuffer else 0
  }

  function OldLcgBytes(chs: seq<Channel>, lcg: nat): nat {
    if chs == [] then 0 else OldLcgBytes(chs[..|chs| - 1], lcg) + if chs[|chs| - 1].lcg == lcg
        then chs[|chs| - 1].oldBuffer else 0
  }

  function LcgSizes(chs: seq<Channel>): (sizes: seq<nat>)
    ensures |sizes| == NOF_LCGS && forall i :: 0 <= i < NOF_LCGS ==> sizes[i] == LcgBytes(chs, i)
  {
    [LcgBytes(chs, 0), LcgBytes(chs, 1), LcgBytes(chs, 2), LcgBytes(chs, 3)]
  }

  function UpperBound(chs: seq<Channel>): nat {
    if chs == [] then 0 else UpperBound(chs[..|chs| - 1]) + Max(chs[|chs| - 1].oldBuffer, chs[|chs| - 1].newBuffer)
  }

  function WithData(sizes: seq<nat>): nat {
    if sizes == [] then 0 else (if sizes[0] > 0 then 1 else 0) + WithData(sizes[1..])
  }

  /** Data in an LCG that was empty at the start of the TTI. */
  predicate NewData(chs: seq<Channel>) {
    exists i :: 0 <= i < |chs| && chs[i].newBuffer > 0 && chs[i].lcg < NOF_LCGS && OldLcgBytes(chs, chs[i].lcg) == 0
  }

  /** Growth on a channel whose priority beats every channel that had data at the start of the TTI. */
  predicate UrgentData(chs: seq<Channel>) {
    exists i :: 0 <= i < |chs| && chs[i].newBuffer > chs[i].oldBuffer &&
      forall j :: 0 <= j < |chs| && chs[j].priority <= chs[i].priority ==> chs[j].oldBuffer == 0
  }

  predicate AnyData(chs: seq<Channel>) {
    exists i :: 0 <= i < |chs| && chs[i].newBuffer > 0
  }

  /** LCG of the best priority with data, from the first n channels; LCG 0 when there is none. */
  function BestLcg(chs: seq<Channel>, n: nat): (r: (nat, nat))
    requires n <= |chs|
  {
    if n == 0 then (0, NO_PRIORITY)
    else
      var (lcg, best) := BestLcg(chs, n - 1);
      if chs[n - 1].newBuffer > 0
          && chs[n - 1].priority < best then (chs[n - 1].lcg, chs[n - 1].priority) else (lcg, best)
  }

  function FirstWithData(sizes: seq<nat>, i: nat): nat
    requires i <= |sizes|
    decreases |sizes| - i
  {
    if i == |sizes| then 0 else if sizes[i] > 0 then i else FirstWithData(sizes, i + 1)
  }

  // ---- Formats ----

  function SelectFormat(trigger: Trigger, space: nat, withData: nat): BsrFormat {
    if space >= CE_SUBHEADER_LEN + LONG_BSR_SIZE then
      if trigger != Padding && withData <= 1 then ShortBsr else LongBsr
    else if space >= CE_SUBHEADER_LEN + SHORT_BSR_SIZE then
      if withData > 1 then TruncatedBsr else ShortBsr
    else ShortBsr
  }

  function LongReports(sizes: seq<nat>, n: nat): (reports: seq<BsrReport>)
    requires n <= |sizes|
  {
    if n == 0 then []
    else LongReports(sizes, n - 1) + if sizes[n - 1] > 0 then [BsrReport(n - 1, BytesToBsrIndex(sizes[n - 1]))] else []
  }

  method BuildLongBsr(sizes: seq<nat>) returns (bsr: BsrCe)
    requires |sizes| == NOF_LCGS
    ensures bsr == BsrCe(LongBsr, LongReports(sizes, NOF_LCGS))
  {
    var reports: seq<BsrReport> := [];
    for i := 0 to NOF_LCGS
      invariant reports == LongReports(sizes, i)
    {
      if sizes[i] > 0 {
        var index := SearchBsrIndex(sizes[i]);
        reports := reports + [BsrReport(i, index)];
      }
    }
    bsr := BsrCe(LongBsr, reports);
  }

  /** The LCG a Short or Truncated BSR is about. */
  function Target(chs: seq<Channel>, format: BsrFormat): nat {
    if format == ShortBsr && WithData(LcgSizes(chs)) == 1 then FirstWithData(LcgSizes(chs), 0)
        else BestLcg(chs, |chs|).0
  }

  function ReportFor(chs: seq<Channel>, format: BsrFormat): BsrCe
    requires InOrder(chs)
  {
    if format == LongBsr then BsrCe(LongBsr, LongReports(LcgSizes(chs), NOF_LCGS))
    else BsrCe(format, [BsrReport(Target(chs, format), BytesToBsrIndex(LcgBytes(chs, Target(chs, format))))])
  }

  function Required(format: BsrFormat): nat {
    CE_SUBHEADER_LEN + if format == LongBsr then LONG_BSR_SIZE else SHORT_BSR_SIZE
  }

  /** Generating a report; nothing happens when even the chosen format does not fit. A Truncated BSR keeps the
      trigger. */
  function Generated(b: Bsr, cfg: BsrConfig, chs: seq<Channel>, space: nat): (Bsr, Option<BsrCe>)
    requires InOrder(chs)
  {
    var format := SelectFormat(b.trigger, space, WithData(LcgSizes(chs)));
    if space < Required(format) then (b, None)
    else
      var timed := if cfg.periodicTimer > 0
          && format != TruncatedBsr then b.(periodicRunning := true, periodicCounter := cfg.periodicTimer) else b;
      (if format != TruncatedBsr then timed.(trigger := NoTrigger) else timed, Some(ReportFor(chs, format)))
  }

  function OnGrant(b: Bsr, cfg: BsrConfig, chs: seq<Channel>, grant: nat, total: nat): (Bsr, Option<BsrCe>)
    requires InOrder(chs)
  {
    if b.trigger == Periodic || b.trigger == Regular then
      if grant >= total then (b.(trigger := NoTrigger), None) else Generated(b, cfg, chs, grant)
    else (b, None)
  }

  function OnPadding(b: Bsr, cfg: BsrConfig, chs: seq<Channel>, padding: nat): (Bsr, Option<BsrCe>)
    requires InOrder(chs)
  {
    if padding < CE_SUBHEADER_LEN + SHORT_BSR_SIZE then (b, None)
    else Generated(if b.trigger == NoTrigger then b.(trigger := Padding) else b, cfg, chs, padding)
  }

  function AtTtiEnd(b: Bsr, cfg: BsrConfig, bsr: BsrCe): Bsr {
    if cfg.retxTimer > 0 && bsr.reports != [] then b.(retxRunning := true, retxCounter := cfg.retxTimer) else b
  }

  // ---- Triggers and timers ----

  function Ticked(b: Bsr): Bsr {
    b.(periodicCounter := if b.periodicRunning
       && b.periodicCounter > 0 then b.periodicCounter - 1 else b.periodicCounter,
       retxCounter := if b.retxRunning && b.retxCounter > 0 then b.retxCounter - 1 else b.retxCounter)
  }

  function PeriodicExpired(b: Bsr, cfg: BsrConfig): Bsr {
    if b.periodicCounter == 0 && b.periodicRunning
    then b.(trigger := if b.trigger == NoTrigger then Periodic else b.trigger, periodicCounter := cfg.periodicTimer)
    else b
  }

  predicate RetxExpires(b: Bsr) {
    b.retxCounter == 0 && b.retxRunning
  }

  function RetxExpired(b: Bsr, cfg: BsrConfig, anyData: bool): Bsr {
    if RetxExpires(b) then b.(trigger := if anyData then Regular else b.trigger, retxCounter := cfg.retxTimer) else b
  }

  /** Whether a TTI triggers a Regular BSR. */
  predicate TriggersRegular(b: Bsr, cfg: BsrConfig, anyData: bool, newData: bool) {
    (RetxExpires(PeriodicExpired(Ticked(b), cfg)) && anyData) || newData
  }

  function SteppedOn(b: Bsr, cfg: BsrConfig, anyData: bool, newData: bool): Bsr {
    var r := RetxExpired(PeriodicExpired(Ticked(b), cfg), cfg, anyData);
    if newData then r.(trigger := Regular) else r
  }

  /** A TTI of the procedure: its state, and whether it asked for a scheduling request. */
  function Stepped(b: Bsr, cfg: BsrConfig, chs: seq<Channel>): (Bsr, bool) {
    var (anyData, newData) := (AnyData(chs), NewData(chs) || UrgentData(chs));
    (SteppedOn(b, cfg, anyData, newData), TriggersRegular(b, cfg, anyData, newData) && !b.grantAvailable)
  }

  class BsrManager {
    const buffer: LcgBufferManager
    const sr: SrManager.SrManager
    var cfg: BsrConfig
    var triggeredType: Trigger
    var periodicTimerCounter: nat
    var retxTimerCounter: nat
    var periodicTimerRunning: bool
    var retxTimerRunning: bool
    var ulGrantAvailable: bool

    function State(): Bsr
      reads this
    {
      Bsr(triggeredType, periodicTimerCounter, retxTimerCounter, periodicTimerRunning, retxTimerRunning,
          ulGrantAvailable)
    }

    constructor (buffer: LcgBufferManager, sr: SrManager.SrManager, cfg: BsrConfig)
      ensures this.buffer == buffer && this.sr == sr && this.cfg == cfg
      ensures State() == Bsr(NoTrigger, if cfg.periodicTimer > 0 then cfg.periodicTimer else 0, 0,
                             cfg.periodicTimer > 0, false, false)
    {
      this.buffer, this.sr, this.cfg := buffer, sr, cfg;
      triggeredType, retxTimerCounter, retxTimerRunning, ulGrantAvailable := NoTrigger, 0, false, false;
      periodicTimerRunning := cfg.periodicTimer > 0;
      periodicTimerCounter := if cfg.periodicTimer > 0 then cfg.periodicTimer else 0;
    }

    method SetUlGrantAvailable(avail: bool)
      modifies this
      ensures State() == old(State()).(grantAvailable := avail) && cfg == old(cfg)
    {
      ulGrantAvailable := avail;
    }

    /** A Regular trigger asks for a scheduling request unless a grant is at hand. */
    method SetTrigger(trigger: Trigger)
      modifies this`triggeredType, sr
      ensures triggeredType == trigger && sr.cfg == old(sr.cfg)
      ensures sr.State() == if trigger == Regular
        && !ulGrantAvailable then SrManager.Started(old(sr.State()), sr.cfg) else old(sr.State())
    {
      triggeredType := trigger;
      if trigger == Regular && !ulGrantAvailable {
        sr.Start();
      }
    }

    method HandleTimerExpiry(anyData: bool)
      modifies this, sr
      ensures cfg == old(cfg) && sr.cfg == old(sr.cfg)
      ensures State() == RetxExpired(PeriodicExpired(old(State()), cfg), cfg, anyData)
      ensures sr.State() == if RetxExpires(PeriodicExpired(old(State()), cfg)) && anyData && !ulGrantAvailable
                            then SrManager.Started(old(sr.State()), sr.cfg) else old(sr.State())
    {
      if periodicTimerCounter == 0 && periodicTimerRunning {
        if triggeredType == NoTrigger {
          SetTrigger(Periodic);
        }
        periodicTimerCounter := cfg.periodicTimer;
      }
      if retxTimerCounter == 0 && retxTimerRunning {
        if anyData {
          SetTrigger(Regular);
        }
        retxTimerCounter := cfg.retxTimer;
      }
    }

    method StepOn(anyData: bool, newData: bool)
      modifies this, sr
      ensures cfg == old(cfg) && sr.cfg == old(sr.cfg)
      ensures State() == SteppedOn(old(State()), cfg, anyData, newData)
      ensures sr.State() == if TriggersRegular(old(State()), cfg, anyData, newData) && !ulGrantAvailable
                            then SrManager.Started(old(sr.State()), sr.cfg) else old(sr.State())
    {
      if periodicTimerRunning && periodicTimerCounter > 0 {
        periodicTimerCounter := periodicTimerCounter - 1;
      }
      if retxTimerRunning && retxTimerCounter > 0 {
        retxTimerCounter := retxTimerCounter - 1;
      }
      HandleTimerExpiry(anyData);
      if newData {
        SetTrigger(Regular);
      }
    }

    method Step()
      modifies this, sr
      ensures cfg == old(cfg) && sr.cfg == old(sr.cfg)
      ensures State() == Stepped(old(State()), cfg, buffer.channels).0
      ensures sr.State() == if Stepped(old(State()), cfg, buffer.channels).1
          then SrManager.Started(old(sr.State()), sr.cfg) else old(sr.State())
    {
      StepOn(AnyData(buffer.channels), NewData(buffer.channels) || UrgentData(buffer.channels));
    }

    method GenerateBsr(space: nat) returns (bsr: Option<BsrCe>)
      requires buffer.Valid()
      modifies this
      ensures cfg == old(cfg) && (State(), bsr) == Generated(old(State()), cfg, buffer.channels, space)
    {
      var sizes := LcgSizes(buffer.channels);
      var format := SelectFormat(triggeredType, space, WithData(sizes));
      if space < Required(format) {
        return None;
      }
      if format == LongBsr {
        var ce := BuildLongBsr(sizes);
        bsr := Some(ce);
      } else {
        var target := Target(buffer.channels, format);
        var index := SearchBsrIndex(LcgBytes(buffer.channels, target));
        bsr := Some(BsrCe(format, [BsrReport(target, index)]));
      }
      if cfg.periodicTimer > 0 && format != TruncatedBsr {
        periodicTimerRunning := true;
        periodicTimerCounter := cfg.periodicTimer;
      }
      if format != TruncatedBsr {
        triggeredType := NoTrigger;
      }
    }

    method NeedToSendBsrOnUlGrant(grant: nat, total: nat) returns (bsr: Option<BsrCe>)
      requires buffer.Valid()
      modifies this
      ensures cfg == old(cfg) && (State(), bsr) == OnGrant(old(State()), cfg, buffer.channels, grant, total)
    {
      bsr := None;
      if triggeredType == Periodic || triggeredType == Regular {
        if grant >= total {
          triggeredType := NoTrigger;
          return;
        }
        bsr := GenerateBsr(grant);
      }
    }

    method GeneratePaddingBsr(padding: nat) returns (bsr: Option<BsrCe>)
      requires buffer.Valid()
      modifies this
      ensures cfg == old(cfg) && (State(), bsr) == OnPadding(old(State()), cfg, buffer.channels, padding)
    {
      if padding < CE_SUBHEADER_LEN + SHORT_BSR_SIZE {
        return None;
      }
      if triggeredType == NoTrigger {
        triggeredType := Padding;
      }
      bsr := GenerateBsr(padding);
    }

    method UpdateBsrTtiEnd(bsr: BsrCe)
      modifies this
      ensures cfg == old(cfg) && State() == AtTtiEnd(old(State()), cfg, bsr)
    {
      if cfg.retxTimer > 0 && |bsr.reports| > 0 {
        retxTimerRunning := true;
        retxTimerCounter := cfg.retxTimer;
      }
    }
  }

  // ---- What a generated report is worth ----

  lemma {:induction false} BestLcgInRange(chs: seq<Channel>, n: nat)
    requires n <= |chs| && InOrder(chs)
    ensures BestLcg(chs, n).0 < NOF_LCGS
  {
    if n > 0 { BestLcgInRange(chs, n - 1); }
  }

  lemma {:induction false} FirstWithDataInRange(sizes: seq<nat>, i: nat)
    requires i <= |sizes|
    ensures FirstWithData(sizes, i) < |sizes| || sizes == []
    decreases |sizes| - i
  {
    if i < |sizes| && sizes[i] == 0 { FirstWithDataInRange(sizes, i + 1); }
  }

  lemma {:induction false} LongReportsInRange(sizes: seq<nat>, n: nat)
    requires n <= |sizes| <= NOF_LCGS
    ensures forall r <- LongReports(sizes, n) :: r.lcgId < NOF_LCGS && r.bufferSize < BSR_BUFFER_SIZE_LEVELS
    decreases n
  {
    if n > 0 {
      LongReportsInRange(sizes, n - 1);
      QuantiserIsLeastCovering(sizes[n - 1]);
    }
  }

  /** A generated BSR has fields in range, and one with reports always fits the packer: the packer's "does not fit"
      branch cannot be reached with it. */
  lemma GeneratedFits(b: Bsr, cfg: BsrConfig, chs: seq<Channel>, space: nat, grant: nat)
    requires InOrder(chs) && space <= grant
    ensures var bsr := Generated(b, cfg, chs, space).1;
            bsr.Some? ==> InRange(bsr.value) && (bsr.value.reports != [] ==> BsrFits(bsr.value, grant))
  {
    var bsr := Generated(b, cfg, chs, space).1;
    if bsr.Some? {
      if bsr.value.format == LongBsr {
        LongReportsInRange(LcgSizes(chs), NOF_LCGS);
      } else {
        var target := Target(chs, bsr.value.format);
        BestLcgInRange(chs, |chs|);
        FirstWithDataInRange(LcgSizes(chs), 0);
        QuantiserIsLeastCovering(LcgBytes(chs, target));
      }
    }
  }

  /** Whatever BSR the UE has for a grant of `grant` bytes fits it. */
  lemma BsrForGrantFits(b: Bsr, cfg: BsrConfig, chs: seq<Channel>, grant: nat, total: nat)
    requires InOrder(chs)
    ensures var bsr := OnGrant(b, cfg, chs, grant, total).1;
            bsr.Some? ==> InRange(bsr.value) && (bsr.value.reports != [] ==> BsrFits(bsr.value, grant))
    ensures var bsr := OnPadding(b, cfg, chs, Max(0, grant - total)).1;
            bsr.Some? ==> InRange(bsr.value) && (bsr.value.reports != [] ==> BsrFits(bsr.value, grant))
  {
    GeneratedFits(b, cfg, chs, grant, grant);
    GeneratedFits(if b.trigger == NoTrigger then b.(trigger := Padding) else b, cfg, chs, Max(0, grant - total), grant);
  }
}
