/** The UE's scheduling request procedure (ue_sr_manager.cpp), with the SR period fixed. */
module SrManager {
  import opened Arithmetic
  import opened CommonTypes

  const TTI_SPAN: nat := 10240
  const NEVER_SENT: nat := 0xFFFF_FFFF

  datatype SrState = SrIdle | SrPending | SrFailed

  datatype SrConfig = SrConfig(enabled: bool, dsrTransmax: nat, period: nat, prohibitTimer: nat)

  datatype SrStats = SrStats(sent: nat, success: nat, fail: nat)

  datatype Sr = Sr(state: SrState, counter: nat, lastTx: nat, prohibit: nat, transmitted: bool, stats: SrStats)

  const IDLE_SR := Sr(SrIdle, 0, NEVER_SENT, 0, false, SrStats(0, 0, 0))

  // ---- What each operation does ----

  function Started(s: Sr, cfg: SrConfig): Sr {
    if !cfg.enabled || s.state == SrPending then s else s.(counter := 0, state := SrPending)
  }

  function Interval(tti: nat, last: nat): int {
    if tti >= last then tti - last else TTI_SPAN - last + tti
  }

  predicate CanSend(s: Sr, cfg: SrConfig, tti: nat) {
    s.lastTx == NEVER_SENT || Interval(tti, s.lastTx) >= cfg.period
  }

  function Sent(s: Sr, cfg: SrConfig, tti: nat): Sr {
    s.(counter := s.counter + 1, lastTx := tti, prohibit := cfg.prohibitTimer, transmitted := true,
       stats := s.stats.(sent := s.stats.sent + 1))
  }

  /** A failed procedure is reset at once, ready for another. */
  function Failed(s: Sr): Sr {
    s.(state := SrIdle, counter := 0, stats := s.stats.(fail := s.stats.fail + 1))
  }

  function Stepped(s: Sr, cfg: SrConfig, tti: nat): Sr {
    if s.state != SrPending then s
    else
      var d := s.(prohibit := if s.prohibit > 0 then s.prohibit - 1 else 0);
      if !cfg.enabled then Failed(d)
      else if d.counter < cfg.dsrTransmax then
        if d.prohibit == 0 && (d.counter == 0 || CanSend(d, cfg, tti)) then Sent(d, cfg, tti) else d
      else if CanSend(d, cfg, tti) then Failed(d)
      else d
  }

  function Granted(s: Sr): Sr {
    if s.state != SrPending then s
    else
      s.(state := SrIdle, counter := 0, prohibit := 0,
         stats := if s.counter > 0 then s.stats.(success := s.stats.success + 1) else s.stats)
  }

  class SrManager {
    var state: SrState
    var srCounter: nat
    var cfg: SrConfig
    var lastSrTxTti: nat
    var srProhibitCounter: nat
    var srTransmittedFlag: bool
    var stats: SrStats

    function State(): Sr
      reads this
    {
      Sr(state, srCounter, lastSrTxTti, srProhibitCounter, srTransmittedFlag, stats)
    }

    constructor (cfg: SrConfig)
      ensures State() == IDLE_SR && this.cfg == cfg
    {
      this.cfg := cfg;
      state, srCounter, lastSrTxTti, srProhibitCounter := SrIdle, 0, NEVER_SENT, 0;
      srTransmittedFlag, stats := false, SrStats(0, 0, 0);
    }

    method Start()
      modifies this
      ensures State() == Started(old(State()), cfg) && cfg == old(cfg)
    {
      if !cfg.enabled {
        return;
      }
      if state == SrIdle || state == SrFailed {
        srCounter := 0;
        state := SrPending;
      }
    }

    method CanSendSr(tti: nat) returns (can: bool)
      ensures can == CanSend(State(), cfg, tti)
    {
      if lastSrTxTti == NEVER_SENT {
        return true;
      }
      var interval: int;
      if tti >= lastSrTxTti {
        interval := tti - lastSrTxTti;
      } else {
        interval := TTI_SPAN - lastSrTxTti + tti;
      }
      can := interval >= cfg.period;
    }

    method Step(tti: nat)
      modifies this
      ensures State() == Stepped(old(State()), cfg, tti) && cfg == old(cfg)
    {
      var doFail := false;
      if state != SrPending {
        return;
      }
      if srProhibitCounter > 0 {
        srProhibitCounter := srProhibitCounter - 1;
      }
      if cfg.enabled {
        var can := CanSendSr(tti);
        if srCounter < cfg.dsrTransmax {
          if srProhibitCounter == 0 && (srCounter == 0 || can) {
            srCounter := srCounter + 1;
            lastSrTxTti := tti;
            srProhibitCounter := cfg.prohibitTimer;
            srTransmittedFlag := true;
            stats := stats.(sent := stats.sent + 1);
          }
        } else if can {
          state := SrFailed;
          doFail := true;
          stats := stats.(fail := stats.fail + 1);
        }
      } else {
        state := SrFailed;
        doFail := true;
        stats := stats.(fail := stats.fail + 1);
      }
      if doFail {
        state := SrIdle;
        srCounter := 0;
      }
    }

    method NotifyUlGrantReceived()
      modifies this
      ensures State() == Granted(old(State())) && cfg == old(cfg)
    {
      if state == SrPending {
        if srCounter > 0 {
          stats := stats.(success := stats.success + 1);
        }
        state := SrIdle;
        srCounter := 0;
        srProhibitCounter := 0;
      }
    }

    method TakeSrTransmitted() returns (taken: bool)
      modifies this
      ensures taken == old(State()).transmitted && State() == old(State()).(transmitted := false) && cfg == old(cfg)
    {
      taken := srTransmittedFlag;
      srTransmittedFlag := false;
    }
  }

  // ---- Whole runs ----

  /** TTIs are handed over as they are, or modulo 10240 as on the air interface. */
  function Clock(wraps: bool, now: nat): nat {
    if wraps then now % TTI_SPAN else now
  }

  datatype Event = StartSr | StepTti | GrantReceived

  /** The manager with what an observer has seen: the time, the times of the current procedure's SRs, the procedures
      begun, and those that a grant ended before their first SR. */
  datatype Trace = Trace(s: Sr, now: nat, times: seq<nat>, begun: nat, early: nat)

  const BEGINNING := Trace(IDLE_SR, 0, [], 0, 0)

  function After(x: Trace, cfg: SrConfig, wraps: bool, e: Event): Trace {
    match e
    case StartSr =>
      var s := Started(x.s, cfg);
      if s.state == SrPending && x.s.state != SrPending then x.(s := s, times := [], begun := x.begun + 1)
      else x.(s := s)
    case StepTti =>
      var s := Stepped(x.s, cfg, Clock(wraps, x.now));
      x.(s := s, now := x.now + 1, times := if s.stats.sent > x.s.stats.sent then x.times + [x.now] else x.times)
    case GrantReceived =>
      x.(s := Granted(x.s), early := if x.s.state == SrPending && x.times == [] then x.early + 1 else x.early)
  }

  function AfterAll(x: Trace, cfg: SrConfig, wraps: bool, es: seq<Event>): Trace
    decreases |es|
  {
    if es == [] then x else After(AfterAll(x, cfg, wraps, es[..|es| - 1]), cfg, wraps, es[|es| - 1])
  }

  predicate Spaced(times: seq<nat>, gap: nat) {
    forall i :: 0 < i < |times| ==> times[i] >= times[i - 1] + gap
  }

  /** What is left at time `now` of a timer started in TTI `last`. */
  function Left(timer: nat, last: nat, now: nat): nat {
    if now > timer + last then 0 else timer + last + 1 - now
  }

  /** The TTIs since the last SR as the manager counts them: on the air interface modulo 10240. */
  function Elapsed(wraps: bool, last: nat, now: nat): nat
    requires last <= now
  {
    if wraps then (now - last) % TTI_SPAN else now - last
  }

  predicate TraceOk(x: Trace, cfg: SrConfig, wraps: bool) {
    && x.s.state != SrFailed
    && |x.times| <= cfg.dsrTransmax && (x.s.state == SrPending ==> x.s.counter == |x.times|)
    && Spaced(x.times, Max(cfg.period, cfg.prohibitTimer))
    && (x.times != [] ==>
          var last := x.times[|x.times| - 1];
          && last < x.now && x.s.lastTx == Clock(wraps, last)
          && (x.s.state == SrPending ==> x.s.prohibit == Left(cfg.prohibitTimer, last, x.now)))
    && x.s.stats.success + x.s.stats.fail + x.early + (if x.s.state == SrPending then 1 else 0) == x.begun
  }

  /** The manager counts the TTIs that have passed exactly, modulo 10240 across the wrap, and never too many. */
  lemma IntervalIsSafe(wraps: bool, last: nat, now: nat)
    requires last <= now
    ensures Interval(Clock(wraps, now), Clock(wraps, last)) == Elapsed(wraps, last, now) <= now - last
  {
    if wraps {
      var (a, b, m) := (now % TTI_SPAN, last % TTI_SPAN, now / TTI_SPAN - last / TTI_SPAN);
      assert now - last == a - b + TTI_SPAN * m;
      var r := if a >= b then a - b else TTI_SPAN - b + a;
      DivModUnique(now - last, TTI_SPAN, if a >= b then m else m - 1, r);
    }
  }

  lemma StepKeeps(x: Trace, cfg: SrConfig, wraps: bool)
    requires TraceOk(x, cfg, wraps) && (wraps || x.now < NEVER_SENT)
    ensures TraceOk(After(x, cfg, wraps, StepTti), cfg, wraps)
  {
    if x.times != [] {
      IntervalIsSafe(wraps, x.times[|x.times| - 1], x.now);
    }
  }

  /** In every run each procedure sends at most dsr-TransMax SRs, its SRs are at least max(period, prohibit timer)
      TTIs apart, and each procedure begun has succeeded, has failed, was ended by a grant before its first SR, or is
      still pending. */
  lemma {:induction false} SrBound(cfg: SrConfig, wraps: bool, es: seq<Event>)
    requires wraps || |es| < NEVER_SENT
    ensures var x := AfterAll(BEGINNING, cfg, wraps, es); TraceOk(x, cfg, wraps) && x.now <= |es|
    decreases |es|
  {
    if es != [] {
      var x := AfterAll(BEGINNING, cfg, wraps, es[..|es| - 1]);
      SrBound(cfg, wraps, es[..|es| - 1]);
      if es[|es| - 1].StepTti? { StepKeeps(x, cfg, wraps); }
    }
  }

  // ---- When an SR is sent ----

  /** The prohibit timer has run out when the step at time x.now looks at it. */
  predicate MaySend(x: Trace, cfg: SrConfig) {
    if x.times == [] then x.s.prohibit <= 1 else x.now >= x.times[|x.times| - 1] + cfg.prohibitTimer
  }

  /** At least the SR period has passed since the procedure's last SR; before the first it need not. */
  predicate PeriodPassed(x: Trace, cfg: SrConfig, wraps: bool) {
    x.times != [] ==> x.times[|x.times| - 1] <= x.now && Elapsed(wraps, x.times[|x.times| - 1], x.now) >= cfg.period
  }

  /** What a pending procedure does in a TTI: it sends an SR if and only if the prohibit timer has run out, the
      period has passed and fewer than dsr-TransMax were sent, and it fails if and only if all of them were sent and
      the period has passed (or SR has been switched off). In all other TTIs it waits. */
  lemma StepDecides(x: Trace, cfg: SrConfig, wraps: bool)
    requires TraceOk(x, cfg, wraps) && x.s.state == SrPending && (wraps || x.now < NEVER_SENT) && cfg.dsrTransmax >= 1
    ensures var (y, sends) := (After(x, cfg, wraps, StepTti), cfg.enabled && |x.times| < cfg.dsrTransmax
                                && MaySend(x, cfg) && PeriodPassed(x, cfg, wraps));
            && y.now == x.now + 1 && y.begun == x.begun && y.early == x.early
            && y.times == (if sends then x.times + [x.now] else x.times)
            && y.s.transmitted == (sends || x.s.transmitted)
            && y.s.stats.sent == x.s.stats.sent + (if sends then 1 else 0)
    ensures var (y, fails) := (After(x, cfg, wraps, StepTti), !cfg.enabled
                                || (|x.times| == cfg.dsrTransmax && PeriodPassed(x, cfg, wraps)));
            && y.s.state == (if fails then SrIdle else SrPending)
            && y.s.stats.fail == x.s.stats.fail + (if fails then 1 else 0)
            && y.s.stats.success == x.s.stats.success
            && (!fails && y.times == [] ==> y.s.prohibit == Max(x.s.prohibit, 1) - 1)
  {
    if x.times != [] {
      IntervalIsSafe(wraps, x.times[|x.times| - 1], x.now);
    }
  }

  // ---- A procedure that gets no grant ----

  function Steps(x: Trace, cfg: SrConfig, wraps: bool, k: nat): Trace
    decreases k
  {
    if k == 0 then x else Steps(After(x, cfg, wraps, StepTti), cfg, wraps, k - 1)
  }

  lemma {:induction false} StepsAdd(x: Trace, cfg: SrConfig, wraps: bool, a: nat, b: nat)
    ensures Steps(Steps(x, cfg, wraps, a), cfg, wraps, b) == Steps(x, cfg, wraps, a + b)
    decreases a
  {
    if a > 0 { StepsAdd(After(x, cfg, wraps, StepTti), cfg, wraps, a - 1, b); }
  }

  /** A pending procedure of a configured UE whose timers fit the clock. */
  predicate Running(x: Trace, cfg: SrConfig, wraps: bool) {
    && TraceOk(x, cfg, wraps) && x.s.state == SrPending && cfg.enabled && cfg.dsrTransmax >= 1
    && (if wraps then Max(cfg.period, cfg.prohibitTimer) < TTI_SPAN else true)
  }

  predicate Fits(wraps: bool, now: nat) {
    wraps || now < NEVER_SENT
  }

  /** TTIs between two SRs of a procedure, and from its last SR to its failure. */
  function Gap(cfg: SrConfig): nat {
    Max(1, Max(cfg.period, cfg.prohibitTimer))
  }

  lemma {:induction false} WaitsForFirst(x: Trace, cfg: SrConfig, wraps: bool, k: nat)
    requires Running(x, cfg, wraps) && x.times == [] && k < Max(1, x.s.prohibit) && Fits(wraps, x.now + k)
    ensures var y := Steps(x, cfg, wraps, k);
            && Running(y, cfg, wraps) && y.times == [] && y.now == x.now + k && y.s.stats == x.s.stats
            && y.begun == x.begun && y.s.prohibit == x.s.prohibit - (if x.s.prohibit == 0 then 0 else k)
    decreases k
  {
    if k > 0 {
      StepDecides(x, cfg, wraps);
      StepKeeps(x, cfg, wraps);
      WaitsForFirst(After(x, cfg, wraps, StepTti), cfg, wraps, k - 1);
    }
  }

  /** How long the procedure waits after its last SR: for the next one, or to fail. */
  function Delay(x: Trace, cfg: SrConfig): nat {
    if |x.times| < cfg.dsrTransmax then Gap(cfg) else Max(1, cfg.period)
  }

  lemma StaysQuiet(x: Trace, cfg: SrConfig, wraps: bool)
    requires Running(x, cfg, wraps) && x.times != [] && Fits(wraps, x.now)
    requires x.now < x.times[|x.times| - 1] + Delay(x, cfg)
    ensures var y := After(x, cfg, wraps, StepTti);
            Running(y, cfg, wraps) && y.times == x.times && y.now == x.now + 1 && y.s.stats == x.s.stats
              && y.begun == x.begun
  {
    StepDecides(x, cfg, wraps);
    StepKeeps(x, cfg, wraps);
  }

  lemma {:induction false} WaitsForNext(x: Trace, cfg: SrConfig, wraps: bool, k: nat)
    requires Running(x, cfg, wraps) && x.times != [] && Fits(wraps, x.now + k)
    requires x.now + k <= x.times[|x.times| - 1] + Delay(x, cfg)
    ensures var y := Steps(x, cfg, wraps, k);
            && Running(y, cfg, wraps) && y.times == x.times && y.now == x.now + k && y.s.stats == x.s.stats
            && y.begun == x.begun
    decreases k
  {
    if k > 0 {
      StaysQuiet(x, cfg, wraps);
      WaitsForNext(After(x, cfg, wraps, StepTti), cfg, wraps, k - 1);
    }
  }

  /** The SRs from number `from` on follow each other at the gap. */
  predicate Evenly(times: seq<nat>, from: nat, gap: nat) {
    forall i :: 0 < i < |times| && from <= i ==> times[i] == times[i - 1] + gap
  }

  /** Procedure x has ended in y as a failure, after all its SRs. */
  predicate FailedIn(x: Trace, y: Trace, cfg: SrConfig) {
    && y.s.state == SrIdle && |y.times| == cfg.dsrTransmax >= 1 && x.times <= y.times
    && y.s.stats.sent == x.s.stats.sent + (cfg.dsrTransmax - |x.times|)
    && y.s.stats.fail == x.s.stats.fail + 1 && y.s.stats.success == x.s.stats.success && y.begun == x.begun
    && y.now == y.times[|y.times| - 1] + Max(1, cfg.period) + 1
  }

  lemma LastStep(x: Trace, cfg: SrConfig, wraps: bool, wait: nat, k: nat)
    requires k == wait + 1
    ensures Steps(x, cfg, wraps, k) == After(Steps(x, cfg, wraps, wait), cfg, wraps, StepTti)
  {
    StepsAdd(x, cfg, wraps, wait, 1);
    assert Steps(Steps(x, cfg, wraps, wait), cfg, wraps, 1) == After(Steps(x, cfg, wraps, wait), cfg, wraps, StepTti);
  }

  /** The procedure has just sent an SR. */
  predicate JustSent(x: Trace, cfg: SrConfig, wraps: bool) {
    Running(x, cfg, wraps) && x.times != [] && x.now == x.times[|x.times| - 1] + 1
  }

  lemma SendsNow(x: Trace, y: Trace, cfg: SrConfig, wraps: bool)
    requires Running(y, cfg, wraps) && y.times == x.times != [] && |y.times| < cfg.dsrTransmax && Fits(wraps, y.now)
    requires y.now == y.times[|y.times| - 1] + Gap(cfg) && y.s.stats == x.s.stats && y.begun == x.begun
    ensures OneMore(x, After(y, cfg, wraps, StepTti), cfg, wraps)
  {
    StepDecides(y, cfg, wraps);
    StepKeeps(y, cfg, wraps);
  }

  /** Of the procedure in x, z has just sent the next SR at the gap. */
  predicate OneMore(x: Trace, z: Trace, cfg: SrConfig, wraps: bool) {
    && JustSent(z, cfg, wraps) && x.times != [] && z.times == x.times + [x.times[|x.times| - 1] + Gap(cfg)]
    && z.begun == x.begun && z.s.stats == x.s.stats.(sent := x.s.stats.sent + 1)
  }

  lemma NextIsSent(x: Trace, cfg: SrConfig, wraps: bool, gap: nat)
    requires JustSent(x, cfg, wraps) && |x.times| < cfg.dsrTransmax && gap == Gap(cfg) && Fits(wraps, x.now + gap)
    ensures OneMore(x, Steps(x, cfg, wraps, gap), cfg, wraps)
  {
    WaitsForNext(x, cfg, wraps, gap - 1);
    SendsNow(x, Steps(x, cfg, wraps, gap - 1), cfg, wraps);
    LastStep(x, cfg, wraps, gap - 1, gap);
  }

  lemma FailsNow(x: Trace, y: Trace, cfg: SrConfig, wraps: bool)
    requires Running(y, cfg, wraps) && |y.times| == cfg.dsrTransmax && y.times == x.times && Fits(wraps, y.now)
    requires y.now == y.times[|y.times| - 1] + Max(1, cfg.period) && y.s.stats == x.s.stats && y.begun == x.begun
    ensures FailedIn(x, After(y, cfg, wraps, StepTti), cfg) && After(y, cfg, wraps, StepTti).times == x.times
  {
    StepDecides(y, cfg, wraps);
  }

  lemma AllSentFails(x: Trace, cfg: SrConfig, wraps: bool, k: nat)
    requires JustSent(x, cfg, wraps) && |x.times| == cfg.dsrTransmax && Fits(wraps, x.now + k)
      && k == Max(1, cfg.period)
    ensures FailedIn(x, Steps(x, cfg, wraps, k), cfg) && Steps(x, cfg, wraps, k).times == x.times
  {
    WaitsForNext(x, cfg, wraps, k - 1);
    FailsNow(x, Steps(x, cfg, wraps, k - 1), cfg, wraps);
    LastStep(x, cfg, wraps, k - 1, k);
  }

  lemma FailedThrough(x: Trace, z: Trace, y: Trace, cfg: SrConfig, wraps: bool)
    requires OneMore(x, z, cfg, wraps) && FailedIn(z, y, cfg) && Evenly(y.times, |z.times|, Gap(cfg))
    ensures FailedIn(x, y, cfg) && Evenly(y.times, |x.times|, Gap(cfg))
  {
    forall i | 0 < i < |y.times| && |x.times| <= i ensures y.times[i] == y.times[i - 1] + Gap(cfg) {
      if i == |x.times| { assert y.times[i] == z.times[i] && y.times[i - 1] == z.times[i - 1]; }
    }
  }

  /** TTIs until a procedure with `more` SRs to send has failed. */
  function Span(more: nat, gap: nat): nat {
    if more == 0 then gap else gap + Span(more - 1, gap)
  }

  lemma {:induction false} SpanIs(more: nat, gap: nat)
    ensures Span(more, gap) == (more + 1) * gap
  {
    if more > 0 { SpanIs(more - 1, gap); }
  }

  lemma {:induction false} RestIsSent(x: Trace, cfg: SrConfig, wraps: bool, end: nat) returns (k: nat)
    requires JustSent(x, cfg, wraps) && Fits(wraps, end)
    requires x.now + Span(cfg.dsrTransmax - |x.times|, Gap(cfg)) <= end
    ensures var y := Steps(x, cfg, wraps, k); FailedIn(x, y, cfg) && Evenly(y.times, |x.times|, Gap(cfg))
    decreases cfg.dsrTransmax - |x.times|
  {
    if |x.times| < cfg.dsrTransmax {
      var gap := Gap(cfg);
      NextIsSent(x, cfg, wraps, gap);
      var z := Steps(x, cfg, wraps, gap);
      var rest := RestIsSent(z, cfg, wraps, end);
      StepsAdd(x, cfg, wraps, gap, rest);
      FailedThrough(x, z, Steps(z, cfg, wraps, rest), cfg, wraps);
      k := gap + rest;
    } else {
      k := Max(1, cfg.period);
      AllSentFails(x, cfg, wraps, k);
    }
  }

  lemma FirstIsSent(x: Trace, cfg: SrConfig, wraps: bool, k: nat)
    requires Running(x, cfg, wraps) && x.times == [] && k == Max(1, x.s.prohibit) && Fits(wraps, x.now + k)
    ensures var y := Steps(x, cfg, wraps, k);
            && JustSent(y, cfg, wraps) && y.times == [x.now + k - 1] && y.begun == x.begun
            && y.s.stats == x.s.stats.(sent := x.s.stats.sent + 1)
  {
    WaitsForFirst(x, cfg, wraps, k - 1);
    var y := Steps(x, cfg, wraps, k - 1);
    StepDecides(y, cfg, wraps);
    StepKeeps(y, cfg, wraps);
    LastStep(x, cfg, wraps, k - 1, k);
  }

  /** A procedure that gets no grant sends its first SR in the first TTI whose prohibit timer has run out, then one
      every max(period, prohibit timer) TTIs, exactly dsr-TransMax in all, and fails one period after the last of
      them. */
  lemma WithoutGrant(x: Trace, cfg: SrConfig, wraps: bool) returns (k: nat)
    requires Running(x, cfg, wraps) && x.times == []
    requires Fits(wraps, x.now + Max(1, x.s.prohibit) + cfg.dsrTransmax * Gap(cfg))
    ensures var y := Steps(x, cfg, wraps, k);
            && FailedIn(x, y, cfg) && y.times[0] == x.now + Max(1, x.s.prohibit) - 1 && Evenly(y.times, 0, Gap(cfg))
  {
    var first := Max(1, x.s.prohibit);
    FirstIsSent(x, cfg, wraps, first);
    var z := Steps(x, cfg, wraps, first);
    SpanIs(cfg.dsrTransmax - 1, Gap(cfg));
    var rest := RestIsSent(z, cfg, wraps, x.now + first + cfg.dsrTransmax * Gap(cfg));
    StepsAdd(x, cfg, wraps, first, rest);
    k := first + rest;
  }

  /** With a period of 10240 TTIs or more, the wrapping clock never shows that it has passed: a procedure sends its
      first SR and then neither sends nor fails. */
  lemma {:induction false} PeriodTooLong(x: Trace, cfg: SrConfig, k: nat)
    requires TraceOk(x, cfg, true) && x.s.state == SrPending && cfg.enabled && cfg.dsrTransmax >= 1
    requires x.times != [] && cfg.period >= TTI_SPAN
    ensures var y := Steps(x, cfg, true, k); y.times == x.times && y.s.state == SrPending && y.s.stats == x.s.stats
    decreases k
  {
    if k > 0 {
      StepDecides(x, cfg, true);
      StepKeeps(x, cfg, true);
      PeriodTooLong(After(x, cfg, true, StepTti), cfg, k - 1);
    }
  }

  /** A procedure begins exactly when a UE with SR configured asks for one and none is pending. */
  lemma BeginsWhenAsked(x: Trace, cfg: SrConfig, wraps: bool)
    requires TraceOk(x, cfg, wraps)
    ensures var y := After(x, cfg, wraps, StartSr);
            if cfg.enabled && x.s.state == SrIdle then y.s.state == SrPending && y.times == [] && y.begun == x.begun + 1
            else y == x
  {
  }
}
