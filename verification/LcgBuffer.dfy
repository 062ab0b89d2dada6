/** UE logical channel buffers and logical channel prioritisation with token buckets (lcg_buffer.h). All token
    amounts in the source are whole numbers, so they are naturals here. */
module LcgBuffer {
  import opened CommonTypes

  datatype Channel = Channel(lcg: nat, lcid: nat, priority: nat, pbr: nat, bsd: nat, oldBuffer: nat, newBuffer: nat,
                             tokens: nat)

  /** Channels in the order the source visits them: by LCG, then by LCID. */
  predicate InOrder(chs: seq<Channel>) {
    && (forall i :: 0 <= i < |chs| ==> chs[i].lcg < NOF_LCGS)
    && (forall i, j :: 0 <= i < j < |chs| ==> Before(chs[i], chs[j].lcg, chs[j].lcid))
  }

  predicate Before(a: Channel, lcg: nat, lcid: nat) {
    a.lcg < lcg || (a.lcg == lcg && a.lcid < lcid)
  }

  /** Tokens never exceed the bucket, which holds pbr * bsd bytes. */
  predicate Bucketed(chs: seq<Channel>) {
    forall i :: 0 <= i < |chs| ==> chs[i].tokens <= chs[i].pbr * chs[i].bsd
  }

  /** Where a channel belongs among the others. */
  function Place(chs: seq<Channel>, lcg: nat, lcid: nat): (i: nat)
    ensures i <= |chs| && (i < |chs| ==> !Before(chs[i], lcg, lcid))
      && forall j :: 0 <= j < i ==> Before(chs[j], lcg, lcid)
  {
    if chs == [] || !Before(chs[0], lcg, lcid) then 0 else 1 + Place(chs[1..], lcg, lcid)
  }

  function Configured(chs: seq<Channel>, c: Channel): seq<Channel> {
    var i := Place(chs, c.lcg, c.lcid);
    var same := i < |chs| && chs[i].lcg == c.lcg && chs[i].lcid == c.lcid;
    chs[..i] + [c] + chs[if same then i + 1 else i..]
  }

  lemma PlacedBefore(chs: seq<Channel>, c: Channel, k: nat)
    requires InOrder(chs) && Place(chs, c.lcg, c.lcid) <= k < |chs| && (chs[k].lcg, chs[k].lcid) != (c.lcg, c.lcid)
    ensures Before(c, chs[k].lcg, chs[k].lcid)
  {
    var i := Place(chs, c.lcg, c.lcid);
    if i < k { assert Before(chs[i], chs[k].lcg, chs[k].lcid); }
  }

  lemma ConfiguredKeepsOrder(chs: seq<Channel>, c: Channel)
    requires InOrder(chs) && Bucketed(chs) && c.lcg < NOF_LCGS && c.tokens == 0
    ensures InOrder(Configured(chs, c)) && Bucketed(Configured(chs, c))
  {
    var i := Place(chs, c.lcg, c.lcid);
    var same := i < |chs| && chs[i].lcg == c.lcg && chs[i].lcid == c.lcid;
    var (front, back) := (chs[..i], chs[if same then i + 1 else i..]);
    forall k | 0 <= k < |back| ensures Before(c, back[k].lcg, back[k].lcid) {
      var j := if same then i + 1 + k else i + k;
      if same { assert Before(chs[i], chs[j].lcg, chs[j].lcid); } else { NotSame(chs, c, j); PlacedBefore(chs, c, j); }
    }
    JoinedInOrder(front, c, back);
  }

  lemma NotSame(chs: seq<Channel>, c: Channel, k: nat)
    requires InOrder(chs)
    requires var i := Place(chs, c.lcg, c.lcid); i <= k < |chs| && (chs[i].lcg, chs[i].lcid) != (c.lcg, c.lcid)
    ensures (chs[k].lcg, chs[k].lcid) != (c.lcg, c.lcid)
  {
    var i := Place(chs, c.lcg, c.lcid);
    if i < k { assert Before(chs[i], chs[k].lcg, chs[k].lcid); }
  }

  lemma JoinedInOrder(front: seq<Channel>, c: Channel, back: seq<Channel>)
    requires InOrder(front) && InOrder(back) && Bucketed(front) && Bucketed(back) && c.lcg < NOF_LCGS && c.tokens == 0
    requires forall k :: 0 <= k < |front| ==> Before(front[k], c.lcg, c.lcid)
    requires forall k :: 0 <= k < |back| ==> Before(c, back[k].lcg, back[k].lcid)
    ensures InOrder(front + [c] + back) && Bucketed(front + [c] + back)
  {
    forall j, k | 0 <= j < |front| && 0 <= k < |back| ensures Before(front[j], back[k].lcg, back[k].lcid) {
      assert Before(front[j], c.lcg, c.lcid) && Before(c, back[k].lcg, back[k].lcid);
    }
  }

  function Total(chs: seq<Channel>): nat {
    if chs == [] then 0 else Total(chs[..|chs| - 1]) + chs[|chs| - 1].newBuffer
  }

  // ---- Arrivals, snapshots and refills ----

  /** The first channel with an LCID, or the number of channels. */
  function Find(chs: seq<Channel>, lcid: nat): (i: nat)
    ensures i <= |chs| && (i < |chs| ==> chs[i].lcid == lcid) && forall j :: 0 <= j < i ==> chs[j].lcid != lcid
  {
    if chs == [] || chs[0].lcid == lcid then 0 else 1 + Find(chs[1..], lcid)
  }

  function Arrived(chs: seq<Channel>, lcid: nat, bytes: nat): (r: seq<Channel>)
    ensures |r| == |chs|
  {
    var i := Find(chs, lcid);
    if i == |chs| then chs else chs[i := chs[i].(newBuffer := chs[i].newBuffer + bytes)]
  }

  function Snapshot(chs: seq<Channel>): (r: seq<Channel>)
    ensures |r| == |chs|
  {
    seq(|chs|, i requires 0 <= i < |chs| => chs[i].(oldBuffer := chs[i].newBuffer))
  }

  function RefillOne(ch: Channel, ms: nat): Channel {
    if ch.pbr == 0 then ch else ch.(tokens := Min(ch.tokens + ch.pbr * ms, ch.pbr * ch.bsd))
  }

  function Refilled(chs: seq<Channel>, ms: nat): (r: seq<Channel>)
    ensures |r| == |chs| && forall i :: 0 <= i < |chs| ==> r[i] == RefillOne(chs[i], ms)
  {
    seq(|chs|, i requires 0 <= i < |chs| => RefillOne(chs[i], ms))
  }

  /** The first channel of the best (numerically least) priority. */
  function Best(chs: seq<Channel>): (i: nat)
    requires chs != []
    ensures i < |chs| && forall j :: 0 <= j < |chs| ==> chs[i].priority <= chs[j].priority
  {
    if |chs| == 1 then 0
    else
      var i := Best(chs[..|chs| - 1]);
      if chs[|chs| - 1].priority < chs[i].priority then |chs| - 1 else i
  }

  function Restored(chs: seq<Channel>, bytes: nat): (r: seq<Channel>)
    ensures |r| == |chs|
  {
    if chs == [] then chs else chs[Best(chs) := chs[Best(chs)].(newBuffer := chs[Best(chs)].newBuffer + bytes)]
  }

  // ---- Prioritisation ----

  /** The channels with data, best priority first; the sort may leave equal priorities in any order. */
  predicate IsServiceOrder(order: seq<nat>, chs: seq<Channel>) {
    && (forall k :: 0 <= k < |order| ==> order[k] < |chs| && chs[order[k]].newBuffer > 0)
    && (forall j, k :: 0 <= j < k < |order| ==>
        order[j] != order[k] && chs[order[j]].priority <= chs[order[k]].priority)
    && (forall i :: 0 <= i < |chs| && chs[i].newBuffer > 0 ==> i in order)
  }

  predicate Indexes(order: seq<nat>, chs: seq<Channel>) {
    && (forall k :: 0 <= k < |order| ==> order[k] < |chs|)
    && (forall j, k :: 0 <= j < k < |order| ==> order[j] != order[k])
  }

  function Take(ch: Channel, n: nat): Channel
    requires n <= ch.newBuffer
  {
    ch.(newBuffer := ch.newBuffer - n)
  }

  function TakeWithTokens(ch: Channel, n: nat): Channel
    requires n <= ch.newBuffer && n <= ch.tokens
  {
    ch.(newBuffer := ch.newBuffer - n, tokens := ch.tokens - n)
  }

  function Least(a: nat, b: nat, c: nat): nat {
    if a <= b && a <= c then a else if b <= c then b else c
  }

  /** Bytes a channel gets in the first phase: no more than its tokens. */
  function Guaranteed(ch: Channel, remaining: nat): nat {
    if ch.pbr == 0 then 0 else Least(ch.tokens, ch.newBuffer, remaining)
  }

  function FirstPhase(chs: seq<Channel>, order: seq<nat>, remaining: nat): (r: (seq<Channel>, nat))
    requires Indexes(order, chs)
    ensures |r.0| == |chs| && r.1 <= remaining
    decreases |order|
  {
    if order == [] then (chs, remaining)
    else
      var i := order[0];
      var n := Guaranteed(chs[i], remaining);
      FirstPhase(chs[i := TakeWithTokens(chs[i], n)], order[1..], remaining - n)
  }

  function SecondPhase(chs: seq<Channel>, order: seq<nat>, remaining: nat): (r: (seq<Channel>, nat))
    requires Indexes(order, chs)
    ensures |r.0| == |chs| && r.1 <= remaining
    decreases |order|
  {
    if order == [] then (chs, remaining)
    else
      var i := order[0];
      var n := if remaining < chs[i].newBuffer then remaining else chs[i].newBuffer;
      SecondPhase(chs[i := Take(chs[i], n)], order[1..], remaining - n)
  }

  function Consumed(chs: seq<Channel>, order: seq<nat>, bytes: nat): (r: seq<Channel>)
    requires Indexes(order, chs)
    ensures |r| == |chs|
  {
    var (first, remaining) := FirstPhase(chs, order, bytes);
    SecondPhase(first, order, remaining).0
  }

  // ---- The manager ----

  class LcgBufferManager {
    var channels: seq<Channel>

    predicate Valid()
      reads this
    {
      InOrder(channels) && Bucketed(channels)
    }

    constructor ()
      ensures Valid() && channels == []
    {
      channels := [];
    }

    /** Adds a channel, or configures an existing one anew; a channel of no LCG is ignored. */
    method SetupLcid(lcid: nat, lcg: nat, priority: nat, pbr: nat, bsd: nat)
      requires Valid()
      modifies this
      ensures Valid()
      ensures channels == if lcg >= NOF_LCGS then old(channels)
          else Configured(old(channels), Channel(lcg, lcid, priority, pbr, bsd, 0, 0, 0))
    {
      if lcg >= NOF_LCGS {
        return;
      }
      var c := Channel(lcg, lcid, priority, pbr, bsd, 0, 0, 0);
      var i := 0;
      while i < |channels| && Before(channels[i], lcg, lcid)
        invariant i <= Place(channels, lcg, lcid)
      {
        i := i + 1;
      }
      var same := i < |channels| && channels[i].lcg == lcg && channels[i].lcid == lcid;
      ConfiguredKeepsOrder(channels, c);
      channels := channels[..i] + [c] + channels[if same then i + 1 else i..];
    }

    method StepTokenBuckets(ms: nat)
      modifies this
      ensures channels == Refilled(old(channels), ms)
    {
      var i := 0;
      while i < |channels|
        invariant i <= |channels| == |old(channels)|
        invariant forall j :: 0 <= j < |channels| ==>
            channels[j] == if j < i then RefillOne(old(channels)[j], ms) else old(channels)[j]
      {
        if channels[i].pbr != 0 {
          var tokens := channels[i].tokens + channels[i].pbr * ms;
          var size := channels[i].pbr * channels[i].bsd;
          channels := channels[i := channels[i].(tokens := if tokens > size then size else tokens)];
        }
        i := i + 1;
      }
    }

    method UpdateBufferState(lcid: nat, bytes: nat)
      modifies this
      ensures channels == Arrived(old(channels), lcid, bytes)
    {
      var i := 0;
      while i < |channels|
        invariant i <= |channels| && channels == old(channels)
        invariant forall j :: 0 <= j < i ==> channels[j].lcid != lcid
      {
        if channels[i].lcid == lcid {
          channels := channels[i := channels[i].(newBuffer := channels[i].newBuffer + bytes)];
          return;
        }
        i := i + 1;
      }
    }

    method UpdateOldBuffer()
      modifies this
      ensures channels == Snapshot(old(channels))
    {
      var i := 0;
      while i < |channels|
        invariant i <= |channels| == |old(channels)|
        invariant forall j :: 0 <= j < |channels| ==>
                    channels[j] == if j < i then old(channels)[j].(oldBuffer := old(channels)[j].newBuffer)
                      else old(channels)[j]
      {
        channels := channels[i := channels[i].(oldBuffer := channels[i].newBuffer)];
        i := i + 1;
      }
    }

    /** The first pass: each channel up to its tokens. */
    method TakeGuaranteed(bytes: nat, order: seq<nat>) returns (remaining: nat)
      requires Indexes(order, channels)
      modifies this
      ensures (channels, remaining) == FirstPhase(old(channels), order, bytes)
    {
      remaining := bytes;
      var k := 0;
      ghost var rest := order;
      while k < |order| && remaining > 0
        invariant k <= |order| && rest == order[k..] && |channels| == |old(channels)|
        invariant FirstPhase(old(channels), order, bytes) == FirstPhase(channels, rest, remaining)
      {
        var ch := channels[order[k]];
        if ch.pbr != 0 {
          var taken := Guaranteed(ch, remaining);
          channels := channels[order[k] := TakeWithTokens(ch, taken)];
          remaining := remaining - taken;
        } else {
          assert channels[order[k] := TakeWithTokens(ch, 0)] == channels;
        }
        rest := rest[1..];
        k := k + 1;
      }
      NothingLeftFirst(channels, rest, remaining);
    }

    /** The second pass: what remains goes to the channels in order, until it is used up. */
    method TakeGreedily(bytes: nat, order: seq<nat>) returns (remaining: nat)
      requires Indexes(order, channels)
      modifies this
      ensures (channels, remaining) == SecondPhase(old(channels), order, bytes)
    {
      remaining := bytes;
      var k := 0;
      ghost var rest := order;
      while k < |order| && remaining > 0
        invariant k <= |order| && rest == order[k..] && |channels| == |old(channels)|
        invariant SecondPhase(old(channels), order, bytes) == SecondPhase(channels, rest, remaining)
      {
        var ch := channels[order[k]];
        if ch.newBuffer != 0 {
          var taken := if remaining < ch.newBuffer then remaining else ch.newBuffer;
          channels := channels[order[k] := Take(ch, taken)];
          remaining := remaining - taken;
        } else {
          assert channels[order[k] := Take(ch, 0)] == channels;
        }
        rest := rest[1..];
        k := k + 1;
      }
      NothingLeftSecond(channels, rest, remaining);
    }

    /** Takes `bytes` from the buffers in two passes over the channels with data, in the order the sort produced. */
    method ConsumeData(bytes: nat, order: seq<nat>)
      requires IsServiceOrder(order, channels)
      modifies this
      ensures channels == Consumed(old(channels), order, bytes)
    {
      var remaining := TakeGuaranteed(bytes, order);
      remaining := TakeGreedily(remaining, order);
    }

    method RestoreData(bytes: nat)
      modifies this
      ensures channels == if bytes == 0 then old(channels) else Restored(old(channels), bytes)
    {
      if bytes == 0 || |channels| == 0 {
        return;
      }
      var best, i := 0, 1;
      while i < |channels|
        invariant best < i <= |channels|
        invariant best == Best(channels[..i])
      {
        assert channels[..i + 1][..i] == channels[..i];
        if channels[i].priority < channels[best].priority {
          best := i;
        }
        i := i + 1;
      }
      assert channels[..i] == channels;
      channels := channels[best := channels[best].(newBuffer := channels[best].newBuffer + bytes)];
    }
  }

  lemma {:induction false} NothingLeftFirst(chs: seq<Channel>, order: seq<nat>, remaining: nat)
    requires Indexes(order, chs) && (remaining == 0 || order == [])
    ensures FirstPhase(chs, order, remaining) == (chs, remaining)
    decreases |order|
  {
    if order != [] {
      assert chs[order[0] := TakeWithTokens(chs[order[0]], 0)] == chs;
      NothingLeftFirst(chs, order[1..], remaining);
    }
  }

  lemma {:induction false} NothingLeftSecond(chs: seq<Channel>, order: seq<nat>, remaining: nat)
    requires Indexes(order, chs) && (remaining == 0 || order == [])
    ensures SecondPhase(chs, order, remaining) == (chs, remaining)
    decreases |order|
  {
    if order != [] {
      assert chs[order[0] := Take(chs[order[0]], 0)] == chs;
      NothingLeftSecond(chs, order[1..], remaining);
    }
  }

  // ---- What a grant takes ----

  lemma {:induction false} TotalUpdate(chs: seq<Channel>, i: nat, ch: Channel)
    requires i < |chs|
    ensures Total(chs[i := ch]) == Total(chs) - chs[i].newBuffer + ch.newBuffer
    decreases |chs|
  {
    var n := |chs| - 1;
    if i < n {
      TotalUpdate(chs[..n], i, ch);
      assert chs[i := ch][..n] == chs[..n][i := ch];
    } else {
      assert chs[i := ch][..n] == chs[..n];
    }
  }

  lemma {:induction false} NothingBuffered(chs: seq<Channel>)
    requires forall i :: 0 <= i < |chs| ==> chs[i].newBuffer == 0
    ensures Total(chs) == 0
    decreases |chs|
  {
    if chs != [] { NothingBuffered(chs[..|chs| - 1]); }
  }

  /** The first phase: what leaves the buffers is what leaves the grant and the token buckets; other channels are
      untouched. */
  lemma {:induction false} FirstPhaseTakes(chs: seq<Channel>, order: seq<nat>, remaining: nat, i: nat)
    requires Indexes(order, chs) && i < |chs|
    ensures var (r, left) := FirstPhase(chs, order, remaining);
            && Total(chs) - Total(r) == remaining - left
            && r[i].newBuffer <= chs[i].newBuffer && chs[i].tokens - r[i].tokens == chs[i].newBuffer - r[i].newBuffer
            && r[i] == chs[i].(newBuffer := r[i].newBuffer, tokens := r[i].tokens)
            && (i !in order ==> r[i] == chs[i])
    decreases |order|
  {
    if order != [] {
      var n := Guaranteed(chs[order[0]], remaining);
      var ch := TakeWithTokens(chs[order[0]], n);
      TotalUpdate(chs, order[0], ch);
      FirstPhaseTakes(chs[order[0] := ch], order[1..], remaining - n, i);
    }
  }

  /** The second phase leaves the tokens alone; it stops short of using up the grant only when it has emptied every
      channel. */
  lemma {:induction false} SecondPhaseTakes(chs: seq<Channel>, order: seq<nat>, remaining: nat, i: nat)
    requires Indexes(order, chs) && i < |chs|
    ensures var (r, left) := SecondPhase(chs, order, remaining);
            && Total(chs) - Total(r) == remaining - left
            && r[i].newBuffer <= chs[i].newBuffer && r[i] == chs[i].(newBuffer := r[i].newBuffer)
            && (i !in order ==> r[i] == chs[i])
            && (left > 0 && i in order ==> r[i].newBuffer == 0)
    decreases |order|
  {
    if order != [] {
      var n := Min(remaining, chs[order[0]].newBuffer);
      var ch := Take(chs[order[0]], n);
      TotalUpdate(chs, order[0], ch);
      SecondPhaseTakes(chs[order[0] := ch], order[1..], remaining - n, i);
    }
  }

  /** A grant of `bytes` removes exactly min(bytes, buffered), for every order the sort may produce. */
  lemma ConsumptionIsExact(chs: seq<Channel>, order: seq<nat>, bytes: nat)
    requires IsServiceOrder(order, chs)
    ensures Total(Consumed(chs, order, bytes)) == Total(chs) - Min(bytes, Total(chs))
  {
    var (first, remaining) := FirstPhase(chs, order, bytes);
    var (second, left) := SecondPhase(first, order, remaining);
    if chs != [] {
      FirstPhaseTakes(chs, order, bytes, 0);
      SecondPhaseTakes(first, order, remaining, 0);
    }
    if left > 0 {
      forall i | 0 <= i < |second| ensures second[i].newBuffer == 0 {
        FirstPhaseTakes(chs, order, bytes, i);
        SecondPhaseTakes(first, order, remaining, i);
      }
      NothingBuffered(second);
    }
  }

  /** Strict priority in the second phase: a channel gets bytes only once every channel ahead of it is empty. */
  lemma {:induction false} SecondPhaseIsStrict(chs: seq<Channel>, order: seq<nat>, remaining: nat, j: nat, k: nat)
    requires Indexes(order, chs) && j < k < |order|
    ensures var r := SecondPhase(chs, order, remaining).0;
            r[order[k]].newBuffer < chs[order[k]].newBuffer ==> r[order[j]].newBuffer == 0
    decreases |order|
  {
    var n := Min(remaining, chs[order[0]].newBuffer);
    var next := chs[order[0] := Take(chs[order[0]], n)];
    if j > 0 {
      SecondPhaseIsStrict(next, order[1..], remaining - n, j - 1, k - 1);
    } else {
      SecondPhaseTakes(next, order[1..], remaining - n, order[0]);
      SecondPhaseTakes(next, order[1..], remaining - n, order[k]);
      if remaining == n { NothingLeftSecond(next, order[1..], 0); }
    }
  }

  // ---- Token buckets over whole runs ----

  datatype Op = Arrive(lcid: nat, bytes: nat) | Snap | Refill(ms: nat) | Consume(bytes: nat,
        order: seq<nat>) | Restore(bytes: nat)

  function Applied(chs: seq<Channel>, op: Op): (r: seq<Channel>)
    ensures |r| == |chs|
  {
    match op
    case Arrive(lcid, bytes) => Arrived(chs, lcid, bytes)
    case Snap => Snapshot(chs)
    case Refill(ms) => Refilled(chs, ms)
    case Consume(bytes, order) => if Indexes(order, chs) then Consumed(chs, order, bytes) else chs
    case Restore(bytes) => Restored(chs, bytes)
  }

  function Run(chs: seq<Channel>, ops: seq<Op>): (r: seq<Channel>)
    ensures |r| == |chs|
    decreases |ops|
  {
    if ops == [] then chs else Run(Applied(chs, ops[0]), ops[1..])
  }

  /** Bytes channel i gets in the first phases of a run. */
  function FirstPhaseBytes(chs: seq<Channel>, ops: seq<Op>, i: nat): nat
    requires i < |chs|
    decreases |ops|
  {
    if ops == [] then 0
    else
      FirstPhaseBytes(Applied(chs, ops[0]), ops[1..], i) +
      if ops[0].Consume? && Indexes(ops[0].order, chs)
      then Max(0, chs[i].newBuffer - FirstPhase(chs, ops[0].order, ops[0].bytes).0[i].newBuffer) else 0
  }

  function Elapsed(ops: seq<Op>): nat {
    if ops == [] then 0 else (if ops[0].Refill? then ops[0].ms else 0) + Elapsed(ops[1..])
  }

  /** What one operation does to a channel's bucket. */
  lemma BucketStep(chs: seq<Channel>, op: Op, i: nat)
    requires i < |chs|
    ensures var r := Applied(chs, op)[i];
            && r.pbr == chs[i].pbr && r.bsd == chs[i].bsd
            && (chs[i].tokens <= chs[i].pbr * chs[i].bsd ==> r.tokens <= r.pbr * r.bsd)
            && (op.Refill? ==> r.tokens <= chs[i].tokens + chs[i].pbr * op.ms)
            && (op.Consume? && Indexes(op.order, chs) ==>
                  r.tokens == chs[i].tokens - (chs[i].newBuffer - FirstPhase(chs, op.order, op.bytes).0[i].newBuffer))
            && (!op.Refill? && !(op.Consume? && Indexes(op.order, chs)) ==> r.tokens == chs[i].tokens)
  {
    if op.Consume? && Indexes(op.order, chs) {
      FirstPhaseTakes(chs, op.order, op.bytes, i);
      var (first, left) := FirstPhase(chs, op.order, op.bytes);
      SecondPhaseTakes(first, op.order, left, i);
    }
  }

  lemma Distributes(a: nat, b: nat, c: nat)
    ensures a * (b + c) == a * b + a * c
  {
  }

  /** Over any run, a channel's first-phase bytes are at most its starting tokens plus its rate times the time
      refilled, and its bucket never overflows. */
  lemma {:induction false} GuaranteedRate(chs: seq<Channel>, ops: seq<Op>, i: nat)
    requires i < |chs| && chs[i].tokens <= chs[i].pbr * chs[i].bsd
    ensures FirstPhaseBytes(chs, ops, i) + Run(chs, ops)[i].tokens <= chs[i].tokens + chs[i].pbr * Elapsed(ops)
    ensures Run(chs, ops)[i].tokens <= chs[i].pbr * chs[i].bsd
    decreases |ops|
  {
    if ops != [] {
      BucketStep(chs, ops[0], i);
      GuaranteedRate(Applied(chs, ops[0]), ops[1..], i);
      Distributes(chs[i].pbr, if ops[0].Refill? then ops[0].ms else 0, Elapsed(ops[1..]));
      if ops[0].Consume? && Indexes(ops[0].order, chs) { FirstPhaseTakes(chs, ops[0].order, ops[0].bytes, i); }
    }
  }

  // ---- What changes the buffered total ----

  lemma ArrivalsAdd(chs: seq<Channel>, lcid: nat, bytes: nat)
    ensures Total(Arrived(chs, lcid, bytes)) == Total(chs) + (if Find(chs, lcid) < |chs| then bytes else 0)
  {
    var i := Find(chs, lcid);
    if i < |chs| { TotalUpdate(chs, i, chs[i].(newBuffer := chs[i].newBuffer + bytes)); }
  }

  /** A discard puts the whole TB size back, into the channel of the best priority. */
  lemma RestoringAdds(chs: seq<Channel>, bytes: nat)
    requires chs != []
    ensures Total(Restored(chs, bytes)) == Total(chs) + bytes
  {
    TotalUpdate(chs, Best(chs), chs[Best(chs)].(newBuffer := chs[Best(chs)].newBuffer + bytes));
  }

  lemma {:induction false} SameBuffers(a: seq<Channel>, b: seq<Channel>)
    requires |a| == |b| && forall i :: 0 <= i < |a| ==> a[i].newBuffer == b[i].newBuffer
    ensures Total(a) == Total(b)
    decreases |a|
  {
    if a != [] { SameBuffers(a[..|a| - 1], b[..|b| - 1]); }
  }
}
