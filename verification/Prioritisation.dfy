/** What each channel gets of a grant: its guaranteed share by tokens first, then the rest by strict priority; and
    what the other operations do to the one channel they concern. */
module Prioritisation {
  import opened CommonTypes
  import opened LcgBuffer

  // ---- The guaranteed first phase ----

  /** What a channel may claim before strict priority: min(tokens, buffered), for channels with a prioritised bit
      rate. */
  function Claim(ch: Channel): nat {
    if ch.pbr > 0 then Min(ch.tokens, ch.newBuffer) else 0
  }

  /** The claims of the first k channels of the order. */
  function Claims(chs: seq<Channel>, order: seq<nat>, k: nat): nat
    requires Indexes(order, chs) && k <= |order|
    decreases k
  {
    if k == 0 then 0 else Claims(chs, order, k - 1) + Claim(chs[order[k - 1]])
  }

  lemma {:induction false} ClaimsFromFirst(chs: seq<Channel>, order: seq<nat>, k: nat, ch: Channel)
    requires Indexes(order, chs) && 0 < k <= |order|
    ensures Indexes(order[1..], chs[order[0] := ch])
    ensures Claims(chs, order, k) == Claim(chs[order[0]]) + Claims(chs[order[0] := ch], order[1..], k - 1)
    decreases k
  {
    if k > 1 { ClaimsFromFirst(chs, order, k - 1, ch); }
  }

  /** What is left of a grant for a later channel is the same whether the first claim is taken off first or together
      with the others. */
  lemma ClaimTaken(bytes: nat, claim: nat, rest: nat)
    ensures Max(0, bytes - Min(claim, bytes) - rest) == Max(0, bytes - (claim + rest))
  {
  }

  lemma GuaranteedIsClaim(ch: Channel, bytes: nat)
    ensures Guaranteed(ch, bytes) == Min(Claim(ch), bytes)
  {
  }

  /** The first phase gives each channel exactly its claim, as far as the claims ahead of it leave anything, and
      takes the same from its tokens. */
  lemma {:induction false} FirstPhaseIs(chs: seq<Channel>, order: seq<nat>, bytes: nat, k: nat)
    requires Indexes(order, chs) && k < |order|
    ensures var n := Min(Claim(chs[order[k]]), Max(0, bytes - Claims(chs, order, k)));
            FirstPhase(chs, order, bytes).0[order[k]] == TakeWithTokens(chs[order[k]], n)
    decreases |order|
  {
    var n := Guaranteed(chs[order[0]], bytes);
    var ch := TakeWithTokens(chs[order[0]], n);
    GuaranteedIsClaim(chs[order[0]], bytes);
    if k == 0 {
      FirstPhaseTakes(chs[order[0] := ch], order[1..], bytes - n, order[0]);
    } else {
      ClaimsFromFirst(chs, order, k, ch);
      ClaimTaken(bytes, Claim(chs[order[0]]), Claims(chs[order[0] := ch], order[1..], k - 1));
      FirstPhaseIs(chs[order[0] := ch], order[1..], bytes - n, k - 1);
    }
  }

  lemma {:induction false} FirstPhaseLeaves(chs: seq<Channel>, order: seq<nat>, bytes: nat)
    requires Indexes(order, chs)
    ensures FirstPhase(chs, order, bytes).1 == Max(0, bytes - Claims(chs, order, |order|))
    decreases |order|
  {
    if order != [] {
      var n := Guaranteed(chs[order[0]], bytes);
      var ch := TakeWithTokens(chs[order[0]], n);
      ClaimsFromFirst(chs, order, |order|, ch);
      FirstPhaseLeaves(chs[order[0] := ch], order[1..], bytes - n);
    }
  }

  // ---- The second phase ----

  /** Bytes buffered by the first k channels of the order. */
  function Buffered(chs: seq<Channel>, order: seq<nat>, k: nat): nat
    requires Indexes(order, chs) && k <= |order|
    decreases k
  {
    if k == 0 then 0 else Buffered(chs, order, k - 1) + chs[order[k - 1]].newBuffer
  }

  lemma {:induction false} BufferedFromFirst(chs: seq<Channel>, order: seq<nat>, k: nat, ch: Channel)
    requires Indexes(order, chs) && 0 < k <= |order|
    ensures Indexes(order[1..], chs[order[0] := ch])
    ensures Buffered(chs, order, k) == chs[order[0]].newBuffer + Buffered(chs[order[0] := ch], order[1..], k - 1)
    decreases k
  {
    if k > 1 { BufferedFromFirst(chs, order, k - 1, ch); }
  }

  /** The second phase empties the channels in order, as far as the grant goes. */
  lemma {:induction false} SecondPhaseIs(chs: seq<Channel>, order: seq<nat>, bytes: nat, k: nat)
    requires Indexes(order, chs) && k < |order|
    ensures var n := Min(chs[order[k]].newBuffer, Max(0, bytes - Buffered(chs, order, k)));
            SecondPhase(chs, order, bytes).0[order[k]] == Take(chs[order[k]], n)
    decreases |order|
  {
    var n := Min(bytes, chs[order[0]].newBuffer);
    var ch := Take(chs[order[0]], n);
    if k == 0 {
      SecondPhaseTakes(chs[order[0] := ch], order[1..], bytes - n, order[0]);
    } else {
      BufferedFromFirst(chs, order, k, ch);
      SecondPhaseIs(chs[order[0] := ch], order[1..], bytes - n, k - 1);
    }
  }

  // ---- What a grant gives each channel ----

  /** The guarantee: of any grant, a channel with a prioritised bit rate gets at least min(tokens, buffered), or what
      the claims of the channels ahead of it leave. Its tokens fall by exactly this guaranteed amount, and nothing
      else touches them. */
  lemma GuaranteedShare(chs: seq<Channel>, order: seq<nat>, bytes: nat, k: nat)
    requires IsServiceOrder(order, chs) && k < |order|
    ensures var (c, r) := (chs[order[k]], Consumed(chs, order, bytes)[order[k]]);
            var n := if c.pbr == 0 then 0 else Min(Min(c.tokens, c.newBuffer), Max(0, bytes - Claims(chs, order, k)));
            c.newBuffer - r.newBuffer >= n && c.tokens - r.tokens == n
  {
    FirstPhaseIs(chs, order, bytes, k);
    var (first, left) := FirstPhase(chs, order, bytes);
    SecondPhaseTakes(first, order, left, order[k]);
  }

  lemma {:induction false} ClaimsGrow(chs: seq<Channel>, order: seq<nat>, k: nat, n: nat)
    requires Indexes(order, chs) && k < n <= |order|
    ensures Claims(chs, order, k) + Claim(chs[order[k]]) <= Claims(chs, order, n)
    decreases n
  {
    if k < n - 1 { ClaimsGrow(chs, order, k, n - 1); }
  }

  /** When the grant holds the claims of all channels, every channel with a prioritised bit rate gets at least
      min(tokens, buffered), however low its priority. */
  lemma NobodyStarves(chs: seq<Channel>, order: seq<nat>, bytes: nat, i: nat)
    requires IsServiceOrder(order, chs) && i < |chs| && chs[i].pbr > 0 && bytes >= Claims(chs, order, |order|)
    ensures Consumed(chs, order, bytes)[i].newBuffer + Min(chs[i].tokens, chs[i].newBuffer) <= chs[i].newBuffer
  {
    if chs[i].newBuffer > 0 {
      var k :| 0 <= k < |order| && order[k] == i;
      GuaranteedShare(chs, order, bytes, k);
      ClaimsGrow(chs, order, k, |order|);
    } else {
      var (first, left) := FirstPhase(chs, order, bytes);
      FirstPhaseTakes(chs, order, bytes, i);
      SecondPhaseTakes(first, order, left, i);
    }
  }

  /** Beyond the guarantees priority is strict: a channel gets more than its guaranteed bytes only when every channel
      ahead of it has been emptied. */
  lemma RestIsStrict(chs: seq<Channel>, order: seq<nat>, bytes: nat, j: nat, k: nat)
    requires IsServiceOrder(order, chs) && j < k < |order|
    ensures var (c, r) := (chs[order[k]], Consumed(chs, order, bytes));
            c.newBuffer - r[order[k]].newBuffer > c.tokens - r[order[k]].tokens ==> r[order[j]].newBuffer == 0
  {
    var (first, left) := FirstPhase(chs, order, bytes);
    FirstPhaseTakes(chs, order, bytes, order[k]);
    SecondPhaseTakes(first, order, left, order[k]);
    SecondPhaseIsStrict(first, order, left, j, k);
  }

  /** Two channels with a rate of 10 bytes per TTI, 1000 bytes and 10 tokens each, and a grant of 20: both get 10,
      although one has the better priority. Without tokens it would take all 20. */
  lemma TwoShareTheGrant()
    ensures var (a, b) := (Channel(0, 1, 1, 10, 100, 0, 1000, 0), Channel(1, 2, 2, 10, 100, 0, 1000, 0));
            var (early, late) := (Consumed([a, b], [0, 1], 20), Consumed(Refilled([a, b], 1), [0, 1], 20));
            && early[0].newBuffer == 980 && early[1].newBuffer == 1000
            && late[0].newBuffer == 990 && late[1].newBuffer == 990
  {
    var chs := [Channel(0, 1, 1, 10, 100, 0, 1000, 0), Channel(1, 2, 2, 10, 100, 0, 1000, 0)];
    var full := Refilled(chs, 1);
    TwoGet(chs, 20);
    TwoGet(full, 20);
  }

  lemma TwoGet(chs: seq<Channel>, bytes: nat)
    requires |chs| == 2 && bytes <= chs[0].newBuffer && Claim(chs[0]) + Claim(chs[1]) <= bytes
    ensures Consumed(chs, [0, 1], bytes)[1].newBuffer == chs[1].newBuffer - Claim(chs[1])
    ensures Consumed(chs, [0, 1], bytes)[0].newBuffer == chs[0].newBuffer - (bytes - Claim(chs[1]))
  {
    TwoFirst(chs, bytes);
    var (first, left) := FirstPhase(chs, [0, 1], bytes);
    TwoClaims(first);
    SecondPhaseIs(first, [0, 1], left, 0);
    SecondPhaseIs(first, [0, 1], left, 1);
  }

  lemma TwoFirst(chs: seq<Channel>, bytes: nat)
    requires |chs| == 2 && Claim(chs[0]) + Claim(chs[1]) <= bytes
    ensures var (first, left) := FirstPhase(chs, [0, 1], bytes);
            && first[0].newBuffer == chs[0].newBuffer - Claim(chs[0]) && left == bytes - Claim(chs[0]) - Claim(chs[1])
            && first[1].newBuffer == chs[1].newBuffer - Claim(chs[1])
  {
    TwoClaims(chs);
    FirstPhaseIs(chs, [0, 1], bytes, 0);
    FirstPhaseIs(chs, [0, 1], bytes, 1);
    FirstPhaseLeaves(chs, [0, 1], bytes);
  }

  lemma TwoClaims(chs: seq<Channel>)
    requires |chs| == 2
    ensures Claims(chs, [0, 1], 0) == 0 && Claims(chs, [0, 1], 1) == Claim(chs[0])
    ensures Claims(chs, [0, 1], 2) == Claim(chs[0]) + Claim(chs[1])
    ensures Buffered(chs, [0, 1], 0) == 0 && Buffered(chs, [0, 1], 1) == chs[0].newBuffer
  {
    assert [0, 1][0] == 0 && [0, 1][1] == 1;
  }

  // ---- Buckets, arrivals, discards and configuration ----

  predicate AllRefills(ops: seq<Op>) {
    forall op <- ops :: op.Refill?
  }

  lemma FillTwice(t: nat, p: nat, a: nat, b: nat, size: nat)
    ensures Min(Min(t + p * a, size) + p * b, size) == Min(t + p * (a + b), size)
  {
    Distributes(p, a, b);
  }

  lemma RefillStep(ch: Channel, ms: nat)
    requires ch.tokens <= ch.pbr * ch.bsd
    ensures RefillOne(ch, ms) == ch.(tokens := Min(ch.tokens + ch.pbr * ms, ch.pbr * ch.bsd))
  {
  }

  /** A bucket left alone fills by its rate for every TTI, up to its size, however the time is cut up. */
  lemma {:induction false} BucketFills(chs: seq<Channel>, ops: seq<Op>, i: nat, size: nat)
    requires i < |chs| && AllRefills(ops) && size == chs[i].pbr * chs[i].bsd && chs[i].tokens <= size
    ensures Run(chs, ops)[i] == chs[i].(tokens := Min(chs[i].tokens + chs[i].pbr * Elapsed(ops), size))
    decreases |ops|
  {
    if ops != [] {
      assert ops[0] in ops;
      RefillStep(chs[i], ops[0].ms);
      BucketFills(Applied(chs, ops[0]), ops[1..], i, size);
      FillTwice(chs[i].tokens, chs[i].pbr, ops[0].ms, Elapsed(ops[1..]), size);
    }
  }

  predicate FirstOfBest(chs: seq<Channel>, i: nat)
    requires i < |chs|
  {
    && (forall j :: 0 <= j < |chs| ==> chs[i].priority <= chs[j].priority)
    && (forall j :: 0 <= j < i ==> chs[i].priority < chs[j].priority)
  }

  lemma {:induction false} BestIsFirst(chs: seq<Channel>)
    requires chs != []
    ensures FirstOfBest(chs, Best(chs))
    decreases |chs|
  {
    if |chs| > 1 {
      BestIsFirst(chs[..|chs| - 1]);
      assert forall j :: 0 <= j < |chs| - 1 ==> chs[..|chs| - 1][j] == chs[j];
    }
  }

  /** A discarded TB's bytes go to the first channel of the best priority, and no other channel changes. */
  lemma RestoredIs(chs: seq<Channel>, bytes: nat, i: nat)
    requires i < |chs|
    ensures Restored(chs, bytes)[i] ==
            if FirstOfBest(chs, i) then chs[i].(newBuffer := chs[i].newBuffer + bytes) else chs[i]
  {
    BestIsFirst(chs);
    var best := Best(chs);
    if FirstOfBest(chs, i) {
      assert chs[i].priority <= chs[best].priority && chs[best].priority <= chs[i].priority;
    }
  }

  predicate SameKey(x: Channel, c: Channel) {
    x.lcg == c.lcg && x.lcid == c.lcid
  }

  lemma OthersDiffer(chs: seq<Channel>, c: Channel, k: nat)
    requires InOrder(chs) && k < |chs| && SameKey(chs[k], c)
    ensures k == Place(chs, c.lcg, c.lcid)
  {
    assert !Before(chs[k], c.lcg, c.lcid);
  }

  lemma InParts(chs: seq<Channel>, c: Channel, i: nat, j: nat, x: Channel)
    requires i <= j <= |chs|
    ensures x in chs[..i] + [c] + chs[j..] <==> x == c || x in chs[..i] || x in chs[j..]
    ensures x in chs <==> x in chs[..i] || x in chs[i..j] || x in chs[j..]
  {
    assert chs == chs[..i] + chs[i..j] + chs[j..];
  }

  /** Configuring a channel adds it or replaces it, and keeps all others. */
  lemma ConfiguredIs(chs: seq<Channel>, c: Channel, x: Channel)
    requires InOrder(chs)
    ensures x in Configured(chs, c) <==> x == c || (x in chs && !SameKey(x, c))
  {
    var i := Place(chs, c.lcg, c.lcid);
    var j := if i < |chs| && SameKey(chs[i], c) then i + 1 else i;
    InParts(chs, c, i, j, x);
    forall k | 0 <= k < |chs| && SameKey(chs[k], c) ensures k == i {
      OthersDiffer(chs, c, k);
    }
    assert x in chs[i..j] ==> SameKey(x, c);
  }
}
