/** Air-interface channels whose messages become visible a fixed number of TTIs after they are sent (tti_channel.h). */
module TimedChannels {
  import opened CommonTypes

  datatype Entry<+T> = Entry(item: T, sendTti: nat)

  type Queue<+T> = seq<Entry<T>>

  predicate Visible<T>(e: Entry<T>, now: nat) {
    now >= e.sendTti + CHANNEL_PROPAGATION_TTI
  }

  /** What dequeue does: only the head is examined. */
  function Pop<T>(q: Queue<T>, now: nat): (Option<T>, Queue<T>) {
    if q == [] || !Visible(q[0], now) then (None, q) else (Some(q[0].item), q[1..])
  }

  function Items<T>(q: Queue<T>): (items: seq<T>)
    ensures |items| == |q| && forall i :: 0 <= i < |q| ==> items[i] == q[i].item
  {
    seq(|q|, i requires 0 <= i < |q| => q[i].item)
  }

  function Tag<T>(items: seq<T>, now: nat): (q: Queue<T>)
    ensures |q| == |items| && forall i :: 0 <= i < |q| ==> q[i] == Entry(items[i], now)
  {
    seq(|items|, i requires 0 <= i < |items| => Entry(items[i], now))
  }

  /** Length of the visible prefix: the number of dequeues that succeed before one fails. */
  function VisibleCount<T>(q: Queue<T>, now: nat): (n: nat)
    ensures n <= |q|
    ensures forall i :: 0 <= i < n ==> Visible(q[i], now)
    ensures n < |q| ==> !Visible(q[n], now)
  {
    if q == [] || !Visible(q[0], now) then 0 else 1 + VisibleCount(q[1..], now)
  }

  class TimedChannel<T> {
    var q: Queue<T>

    constructor ()
      ensures q == []
    {
      q := [];
    }

    method Enqueue(item: T, sendTti: nat)
      modifies this
      ensures q == old(q) + [Entry(item, sendTti)]
    {
      q := q + [Entry(item, sendTti)];
    }

    method Dequeue(now: nat) returns (r: Option<T>)
      modifies this
      ensures (r, q) == Pop(old(q), now)
    {
      if |q| == 0 {
        return None;
      }
      var front := q[0];
      if now >= front.sendTti + CHANNEL_PROPAGATION_TTI {
        q := q[1..];
        return Some(front.item);
      }
      r := None;
    }

    method Ready(now: nat) returns (ready: bool)
      ensures ready == Pop(q, now).0.Some?
    {
      ready := |q| > 0 && now >= q[0].sendTti + CHANNEL_PROPAGATION_TTI;
    }

    method Size() returns (n: nat)
      ensures n == |q|
    {
      n := |q|;
    }

    /** The receivers' loop: dequeue until nothing is visible. */
    method Drain(now: nat) returns (items: seq<T>)
      modifies this
      ensures items == Items(old(q)[..VisibleCount(old(q), now)])
      ensures q == old(q)[VisibleCount(old(q), now)..]
    {
      items := [];
      ghost var n := 0;
      var m := Dequeue(now);
      while m.Some?
        invariant n <= VisibleCount(old(q), now)
        invariant items == Items(old(q)[..n])
        invariant m.Some? ==> n < VisibleCount(old(q), now) && m.value == old(q)[n].item && q == old(q)[n + 1..]
        invariant m.None? ==> q == old(q)[n..] && n == VisibleCount(old(q), now)
        decreases if m.Some? then |q| + 1 else 0
      {
        items := items + [m.value];
        n := n + 1;
        m := Dequeue(now);
      }
    }
  }

  // ---- Head-only gating and exact delivery ----

  predicate Sorted<T>(q: Queue<T>) {
    forall i, j :: 0 <= i <= j < |q| ==> q[i].sendTti <= q[j].sendTti
  }

  ghost predicate SentBefore<T>(q: Queue<T>, now: nat) {
    forall e <- q :: e.sendTti < now
  }

  /** On a queue with non-decreasing send times, examining the head alone gates every message by its own send time. */
  lemma HeadGatingIsPerMessage<T>(q: Queue<T>, now: nat, i: nat)
    requires Sorted(q) && i < |q|
    ensures i < VisibleCount(q, now) <==> Visible(q[i], now)
  {
    if i >= VisibleCount(q, now) {
      assert q[VisibleCount(q, now)].sendTti <= q[i].sendTti;
    }
  }

  /** One atomic channel operation in a TTI; a push carries the TTI it is made in. */
  datatype Op<T> = Push(item: T) | PopOp

  function Run<T>(q: Queue<T>, ops: seq<Op<T>>, now: nat): (Queue<T>, seq<Option<T>>)
    decreases |ops|
  {
    if ops == [] then (q, [])
    else match ops[0]
      case Push(item) => Run(q + [Entry(item, now)], ops[1..], now)
      case PopOp =>
        var (r, q1) := Pop(q, now);
        var (q2, rs) := Run(q1, ops[1..], now);
        (q2, [r] + rs)
  }

  function Pushed<T>(ops: seq<Op<T>>): seq<T> {
    if ops == [] then []
    else (if ops[0].Push? then [ops[0].item] else []) + Pushed(ops[1..])
  }

  function PopCount<T>(ops: seq<Op<T>>): nat {
    if ops == [] then 0 else (if ops[0].PopOp? then 1 else 0) + PopCount(ops[1..])
  }

  function Answers<T>(q: Queue<T>, visible: nat, pops: nat): (rs: seq<Option<T>>)
    requires visible <= |q|
    ensures |rs| == pops
  {
    seq(pops, i requires 0 <= i < pops => if i < visible then Some(q[i].item) else None)
  }

  lemma PopHead<T>(q: Queue<T>, late: Queue<T>, now: nat)
    requires SentBefore(q, now)
    requires forall e <- late :: e.sendTti == now
    ensures Pop(q + late, now) == if VisibleCount(q, now) > 0 then (Some(q[0].item), q[1..] + late)
        else (None, q + late)
  {
    if q != [] {
      assert (q + late)[0] == q[0] && (q + late)[1..] == q[1..] + late;
    } else if late != [] {
      assert late[0] in late && (q + late)[0] == late[0];
    }
  }

  /** The queue after k pops, with this TTI's earlier pushes `late` and then `items`. */
  function Left<T>(q: Queue<T>, k: nat, late: Queue<T>, items: seq<T>, now: nat): Queue<T>
    requires k <= |q|
  {
    q[k..] + late + Tag(items, now)
  }

  lemma TagFront<T>(q: Queue<T>, k: nat, late: Queue<T>, items: seq<T>, now: nat)
    requires items != [] && k <= |q|
    ensures Left(q, k, late + [Entry(items[0], now)], items[1..], now) == Left(q, k, late, items, now)
  {
  }

  lemma LeftOfRest<T>(q: Queue<T>, k: nat, late: Queue<T>, items: seq<T>, now: nat)
    requires k < |q|
    ensures Left(q[1..], k, late, items, now) == Left(q, k + 1, late, items, now)
  {
    assert q[1..][k..] == q[k + 1..];
  }

  /** However one producer's pushes and one consumer's pops interleave within a TTI, the pops see exactly the messages
      that were visible when the TTI began, in order, and the pushes end up behind them, in order. */
  lemma {:induction false} InterleavingIsInvisible<T>(q: Queue<T>, late: Queue<T>, ops: seq<Op<T>>, now: nat)
    requires SentBefore(q, now)
    requires forall e <- late :: e.sendTti == now
    ensures Run(q + late, ops, now).0 == Left(q, Min(VisibleCount(q, now), PopCount(ops)), late, Pushed(ops), now)
    ensures Run(q + late, ops, now).1 == Answers(q, VisibleCount(q, now), PopCount(ops))
    decreases |ops|, 1
  {
    if ops == [] {
      assert q[0..] + late + Tag(Pushed(ops), now) == q + late;
    } else if ops[0].Push? {
      var e := Entry(ops[0].item, now);
      InterleavingIsInvisible(q, late + [e], ops[1..], now);
      assert q + late + [e] == q + (late + [e]);
      assert Pushed(ops) == [ops[0].item] + Pushed(ops[1..]) && Pushed(ops)[1..] == Pushed(ops[1..]);
      TagFront(q, Min(VisibleCount(q, now), PopCount(ops)), late, Pushed(ops), now);
    } else {
      PopHead(q, late, now);
      PopFirst(q, late, ops, now);
    }
  }

  lemma AnswersFront<T>(q: Queue<T>, visible: nat, pops: nat)
    requires visible <= |q| && pops > 0
    ensures Answers(q, visible, pops) ==
            if visible > 0 then [Some(q[0].item)] + Answers(q[1..], visible - 1, pops - 1)
                else [None] + Answers(q, 0, pops - 1)
  {
  }

  lemma {:induction false} PopFirst<T>(q: Queue<T>, late: Queue<T>, ops: seq<Op<T>>, now: nat)
    requires SentBefore(q, now)
    requires forall e <- late :: e.sendTti == now
    requires ops != [] && ops[0].PopOp?
    requires Pop(q + late, now) == if VisibleCount(q, now) > 0 then (Some(q[0].item), q[1..] + late)
        else (None, q + late)
    ensures Run(q + late, ops, now).0 == Left(q, Min(VisibleCount(q, now), PopCount(ops)), late, Pushed(ops), now)
    ensures Run(q + late, ops, now).1 == Answers(q, VisibleCount(q, now), PopCount(ops))
    decreases |ops|, 0
  {
    var (visible, rest) := (VisibleCount(q, now), ops[1..]);
    assert Pushed(ops) == Pushed(rest) && PopCount(ops) == 1 + PopCount(rest);
    AnswersFront(q, visible, PopCount(ops));
    if visible > 0 {
      InterleavingIsInvisible(q[1..], late, rest, now);
      LeftOfRest(q, Min(visible - 1, PopCount(rest)), late, Pushed(rest), now);
    } else {
      InterleavingIsInvisible(q, late, rest, now);
    }
  }

  // ---- Runs over many TTIs ----

  /** A run of one channel: for every TTI, the interleaved operations of that TTI. */
  type History<T> = seq<seq<Op<T>>>

  function QueueAt<T>(h: History<T>, t: nat): Queue<T>
    requires t <= |h|
  {
    if t == 0 then [] else Run(QueueAt(h, t - 1), h[t - 1], t - 1).0
  }

  /** In TTI t the consumer keeps popping until a pop fails. */
  predicate DrainsAt<T>(h: History<T>, t: nat)
    requires t < |h|
  {
    PopCount(h[t]) > VisibleCount(QueueAt(h, t), t)
  }

  function Delivered<T>(h: History<T>, t: nat): seq<T>
    requires t < |h|
  {
    Received(Run(QueueAt(h, t), h[t], t).1)
  }

  function Received<T>(rs: seq<Option<T>>): seq<T> {
    if rs == [] then [] else (if rs[0].Some? then [rs[0].value] else []) + Received(rs[1..])
  }

  /** Everything sent in TTIs lo..hi, in order, with its send time. */
  function Window<T>(h: History<T>, lo: nat, hi: nat): Queue<T>
    requires lo <= hi <= |h|
    decreases hi
  {
    if lo == hi then [] else Window(h, lo, hi - 1) + Tag(Pushed(h[hi - 1]), hi - 1)
  }

  function WindowStart(t: nat): nat {
    if t < CHANNEL_PROPAGATION_TTI then 0 else t - CHANNEL_PROPAGATION_TTI
  }

  lemma {:induction false} WindowTimes<T>(h: History<T>, lo: nat, hi: nat)
    requires lo <= hi <= |h|
    ensures forall e <- Window(h, lo, hi) :: lo <= e.sendTti < hi
    decreases hi
  {
    if lo < hi { WindowTimes(h, lo, hi - 1); }
  }

  lemma {:induction false} WindowFront<T>(h: History<T>, lo: nat, hi: nat)
    requires lo < hi <= |h|
    ensures Window(h, lo, hi) == Tag(Pushed(h[lo]), lo) + Window(h, lo + 1, hi)
    decreases hi
  {
    if lo + 1 < hi { WindowFront(h, lo, hi - 1); }
  }

  lemma VisibleCountSplit<T>(front: Queue<T>, back: Queue<T>, now: nat)
    requires forall i :: 0 <= i < |front| ==> Visible(front[i], now)
    requires back != [] ==> !Visible(back[0], now)
    ensures VisibleCount(front + back, now) == |front|
  {
    var q := front + back;
    assert forall i :: 0 <= i < |front| ==> q[i] == front[i];
    assert back != [] ==> q[|front|] == back[0];
  }

  lemma {:induction false} ReceivedAnswers<T>(q: Queue<T>, visible: nat, pops: nat)
    requires visible <= |q|
    ensures Received(Answers(q, visible, pops)) == Items(q[..Min(visible, pops)])
    decreases pops
  {
    if pops > 0 {
      var rs := Answers(q, visible, pops);
      if visible > 0 {
        assert rs[1..] == Answers(q[1..], visible - 1, pops - 1);
        ReceivedAnswers(q[1..], visible - 1, pops - 1);
        assert Items(q[..Min(visible, pops)]) == [q[0].item] + Items(q[1..][..Min(visible - 1, pops - 1)]);
      } else {
        assert rs[1..] == Answers(q, 0, pops - 1);
        ReceivedAnswers(q, 0, pops - 1);
      }
    }
  }

  /** What was sent exactly four TTIs before t. */
  function DueAt<T>(h: History<T>, t: nat): Queue<T>
    requires t <= |h|
  {
    if t < CHANNEL_PROPAGATION_TTI then []
    else Tag(Pushed(h[t - CHANNEL_PROPAGATION_TTI]), t - CHANNEL_PROPAGATION_TTI)
  }

  lemma WindowFrontIsDue<T>(h: History<T>, t: nat)
    requires t <= |h|
    ensures Window(h, WindowStart(t), t) == DueAt(h, t) + Window(h, WindowStart(t + 1), t)
  {
    if t >= CHANNEL_PROPAGATION_TTI {
      WindowFront(h, WindowStart(t), t);
    } else {
      assert WindowStart(t) == WindowStart(t + 1) && DueAt(h, t) == [];
    }
  }

  lemma WindowSplit<T>(h: History<T>, t: nat)
    requires t <= |h|
    ensures Window(h, WindowStart(t), t) == DueAt(h, t) + Window(h, WindowStart(t + 1), t)
    ensures SentBefore(Window(h, WindowStart(t), t), t)
    ensures VisibleCount(Window(h, WindowStart(t), t), t) == |DueAt(h, t)|
  {
    var (front, back) := (DueAt(h, t), Window(h, WindowStart(t + 1), t));
    WindowFrontIsDue(h, t);
    WindowTimes(h, WindowStart(t), t);
    WindowTimes(h, WindowStart(t + 1), t);
    if back != [] { assert back[0] in back; }
    VisibleCountSplit(front, back, t);
  }

  lemma DelayStep<T>(h: History<T>, t: nat, q: Queue<T>)
    requires t < |h| && q == QueueAt(h, t) == Window(h, WindowStart(t), t)
    requires PopCount(h[t]) > VisibleCount(q, t)
    ensures Delivered(h, t) == Items(DueAt(h, t))
    ensures QueueAt(h, t + 1) == Window(h, WindowStart(t + 1), t + 1)
  {
    WindowSplit(h, t);
    DrainingOps(q, DueAt(h, t), Window(h, WindowStart(t + 1), t), h[t], t);
  }

  /** Exact-delay FIFO delivery: on a channel whose consumer drains it every TTI, what is received in TTI t is what was
      sent in TTI t-4, exactly once and in send order, and everything sent later is still queued, in send order. */
  lemma {:induction false} ExactDelayFifo<T>(h: History<T>, t: nat)
    requires t < |h|
    requires forall s :: 0 <= s <= t ==> DrainsAt(h, s)
    ensures Delivered(h, t) == if t < CHANNEL_PROPAGATION_TTI then [] else Pushed(h[t - CHANNEL_PROPAGATION_TTI])
    ensures QueueAt(h, t + 1) == Window(h, WindowStart(t + 1), t + 1)
    decreases t
  {
    if t > 0 { ExactDelayFifo(h, t - 1); }
    assert DrainsAt(h, t);
    DelayStep(h, t, QueueAt(h, t));
  }

  lemma DrainingOps<T>(q: Queue<T>, front: Queue<T>, back: Queue<T>, ops: seq<Op<T>>, now: nat)
    requires q == front + back && SentBefore(q, now)
    requires VisibleCount(q, now) == |front| < PopCount(ops)
    ensures Run(q, ops, now).0 == back + Tag(Pushed(ops), now)
    ensures Received(Run(q, ops, now).1) == Items(front)
  {
    assert q + [] == q;
    InterleavingIsInvisible(q, [], ops, now);
    ReceivedAnswers(q, |front|, PopCount(ops));
    assert q[..|front|] == front && q[|front|..] + [] == back;
  }
}
