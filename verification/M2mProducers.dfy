/** How many producers the growable ring queue stands: with one, the exchange of head_ never finds a pointer that has
    gone round the ring; with two it can, in a queue of any size, and then head_ reaches tail_. */
module M2mProducers {
  import opened Wrappers
  import opened M2mQueue
  import opened M2mAlone

  // ---------------------------------------------------------------------------------------------
  // One producer
  // ---------------------------------------------------------------------------------------------

  /** Nobody but the one producer writes head_, so what it has read of it is the latest. */
  ghost predicate OnlyWriter<T>(s: State<T>) {
    && |s.prods| <= 1
    && forall p :: 0 <= p < |s.prods| ==> UpToDate(s.prods[p], s.headVer)
  }

  lemma OnlyWriterStep<T>(s: State<T>, a: Action<T>)
    requires OnlyWriter(s)
    ensures OnlyWriter(Apply(s, a))
  {
    if a.Producer? {
      if a.p < |s.prods| { ProducerReads(s, a.p); }
      hide AdvanceProducer;
    } else if a.Consumer? {
      ConsumerLeavesHead(s, a.c);
      hide AdvanceConsumer;
    }
  }

  /** Whoever is about to exchange head_ has the number of its last write. */
  predicate UpToDate<T>(pc: Producer<T>, ver: nat) {
    pc.Loaded? || pc.NextRead? || pc.NotFull? || pc.Armed? || pc.Full? ==> pc.ver == ver
  }

  lemma ProducerReads<T>(s: State<T>, p: nat)
    requires p < |s.prods| && UpToDate(s.prods[p], s.headVer)
    ensures var s' := AdvanceProducer(s, p);
      && |s'.prods| == |s.prods| && s'.prods == s.prods[p := s'.prods[p]] && UpToDate(s'.prods[p], s'.headVer)
  {
    hide Spliced, NewBlock;
  }

  lemma ConsumerLeavesHead<T>(s: State<T>, c: nat)
    ensures AdvanceConsumer(s, c).prods == s.prods && AdvanceConsumer(s, c).headVer == s.headVer
  {}

  lemma {:induction false} OneProducerIsFresh<T>(s: State<T>, acts: seq<Action<T>>)
    requires Inv(s) && SingleOk(s) && OnlyWriter(s)
    ensures HeadsFresh(s, acts)
    decreases |acts|
  {
    if acts != [] {
      assert acts[0].Producer? ==> HeadUnmoved(s, acts[0].p);
      if acts[0].Producer? { UnmovedIsFresh(s, acts[0].p); }
      OnlyWriterStep(s, acts[0]);
      hide Inv, SingleOk, OnlyWriter, Apply, HeadFresh;
      SingleStepKeeps(s, acts[0]);
      OneProducerIsFresh(Apply(s, acts[0]), acts[1..]);
    }
  }

  /** One producer and one consumer: nothing need be supposed. */
  lemma OneProducerFifo<T>(block: nat, blocks: nat, producers: nat, acts: seq<Action<T>>)
    requires block * blocks >= 2 && producers <= 1
    ensures var s := Run(Init<T>(block, blocks, producers, 1), acts);
      Inv(s) && s.order <= s.log && |s.order| <= s.popped <= |s.order| + 1 && s.head != Some(s.tail)
  {
    InitOk<T>(block, blocks, producers, 1);
    OneProducerIsFresh(Init<T>(block, blocks, producers, 1), acts);
    Fifo(block, blocks, producers, acts);
  }

  // ---------------------------------------------------------------------------------------------
  // Two producers
  // ---------------------------------------------------------------------------------------------

  /** The i-th node of the cycle, which may be counted on into the next lap. */
  function Nth(cyc: seq<Node>, i: nat): Node
    requires i < 2 * |cyc|
  {
    cyc[if i < |cyc| then i else i - |cyc|]
  }

  ghost predicate CycleOk(next: seq<Node>, cyc: seq<Node>) {
    && |cyc| == |next| >= 3
    && (forall i :: 0 <= i < |cyc| ==> cyc[i] < |cyc|)
    && (forall i, j :: 0 <= i < j < |cyc| ==> cyc[i] != cyc[j])
    && (forall i :: 0 <= i < |cyc| - 1 ==> next[cyc[i]] == cyc[i + 1])
    && next[cyc[|cyc| - 1]] == cyc[0]
  }

  lemma NextNth(next: seq<Node>, cyc: seq<Node>, i: nat)
    requires CycleOk(next, cyc) && i + 1 < 2 * |cyc|
    ensures Nth(cyc, i) < |next| && next[Nth(cyc, i)] == Nth(cyc, i + 1)
  {}

  lemma NthDistinct(next: seq<Node>, cyc: seq<Node>, i: nat, j: nat)
    requires CycleOk(next, cyc) && i < j < i + |cyc| && j < 2 * |cyc|
    ensures Nth(cyc, i) != Nth(cyc, j)
  {}

  /** A reachable state of the cycle `cyc` that was empty with head_ at its node 1, `a` pushes and `b` pops ago. */
  ghost predicate Lap(s0: State<int>, s: State<int>, cyc: seq<Node>, a: nat, b: nat) {
    && Reachable(s0, s) && CycleOk(s.next, cyc)
    && b <= a <= |cyc| && b <= 2
    && |s.ready| == |s.data| == |s.ring| == |cyc|
    && s.head == Some(Nth(cyc, 1 + a)) && s.tail == Nth(cyc, b) && s.h == 1 + a - b && |s.result| == s.popped
    && |s.prods| >= 2 && s.prods[0].Idle? && s.cons == [Resting]
    && Flags(s.ready, s.data, cyc, a, b)
  }

  /** Just the nodes pushed and not popped are ready, and hold something. */
  ghost predicate Flags(ready: seq<bool>, data: seq<Option<int>>, cyc: seq<Node>, a: nat, b: nat) {
    && |ready| == |data| == |cyc| && b + |cyc| < 2 * |cyc| && a <= |cyc| + b
    && (forall i :: 0 <= i < |cyc| ==> cyc[i] < |cyc|)
    && (forall n :: 0 <= n < |cyc| && ready[n] ==> data[n].Some?)
    && (forall j :: b < j <= a ==> ready[Nth(cyc, j)])
    && (forall j :: a < j <= |cyc| + b ==> !ready[Nth(cyc, j)])
  }

  lemma LapPush(s0: State<int>, s: State<int>, cyc: seq<Node>, a: nat, b: nat) returns (r: State<int>)
    requires Lap(s0, s, cyc, a, b) && a < |cyc| && a - b + 3 <= |cyc|
    ensures Lap(s0, r, cyc, a + 1, b) && r.prods == s.prods
  {
    ReachBurst(s0, s, Push(0, 7), Producer(0), 7);
    PushedAt(s, cyc, a, b);
    OnlyNth(s.next, cyc, 1 + a, b);
    FlagsPushed(s.ready, s.data, cyc, a, b);
    r := PushAlone(s, 0, 7);
    hide PushAlone, Reachable, Flags, CycleOk, Nth;
  }

  lemma PushedAt(s: State<int>, cyc: seq<Node>, a: nat, b: nat)
    requires CycleOk(s.next, cyc) && Flags(s.ready, s.data, cyc, a, b) && b <= a < |cyc| && a - b + 3 <= |cyc|
    requires s.head == Some(Nth(cyc, 1 + a)) && s.tail == Nth(cyc, b) && |s.prods| > 0 && s.prods[0].Idle?
    ensures Nth(cyc, 1 + a) < |s.next| && s.next[Nth(cyc, 1 + a)] == Nth(cyc, a + 2)
    ensures PushAlone(s, 0, 7) == Pushed(s, 0, Nth(cyc, 1 + a), 7)
  {
    NextNth(s.next, cyc, 1 + a);
    NthDistinct(s.next, cyc, b, a + 2);
    assert !s.ready[Nth(cyc, 1 + a)];
    hide Flags, CycleOk, Nth;
    UndisturbedPush(s, 0, 7);
  }

  lemma OnlyNth(next: seq<Node>, cyc: seq<Node>, i: nat, b: nat)
    requires CycleOk(next, cyc) && b < i <= |cyc| + b && |cyc| + b < 2 * |cyc|
    ensures forall j :: b < j <= |cyc| + b ==> ((Nth(cyc, j) == Nth(cyc, i)) == (j == i))
  {
    forall j | b < j <= |cyc| + b ensures (Nth(cyc, j) == Nth(cyc, i)) == (j == i) {
      if j < i { NthDistinct(next, cyc, j, i); } else if j > i { NthDistinct(next, cyc, i, j); }
    }
  }

  /** The flags after a push. */
  lemma FlagsPushed(ready: seq<bool>, data: seq<Option<int>>, cyc: seq<Node>, a: nat, b: nat)
    requires Flags(ready, data, cyc, a, b) && b <= a < |cyc|
    requires forall j :: b < j <= |cyc| + b ==> ((Nth(cyc, j) == Nth(cyc, 1 + a)) == (j == 1 + a))
    ensures Flags(ready[Nth(cyc, 1 + a) := true], data[Nth(cyc, 1 + a) := Some(7)], cyc, a + 1, b)
  {
    var w := Nth(cyc, 1 + a);
    assert forall j :: 0 <= j < 2 * |cyc| ==> Nth(cyc, j) < |cyc|;
    hide Nth;
    forall j | b < j <= a + 1 ensures ready[w := true][Nth(cyc, j)] { assert j == 1 + a || Nth(cyc, j) != w; }
    forall j | a + 1 < j <= |cyc| + b ensures !ready[w := true][Nth(cyc, j)] { assert Nth(cyc, j) != w; }
  }

  lemma LapPop(s0: State<int>, s: State<int>, cyc: seq<Node>, a: nat, b: nat) returns (r: State<int>)
    requires Lap(s0, s, cyc, a, b) && b < a && b < 2
    ensures Lap(s0, r, cyc, a, b + 1) && r.prods == s.prods
  {
    ReachBurst(s0, s, Pop(0), Consumer(0), 5);
    PoppedAt(s, cyc, a, b);
    OnlyNth(s.next, cyc, b + 1, b);
    FlagsPopped(s.ready, s.data, cyc, a, b);
    r := PopAlone(s, 0);
    hide PopAlone, Reachable, Flags, CycleOk, Nth;
  }

  lemma PoppedAt(s: State<int>, cyc: seq<Node>, a: nat, b: nat)
    requires CycleOk(s.next, cyc) && Flags(s.ready, s.data, cyc, a, b) && b < a <= |cyc| && b < 2
    requires s.tail == Nth(cyc, b) && s.cons == [Resting] && |s.ring| > 0 && s.h > 0 && |s.result| == s.popped
    ensures s.tail < |s.next| && s.next[s.tail] == Nth(cyc, b + 1) < |s.ready| && s.data[Nth(cyc, b + 1)].Some?
    ensures PopAlone(s, 0) == Popped(s, 0, Nth(cyc, b + 1))
  {
    NextNth(s.next, cyc, b);
    assert s.ready[Nth(cyc, b + 1)] && s.data[Nth(cyc, b + 1)].Some?;
    hide Nth;
    UndisturbedPop(s, 0);
  }

  lemma FlagsPopped(ready: seq<bool>, data: seq<Option<int>>, cyc: seq<Node>, a: nat, b: nat)
    requires Flags(ready, data, cyc, a, b) && b < a && b + 1 < |cyc|
    requires forall j :: b < j <= |cyc| + b ==> ((Nth(cyc, j) == Nth(cyc, b + 1)) == (j == b + 1))
    ensures Flags(ready[Nth(cyc, b + 1) := false], data, cyc, a, b + 1)
  {
    var n := Nth(cyc, b + 1);
    assert forall j :: 0 <= j < 2 * |cyc| ==> Nth(cyc, j) < |cyc|;
    assert Nth(cyc, |cyc| + b + 1) == n;
    hide Nth;
    forall j | b + 1 < j <= a ensures ready[n := false][Nth(cyc, j)] { assert Nth(cyc, j) != n; }
    forall j | a < j <= |cyc| + b + 1 ensures !ready[n := false][Nth(cyc, j)] { assert j == |cyc| + b + 1 || Nth(cyc, j) != n; }
  }

  lemma {:induction false} LapPushes(s0: State<int>, s: State<int>, cyc: seq<Node>, a: nat) returns (r: State<int>)
    requires Lap(s0, s, cyc, a, 2)
    ensures Lap(s0, r, cyc, |cyc|, 2) && r.prods == s.prods
    decreases |cyc| - a
  {
    if a == |cyc| {
      r := s;
    } else {
      r := LapPush(s0, s, cyc, a, 2);
      hide Lap;
      r := LapPushes(s0, r, cyc, a + 1);
    }
  }

  /** Producer 1 gets as far as the exchange of head_, at the cycle's node 1 with node 2 to be stored. */
  lemma ArmAt(s0: State<int>, s: State<int>, cyc: seq<Node>) returns (r: State<int>)
    requires Lap(s0, s, cyc, 0, 0) && s.prods[1].Idle?
    ensures Lap(s0, r, cyc, 0, 0) && r.prods[1] == Armed(cyc[1], s.headVer, 9, cyc[2])
  {
    ReachBurst(s0, s, Push(1, 9), Producer(1), 3);
    NextNth(s.next, cyc, 1);
    var s1 := Apply(s, Push(1, 9));
    assert s1 == SetP(s, 1, Loaded(s.head, s.headVer, 9));
    var s2 := Apply(s1, Producer(1));
    assert s2 == SetP(s, 1, NextRead(cyc[1], s.headVer, 9, cyc[2]));
    var s3 := Apply(s2, Producer(1));
    assert s3 == SetP(s, 1, NotFull(cyc[1], s.headVer, 9));
    r := Apply(s3, Producer(1));
    assert r == SetP(s, 1, Armed(cyc[1], s.headVer, 9, cyc[2]));
    hide Apply, Reachable;
    assert Steps(s1, Producer(1), 3) == Steps(s2, Producer(1), 2) == Steps(s3, Producer(1), 1) == r;
  }

  /** Producer 1 stops before its exchange at node 1; two values go through the queue, and then it is filled, which
      brings head_ back to node 1 with tail_ right behind it; and then the exchange succeeds. */
  lemma FullLap(s0: State<int>, s: State<int>, cyc: seq<Node>)
    requires Lap(s0, s, cyc, 0, 0) && s.prods[1].Idle?
    ensures exists r :: Reachable(s0, r) && r.head == Some(r.tail)
  {
    var r := ArmAt(s0, s, cyc);
    var armed := r.prods[1];
    assert |cyc| >= 3;
    hide Lap;
    r := LapPush(s0, r, cyc, 0, 0);
    r := LapPop(s0, r, cyc, 1, 0);
    r := LapPush(s0, r, cyc, 1, 1);
    r := LapPop(s0, r, cyc, 2, 1);
    r := LapPushes(s0, r, cyc, 2);
    StaleExchange(s0, r, cyc);
  }

  lemma StaleExchange(s0: State<int>, s: State<int>, cyc: seq<Node>)
    requires Lap(s0, s, cyc, |cyc|, 2) && s.prods[1].Armed? && s.prods[1].w == cyc[1] && s.prods[1].n == cyc[2]
    ensures exists r :: Reachable(s0, r) && r.head == Some(r.tail)
  {
    ReachBurst(s0, s, Producer(1), Producer(1), 0);
    var r := Apply(s, Producer(1));
    assert Steps(r, Producer(1), 0) == r && r.head == Some(r.tail);
  }

  /** Of a queue of two nodes, a push and a pop make an empty one of at least three. */
  lemma GrowFirst(s0: State<int>, block: nat, blocks: nat, producers: nat) returns (r: State<int>, cyc: seq<Node>)
    requires block * blocks == 2 && producers >= 2 && s0 == Init<int>(block, blocks, producers, 1)
    ensures Lap(s0, r, cyc, 0, 0) && r.prods == s0.prods
  {
    assert s0.next == [1, 0] && s0.ready == [false, false] && s0.ring == [1, 0] && s0.data == [None, None];
    assert block > 0;
    assert Run(s0, []) == s0;
    ReachBurst(s0, s0, Push(0, 1), Producer(0), 9);
    UndisturbedGrow(s0, 0, 1);
    r := PopFirst(s0, Grown(s0, 0, 0, 1));
    cyc := r.ring;
    hide Init, Reachable, Steps, Apply, Popped, CycleOk, Flags, Spliced, Grown;
  }

  lemma PopFirst(s0: State<int>, s: State<int>) returns (r: State<int>)
    requires |s0.next| == 2 && s0.next == [1, 0] && s0.ready == [false, false] && s0.data == [None, None]
    requires s0.ring == [1, 0] && s0.h == 1 && s0.block > 0 && s0.tail == 1 && s0.popped == 0 && s0.result == []
    requires s == Grown(s0, 0, 0, 1) && s0.cons == [Resting] && Reachable(s0, s)
    ensures Reachable(s0, r) && CycleOk(r.next, r.ring) && |r.ready| == |r.data| == |r.ring| && Flags(r.ready, r.data, r.ring, 0, 0)
    ensures r.head == Some(r.ring[1]) && r.tail == r.ring[0] && r.h == 1 && |r.result| == r.popped
    ensures r.prods == s0.prods && r.cons == s0.cons
  {
    GrownPop(s0, s);
    ReachBurst(s0, s, Pop(0), Consumer(0), 5);
    UndisturbedPop(s, 0);
    r := Popped(s, 0, 0);
    GrownCycle(s0, r);
    hide CycleOk, Flags, Spliced, Reachable;
  }

  lemma GrownPop(s0: State<int>, s: State<int>)
    requires |s0.next| == 2 && s0.next == [1, 0] && s0.ready == [false, false] && s0.data == [None, None]
    requires s0.ring == [1, 0] && s0.h == 1 && s0.block > 0 && s == Grown(s0, 0, 0, 1)
    ensures s.next[1] == 0 && s.ready[0] && s.data[0] == Some(1) && |s.ready| == |s.data| == |s.next| && s.h == 2
  {}

  lemma GrownCycle(s0: State<int>, r: State<int>)
    requires |s0.next| == 2 && s0.next == [1, 0] && s0.ready == [false, false] && s0.data == [None, None]
    requires s0.ring == [1, 0] && s0.h == 1 && s0.block > 0
    requires var s := Grown(s0, 0, 0, 1); s.data[0].Some? && |s.ring| > 0 && s.h > 0 && r == Popped(s, 0, 0)
    ensures CycleOk(r.next, r.ring) && r.ring[0] == 0 && r.ring[1] == 2 && r.head == Some(2)
    ensures |r.ready| == |r.data| == |r.next| == |r.ring| && Flags(r.ready, r.data, r.ring, 0, 0)
  {
    var n := 2 + s0.block;
    assert |r.ring| == |r.next| == |r.ready| == |r.data| == n;
    assert r.ring == [0] + NewBlock(2, s0.block) + [1];
    assert forall i :: 0 <= i < n ==> !r.ready[i];
    GrownLinks(s0.block, r.next, r.ring);
    hide Spliced, NewBlock, Grown;
  }

  lemma GrownLinks(block: nat, next: seq<Node>, ring: seq<Node>)
    requires block > 0 && next == Spliced([1, 0], 0, block) && ring == [0] + NewBlock(2, block) + [1]
    ensures CycleOk(next, ring)
  {
    var n := 2 + block;
    assert forall i :: 1 <= i < n - 1 ==> ring[i] == i + 1;
    assert ring[n - 1] == 1 && next[1] == 0 && next[0] == 2 && next[n - 1] == 1;
    assert forall i :: 2 <= i < n - 1 ==> next[i] == i + 1;
  }

  lemma Started(s0: State<int>, block: nat, blocks: nat, producers: nat)
    requires block * blocks >= 3 && producers >= 2 && s0 == Init<int>(block, blocks, producers, 1)
    ensures Lap(s0, s0, s0.ring, 0, 0)
  {
    assert Run(s0, []) == s0;
    assert forall i :: 1 <= i < |s0.ring| ==> s0.ring[i] == i - 1;
  }

  /** head_ reaches tail_ in some run of a queue of any size, with one consumer, if and only if it has two producers
      or more; with fewer, all runs are as Fifo says. */
  lemma HeadReachesTailIff(block: nat, blocks: nat, producers: nat)
    requires block * blocks >= 2
    ensures (exists acts: seq<Action<int>> :: HeadAtTail(Init(block, blocks, producers, 1), acts)) <==> producers >= 2
  {
    var s0 := Init<int>(block, blocks, producers, 1);
    if producers >= 2 {
      var s, cyc := s0, s0.ring;
      if block * blocks == 2 { s, cyc := GrowFirst(s0, block, blocks, producers); } else { Started(s0, block, blocks, producers); }
      FullLap(s0, s, cyc);
      var r :| Reachable(s0, r) && r.head == Some(r.tail);
      var acts: seq<Action<int>> :| Run(s0, acts) == r;
      assert HeadAtTail(s0, acts);
    } else {
      forall acts: seq<Action<int>> ensures !HeadAtTail(s0, acts) { OneProducerFifo(block, blocks, producers, acts); }
    }
  }

  ghost predicate HeadAtTail(s0: State<int>, acts: seq<Action<int>>) {
    Run(s0, acts).head == Some(Run(s0, acts).tail)
  }
}
