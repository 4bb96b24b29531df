/**
 Pushes and pops of the m2m queue that no other thread disturbs, and a run with two consumers in
 which the queue misbehaves because a flag is read that a pop has yet to reset.
 */
module M2mAlone {
  import opened Wrappers
  import opened M2mQueue

  function Steps<T>(s: State<T>, a: Action<T>, n: nat): State<T>
    decreases n
  {
    if n == 0 then s else Steps(Apply(s, a), a, n - 1)
  }

  /** `push` run by p alone, on a queue that is not full. */
  function PushAlone<T>(s: State<T>, p: nat, v: T): State<T> {
    Steps(Apply(s, Push(p, v)), Producer(p), 7)
  }

  /** The queue once v is in node w, the node after it being the next to be claimed. */
  function Pushed<T>(s: State<T>, p: nat, w: Node, v: T): State<T>
    requires w < |s.next| && w < |s.ready| && w < |s.data|
  {
    s.(head := Some(s.next[w]), headVer := s.headVer + 1, h := s.h + 1,
       ready := s.ready[w := true], data := s.data[w := Some(v)],
       log := s.log + [v], owner := s.owner + [p])
  }

  ghost predicate CanPush<T>(s: State<T>, p: nat) {
    && p < |s.prods| && s.prods[p].Idle? && s.head.Some?
    && |s.ready| == |s.data| == |s.next| && s.head.value < |s.next|
    && !s.ready[s.head.value]
  }

  lemma Claiming<T>(s: State<T>, p: nat, v: T)
    requires p < |s.prods| && s.prods[p].Idle? && s.head.Some? && s.head.value < |s.next|
    requires s.next[s.head.value] != s.tail
    ensures Steps(Apply(s, Push(p, v)), Producer(p), 4)
         == SetP(s.(head := Some(s.next[s.head.value]), headVer := s.headVer + 1, h := s.h + 1,
                    log := s.log + [v], owner := s.owner + [p]),
                 p, Claimed(s.head.value, v, |s.log|))
  {
    var w := s.head.value;
    var s1 := Apply(s, Push(p, v));
    assert s1 == SetP(s, p, Loaded(s.head, s.headVer, v));
    var s2 := Apply(s1, Producer(p));
    assert s2 == SetP(s, p, NextRead(w, s.headVer, v, s.next[w]));
    var s3 := Apply(s2, Producer(p));
    assert s3 == SetP(s, p, NotFull(w, s.headVer, v));
    var s4 := Apply(s3, Producer(p));
    assert s4 == SetP(s, p, Armed(w, s.headVer, v, s.next[w]));
    StepsFour(s1, Producer(p));
  }

  lemma StepsFour<T>(s: State<T>, a: Action<T>)
    ensures Steps(s, a, 4) == Apply(Apply(Apply(Apply(s, a), a), a), a)
  {
    var t := Apply(Apply(s, a), a);
    assert Steps(s, a, 4) == Steps(t, a, 2);
    assert Steps(t, a, 2) == Steps(Apply(t, a), a, 1) == Steps(Apply(Apply(t, a), a), a, 0);
  }

  lemma Publishing<T>(s: State<T>, p: nat, w: Node, v: T, k: nat)
    requires p < |s.prods| && s.prods[p] == Claimed(w, v, k)
    requires |s.ready| == |s.data| > w && !s.ready[w]
    ensures Steps(s, Producer(p), 3) == SetP(s.(ready := s.ready[w := true], data := s.data[w := Some(v)]), p, Idle)
  {
    var s1 := Apply(s, Producer(p));
    assert s1 == SetP(s, p, Writable(w, v, k));
    var s2 := Apply(s1, Producer(p));
    assert s2 == SetP(s.(data := s.data[w := Some(v)]), p, Written(w, v, k));
    var s3 := Apply(s2, Producer(p));
    assert Steps(s, Producer(p), 3) == Steps(s2, Producer(p), 1) == s3;
  }

  lemma {:induction false} StepsAdd<T>(s: State<T>, a: Action<T>, m: nat, n: nat)
    ensures Steps(s, a, m + n) == Steps(Steps(s, a, m), a, n)
    decreases m
  {
    hide Apply;
    if m > 0 { StepsAdd(Apply(s, a), a, m - 1, n); }
  }

  /** An undisturbed push on a queue that is not full appends its value. */
  lemma UndisturbedPush<T>(s: State<T>, p: nat, v: T)
    requires CanPush(s, p) && s.next[s.head.value] != s.tail
    ensures PushAlone(s, p, v) == Pushed(s, p, s.head.value, v)
  {
    Claiming(s, p, v);
    var s1 := Apply(s, Push(p, v));
    var s5 := Steps(s1, Producer(p), 4);
    StepsAdd(s1, Producer(p), 4, 3);
    Publishing(s5, p, s.head.value, v, |s.log|);
    assert s5.prods[p := Idle] == s.prods;
  }

  /** The queue once v is in node w, a new block having been spliced in behind it. */
  function Grown<T>(s: State<T>, p: nat, w: Node, v: T): State<T>
    requires w < |s.next| && w < |s.ready| && w < |s.data| && s.block > 0 && s.h < |s.ring|
  {
    s.(next := Spliced(s.next, w, s.block),
       ready := (s.ready + seq(s.block, _ => false))[w := true],
       data := (s.data + seq(s.block, _ => None))[w := Some(v)],
       ring := s.ring[..s.h + 1] + NewBlock(|s.next|, s.block) + s.ring[s.h + 1..],
       head := Some(|s.next|), headVer := s.headVer + 2, h := s.h + 1, capacity := s.capacity + s.block,
       log := s.log + [v], owner := s.owner + [p])
  }

  /** `push` run by p alone on a full queue, up to the store that unlocks head_. */
  lemma Growing<T>(s: State<T>, p: nat, v: T)
    requires CanPush(s, p) && s.next[s.head.value] == s.tail && s.block > 0 && s.h < |s.ring| && s.lockedBy.None?
    ensures Steps(Apply(s, Push(p, v)), Producer(p), 4)
         == SetP(s.(next := Spliced(s.next, s.head.value, s.block),
                    ready := s.ready + seq(s.block, _ => false),
                    data := s.data + seq(s.block, _ => None),
                    ring := s.ring[..s.h + 1] + NewBlock(|s.next|, s.block) + s.ring[s.h + 1..],
                    head := None, headVer := s.headVer + 1, lockedBy := Some(p)),
                 p, Linked(s.head.value, v))
  {
    var w := s.head.value;
    var s1 := Apply(s, Push(p, v));
    assert s1 == SetP(s, p, Loaded(s.head, s.headVer, v));
    var s2 := Apply(s1, Producer(p));
    assert s2 == SetP(s, p, NextRead(w, s.headVer, v, s.next[w]));
    var s3 := Apply(s2, Producer(p));
    assert s3 == SetP(s, p, Full(w, s.headVer, v));
    var s4 := Apply(s3, Producer(p));
    assert s4 == SetP(s.(head := None, headVer := s.headVer + 1, lockedBy := Some(p)), p, Locked(w, v));
    StepsFour(s1, Producer(p));
  }

  lemma StepsTwo<T>(s: State<T>, a: Action<T>)
    ensures Steps(s, a, 2) == Apply(Apply(s, a), a)
  {
    hide Apply;
    assert Steps(s, a, 2) == Steps(Apply(s, a), a, 1) == Steps(Apply(Apply(s, a), a), a, 0);
  }

  lemma StoringHead<T>(s: State<T>, p: nat, w: Node, v: T)
    requires p < |s.prods| && s.prods[p] == Linked(w, v) && w < |s.next|
    ensures Apply(s, Producer(p))
         == SetP(s.(head := Some(s.next[w]), headVer := s.headVer + 1, h := s.h + 1, lockedBy := None,
                    log := s.log + [v], owner := s.owner + [p]),
                 p, Extended(w, v, |s.log|))
  {}

  lemma Raising<T>(s: State<T>, p: nat, w: Node, v: T, k: nat)
    requires p < |s.prods| && s.prods[p] == Extended(w, v, k)
    ensures Apply(s, Producer(p)) == SetP(s.(capacity := s.capacity + s.block), p, Claimed(w, v, k))
  {}

  lemma Unlocking<T>(s: State<T>, p: nat, w: Node, v: T)
    requires p < |s.prods| && s.prods[p] == Linked(w, v) && w < |s.next|
    ensures Steps(s, Producer(p), 2)
         == SetP(s.(head := Some(s.next[w]), headVer := s.headVer + 1, h := s.h + 1, lockedBy := None,
                    capacity := s.capacity + s.block, log := s.log + [v], owner := s.owner + [p]),
                 p, Claimed(w, v, |s.log|))
  {
    StepsTwo(s, Producer(p));
    StoringHead(s, p, w, v);
    Raising(Apply(s, Producer(p)), p, w, v, |s.log|);
    hide Steps, Apply;
    assert s.prods[p := Extended(w, v, |s.log|)][p := Claimed(w, v, |s.log|)] == s.prods[p := Claimed(w, v, |s.log|)];
  }

  /** An undisturbed push on a full queue splices in a block and appends its value. */
  lemma UndisturbedGrow<T>(s: State<T>, p: nat, v: T)
    requires CanPush(s, p) && s.next[s.head.value] == s.tail && s.block > 0 && s.h < |s.ring| && s.lockedBy.None?
    ensures Steps(Apply(s, Push(p, v)), Producer(p), 9) == Grown(s, p, s.head.value, v)
  {
    Growing(s, p, v);
    var w := s.head.value;
    var s1 := Apply(s, Push(p, v));
    var s5 := Steps(s1, Producer(p), 4);
    Unlocking(s5, p, w, v);
    var s7 := Steps(s5, Producer(p), 2);
    Publishing(s7, p, w, v, |s.log|);
    StepsAdd(s1, Producer(p), 4, 5);
    StepsAdd(s5, Producer(p), 2, 3);
    assert s7.prods[p := Idle] == s.prods;
  }

  function PopAlone<T>(s: State<T>, c: nat): State<T> {
    Steps(Apply(s, Pop(c)), Consumer(c), 5)
  }

  /** The queue once consumer c has taken the value of node n. */
  function Popped<T>(s: State<T>, c: nat, n: Node): State<T>
    requires n < |s.ready| && n < |s.data| && s.data[n].Some? && |s.ring| > 0 && s.h > 0
  {
    s.(tail := n, tailVer := s.tailVer + 1, popped := s.popped + 1, h := s.h - 1,
       ring := s.ring[1..] + [s.ring[0]], taker := s.taker + [c], result := s.result + [s.data[n]],
       order := s.order + [s.data[n].value], ready := s.ready[n := false])
  }

  lemma Looking<T>(s: State<T>, c: nat)
    requires c < |s.cons| && s.cons[c].Resting? && s.tail < |s.next| && s.next[s.tail] < |s.ready|
    ensures Steps(Apply(s, Pop(c)), Consumer(c), 2)
         == SetC(s, c, if s.ready[s.next[s.tail]] then ReadySeen(s.tail, s.tailVer, s.next[s.tail]) else Resting)
  {
    var s1 := Apply(s, Pop(c));
    var s2 := Apply(s1, Consumer(c));
    assert s2 == SetC(s, c, NextLoaded(s.tail, s.tailVer, s.next[s.tail]));
    var s3 := Apply(s2, Consumer(c));
    assert Steps(s1, Consumer(c), 2) == Steps(s2, Consumer(c), 1) == s3;
  }

  lemma TakingAlone<T>(s: State<T>, c: nat, n: Node)
    requires c < |s.cons| && s.cons[c] == ReadySeen(s.tail, s.tailVer, n)
    requires n < |s.ready| && n < |s.data| && s.data[n].Some? && |s.ring| > 0 && s.h > 0 && |s.result| == s.popped
    ensures Steps(s, Consumer(c), 3) == SetC(Popped(s, c, n), c, Resting)
  {
    var s1 := Apply(s, Consumer(c));
    assert s1.cons[c] == Taking(n, s.popped);
    var s2 := Apply(s1, Consumer(c));
    assert s2.cons[c] == Clearing(n, s.popped) && s2.result == s.result + [s.data[n]];
    var s3 := Apply(s2, Consumer(c));
    assert s3.cons == s.cons[c := Resting];
    assert Steps(s, Consumer(c), 3) == Steps(s1, Consumer(c), 2) == Steps(s2, Consumer(c), 1) == s3;
  }

  lemma UndisturbedPop<T>(s: State<T>, c: nat)
    requires c < |s.cons| && s.cons[c].Resting? && s.tail < |s.next| && s.next[s.tail] < |s.ready| == |s.data|
    requires s.ready[s.next[s.tail]] && s.data[s.next[s.tail]].Some?
    requires |s.ring| > 0 && s.h > 0 && |s.result| == s.popped
    ensures PopAlone(s, c) == Popped(s, c, s.next[s.tail])
  {
    var n := s.next[s.tail];
    var s1 := Apply(s, Pop(c));
    Looking(s, c);
    var s3 := Steps(s1, Consumer(c), 2);
    TakingAlone(s3, c, n);
    StepsAdd(s1, Consumer(c), 2, 3);
    assert s3.cons[c := Resting] == s.cons;
  }

  /** In a queue that is between operations, an undisturbed pop returns the oldest claimed value there is,
      and returns false if there is none. */
  lemma PopReturnsOldest<T>(s: State<T>, c: nat)
    requires Inv(s) && c < |s.cons|
    requires (forall p :: 0 <= p < |s.prods| ==> s.prods[p].Idle?) && forall d :: 0 <= d < |s.cons| ==> s.cons[d].Resting?
    ensures if s.popped < |s.log| then
        && PopAlone(s, c).order == s.order + [s.log[s.popped]]
        && PopAlone(s, c).popped == s.popped + 1 && PopAlone(s, c).log == s.log
        && PopAlone(s, c).cons == s.cons && PopAlone(s, c).prods == s.prods
      else PopAlone(s, c) == s
  {
    assert s.next[s.tail] == s.ring[1];
    assert NodeOk(s, 1);
    if s.popped < |s.log| {
      UndisturbedPop(s, c);
    } else {
      Looking(s, c);
      var s1 := Apply(s, Pop(c));
      StepsAdd(s1, Consumer(c), 2, 3);
      assert s.cons[c := Resting] == s.cons;
      assert Steps(s, Consumer(c), 3) == s by { RestingStays(s, c, 3); }
    }
  }

  lemma RestingStays<T>(s: State<T>, c: nat, n: nat)
    requires c < |s.cons| && s.cons[c].Resting?
    ensures Steps(s, Consumer(c), n) == s
  {}

  /** In a queue that is between operations, an undisturbed push appends its value, growing the ring if it is full. */
  lemma PushAppends<T>(s: State<T>, p: nat, v: T)
    requires Inv(s) && p < |s.prods|
    requires (forall q :: 0 <= q < |s.prods| ==> s.prods[q].Idle?) && forall d :: 0 <= d < |s.cons| ==> s.cons[d].Resting?
    ensures s.head.Some?
    ensures var full := s.next[s.head.value] == s.tail;
      var s' := Steps(Apply(s, Push(p, v)), Producer(p), if full then 9 else 7);
      s'.log == s.log + [v] && s'.popped == s.popped && s'.prods == s.prods && s'.cons == s.cons
      && |s'.next| == |s.next| + (if full then s.block else 0)
  {
    assert NodeOk(s, s.h);
    if s.next[s.head.value] == s.tail { UndisturbedGrow(s, p, v); } else { UndisturbedPush(s, p, v); }
  }

  // ---------------------------------------------------------------------------------------------
  // A run that goes wrong
  // ---------------------------------------------------------------------------------------------

  function Repeat<T>(a: Action<T>, n: nat): seq<Action<T>> {
    if n == 0 then [] else [a] + Repeat(a, n - 1)
  }

  lemma {:induction false} RunConcat<T>(s: State<T>, a: seq<Action<T>>, b: seq<Action<T>>)
    ensures Run(s, a + b) == Run(Run(s, a), b)
    decreases |a|
  {
    if a == [] {
      assert a + b == b;
    } else {
      assert (a + b)[1..] == a[1..] + b;
      RunConcat(Apply(s, a[0]), a[1..], b);
    }
  }

  /** One action of a thread followed by n more of its steps. */
  function Burst<T>(first: Action<T>, then_: Action<T>, n: nat): seq<Action<T>> {
    [first] + Repeat(then_, n)
  }

  lemma RunBurst<T>(s: State<T>, first: Action<T>, then_: Action<T>, n: nat)
    ensures Run(s, Burst(first, then_, n)) == Steps(Apply(s, first), then_, n)
  {
    assert Burst(first, then_, n)[1..] == Repeat(then_, n);
    RunRepeat(Apply(s, first), then_, n);
  }

  lemma {:induction false} RunRepeat<T>(s: State<T>, a: Action<T>, n: nat)
    ensures Run(s, Repeat(a, n)) == Steps(s, a, n)
    decreases n
  {
    if n > 0 {
      assert Repeat(a, n)[1..] == Repeat(a, n - 1);
      RunRepeat(Apply(s, a), a, n - 1);
    }
  }

  ghost predicate Reachable(s0: State<int>, s: State<int>) {
    exists acts: seq<Action<int>> :: Run(s0, acts) == s
  }

  lemma ReachBurst(s0: State<int>, s: State<int>, first: Action<int>, then_: Action<int>, n: nat)
    requires Reachable(s0, s)
    ensures Reachable(s0, Steps(Apply(s, first), then_, n))
  {
    var acts: seq<Action<int>> :| Run(s0, acts) == s;
    RunConcat(s0, acts, Burst(first, then_, n));
    RunBurst(s, first, then_, n);
    assert Run(s0, acts + Burst(first, then_, n)) == Steps(Apply(s, first), then_, n);
  }

  /** What the run below needs to know of a state over the ring 0, 2, 3, 1. */
  datatype View = View(ready: seq<bool>, head: Node, tail: Node, h: nat, prods: seq<Producer<int>>,
                       cons: seq<Consumer>, log: seq<int>, data: seq<Option<int>>)

  const LINKS: seq<Node> := [2, 0, 3, 1]

  ghost predicate Looks(s: State<int>, v: View) {
    && s.next == LINKS && s.ready == v.ready && s.head == Some(v.head) && s.tail == v.tail && s.h == v.h
    && s.prods == v.prods && s.cons == v.cons && s.log == v.log && s.data == v.data
    && s.block == 2 && s.lockedBy.None?
    && |v.data| == |v.ready| == |s.ring| == |LINKS| && v.head < |LINKS| && v.tail < |LINKS|
    && |s.result| == s.popped == |v.log| + 1 - v.h
    && forall n :: 0 <= n < |LINKS| && v.ready[n] ==> v.data[n].Some?
  }

  /** A reachable state that looks like this. */
  ghost predicate At(s0: State<int>, s: State<int>, v: View) {
    Reachable(s0, s) && Looks(s, v)
  }

  function AfterPush(v: View, x: int): View
    requires |v.ready| == |v.data| == |LINKS| && v.head < |LINKS|
  {
    v.(ready := v.ready[v.head := true], head := LINKS[v.head], h := v.h + 1,
       log := v.log + [x], data := v.data[v.head := Some(x)])
  }

  function AfterPop(v: View): View
    requires |v.ready| == |LINKS| && v.tail < |LINKS| && v.h > 0
  {
    v.(ready := v.ready[LINKS[v.tail] := false], tail := LINKS[v.tail], h := v.h - 1)
  }

  lemma LooksPushed(s: State<int>, v: View, p: nat, x: int)
    requires Looks(s, v) && p < |v.prods| && v.prods[p].Idle? && LINKS[v.head] != v.tail && !v.ready[v.head]
    ensures Looks(PushAlone(s, p, x), AfterPush(v, x))
  {
    UndisturbedPush(s, p, x);
    hide PushAlone;
  }

  lemma PushAt(s0: State<int>, s: State<int>, v: View, x: int) returns (s': State<int>, v': View)
    requires At(s0, s, v) && |v.prods| > 0 && v.prods[0].Idle? && LINKS[v.head] != v.tail && !v.ready[v.head]
    ensures At(s0, s', v') && v' == AfterPush(v, x)
  {
    ReachBurst(s0, s, Push(0, x), Producer(0), 7);
    LooksPushed(s, v, 0, x);
    s', v' := PushAlone(s, 0, x), AfterPush(v, x);
  }

  lemma PopAt(s0: State<int>, s: State<int>, v: View, c: nat) returns (s': State<int>, v': View)
    requires At(s0, s, v) && c < |v.cons| && v.cons[c].Resting? && v.ready[LINKS[v.tail]] && v.h > 0
    ensures At(s0, s', v') && v' == AfterPop(v)
  {
    ReachBurst(s0, s, Pop(c), Consumer(c), 5);
    UndisturbedPop(s, c);
    s', v' := PopAlone(s, c), AfterPop(v);
    hide PopAlone;
  }

  function FirstView(prods: seq<Producer<int>>, cons: seq<Consumer>): View {
    View([true, false, false, false], 2, 1, 2, prods, cons, [1], [Some(1), None, None, None])
  }

  /** The first push finds the queue full and grows it to the ring 0, 2, 3, 1. */
  lemma FirstPush(s: State<int>, p: nat, prods: seq<Producer<int>>, cons: seq<Consumer>)
    requires s == Init<int>(2, 1, |prods|, |cons|) && p < |prods|
    requires prods == seq(|prods|, _ => Idle) && cons == seq(|cons|, _ => Resting)
    ensures Looks(Steps(Apply(s, Push(p, 1)), Producer(p), 9), FirstView(prods, cons))
  {
    assert s.next == [1, 0] && s.ready == [false, false] && s.prods == prods && s.cons == cons;
    UndisturbedGrow(s, p, 1);
    FirstPushed(s, p);
    hide Init, Spliced, NewBlock, Run, Steps, Apply;
  }

  lemma FirstPushed(s: State<int>, p: nat)
    requires |s.next| == 2 && s.next == [1, 0] && s.ready == [false, false] && s.data == [None, None]
    requires s.h == 1 && |s.ring| == 2 && s.block == 2
    ensures var s' := Grown(s, p, 0, 1);
      && s'.next == LINKS && s'.ready == [true, false, false, false] && s'.h == 2
      && |s'.ring| == 4 && s'.data == [Some(1), None, None, None]
  {}

  lemma FirstPushAt(s0: State<int>, prods: seq<Producer<int>>, cons: seq<Consumer>) returns (s: State<int>, v: View)
    requires s0 == Init<int>(2, 1, |prods|, |cons|) && |prods| > 0
    requires prods == seq(|prods|, _ => Idle) && cons == seq(|cons|, _ => Resting)
    ensures At(s0, s, v) && v == FirstView(prods, cons)
  {
    assert Run(s0, []) == s0;
    ReachBurst(s0, s0, Push(0, 1), Producer(0), 9);
    FirstPush(s0, 0, prods, cons);
    s, v := Steps(Apply(s0, Push(0, 1)), Producer(0), 9), FirstView(prods, cons);
  }

  /** Consumer 0 moves tail_ and stops before it reads the value. */
  lemma HoldAt(s0: State<int>, s: State<int>, v: View) returns (s': State<int>, v': View)
    requires At(s0, s, v) && v.cons == [Resting, Resting] && v.ready[LINKS[v.tail]] && v.h > 0
    ensures At(s0, s', v')
    ensures v' == v.(tail := LINKS[v.tail], h := v.h - 1, cons := [Taking(LINKS[v.tail], s.popped), Resting])
  {
    ReachBurst(s0, s, Pop(0), Consumer(0), 3);
    Looking(s, 0);
    var s3 := Steps(Apply(s, Pop(0)), Consumer(0), 2);
    StepsAdd(Apply(s, Pop(0)), Consumer(0), 2, 1);
    s' := Apply(s3, Consumer(0));
    assert Steps(s3, Consumer(0), 1) == s';
    v' := v.(tail := s'.tail, h := s'.h, cons := s'.cons);
  }

  /** With two consumers a value can be returned twice and another not at all: consumer 0 stops before it
      reads node 0, the ring goes round once, producer 0 claims node 0 again and waits for it to become
      unready, and consumer 1 takes the ready flag that is still set for the new value. */
  lemma StaleReadyIsPopped(s0: State<int>)
    requires s0 == Init<int>(2, 1, 2, 2)
    ensures exists s, k: nat :: Reachable(s0, s) && k < |s.result| && k < |s.log|
              && s.result[k].Some? && s.result[k].value != s.log[k]
  {
    var s, v := FirstPushAt(s0, [Idle, Idle], [Resting, Resting]);
    hide Init, AdvanceProducer, AdvanceConsumer;
    s, v := PushAt(s0, s, v, 2);
    s, v := HoldAt(s0, s, v);
    s, v := PushAt(s0, s, v, 3);
    assert v.ready == [true, false, true, true] && v.head == 1 && v.tail == 0 && v.h == 3;
    s, v := PopAt(s0, s, v, 1);
    s, v := PopAt(s0, s, v, 1);
    assert v.ready == [true, false, false, false] && v.head == 1 && v.tail == 3 && v.h == 1;
    s, v := PushAt(s0, s, v, 4);
    s, v := PopAt(s0, s, v, 1);
    assert v.ready == [true, false, false, false] && v.head == 0 && v.tail == 1 && v.h == 1;
    assert v.data[0] == Some(1) && |v.log| == 4;
    StalePop(s0, s, v);
  }

  lemma StalePop(s0: State<int>, s: State<int>, v: View)
    requires At(s0, s, v) && v.prods == [Idle, Idle] && |v.cons| == 2 && v.cons[1].Resting?
    requires v.head == 0 && v.tail == 1 && v.h == 1 && v.ready[0] && v.data[0] == Some(1)
    ensures exists r, k: nat :: Reachable(s0, r) && k < |r.result| && k < |r.log|
              && r.result[k].Some? && r.result[k].value != r.log[k]
  {
    ReachBurst(s0, s, Push(0, 5), Producer(0), 4);
    Claiming(s, 0, 5);
    var t := Steps(Apply(s, Push(0, 5)), Producer(0), 4);
    ReachBurst(s0, t, Pop(1), Consumer(1), 5);
    UndisturbedPop(t, 1);
    var r, k := PopAlone(t, 1), |v.log|;
    assert r.result[k] == Some(1) && r.log[k] == 5;
  }
}
