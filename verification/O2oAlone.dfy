/** Pushes and pops of O2oQueue that the other thread does not disturb, wherever it stands. */
module O2oAlone {
  import opened O2oQueue
  import Modular

  /** The same thread takes n steps; where it has finished, a step changes nothing. */
  function Steps<T>(s: State<T>, a: Action<T>, n: nat): State<T>
    decreases n
  {
    if n == 0 || !InRange(s) then s else Steps(Apply(s, a), a, n - 1)
  }

  // ---------------------------------------------------------------------------------------------
  // Push
  // ---------------------------------------------------------------------------------------------

  /** No slot is free in the tail block, ... */
  predicate TailFull<T>(s: State<T>)
    requires s.blkTail < |s.blocks|
  {
    var b := s.blocks[s.blkTail];
    |b.hist| + 1 > b.taken + s.size - 1
  }

  /** ... and none behind it: the next block is the head block. */
  predicate Full<T>(s: State<T>)
    requires s.blkTail < |s.blocks|
  {
    TailFull(s) && s.blocks[s.blkTail].next == s.blkHead
  }

  predicate Deciding<T>(pc: Producer<T>) { pc.Begin? || pc.LoadHead? || pc.CheckNext? }

  /** The longest the producer can still take. */
  function ToIdle<T>(pc: Producer<T>): nat {
    match pc
    case Idle => 0
    case Begin(v) => 8
    case LoadHead(v) => 7
    case CheckNext(v) => 6
    case Store(v) => 2
    case Publish(v) => 1
    case NextLoad(v, n) => 4
    case NextStore(v, n, t) => 3
    case NextPublish(v, n, t) => 2
    case NextMove(v, n) => 1
    case Grow(v) => 5
    case GrowStore(v, n) => 4
    case GrowPublish(v, n) => 3
    case GrowMove(v, n) => 2
    case GrowCount => 1
  }

  /** The value of a push that is still to come into the queue. */
  function Coming<T>(pc: Producer<T>): seq<T> {
    if pc.Idle? || pc.GrowCount? then [] else [pc.v]
  }

  /** The capacity once the push has finished. */
  function CapacityAfter<T>(s: State<T>): nat
    requires s.blkTail < |s.blocks|
  {
    s.capacity + (if Growing(s.prod) || s.prod.Grow? || (Deciding(s.prod) && Full(s)) then s.size else 0)
  }

  ghost predicate PushGoesOn<T>(s: State<T>) {
    Inv(s) && (s.prod.CheckNext? ==> TailFull(s))
  }

  /** The rest of the push stays what it was, and gets shorter. */
  ghost predicate PushMoves<T>(s: State<T>, s': State<T>) {
    && s.blkTail < |s.blocks| && s'.blkTail < |s'.blocks|
    && s'.popped == s.popped && s'.cons == s.cons && s'.size == s.size
    && s'.pushed + Coming(s'.prod) == s.pushed + Coming(s.prod)
    && CapacityAfter(s') == CapacityAfter(s)
    && (if s.prod.Idle? then s' == s else ToIdle(s'.prod) < ToIdle(s.prod))
    && (s'.prod.CheckNext? ==> TailFull(s'))
  }

  lemma PushStep<T>(s: State<T>)
    requires PushGoesOn(s)
    ensures InRange(s) && PushGoesOn(StepProducer(s)) && PushMoves(s, StepProducer(s))
  {
    StepKeeps(s, ProducerStep);
    hide StepProducer;
    if Deciding(s.prod) { DecidingStep(s); }
    else {
      NextIsThere(s);
      hide Inv;
      if s.prod.Store? || s.prod.Publish? || s.prod.Idle? || s.prod.GrowCount? || s.prod.NextMove? || s.prod.GrowMove? {
        LinkingStep(s);
      } else {
        FillingStep(s);
      }
    }
  }

  lemma DecidingStep<T>(s: State<T>)
    requires PushGoesOn(s) && InRange(s) && Deciding(s.prod)
    ensures PushMoves(s, StepProducer(s))
  {
    var b := s.blocks[s.blkTail];
    assert BlockOk(b, s.size);
    RoomIsThere(b, s.size, b.knownTaken);
    RoomIsThere(b, s.size, b.taken);
    assert RoomSeen(s);
    hide PushGoesOn, BlockOk, RoomSeen, StepProducer, PushMoves;
    if s.prod.LoadHead? { LoadingStep(s); } else { CheckingStep(s); }
  }

  /** What the producer finds out about room in the tail block is right. */
  ghost predicate RoomSeen<T>(s: State<T>)
    requires InRange(s)
  {
    var b := s.blocks[s.blkTail];
    && ((b.tail + 1) % s.size != b.cacheHead ==> !TailFull(s))
    && ((b.tail + 1) % s.size != b.head <==> !TailFull(s))
    && (s.prod.CheckNext? ==> TailFull(s))
  }

  lemma LoadingStep<T>(s: State<T>)
    requires InRange(s) && RoomSeen(s) && s.prod.LoadHead?
    ensures PushMoves(s, StepProducer(s))
  {
    var b, b' := s.blocks[s.blkTail], StepProducer(s).blocks[s.blkTail];
    assert b'.hist == b.hist && b'.taken == b.taken && b'.next == b.next;
  }

  lemma CheckingStep<T>(s: State<T>)
    requires InRange(s) && RoomSeen(s) && (s.prod.Begin? || s.prod.CheckNext?)
    ensures PushMoves(s, StepProducer(s))
  {}

  /** Where the producer has found its next block there is one, and its slot. */
  ghost predicate NextThere<T>(s: State<T>) {
    match s.prod
    case NextLoad(v, n) => n < |s.blocks|
    case NextStore(v, n, t) => n < |s.blocks| && t < s.size
    case NextPublish(v, n, t) => n < |s.blocks|
    case NextMove(v, n) => n < |s.blocks|
    case GrowStore(v, n) => n < |s.blocks|
    case GrowPublish(v, n) => n < |s.blocks|
    case GrowMove(v, n) => n < |s.blocks|
    case _ => true
  }

  lemma NextIsThere<T>(s: State<T>)
    requires Inv(s) && InRange(s)
    ensures NextThere(s)
  {
    hide BlockOk, Contents, FillOk, ConsumerOk;
  }

  lemma LinkingStep<T>(s: State<T>)
    requires NextThere(s) && InRange(s)
    requires s.prod.Store? || s.prod.Publish? || s.prod.Idle? || s.prod.GrowCount? || s.prod.NextMove? || s.prod.GrowMove?
    ensures PushMoves(s, StepProducer(s))
  {}

  lemma FillingStep<T>(s: State<T>)
    requires NextThere(s) && InRange(s)
    requires s.prod.Grow? || s.prod.GrowStore? || s.prod.GrowPublish?
             || s.prod.NextLoad? || s.prod.NextStore? || s.prod.NextPublish?
    ensures PushMoves(s, StepProducer(s))
  {}

  lemma {:induction false} PushEnds<T>(s: State<T>, n: nat)
    requires PushGoesOn(s) && ToIdle(s.prod) <= n && s.blkTail < |s.blocks|
    ensures var t := Steps(s, ProducerStep, n);
      && Inv(t) && t.prod.Idle? && t.cons == s.cons && t.popped == s.popped && t.size == s.size
      && t.pushed == s.pushed + Coming(s.prod) && t.capacity == CapacityAfter(s)
    decreases n
  {
    hide PushGoesOn, StepProducer, Inv;
    if n > 0 {
      PushStep(s);
      var s' := StepProducer(s);
      assert Inv(s') by { hide CapacityAfter; assert PushGoesOn(s'); InvOf(s'); }
      RangeOf(s');
      PushEnds(s', n - 1);
    } else {
      InvOf(s);
    }
  }

  lemma InvOf<T>(s: State<T>)
    requires PushGoesOn(s)
    ensures Inv(s)
  {}

  lemma RangeOf<T>(s: State<T>)
    requires Inv(s)
    ensures InRange(s)
  {
    StepKeeps(s, ProducerStep);
  }

  /** An undisturbed push finishes and appends its value, and adds a block's slots to capacity_ if and only if the tail
      block is full and the next one is the head block. */
  lemma PushAppends<T>(s: State<T>, v: T)
    requires Inv(s) && s.prod.Idle?
    ensures InRange(s)
    ensures var t := Steps(Apply(s, Push(v)), ProducerStep, 8);
      && Inv(t) && t.prod.Idle? && t.cons == s.cons
      && Contents(t) == Contents(s) + [v] && t.pushed == s.pushed + [v] && t.popped == s.popped
      && t.capacity == s.capacity + (if Full(s) then s.size else 0)
  {
    StepKeeps(s, Push(v));
    var s1 := Apply(s, Push(v));
    assert s1 == s.(prod := Begin(v)) && Contents(s1) == Contents(s) by { hide Inv, Flat; }
    RangeOf(s1);
    PushEnds(s1, 8);
    var t := Steps(s1, ProducerStep, 8);
    Cancel(s.pushed, s.popped, Contents(s), t.pushed, t.popped, Contents(t));
  }

  // ---------------------------------------------------------------------------------------------
  // Pop
  // ---------------------------------------------------------------------------------------------

  /** The longest the consumer can still take. */
  function ToRest<T>(pc: Consumer<T>): nat {
    match pc
    case Resting => 0
    case Start => 8
    case LoadTail => 7
    case CheckBlock => 6
    case ReloadTail => 5
    case MoveNext => 4
    case NextTail => 3
    case Read => 2
    case Release(v) => 1
  }

  /** What the pop has still to take out of the queue: its oldest value, if it has one. */
  function Going<T>(s: State<T>): seq<T>
    requires ChainOk(s)
  {
    if s.cons.Resting? || Contents(s) == [] then [] else [Contents(s)[0]]
  }

  ghost predicate PopGoesOn<T>(s: State<T>) {
    Inv(s) && (s.cons.CheckBlock? ==> (s.sawEmpty <==> Contents(s) == []))
  }

  lemma PopStep<T>(s: State<T>)
    requires PopGoesOn(s)
    ensures InRange(s)
    ensures var s' := StepConsumer(s);
      && PopGoesOn(s')
      && s'.pushed == s.pushed && s'.prod == s.prod && s'.capacity == s.capacity
      && s'.popped + Going(s') == s.popped + Going(s)
      && (if s.cons.Resting? then s' == s else ToRest(s'.cons) < ToRest(s.cons))
  {
    StepKeeps(s, ConsumerStep);
    var s' := StepConsumer(s);
    StepRefines(s, ConsumerStep);
    ConsumerStepKeeps(s);
    if s.cons.LoadTail? { LookSeesEmptiness(s); }
    if s.cons.CheckBlock? && s'.cons.Resting? { FalseMeansEmpty(s); }
    if s.cons.Read? { ReadFinds(s); }
    ToRestFalls(s);
    hide Inv, StepConsumer, Contents;
  }

  lemma ConsumerStepKeeps<T>(s: State<T>)
    requires InRange(s)
    ensures var s' := StepConsumer(s);
      && s'.pushed == s.pushed && s'.prod == s.prod && s'.capacity == s.capacity
      && (s'.popped == s.popped <==> !s.cons.Release?)
      && (s.cons.Release? ==> s'.cons.Resting?)
      && (s'.cons.Resting? ==> s.cons.Release? || s.cons.Resting? || s.cons.CheckBlock?)
      && (s'.cons.CheckBlock? ==> s.cons.LoadTail?)
  {}

  lemma ToRestFalls<T>(s: State<T>)
    requires Inv(s) && InRange(s)
    requires s.cons.Read? ==> s.blocks[s.blkHead].data[s.blocks[s.blkHead].head].Some?
    ensures if s.cons.Resting? then StepConsumer(s) == s else ToRest(StepConsumer(s).cons) < ToRest(s.cons)
  {
    hide Inv;
  }

  lemma {:induction false} PopEnds<T>(s: State<T>, n: nat)
    requires PopGoesOn(s) && ChainOk(s) && ToRest(s.cons) <= n
    ensures var t := Steps(s, ConsumerStep, n);
      && Inv(t) && t.cons.Resting? && t.prod == s.prod && t.pushed == s.pushed && t.capacity == s.capacity
      && t.popped == s.popped + Going(s)
    decreases n
  {
    hide PopGoesOn, StepConsumer, Inv, Contents, ChainOk;
    if n > 0 {
      PopStep(s);
      var s' := StepConsumer(s);
      ChainOf(s');
      PopEnds(s', n - 1);
    } else {
      ChainOf(s);
    }
  }

  lemma ChainOf<T>(s: State<T>)
    requires PopGoesOn(s)
    ensures Inv(s) && ChainOk(s)
  {}

  /** An undisturbed pop finishes: it takes the oldest value, or finds that there is none. */
  lemma PopTakesOldest<T>(s: State<T>)
    requires Inv(s) && s.cons.Resting?
    ensures InRange(s)
    ensures var t := Steps(Apply(s, Pop), ConsumerStep, 8);
      && Inv(t) && t.cons.Resting? && t.prod == s.prod && t.pushed == s.pushed && t.capacity == s.capacity
      && (if Contents(s) == [] then t.popped == s.popped && Contents(t) == []
          else t.popped == s.popped + [Contents(s)[0]] && Contents(t) == Contents(s)[1..])
  {
    StepKeeps(s, Pop);
    var s1 := Apply(s, Pop);
    PopBegins(s);
    hide Inv, Apply, Contents, PopGoesOn, Steps;
    ChainOf(s1);
    PopEnds(s1, 8);
    var t := Steps(s1, ConsumerStep, 8);
    PopResult(s.popped, Contents(s), t.popped, Contents(t), s.pushed);
  }

  lemma PopBegins<T>(s: State<T>)
    requires Inv(s) && InRange(s) && s.cons.Resting? && Inv(Apply(s, Pop))
    ensures Apply(s, Pop) == s.(cons := Start) && PopGoesOn(Apply(s, Pop)) && Contents(Apply(s, Pop)) == Contents(s)
  {
    hide BlockOk, Flat, ProducerOk, ConsumerOk, FillOk;
  }

  lemma PopResult<T>(popped: seq<T>, q: seq<T>, popped': seq<T>, q': seq<T>, pushed: seq<T>)
    requires pushed == popped + q == popped' + q' && popped' == popped + (if q == [] then [] else [q[0]])
    ensures q' == if q == [] then [] else q[1..]
  {
    Cancel(pushed, popped, q, pushed, popped', q');
  }
}
