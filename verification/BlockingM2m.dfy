/**
 The blocking queue of include/pump/toolkit/freelock_queue.h over the growable ring queue of M2mQueue, step by
 step: thread t pushes as producer t, and the threads that may dequeue pop as consumer t.
 */
module BlockingM2m {
  import opened Wrappers
  import opened BlockingThreads
  import Sem = LightSemaphore
  import M = M2mQueue
  import B = BlockingQueue

  datatype State<T> = State(
    q: M.State<T>,
    sem: Sem.State,
    work: seq<Work>,
    // History
    calls: seq<B.Call>,
    takers: seq<nat>)

  predicate Ready<T>(s: State<T>, t: nat) {
    t < |s.work| && t < |s.sem.threads| && t < |s.q.prods|
  }

  /** The next step of the pop of lines 71, 86, 101, or the first of another try. */
  function PopAction<T>(q: M.State<T>, t: nat): M.Action<T>
    requires t < |q.cons|
  {
    if q.cons[t].Resting? then M.Pop(t) else M.Consumer(t)
  }

  function PopTry<T>(s: State<T>, t: nat, c: nat): State<T>
    requires Ready(s, t) && t < |s.q.cons|
  {
    var q' := M.Apply(s.q, PopAction(s.q, t));
    if s.q.cons[t].Clearing? && t < |q'.cons| && q'.cons[t].Resting? then
      s.(q := q', work := s.work[t := Rest], calls := B.Answer(s.calls, c, true))
    else if q'.popped > s.q.popped then
      s.(q := q', calls := B.Take(s.calls, c, s.q.popped), takers := s.takers + [c])
    else s.(q := q')
  }

  function Apply<T>(s: State<T>, a: Action<T>): State<T> {
    if !Ready(s, a.t) then s else
    match a
    case Enqueue(t, v) =>
      if s.work[t].Rest? then s.(q := M.Apply(s.q, M.Push(t, v)), work := s.work[t := Pushing]) else s
    case PushStep(t) =>
      if s.work[t].Pushing? then
        var q' := M.Apply(s.q, M.Producer(t));
        s.(q := q', work := s.work[t := if t < |q'.prods| && q'.prods[t].Idle? then ToSignal else Pushing])
      else s
    case SignalIt(t) =>
      if s.work[t].ToSignal? then s.(work := s.work[t := Signalling], sem := Sem.Apply(s.sem, Sem.Signal(t, 1))) else s
    case EnqueueReturn(t) =>
      if s.work[t].Signalling? && s.sem.threads[t].Idle? then s.(work := s.work[t := Rest]) else s
    case Dequeue(t, kind) =>
      if s.work[t].Rest? && t < |s.q.cons| then
        s.(work := s.work[t := Waiting(|s.calls|)], sem := Sem.Apply(s.sem, Sem.Wait(t, kind)),
           calls := s.calls + [B.Call(t, kind, [], None)])
      else s
    case SemStep(t, fails) => s.(sem := Sem.Apply(s.sem, Sem.Step(t, fails)))
    case Proceed(t) =>
      if s.work[t].Waiting? && s.sem.threads[t].Returned? then
        var s' := s.(sem := Sem.Apply(s.sem, Sem.Leave(t)));
        var c := s.work[t].c;
        if s.sem.threads[t].ok then s'.(work := s.work[t := Popping(c)])
        else s'.(work := s.work[t := Rest], calls := B.Answer(s.calls, c, false))
      else s
    case PopStep(t) => if s.work[t].Popping? && t < |s.q.cons| then PopTry(s, t, s.work[t].c) else s
  }

  function Run<T>(s: State<T>, acts: seq<Action<T>>): State<T>
    decreases |acts|
  {
    if acts == [] then s else Run(Apply(s, acts[0]), acts[1..])
  }

  function Init<T>(block: nat, blocks: nat, maxSpin: int, threads: nat, dequeuers: nat): State<T>
    requires block * blocks >= 2
  {
    State(M.Init<T>(block, blocks, threads, dequeuers), Sem.Init(maxSpin, 0, threads), seq(threads, _ => Rest), [], [])
  }

  /** As in M2mQueue: an exchange of head_ or tail_ that succeeds finds true what was read before it. */
  ghost predicate Admissible<T>(s: State<T>, a: Action<T>) {
    (a.PushStep? ==> M.HeadFresh(s.q, a.t)) && (a.PopStep? ==> M.TailFresh(s.q, a.t))
  }

  ghost predicate AdmissibleRun<T>(s: State<T>, acts: seq<Action<T>>)
    decreases |acts|
  {
    acts == [] || (Admissible(s, acts[0]) && AdmissibleRun(Apply(s, acts[0]), acts[1..]))
  }

  ghost predicate HeadsFresh<T>(s: State<T>, acts: seq<Action<T>>)
    decreases |acts|
  {
    acts == []
    || ((acts[0].PushStep? ==> M.HeadFresh(s.q, acts[0].t)) && HeadsFresh(Apply(s, acts[0]), acts[1..]))
  }

  // ---------------------------------------------------------------------------------------------
  // What the threads look like to BlockingQueue
  // ---------------------------------------------------------------------------------------------

  predicate Owning<T>(pc: M.Producer<T>) { pc.Extended? || pc.Claimed? || pc.Writable? || pc.Written? }

  predicate Holding(pc: M.Consumer) { pc.Taking? || pc.Clearing? }

  function AbsWork<T>(w: Work, pc: M.Producer<T>, holding: bool): B.Work {
    match w
    case Rest => B.Rest
    case Pushing => if Owning(pc) then B.Claimed(pc.k) else B.Rest
    case ToSignal => B.ToSignal
    case Signalling => B.Signalling
    case Waiting(c) => B.Waiting(c)
    case Popping(c) => if holding then B.Taken(c) else B.PopLoop(c)
  }

  function AbsThread<T>(s: State<T>, t: nat): B.Work
    requires t < |s.work| && t < |s.q.prods|
  {
    AbsWork(s.work[t], s.q.prods[t], t < |s.q.cons| && Holding(s.q.cons[t]))
  }

  /** The push that claimed the k-th value has published it. */
  predicate PublishedAt<T>(q: M.State<T>, k: nat)
    requires k < |q.owner|
  {
    !(q.owner[k] < |q.prods| && M.Owns(q.prods[q.owner[k]], k))
  }

  function Abs<T>(s: State<T>): (r: B.State<T>)
    requires |s.work| == |s.q.prods|
    ensures |r.work| == |s.work| && forall t :: 0 <= t < |s.work| ==> r.work[t] == AbsThread(s, t)
    ensures |r.published| == |s.q.owner| && forall k :: 0 <= k < |s.q.owner| ==> r.published[k] == PublishedAt(s.q, k)
  {
    B.State(s.sem, seq(|s.work|, t requires 0 <= t < |s.work| => AbsThread(s, t)),
            s.q.log, seq(|s.q.owner|, k requires 0 <= k < |s.q.owner| => PublishedAt(s.q, k)), s.q.popped,
            s.q.owner, s.calls, s.takers)
  }

  /** The step of BlockingQueue that a step here amounts to, if it amounts to one. */
  function AbsStep<T>(s: State<T>, a: Action<T>): Option<B.Action<T>>
    requires Ready(s, a.t)
  {
    var t := a.t;
    match a
    case Enqueue(_, v) => None
    case PushStep(_) =>
      if !s.work[t].Pushing? || s.q.prods[t].Idle? then None
      else if s.q.prods[t].Written? then Some(B.Publish(t))
      else if |M.Apply(s.q, M.Producer(t)).log| > |s.q.log| then Some(B.Enqueue(t, s.q.prods[t].v))
      else None
    case SignalIt(_) => Some(B.SignalIt(t))
    case EnqueueReturn(_) => Some(B.EnqueueReturn(t))
    case Dequeue(_, kind) => if s.work[t].Rest? && t < |s.q.cons| then Some(B.Dequeue(t, kind)) else None
    case SemStep(_, fails) => Some(B.SemStep(t, fails))
    case Proceed(_) => Some(B.Proceed(t))
    case PopStep(_) =>
      if !s.work[t].Popping? || t >= |s.q.cons| then None
      else if s.q.cons[t].Clearing? then Some(B.Return(t))
      else if M.Apply(s.q, PopAction(s.q, t)).popped > s.q.popped then Some(B.TryPop(t))
      else None
  }

  // ---------------------------------------------------------------------------------------------
  // The invariant
  // ---------------------------------------------------------------------------------------------

  ghost predicate ThreadOk<T>(s: State<T>, t: nat)
    requires t < |s.work| && t < |s.q.prods|
  {
    && (s.q.prods[t].Idle? <==> !s.work[t].Pushing?)
    && (t < |s.q.cons| && !s.q.cons[t].Resting? ==> s.work[t].Popping?)
    && (s.work[t].Waiting? || s.work[t].Popping? ==> t < |s.q.cons|)
    && (t < |s.q.cons| && s.q.cons[t].Taking? ==>
          s.work[t].Popping? && s.work[t].c < |s.calls| && s.calls[s.work[t].c].took == [s.q.cons[t].k])
  }

  ghost predicate Joined<T>(s: State<T>) {
    && |s.q.cons| <= |s.work| == |s.sem.threads| == |s.q.prods|
    && forall t :: 0 <= t < |s.work| ==> ThreadOk(s, t)
  }

  ghost predicate Inv<T>(s: State<T>) {
    M.Inv(s.q) && Joined(s) && B.Inv(Abs(s))
  }

  // ---------------------------------------------------------------------------------------------
  // Every step is one of BlockingQueue, or none
  // ---------------------------------------------------------------------------------------------

  /** The abstract state after the step that amounts to. */
  function Expected<T>(s: State<T>, a: Action<T>): B.State<T>
    requires |s.work| == |s.q.prods| && Ready(s, a.t)
  {
    match AbsStep(s, a)
    case None => Abs(s)
    case Some(b) => B.Apply(Abs(s), b)
  }

  /** What a step of producer t does for the others. */
  ghost predicate ProducerMoves<T>(q: M.State<T>, q': M.State<T>, t: nat) {
    && t < |q.prods| && |q'.prods| == |q.prods| && q'.prods == q.prods[t := q'.prods[t]]
    && q'.cons == q.cons && q'.popped == q.popped
    && if q.prods[t].Written? then q'.prods[t].Idle? && q'.log == q.log && q'.owner == q.owner
       else
         && (q'.prods[t].Idle? <==> q.prods[t].Idle?)
         && if |q'.log| > |q.log| then
              && !q.prods[t].Idle? && !Owning(q.prods[t]) && Owning(q'.prods[t]) && q'.prods[t].k == |q.log|
              && q'.log == q.log + [q.prods[t].v] && q'.owner == q.owner + [t]
            else
              && q'.log == q.log && q'.owner == q.owner && (Owning(q.prods[t]) <==> Owning(q'.prods[t]))
              && (Owning(q.prods[t]) ==> q'.prods[t].k == q.prods[t].k)
  }

  lemma ProducerStepMoves<T>(q: M.State<T>, t: nat)
    requires t < |q.prods| && (q.prods[t].Written? ==> q.prods[t].w < |q.ready|)
    ensures ProducerMoves(q, M.Apply(q, M.Producer(t)), t)
  {
    hide M.Spliced, M.NewBlock;
  }

  lemma WrittenNode<T>(q: M.State<T>, t: nat)
    requires M.Inv(q) && t < |q.prods| && Owning(q.prods[t])
    ensures q.prods[t].w < |q.ready| && q.prods[t].k < |q.log| == |q.owner| && q.owner[q.prods[t].k] == t
  {
    assert M.ProducerOk(q, t);
  }

  lemma PushRefines<T>(s: State<T>, t: nat)
    requires M.Inv(s.q) && Joined(s) && Ready(s, t)
    ensures Joined(Apply(s, PushStep(t))) && Abs(Apply(s, PushStep(t))) == Expected(s, PushStep(t))
  {
    assert ThreadOk(s, t);
    if s.work[t].Pushing? {
      var q' := M.Apply(s.q, M.Producer(t));
      if Owning(s.q.prods[t]) { WrittenNode(s.q, t); }
      ProducerStepMoves(s.q, t);
      assert |s.q.log| == |s.q.owner|;
      hide M.Apply, M.Inv;
      PushJoined(s, t);
      if s.q.prods[t].Written? { PublishRefines(s, t); }
      else if |q'.log| > |s.q.log| { ClaimRefines(s, t); }
      else { QuietRefines(s, t); }
    }
  }

  lemma PushJoined<T>(s: State<T>, t: nat)
    requires Joined(s) && Ready(s, t) && s.work[t].Pushing?
    requires ProducerMoves(s.q, M.Apply(s.q, M.Producer(t)), t)
    ensures Joined(Apply(s, PushStep(t)))
  {
    hide M.Apply;
    var s' := Apply(s, PushStep(t));
    forall u | 0 <= u < |s.work| ensures ThreadOk(s', u) { assert ThreadOk(s, u); }
  }

  lemma PublishRefines<T>(s: State<T>, t: nat)
    requires Joined(s) && Ready(s, t) && s.work[t].Pushing? && s.q.prods[t].Written?
    requires ProducerMoves(s.q, M.Apply(s.q, M.Producer(t)), t)
    requires s.q.prods[t].k < |s.q.owner| == |s.q.log| && s.q.owner[s.q.prods[t].k] == t
    ensures Abs(Apply(s, PushStep(t))) == Expected(s, PushStep(t))
  {
    hide M.Apply;
    var r, e := Abs(Apply(s, PushStep(t))), Expected(s, PushStep(t));
    assert r.work == e.work;
    assert r.published == e.published;
  }

  lemma ClaimRefines<T>(s: State<T>, t: nat)
    requires Joined(s) && Ready(s, t) && s.work[t].Pushing? && |s.q.log| == |s.q.owner|
    requires ProducerMoves(s.q, M.Apply(s.q, M.Producer(t)), t) && |M.Apply(s.q, M.Producer(t)).log| > |s.q.log|
    ensures Abs(Apply(s, PushStep(t))) == Expected(s, PushStep(t))
  {
    hide M.Apply;
    var r, e := Abs(Apply(s, PushStep(t))), Expected(s, PushStep(t));
    assert r.work == e.work;
    assert r.published == e.published;
  }

  lemma QuietRefines<T>(s: State<T>, t: nat)
    requires Joined(s) && Ready(s, t) && s.work[t].Pushing? && !s.q.prods[t].Written? && |s.q.log| == |s.q.owner|
    requires ProducerMoves(s.q, M.Apply(s.q, M.Producer(t)), t) && |M.Apply(s.q, M.Producer(t)).log| <= |s.q.log|
    ensures Abs(Apply(s, PushStep(t))) == Expected(s, PushStep(t))
  {
    hide M.Apply;
    assert ThreadOk(s, t);
    var r, e := Abs(Apply(s, PushStep(t))), Expected(s, PushStep(t));
    assert r.work == e.work;
    assert r.published == e.published;
  }

  /** What a step of consumer t does for the others. */
  ghost predicate ConsumerMoves<T>(q: M.State<T>, q': M.State<T>, t: nat) {
    && t < |q.cons| && |q'.cons| == |q.cons| && q'.cons == q.cons[t := q'.cons[t]]
    && q'.prods == q.prods && q'.log == q.log && q'.owner == q.owner
    && if q.cons[t].Clearing? then q'.cons[t].Resting? && q'.popped == q.popped
       else if q'.popped > q.popped then
         q'.popped == q.popped + 1 && !Holding(q.cons[t]) && q'.cons[t].Taking? && q'.cons[t].k == q.popped
       else
         && q'.popped == q.popped && (Holding(q.cons[t]) <==> Holding(q'.cons[t]))
         && (q'.cons[t].Taking? ==> q'.cons[t] == q.cons[t])
  }

  lemma ConsumerStepMoves<T>(q: M.State<T>, t: nat)
    requires t < |q.cons| && (q.cons[t].Clearing? ==> q.cons[t].n < |q.ready|)
    ensures ConsumerMoves(q, M.Apply(q, PopAction(q, t)), t)
  {}

  /** What a fresh exchange of tail_ pops is published. */
  lemma PoppedIsPublished<T>(q: M.State<T>)
    requires M.Inv(q) && M.Published(q, 1)
    ensures q.popped < |q.log| == |q.owner| && PublishedAt(q, q.popped)
  {
    var p := q.owner[q.popped];
    if p < |q.prods| { assert M.ProducerOk(q, p); }
  }

  lemma PopRefines<T>(s: State<T>, t: nat)
    requires Inv(s) && Ready(s, t) && M.TailFresh(s.q, t)
    ensures Joined(Apply(s, PopStep(t))) && Abs(Apply(s, PopStep(t))) == Expected(s, PopStep(t))
  {
    assert ThreadOk(s, t);
    if s.work[t].Popping? {
      var q' := M.Apply(s.q, PopAction(s.q, t));
      assert M.ConsumerOk(s.q, t);
      ConsumerStepMoves(s.q, t);
      if q'.popped > s.q.popped { PoppedIsPublished(s.q); }
      assert |s.q.log| == |s.q.owner|;
      hide M.Apply, M.Inv;
      PopJoined(s, t);
      PopTryRefines(s, t);
    }
  }

  lemma PopJoined<T>(s: State<T>, t: nat)
    requires Joined(s) && B.CallsOk(Abs(s)) && Ready(s, t) && s.work[t].Popping? && t < |s.q.cons|
    requires ConsumerMoves(s.q, M.Apply(s.q, PopAction(s.q, t)), t)
    ensures Joined(Apply(s, PopStep(t)))
  {
    hide M.Apply;
    var s' := Apply(s, PopStep(t));
    var abs := Abs(s);
    assert ThreadOk(s, t) && B.OpenOk(abs.work, abs.calls, t) && B.CallOk(abs.work, abs.takers, abs.calls, s.work[t].c);
    forall u | 0 <= u < |s.work| ensures ThreadOk(s', u) {
      assert ThreadOk(s, u) && B.OpenOk(abs.work, abs.calls, u);
    }
  }

  lemma PopTryRefines<T>(s: State<T>, t: nat)
    requires Joined(s) && Ready(s, t) && s.work[t].Popping? && t < |s.q.cons| && |s.q.log| == |s.q.owner|
    requires ConsumerMoves(s.q, M.Apply(s.q, PopAction(s.q, t)), t)
    requires M.Apply(s.q, PopAction(s.q, t)).popped > s.q.popped ==> s.q.popped < |s.q.log| && PublishedAt(s.q, s.q.popped)
    ensures Abs(Apply(s, PopStep(t))) == Expected(s, PopStep(t))
  {
    hide M.Apply, B.Answer, B.Take;
    var r, e := Abs(Apply(s, PopStep(t))), Expected(s, PopStep(t));
    assert r.work == e.work;
    assert r.published == e.published;
  }

  lemma OutsideRefines<T>(s: State<T>, a: Action<T>)
    requires Joined(s) && Ready(s, a.t) && !a.PushStep? && !a.PopStep?
    ensures Joined(Apply(s, a)) && Abs(Apply(s, a)) == Expected(s, a)
  {
    OutsideJoined(s, a);
    if a.Enqueue? { BeginPushRefines(s, a.t, a.v); }
    else if a.Dequeue? || a.Proceed? { DequeueRefines(s, a); }
    else { SignalRefines(s, a); }
  }

  lemma BeginPushRefines<T>(s: State<T>, t: nat, v: T)
    requires Joined(s) && Ready(s, t)
    ensures |Apply(s, Enqueue(t, v)).work| == |Apply(s, Enqueue(t, v)).q.prods|
    ensures Abs(Apply(s, Enqueue(t, v))) == Abs(s)
  {
    assert ThreadOk(s, t);
    var s' := Apply(s, Enqueue(t, v));
    assert s'.q == s.q.(prods := s'.q.prods) && |s'.work| == |s'.q.prods| == |s.work|;
    hide Apply;
    assert Abs(s').work == Abs(s).work;
    assert Abs(s').published == Abs(s).published;
  }

  lemma DequeueRefines<T>(s: State<T>, a: Action<T>)
    requires Joined(s) && Ready(s, a.t) && (a.Dequeue? || a.Proceed?)
    requires |Apply(s, a).work| == |Apply(s, a).q.prods|
    ensures Abs(Apply(s, a)) == Expected(s, a)
  {
    hide Sem.Apply;
    assert ThreadOk(s, a.t);
    assert Abs(Apply(s, a)).work == Expected(s, a).work;
    assert Abs(Apply(s, a)).published == Expected(s, a).published;
  }

  lemma SignalRefines<T>(s: State<T>, a: Action<T>)
    requires Joined(s) && Ready(s, a.t) && (a.SignalIt? || a.EnqueueReturn? || a.SemStep?)
    requires |Apply(s, a).work| == |Apply(s, a).q.prods|
    ensures Abs(Apply(s, a)) == Expected(s, a)
  {
    hide Sem.Apply;
    assert Abs(Apply(s, a)).work == Expected(s, a).work;
    assert Abs(Apply(s, a)).published == Expected(s, a).published;
  }

  lemma OutsideJoined<T>(s: State<T>, a: Action<T>)
    requires Joined(s) && Ready(s, a.t) && !a.PushStep? && !a.PopStep?
    ensures Joined(Apply(s, a))
  {
    var s' := Apply(s, a);
    SemThreads(s.sem);
    hide Sem.Apply;
    forall u | 0 <= u < |s.work| ensures ThreadOk(s', u) { assert ThreadOk(s, u); }
  }

  /** Every step is the step of BlockingQueue that AbsStep names, or none of its steps. */
  lemma StepRefines<T>(s: State<T>, a: Action<T>)
    requires Inv(s) && Ready(s, a.t) && Admissible(s, a)
    ensures Joined(Apply(s, a)) && Abs(Apply(s, a)) == Expected(s, a)
  {
    hide M.Inv, B.Inv, Joined, Expected, M.HeadFresh, M.TailFresh;
    if a.PushStep? { PushRefines(s, a.t); } else if a.PopStep? { PopRefines(s, a.t); } else { OutsideRefines(s, a); }
  }

  lemma QueueKeeps<T>(s: State<T>, a: Action<T>)
    requires M.Inv(s.q) && Admissible(s, a)
    ensures M.Inv(Apply(s, a).q)
  {
    hide M.Apply, M.Inv, M.HeadFresh, M.TailFresh;
    match a
    case Enqueue(t, v) => M.StepKeeps(s.q, M.Push(t, v));
    case PushStep(t) => M.StepKeeps(s.q, M.Producer(t));
    case PopStep(t) => if t < |s.q.cons| { M.StepKeeps(s.q, PopAction(s.q, t)); }
    case _ =>
  }

  lemma StepKeeps<T>(s: State<T>, a: Action<T>)
    requires Inv(s) && Admissible(s, a)
    ensures Inv(Apply(s, a))
  {
    QueueKeeps(s, a);
    if Ready(s, a.t) {
      StepRefines(s, a);
      hide Apply, M.Inv, B.Inv, Joined, AbsStep;
      if AbsStep(s, a).Some? { B.StepKeeps(Abs(s), AbsStep(s, a).value); }
    }
  }

  /** An exchange of tail_ that succeeds keeps the invariant exactly when it is fresh. */
  lemma PopKeepsIff<T>(s: State<T>, t: nat)
    requires Inv(s) && Ready(s, t) && s.work[t].Popping? && t < |s.q.cons|
    requires s.q.cons[t].ReadySeen? && s.q.cons[t].t == s.q.tail
    ensures Inv(Apply(s, PopStep(t))) <==> M.TailFresh(s.q, t)
  {
    TailFreshIff(s.q, t);
    PopStepQueue(s, t);
    InvQueue(s);
    InvQueue(Apply(s, PopStep(t)));
    hide Inv, Apply, M.Apply, M.Inv, M.TailFresh;
    if M.TailFresh(s.q, t) { StepKeeps(s, PopStep(t)); }
  }

  lemma TailFreshIff<T>(q: M.State<T>, t: nat)
    requires M.Inv(q) && t < |q.cons| && q.cons[t].ReadySeen? && q.cons[t].t == q.tail
    ensures M.Inv(M.Apply(q, PopAction(q, t))) <==> M.TailFresh(q, t)
  {
    M.PopIffPublished(q, t);
    assert M.Shape(q);
    hide M.Inv, M.Shape, M.Published, M.AdvanceConsumer;
  }

  lemma PopStepQueue<T>(s: State<T>, t: nat)
    requires Ready(s, t) && s.work[t].Popping? && t < |s.q.cons|
    ensures Apply(s, PopStep(t)).q == M.Apply(s.q, PopAction(s.q, t))
  {
    hide M.Apply;
  }

  lemma InvQueue<T>(s: State<T>)
    ensures Inv(s) ==> M.Inv(s.q)
  {}

  lemma InitOk<T>(block: nat, blocks: nat, maxSpin: int, threads: nat, dequeuers: nat)
    requires block * blocks >= 2 && dequeuers <= threads
    ensures Inv(Init<T>(block, blocks, maxSpin, threads, dequeuers))
  {
    var s := Init<T>(block, blocks, maxSpin, threads, dequeuers);
    M.InitOk<T>(block, blocks, threads, dequeuers);
    B.InitOk<T>(maxSpin, threads);
    hide M.Inv, B.Inv;
    assert Abs(s).work == B.Init<T>(maxSpin, threads).work;
    assert Abs(s) == B.Init<T>(maxSpin, threads);
  }

  lemma {:induction false} RunKeeps<T>(s: State<T>, acts: seq<Action<T>>)
    requires Inv(s) && AdmissibleRun(s, acts)
    ensures Inv(Run(s, acts))
    decreases |acts|
  {
    hide Inv, Apply, Admissible;
    if acts != [] {
      StepKeeps(s, acts[0]);
      RunKeeps(Apply(s, acts[0]), acts[1..]);
    }
  }

  // ---------------------------------------------------------------------------------------------
  // What every run guarantees
  // ---------------------------------------------------------------------------------------------

  /** A dequeue that has returned true has returned the value claimed in the position it took. */
  ghost predicate ReturnsItsValue<T>(s: State<T>, c: nat)
    requires c < |s.calls|
  {
    s.calls[c].answer == Some(true) ==>
      && |s.calls[c].took| == 1 && s.calls[c].took[0] < |s.q.result| && s.calls[c].took[0] < |s.q.log|
      && s.q.result[s.calls[c].took[0]] == Some(s.q.log[s.calls[c].took[0]])
  }

  lemma ValueIsRight<T>(s: State<T>, c: nat)
    requires Joined(s) && B.CallsOk(Abs(s)) && M.TicketsOk(s.q) && c < |s.calls|
    ensures ReturnsItsValue(s, c)
  {
    var abs := Abs(s);
    assert B.CallOk(abs.work, abs.takers, abs.calls, c);
    if s.calls[c].answer == Some(true) {
      var k := s.calls[c].took[0];
      assert M.Delivered(s.q, k);
      if s.q.result[k].None? { TakingIsOpen(s, s.q.taker[k]); }
    }
  }

  lemma TakingIsOpen<T>(s: State<T>, t: nat)
    requires Joined(s) && B.CallsOk(Abs(s)) && t < |s.work| && t < |s.q.cons| && s.q.cons[t].Taking?
    ensures s.q.cons[t].k < |s.takers| && s.takers[s.q.cons[t].k] < |s.calls|
    ensures s.calls[s.takers[s.q.cons[t].k]].answer.None?
  {
    var abs := Abs(s);
    assert ThreadOk(s, t) && B.OpenOk(abs.work, abs.calls, t);
    assert B.CallOk(abs.work, abs.takers, abs.calls, s.work[t].c);
  }

  /** Any number of threads and dequeuers, any timeouts, any admissible interleaving: what a dequeue has returned is
      right, tokens are covered, and between operations there is a token for every value left. */
  lemma EveryRun<T>(block: nat, blocks: nat, maxSpin: int, threads: nat, dequeuers: nat, acts: seq<Action<T>>)
    requires block * blocks >= 2 && dequeuers <= threads
    requires AdmissibleRun(Init<T>(block, blocks, maxSpin, threads, dequeuers), acts)
    ensures var s := Run(Init<T>(block, blocks, maxSpin, threads, dequeuers), acts);
      && B.Shared(s.calls, s.q.popped)
      && (forall c :: 0 <= c < |s.calls| ==> ReturnsItsValue(s, c))
      && Joined(s) && s.q.popped + B.Trues(B.Holders(Abs(s).work, s.sem.threads)) <= |s.q.log|
      && (AtRest(s) ==> s.sem.count == |s.q.log| - s.q.popped)
  {
    InitOk<T>(block, blocks, maxSpin, threads, dequeuers);
    RunKeeps(Init<T>(block, blocks, maxSpin, threads, dequeuers), acts);
    WhatHolds(Run(Init<T>(block, blocks, maxSpin, threads, dequeuers), acts));
  }

  ghost predicate AtRest<T>(s: State<T>) { forall t :: 0 <= t < |s.work| ==> s.work[t].Rest? }

  lemma WhatHolds<T>(s: State<T>)
    requires Inv(s)
    ensures B.Shared(s.calls, s.q.popped)
    ensures forall c :: 0 <= c < |s.calls| ==> ReturnsItsValue(s, c)
    ensures Joined(s) && s.q.popped + B.Trues(B.Holders(Abs(s).work, s.sem.threads)) <= |s.q.log|
    ensures AtRest(s) ==> s.sem.count == |s.q.log| - s.q.popped
  {
    B.CallsShare(Abs(s));
    if AtRest(s) {
      hide M.Inv, B.Inv;
      B.QuietTokens(Abs(s));
    }
    forall c | 0 <= c < |s.calls| ensures ReturnsItsValue(s, c) { ValueIsRight(s, c); }
  }

  // ---------------------------------------------------------------------------------------------
  // One dequeuer
  // ---------------------------------------------------------------------------------------------

  lemma SingleStepKeeps<T>(s: State<T>, a: Action<T>)
    requires Inv(s) && M.SingleOk(s.q) && (a.PushStep? ==> M.HeadFresh(s.q, a.t))
    ensures Admissible(s, a) && Inv(Apply(s, a)) && M.SingleOk(Apply(s, a).q)
  {
    SingleQueueKeeps(s, a);
    hide Apply, Inv, M.SingleOk, M.HeadFresh, M.TailFresh;
    StepKeeps(s, a);
  }

  lemma SingleQueueKeeps<T>(s: State<T>, a: Action<T>)
    requires M.Inv(s.q) && M.SingleOk(s.q) && (a.PushStep? ==> M.HeadFresh(s.q, a.t))
    ensures Admissible(s, a) && M.SingleOk(Apply(s, a).q)
  {
    if a.PopStep? { M.SingleIsAdmissible(s.q, M.Consumer(a.t)); }
    hide M.Apply, M.Inv, M.SingleOk, M.HeadFresh, M.TailFresh;
    match a
    case Enqueue(t, v) => M.SingleStepKeeps(s.q, M.Push(t, v));
    case PushStep(t) => M.SingleStepKeeps(s.q, M.Producer(t));
    case PopStep(t) => if t < |s.q.cons| { M.SingleStepKeeps(s.q, PopAction(s.q, t)); }
    case _ =>
  }

  lemma {:induction false} SingleRunKeeps<T>(s: State<T>, acts: seq<Action<T>>)
    requires Inv(s) && M.SingleOk(s.q) && HeadsFresh(s, acts)
    ensures Inv(Run(s, acts)) && M.SingleOk(Run(s, acts).q)
    decreases |acts|
  {
    hide Inv, Apply, Admissible, M.SingleOk, M.HeadFresh;
    if acts != [] {
      SingleStepKeeps(s, acts[0]);
      SingleRunKeeps(Apply(s, acts[0]), acts[1..]);
    }
  }

  /** With one dequeuer nothing need be assumed about tail_: in every interleaving with any number of enqueuers and
      any timeouts, the dequeues that return true return the values in the order of their claims. */
  lemma OneDequeuer<T>(block: nat, blocks: nat, maxSpin: int, threads: nat, acts: seq<Action<T>>)
    requires block * blocks >= 2 && threads >= 1
    requires HeadsFresh(Init<T>(block, blocks, maxSpin, threads, 1), acts)
    ensures var s := Run(Init<T>(block, blocks, maxSpin, threads, 1), acts);
      && s.q.order <= s.q.log && |s.q.order| <= s.q.popped <= |s.q.order| + 1
      && B.Shared(s.calls, s.q.popped)
      && (forall c :: 0 <= c < |s.calls| ==> s.calls[c].t == 0 && ReturnsItsValue(s, c))
      && Joined(s) && s.q.popped + B.Trues(B.Holders(Abs(s).work, s.sem.threads)) <= |s.q.log|
  {
    var s0 := Init<T>(block, blocks, maxSpin, threads, 1);
    InitOk<T>(block, blocks, maxSpin, threads, 1);
    SingleRunKeeps(s0, acts);
    OnlyDequeuer(s0, acts);
    var s := Run(s0, acts);
    WhatHolds(s);
    hide Inv, Init, Run;
    assert M.SingleOk(s.q);
  }

  lemma {:induction false} OnlyDequeuer<T>(s: State<T>, acts: seq<Action<T>>)
    requires |s.q.cons| == 1 && forall c :: 0 <= c < |s.calls| ==> s.calls[c].t == 0
    ensures forall c :: 0 <= c < |Run(s, acts).calls| ==> Run(s, acts).calls[c].t == 0
    decreases |acts|
  {
    if acts != [] {
      DequeuersStay(s, acts[0]);
      hide Apply;
      OnlyDequeuer(Apply(s, acts[0]), acts[1..]);
    }
  }

  lemma DequeuersStay<T>(s: State<T>, a: Action<T>)
    requires |s.q.cons| == 1 && forall c :: 0 <= c < |s.calls| ==> s.calls[c].t == 0
    ensures |Apply(s, a).q.cons| == 1 && forall c :: 0 <= c < |Apply(s, a).calls| ==> Apply(s, a).calls[c].t == 0
  {
    ConsumersStay(s.q);
    hide M.Apply, Sem.Apply;
  }

  lemma ConsumersStay<T>(q: M.State<T>)
    ensures forall a: M.Action<T> :: |M.Apply(q, a).cons| == |q.cons|
  {
    forall a: M.Action<T> ensures |M.Apply(q, a).cons| == |q.cons| {
      if a.Producer? { M.ProducerFrame(q, a.p); hide M.AdvanceProducer; }
    }
  }

  /** The only dequeuer, inside the inner pop loop: the pop gives up exactly while the oldest claimed value, which is
      there for its token, is still to be published by the push that claimed it. */
  lemma SpinsOnlyBehindAPush<T>(s: State<T>)
    requires Inv(s) && M.SingleOk(s.q) && |s.work| > 0 && s.work[0].Popping? && s.q.cons[0].NextLoaded?
    ensures s.q.popped < |s.q.log| == |s.q.owner|
    ensures Apply(s, PopStep(0)).q.cons[0].Resting? <==> !PublishedAt(s.q, s.q.popped)
  {
    M.FalseIffUnpublished(s.q);
    B.SpinOnlyBehindAPush(Abs(s), 0);
    if M.Published(s.q, 1) { PoppedIsPublished(s.q); }
    assert M.ConsumerOk(s.q, 0);
  }
}
