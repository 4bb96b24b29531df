/**
 The blocking queue of include/pump/toolkit/freelock_queue.h over the single-producer single-consumer queue of
 O2oQueue, step by step: thread 0 enqueues and thread 1 dequeues.
 */
module BlockingO2o {
  import opened Wrappers
  import opened BlockingThreads
  import Sem = LightSemaphore
  import O = O2oQueue
  import B = BlockingQueue

  datatype State<T> = State(
    q: O.State<T>,
    sem: Sem.State,
    work: seq<Work>,
    // History
    calls: seq<B.Call>,
    takers: seq<nat>)

  predicate Ready<T>(s: State<T>, t: nat) {
    t < |s.work| && t < |s.sem.threads| && O.InRange(s.q)
  }

  function PopTry<T>(s: State<T>, t: nat, c: nat): State<T>
    requires Ready(s, t)
  {
    var s' := s.(q := O.Apply(s.q, if s.q.cons.Resting? then O.Pop else O.ConsumerStep));
    if s.q.cons.Release? then
      s'.(work := s.work[t := Rest], calls := B.Answer(B.Take(s.calls, c, |s.q.popped|), c, true), takers := s.takers + [c])
    else s'
  }

  /** The steps of a thread, as in BlockingM2m. */
  function Apply<T>(s: State<T>, a: Action<T>): State<T> {
    if !Ready(s, a.t) then s else
    match a
    case Enqueue(t, v) =>
      if t == 0 && s.work[t].Rest? then s.(q := O.Apply(s.q, O.Push(v)), work := s.work[t := Pushing]) else s
    case PushStep(t) =>
      if s.work[t].Pushing? then
        var q' := O.Apply(s.q, O.ProducerStep);
        s.(q := q', work := s.work[t := if q'.prod.Idle? then ToSignal else Pushing])
      else s
    case SignalIt(t) =>
      if s.work[t].ToSignal? then s.(work := s.work[t := Signalling], sem := Sem.Apply(s.sem, Sem.Signal(t, 1))) else s
    case EnqueueReturn(t) =>
      if s.work[t].Signalling? && s.sem.threads[t].Idle? then s.(work := s.work[t := Rest]) else s
    case Dequeue(t, kind) =>
      if t == 1 && s.work[t].Rest? then
        s.(work := s.work[t := Waiting(|s.calls|)], sem := Sem.Apply(s.sem, Sem.Wait(t, kind)),
           calls := s.calls + [B.Call(t, kind, [], None)])
      else s
    case SemStep(t, fails) => s.(sem := Sem.Apply(s.sem, Sem.Step(t, fails)))
    case Proceed(t) =>
      if s.work[t].Waiting? && s.sem.threads[t].Returned? then
        var s' := s.(sem := Sem.Apply(s.sem, Sem.Leave(t)));
        var c := s.work[t].c;
        if s.sem.threads[t].ok then s'.(work := s.work[t := Popping(c)])
        else s'.(work := s.work[t := Rest], calls := B.Answer(s.calls, c, false))
      else s
    case PopStep(t) => if s.work[t].Popping? then PopTry(s, t, s.work[t].c) else s
  }

  function Run<T>(s: State<T>, acts: seq<Action<T>>): State<T>
    decreases |acts|
  {
    if acts == [] then s else Run(Apply(s, acts[0]), acts[1..])
  }

  function Init<T>(size: nat, count: nat, maxSpin: int): State<T>
    requires size >= 2 && count >= 1
  {
    State(O.Init<T>(size, count), Sem.Init(maxSpin, 0, 2), [Rest, Rest], [], [])
  }

  // ---------------------------------------------------------------------------------------------
  // What the threads look like to BlockingQueue
  // ---------------------------------------------------------------------------------------------

  /** A push has published its value, and has only capacity_ to raise. */
  function AbsWork(w: Work, counting: bool): B.Work {
    match w
    case Rest => B.Rest
    case Pushing => if counting then B.ToSignal else B.Rest
    case ToSignal => B.ToSignal
    case Signalling => B.Signalling
    case Waiting(c) => B.Waiting(c)
    case Popping(c) => B.PopLoop(c)
  }

  function Abs<T>(s: State<T>): (r: B.State<T>)
    ensures |r.work| == |s.work| && forall t :: 0 <= t < |s.work| ==> r.work[t] == AbsWork(s.work[t], s.q.prod.GrowCount?)
    ensures |r.published| == |s.q.pushed| && forall k :: 0 <= k < |s.q.pushed| ==> r.published[k]
    ensures |r.owner| == |s.q.pushed| && forall k :: 0 <= k < |s.q.pushed| ==> r.owner[k] == 0
  {
    B.State(s.sem, seq(|s.work|, t requires 0 <= t < |s.work| => AbsWork(s.work[t], s.q.prod.GrowCount?)),
            s.q.pushed, seq(|s.q.pushed|, _ => true), |s.q.popped|, seq(|s.q.pushed|, _ => 0), s.calls, s.takers)
  }

  predicate Publishes<T>(pc: O.Producer<T>) { pc.Publish? || pc.NextMove? || pc.GrowMove? }

  /** The steps of BlockingQueue that a step here amounts to: this queue claims and publishes at once, and takes and
      returns at once. */
  function AbsSteps<T>(s: State<T>, a: Action<T>): seq<B.Action<T>>
    requires Ready(s, a.t)
  {
    var t := a.t;
    match a
    case Enqueue(_, v) => []
    case PushStep(_) =>
      if s.work[t].Pushing? && Publishes(s.q.prod) then [B.Enqueue(t, s.q.prod.v), B.Publish(t)] else []
    case SignalIt(_) => if s.work[t].ToSignal? then [B.SignalIt(t)] else []
    case EnqueueReturn(_) => [B.EnqueueReturn(t)]
    case Dequeue(_, kind) => if t == 1 then [B.Dequeue(t, kind)] else []
    case SemStep(_, fails) => [B.SemStep(t, fails)]
    case Proceed(_) => [B.Proceed(t)]
    case PopStep(_) => if s.work[t].Popping? && s.q.cons.Release? then [B.TryPop(t), B.Return(t)] else []
  }

  // ---------------------------------------------------------------------------------------------
  // The invariant
  // ---------------------------------------------------------------------------------------------

  ghost predicate Joined<T>(s: State<T>) {
    && |s.work| == |s.sem.threads| == 2
    && (s.q.prod.Idle? <==> !s.work[0].Pushing?) && !s.work[1].Pushing?
    && (!s.q.cons.Resting? ==> s.work[1].Popping?)
    && !s.work[0].Waiting? && !s.work[0].Popping?
    && (s.q.cons.CheckBlock? ==> !s.q.sawEmpty)
  }

  ghost predicate Inv<T>(s: State<T>) {
    O.Inv(s.q) && Joined(s) && B.Inv(Abs(s))
  }

  lemma Range<T>(s: State<T>)
    requires O.Inv(s.q)
    ensures O.InRange(s.q)
  {
    O.StartsInRange(s.q);
  }

  lemma RunTwo<T>(s: B.State<T>, a: B.Action<T>, b: B.Action<T>)
    ensures B.Run(s, [a, b]) == B.Apply(B.Apply(s, a), b) && B.Run(s, [a]) == B.Apply(s, a)
  {
    hide B.Apply;
    assert [a, b][1..] == [b] && [b][1..] == [] && [a][1..] == [];
    assert B.Run(B.Apply(s, a), [b]) == B.Run(B.Apply(B.Apply(s, a), b), []);
  }

  ghost predicate ProducerMoves<T>(q: O.State<T>, q': O.State<T>) {
    && q'.popped == q.popped && q'.cons == q.cons && q'.sawEmpty == q.sawEmpty
    && q'.pushed == (if Publishes(q.prod) then q.pushed + [q.prod.v] else q.pushed)
    && (q'.prod.Idle? <==> q.prod.Idle? || q.prod.Publish? || q.prod.NextMove? || q.prod.GrowCount?)
    && (q'.prod.GrowCount? <==> q.prod.GrowMove?)
  }

  lemma ProducerStepMoves<T>(q: O.State<T>)
    requires O.InRange(q)
    ensures ProducerMoves(q, O.StepProducer(q))
  {
    if Growing(q.prod) {
      GrowingMoves(q);
      hide O.StepProducer, ProducerMoves;
    }
    hide O.InRange;
  }

  predicate Growing<T>(pc: O.Producer<T>) {
    pc.Grow? || pc.GrowStore? || pc.GrowPublish? || pc.GrowMove? || pc.GrowCount? || pc.NextPublish? || pc.NextMove?
  }

  lemma GrowingMoves<T>(q: O.State<T>)
    requires O.InRange(q) && Growing(q.prod)
    ensures ProducerMoves(q, O.StepProducer(q))
  {
    hide O.InRange, O.NewBlock;
  }

  ghost predicate ConsumerMoves<T>(q: O.State<T>, q': O.State<T>) {
    && q'.prod == q.prod && q'.pushed == q.pushed
    && q'.popped == (if q.cons.Release? then q.popped + [q.cons.v] else q.popped)
    && (q.cons.Release? || q.cons.Resting? ==> q'.cons.Resting?)
    && (q'.cons.CheckBlock? ==> q.cons.LoadTail?)
    && (q'.cons.Resting? ==> q.cons.Release? || q.cons.Resting? || (q.cons.CheckBlock? && q.blkHead == q.blkTail))
  }

  lemma ConsumerStepMoves<T>(q: O.State<T>)
    requires O.InRange(q)
    ensures ConsumerMoves(q, O.StepConsumer(q))
  {}

  lemma PushRefines<T>(s: State<T>, t: nat)
    requires Joined(s) && Ready(s, t)
    ensures Joined(Apply(s, PushStep(t))) && Abs(Apply(s, PushStep(t))) == B.Run(Abs(s), AbsSteps(s, PushStep(t)))
  {
    if s.work[t].Pushing? {
      ProducerStepMoves(s.q);
      hide O.StepProducer, O.InRange, B.Run;
      var r := Abs(Apply(s, PushStep(t)));
      if Publishes(s.q.prod) {
        PublishRefines(s, t);
      } else {
        assert r.work == Abs(s).work && r.published == Abs(s).published && r.owner == Abs(s).owner;
        assert B.Run(Abs(s), []) == Abs(s) by { RunNone(Abs(s)); }
      }
    } else {
      RunNone(Abs(s));
    }
  }

  lemma RunNone<T>(s: B.State<T>)
    ensures B.Run(s, []) == s
  {}

  lemma PublishRefines<T>(s: State<T>, t: nat)
    requires Joined(s) && Ready(s, t) && s.work[t].Pushing? && Publishes(s.q.prod)
    requires ProducerMoves(s.q, O.StepProducer(s.q))
    ensures Abs(Apply(s, PushStep(t))) == B.Run(Abs(s), AbsSteps(s, PushStep(t)))
  {
    hide O.StepProducer, O.InRange;
    var r := Abs(Apply(s, PushStep(t)));
    RunTwo(Abs(s), B.Enqueue(t, s.q.prod.v), B.Publish(t));
    hide B.Run;
    var e := B.Apply(B.Apply(Abs(s), B.Enqueue(t, s.q.prod.v)), B.Publish(t));
    assert r.work == e.work;
    assert r.published == e.published;
    assert r.owner == e.owner;
  }

  /** While the dequeuer holds a token there is something to pop. */
  lemma TokenMeansContents<T>(s: State<T>)
    requires Inv(s) && s.work[1].Popping?
    ensures |s.q.popped| < |s.q.pushed| && O.Contents(s.q) != []
  {
    B.SpinOnlyBehindAPush(Abs(s), 1);
    assert s.q.pushed == s.q.popped + O.Contents(s.q);
  }

  lemma PopRefines<T>(s: State<T>, t: nat)
    requires Inv(s) && Ready(s, t)
    ensures Joined(Apply(s, PopStep(t))) && Abs(Apply(s, PopStep(t))) == B.Run(Abs(s), AbsSteps(s, PopStep(t)))
  {
    if s.work[t].Popping? {
      PoppingJoined(s, t);
      ConsumerStepMoves(s.q);
      TakeOrTryRefines(s, t);
    } else {
      NoPopRefines(s, t);
    }
    hide Inv, Apply, Joined, Abs, AbsSteps, B.Run;
  }

  lemma NoPopRefines<T>(s: State<T>, t: nat)
    requires Joined(s) && Ready(s, t) && !s.work[t].Popping?
    ensures Joined(Apply(s, PopStep(t))) && Abs(Apply(s, PopStep(t))) == B.Run(Abs(s), AbsSteps(s, PopStep(t)))
  {
    RunNone(Abs(s));
  }

  lemma PoppingJoined<T>(s: State<T>, t: nat)
    requires Inv(s) && Ready(s, t) && s.work[t].Popping?
    ensures Joined(Apply(s, PopStep(t))) && |s.q.popped| < |s.q.pushed|
  {
    TokenMeansContents(s);
    ConsumerStepMoves(s.q);
    hide O.Inv, B.Inv, O.StepConsumer, O.InRange, ConsumerMoves, Abs, O.Contents;
    PopJoined(s, t);
  }

  lemma TakeOrTryRefines<T>(s: State<T>, t: nat)
    requires Joined(s) && Ready(s, t) && s.work[t].Popping? && |s.q.popped| < |s.q.pushed|
    requires ConsumerMoves(s.q, O.StepConsumer(s.q))
    ensures Abs(Apply(s, PopStep(t))) == B.Run(Abs(s), AbsSteps(s, PopStep(t)))
  {
    if s.q.cons.Release? {
      TakeRefines(s, t);
    } else {
      RunNone(Abs(s));
      TryRefines(s, t);
    }
    hide Apply, Abs, B.Run, ConsumerMoves, Joined, O.InRange;
  }

  lemma PopJoined<T>(s: State<T>, t: nat)
    requires O.Inv(s.q) && Joined(s) && Ready(s, t) && s.work[t].Popping? && O.Contents(s.q) != []
    requires ConsumerMoves(s.q, O.StepConsumer(s.q))
    ensures Joined(Apply(s, PopStep(t)))
  {
    if s.q.cons.LoadTail? { O.LookSeesEmptiness(s.q); }
    if s.q.cons.CheckBlock? { O.FalseMeansEmpty(s.q); }
    SawEmptyStays(s.q);
    hide O.StepConsumer, O.InRange, O.Inv;
  }

  lemma TryRefines<T>(s: State<T>, t: nat)
    requires Joined(s) && Ready(s, t) && s.work[t].Popping? && !s.q.cons.Release?
    requires ConsumerMoves(s.q, O.StepConsumer(s.q))
    ensures Abs(Apply(s, PopStep(t))) == Abs(s)
  {
    hide O.StepConsumer, O.InRange;
    var r := Abs(Apply(s, PopStep(t)));
    assert r.work == Abs(s).work && r.published == Abs(s).published && r.owner == Abs(s).owner;
  }

  lemma SawEmptyStays<T>(q: O.State<T>)
    requires O.InRange(q)
    ensures !q.cons.LoadTail? ==> O.StepConsumer(q).sawEmpty == q.sawEmpty
  {}

  lemma TakeRefines<T>(s: State<T>, t: nat)
    requires Joined(s) && Ready(s, t) && s.work[t].Popping? && s.q.cons.Release? && |s.q.popped| < |s.q.pushed|
    requires ConsumerMoves(s.q, O.StepConsumer(s.q))
    ensures Abs(Apply(s, PopStep(t))) == B.Run(Abs(s), AbsSteps(s, PopStep(t)))
  {
    hide O.StepConsumer, O.InRange, B.Answer, B.Take;
    var r := Abs(Apply(s, PopStep(t)));
    RunTwo(Abs(s), B.TryPop(t), B.Return(t));
    hide B.Run;
    var e := B.Apply(B.Apply(Abs(s), B.TryPop(t)), B.Return(t));
    assert r.work == e.work;
    assert r.published == e.published && r.owner == e.owner;
  }

  lemma OutsideRefines<T>(s: State<T>, a: Action<T>)
    requires Joined(s) && Ready(s, a.t) && !a.PushStep? && !a.PopStep?
    ensures Joined(Apply(s, a)) && Abs(Apply(s, a)) == B.Run(Abs(s), AbsSteps(s, a))
  {
    OutsideJoined(s, a);
    assert |s.work| == 2 && !s.work[1].Pushing?;
    hide Joined;
    if AbsSteps(s, a) == [] {
      RunNone(Abs(s));
      NothingRefines(s, a);
    } else {
      assert AbsSteps(s, a) == [AbsSteps(s, a)[0]];
      RunTwo(Abs(s), AbsSteps(s, a)[0], AbsSteps(s, a)[0]);
      if a.Dequeue? || a.Proceed? { DequeueRefines(s, a); } else { SignalRefines(s, a); }
    }
    hide Apply, Abs, B.Run, B.Apply;
  }

  lemma OutsideJoined<T>(s: State<T>, a: Action<T>)
    requires Joined(s) && Ready(s, a.t) && !a.PushStep? && !a.PopStep?
    ensures Joined(Apply(s, a))
  {
    SemThreads(s.sem);
    hide Sem.Apply, O.InRange;
  }

  lemma NothingRefines<T>(s: State<T>, a: Action<T>)
    requires Joined(s) && Ready(s, a.t) && !a.PushStep? && !a.PopStep? && AbsSteps(s, a) == []
    ensures Abs(Apply(s, a)) == Abs(s)
  {
    hide Sem.Apply, O.InRange;
    assert Apply(s, a).q.prod.GrowCount? == s.q.prod.GrowCount?;
    assert Abs(Apply(s, a)).work == Abs(s).work;
  }

  lemma DequeueRefines<T>(s: State<T>, a: Action<T>)
    requires Ready(s, a.t) && (a.Dequeue? || a.Proceed?) && AbsSteps(s, a) != [] && |s.work| == 2 && !s.work[1].Pushing?
    ensures Abs(Apply(s, a)) == B.Apply(Abs(s), AbsSteps(s, a)[0])
  {
    hide Sem.Apply, O.InRange;
    assert Abs(Apply(s, a)).work == B.Apply(Abs(s), AbsSteps(s, a)[0]).work;
  }

  lemma SignalRefines<T>(s: State<T>, a: Action<T>)
    requires Ready(s, a.t) && (a.SignalIt? || a.EnqueueReturn? || a.SemStep?) && AbsSteps(s, a) != []
    ensures Abs(Apply(s, a)) == B.Apply(Abs(s), AbsSteps(s, a)[0])
  {
    hide Sem.Apply, O.InRange;
    assert Abs(Apply(s, a)).work == B.Apply(Abs(s), AbsSteps(s, a)[0]).work;
  }

  /** Every step is the steps of BlockingQueue that AbsSteps names. */
  lemma StepRefines<T>(s: State<T>, a: Action<T>)
    requires Inv(s) && Ready(s, a.t)
    ensures Joined(Apply(s, a)) && Abs(Apply(s, a)) == B.Run(Abs(s), AbsSteps(s, a))
  {
    hide O.Inv, B.Inv, Joined;
    if a.PushStep? { PushRefines(s, a.t); } else if a.PopStep? { PopRefines(s, a.t); } else { OutsideRefines(s, a); }
  }

  lemma QueueKeeps<T>(s: State<T>, a: Action<T>)
    requires O.Inv(s.q)
    ensures O.Inv(Apply(s, a).q)
  {
    hide O.Inv, O.StepProducer, O.StepConsumer, O.InRange, Sem.Apply;
    if Ready(s, a.t) {
      match a
      case Enqueue(t, v) => O.StepKeeps(s.q, O.Push(v));
      case PushStep(t) => O.StepKeeps(s.q, O.ProducerStep);
      case PopStep(t) => O.StepKeeps(s.q, if s.q.cons.Resting? then O.Pop else O.ConsumerStep);
      case _ =>
    }
  }

  lemma StepKeeps<T>(s: State<T>, a: Action<T>)
    requires Inv(s)
    ensures Inv(Apply(s, a))
  {
    QueueKeeps(s, a);
    if Ready(s, a.t) {
      StepRefines(s, a);
      hide Apply, O.Inv, B.Inv, Joined, AbsSteps;
      B.RunKeeps(Abs(s), AbsSteps(s, a));
    }
  }

  lemma InitOk<T>(size: nat, count: nat, maxSpin: int)
    requires size >= 2 && count >= 1
    ensures Inv(Init<T>(size, count, maxSpin))
  {
    var s := Init<T>(size, count, maxSpin);
    O.InitOk<T>(size, count);
    B.InitOk<T>(maxSpin, 2);
    hide O.Inv, B.Inv;
    assert Abs(s).work == B.Init<T>(maxSpin, 2).work;
    assert Abs(s) == B.Init<T>(maxSpin, 2);
  }

  lemma {:induction false} RunKeeps<T>(s: State<T>, acts: seq<Action<T>>)
    requires Inv(s)
    ensures Inv(Run(s, acts))
    decreases |acts|
  {
    hide Inv, Apply;
    if acts != [] {
      StepKeeps(s, acts[0]);
      RunKeeps(Apply(s, acts[0]), acts[1..]);
    }
  }

  // ---------------------------------------------------------------------------------------------
  // What every run guarantees
  // ---------------------------------------------------------------------------------------------

  /** In every interleaving of the two threads, with any timeouts: a dequeue that returned false took nothing, one that
      returned true took one value, in turn, and what the dequeues have returned is a prefix of what was pushed; between
      operations there is a token for every value left. */
  lemma EveryRun<T>(size: nat, count: nat, maxSpin: int, acts: seq<Action<T>>)
    requires size >= 2 && count >= 1
    ensures var s := Run(Init<T>(size, count, maxSpin), acts);
      && s.q.popped <= s.q.pushed && B.Shared(s.calls, |s.q.popped|)
      && Joined(s) && |s.q.popped| + B.Trues(B.Holders(Abs(s).work, s.sem.threads)) <= |s.q.pushed|
      && (s.work == [Rest, Rest] ==> s.sem.count == |s.q.pushed| - |s.q.popped|)
  {
    InitOk<T>(size, count, maxSpin);
    RunKeeps(Init<T>(size, count, maxSpin), acts);
    WhatHolds(Run(Init<T>(size, count, maxSpin), acts));
  }

  lemma WhatHolds<T>(s: State<T>)
    requires Inv(s)
    ensures s.q.popped <= s.q.pushed && B.Shared(s.calls, |s.q.popped|)
    ensures Joined(s) && |s.q.popped| + B.Trues(B.Holders(Abs(s).work, s.sem.threads)) <= |s.q.pushed|
    ensures s.work == [Rest, Rest] ==> s.sem.count == |s.q.pushed| - |s.q.popped|
  {
    assert s.q.popped <= s.q.pushed by { hide B.Inv; assert s.q.pushed == s.q.popped + O.Contents(s.q); }
    hide O.Inv;
    B.CallsShare(Abs(s));
    if s.work == [Rest, Rest] { B.QuietTokens(Abs(s)); }
    hide B.CallsOk, B.KindsOk, B.QueueOk;
  }

  /** The inner pop loop never goes round: a pop that holds a token does not come to return false. */
  lemma NeverSpins<T>(s: State<T>)
    requires Inv(s) && s.work[1].Popping? && !s.q.cons.Resting?
    ensures Apply(s, PopStep(1)).q.cons.Resting? ==> s.q.cons.Release? && Apply(s, PopStep(1)).work[1].Rest?
  {
    Range(s);
    ConsumerStepMoves(s.q);
    if s.q.cons.CheckBlock? { O.FalseMeansEmpty(s.q); }
  }
}
