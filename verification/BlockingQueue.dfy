/**
 The blocking queue of include/pump/toolkit/freelock_queue.h, as it should be: over LightSemaphore, and with an
 inner queue whose values are claimed in an order, published later, and popped in the order of their claims, a
 pop failing while the oldest claimed value is not published.  BlockingM2m and BlockingO2o put the two real
 queues under the same code, and show when every step of theirs is a step of this one.
 */
module BlockingQueue {
  import opened Wrappers
  import Sem = LightSemaphore

  /** Where a thread stands outside the semaphore; c is the number of its dequeue. */
  datatype Work =
    | Rest
    | Claimed(k: nat)    // in queue_.push, its value claimed as the k-th
    | ToSignal           // line 50
    | Signalling
    | Waiting(c: nat)    // lines 70, 85, 100
    | PopLoop(c: nat)    // lines 71, 86, 101
    | Taken(c: nat)      // a pop has taken a value, and has yet to return it

  /** A dequeue: the thread, how it waits, the positions of the values it has taken, and what it has returned. */
  datatype Call = Call(t: nat, kind: Sem.Kind, took: seq<nat>, answer: Option<bool>)

  datatype State<T> = State(
    sem: Sem.State,
    work: seq<Work>,
    claims: seq<T>, published: seq<bool>, pops: nat,
    // History
    owner: seq<nat>,        // who claimed
    calls: seq<Call>,
    takers: seq<nat>)       // the dequeue that took each of the popped values

  datatype Action<T> =
    | Enqueue(t: nat, v: T) | Publish(t: nat) | SignalIt(t: nat) | EnqueueReturn(t: nat)
    | Dequeue(t: nat, kind: Sem.Kind) | SemStep(t: nat, fails: bool) | Proceed(t: nat) | TryPop(t: nat) | Return(t: nat)

  predicate Ready<T>(s: State<T>, t: nat) {
    t < |s.work| && t < |s.sem.threads|
  }

  function SetWork<T>(s: State<T>, t: nat, w: Work): State<T>
    requires Ready(s, t)
  {
    s.(work := s.work[t := w])
  }

  function Answer(calls: seq<Call>, c: nat, ok: bool): seq<Call> {
    if c < |calls| then calls[c := calls[c].(answer := Some(ok))] else calls
  }

  function Take(calls: seq<Call>, c: nat, k: nat): seq<Call> {
    if c < |calls| then calls[c := calls[c].(took := calls[c].took + [k])] else calls
  }

  function Apply<T>(s: State<T>, a: Action<T>): State<T> {
    if !Ready(s, a.t) then s else
    match a
    case Enqueue(t, v) =>
      if s.work[t].Rest? then
        SetWork(s, t, Claimed(|s.claims|))
          .(claims := s.claims + [v], published := s.published + [false], owner := s.owner + [t])
      else s
    case Publish(t) =>
      if s.work[t].Claimed? && s.work[t].k < |s.published| then
        SetWork(s, t, ToSignal).(published := s.published[s.work[t].k := true])
      else s
    case SignalIt(t) =>
      if s.work[t].ToSignal? then SetWork(s, t, Signalling).(sem := Sem.Apply(s.sem, Sem.Signal(t, 1))) else s
    case EnqueueReturn(t) =>
      if s.work[t].Signalling? && s.sem.threads[t].Idle? then SetWork(s, t, Rest) else s
    case Dequeue(t, kind) =>
      if s.work[t].Rest? then
        SetWork(s, t, Waiting(|s.calls|))
          .(sem := Sem.Apply(s.sem, Sem.Wait(t, kind)), calls := s.calls + [Call(t, kind, [], None)])
      else s
    case SemStep(t, fails) => s.(sem := Sem.Apply(s.sem, Sem.Step(t, fails)))
    case Proceed(t) =>
      if s.work[t].Waiting? && s.sem.threads[t].Returned? then
        var s' := s.(sem := Sem.Apply(s.sem, Sem.Leave(t)));
        var c := s.work[t].c;
        if s.sem.threads[t].ok then s'.(work := s.work[t := PopLoop(c)])
        else s'.(work := s.work[t := Rest], calls := Answer(s.calls, c, false))
      else s
    case TryPop(t) =>
      if s.work[t].PopLoop? && s.pops < |s.claims| && s.pops < |s.published| && s.published[s.pops] then
        SetWork(s, t, Taken(s.work[t].c))
          .(pops := s.pops + 1, calls := Take(s.calls, s.work[t].c, s.pops), takers := s.takers + [s.work[t].c])
      else s
    case Return(t) =>
      if s.work[t].Taken? then SetWork(s, t, Rest).(calls := Answer(s.calls, s.work[t].c, true)) else s
  }

  function Run<T>(s: State<T>, acts: seq<Action<T>>): State<T>
    decreases |acts|
  {
    if acts == [] then s else Run(Apply(s, acts[0]), acts[1..])
  }

  function Init<T>(maxSpin: int, threads: nat): State<T> {
    State(Sem.Init(maxSpin, 0, threads), seq(threads, _ => Rest), [], [], 0, [], [], [])
  }

  // ---------------------------------------------------------------------------------------------
  // The invariant
  // ---------------------------------------------------------------------------------------------

  function Trues(b: seq<bool>): (n: nat)
    ensures n <= |b|
  {
    if b == [] then 0 else Trues(b[1..]) + (if b[0] then 1 else 0)
  }

  lemma TruesUpdate(b: seq<bool>, i: nat, x: bool)
    requires i < |b|
    ensures Trues(b[i := x]) + (if b[i] then 1 else 0) == Trues(b) + (if x then 1 else 0)
  {
    if i == 0 {
      assert b[0 := x][1..] == b[1..];
    } else {
      assert b[i := x][1..] == b[1..][i - 1 := x];
      TruesUpdate(b[1..], i - 1, x);
    }
  }

  lemma TruesAppend(b: seq<bool>, x: bool)
    ensures Trues(b + [x]) == Trues(b) + (if x then 1 else 0)
  {
    if b == [] {
      assert b + [x] == [x];
    } else {
      assert (b + [x])[1..] == b[1..] + [x];
    }
  }

  lemma TruesPositive(b: seq<bool>, i: nat)
    requires i < |b| && b[i]
    ensures Trues(b) > 0
  {
    if i > 0 { TruesPositive(b[1..], i - 1); }
  }

  /** The thread holds a token of the semaphore that it has not yet turned into a value. */
  predicate Holder(w: Work, pc: Sem.Thread) {
    w.PopLoop? || pc == Sem.Returned(true)
  }

  function Holders(work: seq<Work>, threads: seq<Sem.Thread>): (b: seq<bool>)
    requires |work| == |threads|
    ensures |b| == |work| && forall i :: 0 <= i < |b| ==> b[i] == Holder(work[i], threads[i])
  {
    seq(|work|, i requires 0 <= i < |work| => Holder(work[i], threads[i]))
  }

  function Signallers(work: seq<Work>): (b: seq<bool>)
    ensures |b| == |work| && forall i :: 0 <= i < |b| ==> b[i] == work[i].ToSignal?
  {
    seq(|work|, i requires 0 <= i < |work| => work[i].ToSignal?)
  }

  predicate LinkOk(w: Work, pc: Sem.Thread) {
    match w
    case Rest => pc.Idle?
    case Claimed(k) => pc.Idle?
    case ToSignal => pc.Idle?
    case PopLoop(c) => pc.Idle?
    case Taken(c) => pc.Idle?
    case Signalling => pc.Idle? || pc.Releasing?
    case Waiting(c) => !pc.Idle? && !pc.Releasing?
  }

  ghost predicate ThreadsOk<T>(s: State<T>) {
    && |s.work| == |s.sem.threads|
    && forall t :: 0 <= t < |s.work| ==> LinkOk(s.work[t], s.sem.threads[t])
  }

  ghost predicate QueueOk<T>(s: State<T>) {
    && |s.claims| == |s.published| == |s.owner|
    && s.pops <= |s.claims|
    && (forall k :: 0 <= k < s.pops ==> s.published[k])
    && (forall k :: 0 <= k < |s.claims| && !s.published[k] ==>
          s.owner[k] < |s.work| && s.work[s.owner[k]] == Claimed(k))
    && (forall t :: 0 <= t < |s.work| && s.work[t].Claimed? ==>
          s.work[t].k < |s.claims| && !s.published[s.work[t].k] && s.owner[s.work[t].k] == t)
  }

  predicate InCall(w: Work) { w.Waiting? || w.PopLoop? || w.Taken? }

  /** A dequeue that returned false has taken nothing, one that returned true exactly one value, and one that has not
      returned is under way. */
  ghost predicate CallOk(work: seq<Work>, takers: seq<nat>, calls: seq<Call>, c: nat)
    requires c < |calls|
  {
    var call := calls[c];
    && (if call.answer.None? then
          call.t < |work| && InCall(work[call.t]) && work[call.t].c == c && (|call.took| == if work[call.t].Taken? then 1 else 0)
        else |call.took| == if call.answer.value then 1 else 0)
    && (call.took != [] ==> call.took[0] < |takers| && takers[call.took[0]] == c)
  }

  /** A thread in a dequeue is in the last one it has begun. */
  ghost predicate OpenOk(work: seq<Work>, calls: seq<Call>, t: nat)
    requires t < |work|
  {
    InCall(work[t]) ==>
      && work[t].c < |calls| && calls[work[t].c].t == t && calls[work[t].c].answer.None?
      && forall d :: work[t].c < d < |calls| ==> calls[d].t != t
  }

  ghost predicate CallsOk<T>(s: State<T>) {
    && |s.takers| == s.pops
    && (forall k :: 0 <= k < s.pops ==> s.takers[k] < |s.calls| && s.calls[s.takers[k]].took == [k])
    && (forall c :: 0 <= c < |s.calls| ==> CallOk(s.work, s.takers, s.calls, c))
    && (forall t :: 0 <= t < |s.work| ==> OpenOk(s.work, s.calls, t))
    && (forall c, d :: 0 <= c < d < |s.calls| && s.calls[c].t == s.calls[d].t && s.calls[c].took != [] && s.calls[d].took != []
          ==> s.calls[c].took[0] < s.calls[d].took[0])
  }

  /** A thread that waits does so in the way it was called, and only a wait that can give up has returned false. */
  ghost predicate KindsOk<T>(s: State<T>) {
    && |s.work| == |s.sem.threads|
    && (forall t :: 0 <= t < |s.work| && s.work[t].Waiting? ==>
          s.work[t].c < |s.calls| && Sem.InWait(s.sem.threads[t], s.calls[s.work[t].c].kind))
    && (forall c :: 0 <= c < |s.calls| && s.calls[c].answer == Some(false) ==> !s.calls[c].kind.Forever?)
  }

  /** Every published value is signalled or about to be; every token taken is a value popped or about to be. */
  ghost predicate TokensOk<T>(s: State<T>)
    requires |s.work| == |s.sem.threads|
  {
    && s.sem.initial == 0
    && s.sem.signalled + Trues(Signallers(s.work)) == Trues(s.published)
    && s.sem.succeeded == s.pops + Trues(Holders(s.work, s.sem.threads))
  }

  ghost predicate Inv<T>(s: State<T>) {
    Sem.Inv(s.sem) && ThreadsOk(s) && QueueOk(s) && CallsOk(s) && KindsOk(s) && TokensOk(s)
  }

  /** A step of the semaphore hands out a token exactly when the wait is about to return true. */
  lemma SemOutcome(s: Sem.State, a: Sem.Action)
    ensures var s' := Sem.Apply(s, a);
      && |s'.threads| == |s.threads| && s'.initial == s.initial
      && s'.signalled == s.signalled + (if a.Signal? && a.t < |s.threads| && s.threads[a.t].Idle? then a.n else 0)
      && (a.t < |s.threads| ==>
            && s'.threads == s.threads[a.t := s'.threads[a.t]]
            && s'.succeeded == s.succeeded
                 + (if a.Step? && s.threads[a.t] != Sem.Returned(true) == s'.threads[a.t] then 1 else 0))
  {}

  lemma StepPhase(s: Sem.State, t: nat, fails: bool)
    requires t < |s.threads|
    ensures var pc, pc' := s.threads[t], Sem.Apply(s, Sem.Step(t, fails)).threads[t];
      && (pc.Idle? ==> pc'.Idle?)
      && (pc.Releasing? ==> pc'.Releasing? || pc'.Idle?)
      && (!pc.Idle? && !pc.Releasing? ==> !pc'.Idle? && !pc'.Releasing?)
  {}

  /** How the two counts of tokens change when one thread moves. */
  lemma CountsMove<T>(s: State<T>, s': State<T>, t: nat)
    requires ThreadsOk(s) && Ready(s, t) && |s'.work| == |s.work| && |s'.sem.threads| == |s.sem.threads|
    requires s'.work == s.work[t := s'.work[t]] && s'.sem.threads == s.sem.threads[t := s'.sem.threads[t]]
    ensures Trues(Signallers(s'.work)) + (if s.work[t].ToSignal? then 1 else 0)
         == Trues(Signallers(s.work)) + (if s'.work[t].ToSignal? then 1 else 0)
    ensures Trues(Holders(s'.work, s'.sem.threads)) + (if Holder(s.work[t], s.sem.threads[t]) then 1 else 0)
         == Trues(Holders(s.work, s.sem.threads)) + (if Holder(s'.work[t], s'.sem.threads[t]) then 1 else 0)
  {
    var b, b' := Signallers(s.work), Signallers(s'.work);
    var h, h' := Holders(s.work, s.sem.threads), Holders(s'.work, s'.sem.threads);
    assert b' == b[t := b'[t]];
    assert h' == h[t := h'[t]];
    TruesUpdate(b, t, b'[t]);
    TruesUpdate(h, t, h'[t]);
  }

  lemma QueueTokensKeep<T>(s: State<T>, a: Action<T>)
    requires ThreadsOk(s) && QueueOk(s) && TokensOk(s) && Ready(s, a.t)
    requires a.Enqueue? || a.Publish? || a.EnqueueReturn? || a.TryPop? || a.Return?
    ensures |Apply(s, a).work| == |Apply(s, a).sem.threads| && TokensOk(Apply(s, a))
  {
    OneThread(s, a);
    CountsMove(s, Apply(s, a), a.t);
    if a.Enqueue? { TruesAppend(s.published, false); }
    if a.Publish? && s.work[a.t].Claimed? { TruesUpdate(s.published, s.work[a.t].k, true); }
  }

  lemma SemTokensKeep<T>(s: State<T>, a: Action<T>)
    requires ThreadsOk(s) && TokensOk(s) && Ready(s, a.t)
    requires a.SignalIt? || a.Dequeue? || a.SemStep? || a.Proceed?
    ensures |Apply(s, a).work| == |Apply(s, a).sem.threads| && TokensOk(Apply(s, a))
  {
    var t := a.t;
    OneThread(s, a);
    CountsMove(s, Apply(s, a), t);
    assert LinkOk(s.work[t], s.sem.threads[t]);
    hide Sem.StepThread;
    match a
    case SignalIt(_) => SemOutcome(s.sem, Sem.Signal(t, 1));
    case Dequeue(_, kind) => SemOutcome(s.sem, Sem.Wait(t, kind));
    case SemStep(_, fails) => SemOutcome(s.sem, Sem.Step(t, fails)); ReturnedStays(s.sem, t, fails);
    case Proceed(_) => SemOutcome(s.sem, Sem.Leave(t));
  }

  lemma ReturnedStays(s: Sem.State, t: nat, fails: bool)
    requires t < |s.threads|
    ensures s.threads[t].Returned? ==> Sem.Apply(s, Sem.Step(t, fails)) == s
  {}

  lemma OneThread<T>(s: State<T>, a: Action<T>)
    requires Ready(s, a.t)
    ensures var s' := Apply(s, a);
      && |s'.work| == |s.work| && s'.work == s.work[a.t := s'.work[a.t]]
      && |s'.sem.threads| == |s.sem.threads| && s'.sem.threads == s.sem.threads[a.t := s'.sem.threads[a.t]]
  {
    match a
    case SignalIt(t) => SemOutcome(s.sem, Sem.Signal(t, 1));
    case Dequeue(t, kind) => SemOutcome(s.sem, Sem.Wait(t, kind));
    case SemStep(t, fails) => SemOutcome(s.sem, Sem.Step(t, fails));
    case Proceed(t) => SemOutcome(s.sem, Sem.Leave(t));
    case _ =>
  }

  lemma ThreadsKeep<T>(s: State<T>, a: Action<T>)
    requires ThreadsOk(s) && Ready(s, a.t)
    ensures ThreadsOk(Apply(s, a))
  {
    var s' := Apply(s, a);
    OneThread(s, a);
    assert LinkOk(s.work[a.t], s.sem.threads[a.t]);
    if a.SemStep? { StepPhase(s.sem, a.t, a.fails); }
    hide Sem.StepThread;
    assert LinkOk(s'.work[a.t], s'.sem.threads[a.t]);
  }

  lemma QueueKeeps<T>(s: State<T>, a: Action<T>)
    requires ThreadsOk(s) && QueueOk(s) && Ready(s, a.t)
    ensures QueueOk(Apply(s, a))
  {
    hide Sem.Apply;
    if a.Enqueue? { EnqueueKeeps(s, a.t, a.v); }
    else if a.Publish? { PublishKeeps(s, a.t); }
    else { OtherKeeps(s, a); }
  }

  lemma OtherKeeps<T>(s: State<T>, a: Action<T>)
    requires QueueOk(s) && Ready(s, a.t) && !a.Enqueue? && !a.Publish?
    ensures QueueOk(Apply(s, a))
  {
    OtherLeaves(s, a);
    hide Apply;
  }

  lemma OtherLeaves<T>(s: State<T>, a: Action<T>)
    requires Ready(s, a.t) && !a.Enqueue? && !a.Publish?
    ensures var s' := Apply(s, a);
      && |s'.work| == |s.work| && s'.work == s.work[a.t := s'.work[a.t]]
      && (s'.work == s.work || (!s.work[a.t].Claimed? && !s'.work[a.t].Claimed?))
      && s'.claims == s.claims && s'.published == s.published && s'.owner == s.owner
      && (s'.pops == s.pops || (s'.pops == s.pops + 1 <= |s.claims| && s.pops < |s.published| && s.published[s.pops]))
  {
    hide Sem.Apply, Answer, Take;
  }

  lemma EnqueueKeeps<T>(s: State<T>, t: nat, v: T)
    requires Ready(s, t) && QueueOk(s)
    ensures QueueOk(Apply(s, Enqueue(t, v)))
  {
    hide Sem.Apply;
  }

  lemma PublishKeeps<T>(s: State<T>, t: nat)
    requires Ready(s, t) && QueueOk(s)
    ensures QueueOk(Apply(s, Publish(t)))
  {
    hide Sem.Apply;
  }

  /** Steps that neither begin a dequeue, nor take a value, nor return. */
  lemma QuietCalls<T>(s: State<T>, s': State<T>, t: nat)
    requires CallsOk(s) && t < |s.work| && |s'.work| == |s.work| && s'.work == s.work[t := s'.work[t]]
    requires s'.calls == s.calls && s'.takers == s.takers && s'.pops == s.pops
    requires InCall(s.work[t]) || InCall(s'.work[t]) ==>
               InCall(s.work[t]) && InCall(s'.work[t]) && s'.work[t].c == s.work[t].c && (s'.work[t].Taken? <==> s.work[t].Taken?)
    ensures CallsOk(s')
  {
    forall c | 0 <= c < |s.calls| ensures CallOk(s'.work, s'.takers, s'.calls, c) { assert CallOk(s.work, s.takers, s.calls, c); }
    forall u | 0 <= u < |s.work| ensures OpenOk(s'.work, s'.calls, u) { assert OpenOk(s.work, s.calls, u); }
  }

  lemma BeginCall<T>(s: State<T>, s': State<T>, t: nat)
    requires CallsOk(s) && t < |s.work| && !InCall(s.work[t]) && s'.work == s.work[t := Waiting(|s.calls|)]
    requires |s'.calls| == |s.calls| + 1 && s'.calls == s.calls + [Call(t, s'.calls[|s.calls|].kind, [], None)]
    requires s'.takers == s.takers && s'.pops == s.pops
    ensures CallsOk(s')
  {
    forall c | 0 <= c < |s'.calls| ensures CallOk(s'.work, s'.takers, s'.calls, c) {
      if c < |s.calls| { assert CallOk(s.work, s.takers, s.calls, c); }
    }
    forall u | 0 <= u < |s.work| ensures OpenOk(s'.work, s'.calls, u) { assert OpenOk(s.work, s.calls, u); }
  }

  lemma TakeCall<T>(s: State<T>, s': State<T>, t: nat)
    requires CallsOk(s) && t < |s.work| && s.work[t].PopLoop? && s'.work == s.work[t := Taken(s.work[t].c)]
    requires s'.calls == Take(s.calls, s.work[t].c, s.pops) && s'.takers == s.takers + [s.work[t].c] && s'.pops == s.pops + 1
    ensures CallsOk(s')
  {
    var c0 := s.work[t].c;
    assert OpenOk(s.work, s.calls, t) && CallOk(s.work, s.takers, s.calls, c0);
    assert s'.calls[c0].took == [s.pops];
    forall c | 0 <= c < |s.calls| ensures CallOk(s'.work, s'.takers, s'.calls, c) { assert CallOk(s.work, s.takers, s.calls, c); }
    forall u | 0 <= u < |s.work| ensures OpenOk(s'.work, s'.calls, u) { assert OpenOk(s.work, s.calls, u); }
    forall c | 0 <= c < |s.calls| && s.calls[c].took != [] ensures s.calls[c].took[0] < s.pops {
      assert CallOk(s.work, s.takers, s.calls, c);
    }
  }

  lemma EndCall<T>(s: State<T>, s': State<T>, t: nat, ok: bool)
    requires CallsOk(s) && t < |s.work| && (if ok then s.work[t].Taken? else s.work[t].Waiting?) && s'.work == s.work[t := Rest]
    requires s'.calls == Answer(s.calls, s.work[t].c, ok) && s'.takers == s.takers && s'.pops == s.pops
    ensures CallsOk(s')
  {
    assert OpenOk(s.work, s.calls, t) && CallOk(s.work, s.takers, s.calls, s.work[t].c);
    forall c | 0 <= c < |s.calls| ensures CallOk(s'.work, s'.takers, s'.calls, c) { assert CallOk(s.work, s.takers, s.calls, c); }
    forall u | 0 <= u < |s.work| ensures OpenOk(s'.work, s'.calls, u) { assert OpenOk(s.work, s.calls, u); }
  }

  lemma CallsKeep<T>(s: State<T>, a: Action<T>)
    requires CallsOk(s) && Ready(s, a.t)
    ensures CallsOk(Apply(s, a))
  {
    var s', t := Apply(s, a), a.t;
    hide CallsOk, Sem.Apply, Take, Answer;
    if a.Dequeue? && s.work[t].Rest? {
      BeginCall(s, s', t);
    } else if a.Return? && s.work[t].Taken? {
      EndCall(s, s', t, true);
    } else if a.Proceed? && s'.work != s.work && s.sem.threads[t] == Sem.Returned(false) {
      EndCall(s, s', t, false);
    } else if a.TryPop? && s'.pops != s.pops {
      TakeCall(s, s', t);
    } else {
      QuietCalls(s, s', t);
    }
  }

  lemma KindsKeep<T>(s: State<T>, a: Action<T>)
    requires ThreadsOk(s) && KindsOk(s) && Ready(s, a.t)
    ensures KindsOk(Apply(s, a))
  {
    var t := a.t;
    OneThread(s, a);
    assert LinkOk(s.work[t], s.sem.threads[t]);
    if a.SemStep? && s.work[t].Waiting? { Sem.StepInWait(s.sem, t, a.fails, s.calls[s.work[t].c].kind); }
    hide Sem.StepThread;
  }

  lemma SemKeeps<T>(s: State<T>, a: Action<T>)
    requires Sem.Inv(s.sem)
    ensures Sem.Inv(Apply(s, a).sem)
  {
    hide Sem.Inv;
    hide Sem.Apply;
    match a
    case SignalIt(t) => Sem.StepKeeps(s.sem, Sem.Signal(t, 1));
    case Dequeue(t, kind) => Sem.StepKeeps(s.sem, Sem.Wait(t, kind));
    case SemStep(t, fails) => Sem.StepKeeps(s.sem, Sem.Step(t, fails));
    case Proceed(t) => Sem.StepKeeps(s.sem, Sem.Leave(t));
    case _ =>
  }

  lemma StepKeeps<T>(s: State<T>, a: Action<T>)
    requires Inv(s)
    ensures Inv(Apply(s, a))
  {
    if Ready(s, a.t) {
      SemKeeps(s, a);
      ThreadsKeep(s, a);
      QueueKeeps(s, a);
      CallsKeep(s, a);
      KindsKeep(s, a);
      if a.SignalIt? || a.Dequeue? || a.SemStep? || a.Proceed? { SemTokensKeep(s, a); } else { QueueTokensKeep(s, a); }
      hide Apply, QueueOk, CallsOk, KindsOk;
    }
  }

  lemma InitOk<T>(maxSpin: int, threads: nat)
    ensures Inv(Init<T>(maxSpin, threads))
  {
    var s := Init<T>(maxSpin, threads);
    Sem.NobodyWaits(threads);
    NoTrues(Signallers(s.work));
    NoTrues(Holders(s.work, s.sem.threads));
  }

  lemma NoTrues(b: seq<bool>)
    requires forall i :: 0 <= i < |b| ==> !b[i]
    ensures Trues(b) == 0
  {}

  lemma {:induction false} RunKeeps<T>(s: State<T>, acts: seq<Action<T>>)
    requires Inv(s)
    ensures Inv(Run(s, acts))
    decreases |acts|
  {
    hide Inv;
    hide Apply;
    if acts != [] {
      StepKeeps(s, acts[0]);
      RunKeeps(Apply(s, acts[0]), acts[1..]);
    }
  }

  // ---------------------------------------------------------------------------------------------
  // What every run guarantees
  // ---------------------------------------------------------------------------------------------

  /** In every run the published values that are not popped yet are enough for everyone who holds a token. */
  lemma TokensAreCovered<T>(maxSpin: int, threads: nat, acts: seq<Action<T>>)
    ensures var s := Run(Init<T>(maxSpin, threads), acts);
      |s.work| == |s.sem.threads| && s.pops + Trues(Holders(s.work, s.sem.threads)) <= Trues(s.published) <= |s.claims|
  {
    InitOk<T>(maxSpin, threads);
    RunKeeps(Init<T>(maxSpin, threads), acts);
  }

  /** A thread spins in the inner pop loop only while the oldest value left has been claimed by an enqueue
      that has yet to publish it; otherwise its next try takes that value. */
  lemma SpinOnlyBehindAPush<T>(s: State<T>, t: nat)
    requires Inv(s) && Ready(s, t) && s.work[t].PopLoop?
    ensures s.pops < |s.claims|
    ensures if s.published[s.pops] then Apply(s, TryPop(t)).pops == s.pops + 1
      else Apply(s, TryPop(t)) == s && s.owner[s.pops] < |s.work| && s.work[s.owner[s.pops]] == Claimed(s.pops)
  {
    TruesPositive(Holders(s.work, s.sem.threads), t);
  }

  /** The dequeues so far share out the positions popped: one that has returned false has none and was one that may
      give up, one that has returned true has exactly one, no two have the same, every position has gone to one, and a
      thread takes them in order. */
  ghost predicate Shared(calls: seq<Call>, pops: nat) {
    && (forall c :: 0 <= c < |calls| && calls[c].answer == Some(false) ==> calls[c].took == [] && !calls[c].kind.Forever?)
    && (forall c :: 0 <= c < |calls| && calls[c].answer == Some(true) ==> |calls[c].took| == 1 && calls[c].took[0] < pops)
    && (forall c, d :: 0 <= c < d < |calls| && calls[c].took != [] ==> calls[c].took != calls[d].took)
    && (forall k :: 0 <= k < pops ==> exists c :: 0 <= c < |calls| && calls[c].took == [k])
    && (forall c, d :: 0 <= c < d < |calls| && calls[c].t == calls[d].t && calls[c].took != [] && calls[d].took != [] ==>
          calls[c].took[0] < calls[d].took[0])
  }

  lemma CallsShare<T>(s: State<T>)
    requires CallsOk(s) && KindsOk(s)
    ensures Shared(s.calls, s.pops)
  {
    forall c | 0 <= c < |s.calls|
      ensures s.calls[c].answer.Some? ==> |s.calls[c].took| == if s.calls[c].answer.value then 1 else 0
      ensures s.calls[c].took != [] ==> s.calls[c].took[0] < s.pops && s.takers[s.calls[c].took[0]] == c
    {
      assert CallOk(s.work, s.takers, s.calls, c);
    }
    forall k | 0 <= k < s.pops ensures exists c :: 0 <= c < |s.calls| && s.calls[c].took == [k] {
      var c := s.takers[k];
      assert 0 <= c < |s.calls| && s.calls[c].took == [k];
    }
  }

  /** In every run, with any number of threads and any timeouts. */
  lemma DequeuesShareOut<T>(maxSpin: int, threads: nat, acts: seq<Action<T>>)
    ensures var s := Run(Init<T>(maxSpin, threads), acts); Shared(s.calls, s.pops) && s.pops <= |s.claims|
  {
    InitOk<T>(maxSpin, threads);
    RunKeeps(Init<T>(maxSpin, threads), acts);
    CallsShare(Run(Init<T>(maxSpin, threads), acts));
  }

  // ---------------------------------------------------------------------------------------------
  // Nothing enqueued is out of reach
  // ---------------------------------------------------------------------------------------------

  /** In every run each published value is popped, or there is a token for it: with a thread, in the counter, in the
      kernel semaphore, or still to be signalled or posted. */
  lemma EveryValueHasAToken<T>(maxSpin: int, threads: nat, acts: seq<Action<T>>)
    ensures var s := Run(Init<T>(maxSpin, threads), acts);
      && |s.work| == |s.sem.threads|
      && Trues(s.published)
         == s.pops + Trues(Holders(s.work, s.sem.threads)) + Sem.Max(s.sem.count, 0) + s.sem.permits
            + Sem.Owed(s.sem.threads) + Trues(Signallers(s.work))
  {
    InitOk<T>(maxSpin, threads);
    RunKeeps(Init<T>(maxSpin, threads), acts);
    hide Run;
  }

  ghost predicate AtRest<T>(s: State<T>) { forall t :: 0 <= t < |s.work| ==> s.work[t].Rest? }

  lemma {:induction false} NobodyOut(threads: seq<Sem.Thread>)
    requires forall t :: 0 <= t < |threads| ==> threads[t].Idle?
    ensures Sem.Waiters(threads) == 0 && Sem.Owed(threads) == 0
  {
    if threads != [] { NobodyOut(threads[1..]); }
  }

  lemma {:induction false} AllTrue(b: seq<bool>)
    requires forall i :: 0 <= i < |b| ==> b[i]
    ensures Trues(b) == |b|
  {
    if b != [] { AllTrue(b[1..]); }
  }

  /** Between operations the counter is the number of values in the queue, and all of them can be popped. */
  lemma QuietTokens<T>(s: State<T>)
    requires Inv(s) && AtRest(s)
    ensures s.sem.count == |s.claims| - s.pops >= 0
    ensures |s.published| == |s.claims| && forall k :: 0 <= k < |s.claims| ==> s.published[k]
  {
    forall t | 0 <= t < |s.sem.threads| ensures s.sem.threads[t].Idle? { assert LinkOk(s.work[t], s.sem.threads[t]); }
    NobodyOut(s.sem.threads);
    AllTrue(s.published);
    NoTrues(Signallers(s.work));
    NoTrues(Holders(s.work, s.sem.threads));
    hide CallsOk, KindsOk;
  }

  lemma PublishesAlone<T>(s: State<T>, t: nat, v: T)
    requires Ready(s, t) && s.work[t].Rest? && |s.published| == |s.claims|
    ensures Apply(Apply(s, Enqueue(t, v)), Publish(t))
         == s.(work := s.work[t := ToSignal], claims := s.claims + [v], published := s.published + [true],
               owner := s.owner + [t])
  {
    var s1 := Apply(s, Enqueue(t, v));
    assert s1.published[|s.claims| := true] == s.published + [true];
  }

  lemma SignalsAlone<T>(s: State<T>, t: nat)
    requires Ready(s, t) && s.work[t].ToSignal? && s.sem.threads[t].Idle? && s.sem.count >= 0
    ensures Apply(Apply(Apply(s, SignalIt(t)), SemStep(t, false)), EnqueueReturn(t))
         == s.(work := s.work[t := Rest], sem := s.sem.(count := s.sem.count + 1, signalled := s.sem.signalled + 1))
  {
    var sem1 := s.sem.(count := s.sem.count + 1, signalled := s.sem.signalled + 1,
                       threads := s.sem.threads[t := Sem.Releasing(0)]);
    var s1 := Apply(s, SignalIt(t));
    assert s1 == s.(work := s.work[t := Signalling], sem := sem1);
    var s2 := Apply(s1, SemStep(t, false));
    assert s2.sem.threads == s.sem.threads;
  }

  /** An enqueue that nobody disturbs and nobody waits for adds its value and a token, ... */
  lemma EnqueueAlone<T>(s: State<T>, t: nat, v: T)
    requires Inv(s) && Ready(s, t) && s.work[t].Rest? && s.sem.count >= 0
    ensures Run(s, [Enqueue(t, v), Publish(t), SignalIt(t), SemStep(t, false), EnqueueReturn(t)])
         == s.(claims := s.claims + [v], published := s.published + [true], owner := s.owner + [t],
               sem := s.sem.(count := s.sem.count + 1, signalled := s.sem.signalled + 1))
  {
    assert LinkOk(s.work[t], s.sem.threads[t]) && |s.published| == |s.claims| by { hide CallsOk, KindsOk, TokensOk; }
    hide Inv, Apply;
    PublishesAlone(s, t, v);
    SignalsAlone(Apply(Apply(s, Enqueue(t, v)), Publish(t)), t);
    assert s.work[t := Rest] == s.work && s.work[t := ToSignal][t := Rest] == s.work[t := Rest];
    RunFive(s, Enqueue(t, v), Publish(t), SignalIt(t), SemStep(t, false), EnqueueReturn(t));
  }

  lemma RunFive<T>(s: State<T>, a: Action<T>, b: Action<T>, c: Action<T>, d: Action<T>, e: Action<T>)
    ensures Run(s, [a, b, c, d, e]) == Apply(Apply(Apply(Apply(Apply(s, a), b), c), d), e)
  {
    hide Apply;
    var s2 := Apply(Apply(s, a), b);
    var s4 := Apply(Apply(s2, c), d);
    assert [a, b, c, d, e][1..] == [b, c, d, e] && [b, c, d, e][1..] == [c, d, e];
    assert [c, d, e][1..] == [d, e] && [d, e][1..] == [e] && [e][1..] == [];
    assert Run(s, [a, b, c, d, e]) == Run(s2, [c, d, e]);
    assert Run(s2, [c, d, e]) == Run(s4, [e]);
    assert Run(s4, [e]) == Run(Apply(s4, e), []);
  }

  lemma WaitsAlone<T>(s: State<T>, t: nat, kind: Sem.Kind)
    requires Ready(s, t) && s.work[t].Rest? && s.sem.threads[t].Idle? && s.sem.count > 0
    ensures Apply(Apply(Apply(s, Dequeue(t, kind)), SemStep(t, false)), SemStep(t, false))
         == s.(work := s.work[t := Waiting(|s.calls|)], calls := s.calls + [Call(t, kind, [], None)],
               sem := s.sem.(count := s.sem.count - 1, succeeded := s.sem.succeeded + 1,
                             threads := s.sem.threads[t := Sem.Returned(true)]))
  {
    Sem.TakesAlone(s.sem, t, kind);
    WaitLeavesThreads(s.sem, t, kind);
    hide Sem.Apply;
  }

  lemma WaitLeavesThreads(s: Sem.State, t: nat, kind: Sem.Kind)
    requires t < |s.threads|
    ensures |Sem.Apply(s, Sem.Wait(t, kind)).threads| == |s.threads|
    ensures |Sem.Apply(Sem.Apply(s, Sem.Wait(t, kind)), Sem.Step(t, false)).threads| == |s.threads|
  {
    SemOutcome(s, Sem.Wait(t, kind));
    SemOutcome(Sem.Apply(s, Sem.Wait(t, kind)), Sem.Step(t, false));
  }

  lemma PopsAlone<T>(s: State<T>, t: nat, kind: Sem.Kind)
    requires s.calls != [] && Ready(s, t) && s.work[t] == Waiting(|s.calls| - 1) && s.sem.threads[t] == Sem.Returned(true)
    requires s.calls[|s.calls| - 1] == Call(t, kind, [], None)
    requires s.pops < |s.claims| && s.pops < |s.published| && s.published[s.pops]
    ensures Apply(Apply(Apply(s, Proceed(t)), TryPop(t)), Return(t))
         == s.(work := s.work[t := Rest], sem := s.sem.(threads := s.sem.threads[t := Sem.Idle]), pops := s.pops + 1,
               calls := s.calls[|s.calls| - 1 := Call(t, kind, [s.pops], Some(true))], takers := s.takers + [|s.calls| - 1])
  {
    hide Sem.StepThread;
    var c := |s.calls| - 1;
    var s1 := Apply(s, Proceed(t));
    assert s1 == s.(work := s.work[t := PopLoop(c)], sem := s.sem.(threads := s.sem.threads[t := Sem.Idle]));
    var s2 := Apply(s1, TryPop(t));
    assert s2.work == s.work[t := Taken(c)] && s2.calls[c] == Call(t, kind, [s.pops], None);
  }

  /** ... and one dequeue, of any kind, that nobody disturbs while there is a token and the oldest value is published
      takes both and returns true. */
  lemma DequeueAlone<T>(s: State<T>, t: nat, kind: Sem.Kind)
    requires Inv(s) && Ready(s, t) && s.work[t].Rest? && s.sem.count > 0
    requires s.pops < |s.claims| && s.pops < |s.published| && s.published[s.pops]
    ensures Apply(Run(s, [Dequeue(t, kind), SemStep(t, false), SemStep(t, false), Proceed(t), TryPop(t)]), Return(t))
         == s.(pops := s.pops + 1, sem := s.sem.(count := s.sem.count - 1, succeeded := s.sem.succeeded + 1),
               calls := s.calls + [Call(t, kind, [s.pops], Some(true))], takers := s.takers + [|s.calls|])
  {
    assert LinkOk(s.work[t], s.sem.threads[t]);
    hide Inv, Apply;
    WaitsAlone(s, t, kind);
    var s3 := Apply(Apply(Apply(s, Dequeue(t, kind)), SemStep(t, false)), SemStep(t, false));
    PopsAlone(s3, t, kind);
    BackAtRest(s, t, kind);
    RunFive(s, Dequeue(t, kind), SemStep(t, false), SemStep(t, false), Proceed(t), TryPop(t));
    hide Run;
  }

  lemma BackAtRest<T>(s: State<T>, t: nat, kind: Sem.Kind)
    requires Ready(s, t) && s.work[t].Rest? && s.sem.threads[t].Idle?
    ensures s.sem.threads[t := Sem.Returned(true)][t := Sem.Idle] == s.sem.threads
    ensures s.work[t := Waiting(|s.calls|)][t := Rest] == s.work
    ensures (s.calls + [Call(t, kind, [], None)])[|s.calls| := Call(t, kind, [s.pops], Some(true))]
         == s.calls + [Call(t, kind, [s.pops], Some(true))]
  {}
}
