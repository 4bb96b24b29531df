/** A run of the blocking queue over the growable ring queue with two dequeuers, in which a dequeue returns a value
    that another has returned before it: what BlockingM2m assumes of the exchanges of tail_ does not hold by itself. */
module BlockingCases {
  import opened Wrappers
  import opened BlockingM2m
  import opened BlockingThreads
  import Q = M2mQueue
  import A = M2mAlone
  import Tokens = LightSemaphore
  import Spec = BlockingQueue

  /** Four threads, of which 0 and 1 may dequeue, and a ring of two nodes that grows to four. */
  function Start(): State<int> { Init<int>(2, 1, 0, 4, 2) }

  ghost predicate Reachable(s: State<int>) {
    exists acts: seq<Action<int>> :: Run(Start(), acts) == s
  }

  lemma {:induction false} RunSnoc(s: State<int>, acts: seq<Action<int>>, a: Action<int>)
    ensures Run(s, acts + [a]) == Apply(Run(s, acts), a)
    decreases |acts|
  {
    hide Apply;
    if acts == [] {
      assert [] + [a] == [a] && [a][1..] == [];
      assert Run(Apply(s, a), []) == Apply(s, a);
    } else {
      assert (acts + [a])[1..] == acts[1..] + [a];
      RunSnoc(Apply(s, acts[0]), acts[1..], a);
    }
  }

  lemma Reach(s: State<int>, a: Action<int>) returns (r: State<int>)
    requires Reachable(s)
    ensures r == Apply(s, a) && Reachable(r)
  {
    hide Apply, Start;
    var acts: seq<Action<int>> :| Run(Start(), acts) == s;
    RunSnoc(Start(), acts, a);
    r := Apply(s, a);
  }

  /** Reachable, no thread inside the semaphore, and the queue as the view says. */
  ghost predicate Still(s: State<int>, v: A.View) {
    && Reachable(s) && A.Looks(s.q, v)
    && |s.work| == |s.sem.threads| == |v.prods| == 4 && |v.cons| == 2
    && (forall t :: 0 <= t < 4 ==> s.sem.threads[t].Idle?) && s.sem.count >= 0
  }

  // ---------------------------------------------------------------------------------------------
  // A whole enqueue
  // ---------------------------------------------------------------------------------------------

  /** n steps of thread t's push. */
  lemma PushSteps(s: State<int>, t: nat, n: nat) returns (r: State<int>)
    requires Reachable(s) && Ready(s, t) && s.work[t].Pushing? && !s.q.prods[t].Idle?
    ensures Reachable(r) && r.q == A.Steps(s.q, Q.Producer(t), n) && |r.q.prods| == |s.q.prods|
    ensures r == s.(q := r.q, work := s.work[t := if r.q.prods[t].Idle? then ToSignal else Pushing])
    decreases n
  {
    if n == 0 {
      r := s;
      assert s.work[t := Pushing] == s.work;
    } else {
      r := Reach(s, PushStep(t));
      ProducersStay(s.q, t);
      PushOne(s, t);
      hide Apply, Q.Apply, Start;
      if r.q.prods[t].Idle? {
        IdleStays(r.q, t, n - 1);
      } else {
        r := PushSteps(r, t, n - 1);
      }
    }
  }

  lemma PushOne(s: State<int>, t: nat)
    requires Ready(s, t) && s.work[t].Pushing? && |Q.Apply(s.q, Q.Producer(t)).prods| == |s.q.prods|
    ensures var q' := Q.Apply(s.q, Q.Producer(t));
      Apply(s, PushStep(t)) == s.(q := q', work := s.work[t := if q'.prods[t].Idle? then ToSignal else Pushing])
  {
    hide Q.Apply;
  }

  lemma ProducersStay(q: Q.State<int>, t: nat)
    ensures |Q.Apply(q, Q.Producer(t)).prods| == |q.prods|
  {}

  lemma IdleStays(q: Q.State<int>, t: nat, n: nat)
    requires t < |q.prods| && q.prods[t].Idle?
    ensures A.Steps(q, Q.Producer(t), n) == q
    decreases n
  {
    if n > 0 { IdleStays(q, t, n - 1); }
  }

  /** Lines 50-51 after the push: signal, and return. */
  lemma Finish(s: State<int>, t: nat) returns (r: State<int>)
    requires Reachable(s) && Ready(s, t) && s.work[t].ToSignal? && s.sem.threads[t].Idle? && s.sem.count >= 0
    ensures Reachable(r)
    ensures r == s.(work := s.work[t := Rest], sem := s.sem.(count := s.sem.count + 1, signalled := s.sem.signalled + 1))
  {
    r := Reach(s, SignalIt(t));
    assert r.sem.threads[t] == Tokens.Releasing(0);
    r := Reach(r, SemStep(t, false));
    assert r.sem.threads == s.sem.threads;
    r := Reach(r, EnqueueReturn(t));
    assert r.work == s.work[t := Rest];
  }

  lemma EnqueueAt(s: State<int>, v: A.View, t: nat, x: int) returns (r: State<int>, v': A.View)
    requires Still(s, v) && t < 4 && s.work[t].Rest? && v.prods[t].Idle? && A.LINKS[v.head] != v.tail && !v.ready[v.head]
    ensures Still(r, v') && v' == A.AfterPush(v, x)
    ensures r.work == s.work && r.calls == s.calls && r.sem.count == s.sem.count + 1
  {
    A.LooksPushed(s.q, v, t, x);
    r := Reach(s, Enqueue(t, x));
    hide Q.AdvanceProducer;
    r := PushSteps(r, t, 7);
    assert r.q == A.PushAlone(s.q, t, x);
    v' := A.AfterPush(v, x);
    hide A.PushAlone, A.Steps, Apply;
    r := Finish(r, t);
    assert r.work == s.work;
  }

  lemma FirstEnqueue() returns (r: State<int>, v: A.View)
    ensures Still(r, v) && v == A.FirstView([Q.Idle, Q.Idle, Q.Idle, Q.Idle], [Q.Resting, Q.Resting])
    ensures r.work == [Rest, Rest, Rest, Rest] && r.calls == [] && r.sem.count == 1
  {
    var s := Start();
    assert Run(s, []) == s;
    var prods: seq<Q.Producer<int>> := [Q.Idle, Q.Idle, Q.Idle, Q.Idle];
    assert s.q.prods == prods && s.work == [Rest, Rest, Rest, Rest];
    assert [Q.Resting, Q.Resting] == seq(2, _ => Q.Resting);
    A.FirstPush(s.q, 2, prods, [Q.Resting, Q.Resting]);
    r := Reach(s, Enqueue(2, 1));
    hide Q.AdvanceProducer, Q.Init;
    r := PushSteps(r, 2, 9);
    v := A.FirstView(prods, [Q.Resting, Q.Resting]);
    hide A.Steps, Apply;
    r := Finish(r, 2);
    assert r.work == [Rest, Rest, Rest, Rest];
  }

  // ---------------------------------------------------------------------------------------------
  // A dequeue, in two halves
  // ---------------------------------------------------------------------------------------------

  /** try_dequeue up to the inner loop: the wait takes a token. */
  lemma TokenAt(s: State<int>, v: A.View, t: nat) returns (r: State<int>)
    requires Still(s, v) && t < 2 && s.work[t].Rest? && s.sem.count > 0
    ensures Still(r, v) && r.q == s.q && r.work == s.work[t := Popping(|s.calls|)]
    ensures r.calls == s.calls + [Spec.Call(t, Tokens.Try, [], None)] && r.sem.count == s.sem.count - 1
  {
    r := Reach(s, Dequeue(t, Tokens.Try));
    r := Reach(r, SemStep(t, false));
    assert r.sem.threads[t] == Tokens.TryTake(Tokens.Try, s.sem.count);
    r := Reach(r, SemStep(t, false));
    assert r.sem.threads[t] == Tokens.Returned(true) && r.sem.count == s.sem.count - 1;
    r := Reach(r, Proceed(t));
    assert r.work == s.work[t := Popping(|s.calls|)];
  }

  /** The pop up to its exchange of tail_. */
  lemma LookAt(s: State<int>, v: A.View, t: nat) returns (r: State<int>)
    requires Still(s, v) && t < 2 && s.work[t].Popping? && v.cons[t].Resting? && v.ready[A.LINKS[v.tail]]
    ensures Reachable(r) && r == s.(q := Q.SetC(s.q, t, Q.ReadySeen(v.tail, s.q.tailVer, A.LINKS[v.tail])))
  {
    var n := A.LINKS[v.tail];
    PopOne(s, t);
    r := Reach(s, PopStep(t));
    assert r == s.(q := Q.SetC(s.q, t, Q.TailLoaded(v.tail, s.q.tailVer)));
    hide Apply;
    PopOne(r, t);
    r := Reach(r, PopStep(t));
    assert r == s.(q := Q.SetC(s.q, t, Q.NextLoaded(v.tail, s.q.tailVer, n)));
    PopOne(r, t);
    r := Reach(r, PopStep(t));
  }

  lemma PopOne(s: State<int>, t: nat)
    requires Ready(s, t) && s.work[t].Popping? && t < |s.q.cons|
    requires s.q.cons[t].Resting? || s.q.cons[t].TailLoaded? || s.q.cons[t].NextLoaded?
    ensures Apply(s, PopStep(t)) == s.(q := Q.Apply(s.q, PopAction(s.q, t)))
  {}

  /** ... and with it. */
  lemma ExchangeAt(s: State<int>, v: A.View, t: nat) returns (r: State<int>)
    requires Still(s, v) && t < 2 && s.work[t].Popping? && v.cons[t].Resting? && v.ready[A.LINKS[v.tail]] && v.h > 0
    ensures Reachable(r) && r.work == s.work && r.sem == s.sem && r.calls == Spec.Take(s.calls, s.work[t].c, s.q.popped)
    ensures r.q == Exchanged(s.q, t, A.LINKS[v.tail])
  {
    var l := LookAt(s, v, t);
    assert l.q.cons[t] == Q.ReadySeen(s.q.tail, s.q.tailVer, A.LINKS[v.tail]) && Ready(l, t);
    assert |s.q.ring| > 0 && s.q.h > 0;
    hide A.Looks, Spec.Take;
    r := Reach(l, PopStep(t));
    assert r.q.cons == s.q.cons[t := Q.Taking(A.LINKS[v.tail], s.q.popped)];
  }

  function Exchanged(q: Q.State<int>, t: nat, n: nat): Q.State<int>
    requires t < |q.cons| && |q.ring| > 0 && q.h > 0
  {
    Q.SetC(q.(tail := n, tailVer := q.tailVer + 1, popped := q.popped + 1, ring := q.ring[1..] + [q.ring[0]], h := q.h - 1,
              taker := q.taker + [t], result := q.result + [None]),
           t, Q.Taking(n, q.popped))
  }

  /** The rest of the pop: the value is read, the flag reset, and the dequeue returns. */
  lemma ReturnAt(s: State<int>, t: nat, n: nat, k: nat) returns (r: State<int>)
    requires Reachable(s) && Ready(s, t) && t < |s.q.cons| && s.work[t].Popping? && s.q.cons[t] == Q.Taking(n, k)
    requires n < |s.q.data| && n < |s.q.ready| && s.q.data[n].Some? && k < |s.q.result|
    ensures Reachable(r)
    ensures r == s.(work := s.work[t := Rest], calls := Spec.Answer(s.calls, s.work[t].c, true),
                    q := Q.SetC(s.q.(result := s.q.result[k := s.q.data[n]], order := s.q.order + [s.q.data[n].value],
                                     ready := s.q.ready[n := false]),
                                t, Q.Resting))
  {
    r := Reach(s, PopStep(t));
    assert r.q.cons[t] == Q.Clearing(n, k);
    r := Reach(r, PopStep(t));
    assert r.q.cons == s.q.cons[t := Q.Resting];
  }

  lemma CallRecorded(calls: seq<Spec.Call>, t: nat, k: nat)
    ensures Spec.Answer(Spec.Take(calls + [Spec.Call(t, Tokens.Try, [], None)], |calls|, k), |calls|, true)
         == calls + [Spec.Call(t, Tokens.Try, [k], Some(true))]
  {
    assert [] + [k] == [k];
  }

  lemma DequeueAt(s: State<int>, v: A.View, t: nat) returns (r: State<int>, v': A.View)
    requires Still(s, v) && t < 2 && s.work[t].Rest? && s.sem.count > 0 && v.cons[t].Resting?
    requires v.ready[A.LINKS[v.tail]] && v.h > 0
    ensures Still(r, v') && v' == A.AfterPop(v) && r.work == s.work && r.sem.count == s.sem.count - 1
    ensures r.calls == s.calls + [Spec.Call(t, Tokens.Try, [s.q.popped], Some(true))]
    ensures r.q.result == s.q.result + [v.data[A.LINKS[v.tail]]]
  {
    var n, k := A.LINKS[v.tail], s.q.popped;
    r := TokenAt(s, v, t);
    var c := r.work[t].c;
    r := ExchangeAt(r, v, t);
    CallRecorded(s.calls, t, k);
    hide Spec.Answer, Spec.Take, Apply;
    r := ReturnAt(r, t, n, k);
    v' := A.AfterPop(v);
    assert r.work == s.work && r.q.cons == s.q.cons;
    assert r.q.result == s.q.result + [v.data[n]];
  }

  /** Thread 0 stops behind its exchange of tail_. */
  lemma HoldAt(s: State<int>, v: A.View) returns (r: State<int>, v': A.View)
    requires Still(s, v) && s.work[0].Rest? && s.sem.count > 0 && v.cons == [Q.Resting, Q.Resting]
    requires v.ready[A.LINKS[v.tail]] && v.h > 0
    ensures Still(r, v') && v' == v.(tail := A.LINKS[v.tail], h := v.h - 1, cons := v'.cons)
    ensures |v'.cons| == 2 && v'.cons[1].Resting?
    ensures r.work == s.work[0 := r.work[0]] && r.sem.count == s.sem.count - 1
  {
    r := TokenAt(s, v, 0);
    r := ExchangeAt(r, v, 0);
    v' := v.(tail := r.q.tail, h := r.q.h, cons := r.q.cons);
  }

  // ---------------------------------------------------------------------------------------------
  // The run
  // ---------------------------------------------------------------------------------------------

  /** Thread 0 stops inside its pop of the value in node 0; the ring goes round once; thread 2 claims node 0 again for
      the value 5 and waits for it; thread 3 enqueues 6 and signals; and thread 1, holding that token, finds the flag
      of node 0 still set, and returns the value that thread 0 is about to return. */
  lemma TwoDequeuersReturnOneValue()
    ensures exists s: State<int>, c: nat :: Reachable(s) && c < |s.calls| && s.calls[c].answer == Some(true)
              && !ReturnsItsValue(s, c)
  {
    var s, v := FirstEnqueue();
    s, v := EnqueueAt(s, v, 2, 2);
    s, v := HoldAt(s, v);
    s, v := EnqueueAt(s, v, 2, 3);
    assert v.ready == [true, false, true, true] && v.head == 1 && v.tail == 0 && v.h == 3;
    s, v := DequeueAt(s, v, 1);
    s, v := DequeueAt(s, v, 1);
    assert v.ready == [true, false, false, false] && v.head == 1 && v.tail == 3 && v.h == 1;
    s, v := EnqueueAt(s, v, 2, 4);
    s, v := DequeueAt(s, v, 1);
    assert v.ready == [true, false, false, false] && v.head == 0 && v.tail == 1 && v.h == 1;
    assert v.data[0] == Some(1) && |v.log| == 4 && s.sem.count == 0;
    LastRound(s, v);
  }

  lemma LastRound(s0: State<int>, v0: A.View)
    requires Still(s0, v0) && s0.work[1].Rest? && s0.work[2].Rest? && s0.work[3].Rest?
    requires v0.prods == [Q.Idle, Q.Idle, Q.Idle, Q.Idle] && v0.cons[1].Resting?
    requires v0.ready == [true, false, false, false] && v0.head == 0 && v0.tail == 1 && v0.h == 1
    requires v0.data[0] == Some(1) && |v0.log| == 4
    ensures exists s: State<int>, c: nat :: Reachable(s) && c < |s.calls| && s.calls[c].answer == Some(true)
              && !ReturnsItsValue(s, c)
  {
    var s, v := ClaimAt(s0, v0);
    s, v := EnqueueAt(s, v, 3, 6);
    assert v.ready[0] && v.data[0] == Some(1) && v.log[4] == 5;
    var r, v' := DequeueAt(s, v, 1);
    var c := |s.calls|;
    assert r.calls[c] == Spec.Call(1, Tokens.Try, [4], Some(true)) && r.q.result[4] == Some(1) && r.q.log[4] == 5;
    assert !ReturnsItsValue(r, c);
  }

  /** Thread 2 claims node 0 for the value 5 and gets no further. */
  lemma ClaimAt(s: State<int>, v: A.View) returns (r: State<int>, v': A.View)
    requires Still(s, v) && s.work[2].Rest? && v.prods == [Q.Idle, Q.Idle, Q.Idle, Q.Idle] && v.head == 0 && v.tail == 1
    ensures Still(r, v') && r.calls == s.calls && r.work == s.work[2 := Pushing] && r.sem == s.sem
    ensures v' == v.(head := 2, h := v.h + 1, log := v.log + [5], prods := v'.prods)
    ensures |v'.prods| == 4 && v'.prods[3].Idle?
  {
    A.Claiming(s.q, 2, 5);
    r := Reach(s, Enqueue(2, 5));
    hide Q.AdvanceProducer;
    r := PushSteps(r, 2, 4);
    v' := v.(head := 2, h := v.h + 1, log := v.log + [5], prods := r.q.prods);
    assert r.q.prods[2].Claimed?;
    assert r.work == s.work[2 := Pushing];
  }
}
