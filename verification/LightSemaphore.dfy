/**
 The semaphore of include/pump/toolkit/semaphore.h: one signed counter that stands for tokens or for
 waiters, backed by a kernel semaphore.  Any number of threads wait, with or without a timeout, and signal;
 every atomic operation and kernel call is a step.
 */
module LightSemaphore {

  /** How a wait was called: `try_wait()`, `wait()` or `wait(timeout)`. */
  datatype Kind = Try | Forever | Timed

  /** Where a thread stands (lines 159-259). */
  datatype Thread =
    | Idle
    | TryLoad(kind: Kind)
    | TryTake(kind: Kind, seen: int)             // line 162, the weak exchange
    | Spin(kind: Kind, left: int)               // line 217
    | SpinTake(kind: Kind, left: int, seen: int) // line 220
    | Enlist(kind: Kind)                        // line 230
    | Sleeping(kind: Kind)                      // lines 235, 237: waiting for the kernel
    | Reconsider                                // line 246, after a timeout
    | Resolve(seen: int)                         // lines 247-257
    | Releasing(owed: nat)                      // lines 194-196: permits still to be posted
    | Returned(ok: bool)

  datatype State = State(
    count: int,            // count_
    permits: nat,          // of the kernel semaphore
    maxSpin: int,
    threads: seq<Thread>,
    // History
    initial: nat, signalled: nat, succeeded: nat, gaveUp: nat)

  /** `fails`: a weak exchange fails for no reason, or a timed kernel wait times out. */
  datatype Action = Wait(t: nat, kind: Kind) | Signal(t: nat, n: nat) | Step(t: nat, fails: bool) | Leave(t: nat)

  function Goto(s: State, t: nat, pc: Thread): State
    requires t < |s.threads|
  {
    s.(threads := s.threads[t := pc])
  }

  function Succeed(s: State, t: nat): State
    requires t < |s.threads|
  {
    Goto(s, t, Returned(true)).(succeeded := s.succeeded + 1)
  }

  /** After the loop of lines 161-169 has found no token. */
  function Slow(kind: Kind, maxSpin: int): Thread {
    if kind.Try? then Returned(false) else Spin(kind, maxSpin)
  }

  function StepThread(s: State, t: nat, fails: bool): State
    requires t < |s.threads|
  {
    match s.threads[t]
    case Idle => s
    case Returned(ok) => s
    case TryLoad(kind) => Goto(s, t, if s.count > 0 then TryTake(kind, s.count) else Slow(kind, s.maxSpin))
    case TryTake(kind, seen) =>
      if s.count == seen && !fails then Succeed(s.(count := seen - 1), t)
      else Goto(s, t, if s.count > 0 then TryTake(kind, s.count) else Slow(kind, s.maxSpin))
    case Spin(kind, left) =>
      if left - 1 < 0 then Goto(s, t, Enlist(kind))
      else Goto(s, t, if s.count > 0 then SpinTake(kind, left - 1, s.count) else Spin(kind, left - 1))
    case SpinTake(kind, left, seen) =>
      if s.count == seen then Succeed(s.(count := seen - 1), t) else Goto(s, t, Spin(kind, left))
    case Enlist(kind) =>
      if s.count > 0 then Succeed(s.(count := s.count - 1), t)
      else Goto(s.(count := s.count - 1), t, Sleeping(kind))
    case Sleeping(kind) =>
      if kind.Timed? && fails then Goto(s, t, Reconsider)
      else if s.permits > 0 then Succeed(s.(permits := s.permits - 1), t)
      else s
    case Reconsider => Goto(s, t, Resolve(s.count))
    case Resolve(seen) =>
      if seen >= 0 then
        if s.permits > 0 then Succeed(s.(permits := s.permits - 1), t) else Goto(s, t, Reconsider)
      else if s.count == seen then Goto(s.(count := seen + 1, gaveUp := s.gaveUp + 1), t, Returned(false))
      else Goto(s, t, Reconsider)
    case Releasing(owed) =>
      if owed == 0 then Goto(s, t, Idle) else Goto(s.(permits := s.permits + 1), t, Releasing(owed - 1))
  }

  /** `-old_count < count ? -old_count : count`, if positive (lines 193-194). */
  function ToRelease(seen: int, n: nat): nat {
    if seen >= 0 then 0 else if -seen < n then -seen else n
  }

  function Apply(s: State, a: Action): State {
    match a
    case Wait(t, kind) => if t < |s.threads| && s.threads[t].Idle? then Goto(s, t, TryLoad(kind)) else s
    case Signal(t, n) =>
      if t < |s.threads| && s.threads[t].Idle? then
        Goto(s.(count := s.count + n, signalled := s.signalled + n), t, Releasing(ToRelease(s.count, n)))
      else s
    case Step(t, fails) => if t < |s.threads| then StepThread(s, t, fails) else s
    case Leave(t) => if t < |s.threads| && s.threads[t].Returned? then Goto(s, t, Idle) else s
  }

  function Run(s: State, acts: seq<Action>): State
    decreases |acts|
  {
    if acts == [] then s else Run(Apply(s, acts[0]), acts[1..])
  }

  function Init(maxSpin: int, initial: nat, threads: nat): State {
    State(initial, 0, maxSpin, seq(threads, _ => Idle), initial, 0, 0, 0)
  }

  // ---------------------------------------------------------------------------------------------
  // The invariant
  // ---------------------------------------------------------------------------------------------

  /** The thread has lowered the counter and waits for a permit, or for its turn to withdraw. */
  predicate Waiter(pc: Thread) {
    pc.Sleeping? || pc.Reconsider? || pc.Resolve?
  }

  function Waiters(threads: seq<Thread>): nat {
    if threads == [] then 0 else Waiters(threads[1..]) + (if Waiter(threads[0]) then 1 else 0)
  }

  function OwedBy(pc: Thread): nat {
    if pc.Releasing? then pc.owed else 0
  }

  function Owed(threads: seq<Thread>): nat {
    if threads == [] then 0 else Owed(threads[1..]) + OwedBy(threads[0])
  }

  function Max(a: int, b: int): int {
    if a > b then a else b
  }

  /** Tokens: what came in is what went out, what is there, and what is on its way to a waiter.
      Waiters: a negative counter counts the waiters for whom no permit is there or on its way. */
  ghost predicate Balanced(s: State, waiters: nat, owed: nat) {
    && s.initial + s.signalled == s.succeeded + Max(s.count, 0) + s.permits + owed
    && Max(0, -s.count) == waiters - s.permits - owed
  }

  predicate ThreadOk(pc: Thread) {
    && (pc.TryTake? || pc.SpinTake? ==> pc.seen > 0)
    && (pc.Sleeping? || pc.Enlist? || pc.Spin? || pc.SpinTake? ==> !pc.kind.Try?)
  }

  ghost predicate Inv(s: State) {
    && Balanced(s, Waiters(s.threads), Owed(s.threads))
    && forall t :: 0 <= t < |s.threads| ==> ThreadOk(s.threads[t])
  }

  lemma WaitersUpdate(threads: seq<Thread>, t: nat, pc: Thread)
    requires t < |threads|
    ensures Waiters(threads[t := pc]) + (if Waiter(threads[t]) then 1 else 0)
         == Waiters(threads) + (if Waiter(pc) then 1 else 0)
  {
    if t == 0 {
      assert threads[0 := pc][1..] == threads[1..];
    } else {
      assert threads[t := pc][1..] == threads[1..][t - 1 := pc];
      WaitersUpdate(threads[1..], t - 1, pc);
    }
  }

  lemma OwedUpdate(threads: seq<Thread>, t: nat, pc: Thread)
    requires t < |threads|
    ensures Owed(threads[t := pc]) + OwedBy(threads[t]) == Owed(threads) + OwedBy(pc)
  {
    if t == 0 {
      assert threads[0 := pc][1..] == threads[1..];
    } else {
      assert threads[t := pc][1..] == threads[1..][t - 1 := pc];
      OwedUpdate(threads[1..], t - 1, pc);
    }
  }

  /** One operation of a thread keeps the two balances, counting the thread itself. */
  lemma StepBalances(s: State, t: nat, fails: bool, waiters: nat, owed: nat)
    requires t < |s.threads| && ThreadOk(s.threads[t])
    requires Balanced(s, waiters + (if Waiter(s.threads[t]) then 1 else 0), owed + OwedBy(s.threads[t]))
    ensures var s' := StepThread(s, t, fails);
      && |s'.threads| == |s.threads| && s'.threads == s.threads[t := s'.threads[t]] && ThreadOk(s'.threads[t])
      && Balanced(s', waiters + (if Waiter(s'.threads[t]) then 1 else 0), owed + OwedBy(s'.threads[t]))
  {
    var pc := s.threads[t];
    if Waiter(pc) || pc.Enlist? || pc.Releasing? {
      SlowBalances(s, t, fails, waiters, owed);
    } else {
      FastBalances(s, t, fails, waiters, owed);
    }
  }

  lemma SlowBalances(s: State, t: nat, fails: bool, waiters: nat, owed: nat)
    requires t < |s.threads| && (Waiter(s.threads[t]) || s.threads[t].Enlist? || s.threads[t].Releasing?)
    requires t < |s.threads| && ThreadOk(s.threads[t])
    requires Balanced(s, waiters + (if Waiter(s.threads[t]) then 1 else 0), owed + OwedBy(s.threads[t]))
    ensures var s' := StepThread(s, t, fails);
      && |s'.threads| == |s.threads| && s'.threads == s.threads[t := s'.threads[t]] && ThreadOk(s'.threads[t])
      && Balanced(s', waiters + (if Waiter(s'.threads[t]) then 1 else 0), owed + OwedBy(s'.threads[t]))
  {}

  lemma FastBalances(s: State, t: nat, fails: bool, waiters: nat, owed: nat)
    requires t < |s.threads| && !Waiter(s.threads[t]) && !s.threads[t].Enlist? && !s.threads[t].Releasing?
    requires t < |s.threads| && ThreadOk(s.threads[t])
    requires Balanced(s, waiters + (if Waiter(s.threads[t]) then 1 else 0), owed + OwedBy(s.threads[t]))
    ensures var s' := StepThread(s, t, fails);
      && |s'.threads| == |s.threads| && s'.threads == s.threads[t := s'.threads[t]] && ThreadOk(s'.threads[t])
      && Balanced(s', waiters + (if Waiter(s'.threads[t]) then 1 else 0), owed + OwedBy(s'.threads[t]))
  {}

  lemma StepKeeps(s: State, a: Action)
    requires Inv(s)
    ensures Inv(Apply(s, a))
  {
    hide Waiters, Owed;
    var s' := Apply(s, a);
    if a.t < |s.threads| {
      var pc := s.threads[a.t];
      WaitersUpdate(s.threads, a.t, Idle);
      OwedUpdate(s.threads, a.t, Idle);
      var waiters, owed := Waiters(s.threads[a.t := Idle]), Owed(s.threads[a.t := Idle]);
      if a.Step? { StepBalances(s, a.t, a.fails, waiters, owed); }
      hide StepThread;
      assert s'.threads == s.threads[a.t := s'.threads[a.t]];
      WaitersUpdate(s.threads, a.t, s'.threads[a.t]);
      OwedUpdate(s.threads, a.t, s'.threads[a.t]);
    }
  }

  lemma NobodyWaits(n: nat)
    ensures Waiters(seq(n, _ => Idle)) == 0 && Owed(seq(n, _ => Idle)) == 0
  {
    if n > 0 {
      assert seq(n, _ => Idle)[1..] == seq(n - 1, _ => Idle);
      NobodyWaits(n - 1);
    }
  }

  lemma {:induction false} RunKeeps(s: State, acts: seq<Action>)
    requires Inv(s)
    ensures Inv(Run(s, acts))
    decreases |acts|
  {
    if acts != [] {
      StepKeeps(s, acts[0]);
      RunKeeps(Apply(s, acts[0]), acts[1..]);
    }
  }

  // ---------------------------------------------------------------------------------------------
  // What every run guarantees
  // ---------------------------------------------------------------------------------------------

  /** Tokens and waiters are conserved, whatever the threads do and whichever waits time out. */
  lemma Conservation(maxSpin: int, initial: nat, threads: nat, acts: seq<Action>)
    ensures var s := Run(Init(maxSpin, initial, threads), acts);
      && initial + s.signalled == s.succeeded + Max(s.count, 0) + s.permits + Owed(s.threads)
      && Max(0, -s.count) == Waiters(s.threads) - s.permits - Owed(s.threads)
  {
    NobodyWaits(threads);
    RunKeeps(Init(maxSpin, initial, threads), acts);
    InitialStays(Init(maxSpin, initial, threads), acts);
  }

  lemma {:induction false} InitialStays(s: State, acts: seq<Action>)
    ensures Run(s, acts).initial == s.initial
    decreases |acts|
  {
    if acts != [] { InitialStays(Apply(s, acts[0]), acts[1..]); }
  }

  lemma WaitersPositive(threads: seq<Thread>, t: nat)
    requires t < |threads| && Waiter(threads[t])
    ensures Waiters(threads) > 0
  {
    if t > 0 { WaitersPositive(threads[1..], t - 1); }
  }

  /** A waiter always has a way out: the counter is negative, or a permit is there or owed. */
  lemma NoLostWakeUp(s: State, t: nat)
    requires Inv(s) && t < |s.threads| && Waiter(s.threads[t])
    ensures s.count < 0 || s.permits + Owed(s.threads) > 0
  {
    WaitersPositive(s.threads, t);
  }

  /** A timed-out waiter that runs alone leaves the loop of lines 245-258 in one round, unless a
      signaller still owes it a permit; it leaves with true exactly if the counter is not negative. */
  lemma TimedOutLeaves(s: State, t: nat, f: bool, g: bool)
    requires Inv(s) && t < |s.threads| && s.threads[t].Reconsider? && (s.count < 0 || Owed(s.threads) == 0)
    ensures StepThread(StepThread(s, t, f), t, g).threads[t] == Returned(s.count >= 0)
  {
    WaitersPositive(s.threads, t);
  }

  /** A signal posts a permit for every waiter that none is there or on its way for, as far as its count goes, so no
      sleeper is left behind. */
  lemma SignalReleases(s: State, t: nat, n: nat)
    requires Inv(s) && t < |s.threads| && s.threads[t].Idle?
    ensures var unpaid := Waiters(s.threads) - s.permits - Owed(s.threads);
      unpaid >= 0 && Apply(s, Signal(t, n)).threads[t] == Releasing(if n < unpaid then n else unpaid)
  {}

  /** A sleeper for whom a permit is there wakes at its next step, and takes it. */
  lemma WakesAlone(s: State, t: nat)
    requires t < |s.threads| && s.threads[t].Sleeping? && s.permits > 0
    ensures Apply(s, Step(t, false))
         == s.(permits := s.permits - 1, succeeded := s.succeeded + 1, threads := s.threads[t := Returned(true)])
  {}

  function Posts(s: State, t: nat, n: nat): State
    decreases n
  {
    if n == 0 then s else Posts(Apply(s, Step(t, false)), t, n - 1)
  }

  /** A signal that nobody disturbs returns, the counter raised by n, and a permit there for each waiter that lacked
      one, as far as n goes. */
  lemma SignalAlone(s: State, t: nat, n: nat)
    requires Inv(s) && t < |s.threads| && s.threads[t].Idle?
    ensures var unpaid := Waiters(s.threads) - s.permits - Owed(s.threads);
      var m := if n < unpaid then n else unpaid;
      m >= 0 && Posts(Apply(s, Signal(t, n)), t, m + 1)
             == s.(count := s.count + n, signalled := s.signalled + n, permits := s.permits + m)
  {
    SignalReleases(s, t, n);
    var m := ToRelease(s.count, n);
    var s1 := Apply(s, Signal(t, n));
    assert s1 == s.(count := s.count + n, signalled := s.signalled + n, threads := s.threads[t := Releasing(m)]);
    PostsAll(s1, t, m);
    assert s.threads[t := Releasing(m)][t := Idle] == s.threads;
    hide Apply, Posts;
  }

  lemma {:induction false} PostsAll(s: State, t: nat, m: nat)
    requires t < |s.threads| && s.threads[t] == Releasing(m)
    ensures Posts(s, t, m + 1) == s.(permits := s.permits + m, threads := s.threads[t := Idle])
    decreases m
  {
    var s1 := Apply(s, Step(t, false));
    assert s1 == if m == 0 then s.(threads := s.threads[t := Idle])
                 else s.(permits := s.permits + 1, threads := s.threads[t := Releasing(m - 1)]);
    hide Apply;
    if m == 0 {
      assert Posts(s, t, 1) == Posts(s1, t, 0);
    } else {
      PostsAll(s1, t, m - 1);
      assert s.threads[t := Releasing(m - 1)][t := Idle] == s.threads[t := Idle];
    }
  }

  /** In every run, whenever nobody waits and no permit is out, the counter is what was signalled and not taken. */
  lemma QuietCount(maxSpin: int, initial: nat, threads: nat, acts: seq<Action>)
    ensures var s := Run(Init(maxSpin, initial, threads), acts);
      s.permits == 0 && Owed(s.threads) == 0 && Waiters(s.threads) == 0
      ==> s.count == initial + s.signalled - s.succeeded >= 0
  {
    Conservation(maxSpin, initial, threads, acts);
  }

  // ---------------------------------------------------------------------------------------------
  // What a wait answers
  // ---------------------------------------------------------------------------------------------

  /** A wait of any kind that nobody disturbs takes a token if the counter has one. */
  lemma TakesAlone(s: State, t: nat, kind: Kind)
    requires t < |s.threads| && s.threads[t].Idle? && s.count > 0
    ensures Apply(Apply(Apply(s, Wait(t, kind)), Step(t, false)), Step(t, false))
         == s.(count := s.count - 1, succeeded := s.succeeded + 1, threads := s.threads[t := Returned(true)])
  {
    var s1 := Apply(s, Wait(t, kind));
    assert s1 == s.(threads := s.threads[t := TryLoad(kind)]);
    var s2 := Apply(s1, Step(t, false));
    assert s2 == s.(threads := s.threads[t := TryTake(kind, s.count)]);
  }

  /** `try_wait()` that nobody disturbs returns at once, and false, if it has none. */
  lemma RefusesAlone(s: State, t: nat)
    requires t < |s.threads| && s.threads[t].Idle? && s.count <= 0
    ensures Apply(Apply(s, Wait(t, Try)), Step(t, false)) == s.(threads := s.threads[t := Returned(false)])
  {}

  /** A wait comes to return false only with a step that finds no token in the counter: a load of line 160 or 162 of
      `try_wait()`, or the exchange with which a waiter that has timed out withdraws. */
  lemma FalseMeansNoToken(s: State, t: nat, fails: bool)
    requires t < |s.threads| && !s.threads[t].Returned? && StepThread(s, t, fails).threads[t] == Returned(false)
    ensures s.count <= 0
    ensures if s.threads[t].Resolve? then s.count < 0 && StepThread(s, t, fails).count == s.count + 1
            else (s.threads[t].TryLoad? || s.threads[t].TryTake?) && s.threads[t].kind.Try?
                 && StepThread(s, t, fails).count == s.count
  {}

  /** Where a thread can stand in a wait of this kind. */
  predicate InWait(pc: Thread, kind: Kind) {
    match pc
    case Idle => false
    case Releasing(owed) => false
    case Reconsider => kind.Timed?
    case Resolve(seen) => kind.Timed?
    case Returned(ok) => ok || !kind.Forever?
    case _ => pc.kind == kind
  }

  lemma StepInWait(s: State, t: nat, fails: bool, kind: Kind)
    requires t < |s.threads| && InWait(s.threads[t], kind)
    ensures t < |StepThread(s, t, fails).threads| && InWait(StepThread(s, t, fails).threads[t], kind)
  {}

  /** In all runs a wait stays one of its kind until its thread leaves it; so `wait()` never returns false. */
  lemma {:induction false} StaysInWait(s: State, t: nat, kind: Kind, acts: seq<Action>)
    requires t < |s.threads| && InWait(s.threads[t], kind) && forall i :: 0 <= i < |acts| ==> acts[i] != Leave(t)
    ensures t < |Run(s, acts).threads| && InWait(Run(s, acts).threads[t], kind)
    ensures kind.Forever? ==> Run(s, acts).threads[t] != Returned(false)
    decreases |acts|
  {
    if acts != [] {
      var a := acts[0];
      assert a != Leave(t);
      if a.Step? && a.t < |s.threads| { if a.t == t { StepInWait(s, t, a.fails, kind); } StepElsewhere(s, a.t, a.fails); }
      hide StepThread;
      StaysInWait(Apply(s, a), t, kind, acts[1..]);
    }
  }

  lemma StepElsewhere(s: State, t: nat, fails: bool)
    requires t < |s.threads|
    ensures var s' := StepThread(s, t, fails); |s'.threads| == |s.threads| && s'.threads == s.threads[t := s'.threads[t]]
  {}

  function Steps(s: State, t: nat, n: nat): State
    decreases n
  {
    if n == 0 then s else Steps(Apply(s, Step(t, true)), t, n - 1)
  }

  /** A timed wait that finds no token, is not signalled and times out returns false and leaves the counter as it was. */
  lemma TimesOutAlone(s: State, t: nat) returns (n: nat)
    requires t < |s.threads| && s.threads[t].Idle? && s.count <= 0
    ensures Steps(Apply(s, Wait(t, Timed)), t, n)
         == s.(gaveUp := s.gaveUp + 1, threads := s.threads[t := Returned(false)])
  {
    var s1 := Apply(s, Wait(t, Timed));
    var s2 := Apply(s1, Step(t, true));
    assert s2 == s.(threads := s.threads[t := Spin(Timed, s.maxSpin)]);
    n := SpinsOut(s, s2, t, s.maxSpin);
    n := n + 1;
    hide Apply;
    assert Steps(s1, t, n) == Steps(s2, t, n - 1);
  }

  lemma {:induction false} SpinsOut(s: State, r: State, t: nat, left: int) returns (n: nat)
    requires t < |s.threads| && s.count <= 0 && r == s.(threads := s.threads[t := Spin(Timed, left)])
    ensures Steps(r, t, n) == s.(gaveUp := s.gaveUp + 1, threads := s.threads[t := Returned(false)])
    decreases if left < 0 then 0 else left
  {
    var r' := Apply(r, Step(t, true));
    if left - 1 < 0 {
      assert r' == s.(threads := s.threads[t := Enlist(Timed)]);
      Withdraws(s, r', t);
      n := 5;
    } else {
      assert r' == s.(threads := s.threads[t := Spin(Timed, left - 1)]);
      n := SpinsOut(s, r', t, left - 1);
      n := n + 1;
    }
    hide Apply;
    assert Steps(r, t, n) == Steps(r', t, n - 1);
  }

  lemma Withdraws(s: State, r: State, t: nat)
    requires t < |s.threads| && s.count <= 0 && r == s.(threads := s.threads[t := Enlist(Timed)])
    ensures Steps(r, t, 4) == s.(gaveUp := s.gaveUp + 1, threads := s.threads[t := Returned(false)])
  {
    var r1 := Apply(r, Step(t, true));
    assert r1 == s.(count := s.count - 1, threads := s.threads[t := Sleeping(Timed)]);
    var r2 := Apply(r1, Step(t, true));
    assert r2 == s.(count := s.count - 1, threads := s.threads[t := Reconsider]);
    var r3 := Apply(r2, Step(t, true));
    assert r3 == s.(count := s.count - 1, threads := s.threads[t := Resolve(s.count - 1)]);
    var r4 := Apply(r3, Step(t, true));
    assert r4 == s.(gaveUp := s.gaveUp + 1, threads := s.threads[t := Returned(false)]);
    hide Apply;
    assert Steps(r, t, 4) == Steps(r1, t, 3) == Steps(r2, t, 2) == Steps(r3, t, 1) == Steps(r4, t, 0);
  }
}
