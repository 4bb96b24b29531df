/** The steps of include/pump/toolkit/freelock_queue.h over any inner queue: where a thread stands outside the inner
    queue and the semaphore, and what it can do. */
module BlockingThreads {
  import Sem = LightSemaphore
  import B = BlockingQueue

  /** Where a thread stands; inside a push, a pop or the semaphore, the states of those say more. */
  datatype Work =
    | Rest
    | Pushing
    | ToSignal
    | Signalling
    | Waiting(c: nat)
    | Popping(c: nat)

  datatype Action<T> =
    | Enqueue(t: nat, v: T) | PushStep(t: nat) | SignalIt(t: nat) | EnqueueReturn(t: nat)
    | Dequeue(t: nat, kind: Sem.Kind) | SemStep(t: nat, fails: bool) | Proceed(t: nat) | PopStep(t: nat)

  lemma SemThreads(s: Sem.State)
    ensures forall a: Sem.Action :: |Sem.Apply(s, a).threads| == |s.threads|
  {
    forall a: Sem.Action ensures |Sem.Apply(s, a).threads| == |s.threads| { B.SemOutcome(s, a); }
  }
}
