/**
 The growable ring queue of include/pump/toolkit/freelock_m2m_queue.h, as a state machine over its
 atomic operations.  Any number of producers and consumers are interleaved by an arbitrary schedule;
 memory is sequentially consistent.  Element nodes are numbered in the order of their allocation, so
 `next`, `ready` and `data` are the fields of node i at index i.
 */
module M2mQueue {
  import opened Wrappers
  import Counting

  type Node = nat

  /** Where a producer stands in `push` (lines 117-159) and `__extend_list` (lines 269-300).
      `w` is `next_write_node`, `v` the value; `ver` and `k` are history (see State). */
  datatype Producer<T> =
    | Idle
    | Loaded(seen: Option<Node>, ver: nat, v: T)      // head_ loaded, or reloaded by a failed exchange
    | NextRead(w: Node, ver: nat, v: T, n: Node)      // w->next read for the comparison of line 129
    | NotFull(w: Node, ver: nat, v: T)                // w->next was not tail_
    | Armed(w: Node, ver: nat, v: T, n: Node)         // w->next read again, about to exchange head_
    | Full(w: Node, ver: nat, v: T)                   // w->next was tail_, about to lock head_
    | Locked(w: Node, v: T)                           // head_ is null and this producer's
    | Linked(w: Node, v: T)                           // block spliced in after w
    | Extended(w: Node, v: T, k: nat)                 // head_ stored, capacity_ still to be raised
    | Claimed(w: Node, v: T, k: nat)                  // waiting for w to become unready
    | Writable(w: Node, v: T, k: nat)                 // w seen unready
    | Written(w: Node, v: T, k: nat)                  // data stored, ready still to be set

  /** Where a consumer stands in `pop` (lines 165-202). */
  datatype Consumer =
    | Resting
    | TailLoaded(t: Node, ver: nat)
    | NextLoaded(t: Node, ver: nat, n: Node)
    | ReadySeen(t: Node, ver: nat, n: Node)
    | Taking(n: Node, k: nat)                         // tail_ moved to n, data still to be read
    | Clearing(n: Node, k: nat)                       // data read, ready still to be reset

  datatype State<T> = State(
    // The queue object.
    block: nat,
    next: seq<Node>, ready: seq<bool>, data: seq<Option<T>>,
    head: Option<Node>, tail: Node, capacity: nat,
    // The threads.
    prods: seq<Producer<T>>, cons: seq<Consumer>,
    // History: read by no operation of the queue.
    ring: seq<Node>,            // the cycle of nodes, starting with tail_
    h: nat,                     // index in ring of the next node to be claimed
    popped: nat,                // number of times tail_ moved
    log: seq<T>,                // values in the order their nodes were claimed
    owner: seq<nat>,            // the producer of each of them
    headVer: nat, tailVer: nat, // number of writes to head_ and tail_
    lockedBy: Option<nat>,      // the producer that holds head_ at null
    taker: seq<nat>,            // the consumer that claimed each popped node
    result: seq<Option<T>>,     // what each of those pops returned, once it has read it
    order: seq<T>)              // returned values in the order they were read

  datatype Action<T> = Push(p: nat, v: T) | Producer(p: nat) | Pop(c: nat) | Consumer(c: nat)

  function SetP<T>(s: State<T>, p: nat, pc: Producer<T>): State<T>
    requires p < |s.prods|
  {
    s.(prods := s.prods[p := pc])
  }

  function SetC<T>(s: State<T>, c: nat, pc: Consumer): State<T>
    requires c < |s.cons|
  {
    s.(cons := s.cons[c := pc])
  }

  function NewBlock(first: Node, count: nat): (b: seq<Node>)
    ensures |b| == count && forall j :: 0 <= j < count ==> b[j] == first + j
  {
    seq(count, j requires 0 <= j => first + j)
  }

  /** The `next` fields after a block has been spliced in behind w. */
  function Spliced(next: seq<Node>, w: Node, count: nat): (r: seq<Node>)
    requires w < |next| && count > 0
    ensures |r| == |next| + count
    ensures forall i :: 0 <= i < |next| && i != w ==> r[i] == next[i]
    ensures r[w] == |next| && r[|r| - 1] == next[w]
    ensures forall i :: |next| <= i < |r| - 1 ==> r[i] == i + 1
  {
    next[w := |next|] + NewBlock(|next| + 1, count - 1) + [next[w]]
  }

  /** The next atomic operation of producer p. */
  function AdvanceProducer<T>(s: State<T>, p: nat): State<T> {
    if p >= |s.prods| then s else
    match s.prods[p]
    case Idle => s
    case Loaded(seen, ver, v) =>
      if seen.None? then SetP(s, p, Loaded(s.head, s.headVer, v))
      else if seen.value < |s.next| then SetP(s, p, NextRead(seen.value, ver, v, s.next[seen.value]))
      else s
    case NextRead(w, ver, v, n) =>
      SetP(s, p, if n != s.tail then NotFull(w, ver, v) else Full(w, ver, v))
    case NotFull(w, ver, v) =>
      if w < |s.next| then SetP(s, p, Armed(w, ver, v, s.next[w])) else s
    case Armed(w, ver, v, n) =>
      if s.head == Some(w) then
        SetP(s.(head := Some(n), headVer := s.headVer + 1, h := s.h + 1,
                log := s.log + [v], owner := s.owner + [p]),
             p, Claimed(w, v, |s.log|))
      else SetP(s, p, Loaded(s.head, s.headVer, v))
    case Full(w, ver, v) =>
      if s.head == Some(w) then
        SetP(s.(head := None, headVer := s.headVer + 1, lockedBy := Some(p)), p, Locked(w, v))
      else SetP(s, p, Loaded(s.head, s.headVer, v))
    case Locked(w, v) =>
      if w < |s.next| && s.h < |s.ring| && s.block > 0 then
        SetP(s.(next := Spliced(s.next, w, s.block),
                ready := s.ready + seq(s.block, _ => false),
                data := s.data + seq(s.block, _ => None),
                ring := s.ring[..s.h + 1] + NewBlock(|s.next|, s.block) + s.ring[s.h + 1..]),
             p, Linked(w, v))
      else s
    case Linked(w, v) =>
      if w < |s.next| then
        SetP(s.(head := Some(s.next[w]), headVer := s.headVer + 1, h := s.h + 1, lockedBy := None,
                log := s.log + [v], owner := s.owner + [p]),
             p, Extended(w, v, |s.log|))
      else s
    case Extended(w, v, k) =>
      SetP(s.(capacity := s.capacity + s.block), p, Claimed(w, v, k))
    case Claimed(w, v, k) =>
      if w < |s.ready| && !s.ready[w] then SetP(s, p, Writable(w, v, k)) else s
    case Writable(w, v, k) =>
      if w < |s.data| then SetP(s.(data := s.data[w := Some(v)]), p, Written(w, v, k)) else s
    case Written(w, v, k) =>
      if w < |s.ready| then SetP(s.(ready := s.ready[w := true]), p, Idle) else s
  }

  /** The next atomic operation of consumer c. */
  function AdvanceConsumer<T>(s: State<T>, c: nat): State<T> {
    if c >= |s.cons| then s else
    match s.cons[c]
    case Resting => s
    case TailLoaded(t, ver) =>
      if t < |s.next| then SetC(s, c, NextLoaded(t, ver, s.next[t])) else s
    case NextLoaded(t, ver, n) =>
      if n < |s.ready| then SetC(s, c, if s.ready[n] then ReadySeen(t, ver, n) else Resting) else s
    case ReadySeen(t, ver, n) =>
      if s.tail == t then
        SetC(s.(tail := n, tailVer := s.tailVer + 1, popped := s.popped + 1,
                ring := if |s.ring| > 0 then s.ring[1..] + [s.ring[0]] else s.ring,
                h := if s.h > 0 then s.h - 1 else 0,
                taker := s.taker + [c], result := s.result + [None]),
             c, Taking(n, s.popped))
      else SetC(s, c, TailLoaded(s.tail, s.tailVer))
    case Taking(n, k) =>
      if n < |s.data| && k < |s.result| && s.data[n].Some? then
        SetC(s.(result := s.result[k := s.data[n]], order := s.order + [s.data[n].value]), c, Clearing(n, k))
      else s
    case Clearing(n, k) =>
      if n < |s.ready| then SetC(s.(ready := s.ready[n := false]), c, Resting) else s
  }

  function Apply<T>(s: State<T>, a: Action<T>): State<T> {
    match a
    case Push(p, v) =>
      if p < |s.prods| && s.prods[p].Idle? then SetP(s, p, Loaded(s.head, s.headVer, v)) else s
    case Producer(p) => AdvanceProducer(s, p)
    case Pop(c) =>
      if c < |s.cons| && s.cons[c].Resting? then SetC(s, c, TailLoaded(s.tail, s.tailVer)) else s
    case Consumer(c) => AdvanceConsumer(s, c)
  }

  function Run<T>(s: State<T>, acts: seq<Action<T>>): State<T>
    decreases |acts|
  {
    if acts == [] then s else Run(Apply(s, acts[0]), acts[1..])
  }

  /** A queue of `blocks` blocks, made by `__init_list` (lines 223-264), before any thread has started. */
  function Init<T>(block: nat, blocks: nat, producers: nat, consumers: nat): State<T>
    requires block * blocks >= 2
  {
    var size := block * blocks;
    State(block,
          NewBlock(1, size - 1) + [0], seq(size, _ => false), seq(size, _ => None),
          Some(0), size - 1, size,
          seq(producers, _ => Idle), seq(consumers, _ => Resting),
          [size - 1] + NewBlock(0, size - 1), 1, 0, [], [], 0, 0, None, [], [], [])
  }

  /** `__init_list` (lines 223-264): the `next` fields, and the initial head_, tail_ and capacity_.
      The constructor of a node makes it point at the slot behind it, also where there is none. */
  method InitList(block: nat, size: int) returns (next: seq<Node>, head: Node, tail: Node, capacity: nat)
    requires block >= 2
    ensures exists blocks: nat :: blocks >= 1 && capacity == block * blocks
    ensures block <= capacity && size <= capacity && (capacity > block ==> capacity < size + block)
    ensures next == NewBlock(1, capacity - 1) + [0] && head == 0 && tail == capacity - 1
  {
    var left := if size > block then size else block;
    ghost var blocks := 1;
    next := NewBlock(1, block);
    head, tail, capacity := 0, block - 1, block;
    left := left - block;
    while left > 0
      invariant blocks >= 1 && capacity == block * blocks == |next| && tail == capacity - 1
      invariant left == (if size > block then size else block) - capacity
      invariant capacity > block ==> capacity < size + block
      invariant next == NewBlock(1, capacity)
    {
      next := next[tail := |next|] + NewBlock(|next| + 1, block);
      tail := |next| - 1;
      capacity := capacity + block;
      blocks := blocks + 1;
      left := left - block;
    }
    next := next[tail := head];
  }

  // ---------------------------------------------------------------------------------------------
  // The invariant
  // ---------------------------------------------------------------------------------------------

  /** `next` links the nodes of `ring` into one cycle. */
  ghost predicate RingOk(next: seq<Node>, ring: seq<Node>) {
    && |ring| == |next| >= 2
    && (forall n :: 0 <= n < |next| ==> next[n] < |next|)
    && (forall i :: 0 <= i < |ring| ==> ring[i] < |next|)
    && (forall i, j :: 0 <= i < j < |ring| ==> ring[i] != ring[j])
    && (forall i :: 0 <= i < |ring| - 1 ==> next[ring[i]] == ring[i + 1])
    && next[ring[|ring| - 1]] == ring[0]
  }

  ghost predicate Shape<T>(s: State<T>) {
    && s.block > 0
    && RingOk(s.next, s.ring)
    && |s.ready| == |s.data| == |s.next|
    && s.tail == s.ring[0]
    && 1 <= s.h < |s.ring|
    && (s.head.Some? ==> s.head.value == s.ring[s.h])
    && |s.log| == |s.owner| == s.popped + s.h - 1
    && |s.taker| == |s.result| == s.popped
  }

  ghost predicate LockOk<T>(s: State<T>) {
    && (s.head.None? <==> s.lockedBy.Some?)
    && (s.lockedBy.Some? ==> s.lockedBy.value < |s.prods|)
    && forall p :: 0 <= p < |s.prods| ==> (s.prods[p].Locked? || s.prods[p].Linked? <==> s.lockedBy == Some(p))
  }

  /** The producer is between claiming node w, as the k-th claim, and publishing it. */
  predicate Owns<T>(pc: Producer<T>, k: nat) {
    (pc.Extended? || pc.Claimed? || pc.Writable? || pc.Written?) && pc.k == k
  }

  predicate Holds(pc: Consumer, n: Node) {
    (pc.Taking? || pc.Clearing?) && pc.n == n
  }

  /** A consumer has moved tail_ to n and has not yet reset its ready flag. */
  ghost predicate Held<T>(s: State<T>, n: Node) {
    exists c :: 0 <= c < |s.cons| && Holds(s.cons[c], n)
  }

  ghost predicate ProducerOk<T>(s: State<T>, p: nat)
    requires Shape(s) && p < |s.prods|
  {
    match s.prods[p]
    case Idle => true
    case Loaded(seen, ver, v) =>
      (seen.Some? ==> seen.value < |s.next|) && ver <= s.headVer && (ver == s.headVer ==> seen == s.head)
    case NextRead(w, ver, v, n) =>
      w < |s.next| && ver <= s.headVer && (ver == s.headVer ==> s.head == Some(w) && n == s.next[w])
    case NotFull(w, ver, v) =>
      w < |s.next| && ver <= s.headVer && (ver == s.headVer ==> s.head == Some(w) && s.next[w] != s.tail)
    case Armed(w, ver, v, n) =>
      && w < |s.next| && ver <= s.headVer
      && (ver == s.headVer ==> s.head == Some(w) && n == s.next[w] && n != s.tail)
    case Full(w, ver, v) => w < |s.next|
    case Locked(w, v) => w == s.ring[s.h]
    case Linked(w, v) => w == s.ring[s.h] && s.h + 1 < |s.ring|
    case Extended(w, v, k) => OwnerOk(s, p, w, v, k) && (s.ready[w] ==> Held(s, w))
    case Claimed(w, v, k) => OwnerOk(s, p, w, v, k) && (s.ready[w] ==> Held(s, w))
    case Writable(w, v, k) => OwnerOk(s, p, w, v, k) && !s.ready[w]
    case Written(w, v, k) => OwnerOk(s, p, w, v, k) && !s.ready[w] && s.data[w] == Some(v)
  }

  ghost predicate OwnerOk<T>(s: State<T>, p: nat, w: Node, v: T, k: nat)
    requires Shape(s)
  {
    && s.popped <= k < |s.log|
    && s.ring[k - s.popped + 1] == w
    && s.log[k] == v
    && s.owner[k] == p
  }

  /** The i-th node after tail_ is claimed and published: its value is there to be popped. */
  ghost predicate Published<T>(s: State<T>, i: nat)
    requires Shape(s) && i < |s.ring|
  {
    1 <= i < s.h && s.ready[s.ring[i]] && !Held(s, s.ring[i])
  }

  ghost predicate NodeOk<T>(s: State<T>, i: nat)
    requires Shape(s) && i < |s.ring|
  {
    var n := s.ring[i];
    if 1 <= i < s.h then
      var k := s.popped + i - 1;
      if s.ready[n] && !Held(s, n) then s.data[n] == Some(s.log[k])
      else s.owner[k] < |s.prods| && Owns(s.prods[s.owner[k]], k)
    else s.ready[n] ==> Held(s, n)
  }

  ghost predicate ConsumerOk<T>(s: State<T>, c: nat)
    requires Shape(s) && c < |s.cons|
  {
    match s.cons[c]
    case Resting => true
    case TailLoaded(t, ver) => t < |s.next| && ver <= s.tailVer && (ver == s.tailVer ==> t == s.tail)
    case NextLoaded(t, ver, n) =>
      n < |s.next| && ver <= s.tailVer && (ver == s.tailVer ==> t == s.tail && n == s.ring[1])
    case ReadySeen(t, ver, n) =>
      n < |s.next| && ver <= s.tailVer && (ver == s.tailVer ==> t == s.tail && n == s.ring[1])
    case Taking(n, k) =>
      && n < |s.next| && s.ready[n] && k < s.popped && s.taker[k] == c && s.result[k].None?
      && s.data[n] == Some(s.log[k])
    case Clearing(n, k) => n < |s.next| && s.ready[n]
  }

  ghost predicate HoldersDistinct(cons: seq<Consumer>) {
    forall c, d :: 0 <= c < d < |cons| && (cons[c].Taking? || cons[c].Clearing?) ==> !Holds(cons[d], cons[c].n)
  }

  /** The k-th claimed value was returned by the pop that claimed it, or is about to be. */
  ghost predicate Delivered<T>(s: State<T>, k: nat) {
    && k < |s.result| && k < |s.log| && k < |s.taker|
    && if s.result[k].Some? then s.result[k].value == s.log[k]
       else s.taker[k] < |s.cons| && s.cons[s.taker[k]].Taking? && s.cons[s.taker[k]].k == k
  }

  function Finishing<T>(prods: seq<Producer<T>>): nat {
    if prods == [] then 0
    else Finishing(prods[1..]) + (if prods[0].Linked? || prods[0].Extended? then 1 else 0)
  }

  ghost predicate ProducersOk<T>(s: State<T>)
    requires Shape(s)
  {
    forall p :: 0 <= p < |s.prods| ==> ProducerOk(s, p)
  }

  ghost predicate NodesOk<T>(s: State<T>)
    requires Shape(s)
  {
    forall i :: 0 <= i < |s.ring| ==> NodeOk(s, i)
  }

  ghost predicate ConsumersOk<T>(s: State<T>)
    requires Shape(s)
  {
    && (forall c :: 0 <= c < |s.cons| ==> ConsumerOk(s, c))
    && HoldersDistinct(s.cons)
  }

  ghost predicate TicketsOk<T>(s: State<T>) {
    forall k :: 0 <= k < s.popped ==> Delivered(s, k)
  }

  /** `capacity_` is the length of the cycle, less one block for every extension that is finishing. */
  ghost predicate CapacityOk<T>(s: State<T>) {
    |s.ring| == s.capacity + s.block * Finishing(s.prods)
  }

  ghost predicate Inv<T>(s: State<T>) {
    && Shape(s)
    && LockOk(s)
    && ProducersOk(s)
    && NodesOk(s)
    && ConsumersOk(s)
    && TicketsOk(s)
    && CapacityOk(s)
  }

  // ---------------------------------------------------------------------------------------------
  // Producer steps keep the invariant
  // ---------------------------------------------------------------------------------------------

  lemma FinishingUpdate<T>(prods: seq<Producer<T>>, p: nat, pc: Producer<T>)
    requires p < |prods|
    ensures Finishing(prods[p := pc]) + (if prods[p].Linked? || prods[p].Extended? then 1 else 0)
         == Finishing(prods) + (if pc.Linked? || pc.Extended? then 1 else 0)
  {
    if p == 0 {
      assert prods[0 := pc][1..] == prods[1..];
    } else {
      assert prods[p := pc][1..] == prods[1..][p - 1 := pc];
      FinishingUpdate(prods[1..], p - 1, pc);
    }
  }

  lemma CapacityKeeps<T>(s: State<T>, s': State<T>, p: nat)
    requires CapacityOk(s) && p < |s.prods| && |s'.prods| == |s.prods| && s'.block == s.block
    requires s'.prods == s.prods[p := s'.prods[p]]
    requires |s'.ring| == |s.ring| + (if s.prods[p].Locked? && s'.prods[p].Linked? then s.block else 0)
    requires s'.capacity == s.capacity + (if s.prods[p].Extended? && !s'.prods[p].Extended? then s.block else 0)
    requires s'.prods[p].Linked? ==> s.prods[p].Locked?
    requires s'.prods[p].Extended? <==> s.prods[p].Linked?
    ensures CapacityOk(s')
  {
    FinishingUpdate(s.prods, p, s'.prods[p]);
    var f, f' := Finishing(s.prods), Finishing(s'.prods);
    if s.prods[p].Locked? && s'.prods[p].Linked? {
      assert s.block * f' == s.block * f + s.block by { assert f' == f + 1; }
    } else if s.prods[p].Extended? && !s'.prods[p].Extended? {
      assert s.block * f == s.block * f' + s.block by { assert f == f' + 1; }
    }
  }

  /** What any single operation of producer p leaves alone. */
  ghost predicate ByProducer<T>(s: State<T>, s': State<T>, p: nat) {
    && p < |s.prods| == |s'.prods|
    && s'.prods == s.prods[p := s'.prods[p]]
    && s'.cons == s.cons && s'.tail == s.tail && s'.tailVer == s.tailVer && s'.popped == s.popped
    && s'.taker == s.taker && s'.result == s.result && s'.order == s.order && s'.block == s.block
    && |s.next| <= |s'.next| && |s.ready| == |s.data| == |s.next| && |s'.ready| == |s'.data| == |s'.next|
    && s.headVer <= s'.headVer
    && (s.headVer == s'.headVer ==> s'.head == s.head && (s.head.Some? ==> s'.next == s.next))
    && s.log <= s'.log && s.owner <= s'.owner
    && s.h <= s'.h && s.h < |s.ring| <= |s'.ring|
    && (forall i :: 0 <= i <= s.h ==> s'.ring[i] == s.ring[i])
    && (forall n :: 0 <= n < |s.next| && s'.ready[n] != s.ready[n] ==> s.prods[p].Written? && n == s.prods[p].w)
    && (forall n :: 0 <= n < |s.next| && s'.data[n] != s.data[n] ==> s.prods[p].Writable? && n == s.prods[p].w)
  }

  lemma OtherProducersKeep<T>(s: State<T>, s': State<T>, p: nat, q: nat)
    requires Shape(s) && LockOk(s) && ProducersOk(s) && Shape(s') && ByProducer(s, s', p)
    requires s.lockedBy.Some? && s.lockedBy != Some(p) ==> s'.h == s.h
    requires q < |s.prods| && q != p
    ensures ProducerOk(s', q)
  {
    assert ProducerOk(s, q) && ProducerOk(s, p);
    assert forall n :: Held(s', n) == Held(s, n);
    assert s'.prods[q] == s.prods[q];
  }

  lemma ConsumersKeep<T>(s: State<T>, s': State<T>, p: nat)
    requires Inv(s) && Shape(s') && ByProducer(s, s', p)
    ensures ConsumersOk(s') && TicketsOk(s')
  {
    hide NodesOk, CapacityOk, LockOk, Owns;
    assert forall n :: Held(s', n) == Held(s, n);
    assert ProducerOk(s, p);
    forall c | 0 <= c < |s'.cons| ensures ConsumerOk(s', c) {
      assert ConsumerOk(s, c);
      assert s'.ring[1] == s.ring[1];
    }
    forall k | 0 <= k < s'.popped ensures Delivered(s', k) {
      assert Delivered(s, k);
    }
  }

  /** What a step of producer p does to the node it owns: it stays the owner, publishes, or claims. */
  ghost predicate OwnershipStep<T>(s: State<T>, s': State<T>, p: nat) {
    && p < |s.prods| == |s'.prods|
    && s'.ring == s.ring && s'.h <= s.h + 1
    && (forall k :: Owns(s.prods[p], k) && !s.prods[p].Written? ==> Owns(s'.prods[p], k))
    && (s.prods[p].Written? ==> s'.h == s.h && s.prods[p].w < |s'.ready| && s'.ready[s.prods[p].w])
    && (s'.h == s.h + 1 ==> Owns(s'.prods[p], |s.log|) && |s.log| < |s'.owner| && s'.owner[|s.log|] == p)
  }

  lemma NodeKeeps<T>(s: State<T>, s': State<T>, p: nat, i: nat)
    requires Shape(s) && ProducersOk(s) && ConsumersOk(s)
    requires Shape(s') && ByProducer(s, s', p) && OwnershipStep(s, s', p)
    requires i < |s.ring| && NodeOk(s, i)
    ensures NodeOk(s', i)
  {
    var n := s.ring[i];
    assert Held(s', n) == Held(s, n);
    assert ProducerOk(s, p);
    if Held(s, n) {
      var c :| 0 <= c < |s.cons| && Holds(s.cons[c], n);
      assert ConsumerOk(s, c);
    }
    if s'.ready[n] != s.ready[n] || s'.data[n] != s.data[n] {
      assert n == s.prods[p].w;
      assert i == s.prods[p].k - s.popped + 1;
    }
  }

  lemma NodesKeep<T>(s: State<T>, s': State<T>, p: nat)
    requires Inv(s) && Shape(s') && ByProducer(s, s', p) && OwnershipStep(s, s', p)
    ensures NodesOk(s')
  {
    forall i | 0 <= i < |s'.ring| ensures NodeOk(s', i) {
      NodeKeeps(s, s', p, i);
    }
  }

  lemma ProducerKeeps<T>(s: State<T>, s': State<T>, p: nat)
    requires Inv(s) && Shape(s') && LockOk(s') && ByProducer(s, s', p)
    requires s.lockedBy.Some? && s.lockedBy != Some(p) ==> s'.h == s.h
    requires ProducerOk(s', p) && NodesOk(s') && CapacityOk(s')
    ensures Inv(s')
  {
    forall q | 0 <= q < |s'.prods| ensures ProducerOk(s', q) {
      if q != p { OtherProducersKeep(s, s', p, q); }
    }
    ConsumersKeep(s, s', p);
  }

  /** Steps that move only a producer that owns no node and holds no lock. */
  lemma PrivateStepKeeps<T>(s: State<T>, p: nat, pc: Producer<T>)
    requires Inv(s) && p < |s.prods|
    requires s.prods[p].Idle? || s.prods[p].Loaded? || s.prods[p].NextRead? || s.prods[p].NotFull?
          || s.prods[p].Armed? || s.prods[p].Full?
    requires pc.Loaded? || pc.NextRead? || pc.NotFull? || pc.Armed? || pc.Full?
    requires ProducerOk(SetP(s, p, pc), p)
    ensures Inv(SetP(s, p, pc))
  {
    var s' := SetP(s, p, pc);
    CapacityKeeps(s, s', p);
    NodesKeep(s, s', p);
    ProducerKeeps(s, s', p);
  }

  /** If the exchange of head_ at line 130 succeeds, what was read before it is still true:
      the node after w is the one about to be stored, and it is not the tail. */
  predicate HeadFresh<T>(s: State<T>, p: nat) {
    p < |s.prods| && s.prods[p].Armed? && s.head == Some(s.prods[p].w) && s.prods[p].w < |s.next|
    ==> s.prods[p].n == s.next[s.prods[p].w] && s.prods[p].n != s.tail
  }

  lemma ClaimKeeps<T>(s: State<T>, p: nat)
    requires Inv(s) && p < |s.prods| && s.prods[p].Armed?
    requires s.head == Some(s.prods[p].w) && HeadFresh(s, p)
    ensures Inv(AdvanceProducer(s, p))
  {
    var s' := AdvanceProducer(s, p);
    assert ProducerOk(s, p);
    assert s.h + 1 < |s.ring|;
    assert NodeOk(s, s.h);
    assert forall n :: Held(s', n) == Held(s, n);
    CapacityKeeps(s, s', p);
    NodesKeep(s, s', p);
    ProducerKeeps(s, s', p);
  }

  lemma LockKeeps<T>(s: State<T>, p: nat)
    requires Inv(s) && p < |s.prods| && s.prods[p].Full? && s.head == Some(s.prods[p].w)
    ensures Inv(AdvanceProducer(s, p))
  {
    var s' := AdvanceProducer(s, p);
    CapacityKeeps(s, s', p);
    NodesKeep(s, s', p);
    ProducerKeeps(s, s', p);
  }

  /** Splicing a block in behind ring[h] leaves one cycle, and the nodes up to h where they were. */
  lemma SpliceRing(next: seq<Node>, ring: seq<Node>, h: nat, count: nat)
    requires RingOk(next, ring) && h < |ring| && count > 0
    ensures RingOk(Spliced(next, ring[h], count),
                   ring[..h + 1] + NewBlock(|next|, count) + ring[h + 1..])
  {
    var next' := Spliced(next, ring[h], count);
    var ring' := ring[..h + 1] + NewBlock(|next|, count) + ring[h + 1..];
    SpliceDistinct(next, ring, h, count);
    forall n | 0 <= n < |next'| ensures next'[n] < |next'| {
      if n < |next| { assert next[n] < |next|; }
    }
    forall i | 0 <= i < |ring'|
      ensures ring'[i] < |next'| && next'[ring'[i]] == ring'[if i + 1 < |ring'| then i + 1 else 0]
    {
      SpliceLink(next, ring, h, count, i);
    }
    hide Spliced, NewBlock;
  }

  lemma SpliceDistinct(next: seq<Node>, ring: seq<Node>, h: nat, count: nat)
    requires RingOk(next, ring) && h < |ring|
    ensures var ring' := ring[..h + 1] + NewBlock(|next|, count) + ring[h + 1..];
      forall i, j :: 0 <= i < j < |ring'| ==> ring'[i] != ring'[j]
  {
    var ring' := ring[..h + 1] + NewBlock(|next|, count) + ring[h + 1..];
    assert forall i :: 0 <= i <= h ==> ring'[i] == ring[i];
    assert forall i :: h < i <= h + count ==> ring'[i] == |next| + (i - h - 1);
    assert forall i :: h + count < i < |ring'| ==> ring'[i] == ring[i - count];
  }

  lemma SpliceLink(next: seq<Node>, ring: seq<Node>, h: nat, count: nat, i: nat)
    requires RingOk(next, ring) && h < |ring| && count > 0 && i < |ring| + count
    ensures var ring' := ring[..h + 1] + NewBlock(|next|, count) + ring[h + 1..];
      ring'[i] < |next| + count
      && Spliced(next, ring[h], count)[ring'[i]] == ring'[if i + 1 < |ring'| then i + 1 else 0]
  {
    var ring' := ring[..h + 1] + NewBlock(|next|, count) + ring[h + 1..];
    if i < h {
      assert ring'[i] == ring[i] != ring[h];
    } else if i == h {
      assert ring'[i] == ring[h];
    } else if i < h + count {
      assert ring'[i] == |next| + (i - h - 1);
    } else if i == h + count {
      assert ring'[i] == |next| + count - 1;
    } else {
      assert ring'[i] == ring[i - count] != ring[h];
    }
  }

  lemma LinkKeeps<T>(s: State<T>, p: nat)
    requires Inv(s) && p < |s.prods| && s.prods[p].Locked?
    ensures Inv(AdvanceProducer(s, p))
  {
    var s' := AdvanceProducer(s, p);
    LinkShape(s, p);
    LinkNodes(s, p);
    hide RingOk, NodesOk, AdvanceProducer;
    CapacityKeeps(s, s', p);
    ProducerKeeps(s, s', p);
  }

  lemma LinkShape<T>(s: State<T>, p: nat)
    requires Shape(s) && LockOk(s) && ProducersOk(s) && p < |s.prods| && s.prods[p].Locked?
    ensures var s' := AdvanceProducer(s, p);
      && Shape(s') && LockOk(s') && ByProducer(s, s', p) && ProducerOk(s', p) && s'.h == s.h
      && s'.prods[p].Linked? && |s'.ring| == |s.ring| + s.block && s'.capacity == s.capacity
  {
    LinkRing(s, p);
    LinkProducer(s, p);
    LinkLeaves(s, p);
    hide Shape, ByProducer, RingOk;
    assert LockOk(AdvanceProducer(s, p));
  }

  lemma LinkRing<T>(s: State<T>, p: nat)
    requires Shape(s) && LockOk(s) && ProducersOk(s) && p < |s.prods| && s.prods[p].Locked?
    ensures Shape(AdvanceProducer(s, p)) && |AdvanceProducer(s, p).ring| == |s.ring| + s.block
  {
    assert ProducerOk(s, p) && |s.ring| == |s.next| && s.ring[s.h] < |s.next|;
    LinkStep(s, p);
    hide AdvanceProducer, ProducersOk, ProducerOk, RingOk, Spliced;
    LinkedShape(s, AdvanceProducer(s, p));
  }

  /** The ring with a block linked in behind the head. */
  ghost predicate LinksBlock<T>(s: State<T>, s': State<T>) {
    && s.h < |s.ring| == |s.next| && s.ring[s.h] < |s.next| && s.block > 0
    && s'.next == Spliced(s.next, s.ring[s.h], s.block)
    && s'.ring == s.ring[..s.h + 1] + NewBlock(|s.next|, s.block) + s.ring[s.h + 1..]
    && |s'.ready| == |s.ready| + s.block && |s'.data| == |s.data| + s.block
    && s'.block == s.block && s'.tail == s.tail && s'.h == s.h && s'.head.None? && s'.log == s.log && s'.owner == s.owner
    && s'.popped == s.popped && s'.taker == s.taker && s'.result == s.result
  }

  lemma LinkStep<T>(s: State<T>, p: nat)
    requires p < |s.prods| && s.prods[p].Locked? && s.head.None? && s.h < |s.ring| == |s.next| && s.block > 0
    requires s.prods[p].w == s.ring[s.h] < |s.next|
    ensures LinksBlock(s, AdvanceProducer(s, p))
  {
    hide Spliced, NewBlock;
  }

  lemma LinkedShape<T>(s: State<T>, s': State<T>)
    requires Shape(s) && LinksBlock(s, s')
    ensures Shape(s') && |s'.ring| == |s.ring| + s.block
  {
    SpliceRing(s.next, s.ring, s.h, s.block);
    hide RingOk, Spliced, NewBlock;
  }

  lemma LinkProducer<T>(s: State<T>, p: nat)
    requires Shape(s) && ProducersOk(s) && p < |s.prods| && s.prods[p].Locked? && Shape(AdvanceProducer(s, p))
    ensures ProducerOk(AdvanceProducer(s, p), p)
  {
    assert ProducerOk(s, p);
    hide RingOk;
  }

  lemma LinkLeaves<T>(s: State<T>, p: nat)
    requires Shape(s) && LockOk(s) && ProducersOk(s) && p < |s.prods| && s.prods[p].Locked?
    ensures ByProducer(s, AdvanceProducer(s, p), p)
  {
    assert ProducerOk(s, p) && |s.ring| == |s.next| && s.ring[s.h] < |s.next|;
    hide RingOk, Spliced;
  }

  lemma LinkNodes<T>(s: State<T>, p: nat)
    requires Inv(s) && p < |s.prods| && s.prods[p].Locked?
    requires Shape(AdvanceProducer(s, p))
    ensures NodesOk(AdvanceProducer(s, p))
  {
    var s' := AdvanceProducer(s, p);
    assert ProducerOk(s, p);
    assert forall n :: Held(s', n) == Held(s, n);
    forall i | 0 <= i < |s'.ring| ensures NodeOk(s', i) {
      LinkNode(s, s', p, i);
    }
  }

  lemma LinkNode<T>(s: State<T>, s': State<T>, p: nat, i: nat)
    requires Shape(s) && NodesOk(s) && Shape(s') && p < |s.prods| && s.prods[p].Locked?
    requires |s'.prods| == |s.prods| && s'.prods == s.prods[p := s'.prods[p]] && s'.h == s.h && s'.popped == s.popped
    requires s'.log == s.log && s'.owner == s.owner
    requires s.ready <= s'.ready && s.data <= s'.data
    requires s'.ring == s.ring[..s.h + 1] + NewBlock(|s.next|, s.block) + s.ring[s.h + 1..]
    requires forall n :: |s.ready| <= n < |s'.ready| ==> !s'.ready[n]
    requires forall n :: Held(s', n) == Held(s, n)
    requires i < |s'.ring|
    ensures NodeOk(s', i)
  {
    if i <= s.h {
      assert NodeOk(s, i) && s'.ring[i] == s.ring[i];
    } else if i <= s.h + s.block {
      assert !s'.ready[s'.ring[i]];
    } else {
      assert NodeOk(s, i - s.block) && s'.ring[i] == s.ring[i - s.block];
    }
  }

  lemma StoreHeadKeeps<T>(s: State<T>, p: nat)
    requires Inv(s) && p < |s.prods| && s.prods[p].Linked?
    ensures Inv(AdvanceProducer(s, p))
  {
    var s' := AdvanceProducer(s, p);
    assert ProducerOk(s, p);
    assert NodeOk(s, s.h);
    assert forall n :: Held(s', n) == Held(s, n);
    CapacityKeeps(s, s', p);
    NodesKeep(s, s', p);
    ProducerKeeps(s, s', p);
  }

  lemma RaiseCapacityKeeps<T>(s: State<T>, p: nat)
    requires Inv(s) && p < |s.prods| && s.prods[p].Extended?
    ensures Inv(AdvanceProducer(s, p))
  {
    var s' := AdvanceProducer(s, p);
    assert ProducerOk(s, p);
    assert forall n :: Held(s', n) == Held(s, n);
    CapacityKeeps(s, s', p);
    NodesKeep(s, s', p);
    ProducerKeeps(s, s', p);
  }

  lemma WaitUnreadyKeeps<T>(s: State<T>, p: nat)
    requires Inv(s) && p < |s.prods| && s.prods[p].Claimed?
    ensures Inv(AdvanceProducer(s, p))
  {
    var s' := AdvanceProducer(s, p);
    assert ProducerOk(s, p);
    if s' != s {
      assert forall n :: Held(s', n) == Held(s, n);
      CapacityKeeps(s, s', p);
      NodesKeep(s, s', p);
      ProducerKeeps(s, s', p);
    }
  }

  lemma WriteDataKeeps<T>(s: State<T>, p: nat)
    requires Inv(s) && p < |s.prods| && s.prods[p].Writable?
    ensures Inv(AdvanceProducer(s, p))
  {
    var s' := AdvanceProducer(s, p);
    assert ProducerOk(s, p);
    CapacityKeeps(s, s', p);
    NodesKeep(s, s', p);
    ProducerKeeps(s, s', p);
  }

  lemma PublishKeeps<T>(s: State<T>, p: nat)
    requires Inv(s) && p < |s.prods| && s.prods[p].Written?
    ensures Inv(AdvanceProducer(s, p))
  {
    var s' := AdvanceProducer(s, p);
    assert ProducerOk(s, p);
    CapacityKeeps(s, s', p);
    NodesKeep(s, s', p);
    ProducerKeeps(s, s', p);
  }

  /** head_ has not been written since it was loaded by a producer whose exchange is about to succeed. */
  predicate HeadUnmoved<T>(s: State<T>, p: nat) {
    p < |s.prods| && s.prods[p].Armed? && s.head == Some(s.prods[p].w) ==> s.prods[p].ver == s.headVer
  }

  lemma UnmovedIsFresh<T>(s: State<T>, p: nat)
    requires Inv(s) && HeadUnmoved(s, p)
    ensures HeadFresh(s, p)
  {
    if p < |s.prods| { assert ProducerOk(s, p); }
  }

  /** A successful exchange of head_ keeps the invariant exactly when what was read before it is still true. */
  lemma ClaimIffFresh<T>(s: State<T>, p: nat)
    requires Inv(s) && p < |s.prods| && s.prods[p].Armed? && s.head == Some(s.prods[p].w)
    ensures Inv(AdvanceProducer(s, p)) <==> HeadFresh(s, p)
  {
    var s' := AdvanceProducer(s, p);
    if HeadFresh(s, p) {
      ClaimKeeps(s, p);
    }
  }

  lemma ProducerStepKeeps<T>(s: State<T>, p: nat)
    requires Inv(s) && HeadFresh(s, p)
    ensures Inv(AdvanceProducer(s, p))
  {
    if p < |s.prods| {
      assert ProducerOk(s, p);
      var s' := AdvanceProducer(s, p);
      match s.prods[p]
      case Idle =>
      case Loaded(seen, ver, v) => PrivateStepKeeps(s, p, s'.prods[p]);
      case NextRead(w, ver, v, n) => PrivateStepKeeps(s, p, s'.prods[p]);
      case NotFull(w, ver, v) => PrivateStepKeeps(s, p, s'.prods[p]);
      case Armed(w, ver, v, n) =>
        if s.head == Some(w) { ClaimKeeps(s, p); } else { PrivateStepKeeps(s, p, s'.prods[p]); }
      case Full(w, ver, v) =>
        if s.head == Some(w) { LockKeeps(s, p); } else { PrivateStepKeeps(s, p, s'.prods[p]); }
      case Locked(w, v) => LinkKeeps(s, p);
      case Linked(w, v) => StoreHeadKeeps(s, p);
      case Extended(w, v, k) => RaiseCapacityKeeps(s, p);
      case Claimed(w, v, k) => WaitUnreadyKeeps(s, p);
      case Writable(w, v, k) => WriteDataKeeps(s, p);
      case Written(w, v, k) => PublishKeeps(s, p);
    }
  }

  // ---------------------------------------------------------------------------------------------
  // Consumer steps keep the invariant
  // ---------------------------------------------------------------------------------------------

  predicate Light(pc: Consumer) {
    pc.Resting? || pc.TailLoaded? || pc.NextLoaded? || pc.ReadySeen?
  }

  /** Producers and nodes do not notice a step that only moves a consumer or records a result. */
  lemma QueueIgnores<T>(s: State<T>, s': State<T>)
    requires Inv(s) && s' == s.(cons := s'.cons, result := s'.result, order := s'.order) && |s'.result| == s.popped
    requires forall n :: Held(s', n) == Held(s, n)
    ensures Shape(s') && LockOk(s') && CapacityOk(s') && ProducersOk(s') && NodesOk(s')
  {
    forall p | 0 <= p < |s'.prods| ensures ProducerOk(s', p) {
      assert ProducerOk(s, p);
    }
    forall i | 0 <= i < |s'.ring| ensures NodeOk(s', i) {
      assert NodeOk(s, i);
    }
  }

  /** Steps that move only a consumer that holds no node before and after. */
  lemma PrivateConsumerKeeps<T>(s: State<T>, c: nat, pc: Consumer)
    requires Inv(s) && c < |s.cons| && Light(s.cons[c]) && Light(pc)
    requires ConsumerOk(SetC(s, c, pc), c)
    ensures Inv(SetC(s, c, pc))
  {
    var s' := SetC(s, c, pc);
    HeldSame(s, c, pc);
    QueueIgnores(s, s');
    forall d | 0 <= d < |s'.cons| ensures ConsumerOk(s', d) {
      assert ConsumerOk(s, d);
    }
    forall k | 0 <= k < s'.popped ensures Delivered(s', k) {
      assert Delivered(s, k);
    }
  }

  lemma HeldSame<T>(s: State<T>, c: nat, pc: Consumer)
    requires c < |s.cons| && forall n :: Holds(pc, n) == Holds(s.cons[c], n)
    ensures forall n :: Held(SetC(s, c, pc), n) == Held(s, n)
  {
    var s' := SetC(s, c, pc);
    forall n ensures Held(s', n) == Held(s, n) {
      if Held(s, n) {
        var d :| 0 <= d < |s.cons| && Holds(s.cons[d], n);
        assert Holds(s'.cons[d], n);
      }
    }
  }

  lemma TakeKeeps<T>(s: State<T>, c: nat)
    requires Inv(s) && c < |s.cons| && s.cons[c].Taking?
    ensures Inv(AdvanceConsumer(s, c))
  {
    hide Finishing, LockOk, NodesOk, ProducersOk, RingOk;
    var s' := AdvanceConsumer(s, c);
    assert ConsumerOk(s, c);
    assert forall n :: Held(s', n) == Held(s, n) by {
      HeldSame(s, c, s'.cons[c]);
      assert forall n :: Held(s', n) == Held(SetC(s, c, s'.cons[c]), n);
    }
    QueueIgnores(s, s');
    forall d | 0 <= d < |s'.cons| ensures ConsumerOk(s', d) {
      assert ConsumerOk(s, d);
    }
    forall k | 0 <= k < s'.popped ensures Delivered(s', k) {
      assert Delivered(s, k);
    }
  }

  /** Resetting ready of a held node releases it: whoever claimed it meanwhile may now write to it. */
  lemma ClearKeeps<T>(s: State<T>, c: nat)
    requires Inv(s) && c < |s.cons| && s.cons[c].Clearing?
    ensures Inv(AdvanceConsumer(s, c))
  {
    var s' := AdvanceConsumer(s, c);
    assert ConsumerOk(s, c);
    ClearHeld(s, c);
    ClearNodes(s, c);
    ClearTickets(s, c);
    hide RingOk, NodesOk, TicketsOk, ConsumerOk, ProducerOk, Finishing;
    forall p | 0 <= p < |s'.prods| ensures ProducerOk(s', p) {
      ClearProducer(s, c, p);
    }
    forall d | 0 <= d < |s'.cons| ensures ConsumerOk(s', d) {
      ClearConsumer(s, c, d);
    }
  }

  lemma ClearNodes<T>(s: State<T>, c: nat)
    requires Inv(s) && c < |s.cons| && s.cons[c].Clearing?
    ensures Shape(AdvanceConsumer(s, c)) && NodesOk(AdvanceConsumer(s, c))
  {
    var s' := AdvanceConsumer(s, c);
    assert ConsumerOk(s, c);
    ClearHeld(s, c);
    hide TicketsOk, ProducersOk, CapacityOk, LockOk;
    forall i | 0 <= i < |s'.ring| ensures NodeOk(s', i) {
      assert NodeOk(s, i);
    }
  }

  lemma ClearTickets<T>(s: State<T>, c: nat)
    requires TicketsOk(s) && c < |s.cons| && s.cons[c].Clearing?
    ensures TicketsOk(AdvanceConsumer(s, c))
  {
    var s' := AdvanceConsumer(s, c);
    forall k | 0 <= k < s'.popped ensures Delivered(s', k) {
      assert Delivered(s, k);
    }
  }

  lemma ClearHeld<T>(s: State<T>, c: nat)
    requires Inv(s) && c < |s.cons| && s.cons[c].Clearing?
    ensures Held(s, s.cons[c].n)
    ensures forall n :: n != s.cons[c].n ==> Held(AdvanceConsumer(s, c), n) == Held(s, n)
  {
    var s' := AdvanceConsumer(s, c);
    var n0 := s.cons[c].n;
    assert ConsumerOk(s, c);
    assert Holds(s.cons[c], n0);
    forall n | n != n0 ensures Held(s', n) == Held(s, n) {
      if Held(s, n) {
        var d :| 0 <= d < |s.cons| && Holds(s.cons[d], n);
        assert Holds(s'.cons[d], n);
      }
    }
  }

  lemma ClearProducer<T>(s: State<T>, c: nat, p: nat)
    requires Inv(s) && c < |s.cons| && s.cons[c].Clearing? && p < |s.prods|
    requires Shape(AdvanceConsumer(s, c))
    ensures ProducerOk(AdvanceConsumer(s, c), p)
  {
    assert ConsumerOk(s, c) && ProducerOk(s, p);
    ClearHeld(s, c);
    ClearedProducer(s, AdvanceConsumer(s, c), s.cons[c].n, p);
  }

  lemma ClearedProducer<T>(s: State<T>, s': State<T>, n0: Node, p: nat)
    requires Shape(s) && Shape(s') && n0 < |s.ready| && s' == s.(ready := s.ready[n0 := false], cons := s'.cons)
    requires forall n :: n != n0 ==> Held(s', n) == Held(s, n)
    requires p < |s.prods| && ProducerOk(s, p)
    ensures ProducerOk(s', p)
  {
    assert forall i :: 0 <= i < |s.ring| ==> s.ring[i] < |s.ready|;
    hide RingOk;
  }

  lemma ClearConsumer<T>(s: State<T>, c: nat, d: nat)
    requires Inv(s) && c < |s.cons| && s.cons[c].Clearing? && d < |s.cons|
    requires Shape(AdvanceConsumer(s, c))
    ensures ConsumerOk(AdvanceConsumer(s, c), d)
  {
    hide Finishing, LockOk, NodesOk, ProducersOk;
    assert ConsumerOk(s, c) && ConsumerOk(s, d);
    ClearHeld(s, c);
    assert Published(s, 1) ==> s.ring[1] != s.cons[c].n;
  }

  lemma RotateRing(next: seq<Node>, ring: seq<Node>)
    requires RingOk(next, ring)
    ensures RingOk(next, ring[1..] + [ring[0]])
  {
    var ring' := ring[1..] + [ring[0]];
    forall i | 0 <= i < |ring'| - 1 ensures next[ring'[i]] == ring'[i + 1] {
      assert ring'[i] == ring[i + 1];
    }
  }

  /** s' is s after tail_ has moved to the published node behind it. */
  ghost predicate Popping<T>(s: State<T>, s': State<T>) {
    && Shape(s) && Shape(s') && Published(s, 1)
    && s'.next == s.next && s'.ready == s.ready && s'.data == s.data
    && s'.head == s.head && s'.headVer == s.headVer && s'.log == s.log && s'.owner == s.owner
    && s'.prods == s.prods
    && s'.popped == s.popped + 1 && s'.h == s.h - 1
    && s'.ring == s.ring[1..] + [s.ring[0]]
    && forall n :: Held(s', n) <==> Held(s, n) || n == s.ring[1]
  }

  lemma PoppingOwner<T>(s: State<T>, s': State<T>, p: nat)
    requires Popping(s, s') && p < |s.prods| && ProducerOk(s, p)
    requires s.prods[p].Extended? || s.prods[p].Claimed? || s.prods[p].Writable? || s.prods[p].Written?
    ensures ProducerOk(s', p)
  {
    var w, k := s.prods[p].w, s.prods[p].k;
    assert k != s.popped;
    assert s'.ring[k - s'.popped + 1] == s.ring[k - s.popped + 1];
  }

  lemma PoppingProducer<T>(s: State<T>, s': State<T>, p: nat)
    requires Popping(s, s') && p < |s.prods| && ProducerOk(s, p)
    ensures ProducerOk(s', p)
  {
    if s.prods[p].Extended? || s.prods[p].Claimed? || s.prods[p].Writable? || s.prods[p].Written? {
      PoppingOwner(s, s', p);
    } else {
      assert s'.ring[s'.h] == s.ring[s.h] && s'.tail == s.ring[1];
      assert s.h + 1 < |s.ring| ==> s.next[s.ring[s.h]] == s.ring[s.h + 1];
      assert s.h + 1 == |s.ring| ==> s.next[s.ring[s.h]] == s.ring[0];
    }
  }

  lemma PoppingNode<T>(s: State<T>, s': State<T>, i: nat)
    requires Popping(s, s') && i < |s.ring|
    requires NodeOk(s, if i + 1 < |s.ring| then i + 1 else 0)
    ensures NodeOk(s', i)
  {
    assert s'.ring[i] == s.ring[if i + 1 < |s.ring| then i + 1 else 0];
  }

  lemma PopClaimHeld<T>(s: State<T>, c: nat, s': State<T>)
    requires c < |s.cons| && !s.cons[c].Taking? && !s.cons[c].Clearing?
    requires |s'.cons| == |s.cons| && s'.cons == s.cons[c := s'.cons[c]] && s'.cons[c].Taking?
    ensures forall n :: Held(s', n) <==> Held(s, n) || n == s'.cons[c].n
  {
    forall n ensures Held(s', n) <==> Held(s, n) || n == s'.cons[c].n {
      if Held(s, n) {
        var d :| 0 <= d < |s.cons| && Holds(s.cons[d], n);
        assert Holds(s'.cons[d], n);
      }
      assert Holds(s'.cons[c], s'.cons[c].n);
    }
  }

  lemma PopClaimDistinct<T>(s: State<T>, c: nat, s': State<T>)
    requires c < |s.cons| && HoldersDistinct(s.cons)
    requires |s'.cons| == |s.cons| && s'.cons == s.cons[c := s'.cons[c]] && s'.cons[c].Taking?
    requires !Held(s, s'.cons[c].n)
    ensures HoldersDistinct(s'.cons)
  {
    forall d | 0 <= d < |s.cons| && d != c ensures !Holds(s'.cons[d], s'.cons[c].n) {
      assert s'.cons[d] == s.cons[d];
    }
  }

  /** Moving tail_ to the published node after it. */
  lemma PopClaimKeeps<T>(s: State<T>, c: nat)
    requires Inv(s) && c < |s.cons| && s.cons[c].ReadySeen?
    requires s.cons[c].t == s.tail && s.cons[c].n == s.ring[1] && Published(s, 1)
    ensures Inv(AdvanceConsumer(s, c))
  {
    var s' := AdvanceConsumer(s, c);
    assert ConsumerOk(s, c);
    RotateRing(s.next, s.ring);
    PopClaimHeld(s, c, s');
    PopClaimDistinct(s, c, s');
    forall p | 0 <= p < |s'.prods| ensures ProducerOk(s', p) {
      PoppingProducer(s, s', p);
    }
    forall i | 0 <= i < |s'.ring| ensures NodeOk(s', i) {
      PoppingNode(s, s', i);
    }
    forall d | 0 <= d < |s'.cons| ensures ConsumerOk(s', d) {
      assert ConsumerOk(s, d);
      assert NodeOk(s, 1);
    }
    forall k | 0 <= k < s'.popped ensures Delivered(s', k) {
      if k < s.popped { assert Delivered(s, k); }
    }
  }

  /** If the exchange of tail_ at line 180 succeeds, the node it moves to follows tail_ and is published, not
      merely left ready by a pop that has yet to reset it. */
  ghost predicate TailFresh<T>(s: State<T>, c: nat) {
    Shape(s) && c < |s.cons| && s.cons[c].ReadySeen? && s.cons[c].t == s.tail
    ==> s.cons[c].n == s.ring[1] && Published(s, 1)
  }

  /** A successful exchange of tail_ keeps the invariant exactly when that is so. */
  lemma PopIffPublished<T>(s: State<T>, c: nat)
    requires Inv(s) && c < |s.cons| && s.cons[c].ReadySeen? && s.cons[c].t == s.tail
    ensures Inv(AdvanceConsumer(s, c)) <==> s.cons[c].n == s.ring[1] && Published(s, 1)
  {
    var s' := AdvanceConsumer(s, c);
    if s.cons[c].n == s.ring[1] && Published(s, 1) {
      PopClaimKeeps(s, c);
    } else if Inv(s') {
      PopNeedsPublished(s, c);
    }
  }

  lemma PopNeedsPublished<T>(s: State<T>, c: nat)
    requires Inv(s) && c < |s.cons| && s.cons[c].ReadySeen? && s.cons[c].t == s.tail
    requires var s' := AdvanceConsumer(s, c); Shape(s') && ConsumersOk(s')
    ensures s.cons[c].n == s.ring[1] && Published(s, 1)
  {
    hide LockOk, ProducersOk, NodesOk, TicketsOk, CapacityOk;
    var s' := AdvanceConsumer(s, c);
    assert s'.ring[0] == s.ring[1] == s.cons[c].n;
    assert ConsumerOk(s', c) && Holds(s'.cons[c], s.ring[1]);
    assert forall d :: 0 <= d < |s.cons| && Holds(s.cons[d], s.ring[1]) ==> d != c && Holds(s'.cons[d], s.ring[1]);
  }

  lemma ConsumerStepKeeps<T>(s: State<T>, c: nat)
    requires Inv(s) && TailFresh(s, c)
    ensures Inv(AdvanceConsumer(s, c))
  {
    if c < |s.cons| {
      assert ConsumerOk(s, c);
      var s' := AdvanceConsumer(s, c);
      match s.cons[c]
      case Resting =>
      case TailLoaded(t, ver) => PrivateConsumerKeeps(s, c, s'.cons[c]);
      case NextLoaded(t, ver, n) =>
        PrivateConsumerKeeps(s, c, s'.cons[c]);
      case ReadySeen(t, ver, n) =>
        if s.tail == t { PopClaimKeeps(s, c); } else { PrivateConsumerKeeps(s, c, s'.cons[c]); }
      case Taking(n, k) => TakeKeeps(s, c);
      case Clearing(n, k) => ClearKeeps(s, c);
    }
  }

  // ---------------------------------------------------------------------------------------------
  // Whole runs
  // ---------------------------------------------------------------------------------------------

  /** The assumption about a step: an exchange of head_ or tail_ that succeeds finds true what was read before it. */
  ghost predicate Admissible<T>(s: State<T>, a: Action<T>) {
    match a
    case Push(p, v) => true
    case Producer(p) => HeadFresh(s, p)
    case Pop(c) => true
    case Consumer(c) => TailFresh(s, c)
  }

  ghost predicate AdmissibleRun<T>(s: State<T>, acts: seq<Action<T>>)
    decreases |acts|
  {
    acts == [] || (Admissible(s, acts[0]) && AdmissibleRun(Apply(s, acts[0]), acts[1..]))
  }

  lemma StepKeeps<T>(s: State<T>, a: Action<T>)
    requires Inv(s) && Admissible(s, a)
    ensures Inv(Apply(s, a))
  {
    match a
    case Push(p, v) =>
      if p < |s.prods| && s.prods[p].Idle? { PrivateStepKeeps(s, p, Loaded(s.head, s.headVer, v)); }
    case Producer(p) => ProducerStepKeeps(s, p);
    case Pop(c) =>
      if c < |s.cons| && s.cons[c].Resting? { PrivateConsumerKeeps(s, c, TailLoaded(s.tail, s.tailVer)); }
    case Consumer(c) => ConsumerStepKeeps(s, c);
  }

  lemma NothingFinishing<T>(prods: seq<Producer<T>>)
    requires forall p :: 0 <= p < |prods| ==> prods[p].Idle?
    ensures Finishing(prods) == 0
  {}

  lemma InitOk<T>(block: nat, blocks: nat, producers: nat, consumers: nat)
    requires block * blocks >= 2
    ensures Inv(Init<T>(block, blocks, producers, consumers))
  {
    var s := Init<T>(block, blocks, producers, consumers);
    NothingFinishing(s.prods);
    assert block > 0;
  }

  /** Any number of producers and consumers, any admissible interleaving. */
  lemma {:induction false} RunKeeps<T>(s: State<T>, acts: seq<Action<T>>)
    requires Inv(s) && AdmissibleRun(s, acts)
    ensures Inv(Run(s, acts))
    decreases |acts|
  {
    if acts != [] {
      StepKeeps(s, acts[0]);
      RunKeeps(Apply(s, acts[0]), acts[1..]);
    }
  }

  /** Every pop that has returned returned the value that was claimed in its turn, exactly once;
      every claimed value is returned, on its way, or in the ring; the ring is one cycle through all nodes. */
  lemma ManyConsumers<T>(block: nat, blocks: nat, producers: nat, consumers: nat, acts: seq<Action<T>>)
    requires block * blocks >= 2
    requires AdmissibleRun(Init<T>(block, blocks, producers, consumers), acts)
    ensures var s := Run(Init<T>(block, blocks, producers, consumers), acts);
      && s.popped <= |s.log|
      && (forall k :: 0 <= k < s.popped ==> Delivered(s, k))
      && s.head != Some(s.tail)
      && RingOk(s.next, s.ring)
      && (forall n: Node :: n < |s.next| ==> n in s.ring)
      && |s.ring| == s.capacity + s.block * Finishing(s.prods)
  {
    InitOk<T>(block, blocks, producers, consumers);
    RunKeeps(Init<T>(block, blocks, producers, consumers), acts);
    var s := Run(Init<T>(block, blocks, producers, consumers), acts);
    RingIsWhole(s);
  }

  lemma RingIsWhole<T>(s: State<T>)
    requires Inv(s)
    ensures s.head != Some(s.tail)
    ensures forall n: Node :: n < |s.next| ==> n in s.ring
    ensures |s.ring| == s.capacity + s.block * Finishing(s.prods)
  {
    forall n: Node | n < |s.next| ensures n in s.ring {
      Counting.Pigeonhole(s.ring, n);
    }
  }

  // ---------------------------------------------------------------------------------------------
  // What is enough for the exchanges of tail_
  // ---------------------------------------------------------------------------------------------

  /** A ready flag read at line 175 is not left over from a pop that has yet to reset it. */
  ghost predicate ReadyIsFresh<T>(s: State<T>, c: nat) {
    c < |s.cons| && s.cons[c].NextLoaded? && s.cons[c].n < |s.ready| && s.ready[s.cons[c].n]
    ==> !Held(s, s.cons[c].n)
  }

  /** The exchange of tail_ at line 180 succeeds only if tail_ has not moved since it was loaded. */
  predicate TailUnmoved<T>(s: State<T>, c: nat) {
    c < |s.cons| && s.cons[c].ReadySeen? && s.cons[c].t == s.tail ==> s.cons[c].ver == s.tailVer
  }

  /** Where a flag was seen and tail_ has not moved since, the next node is published. */
  ghost predicate FlagsOk<T>(s: State<T>) {
    && Shape(s)
    && forall c :: 0 <= c < |s.cons| && s.cons[c].ReadySeen? && s.cons[c].ver == s.tailVer ==> Published(s, 1)
  }

  lemma FlagsAreFresh<T>(s: State<T>, c: nat)
    requires Inv(s) && FlagsOk(s) && TailUnmoved(s, c)
    ensures TailFresh(s, c)
  {
    if c < |s.cons| { assert ConsumerOk(s, c); }
  }

  /** A producer leaves tail_, the node behind it and the flags of others alone. */
  ghost predicate FrontSame<T>(s: State<T>, s': State<T>) {
    && |s.ring| >= 2
    && s'.cons == s.cons && s'.h >= s.h && s'.tailVer == s.tailVer
    && |s'.ring| >= |s.ring| && s'.ring[1] == s.ring[1] && |s'.ready| >= |s.ready|
    && forall n :: 0 <= n < |s.ready| && s.ready[n] ==> s'.ready[n]
  }

  lemma FrontStays<T>(s: State<T>, p: nat)
    requires Shape(s)
    ensures FrontSame(s, AdvanceProducer(s, p))
  {
    assert |s.ring| >= 2;
    hide Shape;
    if p < |s.prods| && s.prods[p].Locked? {
      SplicingFront(s, p);
      hide AdvanceProducer, FrontSame;
    }
  }

  lemma SplicingFront<T>(s: State<T>, p: nat)
    requires Shape(s) && p < |s.prods| && s.prods[p].Locked?
    ensures FrontSame(s, AdvanceProducer(s, p))
  {
    assert |s.ring| >= 2;
    hide RingOk, Spliced;
  }

  lemma ProducerKeepsPublished<T>(s: State<T>, p: nat)
    requires Shape(s) && Shape(AdvanceProducer(s, p)) && Published(s, 1)
    ensures Published(AdvanceProducer(s, p), 1)
  {
    FrontStays(s, p);
    hide AdvanceProducer;
    assert forall n :: Held(AdvanceProducer(s, p), n) == Held(s, n);
  }

  /** A step that moves consumer c and no node, and after which nothing more is held. */
  lemma LightKeepsFlags<T>(s: State<T>, s': State<T>, c: nat)
    requires FlagsOk(s) && c < |s.cons| && |s'.cons| == |s.cons| && s'.cons == s.cons[c := s'.cons[c]]
    requires s' == s.(cons := s'.cons, ready := s'.ready, result := s'.result, order := s'.order) && Shape(s')
    requires Published(s, 1) ==> s'.ready[s.ring[1]]
    requires forall n :: Held(s', n) ==> Held(s, n)
    requires s'.cons[c].ReadySeen? && s'.cons[c].ver == s.tailVer ==> Published(s, 1)
    ensures FlagsOk(s')
  {
    hide RingOk;
    assert Published(s, 1) ==> Published(s', 1);
  }

  lemma ConsumerKeepsFlags<T>(s: State<T>, c: nat)
    requires Inv(s) && FlagsOk(s) && ReadyIsFresh(s, c) && Shape(AdvanceConsumer(s, c))
    ensures FlagsOk(AdvanceConsumer(s, c))
  {
    if c < |s.cons| {
      hide AdvanceConsumer, FlagsOk;
      if s.cons[c].ReadySeen? && s.cons[c].t == s.tail {
        PopClaimKeepsFlags(s, c);
      } else if s.cons[c].Clearing? {
        ClearKeepsFlags(s, c);
      } else {
        OtherwiseKeepsFlags(s, c);
      }
    }
  }

  lemma PopClaimKeepsFlags<T>(s: State<T>, c: nat)
    requires Shape(s) && ConsumersOk(s) && c < |s.cons| && s.cons[c].ReadySeen? && s.cons[c].t == s.tail
    requires Shape(AdvanceConsumer(s, c))
    ensures FlagsOk(AdvanceConsumer(s, c))
  {
    hide RingOk;
    forall d | 0 <= d < |s.cons| && s.cons[d].ReadySeen? ensures s.cons[d].ver <= s.tailVer { assert ConsumerOk(s, d); }
  }

  lemma ClearKeepsFlags<T>(s: State<T>, c: nat)
    requires Inv(s) && FlagsOk(s) && c < |s.cons| && s.cons[c].Clearing? && Shape(AdvanceConsumer(s, c))
    ensures FlagsOk(AdvanceConsumer(s, c))
  {
    ClearHeld(s, c);
    hide ProducersOk, ConsumersOk, NodesOk, RingOk, TicketsOk, CapacityOk, LockOk;
    LightKeepsFlags(s, AdvanceConsumer(s, c), c);
  }

  lemma OtherwiseKeepsFlags<T>(s: State<T>, c: nat)
    requires Inv(s) && FlagsOk(s) && ReadyIsFresh(s, c) && Shape(AdvanceConsumer(s, c)) && c < |s.cons|
    requires !s.cons[c].Clearing? && !(s.cons[c].ReadySeen? && s.cons[c].t == s.tail)
    ensures FlagsOk(AdvanceConsumer(s, c))
  {
    var s' := AdvanceConsumer(s, c);
    assert ConsumerOk(s, c) && NodeOk(s, 1);
    hide ProducersOk, ConsumersOk, NodesOk, RingOk, TicketsOk, CapacityOk, LockOk, Inv;
    if s'.cons != s.cons {
      HeldSame(s, c, s'.cons[c]);
      assert forall n :: Held(s', n) == Held(SetC(s, c, s'.cons[c]), n);
      LightKeepsFlags(s, s', c);
    }
  }

  lemma FlagsKeep<T>(s: State<T>, a: Action<T>)
    requires Inv(s) && FlagsOk(s) && Shape(Apply(s, a)) && (a.Consumer? ==> ReadyIsFresh(s, a.c))
    ensures FlagsOk(Apply(s, a))
  {
    match a
    case Push(p, v) => assert forall n :: Held(Apply(s, a), n) == Held(s, n);
    case Producer(p) =>
      if Published(s, 1) { ProducerKeepsPublished(s, p); }
      ProducerFrame(s, p);
      hide AdvanceProducer;
    case Pop(c) =>
      if c < |s.cons| && s.cons[c].Resting? { HeldSame(s, c, TailLoaded(s.tail, s.tailVer)); }
    case Consumer(c) => ConsumerKeepsFlags(s, c);
  }

  /** No flag read is left over, and no exchange of head_ or tail_ succeeds on one that moved away and came back. */
  ghost predicate UnmovedRun<T>(s: State<T>, acts: seq<Action<T>>)
    decreases |acts|
  {
    acts == []
    || (&& (acts[0].Producer? ==> HeadUnmoved(s, acts[0].p))
        && (acts[0].Consumer? ==> ReadyIsFresh(s, acts[0].c) && TailUnmoved(s, acts[0].c))
        && UnmovedRun(Apply(s, acts[0]), acts[1..]))
  }

  /** Such runs are all covered by ManyConsumers. */
  lemma {:induction false} UnmovedRunIsAdmissible<T>(s: State<T>, acts: seq<Action<T>>)
    requires Inv(s) && FlagsOk(s) && UnmovedRun(s, acts)
    ensures AdmissibleRun(s, acts)
    decreases |acts|
  {
    hide Inv, FlagsOk, Apply, HeadUnmoved, TailUnmoved, ReadyIsFresh, HeadFresh, TailFresh;
    if acts != [] {
      if acts[0].Producer? { UnmovedIsFresh(s, acts[0].p); }
      if acts[0].Consumer? { FlagsAreFresh(s, acts[0].c); }
      StepKeeps(s, acts[0]);
      InvShape(Apply(s, acts[0]));
      FlagsKeep(s, acts[0]);
      UnmovedRunIsAdmissible(Apply(s, acts[0]), acts[1..]);
    }
  }

  lemma InvShape<T>(s: State<T>)
    requires Inv(s)
    ensures Shape(s)
  {}

  // ---------------------------------------------------------------------------------------------
  // One consumer
  // ---------------------------------------------------------------------------------------------

  /** What one consumer adds: it never loses a race, and returns the values in the order of their claims. */
  ghost predicate SingleOk<T>(s: State<T>) {
    && |s.cons| == 1
    && FlagsOk(s)
    && |s.order| <= s.popped <= |s.log|
    && s.order == s.log[..|s.order|]
    && match s.cons[0]
       case Resting => |s.order| == s.popped
       case TailLoaded(t, ver) => |s.order| == s.popped && ver == s.tailVer
       case NextLoaded(t, ver, n) => |s.order| == s.popped && ver == s.tailVer
       case ReadySeen(t, ver, n) => |s.order| == s.popped && ver == s.tailVer
       case Taking(n, k) => |s.order| == s.popped - 1 == k
       case Clearing(n, k) => |s.order| == s.popped
  }

  ghost predicate HeadsFresh<T>(s: State<T>, acts: seq<Action<T>>)
    decreases |acts|
  {
    acts == []
    || ((acts[0].Producer? ==> HeadFresh(s, acts[0].p)) && HeadsFresh(Apply(s, acts[0]), acts[1..]))
  }

  lemma SingleIsAdmissible<T>(s: State<T>, a: Action<T>)
    requires Inv(s) && SingleOk(s) && (a.Producer? ==> HeadFresh(s, a.p))
    ensures Admissible(s, a) && (a.Consumer? ==> ReadyIsFresh(s, a.c))
  {
    if a.Consumer? { FlagsAreFresh(s, a.c); }
  }

  lemma SingleStepKeeps<T>(s: State<T>, a: Action<T>)
    requires Inv(s) && SingleOk(s) && (a.Producer? ==> HeadFresh(s, a.p))
    ensures Inv(Apply(s, a)) && SingleOk(Apply(s, a))
  {
    SingleIsAdmissible(s, a);
    StepKeeps(s, a);
    FlagsKeep(s, a);
    hide FlagsOk, Admissible, ReadyIsFresh;
    if a.Consumer? && a.c == 0 {
      SingleConsumerStep(s);
    } else if a.Producer? {
      SingleProducerStep(s, a.p);
    }
  }

  lemma SingleConsumerStep<T>(s: State<T>)
    requires Shape(s) && SingleOk(s) && ConsumerOk(s, 0) && FlagsOk(AdvanceConsumer(s, 0))
    ensures SingleOk(AdvanceConsumer(s, 0))
  {
    hide RingOk;
    assert s.cons[0].ReadySeen? ==> Published(s, 1);
    hide FlagsOk;
  }

  lemma SingleProducerStep<T>(s: State<T>, p: nat)
    requires SingleOk(s) && FlagsOk(AdvanceProducer(s, p))
    ensures SingleOk(AdvanceProducer(s, p))
  {
    ProducerFrame(s, p);
    hide AdvanceProducer, FlagsOk;
    assert AdvanceProducer(s, p).log[..|s.order|] == s.log[..|s.order|];
  }

  lemma ProducerFrame<T>(s: State<T>, p: nat)
    ensures var s' := AdvanceProducer(s, p);
      && s.log <= s'.log && s'.cons == s.cons && s'.order == s.order && s'.popped == s.popped && s'.tailVer == s.tailVer
  {}

  lemma {:induction false} SingleRunKeeps<T>(s: State<T>, acts: seq<Action<T>>)
    requires Inv(s) && SingleOk(s) && HeadsFresh(s, acts)
    ensures Inv(Run(s, acts)) && SingleOk(Run(s, acts))
    decreases |acts|
  {
    if acts != [] {
      SingleStepKeeps(s, acts[0]);
      SingleRunKeeps(Apply(s, acts[0]), acts[1..]);
    }
  }

  /** With one consumer the popped values are a prefix of the values in the order of their claims,
      in every interleaving with any number of producers, and tail_ never reaches head_. */
  lemma Fifo<T>(block: nat, blocks: nat, producers: nat, acts: seq<Action<T>>)
    requires block * blocks >= 2
    requires HeadsFresh(Init<T>(block, blocks, producers, 1), acts)
    ensures var s := Run(Init<T>(block, blocks, producers, 1), acts);
      Inv(s) && s.order <= s.log && |s.order| <= s.popped <= |s.order| + 1 && s.head != Some(s.tail)
  {
    InitOk<T>(block, blocks, producers, 1);
    SingleRunKeeps(Init<T>(block, blocks, producers, 1), acts);
  }

  /** With one consumer: a pop that has followed tail_ gives up exactly when the next node is not published, and if a
      claimed value is still unpopped then, the push that claimed it first is still to publish it. */
  lemma FalseIffUnpublished<T>(s: State<T>)
    requires Inv(s) && SingleOk(s) && s.cons[0].NextLoaded?
    ensures AdvanceConsumer(s, 0).cons[0].Resting? <==> !Published(s, 1)
    ensures !Published(s, 1) && s.popped < |s.log| ==>
              s.owner[s.popped] < |s.prods| && Owns(s.prods[s.owner[s.popped]], s.popped)
  {
    assert ConsumerOk(s, 0) && NodeOk(s, 1);
    assert forall n :: !Held(s, n);
  }

  ghost predicate HeadsUnmoved<T>(s: State<T>, acts: seq<Action<T>>)
    decreases |acts|
  {
    acts == []
    || ((acts[0].Producer? ==> HeadUnmoved(s, acts[0].p)) && HeadsUnmoved(Apply(s, acts[0]), acts[1..]))
  }

  /** Runs in which no exchange succeeds on a head_ that moved away and came back are all covered by Fifo. */
  lemma {:induction false} UnmovedRunIsFresh<T>(s: State<T>, acts: seq<Action<T>>)
    requires Inv(s) && SingleOk(s) && HeadsUnmoved(s, acts)
    ensures HeadsFresh(s, acts)
    decreases |acts|
  {
    if acts != [] {
      if acts[0].Producer? { UnmovedIsFresh(s, acts[0].p); }
      SingleStepKeeps(s, acts[0]);
      UnmovedRunIsFresh(Apply(s, acts[0]), acts[1..]);
    }
  }

  /** With one consumer the wait of line 145 never waits, unless the node is the one being popped. */
  lemma ClaimedNodeIsUnready<T>(s: State<T>, p: nat)
    requires Inv(s) && p < |s.prods| && s.prods[p].Claimed? && forall c :: 0 <= c < |s.cons| ==> Light(s.cons[c])
    ensures s.prods[p].w < |s.ready| && !s.ready[s.prods[p].w]
  {
    assert ProducerOk(s, p);
  }

  /** Once no push is under way, every value claimed and not popped lies ready in its node, in claim order. */
  lemma QuietContents<T>(s: State<T>, k: nat)
    requires Inv(s) && (forall p :: 0 <= p < |s.prods| ==> s.prods[p].Idle?)
    requires s.popped <= k < |s.log|
    ensures Published(s, k - s.popped + 1) && s.data[s.ring[k - s.popped + 1]] == Some(s.log[k])
  {
    assert NodeOk(s, k - s.popped + 1);
  }
}
