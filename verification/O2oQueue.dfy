/**
 The single-producer single-consumer queue of include/pump/toolkit/freelock_o2o_queue.h: ring-buffer
 blocks linked into a ring of blocks, with indices cached by either side.  `push` and `pop` are cut at
 every access to a word that the other thread writes or reads; memory is sequentially consistent.
 Blocks are numbered in the order of their allocation.
 */
module O2oQueue {
  import opened Wrappers
  import Modular
  import Counting

  datatype Block<T> = Block(
    next: nat,
    head: nat, cacheTail: nat,          // the consumer's line
    tail: nat, cacheHead: nat,          // the producer's line
    data: seq<Option<T>>,
    // History: what the wrapped indices stand for
    hist: seq<T>,                       // everything ever put into this block
    taken: nat,                         // how much of it has been taken out
    knownTaken: nat, knownPut: nat)     // what cache_head and cache_tail stand for

  /** Where the producer stands in `push` (lines 128-209). */
  datatype Producer<T> =
    | Idle
    | Begin(v: T)
    | LoadHead(v: T)                    // the cached head says the block is full
    | CheckNext(v: T)                   // it is full
    | Store(v: T)                       // there is room in the tail block
    | Publish(v: T)
    | NextLoad(v: T, n: nat)            // the next block is not the head block
    | NextStore(v: T, n: nat, t: nat)
    | NextPublish(v: T, n: nat, t: nat)
    | NextMove(v: T, n: nat)
    | Grow(v: T)                        // it is: a new block is needed
    | GrowStore(v: T, n: nat)
    | GrowPublish(v: T, n: nat)
    | GrowMove(v: T, n: nat)
    | GrowCount

  /** Where the consumer stands in `pop` (lines 215-281). */
  datatype Consumer<T> =
    | Resting
    | Start
    | LoadTail                          // the cached tail says the block is empty
    | CheckBlock
    | ReloadTail                        // the head block is not the tail block
    | MoveNext                          // and it is empty
    | NextTail
    | Read
    | Release(v: T)

  datatype State<T> = State(
    size: nat,                          // block_element_size_
    blocks: seq<Block<T>>, blkHead: nat, blkTail: nat, capacity: nat,
    prod: Producer<T>, cons: Consumer<T>,
    // History
    chain: seq<nat>,                    // the ring of blocks, starting with blk_head_
    k: nat,                             // where in chain blk_tail_ is
    pushed: seq<T>, popped: seq<T>,
    sawEmpty: bool)                     // the queue was empty when the consumer last loaded the tail of a block

  datatype Action<T> = Push(v: T) | ProducerStep | Pop | ConsumerStep

  function Upd<T>(s: State<T>, i: nat, b: Block<T>): State<T>
    requires i < |s.blocks|
  {
    s.(blocks := s.blocks[i := b])
  }

  function NewBlock<T>(size: nat, next: nat): Block<T> {
    Block(next, 0, 0, 0, 0, seq(size, _ => None), [], 0, 0, 0)
  }

  predicate InRange<T>(s: State<T>) {
    && s.size >= 2 && s.blkHead < |s.blocks| && s.blkTail < |s.blocks| && s.k < |s.chain|
    && forall i :: 0 <= i < |s.blocks| ==>
         |s.blocks[i].data| == s.size && s.blocks[i].next < |s.blocks|
         && s.blocks[i].head < s.size && s.blocks[i].tail < s.size
  }

  /** The next step of the producer; `(x + 1) & mask` is `(x + 1) % size` for a power of two. */
  function StepProducer<T>(s: State<T>): State<T>
    requires InRange(s)
  {
    var b := s.blocks[s.blkTail];
    match s.prod
    case Idle => s
    case Begin(v) => s.(prod := if (b.tail + 1) % s.size != b.cacheHead then Store(v) else LoadHead(v))
    case LoadHead(v) =>
      Upd(s, s.blkTail, b.(cacheHead := b.head, knownTaken := b.taken))
        .(prod := if (b.tail + 1) % s.size != b.head then Store(v) else CheckNext(v))
    case CheckNext(v) => s.(prod := if b.next != s.blkHead then NextLoad(v, b.next) else Grow(v))
    case Store(v) => Upd(s, s.blkTail, b.(data := b.data[b.tail := Some(v)])).(prod := Publish(v))
    case Publish(v) =>
      Upd(s, s.blkTail, b.(tail := (b.tail + 1) % s.size, hist := b.hist + [v])).(prod := Idle, pushed := s.pushed + [v])
    case NextLoad(v, n) =>
      if n < |s.blocks| then
        Upd(s, n, s.blocks[n].(cacheHead := s.blocks[n].head, knownTaken := s.blocks[n].taken))
          .(prod := NextStore(v, n, s.blocks[n].head))
      else s
    case NextStore(v, n, t) =>
      if n < |s.blocks| && t < s.size then
        Upd(s, n, s.blocks[n].(data := s.blocks[n].data[t := Some(v)])).(prod := NextPublish(v, n, t))
      else s
    case NextPublish(v, n, t) =>
      if n < |s.blocks| then
        Upd(s, n, s.blocks[n].(tail := (t + 1) % s.size, hist := s.blocks[n].hist + [v])).(prod := NextMove(v, n))
      else s
    case NextMove(v, n) => s.(blkTail := n, k := s.k + 1, prod := Idle, pushed := s.pushed + [v])
    case Grow(v) =>
      s.(blocks := s.blocks[s.blkTail := b.(next := |s.blocks|)] + [NewBlock(s.size, b.next)],
         chain := s.chain[..s.k + 1] + [|s.blocks|] + s.chain[s.k + 1..],
         prod := GrowStore(v, |s.blocks|))
    case GrowStore(v, n) =>
      if n < |s.blocks| then
        Upd(s, n, s.blocks[n].(data := s.blocks[n].data[0 := Some(v)])).(prod := GrowPublish(v, n))
      else s
    case GrowPublish(v, n) =>
      if n < |s.blocks| then
        Upd(s, n, s.blocks[n].(cacheTail := 1, knownPut := 1, tail := 1, hist := [v])).(prod := GrowMove(v, n))
      else s
    case GrowMove(v, n) => s.(blkTail := n, k := s.k + 1, prod := GrowCount, pushed := s.pushed + [v])
    case GrowCount => s.(capacity := s.capacity + s.size, prod := Idle)
  }

  /** The next step of the consumer.  After moving to the next block it reads without looking. */
  function StepConsumer<T>(s: State<T>): State<T>
    requires InRange(s)
  {
    var b := s.blocks[s.blkHead];
    match s.cons
    case Resting => s
    case Start => s.(cons := if b.head != b.cacheTail then Read else LoadTail)
    case LoadTail =>
      Upd(s, s.blkHead, b.(cacheTail := b.tail, knownPut := |b.hist|))
        .(cons := if b.head != b.tail then Read else CheckBlock, sawEmpty := s.k == 0 && b.taken == |b.hist|)
    case CheckBlock => s.(cons := if s.blkHead != s.blkTail then ReloadTail else Resting)
    case ReloadTail =>
      Upd(s, s.blkHead, b.(cacheTail := b.tail, knownPut := |b.hist|))
        .(cons := if b.head == b.tail then MoveNext else Read)
    case MoveNext =>
      s.(blkHead := b.next, cons := NextTail,
         chain := s.chain[1..] + [s.chain[0]], k := if s.k > 0 then s.k - 1 else 0)
    case NextTail =>
      Upd(s, s.blkHead, b.(cacheTail := b.tail, knownPut := |b.hist|)).(cons := Read)
    case Read => if b.data[b.head].Some? then s.(cons := Release(b.data[b.head].value)) else s
    case Release(v) =>
      Upd(s, s.blkHead, b.(head := (b.head + 1) % s.size, taken := b.taken + 1))
        .(cons := Resting, popped := s.popped + [v])
  }

  function Apply<T>(s: State<T>, a: Action<T>): State<T>
    requires InRange(s)
  {
    match a
    case Push(v) => if s.prod.Idle? then s.(prod := Begin(v)) else s
    case ProducerStep => StepProducer(s)
    case Pop => if s.cons.Resting? then s.(cons := Start) else s
    case ConsumerStep => StepConsumer(s)
  }

  // ---------------------------------------------------------------------------------------------
  // The invariant
  // ---------------------------------------------------------------------------------------------

  /** The wrapped indices stand for counters that never decrease; the cached ones lag behind;
      the slots between them hold what was put in and not taken out. */
  ghost predicate BlockOk<T>(b: Block<T>, size: nat) {
    && size >= 2 && |b.data| == size
    && b.head == b.taken % size && b.tail == |b.hist| % size
    && b.cacheHead == b.knownTaken % size && b.cacheTail == b.knownPut % size
    && b.knownTaken <= b.taken <= b.knownPut <= |b.hist| <= b.knownTaken + size - 1
    && forall i :: b.taken <= i < |b.hist| ==> b.data[i % size] == Some(b.hist[i])
  }

  function Items<T>(b: Block<T>): seq<T> {
    if b.taken <= |b.hist| then b.hist[b.taken..] else []
  }

  /** The abstract queue: the blocks from blk_head_ to blk_tail_, one after the other. */
  function Flat<T>(blocks: seq<Block<T>>, ids: seq<nat>): seq<T>
    requires forall i :: 0 <= i < |ids| ==> ids[i] < |blocks|
  {
    if ids == [] then [] else Items(blocks[ids[0]]) + Flat(blocks, ids[1..])
  }

  /** The blocks form one ring, all of them on it. */
  ghost predicate ChainOk<T>(s: State<T>) {
    && |s.chain| == |s.blocks|
    && s.k < |s.chain|
    && (forall i :: 0 <= i < |s.chain| ==> s.chain[i] < |s.blocks|)
    && (forall i, j :: 0 <= i < j < |s.chain| ==> s.chain[i] != s.chain[j])
    && (forall i :: 0 <= i < |s.chain| ==>
          s.blocks[s.chain[i]].next == s.chain[if i + 1 < |s.chain| then i + 1 else 0])
    && s.blkHead == s.chain[0] && s.blkTail == s.chain[s.k]
  }

  function Contents<T>(s: State<T>): seq<T>
    requires ChainOk(s)
  {
    Flat(s.blocks, s.chain[..s.k + 1])
  }

  ghost predicate BlocksOk<T>(s: State<T>) {
    && s.size >= 2
    && forall i :: 0 <= i < |s.blocks| ==> BlockOk(s.blocks[i], s.size)
  }

  /** Blocks past the head block up to the tail block hold something; those past the tail block hold nothing,
      except the one the producer is just moving to. */
  ghost predicate FillOk<T>(s: State<T>)
    requires ChainOk(s)
  {
    && (forall i :: 0 < i <= s.k ==> s.blocks[s.chain[i]].taken < |s.blocks[s.chain[i]].hist|)
    && (forall i :: s.k < i < |s.chain| && !((s.prod.NextMove? || s.prod.GrowMove?) && s.chain[i] == s.prod.n)
          ==> s.blocks[s.chain[i]].taken == |s.blocks[s.chain[i]].hist|)
  }

  /** n is the block behind the tail block, and not the head block. */
  ghost predicate NextFree<T>(s: State<T>, n: nat)
    requires ChainOk(s)
  {
    s.k + 1 < |s.chain| && n == s.chain[s.k + 1]
  }

  ghost predicate ProducerOk<T>(s: State<T>)
    requires ChainOk(s) && BlocksOk(s)
  {
    var b := s.blocks[s.blkTail];
    match s.prod
    case Idle => true
    case Begin(v) => true
    case LoadHead(v) => true
    case CheckNext(v) => true
    case Store(v) => |b.hist| + 1 <= b.knownTaken + s.size - 1
    case Publish(v) => |b.hist| + 1 <= b.knownTaken + s.size - 1 && b.data[b.tail] == Some(v)
    case NextLoad(v, n) => NextFree(s, n)
    case NextStore(v, n, t) =>
      NextFree(s, n) && t == s.blocks[n].head && s.blocks[n].knownTaken == s.blocks[n].taken
    case NextPublish(v, n, t) =>
      NextFree(s, n) && t == s.blocks[n].head && s.blocks[n].knownTaken == s.blocks[n].taken
      && s.blocks[n].data[t] == Some(v)
    case NextMove(v, n) =>
      NextFree(s, n) && Items(s.blocks[n]) == [v]
    case Grow(v) => true
    case GrowStore(v, n) => NextFree(s, n) && s.blocks[n].hist == []
    case GrowPublish(v, n) => NextFree(s, n) && s.blocks[n].hist == [] && s.blocks[n].data[0] == Some(v)
    case GrowMove(v, n) => NextFree(s, n) && Items(s.blocks[n]) == [v]
    case GrowCount => true
  }

  ghost predicate ConsumerOk<T>(s: State<T>)
    requires ChainOk(s) && BlocksOk(s)
  {
    var b := s.blocks[s.blkHead];
    match s.cons
    case Resting => true
    case Start => true
    case LoadTail => true
    case CheckBlock => s.k == 0 ==> s.sawEmpty
    case ReloadTail => s.k > 0
    case MoveNext => s.k > 0 && b.taken == |b.hist|
    case NextTail => b.taken < |b.hist|
    case Read => b.taken < b.knownPut
    case Release(v) => b.taken < b.knownPut && v == b.hist[b.taken]
  }

  ghost predicate CapacityOk<T>(s: State<T>) {
    s.size * |s.blocks| == s.capacity
      + (if s.prod.GrowStore? || s.prod.GrowPublish? || s.prod.GrowMove? || s.prod.GrowCount? then s.size else 0)
  }

  ghost predicate Inv<T>(s: State<T>) {
    && BlocksOk(s) && ChainOk(s) && FillOk(s) && ProducerOk(s) && ConsumerOk(s) && CapacityOk(s)
    && s.pushed == s.popped + Contents(s)
  }

  // ---------------------------------------------------------------------------------------------
  // One block
  // ---------------------------------------------------------------------------------------------

  /** The producer's look at the cached head never finds room that is not there. */
  lemma RoomIsThere<T>(b: Block<T>, size: nat, known: nat)
    requires BlockOk(b, size) && b.knownTaken <= known <= b.taken
    ensures (b.tail + 1) % size != known % size <==> |b.hist| + 1 <= known + size - 1
  {
    Modular.Successor(|b.hist|, size);
    Modular.SameRemainder(|b.hist| + 1, known, size);
  }

  /** The consumer's look at a tail it knows of finds exactly what has been put in since. */
  lemma ItemIsThere<T>(b: Block<T>, size: nat, known: nat)
    requires BlockOk(b, size) && b.taken <= known <= |b.hist|
    ensures b.head != known % size <==> b.taken < known
  {
    Modular.SameRemainder(known, b.taken, size);
  }

  /** Storing into the free slot at the tail disturbs nothing that is still to be read. */
  lemma StoreOk<T>(b: Block<T>, size: nat, v: T)
    requires BlockOk(b, size) && |b.hist| + 1 <= b.knownTaken + size - 1
    ensures BlockOk(b.(data := b.data[b.tail := Some(v)]), size)
  {
    forall i | b.taken <= i < |b.hist| ensures b.data[b.tail := Some(v)][i % size] == Some(b.hist[i]) {
      Modular.SameRemainder(|b.hist|, i, size);
    }
  }

  lemma PublishOk<T>(b: Block<T>, size: nat, v: T)
    requires BlockOk(b, size) && |b.hist| + 1 <= b.knownTaken + size - 1 && b.data[b.tail] == Some(v)
    ensures BlockOk(b.(tail := (b.tail + 1) % size, hist := b.hist + [v]), size)
    ensures Items(b.(tail := (b.tail + 1) % size, hist := b.hist + [v])) == Items(b) + [v]
  {
    Modular.Successor(|b.hist|, size);
  }

  lemma ReleaseOk<T>(b: Block<T>, size: nat)
    requires BlockOk(b, size) && b.taken < b.knownPut
    ensures BlockOk(b.(head := (b.head + 1) % size, taken := b.taken + 1), size)
    ensures Items(b) == [b.hist[b.taken]] + Items(b.(head := (b.head + 1) % size, taken := b.taken + 1))
  {
    Modular.Successor(b.taken, size);
  }

  // ---------------------------------------------------------------------------------------------
  // The chain of blocks
  // ---------------------------------------------------------------------------------------------

  ghost predicate Within<T>(blocks: seq<Block<T>>, ids: seq<nat>) {
    forall i :: 0 <= i < |ids| ==> ids[i] < |blocks|
  }

  lemma {:induction false} FlatAgree<T>(blocks: seq<Block<T>>, blocks': seq<Block<T>>, ids: seq<nat>)
    requires Within(blocks, ids) && Within(blocks', ids)
    requires forall i :: 0 <= i < |ids| ==> Items(blocks'[ids[i]]) == Items(blocks[ids[i]])
    ensures Flat(blocks', ids) == Flat(blocks, ids)
  {
    if ids != [] {
      assert forall i :: 0 <= i < |ids[1..]| ==> ids[1..][i] == ids[i + 1];
      FlatAgree(blocks, blocks', ids[1..]);
    }
  }

  lemma {:induction false} FlatSnoc<T>(blocks: seq<Block<T>>, ids: seq<nat>, x: nat)
    requires Within(blocks, ids + [x]) && x < |blocks| && Within(blocks, ids)
    ensures Flat(blocks, ids + [x]) == Flat(blocks, ids) + Items(blocks[x])
  {
    if ids == [] {
      assert [] + [x] == [x] && [x][1..] == [];
      assert Flat(blocks, [x]) == Items(blocks[x]) + Flat(blocks, []);
    } else {
      assert forall i :: 0 <= i < |ids[1..]| ==> ids[1..][i] == ids[i + 1];
      assert forall i :: 0 <= i < |ids[1..] + [x]| ==> (ids[1..] + [x])[i] == (ids + [x])[i + 1];
      assert (ids + [x])[1..] == ids[1..] + [x];
      FlatSnoc(blocks, ids[1..], x);
    }
  }

  lemma FlatLast<T>(blocks: seq<Block<T>>, blocks': seq<Block<T>>, front: seq<nat>, x: nat, v: T)
    requires Within(blocks, front + [x]) && Within(blocks', front + [x]) && x < |blocks| <= |blocks'|
    requires Within(blocks, front) && x !in front
    requires forall i :: 0 <= i < |blocks| && i != x ==> blocks'[i] == blocks[i]
    requires Items(blocks'[x]) == Items(blocks[x]) + [v]
    ensures Flat(blocks', front + [x]) == Flat(blocks, front + [x]) + [v]
  {
    hide Items;
    FlatSnoc(blocks, front, x);
    FlatSnoc(blocks', front, x);
    FlatAgree(blocks, blocks', front);
    hide Flat;
    Assoc(Flat(blocks, front), Items(blocks[x]), [v]);
  }

  /** Putting v into the tail block appends it to the queue. */
  lemma ContentsAppend<T>(s: State<T>, s': State<T>, v: T)
    requires ChainOk(s) && ChainOk(s') && s'.chain == s.chain && s'.k == s.k
    requires forall i :: 0 <= i < |s.blocks| && i != s.blkTail ==> s'.blocks[i] == s.blocks[i]
    requires Items(s'.blocks[s.blkTail]) == Items(s.blocks[s.blkTail]) + [v]
    ensures Contents(s') == Contents(s) + [v]
  {
    assert s.chain[..s.k + 1] == s.chain[..s.k] + [s.blkTail];
    FlatLast(s.blocks, s'.blocks, s.chain[..s.k], s.blkTail, v);
  }

  /** Moving to the next block appends the value just put there. */
  lemma ContentsMove<T>(s: State<T>, s': State<T>)
    requires ChainOk(s) && ChainOk(s') && s'.chain == s.chain && s'.k == s.k + 1 && s'.blocks == s.blocks
    ensures Contents(s') == Contents(s) + Items(s.blocks[s'.blkTail])
  {
    assert s.chain[..s.k + 2] == s.chain[..s.k + 1] + [s'.blkTail];
    FlatSnoc(s.blocks, s.chain[..s.k + 1], s'.blkTail);
  }

  lemma FlatCons<T>(blocks: seq<Block<T>>, x: nat, rest: seq<nat>)
    requires Within(blocks, [x] + rest) && x < |blocks| && Within(blocks, rest)
    ensures Flat(blocks, [x] + rest) == Items(blocks[x]) + Flat(blocks, rest)
  {
    hide Items;
    assert ([x] + rest)[1..] == rest;
  }

  lemma Assoc<T>(a: seq<T>, b: seq<T>, c: seq<T>)
    ensures (a + b) + c == a + (b + c)
  {}

  /** Taking from the head block takes the oldest value of the queue. */
  lemma ContentsTake<T>(s: State<T>, s': State<T>, v: T)
    requires ChainOk(s) && ChainOk(s') && s'.chain == s.chain && s'.k == s.k
    requires forall i :: 0 <= i < |s.blocks| && i != s.blkHead ==> s'.blocks[i] == s.blocks[i]
    requires Items(s.blocks[s.blkHead]) == [v] + Items(s'.blocks[s.blkHead])
    ensures Contents(s) == [v] + Contents(s')
  {
    var rest := s.chain[1..s.k + 1];
    assert s.chain[..s.k + 1] == [s.blkHead] + rest;
    FlatCons(s.blocks, s.blkHead, rest);
    FlatCons(s'.blocks, s.blkHead, rest);
    FlatAgree(s.blocks, s'.blocks, rest);
    hide Items;
    hide Flat;
    Assoc([v], Items(s'.blocks[s.blkHead]), Flat(s'.blocks, rest));
  }

  /** Steps that change no item of the queue change nothing of its contents. */
  lemma ContentsSame<T>(s: State<T>, s': State<T>)
    requires ChainOk(s) && ChainOk(s') && s'.k == s.k && s'.chain[..s.k + 1] == s.chain[..s.k + 1]
    requires |s.blocks| <= |s'.blocks|
    requires forall i :: 0 <= i <= s.k ==> Items(s'.blocks[s.chain[i]]) == Items(s.blocks[s.chain[i]])
    ensures Contents(s') == Contents(s)
  {
    FlatAgree(s.blocks, s'.blocks, s.chain[..s.k + 1]);
  }

  lemma StartsInRange<T>(s: State<T>)
    requires BlocksOk(s) && ChainOk(s)
    ensures InRange(s)
  {
    forall i | 0 <= i < |s.blocks|
      ensures |s.blocks[i].data| == s.size && s.blocks[i].next < |s.blocks|
      ensures s.blocks[i].head < s.size && s.blocks[i].tail < s.size
    {
      assert BlockOk(s.blocks[i], s.size);
      NextInRange(s, i);
    }
  }

  lemma NextInRange<T>(s: State<T>, i: nat)
    requires ChainOk(s) && i < |s.blocks|
    ensures s.blocks[i].next < |s.blocks|
  {
    Counting.Pigeonhole(s.chain, i);
    var j :| 0 <= j < |s.chain| && s.chain[j] == i;
    assert s.blocks[s.chain[j]].next == s.chain[if j + 1 < |s.chain| then j + 1 else 0];
  }

  // ---------------------------------------------------------------------------------------------
  // Producer steps keep the invariant
  // ---------------------------------------------------------------------------------------------

  /** A step that rewrites one block, leaving the links of all. */
  ghost predicate Touches<T>(s: State<T>, s': State<T>, x: nat) {
    && |s'.blocks| == |s.blocks| && x < |s.blocks|
    && s'.size == s.size && s'.chain == s.chain && s'.k == s.k && s'.blkHead == s.blkHead && s'.blkTail == s.blkTail
    && s'.blocks == s.blocks[x := s'.blocks[x]] && s'.blocks[x].next == s.blocks[x].next
    && s'.capacity == s.capacity
  }

  predicate Moves<T>(pc: Producer<T>) {
    pc.NextMove? || pc.GrowMove?
  }

  predicate Growing<T>(pc: Producer<T>) {
    pc.GrowStore? || pc.GrowPublish? || pc.GrowMove? || pc.GrowCount?
  }

  lemma TouchKeepsChain<T>(s: State<T>, s': State<T>, x: nat)
    requires ChainOk(s) && BlocksOk(s) && Touches(s, s', x) && BlockOk(s'.blocks[x], s.size)
    ensures ChainOk(s') && BlocksOk(s')
  {
    hide BlockOk;
  }

  /** ... and leaving the items of all. */
  lemma QuietTouch<T>(s: State<T>, s': State<T>, x: nat)
    requires Inv(s) && Touches(s, s', x) && BlockOk(s'.blocks[x], s.size)
    requires s'.blocks[x].taken == s.blocks[x].taken && s'.blocks[x].hist == s.blocks[x].hist
    requires s'.pushed == s.pushed && s'.popped == s.popped && Growing(s'.prod) == Growing(s.prod)
    requires Moves(s.prod) == Moves(s'.prod) && (Moves(s.prod) ==> s.prod == s'.prod)
    ensures ChainOk(s') && BlocksOk(s') && FillOk(s') && CapacityOk(s') && s'.pushed == s'.popped + Contents(s')
  {
    TouchKeepsChain(s, s', x);
    hide BlockOk, ProducerOk, ConsumerOk, BlocksOk;
    QuietContents(s, s', x);
    hide Contents, Items;
  }

  lemma QuietContents<T>(s: State<T>, s': State<T>, x: nat)
    requires ChainOk(s) && ChainOk(s') && Touches(s, s', x)
    requires s'.blocks[x].taken == s.blocks[x].taken && s'.blocks[x].hist == s.blocks[x].hist
    ensures Contents(s') == Contents(s)
  {
    assert forall i :: 0 <= i < |s.blocks| ==> Items(s'.blocks[i]) == Items(s.blocks[i]);
    hide Items;
    ContentsSame(s, s');
  }

  /** The consumer does not notice what the producer does to the tail block and behind it. */
  lemma ConsumerUnmoved<T>(s: State<T>, s': State<T>)
    requires ChainOk(s) && BlocksOk(s) && ChainOk(s') && BlocksOk(s') && ConsumerOk(s)
    requires s'.cons == s.cons && s'.sawEmpty == s.sawEmpty && s'.blkHead == s.blkHead && s.k <= s'.k
    requires s'.blocks[s.blkHead].taken == s.blocks[s.blkHead].taken
    requires s'.blocks[s.blkHead].knownPut == s.blocks[s.blkHead].knownPut
    requires s.blocks[s.blkHead].hist <= s'.blocks[s.blkHead].hist
    requires s.k > 0 ==> s'.blocks[s.blkHead].hist == s.blocks[s.blkHead].hist
    ensures ConsumerOk(s')
  {
    assert BlockOk(s.blocks[s.blkHead], s.size);
    hide BlockOk;
  }

  /** The producer does not notice what the consumer does to the head block. */
  lemma ProducerUnmoved<T>(s: State<T>, s': State<T>)
    requires ChainOk(s) && BlocksOk(s) && ChainOk(s') && BlocksOk(s') && ProducerOk(s)
    requires Touches(s, s', s.blkHead) && s'.prod == s.prod
    requires var b, b' := s.blocks[s.blkHead], s'.blocks[s.blkHead];
      b'.hist == b.hist && b'.knownTaken == b.knownTaken && b'.tail == b.tail && b'.data == b.data
    ensures ProducerOk(s')
  {
    hide BlockOk;
    assert forall n: nat :: NextFree(s, n) ==> n != s.blkHead && s'.blocks[n] == s.blocks[n];
    assert forall n: nat :: NextFree(s, n) ==> NextFree(s', n);
    hide ChainOk;
  }

  lemma LookKeeps<T>(s: State<T>)
    requires Inv(s) && InRange(s) && (s.prod.Begin? || s.prod.LoadHead? || s.prod.CheckNext?)
    ensures Inv(StepProducer(s))
  {
    var s' := StepProducer(s);
    var b := s.blocks[s.blkTail];
    assert BlockOk(b, s.size);
    RoomIsThere(b, s.size, b.knownTaken);
    RoomIsThere(b, s.size, b.taken);
    assert s.prod.CheckNext? || s.prod.Begin? ==> s'.blocks == s.blocks[s.blkTail := s.blocks[s.blkTail]];
    QuietTouch(s, s', s.blkTail);
    LookProducer(s);
    ConsumerUnmoved(s, s');
  }

  lemma LookProducer<T>(s: State<T>)
    requires BlocksOk(s) && ChainOk(s) && InRange(s) && (s.prod.Begin? || s.prod.LoadHead? || s.prod.CheckNext?)
    requires BlocksOk(StepProducer(s)) && ChainOk(StepProducer(s))
    ensures ProducerOk(StepProducer(s))
  {
    var b := s.blocks[s.blkTail];
    assert BlockOk(b, s.size);
    RoomIsThere(b, s.size, b.knownTaken);
    RoomIsThere(b, s.size, b.taken);
  }

  lemma StoreKeeps<T>(s: State<T>, v: T)
    requires Inv(s) && InRange(s) && s.prod == Store(v)
    ensures Inv(StepProducer(s))
  {
    var s' := StepProducer(s);
    var b := s.blocks[s.blkTail];
    StoreOk(b, s.size, v);
    QuietTouch(s, s', s.blkTail);
    hide BlockOk;
    hide FillOk;
  }

  lemma PublishKeeps<T>(s: State<T>, v: T)
    requires Inv(s) && InRange(s) && s.prod == Publish(v)
    ensures Inv(StepProducer(s))
  {
    PublishChain(s, v);
    hide ChainOk, BlocksOk, BlockOk, FillOk, ProducerOk, ConsumerOk, CapacityOk, Contents, Items, StepProducer;
    PublishFill(s, v);
    PublishContents(s, v);
    PublishUnnoticed(s, v);
  }

  lemma PublishChain<T>(s: State<T>, v: T)
    requires ChainOk(s) && BlocksOk(s) && ProducerOk(s) && CapacityOk(s) && InRange(s) && s.prod == Publish(v)
    ensures var s' := StepProducer(s);
      && ChainOk(s') && BlocksOk(s') && ProducerOk(s') && CapacityOk(s')
      && Items(s'.blocks[s.blkTail]) == Items(s.blocks[s.blkTail]) + [v]
  {
    var s' := StepProducer(s);
    PublishBlock(s, v);
    assert Touches(s, s', s.blkTail) by { hide ChainOk; }
    hide BlockOk, Items, ProducerOk;
    TouchKeepsChain(s, s', s.blkTail);
    assert ProducerOk(s') by { AtRest(s'); }
  }

  lemma PublishBlock<T>(s: State<T>, v: T)
    requires ChainOk(s) && BlocksOk(s) && ProducerOk(s) && InRange(s) && s.prod == Publish(v)
    ensures var b, b' := s.blocks[s.blkTail], StepProducer(s).blocks[s.blkTail];
      BlockOk(b', s.size) && Items(b') == Items(b) + [v]
  {
    hide BlockOk, Items;
    var b := s.blocks[s.blkTail];
    assert BlockOk(b, s.size) && |b.hist| + 1 <= b.knownTaken + s.size - 1 && b.data[b.tail] == Some(v);
    hide ChainOk, BlocksOk, ProducerOk;
    PublishOk(b, s.size, v);
  }

  lemma AtRest<T>(s: State<T>)
    requires ChainOk(s) && BlocksOk(s) && s.prod.Idle?
    ensures ProducerOk(s)
  {}

  lemma PublishUnnoticed<T>(s: State<T>, v: T)
    requires ChainOk(s) && BlocksOk(s) && ConsumerOk(s) && InRange(s) && s.prod == Publish(v)
    requires ChainOk(StepProducer(s)) && BlocksOk(StepProducer(s))
    ensures ConsumerOk(StepProducer(s))
  {
    hide BlockOk;
    ConsumerUnmoved(s, StepProducer(s));
  }

  lemma PublishContents<T>(s: State<T>, v: T)
    requires ChainOk(s) && InRange(s) && s.prod == Publish(v) && s.pushed == s.popped + Contents(s)
    requires var s' := StepProducer(s);
      ChainOk(s') && Items(s'.blocks[s.blkTail]) == Items(s.blocks[s.blkTail]) + [v]
    ensures var s' := StepProducer(s); s'.pushed == s'.popped + Contents(s')
  {
    hide Contents, Items;
    ContentsAppend(s, StepProducer(s), v);
    Assoc(s.popped, Contents(s), [v]);
  }

  lemma PublishFill<T>(s: State<T>, v: T)
    requires ChainOk(s) && InRange(s) && s.prod == Publish(v) && FillOk(s) && ChainOk(StepProducer(s))
    ensures FillOk(StepProducer(s))
  {
    var s' := StepProducer(s);
    assert forall i :: 0 <= i < |s.chain| && i != s.k ==> s'.blocks[s.chain[i]] == s.blocks[s.chain[i]];
    hide ChainOk;
  }

  /** The block behind the tail block is empty, so its slot at the head is free. */
  lemma NextKeeps<T>(s: State<T>)
    requires Inv(s) && InRange(s) && (s.prod.NextLoad? || s.prod.NextStore? || s.prod.GrowStore?)
    ensures Inv(StepProducer(s))
  {
    var s' := StepProducer(s);
    NextTouches(s);
    hide BlockOk, ProducerOk, ConsumerOk, FillOk, Contents, Items;
    QuietTouch(s, s', s.prod.n);
    NextSides(s);
  }

  lemma NextTouches<T>(s: State<T>)
    requires ChainOk(s) && BlocksOk(s) && FillOk(s) && ProducerOk(s) && InRange(s)
    requires s.prod.NextLoad? || s.prod.NextStore? || s.prod.GrowStore?
    ensures var n, s' := s.prod.n, StepProducer(s);
      && Touches(s, s', n) && n != s.blkHead && BlockOk(s'.blocks[n], s.size)
      && s'.blocks[n].taken == s.blocks[n].taken && s'.blocks[n].hist == s.blocks[n].hist
  {
    var n := s.prod.n;
    var b := s.blocks[n];
    assert NextFree(s, n) && n != s.blkHead && n != s.blkTail;
    assert BlockOk(b, s.size) && b.taken == |b.hist|;
    NextBlock(b, s.size, s.prod.v);
    hide BlockOk, ChainOk, BlocksOk, FillOk;
  }

  lemma NextSides<T>(s: State<T>)
    requires ChainOk(s) && BlocksOk(s) && FillOk(s) && ProducerOk(s) && ConsumerOk(s) && InRange(s)
    requires s.prod.NextLoad? || s.prod.NextStore? || s.prod.GrowStore?
    requires s.prod.n != s.blkHead && ChainOk(StepProducer(s)) && BlocksOk(StepProducer(s))
    ensures ProducerOk(StepProducer(s)) && ConsumerOk(StepProducer(s))
  {
    NextUnnoticed(s);
    NextStaysFree(s);
  }

  lemma NextStaysFree<T>(s: State<T>)
    requires ChainOk(s) && BlocksOk(s) && FillOk(s) && ProducerOk(s) && InRange(s)
    requires s.prod.NextLoad? || s.prod.NextStore? || s.prod.GrowStore?
    requires ChainOk(StepProducer(s)) && BlocksOk(StepProducer(s))
    ensures ProducerOk(StepProducer(s))
  {
    hide BlockOk;
    var n, s' := s.prod.n, StepProducer(s);
    var b := s.blocks[n];
    assert NextFree(s, n) && NextFree(s', n);
    assert BlockOk(b, s.size) && b.taken == |b.hist|;
    hide BlocksOk, FillOk, ChainOk;
    NextBlock(b, s.size, s.prod.v);
  }

  lemma NextUnnoticed<T>(s: State<T>)
    requires ChainOk(s) && BlocksOk(s) && ConsumerOk(s) && InRange(s)
    requires s.prod.NextLoad? || s.prod.NextStore? || s.prod.GrowStore?
    requires s.prod.n != s.blkHead && ChainOk(StepProducer(s)) && BlocksOk(StepProducer(s))
    ensures ConsumerOk(StepProducer(s))
  {
    hide BlockOk;
    ConsumerUnmoved(s, StepProducer(s));
  }

  lemma NextBlock<T>(b: Block<T>, size: nat, v: T)
    requires BlockOk(b, size) && b.taken == |b.hist|
    ensures b.head == b.tail < size && BlockOk(b.(cacheHead := b.head, knownTaken := b.taken), size)
    ensures BlockOk(b.(data := b.data[b.head := Some(v)]), size)
    ensures b.hist == [] ==> b.head == 0
  {
    Modular.DivMod(0, size, 0, 0);
  }

  lemma NextPublishKeeps<T>(s: State<T>)
    requires Inv(s) && InRange(s) && (s.prod.NextPublish? || s.prod.GrowPublish?)
    ensures Inv(StepProducer(s))
  {
    hide ChainOk, BlocksOk, BlockOk, FillOk, ProducerOk, ConsumerOk, CapacityOk, Contents, Items, StepProducer;
    NextPublishChain(s);
    NextPublishFill(s, StepProducer(s), s.prod.n);
    NextPublishUnnoticed(s);
    NextPublishContents(s);
  }

  lemma NextPublishChain<T>(s: State<T>)
    requires ChainOk(s) && BlocksOk(s) && FillOk(s) && ProducerOk(s) && CapacityOk(s) && InRange(s)
    requires s.prod.NextPublish? || s.prod.GrowPublish?
    ensures var s' := StepProducer(s);
      && ChainOk(s') && BlocksOk(s') && ProducerOk(s') && CapacityOk(s') && Touches(s, s', s.prod.n)
      && NextFree(s, s.prod.n) && !Moves(s.prod) && Moves(s'.prod) && s'.prod.n == s.prod.n
  {
    NextPublished(s);
    hide BlockOk, FillOk, BlocksOk, ProducerOk, Items;
    NextPublishTouches(s);
    TouchKeepsChain(s, StepProducer(s), s.prod.n);
    NextPublishMoves(s);
  }

  lemma NextPublishTouches<T>(s: State<T>)
    requires ChainOk(s) && InRange(s) && (s.prod.NextPublish? || s.prod.GrowPublish?) && NextFree(s, s.prod.n)
    ensures Touches(s, StepProducer(s), s.prod.n)
  {
    assert s.prod.n < |s.blocks|;
    hide ChainOk;
  }

  lemma NextPublishMoves<T>(s: State<T>)
    requires ChainOk(s) && CapacityOk(s) && InRange(s) && (s.prod.NextPublish? || s.prod.GrowPublish?)
    requires NextFree(s, s.prod.n)
    requires Items(StepProducer(s).blocks[s.prod.n]) == [s.prod.v]
    requires ChainOk(StepProducer(s)) && BlocksOk(StepProducer(s))
    ensures var s' := StepProducer(s);
      ProducerOk(s') && CapacityOk(s') && Moves(s'.prod) && s'.prod.n == s.prod.n
  {
    hide BlockOk, Items;
  }

  lemma NextPublishUnnoticed<T>(s: State<T>)
    requires ChainOk(s) && BlocksOk(s) && ConsumerOk(s) && InRange(s) && (s.prod.NextPublish? || s.prod.GrowPublish?)
    requires ChainOk(StepProducer(s)) && BlocksOk(StepProducer(s)) && NextFree(s, s.prod.n)
    ensures ConsumerOk(StepProducer(s))
  {
    hide BlockOk;
    assert s.prod.n != s.blkHead;
    ConsumerUnmoved(s, StepProducer(s));
  }

  lemma NextPublishContents<T>(s: State<T>)
    requires ChainOk(s) && InRange(s) && (s.prod.NextPublish? || s.prod.GrowPublish?)
    requires ChainOk(StepProducer(s)) && NextFree(s, s.prod.n) && s.pushed == s.popped + Contents(s)
    ensures var s' := StepProducer(s); s'.pushed == s'.popped + Contents(s')
  {
    hide Contents, Items;
    var s' := StepProducer(s);
    assert forall i :: 0 <= i <= s.k ==> s'.blocks[s.chain[i]] == s.blocks[s.chain[i]];
    ContentsSame(s, s');
  }

  /** The block behind the tail block now holds v, and is neither the head nor the tail block. */
  lemma NextPublished<T>(s: State<T>)
    requires ChainOk(s) && BlocksOk(s) && FillOk(s) && ProducerOk(s) && InRange(s)
    requires s.prod.NextPublish? || s.prod.GrowPublish?
    ensures var n, s' := s.prod.n, StepProducer(s);
      NextFree(s, n) && n != s.blkHead && n != s.blkTail
      && BlockOk(s'.blocks[n], s.size) && Items(s'.blocks[n]) == [s.prod.v]
  {
    hide BlockOk;
    var n, b := s.prod.n, s.blocks[s.prod.n];
    assert NextFree(s, n) && b.taken == |b.hist| && BlockOk(b, s.size);
    assert n != s.blkHead && n != s.blkTail;
    hide FillOk, BlocksOk;
    NextPublishedBlock(s);
  }

  lemma NextPublishedBlock<T>(s: State<T>)
    requires ChainOk(s) && BlocksOk(s) && ProducerOk(s) && InRange(s) && (s.prod.NextPublish? || s.prod.GrowPublish?)
    requires s.prod.n < |s.blocks| && s.blocks[s.prod.n].taken == |s.blocks[s.prod.n].hist|
    ensures var b := StepProducer(s).blocks[s.prod.n];
      BlockOk(b, s.size) && Items(b) == [s.prod.v]
  {
    hide BlockOk, Items;
    var b := s.blocks[s.prod.n];
    assert BlockOk(b, s.size);
    hide BlocksOk, ChainOk;
    FreeBlock(b, s.size);
    NextPublishBlock(b, s.size, s.prod.v);
  }

  lemma FreeBlock<T>(b: Block<T>, size: nat)
    requires BlockOk(b, size)
    ensures b.hist == [] ==> b.taken == b.knownTaken == 0 && b.head == 0
  {
    Modular.DivMod(0, size, 0, 0);
  }

  lemma NextPublishFill<T>(s: State<T>, s': State<T>, n: nat)
    requires ChainOk(s) && FillOk(s) && ChainOk(s') && Touches(s, s', n) && NextFree(s, n)
    requires !Moves(s.prod) && Moves(s'.prod) && s'.prod.n == n
    ensures FillOk(s')
  {
    assert forall i :: 0 <= i < |s.chain| && i != s.k + 1 ==> s'.blocks[s.chain[i]] == s.blocks[s.chain[i]];
    hide ChainOk;
  }

  lemma NextPublishBlock<T>(b: Block<T>, size: nat, v: T)
    requires BlockOk(b, size) && b.taken == |b.hist| && b.data[b.head] == Some(v) && b.knownTaken == b.taken
    ensures var b' := b.(tail := (b.head + 1) % size, hist := b.hist + [v]);
      BlockOk(b', size) && Items(b') == [v]
    ensures b.hist == [] ==> var b' := b.(cacheTail := 1, knownPut := 1, tail := 1, hist := [v]);
      BlockOk(b', size) && Items(b') == [v]
  {
    PublishOk(b, size, v);
    if b.hist == [] { Modular.DivMod(0, size, 0, 0); Modular.DivMod(1, size, 0, 1); }
  }

  lemma MoveKeeps<T>(s: State<T>)
    requires Inv(s) && InRange(s) && Moves(s.prod)
    ensures Inv(StepProducer(s))
  {
    hide ChainOk, BlocksOk, BlockOk, FillOk, ProducerOk, ConsumerOk, CapacityOk, Contents, Items, StepProducer;
    MoveChain(s);
    MoveFill(s);
    MoveUnnoticed(s);
    MoveContents(s);
  }

  lemma MoveChain<T>(s: State<T>)
    requires ChainOk(s) && BlocksOk(s) && ProducerOk(s) && CapacityOk(s) && InRange(s) && Moves(s.prod)
    ensures var s' := StepProducer(s); ChainOk(s') && BlocksOk(s') && ProducerOk(s') && CapacityOk(s')
  {
    hide BlockOk;
    assert NextFree(s, s.prod.n);
  }

  lemma MoveUnnoticed<T>(s: State<T>)
    requires ChainOk(s) && BlocksOk(s) && ConsumerOk(s) && InRange(s) && Moves(s.prod)
    requires ChainOk(StepProducer(s)) && BlocksOk(StepProducer(s))
    ensures ConsumerOk(StepProducer(s))
  {
    ConsumerUnmoved(s, StepProducer(s));
  }

  lemma MoveContents<T>(s: State<T>)
    requires ChainOk(s) && BlocksOk(s) && ProducerOk(s) && InRange(s) && Moves(s.prod) && s.pushed == s.popped + Contents(s)
    requires ChainOk(StepProducer(s))
    ensures var s' := StepProducer(s); s'.pushed == s'.popped + Contents(s')
  {
    hide BlockOk, Contents;
    var s' := StepProducer(s);
    assert NextFree(s, s.prod.n);
    ContentsMove(s, s');
    Assoc(s.popped, Contents(s), [s.prod.v]);
  }

  lemma MoveFill<T>(s: State<T>)
    requires ChainOk(s) && FillOk(s) && BlocksOk(s) && ProducerOk(s) && InRange(s) && Moves(s.prod)
    requires ChainOk(StepProducer(s))
    ensures FillOk(StepProducer(s))
  {
    hide BlockOk;
    assert s.prod.n == s.chain[s.k + 1];
  }

  lemma GrowKeeps<T>(s: State<T>)
    requires Inv(s) && InRange(s) && s.prod.Grow?
    ensures Inv(StepProducer(s))
  {
    hide ChainOk, BlocksOk, BlockOk, FillOk, ProducerOk, ConsumerOk, CapacityOk, Contents, Items, StepProducer;
    GrowChain(s);
    GrowBlocks(s);
    GrowFill(s);
    GrowUnnoticed(s);
    GrowContents(s);
  }

  lemma GrowUnnoticed<T>(s: State<T>)
    requires ChainOk(s) && BlocksOk(s) && ConsumerOk(s) && CapacityOk(s) && InRange(s) && s.prod.Grow?
    requires ChainOk(StepProducer(s)) && BlocksOk(StepProducer(s))
    ensures ConsumerOk(StepProducer(s)) && ProducerOk(StepProducer(s)) && CapacityOk(StepProducer(s))
  {
    hide BlockOk;
    ConsumerUnmoved(s, StepProducer(s));
    hide ConsumerOk;
    assert s.size * (|s.blocks| + 1) == s.size * |s.blocks| + s.size;
  }

  lemma GrowContents<T>(s: State<T>)
    requires ChainOk(s) && InRange(s) && s.prod.Grow? && ChainOk(StepProducer(s)) && s.pushed == s.popped + Contents(s)
    ensures var s' := StepProducer(s); s'.pushed == s'.popped + Contents(s')
  {
    hide Contents;
    var s' := StepProducer(s);
    assert s'.chain[..s.k + 1] == s.chain[..s.k + 1];
    assert forall i :: 0 <= i < |s.blocks| ==> Items(s'.blocks[i]) == Items(s.blocks[i]);
    hide Items;
    ContentsSame(s, s');
  }

  lemma GrowBlocks<T>(s: State<T>)
    requires BlocksOk(s) && InRange(s) && s.prod.Grow?
    ensures BlocksOk(StepProducer(s))
  {
    var s' := StepProducer(s);
    assert BlockOk(s.blocks[s.blkTail], s.size);
    Modular.DivMod(0, s.size, 0, 0);
    assert BlockOk(s'.blocks[|s.blocks|], s.size);
    assert BlockOk(s'.blocks[s.blkTail], s.size);
    hide BlockOk;
  }

  lemma GrowChain<T>(s: State<T>)
    requires ChainOk(s) && InRange(s) && s.prod.Grow?
    ensures ChainOk(StepProducer(s))
  {
    var s' := StepProducer(s);
    InsertDistinct(s.chain, s.k, |s.blocks|);
    assert s'.chain[0] == s.blkHead && s'.chain[s.k] == s.blkTail;
    assert |s'.blocks| == |s.blocks| + 1 && s'.blocks[|s.blocks|].next == s.blocks[s.blkTail].next;
    assert forall j :: 0 <= j < |s.blocks| && j != s.blkTail ==> s'.blocks[j].next == s.blocks[j].next;
    assert s'.blocks[s.blkTail].next == |s.blocks|;
    hide StepProducer, InRange;
    forall i | 0 <= i < |s'.chain|
      ensures s'.chain[i] < |s'.blocks|
      ensures s'.blocks[s'.chain[i]].next == s'.chain[if i + 1 < |s'.chain| then i + 1 else 0]
    {
      GrowLink(s.blocks, s'.blocks, s.chain, s.k, i);
    }
  }

  lemma InsertDistinct(chain: seq<nat>, k: nat, x: nat)
    requires k < |chain| && x !in chain
    requires forall i, j :: 0 <= i < j < |chain| ==> chain[i] != chain[j]
    ensures var chain' := chain[..k + 1] + [x] + chain[k + 1..];
      forall i, j :: 0 <= i < j < |chain'| ==> chain'[i] != chain'[j]
  {}

  lemma GrowLink<T>(blocks: seq<Block<T>>, blocks': seq<Block<T>>, chain: seq<nat>, k: nat, i: nat)
    requires k < |chain| && i <= |chain| && Within(blocks, chain)
    requires forall i, j :: 0 <= i < j < |chain| ==> chain[i] != chain[j]
    requires forall j :: 0 <= j < |chain| ==> blocks[chain[j]].next == chain[if j + 1 < |chain| then j + 1 else 0]
    requires |blocks'| == |blocks| + 1 && blocks'[|blocks|].next == blocks[chain[k]].next
    requires blocks'[chain[k]].next == |blocks|
    requires forall j :: 0 <= j < |blocks| && j != chain[k] ==> blocks'[j].next == blocks[j].next
    ensures var chain' := chain[..k + 1] + [|blocks|] + chain[k + 1..];
      chain'[i] < |blocks'| && blocks'[chain'[i]].next == chain'[if i + 1 < |chain'| then i + 1 else 0]
  {
    var chain' := chain[..k + 1] + [|blocks|] + chain[k + 1..];
    if i < k {
      assert chain'[i] == chain[i] != chain[k];
    } else if i > k + 1 {
      assert chain'[i] == chain[i - 1] != chain[k];
    } else if i == k {
      assert chain'[i] == chain[k];
    } else {
      assert chain'[i] == |blocks|;
      assert blocks[chain[k]].next == chain[if k + 1 < |chain| then k + 1 else 0];
    }
  }

  lemma GrowFill<T>(s: State<T>)
    requires ChainOk(s) && FillOk(s) && InRange(s) && s.prod.Grow? && ChainOk(StepProducer(s))
    ensures FillOk(StepProducer(s))
  {
    var s' := StepProducer(s);
    assert s'.chain == s.chain[..s.k + 1] + [|s.blocks|] + s.chain[s.k + 1..] && s'.k == s.k;
    assert s'.blocks[|s.blocks|].taken == 0 && s'.blocks[|s.blocks|].hist == [];
    assert forall i :: 0 <= i < |s.blocks| ==>
             s'.blocks[i].taken == s.blocks[i].taken && s'.blocks[i].hist == s.blocks[i].hist;
    hide StepProducer, InRange;
    GrowFillChain(s, s');
  }

  lemma GrowFillChain<T>(s: State<T>, s': State<T>)
    requires ChainOk(s) && FillOk(s) && !Moves(s.prod) && ChainOk(s')
    requires s'.chain == s.chain[..s.k + 1] + [|s.blocks|] + s.chain[s.k + 1..] && s'.k == s.k
    requires |s'.blocks| == |s.blocks| + 1 && s'.blocks[|s.blocks|].taken == |s'.blocks[|s.blocks|].hist|
    requires forall i :: 0 <= i < |s.blocks| ==>
               s'.blocks[i].taken == s.blocks[i].taken && s'.blocks[i].hist == s.blocks[i].hist
    ensures FillOk(s')
  {
    GrownAt(s.chain, s.k, |s.blocks|);
    assert forall i :: 0 <= i < |s.chain| ==> s.chain[i] < |s.blocks|;
    hide ChainOk;
    forall i | 0 < i <= s.k ensures s'.blocks[s'.chain[i]].taken < |s'.blocks[s'.chain[i]].hist| {
      assert s'.chain[i] == s.chain[i];
    }
    forall i | s.k < i < |s'.chain| ensures s'.blocks[s'.chain[i]].taken == |s'.blocks[s'.chain[i]].hist| {
      assert i > s.k + 1 ==> s'.chain[i] == s.chain[i - 1] && s.k < i - 1 < |s.chain|;
    }
  }

  /** The chain with a block inserted behind the tail block. */
  lemma GrownAt(chain: seq<nat>, k: nat, x: nat)
    requires k < |chain|
    ensures var grown := chain[..k + 1] + [x] + chain[k + 1..];
      && |grown| == |chain| + 1 && grown[k + 1] == x
      && (forall i :: 0 <= i <= k ==> grown[i] == chain[i])
      && (forall i :: k + 1 < i <= |chain| ==> grown[i] == chain[i - 1])
  {}

  lemma CountKeeps<T>(s: State<T>)
    requires Inv(s) && InRange(s) && (s.prod.GrowCount? || s.prod.Idle?)
    ensures Inv(StepProducer(s))
  {
    hide BlockOk, Flat;
    var s' := StepProducer(s);
    assert s'.blocks == s.blocks && s'.chain == s.chain && s'.k == s.k;
  }

  // ---------------------------------------------------------------------------------------------
  // Consumer steps keep the invariant
  // ---------------------------------------------------------------------------------------------

  lemma PeekKeeps<T>(s: State<T>)
    requires Inv(s) && InRange(s)
    requires s.cons.Start? || s.cons.LoadTail? || s.cons.CheckBlock? || s.cons.ReloadTail? || s.cons.NextTail?
    ensures Inv(StepConsumer(s))
  {
    var s' := StepConsumer(s);
    var b := s.blocks[s.blkHead];
    assert BlockOk(b, s.size);
    assert s.cons.Start? || s.cons.CheckBlock? ==> s'.blocks == s.blocks[s.blkHead := b];
    assert BlockOk(s'.blocks[s.blkHead], s.size);
    QuietTouch(s, s', s.blkHead);
    ProducerUnmoved(s, s');
    PeekConsumer(s);
    hide BlockOk;
  }

  lemma PeekConsumer<T>(s: State<T>)
    requires ChainOk(s) && BlocksOk(s) && ConsumerOk(s) && InRange(s)
    requires s.cons.Start? || s.cons.LoadTail? || s.cons.CheckBlock? || s.cons.ReloadTail? || s.cons.NextTail?
    requires ChainOk(StepConsumer(s)) && BlocksOk(StepConsumer(s))
    ensures ConsumerOk(StepConsumer(s))
  {
    var b := s.blocks[s.blkHead];
    assert BlockOk(b, s.size);
    ItemIsThere(b, s.size, b.knownPut);
    ItemIsThere(b, s.size, |b.hist|);
  }

  /** The block behind a head block that is not the tail block holds something. */
  lemma NextBlockKeeps<T>(s: State<T>)
    requires Inv(s) && InRange(s) && s.cons.MoveNext?
    ensures Inv(StepConsumer(s))
  {
    hide BlockOk;
    assert s.k > 0 && s.blocks[s.blkHead].taken == |s.blocks[s.blkHead].hist|;
    hide ChainOk, FillOk, ProducerOk, ConsumerOk, Contents, Items;
    RotateChain(s);
    RotateFill(s);
    RotateContents(s);
    RotateSides(s);
  }

  lemma RotateContents<T>(s: State<T>)
    requires ChainOk(s) && InRange(s) && s.cons.MoveNext? && s.k > 0 && ChainOk(StepConsumer(s))
    requires s.blocks[s.blkHead].taken == |s.blocks[s.blkHead].hist|
    ensures Contents(StepConsumer(s)) == Contents(s)
  {
    var s' := StepConsumer(s);
    assert s'.chain[..s'.k + 1] == s.chain[1..s.k + 1];
    assert s.chain[..s.k + 1] == [s.blkHead] + s.chain[1..s.k + 1];
    FlatCons(s.blocks, s.blkHead, s.chain[1..s.k + 1]);
    hide Flat, ChainOk;
  }

  lemma RotateSides<T>(s: State<T>)
    requires ChainOk(s) && BlocksOk(s) && FillOk(s) && ProducerOk(s) && ConsumerOk(s) && InRange(s) && s.cons.MoveNext?
    requires ChainOk(StepConsumer(s)) && BlocksOk(StepConsumer(s))
    ensures ProducerOk(StepConsumer(s)) && ConsumerOk(StepConsumer(s))
  {
    RotateConsumer(s);
    RotateProducer(s);
  }

  lemma RotateConsumer<T>(s: State<T>)
    requires ChainOk(s) && BlocksOk(s) && FillOk(s) && ConsumerOk(s) && InRange(s) && s.cons.MoveNext?
    requires ChainOk(StepConsumer(s)) && BlocksOk(StepConsumer(s))
    ensures ConsumerOk(StepConsumer(s))
  {
    hide BlockOk;
    assert s.blocks[s.chain[0]].next == s.chain[1];
  }

  lemma RotateProducer<T>(s: State<T>)
    requires ChainOk(s) && BlocksOk(s) && ProducerOk(s) && ConsumerOk(s) && InRange(s) && s.cons.MoveNext?
    requires ChainOk(StepConsumer(s)) && BlocksOk(StepConsumer(s))
    ensures ProducerOk(StepConsumer(s))
  {
    hide BlockOk;
    var s' := StepConsumer(s);
    assert s'.blocks == s.blocks && s'.blkTail == s.blkTail && s'.prod == s.prod;
    assert forall n: nat :: NextFree(s, n) ==> NextFree(s', n);
    hide ChainOk, NextFree;
  }

  lemma RotateChain<T>(s: State<T>)
    requires ChainOk(s) && InRange(s) && s.cons.MoveNext? && s.k > 0
    ensures ChainOk(StepConsumer(s))
  {
    var s' := StepConsumer(s);
    forall i | 0 <= i < |s'.chain|
      ensures s'.blocks[s'.chain[i]].next == s'.chain[if i + 1 < |s'.chain| then i + 1 else 0]
    {
      if i + 1 < |s.chain| { assert s'.chain[i] == s.chain[i + 1]; } else { assert s'.chain[i] == s.chain[0]; }
    }
    assert s.blocks[s.chain[0]].next == s.chain[1];
  }

  lemma RotateFill<T>(s: State<T>)
    requires ChainOk(s) && FillOk(s) && InRange(s) && s.cons.MoveNext? && s.k > 0
    requires s.blocks[s.blkHead].taken == |s.blocks[s.blkHead].hist| && ChainOk(StepConsumer(s))
    ensures FillOk(StepConsumer(s))
  {
    var s' := StepConsumer(s);
    assert forall i :: 0 <= i < |s.chain| - 1 ==> s'.chain[i] == s.chain[i + 1];
    assert s'.chain[|s.chain| - 1] == s.chain[0] == s.blkHead;
    hide ChainOk;
  }

  lemma TakeKeeps<T>(s: State<T>)
    requires Inv(s) && InRange(s) && (s.cons.Read? || s.cons.Resting?)
    ensures Inv(StepConsumer(s))
    ensures s.cons.Read? ==> StepConsumer(s).cons.Release?
  {
    TakeFinds(s);
    assert StepConsumer(s) == s.(cons := StepConsumer(s).cons);
    ConsumerOnly(s, StepConsumer(s).cons);
    hide BlockOk, ConsumerOk, ProducerOk, FillOk, Contents, ChainOk, BlocksOk, StepConsumer;
  }

  lemma ConsumerOnly<T>(s: State<T>, cons: Consumer<T>)
    requires Inv(s)
    ensures var s' := s.(cons := cons);
      && ChainOk(s') && BlocksOk(s') && FillOk(s') && ProducerOk(s') && CapacityOk(s')
      && s'.pushed == s'.popped + Contents(s')
  {
    hide BlockOk, ConsumerOk, Flat;
  }

  lemma TakeFinds<T>(s: State<T>)
    requires ChainOk(s) && BlocksOk(s) && ConsumerOk(s) && InRange(s) && (s.cons.Read? || s.cons.Resting?)
    ensures s.cons.Read? ==> StepConsumer(s).cons.Release?
    ensures ChainOk(StepConsumer(s)) && BlocksOk(StepConsumer(s)) && ConsumerOk(StepConsumer(s))
  {
    var b := s.blocks[s.blkHead];
    assert BlockOk(b, s.size);
    assert s.cons.Read? ==> b.data[b.head] == Some(b.hist[b.taken]);
    hide BlockOk;
    assert StepConsumer(s).blocks == s.blocks;
  }

  lemma ReleaseKeeps<T>(s: State<T>)
    requires Inv(s) && InRange(s) && s.cons.Release?
    ensures Inv(StepConsumer(s))
  {
    var s' := StepConsumer(s);
    ReleaseOk(s.blocks[s.blkHead], s.size);
    TouchKeepsChain(s, s', s.blkHead);
    hide BlockOk;
    ContentsTake(s, s', s.cons.v);
    Assoc(s.popped, [s.cons.v], Contents(s'));
    ProducerUnmoved(s, s');
    assert FillOk(s') by { hide ProducerOk; hide ConsumerOk; }
  }

  // ---------------------------------------------------------------------------------------------
  // Whole runs
  // ---------------------------------------------------------------------------------------------

  lemma StepKeeps<T>(s: State<T>, a: Action<T>)
    requires Inv(s)
    ensures InRange(s) && Inv(Apply(s, a))
  {
    StartsInRange(s);
    match a
    case Push(v) => BeginKeeps(s, a);
    case Pop => BeginKeeps(s, a);
    case ProducerStep => ProducerKeeps(s);
    case ConsumerStep => ConsumerKeeps(s);
  }

  lemma BeginKeeps<T>(s: State<T>, a: Action<T>)
    requires Inv(s) && InRange(s) && (a.Push? || a.Pop?)
    ensures Inv(Apply(s, a))
  {
    hide BlockOk, Flat;
    var s' := Apply(s, a);
    assert s'.blocks == s.blocks && s'.chain == s.chain && s'.k == s.k;
    BeginSides(s, a);
    hide ProducerOk, ConsumerOk;
    assert Contents(s') == Contents(s);
  }

  lemma BeginSides<T>(s: State<T>, a: Action<T>)
    requires ChainOk(s) && BlocksOk(s) && ProducerOk(s) && ConsumerOk(s) && InRange(s) && (a.Push? || a.Pop?)
    ensures ChainOk(Apply(s, a)) && BlocksOk(Apply(s, a)) && ProducerOk(Apply(s, a)) && ConsumerOk(Apply(s, a))
  {
    hide BlockOk;
  }

  lemma ProducerKeeps<T>(s: State<T>)
    requires Inv(s) && InRange(s)
    ensures Inv(StepProducer(s))
  {
    hide Inv;
    match s.prod
    case Idle => CountKeeps(s);
    case Begin(v) => LookKeeps(s);
    case LoadHead(v) => LookKeeps(s);
    case CheckNext(v) => LookKeeps(s);
    case Store(v) => StoreKeeps(s, v);
    case Publish(v) => PublishKeeps(s, v);
    case NextLoad(v, n) => NextKeeps(s);
    case NextStore(v, n, t) => NextKeeps(s);
    case NextPublish(v, n, t) => NextPublishKeeps(s);
    case NextMove(v, n) => MoveKeeps(s);
    case Grow(v) => GrowKeeps(s);
    case GrowStore(v, n) => NextKeeps(s);
    case GrowPublish(v, n) => NextPublishKeeps(s);
    case GrowMove(v, n) => MoveKeeps(s);
    case GrowCount => CountKeeps(s);
  }

  lemma ConsumerKeeps<T>(s: State<T>)
    requires Inv(s) && InRange(s)
    ensures Inv(StepConsumer(s))
  {
    hide Inv;
    match s.cons
    case Resting => TakeKeeps(s);
    case Start => PeekKeeps(s);
    case LoadTail => PeekKeeps(s);
    case CheckBlock => PeekKeeps(s);
    case ReloadTail => PeekKeeps(s);
    case MoveNext => NextBlockKeeps(s);
    case NextTail => PeekKeeps(s);
    case Read => TakeKeeps(s);
    case Release(v) => ReleaseKeeps(s);
  }

  /** A run; no reachable state is out of range (StepKeeps). */
  function Run<T>(s: State<T>, acts: seq<Action<T>>): State<T>
    decreases |acts|
  {
    if acts == [] || !InRange(s) then s else Run(Apply(s, acts[0]), acts[1..])
  }

  function Chain(n: nat): (c: seq<nat>)
    ensures |c| == n && forall i :: 0 <= i < n ==> c[i] == i
  {
    seq(n, i requires 0 <= i => i)
  }

  function EmptyBlocks<T>(size: nat, count: nat): (r: seq<Block<T>>)
    requires size >= 2
    ensures |r| == count
    ensures forall i :: 0 <= i < count ==> r[i] == NewBlock(size, if i + 1 < count then i + 1 else 0)
  {
    seq(count, i requires 0 <= i < count => NewBlock(size, if i + 1 < count then i + 1 else 0))
  }

  /** The queue made by `__init_list` (lines 308-344). */
  function Init<T>(size: nat, count: nat): State<T>
    requires size >= 2 && count >= 1
  {
    State(size, EmptyBlocks(size, count), 0, 0, size * count, Idle, Resting, Chain(count), 0, [], [], false)
  }

  lemma InitBlocks<T>(size: nat, count: nat)
    requires size >= 2 && count >= 1
    ensures BlocksOk(Init<T>(size, count)) && ChainOk(Init<T>(size, count))
  {
    Modular.DivMod(0, size, 0, 0);
    assert forall n :: BlockOk(NewBlock<T>(size, n), size);
    hide BlockOk;
  }

  lemma InitOk<T>(size: nat, count: nat)
    requires size >= 2 && count >= 1
    ensures Inv(Init<T>(size, count))
  {
    InitBlocks<T>(size, count);
    var s := Init<T>(size, count);
    hide BlockOk;
    hide Init;
    assert s.chain[..1] == [0] + [];
    FlatCons(s.blocks, 0, []);
    assert Contents(s) == [];
    InitRest<T>(size, count);
  }

  lemma InitRest<T>(size: nat, count: nat)
    requires size >= 2 && count >= 1 && ChainOk(Init<T>(size, count)) && BlocksOk(Init<T>(size, count))
    ensures var s := Init<T>(size, count);
      FillOk(s) && ProducerOk(s) && ConsumerOk(s) && CapacityOk(s) && s.pushed == s.popped == [] && s.k == 0
      && s.chain == Chain(count) && |s.blocks| == count
  {
    hide BlockOk;
    var s := Init<T>(size, count);
    assert forall i :: 0 <= i < count ==> s.blocks[s.chain[i]].hist == [] && s.blocks[s.chain[i]].taken == 0;
  }

  lemma {:induction false} RunKeeps<T>(s: State<T>, acts: seq<Action<T>>)
    requires Inv(s)
    ensures Inv(Run(s, acts))
    decreases |acts|
  {
    hide Inv;
    if acts != [] {
      StepKeeps(s, acts[0]);
      RunKeeps(Apply(s, acts[0]), acts[1..]);
    }
  }

  /** In every interleaving of the two threads, what has been popped is a prefix of what has been pushed, the
      rest lies in the blocks in order, and capacity_ counts the slots (less those of a block being linked in). */
  lemma Fifo<T>(size: nat, count: nat, acts: seq<Action<T>>)
    requires size >= 2 && count >= 1
    ensures var s := Run(Init<T>(size, count), acts);
      && ChainOk(s) && s.pushed == s.popped + Contents(s)
      && s.size * |s.blocks| == s.capacity + (if Growing(s.prod) then s.size else 0)
  {
    InitOk<T>(size, count);
    RunKeeps(Init<T>(size, count), acts);
  }

  /** Every step appends one value to the abstract queue, takes its first one, or leaves it alone. */
  lemma StepRefines<T>(s: State<T>, a: Action<T>)
    requires Inv(s)
    ensures InRange(s) && ChainOk(Apply(s, a))
    ensures var s' := Apply(s, a);
      || (s'.pushed == s.pushed && s'.popped == s.popped && Contents(s') == Contents(s))
      || (exists v :: s'.pushed == s.pushed + [v] && s'.popped == s.popped && Contents(s') == Contents(s) + [v])
      || (Contents(s) != [] && s'.pushed == s.pushed && s'.popped == s.popped + [Contents(s)[0]]
          && Contents(s') == Contents(s)[1..])
  {
    StepKeeps(s, a);
    var s' := Apply(s, a);
    HistoryStep(s, a);
    Cancel(s.pushed, s.popped, Contents(s), s'.pushed, s'.popped, Contents(s'));
  }

  lemma HistoryStep<T>(s: State<T>, a: Action<T>)
    requires InRange(s)
    ensures var s' := Apply(s, a);
      || (s'.pushed == s.pushed && s'.popped == s.popped)
      || (exists v :: s'.pushed == s.pushed + [v] && s'.popped == s.popped)
      || (exists v :: s'.pushed == s.pushed && s'.popped == s.popped + [v])
  {
    match a
    case ProducerStep => ProducerHistory(s); hide StepProducer, InRange;
    case ConsumerStep => ConsumerHistory(s); hide StepConsumer, InRange;
    case _ =>
  }

  lemma ProducerHistory<T>(s: State<T>)
    requires InRange(s)
    ensures var s' := StepProducer(s);
      s'.popped == s.popped && (s'.pushed == s.pushed || exists v :: s'.pushed == s.pushed + [v])
  {
    var s' := StepProducer(s);
    if s.prod.Publish? || s.prod.NextMove? || s.prod.GrowMove? {
      assert s'.pushed == s.pushed + [s.prod.v];
    } else {
      assert s'.pushed == s.pushed;
    }
  }

  lemma ConsumerHistory<T>(s: State<T>)
    requires InRange(s)
    ensures var s' := StepConsumer(s);
      s'.pushed == s.pushed && (s'.popped == s.popped || exists v :: s'.popped == s.popped + [v])
  {}

  lemma Cancel<T>(pushed: seq<T>, popped: seq<T>, q: seq<T>, pushed': seq<T>, popped': seq<T>, q': seq<T>)
    requires pushed == popped + q && pushed' == popped' + q'
    ensures pushed' == pushed && popped' == popped ==> q' == q
    ensures forall v :: pushed' == pushed + [v] && popped' == popped ==> q' == q + [v]
    ensures forall v :: pushed' == pushed && popped' == popped + [v] ==> q != [] && v == q[0] && q' == q[1..]
  {
    assert q == pushed[|popped|..] && q' == pushed'[|popped'|..];
  }

  /** A pop that is about to read finds the oldest value of the queue, also where it has not looked. */
  lemma ReadFinds<T>(s: State<T>)
    requires Inv(s) && s.cons.Read?
    ensures InRange(s) && Contents(s) != [] && s.blocks[s.blkHead].data[s.blocks[s.blkHead].head] == Some(Contents(s)[0])
  {
    StartsInRange(s);
    var b := s.blocks[s.blkHead];
    assert BlockOk(b, s.size) && b.taken < b.knownPut by { hide BlockOk, FillOk, ProducerOk, CapacityOk, Contents; }
    var rest := s.chain[1..s.k + 1];
    assert s.chain[..s.k + 1] == [s.blkHead] + rest;
    FlatCons(s.blocks, s.blkHead, rest);
    hide Inv, ChainOk, Flat, InRange;
    assert Items(b)[0] == b.hist[b.taken];
    assert Contents(s) == Items(b) + Flat(s.blocks, rest);
    assert b.data[b.taken % s.size] == Some(b.hist[b.taken]);
  }

  /** `sawEmpty` records whether the abstract queue was empty when the consumer loaded the tail. */
  lemma LookSeesEmptiness<T>(s: State<T>)
    requires Inv(s) && s.cons.LoadTail?
    ensures InRange(s) && (StepConsumer(s).sawEmpty <==> Contents(s) == [])
  {
    StartsInRange(s);
    var b := s.blocks[s.blkHead];
    assert BlockOk(b, s.size);
    hide BlockOk, ProducerOk, ConsumerOk;
    EmptyIff(s);
  }

  lemma EmptyIff<T>(s: State<T>)
    requires ChainOk(s) && FillOk(s)
    ensures Contents(s) == [] <==> s.k == 0 && |s.blocks[s.blkHead].hist| <= s.blocks[s.blkHead].taken
  {
    var rest := s.chain[1..s.k + 1];
    assert s.chain[..s.k + 1] == [s.blkHead] + rest;
    FlatCons(s.blocks, s.blkHead, rest);
    if s.k > 0 {
      assert rest == [s.chain[1]] + s.chain[2..s.k + 1];
      FlatCons(s.blocks, s.chain[1], s.chain[2..s.k + 1]);
      assert Items(s.blocks[s.chain[1]]) != [];
    }
  }

  /** A pop returns false only if the queue was empty at that moment within the pop. */
  lemma FalseMeansEmpty<T>(s: State<T>)
    requires Inv(s) && s.cons.CheckBlock?
    ensures InRange(s) && (StepConsumer(s).cons.Resting? ==> s.sawEmpty)
  {
    StartsInRange(s);
  }
}
