/** The timers the engine watches (src/time/engine.cpp lines 151-178): lists of timers by deadline, of which a pass
    hands out all that are due. A timer is known here by the number of the call that queued it. */
module DeadlineMap {
  type Timers = map<nat, seq<nat>>

  predicate IsLeast(m: Timers, k: nat) { k in m && forall j :: j in m ==> k <= j }

  lemma {:induction false} LeastExists(m: Timers)
    requires m != map[]
    ensures exists k: nat :: IsLeast(m, k)
    decreases |m|
  {
    assert exists j :: j in m;
    var k: nat :| k in m;
    var rest := m - {k};
    if rest == map[] {
      assert forall j :: j in m && j != k ==> j in rest;
      assert IsLeast(m, k);
    } else {
      LeastExists(rest);
      var l: nat :| IsLeast(rest, l);
      assert forall j :: j in m ==> j == k || j in rest;
      assert IsLeast(m, if k < l then k else l);
    }
  }

  ghost function Least(m: Timers): (k: nat)
    requires m != map[]
    ensures IsLeast(m, k)
  {
    LeastExists(m);
    var k: nat :| IsLeast(m, k);
    k
  }

  /** The lists that are due, one after the other. */
  ghost function Drained(m: Timers, now: nat): seq<nat>
    decreases |m|
  {
    if m == map[] || now < Least(m) then [] else m[Least(m)] + Drained(m - {Least(m)}, now)
  }

  function After(m: Timers, now: nat): Timers { map k | k in m && now < k :: m[k] }

  function Queue(m: Timers, deadline: nat, timer: nat): Timers {
    m[deadline := (if deadline in m then m[deadline] else []) + [timer]]
  }

  datatype Event = Queued(deadline: nat) | Observed(now: nat)

  /** The map after these calls, and what the j-th of them handed out. */
  function MapAfter(es: seq<Event>): Timers {
    if es == [] then map[] else
    var n := |es| - 1;
    var m := MapAfter(es[..n]);
    match es[n]
    case Queued(deadline) => Queue(m, deadline, n)
    case Observed(now) => After(m, now)
  }

  ghost function HandedOut(es: seq<Event>, j: nat): seq<nat>
    requires j < |es| && es[j].Observed?
  {
    Drained(MapAfter(es[..j]), es[j].now)
  }

  class Engine {
    var timers: Timers
    ghost var events: seq<Event>

    ghost predicate Valid()
      reads this
    {
      timers == MapAfter(events)
    }

    constructor ()
      ensures Valid() && events == []
    {
      timers, events := map[], [];
    }

    /** `__queue_timer`. */
    method QueueTimer(timer: nat, timeout: nat, now: nat)
      requires Valid() && timer == |events|
      modifies this
      ensures Valid() && events == old(events) + [Queued(timeout + now)]
    {
      var deadline := timeout + now;
      events := events + [Queued(deadline)];
      Extend(old(events), Queued(deadline));
      hide MapAfter;
      if deadline !in timers { timers := timers[deadline := []]; }
      timers := timers[deadline := timers[deadline] + [timer]];
    }

    /** The first key of an ordered map. */
    static method Begin(m: Timers) returns (k: nat)
      requires m != map[]
      ensures IsLeast(m, k)
    {
      var keys := m.Keys;
      assert exists j :: j in m;
      k :| k in keys;
      keys := keys - {k};
      while keys != {}
        invariant keys <= m.Keys && k in m && forall j :: j in m && j !in keys ==> k <= j
        decreases keys
      {
        var j: nat :| j in keys;
        if j < k { k := j; }
        keys := keys - {j};
      }
    }

    /** Lines 156-173. */
    static method Splice(m: Timers, triggered: seq<nat>, next: nat, now: nat)
      returns (triggered': seq<nat>, next': nat, rest: Timers)
      ensures rest == After(m, now) && triggered' == triggered + Drained(m, now)
      ensures if rest == map[] then next' == next else IsLeast(rest, next')
    {
      triggered', next', rest := triggered, next, m;
      if rest != map[] {
        var pos: nat := Begin(rest);
        while rest != map[] && pos <= now
          invariant rest != map[] ==> IsLeast(rest, pos)
          invariant After(rest, now) == After(m, now)
          invariant triggered' + Drained(rest, now) == triggered + Drained(m, now)
          decreases |rest|
        {
          Pass(rest, pos, now);
          hide Drained, After;
          triggered' := triggered' + rest[pos];
          rest := rest - {pos};
          if rest != map[] { pos := Begin(rest); }
        }
        if rest != map[] { next' := pos; }
        NothingDue(rest, pos, now);
      }
    }

    /** `__observe`: takes every list that is due, and sets the next wake-up to the first deadline left, if any. */
    method Observe(triggered: seq<nat>, next: nat, now: nat) returns (triggered': seq<nat>, next': nat)
      requires Valid()
      modifies this
      ensures Valid() && events == old(events) + [Observed(now)]
      ensures triggered' == triggered + HandedOut(events, |events| - 1)
      ensures if timers == map[] then next' == next else IsLeast(timers, next')
    {
      events := events + [Observed(now)];
      Extend(old(events), Observed(now));
      hide MapAfter;
      triggered', next', timers := Splice(timers, triggered, next, now);
    }
  }

  lemma Pass(m: Timers, k: nat, now: nat)
    requires IsLeast(m, k) && k <= now
    ensures Drained(m, now) == m[k] + Drained(m - {k}, now)
    ensures After(m - {k}, now) == After(m, now) && |m - {k}| < |m|
  {
    assert k == Least(m);
    assert (m - {k}).Keys == m.Keys - {k};
  }

  lemma NothingDue(m: Timers, k: nat, now: nat)
    requires m != map[] ==> IsLeast(m, k) && now < k
    ensures Drained(m, now) == [] && After(m, now) == m
  {
    if m != map[] {
      assert k == Least(m);
    }
  }

  /** The timer of call i has been queued, and no pass since has found it due. */
  ghost predicate Waiting(es: seq<Event>, i: nat) {
    && i < |es| && es[i].Queued?
    && forall j :: i < j < |es| && es[j].Observed? ==> es[j].now < es[i].deadline
  }

  ghost predicate Increasing(s: seq<nat>) { forall a, b :: 0 <= a < b < |s| ==> s[a] < s[b] }

  /** A map holds the waiting timers and no others, each in the list of its deadline, in the order of queueing. */
  ghost predicate Holds(m: Timers, es: seq<Event>) {
    && (forall k: nat :: k in m ==> Increasing(m[k]) && m[k] != [])
    && (forall k: nat, i: nat :: k in m && i in m[k] ==> Waiting(es, i) && es[i].deadline == k)
    && (forall i: nat :: Waiting(es, i) ==> es[i].deadline in m && i in m[es[i].deadline])
  }

  lemma WaitingExtends(es: seq<Event>, e: Event, i: nat)
    ensures Waiting(es + [e], i) <==>
            if i == |es| then e.Queued? else Waiting(es, i) && (e.Observed? ==> e.now < es[i].deadline)
  {
    var es' := es + [e];
    if i < |es| {
      assert es'[|es|] == e && forall j :: 0 <= j < |es| ==> es'[j] == es[j];
      if Waiting(es', i) {
        forall j | i < j < |es| && es[j].Observed? ensures es[j].now < es[i].deadline { assert es'[j] == es[j]; }
      }
    }
  }

  lemma QueueHolds(m: Timers, es: seq<Event>, deadline: nat)
    requires Holds(m, es)
    ensures Holds(Queue(m, deadline, |es|), es + [Queued(deadline)])
  {
    var es', m' := es + [Queued(deadline)], Queue(m, deadline, |es|);
    forall i: nat ensures Waiting(es', i) <==> Waiting(es, i) || i == |es| { WaitingExtends(es, Queued(deadline), i); }
    assert forall i: nat :: Waiting(es, i) ==> i < |es|;
    assert forall i: nat :: Waiting(es', i) ==> es'[i] == if i < |es| then es[i] else Queued(deadline);
    hide Waiting;
    var list := if deadline in m then m[deadline] else [];
    assert m'[deadline] == list + [|es|];
    assert Increasing(list + [|es|]) by {
      forall a | 0 <= a < |list| ensures list[a] < |es| { assert list[a] in list && Waiting(es, list[a]); }
      assert Increasing(list);
    }
    forall k: nat | k in m' ensures Increasing(m'[k]) && m'[k] != [] {
      if k != deadline { assert m'[k] == m[k]; }
    }
    forall k: nat, i: nat | k in m' && i in m'[k] ensures Waiting(es', i) && es'[i].deadline == k {
      if i < |es| || k != deadline { assert i in m[k] && Waiting(es, i); }
    }
    forall i: nat | Waiting(es', i) ensures es'[i].deadline in m' && i in m'[es'[i].deadline] {
      if i < |es| { assert i in m[es[i].deadline]; }
    }
  }

  lemma ObserveHolds(m: Timers, es: seq<Event>, now: nat)
    requires Holds(m, es)
    ensures Holds(After(m, now), es + [Observed(now)])
  {
    var es' := es + [Observed(now)];
    forall i: nat
      ensures Waiting(es', i) <==> Waiting(es, i) && now < es[i].deadline
    {
      WaitingExtends(es, Observed(now), i);
    }
    assert forall i: nat :: Waiting(es, i) ==> i < |es| && es'[i] == es[i];
    hide Waiting;
  }

  lemma {:induction false} MapHoldsWaiting(es: seq<Event>)
    ensures Holds(MapAfter(es), es)
  {
    if es != [] {
      var was := es[..|es| - 1];
      MapHoldsWaiting(was);
      assert es == was + [es[|es| - 1]];
      match es[|es| - 1] {
        case Queued(deadline) => QueueHolds(MapAfter(was), was, deadline);
        case Observed(now) => ObserveHolds(MapAfter(was), was, now);
      }
    }
  }

  lemma Extend(es: seq<Event>, e: Event)
    ensures (es + [e])[..|es|] == es
    ensures e.Queued? ==> MapAfter(es + [e]) == Queue(MapAfter(es), e.deadline, |es|)
    ensures e.Observed? ==> MapAfter(es + [e]) == After(MapAfter(es), e.now)
  {
    assert (es + [e])[..|es|] == es;
  }

  /** Handed out by deadline, and among equal deadlines in the order of queueing. */
  ghost predicate Sorted(es: seq<Event>, s: seq<nat>) {
    && (forall a :: 0 <= a < |s| ==> s[a] < |es| && es[s[a]].Queued?)
    && (forall a, b :: 0 <= a < b < |s| ==>
          es[s[a]].deadline < es[s[b]].deadline || (es[s[a]].deadline == es[s[b]].deadline && s[a] < s[b]))
  }

  predicate QueuedFor(es: seq<Event>, i: nat, k: nat) { i < |es| && es[i].Queued? && es[i].deadline == k }

  /** The list of a deadline. */
  ghost predicate Files(es: seq<Event>, list: seq<nat>, k: nat) {
    Increasing(list) && forall a :: 0 <= a < |list| ==> QueuedFor(es, list[a], k)
  }

  ghost predicate Filed(m: Timers, es: seq<Event>) {
    forall k: nat :: k in m ==> Files(es, m[k], k)
  }

  ghost predicate DueIn(m: Timers, now: nat, i: nat) { exists k: nat :: k in m && k <= now && i in m[k] }

  lemma {:induction false} DrainedIsDue(m: Timers, now: nat, i: nat)
    ensures i in Drained(m, now) <==> DueIn(m, now, i)
    decreases |m|
  {
    if m != map[] && Least(m) <= now {
      var k := Least(m);
      var rest := m - {k};
      DrainedIsDue(rest, now, i);
      assert forall j: nat :: j in m <==> j in rest || j == k;
      assert i in Drained(m, now) <==> i in m[k] || i in Drained(rest, now);
    }
  }

  lemma FiledLess(m: Timers, es: seq<Event>, k: nat)
    requires Filed(m, es)
    ensures Filed(m - {k}, es)
  {
    var rest: Timers := m - {k};
    forall j: nat | j in rest ensures Files(es, rest[j], j) {
      assert j in m && rest[j] == m[j];
    }
  }

  lemma LaterLists(m: Timers, es: seq<Event>, now: nat, k: nat, i: nat)
    requires Filed(m, es) && IsLeast(m, k) && i in Drained(m - {k}, now)
    ensures i < |es| && es[i].Queued? && k < es[i].deadline
  {
    var rest: Timers := m - {k};
    DrainedIsDue(rest, now, i);
    var j: nat :| j in rest && j <= now && i in rest[j];
    assert j in m && j != k && Files(es, m[j], j) && rest[j] == m[j];
    var a :| 0 <= a < |m[j]| && m[j][a] == i;
    assert QueuedFor(es, m[j][a], j);
  }

  lemma {:induction false} DrainedIsSorted(m: Timers, es: seq<Event>, now: nat)
    requires Filed(m, es)
    ensures Sorted(es, Drained(m, now))
    decreases |m|
  {
    if m != map[] && Least(m) <= now {
      var k := Least(m);
      var rest := m - {k};
      FiledLess(m, es, k);
      DrainedIsSorted(rest, es, now);
      var later := Drained(rest, now);
      forall a | 0 <= a < |later| ensures k < es[later[a]].deadline {
        LaterLists(m, es, now, k, later[a]);
      }
      assert Drained(m, now) == m[k] + later && Files(es, m[k], k);
      hide Drained, Filed, IsLeast;
      JoinSorted(es, m[k], later, k);
    }
  }

  lemma JoinSorted(es: seq<Event>, list: seq<nat>, later: seq<nat>, k: nat)
    requires Files(es, list, k) && Sorted(es, later)
    requires forall a :: 0 <= a < |later| ==> k < es[later[a]].deadline
    ensures Sorted(es, list + later)
  {
    var s := list + later;
    forall a | 0 <= a < |s| ensures s[a] == if a < |list| then list[a] else later[a - |list|] {}
    forall a | 0 <= a < |list| ensures list[a] < |es| && es[list[a]].Queued? && es[list[a]].deadline == k {
      assert QueuedFor(es, list[a], k);
    }
  }

  /** Over any run of queueing and observing, a timer is handed out by exactly one pass: the first one behind its
      queueing whose clock reading has reached its deadline. */
  lemma HandedOutOnce(es: seq<Event>, i: nat, j: nat)
    requires j < |es| && es[j].Observed?
    ensures i in HandedOut(es, j) <==>
            i < j && es[i].Queued? && es[i].deadline <= es[j].now
            && forall k :: i < k < j && es[k].Observed? ==> es[k].now < es[i].deadline
    ensures Sorted(es, HandedOut(es, j))
  {
    var before := es[..j];
    var m := MapAfter(before);
    MapHoldsWaiting(before);
    DrainedIsDue(m, es[j].now, i);
    hide MapAfter;
    assert Waiting(before, i) <==>
           i < j && es[i].Queued? && forall k :: i < k < j && es[k].Observed? ==> es[k].now < es[i].deadline;
    assert forall i: nat :: Waiting(before, i) ==> i < j && es[i] == before[i] && es[i].Queued?;
    hide Waiting;
    forall k: nat | k in m ensures Files(es, m[k], k) {
      forall a | 0 <= a < |m[k]| ensures QueuedFor(es, m[k][a], k) {
        assert m[k][a] in m[k] && Waiting(before, m[k][a]);
      }
    }
    DrainedIsSorted(m, es, es[j].now);
  }

  /** The first deadline left is the least among the timers still waiting. */
  lemma NextWakeUp(es: seq<Event>, k: nat)
    ensures IsLeast(MapAfter(es), k) <==>
            && (exists i: nat :: Waiting(es, i) && es[i].deadline == k)
            && forall i: nat :: Waiting(es, i) ==> k <= es[i].deadline
  {
    var m := MapAfter(es);
    MapHoldsWaiting(es);
    hide MapAfter;
    if k in m {
      assert m[k][0] in m[k];
      assert Waiting(es, m[k][0]);
    }
    forall l: nat | l in m ensures Waiting(es, m[l][0]) && es[m[l][0]].deadline == l { assert m[l][0] in m[l]; }
  }
}
