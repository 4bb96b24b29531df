/** One timer's life (src/time/timer.cpp, src/time/engine.cpp, src/service.cpp): any number of threads that start
    and stop it, the engine's observer thread, and the one worker that runs callbacks. Every atomic operation, queue
    operation and clock reading is a step of its own, in any order the threads can take them; the engine takes its own
    in the order of its loop. Of the engine's other timers there is how many wait in `new_timers_`, and the deadlines
    in `timers_`.

    An arming is a successful exchange to `started`; `armings` keeps the clock at each of them. */
module TimerProtocol {
  /** The timers one round queues at most (engine.cpp line 106), and the longest time to the next round (line 25). */
  const MAX_NEW: nat := 1024
  const INTERVAL: nat := 200_000_000

  datatype Phase = None | Stopped | Started | Pending | Finished

  /** A thread inside `engine::start_timer`. */
  datatype Starter = Idle | Checked | Loaded(phase: Phase) | Won(arming: nat)

  /** Where an entry for the timer is: in `new_timers_` behind some other timers, dequeued by line 122, in `timers_`
      since a clock reading, on the engine's list of triggered timers, or on such a list handed to the worker. */
  datatype Place =
    | Queued(ahead: nat)
    | InHand
    | Mapped(reading: nat)
    | Triggered(reading: nat)
    | Listed(reading: nat)

  predicate Timed(p: Place) { p.Mapped? || p.Triggered? || p.Listed? }

  datatype Entry = Entry(arming: nat, place: Place)

  /** What line 122 has dequeued. */
  datatype Hand = Nothing | Ours | Other

  /** Where the engine is in `__observe_thread`. */
  datatype Engine =
    | Top                                // line 98
    | Reading                            // line 109
    | Observing                          // line 113
    | Rereading(next: nat, due: bool)    // line 116; due: another timer has been triggered
    | Waiting                            // line 122
    | Woken(hand: Hand)                  // line 125
    | Handing(hand: Hand)                // line 129
    | Draining(left: nat)                // lines 136-138, with so many timers still to be dequeued
    | Posting                            // lines 144-147
    | Ended

  /** The worker inside `handle_timeout`, with the arming and reading of the entry it took. */
  datatype Worker =
    | Resting
    | Taken(arming: nat, reading: nat)
    | Claimed(arming: nat, reading: nat)
    | Allowed(arming: nat, reading: nat)
    | Rearmed(arming: nat, reading: nat, next: nat)
    | Calling(arming: nat, reading: nat)

  datatype Call = Call(arming: nat, reading: nat, at: nat)

  datatype State = State(
    repeated: bool,
    timeout: nat,
    clock: nat,
    running: bool,
    phase: Phase,
    starters: seq<Starter>,
    entries: seq<Entry>,
    engine: Engine,
    reading: nat,                        // now_time_ns
    backlog: nat,                        // other timers in new_timers_
    others: seq<nat>,                    // their deadlines in timers_
    worker: Worker,
    // History
    armings: seq<nat>,
    calls: seq<Call>)

  /** `EngineStep` with the timeout of the other timer it queues, if it queues one; `WaitOver` is the wait of line 122
      running out. */
  datatype Action =
    | Tick(ns: nat)
    | User(i: nat)
    | Stop
    | StopEngine
    | StartOther
    | EngineStep(timeout: nat)
    | WaitOver
    | Take(k: nat)
    | Work

  function Init(repeated: bool, timeout: nat, clock: nat, threads: nat): State {
    State(repeated, timeout, clock, true, None, seq(threads, _ => Idle), [], Top, clock, 0, [], Resting, [], [])
  }

  function Arm(s: State): State { s.(phase := Started, armings := s.armings + [s.clock]) }

  function Enqueue(s: State, arming: nat): State { s.(entries := s.entries + [Entry(arming, Queued(s.backlog))]) }

  /** The next step of a thread in `start_timer` (engine.cpp lines 61-74, timer.cpp lines 73-87). */
  function UserStep(s: State, i: nat): State
    requires i < |s.starters|
  {
    match s.starters[i]
    case Idle => if s.running then s.(starters := s.starters[i := Checked]) else s
    case Checked =>
      if s.phase.None? || s.phase.Finished? then s.(starters := s.starters[i := Loaded(s.phase)])
      else s.(starters := s.starters[i := Idle])
    case Loaded(phase) =>
      if s.phase == phase then Arm(s).(starters := s.starters[i := Won(|s.armings|)])
      else s.(starters := s.starters[i := Idle])
    case Won(arming) => Enqueue(s, arming).(starters := s.starters[i := Idle])
  }

  /** The worker's next step in `handle_timeout` (timer.cpp lines 59-71, engine.cpp lines 76-89). */
  function WorkStep(s: State): State {
    match s.worker
    case Resting => s
    case Taken(a, r) =>
      if s.phase.Started? then s.(phase := Pending, worker := Claimed(a, r)) else s.(worker := Resting)
    case Claimed(a, r) =>
      if s.repeated then s.(worker := if s.running then Allowed(a, r) else Resting)
      else if s.phase.Pending? then s.(phase := Finished, worker := Calling(a, r))
      else s.(worker := Resting)
    case Allowed(a, r) =>
      if s.phase.Pending? then Arm(s).(worker := Rearmed(a, r, |s.armings|)) else s.(worker := Resting)
    case Rearmed(a, r, next) => Enqueue(s, next).(worker := Calling(a, r))
    case Calling(a, r) => s.(worker := Resting, calls := s.calls + [Call(a, r, s.clock)])
  }

  function TakeStep(s: State, k: nat): State
    requires k < |s.entries| && s.entries[k].place.Listed? && s.worker.Resting?
  {
    var Entry(arming, Listed(reading)) := s.entries[k];
    s.(entries := s.entries[..k] + s.entries[k + 1..], worker := Taken(arming, reading))
  }

  // ---------------------------------------------------------------------------------------------
  // The engine
  // ---------------------------------------------------------------------------------------------

  /** What a step of the engine does to the entries: take the front one of `new_timers_` in hand, queue what is in
      hand or that front one, dequeue another timer, splice what is due, post what is triggered. */
  datatype Move = Grab | Put(now: nat) | Drain(now: nat) | Shift | Splice(now: nat) | Post

  function Moved(p: Place, m: Move, timeout: nat): Place {
    match m
    case Grab => if p == Queued(0) then InHand else p
    case Put(now) => if p.InHand? then Mapped(now) else p
    case Drain(now) => if p == Queued(0) then Mapped(now) else p
    case Shift => if p.Queued? && p.ahead > 0 then Queued(p.ahead - 1) else p
    case Splice(now) => if p.Mapped? && p.reading + timeout <= now then Triggered(p.reading) else p
    case Post => if p.Triggered? then Listed(p.reading) else p
  }

  function MoveAll(entries: seq<Entry>, m: Move, timeout: nat): (r: seq<Entry>)
    ensures |r| == |entries|
    ensures forall k :: 0 <= k < |r| ==> r[k] == entries[k].(place := Moved(entries[k].place, m, timeout))
  {
    seq(|entries|, k requires 0 <= k < |entries| => entries[k].(place := Moved(entries[k].place, m, timeout)))
  }

  predicate AtFront(entries: seq<Entry>) { exists k :: 0 <= k < |entries| && entries[k].place == Queued(0) }

  predicate AnyTriggered(entries: seq<Entry>) { exists k :: 0 <= k < |entries| && entries[k].place.Triggered? }

  function Deadlines(entries: seq<Entry>, timeout: nat): seq<nat> {
    if entries == [] then []
    else (if entries[0].place.Mapped? then [entries[0].place.reading + timeout] else []) + Deadlines(entries[1..], timeout)
  }

  function Late(deadlines: seq<nat>, now: nat): seq<nat> {
    if deadlines == [] then [] else (if deadlines[0] > now then [deadlines[0]] else []) + Late(deadlines[1..], now)
  }

  function Least(deadlines: seq<nat>, otherwise: nat): nat {
    if deadlines == [] then otherwise
    else if |deadlines| == 1 || deadlines[0] < Least(deadlines[1..], otherwise) then deadlines[0]
    else Least(deadlines[1..], otherwise)
  }

  /** Line 113 with `__observe` (lines 151-174). */
  function ObserveStep(s: State): State {
    var entries, others := MoveAll(s.entries, Splice(s.reading), s.timeout), Late(s.others, s.reading);
    s.(entries := entries, others := others,
       engine := Rereading(Least(Deadlines(entries, s.timeout) + others, s.reading + INTERVAL), others != s.others))
  }

  /** Another timer is taken from the front of `new_timers_`. */
  function Dequeued(s: State): State
    requires s.backlog > 0
  {
    s.(backlog := s.backlog - 1, entries := MoveAll(s.entries, Shift, s.timeout))
  }

  /** The engine's next step. */
  function EngineMove(s: State, timeout: nat): State {
    match s.engine
    case Top => s.(engine := if s.running then Reading else Ended)
    case Reading => s.(reading := s.clock, engine := Observing)
    case Observing => ObserveStep(s)
    case Rereading(next, due) =>
      s.(reading := s.clock,
         engine := if !due && !AnyTriggered(s.entries) && next > s.clock then Waiting else Draining(MAX_NEW))
    case Waiting =>
      if AtFront(s.entries) then s.(entries := MoveAll(s.entries, Grab, s.timeout), engine := Woken(Ours))
      else if s.backlog > 0 then Dequeued(s).(engine := Woken(Other))
      else s
    case Woken(hand) =>
      s.(reading := s.clock, engine := if hand.Nothing? then Draining(MAX_NEW) else Handing(hand))
    case Handing(hand) =>
      var s' := s.(entries := MoveAll(s.entries, Put(s.reading), s.timeout), engine := Draining(MAX_NEW - 1));
      if hand.Other? then s'.(others := s.others + [s.reading + timeout]) else s'
    case Draining(left) =>
      if left > 0 && AtFront(s.entries) then
        s.(entries := MoveAll(s.entries, Drain(s.reading), s.timeout), engine := Draining(left - 1))
      else if left > 0 && s.backlog > 0 then
        Dequeued(s).(others := s.others + [s.reading + timeout], engine := Draining(left - 1))
      else s.(engine := Posting)
    case Posting => s.(entries := MoveAll(s.entries, Post, s.timeout), engine := Top)
    case Ended => s
  }

  predicate Enabled(s: State, a: Action) {
    match a
    case User(i) => i < |s.starters|
    case WaitOver => s.engine.Waiting?
    case Take(k) => k < |s.entries| && s.entries[k].place.Listed? && s.worker.Resting?
    case _ => true
  }

  /** The state after a step; a step that nobody is ready for changes nothing. */
  function Apply(s: State, a: Action): State {
    if !Enabled(s, a) then s else
    match a
    case Tick(ns) => s.(clock := s.clock + ns)
    case User(i) => UserStep(s, i)
    case Stop => s.(phase := Stopped)
    case StopEngine => s.(running := false)
    case StartOther => s.(backlog := s.backlog + 1)
    case EngineStep(timeout) => EngineMove(s, timeout)
    case WaitOver => s.(engine := Woken(Nothing))
    case Take(k) => TakeStep(s, k)
    case Work => WorkStep(s)
  }

  function Run(s: State, schedule: seq<Action>): State
    decreases |schedule|
  {
    if schedule == [] then s else Run(Apply(s, schedule[0]), schedule[1..])
  }

  /** What stands for an arming that has not come to the worker's claim: a thread about to enqueue the timer, an
      entry anywhere, or the entry in the worker's hands. */
  datatype Holder = ByStarter(i: nat) | ByEntry(k: nat) | ByWorker

  predicate Holds(s: State, h: Holder) {
    match h
    case ByStarter(i) => i < |s.starters| && s.starters[i].Won?
    case ByEntry(k) => k < |s.entries|
    case ByWorker => s.worker.Taken? || s.worker.Rearmed?
  }

  function ArmingOf(s: State, h: Holder): nat
    requires Holds(s, h)
  {
    match h
    case ByStarter(i) => s.starters[i].arming
    case ByEntry(k) => s.entries[k].arming
    case ByWorker => if s.worker.Taken? then s.worker.arming else s.worker.next
  }

  /** A callback that has been won and will run. */
  predicate Owes(w: Worker) { w.Rearmed? || w.Calling? }

  predicate Unclaimed(w: Worker) { w.Claimed? || w.Allowed? }

  ghost predicate OneHolder(s: State) {
    && (forall g, h :: Holds(s, g) && Holds(s, h) ==> g == h)
    && (s.phase.Started? ==> exists h :: Holds(s, h))
    && (s.phase.None? || s.phase.Pending? || s.phase.Finished? || Unclaimed(s.worker) ==> forall h :: !Holds(s, h))
  }

  ghost predicate Phases(s: State) {
    && (forall i :: 0 <= i < |s.starters| && s.starters[i].Loaded? ==>
          s.starters[i].phase.None? || s.starters[i].phase.Finished?)
    && (Unclaimed(s.worker) ==> s.phase.Pending? || s.phase.Stopped?)
    && (s.phase.Pending? && s.running ==> Unclaimed(s.worker))
    && (s.worker.Allowed? || s.worker.Rearmed? ==> s.repeated)
  }

  function LastArming(s: State): int { if s.calls == [] then -1 else s.calls[|s.calls| - 1].arming }

  /** The newest arming a callback has used or will use. */
  function Spent(s: State): int { if Owes(s.worker) then s.worker.arming else LastArming(s) }

  /** Callbacks use up armings in order, and whatever is still to come uses a later one. */
  ghost predicate Armings(s: State) {
    && Spent(s) < |s.armings|
    && (forall h :: Holds(s, h) ==> ArmingOf(s, h) == |s.armings| - 1 && Spent(s) < |s.armings| - 1)
    && (Unclaimed(s.worker) ==> s.worker.arming == |s.armings| - 1)
    && (!s.worker.Resting? ==> LastArming(s) < s.worker.arming)
    && (forall c :: 0 <= c < |s.calls| - 1 ==> s.calls[c].arming < s.calls[c + 1].arming)
  }

  /** A clock reading that is at least one timeout old for the engine. */
  predicate Due(s: State, reading: nat) { reading + s.timeout <= s.reading }

  function CallFloor(s: State): int { if s.calls == [] then 0 else s.calls[|s.calls| - 1].reading + s.timeout }

  /** The least reading the next callback to be won can have been queued with. */
  function Floor(s: State): int { if Owes(s.worker) then s.worker.reading + s.timeout else CallFloor(s) }

  ghost predicate CallTimes(calls: seq<Call>, timeout: nat, clock: nat) {
    && (forall c :: 0 <= c < |calls| ==> calls[c].reading + timeout <= calls[c].at <= clock)
    && (forall c :: 0 <= c < |calls| - 1 ==> calls[c].reading + timeout <= calls[c + 1].reading)
  }

  ghost predicate EntryTimes(entries: seq<Entry>, floor: int, timeout: nat, reading: nat) {
    && (forall k :: 0 <= k < |entries| && Timed(entries[k].place) ==> floor <= entries[k].place.reading <= reading)
    && (forall k :: 0 <= k < |entries| && (entries[k].place.Triggered? || entries[k].place.Listed?) ==>
          entries[k].place.reading + timeout <= reading)
  }

  ghost predicate Times(s: State) {
    && s.reading <= s.clock && Floor(s) <= s.reading
    && EntryTimes(s.entries, Floor(s), s.timeout, s.reading)
    && (!s.worker.Resting? ==> Due(s, s.worker.reading) && CallFloor(s) <= s.worker.reading)
    && CallTimes(s.calls, s.timeout, s.clock)
  }

  /** Where the engine is when it has the entry in this place. */
  ghost predicate PlaceOk(p: Place, engine: Engine, backlog: nat) {
    match p
    case Queued(ahead) => ahead <= backlog
    case InHand => engine == Woken(Ours) || engine == Handing(Ours)
    case Triggered(reading) => engine.Rereading? || engine.Draining? || engine.Posting?
    case _ => true
  }

  ghost predicate EngineOk(s: State) {
    && (s.engine.Ended? ==> !s.running)
    && (s.engine.Draining? ==> s.engine.left <= MAX_NEW)
    && forall k :: 0 <= k < |s.entries| ==> PlaceOk(s.entries[k].place, s.engine, s.backlog)
  }

  ghost predicate Inv(s: State) { OneHolder(s) && Phases(s) && Armings(s) && Times(s) && EngineOk(s) }

  lemma InitOk(repeated: bool, timeout: nat, clock: nat, threads: nat)
    ensures Inv(Init(repeated, timeout, clock, threads))
  {
    hide Apply;
  }

  lemma AtMostOneEntry(s: State)
    requires OneHolder(s)
    ensures |s.entries| <= 1
  {
    if |s.entries| > 1 {
      assert Holds(s, ByEntry(0)) && Holds(s, ByEntry(1));
    }
  }

  lemma UserKeepsHolder(s: State, i: nat)
    requires OneHolder(s) && Phases(s) && i < |s.starters|
    ensures OneHolder(UserStep(s, i)) && Phases(UserStep(s, i))
  {
    var t := UserStep(s, i);
    if s.starters[i].Won? {
      assert Holds(s, ByStarter(i)) && Holds(t, ByEntry(|s.entries|));
      assert forall h :: Holds(t, h) ==> (Holds(s, h) && h != ByStarter(i)) || h == ByEntry(|s.entries|);
    } else if t.starters[i].Won? {
      assert Holds(t, ByStarter(i));
      assert forall h :: Holds(t, h) ==> Holds(s, h) || h == ByStarter(i);
    } else {
      assert forall h :: Holds(t, h) <==> Holds(s, h);
    }
  }

  lemma WorkKeepsHolder(s: State)
    requires OneHolder(s) && Phases(s)
    ensures OneHolder(WorkStep(s)) && Phases(WorkStep(s))
  {
    var t := WorkStep(s);
    if s.worker.Taken? {
      assert Holds(s, ByWorker);
      assert forall h :: Holds(t, h) ==> Holds(s, h) && h != ByWorker;
    } else if s.worker.Rearmed? {
      assert Holds(s, ByWorker) && Holds(t, ByEntry(|s.entries|));
      assert forall h :: Holds(t, h) ==> (Holds(s, h) && h != ByWorker) || h == ByEntry(|s.entries|);
    } else if t.worker.Rearmed? {
      assert Holds(t, ByWorker);
      assert forall h :: Holds(t, h) ==> Holds(s, h) || h == ByWorker;
    } else {
      assert forall h :: Holds(t, h) <==> Holds(s, h);
    }
  }

  lemma TakeKeepsHolder(s: State, k: nat)
    requires OneHolder(s) && Phases(s) && Enabled(s, Take(k))
    ensures OneHolder(TakeStep(s, k)) && Phases(TakeStep(s, k))
    ensures s.entries == [s.entries[k]] && TakeStep(s, k).entries == []
  {
    var t := TakeStep(s, k);
    AtMostOneEntry(s);
    assert Holds(s, ByEntry(k)) && Holds(t, ByWorker);
    assert forall h :: Holds(t, h) ==> (Holds(s, h) && h != ByEntry(k)) || h == ByWorker;
  }

  /** The engine moves entries and looks at the clock; it takes none away and leaves the rest alone. */
  ghost predicate ByEngine(s: State, t: State) {
    && t == s.(entries := t.entries, engine := t.engine, reading := t.reading, backlog := t.backlog, others := t.others)
    && |t.entries| == |s.entries| && (forall k :: 0 <= k < |s.entries| ==> t.entries[k].arming == s.entries[k].arming)
    && (t.reading == s.reading || (t.reading == s.clock && t.entries == s.entries))
  }

  lemma EngineLeaves(s: State, timeout: nat)
    ensures ByEngine(s, EngineMove(s, timeout))
  {
    hide Deadlines, Late, Least, MoveAll;
    if s.engine.Waiting? || s.engine.Draining? {
      DequeueLeaves(s, timeout);
      hide EngineMove, ByEngine;
    }
  }

  lemma DequeueLeaves(s: State, timeout: nat)
    requires s.engine.Waiting? || s.engine.Draining?
    ensures ByEngine(s, EngineMove(s, timeout))
  {
    hide MoveAll, AtFront;
  }

  lemma StepKeepsHolder(s: State, a: Action)
    requires OneHolder(s) && Phases(s)
    ensures OneHolder(Apply(s, a)) && Phases(Apply(s, a))
  {
    var t := Apply(s, a);
    if Enabled(s, a) {
      match a {
        case User(i) => UserKeepsHolder(s, i);
        case Work => WorkKeepsHolder(s);
        case Take(k) => TakeKeepsHolder(s, k);
        case EngineStep(timeout) =>
          EngineLeaves(s, timeout);
          hide EngineMove;
          assert forall h :: Holds(t, h) <==> Holds(s, h);
        case _ =>
          hide UserStep, WorkStep, TakeStep, EngineMove;
          assert forall h :: Holds(t, h) <==> Holds(s, h);
      }
    }
  }

  lemma PushKeepsArmings(s: State, i: nat)
    requires Armings(s) && i < |s.starters| && s.starters[i].Won?
    ensures Armings(UserStep(s, i))
  {
    var t := UserStep(s, i);
    assert Holds(s, ByStarter(i));
    forall h | Holds(t, h)
      ensures ArmingOf(t, h) == |t.armings| - 1 && Spent(t) < |t.armings| - 1
    {
      assert Holds(s, h) || h == ByEntry(|s.entries|);
    }
  }

  lemma ArmKeepsArmings(s: State, i: nat)
    requires OneHolder(s) && Phases(s) && Armings(s) && i < |s.starters| && !s.starters[i].Won?
    ensures Armings(UserStep(s, i))
  {
    var t := UserStep(s, i);
    if t.starters[i].Won? {
      assert (forall h :: !Holds(s, h)) && !Unclaimed(s.worker);
      assert forall h :: Holds(t, h) ==> h == ByStarter(i) || Holds(s, h);
    } else {
      SameHolders(s, t, i);
    }
  }

  lemma SameHolders(s: State, t: State, i: nat)
    requires Armings(s) && i < |s.starters| && !s.starters[i].Won?
    requires t.armings == s.armings && t.worker == s.worker && t.entries == s.entries && t.calls == s.calls
    requires |t.starters| == |s.starters| && t.starters == s.starters[i := t.starters[i]] && !t.starters[i].Won?
    ensures Armings(t)
  {
    assert forall h :: Holds(t, h) ==> Holds(s, h) && ArmingOf(s, h) == ArmingOf(t, h);
  }

  lemma WorkKeepsArmings(s: State)
    requires OneHolder(s) && Phases(s) && Armings(s)
    ensures Armings(WorkStep(s))
  {
    var t := WorkStep(s);
    if s.worker.Taken? || s.worker.Rearmed? {
      assert Holds(s, ByWorker);
      assert forall h :: Holds(t, h) ==> Holds(s, h) || h == ByEntry(|s.entries|);
    } else {
      assert forall h :: Holds(t, h) ==> Holds(s, h) || h == ByWorker;
    }
  }

  lemma TakeKeepsArmings(s: State, k: nat)
    requires OneHolder(s) && Phases(s) && Armings(s) && Enabled(s, Take(k))
    ensures Armings(TakeStep(s, k))
  {
    var t := TakeStep(s, k);
    TakeKeepsHolder(s, k);
    assert Holds(s, ByEntry(k));
    assert forall h :: Holds(t, h) ==> (Holds(s, h) && h != ByEntry(k)) || h == ByWorker;
  }

  lemma StepKeepsArmings(s: State, a: Action)
    requires Inv(s)
    ensures Armings(Apply(s, a))
  {
    hide Times, EngineOk;
    var t := Apply(s, a);
    if Enabled(s, a) {
      match a {
        case User(i) => if s.starters[i].Won? { PushKeepsArmings(s, i); } else { ArmKeepsArmings(s, i); }
        case Work => WorkKeepsArmings(s);
        case Take(k) => TakeKeepsArmings(s, k);
        case EngineStep(timeout) =>
          EngineLeaves(s, timeout);
          hide EngineMove, OneHolder, Phases;
          assert forall h :: Holds(t, h) ==> Holds(s, h) && ArmingOf(t, h) == ArmingOf(s, h);
        case _ =>
          hide UserStep, WorkStep, TakeStep, EngineMove, OneHolder, Phases;
          assert forall h :: Holds(t, h) ==> Holds(s, h) && ArmingOf(t, h) == ArmingOf(s, h);
      }
    }
  }

  lemma CallKeepsTimes(s: State)
    requires Times(s) && s.worker.Calling?
    ensures Times(WorkStep(s))
  {
    assert Floor(WorkStep(s)) == Floor(s);
    hide EntryTimes;
  }

  lemma PushKeepsTimes(s: State)
    requires Times(s) && s.worker.Rearmed? && s.entries == []
    ensures Times(WorkStep(s))
  {
    hide CallTimes;
    assert Floor(WorkStep(s)) == Floor(s);
  }

  lemma WorkKeepsTimes(s: State)
    requires Times(s) && (!s.worker.Resting? && !s.worker.Calling? ==> s.entries == [])
    ensures Times(WorkStep(s))
  {
    hide Times, WorkStep;
    if s.worker.Calling? {
      CallKeepsTimes(s);
    } else if s.worker.Rearmed? {
      PushKeepsTimes(s);
    } else {
      ClaimKeepsTimes(s);
    }
  }

  lemma ClaimKeepsTimes(s: State)
    requires Times(s) && !s.worker.Calling? && !s.worker.Rearmed? && (!s.worker.Resting? ==> s.entries == [])
    ensures Times(WorkStep(s))
  {
    var t := WorkStep(s);
    assert t == s.(phase := t.phase, worker := t.worker, armings := t.armings);
    assert !s.worker.Resting? ==> EntryTimes([], Floor(t), s.timeout, s.reading);
    hide CallTimes, EntryTimes;
    assert s.worker.Resting? ==> t == s;
    assert !t.worker.Resting? ==> t.worker.reading == s.worker.reading;
    hide WorkStep;
  }

  lemma EmptyWhileTaken(s: State)
    requires OneHolder(s)
    ensures !s.worker.Resting? && !s.worker.Calling? ==> s.entries == []
  {
    assert s.worker.Taken? || s.worker.Rearmed? ==> Holds(s, ByWorker);
    assert s.entries != [] ==> Holds(s, ByEntry(0));
  }

  lemma UserKeepsTimes(s: State, i: nat)
    requires Times(s) && i < |s.starters|
    ensures Times(UserStep(s, i))
  {
    var t := UserStep(s, i);
    assert t == s.(starters := t.starters, phase := t.phase, armings := t.armings, entries := t.entries);
    assert t.entries == s.entries || exists e: Entry :: e.place.Queued? && t.entries == s.entries + [e] by {
      if s.starters[i].Won? { assert t.entries == s.entries + [Entry(s.starters[i].arming, Queued(s.backlog))]; }
    }
    hide CallTimes, UserStep;
  }

  lemma EngineKeepsTimes(s: State, timeout: nat)
    requires Times(s)
    ensures Times(EngineMove(s, timeout))
  {
    EngineLeaves(s, timeout);
    EngineTimes(s, timeout);
    hide EngineMove, CallTimes;
  }

  /** What the engine's step is for the entries. */
  lemma EngineTimes(s: State, timeout: nat)
    ensures var t := EngineMove(s, timeout);
      t.entries == s.entries || exists m: Move :: t.entries == MoveAll(s.entries, m, s.timeout) && MoveOk(m, s.reading)
  {
    hide Deadlines, Late, Least, MoveAll;
    var t := EngineMove(s, timeout);
    if t.entries != s.entries {
      var m := match s.engine
        case Observing => Splice(s.reading)
        case Waiting => if AtFront(s.entries) then Grab else Shift
        case Handing(hand) => Put(s.reading)
        case Draining(left) => if AtFront(s.entries) then Drain(s.reading) else Shift
        case _ => Post;
      assert t.entries == MoveAll(s.entries, m, s.timeout) && MoveOk(m, s.reading);
    }
  }

  predicate MoveOk(m: Move, reading: nat) {
    match m
    case Put(now) => now == reading
    case Drain(now) => now == reading
    case Splice(now) => now == reading
    case _ => true
  }

  lemma StepKeepsTimes(s: State, a: Action)
    requires Inv(s)
    ensures Times(Apply(s, a))
  {
    hide Times, UserStep, WorkStep, TakeStep, EngineMove, Phases, Armings, EngineOk;
    match a {
      case User(i) => if Enabled(s, a) { UserKeepsTimes(s, i); }
      case Work => EmptyWhileTaken(s); WorkKeepsTimes(s);
      case Take(k) => if Enabled(s, a) { TakeKeepsTimes(s, k); }
      case EngineStep(timeout) => EngineKeepsTimes(s, timeout);
      case _ => OtherKeepsTimes(s, a);
    }
  }

  lemma OtherKeepsTimes(s: State, a: Action)
    requires Times(s) && (a.Tick? || a.Stop? || a.StopEngine? || a.StartOther? || a.WaitOver?)
    ensures Times(Apply(s, a))
  {
    hide EntryTimes;
  }

  lemma TakeKeepsTimes(s: State, k: nat)
    requires OneHolder(s) && Phases(s) && Times(s) && Enabled(s, Take(k))
    ensures Times(TakeStep(s, k))
  {
    TakeKeepsHolder(s, k);
    hide OneHolder, Phases, CallTimes;
  }

  lemma StepKeeps(s: State, a: Action)
    requires Inv(s)
    ensures Inv(Apply(s, a))
  {
    StepKeepsHolder(s, a);
    StepKeepsArmings(s, a);
    StepKeepsTimes(s, a);
    StepKeepsEngine(s, a);
  }

  lemma StepKeepsEngine(s: State, a: Action)
    requires EngineOk(s)
    ensures EngineOk(Apply(s, a))
  {
    match a {
      case User(i) => hide EngineMove, WorkStep, TakeStep;
      case EngineStep(timeout) => EngineKeepsOk(s, timeout);
      case Take(k) => hide EngineMove, WorkStep, UserStep;
      case _ => hide EngineMove, UserStep, TakeStep;
    }
    hide EngineMove;
  }

  lemma EngineKeepsOk(s: State, timeout: nat)
    requires EngineOk(s)
    ensures EngineOk(EngineMove(s, timeout))
  {
    hide Deadlines, Late, Least, MoveAll;
    if s.engine.Waiting? || s.engine.Draining? {
      DequeueKeepsOk(s, timeout);
      hide EngineMove;
    }
  }

  lemma DequeueKeepsOk(s: State, timeout: nat)
    requires EngineOk(s) && (s.engine.Waiting? || s.engine.Draining?)
    ensures EngineOk(EngineMove(s, timeout))
  {
    var t := EngineMove(s, timeout);
    EngineLeaves(s, timeout);
    forall k | 0 <= k < |t.entries| ensures PlaceOk(t.entries[k].place, t.engine, t.backlog) {
      assert PlaceOk(s.entries[k].place, s.engine, s.backlog);
    }
  }

  lemma {:induction false} RunKeeps(s: State, schedule: seq<Action>)
    requires Inv(s)
    ensures Inv(Run(s, schedule))
    decreases |schedule|
  {
    hide Inv, Apply;
    if schedule != [] {
      StepKeeps(s, schedule[0]);
      RunKeeps(Apply(s, schedule[0]), schedule[1..]);
    }
  }

  lemma {:induction false} CallsIncrease(s: State, c: nat, d: nat)
    requires Armings(s) && c <= d < |s.calls|
    ensures s.calls[c].arming + (d - c) <= s.calls[d].arming < |s.armings|
    decreases |s.calls| - c
  {
    if c < d {
      CallsIncrease(s, c + 1, d);
    } else if d + 1 < |s.calls| {
      CallsIncrease(s, d + 1, d + 1);
    }
  }

  lemma {:induction false} CallsAreSpaced(s: State, c: nat, d: nat)
    requires Times(s) && c <= d < |s.calls|
    ensures s.calls[c].reading + (d - c) * s.timeout <= s.calls[d].reading
    decreases d - c
  {
    if c < d {
      CallsAreSpaced(s, c + 1, d);
      assert (d - c) * s.timeout == (d - (c + 1)) * s.timeout + s.timeout;
    }
  }

  /** Over every run: at most one entry for the timer anywhere and at most one thread holding it; every callback
      uses an arming no other callback used; and by the engine's clock it runs a timeout after the timer was queued
      and a timeout after the callback before it, counted from the readings they were queued with. */
  lemma EveryRun(repeated: bool, timeout: nat, clock: nat, threads: nat, schedule: seq<Action>)
    ensures var s := Run(Init(repeated, timeout, clock, threads), schedule);
            && |s.entries| <= 1
            && (forall g, h :: Holds(s, g) && Holds(s, h) ==> g == h)
            && (forall c, d :: 0 <= c < d < |s.calls| ==> s.calls[c].arming < s.calls[d].arming < |s.armings|)
            && (forall c :: 0 <= c < |s.calls| ==> s.calls[c].reading + s.timeout <= s.calls[c].at)
            && (forall c, d :: 0 <= c < d < |s.calls| ==>
                  s.calls[c].reading + (d - c) * s.timeout <= s.calls[d].reading)
  {
    InitOk(repeated, timeout, clock, threads);
    RunKeeps(Init(repeated, timeout, clock, threads), schedule);
    var s := Run(Init(repeated, timeout, clock, threads), schedule);
    AtMostOneEntry(s);
    forall c, d | 0 <= c < d < |s.calls|
      ensures s.calls[c].arming < s.calls[d].arming < |s.armings|
      ensures s.calls[c].reading + (d - c) * s.timeout <= s.calls[d].reading
    {
      CallsIncrease(s, c, d);
      CallsAreSpaced(s, c, d);
    }
  }

  lemma StepAfterStop(s: State, a: Action)
    requires s.phase.Stopped? && Phases(s)
    ensures var t := Apply(s, a);
            && t.phase.Stopped? && t.armings == s.armings && s.calls <= t.calls
            && |t.calls| + (if Owes(t.worker) then 1 else 0) == |s.calls| + (if Owes(s.worker) then 1 else 0)
  {
    if a.EngineStep? { EngineLeaves(s, a.timeout); }
    hide EngineMove;
  }

  /** `stop` is final: no later start succeeds, and a callback still runs only if it was won before, and then once. */
  lemma {:induction false} AfterStop(s: State, schedule: seq<Action>)
    requires Inv(s) && s.phase.Stopped?
    ensures var t := Run(s, schedule);
            && t.phase.Stopped? && t.armings == s.armings && s.calls <= t.calls
            && |t.calls| + (if Owes(t.worker) then 1 else 0) == |s.calls| + (if Owes(s.worker) then 1 else 0)
    decreases |schedule|
  {
    if schedule != [] {
      StepAfterStop(s, schedule[0]);
      StepKeeps(s, schedule[0]);
      hide Inv, Apply;
      AfterStop(Apply(s, schedule[0]), schedule[1..]);
    }
  }
}
