/** Starts and repetitions of TimerProtocol: what `start_timer` and `handle_timeout` do when nobody disturbs them, how
    often a timer of each kind is armed, and that a repeated timer goes on for as long as nobody stops it. */
module TimerRepeat {
  import opened TimerProtocol
  import opened TimerEarly

  // ---------------------------------------------------------------------------------------------
  // One operation, undisturbed
  // ---------------------------------------------------------------------------------------------

  /** A start takes a timer that is neither armed nor stopped, whether it has never been started or has finished; the
      timer is then armed and queued. Any other start, and one after the engine has stopped, changes nothing. */
  lemma StartAlone(s: State, i: nat)
    requires i < |s.starters| && s.starters[i].Idle?
    ensures s.running && (s.phase.None? || s.phase.Finished?) ==>
              Run(s, [User(i), User(i), User(i), User(i)]) ==
              s.(phase := Started, armings := s.armings + [s.clock],
                 entries := s.entries + [Entry(|s.armings|, Queued(s.backlog))])
    ensures s.running && !s.phase.None? && !s.phase.Finished? ==> Run(s, [User(i), User(i)]) == s
    ensures !s.running ==> Apply(s, User(i)) == s
  {
    var step := User(i);
    var s1 := Apply(s, step);
    if s.running {
      assert s1 == s.(starters := s.starters[i := Checked]);
      var s2 := Apply(s1, step);
      RunTwo(s, step, s1, s2);
      if s.phase.None? || s.phase.Finished? {
        assert s2 == s.(starters := s.starters[i := Loaded(s.phase)]);
        var s3 := Apply(s2, step);
        assert s3 == Arm(s).(starters := s.starters[i := TimerProtocol.Won(|s.armings|)]);
        var s4 := Apply(s3, step);
        assert s4 == Enqueue(Arm(s), |s.armings|).(starters := s.starters[i := Idle]);
        assert s.starters[i := Idle] == s.starters;
        RunTwo(s2, step, s3, s4);
        RunAppend(s, [step, step], [step, step]);
        assert [step, step] + [step, step] == [step, step, step, step];
      } else {
        assert s2.starters == s.starters;
      }
    }
  }

  lemma RunTwo(s: State, a: Action, s1: State, s2: State)
    requires s1 == Apply(s, a) && s2 == Apply(s1, a)
    ensures Run(s, [a, a]) == s2
  {
    hide Apply;
    assert [a, a][1..] == [a] && [a][1..] == [];
    assert Run(s1, [a]) == Run(s2, []);
  }

  lemma {:induction false} RunAppend(s: State, a: seq<Action>, b: seq<Action>)
    ensures Run(s, a + b) == Run(Run(s, a), b)
    decreases |a|
  {
    hide Apply;
    if a == [] {
      assert a + b == b;
    } else {
      assert (a + b)[1..] == a[1..] + b;
      RunAppend(Apply(s, a[0]), a[1..], b);
    }
  }

  function Works(n: nat): (r: seq<Action>)
    ensures |r| == n
  {
    seq(n, _ => Work)
  }

  lemma WorksRun(s: State, n: nat)
    requires n > 0
    ensures Run(s, Works(n)) == Run(WorkStep(s), Works(n - 1))
  {
    assert Works(n)[1..] == Works(n - 1);
    hide WorkStep;
  }

  /** What an expired entry leads to. A timer that is no longer armed is left alone. One that is armed gets its
      callback: a one-shot timer is then finished; a repeated one has been armed and queued again before, or has got no
      callback if the engine has stopped. */
  lemma TimeoutAlone(s: State)
    requires s.worker.Taken?
    ensures var called := s.calls + [Call(s.worker.arming, s.worker.reading, s.clock)];
      if !s.phase.Started? then Run(s, Works(1)) == s.(worker := Resting)
      else if !s.repeated then Run(s, Works(3)) == s.(phase := Finished, calls := called, worker := Resting)
      else if s.running then
        Run(s, Works(5)) ==
        s.(armings := s.armings + [s.clock], entries := s.entries + [Entry(|s.armings|, Queued(s.backlog))],
           calls := called, worker := Resting)
      else Run(s, Works(2)) == s.(phase := Pending, worker := Resting)
  {
    WorksRun(s, 1);
    var s1 := WorkStep(s);
    if s.phase.Started? {
      var s2 := WorkStep(s1);
      WorksRun(s, 2); WorksRun(s1, 1);
      if !s.repeated {
        WorksRun(s, 3); WorksRun(s1, 2); WorksRun(s2, 1);
      } else if s.running {
        var s3 := WorkStep(s2);
        var s4 := WorkStep(s3);
        WorksRun(s, 5); WorksRun(s1, 4); WorksRun(s2, 3); WorksRun(s3, 2); WorksRun(s4, 1);
        assert s4.worker == Calling(s.worker.arming, s.worker.reading);
      }
    }
    hide Apply;
  }

  // ---------------------------------------------------------------------------------------------
  // How often a timer is armed
  // ---------------------------------------------------------------------------------------------

  /** A timer that has been armed never looks unstarted again, and only a one-shot timer finishes. */
  ghost predicate Rounds(s: State) {
    && (s.armings != [] ==> !s.phase.None?)
    && (s.phase.Finished? ==> !s.repeated)
    && (forall i :: 0 <= i < |s.starters| && s.starters[i] == Loaded(Finished) ==> !s.repeated)
  }

  /** How many starts this step makes succeed: it is the winning exchange of a start, or it is not. */
  function Wins(s: State, a: Action): nat {
    if a.User? && a.i < |s.starters| && s.starters[a.i].Loaded? && s.starters[a.i].phase == s.phase then 1 else 0
  }

  /** How many starts succeed in the run. */
  function Starts(s: State, schedule: seq<Action>): nat
    decreases |schedule|
  {
    if schedule == [] then 0 else Wins(s, schedule[0]) + Starts(Apply(s, schedule[0]), schedule[1..])
  }

  ghost predicate RoundsOn(s: State, a: Action) {
    var t := Apply(s, a);
    && Rounds(t) && t.repeated == s.repeated && s.armings <= t.armings
    && (s.repeated ==> Wins(s, a) == if s.armings == [] && t.armings != [] then 1 else 0)
    && (!s.repeated ==> |t.armings| == |s.armings| + Wins(s, a))
  }

  lemma StepRounds(s: State, a: Action)
    requires Rounds(s) && Phases(s) && (Unclaimed(s.worker) ==> s.armings != [])
    ensures RoundsOn(s, a)
  {
    match a {
      case User(i) => if Enabled(s, a) { UserRounds(s, i); }
      case Work => hide UserStep, EngineMove;
      case EngineStep(timeout) =>
        EngineLeaves(s, timeout);
        hide EngineMove, UserStep, WorkStep;
      case _ => hide UserStep, WorkStep, EngineMove;
    }
    hide RoundsOn;
  }

  lemma UserRounds(s: State, i: nat)
    requires Rounds(s) && Phases(s) && i < |s.starters|
    ensures RoundsOn(s, User(i))
  {
    if s.starters[i].Loaded? && s.starters[i].phase == s.phase {
      assert s.repeated ==> s.phase.None?;
      assert Apply(s, User(i)).armings == s.armings + [s.clock];
    } else {
      assert Apply(s, User(i)).armings == s.armings;
    }
    hide WorkStep, EngineMove;
  }

  lemma {:induction false} RunRounds(s: State, schedule: seq<Action>)
    requires Rounds(s) && Inv(s)
    ensures var t := Run(s, schedule);
      && Rounds(t) && Inv(t) && t.repeated == s.repeated && s.armings <= t.armings
      && (s.repeated ==> Starts(s, schedule) == if s.armings == [] && t.armings != [] then 1 else 0)
      && (!s.repeated ==> |t.armings| == |s.armings| + Starts(s, schedule))
    decreases |schedule|
  {
    if schedule != [] {
      StepKeeps(s, schedule[0]);
      StepRounds(s, schedule[0]);
      assert RoundsOn(s, schedule[0]);
      hide Apply, Inv, Rounds, Wins;
      RunRounds(Apply(s, schedule[0]), schedule[1..]);
    }
  }

  /** Over every run: there are at most as many callbacks as armings; a one-shot timer is armed by successful starts
      alone; of the starts of a repeated timer one at most succeeds. */
  lemma CallsPerStart(repeated: bool, timeout: nat, clock: nat, threads: nat, schedule: seq<Action>)
    ensures var s0 := Init(repeated, timeout, clock, threads);
      var s, starts := Run(s0, schedule), Starts(s0, schedule);
      && |s.calls| <= |s.armings|
      && (!repeated ==> |s.calls| <= |s.armings| == starts)
      && (repeated ==> starts == if s.armings == [] then 0 else 1)
  {
    var s0 := Init(repeated, timeout, clock, threads);
    InitOk(repeated, timeout, clock, threads);
    RunRounds(s0, schedule);
    var s := Run(s0, schedule);
    if s.calls != [] { CallsIncrease(s, 0, |s.calls| - 1); }
    hide Run, Inv;
  }

  // ---------------------------------------------------------------------------------------------
  // Repetition
  // ---------------------------------------------------------------------------------------------

  /** A repeated timer that has been started, under a running engine, and not been stopped. */
  ghost predicate Live(s: State) {
    Inv(s) && Rounds(s) && s.repeated && s.running && s.armings != [] && !s.phase.Stopped?
  }

  /** It is armed, and something stands for the arming; or the worker has claimed its newest arming and has yet to arm
      it again. */
  ghost predicate GoesOn(s: State) {
    || (s.phase.Started? && exists h :: Holds(s, h) && ArmingOf(s, h) == |s.armings| - 1)
    || (s.phase.Pending? && Unclaimed(s.worker) && s.worker.arming == |s.armings| - 1)
  }

  lemma LiveGoesOn(s: State)
    requires Live(s)
    ensures GoesOn(s)
  {
    if s.phase.Started? {
      var h :| Holds(s, h);
      assert ArmingOf(s, h) == |s.armings| - 1;
    }
  }

  lemma LiveInit(timeout: nat, clock: nat, threads: nat, schedule: seq<Action>)
    ensures var s := Run(Init(true, timeout, clock, threads), schedule);
      s.running && s.armings != [] && !s.phase.Stopped? ==> Live(s)
  {
    InitOk(true, timeout, clock, threads);
    RunRounds(Init(true, timeout, clock, threads), schedule);
    hide Run, Inv;
  }

  /** Over every run in which the engine is not stopped: a repeated timer that has been started and not stopped is never
      forgotten, and never finished. */
  lemma NeverForgotten(timeout: nat, clock: nat, threads: nat, schedule: seq<Action>)
    ensures var s := Run(Init(true, timeout, clock, threads), schedule);
      && !s.phase.Finished?
      && (s.running && s.armings != [] && !s.phase.Stopped? ==> GoesOn(s))
  {
    InitOk(true, timeout, clock, threads);
    RunRounds(Init(true, timeout, clock, threads), schedule);
    var s := Run(Init(true, timeout, clock, threads), schedule);
    LiveInit(timeout, clock, threads, schedule);
    if Live(s) { LiveGoesOn(s); }
    hide Run, Inv, GoesOn;
  }

  lemma StepLive(s: State, a: Action)
    requires Live(s) && !a.Stop? && !a.StopEngine?
    ensures Live(Apply(s, a)) && s.calls <= Apply(s, a).calls && Apply(s, a).timeout == s.timeout
  {
    StepKeeps(s, a);
    StepRounds(s, a);
    if a.EngineStep? { EngineLeaves(s, a.timeout); }
    hide EngineMove, Inv, Rounds;
  }

  lemma {:induction false} RunLive(s: State, schedule: seq<Action>)
    requires Live(s) && Undisturbed(schedule)
    ensures Live(Run(s, schedule)) && s.calls <= Run(s, schedule).calls && Run(s, schedule).timeout == s.timeout
    decreases |schedule|
  {
    if schedule != [] {
      StepLive(s, schedule[0]);
      hide Live, Apply;
      RunLive(Apply(s, schedule[0]), schedule[1..]);
    }
  }

  /** A schedule on which nobody stops anything and n more callbacks come by the time given. */
  ghost predicate Repeats(s: State, schedule: seq<Action>, n: nat, limit: nat) {
    Undisturbed(schedule) && |Run(s, schedule).calls| >= |s.calls| + n && Run(s, schedule).clock <= limit
  }

  lemma NextCall(s: State) returns (schedule: seq<Action>)
    requires Live(s)
    ensures Repeats(s, schedule, 1, s.clock + s.timeout)
  {
    LiveGoesOn(s);
    if s.phase.Started? {
      var arming, limit := |s.armings| - 1, s.clock + s.timeout;
      ArmedCanFire(s);
      schedule :| FiresBy(s, schedule, arming, limit);
      RunLive(s, schedule);
      var t := Run(s, schedule);
      var c :| 0 <= c < |t.calls| && t.calls[c].arming == arming && t.calls[c].at <= limit;
      if |t.calls| <= |s.calls| {
        assert s.calls == t.calls;
        var h :| Holds(s, h);
        CallsIncrease(s, c, |s.calls| - 1);
        assert false;
      }
    } else {
      schedule := ClaimedCalls(s);
    }
  }

  lemma ClaimedCalls(s: State) returns (schedule: seq<Action>)
    requires s.phase.Pending? && Unclaimed(s.worker) && s.repeated && s.running
    ensures Repeats(s, schedule, 1, s.clock + s.timeout)
  {
    var n := if s.worker.Claimed? then 4 else 3;
    schedule := Works(n);
    var s' := if s.worker.Claimed? then WorkStep(s) else s;
    if s.worker.Claimed? { WorksRun(s, 4); }
    var s1 := WorkStep(s');
    var s2 := WorkStep(s1);
    WorksRun(s', 3);
    WorksRun(s1, 2);
    WorksRun(s2, 1);
    assert Run(s, schedule) == WorkStep(s2);
  }

  /** A repeated timer that has been started goes on for ever while nobody stops it or the engine: from any moment of
      any run, any number of callbacks can still come, each within a timeout of the one before. */
  lemma RepeatsForever(timeout: nat, clock: nat, threads: nat, schedule: seq<Action>, n: nat)
    requires var s := Run(Init(true, timeout, clock, threads), schedule);
      s.running && s.armings != [] && !s.phase.Stopped?
    ensures var s := Run(Init(true, timeout, clock, threads), schedule);
      var limit := s.clock + n * timeout;
      exists more :: Repeats(s, more, n, limit)
  {
    LiveInit(timeout, clock, threads, schedule);
    var s := Run(Init(true, timeout, clock, threads), schedule);
    TimeoutStays(Init(true, timeout, clock, threads), schedule);
    hide Run, Live;
    var more := CallsGoOn(s, n);
  }

  lemma {:induction false} TimeoutStays(s: State, schedule: seq<Action>)
    ensures Run(s, schedule).timeout == s.timeout
    decreases |schedule|
  {
    if schedule != [] {
      assert Apply(s, schedule[0]).timeout == s.timeout by {
        if schedule[0].EngineStep? { EngineLeaves(s, schedule[0].timeout); }
        hide EngineMove;
      }
      hide Apply;
      TimeoutStays(Apply(s, schedule[0]), schedule[1..]);
    }
  }

  lemma {:induction false} CallsGoOn(s: State, n: nat) returns (more: seq<Action>)
    requires Live(s)
    ensures Repeats(s, more, n, s.clock + n * s.timeout)
    decreases n
  {
    if n == 0 {
      more := [];
      assert Run(s, []) == s;
    } else {
      var first := NextCall(s);
      RunLive(s, first);
      var t := Run(s, first);
      hide Run, Live;
      var rest := CallsGoOn(t, n - 1);
      RunAppend(s, first, rest);
      more := first + rest;
      assert (n - 1) * s.timeout + s.timeout == n * s.timeout;
    }
  }

  // ---------------------------------------------------------------------------------------------
  // What a pass of the engine finds
  // ---------------------------------------------------------------------------------------------

  lemma {:induction false} LeastIsLeast(deadlines: seq<nat>, otherwise: nat)
    ensures deadlines == [] ==> Least(deadlines, otherwise) == otherwise
    ensures deadlines != [] ==> Least(deadlines, otherwise) in deadlines
    ensures forall d :: d in deadlines ==> Least(deadlines, otherwise) <= d
  {
    if |deadlines| > 1 {
      LeastIsLeast(deadlines[1..], otherwise);
      assert deadlines == [deadlines[0]] + deadlines[1..];
    }
  }

  lemma {:induction false} LateAreLater(deadlines: seq<nat>, now: nat)
    ensures forall d :: d in Late(deadlines, now) <==> d in deadlines && d > now
    ensures Late(deadlines, now) == deadlines <==> forall d :: d in deadlines ==> d > now
  {
    if deadlines != [] {
      LateAreLater(deadlines[1..], now);
      assert deadlines == [deadlines[0]] + deadlines[1..];
      LateLength(deadlines[1..], now);
      if deadlines[0] > now {
        assert Late(deadlines, now)[1..] == Late(deadlines[1..], now);
        assert forall d :: d in deadlines[1..] ==> d in deadlines;
      } else {
        assert deadlines[0] in deadlines;
      }
    }
  }

  lemma {:induction false} LateLength(deadlines: seq<nat>, now: nat)
    ensures |Late(deadlines, now)| <= |deadlines|
  {
    if deadlines != [] { LateLength(deadlines[1..], now); }
  }

  lemma {:induction false} DeadlinesAre(entries: seq<Entry>, timeout: nat)
    ensures forall d :: d in Deadlines(entries, timeout) <==>
              exists k :: 0 <= k < |entries| && entries[k].place.Mapped? && d == entries[k].place.reading + timeout
  {
    if entries != [] {
      DeadlinesAre(entries[1..], timeout);
      assert entries == [entries[0]] + entries[1..];
    }
  }

  /** A deadline that waits in `timers_`: that of our entry, or another's. */
  ghost predicate Waits(s: State, d: nat) {
    || d in s.others
    || (exists k :: 0 <= k < |s.entries| && s.entries[k].place.Mapped? && d == s.entries[k].place.reading + s.timeout)
  }

  /** A pass takes from `timers_` exactly what is due by its reading, notes whether that was anything, and finds the next
      deadline: the least one left or, if none is, the end of the interval. */
  lemma ObserveFinds(s: State)
    ensures var t := ObserveStep(s);
      && (forall d: nat :: Waits(t, d) <==> Waits(s, d) && d > s.reading)
      && (forall k :: 0 <= k < |s.entries| && s.entries[k].place.Mapped? && Due(s, s.entries[k].place.reading) ==>
            t.entries[k].place == Triggered(s.entries[k].place.reading))
      && t.engine.Rereading?
      && (t.engine.due <==> exists d: nat :: d in s.others && d <= s.reading)
      && (forall d: nat :: Waits(t, d) ==> t.engine.next <= d)
      && (Waits(t, t.engine.next) || (t.engine.next == s.reading + INTERVAL && forall d: nat :: !Waits(t, d)))
  {
    var t := ObserveStep(s);
    var own := Deadlines(t.entries, s.timeout);
    LateAreLater(s.others, s.reading);
    DeadlinesAre(t.entries, s.timeout);
    LeastIsLeast(own + t.others, s.reading + INTERVAL);
    assert forall d: nat :: d in own + t.others <==> Waits(t, d);
    forall d: nat ensures Waits(t, d) <==> Waits(s, d) && d > s.reading { OwnWaits(s, d); }
    hide Deadlines, Late, Least;
    assert own + t.others == [] ==> forall d: nat :: !(d in own + t.others);
  }

  lemma OwnWaits(s: State, d: nat)
    requires forall e :: e in Late(s.others, s.reading) <==> e in s.others && e > s.reading
    ensures Waits(ObserveStep(s), d) <==> Waits(s, d) && d > s.reading
  {
    hide Deadlines, Late, Least;
    var t := ObserveStep(s);
    assert forall k :: 0 <= k < |s.entries| ==>
             t.entries[k] == s.entries[k].(place := Moved(s.entries[k].place, Splice(s.reading), s.timeout));
    if Waits(s, d) && d > s.reading && d !in s.others {
      var k :| 0 <= k < |s.entries| && s.entries[k].place.Mapped? && d == s.entries[k].place.reading + s.timeout;
      assert t.entries[k].place.Mapped?;
    }
    if Waits(t, d) && d !in t.others {
      var k :| 0 <= k < |t.entries| && t.entries[k].place.Mapped? && d == t.entries[k].place.reading + s.timeout;
      assert s.entries[k].place.Mapped?;
    }
  }
}
