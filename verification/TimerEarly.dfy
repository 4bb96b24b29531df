/** When the callback of an armed timer can come, over all interleavings of TimerProtocol: by what time, and when less
    than a timeout after the start. What makes it possible uses steps the code can take in that order; a wait that runs
    out is not among them. */
module TimerEarly {
  import opened TimerProtocol

  /** The callback of this arming has run, at this time or before. */
  ghost predicate Fired(s: State, arming: nat, limit: nat) {
    exists c :: 0 <= c < |s.calls| && s.calls[c].arming == arming && s.calls[c].at <= limit
  }

  /** Nobody stops the timer or the engine. */
  predicate Undisturbed(schedule: seq<Action>) {
    forall k :: 0 <= k < |schedule| ==> !schedule[k].Stop? && !schedule[k].StopEngine?
  }

  /** Some interleaving comes to the callback by that time, stop or no stop, ... */
  ghost predicate MayFire(s: State, arming: nat, limit: nat) {
    exists schedule :: Fired(Run(s, schedule), arming, limit)
  }

  /** ... or one in which nobody stops anything does. */
  ghost predicate CanFire(s: State, arming: nat, limit: nat) {
    exists schedule :: FiresBy(s, schedule, arming, limit)
  }

  ghost predicate FiresBy(s: State, schedule: seq<Action>, arming: nat, limit: nat) {
    Undisturbed(schedule) && Fired(Run(s, schedule), arming, limit) && Run(s, schedule).clock <= limit
  }

  lemma StepBack(s: State, a: Action, arming: nat, limit: nat)
    requires CanFire(Apply(s, a), arming, limit) && !a.Stop? && !a.StopEngine?
    ensures CanFire(s, arming, limit)
  {
    hide Apply, Fired;
    var rest :| FiresBy(Apply(s, a), rest, arming, limit);
    assert ([a] + rest)[1..] == rest;
    assert FiresBy(s, [a] + rest, arming, limit);
  }

  lemma FromCalling(s: State, limit: nat)
    requires s.worker.Calling? && s.clock <= limit
    ensures CanFire(s, s.worker.arming, limit)
  {
    var t := Apply(s, Work);
    assert t.calls[|s.calls|] == Call(s.worker.arming, s.worker.reading, s.clock);
    assert Run(t, []) == t;
    assert FiresBy(t, [], s.worker.arming, limit);
    hide Apply;
    StepBack(s, Work, s.worker.arming, limit);
  }

  lemma FromTaken(s: State, limit: nat)
    requires s.worker.Taken? && s.phase.Started? && s.running && s.clock <= limit
    ensures CanFire(s, s.worker.arming, limit)
  {
    var a := s.worker.arming;
    var s1 := Apply(s, Work);
    var s2 := Apply(s1, Work);
    if s.repeated {
      var s3 := Apply(s2, Work);
      var s4 := Apply(s3, Work);
      assert s4.worker == Calling(a, s.worker.reading) && s4.clock <= limit;
      hide Apply;
      FromCalling(s4, limit);
      StepBack(s3, Work, a, limit);
      StepBack(s2, Work, a, limit);
    } else {
      assert s2.worker == Calling(a, s.worker.reading) && s2.clock <= limit;
      hide Apply;
      FromCalling(s2, limit);
    }
    StepBack(s1, Work, a, limit);
    StepBack(s, Work, a, limit);
  }

  /** The timer is armed and its one entry is in this place. */
  ghost predicate ArmedAt(s: State, arming: nat, place: Place) {
    && s.phase.Started? && s.running && s.entries == [Entry(arming, place)]
    && (s.worker.Resting? || s.worker.Calling?) && EngineOk(s)
  }

  lemma FromListed(s: State, arming: nat, reading: nat, limit: nat)
    requires ArmedAt(s, arming, Listed(reading)) && s.clock <= limit
    ensures CanFire(s, arming, limit)
  {
    if s.worker.Calling? {
      var t := Apply(s, Work);
      StepKeepsEngine(s, Work);
      assert ArmedAt(t, arming, Listed(reading)) && t.worker.Resting? && t.clock == s.clock;
      FromTaken(Apply(t, Take(0)), limit);
      StepBack(t, Take(0), arming, limit);
      StepBack(s, Work, arming, limit);
    } else {
      FromTaken(Apply(s, Take(0)), limit);
      StepBack(s, Take(0), arming, limit);
    }
  }

  /** A step of the engine alone, the entry moving with it. */
  ghost predicate OnlyEngine(s: State, t: State) {
    t == s.(entries := t.entries, engine := t.engine, reading := t.reading, backlog := t.backlog, others := t.others)
  }

  lemma EngineRuns(s: State, arming: nat, place: Place) returns (t: State, place': Place)
    requires ArmedAt(s, arming, place)
    ensures t == Apply(s, EngineStep(0)) == EngineMove(s, 0) && ArmedAt(t, arming, place') && OnlyEngine(s, t)
    ensures t.entries == [Entry(arming, place')]
  {
    EngineLeaves(s, 0);
    EngineKeepsOk(s, 0);
    t := EngineMove(s, 0);
    place' := t.entries[0].place;
    hide EngineMove, EngineOk;
  }

  /** How far the engine is from handing its list to the worker. */
  function ToPost(e: Engine): nat {
    match e
    case Rereading(next, due) => MAX_NEW + 2
    case Draining(left) => left + 1
    case _ => 0
  }

  lemma {:induction false} FromTriggered(s: State, arming: nat, reading: nat, limit: nat)
    requires ArmedAt(s, arming, Triggered(reading)) && s.clock <= limit
    ensures CanFire(s, arming, limit)
    decreases ToPost(s.engine)
  {
    assert PlaceOk(s.entries[0].place, s.engine, s.backlog);
    assert AnyTriggered(s.entries);
    var t, place := EngineRuns(s, arming, Triggered(reading));
    assert if s.engine.Posting? then place == Listed(reading)
           else place == Triggered(reading) && ToPost(t.engine) < ToPost(s.engine) by { hide Deadlines, Late, Least; }
    hide Apply, EngineMove, EngineOk;
    if s.engine.Posting? { FromListed(t, arming, reading, limit); } else { FromTriggered(t, arming, reading, limit); }
    StepBack(s, EngineStep(0), arming, limit);
  }

  /** How far the engine is from looking for due timers with a reading from now on. */
  function ToLook(e: Engine, renewed: bool): nat {
    match e
    case Observing => if renewed then 0 else MAX_NEW + 9
    case Reading => 1
    case Top => 2
    case Posting => 3
    case Draining(left) => left + 4
    case Handing(hand) => MAX_NEW + 5
    case Woken(hand) => MAX_NEW + 6
    case Waiting => MAX_NEW + 7
    case Rereading(next, due) => MAX_NEW + 8
    case Ended => 0
  }

  lemma {:induction false} FromMapped(s: State, arming: nat, reading: nat, limit: nat)
    requires ArmedAt(s, arming, Mapped(reading)) && s.clock <= limit && reading + s.timeout <= limit
    ensures CanFire(s, arming, limit)
    decreases limit - s.clock, ToLook(s.engine, reading + s.timeout <= s.reading), s.backlog == 0
  {
    if s.clock < limit {
      var t := Apply(s, Tick(limit - s.clock));
      assert ArmedAt(t, arming, Mapped(reading));
      hide Apply, EngineMove;
      FromMapped(t, arming, reading, limit);
      StepBack(s, Tick(limit - s.clock), arming, limit);
    } else if s.engine.Waiting? && s.backlog == 0 {
      var t := Apply(s, StartOther);
      assert ArmedAt(t, arming, Mapped(reading));
      hide Apply, EngineMove;
      FromMapped(t, arming, reading, limit);
      StepBack(s, StartOther, arming, limit);
    } else {
      var t, place := EngineRuns(s, arming, Mapped(reading));
      MappedNext(s, arming, reading);
      hide Apply, EngineMove, EngineOk;
      if place.Triggered? { FromTriggered(t, arming, reading, limit); } else { FromMapped(t, arming, reading, limit); }
      StepBack(s, EngineStep(0), arming, limit);
    }
  }

  lemma MappedNext(s: State, arming: nat, reading: nat)
    requires ArmedAt(s, arming, Mapped(reading)) && reading + s.timeout <= s.clock
    requires s.engine.Waiting? ==> s.backlog > 0
    ensures var t := EngineMove(s, 0);
      && |t.entries| == 1
      && (t.entries[0].place == Triggered(reading)
          || (&& t.entries[0].place == Mapped(reading)
              && ToLook(t.engine, reading + t.timeout <= t.reading) < ToLook(s.engine, reading + s.timeout <= s.reading)))
  {
    hide Deadlines, Late, Least;
  }

  /** The least reading the entry in this place can come to its callback with: what is still in `new_timers_` gets the
      engine's last reading if the engine is emptying it and still takes as many as are in front, and a later one
      otherwise. */
  function LeastReading(s: State, place: Place): nat {
    match place
    case Queued(ahead) => if ahead < Takes(s.engine) then s.reading else s.clock
    case InHand => if s.engine.Handing? then s.reading else s.clock
    case _ => place.reading
  }

  /** How many timers the engine may still queue with its last reading. */
  function Takes(e: Engine): nat {
    match e
    case Draining(left) => left
    case Handing(hand) => MAX_NEW - 1
    case _ => 0
  }

  lemma FromHand(s: State, arming: nat, limit: nat)
    requires ArmedAt(s, arming, InHand) && s.clock <= limit && LeastReading(s, InHand) + s.timeout <= limit
    ensures CanFire(s, arming, limit)
    decreases s.engine.Woken?
  {
    assert PlaceOk(s.entries[0].place, s.engine, s.backlog);
    var t, place := EngineRuns(s, arming, InHand);
    assert if s.engine.Handing? then place == Mapped(s.reading)
           else place == InHand && t.engine.Handing? && t.reading == t.clock;
    hide Apply, EngineMove, EngineOk;
    if s.engine.Handing? { FromMapped(t, arming, s.reading, limit); } else { FromHand(t, arming, limit); }
    StepBack(s, EngineStep(0), arming, limit);
  }

  /** How far the engine is from taking a timer from `new_timers_`. */
  function ToTake(e: Engine): nat {
    match e
    case Draining(left) => if left > 0 then 0 else 10
    case Posting => 9
    case Top => 8
    case Reading => 7
    case Observing => 6
    case Rereading(next, due) => 5
    case Waiting => 4
    case Woken(hand) => 3
    case Handing(hand) => 2
    case Ended => 0
  }

  lemma {:induction false} FromQueued(s: State, arming: nat, ahead: nat, limit: nat)
    requires ArmedAt(s, arming, Queued(ahead)) && s.reading <= s.clock <= limit
    requires LeastReading(s, Queued(ahead)) + s.timeout <= limit
    ensures CanFire(s, arming, limit)
    decreases ahead, ToTake(s.engine)
  {
    var t, place := EngineRuns(s, arming, Queued(ahead));
    QueuedNext(s, arming, ahead);
    hide Apply, EngineMove, EngineOk, ToTake;
    match place {
      case Queued(a) => FromQueued(t, arming, a, limit);
      case InHand => FromHand(t, arming, limit);
      case Mapped(r) => FromMapped(t, arming, r, limit);
      case _ =>
    }
    StepBack(s, EngineStep(0), arming, limit);
  }

  lemma QueuedNext(s: State, arming: nat, ahead: nat)
    requires ArmedAt(s, arming, Queued(ahead)) && s.reading <= s.clock
    ensures var t := EngineMove(s, 0);
      && |t.entries| == 1 && t.reading <= t.clock
      && var p := t.entries[0].place;
      && LeastReading(t, p) <= LeastReading(s, Queued(ahead))
      && (p.InHand? || p.Mapped?
          || (p.Queued? && (p.ahead < ahead || (p.ahead == ahead && ToTake(t.engine) < ToTake(s.engine)))))
  {
    hide Deadlines, Late, Least;
    assert PlaceOk(s.entries[0].place, s.engine, s.backlog);
    assert AtFront(s.entries) <==> ahead == 0;
    if s.engine.Waiting? || s.engine.Draining? {
      TakenNext(s, arming, ahead);
      hide EngineMove;
    }
  }

  lemma TakenNext(s: State, arming: nat, ahead: nat)
    requires ArmedAt(s, arming, Queued(ahead)) && s.reading <= s.clock && (s.engine.Waiting? || s.engine.Draining?)
    ensures var t := EngineMove(s, 0);
      && |t.entries| == 1 && t.reading <= t.clock
      && var p := t.entries[0].place;
      && LeastReading(t, p) <= LeastReading(s, Queued(ahead))
      && (p.InHand? || p.Mapped?
          || (p.Queued? && (p.ahead < ahead || (p.ahead == ahead && ToTake(t.engine) < ToTake(s.engine)))))
  {
    assert PlaceOk(s.entries[0].place, s.engine, s.backlog);
    assert AtFront(s.entries) <==> ahead == 0;
  }

  lemma FromEntry(s: State, arming: nat, place: Place, limit: nat)
    requires ArmedAt(s, arming, place) && s.reading <= s.clock <= limit && LeastReading(s, place) + s.timeout <= limit
    ensures CanFire(s, arming, limit)
  {
    match place {
      case Queued(ahead) => FromQueued(s, arming, ahead, limit);
      case InHand => FromHand(s, arming, limit);
      case Mapped(r) => FromMapped(s, arming, r, limit);
      case Triggered(r) => FromTriggered(s, arming, r, limit);
      case Listed(r) => FromListed(s, arming, r, limit);
    }
  }

  /** The same for a timer that is still to be put into `new_timers_`. */
  function LeastLater(s: State): nat { LeastReading(s, Queued(s.backlog)) }

  /** ... and for whatever stands for the arming. */
  function LeastOf(s: State, h: Holder): nat
    requires Holds(s, h)
  {
    match h
    case ByStarter(i) => LeastLater(s)
    case ByEntry(k) => LeastReading(s, s.entries[k].place)
    case ByWorker => if s.worker.Taken? then s.worker.reading else LeastLater(s)
  }

  lemma FromHolder(s: State, h: Holder, limit: nat)
    requires Inv(s) && s.phase.Started? && s.running && Holds(s, h)
    requires s.clock <= limit && LeastOf(s, h) + s.timeout <= limit
    ensures CanFire(s, |s.armings| - 1, limit)
  {
    var arming := |s.armings| - 1;
    assert ArmingOf(s, h) == arming;
    hide EngineMove;
    match h {
      case ByStarter(i) =>
        assert Holds(s, ByEntry(0)) <==> s.entries != [];
        assert !Holds(s, ByWorker);
        StepKeepsEngine(s, User(i));
        assert ArmedAt(Apply(s, User(i)), arming, Queued(s.backlog));
        FromQueued(Apply(s, User(i)), arming, s.backlog, limit);
        StepBack(s, User(i), arming, limit);
      case ByWorker =>
        EmptyWhileTaken(s);
        if s.worker.Taken? {
          FromTaken(s, limit);
        } else {
          StepKeepsEngine(s, Work);
          assert ArmedAt(Apply(s, Work), arming, Queued(s.backlog));
          FromQueued(Apply(s, Work), arming, s.backlog, limit);
          StepBack(s, Work, arming, limit);
        }
      case ByEntry(k) =>
        AtMostOneEntry(s);
        assert !Holds(s, ByWorker);
        assert ArmedAt(s, arming, s.entries[0].place);
        FromEntry(s, arming, s.entries[0].place, limit);
    }
  }

  /** No interleaving loses an armed timer: wherever it is, while the engine runs, it can still come to its callback,
      and within a timeout. */
  lemma ArmedCanFire(s: State)
    requires Inv(s) && s.phase.Started? && s.running
    ensures CanFire(s, |s.armings| - 1, s.clock + s.timeout)
  {
    var h :| Holds(s, h);
    FromHolder(s, h, s.clock + s.timeout);
  }

  /** This arming, made at the time given, has nowhere an older reading, nor a call from an earlier time. */
  ghost predicate NoSooner(s: State, arming: nat, made: nat, r: nat, from: nat) {
    && arming < |s.armings| && s.armings[arming] == made
    && from <= s.clock && s.reading <= s.clock
    && (forall i :: 0 <= i < |s.starters| && s.starters[i] == Won(arming) ==> r <= LeastLater(s))
    && EntriesAfter(s, s.entries, arming, r)
    && (!s.worker.Resting? && s.worker.arming == arming ==> r <= s.worker.reading)
    && (s.worker.Rearmed? && s.worker.next == arming ==> r <= LeastLater(s))
    && CallsAfter(s.calls, arming, r, from)
  }

  ghost predicate EntriesAfter(s: State, entries: seq<Entry>, arming: nat, r: nat) {
    forall k :: 0 <= k < |entries| && entries[k].arming == arming ==> r <= LeastReading(s, entries[k].place)
  }

  ghost predicate CallsAfter(calls: seq<Call>, arming: nat, r: nat, from: nat) {
    forall c :: 0 <= c < |calls| && calls[c].arming == arming ==> r <= calls[c].reading && from <= calls[c].at
  }

  lemma StepNoSooner(s: State, a: Action, arming: nat, made: nat, r: nat, from: nat)
    requires NoSooner(s, arming, made, r, from)
    ensures NoSooner(Apply(s, a), arming, made, r, from) && Apply(s, a).timeout == s.timeout
  {
    match a {
      case User(i) => if Enabled(s, a) { UserNoSooner(s, i, arming, made, r, from); }
      case Work => WorkNoSooner(s, arming, made, r, from);
      case EngineStep(timeout) => EngineNoSooner(s, timeout, arming, made, r, from);
      case Take(k) =>
      case _ => OtherNoSooner(s, a, arming, made, r, from);
    }
    hide UserStep, WorkStep, EngineMove, LeastLater, LeastReading;
  }

  lemma SameEngine(s: State, t: State)
    requires t.engine == s.engine && t.reading == s.reading && t.clock == s.clock && t.backlog == s.backlog
    ensures LeastLater(t) == LeastLater(s) == LeastReading(s, Queued(s.backlog)) == LeastReading(t, Queued(s.backlog))
    ensures forall entries, arming, r :: EntriesAfter(t, entries, arming, r) == EntriesAfter(s, entries, arming, r)
  {
    forall entries, arming, r ensures EntriesAfter(t, entries, arming, r) == EntriesAfter(s, entries, arming, r) {
      assert forall p :: LeastReading(t, p) == LeastReading(s, p);
    }
  }

  /** An entry is added to new_timers_. */
  lemma EntryAdded(s: State, entry: nat, arming: nat, r: nat)
    requires EntriesAfter(s, s.entries, arming, r) && (entry == arming ==> r <= LeastLater(s))
    ensures EntriesAfter(s, s.entries + [Entry(entry, Queued(s.backlog))], arming, r)
  {}

  lemma UserNoSooner(s: State, i: nat, arming: nat, made: nat, r: nat, from: nat)
    requires NoSooner(s, arming, made, r, from) && i < |s.starters|
    ensures NoSooner(UserStep(s, i), arming, made, r, from) && UserStep(s, i).timeout == s.timeout
  {
    SameEngine(s, UserStep(s, i));
    if s.starters[i].Won? { EntryAdded(s, s.starters[i].arming, arming, r); }
    hide LeastLater, LeastReading, EntriesAfter, CallsAfter;
  }

  lemma OtherNoSooner(s: State, a: Action, arming: nat, made: nat, r: nat, from: nat)
    requires NoSooner(s, arming, made, r, from) && !a.User? && !a.Work? && !a.Take? && !a.EngineStep?
    ensures NoSooner(Apply(s, a), arming, made, r, from) && Apply(s, a).timeout == s.timeout
  {
    hide UserStep, WorkStep, TakeStep, EngineMove;
  }

  lemma EngineNoSooner(s: State, timeout: nat, arming: nat, made: nat, r: nat, from: nat)
    requires NoSooner(s, arming, made, r, from)
    ensures NoSooner(EngineMove(s, timeout), arming, made, r, from) && EngineMove(s, timeout).timeout == s.timeout
  {
    var t := EngineMove(s, timeout);
    EngineLeaves(s, timeout);
    LaterGrows(s, timeout);
    forall k | 0 <= k < |s.entries| ensures LeastReading(s, s.entries[k].place) <= LeastReading(t, t.entries[k].place) {
      ReadingGrows(s, timeout, k);
    }
    hide EngineMove, LeastReading, LeastLater, CallsAfter;
  }

  /** No step of the engine lowers the least reading an entry can get, ... */
  lemma ReadingGrows(s: State, timeout: nat, k: nat)
    requires k < |s.entries| && s.reading <= s.clock
    ensures var t := EngineMove(s, timeout);
      |t.entries| == |s.entries| && LeastReading(s, s.entries[k].place) <= LeastReading(t, t.entries[k].place)
  {
    hide Deadlines, Late, Least;
    if s.engine.Waiting? || s.engine.Draining? {
      TakenGrows(s, timeout, k);
      hide EngineMove, LeastReading;
    } else if s.engine.Observing? || s.engine.Handing? || s.engine.Posting? {
      MovedGrows(s, timeout, k);
      hide EngineMove, LeastReading;
    } else {
      hide MoveAll;
    }
  }

  lemma MovedGrows(s: State, timeout: nat, k: nat)
    requires k < |s.entries| && s.reading <= s.clock
    requires s.engine.Observing? || s.engine.Handing? || s.engine.Posting?
    ensures var t := EngineMove(s, timeout);
      |t.entries| == |s.entries| && LeastReading(s, s.entries[k].place) <= LeastReading(t, t.entries[k].place)
  {
    hide Deadlines, Late, Least;
  }

  lemma TakenGrows(s: State, timeout: nat, k: nat)
    requires k < |s.entries| && s.reading <= s.clock && (s.engine.Waiting? || s.engine.Draining?)
    ensures var t := EngineMove(s, timeout);
      |t.entries| == |s.entries| && LeastReading(s, s.entries[k].place) <= LeastReading(t, t.entries[k].place)
  {}

  /** ... or that of a timer to come. */
  lemma LaterGrows(s: State, timeout: nat)
    requires s.reading <= s.clock
    ensures LeastLater(s) <= LeastLater(EngineMove(s, timeout))
  {
    hide Deadlines, Late, Least, MoveAll;
  }

  lemma WorkNoSooner(s: State, arming: nat, made: nat, r: nat, from: nat)
    requires NoSooner(s, arming, made, r, from)
    ensures NoSooner(WorkStep(s), arming, made, r, from) && WorkStep(s).timeout == s.timeout
  {
    SameEngine(s, WorkStep(s));
    if s.worker.Rearmed? { EntryAdded(s, s.worker.next, arming, r); }
    if s.worker.Calling? {
      assert CallsAfter(s.calls + [Call(s.worker.arming, s.worker.reading, s.clock)], arming, r, from);
    }
    hide LeastLater, LeastReading, EntriesAfter, CallsAfter;
  }

  lemma {:induction false} RunNoSooner(s: State, schedule: seq<Action>, arming: nat, made: nat, r: nat, from: nat)
    requires NoSooner(s, arming, made, r, from)
    ensures NoSooner(Run(s, schedule), arming, made, r, from) && Run(s, schedule).timeout == s.timeout
    decreases |schedule|
  {
    hide Apply, NoSooner;
    if schedule != [] {
      StepNoSooner(s, schedule[0], arming, made, r, from);
      RunNoSooner(Apply(s, schedule[0]), schedule[1..], arming, made, r, from);
    }
  }

  lemma ArmedIsFresh(s: State, h: Holder)
    requires Inv(s) && Holds(s, h)
    ensures NoSooner(s, |s.armings| - 1, s.armings[|s.armings| - 1], LeastOf(s, h), s.clock)
  {
    hide LeastReading, LeastLater, EngineOk;
    assert ArmingOf(s, h) == |s.armings| - 1;
    forall c | 0 <= c < |s.calls| ensures s.calls[c].arming < |s.armings| - 1 { CallsIncrease(s, c, |s.calls| - 1); }
    forall k | 0 <= k < |s.entries| ensures LeastOf(s, h) == LeastReading(s, s.entries[k].place) {
      assert Holds(s, ByEntry(k)) && h == ByEntry(k);
    }
    forall i | 0 <= i < |s.starters| && s.starters[i].Won? ensures LeastOf(s, h) == LeastLater(s) {
      assert Holds(s, ByStarter(i)) && h == ByStarter(i);
    }
    assert s.worker.Taken? || s.worker.Rearmed? ==> Holds(s, ByWorker) && h == ByWorker;
  }

  lemma NoCallSooner(s: State, h: Holder, schedule: seq<Action>, c: nat)
    requires Inv(s) && Holds(s, h)
    requires c < |Run(s, schedule).calls| && Run(s, schedule).calls[c].arming == |s.armings| - 1
    ensures var t := Run(s, schedule);
      && |s.armings| <= |t.armings| && t.armings[|s.armings| - 1] == s.armings[|s.armings| - 1] && t.timeout == s.timeout
      && s.clock <= t.calls[c].at && LeastOf(s, h) + s.timeout <= t.calls[c].at
  {
    ArmedIsFresh(s, h);
    RunNoSooner(s, schedule, |s.armings| - 1, s.armings[|s.armings| - 1], LeastOf(s, h), s.clock);
    RunKeeps(s, schedule);
  }

  /** Exactly when an armed timer can come to its callback, with or without a stop on the way: at any time from now on
      that is a timeout after the reading it is queued with or, if it is still to be queued, the least one the engine
      can queue it with. */
  lemma CanFireIff(s: State, h: Holder, limit: nat)
    requires Inv(s) && s.phase.Started? && s.running && Holds(s, h)
    ensures CanFire(s, |s.armings| - 1, limit) <==> s.clock <= limit && LeastOf(s, h) + s.timeout <= limit
    ensures MayFire(s, |s.armings| - 1, limit) <==> s.clock <= limit && LeastOf(s, h) + s.timeout <= limit
  {
    if MayFire(s, |s.armings| - 1, limit) {
      var schedule :| Fired(Run(s, schedule), |s.armings| - 1, limit);
      var t := Run(s, schedule);
      var c :| 0 <= c < |t.calls| && t.calls[c].arming == |s.armings| - 1 && t.calls[c].at <= limit;
      hide Inv;
      NoCallSooner(s, h, schedule, c);
    }
    CanIsMay(s, |s.armings| - 1, limit);
    if s.clock <= limit && LeastOf(s, h) + s.timeout <= limit { FromHolder(s, h, limit); }
  }

  lemma CanIsMay(s: State, arming: nat, limit: nat)
    ensures CanFire(s, arming, limit) ==> MayFire(s, arming, limit)
  {
    if CanFire(s, arming, limit) { var schedule :| FiresBy(s, schedule, arming, limit); }
  }

  /** The callback of this arming has run less than a timeout after it. */
  ghost predicate Early(s: State, arming: nat) {
    exists c :: 0 <= c < |s.calls| && s.calls[c].arming == arming < |s.armings|
                && s.calls[c].at < s.armings[arming] + s.timeout
  }

  ghost predicate CanBeEarly(s: State, arming: nat) {
    exists schedule :: Early(Run(s, schedule), arming)
  }

  lemma EarlyBack(s: State, a: Action, arming: nat)
    requires CanBeEarly(Apply(s, a), arming)
    ensures CanBeEarly(s, arming)
  {
    hide Apply, Early;
    var rest :| Early(Run(Apply(s, a), rest), arming);
    assert ([a] + rest)[1..] == rest;
    assert Early(Run(s, [a] + rest), arming);
  }

  /** Some interleaving runs the callback of an armed timer early if and only if it is queued, or can still be queued,
      with a reading older than its start, and a timeout has not passed since its start. */
  lemma EarlyIff(s: State, h: Holder)
    requires Inv(s) && s.phase.Started? && s.running && Holds(s, h)
    ensures CanBeEarly(s, |s.armings| - 1) <==>
              var made := s.armings[|s.armings| - 1]; LeastOf(s, h) < made && s.clock < made + s.timeout
  {
    var arming := |s.armings| - 1;
    if CanBeEarly(s, arming) {
      var schedule :| Early(Run(s, schedule), arming);
      var t := Run(s, schedule);
      var c :| 0 <= c < |t.calls| && t.calls[c].arming == arming < |t.armings| && t.calls[c].at < t.armings[arming] + t.timeout;
      hide Inv;
      NoCallSooner(s, h, schedule, c);
    }
    var made := s.armings[arming];
    if LeastOf(s, h) < made && s.clock < made + s.timeout { EarlyFrom(s, h); }
  }

  lemma EarlyFrom(s: State, h: Holder)
    requires Inv(s) && s.phase.Started? && s.running && Holds(s, h)
    requires LeastOf(s, h) < s.armings[|s.armings| - 1] && s.clock < s.armings[|s.armings| - 1] + s.timeout
    ensures CanBeEarly(s, |s.armings| - 1)
  {
    var arming, r := |s.armings| - 1, LeastOf(s, h);
    var limit := if r + s.timeout < s.clock then s.clock else r + s.timeout;
    FromHolder(s, h, limit);
    CanIsMay(s, arming, limit);
    var schedule :| Fired(Run(s, schedule), arming, limit);
    var t := Run(s, schedule);
    var c :| 0 <= c < |t.calls| && t.calls[c].arming == arming && t.calls[c].at <= limit;
    hide Inv;
    NoCallSooner(s, h, schedule, c);
    assert Early(t, arming);
  }

  ghost predicate Past(s: State) { forall a :: 0 <= a < |s.armings| ==> s.armings[a] <= s.clock }

  lemma PastStep(s: State, a: Action)
    requires Past(s)
    ensures Past(Apply(s, a))
  {
    if a.EngineStep? { EngineLeaves(s, a.timeout); }
    hide EngineMove;
  }

  lemma {:induction false} PastRun(s: State, schedule: seq<Action>)
    requires Past(s)
    ensures Past(Run(s, schedule))
    decreases |schedule|
  {
    hide Past, Apply;
    if schedule != [] {
      PastStep(s, schedule[0]);
      PastRun(Apply(s, schedule[0]), schedule[1..]);
    }
  }

  /** The entry has no reading yet, and the engine will read the clock before it gives it one. */
  predicate StillToBeRead(s: State, h: Holder)
    requires Holds(s, h)
  {
    && Takes(s.engine) == 0
    && (h.ByEntry? ==> !Timed(s.entries[h.k].place)) && (h.ByWorker? ==> !s.worker.Taken?)
  }

  /** Wherever else the engine is in its loop, a timer that has not been queued yet will be on time. */
  lemma OnTimeElsewhere(repeated: bool, timeout: nat, clock: nat, threads: nat, schedule: seq<Action>, h: Holder)
    requires var s := Run(Init(repeated, timeout, clock, threads), schedule);
      s.phase.Started? && s.running && Holds(s, h) && StillToBeRead(s, h)
    ensures var s := Run(Init(repeated, timeout, clock, threads), schedule);
      s.armings != [] && !CanBeEarly(s, |s.armings| - 1)
  {
    var s0 := Init(repeated, timeout, clock, threads);
    InitOk(repeated, timeout, clock, threads);
    RunKeeps(s0, schedule);
    PastRun(s0, schedule);
    var s := Run(s0, schedule);
    assert LeastOf(s, h) == s.clock;
    EarlyIff(s, h);
    hide Run, CanBeEarly;
  }

  /** The engine reads the clock before it empties `new_timers_` (engine.cpp lines 116-138), so a timer started in
      between is queued with a reading older than its start, and its callback can run before the timeout is over: here
      the engine has been woken by another timer and has read the clock for it when the timer is started. */
  lemma CallbackCanBeEarly(timeout: nat, clock: nat)
    requires timeout > 0
    ensures CanBeEarly(Init(false, timeout, clock, 1), 0)
  {
    var s := Init(false, timeout, clock, 1);
    StartedLate(s.(engine := Handing(Other)), timeout, clock);
    WokenByOther(s, timeout, clock);
  }

  lemma StartedLate(s: State, timeout: nat, clock: nat)
    requires timeout > 0 && s == Init(false, timeout, clock, 1).(engine := Handing(Other))
    ensures CanBeEarly(s, 0)
  {
    var s1 := Apply(s, Tick(timeout));
    var s2 := Apply(s1, User(0));
    var s3 := Apply(s2, User(0));
    var s4 := Apply(s3, User(0));
    assert s4.starters == [Won(0)] && s4.armings == [clock + timeout] && s4.phase.Started? && s4.running;
    assert s4.clock == clock + timeout && s4.timeout == timeout && LeastLater(s4) == clock;
    InitOk(false, timeout, clock, 1);
    assert Inv(s);
    hide Apply, Init, Inv, LeastLater;
    StepKeeps(s, Tick(timeout));
    StepKeeps(s1, User(0));
    StepKeeps(s2, User(0));
    StepKeeps(s3, User(0));
    assert Holds(s4, ByStarter(0));
    EarlyIff(s4, ByStarter(0));
    EarlyBack(s3, User(0), 0);
    EarlyBack(s2, User(0), 0);
    EarlyBack(s1, User(0), 0);
    EarlyBack(s, Tick(timeout), 0);
  }

  /** From the start: a round that finds nothing due, and another timer that ends its wait. */
  lemma WokenByOther(s: State, timeout: nat, clock: nat)
    requires s == Init(false, timeout, clock, 1) && CanBeEarly(s.(engine := Handing(Other)), 0)
    ensures CanBeEarly(s, 0)
  {
    var step := EngineStep(0);
    var s1 := Apply(s, step);
    var s2 := Apply(s1, step);
    var s3 := Apply(s2, step);
    assert s3 == s.(engine := Rereading(clock + INTERVAL, false));
    var s4 := Apply(s3, step);
    assert s4 == s.(engine := Waiting);
    var s5 := Apply(s4, StartOther);
    var s6 := Apply(s5, step);
    assert s6 == s.(engine := Woken(Other));
    assert Apply(s6, step) == s.(engine := Handing(Other));
    hide Apply, CanBeEarly;
    EarlyBack(s6, step, 0);
    EarlyBack(s5, step, 0);
    EarlyBack(s4, StartOther, 0);
    EarlyBack(s3, step, 0);
    EarlyBack(s2, step, 0);
    EarlyBack(s1, step, 0);
    EarlyBack(s, step, 0);
  }

  /** On the history of a call: never early when its reading was taken at or after the start. */
  lemma NotEarlyIf(s: State, c: nat)
    requires Inv(s) && c < |s.calls|
    ensures s.calls[c].arming < |s.armings|
    ensures s.armings[s.calls[c].arming] <= s.calls[c].reading ==>
              s.armings[s.calls[c].arming] + s.timeout <= s.calls[c].at
  {
    CallsIncrease(s, c, c);
  }
}
