/** What a stop of TcpSend announces: which stops post the event that leads to stopped_cb, with what on the wire, and
    exactly when a graceful stop cuts off bytes. */
module TcpStop {
  import opened Wrappers
  import opened TcpSend

  // ---------------------------------------------------------------------------------------------
  // The wire after the drain
  // ---------------------------------------------------------------------------------------------

  ghost predicate AllSent<T>(s: State<T>) { s.core.wire == Concat(s.core.accepted) }

  /** What every step does to the wire, the history of faults and the stop. */
  ghost predicate Grows<T>(s: State<T>, s': State<T>) {
    s.core.wire <= s'.core.wire && (s.faulted ==> s'.faulted)
  }

  lemma ResendingGrows<T>(s: State<T>, a: Answer)
    ensures Grows(s, PollerResending(s, a))
  {}

  lemma SendingGrows<T>(s: State<T>, a: Answer)
    ensures Grows(s, PollerSending(s, a))
  {}

  lemma SenderGrows<T>(s: State<T>, a: Answer)
    ensures Grows(s, SenderSending(s, a))
  {}

  lemma StepGrows<T>(s: State<T>, a: Action<T>)
    ensures Grows(s, Apply(s, a))
  {
    match a {
      case SenderStep(answer) =>
        SenderGrows(s, answer);
        hide SenderSending;
      case PollerStep(answer) =>
        ResendingGrows(s, answer);
        SendingGrows(s, answer);
        hide PollerResending, PollerSending;
      case _ => hide StepSender, StepPoller;
    }
  }

  lemma {:induction false} RunGrows<T>(s: State<T>, acts: seq<Action<T>>)
    ensures Grows(s, Run(s, acts))
    decreases |acts|
  {
    if acts != [] {
      StepGrows(s, acts[0]);
      hide Apply;
      RunGrows(Apply(s, acts[0]), acts[1..]);
    }
  }

  /** Once a drained transport has everything on the wire, it stays so. */
  lemma AllSentStays<T>(s: State<T>, a: Action<T>)
    requires Inv(s) && PastDrain(s.stopper) && ComparesRight(s, a) && AllSent(s)
    ensures AllSent(Apply(s, a))
  {
    StepKeeps(s, a);
    StepGrows(s, a);
    DrainStep(s, a);
    WireIsPrefix(Apply(s, a).core);
    hide Apply, ComparesRight;
  }

  // ---------------------------------------------------------------------------------------------
  // What is posted
  // ---------------------------------------------------------------------------------------------

  /** A stop that is to post, or has posted, its event was forced or found everything on the wire; a forced one posts. */
  ghost predicate Announces<T>(s: State<T>) {
    && (s.stopper.StopPosting? || (s.stopper.Done? && s.stopper.posted) ==> s.stopper.force || AllSent(s))
    && (s.stopper.Done? && s.stopper.force ==> s.stopper.posted)
  }

  /** With nothing pending, and no send in its body, nothing is left. */
  lemma DrainedIsSent<T>(s: State<T>)
    requires Inv(s) && !Body(s.sender) && s.core.pending == 0
    ensures AllSent(s)
  {
    AllOnWireIff(s);
    SizesPositive(CountedList(s.core, Uncounted(s.sender)));
  }

  lemma StopperStays<T>(s: State<T>, a: Action<T>)
    requires !a.StopperStep? && !a.Stop?
    ensures Apply(s, a).stopper == s.stopper
  {
    match a {
      case SenderStep(answer) => SenderStopper(s, answer);
      case PollerStep(answer) => PollerAcceptsNothing(s, answer);
      case _ => hide StepSender, StepPoller;
    }
    hide StepSender, StepPoller;
  }

  lemma SenderStopper<T>(s: State<T>, a: Answer)
    ensures StepSender(s, a).stopper == s.stopper
  {
    if Enters(s.sender) { hide SenderSending, SenderLeaving; }
    else if Leaves(s.sender) { hide SenderSending, SenderEntering; }
    else { hide SenderEntering, SenderLeaving; }
  }

  lemma AnnouncesStep<T>(s: State<T>, a: Action<T>)
    requires Inv(s) && Announces(s) && ComparesRight(s, a)
    ensures Announces(Apply(s, a))
  {
    if a.StopperStep? {
      if s.stopper.Drained? && s.core.pending == 0 { DrainedIsSent(s); }
      hide Inv;
    } else if a.Stop? {
      hide Inv, StepSender, StepPoller;
    } else {
      StopperStays(s, a);
      if PastDrain(s.stopper) && AllSent(s) { AllSentStays(s, a); }
      hide Inv, Apply, AllSent;
    }
  }

  lemma {:induction false} AnnouncesRun<T>(s: State<T>, acts: seq<Action<T>>)
    requires Inv(s) && Graceful(s) && Announces(s) && RightRun(s, acts)
    ensures Inv(Run(s, acts)) && Graceful(Run(s, acts)) && Announces(Run(s, acts))
    decreases |acts|
  {
    hide Inv, Graceful, Announces, ComparesRight, Apply;
    if acts != [] {
      StepKeeps(s, acts[0]);
      GracefulStep(s, acts[0]);
      AnnouncesStep(s, acts[0]);
      AnnouncesRun(Apply(s, acts[0]), acts[1..]);
    }
  }

  /** A disconnected event is queued or being handled. */
  predicate EventOut<T>(s: State<T>) { s.events > 0 || s.poller.EventDisconnected? || s.poller.EventStopped? }

  /** In every run without faults and wrong comparisons: an event is out only if the stop that won has posted it, which
      was forced or found everything on the wire; and a forced stop that has returned has posted it. */
  lemma EventMeansAllSent<T>(sizeFirst: bool, acts: seq<Action<T>>)
    requires sizeFirst || RightRun(Init<T>(sizeFirst), acts)
    ensures var s := Run(Init<T>(sizeFirst), acts);
      && (!s.faulted && EventOut(s) ==> s.stopper.Done? && s.stopper.posted && (s.stopper.force || AllSent(s)))
      && (s.stopper.Done? && s.stopper.force ==> s.stopper.posted)
  {
    InitOk<T>(sizeFirst);
    if sizeFirst { SizeFirstIsRight(Init<T>(sizeFirst), acts); }
    AnnouncesRun(Init<T>(sizeFirst), acts);
  }

  /** A forced stop that has drained posts its event whatever is pending, ... */
  lemma ForcedStopPosts<T>(s: State<T>)
    requires s.stopper == Drained(true)
    ensures StepStopper(StepStopper(s)) == s.(events := s.events + 1, stopper := Done(true, true))
  {}

  /** ... a graceful one that finds nothing pending does too, ... */
  lemma IdleStopPosts<T>(s: State<T>)
    requires s.stopper == Drained(false) && s.core.pending == 0
    ensures StepStopper(StepStopper(s)) == s.(events := s.events + 1, stopper := Done(false, true))
  {}

  /** ... and a graceful one that finds bytes pending returns and posts none: in every run from there without faults and
      wrong comparisons no event is ever out. */
  lemma PendingStopPostsNone<T>(s: State<T>, acts: seq<Action<T>>)
    requires Inv(s) && Graceful(s) && s.stopper == Drained(false) && s.core.pending != 0 && s.st.Stopping?
    requires RightRun(StepStopper(s), acts)
    ensures var t := Run(StepStopper(s), acts); t.stopper == Done(false, false) && (t.faulted || !EventOut(t))
  {
    StepKeeps(s, StopperStep);
    GracefulStep(s, StopperStep);
    GracefulRun(StepStopper(s), acts);
    DoneStays(StepStopper(s), acts);
  }

  lemma {:induction false} DoneStays<T>(s: State<T>, acts: seq<Action<T>>)
    requires s.stopper.Done? && !s.st.Started?
    ensures Run(s, acts).stopper == s.stopper
    decreases |acts|
  {
    if acts != [] {
      DoneStep(s, acts[0]);
      hide Apply;
      DoneStays(Apply(s, acts[0]), acts[1..]);
    }
  }

  lemma DoneStep<T>(s: State<T>, a: Action<T>)
    requires s.stopper.Done? && !s.st.Started?
    ensures Apply(s, a).stopper == s.stopper && !Apply(s, a).st.Started?
  {
    if !a.StopperStep? && !a.Stop? { StopperStays(s, a); }
    NeverStartsAgain(s, a);
    hide StepSender, StepPoller;
  }

  lemma NeverStartsAgain<T>(s: State<T>, a: Action<T>)
    requires !s.st.Started?
    ensures !Apply(s, a).st.Started?
  {
    match a {
      case SenderStep(answer) =>
        if !Enters(s.sender) && !Leaves(s.sender) { SendingFrame(s, answer); }
        hide SenderSending;
      case PollerStep(answer) =>
        ResendingLeaves(s, answer);
        SendingLeaves(s, answer);
        hide PollerResending, PollerSending;
      case _ => hide StepSender, StepPoller;
    }
  }

  /** The stop that wins is the one that was asked for: forced or not, it stays so. */
  lemma StopIsAsAsked<T>(s: State<T>, force: bool, acts: seq<Action<T>>)
    requires s.st.Started?
    ensures var t := Run(Apply(s, Stop(force)), acts); !t.stopper.NotStopping? && t.stopper.force == force
  {
    ForceStays(Apply(s, Stop(force)), acts);
  }

  lemma {:induction false} ForceStays<T>(s: State<T>, acts: seq<Action<T>>)
    requires !s.stopper.NotStopping? && !s.st.Started?
    ensures !Run(s, acts).stopper.NotStopping? && Run(s, acts).stopper.force == s.stopper.force
    decreases |acts|
  {
    if acts != [] {
      NeverStartsAgain(s, acts[0]);
      if !acts[0].StopperStep? && !acts[0].Stop? { StopperStays(s, acts[0]); }
      assert !Apply(s, acts[0]).stopper.NotStopping? && Apply(s, acts[0]).stopper.force == s.stopper.force by {
        hide StepSender, StepPoller;
      }
      hide Apply;
      ForceStays(Apply(s, acts[0]), acts[1..]);
    }
  }

  // ---------------------------------------------------------------------------------------------
  // When a graceful stop cuts off bytes
  // ---------------------------------------------------------------------------------------------

  /** The poller is at line 354, or about to come there with a comparison that says nothing is left. */
  predicate AtEnd<T>(s: State<T>) {
    s.poller.Ending? || (Compares(s.poller) && s.poller.before <= s.poller.was && s.poller.before <= SizeSeen(s, s.poller.was))
  }

  /** A graceful stop that has drained, in a run without faults. */
  ghost predicate GracefulStop<T>(s: State<T>) {
    Inv(s) && Graceful(s) && Announces(s) && !s.faulted && PastDrain(s.stopper) && !s.stopper.force
  }

  /** No stopped_cb with bytes unsent, and none about to come. */
  ghost predicate Clean<T>(s: State<T>) {
    (s.st.Stopped? ==> AllSent(s)) && (AtEnd(s) ==> s.core.pending == 0)
  }

  lemma GracefulStopStays<T>(s: State<T>, a: Action<T>)
    requires GracefulStop(s) && ComparesRight(s, a) && !Apply(s, a).faulted
    ensures GracefulStop(Apply(s, a))
  {
    StepKeeps(s, a);
    GracefulStep(s, a);
    AnnouncesStep(s, a);
    DrainStep(s, a);
    if !a.StopperStep? && !a.Stop? { StopperStays(s, a); }
    assert Apply(s, a).stopper.force == s.stopper.force by { hide StepSender, StepPoller, Inv, Announces; }
    hide Apply, Inv, Graceful, Announces, ComparesRight;
  }

  /** What the poller's next step does with the pending size, and where it leads. */
  ghost predicate Nears<T>(s: State<T>, s': State<T>) {
    && (s'.st == s.st || (s.poller.Ending? || s.poller.EventStopped?))
    && (AtEnd(s') ==> s'.core.pending == 0 || (AtEnd(s) && s'.core.pending == s.core.pending))
  }

  lemma ResendingNears<T>(s: State<T>, a: Answer)
    requires Inv(s) && ComparesRight(s, PollerStep(a)) && Resends(s.poller)
    ensures Nears(s, PollerResending(s, a))
  {
    if s.poller.ReSubtracting? { SubtractOk(s.core, Uncounted(s.sender), Quiet); }
    hide CoreOk, StatusOk;
  }

  lemma SendingNears<T>(s: State<T>, a: Answer)
    requires Inv(s) && ComparesRight(s, PollerStep(a)) && Sends(s.poller)
    ensures Nears(s, PollerSending(s, a))
  {
    if s.poller.PSubtracting? { SubtractOk(s.core, Uncounted(s.sender), Quiet); }
    hide CoreOk, StatusOk;
  }

  lemma EndingNears<T>(s: State<T>, a: Answer)
    requires Inv(s) && Graceful(s) && !s.faulted && !s.st.Started? && !Resends(s.poller) && !Sends(s.poller)
    requires !PollerEnding(s, a).faulted
    ensures Nears(s, PollerEnding(s, a))
  {
    hide CoreOk, TokenOk;
  }

  lemma PollerNears<T>(s: State<T>, a: Answer)
    requires Inv(s) && Graceful(s) && !s.faulted && !s.st.Started? && ComparesRight(s, PollerStep(a))
    requires !StepPoller(s, a).faulted
    ensures Nears(s, StepPoller(s, a))
  {
    hide Inv, Graceful, ComparesRight, Nears, PollerResending, PollerSending, PollerEnding;
    if Resends(s.poller) { ResendingNears(s, a); } else if Sends(s.poller) { SendingNears(s, a); } else { EndingNears(s, a); }
  }

  /** After the drain nobody but the poller touches the core, the poller's place at the end, or the status. */
  ghost predicate StaysPut<T>(s: State<T>, s': State<T>) {
    s'.core == s.core && s'.st == s.st && (AtEnd(s') ==> AtEnd(s))
  }

  lemma OthersStayPut<T>(s: State<T>, a: Action<T>)
    requires GracefulStop(s) && !a.PollerStep?
    ensures StaysPut(s, Apply(s, a))
  {
    if a.SenderStep? {
      assert s.sender.Outside? || s.sender.Seen? || s.sender.Counted? || s.sender.Leaving?;
      hide SenderSending;
    } else {
      hide StepSender, StepPoller;
    }
    hide CoreOk, TokenOk, Announces;
  }

  lemma CleanStep<T>(s: State<T>, a: Action<T>)
    requires GracefulStop(s) && Clean(s) && ComparesRight(s, a) && !Apply(s, a).faulted && !s.st.Started?
    ensures Clean(Apply(s, a))
  {
    var s' := Apply(s, a);
    if AtEnd(s) { DrainedIsSent(s); }
    if AllSent(s) { AllSentStays(s, a); }
    if a.PollerStep? {
      PollerNears(s, a.pAnswer);
      assert s.poller.EventStopped? ==> AllSent(s) by { hide Inv, AllSent; }
    } else {
      OthersStayPut(s, a);
    }
    hide Inv, Graceful, Announces, Apply, AllSent;
  }

  lemma FaultStays<T>(s: State<T>, a: Action<T>, acts: seq<Action<T>>)
    requires !Run(Apply(s, a), acts).faulted
    ensures !s.faulted && !Apply(s, a).faulted
  {
    StepGrows(s, a);
    RunGrows(Apply(s, a), acts);
    hide Apply, Run;
  }

  lemma {:induction false} CleanRun<T>(s: State<T>, acts: seq<Action<T>>)
    requires GracefulStop(s) && Clean(s) && !s.st.Started? && RightRun(s, acts) && !Run(s, acts).faulted
    ensures Clean(Run(s, acts))
    decreases |acts|
  {
    hide GracefulStop, Clean, Apply, ComparesRight;
    if acts != [] {
      FaultStays(s, acts[0], acts[1..]);
      CleanStep(s, acts[0]);
      GracefulStopStays(s, acts[0]);
      NeverStartsAgain(s, acts[0]);
      CleanRun(Apply(s, acts[0]), acts[1..]);
    }
  }

  /** A run without faults and wrong comparisons that comes to stopped_cb with accepted bytes unsent. */
  ghost predicate CutsOff<T>(s: State<T>, acts: seq<Action<T>>) {
    RightRun(s, acts) && !Run(s, acts).faulted && Run(s, acts).st.Stopped? && !AllSent(Run(s, acts))
  }

  lemma EndIsReached<T>(s: State<T>) returns (acts: seq<Action<T>>)
    requires GracefulStop(s) && s.st.Stopping? && AtEnd(s) && s.core.pending > 0
    ensures CutsOff(s, acts)
  {
    var step: Action<T> := PollerStep(Again);
    assert !AllSent(s) by { AllOnWireIff(s); hide CoreOk, TokenOk; }
    if s.poller.Ending? {
      acts := [step];
      CallbackNow(s, step);
    } else {
      acts := [step] + [step];
      var s' := s.(poller := Ending);
      assert Apply(s, step) == s' && ComparesRight(s, step) && acts[0] == step && acts[1..] == [step];
      CallbackNow(s', step);
    }
    hide GracefulStop, Apply, AllSent;
  }

  lemma CallbackNow<T>(s: State<T>, a: Action<T>)
    requires s.poller.Ending? && s.st.Stopping? && a.PollerStep?
    ensures RightRun(s, [a]) && Run(s, [a]) == s.(st := Stopped, stoppedCbs := s.stoppedCbs + 1, poller := Waiting)
  {
    hide PollerResending, PollerSending;
    assert [a][1..] == [];
    assert Run(Apply(s, a), []) == Apply(s, a);
  }

  lemma CutsOffFromIff<T(!new)>(s: State<T>)
    requires GracefulStop(s) && s.st.Stopping?
    ensures (exists acts: seq<Action<T>> :: CutsOff(s, acts)) <==> s.core.pending > 0 && AtEnd(s)
  {
    if s.core.pending > 0 && AtEnd(s) {
      var acts := EndIsReached(s);
      assert CutsOff(s, acts);
    } else {
      assert Clean(s);
      forall acts: seq<Action<T>> ensures !CutsOff(s, acts) {
        if RightRun(s, acts) && !Run(s, acts).faulted { CleanRun(s, acts); }
      }
    }
  }

  /** From any moment after a graceful stop has seen pending_opt_cnt_ at zero, stopped_cb can come with accepted bytes
      unsent, without a fault or a wrong comparison, if and only if bytes are pending while the poller is at line 354,
      or about to come there from a comparison that found nothing left before those bytes were sent. */
  lemma GracefulCutsOffIff<T(!new)>(sizeFirst: bool, before: seq<Action<T>>)
    requires RightRun(Init<T>(sizeFirst), before)
    requires var s := Run(Init<T>(sizeFirst), before);
      !s.faulted && s.st.Stopping? && PastDrain(s.stopper) && !s.stopper.force
    ensures var s := Run(Init<T>(sizeFirst), before);
      (exists acts: seq<Action<T>> :: CutsOff(s, acts)) <==> s.core.pending > 0 && AtEnd(s)
  {
    InitOk<T>(sizeFirst);
    AnnouncesRun(Init<T>(sizeFirst), before);
    hide Inv, Graceful, Announces, RightRun;
    CutsOffFromIff(Run(Init<T>(sizeFirst), before));
  }
}
