/** Which end callback of TcpSend still comes: a disconnected transport always has somebody about to announce it; for a
    stopping one there is an exact condition under which stopped_cb never comes. */
module TcpHang {
  import opened Wrappers
  import opened TcpSend
  import Drain = TcpDrain
  import Cases = TcpCases

  // ---------------------------------------------------------------------------------------------
  // Disconnected
  // ---------------------------------------------------------------------------------------------

  /** Somebody is about to run disconnected_cb, or to post the event that leads to it. */
  predicate DisconnectAhead<T>(s: State<T>) {
    s.sender.Posting? || s.events > 0 || s.poller.Broken? || s.poller.EventDisconnected? || s.reader.ReadFailed?
  }

  predicate Announced<T>(s: State<T>) { s.st.Disconnecting? ==> DisconnectAhead(s) }

  lemma SenderAnnounces<T>(s: State<T>, a: Answer)
    requires Announced(s)
    ensures Announced(StepSender(s, a))
  {
    if Enters(s.sender) { hide SenderSending, SenderLeaving; }
    else if Leaves(s.sender) { hide SenderSending, SenderEntering; }
    else { hide SenderEntering, SenderLeaving; }
  }

  lemma PollerAnnounces<T>(s: State<T>, a: Answer)
    requires Announced(s)
    ensures Announced(StepPoller(s, a))
  {
    ResendingLeaves(s, a);
    SendingLeaves(s, a);
    hide PollerResending, PollerSending;
  }

  lemma StepAnnounces<T>(s: State<T>, a: Action<T>)
    requires Announced(s)
    ensures Announced(Apply(s, a))
  {
    match a {
      case SenderStep(answer) => SenderAnnounces(s, answer);
      case PollerStep(answer) => PollerAnnounces(s, answer);
      case _ =>
    }
    hide StepSender, StepPoller;
  }

  lemma {:induction false} RunAnnounces<T>(s: State<T>, acts: seq<Action<T>>)
    requires Announced(s)
    ensures Announced(Run(s, acts))
    decreases |acts|
  {
    if acts != [] {
      StepAnnounces(s, acts[0]);
      hide Apply, Announced;
      RunAnnounces(Apply(s, acts[0]), acts[1..]);
    }
  }

  /** In all runs whatever: while the state is disconnecting somebody is about to announce it, so disconnected_cb or,
      after a stop, stopped_cb can follow. */
  lemma DisconnectIsAhead<T>(sizeFirst: bool, acts: seq<Action<T>>)
    ensures var s := Run(Init<T>(sizeFirst), acts); s.st.Disconnecting? ==> DisconnectAhead(s)
  {
    RunAnnounces(Init<T>(sizeFirst), acts);
  }

  // ---------------------------------------------------------------------------------------------
  // Ways to stopped_cb
  // ---------------------------------------------------------------------------------------------

  ghost predicate CanStop<T(!new)>(s: State<T>) {
    exists acts: seq<Action<T>> :: Run(s, acts).st.Stopped?
  }

  lemma StepBack<T(!new)>(s: State<T>, a: Action<T>)
    requires CanStop(Apply(s, a))
    ensures CanStop(s)
  {
    hide Apply;
    var rest: seq<Action<T>> :| Run(Apply(s, a), rest).st.Stopped?;
    assert ([a] + rest)[1..] == rest;
    assert Run(s, [a] + rest).st.Stopped?;
  }

  lemma StoppedCan<T(!new)>(s: State<T>)
    requires s.st.Stopped?
    ensures CanStop(s)
  {
    assert Run(s, []).st.Stopped?;
  }

  /** How far a poller whose socket fails is from line 354, or from the callback of an event. */
  function ToEnd(pc: Poller): nat {
    match pc
    case Waiting => 0
    case Ending => 1
    case EventStopped => 1
    case EventDisconnected => 2
    case Breaking => 2
    case Broken => 2
    case Resending => 3
    case PWriting => 3
    case PPolling => 3
    case PPopping => 4
    case PArming => 4
    case Entered => 5
    case ReComparing(before, was) => 5
    case PComparing(before, was) => 5
    case ReSubtracting => 6
    case PSubtracting => 6
    case ReCompleting => 7
    case PCompleting => 7
  }

  ghost predicate Closer<T>(s: State<T>, s': State<T>) {
    s'.st == s.st && !s'.poller.Waiting? && ToEnd(s'.poller) < ToEnd(s.poller)
  }

  lemma ResendingCloser<T>(s: State<T>)
    requires Resends(s.poller)
    ensures Closer(s, PollerResending(s, Fault))
  {}

  lemma SendingCloser<T>(s: State<T>)
    requires Sends(s.poller)
    ensures Closer(s, PollerSending(s, Fault))
  {}

  lemma {:induction false} FromPoller<T(!new)>(s: State<T>)
    requires s.st.Stopping? && !s.poller.Waiting?
    ensures CanStop(s)
    decreases ToEnd(s.poller)
  {
    var s' := Apply(s, PollerStep(Fault));
    if Resends(s.poller) { ResendingCloser(s); } else if Sends(s.poller) { SendingCloser(s); }
    hide PollerResending, PollerSending;
    if s'.st.Stopped? { StoppedCan(s'); } else { FromPoller(s'); }
    hide Apply;
    StepBack(s, PollerStep(Fault));
  }

  lemma FromEvents<T(!new)>(s: State<T>)
    requires s.st.Stopping? && s.events > 0
    ensures CanStop(s)
  {
    if s.poller.Waiting? {
      FromPoller(Apply(s, ChannelEvent));
      StepBack(s, ChannelEvent);
    } else {
      FromPoller(s);
    }
  }

  lemma FromTracker<T(!new)>(s: State<T>)
    requires s.st.Stopping? && s.tracker.On?
    ensures CanStop(s)
  {
    if s.poller.Waiting? {
      FromPoller(Apply(s, TrackerEvent));
      StepBack(s, TrackerEvent);
    } else {
      FromPoller(s);
    }
  }

  /** The sender has something to do that leads to an event or to the tracker. */
  predicate SenderWay<T>(s: State<T>) {
    match s.sender
    case Posting => true
    case Polling => true
    case Arming => true
    case Writing => true
    case Popping => true
    case Comparing(before, was) => before > was
    case Subtracting => s.core.pending > s.core.lastSize
    case Completing => s.core.pending > s.core.lastSize
    case Listed(b) => s.core.pending == 0
    case Admitted(b) => s.core.pending == 0
    case _ => false
  }

  /** What will be pending when no send is in its body any more. */
  function AtDrain<T>(s: State<T>): int {
    s.core.pending - (if s.sender.Completing? || s.sender.Subtracting? then s.core.lastSize else 0)
  }

  /** The stop will post its event. */
  predicate StopperWay<T>(s: State<T>) {
    match s.stopper
    case NotStopping => false
    case Won(force) => force || AtDrain(s) == 0
    case Drained(force) => force || s.core.pending == 0
    case StopPosting(force) => true
    case Done(force, posted) => false
  }

  /** Nobody is on the way to stopped_cb. */
  predicate NoWay<T>(s: State<T>) {
    s.poller.Waiting? && s.events == 0 && !s.tracker.On? && !SenderWay(s) && !StopperWay(s)
  }

  lemma SenderWayStays<T>(s: State<T>)
    requires Inv(s) && s.st.Stopping? && SenderWay(s) && !s.sender.Posting? && !s.sender.Polling?
    ensures var s' := StepSender(s, Again);
      s'.st == s.st && SenderWay(s') && Drain.SenderRank(s'.sender) < Drain.SenderRank(s.sender)
  {
    hide StatusOk;
  }

  lemma {:induction false} FromSender<T(!new)>(s: State<T>)
    requires Inv(s) && s.st.Stopping? && SenderWay(s)
    ensures CanStop(s)
    decreases Drain.SenderRank(s.sender)
  {
    var s' := Apply(s, SenderStep(Again));
    if s.sender.Posting? {
      assert s' == s.(events := s.events + 1, sender := Leaving);
      FromEvents(s');
    } else if s.sender.Polling? {
      assert s' == s.(tracker := On, sender := Leaving);
      FromTracker(s');
    } else {
      SenderWayStays(s);
      StepKeeps(s, SenderStep(Again));
      hide Inv, StepSender, SenderWay;
      FromSender(s');
    }
    hide Apply;
    StepBack(s, SenderStep(Again));
  }

  lemma FromDrained<T(!new)>(s: State<T>)
    requires s.st.Stopping? && StopperWay(s) && !s.stopper.Won?
    ensures CanStop(s)
  {
    var s' := Apply(s, StopperStep);
    if s.stopper.StopPosting? {
      FromEvents(s');
    } else {
      assert s'.stopper.StopPosting?;
      var s'' := Apply(s', StopperStep);
      FromEvents(s'');
      StepBack(s', StopperStep);
    }
    StepBack(s, StopperStep);
  }

  /** Where a sender without a way of its own can be, and where it goes. */
  ghost predicate Leads<T>(s: State<T>, s': State<T>) {
    && s'.st == s.st && s'.stopper == s.stopper && !SenderWay(s') && (AtDrain(s) == 0 ==> AtDrain(s') == 0)
    && AtDrain(s) >= 0 && (AtDrain(s) > 0 ==> AtDrain(s') > 0) && s'.poller == s.poller && s'.events == s.events && s'.tracker == s.tracker
    && (s.opt != 0 ==> Remaining(s'.sender) < Remaining(s.sender))
  }

  function Remaining<T>(pc: Sender<T>): nat { Drain.SenderRank(pc) + if pc.Failing? then 2 else 0 }

  lemma EnteringLeads<T>(s: State<T>)
    requires Inv(s) && s.st.Stopping? && !SenderWay(s) && Enters(s.sender)
    ensures Leads(s, SenderEntering(s))
  {
    hide CoreOk;
  }

  lemma SendingLeads<T>(s: State<T>, a: Answer)
    requires Inv(s) && s.st.Stopping? && !SenderWay(s) && !Enters(s.sender) && !Leaves(s.sender)
    ensures Leads(s, SenderSending(s, a))
  {
    assert s.sender.Completing? || s.sender.Subtracting? || s.sender.Comparing?;
    assert s.sender.Completing? || s.sender.Subtracting? ==> s.core.pending >= s.core.lastSize by {
      if s.sender.Subtracting? { SubtractOk(s.core, None, Quiet); } else if s.sender.Completing? { LastIsPending(s.core); }
      hide CoreOk;
    }
    hide CoreOk;
  }

  lemma LastIsPending<T>(c: Core<T>)
    requires CoreOk(c, ToComplete, None)
    ensures c.pending >= c.lastSize
  {}

  lemma LeavingLeads<T>(s: State<T>, a: Answer)
    requires Inv(s) && s.st.Stopping? && !SenderWay(s) && Leaves(s.sender)
    ensures Leads(s, SenderLeaving(s, a))
  {
    hide CoreOk;
  }

  lemma SenderLeads<T>(s: State<T>, a: Answer)
    requires Inv(s) && s.st.Stopping? && !SenderWay(s)
    ensures Leads(s, StepSender(s, a))
  {
    hide Inv, Leads, SenderWay;
    if Enters(s.sender) { EnteringLeads(s); } else if Leaves(s.sender) { LeavingLeads(s, a); } else { SendingLeads(s, a); }
  }

  lemma {:induction false} FromWon<T(!new)>(s: State<T>)
    requires Inv(s) && s.st.Stopping? && s.stopper.Won? && StopperWay(s)
    ensures CanStop(s)
    decreases Remaining(s.sender)
  {
    if SenderWay(s) {
      FromSender(s);
    } else if s.opt == 0 {
      var s' := Apply(s, StopperStep);
      FromDrained(s');
      StepBack(s, StopperStep);
    } else {
      var s' := Apply(s, SenderStep(Again));
      SenderLeads(s, Again);
      StepKeeps(s, SenderStep(Again));
      hide Inv, StepSender;
      FromWon(s');
      StepBack(s, SenderStep(Again));
    }
  }

  // ---------------------------------------------------------------------------------------------
  // No way
  // ---------------------------------------------------------------------------------------------

  lemma SenderKeepsNoWay<T>(s: State<T>, a: Answer)
    requires Inv(s) && s.st.Stopping? && NoWay(s)
    ensures StepSender(s, a).st == s.st && NoWay(StepSender(s, a))
  {
    SenderLeads(s, a);
    if PastDrain(s.stopper) { SenderDrained(s, a); }
    hide CoreOk, TokenOk, StepSender, SenderWay;
  }

  /** With the drain behind it, and no send in its body, what is pending stays. */
  lemma SenderDrained<T>(s: State<T>, a: Answer)
    requires StatusOk(s) && PastDrain(s.stopper)
    ensures StepSender(s, a).core == s.core
  {
    hide SenderSending;
  }

  lemma StepKeepsNoWay<T>(s: State<T>, a: Action<T>)
    requires Inv(s) && s.st.Stopping? && NoWay(s)
    ensures Apply(s, a).st.Stopping? && NoWay(Apply(s, a)) && Inv(Apply(s, a))
  {
    StepKeeps(s, a);
    match a {
      case SenderStep(answer) => SenderKeepsNoWay(s, answer);
      case StopperStep => StopperKeepsNoWay(s);
      case _ =>
    }
    hide Inv, StepSender, StepStopper;
  }

  lemma StopperKeepsNoWay<T>(s: State<T>)
    requires Inv(s) && s.st.Stopping? && NoWay(s)
    ensures NoWay(StepStopper(s)) && StepStopper(s).st == s.st
  {
    hide CoreOk;
  }

  lemma {:induction false} StaysNoWay<T>(s: State<T>, acts: seq<Action<T>>)
    requires Inv(s) && s.st.Stopping? && NoWay(s)
    ensures Run(s, acts).st.Stopping?
    decreases |acts|
  {
    if acts != [] {
      StepKeepsNoWay(s, acts[0]);
      hide Inv, NoWay, Apply;
      StaysNoWay(Apply(s, acts[0]), acts[1..]);
    }
  }

  /** At any moment of a run whose comparisons come out right, faults and all, while the state is stopping: stopped_cb
      will never come, whatever happens, if and only if nobody is on the way to it. */
  lemma NeverStopsIff<T(!new)>(sizeFirst: bool, before: seq<Action<T>>)
    requires RightRun(Init<T>(sizeFirst), before) && Run(Init<T>(sizeFirst), before).st.Stopping?
    ensures var s := Run(Init<T>(sizeFirst), before);
      !CanStop(s) <==> NoWay(s)
  {
    InitOk<T>(sizeFirst);
    RunKeeps(Init<T>(sizeFirst), before);
    var s := Run(Init<T>(sizeFirst), before);
    hide Inv, NoWay, RightRun, Run;
    StopsIff(s);
  }

  lemma StopsIff<T(!new)>(s: State<T>)
    requires Inv(s) && s.st.Stopping?
    ensures CanStop(s) <==> !NoWay(s)
  {
    hide Inv, StopperWay, SenderWay;
    if NoWay(s) {
      forall acts: seq<Action<T>> ensures !Run(s, acts).st.Stopped? { StaysNoWay(s, acts); }
    } else if !s.poller.Waiting? { FromPoller(s); }
    else if s.events > 0 { FromEvents(s); }
    else if s.tracker.On? { FromTracker(s); }
    else if SenderWay(s) { FromSender(s); }
    else if s.stopper.Won? { FromWon(s); }
    else { FromDrained(s); }
  }

  lemma ReachableNever<T(!new)>(s: State<T>)
    requires Cases.Reachable(s) && s.st.Stopping? && NoWay(s)
    ensures !CanStop(s)
  {
    hide Inv, NoWay;
    var acts: seq<Action<T>> :| RightRun(Init<T>(s.sizeFirst), acts) && Run(Init<T>(s.sizeFirst), acts) == s;
    InitOk<T>(s.sizeFirst);
    RunKeeps(Init<T>(s.sizeFirst), acts);
    StopsIff(s);
  }

  /** A stop that finds the transport disconnecting turns that into stopping, for stopped_cb to run in place of
      disconnected_cb (lines 127-130). If it was the reader that found the peer gone, it may never run: the reader's
      exchange then fails, and nobody else looks. */
  lemma LateStopCanHang(sizeFirst: bool)
    ensures exists s: State<int> :: Cases.Reachable(s) && s.sizeFirst == sizeFirst && s.st.Disconnecting? && s.core.pending == 0
              && !CanStop(Apply(s, LateStop))
  {
    var s: State<int> := Cases.Start(sizeFirst);
    s := Cases.Reach(s, PeerGone);
    var t := Cases.Reach(s, LateStop);
    assert t.st.Stopping? && NoWay(t);
    ReachableNever(t);
  }

  /** A graceful stop that waits for a send whose socket fails finds bytes pending, posts nothing, and stopped_cb never
      runs: the failed send no longer finds the transport started. */
  lemma GracefulStopCanHang(sizeFirst: bool)
    ensures exists s: State<int> :: Cases.Reachable(s) && s.sizeFirst == sizeFirst && s.st.Stopping?
              && s.stopper == Done(false, false) && !CanStop(s)
  {
    var s: State<int> := Cases.Start(sizeFirst);
    s := Cases.SendPops(s, [1]);
    s := Cases.Reach(s, Stop(false));
    s := Cases.Reach(s, SenderStep(Fault));
    assert s.sender.Failing? && s.core.pending == 1 && s.stopper == Won(false) && s.st.Stopping?;
    s := FailedSendLeaves(s);
    ReachableNever(s);
  }

  lemma FailedSendLeaves(s: State<int>) returns (r: State<int>)
    requires Cases.Reachable(s) && s.sender.Failing? && s.opt == 1 && s.stopper == Won(false) && s.st.Stopping?
    requires s.core.pending > 0 && s.poller.Waiting? && s.events == 0 && !s.tracker.On?
    ensures Cases.Reachable(r) && r.sizeFirst == s.sizeFirst && r.st.Stopping? && r.stopper == Done(false, false) && NoWay(r)
  {
    r := Cases.Reach(s, SenderStep(Again));
    r := Cases.Reach(r, SenderStep(Again));
    assert r == s.(sender := Outside, opt := 0);
    r := Cases.Reach(r, StopperStep);
    r := Cases.Reach(r, StopperStep);
  }
}
