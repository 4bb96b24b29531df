/** Nothing that TcpSend accepts gets stuck: while the transport stays started and nothing fails, every buffer accepted,
    and every one that a send is about to push, can still be sent and reported. */
module TcpDrain {
  import opened Wrappers
  import opened TcpSend
  import Stop = TcpStop

  /** What the socket or epoll answers if all is well: it takes everything. */
  function Willing<T>(s: State<T>): Answer {
    if s.core.last.Some? && s.core.last.value != [] then Took(|s.core.last.value|) else Again
  }

  /** The poller goes on as long as it has something to do, then the sender, then the tracker. */
  function Next<T>(s: State<T>): Action<T> {
    if !s.poller.Waiting? then PollerStep(Willing(s))
    else if !s.sender.Outside? then SenderStep(Willing(s))
    else TrackerEvent
  }

  predicate Finished<T>(s: State<T>) { s.poller.Waiting? && s.sender.Outside? && s.tracker.Off? }

  /** The buffer of a send that has yet to push it. */
  function Coming<T>(pc: Sender<T>): seq<seq<T>> {
    if pc.Seen? || pc.Counted? || pc.Admitted? then [pc.b] else []
  }

  /** The bytes that are still to be written. */
  function Left<T>(s: State<T>): nat {
    (if s.core.last.Some? then |s.core.last.value| else 0) + Sizes(s.core.list) + Sizes(Coming(s.sender))
  }

  function PollerRank(pc: Poller): nat {
    match pc
    case Waiting => 0
    case Entered => 7
    case Resending => 6
    case ReCompleting => 13
    case ReSubtracting => 12
    case ReComparing(before, was) => 11
    case PPopping => 6
    case PWriting => 5
    case PCompleting => 13
    case PSubtracting => 12
    case PComparing(before, was) => 11
    case PArming => 10
    case PPolling => 1
    case Ending => 1
    case _ => 0
  }

  function SenderRank<T>(pc: Sender<T>): nat {
    match pc
    case Outside => 0
    case Seen(b) => 20
    case Counted(b) => 19
    case Admitted(b) => 18
    case Listed(b) => 17
    case Popping => 16
    case Writing => 15
    case Completing => 14
    case Subtracting => 13
    case Comparing(before, was) => 12
    case Arming => 11
    case Polling => 2
    case Leaving => 1
    case _ => 0
  }

  /** How many steps there can be before the next byte is written, or nothing is left to do. */
  function Rank<T>(s: State<T>): nat {
    PollerRank(s.poller) + SenderRank(s.sender) + (if s.tracker.Off? then 0 else 8)
  }

  /** Without faults, whoever has put the tracker down as tracking is about to tell epoll. */
  predicate ArmingOk<T>(s: State<T>) {
    !s.faulted && s.tracker.Starting? ==> s.sender.Polling? || s.poller.PPolling?
  }

  lemma SenderArms<T>(s: State<T>, a: Answer)
    requires ArmingOk(s) && !s.faulted
    ensures ArmingOk(StepSender(s, a))
  {
    if Enters(s.sender) { hide SenderSending, SenderLeaving; }
    else if Leaves(s.sender) { hide SenderSending, SenderEntering; }
    else { hide SenderEntering, SenderLeaving; }
  }

  lemma PollerArms<T>(s: State<T>, a: Answer)
    requires ArmingOk(s) && !s.faulted
    ensures ArmingOk(StepPoller(s, a))
  {
    if Resends(s.poller) { hide PollerSending, PollerEnding; }
    else if Sends(s.poller) { hide PollerResending, PollerEnding; }
    else { hide PollerResending, PollerSending; }
  }

  lemma StepArms<T>(s: State<T>, a: Action<T>)
    requires ArmingOk(s)
    ensures ArmingOk(Apply(s, a))
  {
    Stop.StepGrows(s, a);
    if !s.faulted {
      match a {
        case SenderStep(answer) => SenderArms(s, answer);
        case PollerStep(answer) => PollerArms(s, answer);
        case _ =>
      }
    }
    hide StepSender, StepPoller;
  }

  lemma {:induction false} RunArms<T>(s: State<T>, acts: seq<Action<T>>)
    requires ArmingOk(s)
    ensures ArmingOk(Run(s, acts))
    decreases |acts|
  {
    if acts != [] {
      StepArms(s, acts[0]);
      hide Apply, ArmingOk;
      RunArms(Apply(s, acts[0]), acts[1..]);
    }
  }

  /** A started transport on which nothing has failed, and no comparison is about to come out wrong. */
  ghost predicate Sound<T>(s: State<T>) {
    && Inv(s) && ArmingOk(s) && Graceful(s) && !s.faulted && s.st.Started?
    && ComparesRight(s, PollerStep(Again))
  }

  /** Closer to the end: a byte less to be written, or a step less until the next one is. */
  ghost predicate Nears<T>(s: State<T>, s': State<T>) {
    && !s'.faulted && s'.st == s.st
    && (Left(s') < Left(s) || (Left(s') == Left(s) && Rank(s') < Rank(s)))
    && s'.core.accepted + Coming(s'.sender) == s.core.accepted + Coming(s.sender)
    && (Compares(s'.poller) ==> s'.poller.was == s'.core.lastSize)
  }

  lemma ResendingNears<T>(s: State<T>)
    requires Sound(s) && Resends(s.poller)
    ensures Nears(s, PollerResending(s, Willing(s)))
  {
    hide StatusOk, WireOk, Graceful;
  }

  lemma SendingNears<T>(s: State<T>)
    requires Sound(s) && Sends(s.poller)
    ensures Nears(s, PollerSending(s, Willing(s)))
  {
    if s.poller.PPopping? { PoppingNears(s); }
    else if s.poller.PWriting? { WritingNears(s); }
    else { RestNears(s); }
    hide Sound, Nears;
  }

  lemma PoppingNears<T>(s: State<T>)
    requires Sound(s) && s.poller.PPopping?
    ensures Nears(s, PollerSending(s, Willing(s)))
  {
    PopOk(s.core, Uncounted(s.sender));
    hide CoreOk, Graceful;
  }

  lemma WritingNears<T>(s: State<T>)
    requires Sound(s) && s.poller.PWriting?
    ensures Nears(s, PollerSending(s, Willing(s)))
  {
    hide StatusOk, WireOk, Graceful, SizeOk;
  }

  lemma RestNears<T>(s: State<T>)
    requires Sound(s) && Sends(s.poller) && !s.poller.PPopping? && !s.poller.PWriting?
    ensures Nears(s, PollerSending(s, Willing(s)))
  {
    hide StatusOk, CoreOk, Graceful;
  }

  lemma EndingNears<T>(s: State<T>)
    requires Sound(s) && !Resends(s.poller) && !Sends(s.poller) && !s.poller.Waiting?
    ensures Nears(s, PollerEnding(s, Willing(s)))
  {
    hide CoreOk;
  }

  lemma SenderEntersNears<T>(s: State<T>)
    requires Sound(s) && Enters(s.sender) && !s.sender.Outside? && s.poller.Waiting?
    ensures Nears(s, SenderEntering(s))
  {
    assert forall b: seq<T> :: [b][1..] == [];
    if s.sender.Admitted? { SizesAppend(s.core.list, s.sender.b); }
    hide CoreOk, Graceful;
  }

  lemma SenderSendsNears<T>(s: State<T>)
    requires Sound(s) && !Enters(s.sender) && !Leaves(s.sender) && s.poller.Waiting?
    ensures Nears(s, SenderSending(s, Willing(s)))
  {
    if s.sender.Popping? { PopOk(s.core, Uncounted(s.sender)); }
    hide StatusOk, WireOk, Graceful;
  }

  lemma SenderLeavesNears<T>(s: State<T>)
    requires Sound(s) && Leaves(s.sender) && s.poller.Waiting?
    ensures Nears(s, SenderLeaving(s, Willing(s)))
  {
    hide CoreOk;
  }

  lemma NextNears<T>(s: State<T>)
    requires Sound(s) && !Finished(s)
    ensures ComparesRight(s, Next(s)) && Nears(s, Apply(s, Next(s))) && Sound(Apply(s, Next(s)))
  {
    var s' := Apply(s, Next(s));
    if s.poller.Waiting? && s.sender.Outside? {
      assert s.tracker.On? by { hide Inv, Graceful; }
      assert Nears(s, s') by { hide Inv, Graceful, StepPoller, StepSender; }
    } else {
      BusyNears(s);
    }
    assert ComparesRight(s, Next(s)) by { hide Inv, Graceful; }
    StaysSound(s);
  }

  lemma BusyNears<T>(s: State<T>)
    requires Sound(s) && (!s.poller.Waiting? || !s.sender.Outside?)
    ensures Nears(s, Apply(s, Next(s)))
  {
    hide Sound, Nears, SenderEntering, SenderSending, SenderLeaving, PollerResending, PollerSending, PollerEnding;
    if !s.poller.Waiting? {
      if Resends(s.poller) { ResendingNears(s); } else if Sends(s.poller) { SendingNears(s); } else { EndingNears(s); }
    } else {
      if Enters(s.sender) { SenderEntersNears(s); } else if Leaves(s.sender) { SenderLeavesNears(s); } else { SenderSendsNears(s); }
    }
  }

  lemma StaysSound<T>(s: State<T>)
    requires Sound(s) && ComparesRight(s, Next(s)) && Nears(s, Apply(s, Next(s)))
    ensures Sound(Apply(s, Next(s)))
  {
    var s' := Apply(s, Next(s));
    StepKeeps(s, Next(s));
    GracefulStep(s, Next(s));
    StepArms(s, Next(s));
    hide Inv, Graceful, Apply, Left, Rank, ArmingOk;
  }

  /** Nobody sends anything new or stops, the peer stays, and neither socket nor epoll fails. */
  predicate AllWell<T>(acts: seq<Action<T>>) {
    forall i :: 0 <= i < |acts| ==>
      acts[i].TrackerEvent? || (acts[i].SenderStep? && !acts[i].answer.Fault?) || (acts[i].PollerStep? && !acts[i].pAnswer.Fault?)
  }

  /** A run that sends these buffers, and whatever was accepted before, to the last byte, and reports them all. */
  ghost predicate SendsAll<T>(s: State<T>, acts: seq<Action<T>>, more: seq<seq<T>>) {
    var t := Run(s, acts);
    && AllWell(acts) && RightRun(s, acts) && !t.faulted && t.st.Started? && Finished(t)
    && t.core.accepted == s.core.accepted + more
    && t.core.wire == Concat(t.core.accepted) && t.core.done == t.core.accepted && t.core.pending == 0
  }

  lemma FinishedIsSent<T>(s: State<T>)
    requires Sound(s) && Finished(s)
    ensures s.core.wire == Concat(s.core.accepted) && s.core.done == s.core.accepted && s.core.pending == 0
  {
    AllOnWireIff(s);
    SizesPositive(s.core.list);
    hide StatusOk, Graceful;
  }

  lemma {:induction false} Drains<T>(s: State<T>) returns (acts: seq<Action<T>>)
    requires Sound(s)
    ensures SendsAll(s, acts, Coming(s.sender))
    decreases Left(s), Rank(s)
  {
    if Finished(s) {
      acts := [];
      FinishedIsSent(s);
      hide Sound;
      assert Run(s, acts) == s;
      assert s.core.accepted + [] == s.core.accepted;
    } else {
      NextNears(s);
      var s' := Apply(s, Next(s));
      hide Sound;
      var rest := Drains(s');
      acts := [Next(s)] + rest;
      assert acts[1..] == rest;
      hide Left, Rank, Apply, Run, ComparesRight;
      RunCons(s, Next(s), rest);
    }
  }

  lemma RunCons<T>(s: State<T>, a: Action<T>, rest: seq<Action<T>>)
    ensures Run(s, [a] + rest) == Run(Apply(s, a), rest)
    ensures RightRun(s, [a] + rest) <==> ComparesRight(s, a) && RightRun(Apply(s, a), rest)
  {
    hide Apply, ComparesRight;
    assert ([a] + rest)[1..] == rest;
  }

  lemma SoundInit<T>(sizeFirst: bool, before: seq<Action<T>>)
    requires RightRun(Init<T>(sizeFirst), before)
    ensures var s := Run(Init<T>(sizeFirst), before); Inv(s) && Graceful(s) && ArmingOk(s)
  {
    RunArms(Init<T>(sizeFirst), before);
    InitOk<T>(sizeFirst);
    GracefulRun(Init<T>(sizeFirst), before);
  }

  /** At any moment of a run without faults and wrong comparisons, unless one is about to come out wrong: while the
      transport is started, whatever was accepted, and the buffer of a send under way, can still be sent and reported,
      with nobody else doing anything. */
  lemma EverythingCanBeSent<T(!new)>(sizeFirst: bool, before: seq<Action<T>>)
    requires RightRun(Init<T>(sizeFirst), before)
    requires var s := Run(Init<T>(sizeFirst), before);
      !s.faulted && s.st.Started? && ComparesRight(s, PollerStep(Again))
    ensures var s := Run(Init<T>(sizeFirst), before);
      exists acts: seq<Action<T>> :: SendsAll(s, acts, Coming(s.sender))
  {
    SoundInit<T>(sizeFirst, before);
    hide Inv, Graceful, RightRun;
    var acts := Drains(Run(Init<T>(sizeFirst), before));
  }

  /** ... and a send that begins then, whatever is pending, is accepted, and its buffer can be sent after the others. */
  lemma NewSendCanBeSent<T(!new)>(sizeFirst: bool, before: seq<Action<T>>, b: seq<T>)
    requires RightRun(Init<T>(sizeFirst), before) && b != []
    requires var s := Run(Init<T>(sizeFirst), before);
      !s.faulted && s.st.Started? && s.sender.Outside? && ComparesRight(s, PollerStep(Again))
    ensures var s := Run(Init<T>(sizeFirst), before);
      exists acts: seq<Action<T>> :: SendsAll(Apply(s, Send(b)), acts, [b])
  {
    SoundInit<T>(sizeFirst, before);
    var s := Run(Init<T>(sizeFirst), before);
    StepKeeps(s, Send(b));
    GracefulStep(s, Send(b));
    hide Inv, Graceful, RightRun;
    assert Apply(s, Send(b)) == s.(sender := Seen(b));
    var acts := Drains(Apply(s, Send(b)));
  }
}
