/**
 Sending on and stopping a TCP transport: src/transport/tcp_transport.cpp, base_transport.cpp and
 flow/flow_tcp.cpp, as a state machine over their atomic operations and socket calls.  The threads are
 one sender at a time, the send poller, a stopper (plus stop calls that lose the race), and a reader that
 may find the peer gone.  Socket and epoll results are inputs.  The transport has been started.
 */
module TcpSend {
  import opened Wrappers

  datatype Status = Started | Disconnecting | Disconnected | Stopping | Stopped

  /** What the socket or epoll call of a step answers. */
  datatype Answer = Took(n: nat) | Again | Fault

  /** `send` (lines 230-259), `__async_send` (384-414) and the `__send_once` it calls (416-441). */
  datatype Sender<T> =
    | Outside
    | Seen(b: seq<T>)        // found the transport started
    | Counted(b: seq<T>)     // raised pending_opt_cnt_
    | Admitted(b: seq<T>)    // found it still started
    | Listed(b: seq<T>)      // pushed the buffer
    | Popping | Writing | Completing | Subtracting
    | Comparing(before: int, was: int)   // the subtraction has answered before; `was` is what it subtracted
    | Arming                 // about to track the send tracker
    | Polling                // tracked, epoll still to be told
    | Failing                // about to leave the started state
    | Posting                // about to post the disconnected event
    | Leaving                // pending_opt_cnt_ still to be lowered

  /** `on_send_event` (lines 312-355), its `__send_once`, and the handling of a disconnected event. */
  datatype Poller =
    | Waiting
    | Entered
    | Resending | ReCompleting | ReSubtracting     // lines 313-320, the rest of the last buffer
    | ReComparing(before: int, was: int)
    | PPopping | PWriting | PCompleting | PSubtracting
    | PComparing(before: int, was: int)
    | PArming | PPolling
    | Breaking                                     // started to disconnecting, line 349
    | Broken                                       // disconnecting to disconnected
    | Ending                                       // line 354: stopping to stopped
    | EventDisconnected | EventStopped             // base_transport.cpp:28-32

  /** `stop` and `force_stop` (lines 109-153) once they have won their exchange; `posted` is whether they have posted
      the disconnected event. */
  datatype Stopper =
    | NotStopping
    | Won(force: bool) | Drained(force: bool) | StopPosting(force: bool) | Done(force: bool, posted: bool)

  datatype Reader = Reading | ReadFailed

  /** The send tracker: not tracking, tracking but epoll still to be told, or both done. */
  datatype Tracker = Off | Starting | On

  /** Who may touch last_send_iob_ and the flow. */
  datatype Token = Free | Sender | Tracker | Poller | Dead

  /** What the holder of the send token works on, and the history of the bytes. */
  datatype Core<T> = Core(
    pending: int,               // pending_send_size_
    list: seq<seq<T>>,          // sendlist_
    last: Option<seq<T>>,       // the bytes left in last_send_iob_
    lastSize: int,
    flow: bool,                 // flow_tcp::send_iob_ is not null
    aborted: bool,              // pop failed (line 420), or the assert of line 418 did
    // History
    accepted: seq<seq<T>>,      // buffers in the order they were pushed
    done: seq<seq<T>>,          // buffers handed to sent_cb
    cur: seq<T>,                // the whole of the last buffer popped
    wire: seq<T>)               // bytes the socket took

  datatype State<T> = State(
    core: Core<T>,
    st: Status, opt: nat,
    tracker: Tracker,
    events: nat,                // disconnected events queued for the poller
    sender: Sender<T>, poller: Poller, stopper: Stopper, reader: Reader,
    sizeFirst: bool,            // lines 317 and 432 read their right operand first
    // History
    token: Token,
    disconnectedCbs: nat, stoppedCbs: nat,
    faulted: bool)              // a socket fault, an epoll failure or a dead peer has occurred

  datatype Action<T> =
    | Send(b: seq<T>) | SenderStep(answer: Answer)
    | TrackerEvent | ChannelEvent | PollerStep(pAnswer: Answer)
    | Stop(force: bool) | StopperStep | LateStop
    | PeerGone | ReaderStep

  // ---------------------------------------------------------------------------------------------
  // Steps
  // ---------------------------------------------------------------------------------------------

  function Push<T>(c: Core<T>, b: seq<T>): Core<T> {
    c.(list := c.list + [b], accepted := c.accepted + [b])
  }

  /** `sendlist_.pop(last_send_iob_)` and the saving of its size, lines 418-424. */
  function PopList<T>(c: Core<T>): Core<T> {
    if c.last.Some? || c.list == [] then c.(aborted := true)
    else c.(last := Some(c.list[0]), lastSize := |c.list[0]|, cur := c.list[0], list := c.list[1..])
  }

  predicate CanTake<T>(c: Core<T>, n: nat) {
    c.last.Some? && 1 <= n <= |c.last.value|
  }

  /** `net::send` and the shift of the buffer, flow_tcp.cpp:56-70.  A partial write asks for another round. */
  function Write<T>(c: Core<T>, n: nat): Core<T>
    requires CanTake(c, n)
  {
    c.(wire := c.wire + c.last.value[..n], last := Some(c.last.value[n..]), flow := n < |c.last.value|)
  }

  /** `__handle_sent_buffer`, lines 443-453. */
  function Complete<T>(c: Core<T>): Core<T> {
    c.(done := c.done + [c.cur], last := None)
  }

  /** `pending_send_size_.fetch_sub(last_send_iob_size_)`. */
  function Subtract<T>(c: Core<T>): Core<T> {
    c.(pending := c.pending - c.lastSize)
  }

  /** The right operand of the comparison in lines 317 and 432: last_send_iob_size_ is volatile, and this second
      read of it comes before the subtraction or after it, as the compiler likes. */
  function SizeSeen<T>(s: State<T>, was: int): int { if s.sizeFirst then was else s.core.lastSize }

  /** The subtraction, which gives the token away if nothing is left. */
  function Subtracted<T>(s: State<T>): State<T> {
    s.(core := Subtract(s.core), token := if s.core.pending > s.core.lastSize then s.token else Free)
  }

  function Disconnect<T>(s: State<T>): State<T> {
    if s.st.Disconnecting? then s.(st := Disconnected, disconnectedCbs := s.disconnectedCbs + 1) else s
  }

  function TriggerStopped<T>(s: State<T>): State<T> {
    if s.st.Stopping? then s.(st := Stopped, stoppedCbs := s.stoppedCbs + 1) else s
  }

  /** Lines 230-248 and 384-391. */
  function SenderEntering<T>(s: State<T>): State<T> {
    var c := s.core;
    match s.sender
    case Seen(b) => s.(opt := s.opt + 1, sender := Counted(b))
    case Counted(b) => s.(sender := if s.st.Started? then Admitted(b) else Leaving)
    case Admitted(b) => s.(core := Push(c, b), sender := Listed(b))
    case Listed(b) =>
      var s' := s.(core := c.(pending := c.pending + |b|));
      if c.pending > 0 then s'.(sender := Leaving) else s'.(token := Token.Sender, sender := Popping)
    case _ => s
  }

  /** Lines 395-399 and 416-441. */
  function SenderSending<T>(s: State<T>, a: Answer): State<T> {
    var c := s.core;
    match s.sender
    case Popping => s.(core := PopList(c), sender := Writing)
    case Writing =>
      if c.flow then s.(core := c.(aborted := true), token := Dead, sender := Failing)
      else
        (match a
         case Took(n) =>
           if CanTake(c, n) then s.(core := Write(c, n), sender := if n < |c.last.value| then Arming else Completing)
           else s
         case Again => s.(core := c.(flow := true), sender := Arming)
         case Fault => s.(core := c.(flow := true), token := Dead, faulted := true, sender := Failing))
    case Completing => s.(core := Complete(c), sender := Subtracting)
    case Subtracting => Subtracted(s).(sender := Comparing(c.pending, c.lastSize))
    case Comparing(before, was) => s.(sender := if before > SizeSeen(s, was) then Arming else Leaving)
    case Arming =>
      if !s.tracker.Off? then s.(core := c.(aborted := true), token := Dead, sender := Failing)
      else s.(tracker := Starting, token := Tracker, sender := Polling)
    case _ => s
  }

  /** Lines 399-413 and 255. */
  function SenderLeaving<T>(s: State<T>, a: Answer): State<T> {
    match s.sender
    case Polling => if a.Fault? then s.(faulted := true, sender := Failing) else s.(tracker := On, sender := Leaving)
    case Failing => if s.st.Started? then s.(st := Disconnecting, sender := Posting) else s.(sender := Leaving)
    case Posting => s.(events := s.events + 1, sender := Leaving)
    case Leaving => s.(opt := if s.opt > 0 then s.opt - 1 else 0, sender := Outside)
    case _ => s
  }

  predicate Enters<T>(pc: Sender<T>) { pc.Outside? || pc.Seen? || pc.Counted? || pc.Admitted? || pc.Listed? }

  predicate Leaves<T>(pc: Sender<T>) { pc.Polling? || pc.Failing? || pc.Posting? || pc.Leaving? }

  function StepSender<T>(s: State<T>, a: Answer): State<T> {
    if Enters(s.sender) then SenderEntering(s) else if Leaves(s.sender) then SenderLeaving(s, a) else SenderSending(s, a)
  }

  /** Lines 313-326. */
  function PollerResending<T>(s: State<T>, a: Answer): State<T> {
    var c := s.core;
    match s.poller
    case Entered => s.(poller := if c.last.Some? then Resending else PPopping)
    case Resending =>
      (match a
       case Took(n) =>
         if CanTake(c, n) then s.(core := Write(c, n), poller := if n < |c.last.value| then PArming else ReCompleting)
         else s
       case Again => s.(poller := PArming)
       case Fault => s.(token := Dead, faulted := true, poller := Breaking))
    case ReCompleting => s.(core := Complete(c), poller := ReSubtracting)
    case ReSubtracting => Subtracted(s).(poller := ReComparing(c.pending, c.lastSize))
    case ReComparing(before, was) => s.(poller := if before > SizeSeen(s, was) then PPopping else Ending)
    case _ => s
  }

  /** Lines 333-342 and 416-441. */
  function PollerSending<T>(s: State<T>, a: Answer): State<T> {
    var c := s.core;
    match s.poller
    case PPopping => s.(core := PopList(c), poller := PWriting)
    case PWriting =>
      if c.flow then s.(core := c.(aborted := true), token := Dead, poller := Breaking)
      else
        (match a
         case Took(n) =>
           if CanTake(c, n) then s.(core := Write(c, n), poller := if n < |c.last.value| then PArming else PCompleting)
           else s
         case Again => s.(core := c.(flow := true), poller := PArming)
         case Fault => s.(core := c.(flow := true), token := Dead, faulted := true, poller := Breaking))
    case PCompleting => s.(core := Complete(c), poller := PSubtracting)
    case PSubtracting => Subtracted(s).(poller := PComparing(c.pending, c.lastSize))
    case PComparing(before, was) => s.(poller := if before > SizeSeen(s, was) then PArming else Ending)
    case PArming =>
      if !s.tracker.Off? then s.(core := c.(aborted := true), token := Dead, poller := Breaking)
      else s.(tracker := Starting, token := Tracker, poller := PPolling)
    case _ => s
  }

  /** Lines 337-354 and the handling of a disconnected event. */
  function PollerEnding<T>(s: State<T>, a: Answer): State<T> {
    match s.poller
    case PPolling => if a.Fault? then s.(faulted := true, poller := Breaking) else s.(tracker := On, poller := Waiting)
    case Breaking => if s.st.Started? then s.(st := Disconnecting, poller := Broken) else s.(poller := Ending)
    case Broken => Disconnect(s).(poller := if s.st.Disconnecting? then Waiting else Ending)
    case Ending => TriggerStopped(s).(poller := Waiting)
    case EventDisconnected => Disconnect(s).(poller := if s.st.Disconnecting? then Waiting else EventStopped)
    case EventStopped => TriggerStopped(s).(poller := Waiting)
    case _ => s
  }

  predicate Resends(pc: Poller) {
    pc.Entered? || pc.Resending? || pc.ReCompleting? || pc.ReSubtracting? || pc.ReComparing?
  }

  predicate Sends(pc: Poller) {
    pc.PPopping? || pc.PWriting? || pc.PCompleting? || pc.PSubtracting? || pc.PComparing? || pc.PArming?
  }

  function StepPoller<T>(s: State<T>, a: Answer): State<T> {
    if Resends(s.poller) then PollerResending(s, a) else if Sends(s.poller) then PollerSending(s, a) else PollerEnding(s, a)
  }

  function StepStopper<T>(s: State<T>): State<T> {
    match s.stopper
    case NotStopping => s
    case Won(force) => if s.opt == 0 then s.(stopper := Drained(force)) else s
    case Drained(force) => s.(stopper := if force || s.core.pending == 0 then StopPosting(force) else Done(force, false))
    case StopPosting(force) => s.(events := s.events + 1, stopper := Done(force, true))
    case Done(force, posted) => s
  }

  function Apply<T>(s: State<T>, a: Action<T>): State<T> {
    match a
    case Send(b) => if s.sender.Outside? && b != [] && s.st.Started? then s.(sender := Seen(b)) else s
    case SenderStep(answer) => StepSender(s, answer)
    case TrackerEvent =>
      if s.poller.Waiting? && s.tracker.On? then s.(tracker := Off, token := Token.Poller, poller := Entered) else s
    case ChannelEvent =>
      if s.poller.Waiting? && s.events > 0 then s.(events := s.events - 1, poller := EventDisconnected) else s
    case PollerStep(answer) => StepPoller(s, answer)
    case Stop(force) => if s.st.Started? then s.(st := Stopping, stopper := Won(force)) else s
    case StopperStep => StepStopper(s)
    case LateStop => if s.st.Disconnecting? then s.(st := Stopping) else s
    case PeerGone =>
      if s.reader.Reading? && s.st.Started? then s.(st := Disconnecting, faulted := true, reader := ReadFailed) else s
    case ReaderStep => if s.reader.ReadFailed? then Disconnect(s).(reader := Reading) else s
  }

  function Run<T>(s: State<T>, acts: seq<Action<T>>): State<T>
    decreases |acts|
  {
    if acts == [] then s else Run(Apply(s, acts[0]), acts[1..])
  }

  function Init<T>(sizeFirst: bool): State<T> {
    State(Core(0, [], None, 0, false, false, [], [], [], []),
          Started, 0, Off, 0, Outside, Waiting, NotStopping, Reading, sizeFirst, Free, 0, 0, false)
  }

  // ---------------------------------------------------------------------------------------------
  // The invariant
  // ---------------------------------------------------------------------------------------------

  function Sizes<T>(l: seq<seq<T>>): nat {
    if l == [] then 0 else |l[0]| + Sizes(l[1..])
  }

  function Concat<T>(l: seq<seq<T>>): seq<T> {
    if l == [] then [] else Concat(l[..|l| - 1]) + l[|l| - 1]
  }

  /** What the holder of the token is about to do with the core. */
  datatype Mode = Quiet | ToPop | ToWrite | ToResend | ToComplete | ToSubtract

  function SenderMode<T>(pc: Sender<T>): Mode {
    match pc
    case Popping => ToPop
    case Writing => ToWrite
    case Completing => ToComplete
    case Subtracting => ToSubtract
    case _ => Quiet
  }

  function PollerMode(pc: Poller): Mode {
    match pc
    case Resending => ToResend
    case PPopping => ToPop
    case PWriting => ToWrite
    case ReCompleting => ToComplete
    case PCompleting => ToComplete
    case ReSubtracting => ToSubtract
    case PSubtracting => ToSubtract
    case ReComparing(before, was) => if before > was then ToPop else Quiet
    case _ => Quiet
  }

  function ModeOf<T>(s: State<T>): Mode {
    if SenderMode(s.sender).Quiet? then PollerMode(s.poller) else SenderMode(s.sender)
  }

  /** The buffer that is listed but whose size is still to be added to pending_send_size_. */
  function Uncounted<T>(pc: Sender<T>): Option<seq<T>> {
    if pc.Listed? then Some(pc.b) else None
  }

  function CountedList<T>(c: Core<T>, u: Option<seq<T>>): seq<seq<T>> {
    if u.Some? && |c.list| > 0 then c.list[..|c.list| - 1] else c.list
  }

  /** pending_send_size_ is the total of the counted buffers whose completion is still to be subtracted. */
  ghost predicate SizeOk<T>(c: Core<T>, m: Mode, u: Option<seq<T>>) {
    && c.pending == Sizes(CountedList(c, u)) + (if c.last.Some? || m.ToSubtract? then c.lastSize else 0)
    && (u.Some? ==> |c.list| > 0 && c.list[|c.list| - 1] == u.value)
    && (forall i :: 0 <= i < |c.list| ==> c.list[i] != [])
    && (c.last.Some? || m.ToSubtract? ==> c.lastSize == |c.cur| > 0)
  }

  ghost predicate FlowOk<T>(c: Core<T>, m: Mode) {
    && (c.flow <==> c.last.Some? && !m.ToWrite? && !m.ToComplete?)
    && (m.ToPop? || m.ToSubtract? ==> c.last.None?)
    && (m.ToResend? || m.ToWrite? || m.ToComplete? ==> c.last.Some?)
    && (c.last.Some? ==> (m.ToComplete? <==> c.last.value == []))
    && !c.aborted
  }

  /** The wire carries the completed buffers and the front of the current one, in the order they were sent. */
  ghost predicate WireOk<T>(c: Core<T>) {
    if c.last.Some? then
      c.accepted == c.done + [c.cur] + c.list && c.wire + c.last.value == Concat(c.done) + c.cur
    else
      c.accepted == c.done + c.list && c.wire == Concat(c.done)
  }

  ghost predicate CoreOk<T>(c: Core<T>, m: Mode, u: Option<seq<T>>) {
    SizeOk(c, m, u) && FlowOk(c, m) && WireOk(c)
  }

  predicate SenderOwns<T>(pc: Sender<T>) {
    pc.Arming? || !SenderMode(pc).Quiet? || (pc.Comparing? && pc.before > pc.was)
  }

  predicate PollerOwns(pc: Poller) {
    pc.Entered? || pc.PArming? || !PollerMode(pc).Quiet? || (pc.PComparing? && pc.before > pc.was)
  }

  predicate Compares(pc: Poller) { pc.ReComparing? || pc.PComparing? }

  /** The poller's next step does not compare the old value with a size that gives another answer than the size
      it has subtracted. */
  predicate ComparesRight<T>(s: State<T>, a: Action<T>) {
    a.PollerStep? && Compares(s.poller) ==>
      (s.poller.before > SizeSeen(s, s.poller.was) <==> s.poller.before > s.poller.was)
  }

  predicate RightRun<T>(s: State<T>, acts: seq<Action<T>>)
    decreases |acts|
  {
    acts == [] || (ComparesRight(s, acts[0]) && RightRun(Apply(s, acts[0]), acts[1..]))
  }

  /** Exactly one of: nobody and nothing pending, the sender, the armed tracker, the poller, or nobody ever again. */
  ghost predicate TokenOk<T>(s: State<T>) {
    && (SenderOwns(s.sender) <==> s.token.Sender?)
    && (PollerOwns(s.poller) <==> s.token.Poller?)
    && (!s.tracker.Off? <==> s.token.Tracker?)
    && (s.sender.Polling? || s.poller.PPolling? ==> s.tracker.Starting?) && !(s.sender.Polling? && s.poller.PPolling?)
    && (s.token.Free? <==> s.core.pending == 0)
    && s.core.pending >= 0
    && (s.token.Dead? ==> s.faulted)
    && (s.sender.Comparing? ==> s.sender.before >= s.sender.was == s.core.lastSize && (s.token.Free? || s.token.Sender?))
    && (Compares(s.poller) ==> s.poller.before >= s.poller.was)
    && (Compares(s.poller) && s.poller.before > s.poller.was ==> s.core.lastSize == s.poller.was)
    && (s.sender.Seen? || s.sender.Counted? || s.sender.Admitted? || s.sender.Listed? ==> s.sender.b != [])
  }

  predicate Body<T>(pc: Sender<T>) {
    !pc.Outside? && !pc.Seen? && !pc.Counted? && !pc.Leaving?
  }

  predicate PastDrain(st: Stopper) {
    st.Drained? || st.StopPosting? || st.Done?
  }

  ghost predicate StatusOk<T>(s: State<T>) {
    && s.opt == (if s.sender.Outside? || s.sender.Seen? then 0 else 1)
    && (s.st.Started? ==> s.stopper.NotStopping?)
    && (PastDrain(s.stopper) ==> !Body(s.sender))
    && s.disconnectedCbs == (if s.st.Disconnected? then 1 else 0)
    && s.stoppedCbs == (if s.st.Stopped? then 1 else 0)
  }

  ghost predicate Inv<T>(s: State<T>) {
    TokenOk(s) && StatusOk(s) && CoreOk(s.core, ModeOf(s), Uncounted(s.sender))
  }

  // ---------------------------------------------------------------------------------------------
  // What each operation does to the core
  // ---------------------------------------------------------------------------------------------

  lemma SizesAppend<T>(l: seq<seq<T>>, b: seq<T>)
    ensures Sizes(l + [b]) == Sizes(l) + |b|
  {
    if l == [] {
      assert l + [b] == [b];
    } else {
      assert (l + [b])[1..] == l[1..] + [b];
    }
  }

  lemma SizesPositive<T>(l: seq<seq<T>>)
    requires forall i :: 0 <= i < |l| ==> l[i] != []
    ensures Sizes(l) > 0 <==> l != []
  {}

  lemma ConcatAppend<T>(l: seq<seq<T>>, b: seq<T>)
    ensures Concat(l + [b]) == Concat(l) + b
  {
    assert (l + [b])[..|l|] == l;
  }

  lemma PushOk<T>(c: Core<T>, m: Mode, b: seq<T>)
    requires CoreOk(c, m, None) && b != []
    ensures CoreOk(Push(c, b), m, Some(b))
  {
    var c' := Push(c, b);
    assert CountedList(c', Some(b)) == c.list;
    assert FlowOk(c', m);
    if c.last.Some? {
      assert c.done + [c.cur] + c'.list == (c.done + [c.cur] + c.list) + [b];
    } else {
      assert c.done + c'.list == (c.done + c.list) + [b];
    }
  }

  /** Counting a listed buffer; if nothing was pending, it is there to be popped. */
  lemma CountOk<T>(c: Core<T>, m: Mode, b: seq<T>)
    requires CoreOk(c, m, Some(b))
    ensures CoreOk(c.(pending := c.pending + |b|), m, None)
    ensures m.Quiet? && c.pending == 0 ==> CoreOk(c.(pending := c.pending + |b|), ToPop, None)
  {
    assert c.list == CountedList(c, Some(b)) + [b];
    SizesAppend(CountedList(c, Some(b)), b);
  }

  /** If anything is pending when a buffer is to be popped, there is a counted one, and none is being sent. */
  lemma PopOk<T>(c: Core<T>, u: Option<seq<T>>)
    requires CoreOk(c, ToPop, u) && c.pending > 0
    ensures c.last.None? && c.list != []
    ensures CoreOk(PopList(c), ToWrite, u)
  {
    assert CountedList(c, u) != [];
    var c' := PopList(c);
    if u.Some? {
      assert CountedList(c', u) == CountedList(c, u)[1..];
    }
    assert c.list == [c.list[0]] + c.list[1..];
  }

  lemma WriteOk<T>(c: Core<T>, m: Mode, u: Option<seq<T>>, n: nat)
    requires CoreOk(c, m, u) && CanTake(c, n) && (m.ToWrite? || m.ToResend?)
    ensures CoreOk(Write(c, n), if n < |c.last.value| then Quiet else ToComplete, u)
  {
    assert CountedList(Write(c, n), u) == CountedList(c, u);
    assert c.last.value == c.last.value[..n] + c.last.value[n..];
    assert c.wire + c.last.value == (c.wire + c.last.value[..n]) + c.last.value[n..];
  }

  lemma KeepForLater<T>(c: Core<T>, m: Mode, u: Option<seq<T>>)
    requires CoreOk(c, m, u) && (m.ToWrite? || m.ToResend?)
    ensures CoreOk(c.(flow := true), Quiet, u) && c.flow == m.ToResend?
  {
    assert CountedList(c.(flow := true), u) == CountedList(c, u);
  }

  lemma CompleteOk<T>(c: Core<T>, u: Option<seq<T>>)
    requires CoreOk(c, ToComplete, u)
    ensures CoreOk(Complete(c), ToSubtract, u)
  {
    assert CountedList(Complete(c), u) == CountedList(c, u);
    ConcatAppend(c.done, c.cur);
    assert c.wire + [] == c.wire;
  }

  /** After the subtraction there is something pending exactly when a counted buffer is listed. */
  lemma SubtractOk<T>(c: Core<T>, u: Option<seq<T>>, m': Mode)
    requires CoreOk(c, ToSubtract, u) && (m'.Quiet? || m'.ToPop?)
    ensures CoreOk(Subtract(c), m', u) && Subtract(c).pending >= 0
    ensures c.pending > c.lastSize <==> CountedList(c, u) != []
  {
    assert CountedList(Subtract(c), u) == CountedList(c, u);
    SizesPositive(CountedList(c, u));
  }

  // ---------------------------------------------------------------------------------------------
  // Every step keeps the invariant
  // ---------------------------------------------------------------------------------------------

  /** The invariant but for the status. */
  ghost predicate Owned<T>(s: State<T>) {
    TokenOk(s) && CoreOk(s.core, ModeOf(s), Uncounted(s.sender))
  }

  lemma SenderLeaves<T>(s: State<T>, a: Answer)
    requires Owned(s) && Leaves(s.sender)
    ensures Owned(SenderLeaving(s, a))
  {
    hide CoreOk, PollerMode;
  }

  lemma SenderEnters<T>(s: State<T>)
    requires Owned(s) && Enters(s.sender)
    ensures Owned(SenderEntering(s))
  {
    hide CoreOk;
    if s.sender.Admitted? { PushOk(s.core, ModeOf(s), s.sender.b); }
    if s.sender.Listed? { CountOk(s.core, ModeOf(s), s.sender.b); }
  }

  lemma SenderSends<T>(s: State<T>, a: Answer)
    requires Owned(s) && !Enters(s.sender) && !Leaves(s.sender)
    ensures Owned(SenderSending(s, a))
  {
    hide CoreOk;
    match s.sender
    case Popping => PopOk(s.core, None);
    case Writing => SenderWrites(s, a);
    case Completing => CompleteOk(s.core, None);
    case Subtracting => SubtractOk(s.core, None, Quiet);
    case _ =>
  }

  lemma SenderWrites<T>(s: State<T>, a: Answer)
    requires Owned(s) && s.sender.Writing?
    ensures Owned(SenderSending(s, a))
  {
    hide CoreOk;
    KeepForLater(s.core, ToWrite, None);
    if a.Took? && CanTake(s.core, a.n) { WriteOk(s.core, ToWrite, None, a.n); }
  }

  lemma PollerResends<T>(s: State<T>, a: Answer)
    requires Owned(s) && Resends(s.poller) && ComparesRight(s, PollerStep(a))
    ensures Owned(PollerResending(s, a))
  {
    hide CoreOk;
    var u := Uncounted(s.sender);
    if s.poller.Resending? { PollerRewrites(s, a); hide PollerResending, Owned; }
    else if s.poller.ReSubtracting? { PollerSubtracts(s, a); hide PollerResending, Owned; }
    else if s.poller.Entered? { EnterOk(s.core, u); }
    else if s.poller.ReCompleting? { CompleteOk(s.core, u); }
  }

  lemma PollerRewrites<T>(s: State<T>, a: Answer)
    requires Owned(s) && s.poller.Resending?
    ensures Owned(PollerResending(s, a))
  {
    hide CoreOk;
    var u := Uncounted(s.sender);
    KeepForLater(s.core, ToResend, u);
    assert s.core.(flow := true) == s.core;
    if a.Took? && CanTake(s.core, a.n) { WriteOk(s.core, ToResend, u, a.n); }
  }

  lemma PollerSends<T>(s: State<T>, a: Answer)
    requires Owned(s) && Sends(s.poller) && ComparesRight(s, PollerStep(a))
    ensures Owned(PollerSending(s, a))
  {
    hide CoreOk;
    var u := Uncounted(s.sender);
    if s.poller.PWriting? { PollerWrites(s, a); hide PollerSending, Owned; }
    else if s.poller.PSubtracting? { PollerSubtracts(s, a); hide PollerSending, Owned; }
    else if s.poller.PPopping? { PopOk(s.core, u); }
    else if s.poller.PCompleting? { CompleteOk(s.core, u); }
  }

  lemma PollerSubtracts<T>(s: State<T>, a: Answer)
    requires Owned(s) && (s.poller.ReSubtracting? || s.poller.PSubtracting?)
    ensures Owned(StepPoller(s, a))
  {
    hide CoreOk;
    var more := s.poller.ReSubtracting? && s.core.pending > s.core.lastSize;
    SubtractOk(s.core, Uncounted(s.sender), if more then ToPop else Quiet);
    hide PollerEnding;
  }

  lemma PollerWrites<T>(s: State<T>, a: Answer)
    requires Owned(s) && s.poller.PWriting?
    ensures Owned(PollerSending(s, a))
  {
    hide CoreOk;
    var u := Uncounted(s.sender);
    KeepForLater(s.core, ToWrite, u);
    if a.Took? && CanTake(s.core, a.n) { WriteOk(s.core, ToWrite, u, a.n); }
  }

  lemma EnterOk<T>(c: Core<T>, u: Option<seq<T>>)
    requires CoreOk(c, Quiet, u)
    ensures CoreOk(c, if c.last.Some? then ToResend else ToPop, u)
  {}

  lemma PollerEnds<T>(s: State<T>, a: Answer)
    requires Owned(s) && !Resends(s.poller) && !Sends(s.poller)
    ensures Owned(PollerEnding(s, a))
  {
    hide CoreOk, SenderMode;
  }

  lemma OthersKeep<T>(s: State<T>, a: Action<T>)
    requires Owned(s) && !a.SenderStep? && !a.PollerStep? && !a.Send? && !a.TrackerEvent? && !a.ChannelEvent?
    ensures Owned(Apply(s, a))
  {
    hide CoreOk, SenderMode, PollerMode, StepSender, StepPoller;
    var s' := Apply(s, a);
    assert s'.core == s.core && s'.sender == s.sender && s'.poller == s.poller && s'.token == s.token;
    assert s'.tracker == s.tracker && (s.faulted ==> s'.faulted);
    hide Apply;
  }

  lemma EventKeeps<T>(s: State<T>, a: Action<T>)
    requires Owned(s) && (a.Send? || a.TrackerEvent? || a.ChannelEvent?)
    ensures Owned(Apply(s, a))
  {
    hide CoreOk;
  }

  lemma SenderStatus<T>(s: State<T>, a: Answer)
    requires StatusOk(s)
    ensures StatusOk(StepSender(s, a))
  {
    hide SenderEntering, SenderLeaving, SenderSending, StatusOk;
    if Enters(s.sender) { EnteringStatus(s); } else if Leaves(s.sender) { LeavingStatus(s, a); } else { SendingStatus(s, a); }
  }

  lemma EnteringStatus<T>(s: State<T>)
    requires StatusOk(s) && Enters(s.sender)
    ensures StatusOk(SenderEntering(s))
  {}

  lemma LeavingStatus<T>(s: State<T>, a: Answer)
    requires StatusOk(s) && Leaves(s.sender)
    ensures StatusOk(SenderLeaving(s, a))
  {}

  lemma SendingStatus<T>(s: State<T>, a: Answer)
    requires StatusOk(s) && !Enters(s.sender) && !Leaves(s.sender)
    ensures StatusOk(SenderSending(s, a))
  {
    SendingFrame(s, a);
    hide SenderSending;
  }

  lemma SendingFrame<T>(s: State<T>, a: Answer)
    requires !Enters(s.sender) && !Leaves(s.sender)
    ensures var s' := SenderSending(s, a);
      && s'.st == s.st && s'.opt == s.opt && s'.stopper == s.stopper
      && s'.disconnectedCbs == s.disconnectedCbs && s'.stoppedCbs == s.stoppedCbs
      && !s'.sender.Outside? && !s'.sender.Seen?
  {}

  lemma PollerStatus<T>(s: State<T>, a: Answer)
    requires StatusOk(s)
    ensures StatusOk(StepPoller(s, a))
  {
    ResendingLeaves(s, a);
    SendingLeaves(s, a);
    EndingStatus(s, a);
    hide PollerResending, PollerSending, PollerEnding;
  }

  lemma EndingStatus<T>(s: State<T>, a: Answer)
    requires StatusOk(s)
    ensures StatusOk(PollerEnding(s, a))
  {
    hide StatusOk, PollerEnding;
    if s.poller.Broken? || s.poller.EventDisconnected? { DisconnectStatus(s, a); }
    else if s.poller.Ending? || s.poller.EventStopped? { StoppedStatus(s, a); }
    else { BreakingStatus(s, a); }
  }

  lemma DisconnectStatus<T>(s: State<T>, a: Answer)
    requires StatusOk(s) && (s.poller.Broken? || s.poller.EventDisconnected?)
    ensures StatusOk(PollerEnding(s, a))
  {
    CallbackStatus(s);
    hide StatusOk;
    StatusSame(Disconnect(s), PollerEnding(s, a));
  }

  lemma StoppedStatus<T>(s: State<T>, a: Answer)
    requires StatusOk(s) && (s.poller.Ending? || s.poller.EventStopped?)
    ensures StatusOk(PollerEnding(s, a))
  {
    CallbackStatus(s);
    hide StatusOk;
    StatusSame(TriggerStopped(s), PollerEnding(s, a));
  }

  lemma BreakingStatus<T>(s: State<T>, a: Answer)
    requires StatusOk(s) && !s.poller.Broken? && !s.poller.EventDisconnected? && !s.poller.Ending? && !s.poller.EventStopped?
    ensures StatusOk(PollerEnding(s, a))
  {
    hide Disconnect, TriggerStopped;
  }

  lemma StatusSame<T>(s: State<T>, s': State<T>)
    requires StatusOk(s) && s'.opt == s.opt && s'.sender == s.sender && s'.st == s.st && s'.stopper == s.stopper
    requires s'.disconnectedCbs == s.disconnectedCbs && s'.stoppedCbs == s.stoppedCbs
    ensures StatusOk(s')
  {}

  lemma CallbackStatus<T>(s: State<T>)
    requires StatusOk(s)
    ensures StatusOk(Disconnect(s)) && StatusOk(TriggerStopped(s))
  {}

  /** What the sends of the poller leave alone. */
  ghost predicate PollerLeaves<T>(s: State<T>, s': State<T>) {
    && s'.st == s.st && s'.opt == s.opt && s'.sender == s.sender && s'.stopper == s.stopper && s'.reader == s.reader
    && s'.events == s.events && s'.disconnectedCbs == s.disconnectedCbs && s'.stoppedCbs == s.stoppedCbs
    && s'.core.accepted == s.core.accepted && s'.sizeFirst == s.sizeFirst
  }

  lemma ResendingLeaves<T>(s: State<T>, a: Answer)
    ensures PollerLeaves(s, PollerResending(s, a))
  {}

  lemma SendingLeaves<T>(s: State<T>, a: Answer)
    ensures PollerLeaves(s, PollerSending(s, a))
  {
    if s.poller.PWriting? { WritingLeaves(s, a); hide PollerSending; }
  }

  lemma WritingLeaves<T>(s: State<T>, a: Answer)
    requires s.poller.PWriting?
    ensures PollerLeaves(s, PollerSending(s, a))
  {}

  lemma StatusKeeps<T>(s: State<T>, a: Action<T>)
    requires StatusOk(s)
    ensures StatusOk(Apply(s, a))
  {
    match a {
      case SenderStep(answer) => SenderStatus(s, answer);
      case PollerStep(answer) => PollerStatus(s, answer);
      case _ => hide StepSender, StepPoller;
    }
  }

  lemma PollerKeeps<T>(s: State<T>, a: Answer)
    requires Owned(s) && ComparesRight(s, PollerStep(a))
    ensures Owned(StepPoller(s, a))
  {
    hide Owned, PollerResending, PollerSending, PollerEnding;
    if Resends(s.poller) { PollerResends(s, a); } else if Sends(s.poller) { PollerSends(s, a); } else { PollerEnds(s, a); }
  }

  /** Every step keeps the invariant, the poller's comparison if it comes out right. */
  lemma StepKeeps<T>(s: State<T>, a: Action<T>)
    requires Inv(s) && ComparesRight(s, a)
    ensures Inv(Apply(s, a))
  {
    StatusKeeps(s, a);
    hide TokenOk, CoreOk, StatusOk, SenderEntering, SenderSending, SenderLeaving, StepPoller;
    assert Owned(s);
    match a
    case SenderStep(answer) =>
      if Enters(s.sender) { SenderEnters(s); }
      else if Leaves(s.sender) { SenderLeaves(s, answer); }
      else { SenderSends(s, answer); }
    case PollerStep(answer) => PollerKeeps(s, answer);
    case Send(b) => EventKeeps(s, a);
    case TrackerEvent => EventKeeps(s, a);
    case ChannelEvent => EventKeeps(s, a);
    case _ => OthersKeep(s, a);
  }

  lemma {:induction false} RunKeeps<T>(s: State<T>, acts: seq<Action<T>>)
    requires Inv(s) && RightRun(s, acts)
    ensures Inv(Run(s, acts))
    decreases |acts|
  {
    hide Inv, ComparesRight;
    if acts != [] {
      StepKeeps(s, acts[0]);
      RunKeeps(Apply(s, acts[0]), acts[1..]);
    }
  }

  // ---------------------------------------------------------------------------------------------
  // What every run guarantees
  // ---------------------------------------------------------------------------------------------

  lemma InitOk<T>(sizeFirst: bool)
    ensures Inv(Init<T>(sizeFirst))
  {}

  lemma {:induction false} ConcatPrefix<T>(a: seq<seq<T>>, b: seq<seq<T>>)
    ensures Concat(a) <= Concat(a + b)
    decreases |b|
  {
    if b == [] {
      assert a + b == a;
    } else {
      var b' := b[..|b| - 1];
      ConcatPrefix(a, b');
      ConcatAppend(a + b', b[|b| - 1]);
      assert a + b == (a + b') + [b[|b| - 1]];
    }
  }

  lemma WireIsPrefix<T>(c: Core<T>)
    requires WireOk(c)
    ensures c.wire <= Concat(c.accepted) && c.done <= c.accepted
  {
    if c.last.Some? {
      ConcatAppend(c.done, c.cur);
      ConcatPrefix(c.done + [c.cur], c.list);
      assert c.wire <= c.wire + c.last.value;
    } else {
      ConcatPrefix(c.done, c.list);
    }
  }

  lemma OrderStays<T>(s: State<T>, a: Action<T>)
    ensures Apply(s, a).sizeFirst == s.sizeFirst
  {
    match a {
      case SenderStep(answer) =>
        SendingOrder(s, answer);
        hide SenderSending;
      case PollerStep(answer) =>
        ResendingLeaves(s, answer);
        SendingLeaves(s, answer);
        hide PollerResending, PollerSending;
      case _ => hide StepSender, StepPoller;
    }
  }

  lemma SendingOrder<T>(s: State<T>, a: Answer)
    ensures SenderSending(s, a).sizeFirst == s.sizeFirst
  {}

  /** If the right operand is read first, the comparisons come out right in all runs. */
  lemma {:induction false} SizeFirstIsRight<T>(s: State<T>, acts: seq<Action<T>>)
    requires s.sizeFirst
    ensures RightRun(s, acts)
    decreases |acts|
  {
    if acts != [] {
      OrderStays(s, acts[0]);
      hide Apply;
      SizeFirstIsRight(Apply(s, acts[0]), acts[1..]);
    }
  }

  /** In every run in which the comparisons come out right, faults and all: the bytes on the wire are a prefix of
      the accepted buffers in the order they were sent, buffers are reported sent in that order, and no pop or assert
      of `__send_once` fails; the sender, the armed tracker and the poller never own the last buffer together, none
      of them does when nothing is pending, and without faults one of them does when something is. */
  lemma EveryRun<T>(sizeFirst: bool, acts: seq<Action<T>>)
    requires sizeFirst || RightRun(Init<T>(sizeFirst), acts)
    ensures var s := Run(Init<T>(sizeFirst), acts);
      && s.core.wire <= Concat(s.core.accepted)
      && s.core.done <= s.core.accepted
      && !s.core.aborted
      && !(SenderOwns(s.sender) && PollerOwns(s.poller)) && !(!s.tracker.Off? && (SenderOwns(s.sender) || PollerOwns(s.poller)))
      && (s.core.pending == 0 ==> !SenderOwns(s.sender) && !PollerOwns(s.poller) && s.tracker.Off?)
      && (s.core.pending != 0 && !s.faulted ==> SenderOwns(s.sender) || PollerOwns(s.poller) || !s.tracker.Off?)
  {
    InitOk<T>(sizeFirst);
    if sizeFirst { SizeFirstIsRight(Init<T>(sizeFirst), acts); }
    RunKeeps(Init<T>(sizeFirst), acts);
    WireIsPrefix(Run(Init<T>(sizeFirst), acts).core);
  }

  /** If it is read second, a comparison keeps the invariant if and only if it gives the answer that the size
      subtracted would have given, which it fails to do just when nothing was left and the size read is smaller. */
  lemma CompareIff<T>(s: State<T>, a: Answer)
    requires Inv(s) && Compares(s.poller)
    ensures Inv(StepPoller(s, a)) <==> ComparesRight(s, PollerStep(a))
    ensures !ComparesRight(s, PollerStep(a)) <==>
            !s.sizeFirst && s.poller.before == s.poller.was && s.core.lastSize < s.poller.was
  {
    if ComparesRight(s, PollerStep(a)) {
      StepKeeps(s, PollerStep(a));
    } else {
      hide CoreOk;
      assert PollerOwns(StepPoller(s, a).poller) && !StepPoller(s, a).token.Poller?;
    }
  }

  lemma {:induction false} StatusRun<T>(s: State<T>, acts: seq<Action<T>>)
    requires StatusOk(s)
    ensures StatusOk(Run(s, acts))
    decreases |acts|
  {
    hide StatusOk, Apply;
    if acts != [] {
      StatusKeeps(s, acts[0]);
      StatusRun(Apply(s, acts[0]), acts[1..]);
    }
  }

  /** In all runs whatever, right or wrong: one callback at most announces the end. */
  lemma OneCallback<T>(sizeFirst: bool, acts: seq<Action<T>>)
    ensures var s := Run(Init<T>(sizeFirst), acts);
      s.disconnectedCbs + s.stoppedCbs <= 1
  {
    StatusRun(Init<T>(sizeFirst), acts);
  }

  lemma {:induction false} ConcatLength<T>(a: seq<seq<T>>, b: seq<seq<T>>)
    ensures |Concat(a + b)| == |Concat(a)| + Sizes(b)
    decreases |b|
  {
    if b == [] {
      assert a + b == a;
    } else {
      var b' := b[..|b| - 1];
      var x := b[|b| - 1];
      ConcatLength(a, b');
      ConcatAppend(a + b', x);
      SizesAppend(b', x);
      assert a + b == (a + b') + [x] && b == b' + [x];
    }
  }

  /** What is not on the wire yet is the rest of the last buffer and the listed ones. */
  lemma Outstanding<T>(c: Core<T>)
    requires WireOk(c)
    ensures |Concat(c.accepted)| == |c.wire| + (if c.last.Some? then |c.last.value| else 0) + Sizes(c.list)
    ensures c.wire <= Concat(c.accepted)
  {
    WireIsPrefix(c);
    if c.last.Some? {
      ConcatAppend(c.done, c.cur);
      ConcatLength(c.done + [c.cur], c.list);
      assert |c.wire + c.last.value| == |Concat(c.done) + c.cur|;
    } else {
      ConcatLength(c.done, c.list);
    }
  }

  /** What says that everything accepted is on the wire: nothing pending and no listed buffer uncounted, or, while a
      buffer has just been completed, nothing listed. */
  predicate NothingLeft<T>(s: State<T>) {
    if ModeOf(s).ToSubtract? || ModeOf(s).ToComplete? then s.core.list == []
    else s.core.pending == 0 && !s.sender.Listed?
  }

  lemma AllOnWireIff<T>(s: State<T>)
    requires Inv(s)
    ensures s.core.wire == Concat(s.core.accepted) <==> NothingLeft(s)
  {
    var c := s.core;
    Outstanding(c);
    SizesPositive(c.list);
    SizesPositive(CountedList(c, Uncounted(s.sender)));
  }

  // ---------------------------------------------------------------------------------------------
  // Stopping
  // ---------------------------------------------------------------------------------------------

  /** Somebody is about to run stopped_cb, or has run it. */
  predicate StopAhead<T>(s: State<T>) {
    || s.st.Stopped?
    || s.events > 0 || s.poller.EventDisconnected? || s.poller.EventStopped?
    || s.poller.Ending? || Compares(s.poller)
    || s.token.Tracker? || s.token.Poller?
  }

  /** Runs without socket faults, epoll failures or a dead peer. */
  ghost predicate Graceful<T>(s: State<T>) {
    !s.faulted ==>
      && (s.st.Started? || s.st.Stopping? || s.st.Stopped?)
      && (s.st.Started? <==> s.stopper.NotStopping?)
      && !s.sender.Failing? && !s.sender.Posting? && !s.poller.Breaking? && !s.poller.Broken? && s.reader.Reading?
      && (s.events > 0 || s.poller.EventDisconnected? || s.poller.EventStopped? ==> s.stopper.Done? && s.stopper.posted)
      && (s.stopper.Done? ==> StopAhead(s))
  }

  lemma CoreNeverAborts<T>(s: State<T>)
    requires Inv(s)
    ensures (s.sender.Writing? || s.poller.PWriting?) ==> !s.core.flow
    ensures (s.sender.Arming? || s.poller.PArming?) ==> s.tracker.Off?
  {}

  lemma GracefulSender<T>(s: State<T>, a: Answer)
    requires Inv(s) && Graceful(s)
    ensures Graceful(StepSender(s, a))
  {
    hide CoreOk, SenderSending;
    if !Enters(s.sender) && !Leaves(s.sender) {
      SendingKeepsStatus(s, a);
      hide SenderEntering, SenderLeaving;
    }
  }

  lemma SendingKeepsStatus<T>(s: State<T>, a: Answer)
    requires Inv(s) && !Enters(s.sender) && !Leaves(s.sender)
    ensures var s' := SenderSending(s, a);
      && s'.st == s.st && s'.stopper == s.stopper && s'.poller == s.poller && s'.reader == s.reader && s'.events == s.events
      && (!s'.faulted ==> !s'.sender.Failing? && !s'.sender.Posting?) && (s.faulted ==> s'.faulted)
  {
    CoreNeverAborts(s);
    hide CoreOk, StatusOk;
  }

  lemma GracefulPoller<T>(s: State<T>, a: Answer)
    requires Inv(s) && Graceful(s) && ComparesRight(s, PollerStep(a))
    ensures Graceful(StepPoller(s, a))
  {
    if Resends(s.poller) || Sends(s.poller) { GracefulPollerSends(s, a); } else { GracefulPollerReports(s, a); }
  }

  /** While it sends, the poller stays ahead of stopped_cb. */
  ghost predicate StaysAhead<T>(s: State<T>, s': State<T>) {
    && !s'.poller.Broken? && !s'.poller.EventDisconnected? && !s'.poller.EventStopped? && (s.faulted ==> s'.faulted)
    && (!s'.faulted ==> !s'.poller.Breaking?
                        && (s'.poller.Ending? || Compares(s'.poller) || s'.token.Tracker? || s'.token.Poller?))
  }

  lemma ResendingStaysAhead<T>(s: State<T>, a: Answer)
    requires Owned(s) && Resends(s.poller) && ComparesRight(s, PollerStep(a))
    ensures StaysAhead(s, PollerResending(s, a))
  {
    hide CoreOk, SenderMode;
  }

  lemma SendingStaysAhead<T>(s: State<T>, a: Answer)
    requires Owned(s) && Sends(s.poller) && ComparesRight(s, PollerStep(a))
    ensures StaysAhead(s, PollerSending(s, a))
  {
    assert s.poller.PWriting? ==> !s.core.flow;
    hide CoreOk, SenderMode;
  }

  lemma GracefulPollerSends<T>(s: State<T>, a: Answer)
    requires Inv(s) && Graceful(s) && (Resends(s.poller) || Sends(s.poller)) && ComparesRight(s, PollerStep(a))
    ensures Graceful(StepPoller(s, a))
  {
    ResendingLeaves(s, a);
    SendingLeaves(s, a);
    if Resends(s.poller) { ResendingStaysAhead(s, a); } else { SendingStaysAhead(s, a); }
    hide CoreOk, TokenOk, PollerResending, PollerSending;
  }

  lemma GracefulPollerReports<T>(s: State<T>, a: Answer)
    requires Inv(s) && Graceful(s) && !Resends(s.poller) && !Sends(s.poller)
    ensures Graceful(StepPoller(s, a))
  {
    hide CoreOk, SenderMode, PollerMode, PollerResending, PollerSending;
    if s.poller.Ending? || s.poller.EventStopped? { GracefulCallback(s, a); hide PollerEnding; }
  }

  lemma GracefulCallback<T>(s: State<T>, a: Answer)
    requires Inv(s) && Graceful(s) && (s.poller.Ending? || s.poller.EventStopped?)
    ensures Graceful(StepPoller(s, a))
  {
    hide CoreOk, SenderMode, PollerMode, PollerResending, PollerSending, Disconnect;
  }

  lemma GracefulOthers<T>(s: State<T>, a: Action<T>)
    requires Inv(s) && Graceful(s) && !a.SenderStep? && !a.PollerStep?
    ensures Graceful(Apply(s, a))
  {
    hide CoreOk, StepSender, StepPoller;
    if a.StopperStep? { GracefulStopper(s); hide StepStopper; } else { hide StepStopper, SenderMode, PollerMode; }
  }

  lemma GracefulStopper<T>(s: State<T>)
    requires Inv(s) && Graceful(s)
    ensures Graceful(StepStopper(s))
  {
    hide CoreOk;
  }

  lemma GracefulStep<T>(s: State<T>, a: Action<T>)
    requires Inv(s) && Graceful(s) && ComparesRight(s, a)
    ensures Graceful(Apply(s, a))
  {
    hide Inv, Graceful, ComparesRight;
    match a {
      case SenderStep(answer) => GracefulSender(s, answer);
      case PollerStep(answer) => GracefulPoller(s, answer);
      case _ => GracefulOthers(s, a);
    }
  }

  lemma {:induction false} GracefulRun<T>(s: State<T>, acts: seq<Action<T>>)
    requires Inv(s) && Graceful(s) && RightRun(s, acts)
    ensures Inv(Run(s, acts)) && Graceful(Run(s, acts))
    decreases |acts|
  {
    hide Inv, Graceful, ComparesRight;
    if acts != [] {
      StepKeeps(s, acts[0]);
      GracefulStep(s, acts[0]);
      GracefulRun(Apply(s, acts[0]), acts[1..]);
    }
  }

  /** In all runs, once stop has seen pending_opt_cnt_ at zero, no send is in its body, and none gets in again. */
  lemma {:induction false} DrainedForGood<T>(s: State<T>, acts: seq<Action<T>>)
    requires StatusOk(s) && PastDrain(s.stopper)
    ensures PastDrain(Run(s, acts).stopper) && !Body(Run(s, acts).sender)
    ensures Run(s, acts).core.accepted == s.core.accepted
    decreases |acts|
  {
    if acts != [] {
      StatusKeeps(s, acts[0]);
      DrainStep(s, acts[0]);
      hide Apply;
      DrainedForGood(Apply(s, acts[0]), acts[1..]);
    }
  }

  lemma DrainStep<T>(s: State<T>, a: Action<T>)
    requires StatusOk(s) && PastDrain(s.stopper)
    ensures PastDrain(Apply(s, a).stopper) && Apply(s, a).core.accepted == s.core.accepted
  {
    match a {
      case SenderStep(answer) =>
        assert s.sender.Outside? || s.sender.Seen? || s.sender.Counted? || s.sender.Leaving?;
      case PollerStep(answer) => PollerAcceptsNothing(s, answer);
      case _ =>
    }
  }

  lemma PollerAcceptsNothing<T>(s: State<T>, a: Answer)
    ensures StepPoller(s, a).core.accepted == s.core.accepted && StepPoller(s, a).stopper == s.stopper
  {
    ResendingLeaves(s, a);
    SendingLeaves(s, a);
    hide PollerResending, PollerSending;
  }

  /** In a run without faults whose comparisons come out right, when stop has returned and nobody has anything left
      to do, stopped_cb has run. */
  lemma StopFinishes<T>(sizeFirst: bool, acts: seq<Action<T>>)
    requires sizeFirst || RightRun(Init<T>(sizeFirst), acts)
    ensures var s := Run(Init<T>(sizeFirst), acts);
      !s.faulted && s.stopper.Done? && s.poller.Waiting? && s.tracker.Off? && s.events == 0
      ==> s.st.Stopped? && s.stoppedCbs == 1 && s.disconnectedCbs == 0
  {
    InitOk<T>(sizeFirst);
    if sizeFirst { SizeFirstIsRight(Init<T>(sizeFirst), acts); }
    GracefulRun(Init<T>(sizeFirst), acts);
  }

  /** ... and at every moment before, somebody is about to run it. */
  lemma StopIsAhead<T>(sizeFirst: bool, acts: seq<Action<T>>)
    requires sizeFirst || RightRun(Init<T>(sizeFirst), acts)
    ensures var s := Run(Init<T>(sizeFirst), acts);
      !s.faulted && s.stopper.Done? ==> StopAhead(s)
  {
    InitOk<T>(sizeFirst);
    if sizeFirst { SizeFirstIsRight(Init<T>(sizeFirst), acts); }
    GracefulRun(Init<T>(sizeFirst), acts);
  }

  /** The exchange that leads to stopped_cb, at line 354 or in the handling of an event, comes with everything
      accepted on the wire exactly when nothing is left, whoever is stopping and however far stop has got. */
  lemma StoppedWithAllIff<T>(s: State<T>, a: Answer)
    requires Inv(s) && s.st.Stopping? && (s.poller.Ending? || s.poller.EventStopped?)
    ensures var s' := StepPoller(s, a);
      s'.st.Stopped? && (s'.core.wire == Concat(s'.core.accepted) <==> NothingLeft(s))
  {
    AllOnWireIff(s);
  }
}
