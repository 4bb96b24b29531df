/** Runs of TcpSend in which something goes wrong, and exactly when it can: the comparison behind the subtraction of
    lines 317 and 432, and graceful stops that cut off accepted bytes. */
module TcpCases {
  import opened Wrappers
  import opened TcpSend

  // ---------------------------------------------------------------------------------------------
  // Building runs
  // ---------------------------------------------------------------------------------------------

  lemma {:induction false} RunSnoc<T>(s: State<T>, acts: seq<Action<T>>, a: Action<T>)
    ensures Run(s, acts + [a]) == Apply(Run(s, acts), a)
    ensures RightRun(s, acts + [a]) <==> RightRun(s, acts) && ComparesRight(Run(s, acts), a)
    decreases |acts|
  {
    hide Apply, ComparesRight;
    if acts == [] {
      assert [] + [a] == [a] && [a][1..] == [];
      assert Run(Apply(s, a), []) == Apply(s, a);
    } else {
      assert (acts + [a])[1..] == acts[1..] + [a];
      RunSnoc(Apply(s, acts[0]), acts[1..], a);
    }
  }

  /** Some run with no wrong comparison leads to s. */
  ghost predicate Reachable<T(!new)>(s: State<T>) {
    exists acts: seq<Action<T>> :: RightRun(Init<T>(s.sizeFirst), acts) && Run(Init<T>(s.sizeFirst), acts) == s
  }

  lemma Reach<T(!new)>(s: State<T>, a: Action<T>) returns (r: State<T>)
    requires Reachable(s) && ComparesRight(s, a)
    ensures r == Apply(s, a) && Reachable(r)
  {
    OrderStays(s, a);
    hide Apply, ComparesRight;
    var acts: seq<Action<T>> :| RightRun(Init<T>(s.sizeFirst), acts) && Run(Init<T>(s.sizeFirst), acts) == s;
    RunSnoc(Init<T>(s.sizeFirst), acts, a);
    r := Apply(s, a);
  }

  /** A transport on which everything accepted has been sent and nobody does anything but, perhaps, the poller. */
  ghost predicate Calm<T>(s: State<T>) {
    && s.st.Started? && s.opt == 0 && s.tracker.Off? && s.sender.Outside? && s.token.Free?
    && s.core.pending == 0 && s.core.list == [] && s.core.last.None? && !s.core.flow && !s.core.aborted
  }

  lemma Start<T(!new)>(sizeFirst: bool) returns (r: State<T>)
    ensures r == Init<T>(sizeFirst) && Reachable(r) && Calm(r)
  {
    r := Init<T>(sizeFirst);
    assert Run(r, []) == r && RightRun(r, []);
  }

  /** What a send has done once it has popped its buffer. */
  function Popped<T>(s: State<T>, b: seq<T>): State<T> {
    s.(opt := 1, token := Token.Sender, sender := Writing,
       core := s.core.(pending := |b|, last := Some(b), lastSize := |b|, cur := b, accepted := s.core.accepted + [b]))
  }

  lemma SendPops<T(!new)>(s: State<T>, b: seq<T>) returns (r: State<T>)
    requires Reachable(s) && Calm(s) && b != []
    ensures Reachable(r) && r == Popped(s, b)
  {
    r := SendLists(s, b);
    r := Reach(r, SenderStep(Again));
    assert r.core == s.core.(pending := |b|, accepted := s.core.accepted + [b], list := [b]) && r.sender.Popping?;
    r := Reach(r, SenderStep(Again));
    assert r.core.list == [];
  }

  lemma SendLists<T(!new)>(s: State<T>, b: seq<T>) returns (r: State<T>)
    requires Reachable(s) && Calm(s) && b != []
    ensures Reachable(r)
    ensures r == s.(core := s.core.(accepted := s.core.accepted + [b], list := [b]), sender := Listed(b), opt := 1)
  {
    r := Reach(s, Send(b));
    r := Reach(r, SenderStep(Again));
    r := Reach(r, SenderStep(Again));
    r := Reach(r, SenderStep(Again));
    assert [] + [b] == [b];
  }

  /** A send of which the socket takes all at once. */
  lemma SendWhole<T(!new)>(s: State<T>, b: seq<T>) returns (r: State<T>)
    requires Reachable(s) && Calm(s) && s.poller.Waiting? && b != []
    ensures Reachable(r) && Calm(r) && r.core.accepted == s.core.accepted + [b]
    ensures r.poller == s.poller && r.faulted == s.faulted && r.sizeFirst == s.sizeFirst && r.events == s.events
  {
    r := SendPops(s, b);
    var c := r.core.(wire := s.core.wire + b, last := None, done := s.core.done + [b]);
    r := TakesAll(s, r, b);
    assert r == s.(opt := 1, token := Token.Sender, sender := Subtracting, core := c);
    r := Subtracts(r);
    r := Reach(r, SenderStep(Again));
    assert r == s.(opt := 1, token := Free, sender := Leaving, core := c.(pending := 0));
    r := Reach(r, SenderStep(Again));
  }

  lemma TakesAll<T(!new)>(s: State<T>, r0: State<T>, b: seq<T>) returns (r: State<T>)
    requires Calm(s) && b != [] && r0 == Popped(s, b) && Reachable(r0)
    ensures Reachable(r)
    ensures r == s.(opt := 1, token := Token.Sender, sender := Subtracting,
                    core := r0.core.(wire := s.core.wire + b, last := None, done := s.core.done + [b]))
  {
    assert b[..|b|] == b && b[|b|..] == [];
    r := Reach(r0, SenderStep(Took(|b|)));
    assert r == r0.(sender := Completing, core := r0.core.(wire := s.core.wire + b, last := Some([])));
    r := Reach(r, SenderStep(Again));
  }

  lemma Subtracts<T(!new)>(s: State<T>) returns (r: State<T>)
    requires Reachable(s) && s.sender.Subtracting? && s.core.pending == s.core.lastSize
    ensures Reachable(r)
    ensures r == s.(core := s.core.(pending := 0), token := Free, sender := Comparing(s.core.lastSize, s.core.lastSize))
  {
    r := Reach(s, SenderStep(Again));
  }

  /** A send of which the socket takes the first n bytes only. */
  lemma SendPartly<T(!new)>(s: State<T>, b: seq<T>, n: nat) returns (r: State<T>)
    requires Reachable(s) && Calm(s) && 0 < n < |b|
    ensures Reachable(r)
    ensures r == s.(tracker := On, token := Tracker,
                    core := s.core.(pending := |b|, last := Some(b[n..]), lastSize := |b|, flow := true, cur := b,
                                    accepted := s.core.accepted + [b], wire := s.core.wire + b[..n]))
  {
    r := SendPops(s, b);
    var c := r.core.(last := Some(b[n..]), flow := true, wire := s.core.wire + b[..n]);
    r := Reach(r, SenderStep(Took(n)));
    assert r == s.(core := c, token := Token.Sender, sender := Arming, opt := 1);
    r := ArmAndLeave(s, r, c);
  }

  lemma ArmAndLeave<T(!new)>(s: State<T>, r0: State<T>, c: Core<T>) returns (r: State<T>)
    requires Reachable(r0) && s.tracker.Off? && s.opt == 0 && s.sender.Outside?
    requires r0 == s.(core := c, token := Token.Sender, sender := Arming, opt := 1)
    ensures Reachable(r)
    ensures r == s.(core := c, token := Tracker, tracker := On)
  {
    r := Reach(r0, SenderStep(Again));
    assert r == s.(core := c, token := Tracker, tracker := Starting, sender := Polling, opt := 1);
    r := Reach(r, SenderStep(Again));
    assert r == s.(core := c, token := Tracker, tracker := On, sender := Leaving, opt := 1);
    r := Reach(r, SenderStep(Again));
  }

  /** The poller sends the rest of the only buffer, and stops between subtraction and comparison. */
  lemma PollerSendsRest<T(!new)>(s: State<T>) returns (r: State<T>)
    requires Reachable(s) && s.poller.Waiting? && s.tracker.On? && s.core.list == [] && s.core.flow
    requires s.core.last.Some? && s.core.last.value != [] && s.core.pending == s.core.lastSize
    ensures Reachable(r)
    ensures r == s.(tracker := Off, token := Free, poller := ReComparing(s.core.lastSize, s.core.lastSize),
                    core := s.core.(pending := 0, last := None, flow := false, done := s.core.done + [s.core.cur],
                                    wire := s.core.wire + s.core.last.value))
  {
    r := Reach(s, TrackerEvent);
    r := Reach(r, PollerStep(Again));
    assert r.poller.Resending?;
    r := Reach(r, PollerStep(Took(|s.core.last.value|)));
    assert r.poller.ReCompleting? && r.core.wire == s.core.wire + s.core.last.value;
    r := Reach(r, PollerStep(Again));
    r := Reach(r, PollerStep(Again));
  }

  // ---------------------------------------------------------------------------------------------
  // The comparison behind the subtraction
  // ---------------------------------------------------------------------------------------------

  /** Buffers that never get shorter. */
  ghost predicate Growing<T>(l: seq<seq<T>>) { forall i, j :: 0 <= i <= j < |l| ==> |l[i]| <= |l[j]| }

  /** The size in last_send_iob_size_ is that of the buffer popped last, and no comparison has subtracted more. */
  ghost predicate SizesKnown<T>(s: State<T>) {
    var c := s.core;
    var n := |c.accepted| - |c.list|;
    && n >= 0 && c.list == c.accepted[n..]
    && c.lastSize == (if n > 0 then |c.accepted[n - 1]| else 0)
    && (Compares(s.poller) ==> s.poller.was <= c.lastSize)
  }

  /** How a step can move the list and the size. */
  ghost predicate Moves<T>(c: Core<T>, c': Core<T>) {
    if c'.accepted != c.accepted then
      && |c'.accepted| == |c.accepted| + 1 && c'.accepted[..|c.accepted|] == c.accepted
      && c'.list == c.list + c'.accepted[|c.accepted|..] && c'.lastSize == c.lastSize
    else
      || (c'.list == c.list && c'.lastSize == c.lastSize)
      || (c.list != [] && c'.list == c.list[1..] && c'.lastSize == |c.list[0]|)
  }

  /** ... and a poller that starts to compare has just subtracted the size. */
  ghost predicate MovesAlong<T>(s: State<T>, s': State<T>) {
    && Moves(s.core, s'.core)
    && (Compares(s'.poller) && s'.poller != s.poller ==> s'.poller.was == s'.core.lastSize)
  }

  lemma ResendingMoves<T>(s: State<T>, a: Answer)
    requires Resends(s.poller)
    ensures MovesAlong(s, PollerResending(s, a))
  {}

  lemma SendingMoves<T>(s: State<T>, a: Answer)
    requires Sends(s.poller)
    ensures MovesAlong(s, PollerSending(s, a))
  {}

  lemma EndingMoves<T>(s: State<T>, a: Answer)
    requires !Resends(s.poller) && !Sends(s.poller)
    ensures MovesAlong(s, PollerEnding(s, a))
  {}

  lemma EnteringMoves<T>(s: State<T>)
    requires Enters(s.sender)
    ensures MovesAlong(s, SenderEntering(s))
  {}

  lemma SenderSendingMoves<T>(s: State<T>, a: Answer)
    requires !Enters(s.sender) && !Leaves(s.sender)
    ensures MovesAlong(s, SenderSending(s, a))
  {}

  lemma LeavingMoves<T>(s: State<T>, a: Answer)
    requires Leaves(s.sender)
    ensures MovesAlong(s, SenderLeaving(s, a))
  {}

  lemma StepMoves<T>(s: State<T>, a: Action<T>)
    ensures MovesAlong(s, Apply(s, a))
  {
    hide SenderEntering, SenderSending, SenderLeaving, PollerResending, PollerSending, PollerEnding, MovesAlong;
    match a {
      case SenderStep(answer) =>
        if Enters(s.sender) { EnteringMoves(s); }
        else if Leaves(s.sender) { LeavingMoves(s, answer); }
        else { SenderSendingMoves(s, answer); }
      case PollerStep(answer) =>
        if Resends(s.poller) { ResendingMoves(s, answer); }
        else if Sends(s.poller) { SendingMoves(s, answer); }
        else { EndingMoves(s, answer); }
      case _ => OtherMoves(s, a);
    }
  }

  lemma OtherMoves<T>(s: State<T>, a: Action<T>)
    requires !a.SenderStep? && !a.PollerStep?
    ensures MovesAlong(s, Apply(s, a))
  {
    hide StepSender, StepPoller;
  }

  lemma SizesStayKnown<T>(s: State<T>, s': State<T>)
    requires SizesKnown(s) && MovesAlong(s, s') && Growing(s'.core.accepted)
    ensures SizesKnown(s')
  {
    var c, c' := s.core, s'.core;
    var n := |c.accepted| - |c.list|;
    if c'.accepted != c.accepted {
      assert c'.accepted == c.accepted + c'.accepted[|c.accepted|..];
      assert c'.accepted[n..] == c.list + c'.accepted[|c.accepted|..];
    } else if c'.list == c.list && c'.lastSize == c.lastSize {
    } else {
      assert c.list[0] == c.accepted[n];
      assert c.accepted[n + 1..] == c.list[1..];
    }
  }

  lemma AcceptedGrows<T>(s: State<T>, acts: seq<Action<T>>)
    ensures s.core.accepted <= Run(s, acts).core.accepted
    decreases |acts|
  {
    if acts != [] {
      StepMoves(s, acts[0]);
      hide Apply;
      AcceptedGrows(Apply(s, acts[0]), acts[1..]);
    }
  }

  lemma GrowingPrefix<T>(l: seq<seq<T>>, l': seq<seq<T>>)
    requires l <= l' && Growing(l')
    ensures Growing(l)
  {
    forall i, j | 0 <= i <= j < |l| ensures |l[i]| <= |l[j]| { assert l[i] == l'[i] && l[j] == l'[j]; }
  }

  /** While the buffers sent never get shorter, the comparisons come out right in all runs. */
  lemma {:induction false} GrowingIsRight<T>(s: State<T>, acts: seq<Action<T>>)
    requires Inv(s) && SizesKnown(s) && Growing(Run(s, acts).core.accepted)
    ensures RightRun(s, acts)
    decreases |acts|
  {
    if acts != [] {
      var a := acts[0];
      var s' := Apply(s, a);
      if a.PollerStep? && Compares(s.poller) { CompareIff(s, a.pAnswer); }
      assert ComparesRight(s, a) by { hide Inv; }
      StepKeeps(s, a);
      StepMoves(s, a);
      AcceptedGrows(s', acts[1..]);
      hide Inv, Apply, ComparesRight, MovesAlong;
      GrowingPrefix(s'.core.accepted, Run(s, acts).core.accepted);
      SizesStayKnown(s, s');
      GrowingIsRight(s', acts[1..]);
    }
  }

  predicate NonEmpty<T(==)>(bs: seq<seq<T>>) { forall i :: 0 <= i < |bs| ==> bs[i] != [] }

  /** Some buffer is shorter than the one before it. */
  ghost predicate Shrinks<T>(bs: seq<seq<T>>) { exists i :: 0 <= i < |bs| - 1 && |bs[i + 1]| < |bs[i]| }

  lemma {:induction false} GrowsOrShrinks<T>(bs: seq<seq<T>>)
    ensures Growing(bs) || Shrinks(bs)
  {
    if |bs| > 1 {
      var n := |bs| - 1;
      var front := bs[..n];
      GrowsOrShrinks(front);
      if Shrinks(front) {
        var i :| 0 <= i < |front| - 1 && |front[i + 1]| < |front[i]|;
        assert |bs[i + 1]| < |bs[i]|;
      } else if |bs[n]| < |bs[n - 1]| {
        assert |bs[n - 1 + 1]| < |bs[n - 1]|;
      } else {
        forall i, j | 0 <= i <= j < |bs| ensures |bs[i]| <= |bs[j]| {
          if i < n {
            assert |front[i]| <= |front[n - 1]|;
            if j < n { assert |front[i]| <= |front[j]|; }
          }
        }
      }
    }
  }

  lemma {:induction false} SendAll<T(!new)>(bs: seq<seq<T>>, sizeFirst: bool) returns (r: State<T>)
    requires NonEmpty(bs)
    ensures Reachable(r) && Calm(r) && r.poller.Waiting? && r.core.accepted == bs && !r.faulted && r.sizeFirst == sizeFirst
  {
    if bs == [] {
      r := Start(sizeFirst);
    } else {
      var n := |bs| - 1;
      r := SendAll(bs[..n], sizeFirst);
      assert bs[n] != [];
      r := SendWhole(r, bs[n]);
      assert bs == bs[..n] + [bs[n]];
    }
  }

  /** The poller has sent the rest of buffer i and subtracted its size when the shorter buffer i + 1 is sent and popped:
      the poller then compares with the shorter size, pops in its turn, and `__send_once` fails. */
  lemma ShorterSecondAborts<T(!new)>(bs: seq<seq<T>>, i: nat) returns (acts: seq<Action<T>>)
    requires NonEmpty(bs) && i < |bs| - 1 && |bs[i + 1]| < |bs[i]|
    ensures var s := Run(Init<T>(false), acts);
      s.core.accepted == bs[..i + 2] && s.core.aborted && !s.faulted
  {
    var r := SendAll(bs[..i], false);
    var n := |bs[i]|;
    assert |bs[i + 1]| > 0;
    r := SendPartly(r, bs[i], 1);
    r := PollerSendsRest(r);
    assert Calm(r) && r.poller == ReComparing(n, n);
    assert r.core.accepted == bs[..i] + [bs[i]];
    r := SendPops(r, bs[i + 1]);
    assert r.core.accepted == bs[..i] + [bs[i]] + [bs[i + 1]] == bs[..i + 2];
    assert r.core.last.Some? && r.core.lastSize < n && r.poller == ReComparing(n, n) && !r.sizeFirst;
    acts := ComparesWrong(r);
  }

  lemma ComparesWrong<T(!new)>(s: State<T>) returns (acts: seq<Action<T>>)
    requires Reachable(s) && s.poller.ReComparing? && s.core.last.Some? && !s.sizeFirst && s.core.lastSize < s.poller.before
    ensures Run(Init<T>(false), acts) == s.(poller := PWriting, core := s.core.(aborted := true))
  {
    acts :| Run(Init<T>(false), acts) == s;
    var step: Action<T> := PollerStep(Again);
    RunSnoc(Init<T>(false), acts, step);
    acts := acts + [step];
    assert Run(Init<T>(false), acts) == s.(poller := PPopping);
    RunSnoc(Init<T>(false), acts, step);
    acts := acts + [step];
  }

  lemma GrowingNeverAborts<T>(acts: seq<Action<T>>)
    requires Growing(Run(Init<T>(false), acts).core.accepted)
    ensures !Run(Init<T>(false), acts).core.aborted
  {
    InitOk<T>(false);
    GrowingIsRight(Init<T>(false), acts);
    EveryRun<T>(false, acts);
  }

  /** If the right operand is read second: sending (the first of) these buffers can make `__send_once` fail, faults or
      not, if and only if some buffer is shorter than the one before it. */
  lemma AbortsIff<T(!new)>(bs: seq<seq<T>>)
    requires NonEmpty(bs)
    ensures (exists acts: seq<Action<T>> :: Aborts(bs, acts)) <==> Shrinks(bs)
    ensures Shrinks(bs) ==> exists acts: seq<Action<T>> :: Aborts(bs, acts) && !Run(Init<T>(false), acts).faulted
  {
    if Shrinks(bs) {
      var i :| 0 <= i < |bs| - 1 && |bs[i + 1]| < |bs[i]|;
      var acts := ShorterSecondAborts(bs, i);
      assert Aborts(bs, acts);
    } else {
      GrowsOrShrinks(bs);
      forall acts: seq<Action<T>> ensures !Aborts(bs, acts) {
        if Run(Init<T>(false), acts).core.accepted <= bs {
          GrowingPrefix(Run(Init<T>(false), acts).core.accepted, bs);
          GrowingNeverAborts(acts);
        }
      }
    }
  }

  /** A run that has accepted nothing but the first of these buffers, and has failed. */
  ghost predicate Aborts<T(!new)>(bs: seq<seq<T>>, acts: seq<Action<T>>) {
    var s := Run(Init<T>(false), acts);
    s.core.accepted <= bs && s.core.aborted
  }

  // ---------------------------------------------------------------------------------------------
  // A graceful stop that cuts off accepted bytes
  // ---------------------------------------------------------------------------------------------

  /** A poller that has sent everything there was, at line 354. */
  lemma PollerAtEnd<T(!new)>(sizeFirst: bool, b: seq<T>) returns (r: State<T>)
    requires |b| > 1
    ensures Reachable(r) && Calm(r) && r.poller.Ending? && r.core.accepted == [b] && r.core.wire == b
    ensures r.sizeFirst == sizeFirst && r.stopper.NotStopping? && !r.faulted
  {
    r := Start(sizeFirst);
    r := SendPartly(r, b, 1);
    r := PollerSendsRest(r);
    assert b[..1] + b[1..] == b;
    r := Reach(r, PollerStep(Again));
  }

  /** The poller has sent everything there was and is about to look whether to run stopped_cb when a second
      buffer is sent, in part, and stop is called and returns; the poller then runs stopped_cb and shuts the
      socket down, with the rest of the second buffer still to be sent, no comparison wrong and no fault anywhere. */
  lemma StopCanCutOff(sizeFirst: bool)
    ensures exists s: State<int> :: Reachable(s) && s.sizeFirst == sizeFirst && !s.faulted && s.st.Stopped?
              && s.stopper.Done? && s.core.wire == [1, 2, 3] && s.core.accepted == [[1, 2], [3, 4]]
  {
    var s := PollerAtEnd(sizeFirst, [1, 2]);
    s := SendPartly(s, [3, 4], 1);
    assert s.core.wire == [1, 2, 3] && s.core.accepted == [[1, 2], [3, 4]];
    s := StopReturns(s);
  }

  lemma StopReturns(s: State<int>) returns (r: State<int>)
    requires Reachable(s) && s.st.Started? && s.opt == 0 && s.core.pending > 0 && s.poller.Ending?
    ensures Reachable(r) && r.st.Stopped? && r.stopper.Done?
    ensures r.core == s.core && r.faulted == s.faulted && r.sizeFirst == s.sizeFirst
  {
    r := Reach(s, Stop(false));
    r := Reach(r, StopperStep);
    r := Reach(r, StopperStep);
    assert r == s.(st := Stopping, stopper := Done(false, false));
    r := Reach(r, PollerStep(Again));
  }

  /** ... or a second buffer has been pushed but is not counted yet: nothing is pending, stop has won its exchange and
      waits for the send, and the poller runs stopped_cb with none of that buffer sent. */
  lemma StopCanCutOffUncounted(sizeFirst: bool)
    ensures exists s: State<int> :: Reachable(s) && s.sizeFirst == sizeFirst && !s.faulted && s.st.Stopped?
              && s.core.pending == 0 && s.core.wire == [1, 2] && s.core.accepted == [[1, 2], [3]]
  {
    var s := PollerAtEnd(sizeFirst, [1, 2]);
    s := SendLists(s, [3]);
    s := Reach(s, Stop(false));
    assert s.core.accepted == [[1, 2], [3]] && s.st.Stopping? && s.poller.Ending?;
    s := Reach(s, PollerStep(Again));
  }
}
