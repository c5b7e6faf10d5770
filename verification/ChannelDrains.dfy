/** The receiving end makes progress: every receive takes exactly what it asked for off the channel, and
    once everything is sent the receiver can always finish. */
module ChannelDrains {
  import opened Protocol
  import opened Wire
  import opened ChannelRun

  /** A receive of k cells takes k cells, the wait for descriptors takes their frame, and a send puts on
      the channel what it takes from the sender. A peek at a whole header starts the next frame. */
  lemma StepTakes(dir: Dir, s: State, left: seq<Msg>, step: Step)
    requires Holds(dir, s, left) && Receivable(dir, left) && Enabled(dir, s, step)
    ensures var s' := Do(dir, s, step);
            match step
            case Send(k) => s'.unsent == s.unsent[k..] && s'.wire == s.wire + s.unsent[..k] && s'.rx == s.rx
            case Peek(visible) =>
              s'.wire == s.wire && s'.unsent == s.unsent && s'.received == s.received
              && (visible >= 8 ==> s'.rx == InFrame([])) && (visible < 8 ==> s'.rx == s.rx)
            case Recv(k) => s'.wire == s.wire[k..] && s'.unsent == s.unsent
            case TakeFds => |s.wire| >= 8 && s'.wire == s.wire[8..] && s'.unsent == s.unsent
  {
    match step
    case Peek(visible) => if visible >= 8 { HeaderAhead(dir, s, left); }
    case Recv(k) => ReceiveTakes(dir, s, k);
    case TakeFds => FrameTaken(dir, s, left);
    case _ =>
    hide FdsTaken, Received, Holds, Receivable;
  }

  lemma ReceiveTakes(dir: Dir, s: State, k: nat)
    requires RxOk(dir, s.rx) && Enabled(dir, s, Recv(k))
    ensures var s' := Received(dir, s, k); s'.wire == s.wire[k..] && s'.unsent == s.unsent
  {
  }

  lemma FrameTaken(dir: Dir, s: State, left: seq<Msg>)
    requires Holds(dir, s, left) && Receivable(dir, left) && Enabled(dir, s, TakeFds)
    ensures |s.wire| >= 8
    ensures var s' := FdsTaken(dir, s); s'.wire == s.wire[8..] && s'.unsent == s.unsent
  {
    AfterFrame(dir, left, s.rx.e, s.wire + s.unsent);
    assert Behind(left[0]) == FdFrame(left[0].fds);
    FdFrameWhole(s.wire, s.unsent, left[0].fds, EncodeAll(dir, left[1..]));
    FdsRead(s.rx.e, left[0].fds, s.wire[HEADER_BYTES..], Turn(0, [], []));
    hide ReadFds, NotSplit, EncodeAll, FdFrame, Encode;
  }

  /** Descriptors that come only while they are waited for are taken like those that are there. */
  lemma FdsAwaited(e: Event, fds: seq<Fd>, tail: seq<Cell>, t: Turn, more: seq<Recv>)
    requires fds != [] && t.extra == [Arrives(FdFrame(fds) + tail)] + more
    ensures ReadFds(e, |fds|, [], t) == Handled(Some(Msg(e, [], fds)), tail, FdFrame(fds) + tail)
  {
    var came := FdFrame(fds) + tail;
    assert [] + came == came;
    FdsRead(e, fds, tail, t);
  }

  /** Between messages the channel begins with the header of the next one. */
  lemma HeaderAhead(dir: Dir, s: State, left: seq<Msg>)
    requires Holds(dir, s, left) && Receivable(dir, left) && s.rx.Resting? && |s.wire| >= 8
    ensures FromLE32(Bytes(s.wire[..4])) == EventMsg(dir)
  {
    assert [] + (s.wire + s.unsent) == s.wire + s.unsent;
    assert left != [];
    EncodeSplitsFrame(dir, left[0], EncodeAll(dir, left[1..]));
    FrameIsThere(dir, left[0].event, Behind(left[0]) + EncodeAll(dir, left[1..]));
    assert s.wire[..4] == (s.wire + s.unsent)[..4];
  }

  /** What is left to do: receives, and peeks between them. */
  function Work(s: State): nat {
    2 * |s.wire| + OneIf(s.rx.Resting?)
  }

  /** The step that goes on. */
  function NextStep(s: State): Step {
    match s.rx
    case Resting => Peek(|s.wire|)
    case InFds(_) => TakeFds
    case _ => Recv(1)
  }

  lemma NextWorks(dir: Dir, s: State, left: seq<Msg>)
    requires Holds(dir, s, left) && Receivable(dir, left) && left != [] && s.unsent == []
    ensures Enabled(dir, s, NextStep(s))
    ensures var s' := Do(dir, s, NextStep(s)); s'.unsent == [] && Work(s') < Work(s)
  {
    GoesOn(dir, s, left);
    StepTakes(dir, s, left, NextStep(s));
  }

  lemma RunStep(dir: Dir, ms: seq<Msg>, steps: seq<Step>, step: Step)
    requires Enabled(dir, Run(dir, ms, steps), step)
    ensures Run(dir, ms, steps + [step]) == Do(dir, Run(dir, ms, steps), step)
  {
    assert (steps + [step])[..|steps|] == steps;
  }

  /** However the run went so far, once everything is sent it can be continued until all of it is
      received, in order, and the channel is empty. */
  lemma {:induction false} EverythingArrives(dir: Dir, ms: seq<Msg>, steps: seq<Step>) returns (more: seq<Step>)
    requires Receivable(dir, ms) && Run(dir, ms, steps).unsent == []
    ensures var s := Run(dir, ms, steps + more); s.received == ms && s.wire == [] && s.unsent == [] && s.rx.Resting?
    decreases Work(Run(dir, ms, steps))
  {
    var s := Run(dir, ms, steps);
    RunKeeps(dir, ms, steps);
    var left := ms[|s.received|..];
    if left == [] {
      NeverStuck(dir, ms, steps);
      assert |Partial(dir, s.rx) + (s.wire + s.unsent)| == 0;
      assert steps + [] == steps;
      more := [];
    } else {
      NextWorks(dir, s, left);
      RunStep(dir, ms, steps, NextStep(s));
      var later := EverythingArrives(dir, ms, steps + [NextStep(s)]);
      assert steps + [NextStep(s)] + later == steps + ([NextStep(s)] + later);
      more := [NextStep(s)] + later;
    }
  }
}
