/** One direction of the data channel while messages are under way: the sender's sends, the
    receiver's peeks and its blocking receives interleave in any order and any sizes. */
module ChannelRun {
  import opened Protocol
  import opened Wire

  /** What the receiver is in the middle of: nothing, recv_all of a frame, recv_all of a trailer,
      or waiting for the descriptor frame. */
  datatype Rx =
    | Resting
    | InFrame(got: seq<Cell>)
    | InTrailer(e: Event, got: seq<Cell>)
    | InFds(e: Event)

  datatype State = State(unsent: seq<Cell>, wire: seq<Cell>, rx: Rx, received: seq<Msg>)

  function Start(dir: Dir, ms: seq<Msg>): State {
    State(EncodeAll(dir, ms), [], Resting, [])
  }

  datatype Step = Send(k: nat) | Peek(visible: nat) | Recv(k: nat) | TakeFds

  /** None of the last seven cells opens a descriptor frame. */
  ghost predicate NotSplit(cells: seq<Cell>) {
    forall i :: 0 <= i < |cells| < i + HEADER_BYTES ==> cells[i].fds == []
  }

  function Need(dir: Dir, rx: Rx): nat {
    match rx
    case InFrame(got) => if |got| <= FRAME_BYTES then FRAME_BYTES - |got| else 0
    case InTrailer(e, got) => if |got| <= TrailerSize(dir, e) then TrailerSize(dir, e) - |got| else 0
    case _ => 0
  }

  /** A send may stop anywhere but inside a descriptor frame, which is one sendmsg. A peek shows
      any part of what is there, a receive gets any part of what it still needs; both, and the
      wait for descriptors, need something to be there. */
  ghost predicate Enabled(dir: Dir, s: State, step: Step) {
    match step
    case Send(k) => 1 <= k <= |s.unsent| && NotSplit(s.unsent[..k])
    case Peek(visible) => s.rx.Resting? && visible <= |s.wire|
    case Recv(k) => 1 <= k <= |s.wire| && k <= Need(dir, s.rx)
    case TakeFds => s.rx.InFds? && s.wire != []
  }

  function Deliver(s: State, m: Msg): State {
    s.(rx := Resting, received := s.received + [m])
  }

  /** An event is complete: its trailer or its descriptors are next, or it is done. */
  function Begin(dir: Dir, s: State, e: Event): State {
    if TrailerSize(dir, e) > 0 then s.(rx := InTrailer(e, []))
    else if 0 < FdNumber(dir, e) <= MAX_FDS then s.(rx := InFds(e))
    else Deliver(s, Msg(e, [], []))
  }

  function Peeked(dir: Dir, s: State, visible: nat): State {
    if Min(visible, |s.wire|) < HEADER_BYTES || FromLE32(Bytes(s.wire[..4])) != EventMsg(dir) then s
    else s.(rx := InFrame([]))
  }

  function Received(dir: Dir, s: State, k: nat): State
    requires k <= |s.wire|
  {
    var rest := s.(wire := s.wire[k..]);
    match s.rx
    case InFrame(got) =>
      var got' := got + s.wire[..k];
      if |got'| < FRAME_BYTES then rest.(rx := InFrame(got'))
      else if |got'| == FRAME_BYTES then Begin(dir, rest, ParseEvent(Bytes(got'[HEADER_BYTES..])))
      else s
    case InTrailer(e, got) =>
      var got' := got + s.wire[..k];
      if |got'| < TrailerSize(dir, e) then rest.(rx := InTrailer(e, got')) else Deliver(rest, Msg(e, Bytes(got'), []))
    case _ => s
  }

  function FdsTaken(dir: Dir, s: State): State
    requires s.rx.InFds?
  {
    var h := ReadFds(s.rx.e, FdNumber(dir, s.rx.e), s.wire, Turn(0, [], []));
    var rest := s.(wire := h.rest);
    if h.m.Some? then Deliver(rest, h.m.value) else rest.(rx := Resting)
  }

  ghost function Do(dir: Dir, s: State, step: Step): State
    requires Enabled(dir, s, step)
  {
    match step
    case Send(k) => s.(unsent := s.unsent[k..], wire := s.wire + s.unsent[..k])
    case Peek(visible) => Peeked(dir, s, visible)
    case Recv(k) => Received(dir, s, k)
    case TakeFds => FdsTaken(dir, s)
  }

  /** Steps that cannot happen leave the state alone. */
  ghost function Run(dir: Dir, ms: seq<Msg>, steps: seq<Step>): State {
    if steps == [] then Start(dir, ms)
    else
      var s := Run(dir, ms, steps[..|steps| - 1]);
      if Enabled(dir, s, steps[|steps| - 1]) then Do(dir, s, steps[|steps| - 1]) else s
  }

  /** The cells of the message that the receiver has taken and not delivered. */
  function Partial(dir: Dir, rx: Rx): seq<Cell> {
    match rx
    case Resting => []
    case InFrame(got) => got
    case InTrailer(e, got) => Cells(Frame(dir, e)) + got
    case InFds(e) => Cells(Frame(dir, e))
  }

  ghost predicate RxOk(dir: Dir, rx: Rx) {
    match rx
    case Resting => true
    case InFrame(got) => |got| < FRAME_BYTES
    case InTrailer(e, got) => |got| < TrailerSize(dir, e)
    case InFds(e) => TrailerSize(dir, e) == 0 && 0 < FdNumber(dir, e) <= MAX_FDS
  }

  /** `left` are the messages not delivered yet. */
  ghost predicate Holds(dir: Dir, s: State, left: seq<Msg>) {
    && Partial(dir, s.rx) + (s.wire + s.unsent) == EncodeAll(dir, left)
    && (!s.rx.Resting? ==> left != [])
    && RxOk(dir, s.rx) && NotSplit(s.wire)
  }

  ghost predicate Inv(dir: Dir, ms: seq<Msg>, s: State) {
    |s.received| <= |ms| && s.received == ms[..|s.received|] && Holds(dir, s, ms[|s.received|..])
  }

  // ---- every step keeps it ----

  lemma JoinNotSplit(wire: seq<Cell>, sent: seq<Cell>)
    requires NotSplit(wire) && NotSplit(sent)
    ensures NotSplit(wire + sent)
  {
    var both := wire + sent;
    forall i | 0 <= i < |both| < i + HEADER_BYTES ensures both[i].fds == [] {
      if i < |wire| { assert both[i] == wire[i]; } else { assert both[i] == sent[i - |wire|]; }
    }
  }

  lemma TailNotSplit(cells: seq<Cell>, k: nat)
    requires NotSplit(cells) && k <= |cells|
    ensures NotSplit(cells[k..])
  {
    forall i | 0 <= i < |cells[k..]| < i + HEADER_BYTES ensures cells[k..][i].fds == [] {
      assert cells[k..][i] == cells[k + i];
    }
  }

  lemma SendKeeps(dir: Dir, s: State, left: seq<Msg>, k: nat)
    requires Holds(dir, s, left) && Enabled(dir, s, Send(k))
    ensures Holds(dir, Do(dir, s, Send(k)), left)
  {
    JoinNotSplit(s.wire, s.unsent[..k]);
    Regroup(s.wire, s.unsent[..k], s.unsent[k..]);
    assert s.unsent[..k] + s.unsent[k..] == s.unsent;
  }

  lemma PeekKeeps(dir: Dir, s: State, left: seq<Msg>, visible: nat)
    requires Holds(dir, s, left) && Enabled(dir, s, Peek(visible))
    ensures Holds(dir, Peeked(dir, s, visible), left)
  {
    assert [] + (s.wire + s.unsent) == s.wire + s.unsent;
    if left == [] { assert s.wire == []; }
  }

  lemma TakeCells(partial: seq<Cell>, wire: seq<Cell>, unsent: seq<Cell>, k: nat)
    requires k <= |wire|
    ensures partial + (wire + unsent) == (partial + wire[..k]) + (wire[k..] + unsent)
  {
    assert wire == wire[..k] + wire[k..];
  }

  /** The frame is whole: it is that of the next message. */
  lemma FrameComplete(dir: Dir, left: seq<Msg>, got: seq<Cell>, rest: seq<Cell>)
    requires left != [] && |got| == FRAME_BYTES && got + rest == EncodeAll(dir, left)
    ensures got == Cells(Frame(dir, left[0].event)) && rest == Behind(left[0]) + EncodeAll(dir, left[1..])
    ensures ParseEvent(Bytes(got[HEADER_BYTES..])) == left[0].event
  {
    EncodeSplitsFrame(dir, left[0], EncodeAll(dir, left[1..]));
    Cancel(got, rest, Cells(Frame(dir, left[0].event)), Behind(left[0]) + EncodeAll(dir, left[1..]));
    FrameParses(dir, left[0].event);
  }

  /** Delivering the next message or going on with it. */
  ghost predicate Moved(dir: Dir, s: State, s': State, left: seq<Msg>) {
    || (s'.received == s.received && Holds(dir, s', left))
    || (left != [] && s'.received == s.received + [left[0]] && Holds(dir, s', left[1..]))
  }

  lemma BeginKeeps(dir: Dir, s: State, left: seq<Msg>, e: Event)
    requires left != [] && Receivable(dir, left) && e == left[0].event && NotSplit(s.wire)
    requires s.wire + s.unsent == Behind(left[0]) + EncodeAll(dir, left[1..])
    ensures Moved(dir, s, Begin(dir, s, e), left)
  {
    var m, tail := left[0], EncodeAll(dir, left[1..]);
    EncodeSplitsFrame(dir, m, tail);
    assert Cells(Frame(dir, e)) + [] == Cells(Frame(dir, e));
    if m.trailer == [] && m.fds == [] {
      assert Behind(m) + tail == tail;
      assert [] + (s.wire + s.unsent) == s.wire + s.unsent;
      assert m == Msg(e, [], []);
    }
  }

  lemma FramePartKeeps(dir: Dir, s: State, left: seq<Msg>, k: nat)
    requires Holds(dir, s, left) && Receivable(dir, left) && s.rx.InFrame? && Enabled(dir, s, Recv(k))
    ensures Moved(dir, s, Received(dir, s, k), left)
  {
    var got := s.rx.got + s.wire[..k];
    var rest := s.(wire := s.wire[k..]);
    TakeCells(s.rx.got, s.wire, s.unsent, k);
    TailNotSplit(s.wire, k);
    if |got| == FRAME_BYTES {
      FrameComplete(dir, left, got, rest.wire + rest.unsent);
      BeginKeeps(dir, rest, left, left[0].event);
    }
  }

  lemma TrailerComplete(m: Msg, got: seq<Cell>, rest: seq<Cell>, tail: seq<Cell>)
    requires |got| == |m.trailer| && m.fds == [] && got + rest == Behind(m) + tail
    ensures Bytes(got) == m.trailer && rest == tail
  {
    assert Behind(m) == Cells(m.trailer);
    Cancel(got, rest, Cells(m.trailer), tail);
    CellsSurvive(m.trailer);
  }

  /** What follows the frame of an event that is being read. */
  lemma AfterFrame(dir: Dir, left: seq<Msg>, e: Event, rest: seq<Cell>)
    requires left != [] && Cells(Frame(dir, e)) + rest == EncodeAll(dir, left)
    ensures e == left[0].event && rest == Behind(left[0]) + EncodeAll(dir, left[1..])
  {
    FrameComplete(dir, left, Cells(Frame(dir, e)), rest);
    FrameParses(dir, e);
  }

  lemma TrailerMoves(dir: Dir, s: State, left: seq<Msg>, k: nat)
    requires Holds(dir, s, left) && s.rx.InTrailer? && Enabled(dir, s, Recv(k))
    ensures Cells(Frame(dir, s.rx.e)) + (s.rx.got + s.wire[..k]) + (s.wire[k..] + s.unsent) == EncodeAll(dir, left)
  {
    var frame := Cells(Frame(dir, s.rx.e));
    TakeCells(frame + s.rx.got, s.wire, s.unsent, k);
    Regroup(frame, s.rx.got, s.wire[..k]);
  }

  lemma TrailerDone(dir: Dir, left: seq<Msg>, e: Event, got: seq<Cell>, rest: seq<Cell>)
    requires Receivable(dir, left) && left != [] && 0 < |got| == TrailerSize(dir, e)
    requires Cells(Frame(dir, e)) + got + rest == EncodeAll(dir, left)
    ensures Msg(e, Bytes(got), []) == left[0] && rest == EncodeAll(dir, left[1..])
  {
    Regroup(Cells(Frame(dir, e)), got, rest);
    AfterFrame(dir, left, e, got + rest);
    TrailerComplete(left[0], got, rest, EncodeAll(dir, left[1..]));
  }

  lemma TrailerPartKeeps(dir: Dir, s: State, left: seq<Msg>, k: nat)
    requires Holds(dir, s, left) && Receivable(dir, left) && s.rx.InTrailer? && Enabled(dir, s, Recv(k))
    ensures Moved(dir, s, Received(dir, s, k), left)
  {
    hide NotSplit, Receivable;
    var got, rest := s.rx.got + s.wire[..k], s.wire[k..] + s.unsent;
    TailNotSplit(s.wire, k);
    TrailerMoves(dir, s, left, k);
    if |got| == TrailerSize(dir, s.rx.e) {
      TrailerDone(dir, left, s.rx.e, got, rest);
      assert [] + rest == rest;
    }
  }

  /** When the first byte of a descriptor frame is there, all of it is. */
  lemma FdFrameWhole(wire: seq<Cell>, unsent: seq<Cell>, fds: seq<Fd>, tail: seq<Cell>)
    requires wire != [] && NotSplit(wire) && fds != [] && wire + unsent == FdFrame(fds) + tail
    ensures |wire| >= HEADER_BYTES && wire == FdFrame(fds) + wire[HEADER_BYTES..]
    ensures wire[HEADER_BYTES..] + unsent == tail
  {
    assert wire[0] == (wire + unsent)[0] == FdFrame(fds)[0];
    assert wire == wire[..HEADER_BYTES] + wire[HEADER_BYTES..];
    Regroup(wire[..HEADER_BYTES], wire[HEADER_BYTES..], unsent);
    Cancel(wire[..HEADER_BYTES], wire[HEADER_BYTES..] + unsent, FdFrame(fds), tail);
  }

  lemma FdsKeep(dir: Dir, s: State, left: seq<Msg>)
    requires Holds(dir, s, left) && Receivable(dir, left) && Enabled(dir, s, TakeFds)
    ensures Moved(dir, s, FdsTaken(dir, s), left)
  {
    hide NotSplit;
    AfterFrame(dir, left, s.rx.e, s.wire + s.unsent);
    var m := left[0];
    assert Behind(m) == FdFrame(m.fds);
    FdFrameWhole(s.wire, s.unsent, m.fds, EncodeAll(dir, left[1..]));
    FdsRead(s.rx.e, m.fds, s.wire[HEADER_BYTES..], Turn(0, [], []));
    TailNotSplit(s.wire, HEADER_BYTES);
    assert [] + (s.wire[HEADER_BYTES..] + s.unsent) == s.wire[HEADER_BYTES..] + s.unsent;
  }

  lemma StepMoves(dir: Dir, s: State, left: seq<Msg>, step: Step)
    requires Holds(dir, s, left) && Receivable(dir, left) && Enabled(dir, s, step)
    ensures Moved(dir, s, Do(dir, s, step), left)
  {
    match step
    case Send(k) => SendKeeps(dir, s, left, k);
    case Peek(visible) => PeekKeeps(dir, s, left, visible);
    case Recv(k) => if s.rx.InFrame? { FramePartKeeps(dir, s, left, k); } else { TrailerPartKeeps(dir, s, left, k); }
    case TakeFds => FdsKeep(dir, s, left);
  }

  lemma {:induction false} RunKeeps(dir: Dir, ms: seq<Msg>, steps: seq<Step>)
    requires Receivable(dir, ms)
    ensures Inv(dir, ms, Run(dir, ms, steps))
  {
    if steps == [] {
      assert [] + ([] + EncodeAll(dir, ms)) == EncodeAll(dir, ms) && ms[..0] == [] && ms[0..] == ms;
    } else {
      var s := Run(dir, ms, steps[..|steps| - 1]);
      RunKeeps(dir, ms, steps[..|steps| - 1]);
      if Enabled(dir, s, steps[|steps| - 1]) {
        var n := |s.received|;
        StepMoves(dir, s, ms[n..], steps[|steps| - 1]);
        if n < |ms| {
          assert ms[n..][1..] == ms[n + 1..] && ms[..n] + [ms[n]] == ms[..n + 1];
        }
      }
    }
  }

  // ---- main results ----

  /** Reading cells that are all there, without interruption. */
  function Decode(dir: Dir, cells: seq<Cell>): seq<Msg> {
    var turn := Turn(HEADER_BYTES, [Call(Chunk.Moved(FRAME_BYTES))], [Call(Chunk.Moved(|cells|))]);
    Drain(dir, cells, seq(|cells|, _ => turn)).ms
  }

  lemma {:induction false} EncodedIsLonger(dir: Dir, ms: seq<Msg>)
    ensures |ms| <= |EncodeAll(dir, ms)|
    ensures forall i :: 0 <= i < |ms| ==> |ms[i].trailer| <= |EncodeAll(dir, ms)|
  {
    if ms != [] {
      EncodedIsLonger(dir, ms[1..]);
      assert forall i :: 0 < i < |ms| ==> ms[i] == ms[1..][i - 1];
    }
  }

  lemma {:induction false} DecodeEncoded(dir: Dir, ms: seq<Msg>)
    requires Receivable(dir, ms)
    ensures Decode(dir, EncodeAll(dir, ms)) == ms
  {
    var cells := EncodeAll(dir, ms);
    var turn := Turn(HEADER_BYTES, [Call(Chunk.Moved(FRAME_BYTES))], [Call(Chunk.Moved(|cells|))]);
    var turns := seq(|cells|, _ => turn);
    EncodedIsLonger(dir, ms);
    assert Calls(turn.frame) == [Chunk.Moved(FRAME_BYTES)] && Calls(turn.extra) == [Chunk.Moved(|cells|)];
    forall i | 0 <= i < |ms| ensures Consistent(dir, ms[i]) && Fair(dir, ms[i], turns[i]) {
      assert turns[i] == turn && |ms[i].trailer| <= |cells|;
    }
    RoundTrip(dir, ms, [], turns);
    EmptyDrains(dir, turns[|ms|..]);
    assert cells + [] == cells && ms + [] == ms;
  }

  /** At every point of every run: what was received, followed by what decoding the rest of the
      stream gives, is what was sent. The rest is the message being read, what is on the wire and
      what is not sent yet. */
  lemma NothingLost(dir: Dir, ms: seq<Msg>, steps: seq<Step>)
    requires Receivable(dir, ms)
    ensures var s := Run(dir, ms, steps);
            s.received + Decode(dir, Partial(dir, s.rx) + (s.wire + s.unsent)) == ms
  {
    RunKeeps(dir, ms, steps);
    var s := Run(dir, ms, steps);
    DecodeEncoded(dir, ms[|s.received|..]);
  }

  /** The receiver is between messages with nothing there, a peek that shows all there is makes
      it start, or the receive it is waiting in can return. */
  ghost predicate CanGoOn(dir: Dir, s: State) {
    match s.rx
    case Resting => Enabled(dir, s, Peek(|s.wire|)) && Peeked(dir, s, |s.wire|).rx == InFrame([])
    case InFrame(_) => Enabled(dir, s, Recv(1))
    case InTrailer(_, _) => Enabled(dir, s, Recv(1))
    case InFds(_) => Enabled(dir, s, TakeFds)
  }

  lemma WireIsThere(dir: Dir, s: State, left: seq<Msg>)
    requires Holds(dir, s, left) && Receivable(dir, left) && left != [] && s.unsent == []
    ensures s.wire != []
  {
    var tail := EncodeAll(dir, left[1..]);
    EncodeSplitsFrame(dir, left[0], tail);
    match s.rx
    case Resting =>
    case InFrame(got) =>
    case InTrailer(e, got) =>
      Regroup(Cells(Frame(dir, e)), got, s.wire + s.unsent);
      AfterFrame(dir, left, e, got + (s.wire + s.unsent));
    case InFds(e) =>
      AfterFrame(dir, left, e, s.wire + s.unsent);
  }

  lemma GoesOn(dir: Dir, s: State, left: seq<Msg>)
    requires Holds(dir, s, left) && Receivable(dir, left) && left != [] && s.unsent == []
    ensures CanGoOn(dir, s)
  {
    WireIsThere(dir, s, left);
    if s.rx.Resting? {
      var tail := EncodeAll(dir, left[1..]);
      EncodeSplitsFrame(dir, left[0], tail);
      assert [] + (s.wire + s.unsent) == s.wire;
      FrameIsThere(dir, left[0].event, Behind(left[0]) + tail);
    }
  }

  /** Once everything is sent, either all of it is received and the channel is empty, or the
      receiver can go on: no run gets stuck half way. */
  lemma NeverStuck(dir: Dir, ms: seq<Msg>, steps: seq<Step>)
    requires Receivable(dir, ms) && Run(dir, ms, steps).unsent == []
    ensures var s := Run(dir, ms, steps);
            (s.received == ms && s.wire == [] && s.rx.Resting?) || CanGoOn(dir, s)
  {
    RunKeeps(dir, ms, steps);
    var s := Run(dir, ms, steps);
    var left := ms[|s.received|..];
    if left == [] {
      assert s.received == ms;
      assert |Partial(dir, s.rx) + (s.wire + s.unsent)| == 0;
    } else {
      GoesOn(dir, s, left);
    }
  }
}
