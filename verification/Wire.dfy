/** The data channel's codec (display_consumer.c, display_producer.c): 28-byte frames, trailers
    whose size the event announces, and a descriptor frame after a resource event. */
module Wire {
  import opened Protocol

  const INPUT_EVENT_MSG := 102
  const OUTPUT_EVENT_MSG := 103
  const EXTEND_FDS_MSG := 104

  const INPUT_CLIPBOARD := 8
  const INPUT_TEXT := 9
  const INPUT_RESOURCE := 11
  const OUTPUT_CLIPBOARD := 1
  const OUTPUT_WINDOW := 16

  const HEADER_BYTES := 8
  const EVENT_BYTES := 20
  const FRAME_BYTES := 28
  const MAX_FDS := 9

  /** The five little-endian words of an InputEvent or OutputEvent: the type and its union. */
  datatype Event = Event(kind: Word, w0: Word, w1: Word, w2: Word, w3: Word)

  /** Input events go from the consumer to the producer, output events the other way. */
  datatype Dir = Input | Output

  /** An event with what follows it on the channel. */
  datatype Msg = Msg(event: Event, trailer: seq<Byte>, fds: seq<Fd>)

  /** A byte in the socket, with the descriptors that travel on it. */
  datatype Cell = Cell(b: Byte, fds: seq<Fd>)

  function LE32(w: Word): (s: seq<Byte>)
    ensures |s| == 4
  {
    [w % 256, w / 0x100 % 256, w / 0x1_0000 % 256, w / 0x100_0000]
  }

  function FromLE32(s: seq<Byte>): Word
    requires |s| == 4
  {
    var b0: nat, b1: nat, b2: nat, b3: nat := s[0], s[1], s[2], s[3];
    b0 + 0x100 * b1 + 0x1_0000 * b2 + 0x100_0000 * b3
  }

  lemma WordSurvives(w: Word)
    ensures FromLE32(LE32(w)) == w
  {
    var a, b, c := w / 0x100, w / 0x1_0000, w / 0x100_0000;
    assert w == 256 * a + w % 256 && a == 256 * b + a % 256 && b == 256 * c + b % 256;
  }

  function EventBytes(e: Event): (s: seq<Byte>)
    ensures |s| == EVENT_BYTES
  {
    LE32(e.kind) + LE32(e.w0) + LE32(e.w1) + LE32(e.w2) + LE32(e.w3)
  }

  function ParseEvent(s: seq<Byte>): Event
    requires |s| == EVENT_BYTES
  {
    Event(FromLE32(s[..4]), FromLE32(s[4..8]), FromLE32(s[8..12]), FromLE32(s[12..16]), FromLE32(s[16..]))
  }

  lemma EventSurvives(e: Event)
    ensures ParseEvent(EventBytes(e)) == e
  {
    var s := EventBytes(e);
    assert s[..4] == LE32(e.kind) && s[4..8] == LE32(e.w0) && s[8..12] == LE32(e.w1);
    assert s[12..16] == LE32(e.w2) && s[16..] == LE32(e.w3);
    WordSurvives(e.kind);
    WordSurvives(e.w0);
    WordSurvives(e.w1);
    WordSurvives(e.w2);
    WordSurvives(e.w3);
  }

  function EventMsg(dir: Dir): Word {
    if dir.Input? then INPUT_EVENT_MSG else OUTPUT_EVENT_MSG
  }

  function Header(kind: Word, size: Word): (s: seq<Byte>)
    ensures |s| == HEADER_BYTES
  {
    LE32(kind) + LE32(size)
  }

  function Frame(dir: Dir, e: Event): (s: seq<Byte>)
    ensures |s| == FRAME_BYTES
  {
    Header(EventMsg(dir), EVENT_BYTES) + EventBytes(e)
  }

  /** Clipboard and text announce their size in the first word, a window event in the third. */
  function TrailerSize(dir: Dir, e: Event): nat {
    match dir
    case Input => if e.kind == INPUT_CLIPBOARD || e.kind == INPUT_TEXT then e.w0 else 0
    case Output => if e.kind == OUTPUT_CLIPBOARD then e.w0 else if e.kind == OUTPUT_WINDOW then e.w2 else 0
  }

  function FdNumber(dir: Dir, e: Event): nat {
    if dir.Input? && e.kind == INPUT_RESOURCE then e.w1 else 0
  }

  /** What the library's callers see to: the announced sizes are the real ones. */
  predicate Consistent(dir: Dir, m: Msg) {
    |m.trailer| == TrailerSize(dir, m.event) && |m.fds| == FdNumber(dir, m.event)
  }

  function Cells(bytes: seq<Byte>): (cells: seq<Cell>)
    ensures |cells| == |bytes|
  {
    seq(|bytes|, i requires 0 <= i < |bytes| => Cell(bytes[i], []))
  }

  function Bytes(cells: seq<Cell>): (bytes: seq<Byte>)
    ensures |bytes| == |cells|
  {
    seq(|cells|, i requires 0 <= i < |cells| => cells[i].b)
  }

  /** sendmsg puts the descriptors on the first byte of the extension header. */
  function FdFrame(fds: seq<Fd>): seq<Cell> {
    if fds == [] then []
    else
      var h := Cells(Header(EXTEND_FDS_MSG, 0));
      h[0 := h[0].(fds := fds)]
  }

  function Encode(dir: Dir, m: Msg): seq<Cell> {
    Cells(Frame(dir, m.event) + m.trailer) + FdFrame(m.fds)
  }

  function EncodeAll(dir: Dir, ms: seq<Msg>): seq<Cell> {
    if ms == [] then [] else Encode(dir, ms[0]) + EncodeAll(dir, ms[1..])
  }

  /** What the kernel does with one send or recv call. */
  datatype Chunk = Interrupted | Failed | Moved(n: nat)

  /** What happens while a receive loop runs: its calls return, or more cells arrive for a call
      that blocks. */
  datatype Recv = Call(c: Chunk) | Arrives(cells: seq<Cell>)

  /** How far a send_all loop over `n` bytes gets: it retries after an interruption, gives up on an
      error or an empty transfer, and stops when all is moved. */
  function Progress(script: seq<Chunk>, n: nat): (k: nat)
    ensures k <= n
  {
    if n == 0 || script == [] then 0
    else
      match script[0]
      case Interrupted => Progress(script[1..], n)
      case Failed => 0
      case Moved(m) =>
        var step := if m < n then m else n;
        if step == 0 then 0 else step + Progress(script[1..], n - step)
  }

  function Min(a: nat, b: nat): nat {
    if a < b then a else b
  }

  /** What a receive loop got, what it left on the wire, and what came in meanwhile. */
  datatype Reading = Reading(got: seq<Cell>, wire: seq<Cell>, came: seq<Cell>)

  /** recv_all of `n` bytes: it blocks for what has not arrived, retries after an interruption and
      gives up on an error or at the end of the stream. A script that ends early is a failure. */
  function Read(wire: seq<Cell>, n: nat, script: seq<Recv>): Reading
    decreases |script|
  {
    if n == 0 || script == [] then Reading([], wire, [])
    else
      match script[0]
      case Arrives(cells) =>
        var r := Read(wire + cells, n, script[1..]);
        r.(came := cells + r.came)
      case Call(c) =>
        if c.Interrupted? then Read(wire, n, script[1..])
        else
          var step := if c.Failed? then 0 else Min(Min(c.n, n), |wire|);
          if step == 0 then Reading([], wire, [])
          else
            var r := Read(wire[step..], n - step, script[1..]);
            r.(got := wire[..step] + r.got)
  }

  /** The receiver's environment in one round of its loop: how much a peek shows, and what happens
      while the frame and the trailer are read. */
  datatype Turn = Turn(visible: nat, frame: seq<Recv>, extra: seq<Recv>)

  datatype Polled = Nothing | Broken(rest: seq<Cell>, came: seq<Cell>) | Got(event: Event, rest: seq<Cell>, came: seq<Cell>)

  /** poll_input_event and poll_output_event. */
  function Poll(dir: Dir, wire: seq<Cell>, t: Turn): Polled {
    if Min(t.visible, |wire|) < HEADER_BYTES || FromLE32(Bytes(wire[..4])) != EventMsg(dir) then Nothing
    else
      var r := Read(wire, FRAME_BYTES, t.frame);
      if |r.got| != FRAME_BYTES then Broken(r.wire, r.came)
      else Got(ParseEvent(Bytes(r.got[HEADER_BYTES..])), r.wire, r.came)
  }

  /** An event whose trailer or descriptors could not be had is dropped. */
  datatype Handled = Handled(m: Option<Msg>, rest: seq<Cell>, came: seq<Cell>)

  /** poll_*_event_extend_data of the announced size. */
  function ReadTrailer(e: Event, size: nat, wire: seq<Cell>, t: Turn): Handled {
    var r := Read(wire, size, t.extra);
    Handled(if |r.got| == size then Some(Msg(e, Bytes(r.got), [])) else None, r.wire, r.came)
  }

  /** What a poll that finds nothing waits for. */
  function Awaited(wire: seq<Cell>, script: seq<Recv>): seq<Cell> {
    if wire == [] && script != [] && script[0].Arrives? then script[0].cells else []
  }

  /** poll_input_event_extend_fds: one recvmsg of a header, taking at most `max` descriptors. */
  function ReadFds(e: Event, max: nat, wire: seq<Cell>, t: Turn): Handled {
    var came := Awaited(wire, t.extra);
    var w := wire + came;
    if |w| < HEADER_BYTES then Handled(None, [], came)
    else
      var whole := FromLE32(Bytes(w[..4])) == EXTEND_FDS_MSG && |w[0].fds| >= max;
      Handled(if whole then Some(Msg(e, [], w[0].fds[..max])) else None, w[HEADER_BYTES..], came)
  }

  /** processInputEvent, and on the other side handle_unhandled_event or a reader like it. */
  function Process(dir: Dir, e: Event, wire: seq<Cell>, t: Turn): Handled {
    var n := FdNumber(dir, e);
    if TrailerSize(dir, e) > 0 then ReadTrailer(e, TrailerSize(dir, e), wire, t)
    else if n == 0 || n > MAX_FDS then Handled(Some(Msg(e, [], [])), wire, [])
    else ReadFds(e, n, wire, t)
  }

  /** One turn of the receive loop: it ends the loop, or handles an event. */
  datatype Round = Stop(rest: seq<Cell>, came: seq<Cell>, ok: bool) | Next(m: Option<Msg>, rest: seq<Cell>, came: seq<Cell>)

  function OneRound(dir: Dir, wire: seq<Cell>, t: Turn): Round {
    match Poll(dir, wire, t)
    case Nothing => Stop(wire, [], true)
    case Broken(rest, came) => Stop(rest, came, false)
    case Got(e, rest, came) =>
      var h := Process(dir, e, rest, t);
      Next(h.m, h.rest, came + h.came)
  }

  /** `came` is everything that arrived during the loop; `ok` says that no read failed. */
  datatype Drained = Drained(ms: seq<Msg>, rest: seq<Cell>, came: seq<Cell>, ok: bool)

  function After(m: Option<Msg>, came: seq<Cell>, d: Drained): Drained {
    Drained((if m.Some? then [m.value] else []) + d.ms, d.rest, came + d.came, m.Some? && d.ok)
  }

  /** The loop of onInputReadable: poll and process until a poll yields nothing. */
  function Drain(dir: Dir, wire: seq<Cell>, turns: seq<Turn>): Drained
    decreases |turns|
  {
    if turns == [] then Drained([], wire, [], true)
    else
      var r := OneRound(dir, wire, turns[0]);
      if r.Stop? then Drained([], r.rest, r.came, r.ok) else After(r.m, r.came, Drain(dir, r.rest, turns[1..]))
  }

  /** Nothing is lost or reordered: what was there and what came is what was got and what is left. */
  lemma {:induction false} ReadConserves(wire: seq<Cell>, n: nat, script: seq<Recv>)
    ensures var r := Read(wire, n, script); r.got + r.wire == wire + r.came && |r.got| <= n
    decreases |script|
  {
    if n != 0 && script != [] {
      match script[0]
      case Arrives(cells) =>
        ReadConserves(wire + cells, n, script[1..]);
        Regroup(wire, cells, Read(wire + cells, n, script[1..]).came);
      case Call(c) =>
        if c.Interrupted? {
          ReadConserves(wire, n, script[1..]);
        } else {
          var step := if c.Failed? then 0 else Min(Min(c.n, n), |wire|);
          if step > 0 {
            ReadConserves(wire[step..], n - step, script[1..]);
            var r := Read(wire[step..], n - step, script[1..]);
            Regroup(wire[..step], r.got, r.wire);
            Regroup(wire[..step], wire[step..], r.came);
            assert wire[..step] + wire[step..] == wire;
          }
        }
    }
  }

  lemma Regroup<T>(a: seq<T>, b: seq<T>, c: seq<T>)
    ensures a + b + c == a + (b + c)
  {
  }

  /** The calls of a receive loop that never has to wait. */
  predicate AllCalls(script: seq<Recv>) {
    forall i :: 0 <= i < |script| ==> script[i].Call?
  }

  function Calls(script: seq<Recv>): (chunks: seq<Chunk>)
    requires AllCalls(script)
    ensures |chunks| == |script|
  {
    seq(|script|, i requires 0 <= i < |script| => script[i].c)
  }

  /** If all of it is there, chunking does not matter. */
  lemma {:induction false} ReadPresent(wire: seq<Cell>, n: nat, script: seq<Recv>)
    requires n <= |wire| && AllCalls(script) && Progress(Calls(script), n) == n
    ensures Read(wire, n, script) == Reading(wire[..n], wire[n..], [])
    decreases |script|
  {
    if n == 0 {
      assert wire[..0] == [] && wire[0..] == wire;
    } else {
      assert Calls(script)[1..] == Calls(script[1..]);
      var c := script[0].c;
      if c.Interrupted? {
        ReadPresent(wire, n, script[1..]);
      } else {
        var step := Min(c.n, n);
        ReadPresent(wire[step..], n - step, script[1..]);
        assert wire[..step] + wire[step..][..n - step] == wire[..n] && wire[step..][n - step..] == wire[n..];
      }
    }
  }

  /** A turn in which the kernel shows the header and delivers what is there, in any chunks. What
      has not arrived yet is the subject of DrainKeepsStream and of module ChannelRun. */
  predicate Fair(dir: Dir, m: Msg, t: Turn) {
    && t.visible >= HEADER_BYTES
    && AllCalls(t.frame) && Progress(Calls(t.frame), FRAME_BYTES) == FRAME_BYTES
    && AllCalls(t.extra) && Progress(Calls(t.extra), TrailerSize(dir, m.event)) == TrailerSize(dir, m.event)
  }

  lemma FrameIsThere(dir: Dir, e: Event, rest: seq<Cell>)
    ensures var wire := Cells(Frame(dir, e)) + rest;
            && FromLE32(Bytes(wire[..4])) == EventMsg(dir)
            && wire[..FRAME_BYTES] == Cells(Frame(dir, e)) && wire[FRAME_BYTES..] == rest
  {
    var wire, f := Cells(Frame(dir, e)) + rest, Frame(dir, e);
    assert Bytes(wire[..4]) == LE32(EventMsg(dir)) by {
      assert forall i :: 0 <= i < 4 ==> wire[i].b == f[i] == LE32(EventMsg(dir))[i];
    }
    WordSurvives(EventMsg(dir));
  }

  lemma FrameParses(dir: Dir, e: Event)
    ensures ParseEvent(Bytes(Cells(Frame(dir, e))[HEADER_BYTES..])) == e
  {
    var f := Frame(dir, e);
    assert Bytes(Cells(f)[HEADER_BYTES..]) == EventBytes(e) by {
      assert forall i :: HEADER_BYTES <= i < FRAME_BYTES ==> f[i] == EventBytes(e)[i - HEADER_BYTES];
    }
    EventSurvives(e);
  }

  /** What follows a message's frame on the wire. */
  function Behind(m: Msg): seq<Cell> {
    Cells(m.trailer) + FdFrame(m.fds)
  }

  lemma EncodeSplitsFrame(dir: Dir, m: Msg, tail: seq<Cell>)
    ensures Encode(dir, m) + tail == Cells(Frame(dir, m.event)) + (Behind(m) + tail)
  {
    assert Cells(Frame(dir, m.event) + m.trailer) == Cells(Frame(dir, m.event)) + Cells(m.trailer);
  }

  lemma FramePolled(dir: Dir, m: Msg, tail: seq<Cell>, t: Turn)
    requires Fair(dir, m, t)
    ensures Poll(dir, Encode(dir, m) + tail, t) == Got(m.event, Behind(m) + tail, [])
  {
    EncodeSplitsFrame(dir, m, tail);
    FrameIsThere(dir, m.event, Behind(m) + tail);
    FrameParses(dir, m.event);
    ReadPresent(Encode(dir, m) + tail, FRAME_BYTES, t.frame);
  }

  lemma CellsSurvive(bytes: seq<Byte>)
    ensures Bytes(Cells(bytes)) == bytes
  {
  }

  lemma TrailerRead(e: Event, trailer: seq<Byte>, tail: seq<Cell>, t: Turn)
    requires AllCalls(t.extra) && Progress(Calls(t.extra), |trailer|) == |trailer|
    ensures ReadTrailer(e, |trailer|, Cells(trailer) + tail, t) == Handled(Some(Msg(e, trailer, [])), tail, [])
  {
    var wire := Cells(trailer) + tail;
    ReadPresent(wire, |trailer|, t.extra);
    assert wire[..|trailer|] == Cells(trailer) && wire[|trailer|..] == tail;
    CellsSurvive(trailer);
  }

  lemma FdHeader(fds: seq<Fd>, tail: seq<Cell>)
    requires fds != []
    ensures var wire := FdFrame(fds) + tail;
            && |wire| >= HEADER_BYTES
            && FromLE32(Bytes(wire[..4])) == EXTEND_FDS_MSG
            && wire[0].fds == fds
            && wire[HEADER_BYTES..] == tail
  {
    var wire := FdFrame(fds) + tail;
    assert Bytes(wire[..4]) == LE32(EXTEND_FDS_MSG) by {
      assert forall i :: 0 <= i < 4 ==> wire[i].b == Header(EXTEND_FDS_MSG, 0)[i] == LE32(EXTEND_FDS_MSG)[i];
    }
    WordSurvives(EXTEND_FDS_MSG);
    assert wire[HEADER_BYTES..] == tail;
  }

  /** What the receiver makes of a message: all of it, or the event alone if there are too many
      descriptors, whose frame then stays on the channel. */
  function Kept(m: Msg): Msg {
    if |m.fds| > MAX_FDS then m.(fds := []) else m
  }

  function Left(m: Msg): seq<Cell> {
    if |m.fds| > MAX_FDS then FdFrame(m.fds) else []
  }

  lemma FdsRead(e: Event, fds: seq<Fd>, tail: seq<Cell>, t: Turn)
    requires fds != []
    ensures ReadFds(e, |fds|, FdFrame(fds) + tail, t) == Handled(Some(Msg(e, [], fds)), tail, [])
  {
    FdHeader(fds, tail);
    assert FdFrame(fds) + tail + [] == FdFrame(fds) + tail;
    assert fds[..|fds|] == fds;
  }

  lemma MessageProcessed(dir: Dir, m: Msg, tail: seq<Cell>, t: Turn)
    requires Consistent(dir, m) && Fair(dir, m, t)
    ensures Process(dir, m.event, Behind(m) + tail, t) == Handled(Some(Kept(m)), Left(m) + tail, [])
  {
    if m.trailer != [] {
      assert Behind(m) == Cells(m.trailer);
      TrailerRead(m.event, m.trailer, tail, t);
    } else {
      assert Behind(m) == FdFrame(m.fds);
      if 0 < |m.fds| <= MAX_FDS {
        FdsRead(m.event, m.fds, tail, t);
      }
    }
    assert [] + tail == tail;
  }

  ghost predicate AllFair(dir: Dir, ms: seq<Msg>, turns: seq<Turn>) {
    |ms| <= |turns| && forall i :: 0 <= i < |ms| ==> Consistent(dir, ms[i]) && Fair(dir, ms[i], turns[i])
  }

  /** A message that was received in front of what another drain receives. */
  function Prefixed(m: Msg, d: Drained): Drained {
    d.(ms := [m] + d.ms)
  }

  lemma {:induction false} DrainStep(dir: Dir, m: Msg, rest: seq<Cell>, turns: seq<Turn>)
    requires turns != [] && Consistent(dir, m) && Fair(dir, m, turns[0])
    ensures Drain(dir, Encode(dir, m) + rest, turns) == Prefixed(Kept(m), Drain(dir, Left(m) + rest, turns[1..]))
  {
    FramePolled(dir, m, rest, turns[0]);
    MessageProcessed(dir, m, rest, turns[0]);
    assert OneRound(dir, Encode(dir, m) + rest, turns[0]) == Next(Some(Kept(m)), Left(m) + rest, []);
    var d := Drain(dir, Left(m) + rest, turns[1..]);
    assert [] + d.came == d.came;
  }

  lemma MessageDrained(dir: Dir, m: Msg, rest: seq<Cell>, turns: seq<Turn>)
    requires turns != [] && Consistent(dir, m) && Fair(dir, m, turns[0]) && |m.fds| <= MAX_FDS
    ensures Drain(dir, Encode(dir, m) + rest, turns) == Prefixed(m, Drain(dir, rest, turns[1..]))
  {
    DrainStep(dir, m, rest, turns);
    assert Left(m) + rest == rest;
  }

  lemma FirstEncoded(dir: Dir, ms: seq<Msg>, tail: seq<Cell>)
    requires ms != []
    ensures EncodeAll(dir, ms) + tail == Encode(dir, ms[0]) + (EncodeAll(dir, ms[1..]) + tail)
  {
    Regroup(Encode(dir, ms[0]), EncodeAll(dir, ms[1..]), tail);
  }

  /** Of a stream that is all there, however the receives are chunked, the receiver recovers the
      messages sent and stops at a frame boundary: whatever follows is read as if nothing had come
      before. */
  lemma {:induction false} RoundTrip(dir: Dir, ms: seq<Msg>, tail: seq<Cell>, turns: seq<Turn>)
    requires AllFair(dir, ms, turns)
    requires forall i :: 0 <= i < |ms| ==> |ms[i].fds| <= MAX_FDS
    ensures var after := Drain(dir, tail, turns[|ms|..]);
            Drain(dir, EncodeAll(dir, ms) + tail, turns) == after.(ms := ms + after.ms)
    decreases |ms|
  {
    if ms == [] {
      assert EncodeAll(dir, ms) + tail == tail && turns[0..] == turns;
    } else {
      FirstEncoded(dir, ms, tail);
      MessageDrained(dir, ms[0], EncodeAll(dir, ms[1..]) + tail, turns);
      RoundTrip(dir, ms[1..], tail, turns[1..]);
      assert turns[1..][|ms| - 1..] == turns[|ms|..];
      Regroup([ms[0]], ms[1..], Drain(dir, tail, turns[|ms|..]).ms);
      assert [ms[0]] + ms[1..] == ms;
    }
  }

  /** A descriptor frame that nobody asked for is never consumed, in any number of turns. */
  lemma FdFrameWedges(dir: Dir, fds: seq<Fd>, tail: seq<Cell>, turns: seq<Turn>)
    requires fds != []
    ensures Drain(dir, FdFrame(fds) + tail, turns) == Drained([], FdFrame(fds) + tail, [], true)
  {
    FdHeader(fds, tail);
  }

  /** After a resource event with more than nine descriptors nothing is received any more. */
  lemma {:induction false} OversizeWedges(dir: Dir, ms: seq<Msg>, big: Msg, tail: seq<Cell>, turns: seq<Turn>)
    requires AllFair(dir, ms + [big], turns)
    requires forall i :: 0 <= i < |ms| ==> |ms[i].fds| <= MAX_FDS
    requires |big.fds| > MAX_FDS
    ensures Drain(dir, EncodeAll(dir, ms) + Encode(dir, big) + tail, turns) ==
              Drained(ms + [big.(fds := [])], FdFrame(big.fds) + tail, [], true)
  {
    var k := |ms|;
    assert (ms + [big])[k] == big;
    assert forall i :: 0 <= i < k ==> (ms + [big])[i] == ms[i];
    RoundTrip(dir, ms, Encode(dir, big) + tail, turns);
    Regroup(EncodeAll(dir, ms), Encode(dir, big), tail);
    DrainStep(dir, big, tail, turns[k..]);
    FdFrameWedges(dir, big.fds, tail, turns[k..][1..]);
  }

  /** The first message with too many descriptors, if there is one. */
  ghost function FirstBig(ms: seq<Msg>): (k: nat)
    ensures k <= |ms|
    ensures forall i :: 0 <= i < k ==> |ms[i].fds| <= MAX_FDS
    ensures k < |ms| ==> |ms[k].fds| > MAX_FDS
  {
    if ms == [] || |ms[0].fds| > MAX_FDS then 0 else 1 + FirstBig(ms[1..])
  }

  lemma {:induction false} EncodeSplits(dir: Dir, a: seq<Msg>, b: seq<Msg>)
    ensures EncodeAll(dir, a + b) == EncodeAll(dir, a) + EncodeAll(dir, b)
    decreases |a|
  {
    if a == [] {
      assert a + b == b;
    } else {
      assert (a + b)[1..] == a[1..] + b && (a + b)[0] == a[0];
      EncodeSplits(dir, a[1..], b);
      Regroup(Encode(dir, a[0]), EncodeAll(dir, a[1..]), EncodeAll(dir, b));
    }
  }

  lemma SplitAtBig(dir: Dir, ms: seq<Msg>, k: nat)
    requires k < |ms|
    ensures EncodeAll(dir, ms) == EncodeAll(dir, ms[..k]) + Encode(dir, ms[k]) + EncodeAll(dir, ms[k + 1..])
  {
    assert ms == ms[..k] + ms[k..] && ms[k..][1..] == ms[k + 1..];
    EncodeSplits(dir, ms[..k], ms[k..]);
    Regroup(EncodeAll(dir, ms[..k]), Encode(dir, ms[k]), EncodeAll(dir, ms[k + 1..]));
  }

  lemma FewArrive(dir: Dir, ms: seq<Msg>, turns: seq<Turn>)
    requires AllFair(dir, ms, turns) && forall i :: 0 <= i < |ms| ==> |ms[i].fds| <= MAX_FDS
    ensures Drain(dir, EncodeAll(dir, ms), turns) == Drained(ms, [], [], true)
  {
    RoundTrip(dir, ms, [], turns);
    EmptyDrains(dir, turns[|ms|..]);
    assert EncodeAll(dir, ms) + [] == EncodeAll(dir, ms) && ms + [] == ms;
  }

  lemma ManyRemain(dir: Dir, ms: seq<Msg>, k: nat, turns: seq<Turn>)
    requires AllFair(dir, ms, turns) && k < |ms| && |ms[k].fds| > MAX_FDS
    requires forall i :: 0 <= i < k ==> |ms[i].fds| <= MAX_FDS
    ensures Drain(dir, EncodeAll(dir, ms), turns).rest != []
  {
    var tail := EncodeAll(dir, ms[k + 1..]);
    SplitAtBig(dir, ms, k);
    assert forall i :: 0 <= i <= k ==> (ms[..k] + [ms[k]])[i] == ms[i];
    OversizeWedges(dir, ms[..k], ms[k], tail, turns);
    FdHeader(ms[k].fds, tail);
  }

  /** The stream arrives exactly if no resource event carries more than nine descriptors. */
  lemma ArrivesIffFewFds(dir: Dir, ms: seq<Msg>, turns: seq<Turn>)
    requires AllFair(dir, ms, turns)
    ensures Drain(dir, EncodeAll(dir, ms), turns) == Drained(ms, [], [], true) <==> forall i :: 0 <= i < |ms| ==> |ms[i].fds| <= MAX_FDS
  {
    hide Drain, EncodeAll, AllFair;
    var k := FirstBig(ms);
    if k == |ms| { FewArrive(dir, ms, turns); } else { ManyRemain(dir, ms, k, turns); }
  }

  lemma EmptyDrains(dir: Dir, turns: seq<Turn>)
    ensures Drain(dir, [], turns) == Drained([], [], [], true)
  {
  }

  // ---- streams that are still arriving ----

  lemma Cancel<T>(a: seq<T>, b: seq<T>, c: seq<T>, d: seq<T>)
    requires a + b == c + d && |a| == |c|
    ensures a == c && b == d
  {
    assert a == (a + b)[..|a|] && c == (c + d)[..|c|];
    assert b == (a + b)[|a|..] && d == (c + d)[|c|..];
  }

  ghost predicate Receivable(dir: Dir, ms: seq<Msg>) {
    forall i :: 0 <= i < |ms| ==> Consistent(dir, ms[i]) && |ms[i].fds| <= MAX_FDS
  }

  /** A read that completes gets exactly the next cells of the stream and leaves the rest of it. */
  lemma ReadTakesNext(wire: seq<Cell>, n: nat, script: seq<Recv>, later: seq<Cell>, next: seq<Cell>, rest: seq<Cell>)
    requires var r := Read(wire, n, script); |r.got| == n && wire + (r.came + later) == next + rest
    requires |next| == n
    ensures var r := Read(wire, n, script); r.got == next && r.wire + later == rest
  {
    var r := Read(wire, n, script);
    ReadConserves(wire, n, script);
    Regroup(wire, r.came, later);
    Regroup(r.got, r.wire, later);
    Cancel(r.got, r.wire + later, next, rest);
  }

  lemma PollTakesFrame(dir: Dir, wire: seq<Cell>, t: Turn, later: seq<Cell>, m: Msg, tail: seq<Cell>)
    requires var p := Poll(dir, wire, t); p.Got? && wire + (p.came + later) == Encode(dir, m) + tail
    ensures var p := Poll(dir, wire, t); p.event == m.event && p.rest + later == Behind(m) + tail
  {
    EncodeSplitsFrame(dir, m, tail);
    ReadTakesNext(wire, FRAME_BYTES, t.frame, later, Cells(Frame(dir, m.event)), Behind(m) + tail);
    FrameParses(dir, m.event);
  }

  lemma TrailerTakesNext(e: Event, trailer: seq<Byte>, wire: seq<Cell>, t: Turn, later: seq<Cell>, tail: seq<Cell>)
    requires var h := ReadTrailer(e, |trailer|, wire, t); h.m.Some? && wire + (h.came + later) == Cells(trailer) + tail
    ensures var h := ReadTrailer(e, |trailer|, wire, t); h.m == Some(Msg(e, trailer, [])) && h.rest + later == tail
  {
    ReadTakesNext(wire, |trailer|, t.extra, later, Cells(trailer), tail);
    CellsSurvive(trailer);
  }

  lemma FdsTakeNext(e: Event, fds: seq<Fd>, wire: seq<Cell>, t: Turn, later: seq<Cell>, tail: seq<Cell>)
    requires fds != []
    requires var h := ReadFds(e, |fds|, wire, t); h.m.Some? && wire + (h.came + later) == FdFrame(fds) + tail
    ensures var h := ReadFds(e, |fds|, wire, t); h.m == Some(Msg(e, [], fds)) && h.rest + later == tail
  {
    var w := wire + Awaited(wire, t.extra);
    Regroup(wire, Awaited(wire, t.extra), later);
    assert w == w[..HEADER_BYTES] + w[HEADER_BYTES..];
    Regroup(w[..HEADER_BYTES], w[HEADER_BYTES..], later);
    Cancel(w[..HEADER_BYTES], w[HEADER_BYTES..] + later, FdFrame(fds), tail);
    assert w[0] == FdFrame(fds)[0];
    assert fds[..|fds|] == fds;
  }

  lemma ProcessTakesNext(dir: Dir, m: Msg, wire: seq<Cell>, t: Turn, later: seq<Cell>, tail: seq<Cell>)
    requires Consistent(dir, m) && |m.fds| <= MAX_FDS
    requires var h := Process(dir, m.event, wire, t); h.m.Some? && wire + (h.came + later) == Behind(m) + tail
    ensures var h := Process(dir, m.event, wire, t); h.m == Some(m) && h.rest + later == tail
  {
    if m.trailer != [] {
      assert Behind(m) == Cells(m.trailer);
      TrailerTakesNext(m.event, m.trailer, wire, t, later, tail);
    } else {
      assert Behind(m) == FdFrame(m.fds);
      if m.fds != [] {
        FdsTakeNext(m.event, m.fds, wire, t, later, tail);
      } else {
        assert Behind(m) + tail == tail && [] + later == later;
      }
    }
  }

  lemma RoundTakesNext(dir: Dir, m: Msg, wire: seq<Cell>, t: Turn, later: seq<Cell>, tail: seq<Cell>)
    requires Consistent(dir, m) && |m.fds| <= MAX_FDS
    requires var r := OneRound(dir, wire, t); r.Next? && r.m.Some? && wire + (r.came + later) == Encode(dir, m) + tail
    ensures var r := OneRound(dir, wire, t); r.m == Some(m) && r.rest + later == tail
  {
    var p := Poll(dir, wire, t);
    var h := Process(dir, p.event, p.rest, t);
    Regroup(p.came, h.came, later);
    PollTakesFrame(dir, wire, t, h.came + later, m, tail);
    ProcessTakesNext(dir, m, p.rest, t, later, tail);
  }

  lemma StreamNotOver(dir: Dir, ms: seq<Msg>, wire: seq<Cell>, t: Turn, later: seq<Cell>)
    requires OneRound(dir, wire, t).Next? && wire + later == EncodeAll(dir, ms)
    ensures ms != []
  {
    assert |wire| >= HEADER_BYTES;
  }

  lemma FirstOf<T>(ms: seq<T>, k: nat)
    requires k < |ms|
    ensures [ms[0]] + ms[1..][..k] == ms[..k + 1] && ms[1..][k..] == ms[k + 1..]
  {
  }

  /** However much of the stream was there, whatever arrived in between, and however peeks and
      receives were chunked: if no read failed, the drain received the first messages, and what it
      left together with what is still to come is the encoding of the others. */
  lemma {:induction false} DrainKeepsStream(dir: Dir, ms: seq<Msg>, wire: seq<Cell>, later: seq<Cell>, turns: seq<Turn>)
    requires Receivable(dir, ms)
    requires var d := Drain(dir, wire, turns); d.ok && wire + (d.came + later) == EncodeAll(dir, ms)
    ensures var d := Drain(dir, wire, turns);
            && |d.ms| <= |ms| && d.ms == ms[..|d.ms|]
            && d.rest + later == EncodeAll(dir, ms[|d.ms|..])
    decreases |turns|
  {
    if turns == [] || OneRound(dir, wire, turns[0]).Stop? {
      assert [] + later == later && ms[0..] == ms && ms[..0] == [];
    } else {
      var r := OneRound(dir, wire, turns[0]);
      var d := Drain(dir, r.rest, turns[1..]);
      StreamNotOver(dir, ms, wire, turns[0], r.came + d.came + later);
      Regroup(r.came, d.came, later);
      RoundTakesNext(dir, ms[0], wire, turns[0], d.came + later, EncodeAll(dir, ms[1..]));
      DrainKeepsStream(dir, ms[1..], r.rest, later, turns[1..]);
      FirstOf(ms, |d.ms|);
    }
  }
}
