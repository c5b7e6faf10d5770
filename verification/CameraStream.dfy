/** One camera of anland_camera.c: its stream socket messages, the shared-memory double buffer
    and the producer's own copy of the latest frame. */
module CameraStream {
  import opened Protocol

  const CAMERA_SLOTS := 2
  const FMT_NV21 := 2
  const DEFAULT_W := 1280
  const DEFAULT_H := 720
  const GRAY := 128
  const SIZE_T := 0x1_0000_0000_0000_0000

  datatype Sent = GetShm | Done(slot: Byte)

  /** `out` is what was sent on the current stream socket, `frame` the producer's buffer with all
      its capacity, `mapped` says whether the shared memory is mapped. */
  datatype Cam = Cam(
    node: bool,
    streaming: bool,
    recording: bool,
    fmtW: Word,
    fmtH: Word,
    fmtCode: nat,
    streamFd: Option<Fd>,
    io: bool,
    shmFd: Option<Fd>,
    mapped: bool,
    shmBytes: nat,
    slotBytes: Word,
    shmRequested: bool,
    frame: seq<Byte>,
    frameSize: nat,
    haveFrame: bool,
    out: seq<Sent>)

  const Fresh := Cam(false, false, false, 0, 0, 0, None, false, None, false, 0, 0, false, [], 0, false, [])

  /** What the mapping holds at each offset at the moment it is read. */
  type Memory = nat -> Byte

  /** Messages on the stream socket. `mapOk` and `growOk` say how mmap and realloc turn out. */
  datatype StreamMsg =
    | Offer(slotBytes: Word, mapOk: bool)
    | Ready(slot: Byte, fmt: nat, w: Word, h: Word, mem: Memory, growOk: bool)
    | Unknown
    | Short

  function SendStream(c: Cam, m: Sent): Cam {
    if c.streamFd.Some? then c.(out := c.out + [m]) else c
  }

  function RequestShm(c: Cam): Cam {
    if !c.streaming || c.streamFd.None? || c.mapped || c.shmRequested then c
    else SendStream(c.(shmRequested := true), GetShm)
  }

  function UnmapShm(c: Cam): Cam {
    c.(mapped := false, shmFd := None, shmBytes := 0, slotBytes := 0, shmRequested := false)
  }

  /** An empty mapping fails. */
  function HandleOffer(c: Cam, rfd: Option<Fd>, slotBytes: Word, mapOk: bool): Cam {
    if rfd.None? then c
    else if mapOk && slotBytes > 0 then
      c.(mapped := true, shmFd := rfd, slotBytes := slotBytes, shmBytes := CAMERA_SLOTS * slotBytes)
    else
      c.(mapped := false, shmFd := None, slotBytes := 0, shmBytes := 0)
  }

  /** Three halves of an area in 64-bit arithmetic. */
  function ThreeHalves(area: nat): nat {
    area * 3 % SIZE_T / 2
  }

  /** (size_t)w * h * 3 / 2; the first product fits into 64 bits. */
  function FrameBytes(w: Word, h: Word): nat {
    ThreeHalves(w * h)
  }

  function CopyBytes(c: Cam, w: Word, h: Word): nat {
    var bytes := FrameBytes(w, h);
    if bytes > c.slotBytes then c.slotBytes else bytes
  }

  function Capacity(c: Cam, bytes: nat, growOk: bool): nat {
    if |c.frame| < bytes && growOk then bytes else |c.frame|
  }

  function Copies(c: Cam, slot: Byte, bytes: nat, growOk: bool): bool {
    c.mapped && slot < CAMERA_SLOTS && bytes > 0 && Capacity(c, bytes, growOk) >= bytes
  }

  /** The slot's bytes in front of whatever the buffer held behind them. */
  function Overwritten(frame: seq<Byte>, mem: Memory, from: nat, bytes: nat): seq<Byte> {
    seq(bytes, k requires 0 <= k < bytes => mem(from + k)) + (if |frame| > bytes then frame[bytes..] else [])
  }

  function CopyOut(c: Cam, slot: Byte, bytes: nat, mem: Memory, growOk: bool): Cam {
    if Copies(c, slot, bytes, growOk) then
      c.(frame := Overwritten(c.frame, mem, slot * c.slotBytes, bytes), frameSize := bytes, haveFrame := true)
    else c
  }

  function Renegotiate(c: Cam, w: Word, h: Word, fmt: nat): Cam {
    if w == 0 || h == 0 || !c.node then c else c.(fmtW := w, fmtH := h, fmtCode := fmt)
  }

  function HandleReady(c: Cam, slot: Byte, fmt: nat, w: Word, h: Word, mem: Memory, growOk: bool): Cam {
    Renegotiate(SendStream(CopyOut(c, slot, CopyBytes(c, w, h), mem, growOk), Done(slot)), w, h, fmt)
  }

  function HandleMsg(c: Cam, m: StreamMsg, rfd: Option<Fd>): Cam {
    match m
    case Offer(slotBytes, mapOk) => HandleOffer(c, rfd, slotBytes, mapOk)
    case Ready(slot, fmt, w, h, mem, growOk) => HandleReady(c, slot, fmt, w, h, mem, growOk)
    case _ => c
  }

  ghost predicate CamOk(c: Cam) {
    && (c.io ==> c.streamFd.Some?)
    && (c.streaming ==> c.node)
    && c.mapped == c.shmFd.Some?
    && c.shmBytes == CAMERA_SLOTS * c.slotBytes
    && (c.mapped <==> c.slotBytes > 0)
    && (c.haveFrame ==> 0 < c.frameSize <= |c.frame| && c.frameSize < UINT32)
  }

  /** What messages never touch. */
  predicate SameRole(a: Cam, b: Cam) {
    && a.streaming == b.streaming && a.recording == b.recording && a.node == b.node
    && a.streamFd == b.streamFd && a.io == b.io
  }

  lemma CopyOutKeeps(c: Cam, slot: Byte, bytes: nat, mem: Memory, growOk: bool)
    requires CamOk(c) && bytes <= c.slotBytes
    ensures CamOk(CopyOut(c, slot, bytes, mem, growOk)) && SameRole(c, CopyOut(c, slot, bytes, mem, growOk))
    ensures CopyOut(c, slot, bytes, mem, growOk).out == c.out && CopyOut(c, slot, bytes, mem, growOk).shmFd == c.shmFd
  {
  }

  lemma ReadyKeeps(c: Cam, slot: Byte, fmt: nat, w: Word, h: Word, mem: Memory, growOk: bool)
    requires CamOk(c)
    ensures var r := HandleReady(c, slot, fmt, w, h, mem, growOk);
            && CamOk(r) && SameRole(c, r) && r.shmFd == c.shmFd
            && r.out == if c.streamFd.Some? then c.out + [Done(slot)] else c.out
  {
    hide CopyOut;
    CopyOutKeeps(c, slot, CopyBytes(c, w, h), mem, growOk);
  }

  lemma OfferKeeps(c: Cam, rfd: Option<Fd>, slotBytes: Word, mapOk: bool)
    requires CamOk(c)
    ensures var r := HandleOffer(c, rfd, slotBytes, mapOk); CamOk(r) && SameRole(c, r) && r.out == c.out
  {
  }

  lemma HandleMsgKeeps(c: Cam, m: StreamMsg, rfd: Option<Fd>)
    requires CamOk(c)
    ensures CamOk(HandleMsg(c, m, rfd)) && SameRole(c, HandleMsg(c, m, rfd))
    ensures HandleMsg(c, m, rfd).out == if m.Ready? && c.streamFd.Some? then c.out + [Done(m.slot)] else c.out
  {
    match m
    case Offer(slotBytes, mapOk) => OfferKeeps(c, rfd, slotBytes, mapOk);
    case Ready(slot, fmt, w, h, mem, growOk) => ReadyKeeps(c, slot, fmt, w, h, mem, growOk);
    case _ =>
  }

  /** Whatever width and height a READY claims, the copy reads only the named slot inside the
      mapping and writes only inside the frame buffer; afterwards the frame is that slot. */
  lemma CopyStaysInSlot(c: Cam, slot: Byte, fmt: nat, w: Word, h: Word, mem: Memory, growOk: bool)
    requires CamOk(c) && Copies(c, slot, CopyBytes(c, w, h), growOk)
    ensures var bytes := CopyBytes(c, w, h);
            && slot * c.slotBytes + bytes <= (slot + 1) * c.slotBytes <= c.shmBytes
            && bytes <= Capacity(c, bytes, growOk)
    ensures var bytes, r := CopyBytes(c, w, h), HandleReady(c, slot, fmt, w, h, mem, growOk);
            && r.frameSize == bytes && r.haveFrame
            && |r.frame| == Capacity(c, bytes, growOk)
            && (forall k :: 0 <= k < bytes ==> r.frame[k] == mem(slot * c.slotBytes + k))
  {
    if slot == 1 {
      assert slot * c.slotBytes == c.slotBytes && (slot + 1) * c.slotBytes == c.shmBytes;
    } else {
      assert slot * c.slotBytes == 0 && (slot + 1) * c.slotBytes == c.slotBytes;
    }
  }

  /** The byte count is the true size of the picture exactly if tripling the area does not wrap;
      a wrapped one is smaller, never larger. */
  lemma FrameBytesTrueIffNoWrap(w: Word, h: Word)
    ensures FrameBytes(w, h) == w * h * 3 / 2 <==> w * h * 3 < SIZE_T
    ensures FrameBytes(w, h) <= w * h * 3 / 2
  {
    AreaFits(w, h);
    ThreeHalvesTrueIff(w * h);
  }

  /** The input: a width and height whose tripled area wraps. */
  lemma WrappedFrameIsShort()
    ensures FrameBytes(0xFFFF_FFFF, 0xFFFF_FFFF) < 0xFFFF_FFFF * 0xFFFF_FFFF * 3 / 2
  {
    var w: Word := 0xFFFF_FFFF;
    assert w * w * 3 >= SIZE_T;
    FrameBytesTrueIffNoWrap(w, w);
  }

  lemma ThreeHalvesTrueIff(area: nat)
    requires area < SIZE_T
    ensures ThreeHalves(area) == area * 3 / 2 <==> area * 3 < SIZE_T
    ensures ThreeHalves(area) <= area * 3 / 2
  {
  }

  lemma AreaFits(w: Word, h: Word)
    ensures 0 <= w * h < SIZE_T
  {
    TimesAtMost(w, h, 0xFFFF_FFFF);
  }

  lemma TimesAtMost(a: nat, b: nat, most: nat)
    requires a <= most
    ensures 0 <= a * b <= most * b
  {
  }

  function DoneSlots(out: seq<Sent>): seq<Byte> {
    if out == [] then []
    else
      DoneSlots(out[..|out| - 1]) + if out[|out| - 1].Done? then [out[|out| - 1].slot] else []
  }

  function ReadySlots(ms: seq<(StreamMsg, Option<Fd>)>): seq<Byte> {
    if ms == [] then []
    else
      ReadySlots(ms[..|ms| - 1]) + if ms[|ms| - 1].0.Ready? then [ms[|ms| - 1].0.slot] else []
  }

  function HandleAll(c: Cam, ms: seq<(StreamMsg, Option<Fd>)>): Cam {
    if ms == [] then c else HandleMsg(HandleAll(c, ms[..|ms| - 1]), ms[|ms| - 1].0, ms[|ms| - 1].1)
  }

  /** For any messages: every READY is answered by one DONE for the same slot, in order, and
      nothing else is. */
  lemma {:induction false} DoneForEveryReady(c: Cam, ms: seq<(StreamMsg, Option<Fd>)>)
    requires CamOk(c) && c.streamFd.Some?
    ensures CamOk(HandleAll(c, ms)) && SameRole(c, HandleAll(c, ms))
    ensures DoneSlots(HandleAll(c, ms).out) == DoneSlots(c.out) + ReadySlots(ms)
  {
    hide CamOk, HandleMsg;
    if ms != [] {
      var k := |ms| - 1;
      var before := HandleAll(c, ms[..k]);
      DoneForEveryReady(c, ms[..k]);
      HandleMsgKeeps(before, ms[k].0, ms[k].1);
      if ms[k].0.Ready? {
        var out := before.out + [Done(ms[k].0.slot)];
        assert out[..|out| - 1] == before.out;
      }
    }
  }

  /** The picture on_process hands to PipeWire. */
  predicate Live(c: Cam) {
    c.haveFrame && c.streamFd.Some?
  }

  function GrayBytes(c: Cam): nat {
    c.fmtW * c.fmtH * 3 % UINT32 / 2
  }

  /** The latest frame, or gray without one, cut to the buffer that PipeWire provides. */
  method EmitFrame(c: Cam, maxSize: nat) returns (data: seq<Byte>)
    requires CamOk(c) && maxSize < UINT32
    ensures |data| <= maxSize
    ensures c.haveFrame && c.streamFd.Some? ==> data == c.frame[..if c.frameSize < maxSize then c.frameSize else maxSize]
    ensures !(c.haveFrame && c.streamFd.Some?) ==>
              && |data| == (if GrayBytes(c) < maxSize then GrayBytes(c) else maxSize)
              && forall k :: 0 <= k < |data| ==> data[k] == 128
  {
    var avail := if Live(c) then c.frameSize % UINT32 else GrayBytes(c);
    var copy := if avail < maxSize then avail else maxSize;
    if Live(c) {
      return c.frame[..copy];
    }
    return seq(copy, _ => GRAY);
  }
}
