/** The messages of the data channel byte by byte, as their senders build them (protocol.h), without
    the codec's own notions of a header, a trailer size or a number of descriptors. */
module Senders {
  import opened Protocol
  import opened Wire

  /** The k low bytes of n, lowest first. */
  function LowBytes(n: nat, k: nat): (s: seq<Byte>)
    ensures |s| == k
  {
    if k == 0 then [] else [n % 256] + LowBytes(n / 256, k - 1)
  }

  type Half = n: nat | n < 0x1_0000

  function WindowBytes(id: Word, action: Half, flags: Half, serial: Word, payload: seq<Byte>): seq<Byte> {
    LowBytes(103, 4) + LowBytes(20, 4) + LowBytes(16, 4)
    + LowBytes(id, 4) + LowBytes(action, 2) + LowBytes(flags, 2) + LowBytes(|payload|, 4) + LowBytes(serial, 4)
    + payload
  }

  /** A clipboard of either direction, or text: the size and three unused words. */
  function SizedBytes(frame: Word, kind: Word, text: seq<Byte>): seq<Byte> {
    LowBytes(frame, 4) + LowBytes(20, 4) + LowBytes(kind, 4)
    + LowBytes(|text|, 4) + LowBytes(0, 4) + LowBytes(0, 4) + LowBytes(0, 4)
    + text
  }

  function ResourceBytes(service: Word, count: Word): seq<Byte> {
    LowBytes(102, 4) + LowBytes(20, 4) + LowBytes(11, 4)
    + LowBytes(service, 4) + LowBytes(count, 4) + LowBytes(0, 4) + LowBytes(0, 4)
  }

  /** The descriptor frame: a header of its own, the descriptors on its first byte. */
  function FdCells(fds: seq<Fd>): seq<Cell> {
    var header := LowBytes(104, 4) + LowBytes(0, 4);
    [Cell(header[0], fds)] + Cells(header[1..])
  }

  lemma TwoBytes(n: nat)
    ensures LowBytes(n, 2) == [n % 256, n / 256 % 256]
  {
    assert LowBytes(n / 256, 1) == [n / 256 % 256] + LowBytes(n / 256 / 256, 0);
  }

  lemma FourBytes(n: nat)
    ensures LowBytes(n, 4) == [n % 256, n / 256 % 256, n / 256 / 256 % 256, n / 256 / 256 / 256 % 256]
  {
    TwoBytes(n / 256 / 256);
    assert LowBytes(n / 256, 3) == [n / 256 % 256] + LowBytes(n / 256 / 256, 2);
    assert LowBytes(n, 4) == [n % 256] + LowBytes(n / 256, 3);
  }

  lemma WordBytes(w: Word)
    ensures LE32(w) == LowBytes(w, 4)
  {
    FourBytes(w);
    assert w / 256 / 256 == w / 0x1_0000 && w / 256 / 256 / 256 == w / 0x100_0000;
  }

  lemma TwoHalves(low: Half, high: Half)
    ensures LE32(low + 0x1_0000 * high) == LowBytes(low, 2) + LowBytes(high, 2)
  {
    var w := low + 0x1_0000 * high;
    WordBytes(w);
    FourBytes(w);
    TwoBytes(low);
    TwoBytes(high);
    assert w % 256 == low % 256 && w / 256 == low / 256 + 256 * high;
    assert w / 256 % 256 == low / 256 % 256 && w / 256 / 256 == high;
  }

  function WindowMsg(id: Word, action: Half, flags: Half, serial: Word, payload: seq<Byte>): Msg
    requires |payload| < UINT32
  {
    Msg(Event(16, id, action + 0x1_0000 * flags, |payload|, serial), payload, [])
  }

  function SizedMsg(kind: Word, text: seq<Byte>): Msg
    requires |text| < UINT32
  {
    Msg(Event(kind, |text|, 0, 0, 0), text, [])
  }

  function ResourceMsg(service: Word, fds: seq<Fd>): Msg
    requires |fds| < UINT32
  {
    Msg(Event(11, service, |fds|, 0, 0), [], fds)
  }

  /** What is sent for m is read back as m, with what follows left alone: the frame, and then the
      trailer or the descriptors that the event announces. */
  ghost predicate Carried(dir: Dir, m: Msg, cells: seq<Cell>) {
    && Encode(dir, m) == cells
    && Consistent(dir, m)
    && forall tail: seq<Cell>, t: Turn ::
         Fair(dir, m, t) && |m.fds| <= MAX_FDS ==>
           && Poll(dir, cells + tail, t) == Got(m.event, Behind(m) + tail, [])
           && Process(dir, m.event, Behind(m) + tail, t) == Handled(Some(m), tail, [])
  }

  lemma ConsistentIsCarried(dir: Dir, m: Msg, cells: seq<Cell>)
    requires Consistent(dir, m) && Encode(dir, m) == cells
    ensures Carried(dir, m, cells)
  {
    forall tail: seq<Cell>, t: Turn | Fair(dir, m, t) && |m.fds| <= MAX_FDS
      ensures Poll(dir, cells + tail, t) == Got(m.event, Behind(m) + tail, [])
      ensures Process(dir, m.event, Behind(m) + tail, t) == Handled(Some(m), tail, [])
    {
      FramePolled(dir, m, tail, t);
      MessageProcessed(dir, m, tail, t);
      assert [] + tail == tail;
    }
  }

  lemma Flatten<T>(a: seq<T>, b: seq<T>, c: seq<T>, d: seq<T>, e: seq<T>, f: seq<T>, g: seq<T>)
    ensures (a + b) + (c + d + e + f + g) == a + b + c + d + e + f + g
  {
  }

  lemma FlattenPair<T>(a: seq<T>, b: seq<T>, c: seq<T>, d: seq<T>, e: seq<T>)
    ensures a + (b + c) + d + e == a + b + c + d + e
  {
  }

  /** A frame without anything behind it. */
  lemma FrameLayout(dir: Dir, e: Event)
    ensures Frame(dir, e) == LowBytes(if dir.Input? then 102 else 103, 4) + LowBytes(20, 4) + LowBytes(e.kind, 4)
                             + LE32(e.w0) + LE32(e.w1) + LE32(e.w2) + LE32(e.w3)
  {
    WordBytes(EventMsg(dir));
    WordBytes(EVENT_BYTES);
    WordBytes(e.kind);
    Flatten(LE32(EventMsg(dir)), LE32(EVENT_BYTES), LE32(e.kind), LE32(e.w0), LE32(e.w1), LE32(e.w2), LE32(e.w3));
  }

  /** A window event announces its payload in the third word after the type. */
  lemma WindowCarried(id: Word, action: Half, flags: Half, serial: Word, payload: seq<Byte>)
    requires |payload| < UINT32
    ensures Carried(Output, WindowMsg(id, action, flags, serial, payload), Cells(WindowBytes(id, action, flags, serial, payload)))
  {
    var m := WindowMsg(id, action, flags, serial, payload);
    FrameLayout(Output, m.event);
    WordBytes(id);
    TwoHalves(action, flags);
    WordBytes(|payload|);
    WordBytes(serial);
    FlattenPair(LowBytes(103, 4) + LowBytes(20, 4) + LowBytes(16, 4) + LowBytes(id, 4),
                LowBytes(action, 2), LowBytes(flags, 2), LowBytes(|payload|, 4), LowBytes(serial, 4));
    var bytes := Frame(Output, m.event) + payload;
    assert bytes == WindowBytes(id, action, flags, serial, payload);
    assert Encode(Output, m) == Cells(bytes) + [] == Cells(bytes);
    ConsistentIsCarried(Output, m, Cells(bytes));
  }

  /** Clipboards of either direction and text announce it in the first word. */
  lemma SizedCarried(dir: Dir, kind: Word, text: seq<Byte>)
    requires |text| < UINT32 && (if dir.Input? then kind == 8 || kind == 9 else kind == 1)
    ensures Carried(dir, SizedMsg(kind, text), Cells(SizedBytes(if dir.Input? then 102 else 103, kind, text)))
  {
    var m := SizedMsg(kind, text);
    FrameLayout(dir, m.event);
    WordBytes(|text|);
    WordBytes(0);
    var bytes := Frame(dir, m.event) + text;
    assert bytes == SizedBytes(if dir.Input? then 102 else 103, kind, text);
    assert Encode(dir, m) == Cells(bytes) + [] == Cells(bytes);
    ConsistentIsCarried(dir, m, Cells(bytes));
  }

  lemma FdFrameLayout(fds: seq<Fd>)
    requires fds != []
    ensures FdFrame(fds) == FdCells(fds)
  {
    WordBytes(104);
    WordBytes(0);
    var header := LowBytes(104, 4) + LowBytes(0, 4);
    assert Header(EXTEND_FDS_MSG, 0) == header;
    assert FdFrame(fds)[0] == Cell(header[0], fds);
    assert FdFrame(fds)[1..] == Cells(header[1..]);
  }

  /** A resource event announces its descriptors in the second word. */
  lemma ResourceCarried(service: Word, fds: seq<Fd>)
    requires |fds| < UINT32
    ensures Carried(Input, ResourceMsg(service, fds),
                    Cells(ResourceBytes(service, |fds|)) + if fds == [] then [] else FdCells(fds))
  {
    var m := ResourceMsg(service, fds);
    FrameLayout(Input, m.event);
    WordBytes(service);
    WordBytes(|fds|);
    WordBytes(0);
    if fds != [] { FdFrameLayout(fds); }
    assert Frame(Input, m.event) + [] == ResourceBytes(service, |fds|);
    ConsistentIsCarried(Input, m, Encode(Input, m));
  }

  /** Every other event stands alone, whatever its words hold. */
  lemma OthersCarried(dir: Dir, e: Event)
    requires if dir.Input? then e.kind !in {8, 9, 11} else e.kind !in {1, 16}
    ensures Carried(dir, Msg(e, [], []), Cells(Frame(dir, e)))
  {
    assert Frame(dir, e) + [] == Frame(dir, e) && Cells(Frame(dir, e)) + [] == Cells(Frame(dir, e));
    ConsistentIsCarried(dir, Msg(e, [], []), Cells(Frame(dir, e)));
  }
}
