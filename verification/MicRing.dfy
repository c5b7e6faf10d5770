/** The ring behind the microphone source (anland_audio.c): byte array, head, tail and fill. */
module MicRing {
  import opened Protocol
  import opened Wire
  import opened MicQueue

  const AUDIO_MSG_PCM := 2

  function Wrap(x: nat, size: nat): nat
    requires x < 2 * size
  {
    if x < size then x else x - size
  }

  lemma WrapIsMod(x: nat, size: nat)
    requires x < 2 * size
    ensures x % size == Wrap(x, size) < size
  {
  }

  /** The stored bytes in order, oldest first. */
  function Stored(ring: seq<Byte>, tail: nat, fill: nat): (s: seq<Byte>)
    requires tail < |ring| && fill <= |ring|
    ensures |s| == fill
  {
    seq(fill, i requires 0 <= i < fill => ring[Wrap(tail + i, |ring|)])
  }

  lemma StoredDrops(ring: seq<Byte>, tail: nat, fill: nat, n: nat)
    requires tail < |ring| && n <= fill <= |ring|
    ensures Wrap(tail + n, |ring|) < |ring|
    ensures Stored(ring, Wrap(tail + n, |ring|), fill - n) == Stored(ring, tail, fill)[n..]
  {
    var size, t := |ring|, Wrap(tail + n, |ring|);
    forall i | 0 <= i < fill - n
      ensures Stored(ring, t, fill - n)[i] == Stored(ring, tail, fill)[n..][i]
    {
      assert Wrap(t + i, size) == Wrap(tail + (n + i), size);
    }
  }

  lemma TwoPieces(ring: seq<Byte>, tail: nat, fill: nat, got: nat)
    requires tail < |ring| && got <= fill <= |ring|
    ensures var first := Min(|ring| - tail, got);
            ring[tail..tail + first] + ring[..got - first] == Stored(ring, tail, fill)[..got]
  {
    var first := Min(|ring| - tail, got);
    forall i | 0 <= i < got
      ensures (ring[tail..tail + first] + ring[..got - first])[i] == Stored(ring, tail, fill)[..got][i]
    {
      var j := Wrap(tail + i, |ring|);
      assert Stored(ring, tail, fill)[..got][i] == ring[j];
      if i < first {
        assert j == tail + i && ring[tail..tail + first][i] == ring[j];
      } else {
        assert j == i - first && ring[..got - first][i - first] == ring[j];
      }
    }
  }

  /** What two memcpys at the head leave in the ring. */
  ghost predicate Placed(before: seq<Byte>, after: seq<Byte>, head: nat, p: seq<Byte>) {
    && |before| == |after| && head < |before| && |p| <= |before|
    && (forall i :: 0 <= i < |p| ==> after[Wrap(head + i, |before|)] == p[i])
    && (forall j :: 0 <= j < |before| && !Covered(j, head, |p|, |before|) ==> after[j] == before[j])
  }

  predicate Covered(j: nat, head: nat, n: nat, size: nat) {
    head <= j < head + n || j + size < head + n
  }

  lemma StoredAppends(before: seq<Byte>, after: seq<Byte>, tail: nat, fill: nat, p: seq<Byte>)
    requires tail < |before| && fill + |p| <= |before|
    requires Placed(before, after, Wrap(tail + fill, |before|), p)
    ensures Stored(after, tail, fill + |p|) == Stored(before, tail, fill) + p
  {
    var size, head := |before|, Wrap(tail + fill, |before|);
    forall i | 0 <= i < fill + |p|
      ensures Stored(after, tail, fill + |p|)[i] == (Stored(before, tail, fill) + p)[i]
    {
      if i < fill {
        assert !Covered(Wrap(tail + i, size), head, |p|, size);
      } else {
        assert Wrap(tail + i, size) == Wrap(head + (i - fill), size);
      }
    }
  }

  const DEFAULT_CAP_CHANNELS := 1

  /** The channel count of the source after the consumer announced one; zero leaves it to us. */
  function SourceChannels(announced: Word): Word {
    if announced == 0 then DEFAULT_CAP_CHANNELS else announced
  }

  /** Bytes in a frame, computed in 32 bits. */
  function Stride(channels: Word): Word {
    2 * channels % UINT32
  }

  /** There is one announcement for which a frame has no bytes, and on_source_process divides by
      that; the stride is right exactly below it. */
  lemma StrideIsZeroIff(announced: Word)
    ensures Stride(SourceChannels(announced)) == 0 <==> announced == UINT32 / 2
    ensures Stride(SourceChannels(announced)) == 2 * SourceChannels(announced) <==> announced < UINT32 / 2
  {
    var c := SourceChannels(announced);
    if 2 * c >= UINT32 { assert 2 * c == UINT32 + (2 * c - UINT32); }
  }

  /** One recv on the audio socket. */
  datatype Incoming = Datagram(bytes: seq<Byte>) | Interrupted | WouldBlock | Failed | Closed

  /** The payload of a PCM datagram: at most what the header says and what is there. */
  function PcmPayload(d: seq<Byte>): seq<Byte> {
    if |d| < HEADER_BYTES || FromLE32(d[..4]) != AUDIO_MSG_PCM then []
    else d[HEADER_BYTES..HEADER_BYTES + Min(FromLE32(d[4..8]), |d| - HEADER_BYTES)]
  }

  datatype Heard = Heard(q: seq<Byte>, attached: bool)

  /** on_audio_readable: every PCM payload goes into the queue until the socket runs dry; a closed
      or broken socket is detached, which empties the queue. */
  function Hear(q: seq<Byte>, size: nat, incoming: seq<Incoming>): Heard
    decreases |incoming|
  {
    if incoming == [] then Heard(q, true)
    else
      match incoming[0]
      case Datagram(d) => Hear(Write(q, PcmPayload(d), size), size, incoming[1..])
      case Interrupted => Hear(q, size, incoming[1..])
      case WouldBlock => Heard(q, true)
      case Failed => Heard([], false)
      case Closed => Heard([], false)
  }

  /** The payloads of a burst that the socket delivered whole. */
  function Payloads(incoming: seq<Incoming>): seq<Byte> {
    if incoming == [] || !(incoming[0].Datagram? || incoming[0].Interrupted?) then []
    else (if incoming[0].Datagram? then PcmPayload(incoming[0].bytes) else []) + Payloads(incoming[1..])
  }

  /** A burst leaves the newest bytes of the old contents and all its payloads together, however
      the sender cut them into datagrams. */
  lemma {:induction false} BurstKeepsNewest(q: seq<Byte>, size: nat, incoming: seq<Incoming>)
    requires |q| <= size && Hear(q, size, incoming).attached
    ensures Hear(q, size, incoming).q == Newest(q + Payloads(incoming), size)
    decreases |incoming|
  {
    if incoming == [] || !(incoming[0].Datagram? || incoming[0].Interrupted?) {
      assert q + [] == q;
    } else {
      var p := if incoming[0].Datagram? then PcmPayload(incoming[0].bytes) else [];
      var q1 := if incoming[0].Datagram? then Write(q, p, size) else q;
      assert p == [] ==> q + p == q;
      BurstKeepsNewest(q1, size, incoming[1..]);
      WritesMerge(q, p, Payloads(incoming[1..]), size);
      assert q1 == Write(q, p, size);
    }
  }

  /** Where the ring is written and read, and how much it holds. */
  datatype Offsets = Offsets(head: nat, tail: nat, fill: nat)

  datatype RingOp = Stores(n: nat) | Takes(n: nat) | Empties

  predicate Fits(o: Offsets, size: nat) {
    o.head < size && o.tail < size && o.fill <= size
  }

  function Dropped(o: Offsets, n: nat, size: nat): Offsets
    requires 0 < size && n <= o.fill
  {
    o.(tail := (o.tail + n) % size, fill := o.fill - n)
  }

  function Appended(o: Offsets, n: nat, size: nat): Offsets
    requires 0 < size
  {
    o.(head := (o.head + n) % size, fill := o.fill + n)
  }

  /** ring_write keeps the newest of an overlong input and drops what is oldest to make room. */
  function Shifted(o: Offsets, op: RingOp, size: nat): (o': Offsets)
    requires Fits(o, size)
    ensures Fits(o', size)
  {
    match op
    case Stores(n) =>
      var m := Min(n, size);
      Appended(if o.fill + m > size then Dropped(o, o.fill + m - size, size) else o, m, size)
    case Takes(n) => Dropped(o, Min(n, o.fill), size)
    case Empties => Offsets(0, 0, 0)
  }

  function OffsetsAfter(ops: seq<RingOp>, size: nat): (o: Offsets)
    requires 0 < size
    ensures Fits(o, size)
  {
    if ops == [] then Offsets(0, 0, 0) else Shifted(OffsetsAfter(ops[..|ops| - 1], size), ops[|ops| - 1], size)
  }

  class MicRing {
    const ring: array<Byte>
    var head: nat
    var tail: nat
    var fill: nat
    var attached: bool

    ghost predicate Valid()
      reads this
    {
      0 < ring.Length && head < ring.Length && tail < ring.Length && fill <= ring.Length
      && head == (tail + fill) % ring.Length
    }

    ghost function Contents(): seq<Byte>
      requires Valid()
      reads this, ring
    {
      Stored(ring[..], tail, fill)
    }

    function Where(): Offsets
      reads this
    {
      Offsets(head, tail, fill)
    }

    constructor (size: nat)
      requires size > 0
      ensures Valid() && ring.Length == size && Contents() == [] && fresh(ring)
    {
      ring := new Byte[size](_ => 0);
      head, tail, fill, attached := 0, 0, 0, false;
    }

    method Reset()
      requires Valid()
      modifies this`head, this`tail, this`fill
      ensures Valid() && Contents() == [] && Where() == Offsets(0, 0, 0)
    {
      head := 0;
      tail := 0;
      fill := 0;
    }

    method DropOldest(n: nat)
      requires Valid() && n <= fill
      modifies this`tail, this`fill
      ensures Valid() && Contents() == old(Contents())[n..]
      ensures Where() == Dropped(old(Where()), n, ring.Length)
    {
      StoredDrops(ring[..], tail, fill, n);
      WrapIsMod(tail + n, ring.Length);
      WrapIsMod(tail + fill, ring.Length);
      tail := (tail + n) % ring.Length;
      fill := fill - n;
      WrapIsMod(tail + fill, ring.Length);
    }

    /** The two memcpys. */
    method CopyIn(p: seq<Byte>)
      requires Valid() && |p| <= ring.Length
      modifies ring
      ensures Placed(old(ring[..]), ring[..], head, p)
    {
      var first := Min(ring.Length - head, |p|);
      forall i | 0 <= i < first {
        ring[head + i] := p[i];
      }
      forall i | 0 <= i < |p| - first {
        ring[i] := p[first + i];
      }
    }

    method Append(p: seq<Byte>)
      requires Valid() && fill + |p| <= ring.Length
      modifies this`head, this`fill, ring
      ensures Valid() && Contents() == old(Contents()) + p
      ensures Where() == Appended(old(Where()), |p|, ring.Length)
    {
      ghost var before := ring[..];
      WrapIsMod(tail + fill, ring.Length);
      CopyIn(p);
      StoredAppends(before, ring[..], tail, fill, p);
      WrapIsMod(head + |p|, ring.Length);
      head := (head + |p|) % ring.Length;
      fill := fill + |p|;
      WrapSum(tail, old(fill), |p|, ring.Length);
    }

    method RingWrite(data: seq<Byte>)
      requires Valid()
      modifies this`head, this`tail, this`fill, ring
      ensures Valid() && Contents() == MicQueue.Write(old(Contents()), data, ring.Length)
      ensures Where() == Shifted(old(Where()), Stores(|data|), ring.Length)
    {
      ghost var was := Contents();
      var p := if |data| > ring.Length then data[|data| - ring.Length..] else data;
      if fill + |p| > ring.Length {
        DropOldest(fill + |p| - ring.Length);
      }
      TrimmedWrite(was, data, ring.Length);
      Append(p);
    }

    method RingRead(n: nat) returns (out: seq<Byte>)
      requires Valid()
      modifies this`tail, this`fill
      ensures Valid() && out == Front(old(Contents()), n) && Contents() == MicQueue.Read(old(Contents()), n)
      ensures Where() == Shifted(old(Where()), Takes(n), ring.Length)
    {
      var got := Min(n, fill);
      var first := Min(ring.Length - tail, got);
      out := ring[tail..tail + first] + ring[..got - first];
      TwoPieces(ring[..], tail, fill, got);
      DropOldest(got);
    }

    /** on_source_process: whole frames, padded with silence. */
    method FillSource(maxSize: nat, requested: nat, channels: Word) returns (data: seq<Byte>)
      requires Valid() && Stride(channels) != 0
      modifies this`tail, this`fill
      ensures Valid()
      ensures |data| <= maxSize && |data| % Stride(channels) == 0
      ensures requested != 0 ==> |data| <= requested * Stride(channels)
      ensures |data| + Stride(channels) > maxSize || (requested != 0 && |data| == requested * Stride(channels))
      ensures Contents() == MicQueue.Read(old(Contents()), |data|)
      ensures var got := Front(old(Contents()), |data|);
              data[..|got|] == got && forall i :: |got| <= i < |data| ==> data[i] == 0
    {
      var bytes := FrameBytes(maxSize, requested, Stride(channels));
      data := Padded(bytes);
    }

    method FrameBytes(maxSize: nat, requested: nat, stride: nat) returns (bytes: nat)
      requires stride > 0
      ensures bytes <= maxSize && bytes % stride == 0
      ensures requested != 0 ==> bytes <= requested * stride
      ensures bytes + stride > maxSize || (requested != 0 && bytes == requested * stride)
    {
      var frames := maxSize / stride;
      if requested != 0 && requested < frames {
        frames := requested;
      }
      FramesFit(frames, maxSize, requested, stride);
      return frames * stride;
    }

    method Padded(bytes: nat) returns (data: seq<Byte>)
      requires Valid()
      modifies this`tail, this`fill
      ensures Valid() && |data| == bytes && Contents() == MicQueue.Read(old(Contents()), bytes)
      ensures var got := Front(old(Contents()), bytes);
              data[..|got|] == got && forall i :: |got| <= i < |data| ==> data[i] == 0
    {
      var got := RingRead(bytes);
      data := got + seq(bytes - |got|, _ => 0);
    }

    method DetachAudioFd()
      requires Valid()
      modifies this`attached, this`head, this`tail, this`fill
      ensures Valid() && !attached && Contents() == []
    {
      attached := false;
      Reset();
    }

    method OnAudioReadable(incoming: seq<Incoming>)
      requires Valid() && attached
      modifies this, ring
      ensures Valid() && Heard(Contents(), attached) == Hear(old(Contents()), ring.Length, incoming)
    {
      assert incoming[0..] == incoming;
      for i := 0 to |incoming|
        invariant Valid() && attached
        invariant Hear(old(Contents()), ring.Length, incoming) == Hear(Contents(), ring.Length, incoming[i..])
      {
        ghost var later := incoming[i..];
        assert later[0] == incoming[i] && later[1..] == incoming[i + 1..];
        match incoming[i]
        case Datagram(d) =>
          if |d| < HEADER_BYTES || FromLE32(d[..4]) != AUDIO_MSG_PCM {
            NothingWritten(Contents(), ring.Length);
            continue;
          }
          var avail := |d| - HEADER_BYTES;
          var size := Min(FromLE32(d[4..8]), avail);
          RingWrite(d[HEADER_BYTES..HEADER_BYTES + size]);
        case Interrupted =>
          continue;
        case WouldBlock =>
          return;
        case Failed =>
          DetachAudioFd();
          return;
        case Closed =>
          DetachAudioFd();
          return;
      }
    }
  }

  lemma NothingWritten(q: seq<Byte>, size: nat)
    requires |q| <= size
    ensures MicQueue.Write(q, [], size) == q
  {
    assert q + [] == q;
  }

  lemma WrapSum(tail: nat, fill: nat, n: nat, size: nat)
    requires tail < size && fill + n <= size
    ensures Wrap(Wrap(tail + fill, size) + n, size) == Wrap(tail + fill + n, size) == (tail + (fill + n)) % size
  {
    WrapIsMod(tail + fill + n, size);
  }

  /** Trimming the input first and dropping the overhang second is one drop-oldest write. */
  lemma TrimmedWrite(q: seq<Byte>, data: seq<Byte>, size: nat)
    requires |q| <= size
    ensures var p := if |data| > size then data[|data| - size..] else data;
            var drop := if |q| + |p| > size then |q| + |p| - size else 0;
            q[drop..] + p == MicQueue.Write(q, data, size)
  {
  }

  lemma FramesFit(frames: nat, maxSize: nat, requested: nat, stride: nat)
    requires stride > 0 && frames <= maxSize / stride && (requested != 0 ==> frames <= requested)
    ensures frames * stride <= maxSize && (frames * stride) % stride == 0
    ensures requested != 0 ==> frames * stride <= requested * stride
  {
    var most := maxSize / stride;
    assert most * stride <= maxSize;
    assert frames * stride <= most * stride;
    ModUnique(frames * stride, frames, 0, stride);
  }

  lemma OffsetAlignedIff(at: nat, m: nat, size: nat, frame: nat)
    requires frame > 0 && size % frame == 0 && at < size && m <= size && at % frame == 0
    ensures ((at + m) % size) % frame == 0 <==> m % frame == 0
  {
    WrapIsMod(at + m, size);
    AddAligned(at, m, frame);
    if at + m >= size {
      AddAligned(size, at + m - size, frame);
    }
  }

  predicate OnFrames(o: Offsets, frame: nat)
    requires frame > 0
  {
    o.head % frame == 0 && o.tail % frame == 0 && o.fill % frame == 0
  }

  /** What the operation moves is whole frames. */
  predicate WholeFrames(o: Offsets, op: RingOp, size: nat, frame: nat)
    requires frame > 0
  {
    match op
    case Stores(n) => Min(n, size) % frame == 0
    case Takes(n) => Min(n, o.fill) % frame == 0
    case Empties => true
  }

  lemma TakenAlignedIff(o: Offsets, n: nat, size: nat, frame: nat)
    requires frame > 0 && size % frame == 0 && Fits(o, size) && OnFrames(o, frame) && n <= o.fill
    ensures OnFrames(Dropped(o, n, size), frame) <==> n % frame == 0
  {
    OffsetAlignedIff(o.tail, n, size, frame);
    if n % frame == 0 { AddAligned(n, o.fill - n, frame); }
  }

  /** Making room for whole frames in a full ring drops whole frames. */
  lemma OverhangAligned(fill: nat, m: nat, size: nat, frame: nat)
    requires frame > 0 && size % frame == 0 && fill % frame == 0 && m % frame == 0 && fill + m > size
    ensures (fill + m - size) % frame == 0
  {
    AddAligned(fill, m, frame);
    AddAligned(size, fill + m - size, frame);
  }

  lemma StoredAlignedIff(o: Offsets, n: nat, size: nat, frame: nat)
    requires frame > 0 && size % frame == 0 && Fits(o, size) && OnFrames(o, frame)
    ensures OnFrames(Shifted(o, Stores(n), size), frame) <==> Min(n, size) % frame == 0
  {
    var m := Min(n, size);
    OffsetAlignedIff(o.head, m, size, frame);
    if m % frame == 0 {
      if o.fill + m > size {
        OverhangAligned(o.fill, m, size, frame);
        TakenAlignedIff(o, o.fill + m - size, size, frame);
      } else {
        AddAligned(o.fill, m, frame);
      }
    }
  }

  lemma ShiftedAlignedIff(o: Offsets, op: RingOp, size: nat, frame: nat)
    requires frame > 0 && size % frame == 0 && Fits(o, size) && OnFrames(o, frame)
    ensures OnFrames(Shifted(o, op, size), frame) <==> WholeFrames(o, op, size, frame)
  {
    match op
    case Stores(n) => StoredAlignedIff(o, n, size, frame);
    case Takes(n) => TakenAlignedIff(o, Min(n, o.fill), size, frame);
    case Empties =>
  }

  ghost predicate AlwaysOnFrames(ops: seq<RingOp>, size: nat, frame: nat)
    requires 0 < size && frame > 0
  {
    forall k :: 0 <= k <= |ops| ==> OnFrames(OffsetsAfter(ops[..k], size), frame)
  }

  predicate WholeAt(ops: seq<RingOp>, k: nat, size: nat, frame: nat)
    requires 0 < size && frame > 0 && k < |ops|
  {
    WholeFrames(OffsetsAfter(ops[..k], size), ops[k], size, frame)
  }

  ghost predicate AllWhole(ops: seq<RingOp>, size: nat, frame: nat)
    requires 0 < size && frame > 0
  {
    forall k :: 0 <= k < |ops| ==> WholeAt(ops, k, size, frame)
  }

  lemma {:induction false} OneMoreOnFrames(ops: seq<RingOp>, n: nat, size: nat, frame: nat)
    requires 0 < size && frame > 0 && |ops| == n + 1
    ensures AlwaysOnFrames(ops, size, frame) <==> AlwaysOnFrames(ops[..n], size, frame) && OnFrames(OffsetsAfter(ops, size), frame)
  {
    hide OnFrames, OffsetsAfter;
    forall k | 0 <= k <= n ensures ops[..n][..k] == ops[..k] {
    }
    assert ops[..n + 1] == ops;
  }

  lemma WholeSame(ops: seq<RingOp>, n: nat, k: nat, size: nat, frame: nat)
    requires 0 < size && frame > 0 && k < n <= |ops|
    ensures WholeAt(ops, k, size, frame) == WholeAt(ops[..n], k, size, frame)
  {
    assert ops[..n][..k] == ops[..k];
  }

  lemma {:induction false} OneMoreWhole(ops: seq<RingOp>, n: nat, size: nat, frame: nat)
    requires 0 < size && frame > 0 && |ops| == n + 1
    ensures AllWhole(ops, size, frame) <==> AllWhole(ops[..n], size, frame) && WholeAt(ops, n, size, frame)
  {
    hide WholeAt;
    forall k | 0 <= k < n ensures WholeAt(ops, k, size, frame) == WholeAt(ops[..n], k, size, frame) {
      WholeSame(ops, n, k, size, frame);
    }
  }

  /** Over any run, head, tail and fill are on frame boundaries all the time exactly if every
      write stores and every read takes whole frames. */
  lemma {:induction false} OffsetsAlignedIff(ops: seq<RingOp>, size: nat, frame: nat)
    requires 0 < size && frame > 0 && size % frame == 0
    ensures AlwaysOnFrames(ops, size, frame) <==> AllWhole(ops, size, frame)
  {
    if ops == [] {
      assert ops[..0] == [];
    } else {
      var n := |ops| - 1;
      OffsetsAlignedIff(ops[..n], size, frame);
      OneMoreOnFrames(ops, n, size, frame);
      OneMoreWhole(ops, n, size, frame);
      if AlwaysOnFrames(ops[..n], size, frame) {
        assert ops[..n][..n] == ops[..n];
        ShiftedAlignedIff(OffsetsAfter(ops[..n], size), ops[n], size, frame);
      }
    }
  }

  /** The input: one byte is written to an empty ring of larger frames. */
  lemma OneByteMisaligns(size: nat, frame: nat)
    requires 1 < frame <= size && size % frame == 0
    ensures !OnFrames(OffsetsAfter([Stores(1)], size), frame)
  {
    var ops := [Stores(1)];
    assert ops[..0] == [] && OffsetsAfter([], size) == Offsets(0, 0, 0);
    StoredAlignedIff(Offsets(0, 0, 0), 1, size, frame);
  }

  lemma AddAligned(a: nat, m: nat, frame: nat)
    requires frame > 0 && a % frame == 0
    ensures (a + m) % frame == 0 <==> m % frame == 0
  {
    if m % frame == 0 {
      MultipleSum(a, m, frame);
    }
    if (a + m) % frame == 0 {
      MultipleSum(a, a + m, frame);
    }
  }
}
