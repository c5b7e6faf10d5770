/** The microphone buffer of anland_audio.c as its user sees it: a queue of bounded size that
    drops its oldest bytes. Module MicRing implements it in a ring. */
module MicQueue {
  import opened Protocol
  import opened Wire

  /** The last `size` bytes. */
  function Newest(s: seq<Byte>, size: nat): seq<Byte> {
    if |s| <= size then s else s[|s| - size..]
  }

  function Write(q: seq<Byte>, p: seq<Byte>, size: nat): seq<Byte> {
    Newest(q + p, size)
  }

  function Front(q: seq<Byte>, n: nat): seq<Byte> {
    q[..Min(n, |q|)]
  }

  function Read(q: seq<Byte>, n: nat): seq<Byte> {
    q[Min(n, |q|)..]
  }

  datatype Op = Put(p: seq<Byte>) | Take(n: nat)

  /** Besides the queue: everything written so far, and what the last read returned and from
      where in the written stream. */
  datatype State = State(q: seq<Byte>, written: seq<Byte>, got: seq<Byte>, at: nat)

  function Do(s: State, op: Op, size: nat): State {
    match op
    case Put(p) => s.(q := Write(s.q, p, size), written := s.written + p)
    case Take(n) =>
      State(Read(s.q, n), s.written, Front(s.q, n), if |s.q| <= |s.written| then |s.written| - |s.q| else 0)
  }

  function Run(ops: seq<Op>, size: nat): State {
    if ops == [] then State([], [], [], 0) else Do(Run(ops[..|ops| - 1], size), ops[|ops| - 1], size)
  }

  /** `s` is the end of `t`. */
  ghost predicate EndOf(s: seq<Byte>, t: seq<Byte>) {
    |s| <= |t| && t[|t| - |s|..] == s
  }

  lemma NewestEnds(s: seq<Byte>, t: seq<Byte>, p: seq<Byte>, size: nat)
    requires EndOf(s, t)
    ensures EndOf(Newest(s + p, size), t + p)
  {
    assert (t + p)[|t| - |s|..] == s + p;
  }

  /** However the bytes are cut into writes, the same bytes remain. */
  lemma WritesMerge(q: seq<Byte>, p: seq<Byte>, r: seq<Byte>, size: nat)
    ensures Write(Write(q, p, size), r, size) == Write(q, p + r, size)
  {
    assert q + (p + r) == q + p + r;
    if |q + p| > size {
      assert (q + p)[|q + p| - size..] + r == (q + p + r)[|q + p| - size..];
    }
  }

  /** Reads take consecutive blocks: two reads give what one longer read gives. */
  lemma ReadsMerge(q: seq<Byte>, n: nat, m: nat)
    ensures Front(q, n) + Front(Read(q, n), m) == Front(q, n + m) && Read(Read(q, n), m) == Read(q, n + m)
  {
  }

  /** The queue is the end of what was written; the last read was the block at `at`, before it. */
  ghost predicate InStream(s: State, size: nat) {
    && EndOf(s.q, s.written) && |s.q| <= size
    && s.at + |s.got| <= |s.written| - |s.q|
    && s.written[s.at..s.at + |s.got|] == s.got
  }

  lemma TakeKeepsStream(s: State, n: nat, size: nat)
    requires InStream(s, size)
    ensures InStream(Do(s, Take(n), size), size)
  {
    var at, k := |s.written| - |s.q|, Min(n, |s.q|);
    assert s.written[at..][..k] == s.written[at..at + k];
    assert s.written[at..][k..] == s.written[at + k..];
  }

  lemma OpKeepsStream(s: State, op: Op, size: nat)
    requires InStream(s, size)
    ensures InStream(Do(s, op, size), size)
  {
    match op
    case Put(p) =>
      NewestEnds(s.q, s.written, p, size);
      assert (s.written + p)[s.at..s.at + |s.got|] == s.got;
    case Take(n) => TakeKeepsStream(s, n, size);
  }

  /** After any run the queue holds the end of what was written, and a read returned a block of
      the written stream starting exactly where the unread part began. */
  lemma {:induction false} QueueIsEndOfStream(ops: seq<Op>, size: nat)
    ensures InStream(Run(ops, size), size)
  {
    if ops != [] {
      var before, op := Run(ops[..|ops| - 1], size), ops[|ops| - 1];
      QueueIsEndOfStream(ops[..|ops| - 1], size);
      OpKeepsStream(before, op, size);
    }
  }

  predicate WholeFrames(ops: seq<Op>, frame: nat)
    requires frame > 0
  {
    forall i :: 0 <= i < |ops| ==> (match ops[i] case Put(p) => |p| % frame == 0 case Take(n) => n % frame == 0)
  }

  lemma ModUnique(x: int, q: int, r: int, d: int)
    requires d > 0 && x == d * q + r && 0 <= r < d
    ensures x % d == r
  {
    var t := q - x / d;
    assert d * t == x % d - r by {
      assert d * q - d * (x / d) == d * t;
    }
    MultipleGrows(d, t);
  }

  lemma MultipleGrows(d: int, t: int)
    requires d > 0
    ensures t >= 1 ==> d * t >= d
    ensures t <= -1 ==> d * t <= -d
  {
    assert d * t == d + d * (t - 1) == d * (t + 1) - d;
    if t >= 1 {
      assert d * (t - 1) >= 0;
    } else if t <= -1 {
      assert d * (t + 1) <= 0;
    }
  }

  lemma MultipleSum(a: nat, b: nat, frame: nat)
    requires frame > 0 && a % frame == 0 && b % frame == 0
    ensures (a + b) % frame == 0
    ensures a <= b ==> (b - a) % frame == 0
  {
    var x, y := a / frame, b / frame;
    assert a == frame * x && b == frame * y;
    assert a + b == frame * (x + y) && b - a == frame * (y - x);
    ModUnique(a + b, x + y, 0, frame);
    ModUnique(b - a, y - x, 0, frame);
  }

  /** If whole frames are written and read and the size is a number of frames, every read starts
      on a frame boundary of the written stream, so channels are never exchanged. */
  ghost predicate Aligned(s: State, frame: nat)
    requires frame > 0
  {
    |s.written| % frame == 0 && |s.q| % frame == 0 && |s.got| % frame == 0 && s.at % frame == 0
  }

  lemma PutAligned(s: State, p: seq<Byte>, size: nat, frame: nat)
    requires frame > 0 && size % frame == 0 && Aligned(s, frame) && |p| % frame == 0
    ensures Aligned(Do(s, Put(p), size), frame)
  {
    MultipleSum(|s.written|, |p|, frame);
    MultipleSum(|s.q|, |p|, frame);
  }

  lemma TakeAligned(s: State, n: nat, size: nat, frame: nat)
    requires frame > 0 && Aligned(s, frame) && n % frame == 0 && |s.q| <= |s.written|
    ensures Aligned(Do(s, Take(n), size), frame)
  {
    MultipleSum(|s.q|, |s.written|, frame);
    MultipleSum(Min(n, |s.q|), |s.q|, frame);
  }

  lemma {:induction false} ReadsFrameAligned(ops: seq<Op>, size: nat, frame: nat)
    requires frame > 0 && size % frame == 0 && WholeFrames(ops, frame)
    ensures Aligned(Run(ops, size), frame)
  {
    if ops != [] {
      var k := |ops| - 1;
      var before := Run(ops[..k], size);
      assert forall i :: 0 <= i < k ==> ops[..k][i] == ops[i];
      ReadsFrameAligned(ops[..k], size, frame);
      QueueIsEndOfStream(ops[..k], size);
      match ops[k]
      case Put(p) => PutAligned(before, p, size, frame);
      case Take(n) => TakeAligned(before, n, size, frame);
    }
  }
}
