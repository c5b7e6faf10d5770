/** What goes through the microphone's queue: how much of it stays, which bytes a datagram of the
    consumer contributes, and when the socket is given up. */
module AudioEffects {
  import opened Protocol
  import opened Wire
  import opened MicQueue
  import opened MicRing
  import opened Senders

  /** How many bytes are in the queue: writes fill it up to its size, reads take what is there. */
  function Filled(ops: seq<Op>, size: nat): nat {
    if ops == [] then 0
    else
      var n, op := Filled(ops[..|ops| - 1], size), ops[|ops| - 1];
      match op
      case Put(p) => if n + |p| > size then size else n + |p|
      case Take(k) => if k > n then 0 else n - k
  }

  /** Over any run no byte is dropped while there is room for it: the queue is as full as writes and
      reads leave it. With its place at the end of the stream that says which bytes it holds. */
  lemma {:induction false} QueueIsFilled(ops: seq<Op>, size: nat)
    ensures |Run(ops, size).q| == Filled(ops, size)
  {
    if ops != [] {
      QueueIsFilled(ops[..|ops| - 1], size);
    }
  }

  /** A queue at the end of the stream gives its front. */
  lemma FrontOfStream(t: seq<Byte>, q: seq<Byte>, n: nat)
    requires EndOf(q, t)
    ensures var at, k := |t| - |q|, if n < |q| then n else |q|;
            Front(q, n) == t[at..at + k] && MicQueue.Read(q, n) == t[at + k..]
  {
    var at, k := |t| - |q|, if n < |q| then n else |q|;
    assert t[at..][..k] == t[at..at + k] && t[at..][k..] == t[at + k..];
  }

  /** A read that follows a run returns the oldest bytes of it that are still there, as many as were
      asked for if there are so many, and the next read begins behind them. */
  lemma ReadReturns(ops: seq<Op>, n: nat, size: nat)
    ensures var s, s', have := Run(ops, size), Run(ops + [Take(n)], size), Filled(ops, size);
            && have <= |s.written| && s'.written == s.written
            && |s'.got| == (if n < have then n else have)
            && s'.at == |s.written| - have
            && s'.got == s.written[s'.at..s'.at + |s'.got|]
            && s'.q == s.written[s'.at + |s'.got|..]
  {
    QueueIsEndOfStream(ops, size);
    QueueIsFilled(ops, size);
    assert (ops + [Take(n)])[..|ops|] == ops;
    var s := Run(ops, size);
    assert Run(ops + [Take(n)], size) == Do(s, Take(n), size);
    FrontOfStream(s.written, s.q, n);
    hide Front, MicQueue.Read, Run, Filled;
  }

  /** A datagram as the consumer builds it: type, size of the payload, payload. */
  function AudioBytes(kind: Word, size: Word, payload: seq<Byte>): seq<Byte> {
    LowBytes(kind, 4) + LowBytes(size, 4) + payload
  }

  lemma AudioWords(kind: Word, size: Word, payload: seq<Byte>)
    ensures var d := AudioBytes(kind, size, payload);
            |d| == 8 + |payload| && FromLE32(d[..4]) == kind && FromLE32(d[4..8]) == size && d[8..] == payload
  {
    WordBytes(kind);
    WordBytes(size);
    WordSurvives(kind);
    WordSurvives(size);
    var d := AudioBytes(kind, size, payload);
    assert d[..4] == LE32(kind) && d[4..8] == LE32(size);
  }

  /** PCM contributes its payload, cut to the announced size; any other type, like a message that is
      shorter than a header, contributes nothing. */
  lemma PayloadMeans(kind: Word, size: Word, payload: seq<Byte>)
    ensures PcmPayload(AudioBytes(kind, size, payload)) ==
              if kind != 2 then [] else if size < |payload| then payload[..size] else payload
  {
    AudioWords(kind, size, payload);
    var d := AudioBytes(kind, size, payload);
    var n := if size < |payload| then size else |payload|;
    assert d[8..8 + n] == d[8..][..n];
  }

  lemma ShortMeans(d: seq<Byte>)
    requires |d| < 8
    ensures PcmPayload(d) == []
  {
  }

  /** The socket breaks or is closed before it runs dry. */
  ghost predicate Breaks(incoming: seq<Incoming>) {
    exists k :: 0 <= k < |incoming| && (incoming[k].Failed? || incoming[k].Closed?) && !DryBefore(incoming, k)
  }

  ghost predicate DryBefore(incoming: seq<Incoming>, k: nat)
    requires k <= |incoming|
  {
    exists j :: 0 <= j < k && incoming[j].WouldBlock?
  }

  /** The socket is given up, and the queue emptied, exactly if it breaks before it runs dry. */
  lemma {:induction false} HearGivesUpIff(q: seq<Byte>, size: nat, incoming: seq<Incoming>)
    ensures !Hear(q, size, incoming).attached <==> Breaks(incoming)
    ensures Breaks(incoming) ==> Hear(q, size, incoming).q == []
    decreases |incoming|
  {
    if incoming != [] {
      var rest := incoming[1..];
      match incoming[0]
      case Datagram(d) =>
        HearGivesUpIff(Write(q, PcmPayload(d), size), size, rest);
        BreaksLater(incoming);
      case Interrupted =>
        HearGivesUpIff(q, size, rest);
        BreaksLater(incoming);
      case WouldBlock =>
      case Failed => assert !DryBefore(incoming, 0);
      case Closed => assert !DryBefore(incoming, 0);
    }
  }

  lemma BreaksLater(incoming: seq<Incoming>)
    requires incoming != [] && (incoming[0].Datagram? || incoming[0].Interrupted?)
    ensures Breaks(incoming) <==> Breaks(incoming[1..])
  {
    var rest := incoming[1..];
    forall k | 0 <= k < |rest| ensures DryBefore(incoming, k + 1) <==> DryBefore(rest, k) {
      if j :| 0 <= j < k && rest[j].WouldBlock? { assert incoming[j + 1].WouldBlock?; }
      if j :| 0 <= j < k + 1 && incoming[j].WouldBlock? { assert rest[j - 1].WouldBlock?; }
    }
    if k :| 0 <= k < |incoming| && (incoming[k].Failed? || incoming[k].Closed?) && !DryBefore(incoming, k) {
      assert rest[k - 1] == incoming[k] && !DryBefore(rest, k - 1);
    }
    if k :| 0 <= k < |rest| && (rest[k].Failed? || rest[k].Closed?) && !DryBefore(rest, k) {
      assert incoming[k + 1] == rest[k] && !DryBefore(incoming, k + 1);
    }
  }

  /** A consumer that announces no channel count gets a mono source of 16-bit samples. */
  lemma UnannouncedIsMono()
    ensures Stride(SourceChannels(0)) == 2
  {
  }
}
