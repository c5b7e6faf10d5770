/** The consumer's connection life cycle in libdisplay_consumer/display_consumer.c, one call
    at a time. Module WriteGate treats the same library under concurrent threads. */
module Consumer {
  import opened Protocol

  datatype Buf = Buf(fd: Fd, info: BufInfo)

  /** How re-creating and re-depositing the descriptors turned out. */
  datatype HelloOutcome = Sent | NotSent

  /** What polling the fence channel reports: nothing in time, the peer gone, or readable. A
      readable channel may be found empty after all when another thread replaced it. */
  datatype FenceEvent = Silence | EndOfFile | Readable

  /** The kernel objects of one generation, shared with whoever holds the deposited ends: the
      buffer-set messages not yet read, the shared index word, the eventfd counter and the
      render-done messages not yet read. */
  datatype Link = Link(bufs: seq<seq<Buf>>, index: nat, ready: nat, fences: seq<Option<Fd>>)

  const FreshLink := Link([], 0, 0, [])

  /** `gen` numbers the descriptor sets made so far, `up` is the control socket towards the
      daemon and `readies` counts the announcements consumed. */
  datatype State = State(
    conn: Conn,
    fallback: bool,
    pending: bool,
    gen: nat,
    stored: seq<Buf>,
    links: map<nat, Link>,
    up: seq<Up>,
    readies: nat)

  /** A context as connect_to_deamon leaves it: the first hello is out. */
  function Connected(c: Conn): State {
    State(c, true, false, 1, [], map[1 := FreshLink], [ConsumerHello(DepositOf(c, 1))], 0)
  }

  ghost predicate Valid(s: State) {
    && s.gen in s.links
    && |s.stored| <= MAX_BUFS
    && (s.fallback ==> !s.pending)
    && (forall g :: g in s.links ==> 1 <= g <= s.gen)
    && s.gen >= 1
  }

  function Current(s: State): Link
    requires s.gen in s.links
  {
    s.links[s.gen]
  }

  function WithCurrent(s: State, l: Link): State {
    s.(links := s.links[s.gen := l])
  }

  function EnterFallback(s: State, h: HelloOutcome): State {
    if s.fallback then s
    else
      var g := s.gen + 1;
      s.(fallback := true, pending := false, gen := g, links := s.links[g := FreshLink],
         up := if h.Sent? then s.up + [ConsumerHello(DepositOf(s.conn, g))] else s.up)
  }

  function PushStored(s: State, ok: bool, h: HelloOutcome): State
    requires s.gen in s.links
  {
    if s.stored == [] then s
    else if !ok then EnterFallback(s, h)
    else WithCurrent(s, Current(s).(bufs := Current(s).bufs + [s.stored]))
  }

  function TryExit(s: State, reply: Option<Down>, ok: bool, h: HelloOutcome): State
    requires s.gen in s.links
  {
    if !s.fallback || reply.None? || !reply.value.Announce? then s
    else PushStored(s.(fallback := false, readies := s.readies + 1), ok, h)
  }

  function Select(s: State, idx: int): State
    requires s.gen in s.links
  {
    if s.fallback || idx < 0 || idx >= |s.stored| then s
    else
      WithCurrent(s, Current(s).(index := idx, ready := Current(s).ready + 1)).(pending := true)
  }

  function SelectDmabuf(s: State, idx: int, reply: Option<Down>, ok: bool, h: HelloOutcome): State
    requires s.gen in s.links
  {
    var s1 := TryExit(s, reply, ok, h);
    if s1.gen in s1.links then Select(s1, idx) else s1
  }

  function Refresh(s: State, e: FenceEvent, h: HelloOutcome): State
    requires s.gen in s.links
  {
    if !s.pending then s
    else match e
      case Silence => EnterFallback(s, h)
      case EndOfFile => EnterFallback(s.(pending := false), h)
      case Readable =>
        var l := Current(s);
        if l.fences == [] then s.(pending := false)
        else WithCurrent(s, l.(fences := l.fences[1..])).(pending := false)
  }

  function Clamp(bufs: seq<Buf>): seq<Buf> {
    if |bufs| > MAX_BUFS then bufs[..MAX_BUFS] else bufs
  }

  function PushDmabufs(s: State, bufs: seq<Buf>, ok: bool, h: HelloOutcome): State
    requires s.gen in s.links
  {
    var s1 := s.(stored := Clamp(bufs));
    if s.fallback then s1 else EnterFallback(PushStored(s1, ok, h), h)
  }

  lemma FallKeepsValid(s: State, h: HelloOutcome)
    requires Valid(s)
    ensures Valid(EnterFallback(s, h))
  {
  }

  lemma ExitKeepsValid(s: State, reply: Option<Down>, ok: bool, h: HelloOutcome)
    requires Valid(s)
    ensures Valid(TryExit(s, reply, ok, h))
  {
  }

  lemma RefreshKeepsValid(s: State, e: FenceEvent, h: HelloOutcome)
    requires Valid(s)
    ensures Valid(Refresh(s, e, h))
  {
  }

  lemma PushKeepsValid(s: State, bufs: seq<Buf>, ok: bool, h: HelloOutcome)
    requires Valid(s)
    ensures Valid(PushDmabufs(s, bufs, ok, h))
  {
    var s1 := s.(stored := Clamp(bufs));
    assert Valid(s1) && Valid(PushStored(s1, ok, h));
  }

  /** Handing over a buffer set while connected always ends the session, so within one session
      the stored set is the one that was current when the session began. */
  lemma StoredSetOutlivesSession(s: State, bufs: seq<Buf>, ok: bool, h: HelloOutcome)
    requires Valid(s)
    ensures PushDmabufs(s, bufs, ok, h).fallback
    ensures !s.fallback ==> PushDmabufs(s, bufs, ok, h).gen == s.gen + 1
  {
  }

  class DisplayConsumer {
    const conn: Conn
    var fallback: bool
    var bufferPending: bool
    var gen: nat
    var stored: seq<Buf>
    var links: map<nat, Link>
    var up: seq<Up>
    var readies: nat

    ghost function Abs(): State
      reads this
    {
      State(conn, fallback, bufferPending, gen, stored, links, up, readies)
    }

    constructor (c: Conn)
      ensures conn == c && Abs() == Connected(c) && Valid(Abs())
    {
      conn, fallback, bufferPending, gen := c, true, false, 1;
      stored, readies := [], 0;
      links := map[1 := FreshLink];
      up := [ConsumerHello(DepositOf(c, 1))];
    }

    method SendHelloFds(outcome: HelloOutcome)
      modifies this`up
      ensures up == if outcome.Sent? then old(up) + [ConsumerHello(DepositOf(conn, gen))] else old(up)
    {
      if outcome.Sent? {
        up := up + [ConsumerHello(DepositOf(conn, gen))];
      }
    }

    method Fall(outcome: HelloOutcome)
      modifies this
      ensures Abs() == EnterFallback(old(Abs()), outcome)
    {
      if fallback {
        return;
      }
      fallback := true;
      bufferPending := false;
      gen := gen + 1;
      links := links[gen := FreshLink];
      SendHelloFds(outcome);
    }

    method PushDmabufsInternal(ok: bool, outcome: HelloOutcome) returns (r: int)
      requires gen in links
      modifies this
      ensures Abs() == PushStored(old(Abs()), ok, outcome)
      ensures r == if old(stored) == [] || ok then 0 else -1
    {
      if |stored| == 0 {
        return 0;
      }
      if !ok {
        Fall(outcome);
        return -1;
      }
      links := links[gen := links[gen].(bufs := links[gen].bufs + [stored])];
      return 0;
    }

    method TryExitFallback(reply: Option<Down>, ok: bool, outcome: HelloOutcome) returns (won: bool)
      requires gen in links
      modifies this
      ensures Abs() == TryExit(old(Abs()), reply, ok, outcome)
      ensures won == (old(fallback) && reply.Some? && reply.value.Announce?)
    {
      if !fallback {
        return false;
      }
      if reply.None? || !reply.value.Announce? {
        return false;
      }
      readies := readies + 1;
      fallback := false;
      var _ := PushDmabufsInternal(ok, outcome);
      return true;
    }

    method SelectBuffer(idx: int, reply: Option<Down>, ok: bool, outcome: HelloOutcome) returns (r: int)
      requires Valid(Abs())
      modifies this
      ensures Valid(Abs()) && Abs() == SelectDmabuf(old(Abs()), idx, reply, ok, outcome)
    {
      if fallback {
        var _ := TryExitFallback(reply, ok, outcome);
        if fallback {
          return 0;
        }
      }
      if idx < 0 || idx >= |stored| {
        return -1;
      }
      links := links[gen := links[gen].(index := idx)];
      links := links[gen := links[gen].(ready := links[gen].ready + 1)];
      bufferPending := true;
      return 0;
    }

    method RefreshDone(e: FenceEvent, outcome: HelloOutcome) returns (fence: Option<Fd>)
      requires Valid(Abs())
      modifies this
      ensures Valid(Abs()) && Abs() == Refresh(old(Abs()), e, outcome)
      ensures fence == if old(bufferPending) && e.Readable? && old(links[gen].fences) != [] then old(links[gen].fences[0]) else None
    {
      if !bufferPending {
        return None;
      }
      if e.Silence? {
        Fall(outcome);
        return None;
      }
      bufferPending := false;
      match e
      case EndOfFile =>
        Fall(outcome);
        return None;
      case Readable =>
        if links[gen].fences == [] {
          return None;
        }
        fence := links[gen].fences[0];
        links := links[gen := links[gen].(fences := links[gen].fences[1..])];
    }

    method PushBufferSet(bufs: seq<Buf>, ok: bool, outcome: HelloOutcome) returns (r: int)
      requires Valid(Abs())
      modifies this
      ensures Valid(Abs()) && Abs() == PushDmabufs(old(Abs()), bufs, ok, outcome)
      ensures fallback && stored == Clamp(bufs)
    {
      stored := Clamp(bufs);
      if fallback {
        return 0;
      }
      r := PushDmabufsInternal(ok, outcome);
      Fall(outcome);
    }
  }
}
