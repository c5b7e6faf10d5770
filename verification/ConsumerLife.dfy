/** What each call of the consumer library does to its connection, told from outside: which calls
    end a session, what a session's end leaves, and what goes over the descriptors of a generation. */
module ConsumerLife {
  import opened Protocol
  import opened Consumer

  /** The session of s is over: its successor's descriptors are untouched, nothing is pending, and the
      daemon has been told of them if that was possible. What earlier generations' descriptors
      hold stays as it is. */
  ghost predicate Ended(s: State, s': State, h: HelloOutcome) {
    && s'.fallback && !s'.pending && s'.gen == s.gen + 1
    && s'.conn == s.conn && s'.readies == s.readies
    && s'.links.Keys == s.links.Keys + {s'.gen}
    && s'.links[s'.gen].bufs == [] && s'.links[s'.gen].fences == [] && s'.links[s'.gen].index == 0 == s'.links[s'.gen].ready
    && (forall g :: g in s.links && g != s'.gen ==> s'.links[g] == s.links[g])
    && if h.NotSent? then s'.up == s.up
       else |s'.up| == |s.up| + 1 && s'.up[..|s.up|] == s.up
            && s'.up[|s.up|].ConsumerHello? && s'.up[|s.up|].fds == DepositOf(s.conn, s.gen + 1)
  }

  /** A new connection is in fallback with nothing selected and no set stored, and has deposited the five
      descriptors of its first generation in slot order. */
  lemma ConnectMeans(c: Conn)
    ensures var s := Connected(c);
            && Valid(s) && s.fallback && !s.pending && s.conn == c && s.gen == 1 && s.stored == [] && s.readies == 0
            && s.links == map[1 := Link([], 0, 0, [])] && |s.up| == 1 && s.up[0].ConsumerHello?
            && s.up[0].fds == [Deposited(c, 1, BufReady), Deposited(c, 1, Fence), Deposited(c, 1, Data),
                               Deposited(c, 1, Shm), Deposited(c, 1, Audio)]
  {
  }

  lemma FallEnds(s: State, h: HelloOutcome)
    requires Valid(s)
    ensures var s' := EnterFallback(s, h);
            if s.fallback then s' == s else Ended(s, s', h) && s'.stored == s.stored
  {
  }

  /** A render timeout, like a channel that its other end closed, ends the session; a message that can
      be read is taken off the channel, and nothing is pending any more. Without a request pending
      nothing happens. */
  lemma RefreshMeans(s: State, e: FenceEvent, h: HelloOutcome)
    requires Valid(s)
    ensures var s' := Refresh(s, e, h);
            && (!s.pending ==> s' == s)
            && (s.pending && !e.Readable? ==> Ended(s, s', h) && s'.stored == s.stored)
            && (s.pending && e.Readable? ==>
                 && s'.(links := s.links, pending := true) == s && !s'.pending
                 && s'.links.Keys == s.links.Keys
                 && (forall g :: g in s.links && g != s.gen ==> s'.links[g] == s.links[g])
                 && var l, l' := s.links[s.gen], s'.links[s.gen];
                    && l'.bufs == l.bufs && l'.index == l.index && l'.ready == l.ready
                    && (if l.fences == [] then l'.fences == [] else [l.fences[0]] + l'.fences == l.fences))
  {
  }

  /** An announcement found in fallback, and nothing else, starts a session, and the stored buffer set
      is the first thing on its data socket. If there is a set that cannot be sent, the session ends
      at once. */
  lemma ExitMeans(s: State, reply: Option<Down>, ok: bool, h: HelloOutcome)
    requires Valid(s)
    ensures var s' := TryExit(s, reply, ok, h);
            var up := s.(fallback := false, readies := s.readies + 1);
            if !(s.fallback && reply.Some? && reply.value.Announce?) then s' == s
            else if s.stored != [] && !ok then Ended(up, s', h) && s'.stored == s.stored
            else
              && s'.(links := s.links) == up && s'.links.Keys == s.links.Keys
              && (forall g :: g in s.links && g != s.gen ==> s'.links[g] == s.links[g])
              && var l, l' := s.links[s.gen], s'.links[s.gen];
                 && l'.index == l.index && l'.ready == l.ready && l'.fences == l.fences
                 && l'.bufs == l.bufs + if s.stored == [] then [] else [s.stored]
  {
  }

  /** A valid index while connected goes into the shared word, adds one to the eventfd and makes the
      request pending; any other index, or fallback, changes nothing. */
  lemma SelectMeans(s: State, idx: int, ok: bool, h: HelloOutcome)
    requires Valid(s)
    ensures var s' := SelectDmabuf(s, idx, None, ok, h);
            if s.fallback || !(0 <= idx < |s.stored|) then s' == s
            else
              && s'.(links := s.links, pending := s.pending) == s && s'.pending && s'.links.Keys == s.links.Keys
              && (forall g :: g in s.links && g != s.gen ==> s'.links[g] == s.links[g])
              && var l, l' := s.links[s.gen], s'.links[s.gen];
                 l'.index == idx && l'.ready == l.ready + 1 && l'.fences == l.fences && l'.bufs == l.bufs
  {
  }

  /** With an announcement there, a selection is made as if the session had begun before. */
  lemma SelectExitsFirst(s: State, idx: int, reply: Option<Down>, ok: bool, h: HelloOutcome)
    requires Valid(s)
    ensures Valid(TryExit(s, reply, ok, h))
    ensures SelectDmabuf(s, idx, reply, ok, h) == SelectDmabuf(TryExit(s, reply, ok, h), idx, None, ok, h)
  {
    ExitKeepsValid(s, reply, ok, h);
  }

  /** A new buffer set, cut to eight, is what later sessions open with; handed over while connected it
      goes out once, if it can, and the session ends. */
  lemma PushMeans(s: State, bufs: seq<Buf>, ok: bool, h: HelloOutcome)
    requires Valid(s)
    ensures var s' := PushDmabufs(s, bufs, ok, h);
            && s'.stored == bufs[..if |bufs| < MAX_BUFS then |bufs| else MAX_BUFS]
            && (s.fallback ==> s'.(stored := s.stored) == s)
            && (!s.fallback ==>
                 exists sent: State ::
                   && Ended(sent, s', h) && sent.(links := s.links, stored := s.stored) == s && sent.links.Keys == s.links.Keys
                   && (forall g :: g in s.links && g != s.gen ==> sent.links[g] == s.links[g])
                   && sent.links[s.gen] == s.links[s.gen].(bufs := sent.links[s.gen].bufs)
                   && sent.links[s.gen].bufs == s.links[s.gen].bufs + if ok && bufs != [] then [s'.stored] else [])
  {
    var s1 := s.(stored := Clamp(bufs));
    if !s.fallback {
      var pushed := if ok && bufs != [] then WithCurrent(s1, Current(s1).(bufs := Current(s1).bufs + [s1.stored])) else s1;
      FallEnds(pushed, h);
      assert Ended(pushed, PushDmabufs(s, bufs, ok, h), h);
    }
  }

  // ---- whole lives ----

  datatype Call =
    | Push(bufs: seq<Buf>, ok: bool, h: HelloOutcome)
    | Choose(idx: int, reply: Option<Down>, ok: bool, h: HelloOutcome)
    | Await(e: FenceEvent, h: HelloOutcome)
    | Lose(h: HelloOutcome)

  function Do(s: State, c: Call): State
    requires s.gen in s.links
  {
    match c
    case Push(bufs, ok, h) => PushDmabufs(s, bufs, ok, h)
    case Choose(idx, reply, ok, h) => SelectDmabuf(s, idx, reply, ok, h)
    case Await(e, h) => Refresh(s, e, h)
    case Lose(h) => EnterFallback(s, h)
  }

  /** The call ends a session: a send that failed elsewhere, a set handed over, a timeout or an end of
      file while a frame is awaited, or an opening set that cannot be sent. */
  predicate Ends(s: State, c: Call) {
    match c
    case Push(_, _, _) => !s.fallback
    case Choose(_, reply, ok, _) => s.fallback && reply.Some? && reply.value.Announce? && s.stored != [] && !ok
    case Await(e, _) => s.pending && !e.Readable?
    case Lose(_) => !s.fallback
  }

  /** A session ends exactly in those calls, and each time one generation follows. */
  lemma EndsIff(s: State, c: Call)
    requires Valid(s)
    ensures Valid(Do(s, c))
    ensures Do(s, c).gen == s.gen + OneIf(Ends(s, c))
    ensures Ends(s, c) ==> Do(s, c).fallback
    ensures |Do(s, c).up| == |s.up| + OneIf(Ends(s, c) && c.h.Sent?)
  {
    match c
    case Push(bufs, ok, h) =>
      PushKeepsValid(s, bufs, ok, h);
      PushMeans(s, bufs, ok, h);
    case Choose(idx, reply, ok, h) =>
      ExitMeans(s, reply, ok, h);
      SelectExitsFirst(s, idx, reply, ok, h);
      SelectMeans(TryExit(s, reply, ok, h), idx, ok, h);
    case Await(e, h) =>
      RefreshKeepsValid(s, e, h);
      RefreshMeans(s, e, h);
    case Lose(h) =>
      FallKeepsValid(s, h);
      FallEnds(s, h);
  }
}
