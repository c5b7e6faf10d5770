/** The producer's descriptors seen one by one, where the ledger of module Producer only counts them:
    which replies are taken over, which fence is held and passed on, and which descriptors are handed
    out, kept and closed. */
module ProducerEffects {
  import opened Protocol
  import opened Producer

  /** A pickup answered in full: the right message, nothing behind it, five descriptors and a mapping. */
  predicate Whole(p: PickupReply) {
    p.Reply? && p.whole && p.ready && p.size == 0 && |p.carried| >= 5 && p.mapOk
  }

  /** How many descriptors of a buffer set are seen. */
  function Seen(b: BufsReply): nat
    requires b.Bufs?
  {
    if |b.carried| < 8 then |b.carried| else 8
  }

  /** A buffer set with as many descriptions of 28 bytes as descriptors, at least one, all of them there. */
  predicate Matching(b: BufsReply) {
    b.Bufs? && b.whole && b.bufsReady && Seen(b) >= 1 && b.size == 28 * Seen(b) && b.infosArrive
  }

  lemma MatchingIsGood(b: BufsReply)
    ensures Matching(b) <==> BufsGood(b)
  {
    if b.Bufs? && b.size % 28 == 0 { assert b.size == 28 * (b.size / 28); }
  }

  /** A producer leaves fallback exactly with both replies in order. Then it has the five descriptors,
      each in its slot, and the whole set; otherwise it holds nothing. */
  lemma ExitMeans(s: State, p: PickupReply, b: BufsReply)
    requires Valid(s) && BufsShape(b)
    ensures var s' := TryExit(s, p, b);
            if !s.fallback then s' == s
            else if Whole(p) && Matching(b) then
              && !s'.fallback && s'.mapped && s'.closed == s.closed && s'.given == s.given && s'.pendingFence == s.pendingFence
              && s'.bufReady == Some(p.carried[0]) && s'.fence == Some(p.carried[1]) && s'.data == Some(p.carried[2])
              && s'.shm == Some(p.carried[3]) && s'.audio == Some(p.carried[4])
              && s'.dmabufs == b.carried[..Seen(b)] && s'.infos == b.infos
            else
              && s'.fallback && s'.pendingFence.None? && s'.given == s.given && forall fd :: Held(s', fd) == 0
  {
    MatchingIsGood(b);
    if s.fallback { TryExitSplits(s, p, b); }
  }

  /** A buffer set is taken over whole, or every descriptor of it is closed; while there is one already,
      or nothing comes, nothing happens. */
  lemma ReceiveMeans(s: State, b: BufsReply)
    requires BufsShape(b)
    ensures var s' := ReceiveBufs(s, b);
            && (ReceiveResult(s, b) >= 0 <==> s.dmabufs != [] || Matching(b))
            && if s.dmabufs != [] || b.NoBufs? then s' == s
               else
                 && s'.dmabufs == (if Matching(b) then b.carried[..Seen(b)] else [])
                 && s'.infos == (if Matching(b) then b.infos else s.infos)
                 && s'.closed == s.closed + (if Matching(b) then [] else b.carried[..Seen(b)])
                 && s' == s.(dmabufs := s'.dmabufs, infos := s'.infos, closed := s'.closed, taken := s'.taken, lost := s'.lost)
  {
    MatchingIsGood(b);
  }

  /** Whatever the shared word holds, a connected producer reads a buffer it has: the selected one if
      there is such a buffer, and the first one otherwise. */
  lemma SelectionMeans(s: State, index: nat)
    requires Valid(s)
    ensures !s.fallback ==> SelectedIdx(s, index) < |s.dmabufs|
    ensures SelectedIdx(s, index) == index <==> index == 0 || (!s.fallback && index < |s.dmabufs|)
    ensures SelectedIdx(s, index) == index || SelectedIdx(s, index) == 0
  {
  }

  /** The new fence is held, and exactly the one it replaces is closed. */
  lemma StashMeans(s: State, fd: Option<Fd>)
    ensures var s' := SetRenderFence(s, fd);
            && s'.pendingFence == fd
            && s'.closed == (if s.pendingFence.Some? then s.closed + [s.pendingFence.value] else s.closed)
            && s'.taken == (if fd.Some? then s.taken + [fd.value] else s.taken)
            && s'.(pendingFence := s.pendingFence, closed := s.closed, taken := s.taken) == s
  {
  }

  /** The held fence goes out with the message, if one goes out, and our copy of it is closed in any
      case; a message that cannot be sent ends in fallback. */
  lemma RefreshMeans(s: State, sent: bool)
    requires Valid(s)
    ensures var s' := TriggerRefresh(s, sent);
            && s'.pendingFence.None? && s'.taken == s.taken && s'.given == s.given
            && Passed(s, sent) == (if !s.fallback && sent then Some(s.pendingFence) else None)
            && (s.pendingFence.Some? ==> |s'.closed| > |s.closed| && s'.closed[..|s.closed|] == s.closed
                                         && s'.closed[|s.closed|] == s.pendingFence.value)
            && (s.fallback || sent ==>
                 && s'.(pendingFence := s.pendingFence, closed := s.closed) == s
                 && |s'.closed| == |s.closed| + OneIf(s.pendingFence.Some?))
            && (!s.fallback && !sent ==> s'.fallback)
  {
  }

  lemma NothingHeld(s: State, fd: Fd)
    ensures Held(Release(s), fd) == 0
  {
  }

  /** A peer that is gone ends the session: of every descriptor exactly what was held is closed. */
  lemma LossMeans(s: State, fd: Fd)
    requires Valid(s)
    ensures var s' := EnterFallback(s);
            if s.fallback then s' == s
            else
              && s'.fallback && s'.taken == s.taken && s'.given == s.given && s'.lost == s.lost
              && Held(s', fd) == 0 && multiset(s'.closed)[fd] == multiset(s.closed)[fd] + Held(s, fd)
  {
    if !s.fallback {
      var down := s.(fallback := true);
      NothingHeld(down, fd);
      CloseAllCounts(s.closed, down, fd);
      assert EnterFallback(s) == Release(down) && Held(down, fd) == Held(s, fd);
      hide Held, CloseAll;
    }
  }

  /** Descriptors that come with a good header go to the caller and stay open; with a bad one they are
      closed and none is handed out. */
  lemma TakeMeans(s: State, good: bool, max: nat, carried: seq<Fd>)
    requires !s.fallback
    ensures var s', fds := ExtendFds(s, good, max, carried), carried[..if |carried| < max then |carried| else max];
            && s'.given == s.given + (if good then fds else [])
            && s'.closed == s.closed + (if good then [] else fds)
            && s'.(given := s.given, closed := s.closed, taken := s.taken, lost := s.lost) == s
  {
  }

  // ---- over runs ----

  /** The session ends in the call, or an attempt to begin one fails, and what was held is closed. */
  predicate Drops(s: State, c: Call)
    requires c.ExitFallback? ==> BufsShape(c.b)
  {
    match c
    case ExitFallback(p, b) => s.fallback && Do(s, c).fallback
    case Refresh(_) => true
    case PeerLost => !s.fallback
    case Force => !s.fallback
    case _ => false
  }

  /** The fence handed in last, unless it was sent or dropped since. */
  function LastStashed(calls: seq<Call>): Option<Fd>
    requires Shaped(calls)
  {
    if calls == [] then None
    else
      var k := |calls| - 1;
      if calls[k].StashFence? then calls[k].fd
      else if Drops(Run(calls[..k]), calls[k]) then None
      else LastStashed(calls[..k])
  }

  lemma CallFence(s: State, c: Call)
    requires Valid(s) && (c.ExitFallback? ==> BufsShape(c.b))
    ensures Do(s, c).pendingFence == if c.StashFence? then c.fd else if Drops(s, c) then None else s.pendingFence
  {
    match c
    case ExitFallback(p, b) => if s.fallback { TryExitSplits(s, p, b); }
    case StashFence(fd) => StashMeans(s, fd);
    case Refresh(sent) => RefreshMeans(s, sent);
    case _ =>
  }

  /** Over any run the fence held is the one handed in last, if it was neither sent nor dropped since. */
  lemma {:induction false} HeldIsLastStashed(calls: seq<Call>)
    requires Shaped(calls)
    ensures Run(calls).pendingFence == LastStashed(calls)
  {
    if calls != [] {
      var k := |calls| - 1;
      HeldIsLastStashed(calls[..k]);
      DescriptorLedger(calls[..k]);
      CallFence(Run(calls[..k]), calls[k]);
    }
  }

  /** So every render-done message carries the fence handed in last for its frame, or none. */
  lemma MessageCarriesLast(calls: seq<Call>, sent: bool)
    requires Shaped(calls)
    ensures Passed(Run(calls), sent) == if !Run(calls).fallback && sent then Some(LastStashed(calls)) else None
  {
    HeldIsLastStashed(calls);
  }
}
