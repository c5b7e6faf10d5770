/** The producer's side of the connection in display_producer.c (Arch variant): two-step exit
    from fallback, descriptor slots, and the ledger of every descriptor that passes through. */
module Producer {
  import opened Protocol

  const BUF_INFO_BYTES := 28

  /** What pickup_fds gets back: nothing (send failed, timeout, socket gone) or one message, which
      may carry any number of descriptors. */
  datatype PickupReply = NoReply | Reply(whole: bool, ready: bool, size: nat, carried: seq<Fd>, mapOk: bool)

  /** What receive_dmabufs gets: nothing (timeout, hangup, error) or a header with descriptors
      and, if it arrives, `size` bytes of buffer descriptions. */
  datatype BufsReply = NoBufs | Bufs(whole: bool, bufsReady: bool, size: nat, carried: seq<Fd>, infosArrive: bool, infos: seq<BufInfo>)

  /** `taken` logs every descriptor received or handed in, `closed` every one closed, `given`
      every one passed on to the caller and `lost` those that came in unseen. */
  datatype State = State(
    fallback: bool,
    data: Option<Fd>,
    bufReady: Option<Fd>,
    fence: Option<Fd>,
    shm: Option<Fd>,
    audio: Option<Fd>,
    pendingFence: Option<Fd>,
    mapped: bool,
    dmabufs: seq<Fd>,
    infos: seq<BufInfo>,
    taken: seq<Fd>,
    closed: seq<Fd>,
    given: seq<Fd>,
    lost: seq<Fd>)

  const Initial := State(true, None, None, None, None, None, None, false, [], [], [], [], [], [])

  function Opt(fd: Option<Fd>): seq<Fd> {
    if fd.Some? then [fd.value] else []
  }

  /** The log after closing everything the context holds, in the order the code closes it. */
  function CloseAll(closed: seq<Fd>, s: State): seq<Fd> {
    closed + s.dmabufs + Opt(s.data) + Opt(s.bufReady) + Opt(s.fence) + Opt(s.audio) + Opt(s.pendingFence) + Opt(s.shm)
  }

  function Release(s: State): State {
    s.(closed := CloseAll(s.closed, s), dmabufs := [], infos := [], data := None, bufReady := None,
       fence := None, audio := None, pendingFence := None, mapped := false, shm := None)
  }

  function EnterFallback(s: State): State {
    if s.fallback then s else Release(s.(fallback := true))
  }

  function Took(s: State, carried: seq<Fd>, max: nat): State {
    s.(taken := s.taken + Installed(carried, max), lost := s.lost + Unseen(carried, max))
  }

  function Picked(r: PickupReply): seq<Fd>
    requires r.Reply?
  {
    Returned(r.carried, DEPOSITED_FD_COUNT)
  }

  predicate PickupGood(r: PickupReply) {
    r.Reply? && r.whole && r.ready && r.size == 0 && |Picked(r)| == DEPOSITED_FD_COUNT
  }

  function Pickup(s: State, r: PickupReply): State {
    if r.NoReply? then s
    else
      var t, fds := Took(s, r.carried, DEPOSITED_FD_COUNT), Picked(r);
      if !PickupGood(r) then t.(closed := t.closed + fds)
      else t.(bufReady := Some(fds[0]), fence := Some(fds[1]), data := Some(fds[2]),
              shm := Some(fds[3]), audio := Some(fds[4]), mapped := r.mapOk)
  }

  function PickupResult(r: PickupReply): int {
    if PickupGood(r) && r.mapOk then 0 else -1
  }

  function Buffers(r: BufsReply): seq<Fd>
    requires r.Bufs?
  {
    Returned(r.carried, MAX_BUFS)
  }

  predicate BufsGood(r: BufsReply) {
    && r.Bufs? && r.whole && |Buffers(r)| >= 1 && r.bufsReady
    && r.size != 0 && r.size % BUF_INFO_BYTES == 0
    && r.size / BUF_INFO_BYTES == |Buffers(r)|
    && r.infosArrive
  }

  /** The description bytes that arrive are the ones the header announces. */
  predicate BufsShape(r: BufsReply) {
    r.Bufs? ==> |r.infos| == r.size / BUF_INFO_BYTES
  }

  function ReceiveBufs(s: State, r: BufsReply): State
    requires BufsShape(r)
  {
    if s.dmabufs != [] || r.NoBufs? then s
    else
      var t := Took(s, r.carried, MAX_BUFS);
      if BufsGood(r) then t.(dmabufs := Buffers(r), infos := r.infos) else t.(closed := t.closed + Buffers(r))
  }

  function ReceiveResult(s: State, r: BufsReply): int {
    if s.dmabufs != [] || BufsGood(r) then 0 else -1
  }

  function TryExit(s: State, p: PickupReply, b: BufsReply): State
    requires BufsShape(b)
  {
    if !s.fallback then s
    else
      var picked := Pickup(s, p);
      if PickupResult(p) < 0 then Release(picked)
      else
        var received := ReceiveBufs(picked, b);
        if ReceiveResult(picked, b) < 0 then Release(received)
        else received.(fallback := false)
  }

  function SetRenderFence(s: State, fd: Option<Fd>): State {
    s.(taken := s.taken + Opt(fd), closed := s.closed + Opt(s.pendingFence), pendingFence := fd)
  }

  function TriggerRefresh(s: State, sent: bool): State {
    var spent := s.(closed := s.closed + Opt(s.pendingFence), pendingFence := None);
    if s.fallback || sent then spent else EnterFallback(spent)
  }

  /** The render-done message that goes out, if one does: the stashed fence, or a bare byte. */
  function Passed(s: State, sent: bool): Option<Option<Fd>> {
    if s.fallback || !sent then None else Some(s.pendingFence)
  }

  /** poll_input_event_extend_fds after its poll succeeded: `good` says a whole header of the
      expected type arrived, `max` is the number of descriptors asked for. */
  function ExtendFds(s: State, good: bool, max: nat, carried: seq<Fd>): State {
    if s.fallback then s
    else
      var t, fds := Took(s, carried, max), Returned(carried, max);
      if good then t.(given := t.given + fds) else t.(closed := t.closed + fds)
  }

  function SelectedIdx(s: State, index: nat): nat {
    if !s.mapped then 0 else if index < |s.dmabufs| then index else 0
  }

  /** Connected means everything is in hand; fallback means nothing is but perhaps a stashed
      render fence. */
  ghost predicate Valid(s: State) {
    && (s.fallback ==> s.data.None? && s.bufReady.None? && s.fence.None? && s.shm.None? && s.audio.None?
                       && !s.mapped && s.dmabufs == [] && s.infos == [])
    && (!s.fallback ==> s.data.Some? && s.bufReady.Some? && s.fence.Some? && s.shm.Some? && s.audio.Some?
                        && s.mapped && 1 <= |s.dmabufs| == |s.infos| <= MAX_BUFS)
    && Balanced(s)
  }

  /** Every descriptor that ever came in is held in one slot, was closed once, was passed on or
      came in unseen. */
  ghost predicate Balanced(s: State) {
    forall fd :: BalancedAt(s, fd)
  }

  ghost predicate BalancedAt(s: State, fd: Fd) {
    multiset(s.taken)[fd] == Held(s, fd) + multiset(s.closed)[fd] + multiset(s.given)[fd] + multiset(s.lost)[fd]
  }

  /** In how many places the context holds `fd`, its control socket aside. */
  function Held(s: State, fd: Fd): nat {
    multiset(s.dmabufs)[fd] + One(s.data, fd) + One(s.bufReady, fd) + One(s.fence, fd)
    + One(s.audio, fd) + One(s.pendingFence, fd) + One(s.shm, fd)
  }

  datatype Call =
    | ExitFallback(p: PickupReply, b: BufsReply)
    | StashFence(fd: Option<Fd>)
    | Refresh(sent: bool)
    | TakeFds(good: bool, max: nat, carried: seq<Fd>)
    | PeerLost
    | Force

  function Do(s: State, c: Call): State
    requires c.ExitFallback? ==> BufsShape(c.b)
  {
    match c
    case ExitFallback(p, b) => TryExit(s, p, b)
    case StashFence(fd) => SetRenderFence(s, fd)
    case Refresh(sent) => TriggerRefresh(s, sent)
    case TakeFds(good, max, carried) => ExtendFds(s, good, max, carried)
    case PeerLost => EnterFallback(s)
    case Force => EnterFallback(s)
  }

  lemma CloseAllCounts(closed: seq<Fd>, s: State, fd: Fd)
    ensures multiset(CloseAll(closed, s))[fd] == multiset(closed)[fd] + Held(s, fd)
  {
    assert forall o: Option<Fd> :: multiset(Opt(o))[fd] == One(o, fd);
  }

  lemma ReleaseBalances(s: State)
    requires Balanced(s)
    ensures Balanced(Release(s))
  {
    forall fd ensures BalancedAt(Release(s), fd) {
      assert BalancedAt(s, fd);
      CloseAllCounts(s.closed, s, fd);
    }
  }

  lemma AppendCounts(fds: seq<Fd>, i: nat, fd: Fd)
    requires i < |fds|
    ensures multiset(fds[..i + 1])[fd] == multiset(fds[..i])[fd] + One(Some(fds[i]), fd)
  {
    assert fds[..i + 1] == fds[..i] + [fds[i]];
  }

  lemma FiveSlots(fds: seq<Fd>, fd: Fd)
    requires |fds| == DEPOSITED_FD_COUNT
    ensures multiset(fds)[fd] == One(Some(fds[0]), fd) + One(Some(fds[1]), fd) + One(Some(fds[2]), fd)
                                 + One(Some(fds[3]), fd) + One(Some(fds[4]), fd)
  {
    AppendCounts(fds, 0, fd);
    AppendCounts(fds, 1, fd);
    AppendCounts(fds, 2, fd);
    AppendCounts(fds, 3, fd);
    AppendCounts(fds, 4, fd);
    assert fds[..5] == fds && fds[..0] == [];
  }

  /** What recv_fds returns is what is left to account for. */
  lemma TookCounts(s: State, carried: seq<Fd>, max: nat, fd: Fd)
    requires BalancedAt(s, fd)
    ensures var t := Took(s, carried, max);
            multiset(t.taken)[fd] == multiset(Returned(carried, max))[fd]
                                     + Held(t, fd) + multiset(t.closed)[fd] + multiset(t.given)[fd] + multiset(t.lost)[fd]
  {
    var t := Took(s, carried, max);
    assert multiset(t.taken) == multiset(s.taken) + multiset(Installed(carried, max));
    assert multiset(Installed(carried, max)) == multiset(Returned(carried, max)) + multiset(Unseen(carried, max));
    assert multiset(t.lost) == multiset(s.lost) + multiset(Unseen(carried, max));
  }

  lemma PickupBalances(s: State, r: PickupReply)
    requires Valid(s) && s.fallback
    ensures Balanced(Pickup(s, r))
  {
    forall fd ensures BalancedAt(Pickup(s, r), fd) {
      assert BalancedAt(s, fd);
      if r.Reply? { TookCounts(s, r.carried, DEPOSITED_FD_COUNT, fd); }
      if PickupGood(r) { FiveSlots(Picked(r), fd); }
    }
  }

  lemma StoringBalances(t: State, fds: seq<Fd>, infos: seq<BufInfo>, fd: Fd)
    requires t.dmabufs == []
    requires multiset(t.taken)[fd] == multiset(fds)[fd]
                                      + Held(t, fd) + multiset(t.closed)[fd] + multiset(t.given)[fd] + multiset(t.lost)[fd]
    ensures BalancedAt(t.(dmabufs := fds, infos := infos), fd)
    ensures BalancedAt(t.(closed := t.closed + fds), fd)
  {
  }

  lemma ReceiveBalances(s: State, r: BufsReply)
    requires Balanced(s) && BufsShape(r)
    ensures Balanced(ReceiveBufs(s, r))
  {
    if s.dmabufs == [] && r.Bufs? {
      forall fd ensures BalancedAt(ReceiveBufs(s, r), fd) {
        assert BalancedAt(s, fd);
        TookCounts(s, r.carried, MAX_BUFS, fd);
        StoringBalances(Took(s, r.carried, MAX_BUFS), Buffers(r), r.infos, fd);
      }
    }
  }

  /** The two ways TryExit can go: everything installed, or everything released. */
  lemma TryExitSplits(s: State, p: PickupReply, b: BufsReply)
    requires s.fallback && s.dmabufs == [] && BufsShape(b)
    ensures var picked := Pickup(s, p);
            if PickupGood(p) && p.mapOk && BufsGood(b) then TryExit(s, p, b) == ReceiveBufs(picked, b).(fallback := false)
            else TryExit(s, p, b) == Release(picked) || TryExit(s, p, b) == Release(ReceiveBufs(picked, b))
  {
  }

  lemma TryExitKeepsValid(s: State, p: PickupReply, b: BufsReply)
    requires Valid(s) && s.fallback && BufsShape(b)
    ensures Valid(TryExit(s, p, b))
  {
    var picked := Pickup(s, p);
    PickupBalances(s, p);
    ReceiveBalances(picked, b);
    TryExitSplits(s, p, b);
    if PickupGood(p) && p.mapOk && BufsGood(b) {
      var received := ReceiveBufs(picked, b);
      forall fd ensures BalancedAt(received.(fallback := false), fd) { assert BalancedAt(received, fd); }
    } else {
      ReleaseBalances(picked);
      ReleaseBalances(ReceiveBufs(picked, b));
    }
  }

  lemma StashBalances(s: State, fd: Option<Fd>)
    requires Balanced(s)
    ensures Balanced(SetRenderFence(s, fd))
  {
    forall f ensures BalancedAt(SetRenderFence(s, fd), f) {
      assert BalancedAt(s, f);
    }
  }

  lemma TakeBalances(s: State, good: bool, max: nat, carried: seq<Fd>)
    requires Balanced(s)
    ensures Balanced(ExtendFds(s, good, max, carried))
  {
    forall f ensures BalancedAt(ExtendFds(s, good, max, carried), f) {
      assert BalancedAt(s, f);
      TookCounts(s, carried, max, f);
    }
  }

  lemma FallKeepsValid(s: State)
    requires Valid(s)
    ensures Valid(EnterFallback(s))
  {
    if !s.fallback {
      forall fd ensures BalancedAt(s.(fallback := true), fd) { assert BalancedAt(s, fd); }
      ReleaseBalances(s.(fallback := true));
    }
  }

  lemma CallKeepsValid(s: State, c: Call)
    requires Valid(s) && (c.ExitFallback? ==> BufsShape(c.b))
    ensures Valid(Do(s, c))
  {
    match c
    case ExitFallback(p, b) => if s.fallback { TryExitKeepsValid(s, p, b); }
    case StashFence(fd) => StashBalances(s, fd);
    case Refresh(sent) =>
      StashBalances(s, None);
      FallKeepsValid(SetRenderFence(s, None));
      assert s.taken + [] == s.taken;
    case TakeFds(good, max, carried) => TakeBalances(s, good, max, carried);
    case PeerLost => FallKeepsValid(s);
    case Force => FallKeepsValid(s);
  }

  predicate Shaped(calls: seq<Call>) {
    forall k :: 0 <= k < |calls| && calls[k].ExitFallback? ==> BufsShape(calls[k].b)
  }

  function Run(calls: seq<Call>): State
    requires Shaped(calls)
  {
    if calls == [] then Initial else Do(Run(calls[..|calls| - 1]), calls[|calls| - 1])
  }

  /** Over any sequence of calls: every descriptor that came in is held once, closed once, passed on
      or in the log of those that came in unseen; fallback holds at most a stashed fence, and a connected context holds all five descriptors, the mapping and the
      complete buffer set. */
  lemma {:induction false} DescriptorLedger(calls: seq<Call>)
    requires Shaped(calls)
    ensures Valid(Run(calls))
    ensures Run(calls).fallback ==> forall fd :: Held(Run(calls), fd) == One(Run(calls).pendingFence, fd)
  {
    if calls != [] {
      DescriptorLedger(calls[..|calls| - 1]);
      CallKeepsValid(Run(calls[..|calls| - 1]), calls[|calls| - 1]);
    }
  }

  /** A message is read that carries more descriptors than there is an odd number of places for. */
  predicate Overfull(s: State, c: Call) {
    match c
    case ExitFallback(p, _) => s.fallback && p.Reply? && |p.carried| > DEPOSITED_FD_COUNT
    case TakeFds(_, max, carried) => !s.fallback && max % 2 == 1 && |carried| > max
    case _ => false
  }

  predicate OverfullAt(calls: seq<Call>, k: nat)
    requires Shaped(calls) && k < |calls|
  {
    Overfull(Run(calls[..k]), calls[k])
  }

  lemma LosesIffOverfull(s: State, c: Call)
    requires c.ExitFallback? ==> BufsShape(c.b)
    ensures Do(s, c).lost == s.lost <==> !Overfull(s, c)
    ensures |s.lost| <= |Do(s, c).lost|
  {
    if c.ExitFallback? && s.fallback {
      var picked := Pickup(s, c.p);
      assert ReceiveBufs(picked, c.b).lost == picked.lost;
      assert picked.lost == s.lost <==> !Overfull(s, c);
    }
  }

  ghost predicate AllFit(calls: seq<Call>)
    requires Shaped(calls)
  {
    forall k :: 0 <= k < |calls| ==> !OverfullAt(calls, k)
  }

  lemma AllFitStep(calls: seq<Call>, k: nat)
    requires Shaped(calls) && |calls| == k + 1
    ensures AllFit(calls) <==> AllFit(calls[..k]) && !OverfullAt(calls, k)
  {
    forall j | 0 <= j < k ensures OverfullAt(calls, j) == OverfullAt(calls[..k], j) {
      assert calls[..k][..j] == calls[..j];
    }
  }

  /** Descriptors come in unseen exactly if the peer sends more than the library asks for: more
      than five with a pickup, or more than an odd number with a resource. */
  lemma {:induction false} NothingLostIff(calls: seq<Call>)
    requires Shaped(calls)
    ensures Run(calls).lost == [] <==> AllFit(calls)
  {
    if calls != [] {
      var k := |calls| - 1;
      NothingLostIff(calls[..k]);
      AllFitStep(calls, k);
      LosesIffOverfull(Run(calls[..k]), calls[k]);
    }
  }

  /** The input: a pickup answered with six descriptors. */
  lemma SixthIsLost(six: seq<Fd>)
    requires |six| == 6
    ensures Run([ExitFallback(Reply(true, true, 0, six, true), NoBufs)]).lost == [six[5]]
  {
    var calls := [ExitFallback(Reply(true, true, 0, six, true), NoBufs)];
    assert calls[..0] == [];
    var picked := Pickup(Initial, calls[0].p);
    assert picked.lost == [six[5]];
    assert Run(calls) == TryExit(Initial, calls[0].p, NoBufs) == Release(ReceiveBufs(picked, NoBufs));
  }

  /** A successful exit puts each picked-up descriptor into the slot its position names, and
      takes over exactly the buffer set that was sent. */
  lemma ExitInstallsByPosition(s: State, p: PickupReply, b: BufsReply)
    requires s.fallback && s.dmabufs == [] && BufsShape(b) && !TryExit(s, p, b).fallback
    ensures var s' := TryExit(s, p, b);
            && PickupGood(p) && BufsGood(b)
            && [s'.bufReady, s'.fence, s'.data, s'.shm, s'.audio]
               == [Some(p.carried[0]), Some(p.carried[1]), Some(p.carried[2]), Some(p.carried[3]), Some(p.carried[4])]
            && s'.dmabufs == Buffers(b) && s'.infos == b.infos
  {
    TryExitSplits(s, p, b);
  }
}
