/** The producer context of display_producer.c with its fields and buffer arrays updated in
    place, proved against the functions of module Producer. */
module DisplayProducer {
  import opened Protocol
  import opened Producer

  class DisplayProducer {
    var fallback: bool
    var dataFd: Option<Fd>
    var bufReadyFd: Option<Fd>
    var fenceFd: Option<Fd>
    var shmFd: Option<Fd>
    var audioFd: Option<Fd>
    var pendingRenderFence: Option<Fd>
    var shmMapped: bool
    const dmabufFds: array<Fd>
    const dmabufInfos: array<BufInfo>
    var bufCount: nat
    ghost var taken: seq<Fd>
    ghost var closed: seq<Fd>
    ghost var given: seq<Fd>
    ghost var lost: seq<Fd>

    ghost predicate Shape()
      reads this
    {
      dmabufFds.Length == MAX_BUFS && dmabufInfos.Length == MAX_BUFS && bufCount <= MAX_BUFS
    }

    ghost function Abs(): State
      requires Shape()
      reads this, dmabufFds, dmabufInfos
    {
      State(fallback, dataFd, bufReadyFd, fenceFd, shmFd, audioFd, pendingRenderFence, shmMapped,
            dmabufFds[..bufCount], dmabufInfos[..bufCount], taken, closed, given, lost)
    }

    constructor ()
      ensures Shape() && Abs() == Initial && Valid(Abs())
      ensures fresh(dmabufFds) && fresh(dmabufInfos)
    {
      fallback, shmMapped, bufCount := true, false, 0;
      dataFd, bufReadyFd, fenceFd, shmFd, audioFd, pendingRenderFence := None, None, None, None, None, None;
      dmabufFds := new Fd[MAX_BUFS](_ => Plain(0));
      dmabufInfos := new BufInfo[MAX_BUFS](_ => BufInfo(0, 0, 0, 0, 0, 0));
      taken, closed, given, lost := [], [], [], [];
    }

    ghost method Close(fd: Option<Fd>)
      modifies this`closed
      ensures closed == old(closed) + Opt(fd)
    {
      closed := closed + Opt(fd);
    }

    method CloseSlots()
      modifies this`closed, this`dataFd, this`bufReadyFd, this`fenceFd, this`audioFd, this`pendingRenderFence, this`shmFd
      ensures closed == old(closed + Opt(dataFd) + Opt(bufReadyFd) + Opt(fenceFd) + Opt(audioFd) + Opt(pendingRenderFence) + Opt(shmFd))
      ensures dataFd.None? && bufReadyFd.None? && fenceFd.None? && audioFd.None? && pendingRenderFence.None? && shmFd.None?
    {
      Close(dataFd); dataFd := None;
      Close(bufReadyFd); bufReadyFd := None;
      Close(fenceFd); fenceFd := None;
      Close(audioFd); audioFd := None;
      Close(pendingRenderFence); pendingRenderFence := None;
      Close(shmFd); shmFd := None;
    }

    method ReleaseConsumerResources()
      requires Shape()
      modifies this
      ensures Shape() && Abs() == Release(old(Abs()))
    {
      ghost var was := Abs();
      for i := 0 to bufCount
        invariant closed == was.closed + dmabufFds[..i]
        invariant Shape() && Abs() == was.(closed := closed)
      {
        assert dmabufFds[..i + 1] == dmabufFds[..i] + [dmabufFds[i]];
        Close(Some(dmabufFds[i]));
      }
      bufCount := 0;
      CloseSlots();
      shmMapped := false;
    }

    method Fall()
      requires Shape()
      modifies this
      ensures Shape() && Abs() == EnterFallback(old(Abs()))
    {
      if fallback {
        return;
      }
      fallback := true;
      ReleaseConsumerResources();
    }

    /** What recv_fds does to the process: everything installed counts as taken. */
    method RecvFds(carried: seq<Fd>, max: nat) returns (fds: seq<Fd>)
      requires Shape()
      modifies this`taken, this`lost
      ensures fds == Returned(carried, max) && Abs() == Took(old(Abs()), carried, max)
    {
      taken := taken + Installed(carried, max);
      lost := lost + Unseen(carried, max);
      return if |carried| > max then carried[..max] else carried;
    }

    method CloseReceived(fds: seq<Fd>)
      requires Shape()
      modifies this`closed
      ensures Abs() == old(Abs()).(closed := old(closed) + fds)
    {
      for i := 0 to |fds|
        invariant closed == old(closed) + fds[..i]
      {
        assert fds[..i + 1] == fds[..i] + [fds[i]];
        Close(Some(fds[i]));
      }
      assert fds[..|fds|] == fds;
    }

    method InstallPicked(fds: seq<Fd>, mapOk: bool)
      requires Shape() && |fds| == DEPOSITED_FD_COUNT
      modifies this`bufReadyFd, this`fenceFd, this`dataFd, this`shmFd, this`audioFd, this`shmMapped
      ensures Abs() == old(Abs()).(bufReady := Some(fds[0]), fence := Some(fds[1]), data := Some(fds[2]),
                                   shm := Some(fds[3]), audio := Some(fds[4]), mapped := mapOk)
    {
      bufReadyFd := Some(fds[0]);
      fenceFd := Some(fds[1]);
      dataFd := Some(fds[2]);
      shmFd := Some(fds[3]);
      audioFd := Some(fds[4]);
      shmMapped := mapOk;
    }

    method PickupFds(r: PickupReply) returns (result: int)
      requires Shape()
      modifies this
      ensures Shape() && Abs() == Pickup(old(Abs()), r)
      ensures result == PickupResult(r)
    {
      if r.NoReply? {
        return -1;
      }
      var fds := RecvFds(r.carried, DEPOSITED_FD_COUNT);
      if !r.whole || !r.ready || r.size != 0 || |fds| != DEPOSITED_FD_COUNT {
        CloseReceived(fds);
        return -1;
      }
      InstallPicked(fds, r.mapOk);
      return if r.mapOk then 0 else -1;
    }

    method StoreBufs(fds: seq<Fd>, infos: seq<BufInfo>)
      requires Shape() && |fds| == |infos| <= MAX_BUFS
      modifies this`bufCount, dmabufFds, dmabufInfos
      ensures Shape() && Abs() == old(Abs()).(dmabufs := fds, infos := infos)
    {
      for i := 0 to |fds|
        invariant dmabufFds[..i] == fds[..i] && dmabufInfos[..i] == infos[..i]
      {
        dmabufFds[i] := fds[i];
        dmabufInfos[i] := infos[i];
      }
      bufCount := |fds|;
    }

    method ReceiveDmabufs(r: BufsReply) returns (result: int)
      requires Shape() && BufsShape(r)
      modifies this, dmabufFds, dmabufInfos
      ensures Shape() && Abs() == ReceiveBufs(old(Abs()), r)
      ensures result == ReceiveResult(old(Abs()), r)
    {
      assert bufCount > 0 <==> Abs().dmabufs != [];
      if bufCount > 0 {
        return 0;
      }
      if r.NoBufs? {
        return -1;
      }
      var fds := RecvFds(r.carried, MAX_BUFS);
      var count := r.size / BUF_INFO_BYTES;
      if !r.whole || |fds| < 1 || !r.bufsReady || r.size == 0 || r.size % BUF_INFO_BYTES != 0
         || count != |fds| || count > MAX_BUFS || !r.infosArrive {
        CloseReceived(fds);
        return -1;
      }
      StoreBufs(fds, r.infos);
      return 0;
    }

    method TryExitFallback(p: PickupReply, b: BufsReply) returns (result: int)
      requires Shape() && Valid(Abs()) && BufsShape(b)
      modifies this, dmabufFds, dmabufInfos
      ensures Shape() && Valid(Abs()) && Abs() == TryExit(old(Abs()), p, b)
      ensures result == if fallback then -1 else 0
    {
      if !fallback {
        return 0;
      }
      TryExitKeepsValid(Abs(), p, b);
      var picked := PickupFds(p);
      if picked < 0 {
        ReleaseConsumerResources();
        return -1;
      }
      var received := ReceiveDmabufs(b);
      if received < 0 {
        ReleaseConsumerResources();
        return -1;
      }
      fallback := false;
      return 0;
    }

    method StashRenderFence(fd: Option<Fd>)
      requires Shape() && Valid(Abs())
      modifies this
      ensures Shape() && Valid(Abs()) && Abs() == SetRenderFence(old(Abs()), fd)
    {
      StashBalances(Abs(), fd);
      taken := taken + Opt(fd);
      Close(pendingRenderFence);
      pendingRenderFence := fd;
    }

    method SignalRefresh(sent: bool) returns (result: int, passed: Option<Option<Fd>>)
      requires Shape() && Valid(Abs())
      modifies this
      ensures Shape() && Valid(Abs()) && Abs() == TriggerRefresh(old(Abs()), sent)
      ensures result == if old(fallback) || sent then 0 else -1
      ensures passed == Passed(old(Abs()), sent)
    {
      ghost var was := Abs();
      CallKeepsValid(was, Refresh(sent));
      var fence := pendingRenderFence;
      Close(pendingRenderFence);
      pendingRenderFence := None;
      assert Abs() == was.(closed := was.closed + Opt(was.pendingFence), pendingFence := None);
      if fallback {
        return 0, None;
      }
      if !sent {
        Fall();
        return -1, None;
      }
      return 0, Some(fence);
    }

    /** poll_input_event_extend_fds, once its poll has succeeded. */
    method PollExtendFds(good: bool, max: nat, carried: seq<Fd>) returns (got: seq<Fd>)
      requires Shape() && Valid(Abs())
      modifies this
      ensures Shape() && Valid(Abs()) && Abs() == ExtendFds(old(Abs()), good, max, carried)
      ensures got == if !old(fallback) && good then Returned(carried, max) else []
    {
      CallKeepsValid(Abs(), TakeFds(good, max, carried));
      if fallback {
        return [];
      }
      var fds := RecvFds(carried, max);
      if good {
        given := given + fds;
        return fds;
      }
      CloseReceived(fds);
      return [];
    }

    method SelectedIndex(shared: nat) returns (idx: nat)
      requires Shape() && Valid(Abs())
      ensures idx == SelectedIdx(Abs(), shared)
      ensures idx < bufCount || (idx == 0 && fallback)
    {
      if !shmMapped {
        return 0;
      }
      return if shared < bufCount then shared else 0;
    }
  }
}
