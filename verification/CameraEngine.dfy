/** The camera engine with its array of camera structures updated in place, proved against the
    functions of modules CameraStream and Camera. */
module CameraEngine {
  import opened Protocol
  import opened CameraStream
  import opened Camera

  function ReceiveAll(e: Engine, i: nat, ms: seq<(StreamMsg, Option<Fd>)>): Engine
    requires i < |e.cams|
    ensures |ReceiveAll(e, i, ms).cams| == |e.cams|
  {
    if ms == [] then e else Receive(ReceiveAll(e, i, ms[..|ms| - 1]), i, ms[|ms| - 1].0, ms[|ms| - 1].1)
  }

  class CameraEngine {
    const cams: array<Cam>
    var started: bool
    var pwConnected: bool
    var ctrlFd: Option<Fd>
    var numCameras: nat
    var ctrlLog: seq<Ctrl>
    ghost var taken: seq<Fd>
    ghost var closed: seq<Fd>

    ghost function Abs(): Engine
      reads this, cams
    {
      Engine(started, pwConnected, ctrlFd, numCameras, cams[..], ctrlLog, taken, closed)
    }

    ghost predicate Shape()
      reads this
    {
      cams.Length == MAX_CAMERAS && numCameras <= MAX_CAMERAS
    }

    constructor ()
      ensures Shape() && Abs() == Initial && fresh(cams)
    {
      cams := new Cam[MAX_CAMERAS](_ => Fresh);
      started, pwConnected, ctrlFd, numCameras, ctrlLog := false, false, None, 0, [];
      taken, closed := [], [];
      new;
      assert cams[..] == FreshCams();
    }

    ghost method Close(fd: Option<Fd>)
      modifies this`closed
      ensures closed == Log(old(closed), fd)
    {
      closed := Log(closed, fd);
    }

    method SendCtrl(m: Ctrl)
      requires ctrlFd.Some?
      modifies this`ctrlLog
      ensures ctrlLog == old(ctrlLog) + [m]
    {
      ctrlLog := ctrlLog + [m];
    }

    method UpdateRecording(i: nat)
      requires i < cams.Length
      modifies this`ctrlLog, cams
      ensures cams[..] == old(cams[..])[i := UpdateCam(old(cams[i]), ctrlFd)]
      ensures ctrlLog == UpdateLog(old(ctrlLog), old(cams[i]), i, ctrlFd)
    {
      var c := cams[i];
      var want := c.streaming && c.streamFd.Some? && ctrlFd.Some?;
      if want == c.recording {
        return;
      }
      if want {
        SendCtrl(Start(i, c));
        c := RequestShm(c);
      } else if ctrlFd.Some? {
        SendCtrl(StopRecord(i));
      }
      cams[i] := c.(recording := want);
    }

    method AttachFd(i: nat, fd: Option<Fd>)
      requires i < cams.Length
      modifies this`ctrlLog, this`taken, this`closed, cams
      ensures Abs() == Attach(old(Abs()), i, old(cams[i]), fd)
    {
      ghost var was := cams[..];
      var c := cams[i];
      taken := Log(taken, fd);
      Close(c.streamFd);
      Close(c.shmFd);
      cams[i] := UnmapShm(c).(io := fd.Some?, streamFd := fd, out := [], haveFrame := false);
      UpdateRecording(i);
      cams[i] := RequestShm(cams[i]);
      assert cams[..] == was[i := RequestShm(UpdateCam(Pointed(c, fd), ctrlFd))];
    }

    /** Replacing a structure first makes no difference to what attaching leaves. */
    lemma ReplacedFirst(e: Engine, i: nat, c: Cam, fd: Option<Fd>)
      requires i < |e.cams|
      ensures Attach(e.(cams := e.cams[i := c]), i, c, fd) == Attach(e, i, c, fd)
    {
      var r := Attach(e, i, c, fd);
      assert e.cams[i := c][i := r.cams[i]] == e.cams[i := r.cams[i]];
    }

    /** detach_fd of a camera whose structure has just been changed. */
    method SetAndAttach(i: nat, c: Cam, fd: Option<Fd>)
      requires i < cams.Length
      modifies this`ctrlLog, this`taken, this`closed, cams
      ensures Abs() == Attach(old(Abs()), i, c, fd)
    {
      ghost var was := Abs();
      cams[i] := c;
      assert cams[..] == was.cams[i := c];
      ReplacedFirst(was, i, c, fd);
      AttachFd(i, fd);
    }

    method PopExcess(from: nat)
      requires Shape() && from <= MAX_CAMERAS
      modifies this`ctrlLog, this`taken, this`closed, cams
      ensures Abs() == Pop(old(Abs()), from, numCameras)
    {
      var i := from;
      while i < numCameras
        invariant from <= i <= MAX_CAMERAS && (i <= numCameras || i == from)
        invariant Abs() == Pop(old(Abs()), from, i)
      {
        SetAndAttach(i, DestroyNode(cams[i]), None);
        i := i + 1;
      }
      assert i == numCameras || Pop(old(Abs()), from, numCameras) == old(Abs());
    }

    method AttachDelivered(ds: seq<Delivery>)
      requires Shape() && |ds| <= MAX_CAMERAS
      modifies this`ctrlLog, this`taken, this`closed, cams
      ensures Abs() == AttachAll(old(Abs()), ds)
    {
      for i := 0 to |ds|
        invariant Abs() == AttachAll(old(Abs()), ds[..i])
      {
        assert ds[..i + 1][..i] == ds[..i];
        SetAndAttach(i, Delivered(cams[i], ds[i]), Some(ds[i].fd));
      }
      assert ds[..|ds|] == ds;
    }

    method SetResourceFds(startOk: bool, pwOk: bool, ctrl: Fd, ds: seq<Delivery>)
      requires Shape()
      modifies this, cams
      ensures Shape() && Abs() == SetResources(old(Abs()), startOk, pwOk, ctrl, ds)
    {
      if !started {
        if !startOk {
          taken := taken + [ctrl] + Fds(ds);
          closed := closed + [ctrl] + Fds(ds);
          return;
        }
        started := true;
        pwConnected := pwOk;
      }
      var delivered := if |ds| > MAX_CAMERAS then ds[..MAX_CAMERAS] else ds;
      ghost var running := Abs();
      taken := taken + [ctrl];
      Close(ctrlFd);
      ctrlFd := Some(ctrl);
      ctrlLog := [];
      assert Abs() == Swap(running, ctrl);
      PopExcess(|delivered|);
      numCameras := |delivered|;
      AttachDelivered(delivered);
      taken := taken + Fds(Excess(ds));
    }

    method ClearResources()
      requires Shape()
      modifies this, cams
      ensures Shape() && Abs() == Clear(old(Abs()))
    {
      if !started {
        return;
      }
      Close(ctrlFd);
      ctrlFd := None;
      ctrlLog := [];
      ghost var cut := Abs();
      for i := 0 to numCameras
        invariant Shape() && numCameras == cut.num && Abs() == ClearUpTo(cut, i)
      {
        SetAndAttach(i, cams[i].(recording := false), None);
      }
    }

    method OnStateChanged(i: nat, streaming: bool)
      requires Shape() && i < cams.Length
      modifies this`ctrlLog, cams
      ensures Abs() == StateChanged(old(Abs()), i, streaming)
    {
      if streaming == cams[i].streaming {
        return;
      }
      ghost var was := cams[..];
      cams[i] := cams[i].(streaming := streaming);
      ghost var c := cams[i];
      UpdateRecording(i);
      assert cams[..] == was[i := UpdateCam(c, ctrlFd)];
    }

    /** READY: copy the slot out if it can be read, then always release it. */
    static method HandleReadyMsg(c0: Cam, slot: Byte, fmt: nat, w: Word, h: Word, mem: Memory, growOk: bool) returns (c: Cam)
      requires CamOk(c0)
      ensures CamOk(c) && c == HandleReady(c0, slot, fmt, w, h, mem, growOk)
    {
      ReadyKeeps(c0, slot, fmt, w, h, mem, growOk);
      c := c0;
      var bytes := CopyBytes(c, w, h);
      if c.mapped && slot < CAMERA_SLOTS {
        var capacity := if |c.frame| < bytes && growOk then bytes else |c.frame|;
        if capacity >= bytes && bytes > 0 {
          assert slot * c.slotBytes + bytes <= c.shmBytes by {
            CopyStaysInSlot(c0, slot, fmt, w, h, mem, growOk);
          }
          c := c.(frame := Overwritten(c.frame, mem, slot * c.slotBytes, bytes), frameSize := bytes, haveFrame := true);
        }
      }
      c := SendStream(c, Done(slot));
      c := Renegotiate(c, w, h, fmt);
    }

    method HandleStreamMsg(i: nat, m: StreamMsg, rfd: Option<Fd>)
      requires Shape() && i < cams.Length && CamOk(cams[i])
      modifies this`taken, this`closed, cams
      ensures Abs() == Receive(old(Abs()), i, m, rfd) && CamOk(cams[i])
    {
      hide CamOk, HandleReady;
      ghost var was := cams[..];
      var c := cams[i];
      HandleMsgKeeps(c, m, rfd);
      taken := Log(taken, rfd);
      match m {
        case Offer(slotBytes, mapOk) =>
          if rfd.Some? {
            Close(c.shmFd);
            cams[i] := HandleOffer(c, rfd, slotBytes, mapOk);
            if cams[i].shmFd.None? {
              Close(rfd);
            }
          }
        case Ready(slot, fmt, w, h, mem, growOk) =>
          Close(rfd);
          var r := HandleReadyMsg(c, slot, fmt, w, h, mem, growOk);
          cams[i] := r;
        case _ =>
          Close(rfd);
      }
      assert cams[..] == was[i := HandleMsg(c, m, rfd)];
    }

    method OnStreamReadable(i: nat, ms: seq<(StreamMsg, Option<Fd>)>)
      requires Shape() && i < cams.Length && CamOk(cams[i])
      modifies this`taken, this`closed, cams
      ensures Abs() == ReceiveAll(old(Abs()), i, ms) && CamOk(cams[i])
    {
      for k := 0 to |ms|
        invariant Abs() == ReceiveAll(old(Abs()), i, ms[..k]) && CamOk(cams[i])
      {
        assert ms[..k + 1][..k] == ms[..k];
        HandleStreamMsg(i, ms[k].0, ms[k].1);
      }
      assert ms[..|ms|] == ms;
    }

    /** teardown_pw, then create_nodes if the connection is back. */
    method OnReconnectTimer(ok: bool, nodes: seq<bool>)
      requires Shape() && |nodes| == MAX_CAMERAS
      modifies this`pwConnected, cams
      ensures Abs() == Reconnect(old(Abs()), ok, nodes)
    {
      if pwConnected {
        return;
      }
      for i := 0 to MAX_CAMERAS
        invariant forall j :: 0 <= j < i ==> cams[j] == DestroyNode(old(cams[j]))
        invariant forall j :: i <= j < MAX_CAMERAS ==> cams[j] == old(cams[j])
      {
        cams[i] := DestroyNode(cams[i]);
      }
      pwConnected := ok;
      if ok {
        for i := 0 to numCameras
          invariant pwConnected
          invariant forall j :: 0 <= j < i ==> cams[j] == Rebuild(old(cams[j]), true, nodes[j])
          invariant forall j :: i <= j < MAX_CAMERAS ==> cams[j] == DestroyNode(old(cams[j]))
        {
          cams[i] := CreateNode(cams[i], nodes[i]);
          if cams[i].streamFd.Some? && !cams[i].io {
            cams[i] := cams[i].(io := true);
          }
        }
      }
      ghost var was := old(Abs());
      assert cams[..] == Reconnect(was, ok, nodes).cams;
      assert Abs() == was.(pw := ok, cams := cams[..]);
    }

    method StopEngine()
      requires Shape()
      modifies this, cams
      ensures Shape() && Abs() == Stop(old(Abs()))
    {
      if !started {
        return;
      }
      ghost var was := Abs();
      for i := 0 to MAX_CAMERAS
        invariant Shape() && started == was.started && ctrlFd == was.ctrl && taken == was.taken
        invariant closed == CloseUpTo(was.closed, was.cams, i)
        invariant forall j :: 0 <= j < i ==> cams[j] == Fresh
        invariant forall j :: i <= j < MAX_CAMERAS ==> cams[j] == was.cams[j]
      {
        Close(cams[i].streamFd);
        Close(cams[i].shmFd);
        cams[i] := Fresh;
      }
      Close(ctrlFd);
      ctrlFd := None;
      ctrlLog := [];
      started, pwConnected, numCameras := false, false, 0;
      assert cams[..] == FreshCams();
    }
  }
}
