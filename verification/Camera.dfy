/** The camera engine of anland_camera.c: the shared control socket, up to eight cameras, and what
    resource deliveries, disconnects and application demand do to them. */
module Camera {
  import opened Protocol
  import opened CameraStream

  const MAX_CAMERAS := 8

  /** Control messages; the sixteen-bit sizes are the requested format. */
  datatype Ctrl = StartRecord(id: nat, w: nat, h: nat) | StopRecord(id: nat)

  /** `ctrlLog` holds the messages sent on the current control socket. Descriptors go into
      `taken` when they arrive and into `closed` when they are closed. */
  datatype Engine = Engine(
    started: bool,
    pw: bool,
    ctrl: Option<Fd>,
    num: nat,
    cams: seq<Cam>,
    ctrlLog: seq<Ctrl>,
    taken: seq<Fd>,
    closed: seq<Fd>)

  function FreshCams(): seq<Cam> {
    seq(MAX_CAMERAS, _ => Fresh)
  }

  const Initial := Engine(false, false, None, 0, FreshCams(), [], [], [])

  function Log(log: seq<Fd>, fd: Option<Fd>): seq<Fd> {
    if fd.Some? then log + [fd.value] else log
  }

  predicate Want(c: Cam, ctrl: Option<Fd>) {
    c.streaming && c.streamFd.Some? && ctrl.Some?
  }

  function Start(i: nat, c: Cam): Ctrl {
    StartRecord(i, c.fmtW % 0x1_0000, c.fmtH % 0x1_0000)
  }

  function UpdateLog(log: seq<Ctrl>, c: Cam, i: nat, ctrl: Option<Fd>): seq<Ctrl> {
    if Want(c, ctrl) == c.recording || ctrl.None? then log
    else log + [if Want(c, ctrl) then Start(i, c) else StopRecord(i)]
  }

  /** update_recording */
  function UpdateCam(c: Cam, ctrl: Option<Fd>): Cam {
    if Want(c, ctrl) == c.recording then c
    else if Want(c, ctrl) then RequestShm(c).(recording := true)
    else c.(recording := false)
  }

  function Update(e: Engine, i: nat, c: Cam): Engine
    requires i < |e.cams|
  {
    e.(cams := e.cams[i := UpdateCam(c, e.ctrl)], ctrlLog := UpdateLog(e.ctrlLog, c, i, e.ctrl))
  }

  /** attach_fd up to the point where it reconciles the recording state. */
  function Pointed(c: Cam, fd: Option<Fd>): Cam {
    UnmapShm(c).(io := fd.Some?, streamFd := fd, out := [], haveFrame := false)
  }

  /** attach_fd; its last request_shm finds nothing to do or asks for the shared memory. */
  function Attach(e: Engine, i: nat, c: Cam, fd: Option<Fd>): Engine
    requires i < |e.cams|
  {
    var p := Pointed(c, fd);
    e.(cams := e.cams[i := RequestShm(UpdateCam(p, e.ctrl))],
       ctrlLog := UpdateLog(e.ctrlLog, p, i, e.ctrl),
       taken := Log(e.taken, fd),
       closed := Log(Log(e.closed, c.streamFd), c.shmFd))
  }

  function DestroyNode(c: Cam): Cam {
    c.(node := false, io := false, streaming := false, recording := false)
  }

  /** create_node; the node may fail to come up. */
  function CreateNode(c: Cam, ok: bool): Cam {
    if c.node then c
    else
      c.(streaming := false, recording := false, node := ok, fmtCode := FMT_NV21,
         fmtW := if c.fmtW == 0 || c.fmtH == 0 then DEFAULT_W else c.fmtW,
         fmtH := if c.fmtW == 0 || c.fmtH == 0 then DEFAULT_H else c.fmtH)
  }

  /** What is known about one camera of a delivery: its stream socket, the sensor size that was
      asked for (zero if unknown), and whether its node comes up. */
  datatype Delivery = Delivery(fd: Fd, w: Word, h: Word, nodeOk: bool)

  function Seed(c: Cam, d: Delivery): Cam {
    if !c.node && d.w >= 64 && d.h >= 64 then c.(fmtW := d.w, fmtH := d.h) else c
  }

  function Delivered(c: Cam, d: Delivery): Cam {
    CreateNode(Seed(c, d), d.nodeOk)
  }

  /** Cameras `from` up to `end` disappear. */
  function Pop(e: Engine, from: nat, end: nat): Engine
    requires end <= |e.cams|
    ensures |Pop(e, from, end).cams| == |e.cams| && Pop(e, from, end).num == e.num
  {
    if end <= from then e
    else
      var b := Pop(e, from, end - 1);
      Attach(b, end - 1, DestroyNode(b.cams[end - 1]), None)
  }

  function AttachAll(e: Engine, ds: seq<Delivery>): Engine
    requires |ds| <= |e.cams|
    ensures |AttachAll(e, ds).cams| == |e.cams| && AttachAll(e, ds).num == e.num
  {
    if ds == [] then e
    else
      var k := |ds| - 1;
      var b := AttachAll(e, ds[..k]);
      Attach(b, k, Delivered(b.cams[k], ds[k]), Some(ds[k].fd))
  }

  function Fds(ds: seq<Delivery>): seq<Fd> {
    if ds == [] then [] else Fds(ds[..|ds| - 1]) + [ds[|ds| - 1].fd]
  }

  function Clamp(ds: seq<Delivery>): seq<Delivery> {
    if |ds| > MAX_CAMERAS then ds[..MAX_CAMERAS] else ds
  }

  function Excess(ds: seq<Delivery>): seq<Delivery> {
    if |ds| > MAX_CAMERAS then ds[MAX_CAMERAS..] else []
  }

  function Swap(e: Engine, ctrl: Fd): Engine {
    e.(ctrl := Some(ctrl), ctrlLog := [], taken := e.taken + [ctrl], closed := Log(e.closed, e.ctrl))
  }

  /** anland_camera_set_resources on a running engine. */
  function Deliver(e: Engine, ctrl: Fd, ds: seq<Delivery>): Engine
    requires |e.cams| == MAX_CAMERAS && e.num <= MAX_CAMERAS
  {
    var popped := Pop(Swap(e, ctrl), |Clamp(ds)|, e.num);
    var all := AttachAll(popped.(num := |Clamp(ds)|), Clamp(ds));
    all.(taken := all.taken + Fds(Excess(ds)))
  }

  /** The engine is started by the first delivery; if that fails everything is closed. */
  function SetResources(e: Engine, startOk: bool, pwOk: bool, ctrl: Fd, ds: seq<Delivery>): Engine
    requires |e.cams| == MAX_CAMERAS && e.num <= MAX_CAMERAS
  {
    if e.started then Deliver(e, ctrl, ds)
    else if !startOk then e.(taken := e.taken + [ctrl] + Fds(ds), closed := e.closed + [ctrl] + Fds(ds))
    else Deliver(e.(started := true, pw := pwOk), ctrl, ds)
  }

  function ClearUpTo(e: Engine, k: nat): Engine
    requires k <= |e.cams|
    ensures |ClearUpTo(e, k).cams| == |e.cams| && ClearUpTo(e, k).num == e.num
  {
    if k == 0 then e
    else
      var b := ClearUpTo(e, k - 1);
      Attach(b, k - 1, b.cams[k - 1].(recording := false), None)
  }

  function Clear(e: Engine): Engine
    requires e.num <= |e.cams|
  {
    if !e.started then e
    else ClearUpTo(e.(ctrl := None, ctrlLog := [], closed := Log(e.closed, e.ctrl)), e.num)
  }

  function StateChanged(e: Engine, i: nat, streaming: bool): Engine
    requires i < |e.cams|
  {
    if streaming == e.cams[i].streaming then e else Update(e, i, e.cams[i].(streaming := streaming))
  }

  function ReceiveLog(closed: seq<Fd>, c: Cam, r: Cam, m: StreamMsg, rfd: Option<Fd>): seq<Fd> {
    if !m.Offer? then Log(closed, rfd)
    else if rfd.None? then closed
    else if r.shmFd.Some? then Log(closed, c.shmFd)
    else Log(Log(closed, c.shmFd), rfd)
  }

  /** One round of on_stream_readable: a received descriptor is installed by an offer and closed
      otherwise; a replaced one is closed. */
  function Receive(e: Engine, i: nat, m: StreamMsg, rfd: Option<Fd>): Engine
    requires i < |e.cams|
  {
    var c := e.cams[i];
    var r := HandleMsg(c, m, rfd);
    e.(cams := e.cams[i := r], taken := Log(e.taken, rfd), closed := ReceiveLog(e.closed, c, r, m, rfd))
  }

  /** teardown_pw, build_pw and create_nodes, with the outcome of each node. */
  function Rebuild(c: Cam, live: bool, ok: bool): Cam {
    var d := DestroyNode(c);
    if live then CreateNode(d, ok).(io := d.streamFd.Some?) else d
  }

  function Reconnect(e: Engine, ok: bool, nodes: seq<bool>): Engine
    requires |nodes| == MAX_CAMERAS == |e.cams|
  {
    if e.pw then e
    else
      e.(pw := ok, cams := seq(MAX_CAMERAS, i requires 0 <= i < MAX_CAMERAS => Rebuild(e.cams[i], ok && i < e.num, nodes[i])))
  }

  function CloseUpTo(closed: seq<Fd>, cams: seq<Cam>, k: nat): seq<Fd>
    requires k <= |cams|
  {
    if k == 0 then closed else Log(Log(CloseUpTo(closed, cams, k - 1), cams[k - 1].streamFd), cams[k - 1].shmFd)
  }

  /** anland_camera_stop */
  function Stop(e: Engine): Engine
    requires |e.cams| == MAX_CAMERAS
  {
    if !e.started then e
    else Initial.(taken := e.taken, closed := Log(CloseUpTo(e.closed, e.cams, MAX_CAMERAS), e.ctrl))
  }

  // ---- recording ----

  predicate Exact(c: Cam, ctrl: Option<Fd>) {
    c.recording == Want(c, ctrl)
  }

  predicate Off(c: Cam) {
    !c.streaming && !c.recording && c.streamFd.None? && c.shmFd.None?
  }

  ghost predicate Inv(e: Engine) {
    && |e.cams| == MAX_CAMERAS && e.num <= MAX_CAMERAS
    && (forall i :: 0 <= i < MAX_CAMERAS ==> CamOk(e.cams[i]) && Exact(e.cams[i], e.ctrl))
    && (forall i :: e.num <= i < MAX_CAMERAS ==> Off(e.cams[i]))
    && (!e.started ==> e.ctrl.None? && e.num == 0)
  }

  lemma UpdateExact(c: Cam, ctrl: Option<Fd>)
    requires CamOk(c)
    ensures var r := UpdateCam(c, ctrl);
            CamOk(r) && Exact(r, ctrl) && r.streamFd == c.streamFd && r.shmFd == c.shmFd && r.streaming == c.streaming
  {
  }

  /** Attaching settles the camera, whatever its recording flag said before. */
  lemma AttachExact(e: Engine, i: nat, c: Cam, fd: Option<Fd>)
    requires i < |e.cams| && (c.streaming ==> c.node)
    ensures var r := Attach(e, i, c, fd);
            && |r.cams| == |e.cams| && CamOk(r.cams[i]) && Exact(r.cams[i], e.ctrl)
            && r.cams[i].streamFd == fd && r.cams[i].shmFd.None? && r.cams[i].streaming == c.streaming
            && (forall j :: 0 <= j < |e.cams| && j != i ==> r.cams[j] == e.cams[j])
            && r.ctrl == e.ctrl && r.num == e.num && r.started == e.started && r.pw == e.pw
  {
    UpdateExact(Pointed(c, fd), e.ctrl);
  }

  lemma {:induction false} PopExact(e: Engine, from: nat, end: nat)
    requires end <= |e.cams|
    ensures var r := Pop(e, from, end);
            && (forall j :: 0 <= j < |e.cams| && !(from <= j < end) ==> r.cams[j] == e.cams[j])
            && (forall j :: from <= j < end ==> CamOk(r.cams[j]) && Exact(r.cams[j], e.ctrl) && Off(r.cams[j]))
            && r.ctrl == e.ctrl && r.num == e.num && r.started == e.started
    decreases end
  {
    if end > from {
      PopExact(e, from, end - 1);
      var b := Pop(e, from, end - 1);
      AttachExact(b, end - 1, DestroyNode(b.cams[end - 1]), None);
    }
  }

  lemma DeliveredOk(c: Cam, d: Delivery)
    requires CamOk(c)
    ensures Delivered(c, d).streaming ==> Delivered(c, d).node
    ensures Delivered(c, d).streamFd == c.streamFd && Delivered(c, d).shmFd == c.shmFd
  {
  }

  lemma {:induction false} AttachAllExact(e: Engine, ds: seq<Delivery>)
    requires |ds| <= |e.cams| && forall j :: 0 <= j < |ds| ==> CamOk(e.cams[j])
    ensures var r := AttachAll(e, ds);
            && (forall j :: |ds| <= j < |e.cams| ==> r.cams[j] == e.cams[j])
            && (forall j :: 0 <= j < |ds| ==> CamOk(r.cams[j]) && Exact(r.cams[j], e.ctrl) && r.cams[j].streamFd == Some(ds[j].fd))
            && r.ctrl == e.ctrl && r.num == e.num && r.started == e.started
    decreases |ds|
  {
    hide CamOk, Exact, Attach, Delivered;
    if ds != [] {
      var k := |ds| - 1;
      AttachAllExact(e, ds[..k]);
      var b := AttachAll(e, ds[..k]);
      DeliveredOk(b.cams[k], ds[k]);
      AttachExact(b, k, Delivered(b.cams[k], ds[k]), Some(ds[k].fd));
    }
  }

  lemma DeliverKeeps(e: Engine, ctrl: Fd, ds: seq<Delivery>)
    requires Inv(e) && e.started
    ensures Inv(Deliver(e, ctrl, ds))
    ensures forall j :: 0 <= j < |Clamp(ds)| ==> Deliver(e, ctrl, ds).cams[j].streamFd == Some(ds[j].fd)
  {
    var n := |Clamp(ds)|;
    PopExact(Swap(e, ctrl), n, e.num);
    var popped := Pop(Swap(e, ctrl), n, e.num);
    AttachAllExact(popped.(num := n), Clamp(ds));
  }

  lemma {:induction false} ClearUpToExact(e: Engine, k: nat)
    requires k <= |e.cams| && forall j :: 0 <= j < k ==> CamOk(e.cams[j])
    ensures var r := ClearUpTo(e, k);
            && (forall j :: k <= j < |e.cams| ==> r.cams[j] == e.cams[j])
            && (forall j :: 0 <= j < k ==> CamOk(r.cams[j]) && Exact(r.cams[j], e.ctrl) && r.cams[j].streamFd.None?)
            && r.ctrl == e.ctrl && r.num == e.num && r.started == e.started
    decreases k
  {
    hide Attach, Exact;
    if k > 0 {
      ClearUpToExact(e, k - 1);
      var b := ClearUpTo(e, k - 1);
      assert b.cams[k - 1] == e.cams[k - 1];
      var c := b.cams[k - 1].(recording := false);
      AttachExact(b, k - 1, c, None);
      assert ClearUpTo(e, k) == Attach(b, k - 1, c, None);
    }
  }

  lemma ClearKeeps(e: Engine)
    requires Inv(e)
    ensures Inv(Clear(e))
    ensures forall j :: 0 <= j < MAX_CAMERAS ==> !Clear(e).cams[j].recording && Clear(e).cams[j].streamFd.None?
  {
    if e.started {
      ClearUpToExact(e.(ctrl := None, ctrlLog := [], closed := Log(e.closed, e.ctrl)), e.num);
    }
  }

  lemma StateChangeKeeps(e: Engine, i: nat, streaming: bool)
    requires Inv(e) && i < e.num && e.cams[i].node
    ensures Inv(StateChanged(e, i, streaming))
  {
    if streaming != e.cams[i].streaming {
      UpdateExact(e.cams[i].(streaming := streaming), e.ctrl);
    }
  }

  lemma ReceiveKeeps(e: Engine, i: nat, m: StreamMsg, rfd: Option<Fd>)
    requires Inv(e) && i < e.num
    ensures Inv(Receive(e, i, m, rfd))
  {
    HandleMsgKeeps(e.cams[i], m, rfd);
  }

  lemma ReconnectKeeps(e: Engine, ok: bool, nodes: seq<bool>)
    requires Inv(e) && |nodes| == MAX_CAMERAS
    ensures Inv(Reconnect(e, ok, nodes))
  {
  }

  // ---- descriptors ----

  function Count(log: seq<Fd>, fd: Fd): nat {
    if log == [] then 0 else Count(log[..|log| - 1], fd) + One(Some(log[|log| - 1]), fd)
  }

  function HeldBy(cams: seq<Cam>, k: nat, fd: Fd): nat
    requires k <= |cams|
  {
    if k == 0 then 0 else HeldBy(cams, k - 1, fd) + One(cams[k - 1].streamFd, fd) + One(cams[k - 1].shmFd, fd)
  }

  /** How often `fd` was taken and is now neither held nor closed; negative if it was closed too
      often. */
  function Missing(e: Engine, fd: Fd): int {
    Count(e.taken, fd) - Count(e.closed, fd) - One(e.ctrl, fd) - HeldBy(e.cams, |e.cams|, fd)
  }

  lemma LogCounts(log: seq<Fd>, slot: Option<Fd>, fd: Fd)
    ensures Count(Log(log, slot), fd) == Count(log, fd) + One(slot, fd)
  {
    if slot.Some? {
      assert (log + [slot.value])[..|log|] == log;
    }
  }

  lemma {:induction false} AppendCounts(log: seq<Fd>, more: seq<Fd>, fd: Fd)
    ensures Count(log + more, fd) == Count(log, fd) + Count(more, fd)
    decreases |more|
  {
    if more == [] {
      assert log + more == log;
    } else {
      AppendCounts(log, more[..|more| - 1], fd);
      assert (log + more)[..|log + more| - 1] == log + more[..|more| - 1];
    }
  }

  lemma {:induction false} HeldSwap(cams: seq<Cam>, i: nat, c: Cam, k: nat, fd: Fd)
    requires i < |cams| && k <= |cams|
    ensures HeldBy(cams[i := c], k, fd) ==
              HeldBy(cams, k, fd)
              + if i < k then One(c.streamFd, fd) + One(c.shmFd, fd) - One(cams[i].streamFd, fd) - One(cams[i].shmFd, fd) else 0
    decreases k
  {
    if k > 0 {
      HeldSwap(cams, i, c, k - 1, fd);
    }
  }

  lemma {:induction false} HeldSame(a: seq<Cam>, b: seq<Cam>, k: nat, fd: Fd)
    requires |a| == |b| && k <= |a|
    requires forall i :: 0 <= i < k ==> a[i].streamFd == b[i].streamFd && a[i].shmFd == b[i].shmFd
    ensures HeldBy(a, k, fd) == HeldBy(b, k, fd)
    decreases k
  {
    if k > 0 {
      HeldSame(a, b, k - 1, fd);
    }
  }

  lemma AttachBalances(e: Engine, i: nat, c: Cam, fd: Option<Fd>, x: Fd)
    requires i < |e.cams| && c.streamFd == e.cams[i].streamFd && c.shmFd == e.cams[i].shmFd && (c.streaming ==> c.node)
    ensures Missing(Attach(e, i, c, fd), x) == Missing(e, x)
  {
    AttachExact(e, i, c, fd);
    var r := Attach(e, i, c, fd);
    HeldSwap(e.cams, i, r.cams[i], |e.cams|, x);
    assert r.cams == e.cams[i := r.cams[i]];
    LogCounts(e.taken, fd, x);
    LogCounts(e.closed, c.streamFd, x);
    LogCounts(Log(e.closed, c.streamFd), c.shmFd, x);
  }

  lemma {:induction false} PopBalances(e: Engine, from: nat, end: nat, x: Fd)
    requires end <= |e.cams|
    ensures Missing(Pop(e, from, end), x) == Missing(e, x)
    decreases end
  {
    if end > from {
      var b := Pop(e, from, end - 1);
      PopBalances(e, from, end - 1, x);
      AttachBalances(b, end - 1, DestroyNode(b.cams[end - 1]), None, x);
    }
  }

  lemma {:induction false} AttachAllBalances(e: Engine, ds: seq<Delivery>, x: Fd)
    requires |ds| <= |e.cams| && forall j :: 0 <= j < |e.cams| ==> CamOk(e.cams[j])
    ensures Missing(AttachAll(e, ds), x) == Missing(e, x)
    decreases |ds|
  {
    if ds != [] {
      var k := |ds| - 1;
      var b := AttachAll(e, ds[..k]);
      AttachAllExact(e, ds[..k]);
      AttachAllBalances(e, ds[..k], x);
      assert b.cams[k] == e.cams[k];
      DeliveredOk(b.cams[k], ds[k]);
      AttachBalances(b, k, Delivered(b.cams[k], ds[k]), Some(ds[k].fd), x);
    }
  }

  lemma SwapBalances(e: Engine, ctrl: Fd, x: Fd)
    ensures Missing(Swap(e, ctrl), x) == Missing(e, x)
  {
    LogCounts(e.taken, Some(ctrl), x);
    LogCounts(e.closed, e.ctrl, x);
  }

  /** A delivery loses exactly the stream sockets beyond the eighth camera. */
  lemma DeliverMisses(e: Engine, ctrl: Fd, ds: seq<Delivery>, x: Fd)
    requires Inv(e) && e.started
    ensures Missing(Deliver(e, ctrl, ds), x) == Missing(e, x) + Count(Fds(Excess(ds)), x)
  {
    var n := |Clamp(ds)|;
    var swapped := Swap(e, ctrl);
    var popped := Pop(swapped, n, e.num);
    SwapBalances(e, ctrl, x);
    PopBalances(swapped, n, e.num, x);
    PopExact(swapped, n, e.num);
    AttachAllBalances(popped.(num := n), Clamp(ds), x);
    var all := AttachAll(popped.(num := n), Clamp(ds));
    AppendCounts(all.taken, Fds(Excess(ds)), x);
  }

  lemma SetResourcesMisses(e: Engine, startOk: bool, pwOk: bool, ctrl: Fd, ds: seq<Delivery>, x: Fd)
    requires Inv(e)
    ensures Missing(SetResources(e, startOk, pwOk, ctrl, ds), x) ==
              Missing(e, x) + if e.started || startOk then Count(Fds(Excess(ds)), x) else 0
  {
    if e.started {
      DeliverMisses(e, ctrl, ds, x);
    } else if startOk {
      DeliverMisses(e.(started := true, pw := pwOk), ctrl, ds, x);
    } else {
      LogCounts(e.taken, Some(ctrl), x);
      LogCounts(e.closed, Some(ctrl), x);
      AppendCounts(e.taken + [ctrl], Fds(ds), x);
      AppendCounts(e.closed + [ctrl], Fds(ds), x);
    }
  }

  lemma {:induction false} ClearBalances(e: Engine, k: nat, x: Fd)
    requires k <= |e.cams| && forall j :: 0 <= j < |e.cams| ==> CamOk(e.cams[j])
    ensures Missing(ClearUpTo(e, k), x) == Missing(e, x)
    decreases k
  {
    hide Attach, Exact;
    if k > 0 {
      var b := ClearUpTo(e, k - 1);
      ClearUpToExact(e, k - 1);
      ClearBalances(e, k - 1, x);
      assert b.cams[k - 1] == e.cams[k - 1];
      var c := b.cams[k - 1].(recording := false);
      AttachBalances(b, k - 1, c, None, x);
      assert ClearUpTo(e, k) == Attach(b, k - 1, c, None);
    }
  }

  lemma OfferLogCounts(closed: seq<Fd>, c: Cam, slotBytes: Word, mapOk: bool, rfd: Fd, x: Fd)
    requires CamOk(c)
    ensures var r := HandleOffer(c, Some(rfd), slotBytes, mapOk);
            Count(ReceiveLog(closed, c, r, Offer(slotBytes, mapOk), Some(rfd)), x) + One(r.shmFd, x) ==
              Count(closed, x) + One(c.shmFd, x) + One(Some(rfd), x)
  {
    LogCounts(closed, c.shmFd, x);
    LogCounts(Log(closed, c.shmFd), Some(rfd), x);
  }

  lemma ReceiveLogCounts(closed: seq<Fd>, c: Cam, m: StreamMsg, rfd: Option<Fd>, x: Fd)
    requires CamOk(c)
    ensures var r := HandleMsg(c, m, rfd);
            Count(ReceiveLog(closed, c, r, m, rfd), x) + One(r.shmFd, x) == Count(closed, x) + One(c.shmFd, x) + One(rfd, x)
  {
    match m
    case Offer(slotBytes, mapOk) =>
      if rfd.Some? {
        OfferLogCounts(closed, c, slotBytes, mapOk, rfd.value, x);
      }
    case Ready(slot, fmt, w, h, mem, growOk) =>
      LogCounts(closed, rfd, x);
      ReadyKeeps(c, slot, fmt, w, h, mem, growOk);
    case _ =>
      LogCounts(closed, rfd, x);
  }

  lemma ReceiveBalances(e: Engine, i: nat, m: StreamMsg, rfd: Option<Fd>, x: Fd)
    requires Inv(e) && i < e.num
    ensures Missing(Receive(e, i, m, rfd), x) == Missing(e, x)
  {
    HandleMsgKeeps(e.cams[i], m, rfd);
    HeldSwap(e.cams, i, HandleMsg(e.cams[i], m, rfd), MAX_CAMERAS, x);
    LogCounts(e.taken, rfd, x);
    ReceiveLogCounts(e.closed, e.cams[i], m, rfd, x);
  }

  lemma {:induction false} CloseUpToCounts(closed: seq<Fd>, cams: seq<Cam>, k: nat, x: Fd)
    requires k <= |cams|
    ensures Count(CloseUpTo(closed, cams, k), x) == Count(closed, x) + HeldBy(cams, k, x)
    decreases k
  {
    if k > 0 {
      CloseUpToCounts(closed, cams, k - 1, x);
      var before := CloseUpTo(closed, cams, k - 1);
      LogCounts(before, cams[k - 1].streamFd, x);
      LogCounts(Log(before, cams[k - 1].streamFd), cams[k - 1].shmFd, x);
    }
  }

  lemma {:induction false} FreshHoldsNothing(k: nat, x: Fd)
    requires k <= MAX_CAMERAS
    ensures HeldBy(FreshCams(), k, x) == 0
    decreases k
  {
    if k > 0 {
      FreshHoldsNothing(k - 1, x);
    }
  }

  lemma StopClosesAll(e: Engine, x: Fd)
    requires Inv(e) && e.started
    ensures Inv(Stop(e)) && Missing(Stop(e), x) == Missing(e, x)
    ensures Count(Stop(e).taken, x) - Count(Stop(e).closed, x) == Missing(e, x)
  {
    CloseUpToCounts(e.closed, e.cams, MAX_CAMERAS, x);
    LogCounts(CloseUpTo(e.closed, e.cams, MAX_CAMERAS), e.ctrl, x);
    FreshHoldsNothing(MAX_CAMERAS, x);
  }

  // ---- whole runs ----

  datatype Event =
    | ResourcesSet(startOk: bool, pwOk: bool, ctrl: Fd, ds: seq<Delivery>)
    | Cleared
    | AppState(i: nat, streaming: bool)
    | Message(i: nat, m: StreamMsg, rfd: Option<Fd>)
    | PipeWireLost
    | PipeWireTick(ok: bool, nodes: seq<bool>)
    | Stopped

  /** The backend delivers at most eight cameras; callbacks come only from a live node or a
      watched stream socket. */
  predicate Possible(e: Engine, v: Event) {
    match v
    case ResourcesSet(_, _, _, ds) => |ds| <= MAX_CAMERAS
    case AppState(i, _) => i < e.num && i < |e.cams| && e.cams[i].node
    case Message(i, _, _) => i < e.num && i < |e.cams| && e.cams[i].io
    case PipeWireTick(_, nodes) => e.started && |nodes| == MAX_CAMERAS
    case _ => true
  }

  function Do(e: Engine, v: Event): Engine
    requires |e.cams| == MAX_CAMERAS && e.num <= MAX_CAMERAS && Possible(e, v)
  {
    match v
    case ResourcesSet(startOk, pwOk, ctrl, ds) => SetResources(e, startOk, pwOk, ctrl, ds)
    case Cleared => Clear(e)
    case AppState(i, streaming) => StateChanged(e, i, streaming)
    case Message(i, m, rfd) => Receive(e, i, m, rfd)
    case PipeWireLost => e.(pw := false)
    case PipeWireTick(ok, nodes) => Reconnect(e, ok, nodes)
    case Stopped => Stop(e)
  }

  lemma EventKeeps(e: Engine, v: Event)
    requires Inv(e) && Possible(e, v)
    ensures Inv(Do(e, v))
  {
    match v
    case ResourcesSet(startOk, pwOk, ctrl, ds) =>
      if e.started {
        DeliverKeeps(e, ctrl, ds);
      } else if startOk {
        DeliverKeeps(e.(started := true, pw := pwOk), ctrl, ds);
      }
    case Cleared => ClearKeeps(e);
    case AppState(i, streaming) => StateChangeKeeps(e, i, streaming);
    case Message(i, m, rfd) => ReceiveKeeps(e, i, m, rfd);
    case PipeWireTick(ok, nodes) => ReconnectKeeps(e, ok, nodes);
    case _ =>
  }

  lemma ClearedBalances(e: Engine, x: Fd)
    requires Inv(e)
    ensures Missing(Clear(e), x) == Missing(e, x)
  {
    if e.started {
      var cut := e.(ctrl := None, ctrlLog := [], closed := Log(e.closed, e.ctrl));
      LogCounts(e.closed, e.ctrl, x);
      ClearBalances(cut, e.num, x);
    }
  }

  lemma UpdateBalances(e: Engine, i: nat, c: Cam, x: Fd)
    requires i < |e.cams| && CamOk(c) && c.streamFd == e.cams[i].streamFd && c.shmFd == e.cams[i].shmFd
    ensures Missing(Update(e, i, c), x) == Missing(e, x)
  {
    UpdateExact(c, e.ctrl);
    HeldSwap(e.cams, i, UpdateCam(c, e.ctrl), |e.cams|, x);
  }

  lemma StateChangeBalances(e: Engine, i: nat, streaming: bool, x: Fd)
    requires Inv(e) && i < e.num && e.cams[i].node
    ensures Missing(StateChanged(e, i, streaming), x) == Missing(e, x)
  {
    hide Missing, Update;
    if streaming != e.cams[i].streaming {
      UpdateBalances(e, i, e.cams[i].(streaming := streaming), x);
    }
  }

  lemma ReconnectBalances(e: Engine, ok: bool, nodes: seq<bool>, x: Fd)
    requires Inv(e) && |nodes| == MAX_CAMERAS
    ensures Missing(Reconnect(e, ok, nodes), x) == Missing(e, x)
  {
    HeldSame(e.cams, Reconnect(e, ok, nodes).cams, MAX_CAMERAS, x);
  }

  lemma EventBalances(e: Engine, v: Event, x: Fd)
    requires Inv(e) && Possible(e, v)
    ensures Missing(Do(e, v), x) == Missing(e, x)
  {
    match v
    case ResourcesSet(startOk, pwOk, ctrl, ds) => SetResourcesMisses(e, startOk, pwOk, ctrl, ds, x);
    case Cleared => ClearedBalances(e, x);
    case AppState(i, streaming) => StateChangeBalances(e, i, streaming, x);
    case Message(i, m, rfd) => ReceiveBalances(e, i, m, rfd, x);
    case PipeWireTick(ok, nodes) => ReconnectBalances(e, ok, nodes, x);
    case Stopped =>
      if e.started { StopClosesAll(e, x); }
    case _ =>
  }

  function Run(events: seq<Event>): Engine
    ensures |Run(events).cams| == MAX_CAMERAS && Run(events).num <= MAX_CAMERAS
  {
    if events == [] then Initial
    else
      var e := Run(events[..|events| - 1]);
      if Possible(e, events[|events| - 1]) then Do(e, events[|events| - 1]) else e
  }

  /** After every call: a camera is recording exactly if an application consumes it and both its
      sockets are attached; and every descriptor that arrived is held once or closed once. */
  lemma {:induction false} CameraAlwaysExact(events: seq<Event>, x: Fd)
    ensures Inv(Run(events)) && Missing(Run(events), x) == 0
  {
    if events == [] {
      FreshHoldsNothing(MAX_CAMERAS, x);
    } else {
      var e := Run(events[..|events| - 1]);
      CameraAlwaysExact(events[..|events| - 1], x);
      if Possible(e, events[|events| - 1]) {
        EventKeeps(e, events[|events| - 1]);
        EventBalances(e, events[|events| - 1], x);
      }
    }
  }

  // ---- what the consumer was told ----

  /** The last word on the current control socket about camera `id`. */
  function Told(log: seq<Ctrl>, id: nat): bool {
    if log == [] then false
    else
      var last := log[|log| - 1];
      if last.id == id then last.StartRecord? else Told(log[..|log| - 1], id)
  }

  ghost predicate AllTold(e: Engine) {
    forall i :: 0 <= i < |e.cams| ==> Told(e.ctrlLog, i) == e.cams[i].recording
  }

  lemma TellOne(log: seq<Ctrl>, c: Cam, i: nat, ctrl: Option<Fd>, id: nat)
    requires Want(c, ctrl) == c.recording || ctrl.Some?
    ensures Told(UpdateLog(log, c, i, ctrl), id) ==
              if id == i && Want(c, ctrl) != c.recording then Want(c, ctrl) else Told(log, id)
  {
    var log' := UpdateLog(log, c, i, ctrl);
    if Want(c, ctrl) != c.recording {
      assert log'[..|log|] == log;
    }
  }

  lemma {:induction false} PopTells(e: Engine, from: nat, end: nat)
    requires end <= |e.cams|
    ensures Pop(e, from, end).ctrlLog == e.ctrlLog
    decreases end
  {
    if end > from {
      PopTells(e, from, end - 1);
    }
  }

  /** A START goes out for a delivered camera that is to record, unless it already was. */
  lemma {:induction false} AttachAllTells(e: Engine, ds: seq<Delivery>, id: nat)
    requires |ds| <= |e.cams| && e.ctrl.Some? && e.ctrlLog == []
    requires forall j :: 0 <= j < |ds| ==> CamOk(e.cams[j]) && (e.cams[j].recording ==> e.cams[j].streaming)
    ensures id < |ds| ==>
              (Told(AttachAll(e, ds).ctrlLog, id) <==> AttachAll(e, ds).cams[id].recording && !e.cams[id].recording)
    ensures id >= |ds| ==> !Told(AttachAll(e, ds).ctrlLog, id)
    decreases |ds|
  {
    if ds != [] {
      var k := |ds| - 1;
      AttachAllExact(e, ds[..k]);
      AttachAllTells(e, ds[..k], id);
      var b := AttachAll(e, ds[..k]);
      var c := Delivered(b.cams[k], ds[k]);
      AttachExact(b, k, c, Some(ds[k].fd));
      TellOne(b.ctrlLog, Pointed(c, Some(ds[k].fd)), k, b.ctrl, id);
    }
  }

  /** The recorder on the new connection is told what is wanted exactly if no delivered camera
      was recording already: the flag is not reset by swapping the control socket. */
  lemma DeliverTellsIff(e: Engine, ctrl: Fd, ds: seq<Delivery>)
    requires Inv(e) && e.started
    ensures AllTold(Deliver(e, ctrl, ds)) <==> forall i :: 0 <= i < |Clamp(ds)| ==> !e.cams[i].recording
  {
    hide CamOk, Attach, Delivered;
    var n := |Clamp(ds)|;
    var swapped := Swap(e, ctrl);
    var popped := Pop(swapped, n, e.num).(num := n);
    PopExact(swapped, n, e.num);
    PopTells(swapped, n, e.num);
    DeliverKeeps(e, ctrl, ds);
    var r := AttachAll(popped, Clamp(ds));
    AttachAllExact(popped, Clamp(ds));
    assert Deliver(e, ctrl, ds).cams == r.cams && Deliver(e, ctrl, ds).ctrlLog == r.ctrlLog;
    forall i | 0 <= i < MAX_CAMERAS
      ensures Told(r.ctrlLog, i) == r.cams[i].recording <==> (i < n ==> !e.cams[i].recording)
    {
      AttachAllTells(popped, Clamp(ds), i);
      if i < n {
        AttachAllStreams(popped, Clamp(ds), i);
      }
    }
  }

  /** A camera that was recording still is after the delivery. */
  lemma {:induction false} AttachAllStreams(e: Engine, ds: seq<Delivery>, i: nat)
    requires |ds| <= |e.cams| && i < |ds| && e.ctrl.Some?
    requires forall j :: 0 <= j < |ds| ==> CamOk(e.cams[j])
    ensures e.cams[i].streaming ==> AttachAll(e, ds).cams[i].recording
    decreases |ds|
  {
    var k := |ds| - 1;
    AttachAllExact(e, ds[..k]);
    var b := AttachAll(e, ds[..k]);
    var c := Delivered(b.cams[k], ds[k]);
    AttachExact(b, k, c, Some(ds[k].fd));
    assert AttachAll(e, ds) == Attach(b, k, c, Some(ds[k].fd));
    if i < k {
      AttachAllStreams(e, ds[..k], i);
    }
  }

  /** The backend clears the engine before a new delivery, and then everything is told. */
  lemma ClearThenDeliverTells(e: Engine, ctrl: Fd, ds: seq<Delivery>)
    requires Inv(e) && e.started
    ensures Inv(Clear(e)) && Clear(e).started && AllTold(Deliver(Clear(e), ctrl, ds))
  {
    ClearKeeps(e);
    ClearUpToExact(e.(ctrl := None, ctrlLog := [], closed := Log(e.closed, e.ctrl)), e.num);
    DeliverTellsIff(Clear(e), ctrl, ds);
  }

  lemma StateChangeTells(e: Engine, i: nat, streaming: bool)
    requires Inv(e) && AllTold(e) && i < e.num
    ensures AllTold(StateChanged(e, i, streaming))
  {
    if streaming != e.cams[i].streaming {
      var c := e.cams[i].(streaming := streaming);
      var r := StateChanged(e, i, streaming);
      forall j | 0 <= j < MAX_CAMERAS ensures Told(r.ctrlLog, j) == r.cams[j].recording {
        TellOne(e.ctrlLog, c, i, e.ctrl, j);
        assert Told(e.ctrlLog, j) == e.cams[j].recording;
      }
    }
  }

  /** When PipeWire comes back, the recorder's last word stays true exactly if nothing was
      recording: nodes are destroyed without a STOP. */
  lemma ReconnectTellsIff(e: Engine, ok: bool, nodes: seq<bool>)
    requires Inv(e) && AllTold(e) && |nodes| == MAX_CAMERAS && !e.pw
    ensures AllTold(Reconnect(e, ok, nodes)) <==> forall i :: 0 <= i < MAX_CAMERAS ==> !e.cams[i].recording
  {
    var r := Reconnect(e, ok, nodes);
    forall i | 0 <= i < MAX_CAMERAS
      ensures Told(r.ctrlLog, i) == r.cams[i].recording <==> !e.cams[i].recording
    {
      assert Told(e.ctrlLog, i) == e.cams[i].recording;
    }
  }
}
