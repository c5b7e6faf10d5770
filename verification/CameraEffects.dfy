/** What each call and message does to the cameras, told from outside: which frames they hold, what
    goes out on their sockets, which nodes exist, and when the shared memory is asked for. */
module CameraEffects {
  import opened Protocol
  import opened CameraStream
  import opened Camera

  // ---- messages of one stream socket ----

  predicate SameShm(c: Cam, c': Cam) {
    && c'.shmFd == c.shmFd && c'.mapped == c.mapped && c'.shmBytes == c.shmBytes && c'.slotBytes == c.slotBytes
    && c'.shmRequested == c.shmRequested
  }

  predicate SameFrame(c: Cam, c': Cam) {
    c'.frame == c.frame && c'.frameSize == c.frameSize && c'.haveFrame == c.haveFrame
  }

  predicate SameFormat(c: Cam, c': Cam) {
    c'.fmtW == c.fmtW && c'.fmtH == c.fmtH && c'.fmtCode == c.fmtCode
  }

  /** The slot is in the front of the buffer, which has grown if it had to, and what was behind is still
      there, as long as there is a mapping, the slot is one of two, and there is room or more can be had. */
  ghost predicate Copied(c: Cam, c': Cam, slot: Byte, bytes: nat, mem: Memory, growOk: bool) {
    if c.mapped && slot < 2 && bytes > 0 && (|c.frame| >= bytes || growOk) then
      && c'.haveFrame && c'.frameSize == bytes
      && |c'.frame| == (if |c.frame| < bytes then bytes else |c.frame|)
      && (forall k :: 0 <= k < bytes ==> c'.frame[k] == mem(slot * c.slotBytes + k))
      && (forall k :: bytes <= k < |c.frame| ==> c'.frame[k] == c.frame[k])
    else SameFrame(c, c')
  }

  lemma CopyMeans(c: Cam, slot: Byte, bytes: nat, mem: Memory, growOk: bool)
    ensures var c' := CopyOut(c, slot, bytes, mem, growOk);
            && Copied(c, c', slot, bytes, mem, growOk)
            && c' == c.(frame := c'.frame, frameSize := c'.frameSize, haveFrame := c'.haveFrame)
  {
  }

  lemma CopiedAlike(c: Cam, a: Cam, b: Cam, slot: Byte, bytes: nat, mem: Memory, growOk: bool)
    requires Copied(c, a, slot, bytes, mem, growOk) && SameFrame(a, b)
    ensures Copied(c, b, slot, bytes, mem, growOk)
  {
  }

  lemma AnswerKeepsFrame(c: Cam, slot: Byte, fmt: nat, w: Word, h: Word)
    ensures SameFrame(c, Renegotiate(SendStream(c, Done(slot)), w, h, fmt))
  {
    RenegotiateKeepsFrame(SendStream(c, Done(slot)), w, h, fmt);
    hide Renegotiate;
  }

  lemma RenegotiateKeepsFrame(c: Cam, w: Word, h: Word, fmt: nat)
    ensures SameFrame(c, Renegotiate(c, w, h, fmt))
  {
  }

  /** A READY takes its slot over, no further than the slot goes. */
  lemma ReadyTakes(c: Cam, slot: Byte, fmt: nat, w: Word, h: Word, mem: Memory, growOk: bool)
    ensures var said := FrameBytes(w, h);
            Copied(c, HandleReady(c, slot, fmt, w, h, mem, growOk), slot, if said > c.slotBytes then c.slotBytes else said, mem, growOk)
  {
    hide CopyOut, FrameBytes, Copied, SendStream, Renegotiate, SameFrame;
    var copied := CopyOut(c, slot, CopyBytes(c, w, h), mem, growOk);
    CopyMeans(c, slot, CopyBytes(c, w, h), mem, growOk);
    AnswerKeepsFrame(copied, slot, fmt, w, h);
    CopiedAlike(c, copied, HandleReady(c, slot, fmt, w, h, mem, growOk), slot, CopyBytes(c, w, h), mem, growOk);
  }

  /** It is answered in any case, and a picture size that is not empty becomes the format of a live node. */
  lemma ReadyMeans(c: Cam, slot: Byte, fmt: nat, w: Word, h: Word, mem: Memory, growOk: bool)
    ensures var c' := HandleReady(c, slot, fmt, w, h, mem, growOk);
            && SameRole(c, c') && SameShm(c, c')
            && c'.out == c.out + (if c.streamFd.Some? then [Done(slot)] else [])
            && if c.node && w > 0 && h > 0 then c'.fmtW == w && c'.fmtH == h && c'.fmtCode == fmt else SameFormat(c, c')
  {
    hide CopyOut, CopyBytes, Copied;
    CopyMeans(c, slot, CopyBytes(c, w, h), mem, growOk);
  }

  lemma HalfWrapped(area: nat)
    ensures area * 3 % UINT32 / 2 == area * 3 / 2 <==> area * 3 < UINT32
  {
  }

  /** Gray covers the whole picture exactly if tripling its area does not wrap 32 bits. */
  lemma GrayTrueIffNoWrap(c: Cam)
    ensures GrayBytes(c) == c.fmtW * c.fmtH * 3 / 2 <==> c.fmtW * c.fmtH * 3 < UINT32
  {
    AreaFits(c.fmtW, c.fmtH);
    HalfWrapped(c.fmtW * c.fmtH);
  }

  lemma MessageMeans(c: Cam, m: StreamMsg, rfd: Option<Fd>)
    ensures match m
            case Ready(slot, fmt, w, h, mem, growOk) => HandleMsg(c, m, rfd) == HandleReady(c, slot, fmt, w, h, mem, growOk)
            case Offer(_, _) => true
            case _ => HandleMsg(c, m, rfd) == c
  {
  }

  /** The size that a READY announces is computed in 64 bits. */
  lemma AnnouncedSize(w: Word, h: Word)
    ensures FrameBytes(w, h) == w * h * 3 % 0x1_0000_0000_0000_0000 / 2
  {
    AreaFits(w, h);
  }

  /** An offered descriptor is mapped as two slots; one that cannot be mapped, or is empty, takes the
      old mapping away. An offer without a descriptor does nothing. */
  lemma OfferMeans(c: Cam, rfd: Option<Fd>, slotBytes: Word, mapOk: bool)
    ensures var c' := HandleMsg(c, Offer(slotBytes, mapOk), rfd);
            && SameRole(c, c') && SameFrame(c, c') && SameFormat(c, c') && c'.out == c.out && c'.shmRequested == c.shmRequested
            && if rfd.None? then c' == c
               else if mapOk && slotBytes > 0 then
                 c'.mapped && c'.shmFd == rfd && c'.slotBytes == slotBytes && c'.shmBytes == 2 * slotBytes
               else !c'.mapped && c'.shmFd.None? && c'.slotBytes == 0 == c'.shmBytes
  {
  }

  // ---- recording ----

  /** An application that starts or stops consuming a camera: START names the camera and its format in
      sixteen bits, STOP the camera, each once and only if the recorder can act on it; the shared
      memory is asked for unless it is there or was asked for on this socket. */
  lemma StateChangeMeans(e: Engine, i: nat, streaming: bool)
    requires Inv(e) && i < e.num
    ensures var e', c := StateChanged(e, i, streaming), e.cams[i];
            var starts, stops := streaming && !c.streaming && c.streamFd.Some? && e.ctrl.Some?, !streaming && c.recording;
            var asks := starts && !c.mapped && !c.shmRequested;
            && e'.cams == e.cams[i := e'.cams[i]]
            && e'.cams[i] == c.(streaming := streaming, recording := e'.cams[i].recording,
                                shmRequested := c.shmRequested || asks, out := e'.cams[i].out)
            && e'.cams[i].recording == (starts || (c.recording && !stops))
            && e'.cams[i].out == c.out + (if asks then [GetShm] else [])
            && e'.ctrlLog == e.ctrlLog + (if starts then [StartRecord(i, c.fmtW % 0x1_0000, c.fmtH % 0x1_0000)]
                                          else if stops then [StopRecord(i)] else [])
            && e' == e.(cams := e'.cams, ctrlLog := e'.ctrlLog)
  {
    assert CamOk(e.cams[i]) && Exact(e.cams[i], e.ctrl);
  }

  /** A camera after its stream socket was swapped: nothing of the old socket is left, and the shared
      memory has been asked for once if an application consumes the camera. */
  ghost predicate Attached(c: Cam, c': Cam, fd: Option<Fd>, ctrl: Option<Fd>) {
    && c'.streamFd == fd && c'.io == fd.Some? && c'.streaming == c.streaming && c'.node == c.node
    && c'.recording == (c.streaming && fd.Some? && ctrl.Some?)
    && c'.shmFd.None? && !c'.mapped && c'.shmBytes == 0 == c'.slotBytes
    && c'.shmRequested == (c.streaming && fd.Some?)
    && c'.out == (if c.streaming && fd.Some? then [GetShm] else [])
    && !c'.haveFrame && c'.frame == c.frame && c'.frameSize == c.frameSize && SameFormat(c, c')
  }

  lemma AttachMeans(e: Engine, i: nat, c: Cam, fd: Option<Fd>)
    requires i < |e.cams|
    ensures var e', wants := Attach(e, i, c, fd), c.streaming && fd.Some? && e.ctrl.Some?;
            && Attached(c, e'.cams[i], fd, e.ctrl)
            && e'.ctrlLog == e.ctrlLog
                 + (if wants && !c.recording then [StartRecord(i, c.fmtW % 0x1_0000, c.fmtH % 0x1_0000)]
                    else if !wants && c.recording && e.ctrl.Some? then [StopRecord(i)] else [])
            && e'.taken == e.taken + (if fd.Some? then [fd.value] else [])
            && e'.closed == e.closed + (if c.streamFd.Some? then [c.streamFd.value] else [])
                                     + (if c.shmFd.Some? then [c.shmFd.value] else [])
            && e' == e.(cams := e.cams[i := e'.cams[i]], ctrlLog := e'.ctrlLog, taken := e'.taken, closed := e'.closed)
  {
  }

  // ---- deliveries ----

  /** A camera of a delivery: an existing node keeps its format; a new one gets the sensor's, or the
      one it had before, or 1280 by 720. */
  ghost predicate Prepared(c: Cam, c': Cam, d: Delivery) {
    && c'.node == (c.node || d.nodeOk)
    && if c.node then c' == c
       else
         && !c'.streaming && !c'.recording && c'.fmtCode == 2
         && (if d.w >= 64 && d.h >= 64 then c'.fmtW == d.w && c'.fmtH == d.h
             else if c.fmtW != 0 && c.fmtH != 0 then c'.fmtW == c.fmtW && c'.fmtH == c.fmtH
             else c'.fmtW == 1280 && c'.fmtH == 720)
         && c' == c.(node := d.nodeOk, streaming := false, recording := false, fmtCode := 2, fmtW := c'.fmtW, fmtH := c'.fmtH)
  }

  lemma DeliveredMeans(c: Cam, d: Delivery)
    ensures Prepared(c, Delivered(c, d), d)
  {
  }

  ghost predicate Served(c: Cam, c': Cam, d: Delivery, ctrl: Option<Fd>) {
    exists ready: Cam :: Prepared(c, ready, d) && Attached(ready, c', Some(d.fd), ctrl)
  }

  lemma {:induction false} AttachAllServes(e: Engine, ds: seq<Delivery>)
    requires |ds| <= |e.cams|
    ensures var r := AttachAll(e, ds);
            && r.ctrl == e.ctrl && r.started == e.started && r.pw == e.pw
            && (forall j :: 0 <= j < |ds| ==> Served(e.cams[j], r.cams[j], ds[j], e.ctrl))
            && (forall j :: |ds| <= j < |e.cams| ==> r.cams[j] == e.cams[j])
    decreases |ds|
  {
    hide Attach, Delivered, Served, Prepared, Attached;
    if ds != [] {
      var k := |ds| - 1;
      AttachAllServes(e, ds[..k]);
      var b := AttachAll(e, ds[..k]);
      var ready := Delivered(b.cams[k], ds[k]);
      DeliveredMeans(b.cams[k], ds[k]);
      AttachMeans(b, k, ready, Some(ds[k].fd));
      ServedBy(b.cams[k], ready, Attach(b, k, ready, Some(ds[k].fd)).cams[k], ds[k], e.ctrl);
    }
  }

  lemma ServedBy(c: Cam, ready: Cam, c': Cam, d: Delivery, ctrl: Option<Fd>)
    requires Prepared(c, ready, d) && Attached(ready, c', Some(d.fd), ctrl)
    ensures Served(c, c', d, ctrl)
  {
  }

  /** Nothing is left of a camera that the new connection does not have. */
  ghost predicate Popped(c: Cam, c': Cam) {
    && !c'.node && !c'.streaming && !c'.recording && !c'.io && c'.streamFd.None? && c'.shmFd.None? && !c'.mapped
    && c'.out == [] && !c'.haveFrame && !c'.shmRequested && SameFormat(c, c')
  }

  lemma {:induction false} PopMeans(e: Engine, from: nat, end: nat)
    requires end <= |e.cams|
    ensures var r := Pop(e, from, end);
            && r.ctrl == e.ctrl && r.num == e.num && r.started == e.started && r.pw == e.pw
            && (forall j :: 0 <= j < |e.cams| && !(from <= j < end) ==> r.cams[j] == e.cams[j])
            && (forall j :: from <= j < end ==> Popped(e.cams[j], r.cams[j]))
    decreases end
  {
    hide Attach;
    if end > from {
      PopMeans(e, from, end - 1);
      var b := Pop(e, from, end - 1);
      AttachMeans(b, end - 1, DestroyNode(b.cams[end - 1]), None);
    }
  }

  /** A delivery serves the first eight cameras it names in the order in which it names them, and takes
      down every camera it does not name. */
  lemma DeliverMeans(e: Engine, ctrl: Fd, ds: seq<Delivery>)
    requires Inv(e) && e.started
    ensures var e', n := Deliver(e, ctrl, ds), if |ds| < 8 then |ds| else 8;
            && e'.ctrl == Some(ctrl) && e'.num == n && e'.started && e'.pw == e.pw
            && (forall j :: 0 <= j < n ==> Served(e.cams[j], e'.cams[j], ds[j], Some(ctrl)))
            && (forall j :: n <= j < e.num ==> Popped(e.cams[j], e'.cams[j]))
            && (forall j :: n <= j < 8 && e.num <= j ==> e'.cams[j] == e.cams[j])
  {
    hide Served, Popped, Attach;
    var n := |Clamp(ds)|;
    PopMeans(Swap(e, ctrl), n, e.num);
    var popped := Pop(Swap(e, ctrl), n, e.num).(num := n);
    AttachAllServes(popped, Clamp(ds));
  }

  lemma {:induction false} FdsAre(ds: seq<Delivery>)
    ensures |Fds(ds)| == |ds| && forall k :: 0 <= k < |ds| ==> Fds(ds)[k] == ds[k].fd
  {
    if ds != [] { FdsAre(ds[..|ds| - 1]); }
  }

  /** The sockets that a delivery loses are those after the eighth. */
  lemma LostAre(ds: seq<Delivery>)
    ensures |Fds(Excess(ds))| == (if |ds| > 8 then |ds| - 8 else 0)
    ensures forall k :: 8 <= k < |ds| ==> Fds(Excess(ds))[k - 8] == ds[k].fd
  {
    FdsAre(Excess(ds));
  }

  /** The first delivery starts the engine; where that fails the engine stays as it was. */
  lemma SetResourcesMeans(e: Engine, startOk: bool, pwOk: bool, ctrl: Fd, ds: seq<Delivery>)
    requires Inv(e)
    ensures var e' := SetResources(e, startOk, pwOk, ctrl, ds);
            if e.started then e' == Deliver(e, ctrl, ds)
            else if startOk then e' == Deliver(e.(started := true, pw := pwOk), ctrl, ds)
            else e' == e.(taken := e'.taken, closed := e'.closed) && e'.taken == e.taken + [ctrl] + Fds(ds)
  {
  }

  /** Clearing takes the sockets and what came over them, and leaves the nodes and the applications
      that consume them. */
  lemma ClearMeans(e: Engine)
    requires Inv(e)
    ensures var e' := Clear(e);
            && e'.started == e.started && e'.pw == e.pw && e'.num == e.num && e'.ctrl.None?
            && (e.started ==> e'.ctrlLog == [])
            && (forall j :: 0 <= j < e.num ==> Attached(e.cams[j], e'.cams[j], None, None))
            && (forall j :: e.num <= j < 8 ==> e'.cams[j] == e.cams[j])
  {
    if e.started { ClearUpToMeans(e.(ctrl := None, ctrlLog := [], closed := Log(e.closed, e.ctrl)), e.num); }
  }

  lemma {:induction false} ClearUpToMeans(e: Engine, k: nat)
    requires k <= |e.cams| && e.ctrl.None?
    ensures var r := ClearUpTo(e, k);
            && r.started == e.started && r.pw == e.pw && r.num == e.num && r.ctrl.None? && r.ctrlLog == e.ctrlLog
            && (forall j :: 0 <= j < k ==> Attached(e.cams[j], r.cams[j], None, None))
            && (forall j :: k <= j < |e.cams| ==> r.cams[j] == e.cams[j])
    decreases k
  {
    hide Attach;
    if k > 0 {
      ClearUpToMeans(e, k - 1);
      var b := ClearUpTo(e, k - 1);
      AttachMeans(b, k - 1, b.cams[k - 1].(recording := false), None);
    }
  }

  /** When PipeWire comes back, the cameras of the last delivery get their nodes back, as far as they
      come up; sockets, mappings and frames stay, and nobody consumes a node yet. */
  lemma ReconnectMeans(e: Engine, ok: bool, nodes: seq<bool>, i: nat)
    requires |nodes| == 8 == |e.cams| && i < 8
    ensures var e' := Reconnect(e, ok, nodes);
            if e.pw then e' == e
            else
              && e' == e.(pw := ok, cams := e'.cams) && |e'.cams| == 8
              && var c, c', live := e.cams[i], e'.cams[i], ok && i < e.num;
                 && c'.node == (live && nodes[i]) && c'.io == (live && c.streamFd.Some?)
                 && c' == c.(node := c'.node, io := c'.io, streaming := false, recording := false,
                             fmtW := c'.fmtW, fmtH := c'.fmtH, fmtCode := c'.fmtCode)
                 && if !live then SameFormat(c, c')
                    else c'.fmtCode == 2 && if c.fmtW != 0 && c.fmtH != 0 then c'.fmtW == c.fmtW && c'.fmtH == c.fmtH
                                            else c'.fmtW == 1280 && c'.fmtH == 720
  {
  }

  lemma StopMeans(e: Engine)
    requires Inv(e)
    ensures var e' := Stop(e);
            if !e.started then e' == e
            else
              && !e'.started && !e'.pw && e'.ctrl.None? && e'.num == 0 && e'.ctrlLog == [] && e'.taken == e.taken
              && |e'.cams| == 8 && forall j :: 0 <= j < 8 ==> e'.cams[j] == Fresh
  {
  }

  /** A message concerns the camera it came for and no other. What an offer brings is held or closed, and
      what it replaces is closed; a descriptor with any other message is closed. */
  lemma ReceiveMeans(e: Engine, i: nat, m: StreamMsg, rfd: Option<Fd>)
    requires i < |e.cams|
    ensures var e', c, c' := Receive(e, i, m, rfd), e.cams[i], HandleMsg(e.cams[i], m, rfd);
            && e' == e.(cams := e.cams[i := c'], taken := e'.taken, closed := e'.closed)
            && e'.taken == e.taken + (if rfd.Some? then [rfd.value] else [])
            && (rfd.None? ==> e'.closed == e.closed)
            && (rfd.Some? && !m.Offer? ==> e'.closed == e.closed + [rfd.value])
            && (rfd.Some? && m.Offer? ==>
                 e'.closed == e.closed + (if c.shmFd.Some? then [c.shmFd.value] else [])
                                       + if m.mapOk && m.slotBytes > 0 then [] else [rfd.value])
  {
    match m
    case Offer(slotBytes, mapOk) => OfferMeans(e.cams[i], rfd, slotBytes, mapOk);
    case _ =>
    hide HandleMsg;
  }

  /** Every callback runs the handler it is for; losing PipeWire is only noted until the timer runs. */
  lemma EventMeans(e: Engine, v: Event)
    requires Inv(e) && Possible(e, v)
    ensures match v
            case ResourcesSet(startOk, pwOk, ctrl, ds) => Do(e, v) == SetResources(e, startOk, pwOk, ctrl, ds)
            case Cleared => Do(e, v) == Clear(e)
            case AppState(i, streaming) => Do(e, v) == StateChanged(e, i, streaming)
            case Message(i, m, rfd) => Do(e, v) == Receive(e, i, m, rfd)
            case PipeWireLost => Do(e, v) == e.(pw := false)
            case PipeWireTick(ok, nodes) => Do(e, v) == Reconnect(e, ok, nodes)
            case Stopped => Do(e, v) == Stop(e)
  {
  }

  // ---- asking for the shared memory ----

  /** How often the shared memory was asked for on the current stream socket. */
  function Requests(out: seq<Sent>): nat {
    if out == [] then 0 else Requests(out[..|out| - 1]) + OneIf(out[|out| - 1].GetShm?)
  }

  ghost predicate CountsRequests(e: Engine) {
    forall i :: 0 <= i < |e.cams| ==> Requests(e.cams[i].out) == OneIf(e.cams[i].shmRequested)
  }

  lemma RequestsAppend(out: seq<Sent>, m: Sent)
    ensures Requests(out + [m]) == Requests(out) + OneIf(m.GetShm?)
  {
    assert (out + [m])[..|out|] == out;
  }

  lemma AttachedCounts(c: Cam, c': Cam, fd: Option<Fd>, ctrl: Option<Fd>)
    requires Attached(c, c', fd, ctrl)
    ensures Requests(c'.out) == OneIf(c'.shmRequested)
  {
    RequestsAppend([], GetShm);
    assert [] + [GetShm] == [GetShm];
  }

  lemma ServedCounts(c: Cam, c': Cam, d: Delivery, ctrl: Option<Fd>)
    requires Served(c, c', d, ctrl)
    ensures Requests(c'.out) == OneIf(c'.shmRequested)
    ensures c'.streaming ==> c'.shmRequested
  {
    var ready: Cam :| Prepared(c, ready, d) && Attached(ready, c', Some(d.fd), ctrl);
    AttachedCounts(ready, c', Some(d.fd), ctrl);
  }

  lemma MessageCounts(c: Cam, m: StreamMsg, rfd: Option<Fd>)
    requires CamOk(c)
    ensures Requests(HandleMsg(c, m, rfd).out) == Requests(c.out)
    ensures HandleMsg(c, m, rfd).shmRequested == c.shmRequested
  {
    HandleMsgKeeps(c, m, rfd);
    RequestedBy(c, m, rfd);
    if m.Ready? { RequestsAppend(c.out, Done(m.slot)); }
    hide HandleMsg;
  }

  lemma RequestedBy(c: Cam, m: StreamMsg, rfd: Option<Fd>)
    ensures HandleMsg(c, m, rfd).shmRequested == c.shmRequested
    ensures HandleMsg(c, m, rfd).mapped ==> c.mapped || m.Offer?
  {
    hide HandleReady;
    match m
    case Offer(slotBytes, mapOk) => OfferMeans(c, rfd, slotBytes, mapOk);
    case Ready(slot, fmt, w, h, mem, growOk) => ReadyMeans(c, slot, fmt, w, h, mem, growOk);
    case _ =>
  }

  /** The recorder offers its memory only where it has been asked for it. */
  predicate Answers(e: Engine, v: Event) {
    v.Message? && v.m.Offer? && v.i < |e.cams| ==> e.cams[v.i].shmRequested
  }

  /** A camera that an application consumes over a stream socket has asked for its memory. */
  ghost predicate HasAsked(e: Engine) {
    && forall i :: 0 <= i < |e.cams| ==>
         && (e.cams[i].streamFd.Some? ==> e.ctrl.Some?)
         && (e.cams[i].mapped ==> e.cams[i].shmRequested)
         && (e.cams[i].recording ==> e.cams[i].shmRequested)
  }

  lemma DeliverAsks(e: Engine, ctrl: Fd, ds: seq<Delivery>)
    requires Inv(e) && e.started && CountsRequests(e)
    ensures CountsRequests(Deliver(e, ctrl, ds)) && (HasAsked(e) ==> HasAsked(Deliver(e, ctrl, ds)))
  {
    hide CamOk, Exact;
    var e', n := Deliver(e, ctrl, ds), |Clamp(ds)|;
    DeliverMeans(e, ctrl, ds);
    DeliverKeeps(e, ctrl, ds);
    forall i | 0 <= i < 8
      ensures Requests(e'.cams[i].out) == OneIf(e'.cams[i].shmRequested)
      ensures e'.ctrl.Some?
      ensures HasAsked(e) ==> (e'.cams[i].mapped || e'.cams[i].recording ==> e'.cams[i].shmRequested)
    {
      if i < n { ServedAsks(e.cams[i], e'.cams[i], ds[i], Some(ctrl)); }
    }
  }

  lemma ServedAsks(c: Cam, c': Cam, d: Delivery, ctrl: Option<Fd>)
    requires Served(c, c', d, ctrl)
    ensures Requests(c'.out) == OneIf(c'.shmRequested)
    ensures c'.mapped || c'.recording ==> c'.shmRequested
  {
    ServedCounts(c, c', d, ctrl);
    var ready: Cam :| Prepared(c, ready, d) && Attached(ready, c', Some(d.fd), ctrl);
  }

  lemma ClearAsks(e: Engine)
    requires Inv(e) && CountsRequests(e)
    ensures CountsRequests(Clear(e)) && (HasAsked(e) ==> HasAsked(Clear(e)))
  {
    hide CamOk, Exact;
    var e' := Clear(e);
    ClearMeans(e);
    forall i | 0 <= i < 8
      ensures Requests(e'.cams[i].out) == OneIf(e'.cams[i].shmRequested)
      ensures HasAsked(e) ==> e'.cams[i].streamFd.None? && !e'.cams[i].recording
      ensures HasAsked(e) ==> (e'.cams[i].mapped ==> e'.cams[i].shmRequested)
    {
      if i < e.num { AttachedCounts(e.cams[i], e'.cams[i], None, None); }
    }
  }

  lemma StateChangeAsks(e: Engine, i: nat, streaming: bool)
    requires Inv(e) && i < e.num && CountsRequests(e)
    ensures CountsRequests(StateChanged(e, i, streaming)) && (HasAsked(e) ==> HasAsked(StateChanged(e, i, streaming)))
  {
    StateChangeMeans(e, i, streaming);
    RequestsAppend(e.cams[i].out, GetShm);
    hide StateChanged, CamOk, Exact;
  }

  lemma ReceiveAsks(e: Engine, i: nat, m: StreamMsg, rfd: Option<Fd>)
    requires Inv(e) && i < e.num && CountsRequests(e)
    ensures CountsRequests(Receive(e, i, m, rfd))
    ensures HasAsked(e) && Answers(e, Message(i, m, rfd)) ==> HasAsked(Receive(e, i, m, rfd))
  {
    MessageCounts(e.cams[i], m, rfd);
    HandleMsgKeeps(e.cams[i], m, rfd);
    RequestedBy(e.cams[i], m, rfd);
    hide HandleMsg, CamOk, Exact, Off, Requests, ReceiveLog;
  }

  lemma EventAsks(e: Engine, v: Event)
    requires Inv(e) && Possible(e, v) && CountsRequests(e)
    ensures CountsRequests(Do(e, v))
    ensures HasAsked(e) && Answers(e, v) ==> HasAsked(Do(e, v))
  {
    match v
    case ResourcesSet(startOk, pwOk, ctrl, ds) =>
      if e.started { DeliverAsks(e, ctrl, ds); }
      else if startOk { DeliverAsks(e.(started := true, pw := pwOk), ctrl, ds); }
    case Cleared => ClearAsks(e);
    case AppState(i, streaming) => StateChangeAsks(e, i, streaming);
    case Message(i, m, rfd) => ReceiveAsks(e, i, m, rfd);
    case PipeWireTick(ok, nodes) =>
      forall i | 0 <= i < 8 ensures Requests(Do(e, v).cams[i].out) == OneIf(Do(e, v).cams[i].shmRequested) {
        ReconnectMeans(e, ok, nodes, i);
      }
    case _ =>
  }

  ghost predicate AllAnswer(events: seq<Event>) {
    events != [] ==>
      var k := |events| - 1;
      AllAnswer(events[..k]) && (Possible(Run(events[..k]), events[k]) ==> Answers(Run(events[..k]), events[k]))
  }

  lemma {:induction false} RunAsks(events: seq<Event>)
    ensures CountsRequests(Run(events)) && (AllAnswer(events) ==> HasAsked(Run(events)))
  {
    if events != [] {
      var k := |events| - 1;
      var e := Run(events[..k]);
      RunAsks(events[..k]);
      CameraAlwaysExact(events[..k], Plain(0));
      if Possible(e, events[k]) {
        EventAsks(e, events[k]);
        hide Do;
      }
    }
  }

  /** Over any run the shared memory is asked for at most once on a stream socket. With a recorder that
      offers it only when asked, every camera that an application consumes over a stream socket has
      asked exactly once. */
  lemma MemoryAskedForOnce(events: seq<Event>, i: nat)
    requires i < 8
    ensures var c := Run(events).cams[i];
            && Requests(c.out) <= 1
            && (AllAnswer(events) && c.streaming && c.streamFd.Some? ==> Requests(c.out) == 1)
  {
    RunAsks(events);
    CameraAlwaysExact(events, Plain(0));
  }

  /** The input: a recorder that offers its memory unasked, and later another that cannot be mapped. An
      application that came in between consumes a camera that has no memory and never asked. */
  lemma UnaskedOfferStrands(ctrl: Fd, d: Delivery, a: Fd, b: Fd)
    requires d.nodeOk
    ensures var c := Run([ResourcesSet(true, true, ctrl, [d]), Message(0, Offer(1, true), Some(a)), AppState(0, true),
                          Message(0, Offer(1, false), Some(b))]).cams[0];
            c.streaming && c.streamFd.Some? && c.recording && !c.mapped && Requests(c.out) == 0
  {
    var set1 := ResourcesSet(true, true, ctrl, [d]);
    var events := [set1, Message(0, Offer(1, true), Some(a)), AppState(0, true), Message(0, Offer(1, false), Some(b))];
    var e := Deliver(Initial.(started := true, pw := true), ctrl, [d]);
    FirstCamera(ctrl, d);
    assert events[..0] == [] && events[..1][..0] == [] && events[..2][..1] == events[..1] && events[..3][..2] == events[..2];
    hide Deliver;
    assert Run(events[..1]) == e;
    var e1 := Receive(e, 0, Offer(1, true), Some(a));
    assert Run(events[..2]) == e1;
    var e2 := StateChanged(e1, 0, true);
    assert Run(events[..3]) == e2;
    assert Run(events) == Receive(e2, 0, Offer(1, false), Some(b));
  }

  lemma FirstCamera(ctrl: Fd, d: Delivery)
    requires d.nodeOk
    ensures var e := Deliver(Initial.(started := true, pw := true), ctrl, [d]);
            && e.num == 1 && |e.cams| == 8 && e.ctrl.Some?
            && var c := e.cams[0]; c.node && c.io && c.out == [] && !c.streaming && !c.recording && !c.mapped && c.streamFd.Some?
  {
    var started := Initial.(started := true, pw := true);
    DeliverMeans(started, ctrl, [d]);
    var e := Deliver(started, ctrl, [d]);
    hide Deliver;
    var ready: Cam :| Prepared(Fresh, ready, d) && Attached(ready, e.cams[0], Some(d.fd), Some(ctrl));
  }
}
