/** What the recorder on the control socket believes over whole runs of the camera engine: after
    which calls its last word about every camera is true. */
module CameraTold {
  import opened Protocol
  import opened CameraStream
  import opened Camera

  /** A call that leaves the recorder with a word that is not true: a delivery that swaps the
      control socket, or a PipeWire reconnect that destroys the nodes, while a camera records. */
  predicate Silent(e: Engine, v: Event)
    requires |e.cams| == MAX_CAMERAS
  {
    match v
    case ResourcesSet(_, _, _, ds) => e.started && exists i :: 0 <= i < |Clamp(ds)| && e.cams[i].recording
    case PipeWireTick(_, _) => !e.pw && exists i :: 0 <= i < MAX_CAMERAS && e.cams[i].recording
    case _ => false
  }

  lemma FirstDeliveryTells(e: Engine, startOk: bool, pwOk: bool, ctrl: Fd, ds: seq<Delivery>)
    requires Inv(e) && AllTold(e) && !e.started
    ensures AllTold(SetResources(e, startOk, pwOk, ctrl, ds))
  {
    if startOk {
      var started := e.(started := true, pw := pwOk);
      assert Inv(started) && forall i :: 0 <= i < MAX_CAMERAS ==> Off(e.cams[i]);
      DeliverTellsIff(started, ctrl, ds);
    }
  }

  lemma ClearTells(e: Engine)
    requires Inv(e) && AllTold(e)
    ensures AllTold(Clear(e))
  {
    if e.started {
      ClearKeeps(e);
      ClearSaysNothing(e.(ctrl := None, ctrlLog := [], closed := Log(e.closed, e.ctrl)), e.num);
    }
  }

  /** Without a control socket nothing can be said. */
  lemma {:induction false} ClearSaysNothing(e: Engine, k: nat)
    requires k <= |e.cams| && e.ctrl.None?
    ensures ClearUpTo(e, k).ctrlLog == e.ctrlLog && ClearUpTo(e, k).ctrl.None?
    decreases k
  {
    if k > 0 { ClearSaysNothing(e, k - 1); }
  }

  lemma ReceiveTells(e: Engine, i: nat, m: StreamMsg, rfd: Option<Fd>)
    requires Inv(e) && AllTold(e) && i < e.num
    ensures AllTold(Receive(e, i, m, rfd))
  {
    HandleMsgKeeps(e.cams[i], m, rfd);
  }

  /** From a state in which the recorder was told everything, a call keeps that exactly if it is
      not one of the silent ones. */
  lemma StepTellsIff(e: Engine, v: Event)
    requires Inv(e) && AllTold(e) && Possible(e, v)
    ensures AllTold(Do(e, v)) <==> !Silent(e, v)
  {
    match v
    case ResourcesSet(startOk, pwOk, ctrl, ds) =>
      if e.started { DeliverTellsIff(e, ctrl, ds); } else { FirstDeliveryTells(e, startOk, pwOk, ctrl, ds); }
    case Cleared => ClearTells(e);
    case AppState(i, streaming) => StateChangeTells(e, i, streaming);
    case Message(i, m, rfd) => ReceiveTells(e, i, m, rfd);
    case PipeWireLost =>
    case PipeWireTick(ok, nodes) => if !e.pw { ReconnectTellsIff(e, ok, nodes); }
    case Stopped =>
  }

  predicate SilentAt(events: seq<Event>, k: nat)
    requires k < |events|
  {
    Possible(Run(events[..k]), events[k]) && Silent(Run(events[..k]), events[k])
  }

  ghost predicate NeverSilent(events: seq<Event>) {
    forall k :: 0 <= k < |events| ==> !SilentAt(events, k)
  }

  ghost predicate AlwaysTold(events: seq<Event>) {
    forall k :: 0 <= k <= |events| ==> AllTold(Run(events[..k]))
  }

  lemma {:induction false} OneMore(events: seq<Event>, n: nat)
    requires |events| == n + 1
    ensures NeverSilent(events) <==> NeverSilent(events[..n]) && !SilentAt(events, n)
    ensures AlwaysTold(events) <==> AlwaysTold(events[..n]) && AllTold(Run(events))
  {
    hide AllTold, Run, SilentAt;
    forall k | 0 <= k <= n ensures events[..n][..k] == events[..k] {
    }
    forall k | 0 <= k < n ensures SilentAt(events, k) == SilentAt(events[..n], k) {
      SilentSame(events, n, k);
    }
    assert events[..n + 1] == events;
  }

  lemma SilentSame(events: seq<Event>, n: nat, k: nat)
    requires k < n <= |events|
    ensures SilentAt(events, k) == SilentAt(events[..n], k)
  {
    assert events[..n][..k] == events[..k];
  }

  lemma RunStep(events: seq<Event>, n: nat)
    requires |events| == n + 1
    ensures Inv(Run(events[..n]))
    ensures AllTold(Run(events[..n])) ==> (AllTold(Run(events)) <==> !SilentAt(events, n))
  {
    CameraAlwaysExact(events[..n], Plain(0));
    var e := Run(events[..n]);
    if AllTold(e) && Possible(e, events[n]) { StepTellsIff(e, events[n]); }
  }

  /** Over any run: the recorder's last word about every camera is true at all times exactly if no
      delivery meets a delivered camera that is recording, and no PipeWire reconnect meets a
      recording camera. */
  lemma {:induction false} AlwaysToldIff(events: seq<Event>)
    ensures AlwaysTold(events) <==> NeverSilent(events)
  {
    if events == [] {
      assert events[..0] == [];
    } else {
      var n := |events| - 1;
      AlwaysToldIff(events[..n]);
      OneMore(events, n);
      RunStep(events, n);
      assert events[..n][..n] == events[..n];
    }
  }

  // ---- the backend's discipline ----

  ghost predicate Unattached(e: Engine) {
    forall i :: 0 <= i < |e.cams| ==> e.cams[i].streamFd.None?
  }

  lemma ClearUnattaches(e: Engine)
    requires Inv(e)
    ensures Unattached(Clear(e))
  {
    ClearKeeps(e);
  }

  lemma UnattachedKept(e: Engine, v: Event)
    requires Inv(e) && Unattached(e) && Possible(e, v) && !v.ResourcesSet?
    ensures Unattached(Do(e, v))
  {
    match v
    case Cleared => ClearUnattaches(e);
    case _ =>
  }

  /** The resources were cleared, and none delivered since. */
  ghost predicate ClearedBefore(events: seq<Event>, k: nat)
    requires k <= |events|
  {
    exists j :: 0 <= j < k && events[j].Cleared? && forall m :: j < m < k ==> !events[m].ResourcesSet?
  }

  lemma {:induction false} ClearedMeansUnattached(events: seq<Event>, j: nat)
    requires j < |events| && events[j].Cleared? && forall m :: j < m < |events| ==> !events[m].ResourcesSet?
    ensures Unattached(Run(events))
    decreases |events|
  {
    var n := |events| - 1;
    CameraAlwaysExact(events[..n], Plain(0));
    if j == n {
      ClearUnattaches(Run(events[..n]));
    } else {
      ClearedMeansUnattached(events[..n], j);
      if Possible(Run(events[..n]), events[n]) { UnattachedKept(Run(events[..n]), events[n]); }
    }
  }

  /** No PipeWire reconnect meets a camera that is recording. */
  ghost predicate QuietTicks(events: seq<Event>) {
    forall k :: 0 <= k < |events| && events[k].PipeWireTick? ==> !SilentAt(events, k)
  }

  /** The backend clears the engine before every delivery. So used, the recorder's last word is true
      at all times as long as PipeWire does not come back while a camera records. */
  lemma ClearingKeepsTold(events: seq<Event>)
    requires forall k :: 0 <= k < |events| && events[k].ResourcesSet? ==> ClearedBefore(events, k)
    requires QuietTicks(events)
    ensures AlwaysTold(events)
  {
    AlwaysToldIff(events);
    forall k | 0 <= k < |events| ensures !SilentAt(events, k) {
      if events[k].ResourcesSet? {
        var j :| 0 <= j < k && events[j].Cleared? && forall m :: j < m < k ==> !events[m].ResourcesSet?;
        ClearedMeansUnattached(events[..k], j);
        CameraAlwaysExact(events[..k], Plain(0));
      }
    }
  }

  // ---- inputs for which it is not ----

  /** One camera, its node up, consumed by an application: it records. */
  lemma OneRecords(ctrl: Fd, d: Delivery) returns (e: Engine)
    requires d.nodeOk
    ensures e == Run([ResourcesSet(true, true, ctrl, [d]), AppState(0, true)])
    ensures Inv(e) && AllTold(e) && e.started && e.num == 1 && e.cams[0].recording
  {
    var events := [ResourcesSet(true, true, ctrl, [d]), AppState(0, true)];
    var first := [events[0]];
    assert first[..0] == [] && events[..1] == first;
    assert Possible(Initial, first[0]) && Run([]) == Initial;
    var e0 := Run(first);
    assert e0 == Do(Initial, events[0]);
    CameraAlwaysExact(first, Plain(0));
    CameraAlwaysExact(events, Plain(0));
    StepTellsIff(Initial, events[0]);
    var swapped := Swap(Initial.(started := true, pw := true), ctrl);
    assert Clamp([d]) == [d] && Excess([d]) == [] && Pop(swapped, 1, 0) == swapped;
    assert [d][..0] == [] && AttachAll(swapped.(num := 1), []) == swapped.(num := 1);
    assert e0.cams[0].node && e0.cams[0].streamFd == Some(d.fd) && e0.ctrl == Some(ctrl);
    e := Run(events);
    assert e == Do(e0, events[1]);
    StepTellsIff(e0, events[1]);
  }

  /** PipeWire comes back while the camera records: its node is rebuilt and nothing records, but the
      recorder was told START last. */
  lemma TickLeavesUntold(ctrl: Fd, d: Delivery, nodes: seq<bool>)
    requires d.nodeOk && |nodes| == MAX_CAMERAS
    ensures !AllTold(Run([ResourcesSet(true, true, ctrl, [d]), AppState(0, true), PipeWireLost, PipeWireTick(true, nodes)]))
  {
    var events := [ResourcesSet(true, true, ctrl, [d]), AppState(0, true), PipeWireLost, PipeWireTick(true, nodes)];
    var e := OneRecords(ctrl, d);
    assert events[..2] == [events[0], events[1]] && events[..3][..2] == events[..2];
    assert Run(events[..3]) == Do(e, PipeWireLost);
    CameraAlwaysExact(events[..3], Plain(0));
    StepTellsIff(Run(events[..3]), events[3]);
  }

  /** A delivery without a clear while the camera records: the new recorder is told nothing. */
  lemma DeliveryLeavesUntold(ctrl: Fd, d: Delivery, ctrl': Fd, d': Delivery)
    requires d.nodeOk
    ensures !AllTold(Run([ResourcesSet(true, true, ctrl, [d]), AppState(0, true), ResourcesSet(true, true, ctrl', [d'])]))
  {
    var events := [ResourcesSet(true, true, ctrl, [d]), AppState(0, true), ResourcesSet(true, true, ctrl', [d'])];
    var e := OneRecords(ctrl, d);
    assert events[..2] == [events[0], events[1]];
    assert Run(events) == Do(e, events[2]);
    StepTellsIff(e, events[2]);
  }
}
