/** The KWin side of a connection (anland_backend.cpp and anland_output.cpp, Arch variant):
    the flags that must agree about being connected, and the render loop's frame accounting. */
module Backend {
  import opened Protocol

  /** `ctxFallback` is the C context's flag. `inhibits` counts RenderLoop::inhibit() minus
      uninhibit(). `imported` is the layer's buffer count. Frames are numbered in the order they
      are presented: `next` is the number of the next one, `frame` the one the output holds, and
      `presented` lists those whose completion was reported. */
  datatype State = State(
    ctxFallback: bool,
    inFallback: bool,
    consumerReady: bool,
    timer: bool,
    inputNotifier: bool,
    readyNotifier: bool,
    audio: bool,
    layer: bool,
    imported: nat,
    frame: Option<nat>,
    awaiting: bool,
    inhibited: bool,
    inhibits: int,
    next: nat,
    presented: seq<nat>)

  /** After connect_to_deamon and before initialize() enters fallback. */
  const Constructed := State(true, false, false, false, false, false, false, false, 0, None, false, false, 0, 0, [])

  /** How importing the buffer set into the layer goes. The first buffer may bring a new size; the
      windows that then move are reported to the consumer, and `pushes` says how that turns out. */
  datatype Import = Import(count: int, resizes: bool, pushes: seq<bool>, succeeds: bool)

  function StopRendering(s: State): State {
    s.(awaiting := false, frame := if s.awaiting then None else s.frame,
       inhibits := if s.inhibited then s.inhibits else s.inhibits + 1, inhibited := true)
  }

  function ResumeRendering(s: State): State {
    s.(inhibits := if s.inhibited then s.inhibits - 1 else s.inhibits, inhibited := false)
  }

  /** AnlandBackend::enterFallback. */
  function EnterFallback(s: State): State {
    if s.inFallback then s
    else StopRendering(s).(inputNotifier := false, readyNotifier := false, imported := 0,
                           consumerReady := false, inFallback := true, timer := true)
  }

  /** enter_fallback of the C context: it detaches audio, releases, then calls back. */
  function CtxFallback(s: State): State {
    if s.ctxFallback then s else EnterFallback(s.(ctxFallback := true, audio := false))
  }

  /** force_fallback: the same without the callback. */
  function ForceFallback(s: State): State {
    if s.ctxFallback then s else s.(ctxFallback := true, audio := false)
  }

  /** push_output_event and its variants. */
  function Push(s: State, ok: bool): State {
    if s.ctxFallback || ok then s else CtxFallback(s)
  }

  /** A sender that first tests m_inFallback. */
  function GuardedPush(s: State, ok: bool): State {
    if s.inFallback then s else Push(s, ok)
  }

  function GuardedPushes(s: State, oks: seq<bool>): State {
    if oks == [] then s else GuardedPush(GuardedPushes(s, oks[..|oks| - 1]), oks[|oks| - 1])
  }

  /** resize drops a frame that waits for the consumer. */
  function Resize(s: State): State {
    if s.awaiting then s.(awaiting := false, frame := None) else s
  }

  /** A push that fails takes the session's descriptors away, so no buffer can be had any more. */
  predicate LayerImports(i: Import) {
    i.succeeds && !(i.resizes && false in i.pushes)
  }

  predicate Importable(i: Import) {
    0 < i.count <= MAX_BUFS && LayerImports(i)
  }

  /** AnlandEglLayer::importBuffers: all of the set or none of it. */
  function LayerImport(s: State, i: Import): State
    requires 0 < i.count
  {
    var released := s.(imported := 0);
    var sized := if i.resizes then Resize(GuardedPushes(released, i.pushes)) else released;
    sized.(imported := if LayerImports(i) then i.count else 0)
  }

  function ImportBuffers(s: State, i: Import): State {
    if !s.layer || s.inFallback || s.ctxFallback then s
    else
      var tried := if 0 < i.count <= MAX_BUFS then LayerImport(s, i) else s;
      if Importable(i) then tried else EnterFallback(ForceFallback(tried).(inFallback := false))
  }

  predicate ImportFails(s: State, i: Import) {
    s.layer && (s.inFallback || s.ctxFallback || !Importable(i))
  }

  /** The messages that open a session, with rendering resumed on the way. */
  function Greet(s: State, request: bool, clipboard: bool, rest: seq<bool>): State {
    var asked := Push(s, request);
    if asked.inFallback then asked
    else
      var clipped := GuardedPush(asked, clipboard);
      if clipped.inFallback then clipped else GuardedPushes(ResumeRendering(clipped), rest)
  }

  /** onReconnectTimer. `exits` says whether try_exit_fallback succeeds; `pushes` are the
      resource request, the clipboard and, once rendering resumed, everything re-sent. */
  function Reconnect(s: State, exits: bool, i: Import, request: bool, clipboard: bool, rest: seq<bool>): State {
    if !s.inFallback then s.(timer := false)
    else if s.ctxFallback && !exits then s
    else
      var up := s.(ctxFallback := false, inFallback := false, consumerReady := false, timer := false);
      var withBuffers := ImportBuffers(up, i);
      if ImportFails(up, i) then withBuffers
      else
        Greet(withBuffers.(inputNotifier := true, readyNotifier := true, audio := true), request, clipboard, rest)
  }

  function CompleteFrame(s: State): State {
    if s.frame.Some? then s.(frame := None, presented := s.presented + [s.frame.value]) else s
  }

  function OnConsumerReady(s: State): State {
    if s.awaiting then CompleteFrame(s.(awaiting := false)) else s
  }

  function BufferReady(s: State): State {
    if s.inFallback then s else OnConsumerReady(s.(consumerReady := true))
  }

  /** Presenting hands the buffer over only when the consumer asked for one. */
  predicate HandsOver(s: State, sent: bool) {
    s.consumerReady && (s.ctxFallback || sent)
  }

  function Start(s: State): State {
    s.(frame := Some(s.next), next := s.next + 1)
  }

  /** present: notifyFramePresented, then wait for the consumer or complete at once. */
  function Present(s: State, sent: bool): State {
    var started := Start(s);
    if HandsOver(s, sent) then started.(consumerReady := false, awaiting := true)
    else if s.consumerReady then CompleteFrame(CtxFallback(started.(consumerReady := false)))
    else CompleteFrame(started)
  }

  function AttachLayer(s: State, i: Import): State {
    var attached := s.(layer := true, imported := 0);
    if attached.inFallback || attached.ctxFallback then attached else ImportBuffers(attached, i)
  }

  datatype Event =
    | Tick(exits: bool, i: Import, request: bool, clipboard: bool, rest: seq<bool>)
    | Selected
    | Presented(sent: bool)
    | SendAll(oks: seq<bool>)
    | PeerLost
    | LayerAttached(i: Import)
    | Resized

  function Do(s: State, e: Event): State {
    match e
    case Tick(exits, i, request, clipboard, rest) => Reconnect(s, exits, i, request, clipboard, rest)
    case Selected => BufferReady(s)
    case Presented(sent) => Present(s, sent)
    case SendAll(oks) => GuardedPushes(s, oks)
    case PeerLost => CtxFallback(s)
    case LayerAttached(i) => AttachLayer(s, i)
    case Resized => Resize(s)
  }

  /** All six ways of recording "not connected" agree, nothing of a connection outlives it, and a
      frame in flight is one whose completion the consumer will signal. */
  ghost predicate InSync(s: State) {
    && s.ctxFallback == s.inFallback == s.timer == s.inhibited
    && s.inhibits == (if s.inFallback then 1 else 0)
    && s.inputNotifier == !s.inFallback && s.readyNotifier == !s.inFallback && s.audio == !s.inFallback
    && (s.inFallback ==> !s.consumerReady && !s.awaiting && s.imported == 0)
    && (!s.inFallback && s.layer ==> 1 <= s.imported <= MAX_BUFS)
    && (s.frame.Some? ==> s.awaiting)
  }

  /** Everything down, but possibly still inhibited from before, as in the reconnect handler. */
  ghost predicate HalfUp(s: State) {
    && !s.ctxFallback && !s.inFallback && !s.timer && s.inhibited && s.inhibits == 1
    && !s.awaiting && s.frame.None? && !s.consumerReady
  }

  /** What suffices for falling back to bring everything into agreement. */
  ghost predicate Live(s: State) {
    !s.ctxFallback && !s.inFallback && s.inhibits == OneIf(s.inhibited) && (s.frame.Some? ==> s.awaiting)
  }

  lemma {:induction false} LivePushes(s: State, oks: seq<bool>)
    requires Live(s)
    ensures var r := GuardedPushes(s, oks);
            if false in oks then InSync(r) && r.inFallback && KeepsFrames(s, r) && r.layer == s.layer else r == s
  {
    if oks != [] {
      var k := |oks| - 1;
      LivePushes(s, oks[..k]);
      assert oks == oks[..k] + [oks[k]];
    }
  }

  /** The layer's part of an import leaves a live session, or one that has fallen back already. */
  lemma LayerImportIs(s: State, i: Import)
    requires Live(s) && 0 < i.count
    ensures var r := LayerImport(s, i);
            && KeepsFrames(s, r)
            && if i.resizes && false in i.pushes then InSync(r) && r.inFallback && r.layer == s.layer
               else r == (if i.resizes then Resize(s) else s).(imported := if LayerImports(i) then i.count else 0)
  {
    if i.resizes { LivePushes(s.(imported := 0), i.pushes); }
  }

  /** A failed import ends in fallback, also if a push inside it went there before. */
  lemma ImportSyncs(s: State, i: Import)
    requires Live(s)
    ensures KeepsFrames(s, ImportBuffers(s, i))
    ensures ImportFails(s, i) ==> InSync(ImportBuffers(s, i)) && ImportBuffers(s, i).inFallback
    ensures !ImportFails(s, i) && s.layer ==>
              ImportBuffers(s, i) == (if i.resizes then Resize(s) else s).(imported := i.count) && 0 < i.count <= MAX_BUFS
  {
    if 0 < i.count <= MAX_BUFS { LayerImportIs(s, i); }
  }

  lemma {:induction false} PushesSync(s: State, oks: seq<bool>)
    requires InSync(s)
    ensures InSync(GuardedPushes(s, oks))
    ensures GuardedPushes(s, oks).inFallback <==> s.inFallback || false in oks
  {
    if oks != [] {
      var k := |oks| - 1;
      PushesSync(s, oks[..k]);
      assert oks == oks[..k] + [oks[k]];
    }
  }

  /** The state in which the reconnect handler imports. */
  function Up(s: State): State {
    s.(ctxFallback := false, inFallback := false, consumerReady := false, timer := false)
  }

  function Wired(s: State): State {
    s.(inputNotifier := true, readyNotifier := true, audio := true)
  }

  /** Greeting the consumer from a half-up session: connected if every message went out, and in
      fallback otherwise. */
  lemma GreetSyncs(s: State, request: bool, clipboard: bool, rest: seq<bool>)
    requires HalfUp(s) && s.inputNotifier && s.readyNotifier && s.audio && (s.layer ==> 1 <= s.imported <= MAX_BUFS)
    ensures var r := Greet(s, request, clipboard, rest);
            && InSync(r) && KeepsFrames(s, r) && !r.awaiting && r.frame.None? && !r.consumerReady
            && (!r.inFallback <==> request && clipboard && !(false in rest))
  {
    if request && clipboard {
      LivePushes(ResumeRendering(s), rest);
    }
  }

  lemma ReconnectIs(s: State, i: Import, request: bool, clipboard: bool, rest: seq<bool>)
    requires InSync(s) && s.inFallback
    ensures var r := Reconnect(s, true, i, request, clipboard, rest);
            && InSync(r) && KeepsFrames(s, r) && !r.awaiting && r.frame.None? && !r.consumerReady
            && (!r.inFallback <==> (s.layer ==> Importable(i)) && request && clipboard && !(false in rest))
  {
    ImportSyncs(Up(s), i);
    var withBuffers := ImportBuffers(Up(s), i);
    if !ImportFails(Up(s), i) {
      GreetSyncs(Wired(withBuffers), request, clipboard, rest);
      assert Reconnect(s, true, i, request, clipboard, rest) == Greet(Wired(withBuffers), request, clipboard, rest);
    }
  }

  /** A reconnect attempt ends connected exactly if every part of it worked; otherwise it ends in
      fallback, wherever it broke off, including through callbacks into fallback on the way. */
  lemma ReconnectSyncs(s: State, exits: bool, i: Import, request: bool, clipboard: bool, rest: seq<bool>)
    requires InSync(s)
    ensures InSync(Reconnect(s, exits, i, request, clipboard, rest))
    ensures s.inFallback ==>
              (!Reconnect(s, exits, i, request, clipboard, rest).inFallback <==>
                exits && (s.layer ==> Importable(i)) && request && clipboard && !(false in rest))
  {
    if s.inFallback && exits { ReconnectIs(s, i, request, clipboard, rest); }
  }

  lemma AttachSyncs(s: State, i: Import)
    requires InSync(s)
    ensures InSync(AttachLayer(s, i)) && KeepsFrames(s, AttachLayer(s, i))
  {
    if !s.inFallback { ImportSyncs(s.(layer := true, imported := 0), i); }
  }

  lemma EventSyncs(s: State, e: Event)
    requires InSync(s)
    ensures InSync(Do(s, e))
  {
    match e
    case Tick(exits, i, request, clipboard, rest) => ReconnectSyncs(s, exits, i, request, clipboard, rest);
    case SendAll(oks) => PushesSync(s, oks);
    case LayerAttached(i) => AttachSyncs(s, i);
    case _ =>
  }

  // ---- frames ----

  /** Nothing is presented: the output holds the frame it held, or none. */
  ghost predicate KeepsFrames(s: State, s': State) {
    s'.next == s.next && s'.presented == s.presented && (s'.frame == s.frame || s'.frame.None?)
  }

  /** Completions were reported in the order of presenting, none of them twice, and the frame the
      output holds is later than those. */
  ghost predicate InOrder(s: State) {
    && (forall i, j :: 0 <= i < j < |s.presented| ==> s.presented[i] < s.presented[j])
    && (forall i :: 0 <= i < |s.presented| ==> s.presented[i] < s.next)
    && (s.frame.Some? ==> s.frame.value < s.next && forall i :: 0 <= i < |s.presented| ==> s.presented[i] < s.frame.value)
  }

  lemma CompleteInOrder(s: State)
    requires InOrder(s)
    ensures InOrder(CompleteFrame(s)) && CompleteFrame(s).next == s.next
  {
  }

  lemma KeptInOrder(s: State, s': State)
    requires InOrder(s) && KeepsFrames(s, s')
    ensures InOrder(s')
  {
  }

  lemma StartInOrder(s: State)
    requires InOrder(s)
    ensures InOrder(Start(s))
  {
  }

  lemma PresentInOrder(s: State, sent: bool)
    requires InOrder(s)
    ensures InOrder(Present(s, sent)) && Present(s, sent).next == s.next + 1
  {
    hide InOrder;
    var started := Start(s);
    var fallen := CtxFallback(started.(consumerReady := false));
    StartInOrder(s);
    KeptInOrder(started, started.(consumerReady := false, awaiting := true));
    KeptInOrder(started, fallen);
    CompleteInOrder(fallen);
    CompleteInOrder(started);
  }

  /** Whatever happens besides presenting and completing keeps the frames. */
  lemma EventKeepsFrames(s: State, e: Event)
    requires InSync(s) && !e.Presented? && !e.Selected?
    ensures KeepsFrames(s, Do(s, e))
  {
    match e
    case Tick(exits, i, request, clipboard, rest) =>
      if s.inFallback && exits { ReconnectIs(s, i, request, clipboard, rest); }
    case SendAll(oks) => PushesKeepFrame(s, oks);
    case LayerAttached(i) => AttachSyncs(s, i);
    case _ =>
  }

  lemma EventInOrder(s: State, e: Event)
    requires InSync(s) && InOrder(s)
    ensures InOrder(Do(s, e)) && Do(s, e).next == s.next + OneIf(e.Presented?)
  {
    if e.Presented? {
      PresentInOrder(s, e.sent);
    } else if e.Selected? {
      if s.awaiting && !s.inFallback { CompleteInOrder(s.(consumerReady := true, awaiting := false)); }
    } else {
      EventKeepsFrames(s, e);
      KeptInOrder(s, Do(s, e));
    }
  }

  function Presents(events: seq<Event>): nat {
    if events == [] then 0
    else Presents(events[..|events| - 1]) + OneIf(events[|events| - 1].Presented?)
  }

  /** However completion is signalled, no frame is reported presented twice, and frames are
      reported in the order in which they were presented. */
  lemma {:induction false} PresentedAtMostOnce(events: seq<Event>)
    ensures InOrder(Run(events)) && Run(events).next == Presents(events)
  {
    if events != [] {
      PresentedAtMostOnce(events[..|events| - 1]);
      AlwaysInSync(events[..|events| - 1]);
      EventInOrder(Run(events[..|events| - 1]), events[|events| - 1]);
    }
  }

  /** Waiting for the consumer goes with a frame in flight, unless a second frame is presented
      while the first one still waits and the consumer has not asked for another. */
  lemma WaitingHasFrame(s: State, e: Event)
    requires InSync(s) && (s.awaiting ==> s.frame.Some?)
    ensures (Do(s, e).awaiting ==> Do(s, e).frame.Some?) <==> !(e.Presented? && s.awaiting && !s.consumerReady)
  {
    match e
    case Tick(exits, i, request, clipboard, rest) =>
      if s.inFallback {
        ReconnectStartsIdle(s, exits, i, request, clipboard, rest);
      }
    case SendAll(oks) =>
      PushesSync(s, oks);
      PushesKeepFrame(s, oks);
    case _ =>
  }

  lemma PushesKeepFrame(s: State, oks: seq<bool>)
    requires InSync(s)
    ensures var r := GuardedPushes(s, oks); KeepsFrames(s, r) && (r == s || (r.inFallback && !r.awaiting && r.frame.None?))
  {
    if s.inFallback {
      PushesFallen(s, oks);
    } else {
      LivePushes(s, oks);
    }
  }

  lemma {:induction false} PushesFallen(s: State, oks: seq<bool>)
    requires s.inFallback
    ensures GuardedPushes(s, oks) == s
  {
    if oks != [] { PushesFallen(s, oks[..|oks| - 1]); }
  }

  /** A new session starts with no frame in flight. */
  lemma ReconnectStartsIdle(s: State, exits: bool, i: Import, request: bool, clipboard: bool, rest: seq<bool>)
    requires InSync(s) && s.inFallback
    ensures var r := Reconnect(s, exits, i, request, clipboard, rest); !r.awaiting && r.frame.None? && !r.consumerReady
  {
    if exits { ReconnectIs(s, i, request, clipboard, rest); }
  }

  /** initialize() ends by entering fallback. */
  function Run(events: seq<Event>): State {
    if events == [] then EnterFallback(Constructed) else Do(Run(events[..|events| - 1]), events[|events| - 1])
  }

  lemma RunStep(events: seq<Event>, e: Event)
    ensures Run(events + [e]) == Do(Run(events), e)
  {
    assert (events + [e])[..|events|] == events;
  }

  /** The input: a frame waits for the consumer, and another is presented before the consumer asks
      for one. The output then waits and holds no frame. */
  lemma SecondFrameIsLost(i: Import)
    ensures var s := Run([Tick(true, i, true, true, []), Selected, Presented(true), Presented(true)]);
            s.awaiting && s.frame.None? && s.presented == [1]
  {
    var tick := Tick(true, i, true, true, []);
    var s0 := Run([]);
    assert InSync(s0) && s0.inFallback && !s0.layer && s0.presented == [] && s0.next == 0;
    ReconnectIs(s0, i, true, true, []);
    hide Run, Reconnect, EnterFallback;
    RunStep([], tick);
    RunStep([tick], Selected);
    RunStep([tick, Selected], Presented(true));
    RunStep([tick, Selected, Presented(true)], Presented(true));
    assert [tick, Selected] + [Presented(true)] == [tick, Selected, Presented(true)];
    assert [] + [tick] == [tick] && [tick] + [Selected] == [tick, Selected];
    assert [tick, Selected, Presented(true)] + [Presented(true)] == [tick, Selected, Presented(true), Presented(true)];
  }

  /** At every event-loop boundary after initialisation, whatever happened in between. */
  lemma {:induction false} AlwaysInSync(events: seq<Event>)
    ensures InSync(Run(events))
  {
    if events != [] {
      AlwaysInSync(events[..|events| - 1]);
      EventSyncs(Run(events[..|events| - 1]), events[|events| - 1]);
    }
  }
}
