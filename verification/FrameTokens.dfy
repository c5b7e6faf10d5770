/** The lockstep frame loop: consumer select/refresh on one side, KWin's drain and present on the
    other, over the eventfd and the render-done channel of each generation. */
module FrameTokens {
  import opened Protocol
  import Consumer
  import Backend

  /** `at` is the generation whose descriptors the producer picked up last. The three counters
      belong to the consumer's current generation: requests for a frame, render-done messages
      sent and render-done messages read. */
  datatype State = State(
    c: Consumer.State,
    b: Backend.State,
    at: nat,
    asked: nat,
    sent: nat,
    done: nat)

  datatype Step =
    | Rejoin(reply: Option<Down>, ok: bool, h: Consumer.HelloOutcome)
    | Select(idx: int)
    | Refresh(f: Consumer.FenceEvent, h: Consumer.HelloOutcome)
    | PushSet(bufs: seq<Consumer.Buf>, ok: bool, h: Consumer.HelloOutcome)
    | Pickup(g: nat, i: Backend.Import, request: bool, clipboard: bool, rest: seq<bool>)
    | Drain
    | Present(sent: bool, fence: Option<Fd>)
    | Other(e: Backend.Event)

  function Start(c: Conn): State {
    State(Consumer.Connected(c), Backend.Run([]), 0, 0, 0, 0)
  }

  function Link(s: State): Consumer.Link
    requires s.c.gen in s.c.links
  {
    s.c.links[s.c.gen]
  }

  /** The consumer selects again only after a refresh, or while the last request is unread. A
      deposit is picked up at most once (see Rendezvous), and its buffers must have been pushed.
      `Other` is everything KWin does besides reconnecting, draining and presenting. */
  ghost predicate Enabled(s: State, e: Step) {
    && s.c.gen in s.c.links
    && (match e
        case Select(_) => !s.c.pending || Link(s).ready > 0
        case Refresh(f, _) => f.Readable? && s.c.pending ==> Link(s).fences != []
        case Pickup(g, _, _, _, _) =>
          s.b.inFallback && s.at < g <= s.c.gen && g in s.c.links && (g == s.c.gen ==> !s.c.fallback)
        case Drain => !s.b.inFallback && s.at in s.c.links && s.c.links[s.at].ready > 0
        case Present(_, _) => s.b.inFallback || s.at in s.c.links
        case Other(f) => f.SendAll? || f.PeerLost? || f.LayerAttached? || f.Resized?
        case _ => true)
  }

  /** A new generation starts its own count. */
  function WithConsumer(s: State, c: Consumer.State): State {
    if c.gen == s.c.gen then s.(c := c) else s.(c := c, asked := 0, sent := 0, done := 0)
  }

  function DoSelect(s: State, idx: int): State
    requires s.c.gen in s.c.links
  {
    var c := Consumer.Select(s.c, idx);
    s.(c := c, asked := if c.pending && !s.c.pending then s.asked + 1 else s.asked)
  }

  function DoRefresh(s: State, f: Consumer.FenceEvent, h: Consumer.HelloOutcome): State
    requires s.c.gen in s.c.links
  {
    WithConsumer(s.(done := if s.c.pending && f.Readable? && Link(s).fences != [] then s.done + 1 else s.done),
                 Consumer.Refresh(s.c, f, h))
  }

  /** eventfd_read takes the whole counter, however many requests it holds. */
  function DoDrain(s: State): State
    requires s.at in s.c.links
  {
    s.(c := s.c.(links := s.c.links[s.at := s.c.links[s.at].(ready := 0)]), b := Backend.BufferReady(s.b))
  }

  function DoPresent(s: State, sent: bool, fence: Option<Fd>): State
    requires s.b.inFallback || s.at in s.c.links
  {
    var b := Backend.Present(s.b, sent);
    if s.b.inFallback || !sent || !Backend.HandsOver(s.b, sent) then s.(b := b)
    else
      var l := s.c.links[s.at];
      s.(b := b, c := s.c.(links := s.c.links[s.at := l.(fences := l.fences + [fence])]),
         sent := if s.at == s.c.gen then s.sent + 1 else s.sent)
  }

  ghost function Do(s: State, e: Step): State
    requires Enabled(s, e)
  {
    match e
    case Rejoin(reply, ok, h) => WithConsumer(s, Consumer.TryExit(s.c, reply, ok, h))
    case Select(idx) => DoSelect(s, idx)
    case Refresh(f, h) => DoRefresh(s, f, h)
    case PushSet(bufs, ok, h) => WithConsumer(s, Consumer.PushDmabufs(s.c, bufs, ok, h))
    case Pickup(g, i, request, clipboard, rest) =>
      s.(b := Backend.Reconnect(s.b, true, i, request, clipboard, rest), at := g)
    case Drain => DoDrain(s)
    case Present(sent, fence) => DoPresent(s, sent, fence)
    case Other(f) => s.(b := Backend.Do(s.b, f))
  }

  /** The request is in exactly one place: the eventfd, KWin's flag or the render-done channel. */
  ghost predicate Balanced(l: Consumer.Link, consumerReady: bool, pending: bool) {
    OneIf(l.ready > 0) + OneIf(consumerReady) + |l.fences| == OneIf(pending)
  }

  predicate Joined(s: State) {
    !s.c.fallback && !s.b.inFallback && s.at == s.c.gen
  }

  ghost predicate Tokens(s: State)
    requires s.c.gen in s.c.links
  {
    && s.asked == s.done + OneIf(s.c.pending)
    && s.sent == s.done + |Link(s).fences|
    && (Joined(s) ==> Balanced(Link(s), s.b.consumerReady, s.c.pending))
    && (s.at < s.c.gen ==> Link(s).fences == [] && Balanced(Link(s), false, s.c.pending))
    && (s.at == s.c.gen && s.b.inFallback ==> OneIf(Link(s).ready > 0) + |Link(s).fences| <= OneIf(s.c.pending))
  }

  ghost predicate Inv(s: State) {
    && Consumer.Valid(s.c) && Backend.InSync(s.b)
    && s.at <= s.c.gen
    && (s.at == s.c.gen ==> !s.c.fallback)
    && (!s.b.inFallback ==> s.at in s.c.links)
    && Tokens(s)
  }

  lemma RejoinKeeps(s: State, e: Step)
    requires Inv(s) && Enabled(s, e) && e.Rejoin?
    ensures Inv(Do(s, e))
  {
    Consumer.ExitKeepsValid(s.c, e.reply, e.ok, e.h);
  }

  lemma RefreshKeeps(s: State, e: Step)
    requires Inv(s) && Enabled(s, e) && e.Refresh?
    ensures Inv(Do(s, e))
  {
    Consumer.RefreshKeepsValid(s.c, e.f, e.h);
  }

  lemma SelectKeeps(s: State, e: Step)
    requires Inv(s) && Enabled(s, e) && e.Select?
    ensures Inv(Do(s, e))
  {
  }

  lemma PushKeeps(s: State, e: Step)
    requires Inv(s) && Enabled(s, e) && e.PushSet?
    ensures Inv(Do(s, e))
  {
    Consumer.PushKeepsValid(s.c, e.bufs, e.ok, e.h);
  }

  lemma ConsumerStepKeeps(s: State, e: Step)
    requires Inv(s) && Enabled(s, e)
    requires e.Rejoin? || e.Select? || e.Refresh? || e.PushSet?
    ensures Inv(Do(s, e))
  {
    hide Inv, Enabled;
    match e
    case Rejoin(_, _, _) => RejoinKeeps(s, e);
    case Refresh(_, _) => RefreshKeeps(s, e);
    case PushSet(_, _, _) => PushKeeps(s, e);
    case Select(_) => SelectKeeps(s, e);
  }

  lemma ProducerStepKeeps(s: State, e: Step)
    requires Inv(s) && Enabled(s, e)
    requires !e.Rejoin? && !e.Select? && !e.Refresh? && !e.PushSet?
    ensures Inv(Do(s, e))
  {
    match e
    case Pickup(g, i, request, clipboard, rest) =>
      Backend.ReconnectSyncs(s.b, true, i, request, clipboard, rest);
      Backend.ReconnectStartsIdle(s.b, true, i, request, clipboard, rest);
    case Drain => Backend.EventSyncs(s.b, Backend.Selected);
    case Present(sent, fence) => Backend.EventSyncs(s.b, Backend.Presented(sent));
    case Other(f) =>
      Backend.EventSyncs(s.b, f);
      OthersKeepRequest(s.b, f);
    case _ =>
  }

  /** Nothing but presenting and falling back uses up a request that KWin holds. */
  lemma OthersKeepRequest(b: Backend.State, f: Backend.Event)
    requires Backend.InSync(b)
    requires f.SendAll? || f.PeerLost? || f.LayerAttached? || f.Resized?
    ensures b.inFallback ==> Backend.Do(b, f).inFallback
    ensures !Backend.Do(b, f).inFallback ==> Backend.Do(b, f).consumerReady == b.consumerReady
  {
    if f.SendAll? {
      Backend.PushesSync(b, f.oks);
      Backend.PushesKeepFrame(b, f.oks);
    } else if f.LayerAttached? && !b.inFallback {
      Backend.ImportSyncs(b.(layer := true, imported := 0), f.i);
    }
  }

  /** Steps that cannot happen in a state leave it alone. */
  ghost function Run(c: Conn, steps: seq<Step>): State {
    if steps == [] then Start(c)
    else
      var s := Run(c, steps[..|steps| - 1]);
      if Enabled(s, steps[|steps| - 1]) then Do(s, steps[|steps| - 1]) else s
  }

  lemma {:induction false} RunKeeps(c: Conn, steps: seq<Step>)
    ensures Inv(Run(c, steps))
  {
    if steps == [] {
      Backend.AlwaysInSync([]);
    } else {
      var s := Run(c, steps[..|steps| - 1]);
      var e := steps[|steps| - 1];
      RunKeeps(c, steps[..|steps| - 1]);
      if Enabled(s, e) {
        if e.Rejoin? || e.Select? || e.Refresh? || e.PushSet? {
          ConsumerStepKeeps(s, e);
        } else {
          ProducerStepKeeps(s, e);
        }
      }
    }
  }

  /** While both ends are connected in one generation, a pending request is one token, and the
      requests made so far are the messages sent plus the one still on its way. */
  lemma FrameTokensConserved(c: Conn, steps: seq<Step>)
    ensures var s := Run(c, steps);
            && s.c.gen in s.c.links
            && (Joined(s) ==>
                 && Balanced(Link(s), s.b.consumerReady, s.c.pending)
                 && s.asked == s.sent + OneIf(Link(s).ready > 0) + OneIf(s.b.consumerReady))
  {
    RunKeeps(c, steps);
  }

  /** Even after the producer left, the channel holds at most one message, and no more messages
      are ever sent or read than requests were made. */
  lemma OneDoneAtATime(c: Conn, steps: seq<Step>)
    ensures var s := Run(c, steps);
            && s.c.gen in s.c.links
            && |Link(s).fences| <= 1
            && s.done <= s.sent <= s.asked <= s.done + 1
            && (Link(s).fences != [] ==> s.c.pending)
  {
    RunKeeps(c, steps);
  }

  /** Selecting again before the refresh keeps the count exactly if KWin has not yet drained the
      first request: the eventfd then merges the two. */
  lemma EarlySelectIsMergedOrExtra(c: Conn, steps: seq<Step>, idx: int)
    requires var s := Run(c, steps); Joined(s) && s.c.pending && 0 <= idx < |s.c.stored|
    ensures var s := Run(c, steps);
            && s.c.gen in s.c.links
            && var l := Link(DoSelect(s, idx));
               Balanced(l, s.b.consumerReady, true) <==> Link(s).ready > 0
  {
    RunKeeps(c, steps);
  }

  lemma RunStep(c: Conn, steps: seq<Step>, e: Step)
    requires Enabled(Run(c, steps), e)
    ensures Run(c, steps + [e]) == Do(Run(c, steps), e)
  {
    assert (steps + [e])[..|steps|] == steps;
  }

  /** The consumer has one buffer and leaves fallback in generation 1; KWin is still down. */
  predicate ConsumerUp(s: State, b: Consumer.Buf) {
    && !s.c.fallback && !s.c.pending && s.c.stored == [b] && s.c.gen == 1 && 1 in s.c.links
    && s.c.links[1] == Consumer.Link([[b]], 0, 0, []) && s.b == Backend.Run([]) && s.at == 0
  }

  lemma ConsumerConnects(c: Conn, b: Consumer.Buf, push: Step, rejoin: Step)
    requires push == PushSet([b], true, Consumer.Sent) && rejoin == Rejoin(Some(Announce(DepositOf(c, 1))), true, Consumer.Sent)
    ensures var s := Start(c);
            Enabled(s, push) && Enabled(Do(s, push), rejoin) && ConsumerUp(Do(Do(s, push), rejoin), b)
  {
  }

  /** Both ends are connected in generation 1. */
  predicate BothUp(s: State, b: Consumer.Buf) {
    && Joined(s) && s.c.stored == [b] && !s.c.pending && s.c.gen == 1 && 1 in s.c.links
    && s.c.links[1] == Consumer.Link([[b]], 0, 0, []) && !s.b.consumerReady
  }

  lemma KwinConnects(s: State, b: Consumer.Buf, i: Backend.Import)
    requires ConsumerUp(s, b)
    ensures Enabled(s, Pickup(1, i, true, true, [])) && BothUp(Do(s, Pickup(1, i, true, true, [])), b)
  {
    Backend.AlwaysInSync([]);
    Backend.ReconnectSyncs(s.b, true, i, true, true, []);
    Backend.ReconnectStartsIdle(s.b, true, i, true, true, []);
  }

  lemma BothConnect(c: Conn, b: Consumer.Buf, i: Backend.Import) returns (steps: seq<Step>)
    ensures steps == [PushSet([b], true, Consumer.Sent), Rejoin(Some(Announce(DepositOf(c, 1))), true, Consumer.Sent),
                      Pickup(1, i, true, true, [])]
    ensures BothUp(Run(c, steps), b)
  {
    hide Enabled, Do, ConsumerUp, BothUp;
    var push, rejoin := PushSet([b], true, Consumer.Sent), Rejoin(Some(Announce(DepositOf(c, 1))), true, Consumer.Sent);
    var pickup := Pickup(1, i, true, true, []);
    ConsumerConnects(c, b, push, rejoin);
    assert Run(c, []) == Start(c);
    RunStep(c, [], push);
    assert [] + [push] == [push];
    RunStep(c, [push], rejoin);
    assert [push] + [rejoin] == [push, rejoin];
    KwinConnects(Run(c, [push, rejoin]), b, i);
    RunStep(c, [push, rejoin], pickup);
    steps := [push, rejoin] + [pickup];
  }

  /** The input: the consumer selects again before the refresh, when KWin has drained its first
      request. One pending request is then two tokens. */
  lemma EarlySelectIsExtra(c: Conn, b: Consumer.Buf, i: Backend.Import)
    ensures var s := Run(c, [PushSet([b], true, Consumer.Sent), Rejoin(Some(Announce(DepositOf(c, 1))), true, Consumer.Sent),
                             Pickup(1, i, true, true, []), Select(0), Drain]);
            && Joined(s) && s.c.pending && s.c.gen in s.c.links && Link(s).ready == 0
            && !Balanced(Link(DoSelect(s, 0)), s.b.consumerReady, true)
  {
    var steps := BothConnect(c, b, i);
    var s := Run(c, steps);
    RunStep(c, steps, Select(0));
    SelectAndDrain(s);
    RunStep(c, steps + [Select(0)], Drain);
    assert steps + [Select(0)] + [Drain] == [steps[0], steps[1], steps[2], Select(0), Drain];
  }

  lemma SelectAndDrain(s: State)
    requires Joined(s) && |s.c.stored| == 1 && s.c.gen == 1 && 1 in s.c.links && s.c.links[1].fences == [] && s.c.links[1].ready == 0
    ensures var s1 := DoSelect(s, 0);
            && Enabled(s1, Drain)
            && var s2 := DoDrain(s1);
               && Joined(s2) && s2.c.pending && s2.c.gen in s2.c.links && Link(s2).ready == 0
               && !Balanced(Link(DoSelect(s2, 0)), s2.b.consumerReady, true)
  {
  }
}
