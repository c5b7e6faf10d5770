/** One round of the frame loop from select to refresh, over both ends, and what its steps on the
    shared descriptors mean one by one. */
module FrameRound {
  import opened Protocol
  import Consumer
  import Backend
  import opened FrameTokens

  /** Nothing of the session but the current link's contents, `pending` and the counters may differ. */
  predicate SameSession(s: State, s': State) {
    && s'.at == s.at && s'.c.gen == s.c.gen && s'.c.fallback == s.c.fallback && s'.c.stored == s.c.stored
    && s'.c.links.Keys == s.c.links.Keys && s'.b.inFallback == s.b.inFallback
  }

  /** A new frame goes to the consumer with its fence exactly if KWin is connected, holds a request and
      the message gets out; the consumer's side changes in no other case. */
  lemma PresentMeans(s: State, sent: bool, fence: Option<Fd>)
    requires Inv(s) && Enabled(s, Present(sent, fence))
    ensures var s', hands := Do(s, Present(sent, fence)), !s.b.inFallback && s.b.consumerReady && sent;
            && s'.b == Backend.Do(s.b, Backend.Presented(sent))
            && s'.at == s.at && s'.asked == s.asked && s'.done == s.done
            && s'.sent == s.sent + OneIf(hands && s.at == s.c.gen)
            && if !hands then s'.c == s.c
               else
                 && s'.c == s.c.(links := s'.c.links)
                 && s'.c.links == s.c.links[s.at := s.c.links[s.at].(fences := s.c.links[s.at].fences + [fence])]
  {
  }

  /** A message is read exactly if a request is pending and the channel is readable. */
  lemma RefreshMeans(s: State, f: Consumer.FenceEvent, h: Consumer.HelloOutcome)
    requires Inv(s) && Enabled(s, Refresh(f, h))
    ensures var s' := Do(s, Refresh(f, h));
            && s'.c == Consumer.Refresh(s.c, f, h) && s'.b == s.b && s'.at == s.at
            && if s'.c.gen == s.c.gen then
                 s'.asked == s.asked && s'.sent == s.sent && s'.done == s.done + OneIf(s.c.pending && f.Readable?)
               else s'.asked == 0 == s'.sent && s'.done == 0
  {
  }

  /** The eventfd is emptied, whatever it held, and KWin holds one request. */
  lemma DrainMeans(s: State)
    requires Inv(s) && Enabled(s, Drain)
    ensures var s' := Do(s, Drain);
            && s'.b == Backend.Do(s.b, Backend.Selected) && s'.b.consumerReady
            && s' == s.(b := s'.b, c := s'.c) && s'.c == s.c.(links := s'.c.links)
            && s'.c.links == s.c.links[s.at := s.c.links[s.at].(ready := 0)]
  {
  }

  /** The steps of one end leave the other alone. A pickup points KWin at the generation picked up, and
      what begins or ends a session of the consumer starts its counters anew only with a generation. */
  lemma OneSided(s: State, e: Step)
    requires Inv(s) && Enabled(s, e)
    ensures var s' := Do(s, e);
            match e
            case Pickup(g, i, request, clipboard, rest) =>
              s' == s.(b := s'.b, at := g) && s'.b == Backend.Do(s.b, Backend.Tick(true, i, request, clipboard, rest))
            case Other(f) => s' == s.(b := s'.b) && s'.b == Backend.Do(s.b, f)
            case Rejoin(reply, ok, h) => s'.b == s.b && s'.at == s.at && s'.c == Consumer.TryExit(s.c, reply, ok, h)
            case PushSet(bufs, ok, h) => s'.b == s.b && s'.at == s.at && s'.c == Consumer.PushDmabufs(s.c, bufs, ok, h)
            case Select(idx) => s' == s.(c := s'.c, asked := s'.asked) && s'.c == Consumer.Select(s.c, idx)
                                && s'.asked == s.asked + OneIf(s'.c.pending && !s.c.pending)
            case _ => true
    ensures !e.Select? && !e.Refresh? && !e.Present? ==>
              if Do(s, e).c.gen == s.c.gen then Do(s, e).asked == s.asked && Do(s, e).sent == s.sent && Do(s, e).done == s.done
              else Do(s, e).asked == 0 == Do(s, e).sent && Do(s, e).done == 0
  {
  }

  /** The consumer asks and KWin learns of it; a frame that waited is reported presented. */
  lemma AskRound(s: State, idx: int)
    requires Inv(s) && Joined(s) && !s.c.pending && 0 <= idx < |s.c.stored|
    ensures Enabled(s, Select(idx))
    ensures var s1 := Do(s, Select(idx));
            && Enabled(s1, Drain)
            && var s2 := Do(s1, Drain);
               && SameSession(s, s2) && s2.c.pending && Link(s2) == Consumer.Link(Link(s).bufs, idx, 0, [])
               && s2.b.consumerReady && !s2.b.awaiting && s2.b.frame.None? && s2.b.next == s.b.next
               && s2.b.presented == s.b.presented + (if s.b.frame.Some? then [s.b.frame.value] else [])
               && s2.asked == s.asked + 1 && s2.sent == s.sent && s2.done == s.done
  {
    var s1 := Do(s, Select(idx));
    assert Link(s).ready == 0 && Link(s).fences == [];
    SelectKeeps(s, Select(idx));
    DrainMeans(s1);
  }

  /** KWin presents a frame with its fence, and the consumer takes the message. */
  lemma AnswerRound(s: State, fence: Option<Fd>, h: Consumer.HelloOutcome)
    requires Inv(s) && Joined(s) && s.c.pending && s.b.consumerReady && Link(s).ready == 0 && Link(s).fences == [] && !s.b.awaiting
    ensures Enabled(s, Present(true, fence))
    ensures var s1 := Do(s, Present(true, fence));
            && SameSession(s, s1) && Link(s1).fences == [fence] && Enabled(s1, Refresh(Consumer.Readable, h))
            && var s2 := Do(s1, Refresh(Consumer.Readable, h));
               && SameSession(s, s2) && !s2.c.pending && Link(s2) == Link(s)
               && !s2.b.consumerReady && s2.b.awaiting && s2.b.frame == Some(s.b.next)
               && s2.b.next == s.b.next + 1 && s2.b.presented == s.b.presented
               && s2.asked == s.asked && s2.sent == s.sent + 1 && s2.done == s.done + 1
  {
    PresentMeans(s, true, fence);
    var s1 := Do(s, Present(true, fence));
    ProducerStepKeeps(s, Present(true, fence));
    assert [fence][1..] == [];
    RefreshMeans(s1, Consumer.Readable, h);
  }

  /** From any state of any run in which both ends are connected and nothing is pending: one request,
      one frame and one message later both ends are connected and nothing is pending again. The frame
      waits for the next request, which reports it presented. */
  lemma OneRound(c: Conn, steps: seq<Step>, idx: int, fence: Option<Fd>, h: Consumer.HelloOutcome)
    requires var s := Run(c, steps); Joined(s) && !s.c.pending && 0 <= idx < |s.c.stored|
    ensures var s := Run(c, steps);
            var s' := Run(c, steps + [Select(idx)] + [Drain] + [Present(true, fence)] + [Refresh(Consumer.Readable, h)]);
            && s.c.gen in s.c.links && s'.c.gen in s'.c.links
            && Joined(s') && !s'.c.pending && SameSession(s, s')
            && Link(s') == Consumer.Link(Link(s).bufs, idx, 0, [])
            && s'.asked == s.asked + 1 && s'.sent == s.sent + 1 && s'.done == s.done + 1
            && s'.b.awaiting && s'.b.frame == Some(s.b.next) && !s'.b.consumerReady
            && s'.b.presented == s.b.presented + (if s.b.frame.Some? then [s.b.frame.value] else [])
  {
    var s := Run(c, steps);
    RunKeeps(c, steps);
    AskRound(s, idx);
    RunStep(c, steps, Select(idx));
    var steps1 := steps + [Select(idx)];
    RunStep(c, steps1, Drain);
    var steps2 := steps1 + [Drain];
    var s2 := Run(c, steps2);
    RunKeeps(c, steps2);
    AnswerRound(s2, fence, h);
    RunStep(c, steps2, Present(true, fence));
    var steps3 := steps2 + [Present(true, fence)];
    RunStep(c, steps3, Refresh(Consumer.Readable, h));
    hide Do, Run, Enabled, Inv;
  }
}
