/** What each event means for the backend's connection and for the frames on their way to the
    consumer, and what becomes of every frame in the end. */
module FrameFate {
  import opened Protocol
  import opened Backend

  /** The session is over, or was before: everything of it is gone, the output's layer stays, and no
      completion is reported. */
  ghost predicate Fallen(s: State, s': State) {
    InSync(s') && s'.inFallback && s'.frame.None? && s'.layer == s.layer && s'.next == s.next && s'.presented == s.presented
  }

  /** At most eight buffers, all of them importable, and no message refused on the way. */
  predicate Usable(i: Import) {
    1 <= i.count <= 8 && i.succeeds && (i.resizes ==> forall k :: 0 <= k < |i.pushes| ==> i.pushes[k])
  }

  /** When the consumer selects a buffer, the frame that waited for it, and no other, is reported presented. */
  lemma SelectedPresents(s: State)
    requires InSync(s)
    ensures var s' := Do(s, Selected);
            if s.inFallback then s' == s
            else
              && s'.consumerReady && !s'.awaiting && s'.frame.None?
              && s'.presented == s.presented + (if s.frame.Some? then [s.frame.value] else [])
              && s' == s.(consumerReady := true, awaiting := false, frame := None, presented := s'.presented)
  {
  }

  /** A new frame waits for the consumer exactly if the consumer had asked for one and the message gets
      out. Otherwise it is complete at once, and a message that fails ends the session. */
  lemma PresentMeans(s: State, sent: bool)
    requires InSync(s) && Turns(s)
    ensures var s' := Do(s, Presented(sent));
            && s'.next == s.next + 1 && !s'.consumerReady
            && if s.consumerReady && sent then
                 && s'.awaiting && s'.frame == Some(s.next) && s'.presented == s.presented
                 && s' == s.(next := s'.next, consumerReady := false, awaiting := true, frame := s'.frame)
               else
                 && s'.frame.None? && s'.presented == s.presented + [s.next]
                 && if s.consumerReady then InSync(s') && s'.inFallback && s'.layer == s.layer
                    else s' == s.(next := s'.next, frame := None, presented := s'.presented)
  {
  }

  /** Messages that all get out leave no trace here; the first that does not ends the session. */
  lemma SendMeans(s: State, oks: seq<bool>)
    requires InSync(s)
    ensures var s' := Do(s, SendAll(oks)); if s.inFallback || !(false in oks) then s' == s else Fallen(s, s')
  {
    if s.inFallback { PushesFallen(s, oks); } else { LivePushes(s, oks); }
  }

  lemma PeerLostMeans(s: State)
    requires InSync(s)
    ensures var s' := Do(s, PeerLost); if s.inFallback then s' == s else Fallen(s, s')
  {
  }

  lemma UsableIs(i: Import)
    ensures Usable(i) <==> Importable(i)
  {
  }

  /** A layer attached while connected has all buffers at once or ends the session; one attached in
      fallback waits for the next. */
  lemma AttachMeans(s: State, i: Import)
    requires InSync(s)
    ensures var s' := Do(s, LayerAttached(i));
            && s'.layer
            && if s.inFallback then s' == s.(layer := true)
               else if Usable(i) then
                 s' == (if i.resizes then s.(awaiting := false, frame := None) else s).(layer := true, imported := i.count)
               else Fallen(s.(layer := true), s')
  {
    UsableIs(i);
    if !s.inFallback {
      ImportSyncs(s.(layer := true, imported := 0), i);
      ImportKeepsLayer(s.(layer := true, imported := 0), i);
    }
  }

  /** The reconnect timer connects exactly if every step works. The session then has all buffers, no
      frame and no request; otherwise nothing but fallback is left. */
  lemma TickMeans(s: State, exits: bool, i: Import, request: bool, clipboard: bool, rest: seq<bool>)
    requires InSync(s)
    ensures var s' := Do(s, Tick(exits, i, request, clipboard, rest));
            if !s.inFallback then s' == s
            else if exits && (s.layer ==> Usable(i)) && request && clipboard && !(false in rest) then
              && InSync(s') && !s'.inFallback && !s'.consumerReady && !s'.awaiting && s'.frame.None?
              && s'.imported == (if s.layer then i.count else 0)
              && s'.layer == s.layer && s'.next == s.next && s'.presented == s.presented
            else Fallen(s, s')
  {
    UsableIs(i);
    if s.inFallback && exits {
      ReconnectIs(s, i, request, clipboard, rest);
      ReconnectLayer(s, i, request, clipboard, rest);
    }
  }

  lemma ReconnectLayer(s: State, i: Import, request: bool, clipboard: bool, rest: seq<bool>)
    requires InSync(s) && s.inFallback
    ensures var r := Reconnect(s, true, i, request, clipboard, rest);
            && r.layer == s.layer
            && (!r.inFallback ==> r.imported == if s.layer then i.count else 0)
  {
    var up := Backend.Up(s);
    ImportSyncs(up, i);
    ImportKeepsLayer(up, i);
    if !ImportFails(up, i) {
      var wired := Wired(ImportBuffers(up, i));
      GreetSyncs(wired, request, clipboard, rest);
      LivePushes(ResumeRendering(wired), rest);
    }
  }

  lemma ImportKeepsLayer(s: State, i: Import)
    requires Live(s)
    ensures ImportBuffers(s, i).layer == s.layer
  {
    if 0 < i.count <= MAX_BUFS { LayerImportIs(s, i); }
  }

  /** A resize takes the frame that waits away, and nothing else. */
  lemma ResizeMeans(s: State)
    requires InSync(s)
    ensures Do(s, Resized) == s.(awaiting := false, frame := None)
  {
  }

  // ---- the fate of a frame ----

  /** While a frame waits, the consumer's request is spent. */
  predicate Turns(s: State) {
    !(s.awaiting && s.consumerReady)
  }

  /** The events that take a waiting frame away unreported: another frame before the consumer asked,
      the end of the session, and a resize. */
  predicate Drops(e: Event) {
    match e
    case Presented(_) => true
    case SendAll(oks) => false in oks
    case PeerLost => true
    case Resized => true
    case LayerAttached(i) => !Usable(i) || i.resizes
    case _ => false
  }

  /** One event, told for one frame: when it is reported presented and when it is held afterwards. */
  lemma FrameStep(s: State, e: Event, n: nat)
    requires InSync(s) && Turns(s)
    ensures var s' := Do(s, e);
            && Turns(s')
            && (n in s'.presented <==>
                 || n in s.presented
                 || (e.Selected? && s.frame == Some(n))
                 || (e.Presented? && n == s.next && !(s.consumerReady && e.sent)))
            && (s'.frame == Some(n) <==>
                 || (s.frame == Some(n) && !e.Selected? && !Drops(e))
                 || (e.Presented? && n == s.next && s.consumerReady && e.sent))
  {
    hide GuardedPushes, Reconnect, AttachLayer, Present;
    match e
    case Tick(exits, i, request, clipboard, rest) => TickMeans(s, exits, i, request, clipboard, rest);
    case Selected => SelectedPresents(s);
    case Presented(sent) => PresentMeans(s, sent);
    case SendAll(oks) => SendMeans(s, oks);
    case PeerLost => PeerLostMeans(s);
    case LayerAttached(i) => AttachMeans(s, i);
    case Resized => ResizeMeans(s);
  }

  /** Frame n waited for the consumer when one of those events came. */
  predicate DroppedIn(events: seq<Event>, n: nat) {
    events != [] &&
    var k := |events| - 1;
    DroppedIn(events[..k], n) || (Run(events[..k]).frame == Some(n) && Drops(events[k]))
  }

  /** n counts among the frames of a run only once it has been presented. */
  lemma {:induction false} FateOf(events: seq<Event>, n: nat)
    ensures var s, dropped := Run(events), DroppedIn(events, n);
            && Turns(s)
            && (n < s.next <==> n in s.presented || s.frame == Some(n) || dropped)
            && !(n in s.presented && s.frame == Some(n)) && !(n in s.presented && dropped) && !(s.frame == Some(n) && dropped)
  {
    if events != [] {
      var k := |events| - 1;
      var s, e := Run(events[..k]), events[k];
      FateOf(events[..k], n);
      AlwaysInSync(events[..k]);
      PresentedAtMostOnce(events[..k]);
      EventInOrder(s, e);
      FrameStep(s, e, n);
      hide Do, InSync, InOrder;
    }
  }

  /** Over any run every frame that was presented to the output is either reported presented, or still
      waits for the consumer, or was dropped while it waited, by another frame, a resize or the end of
      the session; and never two of these. */
  lemma EveryFrameAccounted(events: seq<Event>, n: nat)
    requires n < Presents(events)
    ensures var s := Run(events);
            && OneIf(n in s.presented) + OneIf(s.frame == Some(n)) + OneIf(DroppedIn(events, n)) == 1
            && (DroppedIn(events, n) <==>
                 exists k :: 0 <= k < |events| && Run(events[..k]).frame == Some(n) && Drops(events[k]))
  {
    PresentedAtMostOnce(events);
    FateOf(events, n);
    DroppedAt(events, n);
  }

  lemma {:induction false} DroppedAt(events: seq<Event>, n: nat)
    ensures DroppedIn(events, n) <==>
              exists k :: 0 <= k < |events| && Run(events[..k]).frame == Some(n) && Drops(events[k])
  {
    hide Run, Drops;
    if events != [] {
      var m := |events| - 1;
      DroppedAt(events[..m], n);
      forall k | 0 <= k < m ensures events[..m][..k] == events[..k] {
      }
      if DroppedIn(events[..m], n) {
        var k :| 0 <= k < m && Run(events[..m][..k]).frame == Some(n) && Drops(events[..m][k]);
        assert Run(events[..k]).frame == Some(n) && Drops(events[k]);
      }
    }
  }
}
