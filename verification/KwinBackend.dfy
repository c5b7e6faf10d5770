/** The same KWin objects with their fields updated in place: AnlandBackend, the output it drives
    and the flag of the C context, whose callback re-enters the backend. */
module KwinBackend {
  import opened Protocol
  import opened Backend

  class AnlandBackend {
    var ctxFallback: bool
    var inFallback: bool
    var consumerReady: bool
    var timer: bool
    var inputNotifier: bool
    var readyNotifier: bool
    var audio: bool
    var layer: bool
    var imported: nat
    var frame: Option<nat>
    var awaiting: bool
    var inhibited: bool
    var inhibits: int
    var next: nat
    var presented: seq<nat>

    ghost function Abs(): State
      reads this
    {
      State(ctxFallback, inFallback, consumerReady, timer, inputNotifier, readyNotifier, audio, layer,
            imported, frame, awaiting, inhibited, inhibits, next, presented)
    }

    constructor ()
      ensures Abs() == Run([]) && InSync(Abs())
    {
      ctxFallback, inFallback, consumerReady, timer := true, false, false, false;
      inputNotifier, readyNotifier, audio, layer, imported := false, false, false, false, 0;
      frame, awaiting, inhibited, inhibits, next, presented := None, false, false, 0, 0, [];
      new;
      Fall();
    }

    method DropWaitingFrame()
      modifies this`awaiting, this`frame
      ensures Abs() == Resize(old(Abs()))
    {
      if awaiting {
        awaiting := false;
        frame := None;
      }
    }

    method StopLoop()
      modifies this`awaiting, this`frame, this`inhibits, this`inhibited
      ensures Abs() == StopRendering(old(Abs()))
    {
      DropWaitingFrame();
      if !inhibited {
        inhibits := inhibits + 1;
        inhibited := true;
      }
    }

    method ResumeLoop()
      modifies this`inhibits, this`inhibited
      ensures Abs() == ResumeRendering(old(Abs()))
    {
      if inhibited {
        inhibits := inhibits - 1;
        inhibited := false;
      }
    }

    method TeardownNotifiers()
      modifies this`inputNotifier, this`readyNotifier
      ensures Abs() == old(Abs()).(inputNotifier := false, readyNotifier := false)
    {
      inputNotifier := false;
      readyNotifier := false;
    }

    method ReleaseBuffers()
      modifies this`imported
      ensures Abs() == old(Abs()).(imported := 0)
    {
      imported := 0;
    }

    method RecordImported(count: nat)
      modifies this`imported
      ensures Abs() == old(Abs()).(imported := count)
    {
      imported := count;
    }

    method Fall()
      modifies this
      ensures Abs() == EnterFallback(old(Abs()))
    {
      if inFallback {
        return;
      }
      StopLoop();
      TeardownNotifiers();
      ReleaseBuffers();
      consumerReady := false;
      inFallback := true;
      timer := true;
    }

    /** The C context's enter_fallback: the flag first, then the callback into the backend. */
    method CtxFall()
      modifies this
      ensures Abs() == CtxFallback(old(Abs()))
    {
      if ctxFallback {
        return;
      }
      ctxFallback := true;
      audio := false;
      Fall();
    }

    method Force()
      modifies this`ctxFallback, this`audio
      ensures Abs() == ForceFallback(old(Abs()))
    {
      if ctxFallback {
        return;
      }
      ctxFallback := true;
      audio := false;
    }

    method PushOutputEvent(ok: bool) returns (result: int)
      modifies this
      ensures Abs() == Push(old(Abs()), ok)
      ensures result == if old(ctxFallback) || ok then 0 else -1
    {
      if ctxFallback {
        return 0;
      }
      if !ok {
        CtxFall();
        return -1;
      }
      return 0;
    }

    method PushUnlessFallen(ok: bool)
      modifies this
      ensures Abs() == GuardedPush(old(Abs()), ok)
    {
      if inFallback {
        return;
      }
      var _ := PushOutputEvent(ok);
    }

    method ImportIntoLayer(i: Import) returns (ok: bool)
      requires 0 < i.count <= MAX_BUFS && Live(Abs())
      modifies this
      ensures Abs() == LayerImport(old(Abs()), i)
      ensures ok == Importable(i)
    {
      LayerImportIs(Abs(), i);
      ReleaseBuffers();
      ghost var released := Abs();
      if i.resizes {
        LivePushes(Abs(), i.pushes);
        PushAll(i.pushes);
        DropWaitingFrame();
      }
      if !i.succeeds || ctxFallback {
        ReleaseBuffers();
        return false;
      }
      RecordImported(i.count);
      return true;
    }

    /** The context is forced down first, then the backend's own entry is made to run again. */
    method ForceDown()
      modifies this
      ensures Abs() == EnterFallback(ForceFallback(old(Abs())).(inFallback := false))
    {
      Force();
      inFallback := false;
      Fall();
    }

    method ImportSet(i: Import) returns (ok: bool)
      requires Live(Abs()) || inFallback
      modifies this
      ensures Abs() == ImportBuffers(old(Abs()), i)
      ensures ok == !ImportFails(old(Abs()), i)
    {
      if !layer {
        return true;
      }
      if inFallback || ctxFallback {
        return false;
      }
      ghost var was := Abs();
      if 0 < i.count <= MAX_BUFS {
        var fine := ImportIntoLayer(i);
        if fine {
          return true;
        }
      }
      ghost var tried := if 0 < i.count <= MAX_BUFS then LayerImport(was, i) else was;
      assert Abs() == tried;
      ForceDown();
      return false;
    }

    /** setupNotifiers and attaching the fresh audio socket. */
    method AttachChannels()
      modifies this`inputNotifier, this`readyNotifier, this`audio
      ensures Abs() == old(Abs()).(inputNotifier := true, readyNotifier := true, audio := true)
    {
      inputNotifier := true;
      readyNotifier := true;
      audio := true;
    }

    method PushAll(rest: seq<bool>)
      modifies this
      ensures Abs() == GuardedPushes(old(Abs()), rest)
    {
      for k := 0 to |rest|
        invariant Abs() == GuardedPushes(old(Abs()), rest[..k])
      {
        assert rest[..k + 1][..k] == rest[..k];
        PushUnlessFallen(rest[k]);
      }
      assert rest[..|rest|] == rest;
    }

    method OnReconnectTimer(exits: bool, i: Import, request: bool, clipboard: bool, rest: seq<bool>)
      requires InSync(Abs())
      modifies this
      ensures InSync(Abs()) && Abs() == Reconnect(old(Abs()), exits, i, request, clipboard, rest)
    {
      ReconnectSyncs(Abs(), exits, i, request, clipboard, rest);
      if !inFallback {
        timer := false;
        return;
      }
      if !exits {
        return;
      }
      ctxFallback := false;
      inFallback := false;
      consumerReady := false;
      timer := false;
      ghost var up := Abs();
      var imports := ImportSet(i);
      if !imports {
        return;
      }
      ghost var withBuffers := Abs();
      assert withBuffers == ImportBuffers(up, i);
      AttachChannels();
      GreetConsumer(request, clipboard, rest);
    }

    method GreetConsumer(request: bool, clipboard: bool, rest: seq<bool>)
      modifies this
      ensures Abs() == Greet(old(Abs()), request, clipboard, rest)
    {
      var asked := PushOutputEvent(request);
      if asked < 0 || inFallback {
        return;
      }
      PushUnlessFallen(clipboard);
      if inFallback {
        return;
      }
      ResumeLoop();
      PushAll(rest);
    }

    method EndFrame()
      modifies this`frame, this`presented
      ensures Abs() == CompleteFrame(old(Abs()))
    {
      if frame.None? {
        return;
      }
      presented := presented + [frame.value];
      frame := None;
    }

    method OnBufferReady()
      requires InSync(Abs())
      modifies this
      ensures InSync(Abs()) && Abs() == BufferReady(old(Abs()))
    {
      if inFallback {
        return;
      }
      consumerReady := true;
      if awaiting {
        awaiting := false;
        EndFrame();
      }
    }

    method NotifyFramePresented(sent: bool) returns (handed: bool)
      modifies this
      ensures handed == HandsOver(old(Abs()), sent)
      ensures var spent := old(Abs()).(consumerReady := false);
              Abs() == if old(consumerReady) && !handed then CtxFallback(spent) else spent
    {
      if !consumerReady {
        return false;
      }
      consumerReady := false;
      if !ctxFallback && !sent {
        CtxFall();
        return false;
      }
      return true;
    }

    method PresentFrame(sent: bool)
      requires InSync(Abs())
      modifies this
      ensures InSync(Abs()) && Abs() == Present(old(Abs()), sent)
    {
      EventSyncs(Abs(), Presented(sent));
      ghost var was := Abs();
      frame := Some(next);
      next := next + 1;
      assert Abs() == Start(was);
      var handed := NotifyFramePresented(sent);
      if handed {
        awaiting := true;
      } else {
        EndFrame();
      }
    }
  }
}
