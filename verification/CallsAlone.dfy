/** The calls of the consumer library each run by itself: the steps of module WriteGate, taken one
    after the other by one thread, do what the call is for, and the gate is down exactly when every
    service has been answered. */
module CallsAlone {
  import opened Protocol
  import opened WriteGate

  /** Thread t takes its steps with these outcomes; where a lock keeps it, it stays. */
  function Steps(s: State, t: Tid, oks: seq<bool>): State
    decreases |oks|
  {
    if oks == [] then s
    else Steps(if CanStep(s, t) then Advance(s, t, oks[0]) else s, t, oks[1..])
  }

  lemma FirstStep(s: State, t: Tid, ok: bool, oks: seq<bool>)
    ensures Steps(s, t, [ok] + oks) == Steps(if CanStep(s, t) then Advance(s, t, ok) else s, t, oks)
  {
    hide Advance;
    assert ([ok] + oks)[1..] == oks;
  }

  lemma ThreeSteps(s: State, t: Tid, a: bool, b: bool, c: bool, more: seq<bool>)
    requires CanStep(s, t) && CanStep(Advance(s, t, a), t) && CanStep(Advance(Advance(s, t, a), t, b), t)
    ensures Steps(s, t, [a, b, c] + more) == Steps(Advance(Advance(Advance(s, t, a), t, b), t, c), t, more)
  {
    hide Advance;
    FirstStep(s, t, a, [b, c] + more);
    FirstStep(Advance(s, t, a), t, b, [c] + more);
    FirstStep(Advance(Advance(s, t, a), t, b), t, c, more);
    assert [a] + ([b, c] + more) == [a, b, c] + more && [b] + ([c] + more) == [b, c] + more;
  }

  lemma TwoSteps(s: State, t: Tid, a: bool, b: bool)
    requires CanStep(s, t) && CanStep(Advance(s, t, a), t)
    ensures Steps(s, t, [a, b]) == Advance(Advance(s, t, a), t, b)
  {
    hide Advance;
    FirstStep(s, t, a, [b]);
    FirstStep(Advance(s, t, a), t, b, []);
    assert [a] + [b] == [a, b] && [b] + [] == [b];
  }

  predicate Quiet(s: State) {
    s.stateLock.None? && s.dataLock.None?
  }

  /** A teardown: the first to come closes the session, replaces the socket, raises the gate for the
      next session and says hello; whoever comes later finds it done. */
  lemma FallAlone(s: State, t: Tid, k: Option<nat>, created: bool, sent: bool)
    requires Quiet(s) && At(s, t) == Falling(k, FallLock)
    ensures s.fallback ==> var s' := Steps(s, t, [true, true]); At(s', t) == (if k.Some? then Requesting(k.value, ReqTest) else Idle) && s' == s.(pcs := s'.pcs)
    ensures !s.fallback ==>
              var s' := Steps(s, t, [true, true, true] + ([true, created] + [sent, true]));
              && At(s', t) == (if k.Some? then Requesting(k.value, ReqTest) else Idle)
              && s' == s.(pcs := s'.pcs, fallback := true, torn := s.torn + 1, gen := s.gen + 1,
                          fd := if created then Some(s.gen + 1) else None, mask := {}, gate := s.services > 0,
                          deposits := s.deposits + (if created && sent then 1 else 0),
                          unsent := s.unsent + (if created && sent then 0 else 1))
  {
    hide AdvanceInput, AdvanceRequest, AdvancePush, AdvanceExit;
    if s.fallback {
      TwoSteps(s, t, true, true);
    } else {
      ThreeSteps(s, t, true, true, true, [true, created] + [sent, true]);
      var closing := Advance(Advance(Advance(s, t, true), t, true), t, true);
      assert At(closing, t) == Falling(k, FallClose)
             && closing == s.(pcs := closing.pcs, stateLock := Some(t), dataLock := Some(t), fallback := true, torn := s.torn + 1);
      SecondHalf(closing, t, k, created, sent);
    }
  }

  lemma SecondHalf(s: State, t: Tid, k: Option<nat>, created: bool, sent: bool)
    requires At(s, t) == Falling(k, FallClose)
    ensures var s' := Steps(s, t, [true, created] + [sent, true]);
            && At(s', t) == (if k.Some? then Requesting(k.value, ReqTest) else Idle)
            && s' == s.(pcs := s'.pcs, stateLock := None, dataLock := None, gen := s.gen + 1,
                        fd := if created then Some(s.gen + 1) else None, mask := {}, gate := s.services > 0,
                        deposits := s.deposits + (if created && sent then 1 else 0),
                        unsent := s.unsent + (if created && sent then 0 else 1))
  {
    var s1 := Advance(s, t, true);
    var s2 := Advance(s1, t, created);
    SocketReplaced(s, t, k, created);
    HelloSaid(s2, t, k, created, sent);
    FirstStep(s, t, true, [created] + [sent, true]);
    FirstStep(s1, t, created, [sent, true]);
    TwoSteps(s2, t, sent, true);
    hide Advance;
    assert [true] + ([created] + [sent, true]) == [true, created] + [sent, true];
  }

  lemma SocketReplaced(s: State, t: Tid, k: Option<nat>, created: bool)
    requires At(s, t) == Falling(k, FallClose)
    ensures var s1 := Advance(s, t, true);
            && CanStep(s, t) && CanStep(s1, t)
            && var s2 := Advance(s1, t, created);
               && At(s2, t) == Falling(k, FallHello(created))
               && s2 == s.(pcs := s2.pcs, gen := s.gen + 1, fd := if created then Some(s.gen + 1) else None)
  {
    hide AdvanceInput, AdvanceRequest, AdvancePush, AdvanceExit;
  }

  lemma HelloSaid(s: State, t: Tid, k: Option<nat>, created: bool, sent: bool)
    requires At(s, t) == Falling(k, FallHello(created))
    ensures var s1 := Advance(s, t, sent);
            && CanStep(s, t) && CanStep(s1, t)
            && var s2 := Advance(s1, t, true);
               && At(s2, t) == (if k.Some? then Requesting(k.value, ReqTest) else Idle)
               && s2 == s.(pcs := s2.pcs, stateLock := None, dataLock := None, mask := {}, gate := s.services > 0,
                           deposits := s.deposits + (if created && sent then 1 else 0),
                           unsent := s.unsent + (if created && sent then 0 else 1))
  {
    hide AdvanceInput, AdvanceRequest, AdvancePush, AdvanceExit;
  }

  /** An input event while the gate is up: one frame on the open socket, under data_lock; if it cannot be
      sent, the session is torn down next. */
  lemma InputAlone(s: State, t: Tid, ok: bool)
    requires Quiet(s) && At(s, t).Idle? && s.fd.Some? && s.gate
    ensures var s0 := Do(s, StartInput(t));
            var s' := Steps(s0, t, [true, true, true] + [ok, true]);
            && Steps(s0, t, [true, true]).dataLock == Some(t)
            && At(s', t) == (if ok then Idle else Falling(None, FallLock))
            && s' == s.(pcs := s'.pcs, wire := if ok then s.wire[s.fd.value := Wire(s, s.fd.value) + [Input(t)]] else s.wire)
  {
    hide AdvanceFall, AdvanceRequest, AdvancePush, AdvanceExit;
    var s0 := Do(s, StartInput(t));
    TwoSteps(s0, t, true, true);
    ThreeSteps(s0, t, true, true, true, [ok, true]);
    var s3 := Advance(Advance(Advance(s0, t, true), t, true), t, true);
    assert At(s3, t) == Inputting(InSend(true, s.fd)) && s3 == s.(pcs := s3.pcs, dataLock := Some(t));
    InputSent(s3, t, true, ok);
  }

  /** With the gate down the same happens without the lock. */
  lemma UngatedInput(s: State, t: Tid, ok: bool)
    requires At(s, t).Idle? && s.fd.Some? && !s.gate
    ensures var s0 := Do(s, StartInput(t));
            var s' := Steps(s0, t, [true] + ([true] + [ok, true]));
            && Steps(s0, t, [true, true]).dataLock == s.dataLock
            && At(s', t) == (if ok then Idle else Falling(None, FallLock))
            && s' == s.(pcs := s'.pcs, wire := if ok then s.wire[s.fd.value := Wire(s, s.fd.value) + [Input(t)]] else s.wire)
  {
    hide AdvanceFall, AdvanceRequest, AdvancePush, AdvanceExit;
    var s0 := Do(s, StartInput(t));
    TwoSteps(s0, t, true, true);
    FirstStep(s0, t, true, [true] + [ok, true]);
    FirstStep(Advance(s0, t, true), t, true, [ok, true]);
    var s2 := Advance(Advance(s0, t, true), t, true);
    assert At(s2, t) == Inputting(InSend(false, s.fd)) && s2 == s.(pcs := s2.pcs);
    InputSent(s2, t, false, ok);
  }

  lemma InputSent(s: State, t: Tid, locked: bool, ok: bool)
    requires s.fd.Some? && At(s, t) == Inputting(InSend(locked, s.fd))
    ensures var s' := Steps(s, t, [ok, true]);
            && At(s', t) == (if ok then Idle else Falling(None, FallLock))
            && s' == s.(pcs := s'.pcs, dataLock := if locked then None else s.dataLock,
                        wire := if ok then s.wire[s.fd.value := Wire(s, s.fd.value) + [Input(t)]] else s.wire)
  {
    hide AdvanceFall, AdvanceRequest, AdvancePush, AdvanceExit;
    TwoSteps(s, t, ok, true);
  }

  /** The answer to a request while connected: the RESOURCE frame, and the EXTEND_FDS frame right after
      it if there are descriptors. */
  lemma RequestAlone(s: State, i: nat, n: nat)
    requires Quiet(s) && At(s, EVENT).Idle? && !s.fallback && s.fd.Some? && i < s.services && n > 0
    ensures var s' := Steps(Do(s, StartRequest(i, n)), EVENT, [true, true, true] + [true]);
            && At(s', EVENT) == Requesting(i, ReqTest)
            && s' == s.(pcs := s'.pcs, requested := s.requested + {i}, wire := s'.wire)
            && s'.wire == s.wire[s.fd.value := Wire(s, s.fd.value) + [Resource(i, true), Extend(i)]]
  {
    hide AdvanceFall, AdvanceInput, AdvancePush, AdvanceExit;
    var s0 := Do(s, StartRequest(i, n));
    var w := Wire(s, s.fd.value);
    ThreeSteps(s0, EVENT, true, true, true, [true]);
    var s3 := Advance(Advance(Advance(s0, EVENT, true), EVENT, true), EVENT, true);
    FirstStep(s3, EVENT, true, []);
    assert [true] + [] == [true] && w + [Resource(i, true)] + [Extend(i)] == w + [Resource(i, true), Extend(i)];
  }

  lemma PlainAnswer(s: State, i: nat)
    requires Quiet(s) && At(s, EVENT).Idle? && !s.fallback && s.fd.Some? && i < s.services
    ensures var s' := Steps(Do(s, StartRequest(i, 0)), EVENT, [true, true, true] + []);
            && At(s', EVENT) == Requesting(i, ReqTest)
            && s' == s.(pcs := s'.pcs, requested := s.requested + {i}, wire := s'.wire)
            && s'.wire == s.wire[s.fd.value := Wire(s, s.fd.value) + [Resource(i, false)]]
  {
    hide AdvanceFall, AdvanceInput, AdvancePush, AdvanceExit;
    ThreeSteps(Do(s, StartRequest(i, 0)), EVENT, true, true, true, []);
  }

  /** A send that fails ends the session: after the first one nothing was written, after the second the
      socket is left with half an answer. */
  lemma RequestFails(s: State, i: nat, n: nat, half: bool)
    requires Quiet(s) && At(s, EVENT).Idle? && !s.fallback && s.fd.Some? && i < s.services && (half ==> n > 0)
    ensures var s' := Steps(Do(s, StartRequest(i, n)), EVENT, if half then [true, true, false] + [true] else [true, false, true] + []);
            && At(s', EVENT) == Falling(Some(i), FallLock)
            && s' == s.(pcs := s'.pcs, requested := s.requested + {i},
                        wire := if half then s.wire[s.fd.value := Wire(s, s.fd.value) + [Resource(i, true)]] else s.wire,
                        broken := if half then s.broken + {s.fd.value} else s.broken)
  {
    hide AdvanceFall, AdvanceInput, AdvancePush, AdvanceExit;
    var s0 := Do(s, StartRequest(i, n));
    if half {
      ThreeSteps(s0, EVENT, true, true, false, [true]);
      FirstStep(Advance(Advance(Advance(s0, EVENT, true), EVENT, true), EVENT, false), EVENT, true, []);
      assert [true] + [] == [true];
    } else {
      ThreeSteps(s0, EVENT, true, false, true, []);
    }
  }

  /** Afterwards the service counts as answered, unless the session has ended meanwhile or there are
      too many services for a mask of 32 bits; the gate comes down with the last one. */
  lemma AnsweredAlone(s: State, i: nat)
    requires Quiet(s) && At(s, EVENT) == Requesting(i, ReqTest) && s.services > 0
    ensures var marks := !s.fallback && s.services < 32;
            var s' := Steps(s, EVENT, if marks then [true, true, true] + [] else [true] + []);
            && At(s', EVENT).Idle?
            && if !marks then s' == s.(pcs := s'.pcs)
               else
                 && s' == s.(pcs := s'.pcs, mask := s.mask + {i}, gate := s'.gate)
                 && (s'.gate <==> s.gate && exists j :: 0 <= j < s.services && j != i && j !in s.mask)
  {
    hide AdvanceFall, AdvanceInput, AdvancePush, AdvanceExit;
    if !s.fallback && s.services < 32 {
      ThreeSteps(s, EVENT, true, true, true, []);
      LeftOver(s.mask, i, s.services);
    } else {
      FirstStep(s, EVENT, true, []);
    }
  }

  lemma LeftOver(mask: set<nat>, i: nat, services: nat)
    ensures !Covers(mask + {i}, services) <==> exists j :: 0 <= j < services && j != i && j !in mask
  {
    if j :| 0 <= j < services && j != i && j !in mask { assert j !in mask + {i}; }
    if j :| 0 <= j < services && j !in mask + {i} { assert j !in mask; }
  }

  function Set(t: Tid, opening: bool): seq<Frame> {
    [Head(t, opening), Infos(t, opening)]
  }

  /** A session begins: the gate is up, nothing has been requested, and the stored set, if there is one,
      goes out whole on the new socket. */
  lemma ExitAlone(s: State, t: Tid)
    requires Quiet(s) && At(s, t).Idle? && s.fallback && s.fd.Some? && t !in s.openers
    ensures var s' := Steps(Do(s, StartExit(t)), t, [true, true, true] + if s.stored then [true, true, true] + [] else []);
            && At(s', t).Idle?
            && s' == s.(pcs := s'.pcs, fallback := false, session := s.session + 1, requested := {}, mask := {},
                        gate := s.services > 0, wire := if s.stored then s'.wire else s.wire)
            && (s.stored ==> s'.wire == s.wire[s.fd.value := Wire(s, s.fd.value) + Set(t, true)])
  {
    var s0 := Do(s, StartExit(t));
    ThreeSteps(s0, t, true, true, true, if s.stored then [true, true, true] + [] else []);
    var s3 := Advance(Advance(Advance(s0, t, true), t, true), t, true);
    if s.stored {
      PushedWhole(s3, t, true);
      assert s.openers + {t} - {t} == s.openers;
    } else {
      assert s.openers + {t} - {t} == s.openers;
    }
  }

  /** Both parts of a set, from the first send on. */
  lemma PushedWhole(s: State, t: Tid, opening: bool)
    requires s.fd.Some? && At(s, t) == Pushing(opening, PushSend(s.fd))
    ensures var s' := Steps(s, t, [true, true, true] + []);
            && At(s', t) == (if opening then Idle else Falling(None, FallLock))
            && s' == s.(pcs := s'.pcs, openers := s.openers - {t}, wire := s'.wire)
            && s'.wire == s.wire[s.fd.value := Wire(s, s.fd.value) + Set(t, opening)]
  {
    hide AdvanceFall, AdvanceInput, AdvanceRequest, AdvanceExit;
    ThreeSteps(s, t, true, true, true, []);
    var w := Wire(s, s.fd.value);
    assert w + [Head(t, opening)] + [Infos(t, opening)] == w + Set(t, opening);
  }

  /** A set handed over while connected goes out and the session is torn down next; an empty one is not
      sent, with the same end. */
  lemma PushAlone(s: State, t: Tid, nonEmpty: bool)
    requires Quiet(s) && At(s, t).Idle? && !s.fallback && s.fd.Some? && t !in s.openers
    ensures var s' := Steps(Do(s, StartPush(t, nonEmpty)), t, [true] + if nonEmpty then [true, true, true] + [] else []);
            && At(s', t) == Falling(None, FallLock)
            && s' == s.(pcs := s'.pcs, stored := nonEmpty,
                        wire := if nonEmpty then s.wire[s.fd.value := Wire(s, s.fd.value) + Set(t, false)] else s.wire)
  {
    var s0 := Do(s, StartPush(t, nonEmpty));
    FirstStep(s0, t, true, if nonEmpty then [true, true, true] + [] else []);
    assert s.openers - {t} == s.openers;
    if nonEmpty { PushedWhole(Advance(s0, t, true), t, false); }
  }

  /** A part that cannot be sent breaks the socket and ends the session. */
  lemma PushFails(s: State, t: Tid, opening: bool, half: bool)
    requires s.fd.Some? && At(s, t) == Pushing(opening, if half then InfosSend(s.fd) else PushSend(s.fd))
    ensures var s' := Steps(s, t, [false] + []);
            && At(s', t) == Falling(None, FallLock)
            && s' == s.(pcs := s'.pcs, openers := s.openers - {t}, broken := s.broken + {s.fd.value})
  {
    FirstStep(s, t, false, []);
  }

  /** In fallback nothing is written: a request is dropped and a set is only stored. */
  lemma FallbackAlone(s: State, t: Tid, i: nat, n: nat, nonEmpty: bool)
    requires s.fallback && i < s.services
    ensures var s' := Do(s, StartPush(t, nonEmpty)); s' == s.(pcs := s'.pcs, stored := nonEmpty) && At(s', t).Idle?
    ensures var s' := Steps(Do(s, StartRequest(i, n)), EVENT, [true] + []);
            s' == s.(pcs := s'.pcs, requested := s.requested + {i}) && At(s', EVENT).Idle?
  {
    FirstStep(Do(s, StartRequest(i, n)), EVENT, true, []);
  }

  // ---- the gate over runs ----

  /** The gate is down exactly when there is nothing left to answer, and with 32 services or more it
      never comes down. */
  ghost predicate GateExact(s: State) {
    && (s.gate <==> exists i :: 0 <= i < s.services && i !in s.mask)
    && (s.services >= 32 ==> s.mask == {} && forall t: Tid :: !Marking(At(s, t)))
  }

  predicate Marking(pc: Pc) {
    pc.Requesting? && (pc.request.ReqMarkLock? || pc.request.ReqMark?)
  }

  /** One thread's step as far as the gate is concerned: nothing happens to it, a session begins or
      ends, or another service has been answered. */
  ghost predicate MovesGate(s: State, s': State, t: Tid) {
    && s'.services == s.services && s'.pcs == s.pcs[t := At(s', t)]
    && (Marking(At(s', t)) ==> Marking(At(s, t)) || s.services < 32)
    && ((s'.gate == s.gate && s'.mask == s.mask)
        || (s'.mask == {} && s'.gate == (s.services > 0))
        || (exists i: nat :: Marking(At(s, t)) && s'.mask == s.mask + {i} && s'.gate == (s.gate && !Covers(s'.mask, s.services))))
  }

  lemma InputMoves(s: State, t: Tid, pc: InputPc, ok: bool)
    ensures MovesGate(s, AdvanceInput(s, t, pc, ok), t)
  {
  }

  lemma RequestMoves(s: State, t: Tid, i: nat, pc: RequestPc, ok: bool)
    requires At(s, t) == Requesting(i, pc)
    ensures MovesGate(s, AdvanceRequest(s, t, i, pc, ok), t)
  {
  }

  lemma PushMoves(s: State, t: Tid, opening: bool, pc: PushPc, ok: bool)
    ensures MovesGate(s, AdvancePush(s, t, opening, pc, ok), t)
  {
  }

  lemma FallMoves(s: State, t: Tid, k: Option<nat>, pc: FallPc, ok: bool)
    ensures MovesGate(s, AdvanceFall(s, t, k, pc, ok), t)
  {
  }

  lemma ExitMoves(s: State, t: Tid, flip: bool)
    ensures MovesGate(s, AdvanceExit(s, t, flip), t)
  {
  }

  lemma StepMoves(s: State, step: Step)
    ensures (step.Continue? && At(s, step.t).Idle?) || MovesGate(s, Do(s, step), Actor(step))
  {
    if step.Continue? {
      match At(s, step.t)
      case Idle =>
      case Inputting(pc) => InputMoves(s, step.t, pc, step.ok);
      case Requesting(i, pc) => RequestMoves(s, step.t, i, pc, step.ok);
      case Pushing(opening, pc) => PushMoves(s, step.t, opening, pc, step.ok);
      case Falling(k, pc) => FallMoves(s, step.t, k, pc, step.ok);
      case Leaving(flip) => ExitMoves(s, step.t, flip);
      hide MovesGate, AdvanceInput, AdvanceRequest, AdvancePush, AdvanceFall, AdvanceExit;
    }
  }

  lemma MovedGate(s: State, s': State, t: Tid)
    requires GateExact(s) && MovesGate(s, s', t)
    ensures GateExact(s')
  {
    if s'.mask == {} && s'.gate == (s.services > 0) {
      if s.services > 0 { assert 0 !in s'.mask; }
    } else if s'.gate != s.gate || s'.mask != s.mask {
      var i: nat :| Marking(At(s, t)) && s'.mask == s.mask + {i};
      assert s.services < 32;
      assert s'.gate <==> exists j :: 0 <= j < s.services && j !in s'.mask by {
        if j :| 0 <= j < s.services && j !in s'.mask { assert j !in s.mask; }
      }
    }
    forall u: Tid | s.services >= 32 ensures !Marking(At(s', u)) {
      assert !Marking(At(s, t)) && !Marking(At(s, u));
      if u != t { OthersStay(s, s', t, u); }
    }
  }

  lemma StepGate(s: State, step: Step)
    requires GateExact(s)
    ensures GateExact(Do(s, step))
  {
    StepMoves(s, step);
    if !(step.Continue? && At(s, step.t).Idle?) { MovedGate(s, Do(s, step), Actor(step)); }
    hide GateExact, MovesGate;
  }

  lemma {:induction false} GateAlong(services: nat, steps: seq<Step>, p: Promise)
    requires After(services, steps, p).Some?
    ensures GateExact(After(services, steps, p).value)
  {
    if steps == [] {
      if services > 0 { assert 0 !in Start(services).mask; }
    } else {
      var k := |steps| - 1;
      GateAlong(services, steps[..k], p);
      StepGate(After(services, steps[..k], p).value, steps[k]);
    }
  }

  /** In every reachable state. */
  lemma GateMeansUnanswered(s: State, p: Promise)
    requires Reachable(s, p)
    ensures s.gate <==> exists i :: 0 <= i < s.services && i !in s.mask
    ensures s.services >= 32 ==> s.gate
  {
    var services, steps :| After(services, steps, p) == Some(s);
    GateAlong(services, steps, p);
    if s.services >= 32 { assert 0 !in s.mask; }
  }
}
