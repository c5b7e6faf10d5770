/** Runs that show each promise of module WriteGate to be needed: all others are kept, no send fails,
    and the result that rests on the promise does not hold. */
module GateRuns {
  import opened Protocol
  import opened WriteGate

  /** Any property that a run keeps; it stands in for Reachable below. */
  ghost predicate Closed(reached: State -> bool, p: Promise) {
    && reached(Start(1))
    && forall s, step :: reached(s) && Enabled(s, step, p) ==> reached(Do(s, step))
  }

  lemma Take(reached: State -> bool, s: State, step: Step, p: Promise) returns (s': State)
    requires Closed(reached, p) && reached(s) && Enabled(s, step, p)
    ensures s' == Do(s, step) && reached(s')
  {
    s' := Do(s, step);
  }

  /** One service, no lock held, nobody inside. */
  ghost predicate AtRest(s: State) {
    s.services == 1 && s.stateLock.None? && s.dataLock.None? && s.openers == {} && forall t: Tid :: At(s, t) == Idle
  }

  lemma Approach(reached: State -> bool, s: State, p: Promise) returns (s': State)
    requires Closed(reached, p) && reached(s) && At(s, 1) == Idle
    requires s.fallback && s.stored && s.stateLock.None? && s.openers == {}
    requires p.current ==> At(s, EVENT) == Idle && NoneUnlocked(s)
    ensures reached(s') && At(s', 1) == Leaving(true) && forall u: Tid :: u != 1 ==> At(s', u) == At(s, u)
    ensures s' == s.(pcs := s'.pcs, stateLock := Some(1))
  {
    var s1 := Take(reached, s, StartExit(1), p);
    assert At(s1, 1) == Leaving(false) && s1 == s.(pcs := s1.pcs);
    assert forall u: Tid :: u != 1 ==> At(s1, u) == At(s, u);
    s' := Take(reached, s1, Continue(1, true), p);
  }

  lemma Flip(reached: State -> bool, s: State, p: Promise) returns (s': State)
    requires Closed(reached, p) && reached(s) && At(s, 1) == Idle
    requires s.fallback && s.stored && s.stateLock.None? && s.openers == {}
    requires p.current ==> At(s, EVENT) == Idle && NoneUnlocked(s)
    ensures reached(s') && At(s', 1) == Pushing(true, PushRead) && forall u: Tid :: u != 1 ==> At(s', u) == At(s, u)
    ensures s' == Arm(s).(fallback := false, session := s.session + 1, requested := {}, openers := {1}, pcs := s'.pcs)
  {
    var s1 := Approach(reached, s, p);
    assert NoneUnlocked(s) ==> NoneUnlocked(s1);
    s' := Take(reached, s1, Continue(1, true), p);
  }

  lemma SendHead(reached: State -> bool, s: State, p: Promise, t: Tid, opening: bool) returns (s': State)
    requires Closed(reached, p) && reached(s) && At(s, t) == Pushing(opening, PushRead) && s.stored && s.fd.Some?
    ensures reached(s') && s' == Write(s, s.fd.value, Head(t, opening)).(pcs := s'.pcs)
    ensures At(s', t) == Pushing(opening, InfosRead) && forall u: Tid :: u != t ==> At(s', u) == At(s, u)
  {
    var s1 := Take(reached, s, Continue(t, true), p);
    assert At(s1, t) == Pushing(opening, PushSend(s.fd)) && s1 == s.(pcs := s1.pcs);
    s' := Take(reached, s1, Continue(t, true), p);
  }

  lemma SendInfos(reached: State -> bool, s: State, p: Promise, t: Tid) returns (s': State)
    requires Closed(reached, p) && reached(s) && At(s, t) == Pushing(true, InfosRead) && s.fd.Some?
    ensures reached(s') && s' == Write(s, s.fd.value, Infos(t, true)).(pcs := s'.pcs, openers := s.openers - {t})
    ensures At(s', t) == Idle && forall u: Tid :: u != t ==> At(s', u) == At(s, u)
  {
    var s1 := Take(reached, s, Continue(t, true), p);
    assert At(s1, t) == Pushing(true, InfosSend(s.fd)) && s1 == s.(pcs := s1.pcs);
    s' := Take(reached, s1, Continue(t, true), p);
  }

  /** Thread 1 leaves fallback and pushes the set, from rest. */
  lemma OpenNext(reached: State -> bool, s: State, p: Promise) returns (s': State)
    requires Closed(reached, p) && reached(s) && AtRest(s) && s.fallback && s.fd.Some? && s.stored
    ensures reached(s') && AtRest(s') && !s'.fallback && s'.fd == s.fd && s'.gen == s.gen
    ensures s'.gate && s'.requested == {} && s'.mask == {} && s'.stored && s'.broken == s.broken
    ensures Wire(s', s.fd.value) == Wire(s, s.fd.value) + [Head(1, true), Infos(1, true)]
    ensures forall g: nat :: g != s.fd.value ==> Wire(s', g) == Wire(s, g)
  {
    var s1 := Flip(reached, s, p);
    var s2 := SendHead(reached, s1, p, 1, true);
    s' := SendInfos(reached, s2, p, 1);
    assert {1} - {1} == {};
  }

  /** The set is stored, the session not yet begun. */
  lemma Stocked(reached: State -> bool, p: Promise) returns (s: State)
    requires Closed(reached, p)
    ensures reached(s) && AtRest(s) && s.fallback && s.fd == Some(1) && s.gen == 1 && s.stored
    ensures s.broken == {} && forall g: nat :: Wire(s, g) == []
  {
    s := Take(reached, Start(1), StartPush(1, true), p);
  }

  /** The first session is opened by thread 1, with its buffer set. */
  lemma OpenFirst(reached: State -> bool, p: Promise) returns (s: State)
    requires Closed(reached, p)
    ensures reached(s) && AtRest(s) && !s.fallback && s.fd == Some(1) && s.gen == 1 && s.stored
    ensures s.gate && s.requested == {} && s.mask == {} && s.broken == {}
    ensures Wire(s, 1) == [Head(1, true), Infos(1, true)] && Wire(s, 2) == []
  {
    var s0 := Stocked(reached, p);
    s := OpenNext(reached, s0, p);
  }

  /** The event thread has sent the RESOURCE frame of service 0. */
  lemma SendFirst(reached: State -> bool, s: State, p: Promise) returns (s': State)
    requires Closed(reached, p) && reached(s) && Enabled(s, StartRequest(0, 1), p)
    requires !s.fallback && s.dataLock.None? && s.fd.Some?
    ensures reached(s')
    ensures s' == Write(s, s.fd.value, Resource(0, true)).(pcs := s'.pcs, dataLock := Some(EVENT), requested := s.requested + {0})
    ensures At(s', EVENT) == Requesting(0, ReqSecond(s.fd.value)) && forall u: Tid :: u != EVENT ==> At(s', u) == At(s, u)
  {
    var s1 := Take(reached, s, StartRequest(0, 1), p);
    assert At(s1, EVENT) == Requesting(0, ReqLock(1)) && s1 == s.(pcs := s1.pcs, requested := s.requested + {0});
    var s2 := Take(reached, s1, Continue(EVENT, true), p);
    assert At(s2, EVENT) == Requesting(0, ReqFirst(1)) && s2 == s1.(pcs := s2.pcs, dataLock := Some(EVENT));
    s' := Take(reached, s2, Continue(EVENT, true), p);
  }

  /** The event thread sends the EXTEND_FDS frame and unlocks. */
  lemma SendSecond(reached: State -> bool, s: State, p: Promise) returns (s': State)
    requires Closed(reached, p) && reached(s) && s.fd.Some? && At(s, EVENT) == Requesting(0, ReqSecond(s.fd.value))
    ensures reached(s') && s' == Write(s, s.fd.value, Extend(0)).(pcs := s'.pcs, dataLock := None)
    ensures At(s', EVENT) == Requesting(0, ReqTest) && forall u: Tid :: u != EVENT ==> At(s', u) == At(s, u)
  {
    var s1 := Take(reached, s, Continue(EVENT, true), p);
    assert At(s1, EVENT) == Requesting(0, ReqUnlock(true)) && s1 == Write(s, s.fd.value, Extend(0)).(pcs := s1.pcs);
    s' := Take(reached, s1, Continue(EVENT, true), p);
  }

  /** The event thread is about to record service 0 as sent. */
  lemma TestDone(reached: State -> bool, s: State, p: Promise) returns (s': State)
    requires Closed(reached, p) && reached(s) && At(s, EVENT) == Requesting(0, ReqTest) && !s.fallback && s.services == 1
    ensures reached(s') && s' == s.(pcs := s'.pcs)
    ensures At(s', EVENT) == Requesting(0, ReqMarkLock) && forall u: Tid :: u != EVENT ==> At(s', u) == At(s, u)
  {
    s' := Take(reached, s, Continue(EVENT, true), p);
  }

  /** It records it, and as the only service is out the gate drops. */
  lemma Mark(reached: State -> bool, s: State, p: Promise) returns (s': State)
    requires Closed(reached, p) && reached(s) && At(s, EVENT) == Requesting(0, ReqMarkLock) && s.services == 1 && s.mask == {} && s.dataLock.None?
    ensures reached(s') && s' == s.(pcs := s'.pcs, mask := {0}, gate := false)
    ensures At(s', EVENT) == Idle && forall u: Tid :: u != EVENT ==> At(s', u) == At(s, u)
  {
    var s1 := Take(reached, s, Continue(EVENT, true), p);
    assert At(s1, EVENT) == Requesting(0, ReqMark) && s1 == s.(pcs := s1.pcs, dataLock := Some(EVENT));
    s' := Take(reached, s1, Continue(EVENT, true), p);
    assert s.mask + {0} == {0};
  }

  /** Thread 2 sees the gate down and is about to send without the lock. */
  lemma PassGate(reached: State -> bool, s: State, p: Promise) returns (s': State)
    requires Closed(reached, p) && reached(s) && At(s, 2) == Idle && !s.fallback && !s.gate && s.openers == {}
    ensures reached(s') && s' == s.(pcs := s'.pcs)
    ensures At(s', 2) == Inputting(InSend(false, s.fd)) && forall u: Tid :: u != 2 ==> At(s', u) == At(s, u)
  {
    var s1 := Take(reached, s, StartInput(2), p);
    assert At(s1, 2) == Inputting(InGate) && s1 == s.(pcs := s1.pcs);
    var s2 := Take(reached, s1, Continue(2, true), p);
    assert At(s2, 2) == Inputting(InFd(false)) && s2 == s.(pcs := s2.pcs);
    s' := Take(reached, s2, Continue(2, true), p);
  }

  /** From here the event thread serves once more while thread 2 sends: the input frame lands in
      the middle. */
  lemma Wedge(reached: State -> bool, s: State, p: Promise) returns (s': State)
    requires Closed(reached, p) && reached(s) && Enabled(s, StartRequest(0, 1), p)
    requires !s.fallback && s.dataLock.None? && s.fd.Some?
    requires At(s, 2) == Inputting(InSend(false, s.fd))
    ensures reached(s') && s'.broken == s.broken
    ensures Wire(s', s.fd.value) == Wire(s, s.fd.value) + [Resource(0, true), Input(2), Extend(0)]
  {
    var g := s.fd.value;
    var s1 := SendFirst(reached, s, p);
    var s2 := Take(reached, s1, Continue(2, true), p);
    assert Wire(s2, g) == Wire(s, g) + [Resource(0, true)] + [Input(2)] && s2.fd == s.fd && At(s2, EVENT) == At(s1, EVENT);
    s' := SendSecond(reached, s2, p);
    assert Wire(s', g) == Wire(s, g) + [Resource(0, true)] + [Input(2)] + [Extend(0)];
  }

  lemma OnceRun(reached: State -> bool, p: Promise) returns (s: State)
    requires Closed(reached, p) && p == Everything.(once := false)
    ensures reached(s) && s.broken == {}
    ensures Wire(s, 1) == [Head(1, true), Infos(1, true), Resource(0, true), Extend(0), Resource(0, true), Input(2), Extend(0)]
  {
    var s1 := OpenFirst(reached, p);
    var s2 := SendFirst(reached, s1, p);
    var s3 := SendSecond(reached, s2, p);
    var s4 := TestDone(reached, s3, p);
    var s5 := Mark(reached, s4, p);
    var s6 := PassGate(reached, s5, p);
    s := Wedge(reached, s6, p);
  }

  /** The session of s is torn down and its successor deposited, at rest but for other threads. */
  ghost predicate TornDown(s: State, s': State) {
    && s'.fallback && s'.gen == s.gen + 1 && s'.fd == Some(s.gen + 1) && s'.wire == s.wire
    && s'.stateLock.None? && s'.dataLock.None? && s'.mask == {} && (s'.gate <==> s.services > 0)
    && s'.services == s.services && s'.stored == s.stored && s'.openers == s.openers && s'.broken == s.broken
    && At(s', 3) == Idle && forall u: Tid :: u != 3 ==> At(s', u) == At(s, u)
  }

  /** Thread 3 tears the session down; nobody holds a lock. */
  lemma TearDown(reached: State -> bool, s: State, p: Promise) returns (s': State)
    requires Closed(reached, p) && reached(s) && At(s, 3) == Idle && !s.fallback && s.stateLock.None? && s.dataLock.None?
    requires p.drained ==> OthersRead(s, 3)
    ensures reached(s') && TornDown(s, s')
  {
    var s1 := Take(reached, s, StartFall(3), p);
    assert At(s1, 3) == Falling(None, FallLock) && s1 == s.(pcs := s1.pcs);
    assert forall u: Tid :: u != 3 ==> At(s1, u) == At(s, u);
    var s2 := Take(reached, s1, Continue(3, true), p);
    assert At(s2, 3) == Falling(None, FallTest) && s2 == s.(pcs := s2.pcs, stateLock := Some(3));
    assert forall u: Tid :: u != 3 ==> At(s2, u) == At(s, u);
    var s3 := Close(reached, s2, p);
    s' := Replace(reached, s3, p);
  }

  lemma Close(reached: State -> bool, s: State, p: Promise) returns (s': State)
    requires Closed(reached, p) && reached(s) && At(s, 3) == Falling(None, FallTest) && s.dataLock.None? && !s.fallback
    ensures reached(s') && At(s', 3) == Falling(None, FallOpen) && forall u: Tid :: u != 3 ==> At(s', u) == At(s, u)
    ensures s' == s.(pcs := s'.pcs, dataLock := Some(3), fd := None, fallback := true, torn := s.torn + 1)
  {
    var s1 := Take(reached, s, Continue(3, true), p);
    assert At(s1, 3) == Falling(None, FallData) && s1 == s.(pcs := s1.pcs, fallback := true, torn := s.torn + 1);
    assert forall u: Tid :: u != 3 ==> At(s1, u) == At(s, u);
    var s2 := Take(reached, s1, Continue(3, true), p);
    assert At(s2, 3) == Falling(None, FallClose) && s2 == s1.(pcs := s2.pcs, dataLock := Some(3));
    assert forall u: Tid :: u != 3 ==> At(s2, u) == At(s, u);
    s' := Take(reached, s2, Continue(3, true), p);
  }

  lemma Replace(reached: State -> bool, s: State, p: Promise) returns (s': State)
    requires Closed(reached, p) && reached(s) && At(s, 3) == Falling(None, FallOpen) && s.dataLock == Some(3) && s.fallback
    requires p.drained ==> OthersRead(s, 3)
    ensures reached(s') && TornDown(s, s')
  {
    var s1 := Take(reached, s, Continue(3, true), p);
    assert At(s1, 3) == Falling(None, FallHello(true)) && forall u: Tid :: u != 3 ==> At(s1, u) == At(s, u);
    assert s1 == s.(pcs := s1.pcs, gen := s.gen + 1, fd := Some(s.gen + 1));
    s' := SayHello(reached, s1, p);
  }

  lemma SayHello(reached: State -> bool, s: State, p: Promise) returns (s': State)
    requires Closed(reached, p) && reached(s) && At(s, 3) == Falling(None, FallHello(true))
    ensures reached(s') && At(s', 3) == Idle && forall u: Tid :: u != 3 ==> At(s', u) == At(s, u)
    ensures s' == Arm(s).(pcs := s'.pcs, deposits := s.deposits + 1, dataLock := None, stateLock := None)
  {
    var s1 := Take(reached, s, Continue(3, true), p);
    assert At(s1, 3) == Falling(None, FallUnlock) && forall u: Tid :: u != 3 ==> At(s1, u) == At(s, u);
    s' := Take(reached, s1, Continue(3, true), p);
  }

  lemma CurrentRun(reached: State -> bool, p: Promise) returns (s: State)
    requires Closed(reached, p) && p == Everything.(current := false)
    ensures reached(s) && s.broken == {}
    ensures Wire(s, 2) == [Head(1, true), Infos(1, true), Resource(0, true), Input(2), Extend(0)]
  {
    var s1 := OpenFirst(reached, p);
    var s2 := SendFirst(reached, s1, p);
    var s3 := SendSecond(reached, s2, p);
    var s4 := TestDone(reached, s3, p);
    assert Wire(s4, 2) == Wire(s1, 2);
    var s5 := LateMark(reached, s4, p);
    var s6 := PassGate(reached, s5, p);
    s := Wedge(reached, s6, p);
  }

  lemma LateMark(reached: State -> bool, s: State, p: Promise) returns (s': State)
    requires Closed(reached, p) && reached(s) && !p.current && s.services == 1 && s.gen == 1 && Wire(s, 2) == [] && s.stored && s.openers == {}
    requires !s.fallback && s.stateLock.None? && s.dataLock.None? && At(s, EVENT) == Requesting(0, ReqMarkLock)
    requires forall u: Tid :: u != EVENT ==> At(s, u) == Idle
    ensures reached(s') && !s'.fallback && s'.fd == Some(2) && !s'.gate && s'.requested == {} && s'.dataLock.None?
    ensures s'.services == 1 && s'.openers == {} && s'.broken == s.broken && forall u: Tid :: At(s', u) == Idle
    ensures Wire(s', 2) == [Head(1, true), Infos(1, true)]
  {
    var s1 := TearDown(reached, s, p);
    var s2 := Flip(reached, s1, p);
    var s3 := SendHead(reached, s2, p, 1, true);
    var s4 := SendInfos(reached, s3, p, 1);
    s' := Mark(reached, s4, p);
    assert {1} - {1} == {};
  }

  lemma ApartRun(reached: State -> bool, p: Promise) returns (s: State)
    requires Closed(reached, p) && p == Everything.(apart := false)
    ensures reached(s) && s.broken == {}
    ensures Wire(s, 1) == [Head(1, true), Infos(1, true), Resource(0, true), Head(4, false), Extend(0)]
  {
    var s1 := OpenFirst(reached, p);
    var s2 := SendFirst(reached, s1, p);
    var s3 := Take(reached, s2, StartPush(4, true), p);
    assert At(s3, 4) == Pushing(false, PushRead) && s3 == s2.(pcs := s3.pcs) && At(s3, EVENT) == At(s2, EVENT);
    var s4 := SendHead(reached, s3, p, 4, false);
    s := SendSecond(reached, s4, p);
  }

  lemma DrainedForInputRun(reached: State -> bool, p: Promise) returns (s: State)
    requires Closed(reached, p) && p == Everything.(drained := false)
    ensures reached(s) && s.broken == {} && Wire(s, 2) == [Input(2)]
  {
    var s1 := OpenFirst(reached, p);
    var s2 := Take(reached, s1, StartInput(2), p);
    assert At(s2, 2) == Inputting(InGate) && s2 == s1.(pcs := s2.pcs) && At(s2, 3) == At(s1, 3);
    var s3 := Take(reached, s2, Continue(2, true), p);
    assert At(s3, 2) == Inputting(InLock) && s3 == s1.(pcs := s3.pcs) && At(s3, 3) == At(s1, 3);
    var s4 := TearDown(reached, s3, p);
    s := SendLocked(reached, s4, p);
  }

  lemma SendLocked(reached: State -> bool, s: State, p: Promise) returns (s': State)
    requires Closed(reached, p) && reached(s) && At(s, 2) == Inputting(InLock) && s.dataLock.None? && s.fd.Some?
    ensures reached(s') && s'.broken == s.broken && Wire(s', s.fd.value) == Wire(s, s.fd.value) + [Input(2)]
  {
    var s1 := Take(reached, s, Continue(2, true), p);
    assert At(s1, 2) == Inputting(InFd(true)) && s1 == s.(pcs := s1.pcs, dataLock := Some(2));
    var s2 := Take(reached, s1, Continue(2, true), p);
    assert At(s2, 2) == Inputting(InSend(true, s.fd)) && s2 == s.(pcs := s2.pcs, dataLock := Some(2));
    s' := Take(reached, s2, Continue(2, true), p);
  }

  lemma DrainedForRequestRun(reached: State -> bool, p: Promise) returns (s: State)
    requires Closed(reached, p) && p == Everything.(drained := false)
    ensures reached(s) && s.broken == {} && Wire(s, 2) == [Resource(0, true)]
  {
    var s1 := OpenFirst(reached, p);
    var s2 := Take(reached, s1, StartRequest(0, 1), p);
    assert At(s2, EVENT) == Requesting(0, ReqLock(1)) && s2 == s1.(pcs := s2.pcs, requested := {0}) && At(s2, 3) == At(s1, 3);
    var s3 := TearDown(reached, s2, p);
    var s4 := Take(reached, s3, Continue(EVENT, true), p);
    assert At(s4, EVENT) == Requesting(0, ReqFirst(1)) && s4 == s3.(pcs := s4.pcs, dataLock := Some(EVENT));
    s := Take(reached, s4, Continue(EVENT, true), p);
  }

  lemma DrainedForPushRun(reached: State -> bool, p: Promise) returns (s: State)
    requires Closed(reached, p) && p == Everything.(drained := false)
    ensures reached(s) && s.broken == {} && Wire(s, 2) == [Infos(4, false)]
  {
    var s1 := OpenFirst(reached, p);
    var s2 := Take(reached, s1, StartPush(4, true), p);
    assert At(s2, 4) == Pushing(false, PushRead) && s2 == s1.(pcs := s2.pcs) && At(s2, 3) == At(s1, 3);
    var s3 := SendHead(reached, s2, p, 4, false);
    var s4 := TearDown(reached, s3, p);
    var s5 := Take(reached, s4, Continue(4, true), p);
    assert At(s5, 4) == Pushing(false, InfosSend(s4.fd)) && s5 == s4.(pcs := s5.pcs);
    s := Take(reached, s5, Continue(4, true), p);
  }

  lemma CalmRun(reached: State -> bool, p: Promise) returns (s: State)
    requires Closed(reached, p) && p == Everything.(calm := false)
    ensures reached(s) && s.broken == {} && Wire(s, 1) == [Input(2)]
  {
    var s1 := Stocked(reached, p);
    var s2 := Flip(reached, s1, p);
    assert Wire(s2, 1) == Wire(s1, 1);
    s := SendInput(reached, s2, p);
  }

  /** One input call of thread 2 while the gate is up, as far as its send. */
  lemma SendInput(reached: State -> bool, s: State, p: Promise) returns (s': State)
    requires Closed(reached, p) && reached(s) && At(s, 2) == Idle && !s.fallback && s.gate && s.dataLock.None? && s.fd.Some?
    requires p.calm ==> s.openers == {}
    ensures reached(s') && s'.broken == s.broken && Wire(s', s.fd.value) == Wire(s, s.fd.value) + [Input(2)]
  {
    var s1 := Take(reached, s, StartInput(2), p);
    assert At(s1, 2) == Inputting(InGate) && s1 == s.(pcs := s1.pcs);
    var s2 := Take(reached, s1, Continue(2, true), p);
    assert At(s2, 2) == Inputting(InLock) && s2 == s.(pcs := s2.pcs);
    s' := SendLocked(reached, s2, p);
  }

  lemma StockedRun(reached: State -> bool, p: Promise) returns (s: State)
    requires Closed(reached, p) && p == Everything.(stocked := false)
    ensures reached(s) && s.broken == {} && Wire(s, 1) == [Input(2)]
  {
    var s0 := Start(1);
    var s1 := Take(reached, s0, StartExit(1), p);
    assert At(s1, 1) == Leaving(false) && s1 == s0.(pcs := s1.pcs);
    var s2 := Take(reached, s1, Continue(1, true), p);
    assert At(s2, 1) == Leaving(true) && s2 == s0.(pcs := s2.pcs, stateLock := Some(1));
    var s3 := Take(reached, s2, Continue(1, true), p);
    assert At(s3, 1) == Pushing(true, PushRead) && !s3.stored && s3.openers == {1};
    var s4 := Take(reached, s3, Continue(1, true), p);
    assert {1} - {1} == {};
    s := SendInput(reached, s4, p);
  }

  lemma ReachableCloses(p: Promise)
    ensures Closed(s => Reachable(s, p), p)
  {
    assert After(1, [], p) == Some(Start(1));
    forall s, step | Reachable(s, p) && Enabled(s, step, p) ensures Reachable(Do(s, step), p) {
      var services, steps :| After(services, steps, p) == Some(s);
      assert (steps + [step])[..|steps|] == steps;
      assert After(services, steps + [step], p) == Some(Do(s, step));
    }
  }

  /** A service that is requested a second time, all else being promised: thread 2 saw the gate
      down in between. */
  lemma OnceIsNeeded() returns (s: State)
    ensures Reachable(s, Everything.(once := false)) && s.broken == {}
    ensures Wire(s, 1) == [Head(1, true), Infos(1, true), Resource(0, true), Extend(0), Resource(0, true), Input(2), Extend(0)]
  {
    var p := Everything.(once := false);
    ReachableCloses(p);
    s := OnceRun(s => Reachable(s, p), p);
  }

  /** A session that begins while the event thread still has a service of the last one to record:
      the gate drops before the service is requested anew, all else being promised. */
  lemma CurrentIsNeeded() returns (s: State)
    ensures Reachable(s, Everything.(current := false)) && s.broken == {}
    ensures Wire(s, 2) == [Head(1, true), Infos(1, true), Resource(0, true), Input(2), Extend(0)]
  {
    var p := Everything.(current := false);
    ReachableCloses(p);
    s := CurrentRun(s => Reachable(s, p), p);
  }

  /** A buffer set pushed while a request is answered, all else being promised. */
  lemma ApartIsNeeded() returns (s: State)
    ensures Reachable(s, Everything.(apart := false)) && s.broken == {}
    ensures Wire(s, 1) == [Head(1, true), Infos(1, true), Resource(0, true), Head(4, false), Extend(0)]
  {
    var p := Everything.(apart := false);
    ReachableCloses(p);
    s := ApartRun(s => Reachable(s, p), p);
  }

  /** A writer that waits at the lock across a teardown, all else being promised: its frame is the
      first on the new socket. */
  lemma DrainedIsNeededForInput() returns (s: State)
    ensures Reachable(s, Everything.(drained := false)) && s.broken == {} && Wire(s, 2) == [Input(2)]
  {
    var p := Everything.(drained := false);
    ReachableCloses(p);
    s := DrainedForInputRun(s => Reachable(s, p), p);
  }

  /** The event thread waiting at the lock across a teardown, all else being promised. */
  lemma DrainedIsNeededForRequest() returns (s: State)
    ensures Reachable(s, Everything.(drained := false)) && s.broken == {} && Wire(s, 2) == [Resource(0, true)]
  {
    var p := Everything.(drained := false);
    ReachableCloses(p);
    s := DrainedForRequestRun(s => Reachable(s, p), p);
  }

  /** A pusher half way through its set across a teardown, all else being promised: the infos
      arrive on the new socket without their header. */
  lemma DrainedIsNeededForPush() returns (s: State)
    ensures Reachable(s, Everything.(drained := false)) && s.broken == {} && Wire(s, 2) == [Infos(4, false)]
  {
    var p := Everything.(drained := false);
    ReachableCloses(p);
    s := DrainedForPushRun(s => Reachable(s, p), p);
  }

  /** Input that starts between leaving fallback and pushing the set, all else being promised. */
  lemma CalmIsNeeded() returns (s: State)
    ensures Reachable(s, Everything.(calm := false)) && s.broken == {} && Wire(s, 1) == [Input(2)]
  {
    var p := Everything.(calm := false);
    ReachableCloses(p);
    s := CalmRun(s => Reachable(s, p), p);
  }

  /** A session begun with no set to push, all else being promised. */
  lemma StockedIsNeeded() returns (s: State)
    ensures Reachable(s, Everything.(stocked := false)) && s.broken == {} && Wire(s, 1) == [Input(2)]
  {
    var p := Everything.(stocked := false);
    ReachableCloses(p);
    s := StockedRun(s => Reachable(s, p), p);
  }
}
