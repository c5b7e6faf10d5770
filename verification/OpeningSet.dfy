/** What comes first on a data socket: the buffer set that opens a session (see WriteGate for the
    threads and the promises). */
module OpeningSet {
  import opened Protocol
  import opened WriteGate

  /** The socket a thread has read from data_fd and has not written to since. */
  function Holds(pc: Pc): Option<nat> {
    match pc
    case Inputting(input) => if input.InSend? then input.fd else None
    case Requesting(_, request) => if request.ReqSecond? then Some(request.half) else None
    case Pushing(_, push) => if push.PushSend? || push.InfosSend? then push.on else None
    case _ => None
  }

  /** May still write to the socket that data_fd names. A thread that holds another one cannot: its
      send fails. */
  predicate Writing(pc: Pc, fd: Option<nat>) {
    Unread(pc) || (fd.Some? && Holds(pc) == fd)
  }

  predicate Writer(s: State, t: Tid) {
    Writing(At(s, t), s.fd)
  }

  /** No thread but t may still write to the socket. */
  ghost predicate OthersQuiet(s: State, t: Tid) {
    forall u: Tid :: u != t ==> !Writer(s, u)
  }

  /** A thread pushing the set of the session it opened, not one whose session is gone. */
  predicate Opener(s: State, t: Tid) {
    t in s.openers && Writer(s, t)
  }

  ghost predicate NoOpener(s: State) {
    forall t: Tid :: !Opener(s, t)
  }

  /** In fallback, with the socket for the next session already there. */
  predicate Renewed(s: State) {
    s.fallback && !(s.stateLock.Some? && Closing(At(s, s.stateLock.value)))
  }

  /** A whole opening set in front. */
  predicate Opened(w: seq<Frame>) {
    |w| >= 2 && w[0].Head? && w[0].opening && w[1] == Infos(w[0].sender, true)
  }

  /** As much of one as there is room for. */
  predicate Led(w: seq<Frame>) {
    w == [] || (|w| == 1 && w[0].Head? && w[0].opening) || Opened(w)
  }

  /** How much of the set is out, by where the thread t that pushes it stands. */
  predicate Partly(w: seq<Frame>, t: Tid, pc: Pc, stored: bool) {
    pc.Pushing? && match pc.push
                   case PushRead => w == [] && stored
                   case PushSend(_) => w == []
                   case InfosRead => w == [Head(t, true)]
                   case InfosSend(_) => w == [Head(t, true)]
  }

  ghost predicate SocketOk(g: nat, gen: nat, broken: bool, w: seq<Frame>) {
    && (1 <= g < gen && !broken ==> Led(w))
    && (g > gen || g == 0 ==> w == [])
  }

  ghost predicate OldSocketsOk(s: State) {
    s.gen >= 1 && forall g: nat :: SocketOk(g, s.gen, g in s.broken, Wire(s, g))
  }

  /** Nobody holds a socket that does not exist yet. */
  ghost predicate HeldOk(s: State) {
    forall t: Tid :: Holds(At(s, t)).Some? ==> Holds(At(s, t)).value <= s.gen
  }

  ghost predicate OpenerOk(s: State, t: Tid) {
    OthersQuiet(s, t) && (s.gen !in s.broken ==> Partly(Wire(s, s.gen), t, At(s, t), s.stored))
  }

  ghost predicate CurrentOk(s: State) {
    s.gen !in s.broken ==> Led(Wire(s, s.gen)) && (s.fd.Some? ==> Opened(Wire(s, s.gen)))
  }

  ghost predicate SetFirst(s: State) {
    && (Renewed(s) ==> Wire(s, s.gen) == [] && (forall t: Tid :: !Writer(s, t)))
    && (forall t: Tid :: Opener(s, t) ==> OpenerOk(s, t))
    && (!Renewed(s) && NoOpener(s) ==> CurrentOk(s))
  }

  ghost predicate FirstOk(s: State) {
    SetFirst(s) && OldSocketsOk(s) && HeldOk(s)
  }

  /** A thread that may write shuts out a renewed socket and every opener but itself. */
  lemma WriterAlone(s: State, t: Tid)
    requires SetFirst(s) && Writer(s, t)
    ensures !Renewed(s) && forall u: Tid :: u != t ==> !Opener(s, u)
  {
    forall u: Tid | Opener(s, u) ensures u == t {
      assert OpenerOk(s, u);
    }
  }

  /** What a step of t that opens nothing and leaves the socket in place does to the shared picture. */
  ghost predicate Ordinary(s: State, s': State, t: Tid) {
    && s'.pcs == s.pcs[t := At(s', t)]
    && s'.gen == s.gen && s'.fd == s.fd && s'.openers == s.openers && t !in s.openers
    && (Renewed(s') <==> Renewed(s))
    && (s'.stored == s.stored || s.openers == {})
    && (Writer(s', t) ==> Writer(s, t) || (!Renewed(s) && s.openers == {}))
    && (Holds(At(s', t)).Some? ==> Holds(At(s', t)) == Holds(At(s, t)) || Holds(At(s', t)) == s.fd)
  }

  /** It writes on the current socket if anywhere, and only as a thread that may. */
  ghost predicate Writes(s: State, s': State, t: Tid) {
    && (forall g :: g in s.broken ==> g in s'.broken)
    && (forall g: nat :: g != s.gen ==> Wire(s', g) == Wire(s, g))
    && (Wire(s', s.gen) == Wire(s, s.gen)
        || (Writer(s, t) && s.fd.Some? && exists f :: Wire(s', s.gen) == Wire(s, s.gen) + [f]))
  }

  lemma WritesCurrent(s: State, s': State)
    requires OldSocketsOk(s) && s'.gen == s.gen && forall g :: g in s.broken ==> g in s'.broken
    requires forall g: nat :: g != s.gen ==> Wire(s', g) == Wire(s, g)
    ensures OldSocketsOk(s')
  {
    forall g: nat ensures SocketOk(g, s'.gen, g in s'.broken, Wire(s', g)) {
      assert SocketOk(g, s.gen, g in s.broken, Wire(s, g));
    }
  }

  lemma HeldKept(s: State, s': State, t: Tid)
    requires HeldOk(s) && s.gen <= s'.gen && s'.pcs == s.pcs[t := At(s', t)]
    requires Holds(At(s', t)).Some? ==> Holds(At(s', t)).value <= s.gen
    ensures HeldOk(s')
  {
    forall u: Tid ensures Holds(At(s', u)).Some? ==> Holds(At(s', u)).value <= s'.gen {
      if u != t { OthersStay(s, s', t, u); }
    }
  }

  /** The others may write exactly if they could before. */
  lemma OtherWriters(s: State, s': State, t: Tid)
    requires s'.pcs == s.pcs[t := At(s', t)] && s'.fd == s.fd
    ensures forall u: Tid :: u != t ==> At(s', u) == At(s, u) && (Writer(s', u) <==> Writer(s, u))
  {
    forall u: Tid ensures u != t ==> At(s', u) == At(s, u) {
      if u != t { OthersStay(s, s', t, u); }
    }
  }

  lemma OrdinaryOpeners(s: State, s': State, t: Tid)
    requires SetFirst(s) && Ordinary(s, s', t) && Writes(s, s', t)
    ensures forall u: Tid :: Opener(s', u) <==> Opener(s, u)
    ensures forall u: Tid :: Opener(s', u) ==> OpenerOk(s', u)
  {
    OtherWriters(s, s', t);
    if Writer(s, t) { WriterAlone(s, t); }
    forall u: Tid | Opener(s', u) ensures OpenerOk(s', u) {
      assert OpenerOk(s, u);
    }
  }

  lemma OrdinaryCurrent(s: State, s': State, t: Tid)
    requires CurrentOk(s) && Ordinary(s, s', t) && Writes(s, s', t)
    ensures CurrentOk(s')
  {
  }

  lemma OrdinaryKeeps(s: State, s': State, t: Tid)
    requires CountsOk(s) && FirstOk(s) && Ordinary(s, s', t) && Writes(s, s', t)
    ensures FirstOk(s')
  {
    WritesCurrent(s, s');
    HeldKept(s, s', t);
    OtherWriters(s, s', t);
    OrdinaryOpeners(s, s', t);
    if Writer(s, t) { WriterAlone(s, t); }
    if !Renewed(s') && NoOpener(s') {
      assert NoOpener(s);
      OrdinaryCurrent(s, s', t);
    }
  }

  /** Whether the socket is renewed is up to the holder of state_lock. */
  lemma LockHolderStays(s: State, s': State, t: Tid)
    requires s'.pcs == s.pcs[t := At(s', t)] && s'.fallback == s.fallback && s'.stateLock == s.stateLock
    requires s.stateLock == Some(t) ==> Closing(At(s', t)) == Closing(At(s, t))
    ensures Renewed(s') <==> Renewed(s)
  {
    if s.stateLock.Some? && s.stateLock != Some(t) {
      OthersStay(s, s', t, s.stateLock.value);
    }
  }

  lemma InputOrdinary(s: State, t: Tid, pc: InputPc, ok: bool)
    requires SelfOk(s, t) && OpenersOk(s) && At(s, t) == Inputting(pc)
    ensures Ordinary(s, AdvanceInput(s, t, pc, ok), t)
  {
    assert t in s.openers <==> Opening(At(s, t));
    LockHolderStays(s, AdvanceInput(s, t, pc, ok), t);
  }

  lemma InputWrites(s: State, t: Tid, pc: InputPc, ok: bool)
    requires CountsOk(s) && At(s, t) == Inputting(pc)
    ensures Writes(s, AdvanceInput(s, t, pc, ok), t)
  {
    var s' := AdvanceInput(s, t, pc, ok);
    if pc.InSend? && s'.wire != s.wire {
      assert Wire(s', s.gen) == Wire(s, s.gen) + [Input(t)];
    }
  }

  lemma RequestOrdinary(s: State, i: nat, pc: RequestPc, ok: bool)
    requires SelfOk(s, EVENT) && OpenersOk(s) && At(s, EVENT) == Requesting(i, pc)
    ensures Ordinary(s, AdvanceRequest(s, EVENT, i, pc, ok), EVENT)
  {
    assert EVENT in s.openers <==> Opening(At(s, EVENT));
    LockHolderStays(s, AdvanceRequest(s, EVENT, i, pc, ok), EVENT);
  }

  lemma RequestWrites(s: State, i: nat, pc: RequestPc, ok: bool)
    requires CountsOk(s) && At(s, EVENT) == Requesting(i, pc)
    ensures Writes(s, AdvanceRequest(s, EVENT, i, pc, ok), EVENT)
  {
    var s' := AdvanceRequest(s, EVENT, i, pc, ok);
    if pc.ReqFirst? && s'.wire != s.wire {
      assert Wire(s', s.gen) == Wire(s, s.gen) + [Resource(i, pc.fdCount > 0)];
    } else if pc.ReqSecond? && s'.wire != s.wire {
      assert Wire(s', s.gen) == Wire(s, s.gen) + [Extend(i)];
    }
  }

  lemma PushOrdinary(s: State, t: Tid, pc: PushPc, ok: bool)
    requires SelfOk(s, t) && OpenersOk(s) && At(s, t) == Pushing(false, pc)
    ensures Ordinary(s, AdvancePush(s, t, false, pc, ok), t)
  {
    assert t in s.openers <==> Opening(At(s, t));
    LockHolderStays(s, AdvancePush(s, t, false, pc, ok), t);
    assert s.openers - {t} == s.openers;
  }

  lemma PushWrites(s: State, t: Tid, opening: bool, pc: PushPc, ok: bool)
    requires CountsOk(s) && At(s, t) == Pushing(opening, pc)
    ensures Writes(s, AdvancePush(s, t, opening, pc, ok), t)
  {
    var s' := AdvancePush(s, t, opening, pc, ok);
    if pc.PushSend? && s'.wire != s.wire {
      assert Wire(s', s.gen) == Wire(s, s.gen) + [Head(t, opening)];
    } else if pc.InfosSend? && s'.wire != s.wire {
      assert Wire(s', s.gen) == Wire(s, s.gen) + [Infos(t, opening)];
    }
  }

  lemma FallOrdinary(s: State, t: Tid, k: Option<nat>, pc: FallPc, ok: bool)
    requires SelfOk(s, t) && OpenersOk(s) && At(s, t) == Falling(k, pc) && CanStep(s, t)
    requires !pc.FallClose? && !pc.FallOpen?
    ensures var s' := AdvanceFall(s, t, k, pc, ok);
            Ordinary(s, s', t) && s'.broken == s.broken && s'.wire == s.wire
  {
    assert t in s.openers <==> Opening(At(s, t));
  }

  /** Closing the socket: who held it cannot write any more, and the set may stay half out. */
  lemma CloseKeeps(s: State, t: Tid, k: Option<nat>, ok: bool)
    requires SelfOk(s, t) && OpenersOk(s) && FirstOk(s) && At(s, t) == Falling(k, FallClose)
    ensures FirstOk(AdvanceFall(s, t, k, FallClose, ok))
  {
    var s' := AdvanceFall(s, t, k, FallClose, ok);
    LockHolderStays(s, s', t);
    WritesCurrent(s, s');
    HeldKept(s, s', t);
    forall u: Tid ensures Writer(s', u) ==> Writer(s, u) && At(s', u) == At(s, u) {
      if u != t { OthersStay(s, s', t, u); }
    }
    forall u: Tid | Opener(s', u) ensures OpenerOk(s', u) {
      assert OpenerOk(s, u);
    }
    CurrentLed(s, t);
  }

  /** As long as the socket is not renewed, what there is on it is led by the opening set. */
  lemma CurrentLed(s: State, t: Tid)
    requires SetFirst(s) && OpenersOk(s) && s.stateLock == Some(t) && Closing(At(s, t))
    ensures s.gen !in s.broken ==> Led(Wire(s, s.gen))
  {
    assert !Renewed(s);
    if !NoOpener(s) {
      var u: Tid :| Opener(s, u);
      assert OpenerOk(s, u);
    }
  }

  /** Replacing the socket: nobody else has yet to read data_fd, so the new one stays empty. */
  lemma RenewKeeps(s: State, t: Tid, k: Option<nat>, ok: bool)
    requires SelfOk(s, t) && OpenersOk(s) && FirstOk(s)
    requires At(s, t) == Falling(k, FallOpen) && OthersRead(s, t)
    ensures FirstOk(AdvanceFall(s, t, k, FallOpen, ok))
  {
    var s' := AdvanceFall(s, t, k, FallOpen, ok);
    HeldKept(s, s', t);
    CurrentLed(s, t);
    forall u: Tid ensures !Writer(s', u) {
      assert Holds(At(s, u)).Some? ==> Holds(At(s, u)).value <= s.gen;
      if u != t { OthersStay(s, s', t, u); }
    }
    forall g: nat ensures SocketOk(g, s'.gen, g in s'.broken, Wire(s', g)) {
      assert SocketOk(g, s.gen, g in s.broken, Wire(s, g));
    }
  }

  /** The session begins: its opener is the only writer. */
  lemma FlipKeeps(s: State, t: Tid)
    requires SelfOk(s, t) && OpenersOk(s) && FirstOk(s) && At(s, t) == Leaving(true) && s.fallback && s.stored
    ensures FirstOk(AdvanceExit(s, t, true))
  {
    var s' := AdvanceExit(s, t, true);
    assert Renewed(s);
    WritesCurrent(s, s');
    HeldKept(s, s', t);
    OtherWriters(s, s', t);
    assert OpenerOk(s', t) && Opener(s', t);
  }

  lemma ExitKeeps(s: State, t: Tid, flip: bool)
    requires SelfOk(s, t) && CountsOk(s) && OpenersOk(s) && FirstOk(s) && At(s, t) == Leaving(flip) && CanStep(s, t)
    requires flip && s.fallback ==> s.stored
    ensures FirstOk(AdvanceExit(s, t, flip))
  {
    if flip && s.fallback {
      FlipKeeps(s, t);
    } else {
      assert t in s.openers <==> Opening(At(s, t));
      OrdinaryKeeps(s, AdvanceExit(s, t, flip), t);
    }
  }

  /** Where a step of the opener leaves the set: further out, complete, given up with its socket
      gone, or broken. */
  lemma OpenStepPartly(s: State, t: Tid, pc: PushPc, ok: bool)
    requires CountsOk(s) && At(s, t) == Pushing(true, pc) && Opener(s, t) && s.gen !in s.broken
    requires Partly(Wire(s, s.gen), t, At(s, t), s.stored)
    ensures var s' := AdvancePush(s, t, true, pc, ok);
            s.gen !in s'.broken ==>
              if Opener(s', t) then Partly(Wire(s', s.gen), t, At(s', t), s'.stored) else CurrentOk(s')
  {
  }

  /** A step of the thread that pushes the opening set of the present session. */
  lemma OpenStepKeeps(s: State, t: Tid, pc: PushPc, ok: bool)
    requires SelfOk(s, t) && CountsOk(s) && OpenersOk(s) && FirstOk(s) && At(s, t) == Pushing(true, pc) && Opener(s, t)
    ensures FirstOk(AdvancePush(s, t, true, pc, ok))
  {
    var s' := AdvancePush(s, t, true, pc, ok);
    WriterAlone(s, t);
    assert OpenerOk(s, t);
    LockHolderStays(s, s', t);
    PushWrites(s, t, true, pc, ok);
    WritesCurrent(s, s');
    HeldKept(s, s', t);
    OtherWriters(s, s', t);
    if s.gen !in s.broken { OpenStepPartly(s, t, pc, ok); }
    forall u: Tid | Opener(s', u) ensures OpenerOk(s', u) {
      assert u == t;
    }
  }

  /** A step of a thread that still pushes for a session that is gone: its send fails. */
  lemma StaleStepKeeps(s: State, t: Tid, pc: PushPc, ok: bool)
    requires SelfOk(s, t) && CountsOk(s) && OpenersOk(s) && FirstOk(s) && At(s, t) == Pushing(true, pc) && !Writer(s, t)
    ensures FirstOk(AdvancePush(s, t, true, pc, ok))
  {
    var s' := AdvancePush(s, t, true, pc, ok);
    LockHolderStays(s, s', t);
    WritesCurrent(s, s');
    HeldKept(s, s', t);
    OtherWriters(s, s', t);
    forall u: Tid | Opener(s', u) ensures OpenerOk(s', u) {
      assert OpenerOk(s, u);
    }
    if NoOpener(s') {
      assert forall u: Tid :: Opener(s, u) ==> Opener(s', u);
      assert NoOpener(s);
    }
  }

  lemma FirstAdvanceKept(s: State, t: Tid, ok: bool, p: Promise)
    requires ThreadsOk(s) && CountsOk(s) && OpenersOk(s) && FirstOk(s)
    requires Enabled(s, Continue(t, ok), p) && p.calm && p.drained && p.stocked && (At(s, t).Requesting? ==> t == EVENT)
    ensures FirstOk(Advance(s, t, ok))
  {
    hide FirstOk, OpenersOk, CountsOk;
    assert SelfOk(s, t);
    var s' := Advance(s, t, ok);
    match At(s, t)
    case Inputting(pc) =>
      InputOrdinary(s, t, pc, ok);
      InputWrites(s, t, pc, ok);
      OrdinaryKeeps(s, s', t);
    case Requesting(i, pc) =>
      RequestOrdinary(s, i, pc, ok);
      RequestWrites(s, i, pc, ok);
      OrdinaryKeeps(s, s', t);
    case Pushing(opening, pc) => FirstPushKept(s, t, opening, pc, ok);
    case Falling(k, pc) => FirstFallKept(s, t, k, pc, ok);
    case Leaving(flip) => ExitKeeps(s, t, flip);
  }

  lemma FirstPushKept(s: State, t: Tid, opening: bool, pc: PushPc, ok: bool)
    requires SelfOk(s, t) && CountsOk(s) && OpenersOk(s) && FirstOk(s) && At(s, t) == Pushing(opening, pc)
    ensures FirstOk(AdvancePush(s, t, opening, pc, ok))
  {
    hide FirstOk;
    if !opening {
      PushOrdinary(s, t, pc, ok);
      PushWrites(s, t, false, pc, ok);
      OrdinaryKeeps(s, AdvancePush(s, t, false, pc, ok), t);
    } else if Writer(s, t) {
      assert t in s.openers <==> Opening(At(s, t));
      OpenStepKeeps(s, t, pc, ok);
    } else {
      StaleStepKeeps(s, t, pc, ok);
    }
  }

  lemma FirstFallKept(s: State, t: Tid, k: Option<nat>, pc: FallPc, ok: bool)
    requires SelfOk(s, t) && CountsOk(s) && OpenersOk(s) && FirstOk(s) && At(s, t) == Falling(k, pc) && CanStep(s, t)
    requires pc.FallOpen? ==> OthersRead(s, t)
    ensures FirstOk(AdvanceFall(s, t, k, pc, ok))
  {
    hide FirstOk;
    if pc.FallOpen? {
      RenewKeeps(s, t, k, ok);
    } else if pc.FallClose? {
      CloseKeeps(s, t, k, ok);
    } else {
      FallOrdinary(s, t, k, pc, ok);
      OrdinaryKeeps(s, AdvanceFall(s, t, k, pc, ok), t);
    }
  }

  lemma FirstStartKept(s: State, step: Step, p: Promise)
    requires ThreadsOk(s) && CountsOk(s) && OpenersOk(s) && FirstOk(s)
    requires Enabled(s, step, p) && p.calm && !step.Continue?
    ensures FirstOk(Do(s, step))
  {
    hide FirstOk;
    var s', t := Do(s, step), Actor(step);
    assert SelfOk(s, t);
    assert t in s.openers <==> Opening(At(s, t));
    LockHolderStays(s, s', t);
    OrdinaryKeeps(s, s', t);
  }

  lemma {:induction false} FirstAlong(services: nat, steps: seq<Step>, p: Promise)
    requires After(services, steps, p).Some? && p.calm && p.drained && p.stocked
    ensures var s := After(services, steps, p).value;
            ThreadsOk(s) && CountsOk(s) && OpenersOk(s) && OnlyEventRequests(s) && FirstOk(s)
  {
    if steps != [] {
      var k := |steps| - 1;
      FirstAlong(services, steps[..k], p);
      LocksAlong(services, steps, p);
      var before := After(services, steps[..k], p).value;
      assert Enabled(before, steps[k], Nothing);
      OnlyEventKept(before, steps[k]);
      if steps[k].Continue? {
        assert At(before, steps[k].t).Requesting? ==> Serving(At(before, steps[k].t)).Some?;
        FirstAdvanceKept(before, steps[k].t, steps[k].ok, p);
      } else {
        FirstStartKept(before, steps[k], p);
      }
    }
  }

  /** With these three promises the buffer set is the first thing on every socket, and nothing
      comes between its header and its infos, unless a two-part send failed there. */
  lemma BufferSetFirst(s: State, p: Promise, g: nat)
    requires Reachable(s, p) && p.calm && p.drained && p.stocked && g !in s.broken
    ensures var w := Wire(s, g); w == [] || (|w| == 1 && w[0].Head? && w[0].opening) || Opened(w)
  {
    var services, steps :| After(services, steps, p) == Some(s);
    FirstAlong(services, steps, p);
    assert SocketOk(g, s.gen, g in s.broken, Wire(s, g));
    if g == s.gen && !Renewed(s) && !NoOpener(s) {
      var t: Tid :| Opener(s, t);
      assert OpenerOk(s, t);
    }
  }
}
