/** libdisplay_consumer/display_consumer.c under concurrent callers: any number of input
    threads, one event thread that answers resource requests, threads that push buffer sets,
    and any thread tearing the connection down or bringing it up. One step is what the C code
    does between two points where another thread can get in. */
module WriteGate {
  import opened Protocol

  type Tid = nat

  /** The thread that runs handle_resource_request. */
  const EVENT: Tid := 0

  /** What goes onto a data socket in one send. A buffer set takes two, the BUFS_READY header and
      the infos; `opening` tells the set that opens a session from one pushed into it. Resource
      says whether an EXTEND_FDS frame belongs to it. */
  datatype Frame =
    | Head(sender: Tid, opening: bool)
    | Infos(sender: Tid, opening: bool)
    | Input(sender: Tid)
    | Resource(service: nat, extended: bool)
    | Extend(service: nat)

  /** push_input_event. */
  datatype InputPc =
    | InGate
    | InLock
    | InFd(locked: bool)
    | InSend(locked: bool, fd: Option<nat>)
    | InDone(locked: bool, sent: bool)

  /** handle_resource_request and push_input_event_with_fds. */
  datatype RequestPc =
    | ReqLock(fdCount: nat)
    | ReqFirst(fdCount: nat)
    | ReqSecond(half: nat)
    | ReqUnlock(sent: bool)
    | ReqTest
    | ReqMarkLock
    | ReqMark

  /** push_dmabufs_internal, without any lock. */
  datatype PushPc = PushRead | PushSend(on: Option<nat>) | InfosRead | InfosSend(on: Option<nat>)

  /** enter_fallback. `created` says whether the kernel objects of the next session could be made. */
  datatype FallPc = FallLock | FallTest | FallData | FallClose | FallOpen | FallHello(created: bool) | FallUnlock

  /** Where a thread is. `opening` is set in try_exit_fallback and not in push_dmabufs;
      `interrupted` is the request that a teardown interrupts; `flip` says that
      try_exit_fallback has taken state_lock. */
  datatype Pc =
    | Idle
    | Inputting(input: InputPc)
    | Requesting(service: nat, request: RequestPc)
    | Pushing(opening: bool, push: PushPc)
    | Falling(interrupted: Option<nat>, fall: FallPc)
    | Leaving(flip: bool)

  /** `fd` is data_fd, named by the generation of its socket; `wire` is what was written to each
      generation's socket; `session` counts entries into the connected state, `torn` teardowns,
      `deposits` the hellos sent and `unsent` those that failed. `stored` says whether there is a buffer set to push, `openers` are the
      threads pushing the set of a session they opened, and a two-part send failed on the sockets
      in `broken`. */
  datatype State = State(
    services: nat,
    fallback: bool,
    fd: Option<nat>,
    gen: nat,
    gate: bool,
    mask: set<nat>,
    requested: set<nat>,
    stateLock: Option<Tid>,
    dataLock: Option<Tid>,
    pcs: map<Tid, Pc>,
    wire: map<nat, seq<Frame>>,
    broken: set<nat>,
    session: nat,
    torn: nat,
    deposits: nat,
    unsent: nat,
    stored: bool,
    openers: set<Tid>)

  function Start(services: nat): State {
    State(services, true, Some(1), 1, services > 0, {}, {}, None, None, map[], map[], {}, 0, 0, 1, 0, false, {})
  }

  function At(s: State, t: Tid): Pc {
    if t in s.pcs then s.pcs[t] else Idle
  }

  function Wire(s: State, g: nat): seq<Frame> {
    if g in s.wire then s.wire[g] else []
  }

  function Go(s: State, t: Tid, pc: Pc): State {
    s.(pcs := s.pcs[t := pc])
  }

  function Write(s: State, g: nat, f: Frame): State {
    s.(wire := s.wire[g := Wire(s, g) + [f]])
  }

  /** Every service is in `served`. */
  predicate Covers(served: set<nat>, services: nat) {
    forall i :: 0 <= i < services ==> i in served
  }

  function Arm(s: State): State {
    s.(mask := {}, gate := s.services > 0)
  }

  function Resume(interrupted: Option<nat>): Pc {
    if interrupted.Some? then Requesting(interrupted.value, ReqTest) else Idle
  }

  /** A thread's next action. `ok` says whether a send or a re-creation succeeds. */
  datatype Step =
    | StartInput(t: Tid)
    | StartRequest(service: nat, fdCount: nat)
    | StartPush(t: Tid, nonEmpty: bool)
    | StartFall(t: Tid)
    | StartExit(t: Tid)
    | Continue(t: Tid, ok: bool)

  /** What the library's callers promise.
      `once`: a service is requested at most once per session.
      `current`: a session begins only when the event thread is stopped and no writer still acts
      on a gate reading of the session before; the event thread restarts when the session's
      buffer set is out.
      `apart`: no buffer set is pushed while a request is being answered, nor the other way round.
      `calm`: no call that writes starts while a session's buffer set is on its way.
      `drained`: a teardown replaces the socket only when no other call is past its fallback test
      and has yet to read data_fd.
      `stocked`: a session begins only with a buffer set stored. */
  datatype Promise = Promise(once: bool, current: bool, apart: bool, calm: bool, drained: bool, stocked: bool)

  const Nothing := Promise(false, false, false, false, false, false)
  const Everything := Promise(true, true, true, true, true, true)

  /** Acting on having seen the gate down. */
  predicate Unlocked(pc: Pc) {
    pc.Inputting? && match pc.input
                     case InFd(locked) => !locked
                     case InSend(locked, _) => !locked
                     case InDone(locked, _) => !locked
                     case _ => false
  }

  ghost predicate NoneUnlocked(s: State) {
    forall t: Tid :: !Unlocked(At(s, t))
  }

  predicate Opening(pc: Pc) {
    pc.Pushing? && pc.opening
  }

  /** About to write, or half way through, a two-part send. */
  predicate Busy(pc: Pc) {
    pc.Requesting? && (pc.request.ReqLock? || pc.request.ReqFirst? || pc.request.ReqSecond?)
  }

  /** Past the fallback test of a call that writes, and yet to read data_fd. */
  predicate Unread(pc: Pc) {
    match pc
    case Inputting(input) => input.InGate? || input.InLock? || input.InFd?
    case Requesting(_, request) => request.ReqLock? || request.ReqFirst?
    case Pushing(_, push) => push.PushRead? || push.InfosRead?
    case _ => false
  }

  ghost predicate OthersRead(s: State, t: Tid) {
    forall u: Tid :: u != t ==> !Unread(At(s, u))
  }

  ghost predicate NonePushing(s: State) {
    forall u: Tid :: !At(s, u).Pushing?
  }

  /** A lock that is to be taken is free. */
  predicate Unblocked(pc: Pc, stateLock: Option<Tid>, dataLock: Option<Tid>) {
    match pc
    case Inputting(input) => input.InLock? ==> dataLock.None?
    case Requesting(_, request) => request.ReqLock? || request.ReqMarkLock? ==> dataLock.None?
    case Falling(_, fall) => (fall.FallData? ==> dataLock.None?) && (fall.FallLock? ==> stateLock.None?)
    case Leaving(flip) => !flip ==> stateLock.None?
    case _ => true
  }

  predicate CanStep(s: State, t: Tid) {
    Unblocked(At(s, t), s.stateLock, s.dataLock)
  }

  ghost predicate Enabled(s: State, step: Step, p: Promise) {
    match step
    case StartInput(t) => At(s, t).Idle? && !s.fallback && (p.calm ==> s.openers == {})
    case StartRequest(i, _) =>
      && At(s, EVENT).Idle? && i < s.services
      && (p.once ==> i !in s.requested)
      && (p.current || p.calm ==> s.openers == {})
      && (p.apart ==> NonePushing(s))
    case StartPush(t, _) => At(s, t).Idle? && (p.calm ==> s.openers == {}) && (p.apart ==> !Busy(At(s, EVENT)))
    case StartFall(t) => At(s, t).Idle?
    case StartExit(t) => At(s, t).Idle? && s.fallback
    case Continue(t, _) =>
      && !At(s, t).Idle? && CanStep(s, t)
      && (At(s, t).Falling? && At(s, t).fall.FallOpen? && p.drained ==> OthersRead(s, t))
      && (At(s, t) == Leaving(true) && s.fallback ==> MayOpen(s, p))
  }

  ghost predicate MayOpen(s: State, p: Promise) {
    (p.current ==> At(s, EVENT).Idle? && NoneUnlocked(s)) && (p.stocked ==> s.stored)
  }

  function Do(s: State, step: Step): State {
    match step
    case StartInput(t) => Go(s, t, Inputting(InGate))
    case StartRequest(i, n) =>
      Go(s.(requested := s.requested + {i}), EVENT, Requesting(i, if s.fallback then ReqTest else ReqLock(n)))
    case StartPush(t, nonEmpty) =>
      Go(s.(stored := nonEmpty), t, if s.fallback then Idle else Pushing(false, PushRead))
    case StartFall(t) => Go(s, t, Falling(None, FallLock))
    case StartExit(t) => Go(s, t, Leaving(false))
    case Continue(t, ok) => Advance(s, t, ok)
  }

  function Advance(s: State, t: Tid, ok: bool): State {
    match At(s, t)
    case Idle => s
    case Inputting(input) => AdvanceInput(s, t, input, ok)
    case Requesting(i, request) => AdvanceRequest(s, t, i, request, ok)
    case Pushing(opening, push) => AdvancePush(s, t, opening, push, ok)
    case Falling(k, fall) => AdvanceFall(s, t, k, fall, ok)
    case Leaving(flip) => AdvanceExit(s, t, flip)
  }

  /** push_input_event: read the gate, lock if it is up, read data_fd, send, unlock. */
  function AdvanceInput(s: State, t: Tid, pc: InputPc, ok: bool): State {
    match pc
    case InGate => Go(s, t, Inputting(if s.gate then InLock else InFd(false)))
    case InLock => Go(s.(dataLock := Some(t)), t, Inputting(InFd(true)))
    case InFd(locked) => Go(s, t, Inputting(InSend(locked, s.fd)))
    case InSend(locked, fd) =>
      if ok && fd.Some? && fd == s.fd then Go(Write(s, fd.value, Input(t)), t, Inputting(InDone(locked, true)))
      else Go(s, t, Inputting(InDone(locked, false)))
    case InDone(locked, sent) =>
      Go(if locked then s.(dataLock := None) else s, t, if sent then Idle else Falling(None, FallLock))
  }

  /** push_input_event_with_fds, both sends under data_lock, and then the mask update. */
  function AdvanceRequest(s: State, t: Tid, i: nat, pc: RequestPc, ok: bool): State {
    match pc
    case ReqLock(n) => Go(s.(dataLock := Some(t)), t, Requesting(i, ReqFirst(n)))
    case ReqFirst(n) =>
      if ok && s.fd.Some? then
        Go(Write(s, s.fd.value, Resource(i, n > 0)), t, Requesting(i, if n > 0 then ReqSecond(s.fd.value) else ReqUnlock(true)))
      else Go(s, t, Requesting(i, ReqUnlock(false)))
    case ReqSecond(g) =>
      if ok && s.fd == Some(g) then Go(Write(s, g, Extend(i)), t, Requesting(i, ReqUnlock(true)))
      else Go(s.(broken := s.broken + {g}), t, Requesting(i, ReqUnlock(false)))
    case ReqUnlock(sent) =>
      Go(s.(dataLock := None), t, if sent then Requesting(i, ReqTest) else Falling(Some(i), FallLock))
    case ReqTest => Go(s, t, if !s.fallback && 0 < s.services < 32 then Requesting(i, ReqMarkLock) else Idle)
    case ReqMarkLock => Go(s.(dataLock := Some(t)), t, Requesting(i, ReqMark))
    case ReqMark =>
      var mask := s.mask + {i};
      Go(s.(mask := mask, gate := s.gate && !Covers(mask, s.services), dataLock := None), t, Idle)
  }

  /** push_dmabufs goes on to tear the session down; the push that opens one is done. */
  function PushDone(s: State, t: Tid, opening: bool): State {
    Go(s.(openers := s.openers - {t}), t, if opening then Idle else Falling(None, FallLock))
  }

  function PushFailed(s: State, t: Tid, on: Option<nat>): State {
    Go(s.(openers := s.openers - {t}, broken := if on.Some? then s.broken + {on.value} else s.broken), t, Falling(None, FallLock))
  }

  /** push_dmabufs_internal: two sends, data_fd read for each, nothing locked. */
  function AdvancePush(s: State, t: Tid, opening: bool, pc: PushPc, ok: bool): State {
    match pc
    case PushRead => if s.stored then Go(s, t, Pushing(opening, PushSend(s.fd))) else PushDone(s, t, opening)
    case PushSend(on) =>
      if ok && on.Some? && on == s.fd then Go(Write(s, on.value, Head(t, opening)), t, Pushing(opening, InfosRead))
      else PushFailed(s, t, on)
    case InfosRead => Go(s, t, Pushing(opening, InfosSend(s.fd)))
    case InfosSend(on) =>
      if ok && on.Some? && on == s.fd then PushDone(Write(s, on.value, Infos(t, opening)), t, opening)
      else PushFailed(s, t, on)
  }

  /** enter_fallback: test-and-set under state_lock; close, replace and say hello under data_lock. */
  function AdvanceFall(s: State, t: Tid, k: Option<nat>, pc: FallPc, ok: bool): State {
    match pc
    case FallLock => Go(s.(stateLock := Some(t)), t, Falling(k, FallTest))
    case FallTest =>
      if s.fallback then Go(s.(stateLock := None), t, Resume(k))
      else Go(s.(fallback := true, torn := s.torn + 1), t, Falling(k, FallData))
    case FallData => Go(s.(dataLock := Some(t)), t, Falling(k, FallClose))
    case FallClose => Go(s.(fd := None), t, Falling(k, FallOpen))
    case FallOpen => Go(s.(gen := s.gen + 1, fd := if ok then Some(s.gen + 1) else None), t, Falling(k, FallHello(ok)))
    case FallHello(created) =>
      var sent := created && ok;
      Go(Arm(s).(deposits := s.deposits + OneIf(sent), unsent := s.unsent + OneIf(!sent), dataLock := None),
         t, Falling(k, FallUnlock))
    case FallUnlock => Go(s.(stateLock := None), t, Resume(k))
  }

  /** try_exit_fallback after it consumed the announcement: flip under state_lock, then push the
      buffer set without it. */
  function AdvanceExit(s: State, t: Tid, flip: bool): State {
    if !flip then Go(s.(stateLock := Some(t)), t, Leaving(true))
    else if !s.fallback then Go(s.(stateLock := None), t, Idle)
    else
      Go(Arm(s).(fallback := false, session := s.session + 1, requested := {}, stateLock := None, openers := s.openers + {t}),
         t, Pushing(true, PushRead))
  }

  // ---- locks and teardown: whatever the callers do ----

  predicate HoldsState(pc: Pc) {
    (pc.Falling? && !pc.fall.FallLock?) || pc == Leaving(true)
  }

  predicate HoldsData(pc: Pc) {
    match pc
    case Inputting(input) =>
      (match input
       case InFd(locked) => locked
       case InSend(locked, _) => locked
       case InDone(locked, _) => locked
       case _ => false)
    case Requesting(_, request) => request.ReqFirst? || request.ReqSecond? || request.ReqUnlock? || request.ReqMark?
    case Falling(_, fall) => fall.FallClose? || fall.FallOpen? || fall.FallHello?
    case _ => false
  }

  /** Torn down, with the socket of the old session still in place. */
  predicate Closing(pc: Pc) {
    pc.Falling? && (pc.fall.FallData? || pc.fall.FallClose? || pc.fall.FallOpen?)
  }

  /** Torn down, but the hello for the next session is not attempted yet. */
  predicate Between(pc: Pc) {
    Closing(pc) || (pc.Falling? && pc.fall.FallHello?)
  }

  predicate Halfway(pc: Pc, g: Option<nat>) {
    pc.Requesting? && pc.request.ReqSecond? ==> g == Some(pc.request.half)
  }

  predicate Fitting(pc: Pc, fd: Option<nat>) {
    pc.Inputting? && pc.input.InSend? && pc.input.locked ==> pc.input.fd == fd
  }

  /** What holds of one thread, given the locks and the shared fields it relies on. */
  ghost predicate ThreadOk(t: Tid, pc: Pc, stateLock: Option<Tid>, dataLock: Option<Tid>, fallback: bool, fd: Option<nat>) {
    && (HoldsState(pc) <==> stateLock == Some(t))
    && (HoldsData(pc) <==> dataLock == Some(t))
    && (Between(pc) || (pc.Falling? && pc.fall.FallUnlock?) ==> fallback)
    && Fitting(pc, fd) && Halfway(pc, fd)
  }

  ghost predicate ThreadsOk(s: State) {
    forall t: Tid :: ThreadOk(t, At(s, t), s.stateLock, s.dataLock, s.fallback, s.fd)
  }

  ghost predicate OpenersOk(s: State) {
    forall t: Tid :: t in s.openers <==> Opening(At(s, t))
  }

  ghost predicate CountsOk(s: State) {
    && (s.fd.Some? ==> s.fd.value == s.gen)
    && s.session == s.torn + OneIf(!s.fallback)
    && s.deposits + s.unsent + OneIf(s.stateLock.Some? && Between(At(s, s.stateLock.value))) == s.torn + 1
  }

  predicate Locks(before: Option<Tid>, after: Option<Tid>, t: Tid) {
    before == after || (before.None? && after == Some(t)) || (before == Some(t) && after.None?)
  }

  function Actor(step: Step): Tid {
    if step.StartRequest? then EVENT else step.t
  }

  /** What one thread's step can do to the others: it takes free locks and releases its own,
      leaves fallback only under state_lock and replaces data_fd only under data_lock. */
  ghost predicate Disciplined(s: State, s': State, t: Tid) {
    && Locks(s.stateLock, s'.stateLock, t) && Locks(s.dataLock, s'.dataLock, t)
    && (s.fallback && !s'.fallback ==> s.stateLock == Some(t))
    && (s'.fd != s.fd ==> s.dataLock == Some(t))
    && s'.pcs == s.pcs[t := At(s', t)]
    && ThreadOk(t, At(s', t), s'.stateLock, s'.dataLock, s'.fallback, s'.fd)
  }

  ghost predicate SelfOk(s: State, t: Tid) {
    ThreadOk(t, At(s, t), s.stateLock, s.dataLock, s.fallback, s.fd)
  }

  lemma InputDisciplined(s: State, t: Tid, pc: InputPc, ok: bool)
    requires SelfOk(s, t) && At(s, t) == Inputting(pc) && CanStep(s, t)
    ensures Disciplined(s, AdvanceInput(s, t, pc, ok), t)
  {
  }

  lemma RequestDisciplined(s: State, t: Tid, i: nat, pc: RequestPc, ok: bool)
    requires SelfOk(s, t) && At(s, t) == Requesting(i, pc) && CanStep(s, t)
    ensures Disciplined(s, AdvanceRequest(s, t, i, pc, ok), t)
  {
  }

  lemma PushDisciplined(s: State, t: Tid, opening: bool, pc: PushPc, ok: bool)
    requires SelfOk(s, t) && At(s, t) == Pushing(opening, pc)
    ensures Disciplined(s, AdvancePush(s, t, opening, pc, ok), t)
  {
  }

  lemma FallDisciplined(s: State, t: Tid, k: Option<nat>, pc: FallPc, ok: bool)
    requires SelfOk(s, t) && At(s, t) == Falling(k, pc) && CanStep(s, t)
    ensures Disciplined(s, AdvanceFall(s, t, k, pc, ok), t)
  {
  }

  lemma ExitDisciplined(s: State, t: Tid, flip: bool)
    requires SelfOk(s, t) && At(s, t) == Leaving(flip) && CanStep(s, t)
    ensures Disciplined(s, AdvanceExit(s, t, flip), t)
  {
  }

  lemma AdvanceDisciplined(s: State, t: Tid, ok: bool)
    requires SelfOk(s, t) && !At(s, t).Idle? && CanStep(s, t)
    ensures Disciplined(s, Advance(s, t, ok), t)
  {
    match At(s, t)
    case Inputting(pc) => InputDisciplined(s, t, pc, ok);
    case Requesting(i, pc) => RequestDisciplined(s, t, i, pc, ok);
    case Pushing(opening, pc) => PushDisciplined(s, t, opening, pc, ok);
    case Falling(k, pc) => FallDisciplined(s, t, k, pc, ok);
    case Leaving(flip) => ExitDisciplined(s, t, flip);
  }

  lemma StepDisciplined(s: State, step: Step)
    requires ThreadsOk(s) && Enabled(s, step, Nothing)
    ensures Disciplined(s, Do(s, step), Actor(step))
  {
    assert SelfOk(s, Actor(step));
    if step.Continue? { AdvanceDisciplined(s, step.t, step.ok); }
  }

  lemma OthersStay(s: State, s': State, t: Tid, u: Tid)
    requires s'.pcs == s.pcs[t := At(s', t)] && u != t
    ensures At(s', u) == At(s, u)
  {
  }

  lemma ThreadsKept(s: State, step: Step)
    requires ThreadsOk(s) && Enabled(s, step, Nothing)
    ensures ThreadsOk(Do(s, step))
  {
    StepDisciplined(s, step);
    var s', t := Do(s, step), Actor(step);
    forall u: Tid ensures ThreadOk(u, At(s', u), s'.stateLock, s'.dataLock, s'.fallback, s'.fd) {
      assert ThreadOk(u, At(s, u), s.stateLock, s.dataLock, s.fallback, s.fd);
      if u != t { OthersStay(s, s', t, u); }
    }
  }

  lemma InputCounts(s: State, t: Tid, pc: InputPc, ok: bool)
    requires SelfOk(s, t) && CountsOk(s) && At(s, t) == Inputting(pc)
    ensures CountsOk(AdvanceInput(s, t, pc, ok))
  {
  }

  lemma RequestCounts(s: State, t: Tid, i: nat, pc: RequestPc, ok: bool)
    requires SelfOk(s, t) && CountsOk(s) && At(s, t) == Requesting(i, pc)
    ensures CountsOk(AdvanceRequest(s, t, i, pc, ok))
  {
  }

  lemma PushCounts(s: State, t: Tid, opening: bool, pc: PushPc, ok: bool)
    requires SelfOk(s, t) && CountsOk(s) && At(s, t) == Pushing(opening, pc)
    ensures CountsOk(AdvancePush(s, t, opening, pc, ok))
  {
  }

  lemma FallCounts(s: State, t: Tid, k: Option<nat>, pc: FallPc, ok: bool)
    requires SelfOk(s, t) && CountsOk(s) && At(s, t) == Falling(k, pc) && CanStep(s, t)
    ensures CountsOk(AdvanceFall(s, t, k, pc, ok))
  {
  }

  lemma ExitCounts(s: State, t: Tid, flip: bool)
    requires SelfOk(s, t) && CountsOk(s) && At(s, t) == Leaving(flip) && CanStep(s, t)
    ensures CountsOk(AdvanceExit(s, t, flip))
  {
  }

  lemma CountsKept(s: State, step: Step)
    requires ThreadsOk(s) && CountsOk(s) && Enabled(s, step, Nothing)
    ensures CountsOk(Do(s, step))
  {
    var t := Actor(step);
    assert SelfOk(s, t);
    if step.Continue? {
      match At(s, t)
      case Inputting(pc) => InputCounts(s, t, pc, step.ok);
      case Requesting(i, pc) => RequestCounts(s, t, i, pc, step.ok);
      case Pushing(opening, pc) => PushCounts(s, t, opening, pc, step.ok);
      case Falling(k, pc) => FallCounts(s, t, k, pc, step.ok);
      case Leaving(flip) => ExitCounts(s, t, flip);
    }
  }

  /** A step changes who is opening a session for its own thread at most, and says so. */
  ghost predicate Signed(s: State, s': State, t: Tid) {
    && (t in s'.openers <==> Opening(At(s', t)))
    && (forall u: Tid :: u != t ==> (u in s'.openers <==> u in s.openers))
  }

  lemma InputSameOpeners(s: State, t: Tid, pc: InputPc, ok: bool)
    ensures var s' := AdvanceInput(s, t, pc, ok); s'.openers == s.openers && !At(s', t).Pushing? && !Busy(At(s', t))
  {
  }

  lemma RequestSameOpeners(s: State, t: Tid, i: nat, pc: RequestPc, ok: bool)
    requires At(s, t) == Requesting(i, pc)
    ensures var s' := AdvanceRequest(s, t, i, pc, ok);
            s'.openers == s.openers && !At(s', t).Pushing? && (Busy(At(s', t)) ==> Busy(At(s, t)))
  {
  }

  lemma PushSigned(s: State, t: Tid, opening: bool, pc: PushPc, ok: bool)
    requires t in s.openers <==> opening
    ensures Signed(s, AdvancePush(s, t, opening, pc, ok), t)
  {
  }

  lemma FallSameOpeners(s: State, t: Tid, k: Option<nat>, pc: FallPc, ok: bool)
    ensures var s' := AdvanceFall(s, t, k, pc, ok); s'.openers == s.openers && !At(s', t).Pushing? && !Busy(At(s', t))
  {
  }

  lemma AdvanceSigned(s: State, t: Tid, ok: bool)
    requires (t in s.openers <==> Opening(At(s, t))) && !At(s, t).Idle?
    ensures Signed(s, Advance(s, t, ok), t)
  {
    match At(s, t)
    case Inputting(pc) => InputSameOpeners(s, t, pc, ok);
    case Requesting(i, pc) => RequestSameOpeners(s, t, i, pc, ok);
    case Pushing(opening, pc) => PushSigned(s, t, opening, pc, ok);
    case Falling(k, pc) => FallSameOpeners(s, t, k, pc, ok);
    case Leaving(_) =>
  }

  lemma OpenersKept(s: State, step: Step)
    requires ThreadsOk(s) && OpenersOk(s) && Enabled(s, step, Nothing)
    ensures OpenersOk(Do(s, step))
  {
    var s', t := Do(s, step), Actor(step);
    StepDisciplined(s, step);
    assert t in s.openers <==> Opening(At(s, t));
    if step.Continue? { AdvanceSigned(s, t, step.ok); }
    forall u: Tid ensures u in s'.openers <==> Opening(At(s', u)) {
      assert u in s.openers <==> Opening(At(s, u));
      if u != t { OthersStay(s, s', t, u); }
    }
  }

  /** The state after a run in which the callers keep `p`. */
  ghost function After(services: nat, steps: seq<Step>, p: Promise): Option<State> {
    if steps == [] then Some(Start(services))
    else
      var before := After(services, steps[..|steps| - 1], p);
      var step := steps[|steps| - 1];
      if before.Some? && Enabled(before.value, step, p) then Some(Do(before.value, step)) else None
  }

  ghost predicate Reachable(s: State, p: Promise) {
    exists services, steps :: After(services, steps, p) == Some(s)
  }

  lemma {:induction false} LocksAlong(services: nat, steps: seq<Step>, p: Promise)
    requires After(services, steps, p).Some?
    ensures var s := After(services, steps, p).value; ThreadsOk(s) && CountsOk(s) && OpenersOk(s)
  {
    if steps != [] {
      var k := |steps| - 1;
      LocksAlong(services, steps[..k], p);
      var before := After(services, steps[..k], p).value;
      assert Enabled(before, steps[k], Nothing);
      ThreadsKept(before, steps[k]);
      CountsKept(before, steps[k]);
      OpenersKept(before, steps[k]);
    }
  }

  lemma LocksHold(s: State, p: Promise)
    requires Reachable(s, p)
    ensures ThreadsOk(s) && CountsOk(s)
  {
    var services, steps :| After(services, steps, p) == Some(s);
    LocksAlong(services, steps, p);
  }

  // ---- main results on teardown ----

  /** Of all the threads that find a session broken exactly one tears it down: every session
      but the current one was torn down once, and every teardown attempts one hello, which is sent
      or not. */
  lemma OneTeardownPerSession(s: State, p: Promise)
    requires Reachable(s, p)
    ensures s.session == s.torn + OneIf(!s.fallback)
    ensures s.torn <= s.deposits + s.unsent <= s.torn + 1
    ensures s.stateLock.None? ==> s.deposits + s.unsent == s.torn + 1
  {
    LocksHold(s, p);
  }

  /** A writer that took data_lock sends on the socket that is open right now. */
  lemma LockedWriterUsesOpenSocket(s: State, t: Tid, p: Promise)
    requires Reachable(s, p) && At(s, t).Inputting? && At(s, t).input.InSend? && At(s, t).input.locked
    ensures At(s, t).input.fd == s.fd && (s.fd.Some? ==> s.fd.value == s.gen)
  {
    LocksHold(s, p);
    assert SelfOk(s, t);
  }

  /** Nobody waits forever: as long as some thread is inside the library, a thread inside it can
      take its next step. The holder of data_lock never waits, and the holder of state_lock
      waits for data_lock at most. */
  lemma NoDeadlock(s: State, t: Tid)
    requires Reachable(s, Nothing) && !At(s, t).Idle?
    ensures exists u: Tid :: !At(s, u).Idle? && Enabled(s, Continue(u, true), Nothing)
  {
    LocksHold(s, Nothing);
    assert SelfOk(s, t);
    if s.dataLock.Some? {
      var u := s.dataLock.value;
      assert SelfOk(s, u);
      assert Enabled(s, Continue(u, true), Nothing);
    } else if s.stateLock.Some? {
      var u := s.stateLock.value;
      assert SelfOk(s, u);
      assert Enabled(s, Continue(u, true), Nothing);
    } else {
      assert Enabled(s, Continue(t, true), Nothing);
    }
  }

  // ---- the gate: with the promises `once` and `current` ----

  /** The request a thread is busy with, also while it is tearing down on the way. */
  function Serving(pc: Pc): Option<nat> {
    match pc
    case Requesting(i, _) => Some(i)
    case Falling(k, _) => k
    case _ => None
  }

  ghost predicate OnlyEventRequests(s: State) {
    forall t: Tid :: t != EVENT ==> Serving(At(s, t)).None?
  }

  ghost predicate RequestsOk(s: State) {
    && (forall i :: i in s.mask ==> i in s.requested)
    && (Serving(At(s, EVENT)).Some? ==> Serving(At(s, EVENT)).value in s.requested)
    && OnlyEventRequests(s)
  }

  /** Once the gate is down, or a writer acts on having seen it down, no two-part send is under
      way and none can start before the next session. */
  ghost predicate GateOk(s: State) {
    && (!s.gate || !NoneUnlocked(s) ==> (s.fallback || Covers(s.requested, s.services)) && !Busy(At(s, EVENT)))
    && (s.services == 0 ==> !s.gate)
  }

  /** A step of t starts no request but the one it is labelled with, and records as served only
      what it served. Only a new session forgets what was requested. */
  ghost predicate Frugal(s: State, s': State, t: Tid) {
    && (Serving(At(s', t)).None? || Serving(At(s', t)) == Serving(At(s, t)))
    && (s'.requested == s.requested || (At(s, t) == Leaving(true) && s.fallback && s'.mask == {}))
    && (forall i :: i in s'.mask ==> i in s.mask || Some(i) == Serving(At(s, t)))
  }

  lemma InputFrugal(s: State, t: Tid, pc: InputPc, ok: bool)
    requires At(s, t) == Inputting(pc)
    ensures Frugal(s, AdvanceInput(s, t, pc, ok), t)
  {
  }

  lemma RequestFrugal(s: State, t: Tid, i: nat, pc: RequestPc, ok: bool)
    requires At(s, t) == Requesting(i, pc)
    ensures Frugal(s, AdvanceRequest(s, t, i, pc, ok), t)
  {
  }

  lemma PushFrugal(s: State, t: Tid, opening: bool, pc: PushPc, ok: bool)
    requires At(s, t) == Pushing(opening, pc)
    ensures Frugal(s, AdvancePush(s, t, opening, pc, ok), t)
  {
  }

  lemma FallFrugal(s: State, t: Tid, k: Option<nat>, pc: FallPc, ok: bool)
    requires At(s, t) == Falling(k, pc)
    ensures Frugal(s, AdvanceFall(s, t, k, pc, ok), t)
  {
  }

  lemma AdvanceFrugal(s: State, t: Tid, ok: bool)
    requires !At(s, t).Idle?
    ensures Frugal(s, Advance(s, t, ok), t)
  {
    match At(s, t)
    case Inputting(pc) => InputFrugal(s, t, pc, ok);
    case Requesting(i, pc) => RequestFrugal(s, t, i, pc, ok);
    case Pushing(opening, pc) => PushFrugal(s, t, opening, pc, ok);
    case Falling(k, pc) => FallFrugal(s, t, k, pc, ok);
    case Leaving(_) =>
  }

  lemma OnlyEventKept(s: State, step: Step)
    requires ThreadsOk(s) && OnlyEventRequests(s) && Enabled(s, step, Nothing)
    ensures OnlyEventRequests(Do(s, step))
  {
    var s', t := Do(s, step), Actor(step);
    StepDisciplined(s, step);
    if step.Continue? { AdvanceFrugal(s, t, step.ok); }
    assert t != EVENT ==> Serving(At(s, t)).None?;
    forall u: Tid | u != EVENT ensures Serving(At(s', u)).None? {
      assert Serving(At(s, u)).None?;
      if u != t { OthersStay(s, s', t, u); }
    }
  }

  lemma RequestsKept(s: State, step: Step, p: Promise)
    requires ThreadsOk(s) && RequestsOk(s) && Enabled(s, step, p) && p.current
    ensures RequestsOk(Do(s, step))
  {
    var s', t := Do(s, step), Actor(step);
    StepDisciplined(s, step);
    OnlyEventKept(s, step);
    if step.Continue? { AdvanceFrugal(s, t, step.ok); }
    assert t != EVENT ==> Serving(At(s, t)).None?;
    if t != EVENT { OthersStay(s, s', t, EVENT); }
  }

  // How a step moves the gate and the writers that saw it down.

  lemma UnlockedFrom(s: State, s': State, t: Tid)
    requires s'.pcs == s.pcs[t := At(s', t)]
    ensures !NoneUnlocked(s') ==> !NoneUnlocked(s) || Unlocked(At(s', t))
  {
    if NoneUnlocked(s) && !Unlocked(At(s', t)) {
      forall u: Tid ensures !Unlocked(At(s', u)) {
        if u != t { OthersStay(s, s', t, u); }
      }
    }
  }

  lemma InputGate(s: State, t: Tid, pc: InputPc, ok: bool)
    requires GateOk(s) && At(s, t) == Inputting(pc)
    ensures GateOk(AdvanceInput(s, t, pc, ok))
  {
    var s' := AdvanceInput(s, t, pc, ok);
    UnlockedFrom(s, s', t);
    if NoneUnlocked(s) { assert !Unlocked(At(s, t)); }
  }

  lemma RequestGate(s: State, i: nat, pc: RequestPc, ok: bool)
    requires GateOk(s) && RequestsOk(s) && At(s, EVENT) == Requesting(i, pc)
    ensures GateOk(AdvanceRequest(s, EVENT, i, pc, ok))
  {
    var s' := AdvanceRequest(s, EVENT, i, pc, ok);
    UnlockedFrom(s, s', EVENT);
    if Covers(s'.mask, s.services) {
      forall k | 0 <= k < s.services ensures k in s.requested {
        assert k in s'.mask;
      }
    }
  }

  lemma PushGate(s: State, t: Tid, opening: bool, pc: PushPc, ok: bool)
    requires GateOk(s) && At(s, t) == Pushing(opening, pc)
    ensures GateOk(AdvancePush(s, t, opening, pc, ok))
  {
    UnlockedFrom(s, AdvancePush(s, t, opening, pc, ok), t);
  }

  lemma FallGate(s: State, t: Tid, k: Option<nat>, pc: FallPc, ok: bool)
    requires GateOk(s) && SelfOk(s, t) && At(s, t) == Falling(k, pc)
    ensures GateOk(AdvanceFall(s, t, k, pc, ok))
  {
    UnlockedFrom(s, AdvanceFall(s, t, k, pc, ok), t);
  }

  lemma ExitGate(s: State, t: Tid, flip: bool)
    requires GateOk(s) && At(s, t) == Leaving(flip)
    requires flip && s.fallback ==> At(s, EVENT).Idle? && NoneUnlocked(s)
    ensures GateOk(AdvanceExit(s, t, flip))
  {
    UnlockedFrom(s, AdvanceExit(s, t, flip), t);
  }

  lemma OnlyEventServes(s: State, t: Tid)
    requires RequestsOk(s) && At(s, t).Requesting?
    ensures t == EVENT
  {
    assert Serving(At(s, t)).Some?;
  }

  lemma AdvanceGate(s: State, t: Tid, ok: bool, p: Promise)
    requires ThreadsOk(s) && RequestsOk(s) && GateOk(s) && Enabled(s, Continue(t, ok), p) && p.current
    ensures GateOk(Advance(s, t, ok))
  {
    assert SelfOk(s, t);
    match At(s, t)
    case Inputting(pc) => InputGate(s, t, pc, ok);
    case Requesting(i, pc) =>
      OnlyEventServes(s, t);
      RequestGate(s, i, pc, ok);
    case Pushing(opening, pc) => PushGate(s, t, opening, pc, ok);
    case Falling(k, pc) => FallGate(s, t, k, pc, ok);
    case Leaving(flip) => ExitGate(s, t, flip);
  }

  lemma GateKept(s: State, step: Step, p: Promise)
    requires ThreadsOk(s) && RequestsOk(s) && GateOk(s) && Enabled(s, step, p) && p.once && p.current
    ensures GateOk(Do(s, step))
  {
    if step.Continue? {
      AdvanceGate(s, step.t, step.ok, p);
    } else {
      UnlockedFrom(s, Do(s, step), Actor(step));
    }
  }

  // ---- who pushes while a request is being answered ----

  /** May put a buffer frame on the wire; with `lax`, only if the set opens a session. */
  predicate Intrudes(pc: Pc, lax: bool) {
    pc.Pushing? && (pc.opening || !lax)
  }

  ghost predicate PushersOk(s: State, lax: bool) {
    Busy(At(s, EVENT)) ==> forall t: Tid :: !Intrudes(At(s, t), lax)
  }

  lemma PushFrame(s: State, t: Tid, opening: bool, pc: PushPc, ok: bool, lax: bool)
    requires At(s, t) == Pushing(opening, pc)
    ensures var pc' := At(AdvancePush(s, t, opening, pc, ok), t); !Busy(pc') && (Intrudes(pc', lax) ==> Intrudes(At(s, t), lax))
  {
  }

  lemma AdvanceIntrudes(s: State, t: Tid, ok: bool, lax: bool)
    requires !At(s, t).Idle? && !At(s, t).Leaving?
    ensures var pc := At(Advance(s, t, ok), t);
            (Busy(pc) ==> Busy(At(s, t))) && (Intrudes(pc, lax) ==> Intrudes(At(s, t), lax))
  {
    match At(s, t)
    case Inputting(pc) => InputSameOpeners(s, t, pc, ok);
    case Requesting(i, pc) => RequestSameOpeners(s, t, i, pc, ok);
    case Pushing(opening, pc) => PushFrame(s, t, opening, pc, ok, lax);
    case Falling(k, pc) => FallSameOpeners(s, t, k, pc, ok);
  }

  lemma PushersKept(s: State, step: Step, p: Promise)
    requires ThreadsOk(s) && OpenersOk(s) && PushersOk(s, !p.apart) && Enabled(s, step, p) && p.current
    ensures PushersOk(Do(s, step), !p.apart)
  {
    hide ThreadsOk;
    var s', t, lax := Do(s, step), Actor(step), !p.apart;
    StepDisciplined(s, step);
    if t != EVENT { OthersStay(s, s', t, EVENT); }
    if step.Continue? && !At(s, t).Leaving? { AdvanceIntrudes(s, t, step.ok, lax); }
    if Busy(At(s', EVENT)) {
      forall u: Tid ensures !Intrudes(At(s', u), lax) {
        assert u in s.openers <==> Opening(At(s, u));
        if u != t { OthersStay(s, s', t, u); }
        if step.StartRequest? && p.apart { assert !At(s, u).Pushing?; }
      }
    }
  }

  // ---- what lands on the wire ----

  /** The two-part send the event thread has half done on socket g. */
  function HalfSent(s: State, g: nat): Option<nat> {
    var pc := At(s, EVENT);
    if pc.Requesting? && pc.request.ReqSecond? && pc.request.half == g then Some(pc.service) else None
  }

  predicate Announces(f: Frame) {
    f.Resource? && f.extended
  }

  /** Part of a buffer set pushed into a session. */
  predicate Pushed(f: Frame) {
    (f.Head? || f.Infos?) && !f.opening
  }

  /** The service whose EXTEND_FDS frame is due after w; with `lax`, pushed sets are looked
      through. */
  function Due(w: seq<Frame>, lax: bool): Option<nat> {
    if w == [] then None
    else
      var last := w[|w| - 1];
      if Announces(last) then Some(last.service)
      else if lax && Pushed(last) then Due(w[..|w| - 1], lax)
      else None
  }

  predicate Follows(due: Option<nat>, f: Frame, broken: bool, lax: bool) {
    && (f.Extend? ==> due == Some(f.service))
    && (due.Some? && !broken ==> f == Extend(due.value) || (lax && Pushed(f)))
  }

  /** Every EXTEND_FDS frame comes when it is due, and unless a two-part send failed on this
      socket nothing else comes then. */
  ghost predicate StreamOk(w: seq<Frame>, broken: bool, half: Option<nat>, lax: bool) {
    && (forall k :: 0 <= k < |w| ==> Follows(Due(w[..k], lax), w[k], broken, lax))
    && (half.Some? ==> Due(w, lax) == half)
    && (!broken && Due(w, lax).Some? ==> half == Due(w, lax))
  }

  ghost predicate WiresOk(s: State, lax: bool) {
    forall g: nat :: StreamOk(Wire(s, g), g in s.broken, HalfSent(s, g), lax)
  }

  lemma AppendKeepsStream(w: seq<Frame>, broken: bool, half: Option<nat>, f: Frame, half': Option<nat>, lax: bool)
    requires StreamOk(w, broken, half, lax) && Follows(Due(w, lax), f, broken, lax)
    requires half'.Some? ==> Due(w + [f], lax) == half'
    requires !broken && Due(w + [f], lax).Some? ==> half' == Due(w + [f], lax)
    ensures StreamOk(w + [f], broken, half', lax)
  {
    forall k | 0 <= k < |w + [f]| ensures Follows(Due((w + [f])[..k], lax), (w + [f])[k], broken, lax) {
      if k < |w| {
        assert (w + [f])[..k] == w[..k];
        assert Follows(Due(w[..k], lax), w[k], broken, lax);
      } else {
        assert (w + [f])[..k] == w;
      }
    }
  }

  lemma DueAppends(w: seq<Frame>, f: Frame, lax: bool)
    ensures Due(w + [f], lax) ==
              if Announces(f) then Some(f.service) else if lax && Pushed(f) then Due(w, lax) else None
  {
    assert (w + [f])[..|w|] == w;
  }

  /** A frame that completes nothing, while nothing is half sent. */
  lemma PlainKeepsStream(w: seq<Frame>, broken: bool, f: Frame, lax: bool)
    requires StreamOk(w, broken, None, lax) && !f.Extend? && !Announces(f)
    ensures StreamOk(w + [f], broken, None, lax)
  {
    DueAppends(w, f, lax);
    AppendKeepsStream(w, broken, None, f, None, lax);
  }

  lemma PushedKeepsStream(w: seq<Frame>, broken: bool, half: Option<nat>, f: Frame)
    requires StreamOk(w, broken, half, true) && Pushed(f)
    ensures StreamOk(w + [f], broken, half, true)
  {
    DueAppends(w, f, true);
    AppendKeepsStream(w, broken, half, f, half, true);
  }

  lemma InputWires(s: State, t: Tid, pc: InputPc, ok: bool, lax: bool)
    requires ThreadsOk(s) && GateOk(s) && WiresOk(s, lax) && At(s, t) == Inputting(pc)
    ensures WiresOk(AdvanceInput(s, t, pc, ok), lax)
  {
    var s' := AdvanceInput(s, t, pc, ok);
    if t != EVENT { OthersStay(s, s', t, EVENT); }
    InputWhenNothingHalf(s, t, pc);
    forall g: nat ensures StreamOk(Wire(s', g), g in s'.broken, HalfSent(s', g), lax) {
      assert StreamOk(Wire(s, g), g in s.broken, HalfSent(s, g), lax);
      if pc.InSend? { PlainKeepsStream(Wire(s, g), g in s.broken, Input(t), lax); }
    }
  }

  /** A writer that sends holds data_lock or saw the gate down: nothing is half sent. */
  lemma InputWhenNothingHalf(s: State, t: Tid, pc: InputPc)
    requires ThreadsOk(s) && GateOk(s) && At(s, t) == Inputting(pc)
    ensures pc.InSend? ==> forall g: nat :: HalfSent(s, g).None?
  {
    assert SelfOk(s, t) && SelfOk(s, EVENT);
    if pc.InSend? && !pc.locked { assert Unlocked(At(s, t)); }
  }

  lemma RequestFirstWires(s: State, i: nat, n: nat, ok: bool, lax: bool)
    requires WiresOk(s, lax) && At(s, EVENT) == Requesting(i, ReqFirst(n))
    ensures WiresOk(AdvanceRequest(s, EVENT, i, ReqFirst(n), ok), lax)
  {
    var s' := AdvanceRequest(s, EVENT, i, ReqFirst(n), ok);
    forall g: nat ensures StreamOk(Wire(s', g), g in s'.broken, HalfSent(s', g), lax) {
      assert StreamOk(Wire(s, g), g in s.broken, HalfSent(s, g), lax);
      FirstKeepsStream(Wire(s, g), g in s.broken, i, n, lax);
    }
  }

  lemma RequestSecondWires(s: State, i: nat, h: nat, ok: bool, lax: bool)
    requires WiresOk(s, lax) && At(s, EVENT) == Requesting(i, ReqSecond(h))
    ensures WiresOk(AdvanceRequest(s, EVENT, i, ReqSecond(h), ok), lax)
  {
    var s' := AdvanceRequest(s, EVENT, i, ReqSecond(h), ok);
    forall g: nat ensures StreamOk(Wire(s', g), g in s'.broken, HalfSent(s', g), lax) {
      assert StreamOk(Wire(s, g), g in s.broken, HalfSent(s, g), lax);
      if g == h { SecondKeepsStream(Wire(s, g), g in s.broken, i, lax); }
    }
  }

  lemma RequestWires(s: State, i: nat, pc: RequestPc, ok: bool, lax: bool)
    requires WiresOk(s, lax) && At(s, EVENT) == Requesting(i, pc)
    ensures WiresOk(AdvanceRequest(s, EVENT, i, pc, ok), lax)
  {
    match pc
    case ReqFirst(n) => RequestFirstWires(s, i, n, ok, lax);
    case ReqSecond(h) => RequestSecondWires(s, i, h, ok, lax);
    case _ => SameWires(s, AdvanceRequest(s, EVENT, i, pc, ok), lax);
  }

  lemma FirstKeepsStream(w: seq<Frame>, broken: bool, i: nat, n: nat, lax: bool)
    requires StreamOk(w, broken, None, lax)
    ensures StreamOk(w + [Resource(i, n > 0)], broken, if n > 0 then Some(i) else None, lax)
  {
    DueAppends(w, Resource(i, n > 0), lax);
    AppendKeepsStream(w, broken, None, Resource(i, n > 0), if n > 0 then Some(i) else None, lax);
  }

  lemma SecondKeepsStream(w: seq<Frame>, broken: bool, i: nat, lax: bool)
    requires StreamOk(w, broken, Some(i), lax)
    ensures StreamOk(w + [Extend(i)], broken, None, lax) && StreamOk(w, true, None, lax)
  {
    DueAppends(w, Extend(i), lax);
    AppendKeepsStream(w, broken, Some(i), Extend(i), None, lax);
    forall k | 0 <= k < |w| ensures Follows(Due(w[..k], lax), w[k], true, lax) {
      assert Follows(Due(w[..k], lax), w[k], broken, lax);
    }
  }

  lemma BrokenKeepsStream(w: seq<Frame>, broken: bool, half: Option<nat>, lax: bool)
    requires StreamOk(w, broken, half, lax)
    ensures StreamOk(w, true, half, lax)
  {
    forall k | 0 <= k < |w| ensures Follows(Due(w[..k], lax), w[k], true, lax) {
      assert Follows(Due(w[..k], lax), w[k], broken, lax);
    }
  }

  lemma PushWires(s: State, t: Tid, opening: bool, pc: PushPc, ok: bool, lax: bool)
    requires PushersOk(s, lax) && WiresOk(s, lax) && At(s, t) == Pushing(opening, pc)
    ensures WiresOk(AdvancePush(s, t, opening, pc, ok), lax)
  {
    var s' := AdvancePush(s, t, opening, pc, ok);
    forall g: nat ensures StreamOk(Wire(s', g), g in s'.broken, HalfSent(s', g), lax) {
      PushHalf(s, t, opening, pc, ok, g);
      var w, broken, half := Wire(s, g), g in s.broken, HalfSent(s, g);
      assert StreamOk(w, broken, half, lax);
      BrokenKeepsStream(w, broken, half, lax);
      if Intrudes(At(s, t), lax) {
        assert half.None?;
        PlainKeepsStream(w, broken, Head(t, opening), lax);
        PlainKeepsStream(w, broken, Infos(t, opening), lax);
      } else {
        PushedKeepsStream(w, broken, half, Head(t, opening));
        PushedKeepsStream(w, broken, half, Infos(t, opening));
      }
    }
  }

  lemma PushHalf(s: State, t: Tid, opening: bool, pc: PushPc, ok: bool, g: nat)
    requires At(s, t) == Pushing(opening, pc)
    ensures var s' := AdvancePush(s, t, opening, pc, ok);
            && HalfSent(s', g) == HalfSent(s, g)
            && (g in s'.broken <== g in s.broken)
            && (Wire(s', g) == Wire(s, g)
                || ((g in s'.broken <==> g in s.broken)
                    && (Wire(s', g) == Wire(s, g) + [Head(t, opening)] || Wire(s', g) == Wire(s, g) + [Infos(t, opening)])))
  {
    var s' := AdvancePush(s, t, opening, pc, ok);
    if t != EVENT { OthersStay(s, s', t, EVENT); }
  }

  lemma SameWires(s: State, s': State, lax: bool)
    requires WiresOk(s, lax) && s'.wire == s.wire && s'.broken == s.broken
    requires forall g: nat :: HalfSent(s', g) == HalfSent(s, g)
    ensures WiresOk(s', lax)
  {
    forall g: nat ensures StreamOk(Wire(s', g), g in s'.broken, HalfSent(s', g), lax) {
      assert StreamOk(Wire(s, g), g in s.broken, HalfSent(s, g), lax);
    }
  }

  lemma FallWires(s: State, t: Tid, k: Option<nat>, pc: FallPc, ok: bool, lax: bool)
    requires WiresOk(s, lax) && At(s, t) == Falling(k, pc)
    ensures WiresOk(AdvanceFall(s, t, k, pc, ok), lax)
  {
    var s' := AdvanceFall(s, t, k, pc, ok);
    if t != EVENT { OthersStay(s, s', t, EVENT); }
    SameWires(s, s', lax);
  }

  lemma ExitWires(s: State, t: Tid, flip: bool, lax: bool)
    requires WiresOk(s, lax) && At(s, t) == Leaving(flip)
    ensures WiresOk(AdvanceExit(s, t, flip), lax)
  {
    var s' := AdvanceExit(s, t, flip);
    if t != EVENT { OthersStay(s, s', t, EVENT); }
    SameWires(s, s', lax);
  }

  ghost predicate GatedOk(s: State, lax: bool) {
    ThreadsOk(s) && OpenersOk(s) && RequestsOk(s) && GateOk(s) && PushersOk(s, lax) && WiresOk(s, lax)
  }

  lemma WiresKept(s: State, step: Step, p: Promise)
    requires GatedOk(s, !p.apart) && Enabled(s, step, p)
    ensures WiresOk(Do(s, step), !p.apart)
  {
    var t, lax := Actor(step), !p.apart;
    if step.Continue? {
      match At(s, t)
      case Inputting(pc) => InputWires(s, t, pc, step.ok, lax);
      case Requesting(i, pc) =>
        OnlyEventServes(s, t);
        RequestWires(s, i, pc, step.ok, lax);
      case Pushing(opening, pc) => PushWires(s, t, opening, pc, step.ok, lax);
      case Falling(k, pc) => FallWires(s, t, k, pc, step.ok, lax);
      case Leaving(flip) => ExitWires(s, t, flip, lax);
    } else {
      var s' := Do(s, step);
      if t != EVENT { OthersStay(s, s', t, EVENT); }
      SameWires(s, s', lax);
    }
  }

  lemma {:induction false} GateAlong(services: nat, steps: seq<Step>, p: Promise)
    requires After(services, steps, p).Some? && p.once && p.current
    ensures GatedOk(After(services, steps, p).value, !p.apart)
  {
    if steps != [] {
      var k := |steps| - 1;
      GateAlong(services, steps[..k], p);
      var before := After(services, steps[..k], p).value;
      assert Enabled(before, steps[k], Nothing);
      ThreadsKept(before, steps[k]);
      OpenersKept(before, steps[k]);
      RequestsKept(before, steps[k], p);
      GateKept(before, steps[k], p);
      PushersKept(before, steps[k], p);
      WiresKept(before, steps[k], p);
    }
  }

  lemma GateHolds(s: State, p: Promise)
    requires Reachable(s, p) && p.once && p.current
    ensures GatedOk(s, !p.apart)
  {
    var services, steps :| After(services, steps, p) == Some(s);
    GateAlong(services, steps, p);
  }

  // ---- main results on the gate ----

  lemma {:induction false} DueSince(w: seq<Frame>, lax: bool) returns (j: nat)
    requires Due(w, lax).Some?
    ensures j < |w| && w[j] == Resource(Due(w, lax).value, true)
    ensures forall m :: j < m < |w| ==> lax && Pushed(w[m])
    decreases |w|
  {
    if Announces(w[|w| - 1]) {
      j := |w| - 1;
    } else {
      j := DueSince(w[..|w| - 1], lax);
    }
  }

  lemma {:induction false} DueStays(w: seq<Frame>, j: nat)
    requires j < |w| && Announces(w[j]) && forall m :: j < m < |w| ==> Pushed(w[m])
    ensures Due(w, true) == Some(w[j].service)
    decreases |w|
  {
    if j < |w| - 1 {
      DueStays(w[..|w| - 1], j);
    }
  }

  /** Every EXTEND_FDS frame has its RESOURCE frame before it on the same socket, and between the
      two there is nothing but buffer sets pushed into the session. */
  lemma ExtendHasItsResource(s: State, p: Promise, g: nat, k: nat)
    requires Reachable(s, p) && p.once && p.current
    requires k < |Wire(s, g)| && Wire(s, g)[k].Extend?
    ensures exists j :: 0 <= j < k && Wire(s, g)[j] == Resource(Wire(s, g)[k].service, true)
                        && forall m :: j < m < k ==> Pushed(Wire(s, g)[m])
  {
    GateHolds(s, p);
    var w := Wire(s, g);
    assert StreamOk(w, g in s.broken, HalfSent(s, g), !p.apart);
    assert Follows(Due(w[..k], !p.apart), w[k], g in s.broken, !p.apart);
    var j := DueSince(w[..k], !p.apart);
    assert forall m :: j < m < k ==> w[..k][m] == w[m];
  }

  /** After a RESOURCE frame, also once the gate has dropped and input went lock-free, comes its
      EXTEND_FDS frame, with at most pushed buffer sets before it: no input frame, no other
      request and no opening set ever gets in between. */
  lemma OnlyPushesBetween(s: State, p: Promise, g: nat, j: nat, m: nat)
    requires Reachable(s, p) && p.once && p.current && g !in s.broken
    requires j < m < |Wire(s, g)| && Announces(Wire(s, g)[j])
    requires forall x :: j < x < m ==> Pushed(Wire(s, g)[x])
    ensures Wire(s, g)[m] == Extend(Wire(s, g)[j].service) || Pushed(Wire(s, g)[m])
  {
    GateHolds(s, p);
    var w := Wire(s, g);
    assert StreamOk(w, false, HalfSent(s, g), !p.apart);
    assert Follows(Due(w[..m], !p.apart), w[m], false, !p.apart);
    if p.apart {
      assert Follows(Due(w[..j + 1], false), w[j + 1], false, false) && Due(w[..j + 1], false) == Some(w[j].service);
    } else {
      DueStays(w[..m], j);
    }
  }

  /** If buffer sets are pushed only while no request is being answered, nothing at all lands
      between a RESOURCE frame and its EXTEND_FDS frame. */
  lemma NothingBetween(s: State, p: Promise, g: nat, k: nat)
    requires Reachable(s, p) && p.once && p.current && p.apart && k < |Wire(s, g)|
    ensures Wire(s, g)[k].Extend? ==> k > 0 && Wire(s, g)[k - 1] == Resource(Wire(s, g)[k].service, true)
    ensures Announces(Wire(s, g)[k]) && k + 1 < |Wire(s, g)| && g !in s.broken ==>
              Wire(s, g)[k + 1] == Extend(Wire(s, g)[k].service)
  {
    GateHolds(s, p);
    var w := Wire(s, g);
    assert StreamOk(w, g in s.broken, HalfSent(s, g), false);
    assert Follows(Due(w[..k], false), w[k], g in s.broken, false);
    if w[k].Extend? {
      var j := DueSince(w[..k], false);
      assert j == k - 1;
    }
    if Announces(w[k]) && k + 1 < |w| && g !in s.broken {
      assert Follows(Due(w[..k + 1], false), w[k + 1], false, false);
    }
  }
}
