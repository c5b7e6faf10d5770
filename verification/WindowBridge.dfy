/** The window bridge of anland_backend.cpp (Arch variant): ids for windows, the two hashes, and
    the window events that let the consumer keep its own picture of which windows exist. */
module WindowBridge {
  import opened Protocol

  const ID_SPACE := 0x1_0000_0000

  /** The identity of a Window object. */
  type Window = nat

  datatype Action = Create | Update | Destroy | Focus

  /** `about` is the window the title and geometry in the payload belong to. */
  datatype Entry = Entry(action: Action, id: nat, serial: nat, about: Window)

  /** push_output_event_with_length: a refused allocation loses the event but not the session. */
  datatype Outcome = Sent | NoMemory | Broken

  /** `log` holds the events sent in the current session, `issued` counts the ids handed out,
      `spent` the serial numbers, and `refused` holds the ids whose CREATE was lost for want of
      memory in this session and has not got through since. */
  datatype State = State(
    enabled: bool,
    inFallback: bool,
    nextId: nat,
    serial: nat,
    ids: map<Window, nat>,
    byId: map<nat, Window>,
    log: seq<Entry>,
    issued: nat,
    spent: nat,
    refused: set<nat>)

  function Initial(enabled: bool, inFallback: bool): State {
    State(enabled, inFallback, 1, 1, map[], map[], [], 0, 0, {})
  }

  function Wrap(n: nat): nat {
    n % ID_SPACE
  }

  /** A 32-bit counter that skips zero. */
  function PickId(nextId: nat): nat {
    if nextId == 0 then 1 else nextId
  }

  function Fall(s: State): State {
    s.(inFallback := true, log := [], refused := {})
  }

  function Spend(s: State): State {
    s.(serial := Wrap(s.serial + 1), spent := s.spent + 1)
  }

  /** An event without payload. */
  function Push(s: State, e: Entry, ok: bool): State {
    var next := Spend(s);
    if ok then next.(log := s.log + [e], refused := if Settles(e.action) then s.refused - {e.id} else s.refused)
    else Fall(next)
  }

  predicate Settles(action: Action) {
    action.Create? || action.Destroy?
  }

  /** A refused CREATE matters unless the consumer knows the window already. */
  function Refuse(s: State, e: Entry): set<nat> {
    if e.action.Create? && e.id !in Replay(s.log) then s.refused + {e.id} else s.refused
  }

  function PushWithPayload(s: State, e: Entry, outcome: Outcome): State {
    if outcome.NoMemory? then
      Spend(s).(refused := Refuse(s, e))
    else
      Push(s, e, outcome.Sent?)
  }

  function SendEvent(s: State, w: Window, action: Action, outcome: Outcome): State {
    if !s.enabled || s.inFallback || w !in s.ids then s
    else PushWithPayload(s, Entry(action, s.ids[w], s.serial, w), outcome)
  }

  function SendFocus(s: State, w: Option<Window>, ok: bool): State {
    if !s.enabled || s.inFallback || w.None? || w.value !in s.ids then s
    else Push(s, Entry(Focus, s.ids[w.value], s.serial, w.value), ok)
  }

  function Insert(s: State, w: Window): State {
    var id := PickId(s.nextId);
    s.(nextId := Wrap(id + 1), ids := s.ids[w := id], byId := s.byId[id := w], issued := s.issued + 1)
  }

  /** `client` says that the window is a client window and not an internal one. */
  predicate Takes(s: State, w: Window, client: bool) {
    s.enabled && client && w !in s.ids
  }

  function Track(s: State, w: Window, client: bool, outcome: Outcome): State {
    if Takes(s, w, client) then SendEvent(Insert(s, w), w, Create, outcome) else s
  }

  function Untrack(s: State, w: Window, ok: bool): State {
    if w !in s.ids then s
    else
      var id := s.ids[w];
      var told := if s.inFallback then s else Push(s, Entry(Destroy, id, s.serial, w), ok);
      told.(ids := told.ids - {w}, byId := told.byId - {id})
  }

  function CreateAll(s: State, order: seq<(Window, Outcome)>): State {
    if order == [] then s
    else
      var (w, outcome) := order[|order| - 1];
      SendEvent(CreateAll(s, order[..|order| - 1]), w, Create, outcome)
  }

  /** The snapshot visits the hash in some order, then re-announces the focus. */
  function Resend(s: State, order: seq<(Window, Outcome)>, active: Option<Window>, ok: bool): State {
    if !s.enabled || s.inFallback then s else SendFocus(CreateAll(s, order), active, ok)
  }

  /** A window that is there when the bridge is set up. */
  datatype Existing = Existing(w: Window, client: bool, outcome: Outcome)

  function TrackAll(s: State, existing: seq<Existing>): State {
    if existing == [] then s
    else
      var x := existing[|existing| - 1];
      Track(TrackAll(s, existing[..|existing| - 1]), x.w, x.client, x.outcome)
  }

  /** Windows that exist already are tracked first, then announced a second time. */
  function SetUpBridge(s: State, existing: seq<Existing>, order: seq<(Window, Outcome)>,
                       active: Option<Window>, ok: bool): State {
    if !s.enabled then s else Resend(TrackAll(s, existing), order, active, ok)
  }

  /** `early` says whether the reconnect gets as far as the snapshot. */
  function Reconnect(s: State, early: bool, order: seq<(Window, Outcome)>, active: Option<Window>, ok: bool): State {
    if !s.inFallback || !early then s else Resend(s.(inFallback := false), order, active, ok)
  }

  ghost predicate Covers(order: seq<(Window, Outcome)>, ids: map<Window, nat>) {
    forall w: Window | w in ids :: exists k :: 0 <= k < |order| && order[k].0 == w
  }

  datatype Event =
    | BridgeSetUp(existing: seq<Existing>, order: seq<(Window, Outcome)>, active: Option<Window>, ok: bool)
    | Added(w: Window, client: bool, outcome: Outcome)
    | Removed(w: Window, ok: bool)
    | Changed(w: Window, outcome: Outcome)
    | Activated(active: Option<Window>, ok: bool)
    | Snapshot(order: seq<(Window, Outcome)>, active: Option<Window>, ok: bool)
    | Reconnected(early: bool, order: seq<(Window, Outcome)>, active: Option<Window>, ok: bool)
    | Lost

  ghost predicate Possible(s: State, e: Event) {
    && (e.BridgeSetUp? ==> Covers(e.order, TrackAll(s, e.existing).ids))
    && ((e.Snapshot? || e.Reconnected?) ==> Covers(e.order, s.ids))
  }

  function Do(s: State, e: Event): State {
    match e
    case BridgeSetUp(existing, order, active, ok) => SetUpBridge(s, existing, order, active, ok)
    case Added(w, client, outcome) => Track(s, w, client, outcome)
    case Removed(w, ok) => Untrack(s, w, ok)
    case Changed(w, outcome) => SendEvent(s, w, Update, outcome)
    case Activated(active, ok) => SendFocus(s, active, ok)
    case Snapshot(order, active, ok) => Resend(s, order, active, ok)
    case Reconnected(early, order, active, ok) => Reconnect(s, early, order, active, ok)
    case Lost => Fall(s)
  }

  ghost function Run(s: State, events: seq<Event>): State {
    if events == [] then s
    else
      var before := Run(s, events[..|events| - 1]);
      var e := events[|events| - 1];
      if Possible(before, e) then Do(before, e) else before
  }

  /** What a consumer that follows the events believes: which window each id stands for. */
  function Replay(log: seq<Entry>): map<nat, Window> {
    if log == [] then map[]
    else
      var m, e := Replay(log[..|log| - 1]), log[|log| - 1];
      match e.action
      case Create => m[e.id := e.about]
      case Destroy => m - {e.id}
      case _ => m
  }

  /** The two hashes are inverse to each other and id zero is not used. */
  ghost predicate Inverse(ids: map<Window, nat>, byId: map<nat, Window>) {
    && (forall w: Window | w in ids :: ids[w] in byId && byId[ids[w]] == w)
    && (forall id: nat | id in byId :: byId[id] in ids && ids[byId[id]] == id)
    && 0 !in byId
  }

  ghost predicate Counted(s: State) {
    && s.nextId == Wrap(s.issued + 1)
    && (forall id: nat | id in s.byId :: id <= s.issued)
  }

  /** The consumer knows only windows that are tracked, under the right id, and lacks exactly
      those whose CREATE was refused and perhaps some of `except`. */
  ghost predicate Told(known: map<nat, Window>, byId: map<nat, Window>, refused: set<nat>, except: set<nat>) {
    && (forall id: nat | id in known :: id in byId && byId[id] == known[id] && id !in refused)
    && (forall id: nat | id in byId :: id in known || id in refused || id in except)
    && (forall id: nat | id in refused :: id in byId)
  }

  ghost predicate Session(s: State, except: set<nat>) {
    if s.inFallback then s.log == [] && s.refused == {} else Told(Replay(s.log), s.byId, s.refused, except)
  }

  ghost predicate Inv(s: State) {
    Inverse(s.ids, s.byId) && Counted(s) && Session(s, {}) && (!s.enabled ==> s.ids == map[])
  }

  /** Sending changes the session's bookkeeping and nothing else. */
  predicate Sends(s: State, r: State) {
    r == s.(inFallback := r.inFallback, serial := r.serial, log := r.log, spent := r.spent, refused := r.refused)
  }

  lemma ReplayAppends(log: seq<Entry>, e: Entry)
    ensures Replay(log + [e]) ==
              (match e.action
               case Create => Replay(log)[e.id := e.about]
               case Destroy => Replay(log) - {e.id}
               case _ => Replay(log))
  {
    assert (log + [e])[..|log|] == log;
  }

  /** Creating a tracked window settles its id; updating it settles nothing. */
  lemma SendTells(s: State, w: Window, action: Action, outcome: Outcome, except: set<nat>)
    requires Inverse(s.ids, s.byId) && Session(s, except) && s.enabled && action != Destroy
    ensures Session(SendEvent(s, w, action, outcome), if action == Create then Settle(except, w, s.ids) else except)
    ensures var r := SendEvent(s, w, action, outcome); Sends(s, r)
    ensures s.inFallback ==> SendEvent(s, w, action, outcome).inFallback
  {
    if !s.inFallback && w in s.ids {
      ReplayAppends(s.log, Entry(action, s.ids[w], s.serial, w));
    }
  }

  lemma FocusTells(s: State, w: Option<Window>, ok: bool, except: set<nat>)
    requires Session(s, except)
    ensures Session(SendFocus(s, w, ok), except)
    ensures var r := SendFocus(s, w, ok); Sends(s, r)
  {
    if !s.inFallback && w.Some? && w.value in s.ids {
      ReplayAppends(s.log, Entry(Focus, s.ids[w.value], s.serial, w.value));
    }
  }

  lemma TrackKeeps(s: State, w: Window, client: bool, outcome: Outcome)
    requires Inv(s) && s.issued + 1 < ID_SPACE
    ensures Inv(Track(s, w, client, outcome))
  {
    if Takes(s, w, client) {
      var id := PickId(s.nextId);
      assert id == s.issued + 1;
      SendTells(Insert(s, w), w, Create, outcome, {id});
      assert {id} - {id} == {};
    }
  }

  lemma ForgetKeepsInverse(ids: map<Window, nat>, byId: map<nat, Window>, w: Window)
    requires Inverse(ids, byId) && w in ids
    ensures Inverse(ids - {w}, byId - {ids[w]})
  {
  }

  /** A DESTROY that got through settles the id, also if its CREATE was refused. */
  lemma DestroyTells(log: seq<Entry>, byId: map<nat, Window>, refused: set<nat>, e: Entry)
    requires Told(Replay(log), byId, refused, {}) && e.action.Destroy?
    ensures Told(Replay(log + [e]), byId - {e.id}, refused - {e.id}, {})
  {
    ReplayAppends(log, e);
  }

  lemma UntrackKeeps(s: State, w: Window, ok: bool)
    requires Inv(s)
    ensures Inv(Untrack(s, w, ok))
  {
    if w in s.ids {
      ForgetKeepsInverse(s.ids, s.byId, w);
      if !s.inFallback && ok {
        hide Told;
        DestroyTells(s.log, s.byId, s.refused, Entry(Destroy, s.ids[w], s.serial, w));
      }
    }
  }

  /** The ids that a snapshot in this order leaves out. */
  ghost function Unsettled(except: set<nat>, order: seq<(Window, Outcome)>, ids: map<Window, nat>): set<nat> {
    set id | id in except && !exists k :: 0 <= k < |order| && order[k].0 in ids && ids[order[k].0] == id
  }

  ghost function Settle(except: set<nat>, w: Window, ids: map<Window, nat>): set<nat> {
    if w in ids then except - {ids[w]} else except
  }

  lemma UnsettledStep(except: set<nat>, order: seq<(Window, Outcome)>, ids: map<Window, nat>)
    requires order != []
    ensures Unsettled(except, order, ids) ==
              Settle(Unsettled(except, order[..|order| - 1], ids), order[|order| - 1].0, ids)
  {
    var k := |order| - 1;
    forall id
      ensures id in Unsettled(except, order, ids) <==> id in Settle(Unsettled(except, order[..k], ids), order[k].0, ids)
    {
      assert forall j :: 0 <= j < k ==> order[..k][j] == order[j];
    }
  }

  lemma {:induction false} CreateAllTells(s: State, order: seq<(Window, Outcome)>, except: set<nat>)
    requires Inverse(s.ids, s.byId) && Session(s, except) && s.enabled
    ensures var r := CreateAll(s, order);
            && Sends(s, r)
            && Session(r, Unsettled(except, order, s.ids))
  {
    if order == [] {
      assert Unsettled(except, order, s.ids) == except;
    } else {
      var k := |order| - 1;
      CreateAllTells(s, order[..k], except);
      UnsettledStep(except, order, s.ids);
      SendTells(CreateAll(s, order[..k]), order[k].0, Create, order[k].1, Unsettled(except, order[..k], s.ids));
    }
  }

  lemma ResendKeeps(s: State, order: seq<(Window, Outcome)>, active: Option<Window>, ok: bool, except: set<nat>)
    requires Inverse(s.ids, s.byId) && Counted(s) && Session(s, except) && except <= s.byId.Keys
    requires Covers(order, s.ids)
    requires !s.enabled ==> s.ids == map[]
    ensures Inv(Resend(s, order, active, ok))
  {
    if s.enabled && !s.inFallback {
      CreateAllTells(s, order, except);
      assert Unsettled(except, order, s.ids) == {};
      FocusTells(CreateAll(s, order), active, ok, {});
    }
  }

  lemma {:induction false} TrackAllIssues(s: State, existing: seq<Existing>)
    ensures s.issued <= TrackAll(s, existing).issued
  {
    if existing != [] {
      var k := |existing| - 1;
      TrackAllIssues(s, existing[..k]);
      IssuedOnce(TrackAll(s, existing[..k]), existing[k].w, existing[k].client, existing[k].outcome);
    }
  }

  lemma {:induction false} TrackAllKeeps(s: State, existing: seq<Existing>)
    requires Inv(s) && TrackAll(s, existing).issued < ID_SPACE
    ensures Inv(TrackAll(s, existing)) && TrackAll(s, existing).enabled == s.enabled
  {
    hide Inv;
    if existing != [] {
      var k := |existing| - 1;
      var before := TrackAll(s, existing[..k]);
      IssuedOnce(before, existing[k].w, existing[k].client, existing[k].outcome);
      TrackAllKeeps(s, existing[..k]);
      if Takes(before, existing[k].w, existing[k].client) {
        TrackKeeps(before, existing[k].w, existing[k].client, existing[k].outcome);
      }
    }
  }

  lemma SetUpKeeps(s: State, existing: seq<Existing>, order: seq<(Window, Outcome)>, active: Option<Window>, ok: bool)
    requires Inv(s) && Covers(order, TrackAll(s, existing).ids)
    requires SetUpBridge(s, existing, order, active, ok).issued < ID_SPACE
    ensures Inv(SetUpBridge(s, existing, order, active, ok))
  {
    if s.enabled {
      var tracked := TrackAll(s, existing);
      CreateAllIssuesNothing(tracked, order);
      TrackAllKeeps(s, existing);
      ResendKeeps(tracked, order, active, ok, {});
    }
  }

  lemma EventKeeps(s: State, e: Event)
    requires Inv(s) && Possible(s, e)
    requires Do(s, e).issued < ID_SPACE
    ensures Inv(Do(s, e))
  {
    match e
    case BridgeSetUp(existing, order, active, ok) => SetUpKeeps(s, existing, order, active, ok);
    case Added(w, client, outcome) =>
      if Takes(s, w, client) {
        IssuedOnce(s, w, client, outcome);
        TrackKeeps(s, w, client, outcome);
      }
    case Removed(w, ok) => UntrackKeeps(s, w, ok);
    case Changed(w, outcome) =>
      if s.enabled {
        SendTells(s, w, Update, outcome, {});
      }
    case Activated(active, ok) => FocusTells(s, active, ok, {});
    case Snapshot(order, active, ok) => ResendKeeps(s, order, active, ok, {});
    case Reconnected(early, order, active, ok) =>
      if s.inFallback && early {
        ResendKeeps(s.(inFallback := false), order, active, ok, s.byId.Keys);
      }
    case Lost =>
  }

  lemma IssuedOnce(s: State, w: Window, client: bool, outcome: Outcome)
    ensures Track(s, w, client, outcome).issued == s.issued + if Takes(s, w, client) then 1 else 0
  {
  }

  lemma {:induction false} CreateAllIssuesNothing(s: State, order: seq<(Window, Outcome)>)
    ensures CreateAll(s, order).issued == s.issued
  {
    if order != [] {
      CreateAllIssuesNothing(s, order[..|order| - 1]);
    }
  }

  lemma IssuedGrows(s: State, e: Event)
    ensures s.issued <= Do(s, e).issued
  {
    match e
    case BridgeSetUp(existing, order, _, _) =>
      TrackAllIssues(s, existing);
      CreateAllIssuesNothing(TrackAll(s, existing), order);
    case Snapshot(order, _, _) => CreateAllIssuesNothing(s, order);
    case Reconnected(_, order, _, _) => CreateAllIssuesNothing(s.(inFallback := false), order);
    case _ =>
  }

  lemma {:induction false} RunKeeps(enabled: bool, inFallback: bool, events: seq<Event>)
    requires Run(Initial(enabled, inFallback), events).issued < ID_SPACE
    ensures Inv(Run(Initial(enabled, inFallback), events))
  {
    if events != [] {
      var before := Run(Initial(enabled, inFallback), events[..|events| - 1]);
      var e := events[|events| - 1];
      IssuedGrows(before, e);
      RunKeeps(enabled, inFallback, events[..|events| - 1]);
      if Possible(before, e) {
        EventKeeps(before, e);
      }
    }
  }

  /** With fewer than 2^32 ids issued: the hashes stay inverse with nonzero ids, and while
      connected the consumer's picture is the id table exactly if no tracked window has its CREATE
      outstanding; it always is the id table without those. */
  lemma ReplayYieldsTracked(enabled: bool, inFallback: bool, events: seq<Event>)
    requires Run(Initial(enabled, inFallback), events).issued < ID_SPACE
    ensures var s := Run(Initial(enabled, inFallback), events);
            && Inverse(s.ids, s.byId)
            && (!s.inFallback ==> Replay(s.log) == s.byId - s.refused)
            && (!s.inFallback ==> (Replay(s.log) == s.byId <==> s.refused == {}))
  {
    RunKeeps(enabled, inFallback, events);
    var s := Run(Initial(enabled, inFallback), events);
    if !s.inFallback && s.refused != {} {
      var id :| id in s.refused;
      assert id in s.byId && id !in Replay(s.log);
    }
  }

  /** A refused allocation while a window appears: the consumer does not learn of it, though the
      session goes on; once the window is gone the two agree again. */
  lemma RefusedCreateIsMissed(w: Window)
    ensures var s := Run(Initial(true, false), [Added(w, true, NoMemory)]);
            !s.inFallback && s.byId == map[1 := w] && Replay(s.log) == map[] && s.refused == {1}
    ensures var s := Run(Initial(true, false), [Added(w, true, NoMemory), Removed(w, true)]);
            !s.inFallback && s.byId == map[] && Replay(s.log) == map[] && s.refused == {}
  {
    var i := Initial(true, false);
    var added := [Added(w, true, NoMemory)];
    var one := Do(i, added[0]);
    assert Run(i, []) == i && added[..0] == [];
    assert Run(i, added) == one;
    assert one.ids == map[w := 1] && one.byId == map[1 := w] && one.log == [] && one.refused == {1};
    var both := [Added(w, true, NoMemory), Removed(w, true)];
    assert both[..1] == added;
    assert Run(i, both) == Do(one, both[1]);
    var destroy := Entry(Destroy, 1, one.serial, w);
    ReplayAppends([], destroy);
    assert [] + [destroy] == [destroy];
    assert Do(one, both[1]).log == [destroy];
  }

  /** A command names the window that the consumer means by the id. */
  lemma CommandFindsWindow(enabled: bool, inFallback: bool, events: seq<Event>, id: nat)
    requires Run(Initial(enabled, inFallback), events).issued < ID_SPACE
    requires id in Replay(Run(Initial(enabled, inFallback), events).log)
    ensures var s := Run(Initial(enabled, inFallback), events);
            id in s.byId && s.byId[id] == Replay(s.log)[id]
  {
    RunKeeps(enabled, inFallback, events);
  }

  /** Once the counter has wrapped, taking a window keeps the hashes inverse exactly if the id it
      draws is free. */
  lemma TrackInverseIffIdFree(s: State, w: Window, outcome: Outcome)
    requires Inverse(s.ids, s.byId) && s.nextId < ID_SPACE && Takes(s, w, true)
    ensures var r := Track(s, w, true, outcome); Inverse(r.ids, r.byId) <==> PickId(s.nextId) !in s.byId
  {
    var id := PickId(s.nextId);
    var inserted := Insert(s, w);
    assert SendEvent(inserted, w, Create, outcome).ids == inserted.ids;
    assert SendEvent(inserted, w, Create, outcome).byId == inserted.byId;
    if id in s.byId {
      var other := s.byId[id];
      assert other in inserted.ids && inserted.ids[other] == id && inserted.byId[id] == w != other;
    }
  }

  lemma RunStep(s: State, events: seq<Event>, e: Event)
    requires Possible(Run(s, events), e)
    ensures Run(s, events + [e]) == Do(Run(s, events), e)
  {
    assert (events + [e])[..|events|] == events;
  }

  /** Window a appears and stays; window b comes and goes n times. */
  function Churn(a: Window, b: Window, n: nat): seq<Event> {
    if n == 0 then [Added(a, true, Sent)] else Churn(a, b, n - 1) + [Added(b, true, Sent)] + [Removed(b, true)]
  }

  /** Connected, window a tracked under id 1 and no other. */
  predicate OnlyFirst(s: State, a: Window, nextId: nat) {
    s.enabled && !s.inFallback && s.ids == map[a := 1] && s.byId == map[1 := a] && s.nextId == nextId
  }

  lemma OneComes(s: State, a: Window, b: Window, id: nat)
    requires OnlyFirst(s, a, id) && a != b && 1 < id
    ensures var r := Track(s, b, true, Sent);
            && r.enabled && !r.inFallback && r.nextId == Wrap(id + 1)
            && r.ids == map[a := 1, b := id] && r.byId == map[1 := a, id := b]
  {
  }

  lemma OneGoes(s: State, a: Window, b: Window, id: nat)
    requires a != b && 1 < id && s.enabled && !s.inFallback
    requires s.ids == map[a := 1, b := id] && s.byId == map[1 := a, id := b]
    ensures OnlyFirst(Untrack(s, b, true), a, s.nextId)
  {
    assert s.ids - {b} == map[a := 1] && s.byId - {id} == map[1 := a];
  }

  lemma ComeAndGo(i: State, events: seq<Event>, a: Window, b: Window, id: nat)
    requires OnlyFirst(Run(i, events), a, id) && a != b && 1 < id
    ensures OnlyFirst(Run(i, events + [Added(b, true, Sent)] + [Removed(b, true)]), a, Wrap(id + 1))
  {
    hide Track, Untrack;
    RunStep(i, events, Added(b, true, Sent));
    OneComes(Run(i, events), a, b, id);
    RunStep(i, events + [Added(b, true, Sent)], Removed(b, true));
    OneGoes(Run(i, events + [Added(b, true, Sent)]), a, b, id);
  }

  lemma FirstComes(a: Window)
    ensures OnlyFirst(Run(Initial(true, false), [Added(a, true, Sent)]), a, 2)
  {
    RunStep(Initial(true, false), [], Added(a, true, Sent));
    assert [] + [Added(a, true, Sent)] == [Added(a, true, Sent)];
  }

  lemma {:induction false} ChurnUsesIds(a: Window, b: Window, n: nat)
    requires a != b && n <= ID_SPACE - 2
    ensures OnlyFirst(Run(Initial(true, false), Churn(a, b, n)), a, Wrap(n + 2))
  {
    hide OnlyFirst, Run;
    if n == 0 {
      FirstComes(a);
    } else {
      ChurnUsesIds(a, b, n - 1);
      ComeAndGo(Initial(true, false), Churn(a, b, n - 1), a, b, n + 1);
    }
  }

  /** The input: window a keeps its id while another window comes and goes until the counter has
      wrapped. The next window gets the same id, and the hashes are not inverse any more. */
  lemma WrapReusesLiveId(a: Window, b: Window, n: nat)
    requires a != b && n == ID_SPACE - 2
    ensures var s := Run(Initial(true, false), Churn(a, b, n) + [Added(b, true, Sent)]);
            s.ids == map[a := 1, b := 1] && s.byId == map[1 := b] && !Inverse(s.ids, s.byId)
  {
    ChurnUsesIds(a, b, n);
    RunStep(Initial(true, false), Churn(a, b, n), Added(b, true, Sent));
    var s := Run(Initial(true, false), Churn(a, b, n));
    assert PickId(s.nextId) == 1;
    var r := Track(s, b, true, Sent);
    assert r.ids == map[a := 1, b := 1] && r.byId == map[1 := b];
    assert a in r.ids && r.byId[r.ids[a]] == b;
  }

  // ---- serial numbers ----

  /** Before the serial counter wraps, the serials in a session ascend. */
  ghost predicate Ascending(log: seq<Entry>, spent: nat) {
    && (forall i, j :: 0 <= i < j < |log| ==> log[i].serial < log[j].serial)
    && (forall i :: 0 <= i < |log| ==> log[i].serial <= spent)
  }

  ghost predicate Serials(s: State) {
    s.serial == Wrap(s.spent + 1) && (s.spent < ID_SPACE - 1 ==> Ascending(s.log, s.spent))
  }

  lemma PushSerials(s: State, e: Entry, ok: bool)
    requires Serials(s) && e.serial == s.serial
    ensures Serials(Push(s, e, ok)) && Push(s, e, ok).spent == s.spent + 1
  {
  }

  lemma SendSerials(s: State, w: Window, action: Action, outcome: Outcome)
    requires Serials(s)
    ensures Serials(SendEvent(s, w, action, outcome)) && s.spent <= SendEvent(s, w, action, outcome).spent
  {
    if s.enabled && !s.inFallback && w in s.ids {
      PushSerials(s, Entry(action, s.ids[w], s.serial, w), outcome.Sent?);
    }
  }

  lemma {:induction false} CreateAllSerials(s: State, order: seq<(Window, Outcome)>)
    requires Serials(s)
    ensures Serials(CreateAll(s, order)) && s.spent <= CreateAll(s, order).spent
  {
    if order != [] {
      var k := |order| - 1;
      CreateAllSerials(s, order[..k]);
      SendSerials(CreateAll(s, order[..k]), order[k].0, Create, order[k].1);
    }
  }

  lemma ResendSerials(s: State, order: seq<(Window, Outcome)>, active: Option<Window>, ok: bool)
    requires Serials(s)
    ensures Serials(Resend(s, order, active, ok)) && s.spent <= Resend(s, order, active, ok).spent
  {
    CreateAllSerials(s, order);
    FocusSerials(CreateAll(s, order), active, ok);
  }

  lemma FocusSerials(s: State, w: Option<Window>, ok: bool)
    requires Serials(s)
    ensures Serials(SendFocus(s, w, ok)) && s.spent <= SendFocus(s, w, ok).spent
  {
    if w.Some? && w.value in s.ids {
      PushSerials(s, Entry(Focus, s.ids[w.value], s.serial, w.value), ok);
    }
  }

  lemma {:induction false} TrackAllSerials(s: State, existing: seq<Existing>)
    requires Serials(s)
    ensures Serials(TrackAll(s, existing)) && s.spent <= TrackAll(s, existing).spent
  {
    if existing != [] {
      var k := |existing| - 1;
      TrackAllSerials(s, existing[..k]);
      SendSerials(Insert(TrackAll(s, existing[..k]), existing[k].w), existing[k].w, Create, existing[k].outcome);
    }
  }

  lemma EventSerials(s: State, e: Event)
    requires Serials(s)
    ensures Serials(Do(s, e)) && s.spent <= Do(s, e).spent
  {
    match e
    case BridgeSetUp(existing, order, active, ok) =>
      TrackAllSerials(s, existing);
      ResendSerials(TrackAll(s, existing), order, active, ok);
    case Added(w, client, outcome) => SendSerials(Insert(s, w), w, Create, outcome);
    case Removed(w, ok) =>
      if w in s.ids {
        PushSerials(s, Entry(Destroy, s.ids[w], s.serial, w), ok);
      }
    case Changed(w, outcome) => SendSerials(s, w, Update, outcome);
    case Activated(active, ok) => FocusSerials(s, active, ok);
    case Snapshot(order, active, ok) => ResendSerials(s, order, active, ok);
    case Reconnected(_, order, active, ok) => ResendSerials(s.(inFallback := false), order, active, ok);
    case Lost =>
  }

  /** Until 2^32 - 1 serials are spent, the events of a session carry ascending serials. */
  lemma {:induction false} SerialsAscend(enabled: bool, inFallback: bool, events: seq<Event>)
    ensures Serials(Run(Initial(enabled, inFallback), events))
  {
    if events != [] {
      var before := Run(Initial(enabled, inFallback), events[..|events| - 1]);
      SerialsAscend(enabled, inFallback, events[..|events| - 1]);
      EventSerials(before, events[|events| - 1]);
    }
  }

  class Bridge {
    var enabled: bool
    var inFallback: bool
    var nextWindowId: nat
    var eventSerial: nat
    var windowIds: map<Window, nat>
    var windowsById: map<nat, Window>
    var sent: seq<Entry>
    ghost var issued: nat
    ghost var spent: nat
    ghost var refused: set<nat>

    ghost function Abs(): State
      reads this
    {
      State(enabled, inFallback, nextWindowId, eventSerial, windowIds, windowsById, sent, issued, spent, refused)
    }

    constructor (on: bool, down: bool)
      ensures Abs() == Initial(on, down)
    {
      enabled, inFallback, nextWindowId, eventSerial := on, down, 1, 1;
      windowIds, windowsById, sent, issued, spent, refused := map[], map[], [], 0, 0, {};
    }

    method EnterFallback()
      modifies this`inFallback, this`sent, this`refused
      ensures Abs() == Fall(old(Abs()))
    {
      inFallback := true;
      sent := [];
      refused := {};
    }

    method TakeSerial() returns (serial: nat)
      modifies this`eventSerial, this`spent
      ensures serial == old(eventSerial) && Abs() == Spend(old(Abs()))
    {
      serial := eventSerial;
      spent := spent + 1;
      eventSerial := (eventSerial + 1) % ID_SPACE;
    }

    method PushEvent(action: Action, id: nat, about: Window, ok: bool)
      modifies this
      ensures Abs() == Push(old(Abs()), Entry(action, id, old(eventSerial), about), ok)
    {
      var serial := TakeSerial();
      if !ok {
        EnterFallback();
        return;
      }
      sent := sent + [Entry(action, id, serial, about)];
      refused := if Settles(action) then refused - {id} else refused;
    }

    method SendWindowEvent(w: Window, action: Action, outcome: Outcome)
      modifies this
      ensures Abs() == SendEvent(old(Abs()), w, action, outcome)
    {
      if !enabled || inFallback || w !in windowIds {
        return;
      }
      if outcome.NoMemory? {
        var _ := TakeSerial();
        refused := if action.Create? && windowIds[w] !in Replay(sent) then refused + {windowIds[w]} else refused;
        return;
      }
      PushEvent(action, windowIds[w], w, outcome.Sent?);
    }

    method SendWindowFocus(w: Option<Window>, ok: bool)
      modifies this
      ensures Abs() == SendFocus(old(Abs()), w, ok)
    {
      if !enabled || inFallback || w.None? || w.value !in windowIds {
        return;
      }
      PushEvent(Focus, windowIds[w.value], w.value, ok);
    }

    method TakeId() returns (id: nat)
      modifies this`nextWindowId
      ensures id == PickId(old(nextWindowId)) && Abs() == old(Abs()).(nextId := Wrap(id + 1))
    {
      id := nextWindowId;
      nextWindowId := (nextWindowId + 1) % ID_SPACE;
      if id == 0 {
        id := nextWindowId;
        nextWindowId := (nextWindowId + 1) % ID_SPACE;
      }
    }

    method TrackWindow(w: Window, client: bool, outcome: Outcome)
      modifies this
      ensures Abs() == Track(old(Abs()), w, client, outcome)
    {
      if !enabled || !client {
        return;
      }
      if w in windowIds {
        return;
      }
      var id := TakeId();
      windowIds := windowIds[w := id];
      windowsById := windowsById[id := w];
      issued := issued + 1;
      if !inFallback {
        SendWindowEvent(w, Create, outcome);
      }
    }

    method UntrackWindow(w: Window, ok: bool)
      modifies this
      ensures Abs() == Untrack(old(Abs()), w, ok)
    {
      if w !in windowIds {
        return;
      }
      var id := windowIds[w];
      if !inFallback {
        PushEvent(Destroy, id, w, ok);
      }
      windowIds := windowIds - {w};
      windowsById := windowsById - {id};
    }

    method ResendWindowSnapshot(order: seq<(Window, Outcome)>, active: Option<Window>, ok: bool)
      modifies this
      ensures Abs() == Resend(old(Abs()), order, active, ok)
    {
      if !enabled || inFallback {
        return;
      }
      for k := 0 to |order|
        invariant Abs() == CreateAll(old(Abs()), order[..k])
      {
        assert order[..k + 1][..k] == order[..k];
        SendWindowEvent(order[k].0, Create, order[k].1);
      }
      assert order[..|order|] == order;
      SendWindowFocus(active, ok);
    }

    /** Windows that exist already are tracked first, then announced a second time. */
    method SetUp(existing: seq<Existing>, order: seq<(Window, Outcome)>, active: Option<Window>, ok: bool)
      modifies this
      ensures Abs() == SetUpBridge(old(Abs()), existing, order, active, ok)
    {
      if !enabled {
        return;
      }
      for k := 0 to |existing|
        invariant Abs() == TrackAll(old(Abs()), existing[..k])
      {
        assert existing[..k + 1][..k] == existing[..k];
        TrackWindow(existing[k].w, existing[k].client, existing[k].outcome);
      }
      assert existing[..|existing|] == existing;
      if !inFallback {
        ResendWindowSnapshot(order, active, ok);
      }
    }

    method HandleWindowCommand(id: nat) returns (target: Option<Window>)
      ensures enabled && id in windowsById ==> target == Some(windowsById[id])
      ensures !enabled || id !in windowsById ==> target == None
    {
      if !enabled || id !in windowsById {
        return None;
      }
      return Some(windowsById[id]);
    }
  }
}
