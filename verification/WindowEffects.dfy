/** What each signal of the compositor does to the window bridge: which windows are tracked under
    which ids, and which events go out about them. */
module WindowEffects {
  import opened Protocol
  import opened WindowBridge

  /** One serial is used up; the tables, the id counter and the switch are as before. */
  ghost predicate OneSerial(s: State, s': State) {
    && s'.ids == s.ids && s'.byId == s.byId && s'.nextId == s.nextId && s'.enabled == s.enabled && s'.issued == s.issued
    && s'.serial == (s.serial + 1) % 0x1_0000_0000 && s'.spent == s.spent + 1
  }

  /** The session goes on and `e` is the last event in it. */
  ghost predicate Went(s: State, s': State, e: Entry) {
    s'.inFallback == s.inFallback && |s'.log| == |s.log| + 1 && s'.log[..|s.log|] == s.log && s'.log[|s.log|] == e
  }

  predicate Down(s': State) {
    s'.inFallback && s'.log == [] && s'.refused == {}
  }

  /** A window's news goes out under its id and a serial of its own; without memory only the serial is
      used up; a channel that breaks ends the session. Nothing is said of untracked windows, nor in fallback. */
  lemma SendMeans(s: State, w: Window, action: Action, outcome: Outcome)
    ensures var s' := SendEvent(s, w, action, outcome);
            if !s.enabled || s.inFallback || w !in s.ids then s' == s
            else
              && OneSerial(s, s')
              && match outcome
                 case Sent => Went(s, s', Entry(action, s.ids[w], s.serial, w))
                 case NoMemory => s'.inFallback == s.inFallback && s'.log == s.log
                 case Broken => Down(s')
  {
  }

  /** A change of a tracked window is told as an UPDATE. */
  lemma ChangedMeans(s: State, w: Window, outcome: Outcome)
    ensures var s' := Do(s, Changed(w, outcome));
            if !s.enabled || s.inFallback || w !in s.ids then s' == s
            else
              && OneSerial(s, s')
              && match outcome
                 case Sent => Went(s, s', Entry(Update, s.ids[w], s.serial, w))
                 case NoMemory => s'.inFallback == s.inFallback && s'.log == s.log
                 case Broken => Down(s')
  {
    SendMeans(s, w, Update, outcome);
  }

  lemma FocusMeans(s: State, active: Option<Window>, ok: bool)
    ensures var s' := Do(s, Activated(active, ok));
            if !s.enabled || s.inFallback || active.None? || active.value !in s.ids then s' == s
            else
              && OneSerial(s, s')
              && if ok then Went(s, s', Entry(Focus, s.ids[active.value], s.serial, active.value)) else Down(s')
  {
  }

  /** A client window that was not tracked is tracked under the next id that is not zero, and announced
      while connected. Every other window is left alone. */
  lemma TrackMeans(s: State, w: Window, client: bool, outcome: Outcome)
    ensures var s', id := Do(s, Added(w, client, outcome)), if s.nextId == 0 then 1 else s.nextId;
            if !s.enabled || !client || w in s.ids then s' == s
            else
              && s'.ids == s.ids[w := id] && s'.byId == s.byId[id := w]
              && s'.nextId == (id + 1) % 0x1_0000_0000 && s'.issued == s.issued + 1
              && if s.inFallback then s' == s.(ids := s'.ids, byId := s'.byId, nextId := s'.nextId, issued := s'.issued)
                 else
                   && s'.serial == (s.serial + 1) % 0x1_0000_0000
                   && match outcome
                      case Sent => Went(s, s', Entry(Create, id, s.serial, w))
                      case NoMemory => !s'.inFallback && s'.log == s.log
                      case Broken => Down(s')
  {
  }

  /** A window that goes is forgotten under both keys, also if the message saying so breaks the channel. */
  lemma UntrackMeans(s: State, w: Window, ok: bool)
    requires Inverse(s.ids, s.byId)
    ensures var s' := Do(s, Removed(w, ok));
            if w !in s.ids then s' == s
            else
              && s'.ids.Keys == s.ids.Keys - {w} && (forall v :: v in s'.ids ==> s'.ids[v] == s.ids[v])
              && Inverse(s'.ids, s'.byId)
              && s'.nextId == s.nextId && s'.enabled == s.enabled
              && if s.inFallback then s'.log == s.log && s'.serial == s.serial && s'.inFallback
                 else if ok then Went(s, s', Entry(Destroy, s.ids[w], s.serial, w)) && s'.serial == Wrap(s.serial + 1)
                 else Down(s')
  {
    if w in s.ids { ForgetKeepsInverse(s.ids, s.byId, w); }
  }

  lemma LostMeans(s: State)
    ensures Down(Do(s, Lost)) && Do(s, Lost) == s.(inFallback := true, log := [], refused := {})
  {
  }

  // ---- snapshots ----

  predicate AllSent(order: seq<(Window, Outcome)>) {
    forall k :: 0 <= k < |order| ==> order[k].1.Sent?
  }

  /** The announcements of the tracked windows in the order in which the hash is visited. */
  function Announced(ids: map<Window, nat>, serial: nat, order: seq<(Window, Outcome)>): seq<Entry> {
    if order == [] then []
    else
      var k := |order| - 1;
      var before := Announced(ids, serial, order[..k]);
      if order[k].0 in ids then before + [Entry(Create, ids[order[k].0], (serial + |before|) % 0x1_0000_0000, order[k].0)]
      else before
  }

  lemma {:induction false} CreateAllSends(s: State, order: seq<(Window, Outcome)>)
    requires s.enabled && !s.inFallback && AllSent(order) && s.serial < ID_SPACE
    ensures var r, said := CreateAll(s, order), Announced(s.ids, s.serial, order);
            && Sends(s, r) && !r.inFallback
            && r.log == s.log + said && r.serial == (s.serial + |said|) % 0x1_0000_0000
  {
    if order != [] {
      var k := |order| - 1;
      var before := CreateAll(s, order[..k]);
      CreateAllSends(s, order[..k]);
      SendMeans(before, order[k].0, Create, order[k].1);
      SendKeeps(before, order[k].0, Create, order[k].1);
      SerialNext(s.serial, |Announced(s.ids, s.serial, order[..k])|);
      hide SendEvent;
    }
  }

  lemma SendKeeps(s: State, w: Window, action: Action, outcome: Outcome)
    ensures Sends(s, SendEvent(s, w, action, outcome))
  {
  }

  lemma SerialNext(serial: nat, n: nat)
    ensures ((serial + n) % ID_SPACE + 1) % ID_SPACE == (serial + (n + 1)) % ID_SPACE
  {
  }

  /** A snapshot that gets through tells every tracked window, then the focus, and after it the
      consumer's picture is the id table, whatever was refused before. */
  lemma ResendMeans(s: State, order: seq<(Window, Outcome)>, active: Option<Window>, ok: bool)
    requires Inv(s) && s.enabled && !s.inFallback && Covers(order, s.ids) && AllSent(order) && ok && s.serial < ID_SPACE
    ensures var s', said := Do(s, Snapshot(order, active, ok)), Announced(s.ids, s.serial, order);
            && !s'.inFallback && s'.ids == s.ids && s'.byId == s.byId && Replay(s'.log) == s.byId
            && s'.log == s.log + said
                         + if active.Some? && active.value in s.ids then
                             [Entry(Focus, s.ids[active.value], (s.serial + |said|) % 0x1_0000_0000, active.value)]
                           else []
  {
    CreateAllSends(s, order);
    ResendKeeps(s, order, active, ok, {});
    ResendSettles(s, order, active);
  }

  /** Once every tracked window has been announced, none is left that the consumer missed. */
  lemma ResendSettles(s: State, order: seq<(Window, Outcome)>, active: Option<Window>)
    requires Inverse(s.ids, s.byId) && Session(s, s.byId.Keys) && Counted(s)
    requires s.enabled && !s.inFallback && Covers(order, s.ids) && AllSent(order) && s.serial < ID_SPACE
    ensures var s' := Resend(s, order, active, true); !s'.inFallback && Replay(s'.log) == s.byId
  {
    var r := CreateAll(s, order);
    CreateAllSends(s, order);
    CreateAllTells(s, order, s.byId.Keys);
    assert Unsettled(s.byId.Keys, order, s.ids) == {};
    FocusTells(r, active, true, {});
    SentSettles(s, order);
  }

  lemma {:induction false} SentSettles(s: State, order: seq<(Window, Outcome)>)
    requires s.enabled && !s.inFallback && AllSent(order) && s.serial < ID_SPACE
    ensures CreateAll(s, order).refused <= s.refused
    ensures forall k :: 0 <= k < |order| && order[k].0 in s.ids ==> s.ids[order[k].0] !in CreateAll(s, order).refused
  {
    if order != [] {
      var k := |order| - 1;
      SentSettles(s, order[..k]);
      CreateAllSends(s, order[..k]);
      assert order[k].1.Sent?;
      forall j | 0 <= j < k && order[j].0 in s.ids ensures s.ids[order[j].0] !in CreateAll(s, order).refused {
        assert order[..k][j] == order[j];
      }
    }
  }

  /** The reconnect timer's snapshot gives a new consumer the whole picture. */
  lemma ReconnectMeans(s: State, order: seq<(Window, Outcome)>, active: Option<Window>)
    requires Inv(s) && s.enabled && s.inFallback && Covers(order, s.ids) && AllSent(order) && s.serial < ID_SPACE
    ensures var s' := Do(s, Reconnected(true, order, active, true));
            !s'.inFallback && s'.ids == s.ids && Replay(s'.log) == s.byId
  {
    ResendSettles(s.(inFallback := false), order, active);
    CreateAllSends(s.(inFallback := false), order);
  }

  // ---- setting up ----

  function Clients(existing: seq<Existing>): set<Window> {
    set k | 0 <= k < |existing| && existing[k].client :: existing[k].w
  }

  lemma {:induction false} TrackAllTracks(s: State, existing: seq<Existing>)
    requires s.enabled
    ensures var r := TrackAll(s, existing);
            && r.enabled && r.ids.Keys == s.ids.Keys + Clients(existing)
            && (forall w :: w in s.ids ==> r.ids[w] == s.ids[w])
            && (s.inFallback ==> r.inFallback)
            && (!s.inFallback && (forall k :: 0 <= k < |existing| ==> !existing[k].outcome.Broken?) ==> !r.inFallback)
            && (s.serial < ID_SPACE ==> r.serial < ID_SPACE)
  {
    if existing != [] {
      var k := |existing| - 1;
      var before, x := TrackAll(s, existing[..k]), existing[k];
      TrackAllTracks(s, existing[..k]);
      ClientsStep(existing);
      TrackMeans(before, x.w, x.client, x.outcome);
      assert (forall j :: 0 <= j < |existing| ==> !existing[j].outcome.Broken?) ==>
               forall j :: 0 <= j < k ==> !existing[..k][j].outcome.Broken?;
    }
  }

  lemma ClientsStep(existing: seq<Existing>)
    requires existing != []
    ensures var k := |existing| - 1;
            Clients(existing) == Clients(existing[..k]) + if existing[k].client then {existing[k].w} else {}
  {
    var k := |existing| - 1;
    forall w ensures w in Clients(existing) <==> w in Clients(existing[..k]) || (existing[k].client && existing[k].w == w) {
      if w in Clients(existing) {
        var j :| 0 <= j < |existing| && existing[j].client && existing[j].w == w;
        if j < k { assert existing[..k][j] == existing[j]; }
      }
      if w in Clients(existing[..k]) {
        var j :| 0 <= j < k && existing[..k][j].client && existing[..k][j].w == w;
        assert existing[j] == existing[..k][j];
      }
    }
  }

  /** Setting the bridge up tracks exactly the client windows that are there already, besides those
      tracked before, whether connected or not and whatever becomes of the messages. */
  lemma SetUpTracks(s: State, existing: seq<Existing>, order: seq<(Window, Outcome)>, active: Option<Window>, ok: bool)
    requires Inv(s)
    ensures var s' := Do(s, BridgeSetUp(existing, order, active, ok));
            && s'.ids.Keys == s.ids.Keys + (if s.enabled then Clients(existing) else {})
            && (forall w :: w in s.ids ==> s'.ids[w] == s.ids[w])
  {
    if s.enabled {
      TrackAllTracks(s, existing);
      CreateAllSame(TrackAll(s, existing), order);
    }
  }

  lemma {:induction false} CreateAllSame(s: State, order: seq<(Window, Outcome)>)
    ensures Sends(s, CreateAll(s, order))
  {
    if order != [] {
      CreateAllSame(s, order[..|order| - 1]);
    }
  }

  /** With the snapshot getting through, a connected consumer then knows each of them under its id. */
  lemma SetUpTells(s: State, existing: seq<Existing>, order: seq<(Window, Outcome)>, active: Option<Window>)
    requires Inv(s) && s.enabled && !s.inFallback && s.serial < ID_SPACE
    requires Possible(s, BridgeSetUp(existing, order, active, true)) && AllSent(order)
    requires forall k :: 0 <= k < |existing| ==> !existing[k].outcome.Broken?
    requires Do(s, BridgeSetUp(existing, order, active, true)).issued < ID_SPACE
    ensures var s' := Do(s, BridgeSetUp(existing, order, active, true));
            && !s'.inFallback && Inverse(s'.ids, s'.byId) && Replay(s'.log) == s'.byId
            && (forall w :: w in s.ids.Keys + Clients(existing) ==>
                 w in s'.ids && s'.ids[w] in Replay(s'.log) && Replay(s'.log)[s'.ids[w]] == w)
  {
    var tracked := TrackAll(s, existing);
    TrackAllTracks(s, existing);
    SetUpTracks(s, existing, order, active, true);
    CreateAllSame(tracked, order);
    TrackAllKeeps(s, existing);
    ResendSettles(tracked, order, active);
  }
}
