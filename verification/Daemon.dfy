/** The broker of libdisplay_daemon/display_daemon.c: one current consumer, one current
    producer, one deposit of descriptors, and an epoll loop over batches of events. */
module Daemon {
  import opened Protocol

  /** Address of a `struct client`. The allocator may hand out a freed address again. */
  type Addr = nat

  /** Whether the kernel accepts what one handler sends. */
  datatype Net = Net(toProducer: bool, toConsumer: bool)

  /** What reading one control message yields. A short header leaves `kind` and `size`
      arbitrary, which quantifying over them covers. */
  datatype Received =
    | Gone
    | Got(kind: nat, size: nat, carried: seq<Fd>, payloadArrives: bool, payload: ScreenInfo)

  /** What accepting one connection meets: the new socket and its first message (none at all is
      one that is not whole and carries nothing), the block calloc picks, whether epoll_ctl
      succeeds. */
  datatype Arrival = Arrival(accepted: bool, conn: Conn, whole: bool, kind: nat, carried: seq<Fd>,
                             block: Option<Addr>, watched: bool, net: Net)

  datatype Event =
    | Listen(arrival: Arrival)
    | Client(conn: Conn, ptr: Addr, hangup: bool, input: Received, net: Net)

  /** `heap` holds the live client structs and the socket each owns, `watched` the pointer
      epoll stores for each registered socket, `down` what was queued towards each socket,
      and `closed` logs every deposited descriptor the daemon closed. */
  datatype State = State(
    consumer: Option<Addr>,
    producer: Option<Addr>,
    heap: map<Addr, Conn>,
    watched: map<Conn, Addr>,
    screen: Option<ScreenInfo>,
    deposit: seq<Fd>,
    waitScreen: bool,
    waitFds: bool,
    down: map<Conn, seq<Down>>,
    closed: seq<Fd>)

  const Initial := State(None, None, map[], map[], None, [], false, false, map[], [])

  predicate IsRole(d: State, p: Addr) {
    Some(p) == d.consumer || Some(p) == d.producer
  }

  /** The current clients are live structs, so a handler may dereference them. */
  predicate RolesLive(d: State) {
    && (d.consumer.Some? ==> d.consumer.value in d.heap)
    && (d.producer.Some? ==> d.producer.value in d.heap)
    && (d.consumer.Some? ==> d.consumer != d.producer)
  }

  ghost predicate Injective(heap: map<Addr, Conn>) {
    forall p, q :: p in heap && q in heap && heap[p] == heap[q] ==> p == q
  }

  /** Exactly the current clients are allocated, each owns its own socket, and epoll hands out
      the pointer of the client that owns the socket. */
  ghost predicate ClientsOk(consumer: Option<Addr>, producer: Option<Addr>, heap: map<Addr, Conn>, watched: map<Conn, Addr>) {
    && (consumer.Some? ==> consumer.value in heap && consumer != producer)
    && (producer.Some? ==> producer.value in heap)
    && (forall p :: p in heap ==> Some(p) == consumer || Some(p) == producer)
    && Injective(heap)
    && (forall c :: c in watched ==> watched[c] in heap && heap[watched[c]] == c)
  }

  /** The rendezvous invariant. */
  ghost predicate Valid(d: State) {
    && ClientsOk(d.consumer, d.producer, d.heap, d.watched)
    && |d.deposit| <= DEPOSITED_FD_COUNT
    && (d.deposit != [] ==> d.consumer.Some?)
    && (d.waitFds ==> d.producer.Some?)
    && (d.waitScreen ==> d.producer.Some? && d.screen.None?)
  }

  predicate Stuck(d: State) {
    d.waitFds && |d.deposit| == DEPOSITED_FD_COUNT
  }

  function Send(d: State, p: Addr, m: Down, ok: bool): State
    requires p in d.heap
  {
    if ok then d.(down := d.down[d.heap[p] := Queue(d.down, d.heap[p]) + [m]]) else d
  }

  function ClearDeposit(d: State): State {
    d.(closed := d.closed + d.deposit, deposit := [])
  }

  function Deliver(d: State, net: Net): (d': State)
    requires RolesLive(d)
    ensures RolesLive(d') && d'.heap == d.heap
  {
    if d.producer.None? || |d.deposit| < DEPOSITED_FD_COUNT || !net.toProducer then
      d.(waitFds := true)
    else
      var sent := Send(d, d.producer.value, FdsReady(d.deposit), true);
      var told := if d.consumer.Some? then Send(sent, d.consumer.value, Announce(d.deposit), net.toConsumer) else sent;
      ClearDeposit(told).(waitFds := false)
  }

  function Free(d: State, p: Addr): State
    requires p in d.heap
  {
    d.(heap := d.heap - {p}, watched := d.watched - {d.heap[p]})
  }

  function Drop(d: State, p: Addr): (d': State)
    requires p in d.heap
    ensures RolesLive(d) ==> RolesLive(d')
    ensures d'.heap == d.heap - {p}
  {
    if Some(p) == d.consumer then
      Free(ClearDeposit(d.(consumer := None)), p)
    else if Some(p) == d.producer then
      Free(d.(producer := None, waitScreen := false, waitFds := false), p)
    else
      Free(d, p)
  }

  /** The descriptors a handler sees of those a message carries. */
  function Five(carried: seq<Fd>): seq<Fd> {
    Returned(carried, DEPOSITED_FD_COUNT)
  }

  predicate BadPayload(r: Received)
    requires r.Got?
  {
    r.size > 0 && (r.size > SCREEN_INFO_BYTES || !r.payloadArrives)
  }

  function Handle(d: State, p: Addr, r: Received, net: Net): (d': State)
    requires p in d.heap && RolesLive(d)
    ensures RolesLive(d') && (d'.heap == d.heap || d'.heap == d.heap - {p})
  {
    if r.Gone? || BadPayload(r) then
      Drop(d, p)
    else if r.kind == CONSUMER_HELLO then
      if Some(p) == d.consumer && |Five(r.carried)| == DEPOSITED_FD_COUNT then
        var stored := ClearDeposit(d).(deposit := Five(r.carried));
        if d.waitFds then Deliver(stored, net) else stored
      else if Some(p) == d.consumer then
        d.(closed := d.closed + Five(r.carried))
      else d
    else if r.kind == SCREEN_INFO then
      if Some(p) == d.consumer && r.size == SCREEN_INFO_BYTES then
        var known := d.(screen := Some(r.payload));
        if d.waitScreen && d.producer.Some? then
          Send(known, d.producer.value, Screen(r.payload), net.toProducer).(waitScreen := false)
        else known
      else d
    else if r.kind == PICKUP_FDS then
      if Some(p) == d.producer then Deliver(d, net) else d
    else d
  }

  /** calloc returns null or a block that is not in use. */
  function Calloc(heap: map<Addr, Conn>, pick: Option<Addr>): Option<Addr> {
    if pick.Some? && pick.value !in heap then pick else None
  }

  function Watch(d: State, c: Conn, p: Addr, ok: bool): State {
    if ok then d.(watched := d.watched[c := p]) else d
  }

  predicate Registers(d: State, a: Arrival) {
    a.accepted && a.whole && Calloc(d.heap, a.block).Some? && (a.kind == CONSUMER_HELLO || a.kind == PRODUCER_HELLO)
  }

  function Evict(d: State, role: Option<Addr>): State
    requires role.Some? ==> role.value in d.heap
  {
    if role.Some? then Drop(d, role.value) else d
  }

  /** The new client's block is picked before the old client is freed, so it is a fresh
      address; the rest of taking over the role does not depend on that order. */
  function AdmitConsumer(d: State, p: Addr, a: Arrival): (d': State)
    requires RolesLive(d) && p !in d.heap
    ensures RolesLive(d') && d'.heap == Evict(d, d.consumer).heap[p := a.conn]
  {
    var evicted := Evict(d, d.consumer);
    var seated := evicted.(heap := evicted.heap[p := a.conn], consumer := Some(p));
    var stored := ClearDeposit(seated).(deposit := Five(a.carried));
    if stored.waitFds then Deliver(stored, a.net) else stored
  }

  function AdmitProducer(d: State, p: Addr, a: Arrival): (d': State)
    requires RolesLive(d) && p !in d.heap
    ensures RolesLive(d') && d'.heap == Evict(d, d.producer).heap[p := a.conn]
  {
    var evicted := Evict(d, d.producer);
    var seated := evicted.(heap := evicted.heap[p := a.conn], producer := Some(p), waitScreen := false, waitFds := false);
    if d.screen.Some? then Send(seated, p, Screen(d.screen.value), a.net.toProducer)
    else seated.(waitScreen := true)
  }

  function Admit(d: State, a: Arrival): (d': State)
    requires RolesLive(d)
    ensures RolesLive(d')
  {
    if !Registers(d, a) then d
    else
      var p := Calloc(d.heap, a.block).value;
      var seated := if a.kind == CONSUMER_HELLO then AdmitConsumer(d, p, a) else AdmitProducer(d, p, a);
      Watch(seated, a.conn, p, a.watched)
  }

  function Dispatch(d: State, e: Event): (d': State)
    requires RolesLive(d)
    ensures RolesLive(d')
  {
    match e
    case Listen(a) => Admit(d, a)
    case Client(_, p, hangup, input, net) =>
      if !IsRole(d, p) then d
      else if hangup then Drop(d, p)
      else Handle(d, p, input, net)
  }

  /** What an input can be: a socket that accept returns is none of the open ones. */
  predicate Feasible(d: State, e: Event) {
    e.Listen? ==> e.arrival.conn !in d.heap.Values
  }

  // ---- the rendezvous invariant ----

  lemma ReleaseClient(consumer: Option<Addr>, producer: Option<Addr>, heap: map<Addr, Conn>, watched: map<Conn, Addr>, p: Addr)
    requires ClientsOk(consumer, producer, heap, watched) && p in heap
    ensures var keep := (role: Option<Addr>) => if role == Some(p) then None else role;
            ClientsOk(keep(consumer), keep(producer), heap - {p}, watched - {heap[p]})
  {
  }

  lemma DropKeepsValid(d: State, p: Addr)
    requires Valid(d) && p in d.heap
    ensures Valid(Drop(d, p))
    ensures Drop(d, p).heap == d.heap - {p}
  {
    ReleaseClient(d.consumer, d.producer, d.heap, d.watched, p);
  }

  lemma DeliverKeepsValid(d: State, net: Net)
    requires Valid(d) && d.producer.Some?
    ensures Valid(Deliver(d, net))
  {
  }

  lemma SeatClient(other: Option<Addr>, heap: map<Addr, Conn>, watched: map<Conn, Addr>, p: Addr, c: Conn)
    requires ClientsOk(None, other, heap, watched) && p !in heap && c !in heap.Values
    ensures ClientsOk(Some(p), other, heap[p := c], watched)
    ensures ClientsOk(other, Some(p), heap[p := c], watched)
    ensures ClientsOk(Some(p), other, heap[p := c], watched[c := p])
    ensures ClientsOk(other, Some(p), heap[p := c], watched[c := p])
  {
    assert forall q :: q in heap ==> heap[q] in heap.Values;
  }

  lemma HandleKeepsValid(d: State, p: Addr, r: Received, net: Net)
    requires Valid(d) && p in d.heap
    ensures Valid(Handle(d, p, r, net))
  {
    if r.Gone? || BadPayload(r) {
      DropKeepsValid(d, p);
    } else if r.kind == CONSUMER_HELLO && Some(p) == d.consumer && |Five(r.carried)| == DEPOSITED_FD_COUNT {
      var stored := ClearDeposit(d).(deposit := Five(r.carried));
      assert Valid(stored);
      if d.waitFds { DeliverKeepsValid(stored, net); }
    } else if r.kind == PICKUP_FDS && Some(p) == d.producer {
      DeliverKeepsValid(d, net);
    }
  }

  lemma EvictKeepsValid(d: State, role: Option<Addr>)
    requires Valid(d) && (role.Some? ==> role == d.consumer || role == d.producer)
    ensures Valid(Evict(d, role))
    ensures Evict(d, role).heap.Values <= d.heap.Values && Evict(d, role).heap.Keys <= d.heap.Keys
    ensures role == d.consumer ==> Evict(d, role).consumer.None?
    ensures role == d.producer ==> Evict(d, role).producer.None?
  {
    if role.Some? { DropKeepsValid(d, role.value); }
  }

  lemma SeatedConsumerValid(evicted: State, p: Addr, a: Arrival)
    requires Valid(evicted) && evicted.consumer.None? && p !in evicted.heap && a.conn !in evicted.heap.Values
    ensures var stored := ClearDeposit(evicted.(heap := evicted.heap[p := a.conn], consumer := Some(p))).(deposit := Five(a.carried));
            Valid(stored) && Valid(Watch(stored, a.conn, p, true))
  {
    SeatClient(evicted.producer, evicted.heap, evicted.watched, p, a.conn);
  }

  lemma DeliverWatched(d: State, c: Conn, p: Addr, net: Net)
    requires Valid(d) && Valid(Watch(d, c, p, true)) && d.producer.Some?
    ensures Valid(Deliver(d, net)) && Valid(Watch(Deliver(d, net), c, p, true))
  {
    DeliverKeepsValid(d, net);
    DeliverKeepsValid(Watch(d, c, p, true), net);
    assert Watch(Deliver(d, net), c, p, true) == Deliver(Watch(d, c, p, true), net);
  }

  lemma AdmitConsumerKeepsValid(d: State, p: Addr, a: Arrival)
    requires Valid(d) && Feasible(d, Listen(a)) && p !in d.heap
    ensures var d' := AdmitConsumer(d, p, a); Valid(d') && Valid(Watch(d', a.conn, p, true))
  {
    EvictKeepsValid(d, d.consumer);
    var evicted := Evict(d, d.consumer);
    SeatedConsumerValid(evicted, p, a);
    var stored := ClearDeposit(evicted.(heap := evicted.heap[p := a.conn], consumer := Some(p))).(deposit := Five(a.carried));
    if stored.waitFds {
      DeliverWatched(stored, a.conn, p, a.net);
    }
    assert AdmitConsumer(d, p, a) == if stored.waitFds then Deliver(stored, a.net) else stored;
  }

  lemma SeatedProducerValid(evicted: State, p: Addr, c: Conn, waits: bool)
    requires Valid(evicted) && evicted.producer.None? && p !in evicted.heap && c !in evicted.heap.Values
    requires waits ==> evicted.screen.None?
    ensures var seated := evicted.(heap := evicted.heap[p := c], producer := Some(p), waitScreen := waits, waitFds := false);
            Valid(seated) && Valid(Watch(seated, c, p, true))
  {
    SeatClient(evicted.consumer, evicted.heap, evicted.watched, p, c);
  }

  lemma SentValid(d: State, p: Addr, m: Down, ok: bool, c: Conn)
    requires p in d.heap && Valid(d) && Valid(Watch(d, c, p, true))
    ensures Valid(Send(d, p, m, ok)) && Valid(Watch(Send(d, p, m, ok), c, p, true))
  {
  }

  lemma AdmitProducerKeepsValid(d: State, p: Addr, a: Arrival)
    requires Valid(d) && Feasible(d, Listen(a)) && p !in d.heap
    ensures var d' := AdmitProducer(d, p, a); Valid(d') && Valid(Watch(d', a.conn, p, true))
  {
    EvictKeepsValid(d, d.producer);
    var evicted := Evict(d, d.producer);
    SeatedProducerValid(evicted, p, a.conn, d.screen.None?);
    if d.screen.Some? {
      var seated := evicted.(heap := evicted.heap[p := a.conn], producer := Some(p), waitScreen := false, waitFds := false);
      SentValid(seated, p, Screen(d.screen.value), a.net.toProducer, a.conn);
    }
  }

  lemma AdmitKeepsValid(d: State, a: Arrival)
    requires Valid(d) && Feasible(d, Listen(a))
    ensures Valid(Admit(d, a))
  {
    if Registers(d, a) {
      var p := Calloc(d.heap, a.block).value;
      if a.kind == CONSUMER_HELLO { AdmitConsumerKeepsValid(d, p, a); } else { AdmitProducerKeepsValid(d, p, a); }
    }
  }

  lemma DispatchKeepsValid(d: State, e: Event)
    requires Valid(d) && Feasible(d, e)
    ensures Valid(Dispatch(d, e))
  {
    match e
    case Listen(a) => AdmitKeepsValid(d, a);
    case Client(_, p, hangup, input, net) =>
      if IsRole(d, p) {
        if hangup { DropKeepsValid(d, p); } else { HandleKeepsValid(d, p, input, net); }
      }
  }

  // ---- the epoll batch ----

  /** The state after handling `events` one by one. */
  function After(d: State, events: seq<Event>): (d': State)
    requires RolesLive(d)
    ensures RolesLive(d')
  {
    if events == [] then d else Dispatch(After(d, events[..|events| - 1]), events[|events| - 1])
  }

  /** One epoll_wait result: every registered descriptor, the listening one included, is
      reported at most once, with the pointer that is registered for it at that moment. */
  ghost predicate Batch(d: State, events: seq<Event>) {
    && (forall i :: 0 <= i < |events| ==> Feasible(d, events[i]))
    && (forall i :: 0 <= i < |events| && events[i].Client? ==>
         events[i].conn in d.watched && d.watched[events[i].conn] == events[i].ptr)
    && (forall i, j :: 0 <= i < j < |events| && events[i].Client? && events[j].Client? ==> events[i].conn != events[j].conn)
    && (forall i, j :: 0 <= i < j < |events| ==> !(events[i].Listen? && events[j].Listen?))
  }

  /** The event still means what it meant when it was queued: either its pointer is the live
      client that owns its socket, or that client is gone and its address is not in use. */
  ghost predicate Fresh(d: State, e: Event, mayAllocate: bool) {
    match e
    case Listen(a) => a.conn !in d.heap.Values
    case Client(c, p, _, _, _) =>
      || (p in d.heap && d.heap[p] == c)
      || (p !in d.heap && c !in d.heap.Values && !mayAllocate)
  }

  ghost predicate AcceptAhead(events: seq<Event>, k: nat) {
    exists j :: k <= j < |events| && events[j].Listen?
  }

  ghost predicate Coherent(d: State, events: seq<Event>, k: nat) {
    && Valid(d)
    && (forall i :: k <= i < |events| ==> Fresh(d, events[i], AcceptAhead(events, k)))
  }

  /** Dispatching reaches exactly the client the event was registered for. */
  ghost predicate Faithful(d: State, e: Event) {
    e.Client? ==>
      && (IsRole(d, e.ptr) <==> e.conn in d.heap.Values)
      && (IsRole(d, e.ptr) ==> e.ptr in d.heap && d.heap[e.ptr] == e.conn)
  }

  /** After an accept, an event whose client was live is either still live or stale beyond reuse. */
  lemma AcceptKeepsFresh(d: State, a: Arrival, e: Event)
    requires Valid(d) && Feasible(d, Listen(a))
    requires e.Client? && Fresh(d, e, true) && e.conn != a.conn
    ensures Fresh(Admit(d, a), e, false)
  {
    AdmitKeepsValid(d, a);
  }

  lemma ClientKeepsFresh(d: State, e: Event, other: Event, mayAllocate: bool)
    requires Valid(d) && e.Client? && Feasible(d, e) && Fresh(d, e, mayAllocate)
    requires Fresh(d, other, mayAllocate) && (other.Client? ==> other.conn != e.conn)
    ensures Fresh(Dispatch(d, e), other, mayAllocate)
  {
    assert Dispatch(d, e).heap == d.heap || Dispatch(d, e).heap == d.heap - {e.ptr};
    assert Dispatch(d, e).heap.Values <= d.heap.Values;
  }

  lemma FreshIsFaithful(d: State, e: Event, mayAllocate: bool)
    requires Valid(d) && Fresh(d, e, mayAllocate)
    ensures Faithful(d, e)
  {
    if e.Client? && e.ptr in d.heap && d.heap[e.ptr] == e.conn {
      assert e.conn in d.heap.Values;
    }
  }

  lemma {:induction false} BatchStep(d0: State, d: State, events: seq<Event>, k: nat)
    requires Batch(d0, events) && k < |events| && Coherent(d, events, k)
    ensures Feasible(d, events[k]) && Coherent(Dispatch(d, events[k]), events, k + 1)
  {
    var e := events[k];
    assert Fresh(d, e, AcceptAhead(events, k));
    DispatchKeepsValid(d, e);
    forall i | k + 1 <= i < |events|
      ensures Fresh(Dispatch(d, e), events[i], AcceptAhead(events, k + 1))
    {
      if e.Listen? {
        assert !AcceptAhead(events, k + 1);
        assert events[i].conn in d0.watched;
        AcceptKeepsFresh(d, e.arrival, events[i]);
      } else {
        assert AcceptAhead(events, k) == AcceptAhead(events, k + 1);
        ClientKeepsFresh(d, e, events[i], AcceptAhead(events, k));
      }
    }
  }

  lemma BatchStart(d: State, events: seq<Event>)
    requires Valid(d) && Batch(d, events)
    ensures Coherent(d, events, 0)
  {
  }

  lemma {:induction false} BatchCoherent(d: State, events: seq<Event>, k: nat)
    requires Valid(d) && Batch(d, events) && k <= |events|
    ensures Coherent(After(d, events[..k]), events, k)
  {
    if k == 0 {
      BatchStart(d, events);
    } else {
      BatchCoherent(d, events, k - 1);
      BatchStep(d, After(d, events[..k - 1]), events, k - 1);
      assert events[..k][..k - 1] == events[..k - 1];
    }
  }

  /** The pointer guard of the loop is exact: within any batch, whatever addresses the
      allocator reuses, an event is dispatched if and only if its own client is still alive,
      and then to that client and no other. */
  lemma BatchIsFaithful(d: State, events: seq<Event>, k: nat)
    requires Valid(d) && Batch(d, events) && k < |events|
    ensures Faithful(After(d, events[..k]), events[k])
  {
    BatchCoherent(d, events, k);
    FreshIsFaithful(After(d, events[..k]), events[k], AcceptAhead(events, k));
  }

  /** Accepting at most once per batch is what makes the guard exact. With two accepts, the
      second newcomer may get the address the first one freed, and the evicted client's own
      queued event then reaches that stranger. */
  lemma TwoAcceptsMisroute(d: State, first: Arrival, second: Arrival, stale: Event)
    requires Valid(d) && d.consumer.Some? && d.producer.None?
    requires stale.Client? && Some(stale.ptr) == d.consumer && stale.conn == d.heap[stale.ptr]
    requires Feasible(d, Listen(first)) && Registers(d, first) && first.kind == CONSUMER_HELLO
    requires second.accepted && second.whole && second.kind == CONSUMER_HELLO && second.block == Some(stale.ptr)
    requires second.conn != stale.conn
    ensures !Faithful(Admit(Admit(d, first), second), stale)
  {
    AdmitKeepsValid(d, first);
    var one := Admit(d, first);
    var p := Calloc(d.heap, first.block).value;
    assert one.consumer == Some(p) && stale.ptr !in one.heap;
    assert Registers(one, second);
    var two := Admit(one, second);
    assert two.consumer == Some(stale.ptr);
    assert two.heap[stale.ptr] == second.conn;
  }

  lemma AfterStep(events: seq<Event>, e: Event)
    ensures After(Initial, events + [e]) == Dispatch(After(Initial, events), e)
  {
    assert (events + [e])[..|events|] == events;
  }

  lemma NothingHappened()
    ensures After(Initial, []) == Initial
  {
  }

  /** The input, from the start: three consumers, the third at the address of the first. Had the
      last two been accepted in one batch, an event of the first would have gone to the third. */
  lemma ThirdGetsFirstsEvent(p: Addr, q: Addr, stale: Event, net: Net)
    requires p != q && stale.Client? && stale.conn == 0 && stale.ptr == p
    ensures var hello := (c: Conn, block: Addr) => Listen(Arrival(true, c, true, CONSUMER_HELLO, [], Some(block), true, net));
            var d := After(Initial, [hello(0, p)]);
            && Batch(d, [hello(1, q)]) && Batch(Dispatch(d, hello(1, q)), [hello(2, p)])
            && !Faithful(Dispatch(Dispatch(d, hello(1, q)), hello(2, p)), stale)
  {
    var hello := (c: Conn, block: Addr) => Listen(Arrival(true, c, true, CONSUMER_HELLO, [], Some(block), true, net));
    AfterStep([], hello(0, p));
    assert [] + [hello(0, p)] == [hello(0, p)];
    var d := After(Initial, [hello(0, p)]);
    DispatchKeepsValid(Initial, hello(0, p));
    assert d.heap == map[p := 0] && Dispatch(d, hello(1, q)).heap == map[q := 1];
    TwoAcceptsMisroute(d, hello(1, q).arrival, hello(2, p).arrival, stale);
  }

  // ---- the deposit ledger ----

  /** The descriptors that reading the message of `e` brings into the process. */
  function Came(d: State, e: Event): seq<Fd> {
    match e
    case Listen(a) => if a.accepted then Installed(a.carried, DEPOSITED_FD_COUNT) else []
    case Client(_, p, hangup, r, _) =>
      if IsRole(d, p) && !hangup && r.Got? then Installed(r.carried, DEPOSITED_FD_COUNT) else []
  }

  /** The message is a hello the daemon answers for: one that seats a new consumer, or one with a
      good payload from the current consumer. */
  predicate Counts(d: State, e: Event) {
    match e
    case Listen(a) => Registers(d, a) && a.kind == CONSUMER_HELLO
    case Client(_, p, hangup, r, _) =>
      Some(p) == d.consumer && !hangup && r.Got? && !BadPayload(r) && r.kind == CONSUMER_HELLO
  }

  function Carried(e: Event): seq<Fd> {
    match e
    case Listen(a) => a.carried
    case Client(_, _, _, r, _) => if r.Got? then r.carried else []
  }

  /** What of that is neither stored nor closed: all of it, unless the message counts, and even
      then a sixth descriptor. */
  function Leaked(d: State, e: Event): seq<Fd> {
    if Counts(d, e) then Unseen(Carried(e), DEPOSITED_FD_COUNT) else Came(d, e)
  }

  function Taken(d: State, e: Event): seq<Fd> {
    if Counts(d, e) then Five(Carried(e)) else []
  }

  function AllCame(d: State, events: seq<Event>): seq<Fd>
    requires RolesLive(d)
  {
    if events == [] then []
    else
      var k := |events| - 1;
      AllCame(d, events[..k]) + Came(After(d, events[..k]), events[k])
  }

  function AllLeaked(d: State, events: seq<Event>): seq<Fd>
    requires RolesLive(d)
  {
    if events == [] then []
    else
      var k := |events| - 1;
      AllLeaked(d, events[..k]) + Leaked(After(d, events[..k]), events[k])
  }

  function Ledger(d: State): multiset<Fd> {
    multiset(d.deposit) + multiset(d.closed)
  }

  lemma ClearKeepsLedger(d: State)
    ensures Ledger(ClearDeposit(d)) == Ledger(d)
  {
  }

  lemma DropKeepsLedger(d: State, p: Addr)
    requires p in d.heap
    ensures Ledger(Drop(d, p)) == Ledger(d)
  {
  }

  lemma DeliverKeepsLedger(d: State, net: Net)
    requires RolesLive(d)
    ensures Ledger(Deliver(d, net)) == Ledger(d)
  {
  }

  lemma EvictKeepsLedger(d: State, role: Option<Addr>)
    requires role.Some? ==> role.value in d.heap
    ensures Ledger(Evict(d, role)) == Ledger(d)
  {
    if role.Some? { DropKeepsLedger(d, role.value); }
  }

  lemma AdmitConsumerKeepsLedger(d: State, p: Addr, a: Arrival)
    requires RolesLive(d) && p !in d.heap
    ensures Ledger(AdmitConsumer(d, p, a)) == Ledger(d) + multiset(Five(a.carried))
  {
    EvictKeepsLedger(d, d.consumer);
    var evicted := Evict(d, d.consumer);
    var seated := evicted.(heap := evicted.heap[p := a.conn], consumer := Some(p));
    ClearKeepsLedger(seated);
    var stored := ClearDeposit(seated).(deposit := Five(a.carried));
    assert Ledger(stored) == Ledger(d) + multiset(Five(a.carried));
    if stored.waitFds { DeliverKeepsLedger(stored, a.net); }
  }

  lemma AdmitProducerKeepsLedger(d: State, p: Addr, a: Arrival)
    requires RolesLive(d) && p !in d.heap
    ensures Ledger(AdmitProducer(d, p, a)) == Ledger(d)
  {
    EvictKeepsLedger(d, d.producer);
  }

  lemma AdmitKeepsLedger(d: State, a: Arrival)
    requires RolesLive(d) && Registers(d, a)
    ensures Ledger(Admit(d, a)) == Ledger(d) + multiset(Taken(d, Listen(a)))
  {
    var p := Calloc(d.heap, a.block).value;
    if a.kind == CONSUMER_HELLO { AdmitConsumerKeepsLedger(d, p, a); } else { AdmitProducerKeepsLedger(d, p, a); }
  }

  lemma HelloKeepsLedger(d: State, p: Addr, r: Received, net: Net)
    requires RolesLive(d) && p in d.heap && Some(p) == d.consumer
    requires r.Got? && !BadPayload(r) && r.kind == CONSUMER_HELLO
    ensures Ledger(Handle(d, p, r, net)) == Ledger(d) + multiset(Five(r.carried))
  {
    ClearKeepsLedger(d);
    var stored := ClearDeposit(d).(deposit := Five(r.carried));
    assert Ledger(stored) == Ledger(d) + multiset(Five(r.carried));
    if d.waitFds { DeliverKeepsLedger(stored, net); }
  }

  lemma HandleKeepsLedger(d: State, p: Addr, r: Received, net: Net)
    requires RolesLive(d) && p in d.heap
    ensures Ledger(Handle(d, p, r, net)) == Ledger(d) + multiset(Taken(d, Client(0, p, false, r, net)))
  {
    if r.Gone? || BadPayload(r) {
      DropKeepsLedger(d, p);
    } else if r.kind == CONSUMER_HELLO && Some(p) == d.consumer {
      HelloKeepsLedger(d, p, r, net);
    } else if r.kind == PICKUP_FDS {
      DeliverKeepsLedger(d, net);
    }
  }

  lemma DispatchKeepsLedger(d: State, e: Event)
    requires RolesLive(d)
    ensures Ledger(Dispatch(d, e)) == Ledger(d) + multiset(Taken(d, e))
  {
    match e
    case Listen(a) => if Registers(d, a) { AdmitKeepsLedger(d, a); }
    case Client(_, p, hangup, r, net) =>
      if IsRole(d, p) {
        if hangup { DropKeepsLedger(d, p); } else { HandleKeepsLedger(d, p, r, net); }
      }
  }

  lemma CameSplits(d: State, e: Event)
    ensures multiset(Taken(d, e)) + multiset(Leaked(d, e)) == multiset(Came(d, e))
  {
    assert Installed(Carried(e), DEPOSITED_FD_COUNT) == Five(Carried(e)) + Unseen(Carried(e), DEPOSITED_FD_COUNT);
  }

  /** Over any run: every descriptor that came in is stored right now, was closed or leaked, and as
      often as it came in. Nothing is closed twice. */
  lemma {:induction false} DepositLedger(events: seq<Event>)
    ensures Ledger(After(Initial, events)) + multiset(AllLeaked(Initial, events)) == multiset(AllCame(Initial, events))
  {
    if events != [] {
      var k := |events| - 1;
      DepositLedger(events[..k]);
      DispatchKeepsLedger(After(Initial, events[..k]), events[k]);
      CameSplits(After(Initial, events[..k]), events[k]);
    }
  }

  /** What `e` carries leaves nothing behind: it carries nothing, it is not read, or it counts
      and has no sixth descriptor. */
  predicate Clean(d: State, e: Event) {
    || Carried(e) == []
    || (Counts(d, e) && |Carried(e)| <= DEPOSITED_FD_COUNT)
    || match e
       case Listen(a) => !a.accepted
       case Client(_, p, hangup, _, _) => !IsRole(d, p) || hangup
  }

  lemma LeaksIffNotClean(d: State, e: Event)
    ensures Leaked(d, e) == [] <==> Clean(d, e)
  {
    if Carried(e) != [] { assert |Five(Carried(e))| > 0; }
  }

  predicate CleanAt(events: seq<Event>, k: nat)
    requires k < |events|
  {
    Clean(After(Initial, events[..k]), events[k])
  }

  ghost predicate AllClean(events: seq<Event>) {
    forall k :: 0 <= k < |events| ==> CleanAt(events, k)
  }

  lemma AllCleanStep(events: seq<Event>, k: nat)
    requires |events| == k + 1
    ensures AllClean(events) <==> AllClean(events[..k]) && CleanAt(events, k)
  {
    forall j | 0 <= j < k ensures CleanAt(events, j) == CleanAt(events[..k], j) {
      assert events[..k][..j] == events[..j];
    }
  }

  lemma AllLeakedStep(events: seq<Event>, k: nat)
    requires |events| == k + 1
    ensures AllLeaked(Initial, events) == [] <==> AllLeaked(Initial, events[..k]) == [] && CleanAt(events, k)
  {
    LeaksIffNotClean(After(Initial, events[..k]), events[k]);
    assert |AllLeaked(Initial, events)| == |AllLeaked(Initial, events[..k])| + |Leaked(After(Initial, events[..k]), events[k])|;
  }

  /** The daemon leaks nothing exactly if every message that carries descriptors is a hello it
      answers for, with five of them at most. */
  lemma {:induction false} LeaksNothingIff(events: seq<Event>)
    ensures AllLeaked(Initial, events) == [] <==> AllClean(events)
  {
    if events != [] {
      var k := |events| - 1;
      LeaksNothingIff(events[..k]);
      AllCleanStep(events, k);
      AllLeakedStep(events, k);
    }
  }

  /** Two inputs that leak: a producer's hello with a descriptor, and a consumer's with six. */
  lemma HelloLeaks(block: Addr, fd: Fd, six: seq<Fd>, net: Net)
    requires |six| == 6
    ensures AllLeaked(Initial, [Listen(Arrival(true, 0, true, PRODUCER_HELLO, [fd], Some(block), true, net))]) == [fd]
    ensures AllLeaked(Initial, [Listen(Arrival(true, 0, true, CONSUMER_HELLO, six, Some(block), true, net))]) == [six[5]]
  {
    forall a: Arrival ensures AllLeaked(Initial, [Listen(a)]) == Leaked(Initial, Listen(a)) {
      var events := [Listen(a)];
      assert events[..0] == [] && AllLeaked(Initial, []) == [];
    }
  }

  // ---- a waiting producer is served as soon as it can be ----

  predicate SendsReach(e: Event) {
    (if e.Listen? then e.arrival.net else e.net).toProducer
  }

  /** Handling `e` sends a whole deposit to the producer: a consumer's hello completes it while the
      producer waits, or the producer asks while it is there. */
  predicate Tries(d: State, e: Event) {
    match e
    case Listen(a) => d.waitFds && Registers(d, a) && a.kind == CONSUMER_HELLO && |Five(a.carried)| == DEPOSITED_FD_COUNT
    case Client(_, p, hangup, r, _) =>
      && IsRole(d, p) && !hangup && r.Got? && !BadPayload(r)
      && if r.kind == CONSUMER_HELLO then d.waitFds && Some(p) == d.consumer && |Five(r.carried)| == DEPOSITED_FD_COUNT
         else r.kind == PICKUP_FDS && Some(p) == d.producer && |d.deposit| == DEPOSITED_FD_COUNT
  }

  lemma AdmitConsumerSticksIff(d: State, p: Addr, a: Arrival)
    requires Valid(d) && p !in d.heap
    ensures Stuck(AdmitConsumer(d, p, a)) <==> d.waitFds && |Five(a.carried)| == DEPOSITED_FD_COUNT && !a.net.toProducer
  {
    var evicted := Evict(d, d.consumer);
    assert evicted.waitFds == d.waitFds && evicted.producer == d.producer;
  }

  lemma HandleSticksIff(d: State, p: Addr, r: Received, net: Net)
    requires Valid(d) && !Stuck(d) && p in d.heap
    ensures Stuck(Handle(d, p, r, net)) <==> Tries(d, Client(0, p, false, r, net)) && !net.toProducer
  {
    if r.Gone? || BadPayload(r) {
      assert !Stuck(Drop(d, p));
    }
  }

  /** A step leaves a producer waiting beside a whole deposit exactly if it tried to deliver it and
      the send failed. */
  lemma SticksIff(d: State, e: Event)
    requires Valid(d) && !Stuck(d)
    ensures Stuck(Dispatch(d, e)) <==> Tries(d, e) && !SendsReach(e)
  {
    match e
    case Listen(a) =>
      if Registers(d, a) && a.kind == CONSUMER_HELLO {
        AdmitConsumerSticksIff(d, Calloc(d.heap, a.block).value, a);
      }
    case Client(_, p, hangup, r, net) =>
      if IsRole(d, p) && !hangup { HandleSticksIff(d, p, r, net); }
  }

  ghost predicate Run(events: seq<Event>) {
    forall k :: 0 <= k < |events| ==> Feasible(After(Initial, events[..k]), events[k])
  }

  lemma {:induction false} RunKeepsValid(events: seq<Event>)
    requires Run(events)
    ensures Valid(After(Initial, events))
  {
    if events != [] {
      var k := |events| - 1;
      assert forall j :: 0 <= j < k ==> events[..k][..j] == events[..j] && events[..k][j] == events[j];
      RunKeepsValid(events[..k]);
      DispatchKeepsValid(After(Initial, events[..k]), events[k]);
    }
  }

  /** Event `k` of the run tried to deliver a whole deposit to the producer, and that failed. */
  predicate FailedDelivery(events: seq<Event>, k: nat)
    requires k < |events|
  {
    Tries(After(Initial, events[..k]), events[k]) && !SendsReach(events[k])
  }

  /** A producer waits next to a complete deposit only after a delivery to it failed. */
  lemma {:induction false} WaitingMeansFailedSend(events: seq<Event>)
    requires Run(events) && Stuck(After(Initial, events))
    ensures exists k :: 0 <= k < |events| && FailedDelivery(events, k)
  {
    var k := |events| - 1;
    assert forall j :: 0 <= j < k ==> events[..k][..j] == events[..j] && events[..k][j] == events[j];
    if Stuck(After(Initial, events[..k])) {
      WaitingMeansFailedSend(events[..k]);
      var j :| 0 <= j < k && FailedDelivery(events[..k], j);
      assert FailedDelivery(events, j);
    } else {
      RunKeepsValid(events[..k]);
      SticksIff(After(Initial, events[..k]), events[k]);
      assert FailedDelivery(events, k);
    }
  }

  lemma ConsumerSeated(c: Addr, five: seq<Fd>, net: Net)
    requires |five| == DEPOSITED_FD_COUNT
    ensures Dispatch(Initial, Listen(Arrival(true, 0, true, CONSUMER_HELLO, five, Some(c), true, net)))
              == State(Some(c), None, map[c := 0], map[0 := c], None, five, false, false, map[], [])
  {
  }

  lemma ProducerSeated(c: Addr, p: Addr, five: seq<Fd>, net: Net)
    requires c != p
    ensures Dispatch(State(Some(c), None, map[c := 0], map[0 := c], None, five, false, false, map[], []),
                     Listen(Arrival(true, 1, true, PRODUCER_HELLO, [], Some(p), true, net)))
              == State(Some(c), Some(p), map[c := 0, p := 1], map[0 := c, 1 := p], None, five, true, false, map[], [])
  {
  }

  lemma PickupServed(d: State, p: Addr, info: ScreenInfo, net: Net)
    requires RolesLive(d) && d.producer == Some(p) && d.heap[p] == 1 && |d.deposit| == DEPOSITED_FD_COUNT && net.toProducer
    requires d.down == map[] && (d.consumer.Some? ==> d.heap[d.consumer.value] != 1)
    ensures Queue(Dispatch(d, Client(1, p, false, Got(PICKUP_FDS, 0, [], true, info), net)).down, 1) == [FdsReady(d.deposit)]
  {
  }

  /** The input: a consumer deposits but has not sent its screen info, a producer says hello and
      asks at once. The first thing it gets is the descriptors. */
  lemma FdsComeFirst(c: Addr, p: Addr, five: seq<Fd>, info: ScreenInfo, net: Net)
    requires |five| == DEPOSITED_FD_COUNT && c != p && net.toProducer
    ensures var events := [Listen(Arrival(true, 0, true, CONSUMER_HELLO, five, Some(c), true, net)),
                           Listen(Arrival(true, 1, true, PRODUCER_HELLO, [], Some(p), true, net)),
                           Client(1, p, false, Got(PICKUP_FDS, 0, [], true, info), net)];
            Run(events) && Queue(After(Initial, events).down, 1) == [FdsReady(five)]
  {
    hide Dispatch, After;
    var hello := Listen(Arrival(true, 0, true, CONSUMER_HELLO, five, Some(c), true, net));
    var other := Listen(Arrival(true, 1, true, PRODUCER_HELLO, [], Some(p), true, net));
    var asks := Client(1, p, false, Got(PICKUP_FDS, 0, [], true, info), net);
    var events := [hello, other, asks];
    NothingHappened();
    AfterStep([], hello);
    AfterStep([hello], other);
    AfterStep([hello, other], asks);
    assert [] + [hello] == [hello] && [hello] + [other] == [hello, other] && [hello, other] + [asks] == events;
    assert events[..0] == [] && events[..1] == [hello] && events[..2] == [hello, other];
    ConsumerSeated(c, five, net);
    ProducerSeated(c, p, five, net);
    PickupServed(After(Initial, [hello, other]), p, info, net);
  }

  /** The daemon itself does not hold descriptors back until the screen info went out: served
      before it, a pickup is answered first exactly when a deposit is ready. Producers that ask
      only after their greeting never see that order (module Rendezvous). */
  lemma PickupBeforeScreen(d: State, p: Addr, r: Received, net: Net)
    requires Valid(d) && d.producer == Some(p) && d.waitScreen && Queue(d.down, d.heap[p]) == []
    requires r.Got? && r.kind == PICKUP_FDS && !BadPayload(r)
    ensures Queue(Handle(d, p, r, net).down, d.heap[p]) != [] <==> |d.deposit| == DEPOSITED_FD_COUNT && net.toProducer
    ensures Queue(Handle(d, p, r, net).down, d.heap[p]) != [] ==> Queue(Handle(d, p, r, net).down, d.heap[p]) == [FdsReady(d.deposit)]
  {
    if d.consumer.Some? && |d.deposit| == DEPOSITED_FD_COUNT && net.toProducer {
      assert d.heap[d.consumer.value] != d.heap[p];
    }
  }
}
