/** What each event does to the daemon, told from outside: which descriptors it holds, who waits for
    what, and what goes out to whom. */
module DaemonEffects {
  import opened Protocol
  import opened Daemon

  /** Exactly `msgs` went out to `c`, and nothing to anybody else. */
  ghost predicate SentTo(d: State, d': State, c: Conn, msgs: seq<Down>) {
    && Queue(d'.down, c) == Queue(d.down, c) + msgs
    && forall x :: x != c ==> Queue(d'.down, x) == Queue(d.down, x)
  }

  predicate SameClients(d: State, d': State) {
    d'.consumer == d.consumer && d'.producer == d.producer && d'.heap == d.heap && d'.watched == d.watched
  }

  /** A whole deposit goes to the producer, and with it the news to the consumer, as far as the kernel
      takes it; our copies of it are closed. Without a deposit, a producer or a socket that takes it,
      the producer waits, and nothing goes out. */
  lemma DeliverMeans(d: State, net: Net)
    requires Valid(d)
    ensures var d' := Deliver(d, net);
            if d.producer.None? || |d.deposit| < 5 || !net.toProducer then d' == d.(waitFds := true)
            else
              && SameClients(d, d') && d'.screen == d.screen && d'.waitScreen == d.waitScreen && !d'.waitFds
              && d'.deposit == [] && d'.closed == d.closed + d.deposit
              && d.consumer.Some?
              && var cp, cc := d.heap[d.producer.value], d.heap[d.consumer.value];
                 && cp != cc
                 && Queue(d'.down, cp) == Queue(d.down, cp) + [FdsReady(d.deposit)]
                 && Queue(d'.down, cc) == Queue(d.down, cc) + (if net.toConsumer then [Announce(d.deposit)] else [])
                 && forall x :: x != cp && x != cc ==> Queue(d'.down, x) == Queue(d.down, x)
  {
  }

  /** A client that goes takes its role along: the consumer its deposit, the producer what it waited
      for. The screen info stays, and so does everything of the other role. */
  lemma DropMeans(d: State, p: Addr)
    requires Valid(d) && p in d.heap
    ensures var d' := Drop(d, p);
            && d'.heap == d.heap - {p} && d'.watched == d.watched - {d.heap[p]}
            && d'.screen == d.screen && d'.down == d.down
            && if Some(p) == d.consumer then
                 && d'.consumer.None? && d'.producer == d.producer && d'.deposit == [] && d'.closed == d.closed + d.deposit
                 && d'.waitScreen == d.waitScreen && d'.waitFds == d.waitFds
               else
                 && d'.producer.None? && d'.consumer == d.consumer && d'.deposit == d.deposit && d'.closed == d.closed
                 && !d'.waitScreen && !d'.waitFds
  {
  }

  /** A hello of the current consumer with five descriptors replaces the deposit and serves a producer
      that waits; one with fewer is thrown away; from anybody else it means nothing. */
  lemma HelloMeans(d: State, p: Addr, r: Received, net: Net)
    requires Valid(d) && p in d.heap && r.Got? && r.kind == 1 && !BadPayload(r)
    ensures var d' := Handle(d, p, r, net);
            var stored := d.(deposit := if |r.carried| > 5 then r.carried[..5] else r.carried, closed := d.closed + d.deposit);
            if Some(p) != d.consumer then d' == d
            else if |r.carried| < 5 then d' == d.(closed := d.closed + r.carried)
            else if d.waitFds then d' == Deliver(stored, net)
            else d' == stored
  {
  }

  /** The screen info of the current consumer is kept and goes to the producer that waits for it, once. */
  lemma ScreenMeans(d: State, p: Addr, r: Received, net: Net)
    requires Valid(d) && p in d.heap && r.Got? && r.kind == 7 && !BadPayload(r)
    ensures var d' := Handle(d, p, r, net);
            if Some(p) != d.consumer || r.size != 16 then d' == d
            else
              && d' == d.(screen := Some(r.payload), waitScreen := false, down := d'.down)
              && if d.waitScreen then SentTo(d, d', d.heap[d.producer.value], if net.toProducer then [Screen(r.payload)] else [])
                 else d'.down == d.down
  {
  }

  lemma PickupMeans(d: State, p: Addr, r: Received, net: Net)
    requires Valid(d) && p in d.heap && r.Got? && r.kind == 9 && !BadPayload(r)
    ensures Handle(d, p, r, net) == if Some(p) == d.producer then Deliver(d, net) else d
  {
  }

  /** End of file, or a message whose payload is too long or does not come, costs a client its place;
      messages of other kinds are passed over. */
  lemma OtherMeans(d: State, p: Addr, r: Received, net: Net)
    requires Valid(d) && p in d.heap
    requires r.Gone? || BadPayload(r) || r.kind !in {1, 7, 9}
    ensures Handle(d, p, r, net) == if r.Gone? || (r.size > 0 && (r.size > 16 || !r.payloadArrives)) then Drop(d, p) else d
  {
  }

  function Without(d: State, role: Option<Addr>): State
    requires role.Some? ==> role.value in d.heap
  {
    if role.Some? then d.(heap := d.heap - {role.value}, watched := d.watched - {d.heap[role.value]}) else d
  }

  predicate Welcome(d: State, a: Arrival) {
    a.accepted && a.whole && a.block.Some? && a.block.value !in d.heap && (a.kind == 1 || a.kind == 2)
  }

  /** A connection that does not begin with one of the two hellos, or for which there is no memory, is
      turned away, and nobody notices. */
  lemma TurnedAway(d: State, a: Arrival)
    requires Valid(d) && !Welcome(d, a)
    ensures Admit(d, a) == d
  {
  }

  /** The new consumer in the place of the old one, with the deposit in its hello. */
  function Seated(d: State, a: Arrival): State
    requires RolesLive(d) && a.block.Some?
  {
    var cleared, p := Without(d, d.consumer), a.block.value;
    cleared.(consumer := Some(p), heap := cleared.heap[p := a.conn],
             deposit := if |a.carried| > 5 then a.carried[..5] else a.carried, closed := d.closed + d.deposit)
  }

  /** Evicting a client is dropping it. */
  lemma EvictMeans(d: State)
    requires RolesLive(d)
    ensures Evict(d, d.producer) ==
              if d.producer.Some? then Without(d, d.producer).(producer := None, waitScreen := false, waitFds := false) else d
    ensures Evict(d, d.consumer) ==
              if d.consumer.Some? then Without(d, d.consumer).(consumer := None, deposit := [], closed := d.closed + d.deposit) else d
  {
  }

  lemma SeatedIs(d: State, a: Arrival)
    requires RolesLive(d) && Welcome(d, a)
    ensures var evicted, p := Evict(d, d.consumer), a.block.value;
            && evicted.waitFds == d.waitFds
            && ClearDeposit(evicted.(heap := evicted.heap[p := a.conn], consumer := Some(p))).(deposit := Five(a.carried)) == Seated(d, a)
    ensures d.consumer.None? ==> Seated(d, a).closed == d.closed + d.deposit
  {
    EvictMeans(d);
    hide Evict;
    assert d.closed + d.deposit + [] == d.closed + d.deposit;
  }

  lemma AdmitMeans(d: State, a: Arrival)
    requires RolesLive(d) && Welcome(d, a)
    ensures var p := a.block.value;
            Admit(d, a) == Watch(if a.kind == 1 then AdmitConsumer(d, p, a) else AdmitProducer(d, p, a), a.conn, p, a.watched)
  {
    hide AdmitConsumer, AdmitProducer, Watch;
  }

  /** A new consumer takes the place of the old one, and a producer that waits is served from its
      deposit. */
  lemma ConsumerComes(d: State, a: Arrival)
    requires Valid(d) && Feasible(d, Listen(a)) && Welcome(d, a) && a.kind == 1
    ensures Valid(Seated(d, a))
    ensures Admit(d, a) == Watch(if d.waitFds then Deliver(Seated(d, a), a.net) else Seated(d, a), a.conn, a.block.value, a.watched)
  {
    hide Deliver, Injective, Seated, Watch, Admit, Drop;
    EvictKeepsValid(d, d.consumer);
    SeatedConsumerValid(Evict(d, d.consumer), a.block.value, a);
    SeatedIs(d, a);
    AdmitMeans(d, a);
  }

  lemma ProducerSeats(d: State, a: Arrival)
    requires RolesLive(d) && Welcome(d, a)
    ensures var p, cleared, d' := a.block.value, Without(d, d.producer), AdmitProducer(d, a.block.value, a);
            && d' == cleared.(producer := Some(p), heap := cleared.heap[p := a.conn], waitFds := false, waitScreen := d.screen.None?,
                              down := d'.down)
            && SentTo(d, d', a.conn, if d.screen.Some? && a.net.toProducer then [Screen(d.screen.value)] else [])
  {
    hide Evict, Drop;
    EvictMeans(d);
  }

  /** A new producer takes the place of the old one, waits for nothing yet but the screen info, and
      gets that at once if there is one. */
  lemma ProducerComes(d: State, a: Arrival)
    requires RolesLive(d) && Welcome(d, a) && a.kind == 2
    ensures var p, cleared, d' := a.block.value, Without(d, d.producer), Admit(d, a);
            && d' == cleared.(producer := Some(p), heap := cleared.heap[p := a.conn], waitFds := false, waitScreen := d.screen.None?,
                              down := d'.down, watched := d'.watched)
            && d'.watched == (if a.watched then cleared.watched[a.conn := p] else cleared.watched)
            && SentTo(d, d', a.conn, if d.screen.Some? && a.net.toProducer then [Screen(d.screen.value)] else [])
  {
    AdmitMeans(d, a);
    ProducerSeats(d, a);
    hide Admit, AdmitProducer;
  }

  /** The loop passes an event to a handler only if its pointer is one of the two clients. */
  lemma DispatchMeans(d: State, e: Event)
    requires Valid(d)
    ensures Dispatch(d, e) ==
              match e
              case Listen(a) => Admit(d, a)
              case Client(_, p, hangup, r, net) =>
                if Some(p) != d.consumer && Some(p) != d.producer then d
                else if hangup then Drop(d, p) else Handle(d, p, r, net)
  {
  }

  // ---- over runs ----

  /** Event e is the screen info of the consumer that is current. */
  predicate ScreenNews(d: State, e: Event) {
    e.Client? && Some(e.ptr) == d.consumer && !e.hangup && e.input.Got? && e.input.kind == 7
    && e.input.size == 16 && e.input.payloadArrives
  }

  function LatestScreen(events: seq<Event>): Option<ScreenInfo> {
    if events == [] then None
    else
      var k := |events| - 1;
      if ScreenNews(After(Initial, events[..k]), events[k]) then Some(events[k].input.payload) else LatestScreen(events[..k])
  }

  lemma DeliverKeepsScreen(d: State, net: Net)
    requires RolesLive(d)
    ensures Deliver(d, net).screen == d.screen
  {
  }

  lemma ConsumerKeepsScreen(d: State, a: Arrival)
    requires RolesLive(d) && Welcome(d, a)
    ensures AdmitConsumer(d, a.block.value, a).screen == d.screen
  {
    SeatedIs(d, a);
    DeliverKeepsScreen(Seated(d, a), a.net);
    hide Deliver, Evict, ClearDeposit;
  }

  lemma AdmitKeepsScreen(d: State, a: Arrival)
    requires RolesLive(d)
    ensures Admit(d, a).screen == d.screen
  {
    if Welcome(d, a) {
      AdmitMeans(d, a);
      ConsumerKeepsScreen(d, a);
      ProducerSeats(d, a);
      hide Admit, AdmitConsumer, AdmitProducer;
    }
  }

  lemma HandleScreen(d: State, p: Addr, r: Received, net: Net)
    requires RolesLive(d) && p in d.heap
    ensures Handle(d, p, r, net).screen ==
              if Some(p) == d.consumer && r.Got? && r.kind == 7 && r.size == 16 && r.payloadArrives then Some(r.payload) else d.screen
  {
    hide Deliver, Drop, Five;
    if r.Gone? || BadPayload(r) {
      DropKeepsScreen(d, p);
    } else if r.kind == 1 {
      DeliverKeepsScreen(ClearDeposit(d).(deposit := Five(r.carried)), net);
    } else if r.kind == 9 {
      DeliverKeepsScreen(d, net);
    }
  }

  lemma DropKeepsScreen(d: State, p: Addr)
    requires p in d.heap
    ensures Drop(d, p).screen == d.screen
  {
  }

  lemma StepScreen(d: State, e: Event)
    requires RolesLive(d)
    ensures Dispatch(d, e).screen == if ScreenNews(d, e) then Some(e.input.payload) else d.screen
  {
    match e
    case Listen(a) =>
      AdmitKeepsScreen(d, a);
      hide Admit;
    case Client(_, p, hangup, r, net) =>
      if IsRole(d, p) { HandleScreen(d, p, r, net); }
      hide Handle;
  }

  /** Over any run the screen info kept is the last one that a consumer sent while it was current. */
  lemma {:induction false} ScreenIsLatest(events: seq<Event>)
    ensures After(Initial, events).screen == LatestScreen(events)
  {
    if events != [] {
      var k := |events| - 1;
      ScreenIsLatest(events[..k]);
      StepScreen(After(Initial, events[..k]), events[k]);
    }
  }
}
