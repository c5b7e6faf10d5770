/** The daemon, any number of consumers and any number of producers over FIFO control sockets.
    Every socket keeps its whole history and each reader has a position in it, so a step is an
    append or an advance. The three programs' own functions do the rest. */
module Rendezvous {
  import opened Protocol
  import D = Daemon
  import C = Consumer
  import P = Producer

  /** Where a producer's connect_to_deamon and try_exit_fallback stand. */
  datatype Phase = Greeting | Idle | AwaitFds | AwaitBufs | Connected | Failed

  /** `read` is the daemon's position in `up`, `seen` the client's position in what it got. */
  datatype ConsEnd = ConsEnd(st: C.State, read: nat, seen: nat)

  /** `installs` logs the descriptor sets pickup_fds put into the slots. */
  datatype ProdEnd = ProdEnd(ctx: P.State, phase: Phase, up: seq<Up>, read: nat, seen: nat, installs: seq<seq<Fd>>)

  datatype System = System(d: D.State, cons: map<Conn, ConsEnd>, prods: map<Conn, ProdEnd>)

  const Start := System(D.Initial, map[], map[])

  // ---- views ----

  function ConnOf(d: D.State, role: Option<D.Addr>): Option<Conn> {
    if role.Some? && role.value in d.heap then Some(d.heap[role.value]) else None
  }

  function Inbox(s: System, c: Conn): seq<Down> {
    Queue(s.d.down, c)
  }

  /** The deposit, seen from connection c: empty unless c is the current consumer. */
  function Mine(d: D.State, c: Conn): seq<Fd> {
    if ConnOf(d, d.consumer) == Some(c) then d.deposit else []
  }

  function Hellos(up: seq<Up>): nat {
    if up == [] then 0 else OneIf(up[0].ConsumerHello?) + Hellos(up[1..])
  }

  /** Which consumer generation a descriptor set was made for. */
  function Origin(fds: seq<Fd>): (o: (Conn, nat)) {
    if fds != [] && fds[0].Deposited? then (fds[0].conn, fds[0].gen) else (0, 0)
  }

  /** The last generation of c is still on its way to a producer. */
  predicate Owed(e: ConsEnd, mine: seq<Fd>)
    requires e.read <= |e.st.up|
  {
    Hellos(e.st.up[e.read..]) > 0 || mine != []
  }

  // ---- invariant ----

  /** One consumer: while in fallback its last generation is in at most one place (an
      unread hello, the stored deposit, an unread announcement); while connected in none. */
  ghost predicate ConsInv(c: Conn, e: ConsEnd, mine: seq<Fd>, q: seq<Down>) {
    && C.Valid(e.st) && e.st.conn == c
    && e.read <= |e.st.up| && e.seen <= |q|
    && (forall i :: 0 <= i < |e.st.up| ==> e.st.up[i].ConsumerHello? || e.st.up[i].ScreenUp?)
    && (forall i :: 0 <= i < |q| ==> q[i].Announce?)
    && (e.read == 0 ==> |e.st.up| >= 1 && e.st.up[0].ConsumerHello?)
    && e.st.gen == e.st.readies + OneIf(e.st.fallback)
    && Hellos(e.st.up) <= e.st.gen
    && Hellos(e.st.up[e.read..]) + OneIf(mine != []) + |q| - e.seen <= OneIf(e.st.fallback)
    && (forall i :: e.read <= i < |e.st.up| && e.st.up[i].ConsumerHello? ==> e.st.up[i].fds == DepositOf(c, e.st.gen))
    && (mine != [] ==> mine == DepositOf(c, e.st.gen))
    && (forall i :: e.seen <= i < |q| ==> q[i].delivered == DepositOf(c, e.st.gen))
    && LinkInv(e.st)
  }

  /** The data socket of the current generation: untouched in fallback, and while connected it
      carries at most the set that is stored. */
  ghost predicate LinkInv(st: C.State)
    requires C.Valid(st)
  {
    var l := C.Current(st);
    && (st.fallback ==> l.bufs == [] && l.index == 0)
    && (!st.fallback ==> l.bufs == [] || (l.bufs == [st.stored] && st.stored != []))
    && (l.index == 0 || l.index < |st.stored|)
  }

  function SlotList(x: P.State): seq<Option<Fd>> {
    [x.bufReady, x.fence, x.data, x.shm, x.audio]
  }

  ghost predicate HoldsSet(x: P.State, fds: seq<Fd>) {
    && |fds| == DEPOSITED_FD_COUNT && x.mapped
    && SlotList(x) == [Some(fds[0]), Some(fds[1]), Some(fds[2]), Some(fds[3]), Some(fds[4])]
  }

  /** One producer: first its screen info, then descriptor sets, never more of them than it
      asked for; its slots hold one whole set, the last it read. */
  ghost predicate ProdInv(p: Conn, e: ProdEnd, waitFds: bool, waitScreen: bool, q: seq<Down>) {
    && e.read <= |e.up| && e.seen <= |q|
    && |e.up| >= 1 && e.up[0].ProducerHello? && (forall i :: 1 <= i < |e.up| ==> e.up[i].PickupRequest?)
    && (waitScreen || e.read == 0 ==> q == [])
    && (forall i :: 1 <= i < |q| ==> q[i].FdsReady?)
    && (e.phase.Greeting? || e.phase.Failed? ==> e.seen == 0 && |e.up| == 1 && (|q| >= 1 ==> q[0].Screen?) && |q| <= 1)
    && (!e.phase.Greeting? && !e.phase.Failed? ==> e.seen >= 1 && q[0].Screen?)
    && (|q| > 0 ==> q[0].Screen?)
    && (if |q| > 0 then |q| - 1 else 0) + OneIf(waitFds) <= (if e.read > 0 then e.read - 1 else 0)
    && |e.installs| == (if e.seen > 0 then e.seen - 1 else 0)
    && (forall k :: 0 <= k < |e.installs| ==> e.installs[k] == q[k + 1].fds)
    && (e.phase.AwaitBufs? || e.phase.Connected? ==> e.installs != [] && HoldsSet(e.ctx, e.installs[|e.installs| - 1]))
    && (e.phase.Connected? <==> !e.ctx.fallback)
    && (!e.phase.Connected? ==> e.ctx.dmabufs == [])
    && (e.phase.Connected? ==> |e.ctx.dmabufs| == |e.ctx.infos|)
  }

  /** Every delivered set is one consumer generation, and one not owed any more. */
  ghost predicate Delivered(s: System, fds: seq<Fd>) {
    var (c, g) := Origin(fds);
    && c in s.cons && fds == DepositOf(c, g) && 1 <= g <= s.cons[c].st.gen
    && s.cons[c].read <= |s.cons[c].st.up|
    && (Owed(s.cons[c], Mine(s.d, c)) ==> g < s.cons[c].st.gen)
  }

  ghost predicate AllDelivered(s: System) {
    forall p, i :: p in s.prods && 0 <= i < |Inbox(s, p)| && Inbox(s, p)[i].FdsReady? ==> Delivered(s, Inbox(s, p)[i].fds)
  }

  /** No set reaches two producers, and the sets one producer gets are ever later ones. */
  ghost predicate Ordered(down: map<Conn, seq<Down>>, prods: set<Conn>) {
    && (forall p :: p in prods ==> Ascending(Queue(down, p)))
    && (forall p, p' :: p in prods && p' in prods && p != p' ==> Disjoint(Queue(down, p), Queue(down, p')))
  }

  ghost predicate Ascending(q: seq<Down>) {
    forall i, j :: 0 <= i < j < |q| && q[i].FdsReady? && q[j].FdsReady? ==> Later(q[i].fds, q[j].fds)
  }

  ghost predicate Disjoint(q: seq<Down>, q': seq<Down>) {
    forall i, j :: 0 <= i < |q| && 0 <= j < |q'| && q[i].FdsReady? && q'[j].FdsReady? ==> q[i].fds != q'[j].fds
  }

  /** `b` is another set than `a`, and of a later generation if from the same consumer. */
  predicate Later(a: seq<Fd>, b: seq<Fd>) {
    Origin(a).0 == Origin(b).0 ==> Origin(a).1 < Origin(b).1
  }

  function Fds(bufs: seq<C.Buf>): seq<Fd> {
    seq(|bufs|, i requires 0 <= i < |bufs| => bufs[i].fd)
  }

  function Infos(bufs: seq<C.Buf>): seq<BufInfo> {
    seq(|bufs|, i requires 0 <= i < |bufs| => bufs[i].info)
  }

  /** A connected producer in its consumer's current generation has that consumer's set. */
  ghost predicate Agrees(s: System, e: ProdEnd) {
    e.phase.Connected? && e.installs != [] ==>
      var (c, g) := Origin(e.installs[|e.installs| - 1]);
      c in s.cons && s.cons[c].st.gen == g ==>
        && !s.cons[c].st.fallback
        && e.ctx.dmabufs == Fds(s.cons[c].st.stored)
        && e.ctx.infos == Infos(s.cons[c].st.stored)
  }

  /** The daemon knows its clients, and has read the first message of the current ones. */
  ghost predicate RolesInv(s: System) {
    && s.cons.Keys !! s.prods.Keys
    && (forall c :: c in s.d.down ==> c in s.cons || c in s.prods)
    && (s.d.consumer.Some? ==> s.d.consumer.value in s.d.heap && SeatedConsumer(s, s.d.heap[s.d.consumer.value]))
    && (s.d.producer.Some? ==> s.d.producer.value in s.d.heap && SeatedProducer(s, s.d.heap[s.d.producer.value]))
  }

  predicate SeatedConsumer(s: System, c: Conn) {
    c in s.cons && s.cons[c].read >= 1
  }

  predicate SeatedProducer(s: System, p: Conn) {
    p in s.prods && s.prods[p].read >= 1
  }

  predicate Waits(d: D.State, p: Conn) {
    ConnOf(d, d.producer) == Some(p) && d.waitFds
  }

  predicate WaitsScreen(d: D.State, p: Conn) {
    ConnOf(d, d.producer) == Some(p) && d.waitScreen
  }

  ghost predicate AllCons(s: System) {
    forall c :: c in s.cons ==> ConsInv(c, s.cons[c], Mine(s.d, c), Inbox(s, c))
  }

  ghost predicate AllProds(s: System) {
    forall p :: p in s.prods ==> ProdInv(p, s.prods[p], Waits(s.d, p), WaitsScreen(s.d, p), Inbox(s, p))
  }

  ghost predicate AllAgree(s: System) {
    forall p :: p in s.prods ==> Agrees(s, s.prods[p])
  }

  ghost predicate Inv(s: System) {
    && D.Valid(s.d) && RolesInv(s) && AllCons(s) && AllProds(s)
    && AllDelivered(s) && Ordered(s.d.down, s.prods.Keys) && AllAgree(s)
  }

  // ---- steps ----

  datatype Step =
    | NewConsumer(c: Conn)
    | NewProducer(p: Conn)
    | Accept(c: Conn, whole: bool, block: Option<D.Addr>, watched: bool, net: D.Net)
    | Serve(ptr: D.Addr, arrives: bool, net: D.Net)
    | Hangup(ptr: D.Addr)
    | Select(c: Conn, idx: int, look: bool, ok: bool, h: C.HelloOutcome)
    | AwaitFrame(c: Conn, e: C.FenceEvent, h: C.HelloOutcome)
    | PushSet(c: Conn, bufs: seq<C.Buf>, ok: bool, h: C.HelloOutcome)
    | ConsumerFails(c: Conn, h: C.HelloOutcome)
    | SendScreen(c: Conn, info: ScreenInfo)
    | ReadGreeting(p: Conn)
    | SendPickup(p: Conn)
    | GiveUp(p: Conn)
    | ReadFds(p: Conn, mapOk: bool)
    | ReadBufs(p: Conn, infosArrive: bool)
    | ProducerFails(p: Conn)

  function Message(m: Up, arrives: bool): D.Received {
    match m
    case ConsumerHello(fds) => D.Got(CONSUMER_HELLO, 0, fds, true, ScreenInfo(0, 0, 0, 0))
    case ScreenUp(info) => D.Got(SCREEN_INFO, SCREEN_INFO_BYTES, [], arrives, info)
    case ProducerHello => D.Got(PRODUCER_HELLO, 0, [], true, ScreenInfo(0, 0, 0, 0))
    case PickupRequest => D.Got(PICKUP_FDS, 0, [], true, ScreenInfo(0, 0, 0, 0))
  }

  function Sent(s: System, c: Conn): seq<Up> {
    if c in s.cons then s.cons[c].st.up else if c in s.prods then s.prods[c].up else []
  }

  function ReadSoFar(s: System, c: Conn): nat {
    if c in s.cons then s.cons[c].read else if c in s.prods then s.prods[c].read else 0
  }

  function Advance(s: System, c: Conn): System {
    if c in s.cons then s.(cons := s.cons[c := s.cons[c].(read := s.cons[c].read + 1)])
    else if c in s.prods then s.(prods := s.prods[c := s.prods[c].(read := s.prods[c].read + 1)])
    else s
  }

  function ArrivalOf(s: System, t: Step): D.Arrival
    requires t.Accept? && |Sent(s, t.c)| > 0
  {
    var m := Message(Sent(s, t.c)[0], true);
    D.Arrival(true, t.c, t.whole, m.kind, m.carried, t.block, t.watched, t.net)
  }

  /** The announcement select_dmabuf finds on its control socket, if it looks and there is one. */
  function Announcement(s: System, c: Conn, look: bool): Option<Down>
    requires c in s.cons
  {
    if look && s.cons[c].st.fallback && s.cons[c].seen < |Inbox(s, c)| then Some(Inbox(s, c)[s.cons[c].seen]) else None
  }

  predicate Enabled(s: System, t: Step) {
    match t
    case NewConsumer(c) => c !in s.cons && c !in s.prods
    case NewProducer(p) => p !in s.cons && p !in s.prods
    case Accept(c, _, _, _, _) => (c in s.cons || c in s.prods) && ReadSoFar(s, c) == 0 && |Sent(s, c)| > 0
    case Serve(ptr, _, _) => D.IsRole(s.d, ptr) && ptr in s.d.heap && D.RolesLive(s.d)
                             && ReadSoFar(s, s.d.heap[ptr]) < |Sent(s, s.d.heap[ptr])|
    case Hangup(ptr) => D.IsRole(s.d, ptr) && ptr in s.d.heap
    case Select(c, _, _, _, _) => c in s.cons && s.cons[c].st.gen in s.cons[c].st.links
    case AwaitFrame(c, _, _) => c in s.cons && s.cons[c].st.gen in s.cons[c].st.links
    case PushSet(c, _, _, _) => c in s.cons && s.cons[c].st.gen in s.cons[c].st.links
    case ConsumerFails(c, _) => c in s.cons
    case SendScreen(c, _) => c in s.cons
    case ReadGreeting(p) => p in s.prods && s.prods[p].phase.Greeting? && s.prods[p].seen < |Inbox(s, p)|
    case SendPickup(p) => p in s.prods && s.prods[p].phase.Idle?
    case GiveUp(p) => p in s.prods && (s.prods[p].phase.AwaitFds? || s.prods[p].phase.AwaitBufs?)
    case ReadFds(p, _) => p in s.prods && s.prods[p].phase.AwaitFds? && s.prods[p].seen < |Inbox(s, p)|
    case ReadBufs(p, _) => p in s.prods && s.prods[p].phase.AwaitBufs? && s.prods[p].installs != [] && SomeBufs(s, p)
    case ProducerFails(p) => p in s.prods && s.prods[p].phase.Connected?
  }

  /** Something is waiting on the data socket the producer holds. */
  predicate SomeBufs(s: System, p: Conn)
    requires p in s.prods && s.prods[p].installs != []
  {
    var (c, g) := Origin(s.prods[p].installs[|s.prods[p].installs| - 1]);
    c in s.cons && g in s.cons[c].st.links && s.cons[c].st.links[g].bufs != []
  }

  function WithCons(s: System, c: Conn, st: C.State): System
    requires c in s.cons
  {
    s.(cons := s.cons[c := s.cons[c].(st := st)])
  }

  function WithProd(s: System, p: Conn, e: ProdEnd): System {
    s.(prods := s.prods[p := e])
  }

  function SelectEnd(e: ConsEnd, a: Option<Down>, idx: int, ok: bool, h: C.HelloOutcome): ConsEnd
    requires e.st.gen in e.st.links
  {
    e.(st := C.SelectDmabuf(e.st, idx, a, ok, h), seen := e.seen + OneIf(a.Some?))
  }

  function ReadFdsEnd(e: ProdEnd, m: Down, mapOk: bool): ProdEnd {
    var fds := if m.FdsReady? then m.fds else [];
    var reply := P.Reply(true, m.FdsReady?, 0, fds, mapOk);
    var picked := P.Pickup(e.ctx, reply);
    var log := if P.PickupGood(reply) then e.installs + [fds] else e.installs;
    if P.PickupResult(reply) == 0 then e.(ctx := picked, phase := AwaitBufs, seen := e.seen + 1, installs := log)
    else e.(ctx := P.Release(picked), phase := Idle, seen := e.seen + 1, installs := log)
  }

  function BufsMessage(bufs: seq<C.Buf>, infosArrive: bool): P.BufsReply {
    P.Bufs(true, true, P.BUF_INFO_BYTES * |bufs|, Fds(bufs), infosArrive, Infos(bufs))
  }

  function ReadBufsEnd(e: ProdEnd, bufs: seq<C.Buf>, infosArrive: bool): ProdEnd {
    var reply := BufsMessage(bufs, infosArrive);
    var received := P.ReceiveBufs(e.ctx, reply);
    if P.ReceiveResult(e.ctx, reply) == 0 then e.(ctx := received.(fallback := false), phase := Connected)
    else e.(ctx := P.Release(received), phase := Idle)
  }

  function GreetingEnd(e: ProdEnd, m: Down): ProdEnd {
    if m.Screen? then e.(phase := Idle, seen := e.seen + 1) else e.(phase := Failed)
  }

  function Do(s: System, t: Step): (s': System)
    requires D.RolesLive(s.d) && Enabled(s, t)
    ensures D.RolesLive(s'.d)
  {
    match t
    case NewConsumer(c) => s.(cons := s.cons[c := ConsEnd(C.Connected(c), 0, 0)])
    case NewProducer(p) => s.(prods := s.prods[p := ProdEnd(P.Initial, Greeting, [ProducerHello], 0, 0, [])])
    case Accept(c, _, _, _, _) => Advance(s, c).(d := D.Admit(s.d, ArrivalOf(s, t)))
    case Serve(ptr, arrives, net) =>
      var c := s.d.heap[ptr];
      Advance(s, c).(d := D.Handle(s.d, ptr, Message(Sent(s, c)[ReadSoFar(s, c)], arrives), net))
    case Hangup(ptr) => s.(d := D.Drop(s.d, ptr))
    case Select(c, idx, look, ok, h) => s.(cons := s.cons[c := SelectEnd(s.cons[c], Announcement(s, c, look), idx, ok, h)])
    case AwaitFrame(c, e, h) => WithCons(s, c, C.Refresh(s.cons[c].st, e, h))
    case PushSet(c, bufs, ok, h) => WithCons(s, c, C.PushDmabufs(s.cons[c].st, bufs, ok, h))
    case ConsumerFails(c, h) => WithCons(s, c, C.EnterFallback(s.cons[c].st, h))
    case SendScreen(c, info) => WithCons(s, c, s.cons[c].st.(up := s.cons[c].st.up + [ScreenUp(info)]))
    case ReadGreeting(p) => WithProd(s, p, GreetingEnd(s.prods[p], Inbox(s, p)[s.prods[p].seen]))
    case SendPickup(p) => WithProd(s, p, s.prods[p].(phase := AwaitFds, up := s.prods[p].up + [PickupRequest]))
    case GiveUp(p) => WithProd(s, p, s.prods[p].(phase := Idle, ctx := P.Release(s.prods[p].ctx)))
    case ReadFds(p, mapOk) => WithProd(s, p, ReadFdsEnd(s.prods[p], Inbox(s, p)[s.prods[p].seen], mapOk))
    case ReadBufs(p, infosArrive) =>
      var e := s.prods[p];
      var (c, g) := Origin(e.installs[|e.installs| - 1]);
      var l := s.cons[c].st.links[g];
      WithProd(WithCons(s, c, s.cons[c].st.(links := s.cons[c].st.links[g := l.(bufs := l.bufs[1..])])),
               p, ReadBufsEnd(e, l.bufs[0], infosArrive))
    case ProducerFails(p) => WithProd(s, p, s.prods[p].(phase := Idle, ctx := P.EnterFallback(s.prods[p].ctx)))
  }

  // ---- what a step that delivers nothing leaves alone ----

  /** A consumer end only moves forward, and its generation is owed only if it was or is new. */
  ghost predicate TameEnd(e: ConsEnd, mine: seq<Fd>, e': ConsEnd, mine': seq<Fd>) {
    && e.read <= |e.st.up| && e'.read <= |e'.st.up|
    && e.st.gen <= e'.st.gen
    && (Owed(e', mine') ==> Owed(e, mine) || e.st.gen < e'.st.gen)
    && (e.st.gen == e'.st.gen && !e.st.fallback ==> !e'.st.fallback && e'.st.stored == e.st.stored)
  }

  ghost predicate TameCons(s: System, s': System) {
    forall c :: c in s.cons ==> c in s'.cons && TameEnd(s.cons[c], Mine(s.d, c), s'.cons[c], Mine(s'.d, c))
  }

  ghost predicate NoneReady(q: seq<Down>) {
    forall i :: 0 <= i < |q| ==> !q[i].FdsReady?
  }

  ghost predicate NothingDelivered(s: System, s': System) {
    forall p :: p in s'.prods ==> (p in s.prods && Inbox(s', p) == Inbox(s, p)) || NoneReady(Inbox(s', p))
  }

  lemma FrameDelivered(s: System, s': System)
    requires AllDelivered(s) && TameCons(s, s') && NothingDelivered(s, s')
    ensures AllDelivered(s')
  {
    forall p, i | p in s'.prods && 0 <= i < |Inbox(s', p)| && Inbox(s', p)[i].FdsReady?
      ensures Delivered(s', Inbox(s', p)[i].fds)
    {
      assert Delivered(s, Inbox(s, p)[i].fds);
    }
  }

  lemma FrameOrdered(s: System, s': System)
    requires Ordered(s.d.down, s.prods.Keys) && NothingDelivered(s, s')
    ensures Ordered(s'.d.down, s'.prods.Keys)
  {
    forall p | p in s'.prods.Keys ensures Ascending(Queue(s'.d.down, p)) {
      assert Inbox(s', p) == Queue(s'.d.down, p) && Inbox(s, p) == Queue(s.d.down, p);
    }
    forall p, p' | p in s'.prods.Keys && p' in s'.prods.Keys && p != p'
      ensures Disjoint(Queue(s'.d.down, p), Queue(s'.d.down, p'))
    {
      assert Inbox(s', p) == Queue(s'.d.down, p) && Inbox(s, p) == Queue(s.d.down, p);
      assert Inbox(s', p') == Queue(s'.d.down, p') && Inbox(s, p') == Queue(s.d.down, p');
    }
  }

  /** What a producer end holds was delivered to it. */
  lemma HoldsDelivered(s: System, p: Conn)
    requires AllDelivered(s) && AllProds(s) && p in s.prods && s.prods[p].installs != []
    ensures Delivered(s, s.prods[p].installs[|s.prods[p].installs| - 1])
  {
    var e := s.prods[p];
    assert ProdInv(p, e, Waits(s.d, p), WaitsScreen(s.d, p), Inbox(s, p));
    assert e.installs[|e.installs| - 1] == Inbox(s, p)[|e.installs|].fds;
    assert Inbox(s, p)[|e.installs|].FdsReady?;
  }

  lemma FrameAgrees(s: System, s': System, e: ProdEnd)
    requires Agrees(s, e) && TameCons(s, s')
    requires e.installs != [] ==> Delivered(s, e.installs[|e.installs| - 1])
    ensures Agrees(s', e)
  {
  }

  lemma FrameAllAgree(s: System, s': System)
    requires AllAgree(s) && AllDelivered(s) && AllProds(s) && TameCons(s, s')
    requires forall p :: p in s'.prods ==> (p in s.prods && s'.prods[p].(read := s.prods[p].read) == s.prods[p]) || Agrees(s', s'.prods[p])
    ensures AllAgree(s')
  {
    forall p | p in s'.prods ensures Agrees(s', s'.prods[p]) {
      if p in s.prods && s'.prods[p].(read := s.prods[p].read) == s.prods[p] {
        if s.prods[p].installs != [] { HoldsDelivered(s, p); }
        assert Agrees(s, s.prods[p]);
        FrameAgrees(s, s', s.prods[p]);
      }
    }
  }

  lemma FrameHistory(s: System, s': System)
    requires Inv(s) && TameCons(s, s') && NothingDelivered(s, s')
    requires forall p :: p in s'.prods ==> (p in s.prods && s'.prods[p].(read := s.prods[p].read) == s.prods[p]) || Agrees(s', s'.prods[p])
    ensures AllDelivered(s') && Ordered(s'.d.down, s'.prods.Keys) && AllAgree(s')
  {
    FrameDelivered(s, s');
    FrameOrdered(s, s');
    FrameAllAgree(s, s');
  }

  // ---- one client moves ----

  lemma TameSelf(s: System, c: Conn)
    requires AllCons(s) && c in s.cons
    ensures TameEnd(s.cons[c], Mine(s.d, c), s.cons[c], Mine(s.d, c))
    ensures TameEnd(s.cons[c], Mine(s.d, c), s.cons[c], [])
  {
    assert ConsInv(c, s.cons[c], Mine(s.d, c), Inbox(s, c));
  }

  lemma ConsumerMovesEnds(s: System, c: Conn, e: ConsEnd)
    requires RolesInv(s) && AllCons(s) && AllProds(s) && c in s.cons && s.cons[c].read <= e.read
    requires ConsInv(c, e, Mine(s.d, c), Inbox(s, c))
    ensures var s' := s.(cons := s.cons[c := e]); RolesInv(s') && AllCons(s') && AllProds(s')
  {
    hide ConsInv, ProdInv;
    var s' := s.(cons := s.cons[c := e]);
    assert s'.cons.Keys == s.cons.Keys;
    forall x | x in s'.cons ensures ConsInv(x, s'.cons[x], Mine(s'.d, x), Inbox(s', x)) {
      if x != c { assert ConsInv(x, s.cons[x], Mine(s.d, x), Inbox(s, x)); }
    }
    forall x | x in s'.prods ensures ProdInv(x, s'.prods[x], Waits(s'.d, x), WaitsScreen(s'.d, x), Inbox(s', x)) {
      assert ProdInv(x, s.prods[x], Waits(s.d, x), WaitsScreen(s.d, x), Inbox(s, x));
    }
  }

  lemma ConsumerMoves(s: System, c: Conn, e: ConsEnd)
    requires Inv(s) && c in s.cons && s.cons[c].read <= e.read
    requires ConsInv(c, e, Mine(s.d, c), Inbox(s, c))
    requires TameEnd(s.cons[c], Mine(s.d, c), e, Mine(s.d, c))
    ensures Inv(s.(cons := s.cons[c := e]))
  {
    var s' := s.(cons := s.cons[c := e]);
    assert TameCons(s, s') by {
      forall x | x in s.cons ensures x in s'.cons && TameEnd(s.cons[x], Mine(s.d, x), s'.cons[x], Mine(s'.d, x)) {
        TameSelf(s, x);
      }
    }
    FrameHistory(s, s');
    ConsumerMovesEnds(s, c, e);
  }

  lemma ProducerMovesEnds(s: System, p: Conn, e: ProdEnd)
    requires RolesInv(s) && AllCons(s) && AllProds(s) && p in s.prods && s.prods[p].read <= e.read
    requires ProdInv(p, e, Waits(s.d, p), WaitsScreen(s.d, p), Inbox(s, p))
    ensures var s' := WithProd(s, p, e); RolesInv(s') && AllCons(s') && AllProds(s')
  {
    hide ConsInv, ProdInv;
    var s' := WithProd(s, p, e);
    assert s'.prods.Keys == s.prods.Keys;
    forall x | x in s'.cons ensures ConsInv(x, s'.cons[x], Mine(s'.d, x), Inbox(s', x)) {
      assert ConsInv(x, s.cons[x], Mine(s.d, x), Inbox(s, x));
    }
    forall x | x in s'.prods ensures ProdInv(x, s'.prods[x], Waits(s'.d, x), WaitsScreen(s'.d, x), Inbox(s', x)) {
      if x != p { assert ProdInv(x, s.prods[x], Waits(s.d, x), WaitsScreen(s.d, x), Inbox(s, x)); }
    }
  }

  lemma ProducerMoves(s: System, p: Conn, e: ProdEnd)
    requires Inv(s) && p in s.prods && s.prods[p].read <= e.read
    requires ProdInv(p, e, Waits(s.d, p), WaitsScreen(s.d, p), Inbox(s, p))
    requires Agrees(s, e)
    ensures Inv(WithProd(s, p, e))
  {
    var s' := WithProd(s, p, e);
    assert TameCons(s, s') by {
      forall x | x in s.cons ensures x in s'.cons && TameEnd(s.cons[x], Mine(s.d, x), s'.cons[x], Mine(s'.d, x)) {
        TameSelf(s, x);
      }
    }
    assert Agrees(s', e);
    FrameHistory(s, s');
    ProducerMovesEnds(s, p, e);
  }

  // ---- connections appear ----

  lemma NewConsumerKeeps(s: System, c: Conn)
    requires Inv(s) && c !in s.cons && c !in s.prods
    ensures Inv(s.(cons := s.cons[c := ConsEnd(C.Connected(c), 0, 0)]))
  {
    var e := ConsEnd(C.Connected(c), 0, 0);
    var s' := s.(cons := s.cons[c := e]);
    assert TameCons(s, s') by {
      forall x | x in s.cons ensures x in s'.cons && TameEnd(s.cons[x], Mine(s.d, x), s'.cons[x], Mine(s'.d, x)) {
        TameSelf(s, x);
      }
    }
    FrameHistory(s, s');
    assert ConsInv(c, e, [], []) by {
      assert e.st.up[0..] == e.st.up && e.st.up[1..] == [];
    }
    NewConsumerEnds(s, c, e);
  }

  lemma NewConsumerEnds(s: System, c: Conn, e: ConsEnd)
    requires RolesInv(s) && AllCons(s) && AllProds(s) && c !in s.cons && c !in s.prods && ConsInv(c, e, [], [])
    ensures var s' := s.(cons := s.cons[c := e]); RolesInv(s') && AllCons(s') && AllProds(s')
  {
    hide ConsInv, ProdInv;
    var s' := s.(cons := s.cons[c := e]);
    assert Inbox(s, c) == [] && Mine(s.d, c) == [];
    forall x | x in s'.cons ensures ConsInv(x, s'.cons[x], Mine(s'.d, x), Inbox(s', x)) {
      if x != c { assert ConsInv(x, s.cons[x], Mine(s.d, x), Inbox(s, x)); }
    }
    forall x | x in s'.prods ensures ProdInv(x, s'.prods[x], Waits(s'.d, x), WaitsScreen(s'.d, x), Inbox(s', x)) {
      assert ProdInv(x, s.prods[x], Waits(s.d, x), WaitsScreen(s.d, x), Inbox(s, x));
    }
  }

  lemma NewProducerKeeps(s: System, p: Conn)
    requires Inv(s) && p !in s.cons && p !in s.prods
    ensures Inv(s.(prods := s.prods[p := ProdEnd(P.Initial, Greeting, [ProducerHello], 0, 0, [])]))
  {
    var e := ProdEnd(P.Initial, Greeting, [ProducerHello], 0, 0, []);
    var s' := s.(prods := s.prods[p := e]);
    assert TameCons(s, s') by {
      forall x | x in s.cons ensures x in s'.cons && TameEnd(s.cons[x], Mine(s.d, x), s'.cons[x], Mine(s'.d, x)) {
        TameSelf(s, x);
      }
    }
    assert Inbox(s, p) == [] && Agrees(s', e);
    FrameHistory(s, s');
    NewProducerEnds(s, p, e);
  }

  lemma NewProducerEnds(s: System, p: Conn, e: ProdEnd)
    requires RolesInv(s) && AllCons(s) && AllProds(s) && p !in s.cons && p !in s.prods && ProdInv(p, e, false, false, [])
    ensures var s' := s.(prods := s.prods[p := e]); RolesInv(s') && AllCons(s') && AllProds(s')
  {
    hide ConsInv, ProdInv;
    var s' := s.(prods := s.prods[p := e]);
    assert Inbox(s, p) == [] && !Waits(s.d, p) && !WaitsScreen(s.d, p);
    forall x | x in s'.cons ensures ConsInv(x, s'.cons[x], Mine(s'.d, x), Inbox(s', x)) {
      assert ConsInv(x, s.cons[x], Mine(s.d, x), Inbox(s, x));
    }
    forall x | x in s'.prods ensures ProdInv(x, s'.prods[x], Waits(s'.d, x), WaitsScreen(s'.d, x), Inbox(s', x)) {
      if x != p { assert ProdInv(x, s.prods[x], Waits(s.d, x), WaitsScreen(s.d, x), Inbox(s, x)); }
    }
  }

  // ---- the daemon moves ----

  /** A change to the daemon that queues nothing, forgets at most a deposit, and clears flags. */
  ghost predicate Quiet(d: D.State, d': D.State) {
    && d'.down == d.down
    && (forall c :: Mine(d', c) == Mine(d, c) || Mine(d', c) == [])
    && (forall p :: (Waits(d', p) ==> Waits(d, p)) && (WaitsScreen(d', p) ==> WaitsScreen(d, p)))
  }

  lemma QuietEnds(s: System, d': D.State)
    requires AllCons(s) && AllProds(s) && Quiet(s.d, d')
    ensures AllCons(s.(d := d')) && AllProds(s.(d := d'))
  {
    var s' := s.(d := d');
    forall x | x in s'.cons ensures ConsInv(x, s'.cons[x], Mine(s'.d, x), Inbox(s', x)) {
      assert ConsInv(x, s.cons[x], Mine(s.d, x), Inbox(s, x));
    }
    forall x | x in s'.prods ensures ProdInv(x, s'.prods[x], Waits(s'.d, x), WaitsScreen(s'.d, x), Inbox(s', x)) {
      assert ProdInv(x, s.prods[x], Waits(s.d, x), WaitsScreen(s.d, x), Inbox(s, x));
    }
  }

  lemma QuietKeeps(s: System, d': D.State)
    requires Inv(s) && D.Valid(d') && RolesInv(s.(d := d')) && Quiet(s.d, d')
    ensures Inv(s.(d := d'))
  {
    var s' := s.(d := d');
    assert TameCons(s, s') by {
      forall x | x in s.cons ensures x in s'.cons && TameEnd(s.cons[x], Mine(s.d, x), s'.cons[x], Mine(s'.d, x)) {
        TameSelf(s, x);
      }
    }
    FrameHistory(s, s');
    QuietEnds(s, d');
  }

  lemma HellosStep(up: seq<Up>, i: nat)
    requires i < |up|
    ensures Hellos(up[i..]) == OneIf(up[i].ConsumerHello?) + Hellos(up[i + 1..])
  {
    assert up[i..][1..] == up[i + 1..];
  }

  lemma AdvanceConsEnd(c: Conn, e: ConsEnd, mine: seq<Fd>, q: seq<Down>)
    requires ConsInv(c, e, mine, q) && e.read < |e.st.up|
    ensures ConsInv(c, e.(read := e.read + 1), mine, q)
    ensures TameEnd(e, mine, e.(read := e.read + 1), mine)
  {
    HellosStep(e.st.up, e.read);
  }

  lemma AdvanceProdEnd(s: System, p: Conn)
    requires AllProds(s) && AllAgree(s) && p in s.prods && s.prods[p].read < |s.prods[p].up|
    ensures var e := s.prods[p].(read := s.prods[p].read + 1);
            ProdInv(p, e, Waits(s.d, p), WaitsScreen(s.d, p), Inbox(s, p)) && Agrees(s, e)
  {
    assert ProdInv(p, s.prods[p], Waits(s.d, p), WaitsScreen(s.d, p), Inbox(s, p));
    assert Agrees(s, s.prods[p]);
  }

  lemma AdvanceConsKeeps(s: System, c: Conn)
    requires Inv(s) && c in s.cons && s.cons[c].read < |s.cons[c].st.up|
    ensures Inv(Advance(s, c))
  {
    hide ConsInv, TameEnd;
    var e := s.cons[c].(read := s.cons[c].read + 1);
    assert ConsInv(c, s.cons[c], Mine(s.d, c), Inbox(s, c));
    AdvanceConsEnd(c, s.cons[c], Mine(s.d, c), Inbox(s, c));
    assert Advance(s, c) == s.(cons := s.cons[c := e]);
    ConsumerMoves(s, c, e);
  }

  lemma AdvanceProdKeeps(s: System, p: Conn)
    requires Inv(s) && p in s.prods && s.prods[p].read < |s.prods[p].up|
    ensures Inv(WithProd(s, p, s.prods[p].(read := s.prods[p].read + 1)))
  {
    AdvanceProdEnd(s, p);
    ProducerMoves(s, p, s.prods[p].(read := s.prods[p].read + 1));
  }

  /** The daemon takes one message off a control socket and does nothing with it. */
  lemma AdvanceKeeps(s: System, c: Conn)
    requires Inv(s) && (c in s.cons || c in s.prods) && ReadSoFar(s, c) < |Sent(s, c)|
    ensures Inv(Advance(s, c))
  {
    hide Inv;
    if c in s.cons {
      AdvanceConsKeeps(s, c);
    } else {
      assert Advance(s, c) == WithProd(s, c, s.prods[c].(read := s.prods[c].read + 1));
      AdvanceProdKeeps(s, c);
    }
  }

  lemma DropIsQuiet(d: D.State, p: D.Addr)
    requires D.Valid(d) && p in d.heap
    ensures Quiet(d, D.Drop(d, p))
  {
  }

  lemma DropRoles(s: System, p: D.Addr)
    requires D.Valid(s.d) && RolesInv(s) && p in s.d.heap
    ensures RolesInv(s.(d := D.Drop(s.d, p)))
  {
  }

  lemma DropKeeps(s: System, ptr: D.Addr)
    requires Inv(s) && ptr in s.d.heap
    ensures Inv(s.(d := D.Drop(s.d, ptr)))
  {
    D.DropKeepsValid(s.d, ptr);
    DropIsQuiet(s.d, ptr);
    DropRoles(s, ptr);
    QuietKeeps(s, D.Drop(s.d, ptr));
  }

  /** d' is d with consumer c seated and its first unread hello stored. */
  ghost predicate StoredFrom(s: System, c: Conn, d': D.State) {
    && c in s.cons && s.cons[c].read < |s.cons[c].st.up|
    && s.cons[c].st.up[s.cons[c].read].ConsumerHello?
    && D.Valid(d') && d'.down == s.d.down && ConnOf(d', d'.consumer) == Some(c)
    && d'.deposit == s.cons[c].st.up[s.cons[c].read].fds
    && ConnOf(d', d'.producer) == ConnOf(s.d, s.d.producer) && d'.waitFds == s.d.waitFds && d'.waitScreen == s.d.waitScreen
  }

  lemma StoreEnd(c: Conn, e: ConsEnd, mine: seq<Fd>, q: seq<Down>, deposit: seq<Fd>)
    requires ConsInv(c, e, mine, q) && e.read < |e.st.up| && e.st.up[e.read].ConsumerHello?
    requires deposit == e.st.up[e.read].fds
    ensures ConsInv(c, e.(read := e.read + 1), deposit, q)
    ensures TameEnd(e, mine, e.(read := e.read + 1), deposit)
  {
    HellosStep(e.st.up, e.read);
  }

  lemma StoreRoles(s: System, c: Conn, d': D.State)
    requires D.Valid(s.d) && RolesInv(s) && StoredFrom(s, c, d')
    ensures RolesInv(Advance(s, c).(d := d'))
  {
    var s' := Advance(s, c).(d := d');
    assert s'.cons.Keys == s.cons.Keys;
    assert d'.producer.Some? ==> d'.producer.value in d'.heap;
    assert d'.consumer.Some? ==> d'.consumer.value in d'.heap;
  }

  lemma StoreOther(s: System, c: Conn, d': D.State, x: Conn)
    requires AllCons(s) && StoredFrom(s, c, d') && x in s.cons && x != c
    ensures ConsInv(x, s.cons[x], Mine(d', x), Queue(d'.down, x))
    ensures TameEnd(s.cons[x], Mine(s.d, x), s.cons[x], Mine(d', x))
  {
    assert ConsInv(x, s.cons[x], Mine(s.d, x), Inbox(s, x));
    assert Mine(d', x) == [];
  }

  lemma StoreCons(s: System, c: Conn, d': D.State)
    requires AllCons(s) && StoredFrom(s, c, d')
    ensures AllCons(Advance(s, c).(d := d')) && TameCons(s, Advance(s, c).(d := d'))
  {
    hide ConsInv, TameEnd;
    var s' := Advance(s, c).(d := d');
    forall x | x in s.cons
      ensures ConsInv(x, s'.cons[x], Mine(s'.d, x), Inbox(s', x))
      ensures TameEnd(s.cons[x], Mine(s.d, x), s'.cons[x], Mine(s'.d, x))
    {
      if x == c {
        assert ConsInv(x, s.cons[x], Mine(s.d, x), Inbox(s, x));
        StoreEnd(c, s.cons[c], Mine(s.d, c), Inbox(s, c), d'.deposit);
      } else {
        StoreOther(s, c, d', x);
      }
    }
  }

  lemma StoreProds(s: System, c: Conn, d': D.State)
    requires AllProds(s) && StoredFrom(s, c, d')
    ensures AllProds(Advance(s, c).(d := d'))
  {
    var s' := Advance(s, c).(d := d');
    forall x | x in s'.prods ensures ProdInv(x, s'.prods[x], Waits(s'.d, x), WaitsScreen(s'.d, x), Inbox(s', x)) {
      assert ProdInv(x, s.prods[x], Waits(s.d, x), WaitsScreen(s.d, x), Inbox(s, x));
    }
  }

  /** A deposit the daemon stores is the last generation of the consumer it reads it from. */
  lemma StoreKeeps(s: System, c: Conn, d': D.State)
    requires Inv(s) && StoredFrom(s, c, d')
    ensures Inv(Advance(s, c).(d := d'))
  {
    StoreRoles(s, c, d');
    StoreCons(s, c, d');
    StoreProds(s, c, d');
    FrameHistory(s, Advance(s, c).(d := d'));
  }

  // ---- delivery ----

  /** The current producer has asked more often than it was served. */
  predicate Room(s: System) {
    && s.d.producer.Some? && s.d.producer.value in s.d.heap
    && var p := s.d.heap[s.d.producer.value];
       p in s.prods && s.prods[p].read >= 2 && |Inbox(s, p)| + 1 <= s.prods[p].read
  }

  lemma WaitKeeps(s: System)
    requires Inv(s) && Room(s)
    ensures Inv(s.(d := s.d.(waitFds := true)))
  {
    WaitEnds(s);
    var s' := s.(d := s.d.(waitFds := true));
    assert TameCons(s, s') by {
      forall x | x in s.cons ensures x in s'.cons && TameEnd(s.cons[x], Mine(s.d, x), s'.cons[x], Mine(s'.d, x)) {
        TameSelf(s, x);
      }
    }
    FrameHistory(s, s');
  }

  lemma WaitEnds(s: System)
    requires D.Valid(s.d) && RolesInv(s) && AllCons(s) && AllProds(s) && Room(s)
    ensures var s' := s.(d := s.d.(waitFds := true)); D.Valid(s'.d) && RolesInv(s') && AllCons(s') && AllProds(s')
  {
    hide ConsInv, D.ClientsOk;
    var s' := s.(d := s.d.(waitFds := true));
    forall x | x in s'.cons ensures ConsInv(x, s'.cons[x], Mine(s'.d, x), Inbox(s', x)) {
      assert ConsInv(x, s.cons[x], Mine(s.d, x), Inbox(s, x));
    }
    forall x | x in s'.prods ensures ProdInv(x, s'.prods[x], Waits(s'.d, x), WaitsScreen(s'.d, x), Inbox(s', x)) {
      assert ProdInv(x, s.prods[x], Waits(s.d, x), WaitsScreen(s.d, x), Inbox(s, x));
    }
  }

  lemma DeliverConsEnd(c: Conn, e: ConsEnd, mine: seq<Fd>, q: seq<Down>, told: bool)
    requires ConsInv(c, e, mine, q) && mine != []
    ensures ConsInv(c, e, [], if told then q + [Announce(mine)] else q)
    ensures TameEnd(e, mine, e, []) && !Owed(e, []) && Origin(mine) == (c, e.st.gen)
    ensures mine == DepositOf(c, e.st.gen) && e.st.gen >= 1
  {
  }

  lemma DeliverProdEnd(p: Conn, e: ProdEnd, w: bool, ws: bool, q: seq<Down>, fds: seq<Fd>)
    requires ProdInv(p, e, w, ws, q) && e.read >= 2 && |q| + 1 <= e.read
    ensures ProdInv(p, e, false, ws, q + [FdsReady(fds)])
  {
  }

  /** The state after a delivery that reached the producer. */
  ghost predicate DeliveredTo(d: D.State, d': D.State, c: Conn, p: Conn, told: bool) {
    && d' == d.(down := d'.down, closed := d'.closed, deposit := [], waitFds := false)
    && d'.down.Keys <= d.down.Keys + {c, p}
    && (forall x :: Queue(d'.down, x) ==
          if x == p then Queue(d.down, p) + [FdsReady(d.deposit)]
          else if x == c && told then Queue(d.down, c) + [Announce(d.deposit)]
          else Queue(d.down, x))
  }

  lemma DeliverShape(d: D.State, net: D.Net, c: Conn, p: Conn)
    requires D.Valid(d) && ConnOf(d, d.producer) == Some(p) && ConnOf(d, d.consumer) == Some(c) && c != p
    requires |d.deposit| == DEPOSITED_FD_COUNT && net.toProducer
    ensures DeliveredTo(d, D.Deliver(d, net), c, p, net.toConsumer)
  {
  }

  lemma DeliverRoles(s: System, d': D.State, c: Conn, p: Conn, told: bool)
    requires RolesInv(s) && c in s.cons && p in s.prods && DeliveredTo(s.d, d', c, p, told)
    ensures RolesInv(s.(d := d'))
  {
    var s' := s.(d := d');
    forall x | x in d'.down ensures x in s'.cons || x in s'.prods {
    }
  }

  lemma DeliverCons(s: System, d': D.State, c: Conn, p: Conn, told: bool)
    requires AllCons(s) && c in s.cons && p !in s.cons && ConnOf(s.d, s.d.consumer) == Some(c)
    requires s.d.deposit != [] && DeliveredTo(s.d, d', c, p, told)
    ensures AllCons(s.(d := d')) && TameCons(s, s.(d := d'))
  {
    var s' := s.(d := d');
    forall x | x in s'.cons
      ensures ConsInv(x, s'.cons[x], Mine(s'.d, x), Inbox(s', x))
      ensures TameEnd(s.cons[x], Mine(s.d, x), s'.cons[x], Mine(s'.d, x))
    {
      assert ConsInv(x, s.cons[x], Mine(s.d, x), Inbox(s, x));
      if x == c { DeliverConsEnd(c, s.cons[c], s.d.deposit, Inbox(s, c), told); }
    }
  }

  lemma DeliverProds(s: System, d': D.State, c: Conn, p: Conn, told: bool)
    requires AllProds(s) && Room(s) && c !in s.prods && ConnOf(s.d, s.d.producer) == Some(p)
    requires DeliveredTo(s.d, d', c, p, told)
    ensures AllProds(s.(d := d'))
  {
    var s' := s.(d := d');
    forall x | x in s'.prods ensures ProdInv(x, s'.prods[x], Waits(s'.d, x), WaitsScreen(s'.d, x), Inbox(s', x)) {
      assert ProdInv(x, s.prods[x], Waits(s.d, x), WaitsScreen(s.d, x), Inbox(s, x));
      if x == p { DeliverProdEnd(p, s.prods[p], Waits(s.d, p), WaitsScreen(s.d, p), Inbox(s, p), s.d.deposit); }
    }
  }

  /** What was delivered before is not the generation that is now deposited. */
  lemma DepositIsNew(s: System, c: Conn, fds: seq<Fd>)
    requires AllCons(s) && c in s.cons && Mine(s.d, c) != [] && Delivered(s, fds)
    ensures Later(fds, Mine(s.d, c)) && fds != Mine(s.d, c)
    ensures Mine(s.d, c) == DepositOf(c, s.cons[c].st.gen) && s.cons[c].st.gen >= 1
    ensures !Owed(s.cons[c], [])
  {
    assert ConsInv(c, s.cons[c], Mine(s.d, c), Inbox(s, c));
  }

  lemma DeliverDelivered(s: System, d': D.State, c: Conn, p: Conn, told: bool)
    requires AllCons(s) && AllDelivered(s) && c in s.cons && p in s.prods && p !in s.cons && c !in s.prods
    requires ConnOf(s.d, s.d.consumer) == Some(c)
    requires s.d.deposit != [] && DeliveredTo(s.d, d', c, p, told) && TameCons(s, s.(d := d'))
    ensures AllDelivered(s.(d := d'))
  {
    hide ProdInv;
    var s' := s.(d := d');
    DeliverConsEnd(c, s.cons[c], s.d.deposit, Inbox(s, c), told);
    assert ConsInv(c, s.cons[c], Mine(s.d, c), Inbox(s, c));
    assert Mine(s'.d, c) == [] && Delivered(s', s.d.deposit);
    forall x, i | x in s'.prods && 0 <= i < |Inbox(s', x)| && Inbox(s', x)[i].FdsReady?
      ensures Delivered(s', Inbox(s', x)[i].fds)
    {
      if x != p || i < |Inbox(s, p)| { assert Delivered(s, Inbox(s, x)[i].fds); }
    }
  }

  /** The new set is later than, and different from, everything in an old inbox. */
  ghost predicate NewTo(q: seq<Down>, fds: seq<Fd>) {
    forall i :: 0 <= i < |q| && q[i].FdsReady? ==> Later(q[i].fds, fds) && q[i].fds != fds
  }

  lemma DepositIsNewTo(s: System, c: Conn, p: Conn)
    requires AllCons(s) && AllDelivered(s) && c in s.cons && p in s.prods && Mine(s.d, c) != []
    ensures NewTo(Inbox(s, p), Mine(s.d, c))
  {
    forall i | 0 <= i < |Inbox(s, p)| && Inbox(s, p)[i].FdsReady?
      ensures Later(Inbox(s, p)[i].fds, Mine(s.d, c)) && Inbox(s, p)[i].fds != Mine(s.d, c)
    {
      assert Delivered(s, Inbox(s, p)[i].fds);
      DepositIsNew(s, c, Inbox(s, p)[i].fds);
    }
  }

  lemma AppendAscends(q: seq<Down>, fds: seq<Fd>)
    requires Ascending(q) && NewTo(q, fds)
    ensures Ascending(q + [FdsReady(fds)])
  {
  }

  lemma AppendDisjoint(q: seq<Down>, q': seq<Down>, fds: seq<Fd>)
    requires Disjoint(q, q') && NewTo(q', fds)
    ensures Disjoint(q + [FdsReady(fds)], q') && Disjoint(q', q + [FdsReady(fds)])
  {
  }

  lemma DeliverOrdered(down: map<Conn, seq<Down>>, down': map<Conn, seq<Down>>, prods: set<Conn>, p: Conn, fds: seq<Fd>)
    requires Ordered(down, prods) && p in prods
    requires forall x :: x in prods ==> Queue(down', x) == if x == p then Queue(down, p) + [FdsReady(fds)] else Queue(down, x)
    requires forall x :: x in prods ==> NewTo(Queue(down, x), fds)
    ensures Ordered(down', prods)
  {
    hide Ascending, Disjoint, NewTo;
    forall x | x in prods ensures Ascending(Queue(down', x)) {
      assert Ascending(Queue(down, x)) && NewTo(Queue(down, x), fds);
      AppendAscends(Queue(down, x), fds);
    }
    forall x, y | x in prods && y in prods && x != y ensures Disjoint(Queue(down', x), Queue(down', y)) {
      assert Disjoint(Queue(down, x), Queue(down, y)) && NewTo(Queue(down, x), fds) && NewTo(Queue(down, y), fds);
      if x == p { AppendDisjoint(Queue(down, x), Queue(down, y), fds); }
      if y == p { assert Disjoint(Queue(down, y), Queue(down, x)); AppendDisjoint(Queue(down, y), Queue(down, x), fds); }
    }
  }

  lemma DeliverHistory(s: System, d': D.State, c: Conn, p: Conn, told: bool)
    requires AllCons(s) && AllDelivered(s) && Ordered(s.d.down, s.prods.Keys)
    requires c in s.cons && p in s.prods && p !in s.cons && c !in s.prods && ConnOf(s.d, s.d.consumer) == Some(c)
    requires s.d.deposit != [] && DeliveredTo(s.d, d', c, p, told)
    ensures Ordered(d'.down, s.prods.Keys)
  {
    hide ConsInv, ProdInv;
    forall x | x in s.prods.Keys ensures NewTo(Queue(s.d.down, x), s.d.deposit) {
      DepositIsNewTo(s, c, x);
    }
    DeliverOrdered(s.d.down, d'.down, s.prods.Keys, p, s.d.deposit);
  }

  lemma DeliverKeeps(s: System, net: D.Net)
    requires Inv(s) && Room(s)
    ensures Inv(s.(d := D.Deliver(s.d, net)))
  {
    if |s.d.deposit| < DEPOSITED_FD_COUNT || !net.toProducer {
      WaitKeeps(s);
    } else {
      D.DeliverKeepsValid(s.d, net);
      var p := s.d.heap[s.d.producer.value];
      var c := s.d.heap[s.d.consumer.value];
      var d' := D.Deliver(s.d, net);
      DeliverShape(s.d, net, c, p);
      DeliverRoles(s, d', c, p, net.toConsumer);
      DeliverCons(s, d', c, p, net.toConsumer);
      DeliverProds(s, d', c, p, net.toConsumer);
      DeliverDelivered(s, d', c, p, net.toConsumer);
      DeliverHistory(s, d', c, p, net.toConsumer);
      FrameAllAgree(s, s.(d := d'));
    }
  }

  // ---- screen info ----

  function WithScreen(d: D.State, info: ScreenInfo, net: D.Net): D.State
    requires D.RolesLive(d)
  {
    var known := d.(screen := Some(info));
    if d.waitScreen && d.producer.Some? then D.Send(known, d.producer.value, Screen(info), net.toProducer).(waitScreen := false)
    else known
  }

  lemma GreetEnds(s: System, d': D.State, p: Conn, info: ScreenInfo, sent: bool)
    requires AllCons(s) && AllProds(s) && ConnOf(s.d, s.d.producer) == Some(p) && p in s.prods && p !in s.cons && s.d.waitScreen
    requires s.prods[p].read >= 1
    requires d' == s.d.(screen := Some(info), down := d'.down, waitScreen := false)
    requires forall x :: Queue(d'.down, x) == if x == p && sent then Queue(s.d.down, x) + [Screen(info)] else Queue(s.d.down, x)
    ensures AllCons(s.(d := d')) && AllProds(s.(d := d')) && TameCons(s, s.(d := d')) && NothingDelivered(s, s.(d := d'))
  {
    var s' := s.(d := d');
    forall x | x in s'.cons
      ensures ConsInv(x, s'.cons[x], Mine(s'.d, x), Inbox(s', x))
      ensures TameEnd(s.cons[x], Mine(s.d, x), s'.cons[x], Mine(s'.d, x))
    {
      assert ConsInv(x, s.cons[x], Mine(s.d, x), Inbox(s, x));
    }
    forall x | x in s'.prods
      ensures ProdInv(x, s'.prods[x], Waits(s'.d, x), WaitsScreen(s'.d, x), Inbox(s', x))
      ensures Inbox(s', x) == Inbox(s, x) || NoneReady(Inbox(s', x))
    {
      assert ProdInv(x, s.prods[x], Waits(s.d, x), WaitsScreen(s.d, x), Inbox(s, x));
    }
  }

  lemma ScreenShape(s: System, info: ScreenInfo, net: D.Net)
    requires D.Valid(s.d) && RolesInv(s)
    ensures var d' := WithScreen(s.d, info, net); D.Valid(d') && RolesInv(s.(d := d'))
    ensures !s.d.waitScreen ==> Quiet(s.d, WithScreen(s.d, info, net))
    ensures s.d.waitScreen ==> s.d.producer.Some? && s.d.producer.value in s.d.heap
  {
  }

  lemma ScreenGreets(s: System, p: Conn, info: ScreenInfo, net: D.Net)
    requires D.Valid(s.d) && s.d.waitScreen && ConnOf(s.d, s.d.producer) == Some(p)
    ensures var d' := WithScreen(s.d, info, net);
            && d' == s.d.(screen := Some(info), down := d'.down, waitScreen := false)
            && forall x :: Queue(d'.down, x) == if x == p && net.toProducer then Queue(s.d.down, x) + [Screen(info)] else Queue(s.d.down, x)
  {
  }

  lemma ScreenKeeps(s: System, info: ScreenInfo, net: D.Net)
    requires Inv(s)
    ensures Inv(s.(d := WithScreen(s.d, info, net)))
  {
    hide ConsInv, ProdInv, TameCons, NothingDelivered, Agrees, WithScreen;
    var d' := WithScreen(s.d, info, net);
    ScreenShape(s, info, net);
    if s.d.waitScreen {
      var p := s.d.heap[s.d.producer.value];
      ScreenGreets(s, p, info, net);
      GreetEnds(s, d', p, info, net.toProducer);
      FrameHistory(s, s.(d := d'));
    } else {
      QuietKeeps(s, d');
    }
  }

  // ---- serving a message ----

  lemma WaitingHasRoom(s: System)
    requires D.Valid(s.d) && RolesInv(s) && AllProds(s) && s.d.waitFds
    ensures Room(s)
  {
    var p := s.d.heap[s.d.producer.value];
    assert ProdInv(p, s.prods[p], Waits(s.d, p), WaitsScreen(s.d, p), Inbox(s, p));
  }

  function WithHello(d: D.State, fds: seq<Fd>): D.State {
    D.ClearDeposit(d).(deposit := fds)
  }

  /** The hello the daemon is about to serve is complete and finds no older deposit. */
  lemma HelloFacts(s: System, ptr: D.Addr)
    requires D.Valid(s.d) && RolesInv(s) && AllCons(s) && Some(ptr) == s.d.consumer
    requires var e := s.cons[s.d.heap[ptr]]; e.read < |e.st.up| && e.st.up[e.read].ConsumerHello?
    ensures var e := s.cons[s.d.heap[ptr]];
            |e.st.up[e.read].fds| == DEPOSITED_FD_COUNT && StoredFrom(s, s.d.heap[ptr], WithHello(s.d, e.st.up[e.read].fds))
  {
    var c := s.d.heap[ptr];
    assert ConsInv(c, s.cons[c], Mine(s.d, c), Inbox(s, c));
  }

  lemma ServeHello(s: System, ptr: D.Addr, fds: seq<Fd>, net: D.Net)
    requires Inv(s) && Some(ptr) == s.d.consumer
    requires var e := s.cons[s.d.heap[ptr]]; e.read < |e.st.up| && e.st.up[e.read] == ConsumerHello(fds)
    ensures |fds| == DEPOSITED_FD_COUNT
    ensures var s1 := Advance(s, s.d.heap[ptr]).(d := WithHello(s.d, fds));
            Inv(s1) && (s.d.waitFds ==> Inv(s1.(d := D.Deliver(s1.d, net))))
  {
    var c := s.d.heap[ptr];
    HelloFacts(s, ptr);
    StoreKeeps(s, c, WithHello(s.d, fds));
    var s1 := Advance(s, c).(d := WithHello(s.d, fds));
    if s.d.waitFds {
      WaitingHasRoom(s1);
      DeliverKeeps(s1, net);
    }
  }

  lemma ServeScreen(s: System, ptr: D.Addr, info: ScreenInfo, arrives: bool, net: D.Net)
    requires Inv(s) && Some(ptr) == s.d.consumer
    requires var e := s.cons[s.d.heap[ptr]]; e.read < |e.st.up|
    ensures var s1 := Advance(s, s.d.heap[ptr]);
            Inv(s1.(d := if arrives then WithScreen(s.d, info, net) else D.Drop(s.d, ptr)))
  {
    AdvanceConsKeeps(s, s.d.heap[ptr]);
    var s1 := Advance(s, s.d.heap[ptr]);
    if arrives { ScreenKeeps(s1, info, net); } else { DropKeeps(s1, ptr); }
  }

  lemma HandleSplits(d: D.State, ptr: D.Addr, m: Up, arrives: bool, net: D.Net)
    requires D.Valid(d) && ptr in d.heap
    ensures Some(ptr) == d.consumer && m.ConsumerHello? && |m.fds| == DEPOSITED_FD_COUNT ==>
              D.Handle(d, ptr, Message(m, arrives), net)
              == if d.waitFds then D.Deliver(WithHello(d, m.fds), net) else WithHello(d, m.fds)
    ensures Some(ptr) == d.consumer && m.ScreenUp? ==>
              D.Handle(d, ptr, Message(m, arrives), net) == if arrives then WithScreen(d, m.info, net) else D.Drop(d, ptr)
    ensures Some(ptr) == d.producer && m.PickupRequest? ==> D.Handle(d, ptr, Message(m, arrives), net) == D.Deliver(d, net)
  {
  }

  lemma ServeConsumer(s: System, ptr: D.Addr, m: Up, arrives: bool, net: D.Net)
    requires Inv(s) && Some(ptr) == s.d.consumer && (m.ConsumerHello? || m.ScreenUp?)
    requires var e := s.cons[s.d.heap[ptr]]; e.read < |e.st.up| && m == e.st.up[e.read]
    ensures Inv(Advance(s, s.d.heap[ptr]).(d := D.Handle(s.d, ptr, Message(m, arrives), net)))
  {
    if m.ConsumerHello? {
      ServeHello(s, ptr, m.fds, net);
      HandleSplits(s.d, ptr, m, arrives, net);
    } else {
      ServeScreen(s, ptr, m.info, arrives, net);
      HandleSplits(s.d, ptr, m, arrives, net);
    }
  }

  lemma AskingMakesRoom(s: System, p: Conn)
    requires D.Valid(s.d) && RolesInv(s) && AllProds(s) && ConnOf(s.d, s.d.producer) == Some(p) && p in s.prods
    requires s.prods[p].read < |s.prods[p].up|
    ensures p !in s.cons && Room(Advance(s, p)) && s.prods[p].up[s.prods[p].read].PickupRequest?
  {
    assert ProdInv(p, s.prods[p], Waits(s.d, p), WaitsScreen(s.d, p), Inbox(s, p));
  }

  lemma ServeProducer(s: System, ptr: D.Addr, net: D.Net)
    requires Inv(s) && Some(ptr) == s.d.producer
    requires var e := s.prods[s.d.heap[ptr]]; e.read < |e.up|
    ensures Inv(Advance(s, s.d.heap[ptr]).(d := D.Deliver(s.d, net)))
  {
    var p := s.d.heap[ptr];
    AskingMakesRoom(s, p);
    AdvanceKeeps(s, p);
    DeliverKeeps(Advance(s, p), net);
  }

  // ---- accepting a connection ----

  lemma EvictKeeps(s: System, role: Option<D.Addr>)
    requires Inv(s) && (role.Some? ==> role == s.d.consumer || role == s.d.producer)
    ensures Inv(s.(d := D.Evict(s.d, role)))
  {
    if role.Some? { DropKeeps(s, role.value); }
  }

  /** Seating the client of a connection the daemon has just accepted. */
  lemma SeatValid(d: D.State, p: D.Addr, c: Conn, deposit: seq<Fd>)
    requires D.Valid(d) && p !in d.heap && c !in d.heap.Values && |deposit| <= DEPOSITED_FD_COUNT
    ensures d.consumer.None? ==> D.Valid(d.(heap := d.heap[p := c], consumer := Some(p), deposit := deposit, closed := d.closed + d.deposit))
    ensures d.producer.None? ==> D.Valid(d.(heap := d.heap[p := c], producer := Some(p), waitScreen := false, waitFds := false))
  {
    if d.consumer.None? { D.SeatClient(d.producer, d.heap, d.watched, p, c); }
    if d.producer.None? { D.SeatClient(d.consumer, d.heap, d.watched, p, c); }
  }

  lemma FreshConn(s: System, c: Conn)
    requires D.Valid(s.d) && RolesInv(s) && ReadSoFar(s, c) == 0 && (c in s.cons || c in s.prods)
    ensures c !in s.d.heap.Values
  {
  }

  function ConsumerSeat(d: D.State, p: D.Addr, c: Conn, fds: seq<Fd>): D.State {
    D.ClearDeposit(d.(heap := d.heap[p := c], consumer := Some(p))).(deposit := fds)
  }

  lemma SeatConsumerKeeps(s: System, p: D.Addr, c: Conn, net: D.Net)
    requires Inv(s) && s.d.consumer.None? && c in s.cons && s.cons[c].read == 0 && |s.cons[c].st.up| > 0 && p !in s.d.heap
    requires c !in s.d.heap.Values && s.cons[c].st.up[0].ConsumerHello? && |s.cons[c].st.up[0].fds| == DEPOSITED_FD_COUNT
    ensures var s1 := Advance(s, c).(d := ConsumerSeat(s.d, p, c, s.cons[c].st.up[0].fds));
            Inv(s1) && (s.d.waitFds ==> Inv(s1.(d := D.Deliver(s1.d, net))))
  {
    var d1 := ConsumerSeat(s.d, p, c, s.cons[c].st.up[0].fds);
    SeatValid(s.d, p, c, s.cons[c].st.up[0].fds);
    assert StoredFrom(s, c, d1);
    StoreKeeps(s, c, d1);
    var s1 := Advance(s, c).(d := d1);
    if s.d.waitFds {
      WaitingHasRoom(s1);
      DeliverKeeps(s1, net);
    }
  }

  lemma WatchKeeps(s: System, c: Conn, p: D.Addr, ok: bool)
    requires Inv(s) && p in s.d.heap && s.d.heap[p] == c
    ensures Inv(s.(d := D.Watch(s.d, c, p, ok)))
  {
    var d' := D.Watch(s.d, c, p, ok);
    WatchValid(s.d, c, p, ok);
    QuietKeeps(s, d');
  }

  lemma WatchValid(d: D.State, c: Conn, p: D.Addr, ok: bool)
    requires D.Valid(d) && p in d.heap && d.heap[p] == c
    ensures D.Valid(D.Watch(d, c, p, ok)) && Quiet(d, D.Watch(d, c, p, ok))
  {
  }

  lemma FirstHello(s: System, c: Conn)
    requires AllCons(s) && c in s.cons && s.cons[c].read == 0
    ensures |s.cons[c].st.up| > 0 && s.cons[c].st.up[0].ConsumerHello? && |s.cons[c].st.up[0].fds| == DEPOSITED_FD_COUNT
  {
    assert ConsInv(c, s.cons[c], Mine(s.d, c), Inbox(s, c));
  }

  lemma AdmitConsumerSplits(d: D.State, p: D.Addr, a: D.Arrival)
    requires D.Valid(d) && p !in d.heap
    ensures var d1 := ConsumerSeat(D.Evict(d, d.consumer), p, a.conn, D.Five(a.carried));
            && D.Evict(d, d.consumer).consumer.None? && p !in D.Evict(d, d.consumer).heap
            && D.Evict(d, d.consumer).heap.Values <= d.heap.Values
            && D.RolesLive(d1) && D.Evict(d, d.consumer).waitFds == d.waitFds == d1.waitFds
            && D.AdmitConsumer(d, p, a) == if d.waitFds then D.Deliver(d1, a.net) else d1
    ensures var d' := D.AdmitConsumer(d, p, a); p in d'.heap && d'.heap[p] == a.conn
  {
    D.EvictKeepsValid(d, d.consumer);
  }

  lemma AdvanceIgnoresDaemon(s: System, c: Conn, d1: D.State, d2: D.State)
    ensures Advance(s.(d := d1), c).(d := d2) == Advance(s, c).(d := d2)
  {
  }

  lemma AdmitConsumerKeeps(s: System, p: D.Addr, c: Conn, a: D.Arrival)
    requires Inv(s) && p !in s.d.heap && c in s.cons && s.cons[c].read == 0 && |s.cons[c].st.up| > 0
    requires a.conn == c && s.cons[c].st.up[0].ConsumerHello? && a.carried == s.cons[c].st.up[0].fds
    requires |a.carried| == DEPOSITED_FD_COUNT && c !in s.d.heap.Values
    ensures Inv(Advance(s, c).(d := D.AdmitConsumer(s.d, p, a)))
  {
    AdmitConsumerSplits(s.d, p, a);
    EvictKeeps(s, s.d.consumer);
    var d0 := D.Evict(s.d, s.d.consumer);
    SeatConsumerKeeps(s.(d := d0), p, c, a.net);
    AdvanceIgnoresDaemon(s, c, d0, D.AdmitConsumer(s.d, p, a));
  }

  lemma AcceptConsumer(s: System, t: Step)
    requires Inv(s) && t.Accept? && t.c in s.cons && Enabled(s, t)
    ensures Inv(Advance(s, t.c).(d := D.Admit(s.d, ArrivalOf(s, t))))
  {
    var a := ArrivalOf(s, t);
    FirstHello(s, t.c);
    FreshConn(s, t.c);
    if D.Registers(s.d, a) {
      var p := D.Calloc(s.d.heap, a.block).value;
      AdmitConsumerKeeps(s, p, t.c, a);
      AdmitConsumerSplits(s.d, p, a);
      WatchKeeps(Advance(s, t.c).(d := D.AdmitConsumer(s.d, p, a)), t.c, p, a.watched);
    } else {
      AdvanceKeeps(s, t.c);
    }
  }

  // A producer is seated with nothing asked for and nothing received.

  function ProducerSeat(d: D.State, p: D.Addr, c: Conn): D.State {
    d.(heap := d.heap[p := c], producer := Some(p), waitScreen := false, waitFds := false)
  }

  lemma SeatProducerRoles(s: System, p: D.Addr, c: Conn)
    requires D.Valid(s.d) && RolesInv(s) && s.d.producer.None? && c in s.prods && p !in s.d.heap
    ensures RolesInv(Advance(s, c).(d := ProducerSeat(s.d, p, c)))
    ensures Quiet(s.d, ProducerSeat(s.d, p, c))
  {
    var d' := ProducerSeat(s.d, p, c);
    assert forall x :: Mine(d', x) == Mine(s.d, x);
  }

  lemma SeatProducerKeeps(s: System, p: D.Addr, c: Conn)
    requires Inv(s) && s.d.producer.None? && c in s.prods && s.prods[c].read == 0 && |s.prods[c].up| > 0
    requires p !in s.d.heap && c !in s.d.heap.Values && c !in s.cons
    ensures Inv(Advance(s, c).(d := ProducerSeat(s.d, p, c)))
  {
    AdvanceKeeps(s, c);
    SeatValid(s.d, p, c, []);
    SeatProducerRoles(s, p, c);
    QuietKeeps(Advance(s, c), ProducerSeat(s.d, p, c));
  }

  lemma GreetNewEnds(s: System, d': D.State, p: Conn, sent: bool)
    requires AllCons(s) && AllProds(s) && ConnOf(s.d, s.d.producer) == Some(p) && p in s.prods && p !in s.cons
    requires Inbox(s, p) == [] && s.prods[p].read >= 1 && !s.d.waitScreen && !s.d.waitFds
    requires d' == s.d.(down := d'.down, waitScreen := d'.waitScreen) && !(sent && d'.waitScreen)
    requires forall x :: GreetedAlone(s.d.down, d'.down, x, p, sent)
    ensures AllCons(s.(d := d')) && AllProds(s.(d := d')) && TameCons(s, s.(d := d')) && NothingDelivered(s, s.(d := d'))
  {
    var s' := s.(d := d');
    forall x | x in s'.cons
      ensures ConsInv(x, s'.cons[x], Mine(s'.d, x), Inbox(s', x))
      ensures TameEnd(s.cons[x], Mine(s.d, x), s'.cons[x], Mine(s'.d, x))
    {
      assert ConsInv(x, s.cons[x], Mine(s.d, x), Inbox(s, x)) && GreetedAlone(s.d.down, d'.down, x, p, sent);
    }
    forall x | x in s'.prods
      ensures ProdInv(x, s'.prods[x], Waits(s'.d, x), WaitsScreen(s'.d, x), Inbox(s', x))
      ensures Inbox(s', x) == Inbox(s, x) || NoneReady(Inbox(s', x))
    {
      assert ProdInv(x, s.prods[x], Waits(s.d, x), WaitsScreen(s.d, x), Inbox(s, x));
      assert GreetedAlone(s.d.down, d'.down, x, p, sent);
    }
  }

  lemma FirstMessage(s: System, p: Conn)
    requires AllProds(s) && p in s.prods && s.prods[p].read == 0
    ensures |s.prods[p].up| > 0 && s.prods[p].up[0].ProducerHello? && Inbox(s, p) == []
  {
    assert ProdInv(p, s.prods[p], Waits(s.d, p), WaitsScreen(s.d, p), Inbox(s, p));
  }

  lemma AdmitProducerSplits(d: D.State, p: D.Addr, a: D.Arrival)
    requires D.Valid(d) && p !in d.heap
    ensures var d0 := D.Evict(d, d.producer);
            var d1 := ProducerSeat(d0, p, a.conn);
            && d0.producer.None? && p !in d0.heap && d0.heap.Values <= d.heap.Values && d0.down == d.down
            && d1.screen == d.screen
            && D.AdmitProducer(d, p, a) == Greet(d1, p, a.net.toProducer)
    ensures var d' := D.AdmitProducer(d, p, a); p in d'.heap && d'.heap[p] == a.conn
  {
    D.EvictKeepsValid(d, d.producer);
  }

  function Greet(d: D.State, p: D.Addr, ok: bool): D.State
    requires p in d.heap
  {
    if d.screen.Some? then D.Send(d, p, Screen(d.screen.value), ok) else d.(waitScreen := true)
  }

  lemma GreetNewRoles(s: System, p: D.Addr, ok: bool)
    requires D.Valid(s.d) && RolesInv(s) && s.d.producer == Some(p) && p in s.d.heap && !s.d.waitScreen
    ensures D.Valid(Greet(s.d, p, ok)) && RolesInv(s.(d := Greet(s.d, p, ok)))
    ensures s.d.heap[p] in s.prods && s.d.heap[p] !in s.cons && s.prods[s.d.heap[p]].read >= 1
  {
  }

  lemma GreetShape(d: D.State, p: D.Addr, ok: bool)
    requires p in d.heap && Queue(d.down, d.heap[p]) == [] && !d.waitScreen
    ensures var d', sent := Greet(d, p, ok), d.screen.Some? && ok;
            && d' == d.(down := d'.down, waitScreen := d'.waitScreen) && !(sent && d'.waitScreen)
            && forall x :: GreetedAlone(d.down, d'.down, x, d.heap[p], sent)
  {
  }

  /** Connection p got its screen info as its first message, if it was sent; others got nothing. */
  ghost predicate GreetedAlone(down: map<Conn, seq<Down>>, down': map<Conn, seq<Down>>, x: Conn, p: Conn, sent: bool) {
    if x == p && sent then |Queue(down', x)| == 1 && Queue(down', x)[0].Screen? else Queue(down', x) == Queue(down, x)
  }

  lemma GreetNewKeeps(s: System, p: D.Addr, c: Conn, ok: bool)
    requires Inv(s) && s.d.producer == Some(p) && p in s.d.heap && s.d.heap[p] == c && Inbox(s, c) == []
    requires !s.d.waitScreen && !s.d.waitFds
    ensures Inv(s.(d := Greet(s.d, p, ok)))
  {
    var s' := s.(d := Greet(s.d, p, ok));
    GreetNewRoles(s, p, ok);
    GreetShape(s.d, p, ok);
    GreetNewEnds(s, s'.d, c, s.d.screen.Some? && ok);
    FrameHistory(s, s');
  }

  lemma AdmitProducerKeeps(s: System, p: D.Addr, c: Conn, a: D.Arrival)
    requires Inv(s) && p !in s.d.heap && c in s.prods && c !in s.cons && s.prods[c].read == 0 && |s.prods[c].up| > 0
    requires a.conn == c && c !in s.d.heap.Values && Inbox(s, c) == []
    ensures Inv(Advance(s, c).(d := D.AdmitProducer(s.d, p, a)))
  {
    AdmitProducerSplits(s.d, p, a);
    EvictKeeps(s, s.d.producer);
    var d0 := D.Evict(s.d, s.d.producer);
    SeatProducerKeeps(s.(d := d0), p, c);
    var d1 := ProducerSeat(d0, p, c);
    AdvanceIgnoresDaemon(s, c, d0, d1);
    GreetNewKeeps(Advance(s, c).(d := d1), p, c, a.net.toProducer);
  }

  lemma AcceptProducer(s: System, t: Step)
    requires Inv(s) && t.Accept? && t.c in s.prods && t.c !in s.cons && Enabled(s, t)
    ensures Inv(Advance(s, t.c).(d := D.Admit(s.d, ArrivalOf(s, t))))
  {
    hide ConsInv, ProdInv, D.AdmitProducer;
    var a := ArrivalOf(s, t);
    FirstMessage(s, t.c);
    FreshConn(s, t.c);
    if D.Registers(s.d, a) {
      var p := D.Calloc(s.d.heap, a.block).value;
      AdmitProducerKeeps(s, p, t.c, a);
      AdmitProducerSplits(s.d, p, a);
      WatchKeeps(Advance(s, t.c).(d := D.AdmitProducer(s.d, p, a)), t.c, p, a.watched);
    } else {
      AdvanceKeeps(s, t.c);
    }
  }

  // ---- consumer steps ----

  lemma HellosAppend(up: seq<Up>, m: Up, i: nat)
    requires i <= |up|
    ensures Hellos((up + [m])[i..]) == Hellos(up[i..]) + OneIf(m.ConsumerHello?)
    decreases |up| - i
  {
    HellosStep(up + [m], i);
    if i == |up| {
      assert (up + [m])[i + 1..] == [] && up[i..] == [];
    } else {
      HellosStep(up, i);
      HellosAppend(up, m, i + 1);
    }
  }

  lemma NoHellos(up: seq<Up>, i: nat)
    requires i <= |up| && Hellos(up[i..]) == 0
    ensures forall j :: i <= j < |up| ==> !up[j].ConsumerHello?
    decreases |up| - i
  {
    if i < |up| {
      HellosStep(up, i);
      NoHellos(up, i + 1);
    }
  }

  /** The move of consumer c from e to e' keeps the invariant and disturbs nobody. */
  ghost predicate GoodMove(c: Conn, e: ConsEnd, e': ConsEnd, mine: seq<Fd>, q: seq<Down>) {
    e.read == e'.read && ConsInv(c, e', mine, q) && TameEnd(e, mine, e', mine)
  }

  /** st' is st after tearing the session down: a new generation, deposited if the hello went out. */
  ghost predicate NextGeneration(st: C.State, st': C.State) {
    && st'.conn == st.conn && st'.fallback && st'.gen == st.gen + 1 && st'.readies == st.readies
    && C.Valid(st') && C.Current(st') == C.FreshLink
    && (st'.up == st.up || st'.up == st.up + [ConsumerHello(DepositOf(st.conn, st.gen + 1))])
  }

  lemma NextGenerationMoves(c: Conn, e: ConsEnd, st': C.State, mine: seq<Fd>, q: seq<Down>)
    requires ConsInv(c, e, mine, q) && !e.st.fallback && NextGeneration(e.st, st')
    ensures GoodMove(c, e, e.(st := st'), mine, q)
  {
    var m := ConsumerHello(DepositOf(c, e.st.gen + 1));
    NoHellos(e.st.up, e.read);
    HellosAppend(e.st.up, m, e.read);
    HellosAppend(e.st.up, m, 0);
    assert e.st.up[0..] == e.st.up && (e.st.up + [m])[0..] == e.st.up + [m];
  }

  lemma FallMoves(c: Conn, e: ConsEnd, mine: seq<Fd>, q: seq<Down>, h: C.HelloOutcome)
    requires ConsInv(c, e, mine, q)
    ensures GoodMove(c, e, e.(st := C.EnterFallback(e.st, h)), mine, q)
  {
    if !e.st.fallback {
      C.FallKeepsValid(e.st, h);
      NextGenerationMoves(c, e, C.EnterFallback(e.st, h), mine, q);
    }
  }

  /** Consuming the announcement leaves fallback; nothing has been pushed yet. */
  lemma ExitMoves(c: Conn, e: ConsEnd, mine: seq<Fd>, q: seq<Down>)
    requires ConsInv(c, e, mine, q) && e.st.fallback && e.seen < |q|
    ensures q[e.seen].Announce? && q[e.seen].delivered == DepositOf(c, e.st.gen) && e.seen + 1 == |q|
    ensures C.Valid(e.st) && C.Current(e.st).bufs == []
    ensures GoodMove(c, e, e.(st := e.st.(fallback := false, readies := e.st.readies + 1), seen := e.seen + 1), mine, q)
  {
  }

  lemma PushMoves(c: Conn, e: ConsEnd, mine: seq<Fd>, q: seq<Down>, ok: bool, h: C.HelloOutcome)
    requires ConsInv(c, e, mine, q) && !e.st.fallback && C.Current(e.st).bufs == []
    ensures GoodMove(c, e, e.(st := C.PushStored(e.st, ok, h)), mine, q)
  {
    FallMoves(c, e, mine, q, h);
  }

  lemma IndexMoves(c: Conn, e: ConsEnd, mine: seq<Fd>, q: seq<Down>, idx: int)
    requires ConsInv(c, e, mine, q)
    ensures GoodMove(c, e, e.(st := C.Select(e.st, idx)), mine, q)
  {
  }

  lemma AwaitMoves(c: Conn, e: ConsEnd, mine: seq<Fd>, q: seq<Down>, ev: C.FenceEvent, h: C.HelloOutcome)
    requires ConsInv(c, e, mine, q)
    ensures GoodMove(c, e, e.(st := C.Refresh(e.st, ev, h)), mine, q)
  {
    FallMoves(c, e, mine, q, h);
    if ev.EndOfFile? { FallMoves(c, e.(st := e.st.(pending := false)), mine, q, h); }
  }

  lemma ScreenMoves(c: Conn, e: ConsEnd, mine: seq<Fd>, q: seq<Down>, info: ScreenInfo)
    requires ConsInv(c, e, mine, q)
    ensures GoodMove(c, e, e.(st := e.st.(up := e.st.up + [ScreenUp(info)])), mine, q)
  {
    HellosAppend(e.st.up, ScreenUp(info), e.read);
    HellosAppend(e.st.up, ScreenUp(info), 0);
    assert e.st.up[0..] == e.st.up && (e.st.up + [ScreenUp(info)])[0..] == e.st.up + [ScreenUp(info)];
  }

  /** Storing a set while connected is over with the session: the generation moves on. */
  lemma SetMoves(c: Conn, e: ConsEnd, mine: seq<Fd>, q: seq<Down>, bufs: seq<C.Buf>, ok: bool, h: C.HelloOutcome)
    requires ConsInv(c, e, mine, q)
    ensures GoodMove(c, e, e.(st := C.PushDmabufs(e.st, bufs, ok, h)), mine, q)
  {
    C.PushKeepsValid(e.st, bufs, ok, h);
    if !e.st.fallback {
      SetEndsSession(e.st, bufs, ok, h);
      NextGenerationMoves(c, e, C.PushDmabufs(e.st, bufs, ok, h), mine, q);
    }
  }

  lemma SetEndsSession(st: C.State, bufs: seq<C.Buf>, ok: bool, h: C.HelloOutcome)
    requires C.Valid(st) && !st.fallback
    ensures NextGeneration(st, C.PushDmabufs(st, bufs, ok, h))
  {
    C.PushKeepsValid(st, bufs, ok, h);
  }

  lemma MoveKeeps(s: System, c: Conn, e': ConsEnd)
    requires Inv(s) && c in s.cons && GoodMove(c, s.cons[c], e', Mine(s.d, c), Inbox(s, c))
    ensures Inv(s.(cons := s.cons[c := e']))
  {
    ConsumerMoves(s, c, e');
  }

  lemma MovesCompose(c: Conn, e: ConsEnd, e1: ConsEnd, e2: ConsEnd, mine: seq<Fd>, q: seq<Down>)
    requires GoodMove(c, e, e1, mine, q) && GoodMove(c, e1, e2, mine, q)
    ensures GoodMove(c, e, e2, mine, q)
  {
  }

  lemma SelectMoves(c: Conn, e: ConsEnd, mine: seq<Fd>, q: seq<Down>, a: Option<Down>, idx: int, ok: bool, h: C.HelloOutcome)
    requires ConsInv(c, e, mine, q)
    requires a.Some? ==> e.st.fallback && e.seen < |q| && a.value == q[e.seen]
    ensures GoodMove(c, e, SelectEnd(e, a, idx, ok, h), mine, q)
  {
    hide ConsInv;
    if a.Some? {
      ExitMoves(c, e, mine, q);
      var e1 := e.(st := e.st.(fallback := false, readies := e.st.readies + 1), seen := e.seen + 1);
      PushMoves(c, e1, mine, q, ok, h);
      var e2 := e1.(st := C.PushStored(e1.st, ok, h));
      IndexMoves(c, e2, mine, q, idx);
      var e3 := e2.(st := C.Select(e2.st, idx));
      MovesCompose(c, e, e1, e2, mine, q);
      MovesCompose(c, e, e2, e3, mine, q);
    } else {
      IndexMoves(c, e, mine, q, idx);
    }
  }

  lemma SelectKeeps(s: System, c: Conn, idx: int, look: bool, ok: bool, h: C.HelloOutcome)
    requires Inv(s) && c in s.cons && s.cons[c].st.gen in s.cons[c].st.links
    ensures Inv(s.(cons := s.cons[c := SelectEnd(s.cons[c], Announcement(s, c, look), idx, ok, h)]))
  {
    SelectMoves(c, s.cons[c], Mine(s.d, c), Inbox(s, c), Announcement(s, c, look), idx, ok, h);
    MoveKeeps(s, c, SelectEnd(s.cons[c], Announcement(s, c, look), idx, ok, h));
  }

  // ---- producer steps ----

  lemma GreetedEnd(p: Conn, e: ProdEnd, w: bool, ws: bool, q: seq<Down>)
    requires ProdInv(p, e, w, ws, q) && e.phase.Greeting? && e.seen < |q|
    ensures ProdInv(p, GreetingEnd(e, q[e.seen]), w, ws, q) && !GreetingEnd(e, q[e.seen]).phase.Connected?
  {
  }

  lemma AskEnd(p: Conn, e: ProdEnd, w: bool, ws: bool, q: seq<Down>)
    requires ProdInv(p, e, w, ws, q) && e.phase.Idle?
    ensures ProdInv(p, e.(phase := AwaitFds, up := e.up + [PickupRequest]), w, ws, q)
  {
  }

  lemma GiveUpEnd(p: Conn, e: ProdEnd, w: bool, ws: bool, q: seq<Down>)
    requires ProdInv(p, e, w, ws, q) && !e.phase.Greeting? && !e.phase.Failed?
    ensures ProdInv(p, e.(phase := Idle, ctx := P.Release(e.ctx.(fallback := true))), w, ws, q)
  {
  }

  lemma ReadFdsKeepsEnd(p: Conn, e: ProdEnd, w: bool, ws: bool, q: seq<Down>, mapOk: bool)
    requires ProdInv(p, e, w, ws, q) && e.phase.AwaitFds? && e.seen < |q| && |q[e.seen].fds| == DEPOSITED_FD_COUNT
    ensures ProdInv(p, ReadFdsEnd(e, q[e.seen], mapOk), w, ws, q)
    ensures !ReadFdsEnd(e, q[e.seen], mapOk).phase.Connected?
  {
  }

  lemma ReadBufsKeepsEnd(p: Conn, e: ProdEnd, w: bool, ws: bool, q: seq<Down>, bufs: seq<C.Buf>, infosArrive: bool)
    requires ProdInv(p, e, w, ws, q) && e.phase.AwaitBufs?
    ensures var e' := ReadBufsEnd(e, bufs, infosArrive);
            && ProdInv(p, e', w, ws, q)
            && (e'.phase.Connected? ==> e'.installs == e.installs && e'.ctx.dmabufs == Fds(bufs) && e'.ctx.infos == Infos(bufs))
  {
  }

  lemma ProducerIs(s: System, p: Conn)
    requires AllProds(s) && p in s.prods
    ensures ProdInv(p, s.prods[p], Waits(s.d, p), WaitsScreen(s.d, p), Inbox(s, p))
  {
  }

  lemma GiveUpKeeps(s: System, p: Conn)
    requires Inv(s) && p in s.prods && !s.prods[p].phase.Greeting? && !s.prods[p].phase.Failed?
    ensures Inv(WithProd(s, p, s.prods[p].(phase := Idle, ctx := P.Release(s.prods[p].ctx.(fallback := true)))))
  {
    ProducerIs(s, p);
    GiveUpEnd(p, s.prods[p], Waits(s.d, p), WaitsScreen(s.d, p), Inbox(s, p));
    ProducerMoves(s, p, s.prods[p].(phase := Idle, ctx := P.Release(s.prods[p].ctx.(fallback := true))));
  }

  lemma InboxSetsAreWhole(s: System, p: Conn)
    requires AllProds(s) && AllDelivered(s) && p in s.prods && s.prods[p].phase.AwaitFds? && s.prods[p].seen < |Inbox(s, p)|
    ensures Inbox(s, p)[s.prods[p].seen].FdsReady? && |Inbox(s, p)[s.prods[p].seen].fds| == DEPOSITED_FD_COUNT
  {
    ProducerIs(s, p);
    assert Inbox(s, p)[s.prods[p].seen].FdsReady?;
    assert Delivered(s, Inbox(s, p)[s.prods[p].seen].fds);
  }

  lemma ReadFdsKeeps(s: System, p: Conn, mapOk: bool)
    requires Inv(s) && p in s.prods && s.prods[p].phase.AwaitFds? && s.prods[p].seen < |Inbox(s, p)|
    ensures Inv(WithProd(s, p, ReadFdsEnd(s.prods[p], Inbox(s, p)[s.prods[p].seen], mapOk)))
  {
    ProducerIs(s, p);
    InboxSetsAreWhole(s, p);
    ReadFdsKeepsEnd(p, s.prods[p], Waits(s.d, p), WaitsScreen(s.d, p), Inbox(s, p), mapOk);
    ProducerMoves(s, p, ReadFdsEnd(s.prods[p], Inbox(s, p)[s.prods[p].seen], mapOk));
  }

  /** Reading the buffer set off the data socket. */
  lemma ReadBufsAgrees(s: System, p: Conn, infosArrive: bool)
    requires AllProds(s) && AllCons(s) && p in s.prods && s.prods[p].phase.AwaitBufs? && s.prods[p].installs != [] && SomeBufs(s, p)
    ensures var e := s.prods[p];
            var (c, g) := Origin(e.installs[|e.installs| - 1]);
            var e' := ReadBufsEnd(e, s.cons[c].st.links[g].bufs[0], infosArrive);
            ProdInv(p, e', Waits(s.d, p), WaitsScreen(s.d, p), Inbox(s, p)) && Agrees(s, e')
  {
    var e := s.prods[p];
    var (c, g) := Origin(e.installs[|e.installs| - 1]);
    ProducerIs(s, p);
    assert ConsInv(c, s.cons[c], Mine(s.d, c), Inbox(s, c));
    ReadBufsKeepsEnd(p, e, Waits(s.d, p), WaitsScreen(s.d, p), Inbox(s, p), s.cons[c].st.links[g].bufs[0], infosArrive);
  }

  lemma PopMoves(c: Conn, e: ConsEnd, mine: seq<Fd>, q: seq<Down>, g: nat)
    requires ConsInv(c, e, mine, q) && g in e.st.links && e.st.links[g].bufs != []
    ensures var l := e.st.links[g];
            GoodMove(c, e, e.(st := e.st.(links := e.st.links[g := l.(bufs := l.bufs[1..])])), mine, q)
  {
  }

  lemma ReadBufsKeeps(s: System, p: Conn, infosArrive: bool)
    requires Inv(s) && Enabled(s, ReadBufs(p, infosArrive))
    ensures Inv(Do(s, ReadBufs(p, infosArrive)))
  {
    hide ConsInv, ProdInv, TameEnd, Agrees;
    var e := s.prods[p];
    var (c, g) := Origin(e.installs[|e.installs| - 1]);
    var l := s.cons[c].st.links[g];
    var e' := ReadBufsEnd(e, l.bufs[0], infosArrive);
    ReadBufsAgrees(s, p, infosArrive);
    ProducerMoves(s, p, e');
    var s1 := WithProd(s, p, e');
    PopMoves(c, s.cons[c], Mine(s.d, c), Inbox(s, c), g);
    MoveKeeps(s1, c, s.cons[c].(st := s.cons[c].st.(links := s.cons[c].st.links[g := l.(bufs := l.bufs[1..])])));
  }

  // ---- every step ----

  lemma ServeKeeps(s: System, ptr: D.Addr, arrives: bool, net: D.Net)
    requires Inv(s) && Enabled(s, Serve(ptr, arrives, net))
    ensures Inv(Do(s, Serve(ptr, arrives, net)))
  {
    var c := s.d.heap[ptr];
    if Some(ptr) == s.d.consumer {
      ConsumerSays(s, c);
      ServeConsumer(s, ptr, s.cons[c].st.up[s.cons[c].read], arrives, net);
    } else {
      AskingMakesRoom(s, c);
      ServeProducer(s, ptr, net);
      HandleSplits(s.d, ptr, s.prods[c].up[s.prods[c].read], arrives, net);
    }
  }

  lemma ConsumerSays(s: System, c: Conn)
    requires AllCons(s) && c in s.cons && s.cons[c].read < |s.cons[c].st.up|
    ensures s.cons[c].st.up[s.cons[c].read].ConsumerHello? || s.cons[c].st.up[s.cons[c].read].ScreenUp?
  {
    assert ConsInv(c, s.cons[c], Mine(s.d, c), Inbox(s, c));
  }

  lemma ConsumerStepKeeps(s: System, t: Step)
    requires Inv(s) && Enabled(s, t)
    requires t.AwaitFrame? || t.PushSet? || t.ConsumerFails? || t.SendScreen?
    ensures Inv(Do(s, t))
  {
    hide ConsInv, ProdInv, GoodMove;
    match t
    case AwaitFrame(c, e, h) =>
      AwaitMoves(c, s.cons[c], Mine(s.d, c), Inbox(s, c), e, h);
      MoveKeeps(s, c, s.cons[c].(st := C.Refresh(s.cons[c].st, e, h)));
    case PushSet(c, bufs, ok, h) =>
      SetMoves(c, s.cons[c], Mine(s.d, c), Inbox(s, c), bufs, ok, h);
      MoveKeeps(s, c, s.cons[c].(st := C.PushDmabufs(s.cons[c].st, bufs, ok, h)));
    case ConsumerFails(c, h) =>
      FallMoves(c, s.cons[c], Mine(s.d, c), Inbox(s, c), h);
      MoveKeeps(s, c, s.cons[c].(st := C.EnterFallback(s.cons[c].st, h)));
    case SendScreen(c, info) =>
      ScreenMoves(c, s.cons[c], Mine(s.d, c), Inbox(s, c), info);
      MoveKeeps(s, c, s.cons[c].(st := s.cons[c].st.(up := s.cons[c].st.up + [ScreenUp(info)])));
  }

  lemma ReadGreetingKeeps(s: System, p: Conn)
    requires Inv(s) && p in s.prods && s.prods[p].phase.Greeting? && s.prods[p].seen < |Inbox(s, p)|
    ensures Inv(WithProd(s, p, GreetingEnd(s.prods[p], Inbox(s, p)[s.prods[p].seen])))
  {
    GreetedEnd(p, s.prods[p], Waits(s.d, p), WaitsScreen(s.d, p), Inbox(s, p));
    ProducerMoves(s, p, GreetingEnd(s.prods[p], Inbox(s, p)[s.prods[p].seen]));
  }

  lemma SendPickupKeeps(s: System, p: Conn)
    requires Inv(s) && Enabled(s, SendPickup(p))
    ensures Inv(Do(s, SendPickup(p)))
  {
    AskEnd(p, s.prods[p], Waits(s.d, p), WaitsScreen(s.d, p), Inbox(s, p));
    ProducerMoves(s, p, s.prods[p].(phase := AwaitFds, up := s.prods[p].up + [PickupRequest]));
  }

  lemma ReleaseIs(p: Conn, e: ProdEnd, w: bool, ws: bool, q: seq<Down>)
    requires ProdInv(p, e, w, ws, q)
    ensures e.phase.Connected? ==> P.EnterFallback(e.ctx) == P.Release(e.ctx.(fallback := true))
    ensures !e.phase.Connected? ==> P.Release(e.ctx) == P.Release(e.ctx.(fallback := true))
  {
  }

  lemma DaemonStepKeeps(s: System, t: Step)
    requires Inv(s) && Enabled(s, t) && (t.Accept? || t.Serve? || t.Hangup?)
    ensures Inv(Do(s, t))
  {
    match t
    case Accept(c, _, _, _, _) => if c in s.cons { AcceptConsumer(s, t); } else { AcceptProducer(s, t); }
    case Serve(ptr, arrives, net) => ServeKeeps(s, ptr, arrives, net);
    case Hangup(ptr) => DropKeeps(s, ptr);
    case _ =>
  }

  lemma ProducerStepKeeps(s: System, t: Step)
    requires Inv(s) && Enabled(s, t)
    requires t.ReadGreeting? || t.SendPickup? || t.GiveUp? || t.ReadFds? || t.ReadBufs? || t.ProducerFails?
    ensures Inv(Do(s, t))
  {
    hide ProdInv, ConsInv, RolesInv, AllDelivered, Ordered, AllAgree;
    match t
    case ReadGreeting(p) => ReadGreetingKeeps(s, p);
    case SendPickup(p) => SendPickupKeeps(s, p);
    case GiveUp(p) =>
      ReleaseIs(p, s.prods[p], Waits(s.d, p), WaitsScreen(s.d, p), Inbox(s, p));
      GiveUpKeeps(s, p);
    case ReadFds(p, mapOk) => ReadFdsKeeps(s, p, mapOk);
    case ReadBufs(p, infosArrive) => ReadBufsKeeps(s, p, infosArrive);
    case ProducerFails(p) =>
      ReleaseIs(p, s.prods[p], Waits(s.d, p), WaitsScreen(s.d, p), Inbox(s, p));
      GiveUpKeeps(s, p);
    case _ =>
  }

  lemma ArrivalStepKeeps(s: System, t: Step)
    requires Inv(s) && Enabled(s, t) && (t.NewConsumer? || t.NewProducer? || t.Select?)
    ensures Inv(Do(s, t))
  {
    match t
    case NewConsumer(c) => NewConsumerKeeps(s, c);
    case NewProducer(p) => NewProducerKeeps(s, p);
    case Select(c, idx, look, ok, h) => SelectKeeps(s, c, idx, look, ok, h);
    case _ =>
  }

  lemma StepKeeps(s: System, t: Step)
    requires Inv(s) && Enabled(s, t)
    ensures Inv(Do(s, t))
  {
    if t.NewConsumer? || t.NewProducer? || t.Select? {
      ArrivalStepKeeps(s, t);
    } else if t.Accept? || t.Serve? || t.Hangup? {
      DaemonStepKeeps(s, t);
    } else if t.AwaitFrame? || t.PushSet? || t.ConsumerFails? || t.SendScreen? {
      ConsumerStepKeeps(s, t);
    } else {
      ProducerStepKeeps(s, t);
    }
  }

  // ---- every run ----

  lemma StartHolds()
    ensures Inv(Start)
  {
  }

  function After(steps: seq<Step>): (s: Option<System>)
    ensures s.Some? ==> D.RolesLive(s.value.d)
  {
    if steps == [] then Some(Start)
    else
      var before := After(steps[..|steps| - 1]);
      var t := steps[|steps| - 1];
      if before.Some? && Enabled(before.value, t) then Some(Do(before.value, t)) else None
  }

  ghost predicate Reachable(s: System) {
    exists steps :: After(steps) == Some(s)
  }

  lemma {:induction false} RunHolds(steps: seq<Step>)
    requires After(steps).Some?
    ensures Inv(After(steps).value)
  {
    if steps == [] {
      StartHolds();
    } else {
      RunHolds(steps[..|steps| - 1]);
      StepKeeps(After(steps[..|steps| - 1]).value, steps[|steps| - 1]);
    }
  }

  lemma ReachableHolds(s: System)
    requires Reachable(s)
    ensures Inv(s)
  {
    var steps :| After(steps) == Some(s);
    RunHolds(steps);
  }

  // ---- main results ----

  /** Each announcement a consumer can consume is for the deposit it made last, at most one is
      waiting, and it has consumed one per generation but the pending one. If every hello went
      out, hellos sent = announcements consumed + one while in fallback. */
  lemma AnnouncementsMatchGenerations(s: System, c: Conn)
    requires Reachable(s) && c in s.cons
    ensures var e := s.cons[c];
            && e.seen <= |Inbox(s, c)| <= e.seen + 1
            && (e.seen < |Inbox(s, c)| ==> e.st.fallback && Inbox(s, c)[e.seen] == Announce(DepositOf(c, e.st.gen)))
            && e.st.gen == e.st.readies + OneIf(e.st.fallback)
            && Hellos(e.st.up) <= e.st.gen
            && (Hellos(e.st.up) == e.st.gen <==> Hellos(e.st.up) == e.st.readies + OneIf(e.st.fallback))
  {
    ReachableHolds(s);
    assert ConsInv(c, s.cons[c], Mine(s.d, c), Inbox(s, c));
  }

  /** In fallback the last generation is in at most one place at a time: an unread hello, the
      daemon's deposit or an unread announcement; while connected it is in none. */
  lemma GenerationInOnePlace(s: System, c: Conn)
    requires Reachable(s) && c in s.cons
    ensures var e := s.cons[c];
            && e.read <= |e.st.up|
            && Hellos(e.st.up[e.read..]) + OneIf(Mine(s.d, c) != []) + |Inbox(s, c)| - e.seen <= OneIf(e.st.fallback)
            && (Mine(s.d, c) != [] ==> Mine(s.d, c) == DepositOf(c, e.st.gen))
  {
    ReachableHolds(s);
    assert ConsInv(c, s.cons[c], Mine(s.d, c), Inbox(s, c));
  }

  /** Whatever is deposited belongs to the consumer that is current, complete and latest. */
  lemma DepositIsCurrent(s: System)
    requires Reachable(s) && s.d.deposit != []
    ensures exists c :: ConnOf(s.d, s.d.consumer) == Some(c) && c in s.cons && s.d.deposit == DepositOf(c, s.cons[c].st.gen)
  {
    ReachableHolds(s);
    var c := s.d.heap[s.d.consumer.value];
    GenerationInOnePlace(s, c);
    assert ConnOf(s.d, s.d.consumer) == Some(c);
  }

  function SlotsOf(c: Conn, g: nat): seq<Option<Fd>> {
    [Some(Deposited(c, g, BufReady)), Some(Deposited(c, g, Fence)), Some(Deposited(c, g, Data)),
     Some(Deposited(c, g, Shm)), Some(Deposited(c, g, Audio))]
  }

  /** The slots of a producer past pickup hold one generation of one consumer, every descriptor
      in the slot it was made for. */
  lemma SlotsHoldOneGeneration(s: System, p: Conn)
    requires Reachable(s) && p in s.prods && (s.prods[p].phase.AwaitBufs? || s.prods[p].phase.Connected?)
    ensures var e := s.prods[p];
            && e.installs != []
            && var (c, g) := Origin(e.installs[|e.installs| - 1]);
               c in s.cons && 1 <= g <= s.cons[c].st.gen && SlotList(e.ctx) == SlotsOf(c, g)
  {
    hide ConsInv;
    ReachableHolds(s);
    ProducerIs(s, p);
    HoldsDelivered(s, p);
  }

  lemma InstallIs(s: System, p: Conn, k: nat)
    requires AllProds(s) && AllDelivered(s) && p in s.prods && k < |s.prods[p].installs|
    ensures k + 1 < |Inbox(s, p)| && Inbox(s, p)[k + 1].FdsReady? && s.prods[p].installs[k] == Inbox(s, p)[k + 1].fds
  {
    ProducerIs(s, p);
  }

  /** What a producer installs is ever later, nothing is installed twice by anyone, and it is
      never sent more than it asked for, however many of its requests were abandoned. */
  lemma InstallsOnlyAdvance(s: System, p: Conn, i: nat, j: nat)
    requires Reachable(s) && p in s.prods && i < j < |s.prods[p].installs|
    ensures Later(s.prods[p].installs[i], s.prods[p].installs[j]) && s.prods[p].installs[i] != s.prods[p].installs[j]
  {
    ReachableHolds(s);
    InstallIs(s, p, i);
    InstallIs(s, p, j);
    assert Ascending(Queue(s.d.down, p));
  }

  ghost predicate NothingCommon(a: seq<Fd>, b: seq<Fd>) {
    forall fd :: fd in a ==> fd !in b
  }

  lemma OtherGeneration(s: System, a: seq<Fd>, b: seq<Fd>)
    requires Delivered(s, a) && Delivered(s, b) && a != b
    ensures NothingCommon(a, b)
  {
  }

  lemma OtherSet(s: System, p: Conn, p': Conn, i: nat, j: nat)
    requires Ordered(s.d.down, s.prods.Keys) && p in s.prods && p' in s.prods && (p != p' || i < j)
    requires i < |Inbox(s, p)| && j < |Inbox(s, p')| && Inbox(s, p)[i].FdsReady? && Inbox(s, p')[j].FdsReady?
    ensures Inbox(s, p)[i].fds != Inbox(s, p')[j].fds
  {
    if p == p' {
      assert Ascending(Queue(s.d.down, p));
    } else {
      assert Disjoint(Queue(s.d.down, p), Queue(s.d.down, p'));
    }
  }

  /** No two deliveries share a descriptor, whether a producer has read them, still has them in
      its socket or is gone: neither two to one producer nor two to different ones. */
  lemma DeliveriesNeverShared(s: System, p: Conn, p': Conn, i: nat, j: nat)
    requires Reachable(s) && p in s.prods && p' in s.prods && (p != p' || i != j)
    requires i < |Inbox(s, p)| && j < |Inbox(s, p')| && Inbox(s, p)[i].FdsReady? && Inbox(s, p')[j].FdsReady?
    ensures NothingCommon(Inbox(s, p)[i].fds, Inbox(s, p')[j].fds)
  {
    ReachableHolds(s);
    assert Delivered(s, Inbox(s, p)[i].fds) && Delivered(s, Inbox(s, p')[j].fds);
    if p == p' && j < i { OtherSet(s, p', p, j, i); } else { OtherSet(s, p, p', i, j); }
    OtherGeneration(s, Inbox(s, p)[i].fds, Inbox(s, p')[j].fds);
  }

  lemma InstallsNeverShared(s: System, p: Conn, p': Conn, i: nat, j: nat)
    requires Reachable(s) && p in s.prods && p' in s.prods && p != p'
    requires i < |s.prods[p].installs| && j < |s.prods[p'].installs|
    ensures NothingCommon(s.prods[p].installs[i], s.prods[p'].installs[j])
  {
    ReachableHolds(s);
    InstallIs(s, p, i);
    InstallIs(s, p', j);
    DeliveriesNeverShared(s, p, p', i + 1, j + 1);
  }

  /** A producer first gets its one screen info and then descriptor sets only, at most one per
      request it sent. */
  lemma ScreenFirstThenAsked(s: System, p: Conn)
    requires Reachable(s) && p in s.prods
    ensures forall i :: 0 <= i < |Inbox(s, p)| ==> (Inbox(s, p)[i].Screen? <==> i == 0) && (Inbox(s, p)[i].FdsReady? <==> i > 0)
    ensures |Inbox(s, p)| <= |s.prods[p].up|
    ensures |s.prods[p].installs| < |s.prods[p].up|
  {
    ReachableHolds(s);
    ProducerIs(s, p);
  }

  lemma IndexFits(c: Conn, e: ConsEnd, mine: seq<Fd>, q: seq<Down>)
    requires ConsInv(c, e, mine, q)
    ensures e.st.gen in e.st.links && (e.st.links[e.st.gen].index == 0 || e.st.links[e.st.gen].index < |e.st.stored|)
  {
  }

  /** Whenever both ends are out of fallback in the same generation, the producer has exactly
      the buffers the consumer has stored and reads back exactly the index in the shared word. */
  lemma BufferSetsAgree(s: System, p: Conn)
    requires Reachable(s) && p in s.prods && s.prods[p].phase.Connected?
    ensures var e := s.prods[p];
            && e.installs != []
            && var (c, g) := Origin(e.installs[|e.installs| - 1]);
               c in s.cons && (s.cons[c].st.gen == g ==>
                 && !s.cons[c].st.fallback && g in s.cons[c].st.links
                 && e.ctx.dmabufs == Fds(s.cons[c].st.stored)
                 && e.ctx.infos == Infos(s.cons[c].st.stored)
                 && P.SelectedIdx(e.ctx, s.cons[c].st.links[g].index) == s.cons[c].st.links[g].index)
  {
    hide ConsInv;
    ReachableHolds(s);
    ProducerIs(s, p);
    HoldsDelivered(s, p);
    var (c, _) := Origin(s.prods[p].installs[|s.prods[p].installs| - 1]);
    assert ConsInv(c, s.cons[c], Mine(s.d, c), Inbox(s, c));
    IndexFits(c, s.cons[c], Mine(s.d, c), Inbox(s, c));
    assert Agrees(s, s.prods[p]);
  }

  /** A buffer the consumer selects is the one the producer of that generation then finds
      selected. */
  lemma SelectionReachesProducer(s: System, p: Conn, c: Conn, idx: int, look: bool, ok: bool, h: C.HelloOutcome)
    requires Reachable(s) && p in s.prods && s.prods[p].phase.Connected? && c in s.cons
    requires Enabled(s, Select(c, idx, look, ok, h)) && !s.cons[c].st.fallback && 0 <= idx < |s.cons[c].st.stored|
    requires s.prods[p].installs != [] && Origin(s.prods[p].installs[|s.prods[p].installs| - 1]) == (c, s.cons[c].st.gen)
    ensures P.SelectedIdx(s.prods[p].ctx, C.Current(SelectEnd(s.cons[c], Announcement(s, c, look), idx, ok, h).st).index) == idx
  {
    ReachableHolds(s);
    ProducerIs(s, p);
    assert Agrees(s, s.prods[p]);
  }
}
