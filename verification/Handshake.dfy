/** A handshake that nothing disturbs goes through: from any state that the three programs can be in
    with a deposit at the daemon and a producer that is idle, five steps connect both ends. */
module Handshake {
  import opened Protocol
  import D = Daemon
  import C = Consumer
  import P = Producer
  import opened Rendezvous

  const Clear := D.Net(true, true)

  /** The daemon holds the deposit of c; p has read all there was for it and has nothing under way, and
      c has a set stored. */
  ghost predicate Waiting(s: System, c: Conn, p: Conn) {
    && ConnOf(s.d, s.d.consumer) == Some(c) && ConnOf(s.d, s.d.producer) == Some(p) && |s.d.deposit| == 5
    && c in s.cons && s.cons[c].seen == |Inbox(s, c)| && s.cons[c].st.stored != []
    && p in s.prods && s.prods[p].phase.Idle?
    && s.prods[p].read == |s.prods[p].up| && s.prods[p].seen == |Inbox(s, p)|
  }

  ghost predicate Asked(s: System, c: Conn, p: Conn) {
    && ConnOf(s.d, s.d.consumer) == Some(c) && ConnOf(s.d, s.d.producer) == Some(p) && |s.d.deposit| == 5
    && c in s.cons && s.cons[c].seen == |Inbox(s, c)| && s.cons[c].st.stored != []
    && p in s.prods && s.prods[p].phase.AwaitFds? && |s.prods[p].up| == s.prods[p].read + 1
    && s.prods[p].up[s.prods[p].read].PickupRequest? && s.prods[p].seen == |Inbox(s, p)|
  }

  /** The pickup goes out. */
  lemma Asking(s: System, c: Conn, p: Conn)
    requires Inv(s) && Waiting(s, c, p)
    ensures Enabled(s, SendPickup(p))
    ensures var s' := Do(s, SendPickup(p)); Asked(s', c, p) && s'.cons == s.cons && s'.d == s.d && s'.prods[p].ctx == s.prods[p].ctx
  {
  }

  /** The next message for p is the deposit, and the next one for c is the news of that. */
  ghost predicate Served(s: System, c: Conn, p: Conn, fds: seq<Fd>) {
    && c in s.cons && |Inbox(s, c)| == s.cons[c].seen + 1 && Inbox(s, c)[s.cons[c].seen].Announce?
    && p in s.prods && s.prods[p].phase.AwaitFds?
    && |Inbox(s, p)| == s.prods[p].seen + 1 && Inbox(s, p)[s.prods[p].seen] == FdsReady(fds)
  }

  /** The daemon answers it and tells the consumer. */
  lemma Serving(s: System, c: Conn, p: Conn)
    requires D.Valid(s.d) && s.cons.Keys !! s.prods.Keys && Asked(s, c, p)
    ensures var t := Serve(s.d.producer.value, true, Clear);
            && Enabled(s, t)
            && var s' := Do(s, t);
               && Served(s', c, p, s.d.deposit) && s'.cons == s.cons
               && s'.prods[p].ctx == s.prods[p].ctx && s'.prods[p].installs == s.prods[p].installs
  {
    var ptr := s.d.producer.value;
    var m := Message(s.prods[p].up[s.prods[p].read], true);
    assert D.Handle(s.d, ptr, m, Clear) == D.Deliver(s.d, Clear);
    Delivering(s.d, c, p);
    hide D.Deliver, D.Valid;
  }

  lemma Delivering(d: D.State, c: Conn, p: Conn)
    requires D.Valid(d) && ConnOf(d, d.consumer) == Some(c) && ConnOf(d, d.producer) == Some(p) && |d.deposit| == 5 && c != p
    ensures var d' := D.Deliver(d, Clear);
            && Queue(d'.down, p) == Queue(d.down, p) + [FdsReady(d.deposit)]
            && Queue(d'.down, c) == Queue(d.down, c) + [Announce(d.deposit)]
  {
  }

  /** A consumer that looks finds the news, leaves fallback, pushes its set and selects. */
  lemma Selecting(s: System, c: Conn, p: Conn, fds: seq<Fd>, idx: int, h: C.HelloOutcome)
    requires Served(s, c, p, fds) && c !in s.prods && C.Valid(s.cons[c].st) && s.cons[c].st.fallback
    requires LinkInv(s.cons[c].st) && 0 <= idx < |s.cons[c].st.stored|
    ensures var t := Select(c, idx, true, true, h);
            && Enabled(s, t)
            && (D.RolesLive(s.d) ==>
                 var s' := Do(s, t);
                 && s'.d == s.d && s'.prods == s.prods && s'.cons.Keys == s.cons.Keys
                 && var st, st' := s.cons[c].st, s'.cons[c].st;
                    && !st'.fallback && st'.gen == st.gen && st'.stored == st.stored && st.gen in st'.links
                    && st'.links[st.gen].bufs == [st.stored] && st'.links[st.gen].index == idx)
  {
  }

  /** The producer reads the five descriptors into their slots. */
  lemma Reading(e: ProdEnd, fds: seq<Fd>)
    requires |fds| == 5 && e.ctx.fallback && e.ctx.dmabufs == []
    ensures var e' := ReadFdsEnd(e, FdsReady(fds), true);
            && e'.phase.AwaitBufs? && e'.installs == e.installs + [fds] && HoldsSet(e'.ctx, fds)
            && e'.ctx.fallback && e'.ctx.dmabufs == []
  {
  }

  /** And the set, whole. */
  lemma Receiving(e: ProdEnd, bufs: seq<C.Buf>)
    requires 1 <= |bufs| <= MAX_BUFS && e.ctx.dmabufs == [] && e.ctx.mapped
    ensures var e' := ReadBufsEnd(e, bufs, true);
            && e'.phase.Connected? && !e'.ctx.fallback && e'.ctx.mapped
            && e'.ctx.dmabufs == Fds(bufs) && e'.ctx.infos == Infos(bufs)
            && SlotList(e'.ctx) == SlotList(e.ctx) && e'.installs == e.installs
  {
  }

  /** The consumer has left fallback and selected; both its set and the descriptors are on the way to p. */
  ghost predicate Chosen(s: System, c: Conn, p: Conn, stored: seq<C.Buf>, gen: nat, idx: int) {
    && D.RolesLive(s.d) && c in s.cons && p in s.prods && c != p
    && (var st := s.cons[c].st;
        !st.fallback && st.gen == gen && st.stored == stored && gen in st.links
        && st.links[gen].bufs == [stored] && st.links[gen].index == idx)
    && s.prods[p].phase.AwaitFds? && s.prods[p].seen < |Inbox(s, p)|
    && Inbox(s, p)[s.prods[p].seen] == FdsReady(DepositOf(c, gen))
    && s.prods[p].ctx.fallback && s.prods[p].ctx.dmabufs == []
  }

  lemma Connecting(s: System, c: Conn, p: Conn, stored: seq<C.Buf>, gen: nat, idx: int)
    requires Chosen(s, c, p, stored, gen, idx) && 1 <= |stored| <= MAX_BUFS && 0 <= idx < |stored|
    ensures Enabled(s, ReadFds(p, true))
    ensures var s' := Do(s, ReadFds(p, true));
            Enabled(s', ReadBufs(p, true)) && Joined(Do(s', ReadBufs(p, true)), c, p, stored, gen, idx)
  {
    hide ReadFdsEnd, ReadBufsEnd;
    var fds := DepositOf(c, gen);
    Reading(s.prods[p], fds);
    var s' := Do(s, ReadFds(p, true));
    var e := s'.prods[p];
    assert e == ReadFdsEnd(s.prods[p], FdsReady(fds), true) && s'.cons == s.cons;
    assert e.installs[|e.installs| - 1] == fds && Origin(fds) == (c, gen);
    Receiving(e, stored);
    assert Do(s', ReadBufs(p, true)).prods[p] == ReadBufsEnd(e, stored, true);
  }

  lemma Beginning(s: System, c: Conn, p: Conn, idx: int, h: C.HelloOutcome)
    requires Inv(s) && Waiting(s, c, p) && 0 <= idx < |s.cons[c].st.stored|
    ensures Enabled(s, SendPickup(p))
    ensures var s1 := Do(s, SendPickup(p));
            && D.RolesLive(s1.d) && s1.d.producer.Some? && Enabled(s1, Serve(s1.d.producer.value, true, Clear))
            && var s2 := Do(s1, Serve(s1.d.producer.value, true, Clear));
               && Enabled(s2, Select(c, idx, true, true, h))
               && Chosen(Do(s2, Select(c, idx, true, true, h)), c, p, s.cons[c].st.stored, s.cons[c].st.gen, idx)
  {
    hide Inv, D.Handle, D.Valid, C.Valid, LinkInv, SelectEnd;
    Before(s, c, p);
    Asking(s, c, p);
    var s1 := Do(s, SendPickup(p));
    Serving(s1, c, p);
    var s2 := Do(s1, Serve(s1.d.producer.value, true, Clear));
    Selecting(s2, c, p, s.d.deposit, idx, h);
  }

  /** From any reachable state in which the deposit waits for the producer's next attempt, an attempt that
      nothing disturbs connects both ends: the producer has the consumer's five descriptors, each in its
      slot, all of its buffers in order, and reads the buffer that the consumer selected. */
  lemma HandshakeConnects(s: System, c: Conn, p: Conn, idx: int, h: C.HelloOutcome)
    requires Reachable(s) && Waiting(s, c, p) && 0 <= idx < |s.cons[c].st.stored|
    ensures D.RolesLive(s.d) && Enabled(s, SendPickup(p))
    ensures var s1 := Do(s, SendPickup(p));
            && D.RolesLive(s1.d) && s1.d.producer.Some? && Enabled(s1, Serve(s1.d.producer.value, true, Clear))
            && var s2 := Do(s1, Serve(s1.d.producer.value, true, Clear));
               && Enabled(s2, Select(c, idx, true, true, h))
               && var s3 := Do(s2, Select(c, idx, true, true, h));
                  && Enabled(s3, ReadFds(p, true))
                  && var s4 := Do(s3, ReadFds(p, true));
                     && Enabled(s4, ReadBufs(p, true))
                     && Joined(Do(s4, ReadBufs(p, true)), c, p, s.cons[c].st.stored, s.cons[c].st.gen, idx)
  {
    hide Inv, Do, Joined;
    ReachableHolds(s);
    Before(s, c, p);
    Beginning(s, c, p, idx, h);
    var s1 := Do(s, SendPickup(p));
    var s2 := Do(s1, Serve(s1.d.producer.value, true, Clear));
    var s3 := Do(s2, Select(c, idx, true, true, h));
    Connecting(s3, c, p, s.cons[c].st.stored, s.cons[c].st.gen, idx);
  }

  /** What is known of both ends before the attempt. */
  lemma Before(s: System, c: Conn, p: Conn)
    requires Inv(s) && Waiting(s, c, p)
    ensures D.Valid(s.d) && c !in s.prods && s.cons.Keys !! s.prods.Keys && D.RolesLive(s.d) && s.d.producer.Some?
    ensures C.Valid(s.cons[c].st) && LinkInv(s.cons[c].st) && s.cons[c].st.fallback && |s.cons[c].st.stored| <= MAX_BUFS
    ensures s.d.deposit == DepositOf(c, s.cons[c].st.gen)
    ensures s.prods[p].ctx.fallback && s.prods[p].ctx.dmabufs == []
  {
    assert ConsInv(c, s.cons[c], Mine(s.d, c), Inbox(s, c));
    assert ProdInv(p, s.prods[p], Waits(s.d, p), WaitsScreen(s.d, p), Inbox(s, p));
  }

  /** Both ends are out of fallback in this generation of c, with this set, and agree on the buffer. */
  ghost predicate Joined(s: System, c: Conn, p: Conn, stored: seq<C.Buf>, gen: nat, idx: int) {
    && c in s.cons && p in s.prods
    && var st, ctx := s.cons[c].st, s.prods[p].ctx;
       && !st.fallback && st.gen == gen && st.stored == stored && st.gen in st.links && st.links[gen].index == idx
       && s.prods[p].phase.Connected? && !ctx.fallback && ctx.mapped
       && SlotList(ctx) == [Some(Deposited(c, gen, BufReady)), Some(Deposited(c, gen, Fence)), Some(Deposited(c, gen, Data)),
                            Some(Deposited(c, gen, Shm)), Some(Deposited(c, gen, Audio))]
       && ctx.dmabufs == Fds(stored) && ctx.infos == Infos(stored)
       && P.SelectedIdx(ctx, st.links[gen].index) == idx
  }

  // ---- the first handshake ----

  lemma Then(steps: seq<Step>, t: Step)
    requires After(steps).Some? && Enabled(After(steps).value, t)
    ensures After(steps + [t]) == Some(Do(After(steps).value, t))
  {
    assert (steps + [t])[..|steps|] == steps;
  }

  function Admission(c: Conn, block: D.Addr): Step {
    Accept(c, true, Some(block), true, Clear)
  }

  /** The consumer is there with its first deposit, a set and its screen info. */
  ghost predicate ConsumerThere(s: System, b: C.Buf, info: ScreenInfo) {
    && s.d == D.State(Some(0), None, map[0 := 0], map[0 := 0], Some(info), DepositOf(0, 1), false, false, map[], [])
    && s.cons.Keys == {0} && s.cons[0].seen == 0 && s.cons[0].st.stored == [b] && s.prods == map[]
  }

  lemma ConsumerSeated()
    ensures var after := After([NewConsumer(0), Admission(0, 0)]);
            && after.Some?
            && after.value.d == D.State(Some(0), None, map[0 := 0], map[0 := 0], None, DepositOf(0, 1), false, false, map[], [])
            && after.value.cons == map[0 := ConsEnd(C.Connected(0), 1, 0)] && after.value.prods == map[]
  {
    hide After;
    EmptyRun();
    Then([], NewConsumer(0));
    assert [] + [NewConsumer(0)] == [NewConsumer(0)];
    Then([NewConsumer(0)], Admission(0, 0));
    assert [NewConsumer(0)] + [Admission(0, 0)] == [NewConsumer(0), Admission(0, 0)];
  }

  lemma ConsumerArrives(b: C.Buf, info: ScreenInfo) returns (steps: seq<Step>)
    ensures steps == [NewConsumer(0), Admission(0, 0), PushSet(0, [b], true, C.Sent), SendScreen(0, info), Serve(0, true, Clear)]
    ensures After(steps).Some? && ConsumerThere(After(steps).value, b, info)
  {
    hide After, D.Admit;
    var t0, t1, t2, t3, t4 := NewConsumer(0), Admission(0, 0), PushSet(0, [b], true, C.Sent), SendScreen(0, info), Serve(0, true, Clear);
    ConsumerSeated();
    Then([t0, t1], t2);
    assert [t0, t1] + [t2] == [t0, t1, t2];
    Then([t0, t1, t2], t3);
    assert [t0, t1, t2] + [t3] == [t0, t1, t2, t3];
    var s4 := After([t0, t1, t2, t3]).value;
    assert s4.cons[0].st.up[1] == ScreenUp(info);
    Then([t0, t1, t2, t3], t4);
    steps := [t0, t1, t2, t3] + [t4];
  }

  lemma EmptyRun()
    ensures After([]) == Some(Start)
  {
  }

  /** The input, from the start: a consumer deposits, stores a set and sends its screen info, a producer
      comes and reads that. The deposit then waits for the producer's first attempt. */
  lemma FirstAttemptComes(b: C.Buf, info: ScreenInfo)
    ensures var steps := [NewConsumer(0), Admission(0, 0), PushSet(0, [b], true, C.Sent), SendScreen(0, info), Serve(0, true, Clear),
                          NewProducer(1), Admission(1, 1), ReadGreeting(1)];
            After(steps).Some? && Waiting(After(steps).value, 0, 1)
  {
    hide After;
    var steps := ConsumerArrives(b, info);
    var t5, t6, t7 := NewProducer(1), Admission(1, 1), ReadGreeting(1);
    Then(steps, t5);
    Then(steps + [t5], t6);
    var s7 := After(steps + [t5] + [t6]).value;
    assert Inbox(s7, 1) == [Screen(info)];
    Then(steps + [t5] + [t6], t7);
    assert steps + [t5] + [t6] + [t7] == [steps[0], steps[1], steps[2], steps[3], steps[4], t5, t6, t7];
  }

  // ---- single steps ----

  /** Reading a set takes it off the data socket it was pushed into, and concerns nobody else. */
  lemma SetIsTaken(s: System, p: Conn, infosArrive: bool)
    requires D.RolesLive(s.d) && Enabled(s, ReadBufs(p, infosArrive))
    ensures var s' := Do(s, ReadBufs(p, infosArrive));
            var (c, g) := Origin(s.prods[p].installs[|s.prods[p].installs| - 1]);
            && s'.d == s.d && s'.prods == s.prods[p := ReadBufsEnd(s.prods[p], s.cons[c].st.links[g].bufs[0], infosArrive)]
            && s'.cons.Keys == s.cons.Keys && (forall x :: x in s.cons && x != c ==> s'.cons[x] == s.cons[x])
            && s'.cons[c] == s.cons[c].(st := s.cons[c].st.(links := s'.cons[c].st.links))
            && s'.cons[c].st.links.Keys == s.cons[c].st.links.Keys
            && (forall h :: h in s.cons[c].st.links && h != g ==> s'.cons[c].st.links[h] == s.cons[c].st.links[h])
            && var l, l' := s.cons[c].st.links[g], s'.cons[c].st.links[g];
               [l.bufs[0]] + l'.bufs == l.bufs && l' == l.(bufs := l'.bufs)
  {
  }

  /** A hangup drops the client at the daemon; what a client or the library does by itself happens at
      its own end. */
  lemma OneEndOnly(s: System, t: Step)
    requires D.RolesLive(s.d) && Enabled(s, t)
    ensures var s' := Do(s, t);
            match t
            case Hangup(ptr) => s' == s.(d := D.Drop(s.d, ptr))
            case AwaitFrame(c, e, h) => s' == s.(cons := s.cons[c := s.cons[c].(st := C.Refresh(s.cons[c].st, e, h))])
            case PushSet(c, bufs, ok, h) => s' == s.(cons := s.cons[c := s.cons[c].(st := C.PushDmabufs(s.cons[c].st, bufs, ok, h))])
            case ConsumerFails(c, h) => s' == s.(cons := s.cons[c := s.cons[c].(st := C.EnterFallback(s.cons[c].st, h))])
            case GiveUp(p) => s' == s.(prods := s.prods[p := s.prods[p].(phase := Idle, ctx := P.Release(s.prods[p].ctx))])
            case ProducerFails(p) => s' == s.(prods := s.prods[p := s.prods[p].(phase := Idle, ctx := P.EnterFallback(s.prods[p].ctx))])
            case _ => true
  {
  }

  // ---- attempts that fail ----

  predicate EmptyHanded(x: P.State) {
    SlotList(x) == [None, None, None, None, None] && !x.mapped && x.dmabufs == [] && x.infos == [] && x.pendingFence.None?
  }

  /** Whatever comes back, reading the answer ends the wait: with the five descriptors, or with nothing at
      all and the attempt over. */
  lemma AnswerEndsWait(e: ProdEnd, m: Down, mapOk: bool)
    requires e.ctx.fallback && EmptyHanded(e.ctx)
    ensures var e' := ReadFdsEnd(e, m, mapOk);
            && e'.seen == e.seen + 1
            && if m.FdsReady? && |m.fds| >= 5 && mapOk then e'.phase.AwaitBufs? else e'.phase.Idle? && EmptyHanded(e'.ctx)
  {
  }

  /** The same for the set. */
  lemma SetEndsWait(e: ProdEnd, bufs: seq<C.Buf>, infosArrive: bool)
    requires e.ctx.dmabufs == []
    ensures var e' := ReadBufsEnd(e, bufs, infosArrive);
            if 1 <= |bufs| <= MAX_BUFS && infosArrive then e'.phase.Connected? else e'.phase.Idle? && EmptyHanded(e'.ctx)
  {
  }

  /** A producer that is not between an answered pickup and its next fallback holds nothing. */
  ghost predicate OnlyThenHeld(s: System) {
    forall p :: p in s.prods && !s.prods[p].phase.AwaitBufs? && !s.prods[p].phase.Connected? ==> EmptyHanded(s.prods[p].ctx)
  }

  /** What is needed of one end. */
  predicate EndOk(e: ProdEnd) {
    && (e.phase.Connected? <==> !e.ctx.fallback)
    && (!e.phase.Connected? ==> e.ctx.dmabufs == [])
    && (!e.phase.AwaitBufs? && !e.phase.Connected? ==> EmptyHanded(e.ctx))
  }

  lemma StepReleases(s: System, t: Step)
    requires Inv(s) && OnlyThenHeld(s) && Enabled(s, t)
    ensures OnlyThenHeld(Do(s, t))
  {
    var s' := Do(s, t);
    forall p | p in s'.prods && !s'.prods[p].phase.AwaitBufs? && !s'.prods[p].phase.Connected?
      ensures EmptyHanded(s'.prods[p].ctx)
    {
      if p in s.prods {
        EndIsOk(s, p);
        EndReleases(s, t, p);
      } else {
        NewHoldsNothing(s, t, p);
      }
      hide Do, Inv, OnlyThenHeld;
    }
  }

  lemma NewHoldsNothing(s: System, t: Step, p: Conn)
    requires D.RolesLive(s.d) && Enabled(s, t) && p !in s.prods && p in Do(s, t).prods
    ensures EmptyHanded(Do(s, t).prods[p].ctx)
  {
  }

  lemma EndIsOk(s: System, p: Conn)
    requires Inv(s) && OnlyThenHeld(s) && p in s.prods
    ensures EndOk(s.prods[p])
  {
    assert ProdInv(p, s.prods[p], Waits(s.d, p), WaitsScreen(s.d, p), Inbox(s, p));
  }

  lemma EndReleases(s: System, t: Step, p: Conn)
    requires D.RolesLive(s.d) && Enabled(s, t) && p in s.prods && EndOk(s.prods[p])
    ensures p in Do(s, t).prods
    ensures var e := Do(s, t).prods[p]; !e.phase.AwaitBufs? && !e.phase.Connected? ==> EmptyHanded(e.ctx)
  {
    hide ReadFdsEnd, ReadBufsEnd, D.Handle, D.Admit, D.Drop, SelectEnd;
    match t
    case ReadFds(q, mapOk) => if q == p { AnswerEndsWait(s.prods[p], Inbox(s, p)[s.prods[p].seen], mapOk); }
    case ReadBufs(q, infosArrive) => if q == p { ReadBufsReleases(s, p, infosArrive); }
    case _ =>
  }

  lemma ReadBufsReleases(s: System, p: Conn, infosArrive: bool)
    requires D.RolesLive(s.d) && Enabled(s, ReadBufs(p, infosArrive)) && EndOk(s.prods[p])
    ensures var e := Do(s, ReadBufs(p, infosArrive)).prods[p]; e.phase.Connected? || (e.phase.Idle? && EmptyHanded(e.ctx))
  {
    hide ReadBufsEnd;
    var e := s.prods[p];
    var (c, g) := Origin(e.installs[|e.installs| - 1]);
    SetEndsWait(e, s.cons[c].st.links[g].bufs[0], infosArrive);
  }

  lemma {:induction false} HeldAlong(steps: seq<Step>)
    requires After(steps).Some?
    ensures OnlyThenHeld(After(steps).value)
  {
    if steps != [] {
      var k := |steps| - 1;
      HeldAlong(steps[..k]);
      RunHolds(steps[..k]);
      StepReleases(After(steps[..k]).value, steps[k]);
    }
  }

  /** In every reachable state: an attempt that came to nothing leaves nothing behind, wherever it broke
      off. */
  lemma FailedAttemptHoldsNothing(s: System, p: Conn)
    requires Reachable(s) && p in s.prods && !s.prods[p].phase.AwaitBufs? && !s.prods[p].phase.Connected?
    ensures EmptyHanded(s.prods[p].ctx)
  {
    var steps :| After(steps) == Some(s);
    HeldAlong(steps);
  }
}
