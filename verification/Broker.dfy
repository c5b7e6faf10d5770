/** The daemon context as the program keeps it: fields updated in place, proved against the
    functions of module Daemon. Socket calls are parameters that say how they turned out. */
module Broker {
  import opened Protocol
  import opened Daemon

  class Broker {
    var consumer: Option<Addr>
    var producer: Option<Addr>
    var heap: map<Addr, Conn>
    var watched: map<Conn, Addr>
    var storedScreen: Option<ScreenInfo>
    const depositedFds: array<Fd>
    var depositedFdCount: nat
    var producerWaitingScreen: bool
    var producerWaitingFds: bool
    var down: map<Conn, seq<Down>>
    var closed: seq<Fd>

    ghost predicate Shape()
      reads this
    {
      depositedFds.Length == DEPOSITED_FD_COUNT && depositedFdCount <= DEPOSITED_FD_COUNT
    }

    ghost function Abs(): State
      requires Shape()
      reads this, depositedFds
    {
      State(consumer, producer, heap, watched, storedScreen, depositedFds[..depositedFdCount],
            producerWaitingScreen, producerWaitingFds, down, closed)
    }

    constructor ()
      ensures Shape() && Abs() == Initial && fresh(depositedFds)
    {
      consumer, producer, heap, watched := None, None, map[], map[];
      storedScreen, depositedFds, depositedFdCount := None, new Fd[DEPOSITED_FD_COUNT](_ => Plain(0)), 0;
      producerWaitingScreen, producerWaitingFds := false, false;
      down, closed := map[], [];
    }

    method ClearDepositedFds()
      requires Shape()
      modifies this`depositedFdCount, this`closed
      ensures Shape() && Abs() == ClearDeposit(old(Abs()))
    {
      for i := 0 to depositedFdCount
        invariant closed == old(closed) + depositedFds[..i]
      {
        closed := closed + [depositedFds[i]];
      }
      depositedFdCount := 0;
    }

    method StoreDeposit(fds: seq<Fd>)
      requires Shape() && |fds| <= DEPOSITED_FD_COUNT
      modifies this`depositedFdCount, depositedFds
      ensures Shape() && Abs() == old(Abs()).(deposit := fds)
    {
      for i := 0 to |fds|
        invariant depositedFds[..i] == fds[..i]
      {
        depositedFds[i] := fds[i];
      }
      depositedFdCount := |fds|;
    }

    method SendTo(p: Addr, m: Down, ok: bool)
      requires Shape() && p in heap
      modifies this`down
      ensures Abs() == Send(old(Abs()), p, m, ok)
    {
      if ok {
        down := down[heap[p] := Queue(down, heap[p]) + [m]];
      }
    }

    method TryDeliverFds(net: Net)
      requires Shape() && RolesLive(Abs())
      modifies this`down, this`closed, this`depositedFdCount, this`producerWaitingFds
      ensures Shape() && Abs() == Deliver(old(Abs()), net)
    {
      if producer.None? || depositedFdCount < DEPOSITED_FD_COUNT {
        producerWaitingFds := true;
        return;
      }
      if !net.toProducer {
        producerWaitingFds := true;
        return;
      }
      SendTo(producer.value, FdsReady(depositedFds[..depositedFdCount]), true);
      if consumer.Some? {
        SendTo(consumer.value, Announce(depositedFds[..depositedFdCount]), net.toConsumer);
      }
      ClearDepositedFds();
      producerWaitingFds := false;
    }

    method DropClient(p: Addr)
      requires Shape() && p in heap
      modifies this
      ensures Shape() && Abs() == Drop(old(Abs()), p)
    {
      if Some(p) == consumer {
        consumer := None;
        ClearDepositedFds();
      } else if Some(p) == producer {
        producer := None;
        producerWaitingScreen := false;
        producerWaitingFds := false;
      }
      watched := watched - {heap[p]};
      heap := heap - {p};
    }

    method RecvFds(carried: seq<Fd>) returns (fds: seq<Fd>)
      ensures fds == Five(carried)
    {
      return if |carried| > DEPOSITED_FD_COUNT then carried[..DEPOSITED_FD_COUNT] else carried;
    }

    method HandleClientData(p: Addr, r: Received, net: Net)
      requires Shape() && RolesLive(Abs()) && p in heap
      modifies this, depositedFds
      ensures Shape() && Abs() == Handle(old(Abs()), p, r, net)
    {
      if r.Gone? {
        DropClient(p);
        return;
      }
      if r.size > 0 {
        if r.size > SCREEN_INFO_BYTES || !r.payloadArrives {
          DropClient(p);
          return;
        }
      }
      if r.kind == CONSUMER_HELLO {
        var fds := RecvFds(r.carried);
        if Some(p) == consumer && |fds| == DEPOSITED_FD_COUNT {
          ClearDepositedFds();
          StoreDeposit(fds);
          if producerWaitingFds {
            TryDeliverFds(net);
          }
        } else if Some(p) == consumer {
          closed := closed + fds;
        }
      } else if r.kind == SCREEN_INFO {
        if Some(p) == consumer && r.size == SCREEN_INFO_BYTES {
          storedScreen := Some(r.payload);
          if producerWaitingScreen && producer.Some? {
            SendTo(producer.value, Screen(r.payload), net.toProducer);
            producerWaitingScreen := false;
          }
        }
      } else if r.kind == PICKUP_FDS {
        if Some(p) == producer {
          TryDeliverFds(net);
        }
      }
    }

    method SeatConsumer(p: Addr, a: Arrival)
      requires Shape() && RolesLive(Abs()) && p !in heap
      modifies this, depositedFds
      ensures Shape() && Abs() == AdmitConsumer(old(Abs()), p, a)
    {
      heap := heap[p := a.conn];
      if consumer.Some? {
        DropClient(consumer.value);
      }
      assert heap == Evict(old(Abs()), old(consumer)).heap[p := a.conn];
      consumer := Some(p);
      ClearDepositedFds();
      var fds := RecvFds(a.carried);
      StoreDeposit(fds);
      if producerWaitingFds {
        TryDeliverFds(a.net);
      }
    }

    method SeatProducer(p: Addr, a: Arrival)
      requires Shape() && RolesLive(Abs()) && p !in heap
      modifies this, depositedFds
      ensures Shape() && Abs() == AdmitProducer(old(Abs()), p, a)
    {
      heap := heap[p := a.conn];
      if producer.Some? {
        DropClient(producer.value);
      }
      assert heap == Evict(old(Abs()), old(producer)).heap[p := a.conn];
      producer := Some(p);
      producerWaitingScreen := false;
      producerWaitingFds := false;
      assert Abs() == Evict(old(Abs()), old(producer)).(heap := heap, producer := Some(p), waitScreen := false, waitFds := false);
      if storedScreen.Some? {
        SendTo(p, Screen(storedScreen.value), a.net.toProducer);
      } else {
        producerWaitingScreen := true;
      }
    }

    method HandleNewConnection(a: Arrival)
      requires Shape() && RolesLive(Abs())
      modifies this, depositedFds
      ensures Shape() && Abs() == Admit(old(Abs()), a)
    {
      if !a.accepted || !a.whole {
        return;
      }
      var block := Calloc(heap, a.block);
      if block.None? {
        return;
      }
      var p := block.value;
      if a.kind == CONSUMER_HELLO {
        SeatConsumer(p, a);
      } else if a.kind == PRODUCER_HELLO {
        SeatProducer(p, a);
      } else {
        return;
      }
      if a.watched {
        watched := watched[a.conn := p];
      }
    }

    /** The inner loop of daemon_run. The handlers require a live client, so this verifies only
        because no event that passes the guard points at a freed one. */
    method RunBatch(events: seq<Event>)
      requires Shape() && Valid(Abs()) && Batch(Abs(), events)
      modifies this, depositedFds
      ensures Shape() && Valid(Abs()) && Abs() == After(old(Abs()), events)
    {
      ghost var before := Abs();
      for i := 0 to |events|
        invariant Shape() && Abs() == After(before, events[..i])
      {
        BatchCoherent(before, events, i);
        BatchIsFaithful(before, events, i);
        assert events[..i + 1][..i] == events[..i];
        match events[i]
        case Listen(a) => HandleNewConnection(a);
        case Client(c, p, hangup, input, net) =>
          if Some(p) == consumer || Some(p) == producer {
            assert heap[p] == c;
            if hangup {
              DropClient(p);
            } else {
              HandleClientData(p, input, net);
            }
          }
      }
      assert events[..|events|] == events;
      BatchCoherent(before, events, |events|);
    }
  }
}
