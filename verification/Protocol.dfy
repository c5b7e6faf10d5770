/** Names shared by the daemon, the consumer and the producer: message numbers, the five
    deposited descriptor slots, and the tokens that stand for sockets and descriptors. */
module Protocol {

  const CONSUMER_HELLO := 1
  const PRODUCER_HELLO := 2
  const SCREEN_INFO := 7
  const PICKUP_FDS := 9

  const DEPOSITED_FD_COUNT := 5
  const MAX_BUFS := 8
  const SCREEN_INFO_BYTES := 16
  const UINT32 := 0x1_0000_0000

  type Byte = b: nat | b < 256
  type Word = w: nat | w < 0x1_0000_0000

  datatype Option<+T> = None | Some(value: T)

  /** One control-socket connection. Numbers are never reused, unlike descriptor numbers. */
  type Conn = nat

  /** What a deposited descriptor is for, in the order of the hello's descriptor array. */
  datatype Role = BufReady | Fence | Data | Shm | Audio

  /** An open file description. A deposited one names the consumer connection that made it,
      the generation it was made for and its role; the program itself never sees that tag. */
  datatype Fd = Deposited(conn: Conn, gen: nat, role: Role) | Plain(id: nat)

  datatype ScreenInfo = ScreenInfo(width: nat, height: nat, format: nat, refresh: nat)

  datatype BufInfo = BufInfo(stride: nat, width: nat, height: nat, format: nat, modifier: nat, offset: nat)

  /** What recv_fds with room for `max` descriptors returns of those a message carries. */
  function Returned(carried: seq<Fd>, max: nat): (fds: seq<Fd>)
    ensures |fds| <= max
  {
    if |carried| <= max then carried else carried[..max]
  }

  /** Its control buffer is padded to whole words, so with an odd `max` one descriptor more fits:
      the kernel installs it and nobody is told its number. */
  function Unseen(carried: seq<Fd>, max: nat): seq<Fd> {
    if max % 2 == 1 && |carried| > max then [carried[max]] else []
  }

  /** What the kernel installs in the receiver; the rest it drops. */
  function Installed(carried: seq<Fd>, max: nat): seq<Fd> {
    Returned(carried, max) + Unseen(carried, max)
  }

  /** A message the daemon sends. FdsReady carries descriptors to a producer; Announce is the
      same message type sent to the consumer without descriptors. `delivered` is an
      annotation: it says which deposit went out and is not on the wire. */
  datatype Down =
    | Screen(info: ScreenInfo)
    | FdsReady(fds: seq<Fd>)
    | Announce(delivered: seq<Fd>)

  /** A message a client sends on its control socket. */
  datatype Up = ConsumerHello(fds: seq<Fd>) | ScreenUp(info: ScreenInfo) | ProducerHello | PickupRequest

  function Queue<M>(queues: map<Conn, seq<M>>, c: Conn): seq<M> {
    if c in queues then queues[c] else []
  }

  function OneIf(b: bool): nat {
    if b then 1 else 0
  }

  /** Whether a slot holds a descriptor, as a number. */
  function One(slot: Option<Fd>, fd: Fd): nat {
    OneIf(slot == Some(fd))
  }

  /** The five descriptors of one generation, in slot order. */
  function DepositOf(c: Conn, gen: nat): seq<Fd> {
    [Deposited(c, gen, BufReady), Deposited(c, gen, Fence), Deposited(c, gen, Data),
     Deposited(c, gen, Shm), Deposited(c, gen, Audio)]
  }
}
