/** Two trunk ends and the network between them. */
module Protocol {
  import opened Bytes
  import opened Packets
  import opened PacketCache
  import opened OutLinkSpec
  import opened Node
  import Wire
  import T = Trunk

  datatype System = System(client: Node, server: Node)

  function EmptyNode(side: Side, start: Time): Node {
    Node(T.Trunk(side, map[], [], start + T.LIVE_UPDATE_TICK, multiset{}), [], [])
  }

  function Start(clientStart: Time, serverStart: Time): System {
    System(EmptyNode(ClientSide, clientStart), EmptyNode(ServerSide, serverStart))
  }

  function At(s: System, side: Side): Node {
    if side.ClientSide? then s.client else s.server
  }

  function Put(s: System, side: Side, n: Node): System {
    if side.ClientSide? then s.(client := n) else s.(server := n)
  }

  /** One handler of one process, run to its end. */
  datatype Action =
    | NewConnect(id: Id, point: U32, now: Time)
    | Local(side: Side, oid: nat, event: Event, now: Time)
    | Deliver(side: Side, packet: Packet, accepted: bool, now: Time)
    | LiveTimer(side: Side, now: Time)
    | ResendTimer(side: Side, now: Time)
    | ConnectResendTimer(now: Time)

  /** Where the handler runs. */
  predicate AtSide(a: Action, side: Side) {
    match a
    case NewConnect(_, _, _) => side.ClientSide?
    case ConnectResendTimer(_) => side.ClientSide?
    case Local(at, _, _, _) => at == side
    case Deliver(at, _, _, _) => at == side
    case LiveTimer(at, _) => at == side
    case ResendTimer(at, _) => at == side
  }

  /** Any packet the other side has ever sent can arrive at any time, in any order and any number of times.
      Identifiers of new connections are arbitrary. */
  predicate Possible(s: System, a: Action) {
    match a
    case Local(side, oid, e, _) =>
      var n := At(s, side);
      oid < |n.objs| && IsLocal(e) && Enabled(n.objs[oid].link, e)
    case Deliver(side, p, _, _) => p in At(s, Other(side)).trunk.sent && (p.Data? ==> |p.data| < 0x1_0000_0000)
    case _ => true
  }

  function Do(s: System, a: Action): System
    requires Possible(s, a)
  {
    match a
    case NewConnect(id, point, now) => s.(client := AddConnect(s.client, id, point, now))
    case Local(side, oid, e, now) => Put(s, side, LocalEvent(At(s, side), oid, e, now))
    case Deliver(side, p, accepted, now) =>
      var received := Wire.Decode(side, Wire.Encode(Other(side), p));
      if received.None? then s else Put(s, side, Receive(At(s, side), received.value, accepted, now))
    case LiveTimer(side, now) => Put(s, side, LiveTick(At(s, side), now))
    case ResendTimer(side, now) => Put(s, side, ResendTick(At(s, side), now))
    case ConnectResendTimer(now) => s.(client := ConnectResendTick(s.client, now))
  }

  ghost predicate Feasible(s: System, run: seq<Action>)
    decreases run
  {
    run == [] || (Possible(s, run[0]) && Feasible(Do(s, run[0]), run[1..]))
  }

  function After(s: System, run: seq<Action>): System
    requires Feasible(s, run)
    decreases run
  {
    if run == [] then s else After(Do(s, run[0]), run[1..])
  }
}
