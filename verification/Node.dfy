/** One side of the trunk with all the link objects it ever had. */
module Node {
  import opened Bytes
  import opened Packets
  import opened PacketCache
  import opened OutLinkSpec
  import T = Trunk

  /** A link object; killed records that it got a dead-link stop. */
  datatype Obj = Obj(id: Id, link: Link, killed: bool)

  /** Links are known by their position in objs. Removed links stay there: their objects may outlive the table. */
  datatype Node = Node(trunk: T.Trunk<nat>, objs: seq<Obj>, connects: seq<Cached>)

  function SetLink(n: Node, oid: nat, link: Link): Node
    requires oid < |n.objs|
  {
    n.(objs := n.objs[oid := n.objs[oid].(link := link)])
  }

  /** The trunk's part of a handler in which the link has made the given call. */
  function Host(t: T.Trunk<nat>, id: Id, call: HosterCall, now: Time): T.Trunk<nat> {
    match call
    case ReadData(data) => T.SendCmdData(t, id, T.SendChunk(data), now)
    case Close => T.CloseConnect(t, id, now)
  }

  /** Events that come from the socket, the timers and the executor of the link itself. */
  predicate IsLocal(e: Event) {
    !e.Arrive? && !e.StopAt?
  }

  function LocalEvent(n: Node, oid: nat, e: Event, now: Time): Node
    requires oid < |n.objs| && IsLocal(e) && Enabled(n.objs[oid].link, e)
  {
    var before, after := n.objs[oid].link, Apply(n.objs[oid].link, e);
    var m := SetLink(n, oid, after);
    if |after.calls| > |before.calls|
    then m.(trunk := Host(n.trunk, n.objs[oid].id, after.calls[|after.calls| - 1], now)) else m
  }

  function AddObj(n: Node, id: Id, connected: bool, now: Time): Node {
    n.(trunk := T.AddLink(n.trunk, id, |n.objs|, now), objs := n.objs + [Obj(id, Run(FRESH_LINK, connected), false)])
  }

  /** The client accepts a local connection under a new identifier. */
  function AddConnect(n: Node, id: Id, point: U32, now: Time): Node {
    if id in n.trunk.table then n
    else
      var m, p := AddObj(n, id, true, now), CreateConnect(id, point, 300);
      m.(connects := Put(n.connects, p, now), trunk := T.Send(m.trunk, p))
  }

  /** accepted: the server's factory knows the point. */
  function Receive(n: Node, p: Packet, accepted: bool, now: Time): Node {
    match p
    case CreateConnect(id, point, timeout) =>
      var m := n.(trunk := T.Send(n.trunk, AckCreate(id)));
      if id in n.trunk.table || !accepted then m else AddObj(m, id, false, now)
    case AckCreate(id) => n.(connects := Without(n.connects, id))
    case Data(id, index, data) =>
      if id !in n.trunk.table || n.trunk.table[id].link >= |n.objs| then n
      else
        var oid := n.trunk.table[id].link;
        SetLink(n, oid, SendData(n.objs[oid].link, index, data)).(trunk := T.Send(n.trunk, AckData(id)))
    case Release(id, index) =>
      if id !in n.trunk.table || n.trunk.table[id].link >= |n.objs| then n
      else
        var oid := n.trunk.table[id].link;
        SetLink(n, oid, Stop(n.objs[oid].link, index))
    case Live(id) => n.(trunk := T.ProcessLive(n.trunk, id, now))
    case AckData(_) => n
  }

  predicate Dies(n: Node, oid: nat, now: Time)
    requires oid < |n.objs|
  {
    var id := n.objs[oid].id;
    id in T.DeadLinks(n.trunk, now) && n.trunk.table[id].link == oid
  }

  function LiveTick(n: Node, now: Time): Node {
    n.(trunk := T.SendLivePackets(n.trunk, now),
       objs := seq(|n.objs|, i requires 0 <= i < |n.objs| =>
         if Dies(n, i, now) then Obj(n.objs[i].id, Stop(n.objs[i].link, 0), true) else n.objs[i]))
  }

  function ResendTick(n: Node, now: Time): Node {
    n.(trunk := T.OnCacheResend(n.trunk, now))
  }

  function ConnectResendTick(n: Node, now: Time): Node {
    var live := Unexpired(n.connects, now);
    n.(connects := PostponeAll(ConnectCache, live, now),
       trunk := n.trunk.(sent := n.trunk.sent + multiset(DueInfos(ConnectCache, live, now))))
  }
}
