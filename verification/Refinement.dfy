/** The objects do what the whole-system model does: each handler, run on the trunk object and the link objects,
    takes a representation of a node to a representation of its successor. */
module Refinement {
  import opened Bytes
  import opened Packets
  import opened PacketCache
  import opened OutLinkSpec
  import opened OutLinkProofs
  import opened OutLinkObject
  import opened TrunkObjects
  import opened Node
  import opened NodeProofs
  import opened Dispatch
  import opened TrunkEnds
  import Wire
  import P = Protocol
  import opened EndToEnd
  import opened Projection
  import T = Trunk

  // ----- Tables of objects and tables of positions

  /** The table of the trunk names objects where the model names their positions in links. */
  ghost predicate SameTable(table: map<Id, T.Info<OutLink>>, links: seq<OutLink>, positions: map<Id, T.Info<nat>>) {
    && table.Keys == positions.Keys
    && forall id <- table :: SameEntry(table[id], links, positions[id])
  }

  ghost predicate SameEntry(entry: T.Info<OutLink>, links: seq<OutLink>, position: T.Info<nat>) {
    && position.link < |links| && links[position.link] == entry.link
    && position.nextIndex == entry.nextIndex && position.deadAt == entry.deadAt
  }

  ghost predicate SameTrunk(t: T.Trunk<OutLink>, links: seq<OutLink>, u: T.Trunk<nat>) {
    && t.side == u.side && t.cache == u.cache && t.nextLive == u.nextLive && t.sent == u.sent
    && SameTable(t.table, links, u.table)
  }

  lemma SendCmdDataSame(t: T.Trunk<OutLink>, links: seq<OutLink>, u: T.Trunk<nat>, id: Id, cmd: T.Command, now: Time)
    requires SameTrunk(t, links, u)
    ensures SameTrunk(T.SendCmdData(t, id, cmd, now), links, T.SendCmdData(u, id, cmd, now))
  {
  }

  lemma CloseConnectSame(t: T.Trunk<OutLink>, links: seq<OutLink>, u: T.Trunk<nat>, id: Id, now: Time)
    requires SameTrunk(t, links, u)
    ensures SameTrunk(T.CloseConnect(t, id, now), links, T.CloseConnect(u, id, now))
  {
    SendCmdDataSame(t, links, u, id, T.SendRelease, now);
    hide T.SendCmdData;
  }

  lemma ProcessLiveSame(t: T.Trunk<OutLink>, links: seq<OutLink>, u: T.Trunk<nat>, id: Id, now: Time)
    requires SameTrunk(t, links, u)
    ensures SameTrunk(T.ProcessLive(t, id, now), links, T.ProcessLive(u, id, now))
  {
  }

  lemma TrunkAfterSame(t: T.Trunk<OutLink>, links: seq<OutLink>, u: T.Trunk<nat>, p: Packet, now: Time)
    requires SameTrunk(t, links, u)
    ensures SameTrunk(TrunkAfter(t, p, now), links, TrunkAfter(u, p, now))
  {
    ProcessLiveSame(t, links, u, p.id, now);
    hide T.ProcessLive;
  }

  lemma SendLivePacketsSame(t: T.Trunk<OutLink>, links: seq<OutLink>, u: T.Trunk<nat>, now: Time)
    requires SameTrunk(t, links, u)
    ensures SameTrunk(T.SendLivePackets(t, now), links, T.SendLivePackets(u, now))
    ensures T.DeadLinks(t, now) == T.DeadLinks(u, now)
  {
    assert forall id <- t.table :: SameEntry(t.table[id], links, u.table[id]);
    assert T.LivePackets(t, now) == T.LivePackets(u, now);
  }

  lemma AddLinkSame(t: T.Trunk<OutLink>, links: seq<OutLink>, u: T.Trunk<nat>, id: Id, link: OutLink, now: Time)
    requires SameTrunk(t, links, u)
    ensures SameTrunk(T.AddLink(t, id, link, now), links + [link], T.AddLink(u, id, |links|, now))
  {
    assert forall i <- t.table :: SameEntry(t.table[i], links, u.table[i]);
  }

  // ----- The objects of one side

  ghost predicate Apart(links: seq<OutLink>) {
    forall i, j | 0 <= i < j < |links| :: links[i] != links[j]
  }

  /** links are all link objects the side ever had, in the order of their creation. */
  ghost predicate Represents(trunk: TrunkLink, links: seq<OutLink>, n: Node)
    reads trunk, links
  {
    && trunk.Valid() && Apart(links) && |links| == |n.objs|
    && SameTrunk(trunk.State(), links, n.trunk)
    && forall i | 0 <= i < |links| :: links[i].State() == n.objs[i].link
  }

  /** A link's own handler, and the call it makes on the trunk. */
  method LinkHandler(trunk: TrunkLink, links: seq<OutLink>, ghost n: Node, oid: nat, id: Id, e: Event, now: Time)
    requires Represents(trunk, links, n) && oid < |links| && id == n.objs[oid].id
    requires IsLocal(e) && Enabled(n.objs[oid].link, e) && LinkOk(n.objs[oid].link)
    modifies trunk, links
    ensures Represents(trunk, links, LocalEvent(n, oid, e, now))
  {
    hide Apply, Enabled, LinkOk, Host, SameTrunk, LocalEvent, T.SendCmdData, T.CloseConnect;
    var link, before := links[oid], |links[oid].calls|;
    ghost var after := Apply(n.objs[oid].link, e);
    HandleAt(trunk, links, n, oid, e);
    LocalTrunk(n, oid, e, now);
    if |link.calls| > before {
      HostSame(trunk.State(), links, n.trunk, id, link.calls[|link.calls| - 1], now);
      CallHost(trunk, id, link.calls[|link.calls| - 1], now);
    }
  }

  method HandleAt(trunk: TrunkLink, links: seq<OutLink>, ghost n: Node, oid: nat, e: Event)
    requires Represents(trunk, links, n) && oid < |links|
    requires IsLocal(e) && Enabled(n.objs[oid].link, e) && LinkOk(n.objs[oid].link)
    modifies links[oid]
    ensures Represents(trunk, links, SetLink(n, oid, Apply(n.objs[oid].link, e)))
  {
    hide Apply, Enabled, LinkOk, SameTrunk;
    Handle(links[oid], e);
  }

  method Handle(link: OutLink, e: Event)
    requires LinkOk(link.State()) && IsLocal(e) && Enabled(link.State(), e)
    modifies link
    ensures link.State() == Apply(old(link.State()), e)
  {
    match e
    case ReadCompletes(err, bytes) => link.RequestReadProcessing(err, bytes);
    case WriteCompletes(err, moved) => link.RequestWriteProcessing(err, moved);
    case IdleExpires => link.CancelIdleTimer();
    case IdleHandler => link.IdleTimerHandler();
    case CloseCheck => link.CheckReadyCloseProcessing();
    case ResolveCompletes(err, points) => link.ResolverProcessing(err, points);
    case ConnectCompletes(err) => link.RequestConnectProcessing(err);
  }

  method CallHost(trunk: TrunkLink, id: Id, call: HosterCall, now: Time)
    requires trunk.Valid()
    modifies trunk
    ensures trunk.Valid()
    ensures trunk.State() == match call {
              case ReadData(data) => T.SendCmdData(old(trunk.State()), id, T.SendChunk(data), now)
              case Close => T.CloseConnect(old(trunk.State()), id, now)
            }
  {
    match call
    case ReadData(data) => trunk.SendCmdData(id, T.SendChunk(data), now);
    case Close => trunk.CloseConnect(id, now);
  }

  lemma HostSame(t: T.Trunk<OutLink>, links: seq<OutLink>, u: T.Trunk<nat>, id: Id, call: HosterCall, now: Time)
    requires SameTrunk(t, links, u)
    ensures SameTrunk(match call {
              case ReadData(data) => T.SendCmdData(t, id, T.SendChunk(data), now)
              case Close => T.CloseConnect(t, id, now)
            }, links, Host(u, id, call, now))
  {
    hide T.SendCmdData, T.CloseConnect, SameTrunk;
    match call
    case ReadData(data) => SendCmdDataSame(t, links, u, id, T.SendChunk(data), now);
    case Close => CloseConnectSame(t, links, u, id, now);
  }

  ghost function States(links: seq<OutLink>): (states: seq<Link>)
    reads links
    ensures |states| == |links| && forall i | 0 <= i < |links| :: states[i] == links[i].State()
  {
    if links == [] then [] else States(links[..|links| - 1]) + [links[|links| - 1].State()]
  }

  // ----- Packets, ticks and new connections

  lemma TableLinksAreKnown(trunk: TrunkLink, links: seq<OutLink>, n: Node)
    requires Represents(trunk, links, n)
    ensures forall link <- trunk.Links() :: link in links
    ensures forall p, link | IsFor(trunk.State(), p, link) :: link in trunk.Links()
  {
    TableEntries(trunk.outLinks);
    forall link <- trunk.Links() ensures link in links {
      var i :| 0 <= i < |trunk.outLinks| && trunk.outLinks[i].link == link;
      var id := trunk.outLinks[i].connectId;
      assert SameEntry(trunk.State().table[id], links, n.trunk.table[id]);
    }
    forall id <- trunk.State().table ensures trunk.State().table[id].link in trunk.Links() {
      assert Occurs(trunk.outLinks, id);
    }
  }

  lemma SameAddressee(t: T.Trunk<OutLink>, links: seq<OutLink>, u: T.Trunk<nat>, p: Packet, i: nat)
    requires SameTrunk(t, links, u) && Apart(links) && i < |links|
    ensures IsFor(t, p, links[i]) <==> IsFor(u, p, i)
  {
    if p.id in t.table {
      assert SameEntry(t.table[p.id], links, u.table[p.id]);
    }
  }

  /** A trunk with table t and links in these states is node n. */
  ghost predicate Shown(t: T.Trunk<OutLink>, links: seq<OutLink>, states: seq<Link>, n: Node) {
    && Apart(links) && |links| == |states| == |n.objs| && SameTrunk(t, links, n.trunk)
    && forall i | 0 <= i < |links| :: states[i] == n.objs[i].link
  }

  lemma RepresentsIsShown(trunk: TrunkLink, links: seq<OutLink>, n: Node)
    ensures Represents(trunk, links, n) <==> trunk.Valid() && Shown(trunk.State(), links, States(links), n)
  {
  }

  ghost predicate Reached(t: T.Trunk<OutLink>, links: seq<OutLink>, before: seq<Link>, after: seq<Link>, p: Packet) {
    && |before| == |links| == |after|
    && forall i | 0 <= i < |links| :: after[i] == if IsFor(t, p, links[i]) then LinkAfter(before[i], p) else before[i]
  }

  lemma ReachedBy(t: T.Trunk<OutLink>, links: seq<OutLink>, before: seq<Link>, after: seq<Link>, p: Packet)
    requires |before| == |links| == |after|
    requires forall i | 0 <= i < |links| ::
               after[i] == if IsFor(t, p, links[i]) then LinkAfter(before[i], p) else before[i]
    ensures Reached(t, links, before, after, p)
  {
  }

  /** A packet that is neither a request nor the acknowledgement of one. */
  lemma DispatchShown(t: T.Trunk<OutLink>, links: seq<OutLink>, before: seq<Link>, n: Node, p: Packet, accepted: bool,
                      now: Time, after: seq<Link>)
    requires TableOk(n.objs, n.trunk.table) && !IsHandover(p)
    requires Shown(t, links, before, n) && Reached(t, links, before, after, p)
    ensures Shown(TrunkAfter(t, p, now), links, after, Receive(n, p, accepted, now))
    ensures Receive(n, p, accepted, now).connects == n.connects
  {
    NodeDispatches(n, p, accepted, now);
    TrunkAfterSame(t, links, n.trunk, p, now);
    hide SameTrunk, TableOk, LinkAfter, Receive, TrunkAfter;
    forall i | 0 <= i < |links| ensures after[i] == Receive(n, p, accepted, now).objs[i].link {
      SameAddressee(t, links, n.trunk, p, i);
    }
  }

  ghost predicate RepresentsClient(client: TrunkClient, links: seq<OutLink>, n: Node)
    reads client, client.trunk, links
  {
    Represents(client.trunk, links, n) && client.trunk.side.ClientSide? && client.connectCache == n.connects
  }

  lemma ClientGetsNoRequest(d: Octets)
    ensures var p := Wire.Decode(ClientSide, d); p.Some? ==> !p.value.CreateConnect?
  {
  }

  lemma ServerGetsNoAck(d: Octets)
    ensures var p := Wire.Decode(ServerSide, d); p.Some? ==> !p.value.AckCreate?
  {
  }

  method ClientReceives(client: TrunkClient, links: seq<OutLink>, ghost n: Node, d: Octets, ghost accepted: bool,
                        now: Time)
    requires RepresentsClient(client, links, n) && TableOk(n.objs, n.trunk.table)
    modifies client, client.trunk, links
    ensures RepresentsClient(client, links, ReceiveDatagram(n, ClientSide, d, accepted, now))
  {
    hide Wire.Decode, LinkAfter, TrunkAfter, TableOk, Receive, Shown, Represents, TableOf, Distinct, LinksOf, Apart;
    ClientGetsNoRequest(d);
    TableLinksAreKnown(client.trunk, links, n);
    RepresentsIsShown(client.trunk, links, n);
    ghost var t, p, before := client.trunk.State(), Wire.Decode(ClientSide, d), States(links);
    client.ProcessTrunkData(d, now);
    ghost var after := States(links);
    if p.Some? && p.value.AckCreate? {
      AckRepresents(n, p.value.id, accepted, now, t);
      AckShown(t, links, before, n, p.value.id);
      assert after == before;
    } else if p.Some? {
      assert Reached(t, links, before, after, p.value);
      DispatchShown(t, links, before, n, p.value, accepted, now, after);
    } else {
      assert after == before;
    }
    RepresentsIsShown(client.trunk, links, ReceiveDatagram(n, ClientSide, d, accepted, now));
  }

  lemma AckShown(t: T.Trunk<OutLink>, links: seq<OutLink>, states: seq<Link>, n: Node, id: Id)
    requires Shown(t, links, states, n)
    ensures Shown(t, links, states, n.(connects := Without(n.connects, id)))
  {
  }

  lemma AckRepresents(n: Node, id: Id, accepted: bool, now: Time, t: T.Trunk<OutLink>)
    ensures Receive(n, AckCreate(id), accepted, now) == n.(connects := Without(n.connects, id))
    ensures TrunkAfter(t, AckCreate(id), now) == t && forall l :: LinkAfter(l, AckCreate(id)) == l
  {
  }

  lemma FreshOk()
    ensures LinkOk(FRESH_LINK)
  {
  }

  lemma SendSame(t: T.Trunk<OutLink>, links: seq<OutLink>, u: T.Trunk<nat>, p: Packet)
    requires SameTrunk(t, links, u)
    ensures SameTrunk(T.Send(t, p), links, T.Send(u, p))
  {
  }

  lemma RequestIsReceived(n: Node, p: Packet, accepted: bool, now: Time)
    requires p.CreateConnect?
    ensures var m := n.(trunk := T.Send(n.trunk, AckCreate(p.id)));
            Receive(n, p, accepted, now)
              == if p.id in n.trunk.table || !accepted then m else AddObj(m, p.id, false, now)
  {
    hide Run;
  }

  lemma RequestLeavesLinks(p: Packet)
    requires p.CreateConnect?
    ensures forall l :: LinkAfter(l, p) == l
  {
  }

  lemma SameKeys(t: T.Trunk<OutLink>, links: seq<OutLink>, u: T.Trunk<nat>)
    requires SameTrunk(t, links, u)
    ensures t.table.Keys == u.table.Keys
  {
  }

  lemma AddedSame(t: T.Trunk<OutLink>, links: seq<OutLink>, n: Node, id: Id, link: OutLink, connected: bool, now: Time)
    requires SameTrunk(t, links, n.trunk) && Apart(links) && link !in links && |links| == |n.objs|
    ensures var m := AddObj(n, id, connected, now);
            && Apart(links + [link]) && SameTrunk(T.AddLink(t, id, link, now), links + [link], m.trunk)
            && m.objs == n.objs + [Obj(id, Run(FRESH_LINK, connected), false)] && m.connects == n.connects
  {
    hide SameTrunk, Run;
    AddLinkSame(t, links, n.trunk, id, link, now);
  }

  method AddsLink(trunk: TrunkLink, p: Option<Packet>, made: OutLink?) returns (adds: bool)
    requires trunk.Valid()
    ensures adds <==> p.Some? && p.value.CreateConnect? && p.value.id !in trunk.State().table && made != null
  {
    if p.None? || !p.value.CreateConnect? {
      return false;
    }
    var existing := trunk.GetOutLink(p.value.id);
    return existing == null && made != null;
  }

  /** made is what the factory makes for the point, if anything. */
  method ServerReceives(server: TrunkServer, links: seq<OutLink>, ghost n: Node, d: Octets, made: OutLink?, now: Time)
      returns (added: bool)
    requires Represents(server.trunk, links, n) && server.trunk.side.ServerSide? && TableOk(n.objs, n.trunk.table)
    requires made != null ==> made !in links && made.State() == FRESH_LINK
    modifies server.trunk, links, made
    ensures added ==> made != null
    ensures Represents(server.trunk, if added then links + [made] else links,
                       ReceiveDatagram(n, ServerSide, d, made != null, now))
  {
    hide Wire.Decode, LinkAfter, TrunkAfter, TableOk, Receive, Shown, Represents, TableOf, Distinct, LinksOf, Apart;
    hide LinkOk, Run, T.AddLink, T.Send, States, Reached, IsFor;
    FreshOk();
    TableLinksAreKnown(server.trunk, links, n);
    RepresentsIsShown(server.trunk, links, n);
    var p := Wire.Decode(ServerSide, d);
    ghost var t, before := server.trunk.State(), States(links);
    added := AddsLink(server.trunk, p, made);
    server.ProcessTrunkData(d, made, now);
    ghost var all, after := if added then links + [made] else links, States(links);
    assert made != null ==> States(links + [made]) == after + [made.State()];
    ghost var newState := if added then made.State() else FRESH_LINK;
    ServerShown(t, links, before, n, d, made, now, server.trunk.State(), after, newState);
    RepresentsIsShown(server.trunk, all, ReceiveDatagram(n, ServerSide, d, made != null, now));
  }

  /** What the server's handler leaves behind is the model's reception. */
  lemma ServerShown(t: T.Trunk<OutLink>, links: seq<OutLink>, before: seq<Link>, n: Node, d: Octets, made: OutLink?,
                    now: Time, t': T.Trunk<OutLink>, after: seq<Link>, newState: Link)
    requires Shown(t, links, before, n) && TableOk(n.objs, n.trunk.table) && (made != null ==> made !in links)
    requires |before| == |links| == |after|
    requires var p := Wire.Decode(ServerSide, d);
             && (forall i | 0 <= i < |links| ::
                   after[i] == if p.Some? && IsFor(t, p.value, links[i]) then LinkAfter(before[i], p.value)
                               else before[i])
             && t' == (if p.None? then t
                       else if !p.value.CreateConnect? then TrunkAfter(t, p.value, now)
                       else if p.value.id in t.table || made == null then T.Send(t, AckCreate(p.value.id))
                       else T.AddLink(T.Send(t, AckCreate(p.value.id)), p.value.id, made, now))
    requires newState == Run(FRESH_LINK, false) || !Adds(t, Wire.Decode(ServerSide, d), made)
    ensures var adds := Adds(t, Wire.Decode(ServerSide, d), made);
            Shown(t', if adds then links + [made] else links, if adds then after + [newState] else after,
                  ReceiveDatagram(n, ServerSide, d, made != null, now))
  {
    hide Wire.Decode, LinkAfter, TrunkAfter, TableOk, Receive, Shown, Run, T.AddLink, T.Send, Reached, IsFor;
    ServerGetsNoAck(d);
    var p := Wire.Decode(ServerSide, d);
    if p.None? {
      assert after == before;
    } else if p.value.CreateConnect? {
      RequestLeavesLinks(p.value);
      assert after == before;
      RequestShown(t, links, before, n, p.value, made, now);
    } else {
      ReachedBy(t, links, before, after, p.value);
      DispatchShown(t, links, before, n, p.value, made != null, now, after);
    }
  }

  predicate Adds(t: T.Trunk<OutLink>, p: Option<Packet>, made: OutLink?) {
    p.Some? && p.value.CreateConnect? && p.value.id !in t.table && made != null
  }

  lemma RequestShown(t: T.Trunk<OutLink>, links: seq<OutLink>, states: seq<Link>, n: Node, p: Packet, made: OutLink?,
                     now: Time)
    requires Shown(t, links, states, n) && p.CreateConnect? && (made != null ==> made !in links)
    ensures var acked, m := T.Send(t, AckCreate(p.id)), Receive(n, p, made != null, now);
            if p.id in t.table || made == null then Shown(acked, links, states, m)
            else Shown(T.AddLink(acked, p.id, made, now), links + [made], states + [Run(FRESH_LINK, false)], m)
  {
    hide SameTrunk, Run, AddObj, T.AddLink, Apart, Receive;
    SameKeys(t, links, n.trunk);
    RequestIsReceived(n, p, made != null, now);
    SendSame(t, links, n.trunk, AckCreate(p.id));
    if p.id !in t.table && made != null {
      var acked := n.(trunk := T.Send(n.trunk, AckCreate(p.id)));
      AddedSame(T.Send(t, AckCreate(p.id)), links, acked, p.id, made, false, now);
    }
  }

  lemma ConnectedSame(t: T.Trunk<OutLink>, links: seq<OutLink>, n: Node, id: Id, point: U32, link: OutLink, now: Time)
    requires SameTrunk(t, links, n.trunk) && Apart(links) && link !in links && |links| == |n.objs|
    ensures var m, p := AddConnect(n, id, point, now), CreateConnect(id, point, 300);
            if id in t.table then m == n
            else
              && Apart(links + [link]) && SameTrunk(T.Send(T.AddLink(t, id, link, now), p), links + [link], m.trunk)
              && m.objs == n.objs + [Obj(id, Run(FRESH_LINK, true), false)] && m.connects == Put(n.connects, p, now)
  {
    SameKeys(t, links, n.trunk);
    hide SameTrunk, Run, T.AddLink, AddObj, Apart;
    if id !in t.table {
      AddedSame(t, links, n, id, link, true, now);
      var p := CreateConnect(id, point, 300);
      SendSame(T.AddLink(t, id, link, now), links + [link], AddObj(n, id, true, now).trunk, p);
    }
  }

  method ClientConnects(client: TrunkClient, links: seq<OutLink>, ghost n: Node, id: Id, point: U32, link: OutLink,
                        now: Time)
      returns (added: bool)
    requires RepresentsClient(client, links, n) && link !in links && link.State() == FRESH_LINK
    modifies client, client.trunk, link
    ensures RepresentsClient(client, if added then links + [link] else links, AddConnect(n, id, point, now))
    ensures added <==> id !in n.trunk.table
  {
    hide SameTrunk, LinkOk, Run, AddConnect, T.AddLink, T.Send, Apart;
    FreshOk();
    TableLinksAreKnown(client.trunk, links, n);
    ghost var t := client.trunk.State();
    ConnectedSame(t, links, n, id, point, link, now);
    SameKeys(t, links, n.trunk);
    var existing := client.trunk.GetOutLink(id);
    added := existing == null;
    client.AddConnect(id, point, link, now);
  }

  /** Link i is stopped on a tick exactly if the vector has a dead entry with it. */
  lemma SameDying(items: seq<OutLinkInfo>, t: T.Trunk<OutLink>, links: seq<OutLink>, n: Node, i: nat, now: Time)
    requires Distinct(items) && t.table == TableOf(items)
    requires SameTrunk(t, links, n.trunk) && Apart(links) && TableOk(n.objs, n.trunk.table) && i < |links| == |n.objs|
    ensures forall k | 0 <= k < |items| && items[k].link == links[i] ::
              Dies(n, i, now) <==> items[k].connectId in T.DeadLinks(t, now)
    ensures links[i] !in LinksOf(items) ==> !Dies(n, i, now)
  {
    TableEntries(items);
    SendLivePacketsSame(t, links, n.trunk, now);
    forall k | 0 <= k < |items| && items[k].link == links[i]
      ensures n.trunk.table[items[k].connectId].link == i && n.objs[i].id == items[k].connectId
    {
      assert SameEntry(t.table[items[k].connectId], links, n.trunk.table[items[k].connectId]);
      assert EntryOk(n.objs, items[k].connectId, n.trunk.table[items[k].connectId]);
    }
    if Dies(n, i, now) {
      assert SameEntry(t.table[n.objs[i].id], links, n.trunk.table[n.objs[i].id]);
      assert Occurs(items, n.objs[i].id);
    }
  }

  method LiveTicks(trunk: TrunkLink, links: seq<OutLink>, ghost n: Node, now: Time)
    requires Represents(trunk, links, n) && TableOk(n.objs, n.trunk.table)
    modifies trunk, links
    ensures Represents(trunk, links, LiveTick(n, now))
  {
    hide OutLinkSpec.Stop, SameTrunk, TableOk, Apart, T.DeadLinks, Dies;
    TableLinksAreKnown(trunk, links, n);
    ghost var t, items := trunk.State(), trunk.outLinks;
    SendLivePacketsSame(t, links, n.trunk, now);
    trunk.SendLivePacket(now);
    forall i | 0 <= i < |links|
      ensures links[i].State() == LiveTick(n, now).objs[i].link
    {
      SameDying(items, t, links, n, i, now);
    }
  }

  method ResendTicks(trunk: TrunkLink, links: seq<OutLink>, ghost n: Node, now: Time)
    requires Represents(trunk, links, n)
    modifies trunk
    ensures Represents(trunk, links, ResendTick(n, now))
  {
    trunk.OnCacheResend(now);
  }

  /** The resend part of the client's update timer: the two ticks, with a reading of the clock for each. */
  method ClientResendTicks(client: TrunkClient, links: seq<OutLink>, ghost n: Node, now: Time, later: Time)
    requires RepresentsClient(client, links, n)
    modifies client, client.trunk
    ensures RepresentsClient(client, links, ConnectResendTick(ResendTick(n, now), later))
  {
    client.OnCacheResend(now, later);
  }

  method ConnectResendTicks(client: TrunkClient, links: seq<OutLink>, ghost n: Node, now: Time)
    requires RepresentsClient(client, links, n)
    modifies client, client.trunk
    ensures RepresentsClient(client, links, ConnectResendTick(n, now))
  {
    client.ResendConnects(now);
  }

  // ----- One step of the system

  ghost predicate Disjoint(cs: seq<OutLink>, ss: seq<OutLink>) {
    forall i, j | 0 <= i < |cs| && 0 <= j < |ss| :: cs[i] != ss[j]
  }

  lemma Separate(cs: seq<OutLink>, ss: seq<OutLink>)
    requires Disjoint(cs, ss)
    ensures forall j | 0 <= j < |ss| :: ss[j] !in cs
    ensures forall i | 0 <= i < |cs| :: cs[i] !in ss
  {
  }

  /** The objects of both processes and the identifiers of their links, for system s. */
  ghost predicate Shows(client: TrunkClient, cs: seq<OutLink>, server: TrunkServer, ss: seq<OutLink>, s: P.System)
    reads client, client.trunk, cs, server.trunk, ss
  {
    && RepresentsClient(client, cs, s.client)
    && Represents(server.trunk, ss, s.server) && server.trunk.side.ServerSide?
    && client.trunk != server.trunk && Disjoint(cs, ss)
  }

  lemma SideOk(s: P.System)
    requires SystemOk(s)
    ensures TableOk(s.client.objs, s.client.trunk.table) && TableOk(s.server.objs, s.server.trunk.table)
    ensures LinksOk(s.client) && LinksOk(s.server)
  {
  }

  lemma TicksKeepConnects(n: Node)
    ensures forall now :: LiveTick(n, now).connects == n.connects && ResendTick(n, now).connects == n.connects
  {
  }

  method ClientAccepts(client: TrunkClient, links: seq<OutLink>, ghost n: Node, id: Id, point: U32, now: Time)
      returns (all: seq<OutLink>)
    requires RepresentsClient(client, links, n)
    modifies client, client.trunk
    ensures RepresentsClient(client, all, AddConnect(n, id, point, now))
    ensures forall i | 0 <= i < |all| :: all[i] in links || fresh(all[i])
  {
    hide Represents, AddConnect;
    var link := new OutLink();
    var added := ClientConnects(client, links, n, id, point, link, now);
    all := if added then links + [link] else links;
  }

  method ServerGets(server: TrunkServer, links: seq<OutLink>, ghost n: Node, d: Octets, accepted: bool, now: Time)
      returns (all: seq<OutLink>)
    requires Represents(server.trunk, links, n) && server.trunk.side.ServerSide? && TableOk(n.objs, n.trunk.table)
    modifies server.trunk, links
    ensures Represents(server.trunk, all, ReceiveDatagram(n, ServerSide, d, accepted, now))
    ensures forall i | 0 <= i < |all| :: all[i] in links || fresh(all[i])
  {
    hide Represents, ReceiveDatagram, TableOk;
    var made: OutLink? := null;
    if accepted {
      made := new OutLink();
    }
    var added := ServerReceives(server, links, n, d, made, now);
    all := if added then links + [made] else links;
  }

  /** One handler of the client. id is the identifier of the link in a local event. */
  method ClientActs(client: TrunkClient, links: seq<OutLink>, ghost n: Node, a: P.Action, id: Id)
      returns (all: seq<OutLink>)
    requires RepresentsClient(client, links, n) && TableOk(n.objs, n.trunk.table) && LinksOk(n)
    requires P.AtSide(a, ClientSide)
    requires a.Local? ==>
               && a.oid < |n.objs| && IsLocal(a.event) && Enabled(n.objs[a.oid].link, a.event)
               && id == n.objs[a.oid].id
    requires a.Deliver? && a.packet.Data? ==> |a.packet.data| < 0x1_0000_0000
    modifies client, client.trunk, links
    ensures RepresentsClient(client, all, NodeDo(n, ClientSide, a))
    ensures forall i | 0 <= i < |all| :: all[i] in links || fresh(all[i])
  {
    TicksKeepConnects(n);
    SameLength(client.trunk, links, n);
    hide TableOk, LinkOk, Enabled, Apply, Represents, ReceiveDatagram, AddConnect, ConnectResendTick, Host;
    hide Wire.Encode, Dies, LocalEvent, LiveTick, ResendTick;
    all := links;
    match a
    case NewConnect(cnt, point, now) => all := ClientAccepts(client, links, n, cnt, point, now);
    case Local(_, oid, e, now) =>
      LocalTrunk(n, oid, e, now);
      LinkHandler(client.trunk, links, n, oid, id, e, now);
    case Deliver(_, p, accepted, now) => ClientReceives(client, links, n, Wire.Encode(ServerSide, p), accepted, now);
    case LiveTimer(_, now) => LiveTicks(client.trunk, links, n, now);
    case ResendTimer(_, now) => ResendTicks(client.trunk, links, n, now);
    case ConnectResendTimer(now) => ConnectResendTicks(client, links, n, now);
  }

  /** One handler of the server. */
  method ServerActs(server: TrunkServer, links: seq<OutLink>, ghost n: Node, a: P.Action, id: Id)
      returns (all: seq<OutLink>)
    requires Represents(server.trunk, links, n) && server.trunk.side.ServerSide?
    requires TableOk(n.objs, n.trunk.table) && LinksOk(n) && P.AtSide(a, ServerSide)
    requires a.Local? ==>
               && a.oid < |n.objs| && IsLocal(a.event) && Enabled(n.objs[a.oid].link, a.event)
               && id == n.objs[a.oid].id
    requires a.Deliver? && a.packet.Data? ==> |a.packet.data| < 0x1_0000_0000
    modifies server.trunk, links
    ensures Represents(server.trunk, all, NodeDo(n, ServerSide, a))
    ensures forall i | 0 <= i < |all| :: all[i] in links || fresh(all[i])
  {
    SameLength(server.trunk, links, n);
    hide TableOk, LinkOk, Enabled, Apply, Represents, ReceiveDatagram, LocalEvent, LiveTick, ResendTick;
    hide Wire.Encode, Dies;
    all := links;
    match a
    case Local(_, oid, e, now) => LinkHandler(server.trunk, links, n, oid, id, e, now);
    case Deliver(_, p, accepted, now) => all := ServerGets(server, links, n, Wire.Encode(ClientSide, p), accepted, now);
    case LiveTimer(_, now) => LiveTicks(server.trunk, links, n, now);
    case ResendTimer(_, now) => ResendTicks(server.trunk, links, n, now);
    case _ =>
  }

  lemma SameLength(trunk: TrunkLink, links: seq<OutLink>, n: Node)
    requires Represents(trunk, links, n)
    ensures |links| == |n.objs|
  {
  }

  /** One step of the system. */
  method Act(client: TrunkClient, cs: seq<OutLink>, server: TrunkServer, ss: seq<OutLink>, ghost s: P.System,
             a: P.Action, id: Id)
      returns (cs': seq<OutLink>, ss': seq<OutLink>)
    requires Shows(client, cs, server, ss, s) && SystemOk(s) && P.Possible(s, a)
    requires a.Local? ==> id == P.At(s, a.side).objs[a.oid].id
    modifies client, client.trunk, cs, server.trunk, ss
    ensures Shows(client, cs', server, ss', P.Do(s, a))
    ensures forall i | 0 <= i < |cs'| :: cs'[i] in cs || fresh(cs'[i])
    ensures forall j | 0 <= j < |ss'| :: ss'[j] in ss || fresh(ss'[j])
  {
    hide SystemOk, P.Do, NodeDo, Enabled, TableOk, LinksOk, SameTrunk, Apart, TableOf, Distinct;
    SideOk(s);
    Separate(cs, ss);
    cs', ss' := cs, ss;
    if P.AtSide(a, ClientSide) {
      DoAtSide(s, a, ClientSide);
      cs' := ClientActs(client, cs, s.client, a, id);
      assert forall j | 0 <= j < |ss| :: ss[j].State() == old(ss[j].State());
    } else {
      DoAtSide(s, a, ServerSide);
      ss' := ServerActs(server, ss, s.server, a, id);
      assert forall i | 0 <= i < |cs| :: cs[i].State() == old(cs[i].State());
    }
  }

  // ----- Whole runs

  function Ids(objs: seq<Obj>): seq<Id> {
    seq(|objs|, i requires 0 <= i < |objs| => objs[i].id)
  }

  /** The connection a new link object is for. */
  function NewId(a: P.Action): Id {
    match a
    case NewConnect(id, _, _) => id
    case Deliver(_, p, _, _) => p.id
    case _ => seq(16, _ => 0)
  }

  lemma ReceiveIds(n: Node, p: Packet, accepted: bool, now: Time)
    ensures var objs := Receive(n, p, accepted, now).objs;
            Ids(objs) == Ids(n.objs) + if |objs| > |n.objs| then [p.id] else []
  {
    hide Run;
  }

  lemma NodeIds(n: Node, side: Side, a: P.Action)
    requires a.Local? ==> a.oid < |n.objs| && IsLocal(a.event) && Enabled(n.objs[a.oid].link, a.event)
    requires a.Deliver? && a.packet.Data? ==> |a.packet.data| < 0x1_0000_0000
    requires a.Deliver? ==> Wire.Decode(side, Wire.Encode(Other(side), a.packet)) in {None, Some(a.packet)}
    ensures var objs := NodeDo(n, side, a).objs;
            Ids(objs) == Ids(n.objs) + if |objs| > |n.objs| then [NewId(a)] else []
  {
    hide Apply, Enabled, Run, Dies, Wire.Encode, Wire.Decode;
    if a.Deliver? {
      ReceiveIds(n, a.packet, a.accepted, a.now);
    }
  }

  lemma ActionIds(s: P.System, a: P.Action, side: Side)
    requires SystemOk(s) && P.Possible(s, a)
    ensures var objs, objs' := P.At(s, side).objs, P.At(P.Do(s, a), side).objs;
            Ids(objs') == Ids(objs) + if |objs'| > |objs| then [NewId(a)] else []
  {
    hide SystemOk, NodeDo, Ids, P.Do, Enabled, Wire.Decode, Wire.Encode;
    if P.AtSide(a, side) {
      DoAtSide(s, a, side);
      if a.Deliver? {
        SentFits(s, Other(side), a.packet);
        Wire.DecodedOrDropped(Other(side), a.packet);
      }
      NodeIds(P.At(s, side), side, a);
    } else {
      DoAtSide(s, a, Other(side));
    }
  }

  lemma ShowsStart(client: TrunkClient, server: TrunkServer, c: Time, v: Time)
    requires client.trunk != server.trunk && client.trunk.Valid() && server.trunk.Valid()
    requires client.trunk.State() == T.Trunk(ClientSide, map[], [], c + T.LIVE_UPDATE_TICK, multiset{})
    requires server.trunk.State() == T.Trunk(ServerSide, map[], [], v + T.LIVE_UPDATE_TICK, multiset{})
    requires client.connectCache == []
    ensures Shows(client, [], server, [], P.Start(c, v))
  {
  }

  lemma ShowsLengths(client: TrunkClient, cs: seq<OutLink>, server: TrunkServer, ss: seq<OutLink>, s: P.System)
    requires Shows(client, cs, server, ss, s)
    ensures |cs| == |s.client.objs| && |ss| == |s.server.objs| && client.trunk != server.trunk
  {
  }

  /** The objects play any run of the system: from their constructors on, handler by handler, they stay what the
      model says. */
  method Play(c: Time, v: Time, run: seq<P.Action>)
      returns (client: TrunkClient, cs: seq<OutLink>, server: TrunkServer, ss: seq<OutLink>)
    requires P.Feasible(P.Start(c, v), run)
    ensures Shows(client, cs, server, ss, P.After(P.Start(c, v), run))
  {
    hide SystemOk, P.Do, Enabled, Shows;
    client := new TrunkClient(c);
    server := new TrunkServer(v);
    cs, ss := [], [];
    ShowsStart(client, server, c, v);
    var clientIds: seq<Id>, serverIds: seq<Id>, rest := [], [], run;
    ghost var s := P.Start(c, v);
    StartSystemOk(c, v);
    while rest != []
      invariant SystemOk(s) && P.Feasible(s, rest) && P.After(s, rest) == P.After(P.Start(c, v), run)
      invariant Shows(client, cs, server, ss, s)
      invariant clientIds == Ids(s.client.objs) && serverIds == Ids(s.server.objs)
      invariant fresh(client) && fresh(client.trunk) && fresh(server.trunk)
      invariant forall i | 0 <= i < |cs| :: fresh(cs[i])
      invariant forall j | 0 <= j < |ss| :: fresh(ss[j])
      decreases |rest|
    {
      var a := rest[0];
      var id := NewId(a);
      if a.Local? {
        id := if a.side.ClientSide? then clientIds[a.oid] else serverIds[a.oid];
      }
      ActionIds(s, a, ClientSide);
      ActionIds(s, a, ServerSide);
      StepOk(s, a);
      ShowsLengths(client, cs, server, ss, s);
      var cs', ss' := Act(client, cs, server, ss, s, a, id);
      ShowsLengths(client, cs', server, ss', P.Do(s, a));
      if |cs'| > |cs| {
        clientIds := clientIds + [NewId(a)];
      }
      if |ss'| > |ss| {
        serverIds := serverIds + [NewId(a)];
      }
      cs, ss, s, rest := cs', ss', P.Do(s, a), rest[1..];
    }
  }
}
