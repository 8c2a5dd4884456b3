/** The trunk objects: link table and caches are vectors, searched, filtered and updated in place. */
module TrunkObjects {
  import opened Bytes
  import opened Packets
  import opened PacketCache
  import opened OutLinkObject
  import OutLinkSpec
  import OutLinkProofs
  import opened Wire
  import opened Dispatch
  import T = Trunk

  datatype OutLinkInfo = OutLinkInfo(connectId: Id, link: OutLink, nextIndexToTrunk: U32, deadlinkTimeout: Time)

  // ----- The vector as a map

  /** At most one entry per connection, and no link object in two entries. */
  ghost predicate Distinct(items: seq<OutLinkInfo>) {
    forall i, j | 0 <= i < |items| && 0 <= j < |items| && i != j ::
      items[i].connectId != items[j].connectId && items[i].link != items[j].link
  }

  function InfoOf(item: OutLinkInfo): T.Info<OutLink> {
    T.Info(item.link, item.nextIndexToTrunk, item.deadlinkTimeout)
  }

  ghost function TableOf(items: seq<OutLinkInfo>): map<Id, T.Info<OutLink>>
    requires Distinct(items)
  {
    map i | 0 <= i < |items| :: items[i].connectId := InfoOf(items[i])
  }

  ghost function LinksOf(items: seq<OutLinkInfo>): set<OutLink> {
    set i | 0 <= i < |items| :: items[i].link
  }

  ghost predicate AbsentUpTo(items: seq<OutLinkInfo>, n: int, cnt: Id)
    requires 0 <= n <= |items|
  {
    forall i | 0 <= i < n :: items[i].connectId != cnt
  }

  ghost predicate Occurs(items: seq<OutLinkInfo>, id: Id) {
    exists i :: 0 <= i < |items| && items[i].connectId == id
  }

  /** m is the table of the vector if it has exactly its entries. */
  lemma TableIs(items: seq<OutLinkInfo>, m: map<Id, T.Info<OutLink>>)
    requires Distinct(items)
    requires forall i | 0 <= i < |items| :: items[i].connectId in m && m[items[i].connectId] == InfoOf(items[i])
    requires forall id <- m :: Occurs(items, id)
    ensures TableOf(items) == m
  {
  }

  lemma TableEntries(items: seq<OutLinkInfo>)
    requires Distinct(items)
    ensures forall i | 0 <= i < |items| :: items[i].connectId in TableOf(items)
                                        && TableOf(items)[items[i].connectId] == InfoOf(items[i])
    ensures forall id <- TableOf(items) :: Occurs(items, id)
  {
  }

  lemma UpdateLinks(items: seq<OutLinkInfo>, i: nat, item: OutLinkInfo)
    requires Distinct(items) && i < |items|
    requires item.connectId == items[i].connectId && item.link == items[i].link
    ensures Distinct(items[i := item]) && LinksOf(items[i := item]) == LinksOf(items)
  {
    var u := items[i := item];
    assert forall j | 0 <= j < |items| :: u[j].connectId == items[j].connectId && u[j].link == items[j].link;
  }

  lemma UpdateEntry(items: seq<OutLinkInfo>, i: nat, item: OutLinkInfo)
    requires Distinct(items) && i < |items|
    requires item.connectId == items[i].connectId && item.link == items[i].link
    ensures Distinct(items[i := item]) && LinksOf(items[i := item]) == LinksOf(items)
    ensures TableOf(items[i := item]) == TableOf(items)[item.connectId := InfoOf(item)]
  {
    UpdateLinks(items, i, item);
    TableEntries(items);
    var u, m := items[i := item], TableOf(items)[item.connectId := InfoOf(item)];
    assert forall j | 0 <= j < |items| :: u[j].connectId == items[j].connectId;
    forall id <- m ensures Occurs(u, id) {
      assert Occurs(items, id);
    }
    TableIs(u, m);
  }

  lemma LiveEntry(items: seq<OutLinkInfo>, i: nat, now: Time)
    requires Distinct(items) && i < |items|
    ensures var u, id := items[i := items[i].(deadlinkTimeout := now + T.DEAD_LINK_TIMEOUT)], items[i].connectId;
            && Distinct(u) && LinksOf(u) == LinksOf(items) && id in TableOf(items)
            && TableOf(u) == TableOf(items)[id := TableOf(items)[id].(deadAt := now + T.DEAD_LINK_TIMEOUT)]
            && forall j | 0 <= j < |items| :: u[j].connectId == items[j].connectId
  {
    TableEntries(items);
    UpdateEntry(items, i, items[i].(deadlinkTimeout := now + T.DEAD_LINK_TIMEOUT));
  }

  lemma AppendDistinct(items: seq<OutLinkInfo>, item: OutLinkInfo)
    requires Distinct(items) && !Occurs(items, item.connectId) && item.link !in LinksOf(items)
    ensures Distinct(items + [item])
  {
    assert forall j | 0 <= j < |items| :: items[j].link in LinksOf(items);
  }

  lemma AppendEntry(items: seq<OutLinkInfo>, item: OutLinkInfo)
    requires Distinct(items) && item.connectId !in TableOf(items) && item.link !in LinksOf(items)
    ensures Distinct(items + [item])
    ensures TableOf(items + [item]) == TableOf(items)[item.connectId := InfoOf(item)]
  {
    TableEntries(items);
    AppendDistinct(items, item);
    var u, m := items + [item], TableOf(items)[item.connectId := InfoOf(item)];
    assert u[|items|] == item && forall j | 0 <= j < |items| :: u[j] == items[j];
    forall id <- m ensures Occurs(u, id) {
      assert id != item.connectId ==> Occurs(items, id);
    }
    TableIs(u, m);
  }

  /** The entries of other connections, in order. */
  function Others(items: seq<OutLinkInfo>, cnt: Id): seq<OutLinkInfo> {
    if items == [] then []
    else
      var rest := Others(items[..|items| - 1], cnt);
      if items[|items| - 1].connectId == cnt then rest else rest + [items[|items| - 1]]
  }

  lemma {:induction false} OthersMembers(items: seq<OutLinkInfo>, cnt: Id)
    ensures forall item <- Others(items, cnt) :: item in items && item.connectId != cnt
    ensures forall item <- items :: item.connectId != cnt ==> item in Others(items, cnt)
  {
    if items != [] {
      OthersMembers(items[..|items| - 1], cnt);
      assert items == items[..|items| - 1] + [items[|items| - 1]];
    }
  }

  lemma {:induction false} OthersDistinct(items: seq<OutLinkInfo>, cnt: Id)
    requires Distinct(items)
    ensures Distinct(Others(items, cnt))
  {
    if items != [] {
      var front, last := items[..|items| - 1], items[|items| - 1];
      OthersDistinct(front, cnt);
      OthersMembers(front, cnt);
      var rest := Others(front, cnt);
      forall i | 0 <= i < |rest| ensures rest[i].connectId != last.connectId && rest[i].link != last.link {
        assert rest[i] in rest;
      }
    }
  }

  lemma LinksOfMembers(items: seq<OutLinkInfo>, more: seq<OutLinkInfo>)
    requires forall item <- items :: item in more
    ensures LinksOf(items) <= LinksOf(more)
  {
    forall link <- LinksOf(items) ensures link in LinksOf(more) {
      var i :| 0 <= i < |items| && items[i].link == link;
      assert items[i] in items;
    }
  }

  lemma OthersEntry(items: seq<OutLinkInfo>, cnt: Id, i: nat)
    requires Distinct(items) && i < |Others(items, cnt)|
    ensures var item, m := Others(items, cnt)[i], TableOf(items) - {cnt};
            item.connectId in m && m[item.connectId] == InfoOf(item)
  {
    OthersMembers(items, cnt);
    TableEntries(items);
    assert Others(items, cnt)[i] in Others(items, cnt);
  }

  lemma OthersOccur(items: seq<OutLinkInfo>, cnt: Id, id: Id)
    requires Occurs(items, id) && id != cnt
    ensures Occurs(Others(items, cnt), id)
  {
    OthersMembers(items, cnt);
    var j :| 0 <= j < |items| && items[j].connectId == id;
    assert items[j] in Others(items, cnt);
  }

  lemma OthersTable(items: seq<OutLinkInfo>, cnt: Id)
    requires Distinct(items)
    ensures Distinct(Others(items, cnt)) && TableOf(Others(items, cnt)) == TableOf(items) - {cnt}
    ensures LinksOf(Others(items, cnt)) <= LinksOf(items)
  {
    hide TableOf, Distinct, LinksOf, Others, Occurs;
    OthersDistinct(items, cnt);
    OthersMembers(items, cnt);
    TableEntries(items);
    var rest, m := Others(items, cnt), TableOf(items) - {cnt};
    LinksOfMembers(rest, items);
    forall i | 0 <= i < |rest| ensures rest[i].connectId in m && m[rest[i].connectId] == InfoOf(rest[i]) {
      OthersEntry(items, cnt, i);
    }
    forall id <- m ensures Occurs(rest, id) {
      OthersOccur(items, cnt, id);
    }
    TableIs(rest, m);
  }

  // ----- Live packets for the entries of a vector

  predicate Expired(item: OutLinkInfo, now: Time) {
    now > item.deadlinkTimeout
  }

  function LivePackets(items: seq<OutLinkInfo>, now: Time): set<Packet> {
    set j | 0 <= j < |items| && !Expired(items[j], now) :: Live(items[j].connectId)
  }

  lemma LivePacketsSnoc(items: seq<OutLinkInfo>, i: nat, now: Time)
    requires Distinct(items) && i < |items|
    ensures var before, after := LivePackets(items[..i], now), LivePackets(items[..i + 1], now);
            (Expired(items[i], now) ==> multiset(after) == multiset(before))
            && (!Expired(items[i], now) ==> multiset(after) == multiset(before) + multiset{Live(items[i].connectId)})
  {
    var a, b := items[..i], items[..i + 1];
    assert forall j | 0 <= j < i :: b[j] == a[j] == items[j];
    assert b[i] == items[i];
    var before, after, p := LivePackets(a, now), LivePackets(b, now), Live(items[i].connectId);
    if Expired(items[i], now) {
      assert after == before;
    } else {
      assert p !in before && after == before + {p};
    }
  }

  lemma LivePacketsOfTable(items: seq<OutLinkInfo>, t: T.Trunk<OutLink>, now: Time)
    requires Distinct(items) && t.table == TableOf(items) && T.LiveDue(t, now)
    ensures LivePackets(items[..0], now) == {} && LivePackets(items[..|items|], now) == T.LivePackets(t, now)
    ensures forall i | 0 <= i < |items| :: Expired(items[i], now) <==> items[i].connectId in T.DeadLinks(t, now)
  {
    TableEntries(items);
    assert items[..|items|] == items;
    forall id | id in t.table && !T.DeadAt(t, id, now) ensures Live(id) in LivePackets(items, now) {
      assert Occurs(items, id);
    }
  }

  class TrunkLink {
    const side: Side
    var outLinks: seq<OutLinkInfo>
    var packetDataCache: seq<Cached>
    var nextLiveUpdate: Time
    var sent: multiset<Packet>

    ghost predicate Valid()
      reads this
    {
      Distinct(outLinks)
    }

    ghost function State(): T.Trunk<OutLink>
      requires Valid()
      reads this
    {
      T.Trunk(side, TableOf(outLinks), packetDataCache, nextLiveUpdate, sent)
    }

    ghost function Links(): set<OutLink>
      reads this
    {
      LinksOf(outLinks)
    }

    constructor (side: Side, now: Time)
      ensures Valid() && State() == T.Trunk(side, map[], [], now + T.LIVE_UPDATE_TICK, multiset{})
    {
      this.side := side;
      outLinks, packetDataCache, nextLiveUpdate, sent := [], [], now + T.LIVE_UPDATE_TICK, multiset{};
    }

    method SendPacket(p: Packet)
      modifies this`sent
      ensures sent == old(sent) + multiset{p}
    {
      sent := sent + multiset{p};
    }

    // ----- Searching and changing the table

    method GetOutLink(cnt: Id) returns (link: OutLink?)
      requires Valid()
      ensures link == null <==> cnt !in State().table
      ensures link != null ==> link == State().table[cnt].link && link in Links()
    {
      for i := 0 to |outLinks|
        invariant AbsentUpTo(outLinks, i, cnt)
      {
        if outLinks[i].connectId == cnt {
          return outLinks[i].link;
        }
      }
      return null;
    }

    method GetNextPacketIndex(cnt: Id) returns (res: U32)
      requires Valid()
      modifies this`outLinks
      ensures Valid() && State() == T.AdvanceIndex(old(State()), cnt) && res == T.NextIndex(old(State()), cnt)
      ensures Links() == old(Links())
    {
      for i := 0 to |outLinks|
        invariant outLinks == old(outLinks) && AbsentUpTo(outLinks, i, cnt)
      {
        var item := outLinks[i];
        if item.connectId == cnt {
          res := item.nextIndexToTrunk;
          UpdateEntry(outLinks, i, item.(nextIndexToTrunk := Inc(res)));
          outLinks := outLinks[i := item.(nextIndexToTrunk := Inc(res))];
          return;
        }
      }
      return BAD_INDEX;
    }

    /** Looks at every entry; only one can match. */
    method ProcessLive(cnt: Id, now: Time)
      requires Valid()
      modifies this`outLinks
      ensures Valid() && State() == T.ProcessLive(old(State()), cnt, now)
      ensures Links() == old(Links())
    {
      ghost var seen := false;
      for i := 0 to |outLinks|
        invariant Valid() && |outLinks| == |old(outLinks)| && Links() == old(Links())
        invariant seen <==> !AbsentUpTo(outLinks, i, cnt)
        invariant if seen then State() == T.ProcessLive(old(State()), cnt, now) else outLinks == old(outLinks)
      {
        var item := outLinks[i];
        if item.connectId == cnt {
          var heard := item.(deadlinkTimeout := now + T.DEAD_LINK_TIMEOUT);
          LiveEntry(outLinks, i, now);
          outLinks := outLinks[i := heard];
          seen := true;
        }
      }
      TableEntries(outLinks);
    }

    /** Compacts the vector, then truncates it. */
    method RemoveOutLink(cnt: Id)
      requires Valid()
      modifies this`outLinks
      ensures Valid() && State() == T.RemoveLink(old(State()), cnt)
      ensures Links() <= old(Links())
    {
      var items, tail := outLinks, 0;
      for i := 0 to |outLinks|
        invariant outLinks == old(outLinks) && 0 <= tail <= i && |items| == |outLinks|
        invariant items[..tail] == Others(outLinks[..i], cnt)
        invariant forall j | i <= j < |items| :: items[j] == outLinks[j]
      {
        assert outLinks[..i + 1][..i] == outLinks[..i];
        if items[i].connectId != cnt {
          items := items[tail := items[i]];
          tail := tail + 1;
        }
      }
      assert outLinks[..|outLinks|] == outLinks;
      OthersTable(outLinks, cnt);
      outLinks := items[..tail];
    }

    method IntAddOutLink(cnt: Id, link: OutLink, connected: bool, now: Time)
      requires Valid() && cnt !in State().table && link !in Links()
      requires OutLinkProofs.LinkOk(link.State()) && link.dial.NotRun?
      modifies this`outLinks, link
      ensures Valid() && State() == T.AddLink(old(State()), cnt, link, now)
      ensures link.State() == OutLinkSpec.Run(old(link.State()), connected)
    {
      var info := OutLinkInfo(cnt, link, 0, now + T.DEAD_LINK_TIMEOUT);
      AppendEntry(outLinks, info);
      outLinks := outLinks + [info];
      link.Run(connected);
    }

    // ----- Sending

    method SendCmdData(cnt: Id, cmd: T.Command, now: Time)
      requires Valid()
      modifies this`outLinks, this`packetDataCache, this`sent
      ensures Valid() && State() == T.SendCmdData(old(State()), cnt, cmd, now)
      ensures Links() == old(Links())
    {
      if cmd.SendChunk? && |cmd.data| > MAX_CHUNK_SIZE {
        return;
      }
      var index := GetNextPacketIndex(cnt);
      if index == BAD_INDEX {
        return;
      }
      var info := T.Numbered(cnt, index, cmd);
      packetDataCache := packetDataCache + [Cached(info, now + DEADLINE_TIMEOUT, now + RESEND_TIMEOUT)];
      SendPacket(info);
    }

    method CloseConnect(cnt: Id, now: Time)
      requires Valid()
      modifies this`outLinks, this`packetDataCache, this`sent
      ensures Valid() && State() == T.CloseConnect(old(State()), cnt, now)
    {
      SendCmdData(cnt, T.SendRelease, now);
      RemoveOutLink(cnt);
    }

    method OnCacheResend(now: Time)
      requires Valid()
      modifies this`packetDataCache, this`sent
      ensures State() == T.OnCacheResend(old(State()), now)
    {
      var kept, out := PacketCache.OnCacheResend(DataCache, packetDataCache, now);
      packetDataCache := kept;
      SendAll(out);
    }

    method SendAll(out: seq<Packet>)
      modifies this`sent
      ensures sent == old(sent) + multiset(out)
    {
      for i := 0 to |out|
        invariant sent == old(sent) + multiset(out[..i])
      {
        assert out[..i + 1] == out[..i] + [out[i]];
        SendPacket(out[i]);
      }
      assert out[..|out|] == out;
    }

    // ----- Datagrams

    /** Takes a datagram apart and handles it, except that requests and their acknowledgements are handed over. */
    method ProcessTrunkData(d: Octets, now: Time) returns (handover: Option<Packet>)
      requires Valid()
      modifies this`sent, this`outLinks, Links()
      ensures Valid() && Links() == old(Links())
      ensures var p := Decode(side, d);
              && handover == (if p.Some? && IsHandover(p.value) then p else None)
              && State() == (if p.Some? then TrunkAfter(old(State()), p.value, now) else old(State()))
              && forall link <- Links() ::
                   link.State() == if p.Some? && IsFor(old(State()), p.value, link)
                                   then LinkAfter(old(link.State()), p.value) else old(link.State())
    {
      hide OutLinkSpec.SendData, OutLinkSpec.Stop, T.ProcessLive, T.Send, TableOf, Get32;
      handover := None;
      if |d| < HEADER_SIZE {
        return;
      }
      var cnt: Id, command := d[..16], Get32(d[16..20]);
      if side.ServerSide? {
        if command == ACK_CREATE_CONNECT || command == DATA_IN || command == ACK_DATA_OUT {
          return;
        }
      } else {
        if command == CREATE_CONNECT || command == DATA_OUT || command == ACK_DATA_IN {
          return;
        }
      }
      if command == CREATE_CONNECT {
        if |d| < CONNECT_SIZE {
          return;
        }
        handover := Some(CreateConnect(cnt, Get32(d[20..24]), Get32(d[24..28])));
      } else if command == ACK_CREATE_CONNECT {
        handover := Some(AckCreate(cnt));
      } else if command == DATA_OUT || command == DATA_IN {
        if |d| < DATA_SIZE || |d| != DATA_SIZE + Get32(d[24..28]) {
          return;
        }
        ProcessDataToOutlink(cnt, Get32(d[20..24]), d[28..]);
      } else if command == ACK_DATA_OUT || command == ACK_DATA_IN {
        return;
      } else if command == RELEASE_CONNECT {
        if |d| != DATA_SIZE || Get32(d[24..28]) != 0 {
          return;
        }
        ProcessReleaseConnect(cnt, Get32(d[20..24]));
      } else if command == LIVE {
        ProcessLive(cnt, now);
      }
    }

    // ----- Packets for a link

    method ProcessDataToOutlink(cnt: Id, index: U32, data: Octets)
      requires Valid()
      modifies this`sent, Links()
      ensures Valid()
      ensures State() == if cnt in old(State()).table then T.Send(old(State()), AckData(cnt)) else old(State())
      ensures forall link <- Links() ::
                link.State() == if cnt in State().table && State().table[cnt].link == link
                                then OutLinkSpec.SendData(old(link.State()), index, data) else old(link.State())
    {
      var link := GetOutLink(cnt);
      if link == null {
        return;
      }
      SendPacket(AckData(cnt));
      link.SendData(index, data);
    }

    method ProcessReleaseConnect(cnt: Id, packetId: U32)
      requires Valid()
      modifies Links()
      ensures forall link <- Links() ::
                link.State() == if cnt in State().table && State().table[cnt].link == link
                                then OutLinkSpec.Stop(old(link.State()), packetId) else old(link.State())
    {
      var link := GetOutLink(cnt);
      if link == null {
        return;
      }
      link.Stop(packetId);
    }

    // ----- Timer ticks

    /** Dead links are stopped, the others get a live packet. */
    method SendLivePacket(now: Time)
      requires Valid()
      modifies this`sent, this`nextLiveUpdate, Links()
      ensures Valid() && State() == T.SendLivePackets(old(State()), now)
      ensures forall i | 0 <= i < |outLinks| ::
                outLinks[i].link.State() == if outLinks[i].connectId in T.DeadLinks(old(State()), now)
                                            then OutLinkSpec.Stop(old(outLinks[i].link.State()), 0)
                                            else old(outLinks[i].link.State())
    {
      hide OutLinkSpec.Stop, TableOf, LivePackets, T.LivePackets;
      if now < nextLiveUpdate {
        return;
      }
      ghost var t := State();
      LivePacketsOfTable(outLinks, t, now);
      nextLiveUpdate := now + T.LIVE_UPDATE_TICK;
      for i := 0 to |outLinks|
        invariant nextLiveUpdate == now + T.LIVE_UPDATE_TICK
        invariant sent == old(sent) + multiset(LivePackets(outLinks[..i], now))
        invariant forall j | i <= j < |outLinks| :: outLinks[j].link.State() == old(outLinks[j].link.State())
        invariant forall j | 0 <= j < i ::
                    outLinks[j].link.State() == if Expired(outLinks[j], now)
                                                then OutLinkSpec.Stop(old(outLinks[j].link.State()), 0)
                                                else old(outLinks[j].link.State())
      {
        LivePacketsSnoc(outLinks, i, now);
        assert outLinks[i].link in Links();
        if now > outLinks[i].deadlinkTimeout {
          outLinks[i].link.Stop(0);
        } else {
          SendPacket(Live(outLinks[i].connectId));
        }
      }
    }
  }
}
