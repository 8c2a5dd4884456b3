/** The client and the server built on the common trunk object. */
module TrunkEnds {
  import opened Bytes
  import opened Packets
  import opened PacketCache
  import opened OutLinkObject
  import opened TrunkObjects
  import opened Dispatch
  import OutLinkSpec
  import OutLinkProofs
  import Wire
  import T = Trunk

  class TrunkClient {
    const trunk: TrunkLink
    var connectCache: seq<Cached>

    constructor (now: Time)
      ensures trunk.Valid() && trunk.State() == T.Trunk(ClientSide, map[], [], now + T.LIVE_UPDATE_TICK, multiset{})
      ensures connectCache == [] && fresh(trunk)
    {
      trunk := new TrunkLink(ClientSide, now);
      connectCache := [];
    }

    /** A colliding identifier leaves everything as it is. */
    method AddConnect(cnt: Id, point: U32, link: OutLink, now: Time)
      requires trunk.Valid() && link !in trunk.Links()
      requires OutLinkProofs.LinkOk(link.State()) && link.dial.NotRun?
      modifies this`connectCache, trunk`outLinks, trunk`sent, link
      ensures trunk.Valid()
      ensures if cnt in old(trunk.State()).table then
                && trunk.State() == old(trunk.State()) && connectCache == old(connectCache)
                && link.State() == old(link.State())
              else
                var p := CreateConnect(cnt, point, 300);
                && trunk.State() == T.Send(T.AddLink(old(trunk.State()), cnt, link, now), p)
                && connectCache == Put(old(connectCache), p, now)
                && link.State() == OutLinkSpec.Run(old(link.State()), true)
    {
      var existLink := trunk.GetOutLink(cnt);
      if existLink != null {
        return;
      }
      trunk.IntAddOutLink(cnt, link, true, now);
      SendConnectInformation(cnt, point, 300, now);
    }

    method SendConnectInformation(cnt: Id, point: U32, timeout: U32, now: Time)
      requires trunk.Valid()
      modifies this`connectCache, trunk`sent
      ensures connectCache == Put(old(connectCache), CreateConnect(cnt, point, timeout), now)
      ensures trunk.State() == T.Send(old(trunk.State()), CreateConnect(cnt, point, timeout))
    {
      var info := CreateConnect(cnt, point, timeout);
      connectCache := connectCache + [Cached(info, now + DEADLINE_TIMEOUT, now + RESEND_TIMEOUT)];
      trunk.SendPacket(info);
    }

    method OnCacheResend(now: Time, later: Time)
      requires trunk.Valid()
      modifies this`connectCache, trunk`packetDataCache, trunk`sent
      ensures var live := Unexpired(old(connectCache), later);
              var t := T.OnCacheResend(old(trunk.State()), now);
              && connectCache == PostponeAll(ConnectCache, live, later)
              && trunk.State() == t.(sent := t.sent + multiset(DueInfos(ConnectCache, live, later)))
    {
      trunk.OnCacheResend(now);
      ResendConnects(later);
    }

    /** The part of the tick that the client adds. */
    method ResendConnects(now: Time)
      requires trunk.Valid()
      modifies this`connectCache, trunk`sent
      ensures var live, t := Unexpired(old(connectCache), now), old(trunk.State());
              && connectCache == PostponeAll(ConnectCache, live, now)
              && trunk.Valid() && trunk.State() == t.(sent := t.sent + multiset(DueInfos(ConnectCache, live, now)))
    {
      var kept, out := PacketCache.OnCacheResend(ConnectCache, connectCache, now);
      connectCache := kept;
      trunk.SendAll(out);
    }

    /** A datagram from the server. */
    method ProcessTrunkData(d: Octets, now: Time)
      requires trunk.Valid() && trunk.side.ClientSide?
      modifies this`connectCache, trunk`sent, trunk`outLinks, trunk.Links()
      ensures trunk.Valid() && trunk.Links() == old(trunk.Links())
      ensures var p := Wire.Decode(ClientSide, d);
              && connectCache == (if p.Some? && p.value.AckCreate? then Without(old(connectCache), p.value.id)
                                  else old(connectCache))
              && trunk.State() == (if p.Some? then TrunkAfter(old(trunk.State()), p.value, now) else old(trunk.State()))
              && forall link <- trunk.Links() ::
                   link.State() == if p.Some? && IsFor(old(trunk.State()), p.value, link)
                                   then LinkAfter(old(link.State()), p.value) else old(link.State())
    {
      hide Wire.Decode, TableOf;
      var handover := trunk.ProcessTrunkData(d, now);
      if handover.Some? && handover.value.AckCreate? {
        ProcessAckConnectData(handover.value.id);
      }
    }

    method ProcessAckConnectData(cnt: Id)
      modifies this`connectCache
      ensures connectCache == Without(old(connectCache), cnt)
    {
      connectCache := Forget(connectCache, cnt);
    }
  }

  class TrunkServer {
    const trunk: TrunkLink

    constructor (now: Time)
      ensures trunk.Valid() && trunk.State() == T.Trunk(ServerSide, map[], [], now + T.LIVE_UPDATE_TICK, multiset{})
      ensures fresh(trunk)
    {
      trunk := new TrunkLink(ServerSide, now);
    }

    /** Every request is acknowledged; made is what the factory would make for the point, if anything.
        A duplicate request changes neither the table nor any link. */
    method ProcessConnectData(cnt: Id, made: OutLink?, now: Time)
      requires trunk.Valid()
      requires made != null ==> made !in trunk.Links() && OutLinkProofs.LinkOk(made.State()) && made.dial.NotRun?
      modifies trunk`outLinks, trunk`sent, made
      ensures trunk.Valid()
      ensures var t := T.Send(old(trunk.State()), AckCreate(cnt));
              if cnt in t.table || made == null then
                trunk.State() == t && (made != null ==> made.State() == old(made.State()))
              else
                trunk.State() == T.AddLink(t, cnt, made, now)
                && made.State() == OutLinkSpec.Run(old(made.State()), false)
    {
      trunk.SendPacket(AckCreate(cnt));
      var existLink := trunk.GetOutLink(cnt);
      if existLink != null {
        return;
      }
      if made == null {
        return;
      }
      trunk.IntAddOutLink(cnt, made, false, now);
    }

    /** A datagram from a client that is not a request: as on the client, without a connect cache. A request goes
        to ProcessConnectData. */
    method ProcessTrunkData(d: Octets, made: OutLink?, now: Time)
      requires trunk.Valid() && trunk.side.ServerSide?
      requires made != null ==> made !in trunk.Links() && OutLinkProofs.LinkOk(made.State()) && made.dial.NotRun?
      modifies trunk`sent, trunk`outLinks, trunk.Links(), made
      ensures trunk.Valid()
      ensures var p, t := Wire.Decode(ServerSide, d), old(trunk.State());
              if p.None? then trunk.State() == t
              else if !p.value.CreateConnect? then trunk.State() == TrunkAfter(t, p.value, now)
              else if p.value.id in t.table || made == null then trunk.State() == T.Send(t, AckCreate(p.value.id))
              else trunk.State() == T.AddLink(T.Send(t, AckCreate(p.value.id)), p.value.id, made, now)
      ensures var p := Wire.Decode(ServerSide, d);
              forall link <- old(trunk.Links()) ::
                link.State() == if p.Some? && IsFor(old(trunk.State()), p.value, link)
                                then LinkAfter(old(link.State()), p.value) else old(link.State())
      ensures var p := Wire.Decode(ServerSide, d);
              made != null ==>
                made.State() == if p.Some? && p.value.CreateConnect? && p.value.id !in old(trunk.State()).table
                                then OutLinkSpec.Run(old(made.State()), false) else old(made.State())
    {
      hide Wire.Decode, TableOf, OutLinkProofs.LinkOk;
      var handover := trunk.ProcessTrunkData(d, now);
      if handover.Some? && handover.value.CreateConnect? {
        ProcessConnectData(handover.value.id, made, now);
      }
    }
  }
}
