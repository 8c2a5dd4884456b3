/** Acknowledgements in runs of the whole system. */
module Acknowledgements {
  import opened Bytes
  import opened Packets
  import opened PacketCache
  import opened OutLinkSpec
  import opened Node
  import opened NodeProofs
  import opened EndToEnd
  import opened Projection
  import opened SystemResending
  import Wire
  import P = Protocol
  import T = Trunk

  predicate IsAck(p: Packet) {
    p.AckCreate? || p.AckData?
  }

  /** The acknowledgement that the arrival of a packet calls for: one for every request that reaches the server, known
      or not, and one for data of a connection that the side has in its table. */
  function Called(s: P.System, a: P.Action, side: Side): multiset<Packet> {
    if !(a.Deliver? && a.side == side) then multiset{}
    else if a.packet.CreateConnect? && side.ServerSide? then multiset{AckCreate(a.packet.id)}
    else if a.packet.Data? && a.packet.id in P.At(s, side).trunk.table then multiset{AckData(a.packet.id)}
    else multiset{}
  }

  function AllCalled(s: P.System, run: seq<P.Action>, side: Side): multiset<Packet>
    requires P.Feasible(s, run)
    decreases run
  {
    if run == [] then multiset{} else Called(s, run[0], side) + AllCalled(P.Do(s, run[0]), run[1..], side)
  }

  ghost predicate AcksGrow(n: Node, m: Node, more: multiset<Packet>) {
    forall q | IsAck(q) :: m.trunk.sent[q] == n.trunk.sent[q] + more[q]
  }

  lemma OthersSent(n: Node, m: Node, more: multiset<Packet>)
    requires m.trunk.sent == n.trunk.sent + more && forall q <- more :: !IsAck(q)
    ensures AcksGrow(n, m, multiset{})
  {
  }

  lemma LocalAcks(n: Node, oid: nat, e: Event, now: Time)
    requires NodeOk(n) && oid < |n.objs| && IsLocal(e) && Enabled(n.objs[oid].link, e)
    ensures AcksGrow(n, LocalEvent(n, oid, e, now), multiset{})
  {
    hide NodeOk, Apply, Enabled, Host, LocalEvent, AcksGrow;
    var m, before, after := LocalEvent(n, oid, e, now), n.objs[oid].link.calls, Apply(n.objs[oid].link, e).calls;
    LocalTrunk(n, oid, e, now);
    if |after| > |before| {
      NewCall(n, oid, e);
      HostSends(n.trunk, n.objs[oid].id, after[|before|], now);
      var i := n.trunk.table[n.objs[oid].id].nextIndex;
      OthersSent(n, m, if i == BAD_INDEX then multiset{} else multiset{PacketOf(n.objs[oid].id, i, after[|before|])});
    } else {
      OthersSent(n, m, multiset{});
    }
  }

  lemma TickAcks(n: Node, now: Time)
    requires NodeOk(n)
    ensures AcksGrow(n, ResendTick(n, now), multiset{}) && AcksGrow(n, ConnectResendTick(n, now), multiset{})
  {
    DueIsGoverned(DataCache, n.trunk.cache, now);
    DueIsGoverned(ConnectCache, n.connects, now);
    hide AcksGrow, DueInfos, Unexpired, PostponeAll, NodeOk;
    OthersSent(n, ResendTick(n, now), multiset(DueInfos(DataCache, Unexpired(n.trunk.cache, now), now)));
    OthersSent(n, ConnectResendTick(n, now), multiset(DueInfos(ConnectCache, Unexpired(n.connects, now), now)));
  }

  lemma OtherAcks(n: Node, id: Id, point: U32, now: Time)
    ensures AcksGrow(n, AddConnect(n, id, point, now), multiset{}) && AcksGrow(n, LiveTick(n, now), multiset{})
  {
    hide AcksGrow, Run, Stop, Dies;
    OthersSent(n, AddConnect(n, id, point, now),
               if id in n.trunk.table then multiset{} else multiset{CreateConnect(id, point, 300)});
    OthersSent(n, LiveTick(n, now),
               if T.LiveDue(n.trunk, now) then multiset(T.LivePackets(n.trunk, now)) else multiset{});
  }

  lemma NodeAcks(n: Node, side: Side, a: P.Action)
    requires NodeOk(n) && !a.Deliver?
    requires a.Local? ==> a.oid < |n.objs| && IsLocal(a.event) && Enabled(n.objs[a.oid].link, a.event)
    ensures AcksGrow(n, NodeDo(n, side, a), multiset{})
  {
    hide NodeOk, AcksGrow, Apply, Enabled, LocalEvent, AddConnect, LiveTick, ResendTick, ConnectResendTick;
    match a
    case NewConnect(id, point, now) => OtherAcks(n, id, point, now);
    case Local(_, oid, e, now) => LocalAcks(n, oid, e, now);
    case LiveTimer(_, now) => OtherAcks(n, seq(16, _ => 0), 0, now);
    case ResendTimer(_, now) => TickAcks(n, now);
    case ConnectResendTimer(now) => TickAcks(n, now);
  }

  /** Requests reach the server and data reach either side as they were sent. */
  lemma Reaches(s: P.System, side: Side, p: Packet)
    requires SystemOk(s) && p in P.At(s, Other(side)).trunk.sent
    ensures p.Data? ==> |p.data| < 0x1_0000_0000
    ensures var received := Wire.Decode(side, Wire.Encode(Other(side), p));
            && received in {None, Some(p)}
            && (p.Data? ==> received == Some(p))
            && (p.CreateConnect? ==> received == if side.ServerSide? then Some(p) else None)
  {
    SentFits(s, Other(side), p);
    Wire.DecodedOrDropped(Other(side), p);
    hide Wire.Decode, Wire.Encode;
    if p.Data? || (p.CreateConnect? && side.ServerSide?) {
      Wire.WireRoundTrip(Other(side), p);
    } else if Wire.Decode(side, Wire.Encode(Other(side), p)).Some? {
      Wire.DecodedIsMeant(side, Wire.Encode(Other(side), p));
    }
  }

  lemma DeliveryAcks(s: P.System, a: P.Action, side: Side)
    requires SystemOk(s) && P.Possible(s, a) && a.Deliver? && a.side == side
    ensures AcksGrow(P.At(s, side), NodeDo(P.At(s, side), side, a), Called(s, a, side))
  {
    hide SystemOk, NodeOk, Receive, Wire.Decode, Wire.Encode;
    var n := P.At(s, side);
    Reaches(s, side, a.packet);
    NodeIsOk(s, side);
    ReceiveSends(n, a.packet, a.accepted, a.now);
  }

  lemma StepAcks(s: P.System, a: P.Action, side: Side)
    requires SystemOk(s) && P.Possible(s, a)
    ensures AcksGrow(P.At(s, side), P.At(P.Do(s, a), side), Called(s, a, side))
  {
    hide SystemOk, NodeOk, NodeDo, AcksGrow, P.Do, Enabled;
    NodeIsOk(s, side);
    if !P.AtSide(a, side) {
      DoAtSide(s, a, Other(side));
      OthersSent(P.At(s, side), P.At(s, side), multiset{});
    } else {
      DoAtSide(s, a, side);
      if a.Deliver? {
        DeliveryAcks(s, a, side);
      } else {
        NodeAcks(P.At(s, side), side, a);
      }
    }
  }

  /** Over every run of the system, a side sends exactly the acknowledgements that the arrivals call for, each once. */
  lemma {:induction false} EveryArrivalIsAcknowledged(s: P.System, run: seq<P.Action>, side: Side, q: Packet)
    requires SystemOk(s) && P.Feasible(s, run) && IsAck(q)
    ensures P.At(P.After(s, run), side).trunk.sent[q] == P.At(s, side).trunk.sent[q] + AllCalled(s, run, side)[q]
    decreases run
  {
    if run != [] {
      hide SystemOk, P.Do, P.Possible, Called;
      StepOk(s, run[0]);
      StepAcks(s, run[0], side);
      EveryArrivalIsAcknowledged(P.Do(s, run[0]), run[1..], side, q);
    }
  }
}
