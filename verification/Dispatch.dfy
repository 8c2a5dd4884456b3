/** What a datagram does: to the trunk that receives it, and to the link it is for. The trunk objects and the
    whole-system model share these functions. */
module Dispatch {
  import opened Packets
  import opened PacketCache
  import opened OutLinkSpec
  import opened Node
  import opened NodeProofs
  import T = Trunk

  /** Requests and their acknowledgements go on to the client or the server. */
  predicate IsHandover(p: Packet) {
    p.CreateConnect? || p.AckCreate?
  }

  function TrunkAfter<L>(t: T.Trunk<L>, p: Packet, now: Time): T.Trunk<L> {
    match p
    case Data(id, _, _) => if id in t.table then T.Send(t, AckData(id)) else t
    case Live(id) => T.ProcessLive(t, id, now)
    case _ => t
  }

  function LinkAfter(l: Link, p: Packet): Link {
    match p
    case Data(_, index, data) => SendData(l, index, data)
    case Release(_, index) => Stop(l, index)
    case _ => l
  }

  /** The link is the one the packet is for. */
  predicate IsFor<L(==)>(t: T.Trunk<L>, p: Packet, link: L) {
    p.id in t.table && t.table[p.id].link == link
  }

  /** A side of the system does with a packet what its trunk and links do with it one by one. */
  lemma NodeDispatches(n: Node, p: Packet, accepted: bool, now: Time)
    requires TableOk(n.objs, n.trunk.table) && !IsHandover(p)
    ensures var m := Receive(n, p, accepted, now);
            && m.trunk == TrunkAfter(n.trunk, p, now) && m.connects == n.connects
            && |m.objs| == |n.objs|
            && forall i | 0 <= i < |n.objs| ::
                 m.objs[i] == if IsFor(n.trunk, p, i) then n.objs[i].(link := LinkAfter(n.objs[i].link, p))
                              else n.objs[i]
  {
    if p.id in n.trunk.table {
      assert EntryOk(n.objs, p.id, n.trunk.table[p.id]);
    }
  }
}
