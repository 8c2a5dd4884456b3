/** The state both ends of the trunk have in common, as a value, and what its operations do to it.
    L is whatever stands for a link object. */
module Trunk {
  import opened Bytes
  import opened Packets
  import opened PacketCache

  const LIVE_UPDATE_TICK := 1000 * MS
  const DEAD_LINK_TIMEOUT := 5000 * MS

  datatype Info<L> = Info(link: L, nextIndex: U32, deadAt: Time)

  datatype Trunk<L> = Trunk(
    side: Side,
    table: map<Id, Info<L>>,
    cache: seq<Cached>,
    nextLive: Time,
    sent: multiset<Packet>)  // every packet handed to SendPacket so far, as often as it was

  datatype Command = SendChunk(data: Octets) | SendRelease

  function Send<L>(t: Trunk<L>, p: Packet): Trunk<L> {
    t.(sent := t.sent + multiset{p})
  }

  // ----- The link table

  function AddLink<L>(t: Trunk<L>, id: Id, link: L, now: Time): Trunk<L> {
    t.(table := t.table[id := Info(link, 0, now + DEAD_LINK_TIMEOUT)])
  }

  function RemoveLink<L>(t: Trunk<L>, id: Id): Trunk<L> {
    t.(table := t.table - {id})
  }

  function ProcessLive<L>(t: Trunk<L>, id: Id, now: Time): Trunk<L> {
    if id in t.table then t.(table := t.table[id := t.table[id].(deadAt := now + DEAD_LINK_TIMEOUT)]) else t
  }

  function NextIndex<L>(t: Trunk<L>, id: Id): U32 {
    if id in t.table then t.table[id].nextIndex else BAD_INDEX
  }

  function AdvanceIndex<L>(t: Trunk<L>, id: Id): Trunk<L> {
    if id in t.table then t.(table := t.table[id := t.table[id].(nextIndex := Inc(t.table[id].nextIndex))]) else t
  }

  // ----- Numbered packets

  function Numbered(id: Id, index: U32, cmd: Command): Packet {
    match cmd
    case SendChunk(data) => Data(id, index, data)
    case SendRelease => Release(id, index)
  }

  /** The code that takes a number keeps it, even when the packet is then dropped. */
  function SendCmdData<L>(t: Trunk<L>, id: Id, cmd: Command, now: Time): Trunk<L> {
    if cmd.SendChunk? && |cmd.data| > MAX_CHUNK_SIZE then t
    else
      var index, a := NextIndex(t, id), AdvanceIndex(t, id);
      if index == BAD_INDEX then a
      else
        var p := Numbered(id, index, cmd);
        Send(a.(cache := Put(a.cache, p, now)), p)
  }

  function CloseConnect<L>(t: Trunk<L>, id: Id, now: Time): Trunk<L> {
    RemoveLink(SendCmdData(t, id, SendRelease, now), id)
  }

  // ----- Timer ticks

  function OnCacheResend<L>(t: Trunk<L>, now: Time): Trunk<L> {
    var live := Unexpired(t.cache, now);
    t.(cache := PostponeAll(DataCache, live, now), sent := t.sent + multiset(DueInfos(DataCache, live, now)))
  }

  predicate LiveDue<L>(t: Trunk<L>, now: Time) {
    now >= t.nextLive
  }

  predicate DeadAt<L>(t: Trunk<L>, id: Id, now: Time) {
    id in t.table && now > t.table[id].deadAt
  }

  /** Links that get Stop(0) on this tick. */
  function DeadLinks<L>(t: Trunk<L>, now: Time): set<Id> {
    if LiveDue(t, now) then set id | id in t.table && DeadAt(t, id, now) else {}
  }

  function LivePackets<L>(t: Trunk<L>, now: Time): set<Packet> {
    set id | id in t.table && !DeadAt(t, id, now) :: Live(id)
  }

  function SendLivePackets<L>(t: Trunk<L>, now: Time): Trunk<L> {
    if !LiveDue(t, now) then t
    else t.(nextLive := now + LIVE_UPDATE_TICK,
            sent := t.sent + multiset(LivePackets(t, now)))
  }
}
