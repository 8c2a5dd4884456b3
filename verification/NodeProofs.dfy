/** What one side of the trunk keeps about its table, its caches and the packets it has sent. */
module NodeProofs {
  import opened Bytes
  import opened Packets
  import opened PacketCache
  import opened OutLinkSpec
  import opened OutLinkProofs
  import opened Node
  import T = Trunk

  /** calls is what has been said about connection id on this side: some link object of id made exactly these
      calls, and its other link objects made the same ones as far as they got. */
  ghost predicate Voice(objs: seq<Obj>, id: Id, calls: seq<HosterCall>) {
    && (forall i | 0 <= i < |objs| && objs[i].id == id :: objs[i].link.calls <= calls)
    && (calls == [] || Says(objs, id, calls))
  }

  ghost predicate Says(objs: seq<Obj>, id: Id, calls: seq<HosterCall>) {
    exists i :: 0 <= i < |objs| && objs[i].id == id && objs[i].link.calls == calls
  }

  predicate Indexed(p: Packet) {
    p.Data? || p.Release?
  }

  /** The packet the i-th call of a link becomes. */
  function PacketOf(id: Id, i: U32, call: HosterCall): Packet {
    match call
    case ReadData(data) => Data(id, i, data)
    case Close => Release(id, i)
  }

  /** The packet is the call with its number of some link object of id. */
  ghost predicate SaidBySome(objs: seq<Obj>, id: Id, p: Packet)
    requires Indexed(p)
  {
    exists i :: 0 <= i < |objs| && objs[i].id == id && Said(objs[i], p)
  }

  predicate Said(o: Obj, p: Packet)
    requires Indexed(p)
  {
    p.index < |o.link.calls| && p == PacketOf(o.id, p.index, o.link.calls[p.index])
  }

  ghost predicate AllSent(o: Obj, sent: multiset<Packet>) {
    forall k: U32 | k < |o.link.calls| :: PacketOf(o.id, k, o.link.calls[k]) in sent
  }

  /** The numbered packets of id are exactly the calls of its link objects, however many there were. */
  ghost predicate Spoken(objs: seq<Obj>, sent: multiset<Packet>, id: Id) {
    && (forall p <- sent | Indexed(p) && p.id == id :: SaidBySome(objs, id, p))
    && (forall i | 0 <= i < |objs| && objs[i].id == id :: AllSent(objs[i], sent))
  }

  /** No link object of id has made more calls than there are numbers. */
  ghost predicate Fits(objs: seq<Obj>, id: Id) {
    forall i | 0 <= i < |objs| && objs[i].id == id :: |objs[i].link.calls| <= BAD_INDEX
  }

  ghost predicate PacketsOk(objs: seq<Obj>, sent: multiset<Packet>) {
    forall id | Fits(objs, id) :: Spoken(objs, sent, id)
  }

  ghost predicate CacheOk(n: Node) {
    && (forall c <- n.trunk.cache :: c.info in n.trunk.sent && Indexed(c.info))
    && (forall c <- n.connects :: c.info in n.trunk.sent && c.info.CreateConnect?)
  }

  /** The table holds exactly the objects that have not been closed, each with the count of its calls. */
  ghost predicate TableOk(objs: seq<Obj>, table: map<Id, T.Info<nat>>) {
    && (forall id <- table :: EntryOk(objs, id, table[id]))
    && (forall i | 0 <= i < |objs| && !objs[i].link.closeInvoked :: objs[i].id in table && table[objs[i].id].link == i)
  }

  ghost predicate EntryOk(objs: seq<Obj>, id: Id, entry: T.Info<nat>) {
    && entry.link < |objs| && objs[entry.link].id == id
    && !objs[entry.link].link.closeInvoked
    && entry.nextIndex == |objs[entry.link].link.calls| % 0x1_0000_0000
  }

  ghost predicate LinksOk(n: Node) {
    forall i | 0 <= i < |n.objs| :: LinkOk(n.objs[i].link)
  }

  /** Packets have the form and size this side may send. */
  ghost predicate FormOk(n: Node) {
    forall p <- n.trunk.sent | p.Data? :: |p.data| <= MAX_CHUNK_SIZE
  }

  ghost predicate NodeOk(n: Node) {
    LinksOk(n) && TableOk(n.objs, n.trunk.table) && PacketsOk(n.objs, n.trunk.sent) && CacheOk(n) && FormOk(n)
  }

  // ----- A call reaches the trunk as the next numbered packet

  lemma HostSends(t: T.Trunk<nat>, id: Id, call: HosterCall, now: Time)
    requires id in t.table && (call.ReadData? ==> |call.data| <= MAX_CHUNK_SIZE)
    ensures var r := Host(t, id, call, now); var i := t.table[id].nextIndex;
            && r.sent == t.sent + (if i == BAD_INDEX then multiset{} else multiset{PacketOf(id, i, call)})
            && r.cache == (if i == BAD_INDEX then t.cache else PacketCache.Put(t.cache, PacketOf(id, i, call), now))
            && r.table == (if call.Close? then t.table - {id} else t.table[id := t.table[id].(nextIndex := Inc(i))])
  {
    if call.Close? {
      assert t.table[id := t.table[id].(nextIndex := Inc(t.table[id].nextIndex))] - {id} == t.table - {id};
    }
  }

  /** Link objects are only added, and only go on speaking. */
  ghost predicate Extends(objs: seq<Obj>, objs': seq<Obj>) {
    && |objs| <= |objs'|
    && (forall i | 0 <= i < |objs| :: objs'[i].id == objs[i].id && objs[i].link.calls <= objs'[i].link.calls)
  }

  lemma FitsBefore(objs: seq<Obj>, objs': seq<Obj>, id: Id)
    requires Extends(objs, objs') && Fits(objs', id)
    ensures Fits(objs, id)
  {
    forall i | 0 <= i < |objs| && objs[i].id == id ensures |objs[i].link.calls| <= BAD_INDEX {
      assert objs'[i].id == id;
    }
  }

  lemma SaidBefore(objs: seq<Obj>, objs': seq<Obj>, id: Id, p: Packet)
    requires Extends(objs, objs') && Indexed(p) && SaidBySome(objs, id, p)
    ensures SaidBySome(objs', id, p)
  {
    var i :| 0 <= i < |objs| && objs[i].id == id && Said(objs[i], p);
    assert objs'[i].id == id && Said(objs'[i], p);
  }

  /** What is new among the packets has been said, and what is new among the calls has been sent. */
  lemma SpokenGrows(objs: seq<Obj>, objs': seq<Obj>, sent: multiset<Packet>, sent': multiset<Packet>, id: Id)
    requires Extends(objs, objs') && sent <= sent' && Spoken(objs, sent, id)
    requires forall p <- sent' | Indexed(p) && p.id == id && p !in sent :: SaidBySome(objs', id, p)
    requires forall i | 0 <= i < |objs'| && objs'[i].id == id ::
               AllSent(objs'[i], sent') || (i < |objs| && objs'[i].link.calls == objs[i].link.calls)
    ensures Spoken(objs', sent', id)
  {
    forall p <- sent' | Indexed(p) && p.id == id ensures SaidBySome(objs', id, p) {
      if p in sent {
        SaidBefore(objs, objs', id, p);
      }
    }
    forall i | 0 <= i < |objs'| && objs'[i].id == id ensures AllSent(objs'[i], sent') {
      if i < |objs| && objs'[i].link.calls == objs[i].link.calls {
        assert AllSent(objs[i], sent);
      }
    }
  }

  lemma VoiceFits(objs: seq<Obj>, id: Id, calls: seq<HosterCall>)
    requires Voice(objs, id, calls) && |calls| <= BAD_INDEX
    ensures Fits(objs, id)
  {
  }

  /** A numbered packet on the network is the call with its number of whoever speaks for the connection. */
  lemma SentWasSaid(objs: seq<Obj>, sent: multiset<Packet>, p: Packet, calls: seq<HosterCall>)
    requires PacketsOk(objs, sent) && p in sent && Indexed(p)
    requires Voice(objs, p.id, calls) && |calls| <= BAD_INDEX
    ensures p.index < |calls| && p == PacketOf(p.id, p.index, calls[p.index])
  {
    VoiceFits(objs, p.id, calls);
    assert SaidBySome(objs, p.id, p);
  }

  // ----- Objects that speak the same way

  ghost predicate SameSpeech(objs: seq<Obj>, objs': seq<Obj>) {
    && |objs| == |objs'|
    && (forall i | 0 <= i < |objs| :: objs'[i].id == objs[i].id && objs'[i].link.calls == objs[i].link.calls
                                   && objs'[i].link.closeInvoked == objs[i].link.closeInvoked)
  }

  lemma QuietPacketsOk(objs: seq<Obj>, objs': seq<Obj>, sent: multiset<Packet>, sent': multiset<Packet>)
    requires PacketsOk(objs, sent) && SameSpeech(objs, objs') && sent <= sent'
    requires forall p <- sent' :: Indexed(p) ==> p in sent
    ensures PacketsOk(objs', sent')
  {
    hide Spoken, Fits;
    forall id | Fits(objs', id) ensures Spoken(objs', sent', id) {
      FitsBefore(objs, objs', id);
      SpokenGrows(objs, objs', sent, sent', id);
    }
  }

  lemma SameSpeechSameVoice(objs: seq<Obj>, objs': seq<Obj>)
    requires SameSpeech(objs, objs')
    ensures forall id, calls :: Voice(objs', id, calls) ==> Voice(objs, id, calls)
  {
    forall id, calls | Voice(objs', id, calls) ensures Voice(objs, id, calls) {
      if calls != [] {
        var i :| 0 <= i < |objs'| && objs'[i].id == id && objs'[i].link.calls == calls;
        assert objs[i].id == id && objs[i].link.calls == calls;
      }
    }
  }

  /** Changes that leave calls, table links and numbers, and numbered packets alone. */
  lemma QuietChangeOk(n: Node, n': Node)
    requires NodeOk(n) && LinksOk(n') && SameSpeech(n.objs, n'.objs) && CacheOk(n') && FormOk(n')
    requires n'.trunk.table.Keys == n.trunk.table.Keys
    requires forall id <- n.trunk.table :: n'.trunk.table[id].link == n.trunk.table[id].link
                                        && n'.trunk.table[id].nextIndex == n.trunk.table[id].nextIndex
    requires n.trunk.sent <= n'.trunk.sent
    requires forall p <- n'.trunk.sent :: Indexed(p) ==> p in n.trunk.sent
    ensures NodeOk(n')
  {
    QuietPacketsOk(n.objs, n'.objs, n.trunk.sent, n'.trunk.sent);
    forall id <- n'.trunk.table ensures EntryOk(n'.objs, id, n'.trunk.table[id]) {
      assert EntryOk(n.objs, id, n.trunk.table[id]);
    }
  }

  // ----- The steps of a node

  lemma AddObjOk(n: Node, id: Id, connected: bool, now: Time)
    requires NodeOk(n) && id !in n.trunk.table
    ensures NodeOk(AddObj(n, id, connected, now))
  {
    StartOk(connected);
    var m, added := AddObj(n, id, connected, now), Obj(id, Run(FRESH_LINK, connected), false);
    AddedPacketsOk(n.objs, added, n.trunk.sent);
    forall i <- m.trunk.table ensures EntryOk(m.objs, i, m.trunk.table[i]) {
      assert i != id ==> EntryOk(n.objs, i, n.trunk.table[i]);
    }
  }

  lemma AddedPacketsOk(objs: seq<Obj>, added: Obj, sent: multiset<Packet>)
    requires PacketsOk(objs, sent) && added.link.calls == []
    ensures PacketsOk(objs + [added], sent)
  {
    hide Spoken, Fits;
    forall id | Fits(objs + [added], id) ensures Spoken(objs + [added], sent, id) {
      FitsBefore(objs, objs + [added], id);
      SpokenGrows(objs, objs + [added], sent, sent, id);
    }
  }

  lemma VoiceBeforeAdd(objs: seq<Obj>, added: Obj, id: Id, calls: seq<HosterCall>)
    requires Voice(objs + [added], id, calls) && added.link.calls == []
    ensures Voice(objs, id, calls)
  {
    var all := objs + [added];
    assert forall i | 0 <= i < |objs| :: all[i] == objs[i];
    if calls != [] {
      var i :| 0 <= i < |all| && all[i].id == id && all[i].link.calls == calls;
      assert i < |objs| && objs[i].id == id && objs[i].link.calls == calls;
    }
  }

  lemma AddConnectOk(n: Node, id: Id, point: U32, now: Time)
    requires NodeOk(n)
    ensures NodeOk(AddConnect(n, id, point, now))
  {
    if id !in n.trunk.table {
      AddObjOk(n, id, true, now);
      QuietChangeOk(AddObj(n, id, true, now), AddConnect(n, id, point, now));
    }
  }

  lemma {:induction false} WithoutSubset(items: seq<Cached>, id: Id)
    ensures forall c <- Without(items, id) :: c in items
  {
    if items != [] {
      WithoutSubset(items[..|items| - 1], id);
    }
  }

  lemma {:induction false} UnexpiredSubset(items: seq<Cached>, now: Time)
    ensures forall c <- Unexpired(items, now) :: c in items
  {
    if items != [] {
      UnexpiredSubset(items[..|items| - 1], now);
    }
  }

  lemma {:induction false} DueSubset(policy: Policy, items: seq<Cached>, now: Time)
    ensures forall p <- DueInfos(policy, items, now) :: exists c <- items :: c.info == p
  {
    if items != [] {
      DueSubset(policy, items[..|items| - 1], now);
      var front, last := items[..|items| - 1], items[|items| - 1];
      forall p <- DueInfos(policy, items, now) ensures exists c <- items :: c.info == p {
        if p !in DueInfos(policy, front, now) {
          assert last in items;
        } else {
          var c :| c in front && c.info == p;
          assert c in items;
        }
      }
    }
  }

  /** Repeating cached packets sends nothing that was not sent before. */
  lemma ResendingIsQuiet(policy: Policy, items: seq<Cached>, sent: multiset<Packet>, now: Time)
    requires forall c <- items :: c.info in sent
    ensures var live := Unexpired(items, now);
            && (forall c <- PostponeAll(policy, live, now) :: exists b <- items :: b.info == c.info)
            && (forall p <- DueInfos(policy, live, now) :: p in sent)
  {
    var live := Unexpired(items, now);
    UnexpiredSubset(items, now);
    DueSubset(policy, live, now);
    forall c <- PostponeAll(policy, live, now) ensures exists b <- items :: b.info == c.info {
      var i :| 0 <= i < |live| && c == PostponeAll(policy, live, now)[i];
      assert live[i] in items && live[i].info == c.info;
    }
  }

  lemma ResendTickOk(n: Node, now: Time)
    requires NodeOk(n)
    ensures NodeOk(ResendTick(n, now)) && forall p <- ResendTick(n, now).trunk.sent :: p in n.trunk.sent
  {
    ResendingIsQuiet(DataCache, n.trunk.cache, n.trunk.sent, now);
    QuietChangeOk(n, ResendTick(n, now));
  }

  lemma ConnectResendTickOk(n: Node, now: Time)
    requires NodeOk(n)
    ensures NodeOk(ConnectResendTick(n, now)) && forall p <- ConnectResendTick(n, now).trunk.sent :: p in n.trunk.sent
  {
    ResendingIsQuiet(ConnectCache, n.connects, n.trunk.sent, now);
    QuietChangeOk(n, ConnectResendTick(n, now));
  }

  lemma TickedObject(n: Node, now: Time, i: nat)
    requires i < |n.objs|
    ensures var m := LiveTick(n, now);
            && |m.objs| == |n.objs|
            && (m.objs[i] == n.objs[i] || m.objs[i] == Obj(n.objs[i].id, Stop(n.objs[i].link, 0), true))
  {
    hide Stop, Dies;
  }

  lemma StopIsSilent(l: Link, n: U32)
    ensures Stop(l, n).calls == l.calls && Stop(l, n).closeInvoked == l.closeInvoked
  {
  }

  lemma LiveTickKeepsSpeech(n: Node, now: Time)
    ensures SameSpeech(n.objs, LiveTick(n, now).objs)
  {
    hide Stop, Dies;
    forall i | 0 <= i < |n.objs|
      ensures Stop(n.objs[i].link, 0).calls == n.objs[i].link.calls
      ensures Stop(n.objs[i].link, 0).closeInvoked == n.objs[i].link.closeInvoked
    {
      StopIsSilent(n.objs[i].link, 0);
    }
  }

  lemma LiveTickOk(n: Node, now: Time)
    requires NodeOk(n)
    ensures NodeOk(LiveTick(n, now))
  {
    var m := LiveTick(n, now);
    LiveTickKeepsSpeech(n, now);
    hide Stop, Dies;
    forall i | 0 <= i < |m.objs| ensures LinkOk(m.objs[i].link) {
      TickedObject(n, now, i);
      StopOk(n.objs[i].link, 0);
    }
    QuietChangeOk(n, m);
  }

  lemma SetLinkOk(n: Node, oid: nat, link: Link)
    requires NodeOk(n) && oid < |n.objs| && LinkOk(link)
    requires link.calls == n.objs[oid].link.calls && link.closeInvoked == n.objs[oid].link.closeInvoked
    ensures NodeOk(SetLink(n, oid, link))
  {
    QuietChangeOk(n, SetLink(n, oid, link));
  }

  lemma SendOk(n: Node, p: Packet)
    requires NodeOk(n) && !Indexed(p)
    ensures NodeOk(n.(trunk := T.Send(n.trunk, p)))
  {
    QuietChangeOk(n, n.(trunk := T.Send(n.trunk, p)));
  }

  lemma ReceiveDataOk(n: Node, id: Id, index: U32, data: Octets, accepted: bool, now: Time)
    requires NodeOk(n)
    ensures NodeOk(Receive(n, Data(id, index, data), accepted, now))
  {
    if id in n.trunk.table {
      assert EntryOk(n.objs, id, n.trunk.table[id]);
      var oid := n.trunk.table[id].link;
      var link := SendData(n.objs[oid].link, index, data);
      SendDataOk(n.objs[oid].link, index, data);
      SetLinkOk(n, oid, link);
      SendOk(SetLink(n, oid, link), AckData(id));
    }
  }

  lemma ReceiveReleaseOk(n: Node, id: Id, index: U32, accepted: bool, now: Time)
    requires NodeOk(n)
    ensures NodeOk(Receive(n, Release(id, index), accepted, now))
  {
    if id in n.trunk.table {
      assert EntryOk(n.objs, id, n.trunk.table[id]);
      var oid := n.trunk.table[id].link;
      StopOk(n.objs[oid].link, index);
      SetLinkOk(n, oid, Stop(n.objs[oid].link, index));
    }
  }

  lemma ReceiveOk(n: Node, p: Packet, accepted: bool, now: Time)
    requires NodeOk(n)
    ensures NodeOk(Receive(n, p, accepted, now))
  {
    match p
    case CreateConnect(id, point, timeout) =>
      SendOk(n, AckCreate(id));
      if id !in n.trunk.table && accepted {
        AddObjOk(n.(trunk := T.Send(n.trunk, AckCreate(id))), id, false, now);
      }
    case AckCreate(id) =>
      WithoutSubset(n.connects, id);
      QuietChangeOk(n, Receive(n, p, accepted, now));
    case Data(id, index, data) => ReceiveDataOk(n, id, index, data, accepted, now);
    case Release(id, index) => ReceiveReleaseOk(n, id, index, accepted, now);
    case Live(id) => QuietChangeOk(n, Receive(n, p, accepted, now));
    case AckData(_) =>
  }

  // ----- Local events

  lemma VoiceBeforeQuietUpdate(objs: seq<Obj>, oid: nat, link: Link, id: Id, calls: seq<HosterCall>)
    requires oid < |objs| && Voice(objs[oid := objs[oid].(link := link)], id, calls)
    requires link.calls == objs[oid].link.calls || objs[oid].id != id
    ensures Voice(objs, id, calls)
  {
    var all := objs[oid := objs[oid].(link := link)];
    assert forall i | 0 <= i < |objs| :: all[i].id == objs[i].id && (i != oid ==> all[i] == objs[i]);
    if calls != [] {
      var i :| 0 <= i < |all| && all[i].id == id && all[i].link.calls == calls;
      assert objs[i].id == id && objs[i].link.calls == calls;
    }
  }

  /** If one link object of id makes a call, then the call is new, or some other object of id has made it before. */
  lemma VoiceBeforeCall(objs: seq<Obj>, oid: nat, link: Link, call: HosterCall, calls: seq<HosterCall>)
    requires oid < |objs| && link.calls == objs[oid].link.calls + [call]
    requires Voice(objs[oid := objs[oid].(link := link)], objs[oid].id, calls)
    ensures Voice(objs, objs[oid].id, calls)
         || (calls == link.calls && Voice(objs, objs[oid].id, objs[oid].link.calls))
  {
    var all, id, said := objs[oid := objs[oid].(link := link)], objs[oid].id, objs[oid].link.calls;
    assert all[oid].link.calls == link.calls <= calls;
    assert said <= link.calls;
    assert forall i | 0 <= i < |objs| && i != oid :: all[i] == objs[i];
    if !Says(objs, id, calls) {
      var i :| 0 <= i < |all| && all[i].id == id && all[i].link.calls == calls;
      assert i == oid;
      forall j | 0 <= j < |objs| && objs[j].id == id ensures objs[j].link.calls <= said {
        assert j != oid ==> objs[j].link.calls <= calls && objs[j].link.calls != calls;
      }
    }
  }

  lemma CallPacketsOk(objs: seq<Obj>, sent: multiset<Packet>, sent': multiset<Packet>, oid: nat, after: Link,
                      call: HosterCall)
    requires PacketsOk(objs, sent) && oid < |objs| && after.calls == objs[oid].link.calls + [call]
    requires sent <= sent' && forall p <- sent' :: p in sent || p.id == objs[oid].id
    requires |after.calls| <= BAD_INDEX ==>
               sent' == sent + multiset{PacketOf(objs[oid].id, |objs[oid].link.calls|, call)}
    ensures PacketsOk(objs[oid := objs[oid].(link := after)], sent')
  {
    var objs' := objs[oid := objs[oid].(link := after)];
    forall id | Fits(objs', id) ensures Spoken(objs', sent', id) {
      FitsBefore(objs, objs', id);
      assert objs'[oid].id == objs[oid].id;
      hide Spoken, Fits;
      if id == objs[oid].id {
        CallSpoken(objs, sent, oid, after, call);
      } else {
        SpokenGrows(objs, objs', sent, sent', id);
      }
    }
  }

  lemma CallSpoken(objs: seq<Obj>, sent: multiset<Packet>, oid: nat, after: Link, call: HosterCall)
    requires oid < |objs| && after.calls == objs[oid].link.calls + [call] && |after.calls| <= BAD_INDEX
    requires Spoken(objs, sent, objs[oid].id)
    ensures Spoken(objs[oid := objs[oid].(link := after)],
                   sent + multiset{PacketOf(objs[oid].id, |objs[oid].link.calls|, call)}, objs[oid].id)
  {
    var said, objs' := objs[oid].link.calls, objs[oid := objs[oid].(link := after)];
    var p := PacketOf(objs[oid].id, |said|, call);
    assert Said(objs'[oid], p);
    assert AllSent(objs'[oid], sent + multiset{p}) by {
      assert AllSent(objs[oid], sent);
    }
    SpokenGrows(objs, objs', sent, sent + multiset{p}, objs[oid].id);
  }

  lemma CallTableOk(objs: seq<Obj>, t: T.Trunk<nat>, oid: nat, after: Link, call: HosterCall, now: Time)
    requires TableOk(objs, t.table) && oid < |objs| && after.calls == objs[oid].link.calls + [call]
    requires !objs[oid].link.closeInvoked && (after.closeInvoked <==> call.Close?)
    requires call.ReadData? ==> |call.data| <= MAX_CHUNK_SIZE
    ensures TableOk(objs[oid := objs[oid].(link := after)], Host(t, objs[oid].id, call, now).table)
  {
    hide Host;
    var id := objs[oid].id;
    HostSends(t, id, call, now);
    var objs', table := objs[oid := objs[oid].(link := after)], Host(t, id, call, now).table;
    forall i <- table ensures EntryOk(objs', i, table[i]) {
      assert EntryOk(objs, i, t.table[i]);
    }
  }

  lemma CallSize(l: Link, i: nat)
    requires LinkOk(l) && i < |l.calls|
    ensures l.calls[i].ReadData? ==> |l.calls[i].data| <= MAX_CHUNK_SIZE
  {
  }

  /** A link makes one more call on the trunk. */
  lemma CallOk(n: Node, oid: nat, after: Link, call: HosterCall, now: Time)
    requires NodeOk(n) && oid < |n.objs| && LinkOk(after) && !n.objs[oid].link.closeInvoked
    requires after.calls == n.objs[oid].link.calls + [call] && (after.closeInvoked <==> call.Close?)
    ensures NodeOk(SetLink(n, oid, after).(trunk := Host(n.trunk, n.objs[oid].id, call, now)))
  {
    hide Host, LinkOk;
    var id := n.objs[oid].id;
    CallSize(after, |n.objs[oid].link.calls|);
    CallTableOk(n.objs, n.trunk, oid, after, call, now);
    assert EntryOk(n.objs, id, n.trunk.table[id]);
    HostSends(n.trunk, id, call, now);
    CallPacketsOk(n.objs, n.trunk.sent, Host(n.trunk, id, call, now).sent, oid, after, call);
    hide PacketsOk, TableOk;
    HostCacheOk(n, id, call, now);
  }

  lemma HostCacheOk(n: Node, id: Id, call: HosterCall, now: Time)
    requires CacheOk(n) && FormOk(n) && id in n.trunk.table && (call.ReadData? ==> |call.data| <= MAX_CHUNK_SIZE)
    ensures var m := n.(trunk := Host(n.trunk, id, call, now)); CacheOk(m) && FormOk(m)
  {
    hide Host;
    HostSends(n.trunk, id, call, now);
  }

  lemma LocalTrunk(n: Node, oid: nat, e: Event, now: Time)
    requires oid < |n.objs| && IsLocal(e) && Enabled(n.objs[oid].link, e)
    ensures var after := Apply(n.objs[oid].link, e);
            LocalEvent(n, oid, e, now) == SetLink(n, oid, after).(trunk :=
              if |after.calls| > |n.objs[oid].link.calls|
              then Host(n.trunk, n.objs[oid].id, after.calls[|after.calls| - 1], now) else n.trunk)
  {
    hide Apply, Enabled, Host;
  }

  lemma LocalEventOk(n: Node, oid: nat, e: Event, now: Time)
    requires NodeOk(n)
    requires oid < |n.objs| && IsLocal(e) && Enabled(n.objs[oid].link, e)
    ensures NodeOk(LocalEvent(n, oid, e, now))
  {
    var l, after := n.objs[oid].link, Apply(n.objs[oid].link, e);
    ApplyOk(l, e);
    CallEffect(l, e);
    if after.calls == l.calls {
      SetLinkOk(n, oid, after);
    } else {
      CallOk(n, oid, after, after.calls[|after.calls| - 1], now);
    }
  }
}
