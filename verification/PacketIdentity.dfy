/** What the number of a packet stands for, for connections with any number of link objects on the sending side. */
module PacketIdentity {
  import opened Bytes
  import opened Packets
  import opened OutLinkSpec
  import opened Node
  import opened NodeProofs
  import opened EndToEnd
  import P = Protocol

  /** Each number of the connection stands for one packet. */
  ghost predicate OnePacketPerNumber(sent: multiset<Packet>, id: Id) {
    forall p <- sent, q <- sent | Indexed(p) && Indexed(q) && p.id == q.id == id :: p.index == q.index ==> p == q
  }

  /** No two link objects of the connection made different calls at one place. */
  ghost predicate SpeakAlike(objs: seq<Obj>, id: Id) {
    forall i, j | 0 <= i < |objs| && 0 <= j < |objs| && objs[i].id == objs[j].id == id ::
      Agree(objs[i].link.calls, objs[j].link.calls)
  }

  ghost predicate Agree(c: seq<HosterCall>, d: seq<HosterCall>) {
    forall k | 0 <= k < |c| && k < |d| :: c[k] == d[k]
  }

  /** In every reachable state the numbered packets of a connection are exactly the calls of its link objects, each
      under the place of the call, and the cache holds nothing else. */
  lemma PacketsAreCalls(s: P.System, side: Side, id: Id)
    requires Reachable(s) && Fits(P.At(s, side).objs, id)
    ensures Spoken(P.At(s, side).objs, P.At(s, side).trunk.sent, id)
    ensures forall c <- P.At(s, side).trunk.cache :: c.info in P.At(s, side).trunk.sent
  {
    ReachableOk(s);
  }

  lemma CallsOfOneNumber(objs: seq<Obj>, sent: multiset<Packet>, id: Id, i: nat, j: nat)
    requires Spoken(objs, sent, id) && Fits(objs, id) && OnePacketPerNumber(sent, id)
    requires i < |objs| && j < |objs| && objs[i].id == objs[j].id == id
    ensures Agree(objs[i].link.calls, objs[j].link.calls)
  {
    var c, d := objs[i].link.calls, objs[j].link.calls;
    forall k | 0 <= k < |c| && k < |d| ensures c[k] == d[k] {
      assert AllSent(objs[i], sent) && AllSent(objs[j], sent);
      assert PacketOf(id, k, c[k]) in sent && PacketOf(id, k, d[k]) in sent;
    }
  }

  lemma PacketsOfOneNumber(objs: seq<Obj>, sent: multiset<Packet>, id: Id, p: Packet, q: Packet)
    requires Spoken(objs, sent, id) && SpeakAlike(objs, id)
    requires p in sent && q in sent && Indexed(p) && Indexed(q) && p.id == q.id == id && p.index == q.index
    ensures p == q
  {
    assert SaidBySome(objs, id, p) && SaidBySome(objs, id, q);
    var i :| 0 <= i < |objs| && objs[i].id == id && Said(objs[i], p);
    var j :| 0 <= j < |objs| && objs[j].id == id && Said(objs[j], q);
    assert Agree(objs[i].link.calls, objs[j].link.calls);
  }

  /** In every reachable state each number of a connection stands for one packet if and only if no two link objects
      of the connection on that side have made different calls at one place. */
  lemma NumbersAreUniqueIff(s: P.System, side: Side, id: Id)
    requires Reachable(s) && Fits(P.At(s, side).objs, id)
    ensures OnePacketPerNumber(P.At(s, side).trunk.sent, id) <==> SpeakAlike(P.At(s, side).objs, id)
  {
    var objs, sent := P.At(s, side).objs, P.At(s, side).trunk.sent;
    PacketsAreCalls(s, side, id);
    if OnePacketPerNumber(sent, id) {
      forall i, j | 0 <= i < |objs| && 0 <= j < |objs| && objs[i].id == objs[j].id == id
        ensures Agree(objs[i].link.calls, objs[j].link.calls)
      {
        CallsOfOneNumber(objs, sent, id, i, j);
      }
    }
    if SpeakAlike(objs, id) {
      forall p <- sent, q <- sent | Indexed(p) && Indexed(q) && p.id == q.id == id && p.index == q.index
        ensures p == q
      {
        PacketsOfOneNumber(objs, sent, id, p, q);
      }
    }
  }

  /** Link objects that never differ speak with one voice: that of the one with the most calls. */
  lemma {:induction false} OneVoice(objs: seq<Obj>, id: Id) returns (calls: seq<HosterCall>)
    requires SpeakAlike(objs, id)
    ensures Voice(objs, id, calls)
  {
    if objs == [] {
      calls := [];
    } else {
      var front, last := objs[..|objs| - 1], objs[|objs| - 1];
      hide Voice, SpeakAlike;
      assert objs == front + [last];
      FrontSpeaksAlike(front, last, id);
      calls := OneVoice(front, id);
      if last.id != id {
        OtherVoice(front, last, id, calls);
      } else {
        LongerVoice(front, last, id, calls);
        if |last.link.calls| > |calls| {
          calls := last.link.calls;
        }
      }
    }
  }

  lemma FrontSpeaksAlike(objs: seq<Obj>, last: Obj, id: Id)
    requires SpeakAlike(objs + [last], id)
    ensures SpeakAlike(objs, id)
  {
    var all := objs + [last];
    assert forall i | 0 <= i < |objs| :: all[i] == objs[i];
  }

  lemma OtherVoice(objs: seq<Obj>, last: Obj, id: Id, calls: seq<HosterCall>)
    requires Voice(objs, id, calls) && last.id != id
    ensures Voice(objs + [last], id, calls)
  {
    var all := objs + [last];
    assert forall i | 0 <= i < |objs| :: all[i] == objs[i];
    if calls != [] {
      var i :| 0 <= i < |objs| && objs[i].id == id && objs[i].link.calls == calls;
      assert all[i].id == id && all[i].link.calls == calls;
    }
  }

  lemma LongerVoice(objs: seq<Obj>, last: Obj, id: Id, calls: seq<HosterCall>)
    requires Voice(objs, id, calls) && last.id == id && SpeakAlike(objs + [last], id)
    ensures Voice(objs + [last], id, if |last.link.calls| > |calls| then last.link.calls else calls)
  {
    var all, more := objs + [last], last.link.calls;
    assert all[|objs|] == last && forall i | 0 <= i < |objs| :: all[i] == objs[i];
    if calls != [] {
      var i :| 0 <= i < |objs| && objs[i].id == id && objs[i].link.calls == calls;
      assert Agree(all[i].link.calls, all[|objs|].link.calls);
    }
    if |more| > |calls| {
      assert all[|objs|].id == id && calls <= more;
    } else {
      assert more <= calls;
      assert calls != [] ==> Says(all, id, calls) by {
        if calls != [] {
          var i :| 0 <= i < |objs| && objs[i].id == id && objs[i].link.calls == calls;
          assert all[i].id == id && all[i].link.calls == calls;
        }
      }
    }
  }

  /** The results about the stream of a connection hold whenever each of its numbers stands for one packet: there is
      then something that has been said. */
  lemma UniqueNumbersMakeAPair(s: P.System, side: Side, i: nat) returns (calls: seq<HosterCall>)
    requires Reachable(s) && i < |P.At(s, Other(side)).objs|
    requires var id := P.At(s, Other(side)).objs[i].id;
             Fits(P.At(s, side).objs, id) && OnePacketPerNumber(P.At(s, side).trunk.sent, id)
    ensures Pair(s, side, i, calls)
  {
    var id := P.At(s, Other(side)).objs[i].id;
    NumbersAreUniqueIff(s, side, id);
    calls := OneVoice(P.At(s, side).objs, id);
  }

  /** The release of a link object is above everything else the object sent, also if the connection had other link
      objects. */
  lemma ReleaseIsAboveDataOfItsLink(s: P.System, side: Side, i: nat, p: Packet, q: Packet)
    requires Reachable(s) && i < |P.At(s, side).objs|
    requires Indexed(p) && Indexed(q) && Said(P.At(s, side).objs[i], p) && Said(P.At(s, side).objs[i], q)
    requires p.Release?
    ensures (q.Data? ==> q.index < p.index) && (q.Release? ==> q == p)
  {
    EveryLinkIsSound(s, side);
    var calls := P.At(s, side).objs[i].link.calls;
    assert calls[p.index].Close? && p.index == |calls| - 1;
  }

  /** Packets of one connection carry consecutive numbers from 0, each number one packet for ever, in the cache
      and on the network alike; a release has the highest number and there is only one. */
  lemma PacketIdentityIsStable(s: P.System, side: Side, id: Id, calls: seq<HosterCall>)
    requires Reachable(s)
    requires Voice(P.At(s, side).objs, id, calls) && |calls| <= BAD_INDEX
    ensures var t := P.At(s, side).trunk;
            && (forall c <- t.cache :: c.info in t.sent)
            && (forall i: U32 | i < |calls| :: PacketOf(id, i, calls[i]) in t.sent)
            && (forall p <- t.sent | Indexed(p) && p.id == id :: p.index < |calls|)
            && (forall p <- t.sent, q <- t.sent | Indexed(p) && Indexed(q) && p.id == q.id == id ::
                  && (p.index == q.index ==> p == q)
                  && (p.Release? ==> q.index <= p.index))
  {
    ReachableOk(s);
    VoiceFits(P.At(s, side).objs, id, calls);
    forall p <- P.At(s, side).trunk.sent | Indexed(p) && p.id == id
      ensures p.index < |calls| && p == PacketOf(id, p.index, calls[p.index])
    {
      SentWasSaid(P.At(s, side).objs, P.At(s, side).trunk.sent, p, calls);
    }
    VoiceCloseIsLast(P.At(s, side), id, calls);
  }
}
