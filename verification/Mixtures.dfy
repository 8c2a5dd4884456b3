/** What a link puts out when the connection had any number of link objects on the other side, whether or not they
    said the same: at each place a chunk that one of them read there. */
module Mixtures {
  import opened Bytes
  import opened Packets
  import opened OutLinkSpec
  import opened OutLinkProofs
  import opened Reassembly
  import opened Node
  import opened NodeProofs
  import opened EndToEnd
  import opened Projection
  import P = Protocol

  /** Some link object of the connection read this chunk as its k-th. */
  ghost predicate ReadAt(objs: seq<Obj>, id: Id, k: nat, chunk: Octets) {
    exists j :: 0 <= j < |objs| && objs[j].id == id && HasChunk(objs[j].link.calls, k, chunk)
  }

  predicate HasChunk(calls: seq<HosterCall>, k: nat, chunk: Octets) {
    k < |calls| && calls[k] == ReadData(chunk)
  }

  /** A stream made of the streams of the connection's link objects, place by place. */
  ghost predicate Mixture(objs: seq<Obj>, id: Id, src: seq<Octets>) {
    |src| <= BAD_INDEX && forall k | 0 <= k < |src| :: ReadAt(objs, id, k, src[k])
  }

  ghost predicate SomeClosed(objs: seq<Obj>, id: Id) {
    exists j :: 0 <= j < |objs| && objs[j].id == id && Close in objs[j].link.calls
  }

  /** The output of o comes from a mixture; without a dead-link stop it knows of an end only if some link object of
      the connection has closed. */
  ghost predicate Mixes(objs: seq<Obj>, o: Obj, src: seq<Octets>) {
    && Mixture(objs, o.id, src) && Reassembles(o.link.out, src)
    && (!o.killed && KnowsEnd(o.link.out) ==> SomeClosed(objs, o.id))
  }

  predicate KnowsEnd(o: Outgoing) {
    o.stop != UNDEFINED_CHUNK || o.stopAfterAll
  }

  ghost predicate HearsMixture(objs: seq<Obj>, o: Obj) {
    Fits(objs, o.id) ==> exists src :: Mixes(objs, o, src)
  }

  ghost predicate FlowsMixed(from: Node, to: Node) {
    forall i | 0 <= i < |to.objs| :: HearsMixture(from.objs, to.objs[i])
  }

  ghost predicate MixturesOk(s: P.System) {
    FlowsMixed(s.client, s.server) && FlowsMixed(s.server, s.client)
  }

  // ----- The speaking side moves

  lemma SpeakersExtend(objs: seq<Obj>, objs': seq<Obj>, o: Obj, src: seq<Octets>)
    requires Extends(objs, objs') && Mixes(objs, o, src)
    ensures Mixes(objs', o, src)
  {
    forall k | 0 <= k < |src| ensures ReadAt(objs', o.id, k, src[k]) {
      assert ReadAt(objs, o.id, k, src[k]);
      var j :| 0 <= j < |objs| && objs[j].id == o.id && HasChunk(objs[j].link.calls, k, src[k]);
      assert objs'[j].id == o.id && HasChunk(objs'[j].link.calls, k, src[k]);
    }
    if SomeClosed(objs, o.id) {
      var j :| 0 <= j < |objs| && objs[j].id == o.id && Close in objs[j].link.calls;
      assert objs'[j].id == o.id && Close in objs'[j].link.calls;
    }
  }

  // ----- The hearing side moves

  /** Chunk k of a call sequence, and the chunks of the places before it that src lacks. */
  function Lengthened(src: seq<Octets>, calls: seq<HosterCall>, k: nat): seq<Octets>
    requires k < |calls| && forall m | 0 <= m <= k :: calls[m].ReadData?
  {
    seq(if |src| > k then |src| else k + 1,
        m requires 0 <= m && (m < |src| || m <= k) => if m < |src| && m != k then src[m] else calls[m].data)
  }

  lemma LengthenedMixes(objs: seq<Obj>, o: Obj, src: seq<Octets>, j: nat, k: nat)
    requires Mixes(objs, o, src) && j < |objs| && objs[j].id == o.id && Fits(objs, o.id)
    requires k < |objs[j].link.calls| && forall m | 0 <= m <= k :: objs[j].link.calls[m].ReadData?
    requires o.link.out.next <= k && k !in o.link.out.chunks
    ensures Mixes(objs, o, Lengthened(src, objs[j].link.calls, k))
  {
    var calls := objs[j].link.calls;
    var longer := Lengthened(src, calls, k);
    forall m | 0 <= m < |longer| ensures ReadAt(objs, o.id, m, longer[m]) {
      if m < |src| && m != k {
        assert ReadAt(objs, o.id, m, src[m]);
      } else {
        assert HasChunk(calls, m, longer[m]);
      }
    }
    assert longer[..o.link.out.next] == src[..o.link.out.next];
  }

  lemma FillKnowsNoEnd(o: Outgoing)
    ensures KnowsEnd(Fill(o)) <==> KnowsEnd(o)
  {
    DrainFrame(o);
    DrainKnowsNoEnd(o);
  }

  lemma {:induction false} DrainKnowsNoEnd(o: Outgoing)
    ensures KnowsEnd(Drain(o)) <==> KnowsEnd(o)
    decreases o.chunks.Keys
  {
    if o.next in o.chunks && !StopReached(TakeChunk(o)) {
      DrainKnowsNoEnd(TakeChunk(o));
    }
  }

  lemma EndIsLearntFromStop(l: Link, e: Event)
    requires LinkOk(l) && Enabled(l, e) && !e.StopAt?
    ensures KnowsEnd(Apply(l, e).out) <==> KnowsEnd(l.out)
  {
    OutEffect(l, e);
    if EntersWriter(e) {
      FillKnowsNoEnd(WriterEntry(l, e).out);
    }
  }

  /** An event that agrees with the mixture. */
  lemma EventMixes(objs: seq<Obj>, o: Obj, e: Event, killed: bool, src: seq<Octets>)
    requires Mixes(objs, o, src) && LinkOk(o.link) && Enabled(o.link, e) && Consistent(e, src)
    requires o.killed ==> killed
    requires e.StopAt? && !killed ==> SomeClosed(objs, o.id)
    ensures Mixes(objs, Obj(o.id, Apply(o.link, e), killed), src)
  {
    ApplyReassembles(o.link, e, src);
    if !e.StopAt? {
      EndIsLearntFromStop(o.link, e);
    }
  }

  lemma DroppedChunk(l: Link, e: Event)
    requires e.Arrive? && !Accepts(l.out, e.id)
    ensures Apply(l, e) == l
  {
  }

  lemma SayerExists(n: Node, p: Packet) returns (j: nat)
    requires NodeOk(n) && p in n.trunk.sent && Indexed(p) && Fits(n.objs, p.id)
    ensures j < |n.objs| && n.objs[j].id == p.id && Said(n.objs[j], p) && LinkOk(n.objs[j].link)
  {
    assert SaidBySome(n.objs, p.id, p);
    j :| 0 <= j < |n.objs| && n.objs[j].id == p.id && Said(n.objs[j], p);
  }

  lemma ReleaseMixes(objs: seq<Obj>, o: Obj, j: nat, p: Packet, src: seq<Octets>)
    requires Mixes(objs, o, src) && LinkOk(o.link) && p.Release?
    requires j < |objs| && objs[j].id == o.id && Said(objs[j], p)
    ensures Mixes(objs, o.(link := Apply(o.link, ArrivalOf(p))), src)
  {
    assert objs[j].link.calls[p.index] == Close && SomeClosed(objs, o.id);
    hide Mixes, LinkOk, Apply;
    EventMixes(objs, o, ArrivalOf(p), o.killed, src);
  }

  lemma StoredMixes(objs: seq<Obj>, o: Obj, j: nat, p: Packet, src: seq<Octets>)
    requires Mixes(objs, o, src) && LinkOk(o.link) && p.Data? && Accepts(o.link.out, p.index) && Fits(objs, o.id)
    requires j < |objs| && objs[j].id == o.id && Said(objs[j], p) && LinkOk(objs[j].link)
    ensures HearsMixture(objs, o.(link := Apply(o.link, ArrivalOf(p))))
  {
    var calls := objs[j].link.calls;
    hide Mixes, LinkOk, Apply, Fits;
    ReadsBefore(objs[j].link, p.index);
    LengthenedMixes(objs, o, src, j, p.index);
    EventMixes(objs, o, ArrivalOf(p), o.killed, Lengthened(src, calls, p.index));
    assert Mixes(objs, o.(link := Apply(o.link, ArrivalOf(p))), Lengthened(src, calls, p.index));
  }

  lemma ArrivalMixes(from: Node, o: Obj, p: Packet, src: seq<Octets>)
    requires NodeOk(from) && p in from.trunk.sent && Indexed(p) && p.id == o.id && Fits(from.objs, o.id)
    requires Mixes(from.objs, o, src) && LinkOk(o.link)
    ensures HearsMixture(from.objs, o.(link := Apply(o.link, ArrivalOf(p))))
  {
    hide NodeOk, Mixes, LinkOk, Apply, Said, Fits;
    var j := SayerExists(from, p);
    if p.Release? {
      ReleaseMixes(from.objs, o, j, p, src);
    } else if Accepts(o.link.out, p.index) {
      StoredMixes(from.objs, o, j, p, src);
    } else {
      DroppedChunk(o.link, ArrivalOf(p));
      assert Mixes(from.objs, o.(link := Apply(o.link, ArrivalOf(p))), src);
    }
  }

  lemma ReadsBefore(l: Link, k: nat)
    requires LinkOk(l) && k < |l.calls| && l.calls[k].ReadData?
    ensures forall m | 0 <= m <= k :: l.calls[m].ReadData?
  {
  }

  lemma FreshMixes(objs: seq<Obj>, id: Id, connected: bool)
    ensures HearsMixture(objs, Obj(id, Run(FRESH_LINK, connected), false))
  {
    StartOk(connected);
    assert Mixes(objs, Obj(id, Run(FRESH_LINK, connected), false), []);
  }

  lemma HearersKeepUp(objs: seq<Obj>, objs': seq<Obj>, o: Obj)
    requires Extends(objs, objs') && HearsMixture(objs, o)
    ensures HearsMixture(objs', o)
  {
    if Fits(objs', o.id) {
      FitsBefore(objs, objs', o.id);
      var src :| Mixes(objs, o, src);
      SpeakersExtend(objs, objs', o, src);
    }
  }

  lemma EventHeard(from: Node, o: Obj, e: Event, killed: bool)
    requires HearsMixture(from.objs, o) && LinkOk(o.link) && Enabled(o.link, e) && !e.Arrive?
    requires (o.killed ==> killed) && (e.StopAt? ==> killed)
    ensures HearsMixture(from.objs, Obj(o.id, Apply(o.link, e), killed))
  {
    hide Mixes, LinkOk, Apply, Enabled;
    if Fits(from.objs, o.id) {
      var src :| Mixes(from.objs, o, src);
      EventMixes(from.objs, o, e, killed, src);
    }
  }

  lemma ArrivalHeard(from: Node, o: Obj, p: Packet)
    requires HearsMixture(from.objs, o) && LinkOk(o.link)
    requires NodeOk(from) && p in from.trunk.sent && Indexed(p) && p.id == o.id
    ensures HearsMixture(from.objs, o.(link := Apply(o.link, ArrivalOf(p))))
  {
    hide Mixes, LinkOk, Apply, NodeOk;
    if Fits(from.objs, o.id) {
      var src :| Mixes(from.objs, o, src);
      ArrivalMixes(from, o, p, src);
    }
  }

  lemma NamedHasId(n: Node, id: Id, i: nat)
    requires NodeOk(n) && Names(n, id, i) && i < |n.objs|
    ensures n.objs[i].id == id
  {
    assert EntryOk(n.objs, id, n.trunk.table[id]);
  }

  /** What a step makes of one object, before the other side is looked at again. */
  lemma ObjectHears(s: P.System, a: P.Action, side: Side, i: nat)
    requires SystemOk(s) && P.Possible(s, a) && i < |P.At(s, side).objs|
    requires HearsMixture(P.At(s, Other(side)).objs, P.At(s, side).objs[i])
    ensures i < |P.At(P.Do(s, a), side).objs|
    ensures HearsMixture(P.At(s, Other(side)).objs, P.At(P.Do(s, a), side).objs[i])
  {
    var from, o, e := P.At(s, Other(side)), P.At(s, side).objs[i], EventOf(s, a, side, i);
    StepProjects(s, a, side, i);
    ObjectOk(s, side, i);
    NodeIsOk(s, side);
    NodeIsOk(s, Other(side));
    hide SystemOk, NodeOk, HearsMixture, LinkOk, Apply, P.Do, Dies;
    if e.Some? {
      if a.Deliver? {
        NamedHasId(P.At(s, side), a.packet.id, i);
        ArrivalHeard(from, o, a.packet);
      } else {
        EventHeard(from, o, e.value, o.killed || a.LiveTimer?);
      }
    }
  }

  lemma NewcomerHears(objs: seq<Obj>, o: Obj, connected: bool)
    requires !o.killed && o.link == Run(FRESH_LINK, connected)
    ensures HearsMixture(objs, o)
  {
    hide Run, HearsMixture;
    FreshMixes(objs, o.id, connected);
    assert o == Obj(o.id, Run(FRESH_LINK, connected), false);
  }

  lemma StepFlowsMixed(s: P.System, a: P.Action, side: Side)
    requires SystemOk(s) && P.Possible(s, a) && FlowsMixed(P.At(s, Other(side)), P.At(s, side))
    ensures FlowsMixed(P.At(P.Do(s, a), Other(side)), P.At(P.Do(s, a), side))
  {
    hide SystemOk, HearsMixture, Extends, Run, P.Do, P.Possible;
    var from, objs, to' := P.At(s, Other(side)), P.At(s, side).objs, P.At(P.Do(s, a), side);
    StepExtends(s, a, Other(side));
    StepAddsFresh(s, a, side);
    forall i | 0 <= i < |to'.objs| ensures HearsMixture(P.At(P.Do(s, a), Other(side)).objs, to'.objs[i]) {
      if i < |objs| {
        ObjectHears(s, a, side, i);
      } else {
        NewcomerHears(from.objs, to'.objs[i], side.ClientSide?);
      }
      HearersKeepUp(from.objs, P.At(P.Do(s, a), Other(side)).objs, to'.objs[i]);
    }
  }

  lemma {:induction false} RunMixturesOk(s: P.System, run: seq<P.Action>)
    requires SystemOk(s) && MixturesOk(s) && P.Feasible(s, run)
    ensures MixturesOk(P.After(s, run))
    decreases run
  {
    hide SystemOk, FlowsMixed, P.Do, P.Possible;
    if run != [] {
      StepOk(s, run[0]);
      StepFlowsMixed(s, run[0], ClientSide);
      StepFlowsMixed(s, run[0], ServerSide);
      RunMixturesOk(P.Do(s, run[0]), run[1..]);
    }
  }

  lemma ReachableMixturesOk(s: P.System)
    requires Reachable(s)
    ensures MixturesOk(s)
  {
    var c, v, run :| P.Feasible(P.Start(c, v), run) && s == P.After(P.Start(c, v), run);
    StartSystemOk(c, v);
    assert MixturesOk(P.Start(c, v));
    RunMixturesOk(P.Start(c, v), run);
  }

  // ----- The result for every reachable state

  /** o has put out, and holds in its buffer, exactly the first chunks of src, up to the expected index. */
  predicate PutsOut(o: Outgoing, src: seq<Octets>) {
    o.next <= |src| && o.written + o.buffer == Concat(src[..o.next])
  }

  /** In every reachable state, in both directions, for every link object and any number of link objects of its
      connection on the other side, whatever they have read: the bytes put out and buffered are exactly the chunks
      below the expected index of a stream each of whose places was read, at this place, by one of those. */
  lemma OutputIsMixture(s: P.System, side: Side, i: nat) returns (src: seq<Octets>)
    requires Reachable(s) && i < |P.At(s, side).objs|
    requires Fits(P.At(s, Other(side)).objs, P.At(s, side).objs[i].id)
    ensures Mixture(P.At(s, Other(side)).objs, P.At(s, side).objs[i].id, src)
    ensures PutsOut(P.At(s, side).objs[i].link.out, src)
  {
    ReachableMixturesOk(s);
    var objs, o := P.At(s, Other(side)).objs, P.At(s, side).objs[i];
    assert HearsMixture(objs, o);
    src :| Mixes(objs, o, src);
  }

  /** If its write loop ended because everything up to the stop index was written, and it was not declared dead, then
      one of those link objects has closed and what was put out is such a stream to its end. */
  lemma GracefulCloseEndsAMixture(s: P.System, side: Side, i: nat) returns (src: seq<Octets>)
    requires Reachable(s) && i < |P.At(s, side).objs|
    requires Fits(P.At(s, Other(side)).objs, P.At(s, side).objs[i].id)
    requires P.At(s, side).objs[i].link.end.Drained? && !P.At(s, side).objs[i].killed
    ensures Mixture(P.At(s, Other(side)).objs, P.At(s, side).objs[i].id, src)
    ensures P.At(s, side).objs[i].link.out.written == Concat(src)
    ensures SomeClosed(P.At(s, Other(side)).objs, P.At(s, side).objs[i].id)
  {
    ReachableOk(s);
    ReachableMixturesOk(s);
    var objs, o := P.At(s, Other(side)).objs, P.At(s, side).objs[i];
    ObjectOk(s, side, i);
    assert HearsMixture(objs, o);
    hide Reachable, SystemOk, MixturesOk;
    src := DrainedMixes(objs, o);
  }

  lemma DrainedMixes(objs: seq<Obj>, o: Obj) returns (src: seq<Octets>)
    requires HearsMixture(objs, o) && Fits(objs, o.id) && LinkOk(o.link) && o.link.end.Drained? && !o.killed
    ensures Mixture(objs, o.id, src) && o.link.out.written == Concat(src) && SomeClosed(objs, o.id)
  {
    var all :| Mixes(objs, o, all);
    src := all[..o.link.out.next];
    MixtureStart(objs, o.id, all, o.link.out.next);
    assert o.link.out.written + [] == o.link.out.written;
  }

  lemma MixtureStart(objs: seq<Obj>, id: Id, src: seq<Octets>, n: nat)
    requires Mixture(objs, id, src) && n <= |src|
    ensures Mixture(objs, id, src[..n])
  {
    forall k | 0 <= k < n ensures ReadAt(objs, id, k, src[..n][k]) {
      assert ReadAt(objs, id, k, src[k]);
    }
  }

  // ----- Link objects that said the same

  lemma PlaceOfOneVoice(objs: seq<Obj>, id: Id, src: seq<Octets>, calls: seq<HosterCall>, k: nat)
    requires Mixture(objs, id, src) && Voice(objs, id, calls) && CloseIsLast(calls) && k < |src|
    ensures k < |Chunks(calls)| && src[k] == Chunks(calls)[k]
  {
    ChunksByIndex(calls);
    assert ReadAt(objs, id, k, src[k]);
    var j :| 0 <= j < |objs| && objs[j].id == id && HasChunk(objs[j].link.calls, k, src[k]);
    assert calls[k] == ReadData(src[k]);
  }

  lemma MixtureOfOneVoice(objs: seq<Obj>, id: Id, src: seq<Octets>, calls: seq<HosterCall>)
    requires Mixture(objs, id, src) && Voice(objs, id, calls) && CloseIsLast(calls)
    ensures src <= Chunks(calls)
  {
    hide Voice, Mixture, CloseIsLast;
    if src != [] {
      PlaceOfOneVoice(objs, id, src, calls, |src| - 1);
    }
    forall k | 0 <= k < |src| ensures k < |Chunks(calls)| && src[k] == Chunks(calls)[k] {
      PlaceOfOneVoice(objs, id, src, calls, k);
    }
  }

  /** In every reachable state, in both directions and for every link object of the receiving side (every
      incarnation of a connection), as long as the link objects of the other side have said the same: the bytes its
      socket has accepted are a prefix of what the peer read from its own socket, in order; with the network buffer
      they are exactly the chunks below the expected index. */
  lemma OutputIsPrefixOfInput(s: P.System, side: Side, i: nat, calls: seq<HosterCall>)
    requires Pair(s, side, i, calls)
    ensures var o := P.At(s, Other(side)).objs[i].link.out;
            PutsOut(o, Chunks(calls)) && o.written <= Concat(Chunks(calls))
  {
    var o := P.At(s, Other(side)).objs[i];
    PairOk(s, side, i, calls);
    VoiceFits(P.At(s, side).objs, o.id, calls);
    hide Reachable, Reassembles;
    var src := OutputIsMixture(s, Other(side), i);
    MixtureOfOneVoice(P.At(s, side).objs, o.id, src, calls);
    assert src[..o.link.out.next] == Chunks(calls)[..o.link.out.next];
    ConcatPrefix(Chunks(calls), o.link.out.next);
  }
}
