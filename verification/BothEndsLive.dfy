/** Two ends that both have a link keep each other's link alive: neither assumes the other to do so. */
module BothEndsLive {
  import opened Bytes
  import C = PacketCache
  import opened LiveLinks
  import T = Trunk

  /** One end: its table at the start, what happens to it, and what becomes of the live packets it sends. */
  datatype End<L> = End(trunk: T.Trunk<L>, run: seq<At<L>>, fate: seq<Option<C.Time>>)

  /** The end has the link throughout and its timer ticks at most g apart, from start to until. */
  predicate Ticks<L>(e: End<L>, id: Id, start: C.Time, until: C.Time, g: C.Time) {
    && id in e.trunk.table && Keeps(e.run, id) && Monotone(e.run, start)
    && Ticking(e.run, start, until, g) && EndTime(e.run, start) <= until
    && e.trunk.nextLive <= start + T.LIVE_UPDATE_TICK
  }

  /** The other end's live packets are delayed by at most d, at most k in a row are lost, and those that arrive are
      processed. At the start the link has been heard of, or created, not longer than late ago. */
  ghost predicate Hears<L, M>(e: End<L>, other: End<M>, id: Id, start: C.Time, until: C.Time, d: C.Time, k: nat,
                              late: C.Time)
  {
    && Network(LiveSends(other.trunk, other.run, id), other.fate, d, k)
    && id in e.trunk.table && e.trunk.table[id].deadAt >= start + T.DEAD_LINK_TIMEOUT - late
    && (forall j | 0 <= j < |other.fate| && other.fate[j].Some? && other.fate[j].value < until ::
          At(other.fate[j].value, TableEvent<L>.LivePacket(id)) in e.run)
  }

  /** At no tick before time the link is dead. */
  ghost predicate LiveBefore<L>(e: End<L>, id: Id, time: C.Time) {
    forall i | 0 <= i < |e.run| && e.run[i].event.LiveTimer? && e.run[i].time < time :: LiveAt(e, id, i)
  }

  ghost predicate LiveAt<L>(e: End<L>, id: Id, i: nat)
    requires i < |e.run|
  {
    id in Steps(e.trunk, e.run[..i]).table && !T.DeadAt(Steps(e.trunk, e.run[..i]), id, e.run[i].time)
  }

  // ----- Deadlines

  lemma {:induction false} DeadlineIsRemembered<L>(t: T.Trunk<L>, es: seq<At<L>>, id: Id, start: C.Time, least: C.Time)
    requires id in t.table && t.table[id].deadAt >= least && Keeps(es, id) && Monotone(es, start)
    requires least <= start + T.DEAD_LINK_TIMEOUT
    ensures var r := Steps(t, es);
            && id in r.table && r.table[id].deadAt >= least
            && forall e <- es :: e.event == LivePacket(id) ==> r.table[id].deadAt >= e.time + T.DEAD_LINK_TIMEOUT
  {
    if es != [] {
      var front, last := es[..|es| - 1], es[|es| - 1];
      hide Step;
      DeadlineIsRemembered(t, front, id, start, least);
      StepDeadline(Steps(t, front), last, id);
      TimesGrow(front, start);
      assert es == front + [last];
    }
  }

  // ----- The events before some time

  lemma {:induction false} MonotoneAt<L>(es: seq<At<L>>, start: C.Time, i: nat, j: nat)
    requires Monotone(es, start) && i <= j < |es|
    ensures es[i].time <= es[j].time && start <= es[i].time
  {
    var front := es[..|es| - 1];
    TimesGrow(front, start);
    if j < |es| - 1 {
      MonotoneAt(front, start, i, j);
    } else if i < j {
      MonotoneAt(front, start, i, |front| - 1);
    }
  }

  lemma {:induction false} MonotonePrefix<L>(es: seq<At<L>>, start: C.Time, n: nat)
    requires Monotone(es, start) && n <= |es|
    ensures Monotone(es[..n], start)
  {
    if n == |es| {
      assert es[..n] == es;
    } else {
      MonotonePrefix(es[..|es| - 1], start, n);
      assert es[..|es| - 1][..n] == es[..n];
    }
  }

  /** The events before time are the first n. */
  lemma {:induction false} EventsBefore<L>(es: seq<At<L>>, start: C.Time, time: C.Time) returns (n: nat)
    requires Monotone(es, start)
    ensures n <= |es|
    ensures (forall i | 0 <= i < n :: es[i].time < time) && (forall i | n <= i < |es| :: es[i].time >= time)
  {
    if es == [] {
      n := 0;
    } else if es[|es| - 1].time < time {
      n := |es|;
      forall i | 0 <= i < n ensures es[i].time < time {
        MonotoneAt(es, start, i, |es| - 1);
      }
    } else {
      n := EventsBefore(es[..|es| - 1], start, time);
    }
  }

  lemma {:induction false} TickingEarlier<L>(es: seq<At<L>>, start: C.Time, until: C.Time, now: C.Time, g: C.Time)
    requires Ticking(es, start, until, g) && now <= until
    ensures Ticking(es, start, now, g)
  {
    if es != [] && !es[|es| - 1].event.LiveTimer? {
      TickingEarlier(es[..|es| - 1], start, until, now, g);
    }
  }

  lemma {:induction false} TickingPrefix<L>(es: seq<At<L>>, start: C.Time, until: C.Time, now: C.Time, g: C.Time,
                                           n: nat)
    requires Ticking(es, start, until, g) && now <= until && n <= |es|
    requires forall i | n <= i < |es| :: es[i].time >= now
    ensures Ticking(es[..n], start, now, g)
  {
    if n == |es| {
      assert es[..n] == es;
      TickingEarlier(es, start, until, now, g);
    } else {
      var front, last := es[..|es| - 1], es[|es| - 1];
      assert front[..n] == es[..n];
      TickingPrefix(front, start, if last.event.LiveTimer? then last.time else until, now, g, n);
    }
  }

  lemma {:induction false} SendsPrefix<L>(t: T.Trunk<L>, es: seq<At<L>>, id: Id, n: nat)
    requires n <= |es|
    ensures LiveSends(t, es[..n], id) <= LiveSends(t, es, id)
  {
    if n == |es| {
      assert es[..n] == es;
    } else {
      assert es[..|es| - 1][..n] == es[..n];
      SendsPrefix(t, es[..|es| - 1], id, n);
    }
  }

  lemma NetworkPrefix(sends: seq<C.Time>, fate: seq<Option<C.Time>>, d: C.Time, k: nat, first: seq<C.Time>)
    requires Network(sends, fate, d, k) && first <= sends
    ensures Network(first, fate[..|first|], d, k)
  {
    var f := fate[..|first|];
    forall i: nat | i + k < |f| ensures SomeArrives(f, i, k) {
      assert SomeArrives(fate, i, k);
      var j :| i <= j <= i + k && fate[j].Some?;
      assert f[j].Some?;
    }
  }

  // ----- Both ends

  /** If the other end has been alive before this tick, this link is alive on it. */
  lemma TickFindsLive<L, M>(e: End<L>, other: End<M>, id: Id, start: C.Time, until: C.Time, g: C.Time, d: C.Time,
                            k: nat, late: C.Time, i: nat)
    requires Ticks(e, id, start, until, g) && Ticks(other, id, start, until, g)
    requires Hears(e, other, id, start, until, d, k, late) && 0 <= g && 0 <= d && 0 <= late
    requires (k + 1) * (T.LIVE_UPDATE_TICK + g) + d + late <= T.DEAD_LINK_TIMEOUT
    requires i < |e.run| && LiveBefore(other, id, e.run[i].time)
    ensures LiveAt(e, id, i)
  {
    var now := e.run[i].time;
    var n := EventsBefore(other.run, start, now);
    var first := other.run[..n];
    MonotoneAt(e.run, start, i, |e.run| - 1);
    TickingPrefix(other.run, start, until, now, g, n);
    assert StaysLive(other.trunk, first, id) by {
      forall j | 0 <= j < n && first[j].event.LiveTimer?
        ensures id in Steps(other.trunk, first[..j]).table
             && !T.DeadAt(Steps(other.trunk, first[..j]), id, first[j].time)
      {
        assert LiveAt(other, id, j) && first[..j] == other.run[..j];
      }
    }
    SendsAreRegular(other.trunk, first, id, start, now, g);
    SendsPrefix(other.trunk, other.run, id, n);
    var sends := LiveSends(other.trunk, first, id);
    NetworkPrefix(LiveSends(other.trunk, other.run, id), other.fate, d, k, sends);
    DeadlineAtTick(e, other, id, start, until, d, k, late, i, g);
    DeadlineHolds(sends, other.fate[..|sends|], start, now, g, d, k, late, now,
                  Steps(e.trunk, e.run[..i]).table[id].deadAt, -1);
  }

  lemma DeadlineAtTick<L, M>(e: End<L>, other: End<M>, id: Id, start: C.Time, until: C.Time, d: C.Time, k: nat,
                             late: C.Time, i: nat, g: C.Time)
    requires Ticks(e, id, start, until, g) && Hears(e, other, id, start, until, d, k, late) && i < |e.run| && 0 <= late
    ensures var r := Steps(e.trunk, e.run[..i]);
            && id in r.table && r.table[id].deadAt >= start + T.DEAD_LINK_TIMEOUT - late
            && forall j | 0 <= j < |other.fate| && other.fate[j].Some? && other.fate[j].value < e.run[i].time ::
                 r.table[id].deadAt >= other.fate[j].value + T.DEAD_LINK_TIMEOUT
  {
    var before, now := e.run[..i], e.run[i].time;
    MonotonePrefix(e.run, start, i);
    MonotoneAt(e.run, start, i, |e.run| - 1);
    DeadlineIsRemembered(e.trunk, before, id, start, start + T.DEAD_LINK_TIMEOUT - late);
    forall j | 0 <= j < |other.fate| && other.fate[j].Some? && other.fate[j].value < now
      ensures At(other.fate[j].value, TableEvent<L>.LivePacket(id)) in before
    {
      var m :| 0 <= m < |e.run| && e.run[m] == At(other.fate[j].value, TableEvent<L>.LivePacket(id));
      if m >= i {
        MonotoneAt(e.run, start, i, m);
      }
      assert before[m] == e.run[m];
    }
  }

  lemma {:induction false} BothLiveBefore<L, M>(a: End<L>, b: End<M>, id: Id, start: C.Time, until: C.Time, g: C.Time,
                                                d: C.Time, k: nat, late: C.Time, time: C.Time)
    requires Ticks(a, id, start, until, g) && Ticks(b, id, start, until, g)
    requires Hears(a, b, id, start, until, d, k, late) && Hears(b, a, id, start, until, d, k, late)
    requires 0 <= g && 0 <= d && 0 <= late
    requires (k + 1) * (T.LIVE_UPDATE_TICK + g) + d + late <= T.DEAD_LINK_TIMEOUT
    ensures LiveBefore(a, id, time) && LiveBefore(b, id, time)
    decreases time - start
  {
    hide Ticks, Hears, LiveAt;
    if time <= start {
      NothingBeforeStart(a, id, start, until, g, time);
      NothingBeforeStart(b, id, start, until, g, time);
    } else {
      BothLiveBefore(a, b, id, start, until, g, d, k, late, time - 1);
      forall i | 0 <= i < |a.run| && a.run[i].event.LiveTimer? && a.run[i].time < time ensures LiveAt(a, id, i) {
        if a.run[i].time == time - 1 {
          TickFindsLive(a, b, id, start, until, g, d, k, late, i);
        }
      }
      forall i | 0 <= i < |b.run| && b.run[i].event.LiveTimer? && b.run[i].time < time ensures LiveAt(b, id, i) {
        if b.run[i].time == time - 1 {
          TickFindsLive(b, a, id, start, until, g, d, k, late, i);
        }
      }
    }
  }

  lemma NothingBeforeStart<L>(e: End<L>, id: Id, start: C.Time, until: C.Time, g: C.Time, time: C.Time)
    requires Ticks(e, id, start, until, g) && time <= start
    ensures LiveBefore(e, id, time)
  {
    forall i | 0 <= i < |e.run| ensures e.run[i].time >= time {
      MonotoneAt(e.run, start, i, |e.run| - 1);
    }
  }

  /** Two ends that both have the link, with timer ticks at most g apart and live packets delayed by at most d and at
      most k lost in a row in either direction: if (k+1)(1000+g)+d+late <= 5000 (in ms), where late is how long before
      the start the older end was created or has last heard, neither end ever declares the link dead. */
  lemma NeitherEndDeclaresDeath<L, M>(a: End<L>, b: End<M>, id: Id, start: C.Time, until: C.Time, g: C.Time,
                                      d: C.Time, k: nat, late: C.Time)
    requires Ticks(a, id, start, until, g) && Ticks(b, id, start, until, g)
    requires Hears(a, b, id, start, until, d, k, late) && Hears(b, a, id, start, until, d, k, late)
    requires 0 <= g && 0 <= d && 0 <= late
    requires (k + 1) * (T.LIVE_UPDATE_TICK + g) + d + late <= T.DEAD_LINK_TIMEOUT
    ensures StaysLive(a.trunk, a.run, id) && StaysLive(b.trunk, b.run, id)
  {
    BothLiveBefore(a, b, id, start, until, g, d, k, late, until + 1);
    LiveThroughout(a, id, start, until, g);
    LiveThroughout(b, id, start, until, g);
  }

  lemma LiveThroughout<L>(e: End<L>, id: Id, start: C.Time, until: C.Time, g: C.Time)
    requires Ticks(e, id, start, until, g) && LiveBefore(e, id, until + 1)
    ensures StaysLive(e.trunk, e.run, id)
  {
    forall i | 0 <= i < |e.run| && e.run[i].event.LiveTimer?
      ensures id in Steps(e.trunk, e.run[..i]).table && !T.DeadAt(Steps(e.trunk, e.run[..i]), id, e.run[i].time)
    {
      MonotoneAt(e.run, start, i, |e.run| - 1);
      assert LiveAt(e, id, i);
    }
  }
}
