/** Live packets and the declaration that a link is dead. */
module LiveLinks {
  import opened Bytes
  import opened Packets
  import opened PacketCache
  import T = Trunk

  /** What happens to the link table of one side; other connections come, go and send at will. */
  datatype TableEvent<L> =
    | LiveTimer
    | LivePacket(id: Id)
    | Added(id: Id, link: L)
    | Removed(id: Id)
    | NumberTaken(id: Id)

  datatype At<L> = At(time: Time, event: TableEvent<L>)

  function Step<L>(t: T.Trunk<L>, e: At<L>): T.Trunk<L> {
    match e.event
    case LiveTimer => T.SendLivePackets(t, e.time)
    case LivePacket(id) => T.ProcessLive(t, id, e.time)
    case Added(id, link) => T.AddLink(t, id, link, e.time)
    case Removed(id) => T.RemoveLink(t, id)
    case NumberTaken(id) => T.AdvanceIndex(t, id)
  }

  function Steps<L>(t: T.Trunk<L>, es: seq<At<L>>): T.Trunk<L> {
    if es == [] then t else Step(Steps(t, es[..|es| - 1]), es[|es| - 1])
  }

  /** The run neither removes nor replaces the link of id. */
  predicate Keeps<L>(es: seq<At<L>>, id: Id) {
    forall i | 0 <= i < |es| && (es[i].event.Removed? || es[i].event.Added?) :: es[i].event.id != id
  }

  /** The time of the last live packet for id, or since if there was none. */
  function LastHeard<L>(es: seq<At<L>>, id: Id, since: Time): Time {
    if es == [] then since
    else
      var e := es[|es| - 1];
      if e.event.LivePacket? && e.event.id == id then e.time else LastHeard(es[..|es| - 1], id, since)
  }

  /** Only a live packet for it moves the deadline of a link that stays. */
  lemma StepDeadline<L>(t: T.Trunk<L>, e: At<L>, id: Id)
    requires id in t.table && !(e.event.Removed? && e.event.id == id) && !(e.event.Added? && e.event.id == id)
    ensures var r := Step(t, e);
            && id in r.table
            && r.table[id].deadAt == if e.event.LivePacket? && e.event.id == id then e.time + T.DEAD_LINK_TIMEOUT
                                     else t.table[id].deadAt
  {
  }

  lemma {:induction false} DeadlineFollowsLastHeard<L>(t: T.Trunk<L>, es: seq<At<L>>, id: Id, since: Time)
    requires id in t.table && t.table[id].deadAt == since + T.DEAD_LINK_TIMEOUT && Keeps(es, id)
    ensures var r := Steps(t, es);
            id in r.table && r.table[id].deadAt == LastHeard(es, id, since) + T.DEAD_LINK_TIMEOUT
  {
    if es != [] {
      hide Step;
      var front := es[..|es| - 1];
      DeadlineFollowsLastHeard(t, front, id, since);
      StepDeadline(Steps(t, front), es[|es| - 1], id);
    }
  }

  /** A link created at since is stopped as dead on a tick if and only if live packets are due on that tick and
      nothing has been heard for it for more than 5000 ms, creation included. */
  lemma DeadExactlyAfterSilence<L>(t: T.Trunk<L>, id: Id, link: L, since: Time, es: seq<At<L>>, now: Time)
    requires Keeps(es, id)
    ensures var r := Steps(T.AddLink(t, id, link, since), es);
            id in T.DeadLinks(r, now) <==>
              T.LiveDue(r, now) && now - LastHeard(es, id, since) > 5000 * MS
  {
    DeadlineFollowsLastHeard(T.AddLink(t, id, link, since), es, id, since);
  }

  // ----- The sending side repeats live packets regularly

  function EndTime<L>(es: seq<At<L>>, start: Time): Time {
    if es == [] then start else es[|es| - 1].time
  }

  predicate Monotone<L>(es: seq<At<L>>, start: Time) {
    es == [] || (Monotone(es[..|es| - 1], start) && EndTime(es[..|es| - 1], start) <= es[|es| - 1].time)
  }

  /** The time of the last timer tick of the run, or start. */
  function LastTick<L>(es: seq<At<L>>, start: Time): Time {
    if es == [] then start
    else if es[|es| - 1].event.LiveTimer? then es[|es| - 1].time else LastTick(es[..|es| - 1], start)
  }

  /** Ticks are at most g apart, from start to until. */
  predicate Ticking<L>(es: seq<At<L>>, start: Time, until: Time, g: Time) {
    if es == [] then until - start <= g
    else
      var e := es[|es| - 1];
      if e.event.LiveTimer? then until - e.time <= g && Ticking(es[..|es| - 1], start, e.time, g)
      else Ticking(es[..|es| - 1], start, until, g)
  }

  /** When live packets for id are sent. */
  function LiveSends<L>(t: T.Trunk<L>, es: seq<At<L>>, id: Id): seq<Time> {
    if es == [] then []
    else
      var before, e, rest := Steps(t, es[..|es| - 1]), es[|es| - 1], LiveSends(t, es[..|es| - 1], id);
      if e.event.LiveTimer? && T.LiveDue(before, e.time) && id in before.table && !T.DeadAt(before, id, e.time)
      then rest + [e.time] else rest
  }

  lemma StepSendsLive<L>(t: T.Trunk<L>, e: At<L>, id: Id)
    ensures var sends := e.event.LiveTimer? && T.LiveDue(t, e.time) && id in t.table && !T.DeadAt(t, id, e.time);
            Step(t, e).sent[Live(id)] == t.sent[Live(id)] + if sends then 1 else 0
  {
    assert Live(id) in T.LivePackets(t, e.time) <==> id in t.table && !T.DeadAt(t, id, e.time);
  }

  /** These are all the live packets for id that leave. */
  lemma {:induction false} LiveSendsAreSent<L>(t: T.Trunk<L>, es: seq<At<L>>, id: Id)
    ensures Steps(t, es).sent[Live(id)] == t.sent[Live(id)] + |LiveSends(t, es, id)|
  {
    if es != [] {
      hide Step;
      LiveSendsAreSent(t, es[..|es| - 1], id);
      StepSendsLive(Steps(t, es[..|es| - 1]), es[|es| - 1], id);
    }
  }

  /** Live packets for a link are at least 1000 ms apart, and the first comes not before the time set for it. */
  lemma {:induction false} SendsAreSparse<L>(t: T.Trunk<L>, es: seq<At<L>>, id: Id)
    ensures var s := LiveSends(t, es, id);
            && (forall i {:trigger s[i]} | 0 < i < |s| :: s[i] - s[i - 1] >= 1000 * MS)
            && (s != [] ==> s[0] >= t.nextLive && Steps(t, es).nextLive >= s[|s| - 1] + T.LIVE_UPDATE_TICK)
            && (s == [] ==> Steps(t, es).nextLive >= t.nextLive)
  {
    if es != [] {
      var front, e := es[..|es| - 1], es[|es| - 1];
      SendsAreSparse(t, front, id);
      NextLiveMoves(Steps(t, front), e);
      hide Step;
    }
  }

  lemma NextLiveMoves<L>(t: T.Trunk<L>, e: At<L>)
    ensures Step(t, e).nextLive == if e.event.LiveTimer? && T.LiveDue(t, e.time) then e.time + T.LIVE_UPDATE_TICK
                                   else t.nextLive
    ensures T.LiveDue(t, e.time) <==> e.time >= t.nextLive
  {
  }

  /** The link of id is there and not dead at any tick of the run. */
  ghost predicate StaysLive<L>(t: T.Trunk<L>, es: seq<At<L>>, id: Id) {
    forall i | 0 <= i < |es| && es[i].event.LiveTimer? ::
      id in Steps(t, es[..i]).table && !T.DeadAt(Steps(t, es[..i]), id, es[i].time)
  }

  /** The i-th time of s; since comes before the first. */
  function Mark(s: seq<Time>, since: Time, i: int): Time
    requires -1 <= i < |s|
  {
    if i < 0 then since else s[i]
  }

  /** From since to until there is never more than gap without a time of s. */
  predicate Regular(s: seq<Time>, since: Time, until: Time, gap: Time) {
    && (forall i | 0 <= i < |s| :: Mark(s, since, i) - Mark(s, since, i - 1) <= gap)
    && until - Mark(s, since, |s| - 1) <= gap
  }

  lemma RegularSnoc(s: seq<Time>, since: Time, now: Time, until: Time, gap: Time)
    requires Regular(s, since, now, gap) && until - now <= gap
    ensures Regular(s + [now], since, until, gap)
  {
    var r := s + [now];
    forall i | 0 <= i < |r| ensures Mark(r, since, i) - Mark(r, since, i - 1) <= gap {
      assert i < |s| ==> Mark(r, since, i) == Mark(s, since, i);
      assert Mark(r, since, i - 1) == Mark(s, since, i - 1);
    }
  }

  lemma {:induction false} SendsAreRegular<L>(t: T.Trunk<L>, es: seq<At<L>>, id: Id, since: Time, until: Time, g: Time)
    requires 0 <= g && StaysLive(t, es, id)
    requires t.nextLive <= since + T.LIVE_UPDATE_TICK && Ticking(es, since, until, g)
    ensures var r, s := Steps(t, es), LiveSends(t, es, id);
            && Regular(s, since, until, T.LIVE_UPDATE_TICK + g)
            && r.nextLive <= Mark(s, since, |s| - 1) + T.LIVE_UPDATE_TICK
            && (until <= r.nextLive + g || (s == [] && until <= since + g))
  {
    if es == [] {
    } else {
      var front, e := es[..|es| - 1], es[|es| - 1];
      assert StaysLive(t, front, id) by {
        forall i | 0 <= i < |front| && front[i].event.LiveTimer?
          ensures id in Steps(t, front[..i]).table && !T.DeadAt(Steps(t, front[..i]), id, front[i].time)
        {
          assert front[..i] == es[..i] && front[i] == es[i];
        }
      }
      if e.event.LiveTimer? {
        SendsAreRegular(t, front, id, since, e.time, g);
        RegularSnoc(LiveSends(t, front, id), since, e.time, until, T.LIVE_UPDATE_TICK + g);
      } else {
        SendsAreRegular(t, front, id, since, until, g);
      }
    }
  }

  // ----- The receiving side never gives up on such a link

  /** fate[i] is when the live packet sent at sends[i] arrives, if it does: with delay at most d, and never
      with more than k lost in a row. */
  predicate Network(sends: seq<Time>, fate: seq<Option<Time>>, d: Time, k: nat) {
    && |fate| == |sends|
    && (forall i | 0 <= i < |fate| && fate[i].Some? :: sends[i] <= fate[i].value <= sends[i] + d)
    && (forall i: nat | i + k < |fate| :: SomeArrives(fate, i, k))
  }

  predicate SomeArrives(fate: seq<Option<Time>>, i: nat, k: nat)
    requires i + k < |fate|
  {
    exists j :: i <= j <= i + k && fate[j].Some?
  }

  lemma {:induction false} SendsWithin(s: seq<Time>, since: Time, until: Time, gap: Time, i: int, n: nat)
    requires Regular(s, since, until, gap) && -1 <= i && i + n < |s|
    ensures Mark(s, since, i + n) <= Mark(s, since, i) + n * gap
  {
    if n > 0 {
      SendsWithin(s, since, until, gap, i, n - 1);
      assert Mark(s, since, i + n) - Mark(s, since, i + n - 1) <= gap;
      assert n * gap == (n - 1) * gap + gap;
    }
  }

  lemma MulMonotone(a: nat, b: nat, c: nat)
    requires a <= b
    ensures a * c <= b * c
  {
  }

  lemma EnoughSends(s: seq<Time>, since: Time, until: Time, gap: Time, k: nat, i: int)
    requires Regular(s, since, until, gap) && 0 <= gap && -1 <= i < |s|
    requires until > Mark(s, since, i) + (k + 1) * gap
    ensures i + 1 + k < |s|
  {
    var n := |s| - 1 - i;
    SendsWithin(s, since, until, gap, i, n);
    assert until <= Mark(s, since, i) + (n + 1) * gap;
    if n <= k {
      MulMonotone(n + 1, k + 1, gap);
    }
  }

  /** Among the packets sent after number i (-1 for none) one arrives in time. */
  lemma NextArrival(s: seq<Time>, fate: seq<Option<Time>>, since: Time, until: Time, gap: Time, d: Time, k: nat, i: int)
      returns (j: nat)
    requires Regular(s, since, until, gap) && Network(s, fate, d, k) && 0 <= gap && 0 <= d
    requires -1 <= i < |s|
    requires until > Mark(s, since, i) + (k + 1) * gap
    ensures i < j < |s| && fate[j].Some?
    ensures fate[j].value <= Mark(s, since, i) + (k + 1) * gap + d
  {
    EnoughSends(s, since, until, gap, k, i);
    assert SomeArrives(fate, i + 1, k);
    j :| i + 1 <= j <= i + 1 + k && fate[j].Some?;
    SendsWithin(s, since, until, gap, i, j - i);
    MulMonotone(j - i, k + 1, gap);
  }

  /** deadline is 5000 ms or later after everything that has arrived before now, and after since but for late. */
  lemma DeadlineHolds(s: seq<Time>, fate: seq<Option<Time>>, since: Time, until: Time, g: Time, d: Time, k: nat,
                      late: Time, now: Time, deadline: Time, i: int)
    requires 0 <= g && 0 <= d && 0 <= late
    requires (k + 1) * (T.LIVE_UPDATE_TICK + g) + d + late <= T.DEAD_LINK_TIMEOUT
    requires Regular(s, since, until, T.LIVE_UPDATE_TICK + g) && Network(s, fate, d, k) && now <= until
    requires deadline >= since + T.DEAD_LINK_TIMEOUT - late
    requires forall j | 0 <= j < |fate| && fate[j].Some? && fate[j].value < now ::
               deadline >= fate[j].value + T.DEAD_LINK_TIMEOUT
    requires -1 <= i < |s| && (i >= 0 ==> fate[i].Some? && fate[i].value < now)
    ensures now <= deadline
    decreases |s| - i
  {
    if now > deadline {
      var j := NextArrival(s, fate, since, until, T.LIVE_UPDATE_TICK + g, d, k, i);
      DeadlineHolds(s, fate, since, until, g, d, k, late, now, deadline, j);
    }
  }

  lemma {:induction false} TimesGrow<L>(es: seq<At<L>>, start: Time)
    requires Monotone(es, start)
    ensures start <= EndTime(es, start) && forall e <- es :: e.time <= EndTime(es, start)
  {
    if es != [] {
      TimesGrow(es[..|es| - 1], start);
      assert es == es[..|es| - 1] + [es[|es| - 1]];
    }
  }

  lemma {:induction false} HeardIsNotForgotten<L>(es: seq<At<L>>, id: Id, since: Time)
    requires Monotone(es, since)
    ensures LastHeard(es, id, since) >= since
    ensures forall e <- es | e.event == LivePacket(id) :: LastHeard(es, id, since) >= e.time
  {
    if es != [] {
      TimesGrow(es, since);
      HeardIsNotForgotten(es[..|es| - 1], id, since);
      assert es == es[..|es| - 1] + [es[|es| - 1]];
    }
  }

  /** A link whose peer has it and does not consider it dead is not declared dead here: with timer ticks of the
      peer at most g apart, live packets delayed by at most d and at most k lost in a row, a link created at
      since survives every later tick if (k+1)(1000+g)+d <= 5000 (in ms). */
  lemma LiveLinkIsNeverDead<L, M>(peer: T.Trunk<M>, ticks: seq<At<M>>, fate: seq<Option<Time>>,
                                  t: T.Trunk<L>, id: Id, link: L, since: Time, es: seq<At<L>>, now: Time,
                                  until: Time, g: Time, d: Time, k: nat)
    // the peer's run, from the creation of the link until some time not before now
    requires 0 <= g && StaysLive(peer, ticks, id) && peer.nextLive <= since + T.LIVE_UPDATE_TICK
    requires Ticking(ticks, since, until, g) && now <= until
    // the network
    requires 0 <= d && Network(LiveSends(peer, ticks, id), fate, d, k)
    requires (k + 1) * (T.LIVE_UPDATE_TICK + g) + d <= T.DEAD_LINK_TIMEOUT
    // this side's run, which has processed what has arrived before now
    requires Monotone(es, since) && Keeps(es, id)
    requires forall j | 0 <= j < |fate| && fate[j].Some? && fate[j].value < now ::
               At(fate[j].value, TableEvent<L>.LivePacket(id)) in es
    ensures id !in T.DeadLinks(Steps(T.AddLink(t, id, link, since), es), now)
  {
    DeadlineFollowsLastHeard(T.AddLink(t, id, link, since), es, id, since);
    SendsAreRegular(peer, ticks, id, since, until, g);
    HeardIsNotForgotten(es, id, since);
    DeadlineHolds(LiveSends(peer, ticks, id), fate, since, until, g, d, k, 0, now,
                  LastHeard(es, id, since) + T.DEAD_LINK_TIMEOUT, -1);
  }
}
