/** A link that cannot connect. The host is meant to be told (common/outlink.h:75-80); it is when the name does
    not resolve, but not when the endpoints are exhausted. */
module DialFailure {
  import opened OutLinkSpec
  import opened OutLinkProofs
  import opened Reassembly

  /** Dialling is over, no loop has been started and nothing is outstanding. */
  ghost predicate Abandoned(l: Link) {
    LinkOk(l) && l.dial.Settled? && !l.reading && !l.writing && l.pendingChecks == 0 && l.calls == []
  }

  lemma AbandonedStays(l: Link, e: Event)
    requires Abandoned(l) && Enabled(l, e)
    ensures Abandoned(Apply(l, e))
  {
    ApplyOk(l, e);
  }

  lemma {:induction false} AbandonedForEver(l: Link, es: seq<Event>)
    requires Abandoned(l) && Possible(l, es)
    ensures Abandoned(Final(l, es))
    decreases es
  {
    if es != [] {
      AbandonedStays(l, es[0]);
      AbandonedForEver(Apply(l, es[0]), es[1..]);
    }
  }

  /** An endpoint has accepted the connection. */
  predicate Connects(e: Event) {
    e.ConnectCompletes? && !e.err
  }

  predicate ResolveFails(es: seq<Event>) {
    es != [] && ((es[0].ResolveCompletes? && es[0].err) || ResolveFails(es[1..]))
  }

  /** What a link keeps until it connects: a close check is due, or has closed the link, only if resolving failed. */
  ghost predicate DialOk(l: Link, failed: bool) {
    && LinkOk(l) && !l.reading && !l.writing
    && (l.calls == [] || l.calls == [Close])
    && l.pendingChecks + |l.calls| == (if failed then 1 else 0)
  }

  lemma DialStep(l: Link, e: Event, failed: bool)
    requires DialOk(l, failed) && Enabled(l, e) && !Connects(e)
    ensures DialOk(Apply(l, e), failed || (e.ResolveCompletes? && e.err))
  {
    ApplyOk(l, e);
  }

  lemma {:induction false} DialRun(l: Link, es: seq<Event>, failed: bool)
    requires DialOk(l, failed) && Possible(l, es) && forall e <- es :: !Connects(e)
    ensures DialOk(Final(l, es), failed || ResolveFails(es))
    decreases es
  {
    if es != [] {
      assert !Connects(es[0]);
      DialStep(l, es[0], failed);
      DialRun(Apply(l, es[0]), es[1..], failed || (es[0].ResolveCompletes? && es[0].err));
    }
  }

  ghost predicate Tells(l: Link, es: seq<Event>) {
    Possible(l, es) && Close in Final(l, es).calls
  }

  lemma CheckTells(l: Link)
    requires DialOk(l, true)
    ensures exists more :: Tells(l, more)
  {
    if l.calls == [Close] {
      assert Tells(l, []);
    } else {
      var told := Apply(l, CloseCheck);
      assert told.calls == [Close];
      assert [CloseCheck][1..] == [];
      assert Possible(told, []) && Final(told, []) == told;
      assert Tells(l, [CloseCheck]);
    }
  }

  /** Whatever arrives from the trunk meanwhile: once dialling is over without a connection, the host has been told
      or can still be told if and only if it was the name that did not resolve. */
  lemma FailedDialIsReportedOnlyIfUnresolved(es: seq<Event>)
    requires Possible(Run(FRESH_LINK, false), es) && forall e <- es :: !Connects(e)
    requires Final(Run(FRESH_LINK, false), es).dial.Settled?
    ensures (exists more :: Tells(Final(Run(FRESH_LINK, false), es), more)) <==> ResolveFails(es)
  {
    StartOk(false);
    DialRun(Run(FRESH_LINK, false), es, false);
    var l := Final(Run(FRESH_LINK, false), es);
    if ResolveFails(es) {
      CheckTells(l);
    } else {
      forall more | Possible(l, more) ensures !Tells(l, more) {
        AbandonedForEver(l, more);
      }
    }
  }

  /** For example: the only endpoint refuses the connection. */
  lemma RefusedConnectionIsNeverReported(more: seq<Event>)
    requires Possible(Run(FRESH_LINK, false), [ResolveCompletes(false, 1), ConnectCompletes(true)] + more)
    ensures Final(Run(FRESH_LINK, false), [ResolveCompletes(false, 1), ConnectCompletes(true)] + more).calls == []
  {
    var l, es := Run(FRESH_LINK, false), [ResolveCompletes(false, 1), ConnectCompletes(true)] + more;
    StartOk(false);
    ApplyOk(l, es[0]);
    var dialled := Apply(l, es[0]);
    ApplyOk(dialled, es[1]);
    assert es[1..][1..] == more && es[1..][0] == es[1];
    AbandonedForEver(Apply(dialled, es[1]), more);
  }
}
