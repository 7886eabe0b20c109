/**
 * SubscribeAll and SubscribeFiltered over all runs in which session ids are not reused:
 * every session is announced exactly once, by the snapshot or by an event and never by
 * both, before any of its chunks; and a listener that has caught up holds every live
 * session's history.
 */
module BusAnnounce {
  import opened Basics
  import opened Chunks
  import opened Sessions
  import opened Registry
  import opened Bus
  import opened BusDelivery
  import opened BusLifecycle

  /** The creation event of each instance, in order of creation. */
  function Roster(b: Bus): (r: seq<Event>)
    ensures |r| == |b.insts|
    ensures forall n :: 0 <= n < |r| ==> r[n] == SessionCreated(b.insts[n].session.id, b.insts[n].session.agent)
  {
    seq(|b.insts|, n requires 0 <= n < |b.insts| => SessionCreated(b.insts[n].session.id, b.insts[n].session.agent))
  }

  function LiveInstances(b: Bus): set<nat> {
    set sid | sid in b.live :: b.live[sid]
  }

  /** Session ids are unique over all instances. */
  predicate IsRoster(roster: seq<Event>) {
    && (forall n :: 0 <= n < |roster| ==> roster[n].SessionCreated?)
    && (forall m, n :: 0 <= m < n < |roster| ==> roster[m].sid != roster[n].sid)
  }

  /** What announcing depends on; queues and replays do not matter. */
  predicate SameStanding(f: Feed, g: Feed) {
    f.inst == g.inst && f.agent == g.agent && f.stage == g.stage && f.sent == g.sent
  }

  predicate Awaits(feeds: seq<Feed>, n: nat) {
    exists i :: 0 <= i < |feeds| && feeds[i].inst == n && feeds[i].stage.Waiting?
  }

  predicate HasFeed(feeds: seq<Feed>, n: nat) {
    exists i :: 0 <= i < |feeds| && feeds[i].inst == n
  }

  function One01(p: bool): nat { if p then 1 else 0 }

  /**
   * The announcements of one session that a subscription made or still owes: written,
   * awaited in the snapshot, queued as an event, or fetched by a filtered listener.
   */
  function Tokens(s: Sub, e: Event, n: nat): nat
    requires s.scope.Everything?
  {
    multiset(s.out)[EventMsg(e)] + multiset(s.events)[e] + One01(Awaits(s.feeds, n))
    + One01(s.scope.filter.Some? && s.fetched == Some(e))
  }

  predicate Announced(s: Sub, e: Event) {
    EventMsg(e) in s.out
  }

  predicate FeedsOk(roster: seq<Event>, s: Sub)
    requires IsRoster(roster)
  {
    && (forall i :: 0 <= i < |s.feeds| ==>
          s.feeds[i].inst < |roster| && s.feeds[i].agent == roster[s.feeds[i].inst].agent)
    && (forall i, j :: 0 <= i < j < |s.feeds| ==> s.feeds[i].inst != s.feeds[j].inst)
    && (forall i :: 0 <= i < |s.feeds| && !s.feeds[i].stage.Waiting? ==> Announced(s, roster[s.feeds[i].inst]))
  }

  /** Only sessions that exist are announced. */
  ghost predicate EventsKnown(roster: seq<Event>, s: Sub) {
    && (forall e :: e in s.events && e.SessionCreated? ==> e in roster)
    && (forall e :: EventMsg(e) in s.out && e.SessionCreated? ==> e in roster)
    && (s.fetched.Some? ==> s.fetched.value in roster)
  }

  predicate TokensOk(roster: seq<Event>, live: set<nat>, s: Sub)
    requires s.scope.Everything?
  {
    && (forall n :: 0 <= n < |roster| ==> Tokens(s, roster[n], n) <= 1)
    && (s.scope.filter.None? && !s.overrun ==>
          forall n :: 0 <= n < |roster| && n in live ==> Tokens(s, roster[n], n) == 1)
  }

  /** A listener that announced a live session has attached it, or is about to. */
  predicate AttachOk(roster: seq<Event>, live: set<nat>, s: Sub)
    requires s.scope.Everything?
  {
    && (forall n :: 0 <= n < |roster| && s.fetched == Some(roster[n]) ==>
          !HasFeed(s.feeds, n) && (s.scope.filter.None? ==> Announced(s, roster[n])))
    && (s.scope.filter.None? ==>
          forall n :: 0 <= n < |roster| && n in live && Announced(s, roster[n]) ==>
            HasFeed(s.feeds, n) || s.fetched == Some(roster[n]))
  }

  ghost predicate AnnounceOk(roster: seq<Event>, live: set<nat>, s: Sub) {
    IsRoster(roster) &&
    (s.scope.Everything? ==>
      FeedsOk(roster, s) && EventsKnown(roster, s) && TokensOk(roster, live, s) && AttachOk(roster, live, s))
  }

  // ----- One subscription -----

  /** One more event in the queue adds one token for it. */
  lemma QueueingAddsToken(s: Sub, t: Sub, e: Event, x: Event, n: nat)
    requires s.scope.Everything? && (t == s.(events := s.events + [e]) || t == s.(overrun := true))
    ensures Tokens(t, x, n) == Tokens(s, x, n) + One01(x == e && t.events != s.events)
  {
    if t.events == s.events + [e] {
      assert multiset(t.events) == multiset(s.events) + multiset{e};
      assert |t.events| != |s.events|;
    }
  }

  lemma HearOther(roster: seq<Event>, live: set<nat>, s: Sub, e: Event)
    requires AnnounceOk(roster, live, s) && !e.SessionCreated?
    ensures AnnounceOk(roster, live, Hear(s, e))
  {
    var t := Hear(s, e);
    if s.scope.Everything? && t != s {
      assert t == s.(events := s.events + [e]) || t == s.(overrun := true);
      forall n | 0 <= n < |roster| ensures Tokens(t, roster[n], n) == Tokens(s, roster[n], n) {
        QueueingAddsToken(s, t, e, roster[n], n);
      }
      forall x | x in t.events && x.SessionCreated? ensures x in roster {
        assert x in s.events;
      }
      QueueIsNoStanding(roster, live, s, t);
    }
  }

  /** What is known and attached does not depend on the event queue beyond the tokens. */
  lemma QueueIsNoStanding(roster: seq<Event>, live: set<nat>, s: Sub, t: Sub)
    requires AnnounceOk(roster, live, s) && s.scope.Everything?
    requires t.scope == s.scope && t.feeds == s.feeds && t.out == s.out && t.fetched == s.fetched
    requires (s.overrun ==> t.overrun) && forall x :: x in t.events && x.SessionCreated? ==> x in roster
    requires forall n :: 0 <= n < |roster| ==> Tokens(t, roster[n], n) == Tokens(s, roster[n], n)
    ensures AnnounceOk(roster, live, t)
  {
  }

  lemma HearCreated(roster: seq<Event>, live: set<nat>, s: Sub, e: Event)
    requires AnnounceOk(roster, live, s) && IsRoster(roster + [e])
    requires forall n :: n in live ==> n < |roster|
    ensures AnnounceOk(roster + [e], live + {|roster|}, Hear(s, e))
  {
    if s.scope.Everything? {
      NothingKnown(roster, s, e);
      var t := Hear(s, e);
      if t != s {
        QueueingAddsToken(s, t, e, e, |roster|);
        forall n | 0 <= n < |roster| ensures Tokens(t, roster[n], n) == Tokens(s, roster[n], n) {
          assert (roster + [e])[n] == roster[n] && (roster + [e])[|roster|] == e;
          QueueingAddsToken(s, t, e, roster[n], n);
        }
      }
      LongerRoster(roster, live, s, t, e);
      LongerKnown(roster, s, t, e);
    }
  }

  lemma LongerFeeds(roster: seq<Event>, s: Sub, t: Sub, e: Event)
    requires IsRoster(roster) && IsRoster(roster + [e]) && FeedsOk(roster, s) && t.feeds == s.feeds && t.out == s.out
    ensures FeedsOk(roster + [e], t)
  {
    assert forall n :: 0 <= n < |roster| ==> (roster + [e])[n] == roster[n];
  }

  lemma LongerKnown(roster: seq<Event>, s: Sub, t: Sub, e: Event)
    requires IsRoster(roster) && IsRoster(roster + [e]) && FeedsOk(roster, s) && EventsKnown(roster, s) && t == Hear(s, e)
    ensures FeedsOk(roster + [e], t) && EventsKnown(roster + [e], t)
  {
    LongerFeeds(roster, s, t, e);
    var longer := roster + [e];
    assert longer[|roster|] == e;
    forall x | x in roster ensures x in longer {
      var n :| 0 <= n < |roster| && roster[n] == x;
      assert longer[n] == x;
    }
    forall x | x in t.events && x.SessionCreated? ensures x in longer {
      assert x in s.events || x == e;
    }
  }

  /** A session created just now has not been heard of. */
  lemma NothingKnown(roster: seq<Event>, s: Sub, e: Event)
    requires s.scope.Everything? && IsRoster(roster) && FeedsOk(roster, s) && EventsKnown(roster, s)
    requires IsRoster(roster + [e])
    ensures Tokens(s, e, |roster|) == 0 && s.fetched != Some(e) && !Announced(s, e) && !HasFeed(s.feeds, |roster|)
  {
    assert forall n :: 0 <= n < |roster| ==> (roster + [e])[n] == roster[n];
    assert (roster + [e])[|roster|] == e;
    assert e !in roster;
    assert e !in s.events && EventMsg(e) !in s.out;
  }

  lemma LongerRoster(roster: seq<Event>, live: set<nat>, s: Sub, t: Sub, e: Event)
    requires s.scope.Everything? && t == Hear(s, e) && TokensOk(roster, live, s) && AttachOk(roster, live, s)
    requires forall n :: n in live ==> n < |roster|
    requires forall n :: 0 <= n < |roster| ==> Tokens(t, roster[n], n) == Tokens(s, roster[n], n)
    requires Tokens(t, e, |roster|) <= 1 && (!t.overrun ==> Tokens(t, e, |roster|) == 1)
    requires s.fetched != Some(e) && !Announced(s, e)
    ensures TokensOk(roster + [e], live + {|roster|}, t) && AttachOk(roster + [e], live + {|roster|}, t)
  {
    var longer := roster + [e];
    forall n | 0 <= n < |longer|
      ensures Tokens(t, longer[n], n) <= 1
      ensures (s.scope.filter.None? && !t.overrun && n in live + {|roster|}) ==> Tokens(t, longer[n], n) == 1
    {
      assert longer[n] == if n < |roster| then roster[n] else e;
    }
    LongerAttached(roster, live, s, t, e);
  }

  lemma LongerAttached(roster: seq<Event>, live: set<nat>, s: Sub, t: Sub, e: Event)
    requires s.scope.Everything? && t == Hear(s, e) && AttachOk(roster, live, s)
    requires s.fetched != Some(e) && !Announced(s, e)
    ensures AttachOk(roster + [e], live + {|roster|}, t)
  {
    assert forall n :: 0 <= n <= |roster| ==> (roster + [e])[n] == if n < |roster| then roster[n] else e;
  }

  lemma FewerLive(roster: seq<Event>, live: set<nat>, fewer: set<nat>, s: Sub)
    requires AnnounceOk(roster, live, s) && fewer <= live
    ensures AnnounceOk(roster, fewer, s)
  {
  }

  /** Queues, replays and flags do not matter. */
  lemma SameStandingOk(roster: seq<Event>, live: set<nat>, s: Sub, t: Sub)
    requires AnnounceOk(roster, live, s)
    requires t.scope == s.scope && t.out == s.out && t.events == s.events && t.fetched == s.fetched
    requires t.overrun == s.overrun && |t.feeds| == |s.feeds|
    requires forall i :: 0 <= i < |s.feeds| ==> SameStanding(s.feeds[i], t.feeds[i])
    ensures AnnounceOk(roster, live, t)
  {
    if s.scope.Everything? {
      forall n | 0 <= n < |roster|
        ensures Awaits(t.feeds, n) == Awaits(s.feeds, n) && HasFeed(t.feeds, n) == HasFeed(s.feeds, n)
      {
        AwaitsSame(s.feeds, t.feeds, n);
      }
    }
  }

  lemma AwaitsSame(xs: seq<Feed>, ys: seq<Feed>, n: nat)
    requires |xs| == |ys| && forall i :: 0 <= i < |xs| ==> xs[i].inst == ys[i].inst && xs[i].stage.Waiting? == ys[i].stage.Waiting?
    ensures Awaits(ys, n) == Awaits(xs, n) && HasFeed(ys, n) == HasFeed(xs, n)
  {
    if Awaits(xs, n) {
      var i :| 0 <= i < |xs| && xs[i].inst == n && xs[i].stage.Waiting?;
      assert ys[i].inst == n;
    }
    if Awaits(ys, n) {
      var i :| 0 <= i < |ys| && ys[i].inst == n && ys[i].stage.Waiting?;
      assert xs[i].inst == n;
    }
    if HasFeed(xs, n) {
      var i :| 0 <= i < |xs| && xs[i].inst == n;
      assert ys[i].inst == n;
    }
    if HasFeed(ys, n) {
      var i :| 0 <= i < |ys| && ys[i].inst == n;
      assert xs[i].inst == n;
    }
  }

  /** Writing anything but an announcement, or moving a feed that is already announced. */
  lemma MovingKeepsTokens(roster: seq<Event>, live: set<nat>, s: Sub, i: nat, f: Feed, written: seq<Msg>)
    requires AnnounceOk(roster, live, s) && i < |s.feeds|
    requires f.inst == s.feeds[i].inst && f.agent == s.feeds[i].agent
    requires !f.stage.Waiting? && !s.feeds[i].stage.Waiting?
    requires forall j :: 0 <= j < |written| ==> !written[j].EventMsg?
    ensures AnnounceOk(roster, live, WithFeed(s, i, f, written))
  {
    var t := WithFeed(s, i, f, written);
    if s.scope.Everything? {
      assert multiset(t.out) == multiset(s.out) + multiset(written);
      forall n | 0 <= n < |roster|
        ensures Tokens(t, roster[n], n) == Tokens(s, roster[n], n) && HasFeed(t.feeds, n) == HasFeed(s.feeds, n)
      {
        AwaitsSame(s.feeds, t.feeds, n);
        assert multiset(written)[EventMsg(roster[n])] == 0;
      }
      forall e ensures EventMsg(e) in t.out <==> EventMsg(e) in s.out {
      }
    }
  }

  /** Announcing a waiting feed moves its token from the snapshot to the output. */
  lemma AnnouncingKeepsTokens(roster: seq<Event>, live: set<nat>, s: Sub, i: nat)
    requires AnnounceOk(roster, live, s) && s.scope.Everything? && i < |s.feeds| && s.feeds[i].stage.Waiting?
    ensures AnnounceOk(roster, live,
              WithFeed(s, i, s.feeds[i].(stage := Replaying), [EventMsg(roster[s.feeds[i].inst])]))
  {
    var f := s.feeds[i];
    var m := roster[f.inst];
    var t := WithFeed(s, i, f.(stage := Replaying), [EventMsg(m)]);
    assert Awaits(s.feeds, f.inst);
    AnnouncedOnly(s, t, m);
    forall n | 0 <= n < |roster|
      ensures HasFeed(t.feeds, n) == HasFeed(s.feeds, n)
      ensures Tokens(t, roster[n], n) == Tokens(s, roster[n], n)
    {
      StandingAfterAnnounce(roster, s, i, t, n);
      AnnouncingMovesToken(roster, s, t, f.inst, n);
    }
  }

  lemma AnnouncedOnly(s: Sub, t: Sub, m: Event)
    requires t.out == s.out + [EventMsg(m)]
    ensures forall e :: EventMsg(e) in t.out <==> EventMsg(e) in s.out || e == m
  {
  }

  lemma AnnouncingMovesToken(roster: seq<Event>, s: Sub, t: Sub, m: nat, n: nat)
    requires IsRoster(roster) && s.scope.Everything? && m < |roster| && n < |roster|
    requires t.scope == s.scope && t.events == s.events && t.fetched == s.fetched && t.out == s.out + [EventMsg(roster[m])]
    requires Awaits(s.feeds, m) && Awaits(t.feeds, n) == (Awaits(s.feeds, n) && n != m)
    ensures Tokens(t, roster[n], n) == Tokens(s, roster[n], n)
  {
    assert multiset(t.out) == multiset(s.out) + multiset{EventMsg(roster[m])};
    assert m != n ==> roster[m] != roster[n];
  }

  lemma StandingAfterAnnounce(roster: seq<Event>, s: Sub, i: nat, t: Sub, n: nat)
    requires IsRoster(roster) && FeedsOk(roster, s) && i < |s.feeds| && s.feeds[i].stage.Waiting?
    requires t.feeds == s.feeds[i := s.feeds[i].(stage := Replaying)]
    ensures HasFeed(t.feeds, n) == HasFeed(s.feeds, n)
    ensures Awaits(t.feeds, n) == (Awaits(s.feeds, n) && n != s.feeds[i].inst)
  {
    assert forall j :: 0 <= j < |s.feeds| && j != i ==> t.feeds[j] == s.feeds[j];
    assert t.feeds[i].inst == s.feeds[i].inst;
    if HasFeed(s.feeds, n) {
      var j :| 0 <= j < |s.feeds| && s.feeds[j].inst == n;
      assert t.feeds[j].inst == n;
    }
    if Awaits(s.feeds, n) && n != s.feeds[i].inst {
      var j :| 0 <= j < |s.feeds| && s.feeds[j].inst == n && s.feeds[j].stage.Waiting?;
      assert t.feeds[j] == s.feeds[j];
    }
  }

  /** Taking an event moves its token to the output, or to the filtered listener's hand. */
  lemma TakingMovesToken(s: Sub, x: Event, n: nat)
    requires s.scope.Everything? && s.events != [] && s.fetched.None? && x.SessionCreated?
    ensures Tokens(EventTaken(s), x, n) == Tokens(s, x, n)
  {
    var e := s.events[0];
    var t := EventTaken(s);
    assert s.events == [e] + s.events[1..];
    assert multiset(s.events) == multiset{e} + multiset(t.events);
    if |t.out| > |s.out| {
      assert multiset(t.out) == multiset(s.out) + multiset{EventMsg(e)};
    }
  }

  /** A queued creation is neither announced nor attached. */
  lemma QueuedIsNew(roster: seq<Event>, live: set<nat>, s: Sub, n: nat)
    requires AnnounceOk(roster, live, s) && s.scope.Everything? && n < |roster| && roster[n] in s.events
    ensures !HasFeed(s.feeds, n) && !Announced(s, roster[n])
  {
    assert multiset(s.events)[roster[n]] >= 1;
    assert Tokens(s, roster[n], n) <= 1;
    forall i | 0 <= i < |s.feeds| ensures s.feeds[i].inst != n {
      if s.feeds[i].stage.Waiting? {
        assert s.feeds[i].inst == n ==> Awaits(s.feeds, n);
      }
    }
  }

  lemma TakingKeepsTokens(roster: seq<Event>, live: set<nat>, s: Sub)
    requires AnnounceOk(roster, live, s) && s.scope.Everything? && s.events != [] && s.fetched.None?
    ensures AnnounceOk(roster, live, EventTaken(s))
  {
    var e := s.events[0];
    var t := EventTaken(s);
    forall n | 0 <= n < |roster| ensures Tokens(t, roster[n], n) == Tokens(s, roster[n], n) {
      TakingMovesToken(s, roster[n], n);
    }
    forall n | 0 <= n < |roster| && roster[n] == e ensures !HasFeed(s.feeds, n) {
      QueuedIsNew(roster, live, s, n);
    }
    forall x ensures EventMsg(x) in t.out ==> EventMsg(x) in s.out || x == e {
    }
    forall x | x in t.events ensures x in s.events {
    }
    TakenKnown(roster, s);
  }

  lemma TakenKnown(roster: seq<Event>, s: Sub)
    requires IsRoster(roster) && s.scope.Everything? && s.events != []
    requires FeedsOk(roster, s) && EventsKnown(roster, s)
    ensures FeedsOk(roster, EventTaken(s)) && EventsKnown(roster, EventTaken(s))
  {
    var t := EventTaken(s);
    assert s.events[0] in s.events;
    forall x | x in t.events ensures x in s.events {
    }
    forall x ensures EventMsg(x) in s.out ==> EventMsg(x) in t.out {
    }
    forall x ensures EventMsg(x) in t.out ==> EventMsg(x) in s.out || x == s.events[0] {
    }
  }

  lemma AttachingKeepsTokens(roster: seq<Event>, live: set<nat>, s: Sub, n: nat, f: Feed)
    requires AnnounceOk(roster, live, s) && s.scope.Everything?
    requires n < |roster| && s.fetched == Some(roster[n]) && f.inst == n && f.agent == roster[n].agent
    requires if s.scope.filter.None? then f.stage.Replaying? else f.stage.Waiting?
    ensures AnnounceOk(roster, live, s.(fetched := None, feeds := s.feeds + [f]))
  {
    var t := s.(fetched := None, feeds := s.feeds + [f]);
    forall m | 0 <= m < |roster|
      ensures HasFeed(t.feeds, m) == (HasFeed(s.feeds, m) || m == n)
      ensures Tokens(t, roster[m], m) == Tokens(s, roster[m], m)
    {
      AttachingMovesToken(roster, live, s, n, f, m);
    }
    forall i, j | 0 <= i < j < |t.feeds| ensures t.feeds[i].inst != t.feeds[j].inst {
      assert i < |s.feeds| ==> HasFeed(s.feeds, s.feeds[i].inst);
    }
  }

  lemma AttachingMovesToken(roster: seq<Event>, live: set<nat>, s: Sub, n: nat, f: Feed, m: nat)
    requires AnnounceOk(roster, live, s) && s.scope.Everything? && m < |roster|
    requires n < |roster| && s.fetched == Some(roster[n]) && f.inst == n
    requires if s.scope.filter.None? then f.stage.Replaying? else f.stage.Waiting?
    ensures var t := s.(fetched := None, feeds := s.feeds + [f]);
            HasFeed(t.feeds, m) == (HasFeed(s.feeds, m) || m == n) && Tokens(t, roster[m], m) == Tokens(s, roster[m], m)
  {
    StandingAfterAttach(s.feeds, f, m);
    assert m != n ==> roster[m] != roster[n];
    assert Awaits(s.feeds, m) ==> HasFeed(s.feeds, m);
  }

  lemma StandingAfterAttach(feeds: seq<Feed>, f: Feed, m: nat)
    ensures HasFeed(feeds + [f], m) == (HasFeed(feeds, m) || m == f.inst)
    ensures Awaits(feeds + [f], m) == (Awaits(feeds, m) || (m == f.inst && f.stage.Waiting?))
  {
    var more := feeds + [f];
    assert more[|feeds|] == f;
    assert forall i :: 0 <= i < |feeds| ==> more[i] == feeds[i];
    if HasFeed(feeds, m) {
      var i :| 0 <= i < |feeds| && feeds[i].inst == m;
      assert more[i].inst == m;
    }
    if Awaits(feeds, m) {
      var i :| 0 <= i < |feeds| && feeds[i].inst == m && feeds[i].stage.Waiting?;
      assert more[i] == feeds[i];
    }
  }

  lemma DroppingKeepsTokens(roster: seq<Event>, live: set<nat>, s: Sub)
    requires AnnounceOk(roster, live, s) && s.scope.Everything? && s.fetched.Some?
    requires s.scope.filter.None? ==> forall n :: 0 <= n < |roster| && s.fetched == Some(roster[n]) ==> n !in live
    ensures AnnounceOk(roster, live, s.(fetched := None))
  {
    var t := s.(fetched := None);
    assert forall n :: 0 <= n < |roster| ==> Tokens(t, roster[n], n) <= Tokens(s, roster[n], n);
    assert s.scope.filter.None? ==> forall n :: 0 <= n < |roster| ==> Tokens(t, roster[n], n) == Tokens(s, roster[n], n);
  }

  // ----- What a subscription wrote, session by session -----

  /** The chunks written for one session, in order. */
  function Projected(out: seq<Msg>, sid: SessionId): seq<Chunk> {
    if out == [] then []
    else
      var m := out[|out| - 1];
      var before := Projected(out[..|out| - 1], sid);
      if m.ChunkMsg? && m.sid == sid then before + [m.chunk] else before
  }

  predicate AnnouncedBefore(out: seq<Msg>, p: nat, sid: SessionId)
    requires p <= |out|
  {
    exists q :: 0 <= q < p && out[q].EventMsg? && out[q].event.SessionCreated? && out[q].event.sid == sid
  }

  /** Every chunk belongs to an attached session and comes after its announcement. */
  predicate OutOk(roster: seq<Event>, s: Sub) {
    && (forall i :: 0 <= i < |s.feeds| ==>
          s.feeds[i].inst < |roster| && Projected(s.out, roster[s.feeds[i].inst].sid) == s.feeds[i].sent)
    && (forall p :: 0 <= p < |s.out| && s.out[p].ChunkMsg? ==>
          AnnouncedBefore(s.out, p, s.out[p].sid)
          && exists i :: 0 <= i < |s.feeds| && s.feeds[i].inst < |roster| && roster[s.feeds[i].inst].sid == s.out[p].sid)
  }

  lemma ProjectedAppend(out: seq<Msg>, m: Msg, sid: SessionId)
    ensures Projected(out + [m], sid) ==
            if m.ChunkMsg? && m.sid == sid then Projected(out, sid) + [m.chunk] else Projected(out, sid)
  {
    assert (out + [m])[..|out|] == out;
  }

  lemma {:induction false} ProjectedEmpty(out: seq<Msg>, sid: SessionId)
    requires forall p :: 0 <= p < |out| && out[p].ChunkMsg? ==> out[p].sid != sid
    ensures Projected(out, sid) == []
  {
    if out != [] {
      ProjectedEmpty(out[..|out| - 1], sid);
    }
  }

  lemma OutSame(roster: seq<Event>, longer: seq<Event>, s: Sub, t: Sub)
    requires OutOk(roster, s) && t.out == s.out && |t.feeds| == |s.feeds|
    requires |roster| <= |longer| && forall n :: 0 <= n < |roster| ==> longer[n] == roster[n]
    requires forall i :: 0 <= i < |s.feeds| ==> SameStanding(s.feeds[i], t.feeds[i])
    ensures OutOk(longer, t)
  {
    forall p | 0 <= p < |t.out| && t.out[p].ChunkMsg?
      ensures exists i :: 0 <= i < |t.feeds| && t.feeds[i].inst < |longer| && longer[t.feeds[i].inst].sid == t.out[p].sid
    {
      var i :| 0 <= i < |s.feeds| && s.feeds[i].inst < |roster| && roster[s.feeds[i].inst].sid == s.out[p].sid;
      assert SameStanding(s.feeds[i], t.feeds[i]);
    }
  }

  lemma LongerOut(out: seq<Msg>, m: Msg, p: nat, sid: SessionId)
    requires p <= |out| && AnnouncedBefore(out, p, sid)
    ensures AnnouncedBefore(out + [m], p, sid)
  {
    var q :| 0 <= q < p && out[q].EventMsg? && out[q].event.SessionCreated? && out[q].event.sid == sid;
    assert (out + [m])[q] == out[q];
  }

  /** Writing a message that is no chunk. */
  lemma OutEvent(roster: seq<Event>, s: Sub, t: Sub, m: Msg)
    requires OutOk(roster, s) && !m.ChunkMsg? && t.out == s.out + [m] && |t.feeds| == |s.feeds|
    requires forall i :: 0 <= i < |s.feeds| ==> t.feeds[i].inst == s.feeds[i].inst && t.feeds[i].sent == s.feeds[i].sent
    ensures OutOk(roster, t)
  {
    forall i | 0 <= i < |t.feeds| ensures Projected(t.out, roster[t.feeds[i].inst].sid) == t.feeds[i].sent {
      ProjectedAppend(s.out, m, roster[t.feeds[i].inst].sid);
    }
    OutBefore(roster, s, t, m);
  }

  lemma OutBefore(roster: seq<Event>, s: Sub, t: Sub, m: Msg)
    requires OutOk(roster, s) && t.out == s.out + [m] && |t.feeds| == |s.feeds|
    requires forall i :: 0 <= i < |s.feeds| ==> t.feeds[i].inst == s.feeds[i].inst
    ensures forall p :: 0 <= p < |s.out| && t.out[p].ChunkMsg? ==>
              AnnouncedBefore(t.out, p, t.out[p].sid)
              && exists i :: 0 <= i < |t.feeds| && t.feeds[i].inst < |roster| && roster[t.feeds[i].inst].sid == t.out[p].sid
  {
    forall p | 0 <= p < |s.out| && t.out[p].ChunkMsg?
      ensures AnnouncedBefore(t.out, p, t.out[p].sid)
      ensures exists i :: 0 <= i < |t.feeds| && t.feeds[i].inst < |roster| && roster[t.feeds[i].inst].sid == t.out[p].sid
    {
      assert t.out[p] == s.out[p];
      LongerOut(s.out, m, p, s.out[p].sid);
      var i :| 0 <= i < |s.feeds| && s.feeds[i].inst < |roster| && roster[s.feeds[i].inst].sid == s.out[p].sid;
      assert t.feeds[i].inst == s.feeds[i].inst;
    }
  }

  /** Writing a chunk of feed `i`, whose session is announced. */
  lemma OutChunk(roster: seq<Event>, s: Sub, i: nat, f: Feed, c: Chunk)
    requires IsRoster(roster) && FeedsOk(roster, s) && OutOk(roster, s) && i < |s.feeds| && !s.feeds[i].stage.Waiting?
    requires f.inst == s.feeds[i].inst && f.sent == s.feeds[i].sent + [c]
    ensures OutOk(roster, WithFeed(s, i, f, [ChunkMsg(roster[f.inst].sid, c)]))
  {
    var m := ChunkMsg(roster[f.inst].sid, c);
    var t := WithFeed(s, i, f, [m]);
    forall j | 0 <= j < |t.feeds| ensures Projected(t.out, roster[t.feeds[j].inst].sid) == t.feeds[j].sent {
      ProjectedAppend(s.out, m, roster[t.feeds[j].inst].sid);
      assert j < i ==> s.feeds[j].inst != s.feeds[i].inst;
      assert i < j ==> s.feeds[i].inst != s.feeds[j].inst;
    }
    OutBefore(roster, s, t, m);
    assert Announced(s, roster[f.inst]);
    var q :| 0 <= q < |s.out| && s.out[q] == EventMsg(roster[f.inst]);
    assert t.out[q] == s.out[q] && t.feeds[i].inst == f.inst;
    assert AnnouncedBefore(t.out, |s.out|, m.sid);
  }

  /** Attaching a session that was not attached before. */
  lemma OutAttach(roster: seq<Event>, s: Sub, f: Feed)
    requires IsRoster(roster) && OutOk(roster, s) && f.inst < |roster| && f.sent == [] && !HasFeed(s.feeds, f.inst)
    ensures OutOk(roster, s.(fetched := None, feeds := s.feeds + [f]))
  {
    var t := s.(fetched := None, feeds := s.feeds + [f]);
    assert forall i :: 0 <= i < |s.feeds| ==> t.feeds[i] == s.feeds[i];
    forall p | 0 <= p < |s.out| && s.out[p].ChunkMsg?
      ensures s.out[p].sid != roster[f.inst].sid
      ensures exists i :: 0 <= i < |t.feeds| && t.feeds[i].inst < |roster| && roster[t.feeds[i].inst].sid == t.out[p].sid
    {
      var i :| 0 <= i < |s.feeds| && s.feeds[i].inst < |roster| && roster[s.feeds[i].inst].sid == s.out[p].sid;
      assert s.feeds[i].inst != f.inst;
      assert t.feeds[i] == s.feeds[i];
    }
    ProjectedEmpty(s.out, roster[f.inst].sid);
  }

  // ----- One step of the bus -----

  ghost predicate Announcing(b: Bus)
    requires WellFormed(b)
  {
    && IsRoster(Roster(b))
    && (forall k :: 0 <= k < |b.subs| && b.subs[k].scope.Everything? ==>
          AnnounceOk(Roster(b), LiveInstances(b), b.subs[k]) && OutOk(Roster(b), b.subs[k]))
  }

  /** The steps that leave the roster alone and hear at most a deletion or a tag change. */
  lemma QuietAnnouncing(b: Bus, b': Bus)
    requires WellFormed(b) && WellFormed(b') && Announcing(b)
    requires Roster(b') == Roster(b) && LiveInstances(b') <= LiveInstances(b) && |b'.subs| == |b.subs|
    requires forall k :: 0 <= k < |b.subs| ==> Undisturbed(b.subs[k], b'.subs[k])
    ensures Announcing(b')
  {
    forall k | 0 <= k < |b'.subs| && b'.subs[k].scope.Everything?
      ensures AnnounceOk(Roster(b'), LiveInstances(b'), b'.subs[k]) && OutOk(Roster(b'), b'.subs[k])
    {
      var s, t := b.subs[k], b'.subs[k];
      assert Undisturbed(s, t);
      SameStandingOk(Roster(b), LiveInstances(b), s, t);
      FewerLive(Roster(b), LiveInstances(b), LiveInstances(b'), t);
      OutSame(Roster(b), Roster(b), s, t);
    }
  }

  predicate Undisturbed(s: Sub, t: Sub) {
    && t.scope == s.scope && t.out == s.out && t.events == s.events && t.fetched == s.fetched
    && t.overrun == s.overrun && |t.feeds| == |s.feeds|
    && (forall i :: 0 <= i < |s.feeds| ==> SameStanding(s.feeds[i], t.feeds[i]))
  }

  lemma NotifyAnnouncing(b: Bus, b': Bus, e: Event)
    requires WellFormed(b) && WellFormed(b') && Announcing(b) && !e.SessionCreated?
    requires Roster(b') == Roster(b) && LiveInstances(b') <= LiveInstances(b) && b'.subs == Notify(b.subs, e)
    ensures Announcing(b')
  {
    forall k | 0 <= k < |b'.subs| && b'.subs[k].scope.Everything?
      ensures AnnounceOk(Roster(b'), LiveInstances(b'), b'.subs[k]) && OutOk(Roster(b'), b'.subs[k])
    {
      HearOther(Roster(b), LiveInstances(b), b.subs[k], e);
      FewerLive(Roster(b), LiveInstances(b), LiveInstances(b'), b'.subs[k]);
      OutSame(Roster(b), Roster(b), b.subs[k], b'.subs[k]);
    }
  }

  lemma InsertedRoster(b: Bus, s: Session)
    requires WellFormed(b) && IsRoster(Roster(b)) && s.id !in b.live
    requires forall n :: 0 <= n < |b.insts| ==> b.insts[n].session.id != s.id
    ensures Roster(Insert(b, s)) == Roster(b) + [SessionCreated(s.id, s.agent)] && IsRoster(Roster(Insert(b, s)))
    ensures LiveInstances(Insert(b, s)) == LiveInstances(b) + {|b.insts|}
  {
    var b' := Insert(b, s);
    forall sid | sid in b.live ensures b'.live[sid] == b.live[sid] && b.live[sid] in LiveInstances(b') {
    }
    assert b'.live[s.id] == |b.insts|;
  }

  lemma InsertAnnouncing(b: Bus, s: Session)
    requires WellFormed(b) && Announcing(b) && s.id !in b.live
    requires forall n :: 0 <= n < |b.insts| ==> b.insts[n].session.id != s.id
    ensures WellFormed(Insert(b, s)) && Announcing(Insert(b, s))
  {
    InsertGrows(b, s);
    InsertedRoster(b, s);
    var e := SessionCreated(s.id, s.agent);
    var roster, live := Roster(b), LiveInstances(b);
    forall k | 0 <= k < |b.subs| && b.subs[k].scope.Everything?
      ensures AnnounceOk(roster + [e], live + {|roster|}, Hear(b.subs[k], e)) && OutOk(roster + [e], Hear(b.subs[k], e))
    {
      HearCreated(roster, live, b.subs[k], e);
      OutSame(roster, roster + [e], b.subs[k], Hear(b.subs[k], e));
    }
  }

  lemma RemoveAnnouncing(b: Bus, sid: SessionId)
    requires WellFormed(b) && Announcing(b)
    ensures WellFormed(Remove(b, sid)) && Announcing(Remove(b, sid))
  {
    RemoveGrows(b, sid);
    if sid in b.live {
      NotifyAnnouncing(b, Remove(b, sid), SessionDeleted(sid));
    }
  }

  lemma SessionAnnouncing(b: Bus, n: nat, s: Session)
    requires WellFormed(b) && Announcing(b) && n < |b.insts|
    requires s.id == b.insts[n].session.id && s.agent == b.insts[n].session.agent
    ensures WellFormed(WithSession(b, n, s)) && Announcing(WithSession(b, n, s))
  {
    QuietAnnouncing(b, WithSession(b, n, s));
  }

  lemma PublishAnnouncing(b: Bus, n: nat, c: Chunk)
    requires WellFormed(b) && Announcing(b) && n < |b.insts|
    ensures WellFormed(PublishAt(b, n, c)) && Announcing(PublishAt(b, n, c))
  {
    PublishGrows(b, n, c);
    QuietAnnouncing(b, PublishAt(b, n, c));
  }

  lemma CommandAnnouncing(b: Bus, a: Action)
    requires WellFormed(b) && Enabled(b, a) && Announcing(b) && IsCommand(a) && FreshStep(b, a)
    ensures WellFormed(Effect(b, a)) && Announcing(Effect(b, a))
  {
    if a.Create? && a.sid !in b.live {
      CreateAnnouncing(b, a);
    } else if a.Fork? && a.sid !in b.live && a.parent in b.live {
      ForkAnnouncing(b, a);
    } else {
      CommandGrows(b, a);
      OldSessionAnnouncing(b, a);
    }
  }

  lemma CreateAnnouncing(b: Bus, a: Action)
    requires WellFormed(b) && Enabled(b, a) && Announcing(b) && a.Create? && FreshStep(b, a) && a.sid !in b.live
    ensures WellFormed(Effect(b, a)) && Announcing(Effect(b, a))
  {
    InsertAnnouncing(b, NewSession(a.sid, a.agent).(ephemeral := a.ephemeral, tags := a.tags, history := a.initial));
  }

  lemma ForkAnnouncing(b: Bus, a: Action)
    requires WellFormed(b) && Enabled(b, a) && Announcing(b) && a.Fork? && FreshStep(b, a)
    requires a.sid !in b.live && a.parent in b.live
    ensures WellFormed(Effect(b, a)) && Announcing(Effect(b, a))
  {
    var n := b.live[a.parent];
    var s := b.insts[n].session;
    SessionAnnouncing(b, n, Pruned(s, b.now));
    InsertAnnouncing(WithSession(b, n, Pruned(s, b.now)), Forked(s, a.sid, b.now, Provenance(a.provenanceId, a.parent)));
  }

  lemma OldSessionAnnouncing(b: Bus, a: Action)
    requires WellFormed(b) && Enabled(b, a) && Announcing(b) && IsCommand(a) && WellFormed(Effect(b, a))
    requires a.Create? || a.Fork? ==> Effect(b, a) == b
    ensures Announcing(Effect(b, a))
  {
    if a.Delete? {
      RemoveAnnouncing(b, a.sid);
    } else if a.SetTags? && a.sid in b.live {
      SetTagsAnnouncing(b, a);
    } else if a.Publish? {
      PublishingAnnouncing(b, a);
    } else if a.Connect? || a.SetMeta? {
      TimersAnnouncing(b, Effect(b, a));
    }
  }

  lemma PublishingAnnouncing(b: Bus, a: Action)
    requires WellFormed(b) && Enabled(b, a) && Announcing(b) && a.Publish?
    ensures WellFormed(Effect(b, a)) && Announcing(Effect(b, a))
  {
    if a.sid in b.live {
      PublishAnnouncing(b, b.live[a.sid], Tagged(a));
    }
  }

  lemma SetTagsAnnouncing(b: Bus, a: Action)
    requires WellFormed(b) && Enabled(b, a) && Announcing(b) && a.SetTags? && a.sid in b.live
    ensures WellFormed(Effect(b, a)) && Announcing(Effect(b, a))
  {
    SetTagsGrows(b, a);
    var n := b.live[a.sid];
    PublishAnnouncing(b, n, a.note);
    var b1 := PublishAt(b, n, a.note);
    var b2 := WithSession(b1, n, b1.insts[n].session.(tags := a.tags));
    SessionAnnouncing(b1, n, b2.insts[n].session);
    NotifyAnnouncing(b2, Retag(b1, n, a.sid, a.tags), TagsUpdated(a.sid, a.tags));
  }

  lemma NewSubAnnouncing(b: Bus, b': Bus, s: Sub)
    requires WellFormed(b) && WellFormed(b') && Announcing(b)
    requires Roster(b') == Roster(b) && b'.live == b.live && b'.subs == b.subs + [s]
    requires s.scope.Everything? ==> AnnounceOk(Roster(b), LiveInstances(b), s) && OutOk(Roster(b), s)
    ensures Announcing(b')
  {
    forall k | 0 <= k < |b'.subs| && b'.subs[k].scope.Everything?
      ensures AnnounceOk(Roster(b'), LiveInstances(b'), b'.subs[k]) && OutOk(Roster(b'), b'.subs[k])
    {
      assert b'.subs[k] == if k < |b.subs| then b.subs[k] else s;
    }
  }

  lemma FreshListenerOk(roster: seq<Event>, live: set<nat>, s: Sub)
    requires IsRoster(roster) && s.scope.Everything? && s.out == [] && s.events == [] && s.fetched.None?
    requires forall i :: 0 <= i < |s.feeds| ==> SnapshotFeed(roster, s.feeds[i])
    requires forall i, j :: 0 <= i < j < |s.feeds| ==> s.feeds[i].inst != s.feeds[j].inst
    requires s.scope.filter.None? ==> forall n :: n in live ==> Awaits(s.feeds, n)
    ensures AnnounceOk(roster, live, s) && OutOk(roster, s)
  {
  }

  predicate SnapshotFeed(roster: seq<Event>, f: Feed)
    requires IsRoster(roster)
  {
    f.inst < |roster| && f.agent == roster[f.inst].agent && f.stage.Waiting? && f.sent == []
  }

  /** The snapshot's feeds: the chosen sessions, each waiting. */
  lemma SnapshotFeeds(b: Bus, a: Action, s: Sub)
    requires WellFormed(b) && Announcing(b) && a.SubscribeAll? && Enabled(b, a)
    requires s == DoSubscribeAll(b, a.conn, a.filter, a.chosen).subs[|b.subs|]
    ensures |s.feeds| == |a.chosen|
    ensures forall i :: 0 <= i < |s.feeds| ==>
      SnapshotFeed(Roster(b), s.feeds[i]) && Roster(b)[s.feeds[i].inst].sid == a.chosen[i]
    ensures forall i, j :: 0 <= i < j < |s.feeds| ==> s.feeds[i].inst != s.feeds[j].inst
  {
    forall i | 0 <= i < |s.feeds|
      ensures SnapshotFeed(Roster(b), s.feeds[i]) && Roster(b)[s.feeds[i].inst].sid == a.chosen[i]
    {
      assert a.chosen[i] in a.chosen;
    }
    forall i, j | 0 <= i < j < |s.feeds| ensures s.feeds[i].inst != s.feeds[j].inst {
      assert a.chosen[i] != a.chosen[j];
    }
  }

  /** The snapshot lists a session exactly when it is live and the filter lets it through. */
  lemma SnapshotLists(b: Bus, a: Action, s: Sub, n: nat)
    requires WellFormed(b) && Announcing(b) && a.SubscribeAll? && Enabled(b, a) && n < |b.insts|
    requires s == DoSubscribeAll(b, a.conn, a.filter, a.chosen).subs[|b.subs|]
    ensures HasFeed(s.feeds, n) <==> n in LiveInstances(b) && SessionMatches(b.insts[n].session, a.filter)
    ensures HasFeed(s.feeds, n) ==> Awaits(s.feeds, n)
  {
    SnapshotFeeds(b, a, s);
    if HasFeed(s.feeds, n) {
      var i :| 0 <= i < |s.feeds| && s.feeds[i].inst == n;
      assert SnapshotFeed(Roster(b), s.feeds[i]);
      var sid := a.chosen[i];
      assert sid in a.chosen && sid in b.live && Roster(b)[b.live[sid]].sid == Roster(b)[n].sid;
    }
    if n in LiveInstances(b) && SessionMatches(b.insts[n].session, a.filter) {
      var sid :| sid in b.live && b.live[sid] == n;
      assert sid in a.chosen;
      var i :| 0 <= i < |a.chosen| && a.chosen[i] == sid;
      assert Roster(b)[s.feeds[i].inst].sid == Roster(b)[n].sid;
      assert s.feeds[i].inst == n;
    }
  }

  /** The snapshot owes every session it lists, and SubscribeAll lists every live one. */
  lemma SnapshotOk(b: Bus, a: Action, s: Sub)
    requires WellFormed(b) && Announcing(b) && a.SubscribeAll? && Enabled(b, a)
    requires s == DoSubscribeAll(b, a.conn, a.filter, a.chosen).subs[|b.subs|]
    ensures AnnounceOk(Roster(b), LiveInstances(b), s) && OutOk(Roster(b), s)
  {
    SnapshotFeeds(b, a, s);
    if a.filter.None? {
      forall n | n in LiveInstances(b) ensures Awaits(s.feeds, n) {
        SnapshotLists(b, a, s, n);
      }
    }
    FreshListenerOk(Roster(b), LiveInstances(b), s);
  }

  lemma SubscribingAnnouncing(b: Bus, a: Action)
    requires WellFormed(b) && Enabled(b, a) && Announcing(b) && IsSubscribing(a)
    ensures WellFormed(Effect(b, a)) && Announcing(Effect(b, a))
  {
    SubscribingGrows(b, a);
    var b' := Effect(b, a);
    if a.SubscribeAll? {
      SnapshotOk(b, a, b'.subs[|b.subs|]);
      NewSubAnnouncing(b, b', b'.subs[|b.subs|]);
    } else if a.sid in b.live {
      NewSubAnnouncing(b, b', b'.subs[|b.subs|]);
    }
  }

  lemma WithSubAnnouncing(b: Bus, b': Bus, k: nat, s: Sub)
    requires WellFormed(b) && WellFormed(b') && Announcing(b) && k < |b.subs|
    requires Roster(b') == Roster(b) && b'.live == b.live && b'.subs == b.subs[k := s]
    requires s.scope.Everything? ==> AnnounceOk(Roster(b), LiveInstances(b), s) && OutOk(Roster(b), s)
    ensures Announcing(b')
  {
    forall j | 0 <= j < |b'.subs| && b'.subs[j].scope.Everything?
      ensures AnnounceOk(Roster(b'), LiveInstances(b'), b'.subs[j]) && OutOk(Roster(b'), b'.subs[j])
    {
    }
  }

  lemma MovedOk(b: Bus, a: Action)
    requires WellFormed(b) && Enabled(b, a) && Announcing(b) && IsFeedTask(a) && b.subs[a.sub].scope.Everything?
    ensures AnnounceOk(Roster(b), LiveInstances(b), FeedMoved(b, a)) && OutOk(Roster(b), FeedMoved(b, a))
  {
    var s := b.subs[a.sub];
    var f := s.feeds[a.feed];
    assert AnnounceOk(Roster(b), LiveInstances(b), s) && OutOk(Roster(b), s);
    assert Roster(b)[f.inst] == SessionCreated(b.insts[f.inst].session.id, f.agent);
    assert FeedMoved(b, a) == WithFeed(s, a.feed, FeedAfter(s, f, a), FeedOut(Roster(b)[f.inst].sid, s, f, a));
    FeedMovedOk(Roster(b), LiveInstances(b), s, a);
  }

  lemma FeedMovedOk(roster: seq<Event>, live: set<nat>, s: Sub, a: Action)
    requires s.scope.Everything? && AnnounceOk(roster, live, s) && OutOk(roster, s)
    requires IsFeedTask(a) && a.feed < |s.feeds| && (a.Announce? <==> s.feeds[a.feed].stage.Waiting?)
    requires (a.Replay? ==> s.feeds[a.feed].todo != []) && (a.Forward? ==> s.feeds[a.feed].queue != [])
    ensures var f := s.feeds[a.feed];
            var t := WithFeed(s, a.feed, FeedAfter(s, f, a), FeedOut(roster[f.inst].sid, s, f, a));
            AnnounceOk(roster, live, t) && OutOk(roster, t)
  {
    if a.Announce? {
      AnnouncedOk(roster, live, s, a);
    } else {
      WritingOk(roster, live, s, a);
    }
  }

  lemma AnnouncedOk(roster: seq<Event>, live: set<nat>, s: Sub, a: Action)
    requires s.scope.Everything? && AnnounceOk(roster, live, s) && OutOk(roster, s)
    requires a.Announce? && a.feed < |s.feeds| && s.feeds[a.feed].stage.Waiting?
    ensures var f := s.feeds[a.feed];
            var t := WithFeed(s, a.feed, FeedAfter(s, f, a), FeedOut(roster[f.inst].sid, s, f, a));
            AnnounceOk(roster, live, t) && OutOk(roster, t)
  {
    var f := s.feeds[a.feed];
    var t := WithFeed(s, a.feed, f.(stage := Replaying), [EventMsg(roster[f.inst])]);
    assert roster[f.inst] == SessionCreated(roster[f.inst].sid, f.agent);
    AnnouncingKeepsTokens(roster, live, s, a.feed);
    OutEvent(roster, s, t, EventMsg(roster[f.inst]));
  }

  lemma WritingOk(roster: seq<Event>, live: set<nat>, s: Sub, a: Action)
    requires s.scope.Everything? && AnnounceOk(roster, live, s) && OutOk(roster, s)
    requires IsFeedTask(a) && !a.Announce? && a.feed < |s.feeds| && !s.feeds[a.feed].stage.Waiting?
    requires (a.Replay? ==> s.feeds[a.feed].todo != []) && (a.Forward? ==> s.feeds[a.feed].queue != [])
    ensures var f := s.feeds[a.feed];
            var t := WithFeed(s, a.feed, FeedAfter(s, f, a), FeedOut(roster[f.inst].sid, s, f, a));
            AnnounceOk(roster, live, t) && OutOk(roster, t)
  {
    var f := s.feeds[a.feed];
    var f' := FeedAfter(s, f, a);
    var written := FeedOut(roster[f.inst].sid, s, f, a);
    MovingKeepsTokens(roster, live, s, a.feed, f', written);
    WritingOutOk(roster, s, a);
  }

  lemma WritingOutOk(roster: seq<Event>, s: Sub, a: Action)
    requires s.scope.Everything? && IsRoster(roster) && FeedsOk(roster, s) && OutOk(roster, s)
    requires IsFeedTask(a) && !a.Announce? && a.feed < |s.feeds| && !s.feeds[a.feed].stage.Waiting?
    requires (a.Replay? ==> s.feeds[a.feed].todo != []) && (a.Forward? ==> s.feeds[a.feed].queue != [])
    ensures var f := s.feeds[a.feed];
            OutOk(roster, WithFeed(s, a.feed, FeedAfter(s, f, a), FeedOut(roster[f.inst].sid, s, f, a)))
  {
    var f := s.feeds[a.feed];
    var f' := FeedAfter(s, f, a);
    var written := FeedOut(roster[f.inst].sid, s, f, a);
    if f'.sent == f.sent {
      assert written == [];
      OutQuiet(roster, s, a.feed, f');
    } else {
      var c := if a.Replay? then f.todo[0] else f.queue[0];
      assert f'.sent == f.sent + [c] && written == [ChunkMsg(roster[f.inst].sid, c)];
      OutChunk(roster, s, a.feed, f', c);
    }
  }

  lemma OutQuiet(roster: seq<Event>, s: Sub, i: nat, f: Feed)
    requires OutOk(roster, s) && i < |s.feeds| && f.inst == s.feeds[i].inst && f.sent == s.feeds[i].sent
    ensures OutOk(roster, WithFeed(s, i, f, []))
  {
    var t := WithFeed(s, i, f, []);
    assert t.out == s.out;
    forall j | 0 <= j < |s.feeds| ensures t.feeds[j].inst == s.feeds[j].inst && t.feeds[j].sent == s.feeds[j].sent {
    }
    forall p | 0 <= p < |t.out| && t.out[p].ChunkMsg?
      ensures exists j :: 0 <= j < |t.feeds| && t.feeds[j].inst < |roster| && roster[t.feeds[j].inst].sid == t.out[p].sid
    {
      var j :| 0 <= j < |s.feeds| && s.feeds[j].inst < |roster| && roster[s.feeds[j].inst].sid == s.out[p].sid;
      assert t.feeds[j].inst == s.feeds[j].inst;
    }
  }

  lemma FeedTaskAnnouncing(b: Bus, a: Action)
    requires WellFormed(b) && Enabled(b, a) && Announcing(b) && IsFeedTask(a)
    ensures WellFormed(Effect(b, a)) && Announcing(Effect(b, a))
  {
    FeedTaskGrows(b, a);
    FeedTaskShape(b, a);
    TaskShape(b, a);
    if b.subs[a.sub].scope.Everything? {
      MovedOk(b, a);
    }
    WithSubAnnouncing(b, Effect(b, a), a.sub, FeedMoved(b, a));
  }

  lemma TakeEventAnnouncing(b: Bus, a: Action)
    requires WellFormed(b) && Enabled(b, a) && Announcing(b) && a.TakeEvent?
    ensures WellFormed(Effect(b, a)) && Announcing(Effect(b, a))
  {
    TaskGrows(b, a);
    TakenOk(Roster(b), LiveInstances(b), b.subs[a.sub]);
    WithSubAnnouncing(b, Effect(b, a), a.sub, EventTaken(b.subs[a.sub]));
  }

  lemma TaskAnnouncing(b: Bus, a: Action)
    requires WellFormed(b) && Enabled(b, a) && Announcing(b) && IsTask(a)
    ensures WellFormed(Effect(b, a)) && Announcing(Effect(b, a))
  {
    if a.Attach? {
      AttachAnnouncing(b, a.sub);
    } else if IsFeedTask(a) {
      FeedTaskAnnouncing(b, a);
    } else if a.TakeEvent? {
      TakeEventAnnouncing(b, a);
    } else {
      LoopTaskAnnouncing(b, a);
    }
  }

  lemma LoopTaskAnnouncing(b: Bus, a: Action)
    requires WellFormed(b) && Enabled(b, a) && Announcing(b) && (a.Listen? || a.Break?)
    ensures WellFormed(Effect(b, a)) && Announcing(Effect(b, a))
  {
    TaskGrows(b, a);
    LoopTaskDisturbsNone(b, a);
    QuietAnnouncing(b, Effect(b, a));
  }

  lemma LoopTaskDisturbsNone(b: Bus, a: Action)
    requires WellFormed(b) && Enabled(b, a) && (a.Listen? || a.Break?)
    ensures Effect(b, a).insts == b.insts && Effect(b, a).live == b.live && |Effect(b, a).subs| == |b.subs|
    ensures forall k :: 0 <= k < |b.subs| ==> Undisturbed(b.subs[k], Effect(b, a).subs[k])
  {
    LoopTaskShape(b, a);
    assert forall k :: 0 <= k < |b.subs| && k != a.sub ==> Effect(b, a).subs[k] == b.subs[k];
  }

  lemma TakenOk(roster: seq<Event>, live: set<nat>, s: Sub)
    requires s.scope.Everything? && AnnounceOk(roster, live, s) && OutOk(roster, s) && s.events != [] && s.fetched.None?
    ensures AnnounceOk(roster, live, EventTaken(s)) && OutOk(roster, EventTaken(s))
  {
    TakingKeepsTokens(roster, live, s);
    if EventTaken(s).out == s.out {
      OutSame(roster, roster, s, EventTaken(s));
    } else {
      OutEvent(roster, s, EventTaken(s), EventMsg(s.events[0]));
    }
  }

  /** A fetched creation names one instance, the only one its id can be live as. */
  lemma FetchedInstance(b: Bus, k: nat) returns (n: nat)
    requires WellFormed(b) && Announcing(b) && k < |b.subs| && b.subs[k].scope.Everything? && b.subs[k].fetched.Some?
    ensures n < |b.insts| && Roster(b)[n] == b.subs[k].fetched.value
    ensures b.subs[k].fetched.value.sid in b.live ==> b.live[b.subs[k].fetched.value.sid] == n
    ensures n in LiveInstances(b) ==> b.subs[k].fetched.value.sid in b.live
  {
    var e := b.subs[k].fetched.value;
    assert e in Roster(b);
    n :| 0 <= n < |b.insts| && Roster(b)[n] == e;
    if e.sid in b.live {
      assert Roster(b)[b.live[e.sid]].sid == e.sid;
    }
  }

  predicate Attaches(b: Bus, k: nat)
    requires WellFormed(b) && Enabled(b, Attach(k))
  {
    var e := b.subs[k].fetched.value;
    e.sid in b.live && SessionMatches(b.insts[b.live[e.sid]].session, b.subs[k].scope.filter)
  }

  lemma ListenerAttaches(b: Bus, k: nat)
    requires WellFormed(b) && Enabled(b, Attach(k))
    ensures var b' := DoAttach(b, k);
            && Roster(b') == Roster(b) && b'.live == b.live && b'.subs == b.subs[k := b'.subs[k]]
            && var s, t := b.subs[k], b'.subs[k];
               if Attaches(b, k) then
                 |t.feeds| == |s.feeds| + 1 && t == s.(fetched := None, feeds := s.feeds + [t.feeds[|s.feeds|]], seen := t.seen)
                 && var f := t.feeds[|s.feeds|];
                    f.inst == b.live[s.fetched.value.sid] && f.sent == []
                    && (s.fetched.value.SessionCreated? ==> f.agent == s.fetched.value.agent)
                    && (if s.scope.filter.None? then f.stage.Replaying? else f.stage.Waiting?)
               else t == s.(fetched := None, seen := t.seen)
    ensures DoAttach(b, k).subs[k].seen == Looked(b, k)
  {
  }

  lemma AttachAnnouncing(b: Bus, k: nat)
    requires WellFormed(b) && Enabled(b, Attach(k)) && Announcing(b)
    ensures WellFormed(DoAttach(b, k)) && Announcing(DoAttach(b, k))
  {
    AttachGrows(b, k);
    ListenerAttaches(b, k);
    var s := b.subs[k];
    var n := FetchedInstance(b, k);
    var t := DoAttach(b, k).subs[k];
    if Attaches(b, k) {
      AttachedOk(Roster(b), LiveInstances(b), s, n, t.feeds[|s.feeds|]);
      LookingOk(Roster(b), LiveInstances(b), s.(fetched := None, feeds := t.feeds), t.seen);
    } else {
      DroppedOk(b, k, n);
      LookingOk(Roster(b), LiveInstances(b), s.(fetched := None), t.seen);
    }
    WithSubAnnouncing(b, DoAttach(b, k), k, t);
  }

  lemma LookingOk(roster: seq<Event>, live: set<nat>, s: Sub, seen: map<nat, seq<string>>)
    requires AnnounceOk(roster, live, s) && OutOk(roster, s)
    ensures AnnounceOk(roster, live, s.(seen := seen)) && OutOk(roster, s.(seen := seen))
  {
    SameStandingOk(roster, live, s, s.(seen := seen));
    OutSame(roster, roster, s, s.(seen := seen));
  }

  lemma AttachedOk(roster: seq<Event>, live: set<nat>, s: Sub, n: nat, f: Feed)
    requires AnnounceOk(roster, live, s) && OutOk(roster, s) && s.scope.Everything?
    requires n < |roster| && s.fetched == Some(roster[n]) && f.inst == n && f.agent == roster[n].agent && f.sent == []
    requires if s.scope.filter.None? then f.stage.Replaying? else f.stage.Waiting?
    ensures var t := s.(fetched := None, feeds := s.feeds + [f]); AnnounceOk(roster, live, t) && OutOk(roster, t)
  {
    AttachingKeepsTokens(roster, live, s, n, f);
    OutAttach(roster, s, f);
  }

  lemma DroppedOk(b: Bus, k: nat, n: nat)
    requires WellFormed(b) && Announcing(b) && k < |b.subs| && b.subs[k].scope.Everything?
    requires n < |b.insts| && b.subs[k].fetched == Some(Roster(b)[n])
    requires b.subs[k].scope.filter.None? ==> n !in LiveInstances(b)
    ensures var t := b.subs[k].(fetched := None); AnnounceOk(Roster(b), LiveInstances(b), t) && OutOk(Roster(b), t)
  {
    DroppingKeepsTokens(Roster(b), LiveInstances(b), b.subs[k]);
    OutSame(Roster(b), Roster(b), b.subs[k], b.subs[k].(fetched := None));
  }

  lemma {:induction false} CleanupAnnouncing(b: Bus, c: ConnId, sids: seq<SessionId>)
    requires WellFormed(b) && Announcing(b)
    ensures Announcing(Cleanup(b, c, sids))
    decreases |sids|
  {
    if sids != [] {
      DepartAnnouncing(b, c, sids[0]);
      CleanupAnnouncing(Depart(b, c, sids[0]), c, sids[1..]);
    }
  }

  lemma DepartAnnouncing(b: Bus, c: ConnId, sid: SessionId)
    requires WellFormed(b) && Announcing(b)
    ensures WellFormed(Depart(b, c, sid)) && Announcing(Depart(b, c, sid))
  {
    if sid in b.live {
      var s := b.insts[b.live[sid]].session;
      SessionAnnouncing(b, b.live[sid], Left(s, c));
      var b1 := WithSession(b, b.live[sid], Left(s, c));
      DepartWellFormed(b, c, sid);
      if Abandons(s, c) && s.ephemeral.value.keepaliveSecs == 0 {
        RemoveAnnouncing(b1, sid);
      } else {
        TimersAnnouncing(b1, Depart(b, c, sid));
      }
    }
  }

  lemma TimersAnnouncing(b: Bus, b': Bus)
    requires WellFormed(b) && Announcing(b) && b'.insts == b.insts && b'.subs == b.subs && b'.live == b.live
    ensures WellFormed(b') && Announcing(b')
  {
    QuietAnnouncing(b, b');
  }

  lemma TimeAnnouncing(b: Bus, a: Action)
    requires WellFormed(b) && Enabled(b, a) && Announcing(b) && (a.Advance? || a.Fire? || a.Disconnect?)
    ensures WellFormed(Effect(b, a)) && Announcing(Effect(b, a))
  {
    if a.Advance? {
      TimersAnnouncing(b, Effect(b, a));
    } else if a.Fire? {
      FireAnnouncing(b, a.timer);
    } else {
      DroppingAnnouncing(b, a.conn);
      CleanupAnnouncing(Dropped(b, a.conn), a.conn, b.conns[a.conn].tracked);
    }
  }

  lemma FireAnnouncing(b: Bus, j: nat)
    requires WellFormed(b) && Announcing(b) && j < |b.timers|
    ensures WellFormed(DoFire(b, j)) && Announcing(DoFire(b, j))
  {
    var b1 := b.(timers := WithoutTimer(b.timers, j));
    TimersAnnouncing(b, b1);
    RemoveAnnouncing(b1, b.timers[j].sid);
  }

  lemma DroppingAnnouncing(b: Bus, c: ConnId)
    requires WellFormed(b) && Announcing(b) && c in b.conns
    ensures WellFormed(Dropped(b, c)) && Announcing(Dropped(b, c))
  {
    DroppedGrows(b, c);
    QuietAnnouncing(b, Dropped(b, c));
  }

  lemma StepAnnouncing(b: Bus, a: Action)
    requires WellFormed(b) && Enabled(b, a) && Announcing(b) && FreshStep(b, a)
    ensures WellFormed(Next(b, a)) && Announcing(Next(b, a))
  {
    StepGrows(b, a);
    if IsCommand(a) {
      CommandAnnouncing(b, a);
    } else if IsSubscribing(a) {
      SubscribingAnnouncing(b, a);
    } else if IsTask(a) {
      TaskAnnouncing(b, a);
    } else {
      TimeAnnouncing(b, a);
    }
    QuietAnnouncing(Effect(b, a), Next(b, a));
  }

  lemma {:induction false} AnnouncingFrom(b: Bus, run: seq<Action>)
    requires WellFormed(b) && Announcing(b) && Feasible(b, run) && FreshRun(b, run)
    ensures Announcing(After(b, run))
    decreases |run|
  {
    if run != [] {
      StepAnnouncing(b, run[0]);
      AnnouncingFrom(Next(b, run[0]), run[1..]);
    }
  }

  // ----- Every run -----

  /** The announcement of a session appears at most once in what a subscription writes. */
  lemma AnnouncedOnce(run: seq<Action>, k: nat, p: nat, q: nat)
    requires Feasible(INITIAL, run) && FreshRun(INITIAL, run) && k < |After(INITIAL, run).subs|
    requires var s := After(INITIAL, run).subs[k];
             s.scope.Everything? && p < |s.out| && q < |s.out| && s.out[p].EventMsg? && s.out[q].EventMsg?
    requires var s := After(INITIAL, run).subs[k];
             s.out[p].event.SessionCreated? && s.out[q].event.SessionCreated?
             && s.out[p].event.sid == s.out[q].event.sid
    ensures p == q
  {
    AnnouncingFrom(INITIAL, run);
    var b := After(INITIAL, run);
    var s := b.subs[k];
    var e, e' := s.out[p].event, s.out[q].event;
    assert EventMsg(e) in s.out && EventMsg(e') in s.out;
    var n :| 0 <= n < |b.insts| && Roster(b)[n] == e;
    var n' :| 0 <= n' < |b.insts| && Roster(b)[n'] == e';
    assert n == n';
    assert Tokens(s, e, n) <= 1;
    if p != q {
      TwiceInMultiset(s.out, p, q);
    }
  }

  lemma TwiceInMultiset<T>(xs: seq<T>, p: nat, q: nat)
    requires p < |xs| && q < |xs| && p != q && xs[p] == xs[q]
    ensures multiset(xs)[xs[p]] >= 2
  {
    var i, j := if p < q then p else q, if p < q then q else p;
    assert xs == xs[..i] + [xs[i]] + xs[i + 1..j] + [xs[j]] + xs[j + 1..];
  }

  /**
   * Snapshot or event, never both and never neither: as long as its event queue has not
   * overflowed, a SubscribeAll listener has announced each live session, or owes it
   * exactly one announcement.
   */
  lemma EveryLiveSessionIsAnnounced(run: seq<Action>, k: nat, sid: SessionId)
    requires Feasible(INITIAL, run) && FreshRun(INITIAL, run) && k < |After(INITIAL, run).subs|
    requires After(INITIAL, run).subs[k].scope == Everything(None) && !After(INITIAL, run).subs[k].overrun
    requires sid in After(INITIAL, run).live
    ensures var b := After(INITIAL, run); var n := b.live[sid];
            Tokens(b.subs[k], SessionCreated(sid, b.insts[n].session.agent), n) == 1
  {
    AnnouncingFrom(INITIAL, run);
    var b := After(INITIAL, run);
    assert b.live[sid] in LiveInstances(b);
    assert Roster(b)[b.live[sid]] == SessionCreated(sid, b.insts[b.live[sid]].session.agent);
  }

  /** Nothing is pending: not announcing, not replaying, not forwarding, nothing lost. */
  predicate CaughtUp(s: Sub) {
    && !s.overrun && s.events == [] && s.fetched.None?
    && (forall i :: 0 <= i < |s.feeds| ==>
          s.feeds[i].stage.Live? && s.feeds[i].todo == [] && s.feeds[i].queue == [] && !s.feeds[i].lagged)
  }

  lemma CaughtUpHasFeed(b: Bus, k: nat, sid: SessionId) returns (i: nat)
    requires WellFormed(b) && Announcing(b) && k < |b.subs| && b.subs[k].scope == Everything(None)
    requires CaughtUp(b.subs[k]) && sid in b.live
    ensures i < |b.subs[k].feeds| && b.subs[k].feeds[i].inst == b.live[sid]
  {
    var s := b.subs[k];
    var n := b.live[sid];
    var e := Roster(b)[n];
    assert n in LiveInstances(b) && AnnounceOk(Roster(b), LiveInstances(b), s);
    assert Tokens(s, e, n) == 1;
    assert multiset(s.events)[e] == 0 && !Awaits(s.feeds, n);
    assert Announced(s, e);
    assert HasFeed(s.feeds, n);
    i :| 0 <= i < |s.feeds| && s.feeds[i].inst == n;
  }

  /**
   * A SubscribeAll client that has caught up holds, for every live session, exactly that
   * session's history, whatever was created, forked, deleted and published meanwhile.
   */
  lemma CaughtUpHoldsEverything(run: seq<Action>, k: nat, sid: SessionId)
    requires Feasible(INITIAL, run) && FreshRun(INITIAL, run) && k < |After(INITIAL, run).subs|
    requires After(INITIAL, run).subs[k].scope == Everything(None) && CaughtUp(After(INITIAL, run).subs[k])
    requires sid in After(INITIAL, run).live
    ensures var b := After(INITIAL, run);
            Replayed([], Projected(b.subs[k].out, sid)) == b.insts[b.live[sid]].session.history
  {
    AnnouncingFrom(INITIAL, run);
    DeliveryFrom(INITIAL, run);
    CaughtUpHolds(After(INITIAL, run), k, sid);
  }

  lemma CaughtUpHolds(b: Bus, k: nat, sid: SessionId)
    requires WellFormed(b) && Announcing(b) && Delivery(b) && k < |b.subs|
    requires b.subs[k].scope == Everything(None) && CaughtUp(b.subs[k]) && sid in b.live
    ensures Replayed([], Projected(b.subs[k].out, sid)) == b.insts[b.live[sid]].session.history
  {
    var i := CaughtUpHasFeed(b, k, sid);
    ProjectedIsSent(b, k, i);
    SentHoldsHistory(b, k, i);
  }

  lemma ProjectedIsSent(b: Bus, k: nat, i: nat)
    requires WellFormed(b) && Announcing(b) && k < |b.subs| && b.subs[k].scope.Everything? && i < |b.subs[k].feeds|
    ensures var f := b.subs[k].feeds[i]; Projected(b.subs[k].out, b.insts[f.inst].session.id) == f.sent
  {
    assert OutOk(Roster(b), b.subs[k]);
    assert Roster(b)[b.subs[k].feeds[i].inst].sid == b.insts[b.subs[k].feeds[i].inst].session.id;
  }

  lemma SentHoldsHistory(b: Bus, k: nat, i: nat)
    requires WellFormed(b) && Delivery(b) && k < |b.subs| && FilterOf(b.subs[k].scope).None? && i < |b.subs[k].feeds|
    requires var f := b.subs[k].feeds[i]; f.todo == [] && f.queue == [] && !f.lagged
    ensures var f := b.subs[k].feeds[i]; Replayed([], f.sent) == b.insts[f.inst].session.history
  {
    var f := b.subs[k].feeds[i];
    assert FeedOk(f, b.insts[f.inst], None) && InstanceOk(b.insts[f.inst]);
    DeliveredReplays(f, b.insts[f.inst]);
    assert f.sent + f.todo + f.queue == f.sent;
  }
}
