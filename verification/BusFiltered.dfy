/**
 * Which sessions a listener attaches, over all runs in which ids are not reused. It looks
 * at every session once, in its snapshot or after its creation event, and attaches it
 * exactly when the filter lets it through with the tags it has at that moment; and so a
 * filtered listener that has caught up holds exactly the matching part of what it let in.
 */
module BusFiltered {
  import opened Basics
  import opened Chunks
  import opened Sessions
  import opened Registry
  import opened Bus
  import opened BusDelivery
  import opened BusLifecycle
  import opened BusAnnounce
  import opened BusWire

  /** A listener's verdict on an instance it looked at. */
  predicate LetIn(roster: seq<Event>, s: Sub, n: nat)
    requires IsRoster(roster) && s.scope.Everything? && n < |roster|
  {
    n in s.seen && Fits(s.scope.filter, roster[n].sid, roster[n].agent, s.seen[n])
  }

  predicate Pending(s: Sub, e: Event) {
    e in s.events || s.fetched == Some(e)
  }

  /**
   * What was let in is attached and nothing else; what was looked at is not pending, and
   * what is live and was not looked at is.
   */
  predicate LooksOk(roster: seq<Event>, live: set<nat>, s: Sub)
    requires IsRoster(roster) && s.scope.Everything?
  {
    && (forall n :: n in s.seen ==> n < |roster|)
    && (forall n :: 0 <= n < |roster| ==> (HasFeed(s.feeds, n) <==> LetIn(roster, s, n)))
    && (forall n :: 0 <= n < |roster| && n in s.seen ==> !Pending(s, roster[n]))
    && (!s.overrun ==> forall n :: 0 <= n < |roster| && n in live && n !in s.seen ==> Pending(s, roster[n]))
  }

  // ----- One listener -----

  /** The same sessions attached, looked at and pending. */
  ghost predicate Steady(s: Sub, t: Sub) {
    && t.scope == s.scope && t.seen == s.seen && t.fetched == s.fetched && (s.overrun ==> t.overrun)
    && |t.feeds| == |s.feeds| && (forall i :: 0 <= i < |s.feeds| ==> t.feeds[i].inst == s.feeds[i].inst)
    && (forall e: Event :: e.SessionCreated? ==> (e in t.events <==> e in s.events))
  }

  lemma SteadyLooks(roster: seq<Event>, live: set<nat>, fewer: set<nat>, s: Sub, t: Sub)
    requires IsRoster(roster) && s.scope.Everything? && LooksOk(roster, live, s) && Steady(s, t) && fewer <= live
    ensures LooksOk(roster, fewer, t)
  {
    forall n ensures HasFeed(t.feeds, n) == HasFeed(s.feeds, n) {
      SameInsts(s.feeds, t.feeds, n);
    }
    forall n | 0 <= n < |roster| ensures Pending(t, roster[n]) == Pending(s, roster[n]) {
    }
  }

  lemma SameInsts(xs: seq<Feed>, ys: seq<Feed>, n: nat)
    requires |xs| == |ys| && forall i :: 0 <= i < |xs| ==> ys[i].inst == xs[i].inst
    ensures HasFeed(ys, n) == HasFeed(xs, n)
  {
    if HasFeed(xs, n) {
      var i :| 0 <= i < |xs| && xs[i].inst == n;
      assert ys[i].inst == n;
    }
    if HasFeed(ys, n) {
      var i :| 0 <= i < |ys| && ys[i].inst == n;
      assert xs[i].inst == n;
    }
  }

  lemma HearingIsSteady(s: Sub, e: Event)
    requires !e.SessionCreated?
    ensures Steady(s, Hear(s, e))
  {
  }

  /** A session created just now is pending, or its event was lost. */
  lemma CreatedLooks(roster: seq<Event>, live: set<nat>, s: Sub, e: Event)
    requires AnnounceOk(roster, live, s) && s.scope.Everything? && LooksOk(roster, live, s) && IsRoster(roster + [e])
    requires forall n :: n in live ==> n < |roster|
    ensures LooksOk(roster + [e], live + {|roster|}, Hear(s, e))
  {
    NothingKnown(roster, s, e);
    var longer, t := roster + [e], Hear(s, e);
    forall n | 0 <= n < |longer|
      ensures HasFeed(t.feeds, n) <==> LetIn(longer, t, n)
      ensures n in t.seen ==> !Pending(t, longer[n])
      ensures !t.overrun && n in live + {|roster|} && n !in t.seen ==> Pending(t, longer[n])
    {
      assert longer[n] == if n < |roster| then roster[n] else e;
      assert longer[|roster|] == e;
      assert n < |roster| ==> (LetIn(longer, t, n) <==> LetIn(roster, s, n));
    }
  }

  lemma TakenLooks(roster: seq<Event>, live: set<nat>, s: Sub)
    requires IsRoster(roster) && s.scope.Everything? && LooksOk(roster, live, s) && s.events != [] && s.fetched.None?
    ensures LooksOk(roster, live, EventTaken(s))
  {
    var t := EventTaken(s);
    var e := s.events[0];
    assert s.events == [e] + t.events;
    forall n | 0 <= n < |roster| ensures Pending(t, roster[n]) <==> Pending(s, roster[n]) {
    }
    assert forall n :: 0 <= n < |roster| ==> (LetIn(roster, t, n) <==> LetIn(roster, s, n));
  }

  /** A fetched event is not in the queue a second time. */
  lemma FetchedOnce(roster: seq<Event>, live: set<nat>, s: Sub, n: nat)
    requires AnnounceOk(roster, live, s) && s.scope.Everything? && n < |roster| && s.fetched == Some(roster[n])
    ensures roster[n] !in s.events && !HasFeed(s.feeds, n)
  {
    assert Tokens(s, roster[n], n) <= 1;
    if s.scope.filter.None? {
      assert Announced(s, roster[n]);
      assert multiset(s.out)[EventMsg(roster[n])] >= 1;
    }
    assert multiset(s.events)[roster[n]] == 0;
  }

  /** Looking at the fetched session: it is attached if it is let in. */
  lemma LookedLooks(roster: seq<Event>, live: set<nat>, s: Sub, n: nat, tags: seq<string>, t: Sub)
    requires AnnounceOk(roster, live, s) && s.scope.Everything? && LooksOk(roster, live, s)
    requires n < |roster| && s.fetched == Some(roster[n])
    requires t.scope == s.scope && t.events == s.events && t.overrun == s.overrun && t.fetched.None?
    requires t.seen == s.seen[n := tags]
    requires forall m :: HasFeed(t.feeds, m) <==> HasFeed(s.feeds, m) || (m == n && LetIn(roster, t, n))
    ensures LooksOk(roster, live, t)
  {
    FetchedOnce(roster, live, s, n);
    forall m | 0 <= m < |roster|
      ensures HasFeed(t.feeds, m) <==> LetIn(roster, t, m)
      ensures m != n ==> (Pending(t, roster[m]) <==> Pending(s, roster[m]))
    {
      assert m != n ==> roster[m] != roster[n] && (LetIn(roster, t, m) <==> LetIn(roster, s, m));
    }
  }

  /** The fetched session is gone: nothing to look at. */
  lemma GoneLooks(roster: seq<Event>, live: set<nat>, s: Sub, n: nat, t: Sub)
    requires IsRoster(roster) && s.scope.Everything? && LooksOk(roster, live, s)
    requires n < |roster| && s.fetched == Some(roster[n]) && n !in live
    requires t == s.(fetched := None)
    ensures LooksOk(roster, live, t)
  {
    forall m | 0 <= m < |roster|
      ensures LetIn(roster, t, m) <==> LetIn(roster, s, m)
      ensures m != n ==> (Pending(t, roster[m]) <==> Pending(s, roster[m]))
    {
      assert m != n ==> roster[m] != roster[n];
    }
  }

  // ----- One step of the bus -----

  ghost predicate Looking(b: Bus)
    requires WellFormed(b)
  {
    && Announcing(b)
    && (forall k :: 0 <= k < |b.subs| && b.subs[k].scope.Everything? ==>
          LooksOk(Roster(b), LiveInstances(b), b.subs[k]))
  }

  /** The steps that look at nothing and create nothing. */
  predicate Overlooks(b: Bus, a: Action)
    requires WellFormed(b) && Enabled(b, a)
  {
    && !a.TakeEvent? && !a.Attach?
    && (a.Create? ==> a.sid in b.live)
    && (a.Fork? ==> a.sid in b.live || a.parent !in b.live)
  }

  lemma PublishingIsSteady(b: Bus, n: nat, c: Chunk, k: nat)
    requires n < |b.insts| && k < |b.subs|
    ensures |PublishAt(b, n, c).subs| == |b.subs| && Steady(b.subs[k], PublishAt(b, n, c).subs[k])
  {
    assert PublishAt(b, n, c).subs[k] == b.subs[k].(feeds := Offer(b.subs[k].feeds, n, c));
  }

  lemma SetTagsSteady(b: Bus, a: Action, k: nat)
    requires WellFormed(b) && Enabled(b, a) && a.SetTags? && k < |b.subs|
    ensures |Effect(b, a).subs| == |b.subs| && Steady(b.subs[k], Effect(b, a).subs[k])
  {
    if a.sid in b.live {
      var b1 := PublishAt(b, b.live[a.sid], a.note);
      PublishingIsSteady(b, b.live[a.sid], a.note, k);
      assert Effect(b, a).subs[k] == Hear(b1.subs[k], TagsUpdated(a.sid, a.tags));
      HearingIsSteady(b1.subs[k], TagsUpdated(a.sid, a.tags));
    }
  }

  lemma CommandSteady(b: Bus, a: Action, k: nat)
    requires WellFormed(b) && Enabled(b, a) && IsCommand(a) && Overlooks(b, a) && k < |b.subs|
    ensures |Effect(b, a).subs| == |b.subs| && Steady(b.subs[k], Effect(b, a).subs[k])
  {
    if a.SetTags? {
      SetTagsSteady(b, a, k);
    } else if a.Delete? && a.sid in b.live {
      HearingIsSteady(b.subs[k], SessionDeleted(a.sid));
    } else if a.Publish? && Effect(b, a) != b {
      PublishingIsSteady(b, b.live[a.sid], Tagged(a), k);
    } else {
      assert Effect(b, a).subs[k] == b.subs[k];
    }
  }

  lemma TaskSteady(b: Bus, a: Action, k: nat)
    requires WellFormed(b) && Enabled(b, a) && IsTask(a) && Overlooks(b, a) && k < |b.subs|
    ensures |Effect(b, a).subs| == |b.subs| && Steady(b.subs[k], Effect(b, a).subs[k])
  {
    TaskShape(b, a);
    if a.sub == k {
      OwnTaskSteady(b, a);
    }
  }

  lemma OwnTaskSteady(b: Bus, a: Action)
    requires WellFormed(b) && Enabled(b, a) && IsTask(a) && Overlooks(b, a)
    ensures a.sub < |Effect(b, a).subs| && Steady(b.subs[a.sub], Effect(b, a).subs[a.sub])
  {
    var s := b.subs[a.sub];
    if IsFeedTask(a) {
      FeedTaskShape(b, a);
      var f := s.feeds[a.feed];
      MovingIsSteady(s, a.feed, FeedAfter(s, f, a), FeedOut(b.insts[f.inst].session.id, s, f, a));
    }
  }

  lemma MovingIsSteady(s: Sub, i: nat, f: Feed, written: seq<Msg>)
    requires i < |s.feeds| && f.inst == s.feeds[i].inst
    ensures Steady(s, WithFeed(s, i, f, written))
  {
  }

  lemma {:induction false} CleanupSteady(b: Bus, c: ConnId, sids: seq<SessionId>, k: nat)
    requires WellFormed(b) && k < |b.subs|
    ensures |Cleanup(b, c, sids).subs| == |b.subs| && Steady(b.subs[k], Cleanup(b, c, sids).subs[k])
    decreases |sids|
  {
    if sids != [] {
      var b1 := Depart(b, c, sids[0]);
      DepartWellFormed(b, c, sids[0]);
      HearingIsSteady(b.subs[k], SessionDeleted(sids[0]));
      assert b1.subs[k] == b.subs[k] || b1.subs[k] == Hear(b.subs[k], SessionDeleted(sids[0]));
      CleanupSteady(b1, c, sids[1..], k);
    }
  }

  lemma TimeSteady(b: Bus, a: Action, k: nat)
    requires WellFormed(b) && Enabled(b, a) && (a.Advance? || a.Fire? || a.Disconnect?) && k < |b.subs|
    ensures |Effect(b, a).subs| == |b.subs| && Steady(b.subs[k], Effect(b, a).subs[k])
  {
    if a.Disconnect? {
      DroppedGrows(b, a.conn);
      CleanupSteady(Dropped(b, a.conn), a.conn, b.conns[a.conn].tracked, k);
    } else if a.Fire? {
      HearingIsSteady(b.subs[k], SessionDeleted(b.timers[a.timer].sid));
    }
  }

  lemma OldListenerSteady(b: Bus, a: Action, k: nat)
    requires WellFormed(b) && Enabled(b, a) && Overlooks(b, a) && k < |b.subs|
    ensures k < |Next(b, a).subs| && Steady(b.subs[k], Next(b, a).subs[k])
  {
    if IsCommand(a) {
      CommandSteady(b, a, k);
    } else if IsTask(a) {
      TaskSteady(b, a, k);
    } else if !IsSubscribing(a) {
      TimeSteady(b, a, k);
    }
  }

  /** Without a new instance the roster stays and no other session becomes live. */
  lemma SameRoster(b: Bus, b': Bus)
    requires WellFormed(b) && WellFormed(b') && Grows(b, b') && |b'.insts| == |b.insts|
    ensures Roster(b') == Roster(b) && LiveInstances(b') <= LiveInstances(b)
  {
    forall n | 0 <= n < |b.insts| ensures Roster(b')[n] == Roster(b)[n] {
      assert InstanceGrows(b.insts[n], b'.insts[n]);
    }
    forall n | n in LiveInstances(b') ensures n in LiveInstances(b) {
      var sid :| sid in b'.live && b'.live[sid] == n;
      assert b'.live[sid] < |b.insts|;
    }
  }

  lemma OverlooksMakesNothing(b: Bus, a: Action)
    requires WellFormed(b) && Enabled(b, a) && Overlooks(b, a)
    ensures |Next(b, a).insts| == |b.insts|
  {
    StepGrows(b, a);
    NewInstanceIsAsked(b, a);
  }

  /** A new listener has looked at every live session. */
  lemma SnapshotLooks(b: Bus, a: Action, s: Sub)
    requires WellFormed(b) && Announcing(b) && a.SubscribeAll? && Enabled(b, a)
    requires s == DoSubscribeAll(b, a.conn, a.filter, a.chosen).subs[|b.subs|]
    ensures LooksOk(Roster(b), LiveInstances(b), s)
  {
    forall n | 0 <= n < |b.insts|
      ensures n in s.seen <==> n in LiveInstances(b)
      ensures HasFeed(s.feeds, n) <==> LetIn(Roster(b), s, n)
    {
      SnapshotLists(b, a, s, n);
      if n in b.live.Values {
        var sid :| sid in b.live && b.live[sid] == n;
      }
    }
  }

  lemma OverlookingStep(b: Bus, a: Action)
    requires WellFormed(b) && Enabled(b, a) && Looking(b) && FreshStep(b, a) && Overlooks(b, a)
    ensures WellFormed(Next(b, a)) && Looking(Next(b, a))
  {
    StepAnnouncing(b, a);
    StepGrows(b, a);
    OverlooksMakesNothing(b, a);
    var b' := Next(b, a);
    SameRoster(b, b');
    forall k | 0 <= k < |b'.subs| && b'.subs[k].scope.Everything?
      ensures LooksOk(Roster(b'), LiveInstances(b'), b'.subs[k])
    {
      if k < |b.subs| {
        OldListenerSteady(b, a, k);
        SteadyLooks(Roster(b), LiveInstances(b), LiveInstances(b'), b.subs[k], b'.subs[k]);
      } else {
        NewListenerLooks(b, a, k);
      }
    }
  }

  lemma NewListenerLooks(b: Bus, a: Action, k: nat)
    requires WellFormed(b) && Enabled(b, a) && Looking(b) && Overlooks(b, a)
    requires |b.subs| <= k < |Next(b, a).subs| && Next(b, a).subs[k].scope.Everything? && WellFormed(Next(b, a))
    requires Roster(Next(b, a)) == Roster(b)
    ensures LooksOk(Roster(b), LiveInstances(Next(b, a)), Next(b, a).subs[k])
  {
    if !IsSubscribing(a) {
      OldSubsOnly(b, a);
    } else {
      SnapshotLooks(b, a, Next(b, a).subs[k]);
      assert Next(b, a).live == b.live;
    }
  }

  lemma OldSubsOnly(b: Bus, a: Action)
    requires WellFormed(b) && Enabled(b, a) && !IsSubscribing(a)
    ensures |Next(b, a).subs| == |b.subs|
  {
    if IsTask(a) {
      TaskShape(b, a);
    } else if a.Disconnect? {
      CleanupKeepsWriters(Dropped(b, a.conn), a.conn, b.conns[a.conn].tracked);
    }
  }

  /** What a create or a fork does to the listeners. */
  lemma CreatingHears(b: Bus, a: Action)
    requires WellFormed(b) && Enabled(b, a) && Announcing(b) && FreshStep(b, a) && (a.Create? || a.Fork?) && !Overlooks(b, a)
    ensures var b' := Next(b, a);
            WellFormed(b') && |b'.insts| == |b.insts| + 1 && |b'.subs| == |b.subs|
            && var e := Roster(b')[|b.insts|];
               && Roster(b') == Roster(b) + [e] && LiveInstances(b') == LiveInstances(b) + {|b.insts|}
               && e.SessionCreated? && forall k :: 0 <= k < |b.subs| ==> b'.subs[k] == Hear(b.subs[k], e)
  {
    StepGrows(b, a);
    if a.Create? {
      InsertedRoster(b, NewSession(a.sid, a.agent).(ephemeral := a.ephemeral, tags := a.tags, history := a.initial));
    } else {
      var n := b.live[a.parent];
      var s := b.insts[n].session;
      SessionAnnouncing(b, n, Pruned(s, b.now));
      var b1 := WithSession(b, n, Pruned(s, b.now));
      SameRoster1(b, b1);
      InsertedRoster(b1, Forked(s, a.sid, b.now, Provenance(a.provenanceId, a.parent)));
    }
    SameRoster1(Effect(b, a), Next(b, a));
  }

  lemma SameRoster1(b: Bus, b': Bus)
    requires WellFormed(b) && WellFormed(b') && b'.live == b.live && |b'.insts| == |b.insts|
    requires forall n :: 0 <= n < |b.insts| ==>
      b'.insts[n].session.id == b.insts[n].session.id && b'.insts[n].session.agent == b.insts[n].session.agent
    ensures Roster(b') == Roster(b) && LiveInstances(b') == LiveInstances(b)
  {
  }

  lemma CreatingStep(b: Bus, a: Action)
    requires WellFormed(b) && Enabled(b, a) && Looking(b) && FreshStep(b, a) && (a.Create? || a.Fork?) && !Overlooks(b, a)
    ensures WellFormed(Next(b, a)) && Looking(Next(b, a))
  {
    StepAnnouncing(b, a);
    CreatingHears(b, a);
    var b' := Next(b, a);
    forall k | 0 <= k < |b'.subs| && b'.subs[k].scope.Everything?
      ensures LooksOk(Roster(b'), LiveInstances(b'), b'.subs[k])
    {
      CreatedLooks(Roster(b), LiveInstances(b), b.subs[k], Roster(b')[|b.insts|]);
    }
  }

  /** A look at a live session, given what the lookup does to the listener. */
  lemma LiveLooks(b: Bus, k: nat, n: nat, t: Sub)
    requires WellFormed(b) && Looking(b) && k < |b.subs| && b.subs[k].scope.Everything?
    requires n < |b.insts| && b.subs[k].fetched == Some(Roster(b)[n])
    requires t == b.subs[k].(fetched := None, feeds := t.feeds, seen := b.subs[k].seen[n := b.insts[n].session.tags])
    requires if SessionMatches(b.insts[n].session, b.subs[k].scope.filter)
             then |t.feeds| == |b.subs[k].feeds| + 1 && t.feeds[..|b.subs[k].feeds|] == b.subs[k].feeds && t.feeds[|b.subs[k].feeds|].inst == n
             else t.feeds == b.subs[k].feeds
    ensures LooksOk(Roster(b), LiveInstances(b), t)
  {
    var s := b.subs[k];
    assert SessionMatches(b.insts[n].session, s.scope.filter) <==> LetIn(Roster(b), t, n);
    if |t.feeds| > |s.feeds| {
      assert t.feeds == s.feeds + [t.feeds[|s.feeds|]];
      forall m ensures HasFeed(t.feeds, m) <==> HasFeed(s.feeds, m) || m == n {
        StandingAfterAttach(s.feeds, t.feeds[|s.feeds|], m);
      }
    }
    LookedLooks(Roster(b), LiveInstances(b), s, n, b.insts[n].session.tags, t);
  }

  lemma AttachingLooks(b: Bus, k: nat, t: Sub)
    requires WellFormed(b) && Enabled(b, Attach(k)) && Looking(b) && t == DoAttach(b, k).subs[k]
    ensures LooksOk(Roster(b), LiveInstances(b), t)
  {
    var s := b.subs[k];
    var n := FetchedInstance(b, k);
    ListenerAttaches(b, k);
    if s.fetched.value.sid in b.live {
      LiveLooks(b, k, n, t);
    } else {
      GoneLooks(Roster(b), LiveInstances(b), s, n, t);
    }
  }

  lemma LookingStep(b: Bus, a: Action)
    requires WellFormed(b) && Enabled(b, a) && Looking(b) && (a.TakeEvent? || a.Attach?)
    ensures WellFormed(Next(b, a)) && Looking(Next(b, a))
  {
    StepGrows(b, a);
    StepAnnouncing(b, a);
    TaskShape(b, a);
    var b' := Next(b, a);
    NewInstanceIsAsked(b, a);
    SameRoster(b, b');
    assert b'.live == b.live;
    if a.Attach? {
      assert Effect(b, a) == DoAttach(b, a.sub);
      AttachingLooks(b, a.sub, b'.subs[a.sub]);
    } else {
      TakenLooks(Roster(b), LiveInstances(b), b.subs[a.sub]);
    }
    forall k | 0 <= k < |b'.subs| && b'.subs[k].scope.Everything?
      ensures LooksOk(Roster(b'), LiveInstances(b'), b'.subs[k])
    {
      assert k != a.sub ==> b'.subs[k] == b.subs[k];
    }
  }

  lemma StepLooking(b: Bus, a: Action)
    requires WellFormed(b) && Enabled(b, a) && Looking(b) && FreshStep(b, a)
    ensures WellFormed(Next(b, a)) && Looking(Next(b, a))
  {
    if a.TakeEvent? || a.Attach? {
      LookingStep(b, a);
    } else if Overlooks(b, a) {
      OverlookingStep(b, a);
    } else {
      CreatingStep(b, a);
    }
  }

  lemma {:induction false} LookingFrom(b: Bus, run: seq<Action>)
    requires WellFormed(b) && Looking(b) && Feasible(b, run) && FreshRun(b, run)
    ensures Looking(After(b, run))
    decreases |run|
  {
    if run != [] {
      StepLooking(b, run[0]);
      LookingFrom(Next(b, run[0]), run[1..]);
    }
  }

  // ----- Every run -----

  /** The listener let instance `n` in: the filter fits the tags it had when it was looked at. */
  predicate LetInAs(b: Bus, k: nat, n: nat)
    requires k < |b.subs| && b.subs[k].scope.Everything? && n < |b.insts|
  {
    n in b.subs[k].seen
    && Fits(b.subs[k].scope.filter, b.insts[n].session.id, b.insts[n].session.agent, b.subs[k].seen[n])
  }

  /**
   * A listener attached exactly the sessions that its filter let in when it looked at
   * them, and the others never.
   */
  lemma AttachedIffLetIn(run: seq<Action>, k: nat, n: nat)
    requires Feasible(INITIAL, run) && FreshRun(INITIAL, run) && k < |After(INITIAL, run).subs|
    requires After(INITIAL, run).subs[k].scope.Everything? && n < |After(INITIAL, run).insts|
    ensures var b := After(INITIAL, run); HasFeed(b.subs[k].feeds, n) <==> LetInAs(b, k, n)
  {
    LookingFrom(INITIAL, run);
    AttachedAsLetIn(After(INITIAL, run), k, n);
  }

  lemma AttachedAsLetIn(b: Bus, k: nat, n: nat)
    requires WellFormed(b) && Looking(b) && k < |b.subs| && b.subs[k].scope.Everything? && n < |b.insts|
    ensures HasFeed(b.subs[k].feeds, n) <==> LetInAs(b, k, n)
  {
    assert LooksOk(Roster(b), LiveInstances(b), b.subs[k]);
    assert LetIn(Roster(b), b.subs[k], n) <==> LetInAs(b, k, n);
  }

  /**
   * Until its event queue overflows a listener, filtered or not, has looked at each live
   * session or is about to, and never both.
   */
  lemma EveryLiveSessionIsLookedAt(run: seq<Action>, k: nat, sid: SessionId)
    requires Feasible(INITIAL, run) && FreshRun(INITIAL, run) && k < |After(INITIAL, run).subs|
    requires After(INITIAL, run).subs[k].scope.Everything? && !After(INITIAL, run).subs[k].overrun
    requires sid in After(INITIAL, run).live
    ensures var b := After(INITIAL, run);
            var n := b.live[sid];
            n in b.subs[k].seen <==> !Pending(b.subs[k], SessionCreated(sid, b.insts[n].session.agent))
  {
    LookingFrom(INITIAL, run);
    var b := After(INITIAL, run);
    assert b.live[sid] in LiveInstances(b);
    assert Roster(b)[b.live[sid]] == SessionCreated(sid, b.insts[b.live[sid]].session.agent);
  }

  /** No chunk of a session that is not attached is ever written. */
  lemma UnattachedIsSilent(b: Bus, k: nat, n: nat)
    requires WellFormed(b) && Announcing(b) && k < |b.subs| && b.subs[k].scope.Everything?
    requires n < |b.insts| && !HasFeed(b.subs[k].feeds, n)
    ensures Projected(b.subs[k].out, b.insts[n].session.id) == []
  {
    var s, roster := b.subs[k], Roster(b);
    assert OutOk(roster, s) && roster[n].sid == b.insts[n].session.id;
    forall p | 0 <= p < |s.out| && s.out[p].ChunkMsg? ensures s.out[p].sid != roster[n].sid {
      var i :| 0 <= i < |s.feeds| && s.feeds[i].inst < |roster| && roster[s.feeds[i].inst].sid == s.out[p].sid;
      assert s.feeds[i].inst != n;
    }
    ProjectedEmpty(s.out, roster[n].sid);
  }

  /** The session's share of what a caught-up listener wrote, for some snapshot of that session. */
  ghost predicate HoldsMatching(b: Bus, k: nat, n: nat)
    requires WellFormed(b) && k < |b.subs| && b.subs[k].scope.Everything? && n < |b.insts|
  {
    exists i :: 0 <= i < |b.subs[k].feeds| && b.subs[k].feeds[i].inst == n && b.subs[k].feeds[i].from <= |b.insts[n].log|
      && Projected(WrittenBy(b, k), b.insts[n].session.id)
         == Filter(OwedTo(b.subs[k].feeds[i], b.insts[n]), Wanted(b.subs[k].scope.filter))
  }

  /**
   * A filtered client that has caught up has looked at every live session, and holds for
   * each it let in exactly the matching chunks of its history then and of all published
   * since, and for each other one nothing.
   */
  lemma CaughtUpHoldsMatching(run: seq<Action>, k: nat, sid: SessionId)
    requires Feasible(INITIAL, run) && FreshRun(INITIAL, run) && k < |After(INITIAL, run).subs|
    requires After(INITIAL, run).subs[k].scope.Everything? && CaughtUp(After(INITIAL, run).subs[k])
    requires sid in After(INITIAL, run).live
    ensures var b := After(INITIAL, run);
            var n := b.live[sid];
            && n in b.subs[k].seen
            && (if LetInAs(b, k, n) then HoldsMatching(b, k, n) else Projected(WrittenBy(b, k), sid) == [])
  {
    var b := After(INITIAL, run);
    var n := b.live[sid];
    LookingFrom(INITIAL, run);
    WireFrom(INITIAL, run);
    DeliveryFrom(INITIAL, run);
    EveryLiveSessionIsLookedAt(run, k, sid);
    AttachedAsLetIn(b, k, n);
    if HasFeed(b.subs[k].feeds, n) {
      AttachedHoldsMatching(b, k, n);
    } else {
      UnattachedIsSilent(b, k, n);
    }
  }

  lemma AttachedHoldsMatching(b: Bus, k: nat, n: nat)
    requires WellFormed(b) && Announcing(b) && WireOk(b) && Delivery(b)
    requires k < |b.subs| && b.subs[k].scope.Everything? && CaughtUp(b.subs[k]) && n < |b.insts|
    requires HasFeed(b.subs[k].feeds, n)
    ensures HoldsMatching(b, k, n)
  {
    var s := b.subs[k];
    var i :| 0 <= i < |s.feeds| && s.feeds[i].inst == n;
    var f := s.feeds[i];
    assert FeedOk(f, b.insts[n], s.scope.filter) && WrittenBy(b, k) == s.out;
    ProjectedIsSent(b, k, i);
    assert f.todo + f.queue == [] && f.sent + [] == f.sent;
  }

  // ----- When the tags do not matter, or do not change -----

  /**
   * Of a session a listener looked at: it is attached exactly when it matches now, exactly
   * when the filter's verdict on the tags it had then is its verdict on those it has now.
   */
  lemma AttachedIffMatches(run: seq<Action>, k: nat, n: nat)
    requires Feasible(INITIAL, run) && FreshRun(INITIAL, run) && k < |After(INITIAL, run).subs|
    requires After(INITIAL, run).subs[k].scope.Everything? && n < |After(INITIAL, run).insts|
    requires n in After(INITIAL, run).subs[k].seen
    ensures var b := After(INITIAL, run);
            var s, t := b.subs[k], b.insts[n].session;
            (HasFeed(s.feeds, n) <==> SessionMatches(t, s.scope.filter))
            <==> (Fits(s.scope.filter, t.id, t.agent, s.seen[n]) <==> Fits(s.scope.filter, t.id, t.agent, t.tags))
  {
    AttachedIffLetIn(run, k, n);
  }

  /** A filter that asks for no tags gives the same verdict now as then. */
  lemma WithoutTagsVerdictsStay(b: Bus, k: nat, n: nat)
    requires k < |b.subs| && b.subs[k].scope.Everything? && n < |b.insts| && n in b.subs[k].seen
    requires b.subs[k].scope.filter.Some? ==>
      b.subs[k].scope.filter.value.tags.None? && b.subs[k].scope.filter.value.tagsExclude.None?
    ensures LetInAs(b, k, n) <==> SessionMatches(b.insts[n].session, b.subs[k].scope.filter)
  {
  }

  lemma {:induction false} CleanupKeepsTags(b: Bus, c: ConnId, sids: seq<SessionId>)
    requires WellFormed(b)
    ensures |Cleanup(b, c, sids).insts| == |b.insts|
    ensures forall n :: 0 <= n < |b.insts| ==> Cleanup(b, c, sids).insts[n].session.tags == b.insts[n].session.tags
    decreases |sids|
  {
    if sids != [] {
      DepartWellFormed(b, c, sids[0]);
      CleanupKeepsTags(Depart(b, c, sids[0]), c, sids[1..]);
    }
  }

  predicate SameTags(b: Bus, b': Bus, n: nat)
    requires n < |b.insts|
  {
    n < |b'.insts| && b'.insts[n].session.tags == b.insts[n].session.tags
  }

  lemma CommandKeepsTags(b: Bus, a: Action, n: nat)
    requires WellFormed(b) && Enabled(b, a) && IsCommand(a) && n < |b.insts|
    requires a.SetTags? ==> a.sid != b.insts[n].session.id
    ensures SameTags(b, Effect(b, a), n)
  {
    if a.SetTags? {
      SetTagsKeepsOtherTags(b, a, n);
    }
  }

  lemma SetTagsKeepsOtherTags(b: Bus, a: Action, n: nat)
    requires WellFormed(b) && Enabled(b, a) && a.SetTags? && n < |b.insts| && a.sid != b.insts[n].session.id
    ensures SameTags(b, Effect(b, a), n)
  {
    if a.sid in b.live {
      assert b.live[a.sid] != n;
    }
  }

  lemma TaskKeepsTags(b: Bus, a: Action, n: nat)
    requires WellFormed(b) && Enabled(b, a) && IsTask(a) && n < |b.insts|
    ensures SameTags(b, Effect(b, a), n)
  {
    if IsFeedTask(a) {
      FeedTaskShape(b, a);
    } else if a.Attach? {
      AttachKeepsTags(b, a.sub, n);
      AttachShape(b, a);
    }
  }

  lemma AttachKeepsTags(b: Bus, k: nat, n: nat)
    requires WellFormed(b) && Enabled(b, Attach(k)) && n < |b.insts|
    ensures SameTags(b, DoAttach(b, k), n)
  {
  }

  lemma TagsStay(b: Bus, a: Action, n: nat)
    requires WellFormed(b) && Enabled(b, a) && n < |b.insts|
    requires a.SetTags? ==> a.sid != b.insts[n].session.id
    ensures SameTags(b, Effect(b, a), n)
  {
    if IsCommand(a) {
      CommandKeepsTags(b, a, n);
    } else if IsTask(a) {
      TaskKeepsTags(b, a, n);
    } else if a.Disconnect? {
      DroppedGrows(b, a.conn);
      CleanupKeepsTags(Dropped(b, a.conn), a.conn, b.conns[a.conn].tracked);
    }
  }

  /** Only looking at a session changes what a listener has seen. */
  lemma SeenStaysOtherwise(b: Bus, a: Action, k: nat)
    requires WellFormed(b) && Enabled(b, a) && !(a.Attach? && a.sub == k) && k < |b.subs|
    ensures k < |Next(b, a).subs| && Next(b, a).subs[k].seen == b.subs[k].seen
  {
    if a.Attach? || a.TakeEvent? {
      TaskShape(b, a);
    } else if Overlooks(b, a) {
      OldListenerSteady(b, a, k);
    } else {
      CreatingSeesNothing(b, a, k);
    }
  }

  lemma CreatingSeesNothing(b: Bus, a: Action, k: nat)
    requires WellFormed(b) && Enabled(b, a) && (a.Create? || a.Fork?) && k < |b.subs|
    ensures k < |Effect(b, a).subs| && Effect(b, a).subs[k].seen == b.subs[k].seen
  {
  }

  /** What was seen of instance `n` is what it is. */
  predicate SawNow(b: Bus, s: Sub, n: nat)
    requires n in s.seen
  {
    n < |b.insts| && s.seen[n] == b.insts[n].session.tags
  }

  /** What listener `k` saw of instance `n` is what it is, if it has that id. */
  predicate SeenRight(b: Bus, sid: SessionId, k: nat, n: nat)
    requires k < |b.subs| && n in b.subs[k].seen
  {
    n < |b.insts| && (b.insts[n].session.id == sid ==> SawNow(b, b.subs[k], n))
  }

  predicate SeenStays(b: Bus, sid: SessionId) {
    forall k, n :: 0 <= k < |b.subs| && n in b.subs[k].seen ==> SeenRight(b, sid, k, n)
  }

  lemma NewListenerSees(b: Bus, a: Action, k: nat, n: nat)
    requires WellFormed(b) && Enabled(b, a) && |b.subs| <= k < |Next(b, a).subs| && n in Next(b, a).subs[k].seen
    ensures SawNow(b, Next(b, a).subs[k], n)
  {
    if !IsSubscribing(a) {
      OldSubsOnly(b, a);
    }
  }

  lemma AttachSees(b: Bus, k: nat, n: nat)
    requires WellFormed(b) && Enabled(b, Attach(k)) && n in Looked(b, k)
    ensures (n in b.subs[k].seen && Looked(b, k)[n] == b.subs[k].seen[n])
            || (n < |b.insts| && Looked(b, k)[n] == b.insts[n].session.tags)
  {
  }

  /** A listener sees nothing but current tags. */
  lemma SeenStep(b: Bus, a: Action, k: nat, n: nat)
    requires WellFormed(b) && Enabled(b, a) && k < |Next(b, a).subs| && n in Next(b, a).subs[k].seen
    ensures (k < |b.subs| && n in b.subs[k].seen && Next(b, a).subs[k].seen[n] == b.subs[k].seen[n])
            || SawNow(b, Next(b, a).subs[k], n)
  {
    if k >= |b.subs| {
      NewListenerSees(b, a, k, n);
    } else if a.Attach? && a.sub == k {
      AttachShape(b, a);
      ListenerAttaches(b, k);
      AttachSees(b, k, n);
    } else {
      SeenStaysOtherwise(b, a, k);
    }
  }

  lemma SeenStaysStep(b: Bus, a: Action, sid: SessionId)
    requires WellFormed(b) && Enabled(b, a) && SeenStays(b, sid) && (a.SetTags? ==> a.sid != sid)
    ensures WellFormed(Next(b, a)) && SeenStays(Next(b, a), sid)
  {
    StepGrows(b, a);
    forall k, n | 0 <= k < |Next(b, a).subs| && n in Next(b, a).subs[k].seen ensures SeenRight(Next(b, a), sid, k, n) {
      SeenStaysAt(b, a, sid, k, n);
    }
  }

  lemma SeenStaysAt(b: Bus, a: Action, sid: SessionId, k: nat, n: nat)
    requires WellFormed(b) && Enabled(b, a) && SeenStays(b, sid) && (a.SetTags? ==> a.sid != sid)
    requires Grows(b, Next(b, a)) && k < |Next(b, a).subs| && n in Next(b, a).subs[k].seen
    ensures SeenRight(Next(b, a), sid, k, n)
  {
    if k < |b.subs| && n in b.subs[k].seen {
      assert SeenRight(b, sid, k, n);
    }
    SeenStep(b, a, k, n);
    SeenStaysOne(b, a, sid, Next(b, a).subs[k], n);
  }

  lemma SeenStaysOne(b: Bus, a: Action, sid: SessionId, s: Sub, n: nat)
    requires WellFormed(b) && Enabled(b, a) && Grows(b, Next(b, a)) && (a.SetTags? ==> a.sid != sid)
    requires n in s.seen && n < |b.insts| && (b.insts[n].session.id == sid ==> SawNow(b, s, n))
    ensures n < |Next(b, a).insts| && (Next(b, a).insts[n].session.id == sid ==> SawNow(Next(b, a), s, n))
  {
    assert InstanceGrows(b.insts[n], Next(b, a).insts[n]);
    if b.insts[n].session.id == sid {
      TagsStay(b, a, n);
    }
  }

  lemma {:induction false} SeenStaysFrom(b: Bus, run: seq<Action>, sid: SessionId)
    requires WellFormed(b) && Feasible(b, run) && SeenStays(b, sid)
    requires forall i :: 0 <= i < |run| ==> !(run[i].SetTags? && run[i].sid == sid)
    ensures SeenStays(After(b, run), sid)
    decreases |run|
  {
    if run != [] {
      SeenStaysStep(b, run[0], sid);
      SeenStaysFrom(Next(b, run[0]), run[1..], sid);
    }
  }

  /**
   * A filtered client that has caught up holds exactly the matching part of every live
   * session that matches its filter, and nothing of the others, when the tags of the
   * session were left as they were created or the filter does not ask for tags.
   */
  lemma CaughtUpHoldsWhatMatches(run: seq<Action>, k: nat, sid: SessionId)
    requires Feasible(INITIAL, run) && FreshRun(INITIAL, run) && k < |After(INITIAL, run).subs|
    requires After(INITIAL, run).subs[k].scope.Everything? && CaughtUp(After(INITIAL, run).subs[k])
    requires sid in After(INITIAL, run).live
    requires var filter := After(INITIAL, run).subs[k].scope.filter;
             || (forall i :: 0 <= i < |run| ==> !(run[i].SetTags? && run[i].sid == sid))
             || (filter.Some? ==> filter.value.tags.None? && filter.value.tagsExclude.None?)
    ensures var b := After(INITIAL, run);
            var n := b.live[sid];
            if SessionMatches(b.insts[n].session, b.subs[k].scope.filter) then HoldsMatching(b, k, n)
            else Projected(WrittenBy(b, k), sid) == []
  {
    CaughtUpHoldsMatching(run, k, sid);
    var b := After(INITIAL, run);
    var filter := b.subs[k].scope.filter;
    if filter.Some? ==> filter.value.tags.None? && filter.value.tagsExclude.None? {
      WithoutTagsVerdictsStay(b, k, b.live[sid]);
    } else {
      SeenStaysFrom(INITIAL, run, sid);
    }
  }
}
