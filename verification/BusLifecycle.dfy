/**
 * The lifecycle of ephemeral sessions over all runs: what cleanup and timers may remove,
 * that an abandoned session always has a timer pending in time, and which subscribers
 * the cleanup after a disconnect reaches.
 */
module BusLifecycle {
  import opened Basics
  import opened Chunks
  import opened Sessions
  import opened Registry
  import opened Bus

  function SessionOf(b: Bus, sid: SessionId): Session
    requires WellFormed(b) && sid in b.live
  {
    b.insts[b.live[sid]].session
  }

  predicate HasTimer(timers: seq<Timer>, sid: SessionId, latest: Instant) {
    exists j :: 0 <= j < |timers| && timers[j].sid == sid && timers[j].due <= latest
  }

  function Keepalive(s: Session): nat
    requires s.ephemeral.Some?
  {
    s.ephemeral.value.keepaliveSecs * SECOND
  }

  /** Every ephemeral session whose counted number fell to zero has a timer due in time. */
  predicate Covered(b: Bus)
    requires WellFormed(b)
  {
    forall sid :: sid in b.live && SessionOf(b, sid).ephemeral.Some? && b.live[sid] in b.emptied ==>
      HasTimer(b.timers, sid, b.emptied[b.live[sid]] + Keepalive(SessionOf(b, sid)))
  }

  /** What the history variable records. */
  predicate EmptiedOk(b: Bus) {
    forall n :: n in b.emptied ==>
      n < |b.insts| && Counted(b.insts[n].session) == {} && b.emptied[n] <= b.now
  }

  // ----- Which steps touch subscribers and timers -----

  predicate SameSubscribers(b: Bus, b': Bus) {
    && |b.insts| <= |b'.insts|
    && (forall n :: 0 <= n < |b.insts| ==>
          b'.insts[n].session.subscribers == b.insts[n].session.subscribers
          && b'.insts[n].session.ephemeral == b.insts[n].session.ephemeral)
    && (forall n :: |b.insts| <= n < |b'.insts| ==> b'.insts[n].session.subscribers == map[])
    && b'.timers == b.timers && b'.now == b.now && b'.emptied == b.emptied
  }

  lemma CommandsKeepSubscribers(b: Bus, a: Action)
    requires WellFormed(b) && Enabled(b, a) && IsCommand(a)
    ensures SameSubscribers(b, Effect(b, a))
  {
    if a.Fork? {
      ForkKeepsSubscribers(b, a);
    } else if a.SetTags? {
      SetTagsKeepsSubscribers(b, a);
    } else if a.Publish? {
    } else if a.Create? {
    }
  }

  lemma ForkKeepsSubscribers(b: Bus, a: Action)
    requires WellFormed(b) && Enabled(b, a) && a.Fork?
    ensures SameSubscribers(b, Effect(b, a))
  {
  }

  lemma SetTagsKeepsSubscribers(b: Bus, a: Action)
    requires WellFormed(b) && Enabled(b, a) && a.SetTags?
    ensures SameSubscribers(b, Effect(b, a))
  {
  }

  lemma SubscribeAllKeepsSubscribers(b: Bus, a: Action)
    requires WellFormed(b) && Enabled(b, a) && a.SubscribeAll?
    ensures SameSubscribers(b, Effect(b, a))
  {
  }

  lemma TasksKeepSubscribers(b: Bus, a: Action)
    requires WellFormed(b) && Enabled(b, a) && IsTask(a)
    ensures SameSubscribers(b, Effect(b, a))
  {
    if IsFeedTask(a) {
      FeedTaskShape(b, a);
    } else if a.Attach? {
      AttachKeepsSubscribers(b, a.sub);
      AttachShape(b, a);
    }
  }

  lemma AttachKeepsSubscribers(b: Bus, k: nat)
    requires WellFormed(b) && Enabled(b, Attach(k))
    ensures SameSubscribers(b, DoAttach(b, k))
  {
  }

  /** The steps that neither subscribe, depart nor keep time. */
  predicate IsBystander(a: Action) {
    IsCommand(a) || a.SubscribeAll? || IsTask(a)
  }

  lemma BystandersKeepSubscribers(b: Bus, a: Action)
    requires WellFormed(b) && Enabled(b, a) && IsBystander(a)
    ensures SameSubscribers(b, Effect(b, a))
  {
    if IsCommand(a) {
      CommandsKeepSubscribers(b, a);
    } else if a.SubscribeAll? {
      SubscribeAllKeepsSubscribers(b, a);
    } else {
      TasksKeepSubscribers(b, a);
    }
  }

  // ----- The cleanup after a disconnect -----

  /** What cleaning up after `c` has done to one session by the time the bus is `b'`. */
  predicate Handled(b: Bus, c: ConnId, b': Bus, sid: SessionId)
    requires WellFormed(b) && WellFormed(b') && sid in b.live
  {
    var s := SessionOf(b, sid);
    if sid !in b'.live then Abandons(s, c)
    else
      var s' := SessionOf(b', sid);
      && b'.live[sid] == b.live[sid]
      && (s' == s || s' == Left(s, c))
      && (Abandons(s, c) && s' == Left(s, c) ==> HasTimer(b'.timers, sid, b.now + Keepalive(s)))
  }

  /** A timer is started only for a session that `c` abandons. */
  predicate TimerIsDue(b: Bus, c: ConnId, t: Timer)
    requires WellFormed(b)
  {
    t.sid in b.live && Abandons(SessionOf(b, t.sid), c)
  }

  predicate CleanedUp(b: Bus, c: ConnId, b': Bus)
    requires WellFormed(b) && WellFormed(b')
  {
    && |b'.insts| == |b.insts| && b'.now == b.now && b'.emptied == b.emptied && b'.conns == b.conns
    && b.timers <= b'.timers
    && (forall sid :: sid in b'.live ==> sid in b.live)
    && (forall sid :: sid in b.live ==> Handled(b, c, b', sid))
    && (forall j :: |b.timers| <= j < |b'.timers| ==> TimerIsDue(b, c, b'.timers[j]))
  }

  lemma LeavingHandles(b: Bus, c: ConnId, sid: SessionId, other: SessionId)
    requires WellFormed(b) && sid in b.live && other in b.live
    ensures WellFormed(Depart(b, c, sid)) && Handled(b, c, Depart(b, c, sid), other)
  {
    DepartGrows(b, c, sid);
    var s := SessionOf(b, sid);
    var b' := Depart(b, c, sid);
    assert b'.insts == WithSession(b, b.live[sid], Left(s, c)).insts;
    if other == sid && Abandons(s, c) && s.ephemeral.value.keepaliveSecs > 0 {
      assert b'.timers[|b.timers|] == Timer(sid, b.now + Keepalive(s));
    }
  }

  lemma DepartCleansUp(b: Bus, c: ConnId, sid: SessionId)
    requires WellFormed(b)
    ensures WellFormed(Depart(b, c, sid)) && CleanedUp(b, c, Depart(b, c, sid))
  {
    DepartWellFormed(b, c, sid);
    DepartStartsTimers(b, c, sid);
    if sid in b.live {
      forall other | other in b.live ensures Handled(b, c, Depart(b, c, sid), other) {
        LeavingHandles(b, c, sid, other);
      }
    }
  }

  lemma DepartStartsTimers(b: Bus, c: ConnId, sid: SessionId)
    requires WellFormed(b)
    ensures var b' := Depart(b, c, sid);
            && |b'.insts| == |b.insts| && b'.now == b.now && b'.emptied == b.emptied && b'.conns == b.conns
            && b.timers <= b'.timers && (forall s :: s in b'.live ==> s in b.live)
            && forall j :: |b.timers| <= j < |b'.timers| ==> TimerIsDue(b, c, b'.timers[j])
  {
  }

  /** A connection that already left does not abandon a session again. */
  lemma AbandonsOnce(s: Session, c: ConnId)
    ensures !Abandons(Left(s, c), c)
    ensures Left(Left(s, c), c) == Left(s, c)
  {
    assert c !in Left(s, c).subscribers;
    assert Left(s, c).subscribers - {c} == Left(s, c).subscribers;
  }

  lemma HasTimerLater(timers: seq<Timer>, more: seq<Timer>, sid: SessionId, latest: Instant)
    requires HasTimer(timers, sid, latest) && timers <= more
    ensures HasTimer(more, sid, latest)
  {
    var j :| 0 <= j < |timers| && timers[j].sid == sid && timers[j].due <= latest;
    assert more[j] == timers[j];
  }

  lemma HandledTransitive(x: Bus, c: ConnId, y: Bus, z: Bus, sid: SessionId)
    requires WellFormed(x) && WellFormed(y) && WellFormed(z) && sid in x.live
    requires Handled(x, c, y, sid) && (sid in y.live ==> Handled(y, c, z, sid)) && (sid in z.live ==> sid in y.live)
    requires x.now == y.now && y.timers <= z.timers
    ensures Handled(x, c, z, sid)
  {
    var s := SessionOf(x, sid);
    AbandonsOnce(s, c);
    if sid in z.live && SessionOf(y, sid) == Left(s, c) && Abandons(s, c) {
      HasTimerLater(y.timers, z.timers, sid, x.now + Keepalive(s));
    }
  }

  lemma CleanedUpTransitive(x: Bus, c: ConnId, y: Bus, z: Bus)
    requires WellFormed(x) && WellFormed(y) && WellFormed(z)
    requires CleanedUp(x, c, y) && CleanedUp(y, c, z)
    ensures CleanedUp(x, c, z)
  {
    forall sid | sid in x.live ensures Handled(x, c, z, sid) {
      HandledTransitive(x, c, y, z, sid);
    }
    forall j | |x.timers| <= j < |z.timers| ensures TimerIsDue(x, c, z.timers[j]) {
      var t := z.timers[j];
      if j < |y.timers| {
        assert t == y.timers[j];
      } else {
        assert TimerIsDue(y, c, t) && Handled(x, c, y, t.sid);
        AbandonsOnce(SessionOf(x, t.sid), c);
      }
    }
  }

  lemma {:induction false} CleanupCleansUp(b: Bus, c: ConnId, sids: seq<SessionId>)
    requires WellFormed(b)
    ensures CleanedUp(b, c, Cleanup(b, c, sids))
    decreases |sids|
  {
    if sids != [] {
      DepartCleansUp(b, c, sids[0]);
      CleanupCleansUp(Depart(b, c, sids[0]), c, sids[1..]);
      CleanedUpTransitive(b, c, Depart(b, c, sids[0]), Cleanup(b, c, sids));
    }
  }

  // ----- What may be removed -----

  function Departing(a: Action): set<ConnId> {
    if a.Disconnect? then {a.conn} else {}
  }

  /**
   * Cleanup and timers remove only ephemeral sessions without a counted subscriber (other
   * than the departing one), whatever state the bus is in.
   */
  lemma RemovalIsSafe(b: Bus, a: Action, sid: SessionId)
    requires WellFormed(b) && Enabled(b, a) && !a.Delete?
    requires sid in b.live && sid !in Next(b, a).live
    ensures SessionOf(b, sid).ephemeral.Some?
    ensures Counted(SessionOf(b, sid)) == Departing(a)
  {
    if a.Disconnect? {
      CleanupIsSafe(b, a, sid);
    } else if IsTask(a) {
      TaskShape(b, a);
    }
  }

  lemma CleanupIsSafe(b: Bus, a: Action, sid: SessionId)
    requires WellFormed(b) && Enabled(b, a) && a.Disconnect? && sid in b.live && sid !in Effect(b, a).live
    ensures SessionOf(b, sid).ephemeral.Some? && Counted(SessionOf(b, sid)) == {a.conn}
  {
    DroppedGrows(b, a.conn);
    CleanupCleansUp(Dropped(b, a.conn), a.conn, b.conns[a.conn].tracked);
    var s := SessionOf(b, sid);
    assert SessionOf(Dropped(b, a.conn), sid) == s;
    assert Handled(Dropped(b, a.conn), a.conn, Effect(b, a), sid);
    assert Counted(s) - {a.conn} <= Counted(Left(s, a.conn));
  }

  // ----- An abandoned session always has a timer pending in time -----

  lemma ObservedUnchanged(b: Bus, b': Bus)
    requires EmptiedOk(b) && SameSubscribers(b, b')
    ensures Observed(b, b') == b.emptied
  {
    forall n | 0 <= n < |b.insts| ensures Counted(b'.insts[n].session) == Counted(b.insts[n].session) {
    }
    forall n | n in Observed(b, b') ensures n in b.emptied && Observed(b, b')[n] == b.emptied[n] {
    }
  }

  lemma EmptiedStep(b: Bus, a: Action)
    requires WellFormed(b) && Enabled(b, a) && EmptiedOk(b)
    ensures EmptiedOk(Next(b, a))
  {
    StepGrows(b, a);
    NowGrows(b, a);
  }

  lemma NowGrows(b: Bus, a: Action)
    requires WellFormed(b) && Enabled(b, a)
    ensures b.now <= Effect(b, a).now
  {
    if IsBystander(a) {
      BystandersKeepSubscribers(b, a);
    } else if a.Disconnect? {
      DroppedGrows(b, a.conn);
      CleanupCleansUp(Dropped(b, a.conn), a.conn, b.conns[a.conn].tracked);
    }
  }

  /**
   * A subscribe that takes the last counted subscriber of an ephemeral session out of the
   * count, because its connection re-subscribes under another role, with no timer pending.
   */
  predicate LosesLast(b: Bus, a: Action)
    requires WellFormed(b) && Enabled(b, a)
  {
    && a.Subscribe? && a.sid in b.live
    && var s := SessionOf(b, a.sid);
       && s.ephemeral.Some? && Counted(s) == {a.conn}
       && !RoleCounts(s.ephemeral, b.conns[a.conn].role)
       && !HasTimer(b.timers, a.sid, b.now + Keepalive(s))
  }

  lemma BystandersCover(b: Bus, a: Action)
    requires WellFormed(b) && Enabled(b, a) && EmptiedOk(b) && Covered(b) && IsBystander(a)
    ensures WellFormed(Next(b, a)) && Covered(Next(b, a))
  {
    StepGrows(b, a);
    BystandersKeepSubscribers(b, a);
    ObservedUnchanged(b, Effect(b, a));
  }

  lemma SubscribeCovers(b: Bus, a: Action)
    requires WellFormed(b) && Enabled(b, a) && EmptiedOk(b) && Covered(b) && a.Subscribe?
    ensures WellFormed(Next(b, a)) && (Covered(Next(b, a)) <==> !LosesLast(b, a))
  {
    StepGrows(b, a);
    if a.sid !in b.live {
      ObservedUnchanged(b, Effect(b, a));
    } else {
      JoinedStaysCovered(b, a);
      OthersStayCovered(b, a);
    }
  }

  /** The guarantee for one session. */
  predicate CoveredOne(b: Bus, sid: SessionId)
    requires WellFormed(b) && sid in b.live
  {
    SessionOf(b, sid).ephemeral.Some? && b.live[sid] in b.emptied ==>
      HasTimer(b.timers, sid, b.emptied[b.live[sid]] + Keepalive(SessionOf(b, sid)))
  }

  lemma JoinedStaysCovered(b: Bus, a: Action)
    requires WellFormed(b) && Enabled(b, a) && Covered(b) && a.Subscribe? && a.sid in b.live && WellFormed(Next(b, a))
    ensures a.sid in Next(b, a).live && (CoveredOne(Next(b, a), a.sid) <==> !LosesLast(b, a))
  {
    var s, s' := SessionOf(b, a.sid), SessionOf(Next(b, a), a.sid);
    CountedAfterJoin(s, s', a.conn, b.conns[a.conn].role);
    assert CoveredOne(b, a.sid);
  }

  lemma OthersStayCovered(b: Bus, a: Action)
    requires WellFormed(b) && Enabled(b, a) && Covered(b) && a.Subscribe? && a.sid in b.live && WellFormed(Next(b, a))
    ensures Next(b, a).live == b.live
    ensures forall sid :: sid in b.live && sid != a.sid ==> CoveredOne(Next(b, a), sid)
  {
    assert Next(b, a).live == b.live && Next(b, a).timers == b.timers;
    forall sid | sid in b.live && sid != a.sid ensures CoveredOne(Next(b, a), sid) {
      OtherStaysCovered(b, a, sid);
    }
  }

  lemma OtherStaysCovered(b: Bus, a: Action, sid: SessionId)
    requires WellFormed(b) && Enabled(b, a) && Covered(b) && a.Subscribe? && a.sid in b.live && WellFormed(Next(b, a))
    requires sid in b.live && sid != a.sid
    ensures sid in Next(b, a).live && CoveredOne(Next(b, a), sid)
  {
    var b' := Next(b, a);
    assert b.live[sid] != b.live[a.sid];
    assert b'.insts[b.live[sid]] == b.insts[b.live[sid]];
    assert CoveredOne(b, sid);
    assert b.live[sid] in b'.emptied ==> b.live[sid] in b.emptied && b'.emptied[b.live[sid]] == b.emptied[b.live[sid]];
  }

  lemma CountedAfterJoin(s: Session, s': Session, c: ConnId, role: Option<string>)
    requires s'.subscribers == s.subscribers[c := role] && s'.ephemeral == s.ephemeral
    ensures Counted(s') == if RoleCounts(s.ephemeral, role) then Counted(s) + {c} else Counted(s) - {c}
  {
  }

  lemma HandledIsCovered(b: Bus, c: ConnId, b': Bus, sid: SessionId)
    requires WellFormed(b) && WellFormed(b') && EmptiedOk(b) && Covered(b) && CleanedUp(b, c, b')
    requires sid in b'.live && SessionOf(b', sid).ephemeral.Some? && b'.live[sid] in Observed(b, b')
    ensures SessionOf(b, sid).ephemeral == SessionOf(b', sid).ephemeral
    ensures HasTimer(b'.timers, sid, Observed(b, b')[b'.live[sid]] + Keepalive(SessionOf(b', sid)))
  {
    assert Handled(b, c, b', sid);
    var s, s' := SessionOf(b, sid), SessionOf(b', sid);
    if Counted(s) == {} {
      HasTimerLater(b.timers, b'.timers, sid, b.emptied[b.live[sid]] + Keepalive(s));
    } else {
      LeavingAbandons(s, s', c);
    }
  }

  /** Only the departure of the last counted subscriber empties a session during cleanup. */
  lemma LeavingAbandons(s: Session, s': Session, c: ConnId)
    requires s.ephemeral.Some? && (s' == s || s' == Left(s, c)) && Counted(s) != {} && Counted(s') == {}
    ensures s' == Left(s, c) && Abandons(s, c)
  {
    assert Counted(s) - {c} <= Counted(Left(s, c));
  }

  lemma DisconnectCovers(b: Bus, a: Action)
    requires WellFormed(b) && Enabled(b, a) && EmptiedOk(b) && Covered(b) && a.Disconnect?
    ensures WellFormed(Next(b, a)) && Covered(Next(b, a))
  {
    StepGrows(b, a);
    var x := Dropped(b, a.conn);
    DroppedGrows(b, a.conn);
    var b1 := Cleanup(x, a.conn, b.conns[a.conn].tracked);
    CleanupCleansUp(x, a.conn, b.conns[a.conn].tracked);
    assert Next(b, a) == b1.(emptied := Observed(x, b1), wire := Next(b, a).wire);
    forall sid | sid in b1.live && SessionOf(b1, sid).ephemeral.Some? && b1.live[sid] in Observed(x, b1)
      ensures HasTimer(b1.timers, sid, Observed(x, b1)[b1.live[sid]] + Keepalive(SessionOf(b1, sid)))
    {
      HandledIsCovered(x, a.conn, b1, sid);
    }
  }

  lemma AdvanceCovers(b: Bus, a: Action)
    requires WellFormed(b) && Enabled(b, a) && EmptiedOk(b) && Covered(b) && a.Advance?
    ensures WellFormed(Next(b, a)) && Covered(Next(b, a)) && Next(b, a).emptied == b.emptied
  {
    assert Observed(b, Effect(b, a)) == b.emptied;
  }

  lemma OtherTimersStay(timers: seq<Timer>, j: nat, sid: SessionId, latest: Instant)
    requires j < |timers| && timers[j].sid != sid && HasTimer(timers, sid, latest)
    ensures HasTimer(WithoutTimer(timers, j), sid, latest)
  {
    var i :| 0 <= i < |timers| && timers[i].sid == sid && timers[i].due <= latest;
    assert WithoutTimer(timers, j)[if i < j then i else i - 1] == timers[i];
  }

  lemma FireShape(b: Bus, j: nat)
    requires WellFormed(b) && j < |b.timers|
    ensures var b1 := DoFire(b, j);
            b1.insts == b.insts && b1.timers == WithoutTimer(b.timers, j) && b1.now == b.now && b1.emptied == b.emptied
    ensures forall sid :: sid in DoFire(b, j).live ==> sid in b.live && DoFire(b, j).live[sid] == b.live[sid]
    ensures forall sid :: sid in DoFire(b, j).live ==>
              b.timers[j].sid != sid || SessionOf(b, sid).ephemeral.None? || Counted(SessionOf(b, sid)) != {}
  {
  }

  lemma FireCovers(b: Bus, a: Action)
    requires WellFormed(b) && Enabled(b, a) && EmptiedOk(b) && Covered(b) && a.Fire?
    ensures WellFormed(Next(b, a)) && Covered(Next(b, a)) && Next(b, a).emptied == b.emptied
  {
    StepGrows(b, a);
    FireShape(b, a.timer);
    var b' := Next(b, a);
    assert Observed(b, DoFire(b, a.timer)) == b.emptied;
    forall sid | sid in b'.live && SessionOf(b', sid).ephemeral.Some? && b'.live[sid] in b'.emptied
      ensures HasTimer(b'.timers, sid, b'.emptied[b'.live[sid]] + Keepalive(SessionOf(b', sid)))
    {
      OtherTimersStay(b.timers, a.timer, sid, b.emptied[b.live[sid]] + Keepalive(SessionOf(b, sid)));
    }
  }

  /** One step keeps every abandoned session covered exactly when it is not such a subscribe. */
  lemma StepCovers(b: Bus, a: Action)
    requires WellFormed(b) && Enabled(b, a) && EmptiedOk(b) && Covered(b)
    ensures WellFormed(Next(b, a)) && (Covered(Next(b, a)) <==> !LosesLast(b, a))
  {
    if IsBystander(a) {
      BystandersCover(b, a);
    } else if a.Subscribe? {
      SubscribeCovers(b, a);
    } else if a.Disconnect? {
      DisconnectCovers(b, a);
    } else if a.Advance? {
      AdvanceCovers(b, a);
    } else {
      FireCovers(b, a);
    }
  }

  /** No step of the run is such a subscribe. */
  predicate KeepsRoles(b: Bus, run: seq<Action>)
    requires WellFormed(b) && Feasible(b, run)
    decreases |run|
  {
    run == [] ||
    (!LosesLast(b, run[0]) && (StepGrows(b, run[0]); KeepsRoles(Next(b, run[0]), run[1..])))
  }

  lemma {:induction false} CoveredFrom(b: Bus, run: seq<Action>)
    requires WellFormed(b) && Feasible(b, run) && EmptiedOk(b) && Covered(b) && KeepsRoles(b, run)
    ensures EmptiedOk(After(b, run)) && Covered(After(b, run))
    decreases |run|
  {
    if run != [] {
      StepCovers(b, run[0]);
      EmptiedStep(b, run[0]);
      CoveredFrom(Next(b, run[0]), run[1..]);
    }
  }

  // ----- Roles that stay fixed keep every abandoned session covered -----

  /** The connection has subscribed to some session. */
  predicate HasSubscribed(b: Bus, c: ConnId) {
    exists k :: 0 <= k < |b.subs| && b.subs[k].conn == c && b.subs[k].scope.One?
  }

  /** A client sets its role before it subscribes, and not again. */
  predicate RolesFixed(b: Bus, run: seq<Action>)
    requires WellFormed(b) && Feasible(b, run)
    decreases |run|
  {
    run == [] ||
    (FixesRole(b, run[0]) && (StepGrows(b, run[0]); RolesFixed(Next(b, run[0]), run[1..])))
  }

  predicate FixesRole(b: Bus, a: Action) {
    a.SetMeta? && a.conn in b.conns && HasSubscribed(b, a.conn) ==> a.role == b.conns[a.conn].role
  }

  /** A registered subscriber has subscribed, and is registered under its connection's role. */
  predicate RoleAgrees(b: Bus, sid: SessionId, c: ConnId)
    requires WellFormed(b) && sid in b.live && c in SessionOf(b, sid).subscribers
  {
    c in b.conns && SessionOf(b, sid).subscribers[c] == b.conns[c].role && HasSubscribed(b, c)
  }

  predicate RolesAgree(b: Bus)
    requires WellFormed(b)
  {
    forall sid, c :: sid in b.live && c in SessionOf(b, sid).subscribers ==> RoleAgrees(b, sid, c)
  }

  /** What a step must keep of the connections. */
  predicate KeepsConn(b: Bus, b': Bus, c: ConnId) {
    && (c in b.conns && HasSubscribed(b, c) ==> c in b'.conns && b'.conns[c].role == b.conns[c].role)
    && (HasSubscribed(b, c) ==> HasSubscribed(b', c))
  }

  lemma SubscribedStays(b: Bus, b': Bus, c: ConnId)
    requires Grows(b, b') && HasSubscribed(b, c)
    ensures HasSubscribed(b', c)
  {
    var k :| 0 <= k < |b.subs| && b.subs[k].conn == c && b.subs[k].scope.One?;
    assert SubGrows(b.subs[k], b'.subs[k]);
  }

  lemma RoleStays(b: Bus, a: Action, c: ConnId)
    requires WellFormed(b) && Enabled(b, a) && c in b.conns && !(a.SetMeta? && a.conn == c)
    ensures c in Effect(b, a).conns && Effect(b, a).conns[c].role == b.conns[c].role
  {
    if IsTask(a) {
      TaskShape(b, a);
    } else if a.Disconnect? {
      DroppedGrows(b, a.conn);
      CleanupCleansUp(Dropped(b, a.conn), a.conn, b.conns[a.conn].tracked);
    }
  }

  lemma ConnStays(b: Bus, a: Action, c: ConnId)
    requires WellFormed(b) && Enabled(b, a) && FixesRole(b, a) && Grows(b, Next(b, a))
    ensures KeepsConn(b, Next(b, a), c)
  {
    if HasSubscribed(b, c) {
      SubscribedStays(b, Next(b, a), c);
      if c in b.conns && !(a.SetMeta? && a.conn == c) {
        RoleStays(b, a, c);
      }
    }
  }

  /** A subscriber of a live session was one before, under the same role, or has just subscribed. */
  lemma SubscriberOrigin(b: Bus, a: Action, sid: SessionId, c: ConnId)
    requires WellFormed(b) && Enabled(b, a) && WellFormed(Next(b, a)) && Grows(b, Next(b, a))
    requires sid in Next(b, a).live && c in SessionOf(Next(b, a), sid).subscribers
    ensures (a.Subscribe? && a.sid == sid && a.conn == c)
            || (sid in b.live && c in SessionOf(b, sid).subscribers
                && SessionOf(Next(b, a), sid).subscribers[c] == SessionOf(b, sid).subscribers[c])
  {
    if IsBystander(a) {
      BystandersKeepSubscribers(b, a);
    } else if a.Subscribe? {
      SubscribeOrigin(b, a, sid, c);
    } else if a.Disconnect? {
      DroppedGrows(b, a.conn);
      CleanupCleansUp(Dropped(b, a.conn), a.conn, b.conns[a.conn].tracked);
      assert Handled(Dropped(b, a.conn), a.conn, Effect(b, a), sid);
    } else if a.Fire? {
      FireShape(b, a.timer);
    }
  }

  lemma SubscribeOrigin(b: Bus, a: Action, sid: SessionId, c: ConnId)
    requires WellFormed(b) && Enabled(b, a) && a.Subscribe? && WellFormed(Effect(b, a))
    requires sid in Effect(b, a).live && c in SessionOf(Effect(b, a), sid).subscribers
    ensures (a.sid == sid && a.conn == c)
            || (sid in b.live && c in SessionOf(b, sid).subscribers
                && SessionOf(Effect(b, a), sid).subscribers[c] == SessionOf(b, sid).subscribers[c])
  {
    if a.sid in b.live && sid != a.sid {
      assert b.live[sid] != b.live[a.sid];
    }
  }

  lemma JoiningAgrees(b: Bus, a: Action)
    requires WellFormed(b) && Enabled(b, a) && a.Subscribe? && a.sid in b.live && WellFormed(Next(b, a))
    ensures a.sid in Next(b, a).live && a.conn in SessionOf(Next(b, a), a.sid).subscribers
    ensures RoleAgrees(Next(b, a), a.sid, a.conn)
  {
    assert Next(b, a).subs[|b.subs|].conn == a.conn && Next(b, a).subs[|b.subs|].scope == One(a.sid);
  }

  lemma RolesStep(b: Bus, a: Action)
    requires WellFormed(b) && Enabled(b, a) && RolesAgree(b) && FixesRole(b, a)
    ensures WellFormed(Next(b, a)) && RolesAgree(Next(b, a))
  {
    StepGrows(b, a);
    var b' := Next(b, a);
    forall sid, c | sid in b'.live && c in SessionOf(b', sid).subscribers ensures RoleAgrees(b', sid, c) {
      SubscriberOrigin(b, a, sid, c);
      if a.Subscribe? && a.sid == sid && a.conn == c && sid in b.live {
        JoiningAgrees(b, a);
      } else {
        assert RoleAgrees(b, sid, c);
        ConnStays(b, a, c);
      }
    }
  }

  /** A subscriber whose role is its connection's keeps being counted when it subscribes again. */
  lemma FixedRolesLoseNone(b: Bus, a: Action)
    requires WellFormed(b) && Enabled(b, a) && RolesAgree(b)
    ensures !LosesLast(b, a)
  {
    if a.Subscribe? && a.sid in b.live && a.conn in SessionOf(b, a.sid).subscribers {
      assert RoleAgrees(b, a.sid, a.conn);
    }
  }

  lemma {:induction false} FixedRolesAreKept(b: Bus, run: seq<Action>)
    requires WellFormed(b) && Feasible(b, run) && RolesAgree(b) && RolesFixed(b, run)
    ensures KeepsRoles(b, run)
    decreases |run|
  {
    if run != [] {
      FixedRolesLoseNone(b, run[0]);
      RolesStep(b, run[0]);
      FixedRolesAreKept(Next(b, run[0]), run[1..]);
    }
  }

  /**
   * When clients fix their roles before they subscribe: in every reachable state, an
   * ephemeral session whose counted number has fallen to zero has a timer pending that is
   * due within `keepalive_secs` of that moment, or is gone.
   */
  lemma AbandonedSessionsHaveTimers(run: seq<Action>, sid: SessionId)
    requires Feasible(INITIAL, run) && RolesFixed(INITIAL, run)
    ensures var b := After(INITIAL, run);
            sid in b.live && SessionOf(b, sid).ephemeral.Some? && b.live[sid] in b.emptied ==>
              HasTimer(b.timers, sid, b.emptied[b.live[sid]] + Keepalive(SessionOf(b, sid)))
  {
    FixedRolesAreKept(INITIAL, run);
    CoveredFrom(INITIAL, run);
  }

  // ----- Punctual timers: an abandoned session is gone in time -----

  predicate NoneOverdue(b: Bus) {
    forall j :: 0 <= j < |b.timers| ==> b.now <= b.timers[j].due
  }

  /** Time never passes a pending timer: timer tasks run when they are due. */
  predicate Punctual(b: Bus, run: seq<Action>)
    requires WellFormed(b) && Feasible(b, run)
    decreases |run|
  {
    run == [] ||
    ((run[0].Advance? ==> forall j :: 0 <= j < |b.timers| ==> run[0].to <= b.timers[j].due)
     && (StepGrows(b, run[0]); Punctual(Next(b, run[0]), run[1..])))
  }

  lemma PunctualStep(b: Bus, a: Action)
    requires WellFormed(b) && Enabled(b, a) && NoneOverdue(b)
    requires a.Advance? ==> forall j :: 0 <= j < |b.timers| ==> a.to <= b.timers[j].due
    ensures NoneOverdue(Next(b, a))
  {
    if IsBystander(a) {
      BystandersKeepSubscribers(b, a);
    } else if a.Disconnect? {
      DisconnectStartsLater(b, a);
    }
  }

  lemma DisconnectStartsLater(b: Bus, a: Action)
    requires WellFormed(b) && Enabled(b, a) && NoneOverdue(b) && a.Disconnect?
    ensures NoneOverdue(Next(b, a))
  {
    DroppedGrows(b, a.conn);
    CleanupStartsLater(Dropped(b, a.conn), a.conn, b.conns[a.conn].tracked);
  }

  lemma {:induction false} CleanupStartsLater(b: Bus, c: ConnId, sids: seq<SessionId>)
    requires WellFormed(b) && NoneOverdue(b)
    ensures NoneOverdue(Cleanup(b, c, sids))
    decreases |sids|
  {
    if sids != [] {
      DepartWellFormed(b, c, sids[0]);
      CleanupStartsLater(Depart(b, c, sids[0]), c, sids[1..]);
    }
  }

  lemma {:induction false} PunctualFrom(b: Bus, run: seq<Action>)
    requires WellFormed(b) && Feasible(b, run) && NoneOverdue(b) && Punctual(b, run)
    ensures NoneOverdue(After(b, run))
    decreases |run|
  {
    if run != [] {
      PunctualStep(b, run[0]);
      StepGrows(b, run[0]);
      PunctualFrom(Next(b, run[0]), run[1..]);
    }
  }

  /** With punctual timers no abandoned session outlives its keepalive. */
  lemma AbandonedSessionsAreGoneInTime(run: seq<Action>, sid: SessionId)
    requires Feasible(INITIAL, run) && RolesFixed(INITIAL, run) && Punctual(INITIAL, run)
    ensures var b := After(INITIAL, run);
            sid in b.live && SessionOf(b, sid).ephemeral.Some? && b.live[sid] in b.emptied ==>
              b.now <= b.emptied[b.live[sid]] + Keepalive(SessionOf(b, sid))
  {
    FixedRolesAreKept(INITIAL, run);
    CoveredFrom(INITIAL, run);
    PunctualFrom(INITIAL, run);
  }

  // ----- A timer removes only sessions that were joined and left -----

  /** Session ids are not reused; the code itself only checks the live ones. */
  predicate FreshStep(b: Bus, a: Action) {
    a.Create? || a.Fork? ==> forall n :: 0 <= n < |b.insts| ==> b.insts[n].session.id != a.sid
  }

  predicate FreshRun(b: Bus, run: seq<Action>)
    requires WellFormed(b) && Feasible(b, run)
    decreases |run|
  {
    run == [] || (FreshStep(b, run[0]) && (StepGrows(b, run[0]); FreshRun(Next(b, run[0]), run[1..])))
  }

  predicate TimerOk(b: Bus, t: Timer)
    requires WellFormed(b)
  {
    && (exists n :: 0 <= n < |b.insts| && b.insts[n].session.id == t.sid)
    && (t.sid in b.live && Counted(SessionOf(b, t.sid)) == {} ==> b.live[t.sid] in b.emptied)
  }

  predicate TimersOk(b: Bus)
    requires WellFormed(b)
  {
    forall t :: t in b.timers ==> TimerOk(b, t)
  }

  lemma OldTimerStaysOk(b: Bus, a: Action, t: Timer)
    requires WellFormed(b) && Enabled(b, a) && FreshStep(b, a) && TimerOk(b, t)
    ensures WellFormed(Next(b, a)) && TimerOk(Next(b, a), t)
  {
    StepGrows(b, a);
    NewInstanceIsAsked(b, a);
    ObservedKeepsTimer(b, Effect(b, a), Next(b, a), t);
  }

  lemma ObservedKeepsTimer(b: Bus, b1: Bus, b2: Bus, t: Timer)
    requires WellFormed(b) && WellFormed(b1) && Grows(b, b1) && TimerOk(b, t)
    requires |b1.insts| <= |b.insts| + 1
    requires |b1.insts| > |b.insts| ==>
      (forall n :: 0 <= n < |b.insts| ==> b.insts[n].session.id != b1.insts[|b.insts|].session.id)
    requires WellFormed(b2) && b2.insts == b1.insts && b2.live == b1.live && b2.emptied == Observed(b, b1)
    ensures TimerOk(b2, t)
  {
    var n :| 0 <= n < |b.insts| && b.insts[n].session.id == t.sid;
    assert InstanceGrows(b.insts[n], b1.insts[n]);
    assert b1.insts[n].session.id == t.sid;
    assert |b1.insts| > |b.insts| ==> b1.insts[|b.insts|].session.id != t.sid;
  }

  lemma TimersOrigin(b: Bus, a: Action, t: Timer)
    requires WellFormed(b) && Enabled(b, a) && WellFormed(Next(b, a)) && t in Next(b, a).timers
    ensures t in b.timers || (a.Disconnect? && TimerIsDue(Dropped(b, a.conn), a.conn, t))
  {
    if IsBystander(a) {
      BystandersKeepSubscribers(b, a);
    } else if a.Disconnect? {
      DroppedGrows(b, a.conn);
      CleanupCleansUp(Dropped(b, a.conn), a.conn, b.conns[a.conn].tracked);
      var j :| 0 <= j < |Next(b, a).timers| && Next(b, a).timers[j] == t;
    } else if a.Fire? {
      FireShape(b, a.timer);
    }
  }

  lemma TimersStep(b: Bus, a: Action)
    requires WellFormed(b) && Enabled(b, a) && FreshStep(b, a) && TimersOk(b)
    ensures WellFormed(Next(b, a)) && TimersOk(Next(b, a))
  {
    StepGrows(b, a);
    forall t | t in Next(b, a).timers ensures TimerOk(Next(b, a), t) {
      TimersOrigin(b, a, t);
      if t !in b.timers {
        NewTimerIsOk(b, a, t);
      } else {
        OldTimerStaysOk(b, a, t);
      }
    }
  }

  lemma NewTimerIsOk(b: Bus, a: Action, t: Timer)
    requires WellFormed(b) && Enabled(b, a) && FreshStep(b, a) && a.Disconnect?
    requires TimerIsDue(Dropped(b, a.conn), a.conn, t)
    ensures WellFormed(Next(b, a)) && TimerOk(Next(b, a), t)
  {
    var n := b.live[t.sid];
    assert b.insts[n].session.id == t.sid && Counted(b.insts[n].session) != {};
    OldTimerStaysOk(b, a, t);
  }

  lemma {:induction false} TimersFrom(b: Bus, run: seq<Action>)
    requires WellFormed(b) && Feasible(b, run) && FreshRun(b, run) && TimersOk(b)
    ensures TimersOk(After(b, run))
    decreases |run|
  {
    if run != [] {
      TimersStep(b, run[0]);
      TimersFrom(Next(b, run[0]), run[1..]);
    }
  }

  /**
   * When ids are not reused, a timer removes only a session whose counted number had
   * fallen to zero: one that nobody joined yet is never removed by an old timer.
   */
  lemma TimersRemoveOnlyEmptied(run: seq<Action>, j: nat, sid: SessionId)
    requires Feasible(INITIAL, run) && FreshRun(INITIAL, run)
    requires Enabled(After(INITIAL, run), Fire(j))
    requires sid in After(INITIAL, run).live && sid !in Next(After(INITIAL, run), Fire(j)).live
    ensures var b := After(INITIAL, run); b.live[sid] in b.emptied
  {
    TimersFrom(INITIAL, run);
    FiringRemovesEmptied(After(INITIAL, run), j, sid);
  }

  lemma FiringRemovesEmptied(b: Bus, j: nat, sid: SessionId)
    requires WellFormed(b) && TimersOk(b) && Enabled(b, Fire(j)) && sid in b.live && sid !in DoFire(b, j).live
    ensures b.live[sid] in b.emptied
  {
    assert b.timers[j] in b.timers && TimerOk(b, b.timers[j]);
  }

  // ----- Which subscribers the cleanup reaches -----

  /** The connection's loop is still replaying this Subscribe. */
  predicate MidReplay(b: Bus, c: ConnId, k: nat) {
    && c in b.conns && b.conns[c].open && b.conns[c].busy == Some(k)
    && k < |b.subs| && b.subs[k].conn == c && !b.subs[k].closed && !b.subs[k].halted
  }

  /** A registered subscriber is known to its connection's cleanup, or about to be. */
  predicate Reached(b: Bus, sid: SessionId, c: ConnId) {
    && c in b.conns && b.conns[c].open
    && (sid in b.conns[c].tracked ||
        (b.conns[c].busy.Some? && MidReplay(b, c, b.conns[c].busy.value)
         && b.subs[b.conns[c].busy.value].scope == One(sid)))
  }

  predicate Registered(b: Bus)
    requires WellFormed(b)
  {
    forall sid, c :: sid in b.live && c in SessionOf(b, sid).subscribers ==> Reached(b, sid, c)
  }

  /** The write of the replay or of HistoryComplete fails while the loop is in it. */
  predicate FailsReplay(b: Bus, a: Action) {
    a.Break? && a.sub < |b.subs| && b.subs[a.sub].scope.One? && MidReplay(b, b.subs[a.sub].conn, a.sub)
  }

  /**
   * The replay that fails is of a live session in which the connection is registered, and
   * which it does not remember from an earlier subscribe.
   */
  predicate LosesCleanup(b: Bus, a: Action)
    requires WellFormed(b)
  {
    FailsReplay(b, a) &&
    var c, sid := b.subs[a.sub].conn, b.subs[a.sub].scope.sid;
    sid in b.live && c in SessionOf(b, sid).subscribers && sid !in b.conns[c].tracked
  }

  /** The cleanup after such a failure does not reach the subscriber. */
  lemma FailedReplayLeaks(b: Bus, k: nat, sid: SessionId)
    requires WellFormed(b) && Enabled(b, Break(k)) && FailsReplay(b, Break(k)) && b.subs[k].scope == One(sid)
    requires sid in b.live && b.subs[k].conn in Counted(SessionOf(b, sid))
    requires sid !in b.conns[b.subs[k].conn].tracked
    ensures var c := b.subs[k].conn;
            var b1 := Next(b, Break(k));
            && WellFormed(b1) && Enabled(b1, Disconnect(c))
            && var b2 := Next(b1, Disconnect(c));
               WellFormed(b2) && Leaked(b2, sid, c)
  {
    var c := b.subs[k].conn;
    StepGrows(b, Break(k));
    var b1 := Next(b, Break(k));
    assert b1.insts == b.insts && b1.live == b.live && b1.conns[c].tracked == b.conns[c].tracked + [];
    StepGrows(b1, Disconnect(c));
    DroppedGrows(b1, c);
    UntrackedIsUntouched(Dropped(b1, c), c, b1.conns[c].tracked, sid);
  }

  lemma DepartIsLocal(b: Bus, c: ConnId, sid: SessionId, other: SessionId)
    requires WellFormed(b) && other in b.live && other != sid
    ensures var b' := Depart(b, c, sid);
            WellFormed(b') && other in b'.live && SessionOf(b', other) == SessionOf(b, other) && b'.conns == b.conns
  {
    DepartWellFormed(b, c, sid);
    assert sid in b.live ==> b.live[sid] != b.live[other];
  }

  lemma {:induction false} UntrackedIsUntouched(b: Bus, c: ConnId, sids: seq<SessionId>, sid: SessionId)
    requires WellFormed(b) && sid in b.live && sid !in sids
    ensures var b' := Cleanup(b, c, sids); sid in b'.live && SessionOf(b', sid) == SessionOf(b, sid) && b'.conns == b.conns
    decreases |sids|
  {
    if sids != [] {
      assert sids[0] in sids;
      DepartIsLocal(b, c, sids[0], sid);
      UntrackedIsUntouched(Depart(b, c, sids[0]), c, sids[1..], sid);
    }
  }

  /** A counted subscriber of a live session whose connection is gone. */
  predicate Leaked(b: Bus, sid: SessionId, c: ConnId)
    requires WellFormed(b)
  {
    sid in b.live && c in Counted(SessionOf(b, sid)) && c in b.conns && !b.conns[c].open
  }

  lemma LeakedStep(b: Bus, a: Action, sid: SessionId, c: ConnId)
    requires WellFormed(b) && Enabled(b, a) && Leaked(b, sid, c)
    requires !(a.Delete? && a.sid == sid)
    ensures WellFormed(Next(b, a)) && Leaked(Next(b, a), sid, c)
  {
    StepGrows(b, a);
    StaysLive(b, a, sid, c);
    ClosedStaysClosed(b, a, c);
    StaysCounted(b, a, sid, c);
  }

  lemma StaysLive(b: Bus, a: Action, sid: SessionId, c: ConnId)
    requires WellFormed(b) && Enabled(b, a) && Leaked(b, sid, c)
    requires !(a.Delete? && a.sid == sid)
    ensures sid in Next(b, a).live && Next(b, a).live[sid] == b.live[sid]
  {
    if sid in Next(b, a).live {
      LiveStays(b, a, sid);
    } else if !a.Delete? {
      RemovalIsSafe(b, a, sid);
    }
  }

  lemma StaysCounted(b: Bus, a: Action, sid: SessionId, c: ConnId)
    requires WellFormed(b) && Enabled(b, a) && Leaked(b, sid, c)
    requires WellFormed(Next(b, a)) && sid in Next(b, a).live && Next(b, a).live[sid] == b.live[sid]
    ensures c in Counted(SessionOf(Next(b, a), sid))
  {
    if IsBystander(a) {
      BystandersKeepSubscribers(b, a);
    } else if a.Disconnect? {
      DisconnectKeepsOthersCounted(b, a, sid, c);
    } else if a.Fire? {
      FireShape(b, a.timer);
    }
  }

  lemma DisconnectKeepsOthersCounted(b: Bus, a: Action, sid: SessionId, c: ConnId)
    requires WellFormed(b) && Enabled(b, a) && a.Disconnect? && Leaked(b, sid, c)
    requires WellFormed(Effect(b, a)) && sid in Effect(b, a).live && Effect(b, a).live[sid] == b.live[sid]
    ensures c in Counted(SessionOf(Effect(b, a), sid))
  {
    DroppedGrows(b, a.conn);
    CleanupCleansUp(Dropped(b, a.conn), a.conn, b.conns[a.conn].tracked);
    HandledKeepsOthersCounted(Dropped(b, a.conn), a.conn, Effect(b, a), sid, c);
  }

  lemma HandledKeepsOthersCounted(b: Bus, gone: ConnId, b': Bus, sid: SessionId, c: ConnId)
    requires WellFormed(b) && WellFormed(b') && sid in b.live && sid in b'.live && Handled(b, gone, b', sid)
    requires c in Counted(SessionOf(b, sid)) && c != gone
    ensures c in Counted(SessionOf(b', sid))
  {
  }

  lemma ClosedStaysClosed(b: Bus, a: Action, c: ConnId)
    requires WellFormed(b) && Enabled(b, a) && c in b.conns && !b.conns[c].open
    ensures c in Effect(b, a).conns && !Effect(b, a).conns[c].open
  {
    if IsTask(a) {
      TaskShape(b, a);
    } else if a.Disconnect? {
      DroppedGrows(b, a.conn);
      CleanupCleansUp(Dropped(b, a.conn), a.conn, b.conns[a.conn].tracked);
    }
  }

  /** The leak is final: only an explicit delete ever removes such a session. */
  lemma {:induction false} LeakedForever(b: Bus, run: seq<Action>, sid: SessionId, c: ConnId)
    requires WellFormed(b) && Feasible(b, run) && Leaked(b, sid, c)
    requires forall i :: 0 <= i < |run| ==> !(run[i].Delete? && run[i].sid == sid)
    ensures Leaked(After(b, run), sid, c)
    decreases |run|
  {
    if run != [] {
      LeakedStep(b, run[0], sid, c);
      LeakedForever(Next(b, run[0]), run[1..], sid, c);
    }
  }

  /** Steps that only add to what a connection tracks keep its subscribers reached. */
  lemma BystanderReaches(b: Bus, a: Action, sid: SessionId, c: ConnId)
    requires WellFormed(b) && Enabled(b, a) && IsBystander(a) && !FailsReplay(b, a) && Reached(b, sid, c)
    ensures Reached(Next(b, a), sid, c)
  {
    if IsTask(a) {
      TaskReaches(b, a, sid, c);
    } else if a.SubscribeAll? {
    } else {
      CommandReaches(b, a, sid, c);
    }
  }

  lemma CommandReaches(b: Bus, a: Action, sid: SessionId, c: ConnId)
    requires WellFormed(b) && Enabled(b, a) && IsCommand(a) && Reached(b, sid, c)
    ensures Reached(Next(b, a), sid, c)
  {
    CommandGrows(b, a);
    CommandKeepsWriters(b, a);
  }

  lemma CommandKeepsWriters(b: Bus, a: Action)
    requires WellFormed(b) && Enabled(b, a) && IsCommand(a)
    ensures |Effect(b, a).subs| == |b.subs|
    ensures forall k :: 0 <= k < |b.subs| ==>
      SameWriter(b.subs[k], Effect(b, a).subs[k])
  {
    if a.Fork? {
    } else if a.SetTags? {
    } else if a.Publish? {
    } else if a.Create? {
    }
  }

  lemma TaskReaches(b: Bus, a: Action, sid: SessionId, c: ConnId)
    requires WellFormed(b) && Enabled(b, a) && IsTask(a) && !FailsReplay(b, a) && Reached(b, sid, c)
    ensures Reached(Next(b, a), sid, c)
  {
    TaskShape(b, a);
    ResumeReaches(b, a, Next(b, a), sid, c);
  }

  lemma ResumeReaches(b: Bus, a: Action, b': Bus, sid: SessionId, c: ConnId)
    requires WellFormed(b) && Enabled(b, a) && IsTask(a) && !FailsReplay(b, a) && Reached(b, sid, c)
    requires |b'.subs| == |b.subs|
    requires forall k :: 0 <= k < |b.subs| ==>
      SameWriter(if k == a.sub && a.Break? then b.subs[k].(closed := true) else b.subs[k], b'.subs[k])
    requires b'.conns == if Resumes(b, a) then Resume(b, a.sub, Tracks(b, a)).conns else b.conns
    ensures Reached(b', sid, c)
  {
  }

  lemma {:induction false} CleanupDeregisters(b: Bus, c: ConnId, sids: seq<SessionId>, sid: SessionId)
    requires WellFormed(b) && (sid in b.live && c in SessionOf(b, sid).subscribers ==> sid in sids)
    ensures var b' := Cleanup(b, c, sids); sid in b'.live ==> c !in SessionOf(b', sid).subscribers
    decreases |sids|
  {
    if sids != [] {
      DepartGrows(b, c, sids[0]);
      DepartCleansUp(b, c, sids[0]);
      if sid in b.live {
        assert Handled(b, c, Depart(b, c, sids[0]), sid);
        if sids[0] != sid {
          assert sid in sids ==> sid in sids[1..];
        }
      }
      CleanupDeregisters(Depart(b, c, sids[0]), c, sids[1..], sid);
    }
  }

  lemma DepartKeepsWriters(b: Bus, c: ConnId, sid: SessionId)
    requires WellFormed(b)
    ensures |Depart(b, c, sid).subs| == |b.subs| && Depart(b, c, sid).conns == b.conns
    ensures forall k :: 0 <= k < |b.subs| ==> SameWriter(b.subs[k], Depart(b, c, sid).subs[k])
  {
  }

  lemma {:induction false} CleanupKeepsWriters(b: Bus, c: ConnId, sids: seq<SessionId>)
    requires WellFormed(b)
    ensures |Cleanup(b, c, sids).subs| == |b.subs| && Cleanup(b, c, sids).conns == b.conns
    ensures forall k :: 0 <= k < |b.subs| ==>
      SameWriter(b.subs[k], Cleanup(b, c, sids).subs[k])
    decreases |sids|
  {
    if sids != [] {
      DepartWellFormed(b, c, sids[0]);
      DepartKeepsWriters(b, c, sids[0]);
      CleanupKeepsWriters(Depart(b, c, sids[0]), c, sids[1..]);
    }
  }

  lemma DisconnectReaches(b: Bus, a: Action, sid: SessionId, c: ConnId)
    requires WellFormed(b) && Enabled(b, a) && a.Disconnect? && c != a.conn && Reached(b, sid, c)
    ensures Reached(Next(b, a), sid, c)
  {
    DroppedGrows(b, a.conn);
    CleanupKeepsWriters(Dropped(b, a.conn), a.conn, b.conns[a.conn].tracked);
  }

  lemma BreakShape(b: Bus, a: Action)
    requires WellFormed(b) && Enabled(b, a) && FailsReplay(b, a)
    ensures var c := b.subs[a.sub].conn;
            && Next(b, a).insts == b.insts && Next(b, a).live == b.live
            && Next(b, a).subs == b.subs[a.sub := b.subs[a.sub].(closed := true)]
            && Next(b, a).conns == b.conns[c := b.conns[c].(busy := None, tracked := b.conns[c].tracked + [])]
  {
  }

  /** A failed replay keeps every registered subscriber reached but its own. */
  lemma FailureReaches(b: Bus, a: Action, sid: SessionId, c: ConnId)
    requires WellFormed(b) && Enabled(b, a) && FailsReplay(b, a) && Reached(b, sid, c)
    ensures Reached(Next(b, a), sid, c) <==> c != b.subs[a.sub].conn || sid in b.conns[c].tracked
  {
    BreakShape(b, a);
  }

  lemma FailureRegisters(b: Bus, a: Action)
    requires WellFormed(b) && Enabled(b, a) && Registered(b) && FailsReplay(b, a)
    ensures WellFormed(Next(b, a)) && (Registered(Next(b, a)) <==> !LosesCleanup(b, a))
  {
    StepGrows(b, a);
    BreakShape(b, a);
    var k, b' := a.sub, Next(b, a);
    if LosesCleanup(b, a) {
      FailureReaches(b, a, b.subs[k].scope.sid, b.subs[k].conn);
    } else {
      forall sid, c | sid in b'.live && c in SessionOf(b', sid).subscribers ensures Reached(b', sid, c) {
        assert Reached(b, sid, c);
        FailureReaches(b, a, sid, c);
      }
    }
  }

  /** A step keeps every registered subscriber within its connection's cleanup exactly when it loses none. */
  lemma StepRegisters(b: Bus, a: Action)
    requires WellFormed(b) && Enabled(b, a) && Registered(b)
    ensures WellFormed(Next(b, a)) && (Registered(Next(b, a)) <==> !LosesCleanup(b, a))
  {
    if FailsReplay(b, a) {
      FailureRegisters(b, a);
    } else {
      RegisteredStep(b, a);
    }
  }

  lemma RegisteredStep(b: Bus, a: Action)
    requires WellFormed(b) && Enabled(b, a) && Registered(b) && !FailsReplay(b, a)
    ensures WellFormed(Next(b, a)) && Registered(Next(b, a))
  {
    StepGrows(b, a);
    var b' := Next(b, a);
    forall sid, c | sid in b'.live && c in SessionOf(b', sid).subscribers ensures Reached(b', sid, c) {
      RegisteredIsReached(b, a, sid, c);
    }
  }

  lemma RegisteredIsReached(b: Bus, a: Action, sid: SessionId, c: ConnId)
    requires WellFormed(b) && Enabled(b, a) && Registered(b) && !FailsReplay(b, a) && WellFormed(Next(b, a)) && Grows(b, Next(b, a))
    requires sid in Next(b, a).live && c in SessionOf(Next(b, a), sid).subscribers
    ensures Reached(Next(b, a), sid, c)
  {
    if IsBystander(a) {
      SubscriberOrigin(b, a, sid, c);
      assert Reached(b, sid, c);
      BystanderReaches(b, a, sid, c);
    } else if a.Disconnect? {
      DisconnectRegisters(b, a, sid, c);
    } else if a.Fire? {
      SubscriberOrigin(b, a, sid, c);
      FireReaches(b, a, sid, c);
    } else if a.Subscribe? {
      SubscribeReaches(b, a, sid, c);
    } else {
      assert Reached(b, sid, c);
    }
  }

  lemma DisconnectRegisters(b: Bus, a: Action, sid: SessionId, c: ConnId)
    requires WellFormed(b) && Enabled(b, a) && a.Disconnect? && Registered(b) && WellFormed(Next(b, a))
    requires sid in Next(b, a).live && c in SessionOf(Next(b, a), sid).subscribers
    ensures Reached(Next(b, a), sid, c)
  {
    var x := Dropped(b, a.conn);
    DroppedGrows(b, a.conn);
    CleanupCleansUp(x, a.conn, b.conns[a.conn].tracked);
    assert Handled(x, a.conn, Effect(b, a), sid);
    assert c in SessionOf(b, sid).subscribers && Reached(b, sid, c);
    if c == a.conn {
      CleanupDeregisters(x, c, b.conns[c].tracked, sid);
    }
    DisconnectReaches(b, a, sid, c);
  }

  lemma FireReaches(b: Bus, a: Action, sid: SessionId, c: ConnId)
    requires WellFormed(b) && Enabled(b, a) && a.Fire? && Reached(b, sid, c)
    ensures Reached(Next(b, a), sid, c)
  {
  }

  lemma SubscribeReaches(b: Bus, a: Action, sid: SessionId, c: ConnId)
    requires WellFormed(b) && Enabled(b, a) && a.Subscribe? && Registered(b) && WellFormed(Next(b, a))
    requires sid in Next(b, a).live && c in SessionOf(Next(b, a), sid).subscribers
    ensures Reached(Next(b, a), sid, c)
  {
    if a.sid in b.live && c == a.conn && sid == a.sid {
      JoinerIsReached(b, a);
    } else {
      SubscribeOrigin(b, a, sid, c);
      assert Reached(b, sid, c);
      SubscribeKeepsReached(b, a, sid, c);
    }
  }

  lemma JoinerIsReached(b: Bus, a: Action)
    requires WellFormed(b) && Enabled(b, a) && a.Subscribe? && a.sid in b.live
    ensures Reached(Next(b, a), a.sid, a.conn)
  {
    var b1 := DoSubscribe(b, a.conn, a.sid, a.gated);
    assert b1.subs[|b.subs|].scope == One(a.sid) && b1.conns[a.conn].busy == Some(|b.subs|);
  }

  lemma SubscribeKeepsReached(b: Bus, a: Action, sid: SessionId, c: ConnId)
    requires WellFormed(b) && Enabled(b, a) && a.Subscribe? && Reached(b, sid, c)
    ensures Reached(Next(b, a), sid, c)
  {
    var b1 := DoSubscribe(b, a.conn, a.sid, a.gated);
    assert forall k :: 0 <= k < |b.subs| ==> b1.subs[k] == b.subs[k];
  }

  /** No step of the run loses a cleanup. */
  predicate KeepsCleanups(b: Bus, run: seq<Action>)
    requires WellFormed(b) && Feasible(b, run)
    decreases |run|
  {
    run == [] || (!LosesCleanup(b, run[0]) && (StepGrows(b, run[0]); KeepsCleanups(Next(b, run[0]), run[1..])))
  }

  lemma {:induction false} RegisteredFrom(b: Bus, run: seq<Action>)
    requires WellFormed(b) && Feasible(b, run) && Registered(b) && KeepsCleanups(b, run)
    ensures Registered(After(b, run))
    decreases |run|
  {
    if run != [] {
      StepRegisters(b, run[0]);
      RegisteredFrom(Next(b, run[0]), run[1..]);
    }
  }

  /** When no step loses a cleanup, a connection that goes is deregistered from every session. */
  lemma DisconnectDeregisters(run: seq<Action>, c: ConnId, sid: SessionId)
    requires Feasible(INITIAL, run) && KeepsCleanups(INITIAL, run) && Enabled(After(INITIAL, run), Disconnect(c))
    ensures var b := Next(After(INITIAL, run), Disconnect(c));
            WellFormed(b) && (sid in b.live ==> c !in SessionOf(b, sid).subscribers)
  {
    RegisteredFrom(INITIAL, run);
    var b := After(INITIAL, run);
    DisconnectMisses(b, c, sid);
    if sid in b.live && c in SessionOf(b, sid).subscribers {
      assert Reached(b, sid, c);
    }
  }

  /** In any state, a disconnect leaves the connection registered exactly where it is and is not tracked. */
  lemma DisconnectMisses(b: Bus, c: ConnId, sid: SessionId)
    requires WellFormed(b) && Enabled(b, Disconnect(c))
    ensures var b' := Next(b, Disconnect(c));
            WellFormed(b') && (sid in b'.live && c in SessionOf(b', sid).subscribers
              <==> sid in b.live && c in SessionOf(b, sid).subscribers && sid !in b.conns[c].tracked)
  {
    StepGrows(b, Disconnect(c));
    DroppedGrows(b, c);
    var x, tracked := Dropped(b, c), b.conns[c].tracked;
    CleanupCleansUp(x, c, tracked);
    if sid in b.live {
      assert Handled(x, c, Cleanup(x, c, tracked), sid);
      if sid in tracked {
        CleanupDeregisters(x, c, tracked, sid);
      } else {
        UntrackedIsUntouched(x, c, tracked, sid);
      }
    }
  }
}
