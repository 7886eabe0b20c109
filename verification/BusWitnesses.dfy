/**
 * Concrete runs on which a guarantee fails, showing that the hypotheses of the bus
 * theorems are needed: a role changed between two subscriptions loses the deletion timer,
 * and a session id used again makes a listener attach one session twice.
 */
module BusWitnesses {
  import opened Basics
  import opened Chunks
  import opened Sessions
  import opened Registry
  import opened Bus
  import opened BusLifecycle

  lemma {:induction false} AfterAppend(b: Bus, run: seq<Action>, a: Action)
    requires WellFormed(b) && Feasible(b, run) && Enabled(After(b, run), a)
    ensures Feasible(b, run + [a]) && After(b, run + [a]) == Next(After(b, run), a)
    decreases |run|
  {
    if run == [] {
      assert [] + [a] == [a] && [a][1..] == [];
      StepGrows(b, a);
    } else {
      StepGrows(b, run[0]);
      assert (run + [a])[1..] == run[1..] + [a];
      AfterAppend(Next(b, run[0]), run[1..], a);
    }
  }

  /** `b` is reached by `run`. */
  ghost predicate ReachedBy(run: seq<Action>, b: Bus) {
    Feasible(INITIAL, run) && After(INITIAL, run) == b && WellFormed(b)
  }

  lemma Then(run: seq<Action>, b: Bus, a: Action, b': Bus)
    requires ReachedBy(run, b) && Enabled(b, a)
    requires Next(b, a).now == b'.now && Next(b, a).insts == b'.insts && Next(b, a).live == b'.live
    requires Next(b, a).conns == b'.conns && Next(b, a).subs == b'.subs && Next(b, a).timers == b'.timers
    requires Next(b, a).emptied == b'.emptied && Next(b, a).wire == b'.wire
    ensures ReachedBy(run + [a], b')
  {
    AfterAppend(INITIAL, run, a);
    StepGrows(b, a);
  }

  // ----- A role changed between two subscriptions -----

  /** An ephemeral session that counts subscribers of role `user`. */
  function UserSession(subscribers: map<ConnId, Option<string>>): Session {
    Session("s", "a", [], [], subscribers, Some(Ephemeral(30, Some("user"))), [], None)
  }

  function OnlySession(s: Session): seq<Instance> {
    [Instance(s, [], [])]
  }

  function Subscription(stage: Stage, out: seq<Msg>): Sub {
    Sub("c", One("s"), false, 1, [Feed(0, "a", [], [], 0, [], [], [], false, stage)], out,
        false, [], false, None, false, false, map[])
  }

  function Joined(role: Option<string>, tracked: seq<SessionId>, busy: Option<nat>, stage: Stage, out: seq<Msg>): Bus {
    Bus(0, OnlySession(UserSession(map["c" := Some("user")])), map["s" := 0],
        map["c" := Conn(role, tracked, busy, true)], [Subscription(stage, out)], [], map[], HandedOver("c", 0, out))
  }

  function Created(): Bus {
    Bus(0, OnlySession(UserSession(map[])), map["s" := 0], map["c" := Conn(Some("user"), [], None, true)], [], [], map[], [])
  }

  lemma Creating() returns (run: seq<Action>)
    ensures ReachedBy(run, Created())
  {
    var b1 := Bus(0, [], map[], map["c" := Conn(Some("user"), [], None, true)], [], [], map[], []);
    var create := Create("c", "s", "a", Some(Ephemeral(30, Some("user"))), [], []);
    Then([], INITIAL, Connect("c", Some("user")), b1);
    assert Counted(UserSession(map[])) == {};
    run := [] + [Connect("c", Some("user"))];
    Then(run, b1, create, Created());
    run := run + [create];
  }

  lemma Joining() returns (run: seq<Action>)
    ensures ReachedBy(run, Joined(Some("user"), [], Some(0), Replaying, []))
  {
    run := Creating();
    var a := Subscribe("c", "s", false);
    Joins();
    Then(run, Created(), a, Joined(Some("user"), [], Some(0), Replaying, []));
    run := run + [a];
  }

  lemma Joins()
    ensures WellFormed(Created()) && Enabled(Created(), Subscribe("c", "s", false))
    ensures Next(Created(), Subscribe("c", "s", false)) == Joined(Some("user"), [], Some(0), Replaying, [])
  {
    assert Counted(UserSession(map["c" := Some("user")])) == {"c"};
    assert Counted(UserSession(map[])) == {};
    var b := Created();
    var a := Subscribe("c", "s", false);
    var joined := Joined(Some("user"), [], Some(0), Replaying, []);
    assert FeedFrom(b, 0, "a", Replaying) == Feed(0, "a", [], [], 0, [], [], [], false, Replaying);
    assert Effect(b, a).insts[0] == joined.insts[0];
    assert Effect(b, a).insts == joined.insts && Effect(b, a).conns == joined.conns && Effect(b, a).subs == joined.subs;
    assert Observed(b, Effect(b, a)) == map[];
  }

  lemma GoingLive(run: seq<Action>)
    requires ReachedBy(run, Joined(Some("user"), [], Some(0), Replaying, []))
    ensures ReachedBy(run + [GoLive(0, 0)], Joined(Some("user"), ["s"], None, Live, [HistoryComplete("s", 0)]))
  {
    var b := Joined(Some("user"), [], Some(0), Replaying, []);
    MovesLive(b);
    WentLive(b);
    Then(run, b, GoLive(0, 0), Joined(Some("user"), ["s"], None, Live, [HistoryComplete("s", 0)]));
  }

  lemma WentLive(b: Bus)
    requires b == Joined(Some("user"), [], Some(0), Replaying, []) && WellFormed(b) && Enabled(b, GoLive(0, 0))
    ensures Next(b, GoLive(0, 0)) == Joined(Some("user"), ["s"], None, Live, [HistoryComplete("s", 0)])
  {
    MovesLive(b);
    var b1 := WithSub(b, 0, FeedMoved(b, GoLive(0, 0)));
    assert Effect(b, GoLive(0, 0)) == DoFeedTask(b, GoLive(0, 0)) == Resume(b1, 0, ["s"]);
    assert b1.subs == [Subscription(Live, [HistoryComplete("s", 0)])];
    assert [] + ["s"] == ["s"];
    assert Resume(b1, 0, ["s"]).conns == map["c" := Conn(Some("user"), ["s"], None, true)];
    ObservedUnchanged(b, Effect(b, GoLive(0, 0)));
  }

  lemma MovesLive(b: Bus)
    requires b == Joined(Some("user"), [], Some(0), Replaying, [])
    ensures WellFormed(b) && Enabled(b, GoLive(0, 0))
    ensures FeedMoved(b, GoLive(0, 0)) == Subscription(Live, [HistoryComplete("s", 0)])
  {
    var s := b.subs[0];
    assert s.feeds[0 := s.feeds[0].(stage := Live)] == Subscription(Live, []).feeds;
    assert [] + [HistoryComplete("s", 0)] == [HistoryComplete("s", 0)];
    assert FeedOut("s", s, s.feeds[0], GoLive(0, 0)) == [HistoryComplete("s", 0)];
  }

  /**
   * The connection drops its counted role and subscribes again: the session has lost its
   * last counted subscriber and no timer was started, so nothing will ever remove it.
   */
  lemma RoleChangeLosesTimer() returns (run: seq<Action>)
    ensures Feasible(INITIAL, run) && !Covered(After(INITIAL, run))
  {
    run := Joining();
    GoingLive(run);
    run := run + [GoLive(0, 0)];
    DropsRole(run);
    run := run + [SetMeta("c", None)];
    var bare := Joined(None, ["s"], None, Live, [HistoryComplete("s", 0)]);
    Runs(run, bare, Subscribe("c", "s", false));
    Uncovered(bare, Next(bare, Subscribe("c", "s", false)));
    run := run + [Subscribe("c", "s", false)];
  }

  lemma DropsRole(run: seq<Action>)
    requires ReachedBy(run, Joined(Some("user"), ["s"], None, Live, [HistoryComplete("s", 0)]))
    ensures ReachedBy(run + [SetMeta("c", None)], Joined(None, ["s"], None, Live, [HistoryComplete("s", 0)]))
  {
    var live := Joined(Some("user"), ["s"], None, Live, [HistoryComplete("s", 0)]);
    assert Counted(UserSession(map["c" := Some("user")])) == {"c"};
    Then(run, live, SetMeta("c", None), Joined(None, ["s"], None, Live, [HistoryComplete("s", 0)]));
  }

  lemma Uncovered(bare: Bus, again: Bus)
    requires bare == Joined(None, ["s"], None, Live, [HistoryComplete("s", 0)])
    requires WellFormed(bare) && Enabled(bare, Subscribe("c", "s", false))
    requires again == Next(bare, Subscribe("c", "s", false)) && WellFormed(again)
    ensures !Covered(again)
  {
    assert Effect(bare, Subscribe("c", "s", false)) == DoSubscribe(bare, "c", "s", false);
    assert again.live["s"] == 0 && again.timers == [];
    assert again.insts[0].session == Pruned(UserSession(map["c" := None]), 0);
    assert Counted(again.insts[0].session) == {};
    assert Counted(bare.insts[0].session) == {"c"};
    assert 0 in again.emptied;
    assert SessionOf(again, "s").ephemeral.Some?;
  }

  // ----- A replay whose last write fails -----

  /** The subscriber of a failed replay is still registered after its connection is gone. */
  lemma FailedReplayIsNotCleanedUp() returns (run: seq<Action>)
    ensures Feasible(INITIAL, run) && Leaked(After(INITIAL, run), "s", "c")
  {
    var b := Joined(Some("user"), [], Some(0), Replaying, []);
    run := Joining();
    assert "c" in Counted(SessionOf(b, "s"));
    FailedReplayLeaks(b, 0, "s");
    Runs(run, b, Break(0));
    run, b := run + [Break(0)], Next(b, Break(0));
    Runs(run, b, Disconnect("c"));
    run := run + [Disconnect("c")];
  }

  // ----- A session id used again -----

  const MADE := SessionCreated("s", "a")
  const GONE := SessionDeleted("s")

  function Blank(): Instance {
    Instance(NewSession("s", "a"), [], [])
  }

  /**
   * Connection `c` listens to everything; session `s` was made `made` times and is there
   * now if `alive`; the listener attached the instance 1 `attached` times and has caught
   * up with it, but for `events`.
   */
  ghost predicate Watching(b: Bus, made: nat, alive: bool, attached: nat, stage: Stage, events: seq<Event>, fetched: Option<Event>) {
    && WellFormed(b) && |b.insts| == made && (forall n :: 0 <= n < made ==> b.insts[n] == Blank())
    && (if alive then made > 0 && "s" in b.live && b.live["s"] == made - 1 else "s" !in b.live)
    && Idle(b, "c") && |b.subs| == 1
    && var s := b.subs[0];
       && s.scope == Everything(None) && s.listening && !s.closed && !s.halted && !s.overrun
       && s.events == events && s.fetched == fetched && |s.feeds| == attached
       && (forall i :: 0 <= i < attached ==> s.feeds[i].inst == 1 && s.feeds[i].todo == [] && s.feeds[i].stage == stage)
  }

  lemma Runs(run: seq<Action>, b: Bus, a: Action)
    requires ReachedBy(run, b) && Enabled(b, a)
    ensures ReachedBy(run + [a], Next(b, a))
  {
    AfterAppend(INITIAL, run, a);
    StepGrows(b, a);
  }

  lemma Subscribes() returns (run: seq<Action>, b: Bus)
    ensures ReachedBy(run, b) && b.insts == [] && b.live == map[] && "c" in b.conns && b.conns["c"].open
    ensures b.conns["c"].busy == Some(0) && |b.subs| == 1
    ensures var s := b.subs[0];
            s.conn == "c" && s.scope == Everything(None) && s.feeds == [] && !s.listening && !s.closed && !s.halted && !s.overrun
            && s.events == [] && s.fetched == None
  {
    run, b := [], INITIAL;
    Runs(run, b, Connect("c", None));
    run, b := run + [Connect("c", None)], Next(b, Connect("c", None));
    Runs(run, b, SubscribeAll("c", None, []));
    run, b := run + [SubscribeAll("c", None, [])], Next(b, SubscribeAll("c", None, []));
  }

  lemma StartsListening() returns (run: seq<Action>, b: Bus)
    ensures ReachedBy(run, b) && Watching(b, 0, false, 0, Live, [], None)
  {
    run, b := Subscribes();
    Runs(run, b, Listen(0));
    run, b := run + [Listen(0)], Next(b, Listen(0));
  }

  const MAKE := Create("c", "s", "a", None, [], [])

  lemma Makes(b: Bus, made: nat, events: seq<Event>)
    requires Watching(b, made, false, 0, Live, events, None) && |events| < EVENT_CAPACITY
    ensures Enabled(b, MAKE) && Watching(Next(b, MAKE), made + 1, true, 0, Live, events + [MADE], None)
  {
    StepGrows(b, MAKE);
  }

  lemma Deletes(b: Bus, made: nat, events: seq<Event>)
    requires Watching(b, made, true, 0, Live, events, None) && |events| < EVENT_CAPACITY
    ensures Enabled(b, Delete("c", "s")) && Watching(Next(b, Delete("c", "s")), made, false, 0, Live, events + [GONE], None)
  {
    StepGrows(b, Delete("c", "s"));
  }

  lemma Takes(b: Bus, attached: nat, e: Event, events: seq<Event>)
    requires Watching(b, 2, true, attached, Live, [e] + events, None) && (e.SessionCreated? || e.SessionDeleted?)
    ensures Enabled(b, TakeEvent(0))
    ensures Watching(Next(b, TakeEvent(0)), 2, true, attached, Live, events, if e == MADE || e.SessionCreated? then Some(e) else None)
  {
    StepGrows(b, TakeEvent(0));
    assert ([e] + events)[1..] == events;
  }

  /** As `Watching`, with one more feed that has nothing left to replay. */
  ghost predicate Attaching(b: Bus, attached: nat, events: seq<Event>) {
    && WellFormed(b) && |b.subs| == 1 && |b.subs[0].feeds| == attached + 1
    && var s := b.subs[0];
       && s.feeds[attached].stage.Replaying? && s.feeds[attached].inst == 1 && s.feeds[attached].todo == []
       && Watching(b.(subs := [s.(feeds := s.feeds[..attached])]), 2, true, attached, Live, events, None)
  }

  /** The listener attaches whatever instance is live under the id, attached before or not. */
  lemma AttachesAgain(b: Bus, attached: nat, events: seq<Event>)
    requires Watching(b, 2, true, attached, Live, events, Some(MADE))
    ensures Enabled(b, Attach(0)) && Attaching(Next(b, Attach(0)), attached, events)
  {
    StepGrows(b, Attach(0));
    AttachShape(b, Attach(0));
    var feed := FeedFrom(b, 1, "a", Replaying);
    var feeds := b.subs[0].feeds;
    assert DoAttach(b, 0).subs[0].feeds == feeds + [feed] && (feeds + [feed])[..attached] == feeds;
    assert feed.todo == [];
    assert Pruned(NewSession("s", "a"), b.now) == NewSession("s", "a");
  }

  lemma GoesLive(b: Bus, attached: nat, events: seq<Event>)
    requires Attaching(b, attached, events)
    ensures Enabled(b, GoLive(0, attached))
    ensures Watching(Next(b, GoLive(0, attached)), 2, true, attached + 1, Live, events, None)
  {
    StepGrows(b, GoLive(0, attached));
    FeedTaskShape(b, GoLive(0, attached));
    var feeds := b.subs[0].feeds;
    forall i | 0 <= i < attached ensures feeds[i].inst == 1 && feeds[i].todo == [] && feeds[i].stage == Live {
      assert feeds[i] == feeds[..attached][i];
    }
  }

  lemma MakesNext(run0: seq<Action>, b0: Bus, made: nat, events: seq<Event>) returns (run: seq<Action>, b: Bus)
    requires ReachedBy(run0, b0) && Watching(b0, made, false, 0, Live, events, None) && |events| < EVENT_CAPACITY
    ensures ReachedBy(run, b) && Watching(b, made + 1, true, 0, Live, events + [MADE], None)
  {
    Makes(b0, made, events);
    Runs(run0, b0, MAKE);
    run, b := run0 + [MAKE], Next(b0, MAKE);
  }

  lemma DeletesNext(run0: seq<Action>, b0: Bus, made: nat, events: seq<Event>) returns (run: seq<Action>, b: Bus)
    requires ReachedBy(run0, b0) && Watching(b0, made, true, 0, Live, events, None) && |events| < EVENT_CAPACITY
    ensures ReachedBy(run, b) && Watching(b, made, false, 0, Live, events + [GONE], None)
  {
    Deletes(b0, made, events);
    Runs(run0, b0, Delete("c", "s"));
    run, b := run0 + [Delete("c", "s")], Next(b0, Delete("c", "s"));
  }

  lemma MakesTwice() returns (run: seq<Action>, b: Bus)
    ensures ReachedBy(run, b) && Watching(b, 2, true, 0, Live, [MADE] + [GONE, MADE], None)
  {
    run, b := MakesAndDeletes();
    run, b := MakesNext(run, b, 1, [MADE, GONE]);
    assert [MADE, GONE] + [MADE] == [MADE] + [GONE, MADE];
  }

  lemma MakesAndDeletes() returns (run: seq<Action>, b: Bus)
    ensures ReachedBy(run, b) && Watching(b, 1, false, 0, Live, [MADE, GONE], None)
  {
    run, b := MakesOnce();
    run, b := DeletesNext(run, b, 1, [MADE]);
    assert [MADE] + [GONE] == [MADE, GONE];
  }

  lemma MakesOnce() returns (run: seq<Action>, b: Bus)
    ensures ReachedBy(run, b) && Watching(b, 1, true, 0, Live, [MADE], None)
  {
    run, b := StartsListening();
    run, b := MakesNext(run, b, 0, []);
    assert [] + [MADE] == [MADE];
  }

  lemma TakesAndAttaches(run0: seq<Action>, b0: Bus, attached: nat, events: seq<Event>) returns (run: seq<Action>, b: Bus)
    requires ReachedBy(run0, b0) && Watching(b0, 2, true, attached, Live, [MADE] + events, None)
    ensures ReachedBy(run, b) && Watching(b, 2, true, attached + 1, Live, events, None)
  {
    run, b := run0, b0;
    Takes(b, attached, MADE, events);
    Runs(run, b, TakeEvent(0));
    run, b := run + [TakeEvent(0)], Next(b, TakeEvent(0));
    AttachesAgain(b, attached, events);
    Runs(run, b, Attach(0));
    run, b := run + [Attach(0)], Next(b, Attach(0));
    GoesLive(b, attached, events);
    Runs(run, b, GoLive(0, attached));
    run, b := run + [GoLive(0, attached)], Next(b, GoLive(0, attached));
  }

  /**
   * A session made, deleted and made again before the listener has read the first event is
   * attached twice: every later chunk of it will be delivered twice.
   */
  lemma ReusedIdAttachesTwice() returns (run: seq<Action>)
    ensures Feasible(INITIAL, run)
    ensures var b := After(INITIAL, run);
            |b.subs| == 1 && |b.subs[0].feeds| == 2 && b.subs[0].feeds[0].inst == b.subs[0].feeds[1].inst
            && b.subs[0].feeds[0].stage.Live? && b.subs[0].feeds[1].stage.Live?
  {
    var b: Bus;
    run, b := MakesTwice();
    run, b := TakesAndAttaches(run, b, 0, [GONE, MADE]);
    assert [GONE, MADE] == [GONE] + [MADE];
    Takes(b, 1, GONE, [MADE]);
    Runs(run, b, TakeEvent(0));
    run, b := run + [TakeEvent(0)], Next(b, TakeEvent(0));
    assert [MADE] == [MADE] + [];
    run, b := TakesAndAttaches(run, b, 1, []);
  }

  // ----- Tags set after a listener has looked -----

  const WORK := SubscribeFilter(None, None, None, None, Some(["work"]), None)
  const NOTE := Chunk("n", Text, None, "bus", map[])
  const TAG := SetTags("c", "s", ["work"], NOTE)

  /** Connection `c` listens for sessions tagged `work` and has attached none; the untagged `s` is there if `made`. */
  ghost predicate Filtering(b: Bus, made: bool, listening: bool, events: seq<Event>, fetched: Option<Event>) {
    && WellFormed(b) && |b.subs| == 1 && "c" in b.conns && b.conns["c"].open && (listening ==> Idle(b, "c"))
    && (if made then |b.insts| == 1 && b.insts[0] == Blank() && "s" in b.live else b.insts == [] && b.live == map[])
    && var s := b.subs[0];
       && s.conn == "c" && s.scope == Everything(Some(WORK)) && s.feeds == [] && s.listening == listening
       && !s.closed && !s.halted && !s.overrun && s.events == events && s.fetched == fetched
  }

  lemma Filters() returns (run: seq<Action>, b: Bus)
    ensures ReachedBy(run, b) && Filtering(b, false, false, [], None) && b.conns["c"].busy == Some(0)
  {
    var subscribe := SubscribeAll("c", Some(WORK), []);
    run, b := [], INITIAL;
    Runs(run, b, Connect("c", None));
    run, b := run + [Connect("c", None)], Next(b, Connect("c", None));
    Runs(run, b, subscribe);
    run, b := run + [subscribe], Next(b, subscribe);
  }

  lemma FiltersAndListens() returns (run: seq<Action>, b: Bus)
    ensures ReachedBy(run, b) && Filtering(b, false, true, [], None)
  {
    run, b := Filters();
    Runs(run, b, Listen(0));
    run, b := run + [Listen(0)], Next(b, Listen(0));
  }

  lemma HearsOfIt(b: Bus)
    requires Filtering(b, false, true, [], None)
    ensures Enabled(b, MAKE) && Filtering(Next(b, MAKE), true, true, [MADE], None)
  {
    StepGrows(b, MAKE);
  }

  lemma TakesIt(b: Bus)
    requires Filtering(b, true, true, [MADE], None)
    ensures Enabled(b, TakeEvent(0)) && Filtering(Next(b, TakeEvent(0)), true, true, [], Some(MADE))
  {
    StepGrows(b, TakeEvent(0));
  }

  lemma LetsItGo(b: Bus)
    requires Filtering(b, true, true, [], Some(MADE))
    ensures Enabled(b, Attach(0)) && Filtering(Next(b, Attach(0)), true, true, [], None)
  {
    StepGrows(b, Attach(0));
    AttachShape(b, Attach(0));
    assert b.live["s"] == 0 && !SessionMatches(b.insts[0].session, Some(WORK));
  }

  lemma LooksAndLetsGo() returns (run: seq<Action>, b: Bus)
    ensures ReachedBy(run, b) && Filtering(b, true, true, [], None)
  {
    run, b := FiltersAndListens();
    HearsOfIt(b);
    Runs(run, b, MAKE);
    run, b := run + [MAKE], Next(b, MAKE);
    TakesIt(b);
    Runs(run, b, TakeEvent(0));
    run, b := run + [TakeEvent(0)], Next(b, TakeEvent(0));
    LetsItGo(b);
    Runs(run, b, Attach(0));
    run, b := run + [Attach(0)], Next(b, Attach(0));
  }

  lemma Retags(b: Bus)
    requires Filtering(b, true, true, [], None)
    ensures Enabled(b, TAG)
    ensures var b' := Next(b, TAG);
            && WellFormed(b') && "s" in b'.live && SessionMatches(SessionOf(b', "s"), Some(WORK))
            && |b'.subs| == 1 && b'.subs[0].scope == Everything(Some(WORK)) && b'.subs[0].feeds == []
            && b'.subs[0].fetched.None? && !b'.subs[0].overrun && MADE !in b'.subs[0].events
  {
    StepGrows(b, TAG);
    var b1 := PublishAt(b, b.live["s"], NOTE);
    assert Effect(b, TAG) == Retag(b1, b.live["s"], "s", ["work"]);
    assert SessionOf(Effect(b, TAG), "s").tags == ["work"] && WORK.tags.value[0] in ["work"];
  }

  /**
   * A session tagged only after a filtered listener has looked at it matches the filter
   * and is not attached, and no event that would attach it is pending.
   */
  lemma LateTagIsNotSeen() returns (run: seq<Action>)
    ensures Feasible(INITIAL, run)
    ensures var b := After(INITIAL, run);
            && "s" in b.live && SessionMatches(SessionOf(b, "s"), Some(WORK))
            && |b.subs| == 1 && b.subs[0].scope == Everything(Some(WORK)) && b.subs[0].feeds == []
            && b.subs[0].fetched.None? && !b.subs[0].overrun && MADE !in b.subs[0].events
  {
    var b: Bus;
    run, b := LooksAndLetsGo();
    Retags(b);
    Runs(run, b, TAG);
    run := run + [TAG];
  }
}
