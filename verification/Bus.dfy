/**
 * The bus as a transition system. Each critical section on the registry, each message a
 * connection task writes, each forwarder receive and each timer expiry is one atomic
 * action; a run is any sequence of enabled actions, so every interleaving is a run.
 */
module Bus {
  import opened Basics
  import opened Chunks
  import opened Sessions
  import opened Registry

  /** Bounds of the per-session broadcast channel and of the registry's event channel. */
  const CHUNK_CAPACITY: nat := 1024
  const EVENT_CAPACITY: nat := 256

  const CAFE_DIRECT_TO := "cafe.direct_to"

  // ----- Filters -----

  datatype SubscribeFilter = SubscribeFilter(
    sessions: Option<seq<SessionId>>,
    agents: Option<seq<string>>,
    contentTypes: Option<seq<ContentType>>,
    annotations: Option<map<string, Value>>,
    tags: Option<seq<string>>,
    tagsExclude: Option<seq<string>>)

  /** An annotation test; `false` also matches an absent key. */
  predicate AnnotationMatches(c: Chunk, key: string, value: Value) {
    if key in c.annotations then c.annotations[key] == value else value == Bool(false)
  }

  predicate ChunkMatches(c: Chunk, f: SubscribeFilter) {
    && (f.contentTypes.Some? ==> c.contentType in f.contentTypes.value)
    && (f.annotations.Some? ==>
          forall key :: key in f.annotations.value ==> AnnotationMatches(c, key, f.annotations.value[key]))
  }

  /** Whether a filter lets through a session of that id and agent when it carries `tags`. */
  predicate Fits(filter: Option<SubscribeFilter>, sid: SessionId, agent: string, tags: seq<string>) {
    filter.Some? ==>
      var f := filter.value;
      && (f.sessions.Some? ==> sid in f.sessions.value)
      && (f.agents.Some? ==> agent in f.agents.value)
      && (f.tags.Some? ==> exists i :: 0 <= i < |f.tags.value| && f.tags.value[i] in tags)
      && (f.tagsExclude.Some? ==> forall i :: 0 <= i < |tags| ==> tags[i] !in f.tagsExclude.value)
  }

  predicate SessionMatches(s: Session, filter: Option<SubscribeFilter>) {
    Fits(filter, s.id, s.agent, s.tags)
  }

  /** The chunks a subscription forwards. */
  function Wanted(filter: Option<SubscribeFilter>): Chunk -> bool {
    (c: Chunk) => filter.Some? ==> ChunkMatches(c, filter.value)
  }

  // ----- State -----

  /**
   * One session from creation on. `seed` and `log` are history variables: the history it
   * was inserted with, and every chunk published to it since. A session deleted and
   * created again under the same id is a new instance.
   */
  datatype Instance = Instance(session: Session, seed: seq<Chunk>, log: seq<Chunk>)

  datatype Stage = Waiting | Replaying | Live | Stopped

  /**
   * One session attached to one subscription. `history` and `retained` are the snapshot,
   * taken with the receiver when the log held `from` chunks; `todo` is what is left to
   * replay, `queue` the receiver's buffer, `sent` what has been written.
   */
  datatype Feed = Feed(
    inst: nat, agent: string, history: seq<Chunk>, retained: seq<Chunk>, from: nat,
    todo: seq<Chunk>, queue: seq<Chunk>, sent: seq<Chunk>, lagged: bool, stage: Stage)

  /** `Everything(None)` is SubscribeAll, `Everything(Some(f))` is SubscribeFiltered. */
  datatype Scope = One(sid: SessionId) | Everything(filter: Option<SubscribeFilter>)

  datatype Msg =
    | EventMsg(event: Event)
    | ChunkMsg(sid: SessionId, chunk: Chunk)
    | HistoryComplete(sid: SessionId, count: nat)
    | SubscriberLagged(sid: SessionId)

  /**
   * One subscribe command and the tasks it spawned. `since` is the number of instances
   * that existed when it was served, `out` what it has written to its connection,
   * `closed` a dead writer, `halted` aborted tasks. `seen` is a history variable: the
   * sessions a listener has looked at, in its snapshot or after their event, and the tags
   * each had then.
   */
  datatype Sub = Sub(
    conn: ConnId, scope: Scope, gated: bool, since: nat, feeds: seq<Feed>, out: seq<Msg>,
    listening: bool, events: seq<Event>, overrun: bool, fetched: Option<Event>,
    closed: bool, halted: bool, seen: map<nat, seq<string>>)

  /** One message handed to a connection's writer: by a subscription, or by a direct-to publish. */
  datatype Write = Write(conn: ConnId, writer: Option<nat>, msg: Msg)

  /** `busy` names the subscription whose snapshot the connection's loop is replaying. */
  datatype Conn = Conn(role: Option<string>, tracked: seq<SessionId>, busy: Option<nat>, open: bool)

  /**
   * Two history variables: `emptied` says since when an instance's counted subscribers are
   * gone; `wire` is what the connections' writers were handed, in order. All subscriptions
   * of a connection share its writer, and so does every direct-to publish that names it.
   */
  datatype Bus = Bus(
    now: Instant, insts: seq<Instance>, live: map<SessionId, nat>, conns: map<ConnId, Conn>,
    subs: seq<Sub>, timers: seq<Timer>, emptied: map<nat, Instant>, wire: seq<Write>)

  const INITIAL := Bus(0, [], map[], map[], [], [], map[], [])

  function FilterOf(scope: Scope): Option<SubscribeFilter> {
    if scope.One? then None else scope.filter
  }

  predicate WellFormed(b: Bus) {
    && (forall sid :: sid in b.live ==> b.live[sid] < |b.insts| && b.insts[b.live[sid]].session.id == sid)
    && (forall k, i :: 0 <= k < |b.subs| && 0 <= i < |b.subs[k].feeds| ==> b.subs[k].feeds[i].inst < |b.insts|)
  }

  // ----- Effects -----

  function WithSession(b: Bus, n: nat, s: Session): Bus
    requires n < |b.insts|
  {
    b.(insts := b.insts[n := b.insts[n].(session := s)])
  }

  /** A broadcast reaches every receiver; one whose buffer is full has lost a chunk. */
  function Push(f: Feed, c: Chunk): Feed {
    if f.lagged then f
    else if |f.queue| >= CHUNK_CAPACITY then f.(lagged := true)
    else f.(queue := f.queue + [c])
  }

  function Offer(feeds: seq<Feed>, n: nat, c: Chunk): (r: seq<Feed>)
    ensures |r| == |feeds|
    ensures forall i :: 0 <= i < |r| ==> r[i] == if feeds[i].inst == n then Push(feeds[i], c) else feeds[i]
  {
    seq(|feeds|, i requires 0 <= i < |feeds| => if feeds[i].inst == n then Push(feeds[i], c) else feeds[i])
  }

  function Broadcast(subs: seq<Sub>, n: nat, c: Chunk): (r: seq<Sub>)
    ensures |r| == |subs|
    ensures forall k :: 0 <= k < |r| ==> r[k] == subs[k].(feeds := Offer(subs[k].feeds, n, c))
  {
    seq(|subs|, k requires 0 <= k < |subs| => subs[k].(feeds := Offer(subs[k].feeds, n, c)))
  }

  function Hear(s: Sub, e: Event): Sub {
    if s.scope.One? || s.overrun then s
    else if |s.events| >= EVENT_CAPACITY then s.(overrun := true)
    else s.(events := s.events + [e])
  }

  function Notify(subs: seq<Sub>, e: Event): (r: seq<Sub>)
    ensures |r| == |subs|
    ensures forall k :: 0 <= k < |r| ==> r[k] == Hear(subs[k], e)
  {
    seq(|subs|, k requires 0 <= k < |subs| => Hear(subs[k], e))
  }

  function Insert(b: Bus, s: Session): Bus {
    b.(insts := b.insts + [Instance(s, s.history, [])],
       live := b.live[s.id := |b.insts|],
       subs := Notify(b.subs, SessionCreated(s.id, s.agent)))
  }

  function Remove(b: Bus, sid: SessionId): Bus {
    if sid in b.live then b.(live := b.live - {sid}, subs := Notify(b.subs, SessionDeleted(sid))) else b
  }

  function PublishAt(b: Bus, n: nat, c: Chunk): Bus
    requires n < |b.insts|
  {
    var inst := b.insts[n];
    b.(insts := b.insts[n := Instance(Published(inst.session, c, b.now), inst.seed, inst.log + [c])],
       subs := Broadcast(b.subs, n, c))
  }

  function Retag(b: Bus, n: nat, sid: SessionId, tags: seq<string>): Bus
    requires n < |b.insts|
  {
    WithSession(b, n, b.insts[n].session.(tags := tags)).(subs := Notify(b.subs, TagsUpdated(sid, tags)))
  }

  /** The snapshot and the receiver, taken in one critical section. */
  function FeedFrom(b: Bus, n: nat, agent: string, stage: Stage): Feed
    requires n < |b.insts|
  {
    var s := b.insts[n].session;
    var retained := Readable(s, b.now);
    Feed(n, agent, s.history, retained, |b.insts[n].log|, s.history + retained, [], [], false, stage)
  }

  function WithSub(b: Bus, k: nat, s: Sub): Bus
    requires k < |b.subs|
  {
    b.(subs := b.subs[k := s])
  }

  function WithFeed(s: Sub, i: nat, f: Feed, written: seq<Msg>): Sub
    requires i < |s.feeds|
  {
    s.(feeds := s.feeds[i := f], out := s.out + written)
  }

  function Written(s: Sub, c: Chunk): seq<Chunk> {
    if Wanted(FilterOf(s.scope))(c) then [c] else []
  }

  function WithoutTimer(timers: seq<Timer>, j: nat): seq<Timer>
    requires j < |timers|
  {
    timers[..j] + timers[j + 1..]
  }

  /** The departure of `c` leaves an ephemeral session without a counted subscriber. */
  predicate Abandons(s: Session, c: ConnId) {
    s.ephemeral.Some? && c in Counted(s) && Counted(Left(s, c)) == {}
  }

  /** Removes at once when there is no keepalive, else starts a timer. */
  function ScheduleDeletion(b: Bus, sid: SessionId, keepaliveSecs: nat): Bus {
    if keepaliveSecs == 0 then Remove(b, sid)
    else b.(timers := b.timers + [Timer(sid, b.now + keepaliveSecs * SECOND)])
  }

  /** One session's share of the cleanup after a disconnect. */
  function Depart(b: Bus, c: ConnId, sid: SessionId): Bus
    requires WellFormed(b)
  {
    if sid !in b.live then b
    else
      var s := b.insts[b.live[sid]].session;
      var b1 := WithSession(b, b.live[sid], Left(s, c));
      if Abandons(s, c) then ScheduleDeletion(b1, sid, s.ephemeral.value.keepaliveSecs) else b1
  }

  lemma DepartWellFormed(b: Bus, c: ConnId, sid: SessionId)
    requires WellFormed(b)
    ensures WellFormed(Depart(b, c, sid))
  {
  }

  function Cleanup(b: Bus, c: ConnId, sids: seq<SessionId>): (r: Bus)
    requires WellFormed(b)
    ensures WellFormed(r)
    decreases |sids|
  {
    if sids == [] then b
    else
      DepartWellFormed(b, c, sids[0]);
      Cleanup(Depart(b, c, sids[0]), c, sids[1..])
  }

  function Halted(subs: seq<Sub>, c: ConnId): (r: seq<Sub>)
    ensures |r| == |subs|
    ensures forall k :: 0 <= k < |r| ==> r[k] == if subs[k].conn == c then subs[k].(halted := true) else subs[k]
  {
    seq(|subs|, k requires 0 <= k < |subs| => if subs[k].conn == c then subs[k].(halted := true) else subs[k])
  }

  // ----- Actions -----

  datatype Action =
    | Connect(conn: ConnId, role: Option<string>)
    | SetMeta(conn: ConnId, role: Option<string>)
    | Create(conn: ConnId, sid: SessionId, agent: string, ephemeral: Option<Ephemeral>, tags: seq<string>,
             initial: seq<Chunk>)
    | Fork(conn: ConnId, parent: SessionId, sid: SessionId, provenanceId: ChunkId)
    | Delete(conn: ConnId, sid: SessionId)
    | SetTags(conn: ConnId, sid: SessionId, tags: seq<string>, note: Chunk)
    | Publish(conn: ConnId, sid: SessionId, chunk: Chunk)
    | Subscribe(conn: ConnId, sid: SessionId, gated: bool)
    | SubscribeAll(conn: ConnId, filter: Option<SubscribeFilter>, chosen: seq<SessionId>)
    | Announce(sub: nat, feed: nat)
    | Replay(sub: nat, feed: nat)
    | GoLive(sub: nat, feed: nat)
    | Listen(sub: nat)
    | TakeEvent(sub: nat)
    | Attach(sub: nat)
    | Forward(sub: nat, feed: nat)
    | StopLagged(sub: nat, feed: nat)
    | Break(sub: nat)
    | Disconnect(conn: ConnId)
    | Advance(to: Instant)
    | Fire(timer: nat)

  /** The connection's loop is waiting for its next command. */
  predicate Idle(b: Bus, c: ConnId) {
    c in b.conns && b.conns[c].open && b.conns[c].busy.None?
  }

  predicate Settled(f: Feed) {
    f.stage.Live? || f.stage.Stopped?
  }

  predicate AllSettled(feeds: seq<Feed>) {
    forall i :: 0 <= i < |feeds| ==> Settled(feeds[i])
  }

  /** `chosen` lists, in the registry's arbitrary order, the sessions to snapshot. */
  predicate IsSnapshotOrder(b: Bus, filter: Option<SubscribeFilter>, chosen: seq<SessionId>)
    requires WellFormed(b)
  {
    && Distinct(chosen)
    && (forall sid :: sid in chosen ==> sid in b.live && SessionMatches(b.insts[b.live[sid]].session, filter))
    && (forall sid :: sid in b.live && SessionMatches(b.insts[b.live[sid]].session, filter) ==> sid in chosen)
  }

  predicate Writable(b: Bus, k: nat, i: nat) {
    k < |b.subs| && i < |b.subs[k].feeds| && !b.subs[k].closed
  }

  predicate Forwarding(b: Bus, k: nat, i: nat) {
    Writable(b, k, i) && b.subs[k].feeds[i].stage.Live? && (b.subs[k].scope.One? ==> !b.subs[k].halted)
  }

  predicate Listener(b: Bus, k: nat) {
    k < |b.subs| && b.subs[k].scope.Everything? && !b.subs[k].closed && !b.subs[k].halted
  }

  predicate Enabled(b: Bus, a: Action)
    requires WellFormed(b)
  {
    match a
    case Connect(c, _) => c !in b.conns
    case SetMeta(c, _) => Idle(b, c)
    case Create(c, _, _, _, _, initial) => Idle(b, c) && AllStored(initial)
    case Fork(c, _, _, _) => Idle(b, c)
    case Delete(c, _) => Idle(b, c)
    case SetTags(c, _, _, note) => Idle(b, c) && Stored(note)
    case Publish(c, _, _) => Idle(b, c)
    case Subscribe(c, _, _) => Idle(b, c)
    case SubscribeAll(c, filter, chosen) => Idle(b, c) && IsSnapshotOrder(b, filter, chosen)
    case Announce(k, i) =>
      Listener(b, k) && Writable(b, k, i) && b.subs[k].feeds[i].stage.Waiting? && AllSettled(b.subs[k].feeds[..i])
    case Replay(k, i) =>
      Writable(b, k, i) && !b.subs[k].halted && b.subs[k].feeds[i].stage.Replaying? && b.subs[k].feeds[i].todo != []
    case GoLive(k, i) =>
      Writable(b, k, i) && !b.subs[k].halted && b.subs[k].feeds[i].stage.Replaying? && b.subs[k].feeds[i].todo == []
    case Listen(k) => Listener(b, k) && !b.subs[k].listening && AllSettled(b.subs[k].feeds)
    case TakeEvent(k) =>
      && Listener(b, k) && b.subs[k].listening && b.subs[k].fetched.None? && !b.subs[k].overrun
      && b.subs[k].events != [] && AllSettled(b.subs[k].feeds)
    case Attach(k) => Listener(b, k) && b.subs[k].fetched.Some?
    case Forward(k, i) => Forwarding(b, k, i) && !b.subs[k].feeds[i].lagged && b.subs[k].feeds[i].queue != []
    case StopLagged(k, i) => Forwarding(b, k, i) && b.subs[k].feeds[i].lagged
    case Break(k) => k < |b.subs| && !b.subs[k].closed
    case Disconnect(c) => Idle(b, c)
    case Advance(t) => b.now < t
    case Fire(j) => j < |b.timers| && b.timers[j].due <= b.now
  }

  function DoSubscribe(b: Bus, c: ConnId, sid: SessionId, gated: bool): Bus
    requires WellFormed(b) && c in b.conns
  {
    if sid !in b.live then b
    else
      var n := b.live[sid];
      var s := b.insts[n].session;
      var feed := FeedFrom(b, n, s.agent, Replaying);
      var joined := Pruned(s.(subscribers := s.subscribers[c := b.conns[c].role]), b.now);
      var sub := Sub(c, One(sid), gated, |b.insts|, [feed], [], false, [], false, None, false, false, map[]);
      WithSession(b, n, joined).(subs := b.subs + [sub], conns := b.conns[c := b.conns[c].(busy := Some(|b.subs|))])
  }

  function PruneChosen(b: Bus, chosen: seq<SessionId>): (r: seq<Instance>)
    ensures |r| == |b.insts|
    ensures forall n :: 0 <= n < |r| ==>
      r[n] == b.insts[n] || r[n] == b.insts[n].(session := Pruned(b.insts[n].session, b.now))
  {
    seq(|b.insts|, n requires 0 <= n < |b.insts| =>
      var inst := b.insts[n];
      if inst.session.id in chosen && inst.session.id in b.live && b.live[inst.session.id] == n
      then inst.(session := Pruned(inst.session, b.now)) else inst)
  }

  /** The live instances and the tags they carry. */
  function LiveTags(b: Bus): (r: map<nat, seq<string>>)
    requires WellFormed(b)
    ensures forall n :: n in r <==> n in b.live.Values
    ensures forall n :: n in r ==> n < |b.insts| && r[n] == b.insts[n].session.tags
  {
    map n | n in b.live.Values :: assert n < |b.insts|; b.insts[n].session.tags
  }

  function DoSubscribeAll(b: Bus, c: ConnId, filter: Option<SubscribeFilter>, chosen: seq<SessionId>): Bus
    requires WellFormed(b) && c in b.conns && IsSnapshotOrder(b, filter, chosen)
  {
    var feeds := seq(|chosen|, i requires 0 <= i < |chosen| =>
      assert chosen[i] in chosen;
      FeedFrom(b, b.live[chosen[i]], b.insts[b.live[chosen[i]]].session.agent, Waiting));
    var sub := Sub(c, Everything(filter), false, |b.insts|, feeds, [], false, [], false, None, false, false, LiveTags(b));
    b.(insts := PruneChosen(b, chosen), subs := b.subs + [sub],
       conns := b.conns[c := b.conns[c].(busy := Some(|b.subs|))])
  }

  /** The loop of the connection goes on, remembering the spawned task for cleanup. */
  function Resume(b: Bus, k: nat, tracked: seq<SessionId>): Bus
    requires k < |b.subs|
  {
    var c := b.subs[k].conn;
    if c in b.conns && b.conns[c].busy == Some(k)
    then b.(conns := b.conns[c := b.conns[c].(busy := None, tracked := b.conns[c].tracked + tracked)]) else b
  }

  /** The tasks that move one feed on. */
  predicate IsFeedTask(a: Action) {
    a.Announce? || a.Replay? || a.GoLive? || a.Forward? || a.StopLagged?
  }

  /** What a feed task leaves of its feed. */
  function FeedAfter(s: Sub, f: Feed, a: Action): Feed
    requires IsFeedTask(a) && (a.Replay? ==> f.todo != []) && (a.Forward? ==> f.queue != [])
  {
    match a
    case Announce(_, _) => f.(stage := Replaying)
    case Replay(_, _) => f.(todo := f.todo[1..], sent := f.sent + Written(s, f.todo[0]))
    case GoLive(_, _) => f.(stage := Live)
    case Forward(_, _) => f.(queue := f.queue[1..], sent := f.sent + Written(s, f.queue[0]))
    case _ => f.(stage := Stopped)
  }

  /** What a feed task writes; only Subscribe marks the end of the history and reports a lag. */
  function FeedOut(sid: SessionId, s: Sub, f: Feed, a: Action): seq<Msg>
    requires IsFeedTask(a) && (a.Replay? ==> f.todo != []) && (a.Forward? ==> f.queue != [])
  {
    match a
    case Announce(_, _) => [EventMsg(SessionCreated(sid, f.agent))]
    case Replay(_, _) => ChunksOut(sid, Written(s, f.todo[0]))
    case GoLive(_, _) => if s.scope.One? then [HistoryComplete(s.scope.sid, |f.history| + |f.retained|)] else []
    case Forward(_, _) => ChunksOut(sid, Written(s, f.queue[0]))
    case _ => if s.scope.One? then [SubscriberLagged(s.scope.sid)] else []
  }

  function ChunksOut(sid: SessionId, cs: seq<Chunk>): (r: seq<Msg>)
    ensures |r| == |cs| && forall i :: 0 <= i < |r| ==> r[i] == ChunkMsg(sid, cs[i])
  {
    seq(|cs|, i requires 0 <= i < |cs| => ChunkMsg(sid, cs[i]))
  }

  function FeedMoved(b: Bus, a: Action): Sub
    requires WellFormed(b) && Enabled(b, a) && IsFeedTask(a)
  {
    var s := b.subs[a.sub];
    var f := s.feeds[a.feed];
    WithFeed(s, a.feed, FeedAfter(s, f, a), FeedOut(b.insts[f.inst].session.id, s, f, a))
  }

  function DoFeedTask(b: Bus, a: Action): Bus
    requires WellFormed(b) && Enabled(b, a) && IsFeedTask(a)
  {
    var b1 := WithSub(b, a.sub, FeedMoved(b, a));
    if a.GoLive? && b.subs[a.sub].scope.One? then Resume(b1, a.sub, [b.subs[a.sub].scope.sid]) else b1
  }

  /** What a listener writes when it takes the next event. */
  function EventOut(s: Sub): seq<Msg>
    requires s.events != []
  {
    if s.events[0].SessionCreated? && s.scope.Everything? && s.scope.filter.Some? then [] else [EventMsg(s.events[0])]
  }

  /** The listener takes the next registry event; a filtered one announces only what it attaches. */
  function EventTaken(s: Sub): Sub
    requires s.scope.Everything? && s.events != []
  {
    var e := s.events[0];
    s.(events := s.events[1..],
       out := if e.SessionCreated? && s.scope.filter.Some? then s.out else s.out + [EventMsg(e)],
       fetched := if e.SessionCreated? then Some(e) else s.fetched)
  }

  /** What a listener has looked at once it looked up the session it fetched the event of. */
  function Looked(b: Bus, k: nat): map<nat, seq<string>>
    requires WellFormed(b) && k < |b.subs| && b.subs[k].fetched.Some?
  {
    var sid := b.subs[k].fetched.value.sid;
    if sid in b.live then b.subs[k].seen[b.live[sid] := b.insts[b.live[sid]].session.tags] else b.subs[k].seen
  }

  function DoAttach(b: Bus, k: nat): Bus
    requires WellFormed(b) && Enabled(b, Attach(k))
  {
    var s := b.subs[k];
    var e := s.fetched.value;
    if e.sid in b.live && SessionMatches(b.insts[b.live[e.sid]].session, s.scope.filter) then
      var n := b.live[e.sid];
      var agent := if e.SessionCreated? then e.agent else "";
      var feed := FeedFrom(b, n, agent, if s.scope.filter.None? then Replaying else Waiting);
      WithSub(WithSession(b, n, Pruned(b.insts[n].session, b.now)), k,
              s.(fetched := None, feeds := s.feeds + [feed], seen := Looked(b, k)))
    else WithSub(b, k, s.(fetched := None, seen := Looked(b, k)))
  }

  function DoFire(b: Bus, j: nat): Bus
    requires WellFormed(b) && j < |b.timers|
  {
    var sid := b.timers[j].sid;
    var b1 := b.(timers := WithoutTimer(b.timers, j));
    if sid in b.live && b.insts[b.live[sid]].session.ephemeral.Some? && Counted(b.insts[b.live[sid]].session) == {}
    then Remove(b1, sid) else b1
  }

  /** What the code does in one action; commands that fail only answer their own connection. */
  function Effect(b: Bus, a: Action): Bus
    requires WellFormed(b) && Enabled(b, a)
  {
    match a
    case Connect(c, role) => b.(conns := b.conns[c := Conn(role, [], None, true)])
    case SetMeta(c, role) => b.(conns := b.conns[c := b.conns[c].(role := role)])
    case Create(_, sid, agent, ephemeral, tags, initial) =>
      if sid in b.live then b
      else Insert(b, NewSession(sid, agent).(ephemeral := ephemeral, tags := tags, history := initial))
    case Fork(_, parent, sid, provenanceId) =>
      if sid in b.live || parent !in b.live then b
      else
        var s := b.insts[b.live[parent]].session;
        Insert(WithSession(b, b.live[parent], Pruned(s, b.now)),
               Forked(s, sid, b.now, Provenance(provenanceId, parent)))
    case Delete(_, sid) => Remove(b, sid)
    case SetTags(_, sid, tags, note) =>
      if sid !in b.live then b
      else Retag(PublishAt(b, b.live[sid], note), b.live[sid], sid, tags)
    case Publish(c, sid, chunk) =>
      if TextAnnotation(Tagged(a), CAFE_DIRECT_TO).Some? || sid !in b.live then b
      else PublishAt(b, b.live[sid], Tagged(a))
    case Subscribe(c, sid, gated) => DoSubscribe(b, c, sid, gated)
    case SubscribeAll(c, filter, chosen) => DoSubscribeAll(b, c, filter, chosen)
    case Listen(k) => Resume(WithSub(b, k, b.subs[k].(listening := true)), k, [""])
    case TakeEvent(k) => WithSub(b, k, EventTaken(b.subs[k]))
    case Attach(k) => DoAttach(b, k)
    case Break(k) =>
      Resume(WithSub(b, k, b.subs[k].(closed := true)), k, if b.subs[k].scope.Everything? then [""] else [])
    case Disconnect(c) =>
      Cleanup(Dropped(b, c), c, b.conns[c].tracked)
    case Advance(t) => b.(now := t)
    case Fire(j) => DoFire(b, j)
    case _ => DoFeedTask(b, a)
  }

  /** Records since when an instance has had no counted subscriber left. */
  function Observed(b: Bus, b': Bus): map<nat, Instant> {
    map n | 0 <= n < |b'.insts|
            && Counted(b'.insts[n].session) == {}
            && (n in b.emptied || (n < |b.insts| && Counted(b.insts[n].session) != {})) ::
      if n < |b.insts| && Counted(b.insts[n].session) != {} then b'.now else b.emptied[n]
  }

  /** What a task writes in one step. */
  function TaskOut(b: Bus, a: Action): seq<Msg>
    requires WellFormed(b) && Enabled(b, a) && IsTask(a)
  {
    var s := b.subs[a.sub];
    if IsFeedTask(a) then FeedOut(b.insts[s.feeds[a.feed].inst].session.id, s, s.feeds[a.feed], a)
    else if a.TakeEvent? then EventOut(s)
    else []
  }

  function HandedOver(c: ConnId, k: nat, msgs: seq<Msg>): (r: seq<Write>)
    ensures |r| == |msgs| && forall i :: 0 <= i < |r| ==> r[i] == Write(c, Some(k), msgs[i])
  {
    seq(|msgs|, i requires 0 <= i < |msgs| => Write(c, Some(k), msgs[i]))
  }

  /** The chunk as it is published: marked with the connection it comes from. */
  function Tagged(a: Action): Chunk
    requires a.Publish?
  {
    WithAnnotation(a.chunk, CAFE_SOURCE_CONNECTION, Str(a.conn))
  }

  /** A direct-to publish goes to the connection it names, whatever session it names. */
  function DirectOut(b: Bus, a: Action): seq<Write>
    requires a.Publish?
  {
    var target := TextAnnotation(Tagged(a), CAFE_DIRECT_TO);
    if target.Some? && target.value in b.conns && b.conns[target.value].open
    then [Write(target.value, None, ChunkMsg(a.sid, Tagged(a)))] else []
  }

  /** What one step hands to the connections' writers. */
  function WireOut(b: Bus, a: Action): seq<Write>
    requires WellFormed(b) && Enabled(b, a)
  {
    if IsTask(a) then HandedOver(b.subs[a.sub].conn, a.sub, TaskOut(b, a))
    else if a.Publish? then DirectOut(b, a)
    else []
  }

  function Next(b: Bus, a: Action): Bus
    requires WellFormed(b) && Enabled(b, a)
  {
    var b' := Effect(b, a);
    b'.(emptied := Observed(b, b'), wire := b.wire + WireOut(b, a))
  }

  predicate IsCommand(a: Action) {
    a.Connect? || a.SetMeta? || a.Create? || a.Fork? || a.Delete? || a.SetTags? || a.Publish?
  }

  predicate IsSubscribing(a: Action) {
    a.Subscribe? || a.SubscribeAll?
  }

  predicate IsTask(a: Action) {
    a.Announce? || a.Replay? || a.GoLive? || a.Listen? || a.TakeEvent? || a.Attach? || a.Forward? || a.StopLagged?
    || a.Break?
  }

  /** What no step ever takes back. */
  predicate Grows(b: Bus, b': Bus) {
    && |b.insts| <= |b'.insts| && |b.subs| <= |b'.subs|
    && (forall n :: 0 <= n < |b.insts| ==> InstanceGrows(b.insts[n], b'.insts[n]))
    && (forall k :: 0 <= k < |b.subs| ==> SubGrows(b.subs[k], b'.subs[k]))
    && (forall sid :: sid in b'.live ==> (sid in b.live && b'.live[sid] == b.live[sid]) || |b.insts| <= b'.live[sid])
  }

  predicate InstanceGrows(x: Instance, y: Instance) {
    x.session.id == y.session.id && x.session.agent == y.session.agent && x.session.ephemeral == y.session.ephemeral
    && x.seed == y.seed && x.log <= y.log
  }

  predicate SubGrows(x: Sub, y: Sub) {
    && x.conn == y.conn && x.scope == y.scope && x.gated == y.gated && x.since == y.since
    && |x.feeds| <= |y.feeds| && x.out <= y.out
    && (x.closed ==> y.closed) && (x.halted ==> y.halted)
    && (forall i :: 0 <= i < |x.feeds| ==> FeedGrows(x.feeds[i], y.feeds[i]))
  }

  predicate FeedGrows(x: Feed, y: Feed) {
    x.inst == y.inst && x.from == y.from && x.history == y.history && x.retained == y.retained && x.agent == y.agent
    && x.sent <= y.sent && (x.lagged ==> y.lagged)
  }

  // ----- Each effect keeps the state well-formed and only adds to it -----

  lemma FeedsGrowReflexively(feeds: seq<Feed>)
    ensures forall i :: 0 <= i < |feeds| ==> FeedGrows(feeds[i], feeds[i])
  {
  }

  lemma SameFeedsGrow(x: Sub, y: Sub)
    requires x.conn == y.conn && x.scope == y.scope && x.gated == y.gated && x.since == y.since
    requires x.feeds == y.feeds && x.out <= y.out && (x.closed ==> y.closed) && (x.halted ==> y.halted)
    ensures SubGrows(x, y)
  {
    FeedsGrowReflexively(x.feeds);
  }

  lemma NotifyGrows(b: Bus, b': Bus, e: Event)
    requires WellFormed(b)
    requires b'.insts == b.insts && b'.subs == Notify(b.subs, e)
    requires forall sid :: sid in b'.live ==> sid in b.live && b'.live[sid] == b.live[sid]
    ensures WellFormed(b') && Grows(b, b')
  {
    forall k | 0 <= k < |b.subs| ensures SubGrows(b.subs[k], b'.subs[k]) {
      SameFeedsGrow(b.subs[k], b'.subs[k]);
    }
  }

  lemma QuietGrows(b: Bus, b': Bus)
    requires WellFormed(b)
    requires b'.insts == b.insts && b'.subs == b.subs && b'.live == b.live
    ensures WellFormed(b') && Grows(b, b')
  {
    forall k | 0 <= k < |b.subs| ensures SubGrows(b.subs[k], b'.subs[k]) {
      SameFeedsGrow(b.subs[k], b'.subs[k]);
    }
  }

  lemma WithSessionGrows(b: Bus, n: nat, s: Session)
    requires WellFormed(b) && n < |b.insts|
    requires var t := b.insts[n].session; s.id == t.id && s.agent == t.agent && s.ephemeral == t.ephemeral
    ensures WellFormed(WithSession(b, n, s)) && Grows(b, WithSession(b, n, s))
  {
    forall k | 0 <= k < |b.subs| ensures SubGrows(b.subs[k], b.subs[k]) {
      SameFeedsGrow(b.subs[k], b.subs[k]);
    }
  }

  lemma InsertGrows(b: Bus, s: Session)
    requires WellFormed(b)
    ensures WellFormed(Insert(b, s)) && Grows(b, Insert(b, s))
  {
    var b' := Insert(b, s);
    forall k | 0 <= k < |b.subs| ensures SubGrows(b.subs[k], b'.subs[k]) {
      SameFeedsGrow(b.subs[k], b'.subs[k]);
    }
  }

  lemma RemoveGrows(b: Bus, sid: SessionId)
    requires WellFormed(b)
    ensures WellFormed(Remove(b, sid)) && Grows(b, Remove(b, sid))
  {
    if sid in b.live {
      NotifyGrows(b, Remove(b, sid), SessionDeleted(sid));
    } else {
      QuietGrows(b, b);
    }
  }

  lemma PublishGrows(b: Bus, n: nat, c: Chunk)
    requires WellFormed(b) && n < |b.insts|
    ensures WellFormed(PublishAt(b, n, c)) && Grows(b, PublishAt(b, n, c))
  {
    var b' := PublishAt(b, n, c);
    forall k | 0 <= k < |b.subs| ensures SubGrows(b.subs[k], b'.subs[k]) {
      var x, y := b.subs[k], b'.subs[k];
      forall i | 0 <= i < |x.feeds| ensures FeedGrows(x.feeds[i], y.feeds[i]) {
      }
    }
  }

  lemma WithSubGrows(b: Bus, k: nat, s: Sub)
    requires WellFormed(b) && k < |b.subs| && SubGrows(b.subs[k], s)
    requires forall i :: 0 <= i < |s.feeds| ==> s.feeds[i].inst < |b.insts|
    ensures WellFormed(WithSub(b, k, s)) && Grows(b, WithSub(b, k, s))
  {
    forall m | 0 <= m < |b.subs| ensures SubGrows(b.subs[m], WithSub(b, k, s).subs[m]) {
      if m != k {
        SameFeedsGrow(b.subs[m], b.subs[m]);
      }
    }
  }

  lemma WithFeedGrows(b: Bus, k: nat, i: nat, f: Feed, written: seq<Msg>)
    requires WellFormed(b) && k < |b.subs| && i < |b.subs[k].feeds| && FeedGrows(b.subs[k].feeds[i], f)
    ensures var b' := WithSub(b, k, WithFeed(b.subs[k], i, f, written)); WellFormed(b') && Grows(b, b')
  {
    var s := b.subs[k];
    FeedsGrowReflexively(s.feeds);
    WithSubGrows(b, k, WithFeed(s, i, f, written));
  }

  lemma NewSubGrows(b: Bus, b': Bus, s: Sub)
    requires WellFormed(b) && b'.subs == b.subs + [s] && b'.live == b.live
    requires |b'.insts| == |b.insts|
    requires forall n :: 0 <= n < |b.insts| ==> InstanceGrows(b.insts[n], b'.insts[n])
    requires forall i :: 0 <= i < |s.feeds| ==> s.feeds[i].inst < |b.insts|
    ensures WellFormed(b') && Grows(b, b')
  {
    forall k | 0 <= k < |b.subs| ensures SubGrows(b.subs[k], b'.subs[k]) {
      SameFeedsGrow(b.subs[k], b'.subs[k]);
    }
  }

  lemma GrowsTransitive(x: Bus, y: Bus, z: Bus)
    requires Grows(x, y) && Grows(y, z)
    ensures Grows(x, z)
  {
    forall n | 0 <= n < |x.insts| ensures InstanceGrows(x.insts[n], z.insts[n]) {
      assert InstanceGrows(x.insts[n], y.insts[n]) && InstanceGrows(y.insts[n], z.insts[n]);
    }
    forall k | 0 <= k < |x.subs| ensures SubGrows(x.subs[k], z.subs[k]) {
      assert SubGrows(x.subs[k], y.subs[k]) && SubGrows(y.subs[k], z.subs[k]);
      forall i | 0 <= i < |x.subs[k].feeds| ensures FeedGrows(x.subs[k].feeds[i], z.subs[k].feeds[i]) {
        assert FeedGrows(x.subs[k].feeds[i], y.subs[k].feeds[i]) && FeedGrows(y.subs[k].feeds[i], z.subs[k].feeds[i]);
      }
    }
  }

  lemma CommandGrows(b: Bus, a: Action)
    requires WellFormed(b) && Enabled(b, a) && IsCommand(a)
    ensures WellFormed(Effect(b, a)) && Grows(b, Effect(b, a))
  {
    QuietGrows(b, b);
    match a
    case Connect(c, role) => QuietGrows(b, Effect(b, a));
    case SetMeta(c, role) => QuietGrows(b, Effect(b, a));
    case Create(_, sid, agent, ephemeral, tags, initial) =>
      InsertGrows(b, NewSession(sid, agent).(ephemeral := ephemeral, tags := tags, history := initial));
    case Delete(_, sid) => RemoveGrows(b, sid);
    case Publish(c, sid, chunk) =>
      if sid in b.live {
        PublishGrows(b, b.live[sid], Tagged(a));
      }
    case Fork(_, parent, sid, provenanceId) => ForkGrows(b, a);
    case SetTags(_, sid, tags, note) => SetTagsGrows(b, a);
  }

  lemma ForkGrows(b: Bus, a: Action)
    requires WellFormed(b) && Enabled(b, a) && a.Fork?
    ensures WellFormed(Effect(b, a)) && Grows(b, Effect(b, a))
  {
    if a.sid !in b.live && a.parent in b.live {
      var s := b.insts[b.live[a.parent]].session;
      WithSessionGrows(b, b.live[a.parent], Pruned(s, b.now));
      var b1 := WithSession(b, b.live[a.parent], Pruned(s, b.now));
      InsertGrows(b1, Forked(s, a.sid, b.now, Provenance(a.provenanceId, a.parent)));
      GrowsTransitive(b, b1, Effect(b, a));
    } else {
      QuietGrows(b, b);
    }
  }

  lemma SetTagsGrows(b: Bus, a: Action)
    requires WellFormed(b) && Enabled(b, a) && a.SetTags?
    ensures WellFormed(Effect(b, a)) && Grows(b, Effect(b, a))
  {
    if a.sid in b.live {
      var n := b.live[a.sid];
      PublishGrows(b, n, a.note);
      var b1 := PublishAt(b, n, a.note);
      WithSessionGrows(b1, n, b1.insts[n].session.(tags := a.tags));
      var b2 := WithSession(b1, n, b1.insts[n].session.(tags := a.tags));
      NotifyGrows(b2, Retag(b1, n, a.sid, a.tags), TagsUpdated(a.sid, a.tags));
      GrowsTransitive(b, b1, b2);
      GrowsTransitive(b, b2, Effect(b, a));
    } else {
      QuietGrows(b, b);
    }
  }

  lemma SubscribingGrows(b: Bus, a: Action)
    requires WellFormed(b) && Enabled(b, a) && IsSubscribing(a)
    ensures WellFormed(Effect(b, a)) && Grows(b, Effect(b, a))
  {
    var b' := Effect(b, a);
    if a.Subscribe? && a.sid !in b.live {
      QuietGrows(b, b);
    } else {
      NewSubGrows(b, b', b'.subs[|b.subs|]);
    }
  }

  lemma TaskGrows(b: Bus, a: Action)
    requires WellFormed(b) && Enabled(b, a) && IsTask(a)
    ensures WellFormed(Effect(b, a)) && Grows(b, Effect(b, a))
  {
    var k := a.sub;
    var s := b.subs[k];
    if a.Attach? {
      AttachGrows(b, k);
    } else if IsFeedTask(a) {
      FeedTaskGrows(b, a);
    } else {
      var s' := if a.Listen? then s.(listening := true) else if a.Break? then s.(closed := true) else EventTaken(s);
      SameFeedsGrow(s, s');
      WithSubGrows(b, k, s');
      QuietGrows(WithSub(b, k, s'), Effect(b, a));
      GrowsTransitive(b, WithSub(b, k, s'), Effect(b, a));
    }
  }

  lemma FeedTaskGrows(b: Bus, a: Action)
    requires WellFormed(b) && Enabled(b, a) && IsFeedTask(a)
    ensures WellFormed(Effect(b, a)) && Grows(b, Effect(b, a))
  {
    var s := b.subs[a.sub];
    var f := s.feeds[a.feed];
    WithFeedGrows(b, a.sub, a.feed, FeedAfter(s, f, a), FeedOut(b.insts[f.inst].session.id, s, f, a));
    var b1 := WithSub(b, a.sub, FeedMoved(b, a));
    QuietGrows(b1, Effect(b, a));
    GrowsTransitive(b, b1, Effect(b, a));
  }

  lemma AttachGrows(b: Bus, k: nat)
    requires WellFormed(b) && Enabled(b, Attach(k))
    ensures WellFormed(DoAttach(b, k)) && Grows(b, DoAttach(b, k))
  {
    var s := b.subs[k];
    var sid := s.fetched.value.sid;
    FeedsGrowReflexively(s.feeds);
    if sid in b.live && SessionMatches(b.insts[b.live[sid]].session, s.scope.filter) {
      var n := b.live[sid];
      var pruned := Pruned(b.insts[n].session, b.now);
      WithSessionGrows(b, n, pruned);
      var b1 := WithSession(b, n, pruned);
      var t := DoAttach(b, k).subs[k];
      assert DoAttach(b, k) == WithSub(b1, k, t);
      WithSubGrows(b1, k, t);
      GrowsTransitive(b, b1, WithSub(b1, k, t));
    } else {
      WithSubGrows(b, k, DoAttach(b, k).subs[k]);
    }
  }

  lemma DepartGrows(b: Bus, c: ConnId, sid: SessionId)
    requires WellFormed(b)
    ensures WellFormed(Depart(b, c, sid)) && Grows(b, Depart(b, c, sid))
  {
    QuietGrows(b, b);
    if sid in b.live {
      var n := b.live[sid];
      var b1 := WithSession(b, n, Left(b.insts[n].session, c));
      WithSessionGrows(b, n, Left(b.insts[n].session, c));
      RemoveGrows(b1, sid);
      GrowsTransitive(b, b1, Remove(b1, sid));
      if Depart(b, c, sid).live == b1.live {
        QuietGrows(b1, Depart(b, c, sid));
        GrowsTransitive(b, b1, Depart(b, c, sid));
      }
    }
  }

  lemma {:induction false} CleanupGrows(b: Bus, c: ConnId, sids: seq<SessionId>)
    requires WellFormed(b)
    ensures Grows(b, Cleanup(b, c, sids))
    decreases |sids|
  {
    QuietGrows(b, b);
    if sids != [] {
      var b1 := Depart(b, c, sids[0]);
      DepartGrows(b, c, sids[0]);
      CleanupGrows(b1, c, sids[1..]);
      GrowsTransitive(b, b1, Cleanup(b1, c, sids[1..]));
    }
  }

  /** A connection that is gone: its tasks are aborted, its subscriptions not yet removed. */
  function Dropped(b: Bus, c: ConnId): Bus
    requires c in b.conns
  {
    b.(subs := Halted(b.subs, c), conns := b.conns[c := b.conns[c].(open := false)])
  }

  lemma DroppedGrows(b: Bus, c: ConnId)
    requires WellFormed(b) && c in b.conns
    ensures WellFormed(Dropped(b, c)) && Grows(b, Dropped(b, c))
  {
    var b' := Dropped(b, c);
    forall k | 0 <= k < |b.subs| ensures SubGrows(b.subs[k], b'.subs[k]) {
      SameFeedsGrow(b.subs[k], b'.subs[k]);
    }
  }

  lemma TimeGrows(b: Bus, a: Action)
    requires WellFormed(b) && Enabled(b, a) && (a.Advance? || a.Fire? || a.Disconnect?)
    ensures WellFormed(Effect(b, a)) && Grows(b, Effect(b, a))
  {
    match a
    case Advance(_) => QuietGrows(b, Effect(b, a));
    case Fire(j) =>
      var b1 := b.(timers := WithoutTimer(b.timers, j));
      QuietGrows(b, b1);
      RemoveGrows(b1, b.timers[j].sid);
      GrowsTransitive(b, b1, Remove(b1, b.timers[j].sid));
    case Disconnect(c) =>
      DroppedGrows(b, c);
      CleanupGrows(Dropped(b, c), c, b.conns[c].tracked);
      GrowsTransitive(b, Dropped(b, c), Effect(b, a));
  }

  /** Every step keeps the state well-formed and takes nothing back. */
  lemma StepGrows(b: Bus, a: Action)
    requires WellFormed(b) && Enabled(b, a)
    ensures WellFormed(Next(b, a)) && Grows(b, Next(b, a))
  {
    if IsCommand(a) {
      CommandGrows(b, a);
    } else if IsSubscribing(a) {
      SubscribingGrows(b, a);
    } else if IsTask(a) {
      TaskGrows(b, a);
    } else {
      TimeGrows(b, a);
    }
    QuietGrows(Effect(b, a), Next(b, a));
    GrowsTransitive(b, Effect(b, a), Next(b, a));
  }

  /** The tasks after which the connection's loop takes its next command. */
  predicate Resumes(b: Bus, a: Action)
    requires WellFormed(b) && Enabled(b, a)
  {
    (a.GoLive? && b.subs[a.sub].scope.One?) || a.Listen? || a.Break?
  }

  /** What the loop then remembers for its cleanup. */
  function Tracks(b: Bus, a: Action): seq<SessionId>
    requires WellFormed(b) && Enabled(b, a) && IsTask(a)
  {
    if b.subs[a.sub].scope.Everything? then [""] else if a.GoLive? then [b.subs[a.sub].scope.sid] else []
  }

  predicate SameWriter(x: Sub, y: Sub) {
    x.conn == y.conn && x.scope == y.scope && x.closed == y.closed && x.halted == y.halted
  }

  lemma FeedTaskShape(b: Bus, a: Action)
    requires WellFormed(b) && Enabled(b, a) && IsFeedTask(a)
    ensures Effect(b, a) == DoFeedTask(b, a) && Effect(b, a).subs == b.subs[a.sub := FeedMoved(b, a)]
    ensures Effect(b, a).conns == if Resumes(b, a) then Resume(b, a.sub, Tracks(b, a)).conns else b.conns
  {
    assert WithSub(b, a.sub, FeedMoved(b, a)).subs[a.sub].conn == b.subs[a.sub].conn;
  }

  /** A task works on one subscription and at most resumes its connection's loop. */
  lemma TaskShape(b: Bus, a: Action)
    requires WellFormed(b) && Enabled(b, a) && IsTask(a)
    ensures TaskOnly(b, a, Effect(b, a))
  {
    if IsFeedTask(a) {
      FeedTaskShape(b, a);
    } else if a.Attach? {
      AttachShape(b, a);
    } else {
      LoopTaskShape(b, a);
    }
  }

  predicate TaskOnly(b: Bus, a: Action, b': Bus)
    requires WellFormed(b) && Enabled(b, a) && IsTask(a)
  {
    && b'.live == b.live && b'.timers == b.timers && b'.now == b.now && b'.emptied == b.emptied && b'.wire == b.wire
    && |b'.subs| == |b.subs| && b'.subs == b.subs[a.sub := b'.subs[a.sub]]
    && b'.conns == (if Resumes(b, a) then Resume(b, a.sub, Tracks(b, a)).conns else b.conns)
    && SameWriter(b.subs[a.sub].(closed := b.subs[a.sub].closed || a.Break?), b'.subs[a.sub])
  }

  lemma AttachShape(b: Bus, a: Action)
    requires WellFormed(b) && Enabled(b, a) && a.Attach?
    ensures Effect(b, a) == DoAttach(b, a.sub) && TaskOnly(b, a, DoAttach(b, a.sub))
  {
    assert Effect(b, a) == DoAttach(b, a.sub);
    AttachOnly(b, a);
  }

  lemma AttachOnly(b: Bus, a: Action)
    requires WellFormed(b) && Enabled(b, a) && a.Attach?
    ensures TaskOnly(b, a, DoAttach(b, a.sub))
  {
  }

  lemma LoopTaskShape(b: Bus, a: Action)
    requires WellFormed(b) && Enabled(b, a) && (a.Listen? || a.TakeEvent? || a.Break?)
    ensures TaskOnly(b, a, Effect(b, a))
  {
  }

  /** A session that stays live stays the same instance. */
  lemma LiveStays(b: Bus, a: Action, sid: SessionId)
    requires WellFormed(b) && Enabled(b, a) && sid in b.live && sid in Next(b, a).live
    ensures Next(b, a).live[sid] == b.live[sid]
  {
    if a.Create? || a.Fork? {
      CreationKeepsLive(b, a, sid);
    } else {
      StepGrows(b, a);
      NewInstanceIsAsked(b, a);
    }
  }

  lemma CreationKeepsLive(b: Bus, a: Action, sid: SessionId)
    requires WellFormed(b) && Enabled(b, a) && (a.Create? || a.Fork?) && sid in b.live
    ensures sid in Effect(b, a).live && Effect(b, a).live[sid] == b.live[sid]
  {
  }

  /** Only a create or a fork makes an instance, under the id it asks for. */
  lemma NewInstanceIsAsked(b: Bus, a: Action)
    requires WellFormed(b) && Enabled(b, a)
    ensures |Next(b, a).insts| > |b.insts| ==>
      (a.Create? || a.Fork?) && |Next(b, a).insts| == |b.insts| + 1 && Next(b, a).insts[|b.insts|].session.id == a.sid
  {
    if IsTask(a) {
      TaskMakesNothing(b, a);
    } else if a.Create? || a.Fork? {
      CreationIsAsked(b, a);
    } else if a.Disconnect? {
      CleanupKeepsCount(Dropped(b, a.conn), a.conn, b.conns[a.conn].tracked);
    }
  }

  lemma TaskMakesNothing(b: Bus, a: Action)
    requires WellFormed(b) && Enabled(b, a) && IsTask(a)
    ensures |Effect(b, a).insts| == |b.insts|
  {
    if IsFeedTask(a) {
      assert Effect(b, a) == DoFeedTask(b, a);
    } else if a.Attach? {
      assert Effect(b, a) == DoAttach(b, a.sub);
    }
  }

  lemma CreationIsAsked(b: Bus, a: Action)
    requires WellFormed(b) && Enabled(b, a) && (a.Create? || a.Fork?)
    ensures |Effect(b, a).insts| > |b.insts| ==>
      |Effect(b, a).insts| == |b.insts| + 1 && Effect(b, a).insts[|b.insts|].session.id == a.sid
  {
  }

  lemma {:induction false} CleanupKeepsCount(b: Bus, c: ConnId, sids: seq<SessionId>)
    requires WellFormed(b)
    ensures |Cleanup(b, c, sids).insts| == |b.insts|
    decreases |sids|
  {
    if sids != [] {
      DepartWellFormed(b, c, sids[0]);
      CleanupKeepsCount(Depart(b, c, sids[0]), c, sids[1..]);
    }
  }

  // ----- Runs -----

  /** Every action is enabled where it is taken. */
  predicate Feasible(b: Bus, run: seq<Action>)
    requires WellFormed(b)
    decreases |run|
  {
    run == [] ||
    (Enabled(b, run[0]) && (StepGrows(b, run[0]); Feasible(Next(b, run[0]), run[1..])))
  }

  function After(b: Bus, run: seq<Action>): (r: Bus)
    requires WellFormed(b) && Feasible(b, run)
    ensures WellFormed(r)
    decreases |run|
  {
    if run == [] then b else StepGrows(b, run[0]); After(Next(b, run[0]), run[1..])
  }
}
