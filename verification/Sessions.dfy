/**
 * One session of the bus: history with delete signals, retained transient chunks with
 * deadlines, role-tagged subscribers. `Session` is the abstract value, `SessionState`
 * the object that the bus mutates.
 */
module Sessions {
  import opened Basics
  import opened Chunks

  /** Instants are counted in nanoseconds; keepalive and retention are given in seconds. */
  type Instant = nat
  const SECOND: nat := 1_000_000_000

  datatype Held = Held(chunk: Chunk, deadline: Instant)
  datatype Ephemeral = Ephemeral(keepaliveSecs: nat, countRole: Option<string>)

  datatype Session = Session(
    id: SessionId,
    agent: string,
    history: seq<Chunk>,
    retained: seq<Held>,
    subscribers: map<ConnId, Option<string>>,
    ephemeral: Option<Ephemeral>,
    tags: seq<string>,
    parent: Option<SessionId>)

  function NewSession(id: SessionId, agent: string): Session {
    Session(id, agent, [], [], map[], None, [], None)
  }

  function IdIsNot(id: ChunkId): Chunk -> bool { (c: Chunk) => c.id != id }
  function HeldIdIsNot(id: ChunkId): Held -> bool { (h: Held) => h.chunk.id != id }
  function AliveAt(now: Instant): Held -> bool { (h: Held) => h.deadline > now }

  function ChunksOf(held: seq<Held>): (cs: seq<Chunk>)
    ensures |cs| == |held| && forall i :: 0 <= i < |cs| ==> cs[i] == held[i].chunk
  {
    seq(|held|, i requires 0 <= i < |held| => held[i].chunk)
  }

  /** What publishing `c` does to the history. */
  function Record(history: seq<Chunk>, c: Chunk): seq<Chunk> {
    match DeleteTarget(c)
    case Some(target) => Filter(history, IdIsNot(target))
    case None => if IsTransient(c) then history else history + [c]
  }

  /** What publishing `c` at instant `now` does to the retained buffer. */
  function Retain(retained: seq<Held>, c: Chunk, now: Instant): seq<Held> {
    match DeleteTarget(c)
    case Some(target) => Filter(retained, HeldIdIsNot(target))
    case None =>
      if RetainSecs(c).Some? then retained + [Held(c, now + RetainSecs(c).value * SECOND)] else retained
  }

  function Published(s: Session, c: Chunk, now: Instant): Session {
    s.(history := Record(s.history, c), retained := Retain(s.retained, c, now))
  }

  function Pruned(s: Session, now: Instant): Session {
    s.(retained := Filter(s.retained, AliveAt(now)))
  }

  /** The transient chunks a reader is given at instant `now`. */
  function Readable(s: Session, now: Instant): seq<Chunk> {
    ChunksOf(Filter(s.retained, AliveAt(now)))
  }

  predicate RoleCounts(ephemeral: Option<Ephemeral>, role: Option<string>) {
    ephemeral.Some? && ephemeral.value.countRole.Some? ==> role == ephemeral.value.countRole
  }

  /** The connections that count toward the session's lifecycle. */
  function Counted(s: Session): set<ConnId> {
    set c | c in s.subscribers && RoleCounts(s.ephemeral, s.subscribers[c])
  }

  // ----- The history in closed form -----

  /** The history after publishing `log` onto `seed`, one chunk at a time. */
  function Replayed(seed: seq<Chunk>, log: seq<Chunk>): seq<Chunk> {
    if log == [] then seed else Record(Replayed(seed, log[..|log| - 1]), log[|log| - 1])
  }

  /** Some entry of `log` at or after `from` is a delete signal naming `id`. */
  predicate DeletedFrom(log: seq<Chunk>, id: ChunkId, from: nat) {
    exists j :: from <= j < |log| && DeleteTarget(log[j]) == Some(id)
  }

  predicate Survives(log: seq<Chunk>, i: nat)
    requires i < |log|
  {
    Stored(log[i]) && !DeletedFrom(log, log[i].id, i + 1)
  }

  /** The surviving entries among the first `n` of `log`, in order. */
  function Survivors(log: seq<Chunk>, n: nat): seq<Chunk>
    requires n <= |log|
  {
    if n == 0 then []
    else if Survives(log, n - 1) then Survivors(log, n - 1) + [log[n - 1]]
    else Survivors(log, n - 1)
  }

  function NeverDeletedBy(log: seq<Chunk>): Chunk -> bool {
    (c: Chunk) => !DeletedFrom(log, c.id, 0)
  }

  lemma DeletedFromStep(log: seq<Chunk>, c: Chunk, id: ChunkId, from: nat)
    requires from <= |log|
    ensures DeletedFrom(log + [c], id, from) <==> DeletedFrom(log, id, from) || DeleteTarget(c) == Some(id)
  {
    var longer := log + [c];
    assert longer[|log|] == c;
    if DeletedFrom(log, id, from) {
      var j :| from <= j < |log| && DeleteTarget(log[j]) == Some(id);
      assert longer[j] == log[j];
    }
  }

  /** Appending to the log filters what survived before, and nothing else. */
  lemma {:induction false} SurvivorsStep(log: seq<Chunk>, c: Chunk, n: nat)
    requires n <= |log|
    ensures Survivors(log + [c], n) ==
            if DeleteTarget(c).Some? then Filter(Survivors(log, n), IdIsNot(DeleteTarget(c).value))
            else Survivors(log, n)
  {
    if n > 0 {
      SurvivorsStep(log, c, n - 1);
      var last := log[n - 1];
      assert (log + [c])[n - 1] == last;
      DeletedFromStep(log, c, last.id, n);
      assert Survives(log + [c], n - 1) <==> Survives(log, n - 1) && DeleteTarget(c) != Some(last.id);
      if DeleteTarget(c).Some? {
        FilterAppend(Survivors(log, n - 1), last, IdIsNot(DeleteTarget(c).value));
      }
    }
  }

  /**
   * History in closed form: after any sequence of publishes it is the seed without the
   * chunks some delete signal names, then, in order, the stored entries of the log that
   * no later delete signal names.
   */
  lemma {:induction false} HistoryClosedForm(seed: seq<Chunk>, log: seq<Chunk>)
    ensures Replayed(seed, log) == Filter(seed, NeverDeletedBy(log)) + Survivors(log, |log|)
  {
    if log == [] {
      FilterAll(seed, NeverDeletedBy(log));
    } else {
      var front, c := log[..|log| - 1], log[|log| - 1];
      assert log == front + [c];
      HistoryClosedForm(seed, front);
      SurvivorsStep(front, c, |front|);
      SeedStep(seed, front, c);
      assert Survivors(log, |log|) == Survivors(log, |front|) + (if Stored(c) then [c] else []);
      if DeleteTarget(c).Some? {
        FilterConcat(Filter(seed, NeverDeletedBy(front)), Survivors(front, |front|), IdIsNot(DeleteTarget(c).value));
      }
    }
  }

  lemma {:induction false} SeedStep(seed: seq<Chunk>, log: seq<Chunk>, c: Chunk)
    ensures Filter(seed, NeverDeletedBy(log + [c])) ==
            if DeleteTarget(c).Some? then Filter(Filter(seed, NeverDeletedBy(log)), IdIsNot(DeleteTarget(c).value))
            else Filter(seed, NeverDeletedBy(log))
  {
    if seed != [] {
      var front, last := seed[..|seed| - 1], seed[|seed| - 1];
      SeedStep(front, log, c);
      DeletedFromStep(log, c, last.id, 0);
      if DeleteTarget(c).Some? {
        FilterAppend(Filter(front, NeverDeletedBy(log)), last, IdIsNot(DeleteTarget(c).value));
      }
    }
  }

  lemma {:induction false} SurvivorsMembers(log: seq<Chunk>, n: nat)
    requires n <= |log|
    ensures forall c :: c in Survivors(log, n) <==> exists i :: 0 <= i < n && log[i] == c && Survives(log, i)
  {
    if n > 0 {
      SurvivorsMembers(log, n - 1);
    }
  }

  /**
   * Membership: starting empty, a chunk is in the history exactly when some publish of it
   * was not followed by a delete signal naming its id, whatever deletes came before it.
   */
  lemma InHistory(log: seq<Chunk>, c: Chunk)
    ensures c in Replayed([], log) <==> exists i :: 0 <= i < |log| && log[i] == c && Survives(log, i)
  {
    HistoryClosedForm([], log);
    assert Replayed([], log) == Survivors(log, |log|);
    SurvivorsMembers(log, |log|);
  }

  /** A stored chunk published again after its deletion is present again. */
  lemma RepublishedIsPresent(log: seq<Chunk>, delete: Chunk, c: Chunk)
    requires Stored(c) && DeleteTarget(delete) == Some(c.id)
    ensures c !in Replayed([], log + [delete])
    ensures c in Replayed([], log + [delete] + [c])
  {
    var cut := log + [delete];
    assert cut[|log|] == delete;
    InHistory(cut, c);
    forall i | 0 <= i < |cut| && cut[i] == c ensures !Survives(cut, i) {
      assert i < |log| ==> DeletedFrom(cut, c.id, i + 1);
    }
    assert (cut + [c])[..|cut|] == cut;
  }

  predicate AllStored(chunks: seq<Chunk>) {
    forall i :: 0 <= i < |chunks| ==> Stored(chunks[i])
  }

  lemma {:induction false} ReplayedStaysStored(seed: seq<Chunk>, log: seq<Chunk>)
    requires AllStored(seed)
    ensures AllStored(Replayed(seed, log))
  {
    if log != [] {
      var before, c := Replayed(seed, log[..|log| - 1]), log[|log| - 1];
      ReplayedStaysStored(seed, log[..|log| - 1]);
      if DeleteTarget(c).Some? {
        var p := IdIsNot(DeleteTarget(c).value);
        FilterMembers(before, p);
        forall i | 0 <= i < |Filter(before, p)| ensures Stored(Filter(before, p)[i]) {
          assert Filter(before, p)[i] in Filter(before, p);
        }
      }
    }
  }

  lemma {:induction false} ReplayedConcat(seed: seq<Chunk>, a: seq<Chunk>, b: seq<Chunk>)
    ensures Replayed(seed, a + b) == Replayed(Replayed(seed, a), b)
  {
    if b == [] {
      assert a + b == a;
    } else {
      var front, c := b[..|b| - 1], b[|b| - 1];
      assert a + b == (a + front) + [c];
      assert (a + b)[..|a + b| - 1] == a + front;
      ReplayedConcat(seed, a, front);
    }
  }

  /** A client that applies a replayed history chunk by chunk holds that history. */
  lemma {:induction false} ReplayingHistory(seed: seq<Chunk>, history: seq<Chunk>)
    requires AllStored(history)
    ensures Replayed(seed, history) == seed + history
  {
    if history != [] {
      var front := history[..|history| - 1];
      ReplayingHistory(seed, front);
      assert Stored(history[|history| - 1]);
      assert seed + history == (seed + front) + [history[|history| - 1]];
    }
  }

  predicate AllTransient(chunks: seq<Chunk>) {
    forall i :: 0 <= i < |chunks| ==> IsTransient(chunks[i]) && DeleteTarget(chunks[i]).None?
  }

  /** Retained transient chunks leave a client's history as it is. */
  lemma {:induction false} ReplayingTransients(seed: seq<Chunk>, transients: seq<Chunk>)
    requires AllTransient(transients)
    ensures Replayed(seed, transients) == seed
  {
    if transients != [] {
      ReplayingTransients(seed, transients[..|transients| - 1]);
      assert IsTransient(transients[|transients| - 1]) && DeleteTarget(transients[|transients| - 1]).None?;
    }
  }

  /** A client that gets the history, the retained chunks and then every later one ends where the session does. */
  lemma SnapshotThenLive(seed: seq<Chunk>, earlier: seq<Chunk>, retained: seq<Chunk>, later: seq<Chunk>)
    requires AllStored(seed) && AllTransient(retained)
    ensures Replayed([], Replayed(seed, earlier) + retained + later) == Replayed(seed, earlier + later)
  {
    var history := Replayed(seed, earlier);
    ReplayedConcat([], history + retained, later);
    ReplayedConcat([], history, retained);
    ReplayedConcat(seed, earlier, later);
    ReplayedStaysStored(seed, earlier);
    ReplayingHistory([], history);
    assert [] + history == history;
    ReplayingTransients(history, retained);
  }

  // ----- Pruning the retained buffer is unobservable -----

  /** What can happen to a retained buffer; draining and forking both prune it. */
  datatype Use = Publishes(chunk: Chunk, at: Instant) | Prunes(at: Instant)

  function AfterUses(retained: seq<Held>, uses: seq<Use>): seq<Held> {
    if uses == [] then retained
    else
      var before := AfterUses(retained, uses[..|uses| - 1]);
      match uses[|uses| - 1]
      case Publishes(c, at) => Retain(before, c, at)
      case Prunes(at) => Filter(before, AliveAt(at))
  }

  /** The same uses with every prune left out. */
  function OnlyPublishes(uses: seq<Use>): seq<Use> {
    Filter(uses, (u: Use) => u.Publishes?)
  }

  predicate NoLaterThan(uses: seq<Use>, now: Instant) {
    forall i :: 0 <= i < |uses| ==> uses[i].at <= now
  }

  /**
   * Lazy pruning is unobservable: whatever drains and forks pruned the buffer before, a
   * read at `now` returns what it would have returned had nothing been pruned.
   */
  lemma {:induction false} PruningIsUnobservable(retained: seq<Held>, uses: seq<Use>, now: Instant)
    requires NoLaterThan(uses, now)
    ensures Filter(AfterUses(retained, uses), AliveAt(now))
         == Filter(AfterUses(retained, OnlyPublishes(uses)), AliveAt(now))
  {
    if uses != [] {
      var front, last := uses[..|uses| - 1], uses[|uses| - 1];
      PruningIsUnobservable(retained, front, now);
      var kept := OnlyPublishes(front);
      var before, bare := AfterUses(retained, front), AfterUses(retained, kept);
      match last
      case Prunes(at) =>
        assert at <= now;
        FilterAbsorbs(before, AliveAt(at), AliveAt(now));
      case Publishes(c, at) =>
        assert OnlyPublishes(uses) == kept + [last];
        assert (kept + [last])[..|kept|] == kept;
        PublishingSeesAlive(before, bare, c, at, now);
    }
  }

  lemma PublishingSeesAlive(before: seq<Held>, bare: seq<Held>, c: Chunk, at: Instant, now: Instant)
    requires Filter(before, AliveAt(now)) == Filter(bare, AliveAt(now))
    ensures Filter(Retain(before, c, at), AliveAt(now)) == Filter(Retain(bare, c, at), AliveAt(now))
  {
    if DeleteTarget(c).Some? {
      FilterCommutes(before, HeldIdIsNot(DeleteTarget(c).value), AliveAt(now));
      FilterCommutes(bare, HeldIdIsNot(DeleteTarget(c).value), AliveAt(now));
    } else if RetainSecs(c).Some? {
      var h := Held(c, at + RetainSecs(c).value * SECOND);
      FilterAppend(before, h, AliveAt(now));
      FilterAppend(bare, h, AliveAt(now));
    }
  }

  /** Some use at or after `from` publishes a delete signal naming `id`. */
  predicate RetiredFrom(uses: seq<Use>, id: ChunkId, from: nat) {
    exists j :: from <= j < |uses| && uses[j].Publishes? && DeleteTarget(uses[j].chunk) == Some(id)
  }

  predicate Lasts(u: Use, now: Instant) {
    && u.Publishes? && DeleteTarget(u.chunk).None? && RetainSecs(u.chunk).Some?
    && u.at + RetainSecs(u.chunk).value * SECOND > now
  }

  predicate Due(uses: seq<Use>, i: nat, now: Instant)
    requires i < |uses|
  {
    Lasts(uses[i], now) && !RetiredFrom(uses, uses[i].chunk.id, i + 1)
  }

  /** The chunks that a reader at `now` is owed, among the first `n` uses, in publication order. */
  function Owed(uses: seq<Use>, n: nat, now: Instant): seq<Chunk>
    requires n <= |uses|
  {
    if n == 0 then []
    else if Due(uses, n - 1, now) then Owed(uses, n - 1, now) + [uses[n - 1].chunk]
    else Owed(uses, n - 1, now)
  }

  lemma RetiredFromStep(uses: seq<Use>, u: Use, id: ChunkId, from: nat)
    requires from <= |uses|
    ensures RetiredFrom(uses + [u], id, from) <==>
            RetiredFrom(uses, id, from) || (u.Publishes? && DeleteTarget(u.chunk) == Some(id))
  {
    var longer := uses + [u];
    assert longer[|uses|] == u;
    if RetiredFrom(uses, id, from) {
      var j :| from <= j < |uses| && uses[j].Publishes? && DeleteTarget(uses[j].chunk) == Some(id);
      assert longer[j] == uses[j];
    }
  }

  lemma {:induction false} OwedStep(uses: seq<Use>, u: Use, n: nat, now: Instant)
    requires n <= |uses|
    ensures Owed(uses + [u], n, now) ==
            if u.Publishes? && DeleteTarget(u.chunk).Some?
            then Filter(Owed(uses, n, now), IdIsNot(DeleteTarget(u.chunk).value))
            else Owed(uses, n, now)
  {
    if n > 0 {
      OwedStep(uses, u, n - 1, now);
      var last := uses[n - 1];
      assert (uses + [u])[n - 1] == last;
      if last.Publishes? {
        RetiredFromStep(uses, u, last.chunk.id, n);
        assert Due(uses + [u], n - 1, now) <==>
          Due(uses, n - 1, now) && !(u.Publishes? && DeleteTarget(u.chunk) == Some(last.chunk.id));
        if u.Publishes? && DeleteTarget(u.chunk).Some? {
          FilterAppend(Owed(uses, n - 1, now), last.chunk, IdIsNot(DeleteTarget(u.chunk).value));
        }
      }
    }
  }

  lemma {:induction false} ChunksOfFilter(held: seq<Held>, id: ChunkId)
    ensures ChunksOf(Filter(held, HeldIdIsNot(id))) == Filter(ChunksOf(held), IdIsNot(id))
  {
    if held != [] {
      var front, last := held[..|held| - 1], held[|held| - 1];
      ChunksOfFilter(front, id);
      assert ChunksOf(held)[..|held| - 1] == ChunksOf(front);
      assert ChunksOf(Filter(front, HeldIdIsNot(id)) + [last]) == ChunksOf(Filter(front, HeldIdIsNot(id))) + [last.chunk];
    }
  }

  /**
   * The retained buffer in closed form: at `now` a reader gets, in publication order, the
   * retained transient chunks whose deadline has not passed and that no later delete
   * signal names, whatever was pruned in between.
   */
  lemma {:induction false} RetainedClosedForm(uses: seq<Use>, now: Instant)
    requires NoLaterThan(uses, now)
    ensures ChunksOf(Filter(AfterUses([], uses), AliveAt(now))) == Owed(uses, |uses|, now)
  {
    if uses != [] {
      var front, u := uses[..|uses| - 1], uses[|uses| - 1];
      assert uses == front + [u];
      RetainedClosedForm(front, now);
      OwedStep(front, u, |front|, now);
      assert Due(uses, |front|, now) <==> Lasts(u, now);
      AliveAfterUse(AfterUses([], front), u, now);
    }
  }

  /** One use, seen by a reader at `now`. */
  lemma AliveAfterUse(before: seq<Held>, u: Use, now: Instant)
    requires u.at <= now
    ensures var after := match u case Publishes(c, at) => Retain(before, c, at) case Prunes(at) => Filter(before, AliveAt(at));
            var alive := ChunksOf(Filter(before, AliveAt(now)));
            ChunksOf(Filter(after, AliveAt(now))) ==
              if u.Publishes? && DeleteTarget(u.chunk).Some? then Filter(alive, IdIsNot(DeleteTarget(u.chunk).value))
              else if Lasts(u, now) then alive + [u.chunk] else alive
  {
    match u
    case Prunes(at) =>
      FilterAbsorbs(before, AliveAt(at), AliveAt(now));
    case Publishes(c, at) =>
      if DeleteTarget(c).Some? {
        FilterCommutes(before, HeldIdIsNot(DeleteTarget(c).value), AliveAt(now));
        ChunksOfFilter(Filter(before, AliveAt(now)), DeleteTarget(c).value);
      } else if RetainSecs(c).Some? {
        FilterAppend(before, Held(c, at + RetainSecs(c).value * SECOND), AliveAt(now));
      }
  }

  lemma {:induction false} RetainedStayTransient(retained: seq<Held>)
    requires forall h :: h in retained ==> IsTransient(h.chunk) && DeleteTarget(h.chunk).None?
    ensures forall now :: AllTransient(ChunksOf(Filter(retained, AliveAt(now))))
  {
    forall now ensures AllTransient(ChunksOf(Filter(retained, AliveAt(now)))) {
      FilterMembers(retained, AliveAt(now));
      var alive := Filter(retained, AliveAt(now));
      forall i | 0 <= i < |alive| ensures IsTransient(ChunksOf(alive)[i]) && DeleteTarget(ChunksOf(alive)[i]).None? {
        assert alive[i] in alive;
      }
    }
  }

  // ----- The object the bus mutates -----

  datatype SubscriberInfo = SubscriberInfo(connId: ConnId, role: Option<string>)

  /** The counted ones among some of the subscribers. */
  function CountedAmong(subscribers: map<ConnId, Option<string>>, ephemeral: Option<Ephemeral>, seen: set<ConnId>): set<ConnId>
    requires seen <= subscribers.Keys
  {
    set c | c in seen && RoleCounts(ephemeral, subscribers[c])
  }

  lemma CountingStep(subscribers: map<ConnId, Option<string>>, ephemeral: Option<Ephemeral>, seen: set<ConnId>, c: ConnId)
    requires seen <= subscribers.Keys && c in subscribers && c !in seen
    ensures |CountedAmong(subscribers, ephemeral, seen + {c})|
         == |CountedAmong(subscribers, ephemeral, seen)| + if RoleCounts(ephemeral, subscribers[c]) then 1 else 0
  {
    var before := CountedAmong(subscribers, ephemeral, seen);
    assert CountedAmong(subscribers, ephemeral, seen + {c})
        == if RoleCounts(ephemeral, subscribers[c]) then before + {c} else before;
  }

  class SessionState {
    const sessionId: SessionId
    const agentId: string
    var history: seq<Chunk>
    var retained: seq<Held>
    var subscribers: map<ConnId, Option<string>>
    var ephemeral: Option<Ephemeral>
    var tags: seq<string>
    var parentId: Option<SessionId>
    /** Everything handed to the broadcast channel, oldest first. */
    var sent: seq<Chunk>

    constructor (sessionId: SessionId, agentId: string)
      ensures View() == NewSession(sessionId, agentId) && sent == []
      ensures this.sessionId == sessionId && this.agentId == agentId
    {
      this.sessionId, this.agentId := sessionId, agentId;
      history, retained, subscribers, sent := [], [], map[], [];
      ephemeral, tags, parentId := None, [], None;
    }

    ghost function View(): Session
      reads this
    {
      Session(sessionId, agentId, history, retained, subscribers, ephemeral, tags, parentId)
    }

    method Publish(chunk: Chunk, now: Instant)
      modifies this
      ensures View() == Published(old(View()), chunk, now)
      ensures sent == old(sent) + [chunk]
    {
      var target := DeleteTarget(chunk);
      if target.Some? {
        var _ := RemoveChunk(target.value);
        sent := sent + [chunk];
        return;
      }
      if !IsTransient(chunk) {
        history := history + [chunk];
      } else {
        var secs := RetainSecs(chunk);
        if secs.Some? {
          retained := retained + [Held(chunk, now + secs.value * SECOND)];
        }
      }
      sent := sent + [chunk];
    }

    /** Returns whether the history (not the retained buffer) held a chunk with this id. */
    method RemoveChunk(chunkId: ChunkId) returns (removed: bool)
      modifies this`history, this`retained
      ensures history == Filter(old(history), IdIsNot(chunkId))
      ensures retained == Filter(old(retained), HeldIdIsNot(chunkId))
      ensures removed <==> exists c :: c in old(history) && c.id == chunkId
    {
      var before := |history|;
      FilterShrinks(history, chunkId);
      history := Filter(history, IdIsNot(chunkId));
      retained := Filter(retained, HeldIdIsNot(chunkId));
      removed := |history| != before;
    }

    /** Returns the unexpired chunks and forgets the expired ones. */
    method DrainRetained(now: Instant) returns (valid: seq<Chunk>)
      modifies this`retained
      ensures valid == Readable(old(View()), now)
      ensures View() == Pruned(old(View()), now)
    {
      var expired := 0;
      valid := [];
      ghost var alive: seq<Held> := [];
      for i := 0 to |retained|
        invariant retained == old(retained)
        invariant alive == Filter(retained[..i], AliveAt(now)) && valid == ChunksOf(alive)
        invariant expired + |alive| == i
      {
        assert retained[..i + 1] == retained[..i] + [retained[i]];
        FilterAppend(retained[..i], retained[i], AliveAt(now));
        if retained[i].deadline > now {
          alive, valid := alive + [retained[i]], valid + [retained[i].chunk];
        } else {
          expired := expired + 1;
        }
      }
      assert retained[..|retained|] == retained;
      if expired > 0 {
        retained := Filter(retained, AliveAt(now));
      } else {
        FullFilter(retained, AliveAt(now));
      }
    }

    /** As DrainRetained, keeping the deadlines: what a fork copies. */
    method RetainedWithDeadlines(now: Instant) returns (valid: seq<Held>)
      modifies this`retained
      ensures valid == Filter(old(retained), AliveAt(now)) && View() == Pruned(old(View()), now)
    {
      valid := [];
      for i := 0 to |retained|
        invariant retained == old(retained)
        invariant valid == Filter(retained[..i], AliveAt(now))
      {
        assert retained[..i + 1] == retained[..i] + [retained[i]];
        FilterAppend(retained[..i], retained[i], AliveAt(now));
        if retained[i].deadline > now {
          valid := valid + [retained[i]];
        }
      }
      assert retained[..|retained|] == retained;
      retained := Filter(retained, AliveAt(now));
    }

    /** Fills a session without broadcasting anything. */
    method Seed(history: seq<Chunk>, retained: seq<Held>)
      modifies this`history, this`retained
      ensures View() == old(View()).(history := history, retained := retained)
    {
      this.history, this.retained := history, retained;
    }

    method AddSubscriber(connId: ConnId, role: Option<string>) returns (previous: Option<SubscriberInfo>)
      modifies this`subscribers
      ensures View() == old(View()).(subscribers := old(subscribers)[connId := role])
      ensures previous == if connId in old(subscribers)
                          then Some(SubscriberInfo(connId, old(subscribers)[connId])) else None
    {
      previous := if connId in subscribers then Some(SubscriberInfo(connId, subscribers[connId])) else None;
      subscribers := subscribers[connId := role];
    }

    method RemoveSubscriber(connId: ConnId) returns (removed: Option<SubscriberInfo>)
      modifies this`subscribers
      ensures View() == old(View()).(subscribers := old(subscribers) - {connId})
      ensures removed == if connId in old(subscribers)
                         then Some(SubscriberInfo(connId, old(subscribers)[connId])) else None
    {
      removed := if connId in subscribers then Some(SubscriberInfo(connId, subscribers[connId])) else None;
      subscribers := subscribers - {connId};
    }

    /** The loop over `subscribers.values()` that counts the matching roles. */
    method CountedSubscriberCount() returns (n: nat)
      ensures n == |Counted(View())|
    {
      if ephemeral.None? {
        assert Counted(View()) == subscribers.Keys;
        return |subscribers|;
      }
      n := 0;
      var rest := subscribers.Keys;
      ghost var seen: set<ConnId> := {};
      while rest != {}
        invariant seen + rest == subscribers.Keys && seen !! rest
        invariant n == |CountedAmong(subscribers, ephemeral, seen)|
        decreases rest
      {
        var c :| c in rest;
        CountingStep(subscribers, ephemeral, seen, c);
        if RoleCounts(ephemeral, subscribers[c]) {
          n := n + 1;
        }
        rest, seen := rest - {c}, seen + {c};
      }
      assert seen == subscribers.Keys;
      assert Counted(View()) == CountedAmong(subscribers, ephemeral, seen);
    }
  }

  lemma {:induction false} FilterShrinks(history: seq<Chunk>, id: ChunkId)
    ensures |Filter(history, IdIsNot(id))| <= |history|
    ensures |Filter(history, IdIsNot(id))| < |history| <==> exists c :: c in history && c.id == id
  {
    if history != [] {
      var front := history[..|history| - 1];
      FilterShrinks(front, id);
      assert history == front + [history[|history| - 1]];
    }
  }

  lemma {:induction false} FullFilter<T>(xs: seq<T>, p: T -> bool)
    ensures |Filter(xs, p)| <= |xs|
    ensures |Filter(xs, p)| == |xs| ==> Filter(xs, p) == xs
  {
    if xs != [] {
      FullFilter(xs[..|xs| - 1], p);
      assert xs == xs[..|xs| - 1] + [xs[|xs| - 1]];
    }
  }
}
