/**
 * What every attached feed delivers, over all runs: the snapshot and then each chunk
 * published since, in order, without loss or duplication; and so a client that applies
 * what it is sent holds exactly the session's history.
 */
module BusDelivery {
  import opened Basics
  import opened Chunks
  import opened Sessions
  import opened Registry
  import opened Bus

  /** Everything a feed is to deliver, before filtering. */
  function OwedTo(f: Feed, inst: Instance): seq<Chunk>
    requires f.from <= |inst.log|
  {
    f.history + f.retained + inst.log[f.from..]
  }

  predicate InstanceOk(inst: Instance) {
    && AllStored(inst.seed)
    && inst.session.history == Replayed(inst.seed, inst.log)
    && (forall h :: h in inst.session.retained ==> IsTransient(h.chunk) && DeleteTarget(h.chunk).None?)
  }

  /**
   * The snapshot is the history at attachment; what was written, is still to be replayed
   * and is still queued makes up exactly what is owed, or a prefix of it once a chunk was lost.
   */
  predicate FeedOk(f: Feed, inst: Instance, filter: Option<SubscribeFilter>) {
    && f.from <= |inst.log|
    && f.history == Replayed(inst.seed, inst.log[..f.from])
    && AllTransient(f.retained)
    && (f.stage.Live? || f.stage.Stopped? ==> f.todo == [])
    && |f.queue| <= CHUNK_CAPACITY
    && var written := f.sent + Filter(f.todo + f.queue, Wanted(filter));
       var owed := Filter(OwedTo(f, inst), Wanted(filter));
       if f.lagged then written <= owed else written == owed
  }

  predicate Delivery(b: Bus)
    requires WellFormed(b)
  {
    && (forall n :: 0 <= n < |b.insts| ==> InstanceOk(b.insts[n]))
    && (forall k, i :: 0 <= k < |b.subs| && 0 <= i < |b.subs[k].feeds| ==>
          FeedOk(b.subs[k].feeds[i], b.insts[b.subs[k].feeds[i].inst], FilterOf(b.subs[k].scope)))
  }

  // ----- One instance, one feed -----

  lemma PublishingKeepsInstance(inst: Instance, c: Chunk, now: Instant)
    requires InstanceOk(inst)
    ensures InstanceOk(Instance(Published(inst.session, c, now), inst.seed, inst.log + [c]))
  {
    assert (inst.log + [c])[..|inst.log|] == inst.log;
    if DeleteTarget(c).Some? {
      FilterMembers(inst.session.retained, HeldIdIsNot(DeleteTarget(c).value));
    }
  }

  lemma PruningKeepsInstance(inst: Instance, now: Instant)
    requires InstanceOk(inst)
    ensures InstanceOk(inst.(session := Pruned(inst.session, now)))
  {
    FilterMembers(inst.session.retained, AliveAt(now));
  }

  lemma ForkedIsOk(inst: Instance, newId: SessionId, now: Instant, provenanceId: ChunkId)
    requires InstanceOk(inst)
    ensures var s := Forked(inst.session, newId, now, Provenance(provenanceId, inst.session.id));
            InstanceOk(Instance(s, s.history, []))
  {
    ReplayedStaysStored(inst.seed, inst.log);
    ProvenanceIsStored(provenanceId, inst.session.id);
    FilterMembers(inst.session.retained, AliveAt(now));
  }

  lemma NewFeedIsOk(b: Bus, n: nat, agent: string, stage: Stage, filter: Option<SubscribeFilter>)
    requires n < |b.insts| && InstanceOk(b.insts[n]) && (stage.Waiting? || stage.Replaying?)
    ensures FeedOk(FeedFrom(b, n, agent, stage), b.insts[n], filter)
  {
    var inst := b.insts[n];
    var f := FeedFrom(b, n, agent, stage);
    RetainedStayTransient(inst.session.retained);
    assert inst.log[..|inst.log|] == inst.log;
    assert inst.log[f.from..] == [];
    assert OwedTo(f, inst) == f.todo && f.todo + f.queue == f.todo;
  }

  lemma OwedGrows(f: Feed, inst: Instance, c: Chunk, s: Session, p: Chunk -> bool)
    requires f.from <= |inst.log|
    ensures var owed := Filter(OwedTo(f, inst), p);
            Filter(OwedTo(f, Instance(s, inst.seed, inst.log + [c])), p) == if p(c) then owed + [c] else owed
  {
    assert (inst.log + [c])[f.from..] == inst.log[f.from..] + [c];
    assert OwedTo(f, Instance(s, inst.seed, inst.log + [c])) == OwedTo(f, inst) + [c];
    FilterAppend(OwedTo(f, inst), c, p);
  }

  lemma PushKeepsFeed(f: Feed, inst: Instance, c: Chunk, s: Session, filter: Option<SubscribeFilter>)
    requires FeedOk(f, inst, filter)
    ensures FeedOk(Push(f, c), Instance(s, inst.seed, inst.log + [c]), filter)
  {
    var inst' := Instance(s, inst.seed, inst.log + [c]);
    assert inst'.log[..f.from] == inst.log[..f.from];
    OwedGrows(f, inst, c, s, Wanted(filter));
    var f' := Push(f, c);
    assert OwedTo(f', inst') == OwedTo(f, inst');
    var owed := Filter(OwedTo(f, inst), Wanted(filter));
    if f'.lagged {
      PrefixStays(f.sent + Filter(f.todo + f.queue, Wanted(filter)), owed, c);
    } else {
      PendingGrows(f, c, Wanted(filter));
    }
  }

  lemma PrefixStays(written: seq<Chunk>, owed: seq<Chunk>, c: Chunk)
    requires written <= owed
    ensures written <= owed + [c]
  {
  }

  /** A queued chunk is pending if it is wanted. */
  lemma PendingGrows(f: Feed, c: Chunk, p: Chunk -> bool)
    ensures var written := f.sent + Filter(f.todo + f.queue, p);
            f.sent + Filter(f.todo + (f.queue + [c]), p) == if p(c) then written + [c] else written
  {
    Associative(f.todo, f.queue, [c]);
    FilterAppend(f.todo + f.queue, c, p);
    Associative(f.sent, Filter(f.todo + f.queue, p), [c]);
  }

  lemma FilterHead<T>(xs: seq<T>, p: T -> bool)
    requires xs != []
    ensures Filter(xs, p) == (if p(xs[0]) then [xs[0]] else []) + Filter(xs[1..], p)
  {
    assert xs == [xs[0]] + xs[1..];
    FilterConcat([xs[0]], xs[1..], p);
    assert [xs[0]][..0] == [];
    assert Filter([xs[0]], p) == if p(xs[0]) then [xs[0]] else [];
  }

  lemma TaskKeepsFeed(s: Sub, f: Feed, inst: Instance, a: Action)
    requires FeedOk(f, inst, FilterOf(s.scope)) && IsFeedTask(a)
    requires a.Announce? ==> f.stage.Waiting?
    requires a.Replay? || a.GoLive? ==> f.stage.Replaying?
    requires a.Forward? || a.StopLagged? ==> f.stage.Live?
    requires (a.Replay? ==> f.todo != []) && (a.GoLive? ==> f.todo == []) && (a.Forward? ==> f.queue != [])
    ensures FeedOk(FeedAfter(s, f, a), inst, FilterOf(s.scope))
  {
    if a.Replay? {
      ReplayKeepsFeed(s, f, inst);
    } else if a.Forward? {
      ForwardKeepsFeed(s, f, inst);
    }
  }

  lemma ReplayKeepsFeed(s: Sub, f: Feed, inst: Instance)
    requires FeedOk(f, inst, FilterOf(s.scope)) && f.stage.Replaying? && f.todo != []
    ensures FeedOk(f.(todo := f.todo[1..], sent := f.sent + Written(s, f.todo[0])), inst, FilterOf(s.scope))
  {
    var f' := f.(todo := f.todo[1..], sent := f.sent + Written(s, f.todo[0]));
    assert OwedTo(f', inst) == OwedTo(f, inst);
    WritingHead(f.sent, f.todo, f.queue, Wanted(FilterOf(s.scope)));
  }

  lemma ForwardKeepsFeed(s: Sub, f: Feed, inst: Instance)
    requires FeedOk(f, inst, FilterOf(s.scope)) && f.stage.Live? && f.queue != []
    ensures FeedOk(f.(queue := f.queue[1..], sent := f.sent + Written(s, f.queue[0])), inst, FilterOf(s.scope))
  {
    var f' := f.(queue := f.queue[1..], sent := f.sent + Written(s, f.queue[0]));
    assert OwedTo(f', inst) == OwedTo(f, inst);
    assert f.todo + f.queue == f.queue && f'.todo + f'.queue == f'.queue;
    WritingHead(f.sent, f.queue, [], Wanted(FilterOf(s.scope)));
    assert f.queue + [] == f.queue && f'.queue + [] == f'.queue;
  }

  /** Writing the head of what is pending keeps written-and-pending as it is. */
  lemma WritingHead(sent: seq<Chunk>, todo: seq<Chunk>, rest: seq<Chunk>, p: Chunk -> bool)
    requires todo != []
    ensures sent + (if p(todo[0]) then [todo[0]] else []) + Filter(todo[1..] + rest, p) == sent + Filter(todo + rest, p)
  {
    assert (todo + rest)[1..] == todo[1..] + rest;
    FilterHead(todo + rest, p);
  }

  // ----- One step -----

  /** Steps that publish nothing and touch no feed. */
  lemma FrameKeepsFeeds(b: Bus, b': Bus)
    requires WellFormed(b) && WellFormed(b') && Delivery(b)
    requires |b'.insts| >= |b.insts| && |b'.subs| == |b.subs|
    requires forall n :: 0 <= n < |b.insts| ==>
      b'.insts[n].seed == b.insts[n].seed && b'.insts[n].log == b.insts[n].log
    requires forall k :: 0 <= k < |b.subs| ==>
      b'.subs[k].feeds == b.subs[k].feeds && b'.subs[k].scope == b.subs[k].scope
    requires forall n :: 0 <= n < |b'.insts| ==> InstanceOk(b'.insts[n])
    ensures Delivery(b')
  {
    forall k, i | 0 <= k < |b'.subs| && 0 <= i < |b'.subs[k].feeds|
      ensures FeedOk(b'.subs[k].feeds[i], b'.insts[b'.subs[k].feeds[i].inst], FilterOf(b'.subs[k].scope))
    {
      assert b'.subs[k].feeds == b.subs[k].feeds;
      assert FeedOk(b.subs[k].feeds[i], b.insts[b.subs[k].feeds[i].inst], FilterOf(b.subs[k].scope));
    }
  }

  lemma PublishKeepsDelivery(b: Bus, n: nat, c: Chunk)
    requires WellFormed(b) && Delivery(b) && n < |b.insts|
    ensures WellFormed(PublishAt(b, n, c)) && Delivery(PublishAt(b, n, c))
  {
    PublishGrows(b, n, c);
    var b' := PublishAt(b, n, c);
    PublishingKeepsInstance(b.insts[n], c, b.now);
    forall k, i | 0 <= k < |b'.subs| && 0 <= i < |b'.subs[k].feeds|
      ensures FeedOk(b'.subs[k].feeds[i], b'.insts[b'.subs[k].feeds[i].inst], FilterOf(b'.subs[k].scope))
    {
      var f := b.subs[k].feeds[i];
      assert FeedOk(f, b.insts[f.inst], FilterOf(b.subs[k].scope));
      if f.inst == n {
        PushKeepsFeed(f, b.insts[n], c, b'.insts[n].session, FilterOf(b.subs[k].scope));
      }
    }
  }

  lemma SessionKeepsDelivery(b: Bus, n: nat, s: Session)
    requires WellFormed(b) && Delivery(b) && n < |b.insts| && s.id == b.insts[n].session.id
    requires InstanceOk(b.insts[n].(session := s))
    ensures WellFormed(WithSession(b, n, s)) && Delivery(WithSession(b, n, s))
  {
    FrameKeepsFeeds(b, WithSession(b, n, s));
  }

  lemma InsertKeepsDelivery(b: Bus, s: Session)
    requires WellFormed(b) && Delivery(b) && InstanceOk(Instance(s, s.history, []))
    ensures WellFormed(Insert(b, s)) && Delivery(Insert(b, s))
  {
    InsertGrows(b, s);
    FrameKeepsFeeds(b, Insert(b, s));
  }

  lemma CommandKeepsDelivery(b: Bus, a: Action)
    requires WellFormed(b) && Enabled(b, a) && Delivery(b) && IsCommand(a) && !a.Fork? && !a.SetTags?
    ensures WellFormed(Effect(b, a)) && Delivery(Effect(b, a))
  {
    CommandGrows(b, a);
    if a.Create? && a.sid !in b.live {
      InsertKeepsDelivery(b, NewSession(a.sid, a.agent).(ephemeral := a.ephemeral, tags := a.tags, history := a.initial));
    } else if a.Publish? && a.sid in b.live {
      PublishKeepsDelivery(b, b.live[a.sid], Tagged(a));
    } else {
      FrameKeepsFeeds(b, Effect(b, a));
    }
  }

  lemma ForkKeepsDelivery(b: Bus, a: Action)
    requires WellFormed(b) && Enabled(b, a) && Delivery(b) && a.Fork?
    ensures WellFormed(Effect(b, a)) && Delivery(Effect(b, a))
  {
    if a.sid !in b.live && a.parent in b.live {
      var n := b.live[a.parent];
      var inst := b.insts[n];
      PruningKeepsInstance(inst, b.now);
      SessionKeepsDelivery(b, n, Pruned(inst.session, b.now));
      ForkedIsOk(inst, a.sid, b.now, a.provenanceId);
      InsertKeepsDelivery(WithSession(b, n, Pruned(inst.session, b.now)),
                          Forked(inst.session, a.sid, b.now, Provenance(a.provenanceId, a.parent)));
    }
  }

  lemma SetTagsKeepsDelivery(b: Bus, a: Action)
    requires WellFormed(b) && Enabled(b, a) && Delivery(b) && a.SetTags?
    ensures WellFormed(Effect(b, a)) && Delivery(Effect(b, a))
  {
    SetTagsGrows(b, a);
    if a.sid in b.live {
      var n := b.live[a.sid];
      PublishKeepsDelivery(b, n, a.note);
      var b1 := PublishAt(b, n, a.note);
      RetaggingKeepsDelivery(b1, n, a.sid, a.tags);
    }
  }

  lemma RetaggingKeepsDelivery(b: Bus, n: nat, sid: SessionId, tags: seq<string>)
    requires WellFormed(b) && Delivery(b) && n < |b.insts|
    ensures WellFormed(Retag(b, n, sid, tags)) && Delivery(Retag(b, n, sid, tags))
  {
    SessionKeepsDelivery(b, n, b.insts[n].session.(tags := tags));
    FrameKeepsFeeds(WithSession(b, n, b.insts[n].session.(tags := tags)), Retag(b, n, sid, tags));
  }

  lemma NewSubKeepsDelivery(b: Bus, b': Bus, s: Sub)
    requires WellFormed(b) && WellFormed(b') && Delivery(b) && b'.subs == b.subs + [s]
    requires |b'.insts| == |b.insts|
    requires forall n :: 0 <= n < |b.insts| ==>
      InstanceOk(b'.insts[n]) && b'.insts[n].seed == b.insts[n].seed && b'.insts[n].log == b.insts[n].log
    requires forall i :: 0 <= i < |s.feeds| ==> s.feeds[i].inst < |b.insts|
    requires forall i :: 0 <= i < |s.feeds| ==> FeedOk(s.feeds[i], b.insts[s.feeds[i].inst], FilterOf(s.scope))
    ensures Delivery(b')
  {
    forall k, i | 0 <= k < |b'.subs| && 0 <= i < |b'.subs[k].feeds|
      ensures FeedOk(b'.subs[k].feeds[i], b'.insts[b'.subs[k].feeds[i].inst], FilterOf(b'.subs[k].scope))
    {
      var t := if k < |b.subs| then b.subs[k] else s;
      assert b'.subs[k] == t;
      assert FeedOk(t.feeds[i], b.insts[t.feeds[i].inst], FilterOf(t.scope));
    }
  }

  lemma SubscribingKeepsDelivery(b: Bus, a: Action)
    requires WellFormed(b) && Enabled(b, a) && Delivery(b) && IsSubscribing(a)
    ensures WellFormed(Effect(b, a)) && Delivery(Effect(b, a))
  {
    SubscribingGrows(b, a);
    if a.SubscribeAll? {
      SnapshotKeepsDelivery(b, a);
    } else if a.sid in b.live {
      JoiningKeepsDelivery(b, a);
    }
  }

  lemma SnapshotKeepsDelivery(b: Bus, a: Action)
    requires WellFormed(b) && Enabled(b, a) && Delivery(b) && a.SubscribeAll? && WellFormed(Effect(b, a))
    ensures Delivery(Effect(b, a))
  {
    var b' := Effect(b, a);
    var s := b'.subs[|b.subs|];
    forall i | 0 <= i < |s.feeds| ensures FeedOk(s.feeds[i], b.insts[s.feeds[i].inst], FilterOf(s.scope)) {
      assert a.chosen[i] in a.chosen;
      var n := b.live[a.chosen[i]];
      NewFeedIsOk(b, n, b.insts[n].session.agent, Waiting, a.filter);
    }
    forall n | 0 <= n < |b.insts| ensures InstanceOk(b'.insts[n]) {
      PruningKeepsInstance(b.insts[n], b.now);
    }
    NewSubKeepsDelivery(b, b', s);
  }

  lemma JoiningKeepsDelivery(b: Bus, a: Action)
    requires WellFormed(b) && Enabled(b, a) && Delivery(b) && a.Subscribe? && a.sid in b.live && WellFormed(Effect(b, a))
    ensures Delivery(Effect(b, a))
  {
    var b' := Effect(b, a);
    var n := b.live[a.sid];
    NewFeedIsOk(b, n, b.insts[n].session.agent, Replaying, None);
    PruningKeepsInstance(b.insts[n], b.now);
    NewSubKeepsDelivery(b, b', b'.subs[|b.subs|]);
  }

  lemma SubKeepsDelivery(b: Bus, k: nat, s: Sub)
    requires WellFormed(b) && Delivery(b) && k < |b.subs| && s.scope == b.subs[k].scope
    requires forall i :: 0 <= i < |s.feeds| ==> s.feeds[i].inst < |b.insts|
    requires forall i :: 0 <= i < |s.feeds| ==>
      (i < |b.subs[k].feeds| && s.feeds[i] == b.subs[k].feeds[i]) ||
      FeedOk(s.feeds[i], b.insts[s.feeds[i].inst], FilterOf(s.scope))
    ensures WellFormed(WithSub(b, k, s)) && Delivery(WithSub(b, k, s))
  {
    var b' := WithSub(b, k, s);
    forall m, i | 0 <= m < |b'.subs| && 0 <= i < |b'.subs[m].feeds|
      ensures FeedOk(b'.subs[m].feeds[i], b'.insts[b'.subs[m].feeds[i].inst], FilterOf(b'.subs[m].scope))
    {
      if m != k || (i < |b.subs[k].feeds| && s.feeds[i] == b.subs[k].feeds[i]) {
        assert FeedOk(b.subs[m].feeds[i], b.insts[b.subs[m].feeds[i].inst], FilterOf(b.subs[m].scope));
      }
    }
  }

  lemma TaskKeepsDelivery(b: Bus, a: Action)
    requires WellFormed(b) && Enabled(b, a) && Delivery(b) && IsTask(a)
    ensures WellFormed(Effect(b, a)) && Delivery(Effect(b, a))
  {
    TaskGrows(b, a);
    if IsFeedTask(a) {
      FeedTaskKeepsDelivery(b, a);
    } else if a.Attach? {
      AttachKeepsDelivery(b, a.sub);
    } else {
      FrameKeepsFeeds(b, Effect(b, a));
    }
  }

  /** Steps that leave the instances alone and every subscription's feeds and scope. */
  lemma QuietKeepsDelivery(b: Bus, b': Bus)
    requires WellFormed(b) && WellFormed(b') && Delivery(b)
    requires b'.insts == b.insts && |b'.subs| == |b.subs|
    requires forall k :: 0 <= k < |b.subs| ==>
      b'.subs[k].feeds == b.subs[k].feeds && b'.subs[k].scope == b.subs[k].scope
    ensures Delivery(b')
  {
    FrameKeepsFeeds(b, b');
  }

  lemma FeedTaskKeepsDelivery(b: Bus, a: Action)
    requires WellFormed(b) && Enabled(b, a) && Delivery(b) && IsFeedTask(a)
    ensures WellFormed(Effect(b, a)) && Delivery(Effect(b, a))
  {
    MovedFeedIsOk(b, a);
    MovedKeepsDelivery(b, a.sub, a.feed, FeedMoved(b, a));
    FeedTaskGrows(b, a);
    FeedTaskShape(b, a);
    QuietKeepsDelivery(WithSub(b, a.sub, FeedMoved(b, a)), DoFeedTask(b, a));
  }

  lemma MovedFeedIsOk(b: Bus, a: Action)
    requires WellFormed(b) && Enabled(b, a) && Delivery(b) && IsFeedTask(a)
    ensures var s, t := b.subs[a.sub], FeedMoved(b, a);
            && |t.feeds| == |s.feeds| && t.scope == s.scope && t.feeds == s.feeds[a.feed := t.feeds[a.feed]]
            && t.feeds[a.feed].inst == s.feeds[a.feed].inst
            && FeedOk(t.feeds[a.feed], b.insts[s.feeds[a.feed].inst], FilterOf(s.scope))
  {
    var s := b.subs[a.sub];
    var f := s.feeds[a.feed];
    assert FeedOk(f, b.insts[f.inst], FilterOf(s.scope));
    TaskKeepsFeed(s, f, b.insts[f.inst], a);
  }

  lemma MovedKeepsDelivery(b: Bus, k: nat, i: nat, s: Sub)
    requires WellFormed(b) && Delivery(b) && k < |b.subs| && i < |b.subs[k].feeds| == |s.feeds|
    requires s.scope == b.subs[k].scope && s.feeds == b.subs[k].feeds[i := s.feeds[i]]
    requires s.feeds[i].inst < |b.insts| && FeedOk(s.feeds[i], b.insts[s.feeds[i].inst], FilterOf(s.scope))
    ensures WellFormed(WithSub(b, k, s)) && Delivery(WithSub(b, k, s))
  {
    forall j | 0 <= j < |s.feeds| ensures s.feeds[j].inst < |b.insts| {
      assert j != i ==> s.feeds[j] == b.subs[k].feeds[j];
    }
    SubKeepsDelivery(b, k, s);
  }

  lemma FeedAttachedKeepsDelivery(b: Bus, k: nat, n: nat, agent: string, stage: Stage, seen: map<nat, seq<string>>)
    requires WellFormed(b) && Delivery(b) && k < |b.subs| && n < |b.insts| && (stage.Replaying? || stage.Waiting?)
    ensures var s' := b.subs[k].(fetched := None, feeds := b.subs[k].feeds + [FeedFrom(b, n, agent, stage)], seen := seen);
            var b' := WithSub(WithSession(b, n, Pruned(b.insts[n].session, b.now)), k, s');
            WellFormed(b') && Delivery(b')
  {
    var s' := b.subs[k].(fetched := None, feeds := b.subs[k].feeds + [FeedFrom(b, n, agent, stage)], seen := seen);
    NewFeedIsOk(b, n, agent, stage, FilterOf(b.subs[k].scope));
    SubKeepsDelivery(b, k, s');
    PruningKeepsInstance(b.insts[n], b.now);
    SessionKeepsDelivery(WithSub(b, k, s'), n, Pruned(b.insts[n].session, b.now));
  }

  lemma AttachKeepsDelivery(b: Bus, k: nat)
    requires WellFormed(b) && Enabled(b, Attach(k)) && Delivery(b)
    ensures WellFormed(DoAttach(b, k)) && Delivery(DoAttach(b, k))
  {
    AttachGrows(b, k);
    var s := b.subs[k];
    var sid := s.fetched.value.sid;
    if sid in b.live && SessionMatches(b.insts[b.live[sid]].session, s.scope.filter) {
      var s' := DoAttach(b, k).subs[k];
      var f := s'.feeds[|s.feeds|];
      assert s' == s.(fetched := None, feeds := s.feeds + [f], seen := s'.seen);
      FeedAttachedKeepsDelivery(b, k, b.live[sid], f.agent, f.stage, s'.seen);
    } else {
      QuietKeepsDelivery(b, DoAttach(b, k));
    }
  }

  lemma {:induction false} CleanupKeepsDelivery(b: Bus, c: ConnId, sids: seq<SessionId>)
    requires WellFormed(b) && Delivery(b)
    ensures Delivery(Cleanup(b, c, sids))
    decreases |sids|
  {
    if sids != [] {
      DepartGrows(b, c, sids[0]);
      DepartKeepsDelivery(b, c, sids[0]);
      CleanupKeepsDelivery(Depart(b, c, sids[0]), c, sids[1..]);
    }
  }

  lemma SchedulingKeepsDelivery(b: Bus, sid: SessionId, keepaliveSecs: nat)
    requires WellFormed(b) && Delivery(b)
    ensures WellFormed(ScheduleDeletion(b, sid, keepaliveSecs)) && Delivery(ScheduleDeletion(b, sid, keepaliveSecs))
  {
    RemoveGrows(b, sid);
    QuietGrows(b, b.(timers := b.timers + [Timer(sid, b.now + keepaliveSecs * SECOND)]));
    QuietKeepsDelivery(b, ScheduleDeletion(b, sid, keepaliveSecs));
  }

  lemma DepartKeepsDelivery(b: Bus, c: ConnId, sid: SessionId)
    requires WellFormed(b) && Delivery(b)
    ensures WellFormed(Depart(b, c, sid)) && Delivery(Depart(b, c, sid))
  {
    if sid in b.live {
      var n := b.live[sid];
      var s := b.insts[n].session;
      assert InstanceOk(b.insts[n]);
      SessionKeepsDelivery(b, n, Left(s, c));
      if s.ephemeral.Some? {
        SchedulingKeepsDelivery(WithSession(b, n, Left(s, c)), sid, s.ephemeral.value.keepaliveSecs);
      }
    }
  }

  lemma TimeKeepsDelivery(b: Bus, a: Action)
    requires WellFormed(b) && Enabled(b, a) && Delivery(b) && (a.Advance? || a.Fire? || a.Disconnect?)
    ensures WellFormed(Effect(b, a)) && Delivery(Effect(b, a))
  {
    TimeGrows(b, a);
    if a.Disconnect? {
      DroppedGrows(b, a.conn);
      FrameKeepsFeeds(b, Dropped(b, a.conn));
      CleanupKeepsDelivery(Dropped(b, a.conn), a.conn, b.conns[a.conn].tracked);
    } else {
      FrameKeepsFeeds(b, Effect(b, a));
    }
  }

  lemma StepKeepsDelivery(b: Bus, a: Action)
    requires WellFormed(b) && Enabled(b, a) && Delivery(b)
    ensures WellFormed(Next(b, a)) && Delivery(Next(b, a))
  {
    StepGrows(b, a);
    if a.Fork? {
      ForkKeepsDelivery(b, a);
    } else if a.SetTags? {
      SetTagsKeepsDelivery(b, a);
    } else if IsCommand(a) {
      CommandKeepsDelivery(b, a);
    } else if IsSubscribing(a) {
      SubscribingKeepsDelivery(b, a);
    } else if IsTask(a) {
      TaskKeepsDelivery(b, a);
    } else {
      TimeKeepsDelivery(b, a);
    }
    FrameKeepsFeeds(Effect(b, a), Next(b, a));
  }

  // ----- Every run -----

  lemma {:induction false} DeliveryFrom(b: Bus, run: seq<Action>)
    requires WellFormed(b) && Delivery(b) && Feasible(b, run)
    ensures Delivery(After(b, run))
    decreases |run|
  {
    if run != [] {
      StepKeepsDelivery(b, run[0]);
      DeliveryFrom(Next(b, run[0]), run[1..]);
    }
  }

  /** No loss, no duplication, no reordering, for every feed of every subscription in every run. */
  lemma EveryFeedDelivers(run: seq<Action>, k: nat, i: nat)
    requires Feasible(INITIAL, run)
    requires k < |After(INITIAL, run).subs| && i < |After(INITIAL, run).subs[k].feeds|
    ensures var b := After(INITIAL, run);
            var f := b.subs[k].feeds[i];
            FeedOk(f, b.insts[f.inst], FilterOf(b.subs[k].scope))
  {
    DeliveryFrom(INITIAL, run);
  }

  /**
   * A receiver that has caught up was sent exactly the chunks that match its filter, of
   * the history and retained chunks at attachment and then of everything published since.
   */
  lemma CaughtUpDelivery(run: seq<Action>, k: nat, i: nat)
    requires Feasible(INITIAL, run)
    requires k < |After(INITIAL, run).subs| && i < |After(INITIAL, run).subs[k].feeds|
    requires var f := After(INITIAL, run).subs[k].feeds[i]; f.stage.Live? && f.queue == [] && !f.lagged
    ensures var b := After(INITIAL, run);
            var f := b.subs[k].feeds[i];
            f.from <= |b.insts[f.inst].log|
            && f.sent == Filter(OwedTo(f, b.insts[f.inst]), Wanted(FilterOf(b.subs[k].scope)))
  {
    EveryFeedDelivers(run, k, i);
    var f := After(INITIAL, run).subs[k].feeds[i];
    assert f.todo + f.queue == [] && f.sent + [] == f.sent;
  }

  /**
   * Replica agreement: applying what a client was sent, then what is still to be replayed
   * and forwarded, gives exactly the current history of the session, under every
   * interleaving of publishes, deletes, replays and forwards.
   */
  lemma ReplicaAgreement(run: seq<Action>, k: nat, i: nat)
    requires Feasible(INITIAL, run)
    requires k < |After(INITIAL, run).subs| && i < |After(INITIAL, run).subs[k].feeds|
    requires FilterOf(After(INITIAL, run).subs[k].scope).None?
    ensures var b := After(INITIAL, run);
            var f := b.subs[k].feeds[i];
            !f.lagged ==> Replayed([], f.sent + f.todo + f.queue) == b.insts[f.inst].session.history
  {
    DeliveryFrom(INITIAL, run);
    var b := After(INITIAL, run);
    var f := b.subs[k].feeds[i];
    if !f.lagged {
      DeliveredReplays(f, b.insts[f.inst]);
    }
  }

  lemma DeliveredReplays(f: Feed, inst: Instance)
    requires InstanceOk(inst) && FeedOk(f, inst, None) && !f.lagged
    ensures Replayed([], f.sent + f.todo + f.queue) == inst.session.history
  {
    FilterAll(f.todo + f.queue, Wanted(None));
    FilterAll(OwedTo(f, inst), Wanted(None));
    Associative(f.sent, f.todo, f.queue);
    OwedReplays(f, inst);
  }

  lemma OwedReplays(f: Feed, inst: Instance)
    requires InstanceOk(inst) && f.from <= |inst.log| && AllTransient(f.retained)
    requires f.history == Replayed(inst.seed, inst.log[..f.from])
    ensures Replayed([], OwedTo(f, inst)) == inst.session.history
  {
    assert inst.log[..f.from] + inst.log[f.from..] == inst.log;
    SnapshotThenLive(inst.seed, inst.log[..f.from], f.retained, inst.log[f.from..]);
  }

  /**
   * A receiver that lost a chunk has stopped: what was delivered is a gap-free prefix of
   * what was owed, and it stays so whatever happens later.
   */
  lemma LaggedPrefix(run: seq<Action>, k: nat, i: nat)
    requires Feasible(INITIAL, run)
    requires k < |After(INITIAL, run).subs| && i < |After(INITIAL, run).subs[k].feeds|
    ensures var b := After(INITIAL, run);
            var f := b.subs[k].feeds[i];
            f.from <= |b.insts[f.inst].log|
            && f.sent <= Filter(OwedTo(f, b.insts[f.inst]), Wanted(FilterOf(b.subs[k].scope)))
  {
    EveryFeedDelivers(run, k, i);
  }
}
