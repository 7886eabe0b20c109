/**
 * The history gate of the LLM service composed with the bus: a request published once is
 * dispatched at most once, over any run of forks, retained replays and re-subscriptions.
 */
module Gate {
  import opened Basics
  import opened Chunks
  import opened Sessions
  import opened Registry
  import opened Bus
  import opened BusDelivery
  import opened BusLifecycle
  import opened BusAnnounce
  import opened BusWire

  const LLM_INVOKE := "llm.invoke"
  const LLM_PROMPT := "llm.prompt"

  predicate IsAbort(c: Chunk) {
    c.contentType.NullContent? && TextAnnotation(c, CAFE_FLOW_SIGNAL) == Some("abort")
  }

  predicate IsCall(c: Chunk) {
    && !IsAbort(c) && AsRpcRequest(c).Some?
    && (AsRpcRequest(c).value.rpcMethod == LLM_INVOKE || AsRpcRequest(c).value.rpcMethod == LLM_PROMPT)
  }

  /** The message at `p` carries a call that arrives after the history replay is complete. */
  predicate Callable(msgs: seq<Msg>, sid: SessionId, p: nat)
    requires p < |msgs|
  {
    && msgs[p].ChunkMsg? && msgs[p].sid == sid && IsCall(msgs[p].chunk)
    && exists q :: 0 <= q < p && msgs[q].HistoryComplete?
  }

  /** An invoke whose history read fails is dropped. */
  predicate Dispatched(msgs: seq<Msg>, sid: SessionId, readable: seq<bool>, p: nat)
    requires p < |msgs| == |readable|
  {
    Callable(msgs, sid, p) && (AsRpcRequest(msgs[p].chunk).value.rpcMethod == LLM_INVOKE ==> readable[p])
  }

  /**
   * The receive loop of one session: the positions of the messages it acts on.
   * `readable[p]` says whether reading the history back succeeds at message `p`.
   */
  method RunSession(msgs: seq<Msg>, sid: SessionId, readable: seq<bool>) returns (calls: seq<nat>)
    requires |readable| == |msgs|
    ensures forall i, j :: 0 <= i < j < |calls| ==> calls[i] < calls[j]
    ensures forall p :: p in calls <==> 0 <= p < |msgs| && Dispatched(msgs, sid, readable, p)
  {
    calls := [];
    var historyComplete := false;
    for p := 0 to |msgs|
      invariant historyComplete <==> exists q :: 0 <= q < p && msgs[q].HistoryComplete?
      invariant forall i, j :: 0 <= i < j < |calls| ==> calls[i] < calls[j]
      invariant forall i :: 0 <= i < |calls| ==> calls[i] < p
      invariant forall q :: q in calls <==> 0 <= q < p && Dispatched(msgs, sid, readable, q)
    {
      ghost var before := calls;
      match msgs[p] {
      case ChunkMsg(msgSid, chunk) =>
        if msgSid == sid && !IsAbort(chunk) {
          var rpc := AsRpcRequest(chunk);
          if rpc.Some? && historyComplete {
            if rpc.value.rpcMethod == LLM_INVOKE {
              if readable[p] {
                calls := calls + [p];
              }
            } else if rpc.value.rpcMethod == LLM_PROMPT {
              calls := calls + [p];
            }
          }
        }
      case HistoryComplete(_, _) =>
        historyComplete := true;
      case _ =>
      }
      assert calls == if Dispatched(msgs, sid, readable, p) then before + [p] else before;
    }
  }

  // ----- What a Subscribe writes -----

  function SnapshotSize(f: Feed): nat {
    |f.history| + |f.retained|
  }

  function LiveCount(f: Feed): int {
    |f.sent| - SnapshotSize(f)
  }

  /** The snapshot, the end-of-history mark, then only chunks published since. */
  predicate OneOk(s: Sub) {
    s.scope.One? ==>
      && |s.feeds| == 1
      && var f := s.feeds[0];
         var snapshot := f.history + f.retained;
         if f.stage.Replaying? then
           f.sent + f.todo == snapshot && s.out == ChunksOut(s.scope.sid, f.sent)
         else
           && !f.stage.Waiting? && SnapshotSize(f) <= |f.sent| && f.sent[..SnapshotSize(f)] == snapshot
           && |s.out| >= |f.sent| + 1
           && s.out[..|f.sent| + 1] == ChunksOut(s.scope.sid, snapshot) + [HistoryComplete(s.scope.sid, SnapshotSize(f))]
                                       + ChunksOut(s.scope.sid, f.sent[SnapshotSize(f)..])
           && (f.stage.Live? ==> |s.out| == |f.sent| + 1)
           && (f.stage.Stopped? ==> s.out == s.out[..|f.sent| + 1] + [SubscriberLagged(s.scope.sid)])
  }

  predicate Done(s: Sub) {
    s.closed || s.halted || (|s.feeds| > 0 && s.feeds[0].stage.Stopped?)
  }

  /** Equal up to the receiver's queue and the flags of its tasks. */
  predicate SameOne(s: Sub, t: Sub) {
    && t.scope == s.scope && t.gated == s.gated && t.out == s.out && |t.feeds| == |s.feeds|
    && (s.closed ==> t.closed) && (s.halted ==> t.halted)
    && (forall i :: 0 <= i < |s.feeds| ==>
          var f, g := s.feeds[i], t.feeds[i];
          f.inst == g.inst && f.from == g.from && f.history == g.history && f.retained == g.retained
          && f.todo == g.todo && f.sent == g.sent && f.stage == g.stage)
  }

  /** What one step does to a Subscribe that existed before. */
  predicate OneStep(b: Bus, a: Action, k: nat)
    requires WellFormed(b) && Enabled(b, a) && k < |b.subs| <= |Next(b, a).subs|
  {
    if IsFeedTask(a) && a.sub == k then Next(b, a).subs[k] == FeedMoved(b, a) else SameOne(b.subs[k], Next(b, a).subs[k])
  }

  lemma HearingIsForListeners(subs: seq<Sub>, e: Event, k: nat)
    requires k < |subs| && subs[k].scope.One?
    ensures Notify(subs, e)[k] == subs[k]
  {
  }

  lemma {:induction false} CleanupKeepsOne(b: Bus, c: ConnId, sids: seq<SessionId>, k: nat)
    requires WellFormed(b) && k < |b.subs| && b.subs[k].scope.One?
    ensures k < |Cleanup(b, c, sids).subs| && Cleanup(b, c, sids).subs[k] == b.subs[k]
    decreases |sids|
  {
    if sids != [] {
      DepartWellFormed(b, c, sids[0]);
      CleanupKeepsOne(Depart(b, c, sids[0]), c, sids[1..], k);
    }
  }

  lemma PublishKeepsOne(b: Bus, n: nat, c: Chunk, k: nat)
    requires n < |b.insts| && k < |b.subs| && b.subs[k].scope.One?
    ensures |PublishAt(b, n, c).subs| == |b.subs| && SameOne(b.subs[k], PublishAt(b, n, c).subs[k])
  {
    assert PublishAt(b, n, c).subs[k] == b.subs[k].(feeds := Offer(b.subs[k].feeds, n, c));
  }

  lemma SetTagsKeepsOne(b: Bus, a: Action, k: nat)
    requires WellFormed(b) && Enabled(b, a) && a.SetTags? && k < |b.subs| && b.subs[k].scope.One?
    ensures |Effect(b, a).subs| == |b.subs| && SameOne(b.subs[k], Effect(b, a).subs[k])
  {
    if a.sid in b.live {
      PublishKeepsOne(b, b.live[a.sid], a.note, k);
      HearingIsForListeners(PublishAt(b, b.live[a.sid], a.note).subs, TagsUpdated(a.sid, a.tags), k);
    }
  }

  lemma CommandKeepsOne(b: Bus, a: Action, k: nat)
    requires WellFormed(b) && Enabled(b, a) && IsCommand(a) && k < |b.subs| && b.subs[k].scope.One?
    ensures |Effect(b, a).subs| == |b.subs| && SameOne(b.subs[k], Effect(b, a).subs[k])
  {
    if a.SetTags? {
      SetTagsKeepsOne(b, a, k);
    } else if a.Publish? {
      if Effect(b, a) != b {
        PublishKeepsOne(b, b.live[a.sid], Tagged(a), k);
      }
    } else {
      assert Effect(b, a).subs[k] == b.subs[k];
    }
  }

  lemma TaskKeepsOne(b: Bus, a: Action, k: nat)
    requires WellFormed(b) && Enabled(b, a) && IsTask(a) && !IsFeedTask(a) && k < |b.subs| && b.subs[k].scope.One?
    ensures |Effect(b, a).subs| == |b.subs| && SameOne(b.subs[k], Effect(b, a).subs[k])
  {
    TaskShape(b, a);
    if a.Attach? {
      assert Effect(b, a) == DoAttach(b, a.sub);
    }
  }

  lemma StepKeepsOne(b: Bus, a: Action, k: nat)
    requires WellFormed(b) && Enabled(b, a) && k < |b.subs| && b.subs[k].scope.One?
    ensures |b.subs| <= |Next(b, a).subs| && OneStep(b, a, k)
  {
    if IsCommand(a) {
      CommandKeepsOne(b, a, k);
    } else if IsFeedTask(a) {
      FeedTaskKeepsOne(b, a, k);
    } else if IsTask(a) {
      TaskKeepsOne(b, a, k);
    } else {
      RestKeepsOne(b, a, k);
    }
  }

  lemma FeedTaskKeepsOne(b: Bus, a: Action, k: nat)
    requires WellFormed(b) && Enabled(b, a) && IsFeedTask(a) && k < |b.subs| && b.subs[k].scope.One?
    ensures |Effect(b, a).subs| == |b.subs|
    ensures if a.sub == k then Effect(b, a).subs[k] == FeedMoved(b, a) else SameOne(b.subs[k], Effect(b, a).subs[k])
  {
    FeedTaskShape(b, a);
  }

  lemma RestKeepsOne(b: Bus, a: Action, k: nat)
    requires WellFormed(b) && Enabled(b, a) && !IsCommand(a) && !IsTask(a) && k < |b.subs| && b.subs[k].scope.One?
    ensures |b.subs| <= |Effect(b, a).subs| && SameOne(b.subs[k], Effect(b, a).subs[k])
  {
    if a.Disconnect? {
      CleanupKeepsOne(Dropped(b, a.conn), a.conn, b.conns[a.conn].tracked, k);
      CleanupKeepsWriters(Dropped(b, a.conn), a.conn, b.conns[a.conn].tracked);
    } else {
      assert Effect(b, a).subs[k] == b.subs[k];
    }
  }

  lemma ChunksOutAppend(sid: SessionId, xs: seq<Chunk>, ys: seq<Chunk>)
    ensures ChunksOut(sid, xs + ys) == ChunksOut(sid, xs) + ChunksOut(sid, ys)
  {
  }

  lemma ReplayKeepsOneOk(s: Sub, a: Action)
    requires OneOk(s) && s.scope.One? && a.Replay? && a.feed == 0 && s.feeds[0].stage.Replaying? && s.feeds[0].todo != []
    ensures OneOk(WithFeed(s, 0, FeedAfter(s, s.feeds[0], a), FeedOut(s.scope.sid, s, s.feeds[0], a)))
  {
    var f := s.feeds[0];
    assert Written(s, f.todo[0]) == [f.todo[0]];
    ChunksOutAppend(s.scope.sid, f.sent, [f.todo[0]]);
    assert f.todo == [f.todo[0]] + f.todo[1..];
  }

  lemma GoLiveKeepsOneOk(s: Sub, a: Action)
    requires OneOk(s) && s.scope.One? && a.GoLive? && a.feed == 0 && s.feeds[0].stage.Replaying? && s.feeds[0].todo == []
    ensures OneOk(WithFeed(s, 0, FeedAfter(s, s.feeds[0], a), FeedOut(s.scope.sid, s, s.feeds[0], a)))
  {
    var f := s.feeds[0];
    var t := WithFeed(s, 0, FeedAfter(s, f, a), FeedOut(s.scope.sid, s, f, a));
    assert f.sent == f.history + f.retained;
    assert f.sent[SnapshotSize(f)..] == [] && f.sent[..SnapshotSize(f)] == f.sent;
    assert t.out[..|f.sent| + 1] == t.out;
    assert ChunksOut(s.scope.sid, []) == [];
  }

  lemma ForwardKeepsOneOk(s: Sub, a: Action)
    requires OneOk(s) && s.scope.One? && a.Forward? && a.feed == 0 && s.feeds[0].stage.Live? && s.feeds[0].queue != []
    ensures OneOk(WithFeed(s, 0, FeedAfter(s, s.feeds[0], a), FeedOut(s.scope.sid, s, s.feeds[0], a)))
  {
    var f := s.feeds[0];
    var c := f.queue[0];
    var t := WithFeed(s, 0, FeedAfter(s, f, a), FeedOut(s.scope.sid, s, f, a));
    assert Written(s, c) == [c];
    assert (f.sent + [c])[SnapshotSize(f)..] == f.sent[SnapshotSize(f)..] + [c];
    ChunksOutAppend(s.scope.sid, f.sent[SnapshotSize(f)..], [c]);
    assert s.out[..|f.sent| + 1] == s.out;
    assert t.out[..|f.sent| + 2] == t.out;
    assert (f.sent + [c])[..SnapshotSize(f)] == f.sent[..SnapshotSize(f)];
  }

  lemma StopKeepsOneOk(s: Sub, a: Action)
    requires OneOk(s) && s.scope.One? && a.StopLagged? && a.feed == 0 && s.feeds[0].stage.Live?
    ensures OneOk(WithFeed(s, 0, FeedAfter(s, s.feeds[0], a), FeedOut(s.scope.sid, s, s.feeds[0], a)))
  {
    var f := s.feeds[0];
    var t := WithFeed(s, 0, FeedAfter(s, f, a), FeedOut(s.scope.sid, s, f, a));
    assert t.out[..|f.sent| + 1] == s.out;
    assert s.out[..|f.sent| + 1] == s.out;
  }

  lemma SameOneOk(s: Sub, t: Sub)
    requires OneOk(s) && SameOne(s, t)
    ensures OneOk(t)
  {
  }

  /** The subscriptions of the gated handlers, session by session, one after the other. */
  predicate InTurn(b: Bus) {
    forall k, m :: 0 <= k < m < |b.subs| && Handles(b.subs[k]) && Handles(b.subs[m])
                   && b.subs[k].feeds[0].inst == b.subs[m].feeds[0].inst ==>
      Done(b.subs[k]) && b.subs[k].feeds[0].from + LiveCount(b.subs[k].feeds[0]) <= b.subs[m].feeds[0].from
  }

  predicate Handles(s: Sub) {
    s.gated && s.scope.One? && |s.feeds| == 1
  }

  predicate Gated(b: Bus)
    requires WellFormed(b)
  {
    && (forall k :: 0 <= k < |b.subs| ==> OneOk(b.subs[k]))
    && (forall k :: 0 <= k < |b.subs| && b.subs[k].scope.One? ==>
          b.insts[b.subs[k].feeds[0].inst].session.id == b.subs[k].scope.sid)
  }

  /** At most one live gated handler per session: the previous one is done. */
  predicate OneHandler(b: Bus, a: Action)
    requires WellFormed(b)
  {
    a.Subscribe? && a.gated && a.sid in b.live ==>
      forall k :: 0 <= k < |b.subs| && Handles(b.subs[k]) && b.subs[k].feeds[0].inst == b.live[a.sid] ==> Done(b.subs[k])
  }

  lemma MovedOneOk(b: Bus, a: Action)
    requires WellFormed(b) && Enabled(b, a) && Gated(b) && IsFeedTask(a) && b.subs[a.sub].scope.One?
    ensures OneOk(FeedMoved(b, a)) && !Done(b.subs[a.sub])
    ensures FeedMoved(b, a).feeds[0].inst == b.subs[a.sub].feeds[0].inst
  {
    var s := b.subs[a.sub];
    assert OneOk(s) && a.feed == 0;
    match a
    case Replay(_, _) => ReplayKeepsOneOk(s, a);
    case GoLive(_, _) => GoLiveKeepsOneOk(s, a);
    case Forward(_, _) => ForwardKeepsOneOk(s, a);
    case StopLagged(_, _) => StopKeepsOneOk(s, a);
  }

  lemma NewSubs(b: Bus, a: Action)
    requires WellFormed(b) && Enabled(b, a) && WellFormed(Next(b, a)) && |Next(b, a).subs| > |b.subs|
    ensures IsSubscribing(a) && |Next(b, a).subs| == |b.subs| + 1
  {
    if IsTask(a) {
      TaskShape(b, a);
    } else if a.Disconnect? {
      CleanupKeepsWriters(Dropped(b, a.conn), a.conn, b.conns[a.conn].tracked);
    }
  }

  lemma StepGated(b: Bus, a: Action)
    requires WellFormed(b) && Enabled(b, a) && Gated(b)
    ensures WellFormed(Next(b, a)) && Gated(Next(b, a))
  {
    StepGrows(b, a);
    var b' := Next(b, a);
    forall k | 0 <= k < |b'.subs|
      ensures OneOk(b'.subs[k])
      ensures b'.subs[k].scope.One? ==> b'.insts[b'.subs[k].feeds[0].inst].session.id == b'.subs[k].scope.sid
    {
      if k >= |b.subs| {
        NewSubs(b, a);
        NewSubGated(b, a);
      } else if b.subs[k].scope.One? {
        OldSubGated(b, a, k);
      } else {
        assert SubGrows(b.subs[k], b'.subs[k]);
      }
    }
  }

  lemma NewSubGated(b: Bus, a: Action)
    requires WellFormed(b) && Enabled(b, a) && IsSubscribing(a) && WellFormed(Next(b, a))
    requires |Next(b, a).subs| == |b.subs| + 1
    ensures var s := Next(b, a).subs[|b.subs|];
            OneOk(s) && (s.scope.One? ==> Next(b, a).insts[s.feeds[0].inst].session.id == s.scope.sid)
  {
    if a.Subscribe? {
      assert ChunksOut(a.sid, []) == [];
    }
  }

  lemma OldSubGated(b: Bus, a: Action, k: nat)
    requires WellFormed(b) && Enabled(b, a) && Gated(b) && k < |b.subs| && b.subs[k].scope.One?
    requires WellFormed(Next(b, a)) && Grows(b, Next(b, a))
    ensures var t := Next(b, a).subs[k];
            OneOk(t) && Next(b, a).insts[t.feeds[0].inst].session.id == t.scope.sid
  {
    var n := b.subs[k].feeds[0].inst;
    assert OneOk(b.subs[k]) && InstanceGrows(b.insts[n], Next(b, a).insts[n]);
    StepKeepsOne(b, a, k);
    if IsFeedTask(a) && a.sub == k {
      MovedOneOk(b, a);
    } else {
      SameOneOk(b.subs[k], Next(b, a).subs[k]);
    }
  }

  /** How a done handler, and how any handler, moves in one step. */
  lemma HandlerMoves(b: Bus, a: Action, k: nat)
    requires WellFormed(b) && Enabled(b, a) && Gated(b) && k < |b.subs| && Handles(b.subs[k])
    ensures k < |Next(b, a).subs| && Handles(Next(b, a).subs[k])
    ensures var f, g := b.subs[k].feeds[0], Next(b, a).subs[k].feeds[0];
            f.inst == g.inst && f.from == g.from && SnapshotSize(f) == SnapshotSize(g)
            && (Done(b.subs[k]) ==> g.sent == f.sent && Done(Next(b, a).subs[k]))
  {
    assert OneOk(b.subs[k]);
    StepKeepsOne(b, a, k);
    if IsFeedTask(a) && a.sub == k {
      MovedOneOk(b, a);
    }
  }

  lemma StepInTurn(b: Bus, a: Action)
    requires WellFormed(b) && Enabled(b, a) && Gated(b) && Delivery(b) && InTurn(b) && OneHandler(b, a)
    ensures WellFormed(Next(b, a)) && InTurn(Next(b, a))
  {
    StepGrows(b, a);
    var b' := Next(b, a);
    forall k, m | 0 <= k < m < |b'.subs| && Handles(b'.subs[k]) && Handles(b'.subs[m])
                  && b'.subs[k].feeds[0].inst == b'.subs[m].feeds[0].inst
      ensures Done(b'.subs[k]) && b'.subs[k].feeds[0].from + LiveCount(b'.subs[k].feeds[0]) <= b'.subs[m].feeds[0].from
    {
      if m < |b.subs| {
        WasHandler(b, a, k);
        WasHandler(b, a, m);
        HandlerMoves(b, a, k);
        HandlerMoves(b, a, m);
      } else {
        NewSubs(b, a);
        WasHandler(b, a, k);
        HandlerMoves(b, a, k);
        NewHandlerWaits(b, a, k);
      }
    }
  }

  lemma WasHandler(b: Bus, a: Action, k: nat)
    requires WellFormed(b) && Enabled(b, a) && Gated(b) && WellFormed(Next(b, a)) && Grows(b, Next(b, a))
    requires k < |b.subs| && Handles(Next(b, a).subs[k])
    ensures Handles(b.subs[k])
  {
    assert SubGrows(b.subs[k], Next(b, a).subs[k]) && OneOk(b.subs[k]);
  }

  lemma NewHandlerWaits(b: Bus, a: Action, k: nat)
    requires WellFormed(b) && Enabled(b, a) && Gated(b) && Delivery(b) && OneHandler(b, a) && IsSubscribing(a)
    requires k < |b.subs| && Handles(b.subs[k]) && |Next(b, a).subs| == |b.subs| + 1
    requires Handles(Next(b, a).subs[|b.subs|])
    requires b.subs[k].feeds[0].inst == Next(b, a).subs[|b.subs|].feeds[0].inst
    ensures Done(b.subs[k])
    ensures b.subs[k].feeds[0].from + LiveCount(b.subs[k].feeds[0]) <= Next(b, a).subs[|b.subs|].feeds[0].from
  {
    var f := b.subs[k].feeds[0];
    var inst := b.insts[f.inst];
    assert FeedOk(f, inst, None);
    FilterAll(OwedTo(f, inst), Wanted(None));
    assert f.sent <= OwedTo(f, inst);
  }

  predicate OneHandlerRun(b: Bus, run: seq<Action>)
    requires WellFormed(b) && Feasible(b, run)
    decreases |run|
  {
    run == [] || (OneHandler(b, run[0]) && (StepGrows(b, run[0]); OneHandlerRun(Next(b, run[0]), run[1..])))
  }

  lemma {:induction false} GatedFrom(b: Bus, run: seq<Action>)
    requires WellFormed(b) && Feasible(b, run) && Gated(b)
    ensures Gated(After(b, run))
    decreases |run|
  {
    if run != [] {
      StepGated(b, run[0]);
      GatedFrom(Next(b, run[0]), run[1..]);
    }
  }

  lemma {:induction false} InTurnFrom(b: Bus, run: seq<Action>)
    requires WellFormed(b) && Feasible(b, run) && Gated(b) && Delivery(b) && InTurn(b) && OneHandlerRun(b, run)
    ensures InTurn(After(b, run))
    decreases |run|
  {
    if run != [] {
      StepInTurn(b, run[0]);
      StepGated(b, run[0]);
      StepKeepsDelivery(b, run[0]);
      InTurnFrom(Next(b, run[0]), run[1..]);
    }
  }

  // ----- At most once -----

  /** `c` carries the JSON-RPC request with id `r`. */
  predicate Carries(c: Chunk, r: string) {
    AsRpcRequest(c).Some? && AsRpcRequest(c).value.id == r
  }

  /** Where a published request ended up: in a session's log, or on a connection's wire. */
  datatype Publication = Logged(n: nat, j: nat) | Sent(w: nat)

  predicate PublishedAs(b: Bus, o: Publication, r: string) {
    match o
    case Logged(n, j) => n < |b.insts| && j < |b.insts[n].log| && Carries(b.insts[n].log[j], r)
    case Sent(w) => w < |b.wire| && b.wire[w].writer.None? && b.wire[w].msg.ChunkMsg? && Carries(b.wire[w].msg.chunk, r)
  }

  /** The request was published at most once, ever: to one session, or directly to one connection. */
  ghost predicate PublishedOnce(b: Bus, r: string) {
    forall o, o' :: PublishedAs(b, o, r) && PublishedAs(b, o', r) ==> o == o'
  }

  /** The messages the handler of subscription `k` receives: all that arrives at its connection. */
  function Inbox(b: Bus, k: nat): seq<Msg>
    requires k < |b.subs|
  {
    MsgsOf(Arrivals(b, b.subs[k].conn))
  }

  /** The handler of subscription `k` may act on the message `p` it receives, which carries request `r`. */
  predicate Acts(b: Bus, k: nat, p: nat, r: string) {
    && k < |b.subs| && Handles(b.subs[k]) && p < |Inbox(b, k)|
    && Callable(Inbox(b, k), b.subs[k].scope.sid, p) && Carries(Inbox(b, k)[p].chunk, r)
  }

  /** A handler subscribes on a connection of its own. */
  predicate OwnConnections(b: Bus) {
    forall k :: 0 <= k < |b.subs| && Handles(b.subs[k]) ==> Dedicated(b, k)
  }

  /** How many of the first `p` messages the handler receives its subscription wrote. */
  function OwnBefore(b: Bus, k: nat, p: nat): nat
    requires k < |b.subs| && p <= |Inbox(b, k)|
  {
    |Filter(Arrivals(b, b.subs[k].conn)[..p], By(k))|
  }

  /** A call that was not sent directly is one in what the subscription wrote. */
  lemma OwnCall(b: Bus, k: nat, p: nat, r: string)
    requires WireOk(b) && Acts(b, k, p, r) && Dedicated(b, k) && Arrivals(b, b.subs[k].conn)[p].writer.Some?
    ensures var q := OwnBefore(b, k, p);
            Arrivals(b, b.subs[k].conn)[p].writer == Some(k)
            && q < |b.subs[k].out| && b.subs[k].out[q] == Inbox(b, k)[p] && Callable(b.subs[k].out, b.subs[k].scope.sid, q)
  {
    var c, out := b.subs[k].conn, b.subs[k].out;
    var arrivals := Arrivals(b, c);
    OwnArrivals(b, k);
    assert arrivals[p] in arrivals;
    FilterAt(arrivals, By(k), p);
    var h :| 0 <= h < p && Inbox(b, k)[h].HistoryComplete?;
    assert arrivals[h] in arrivals;
    var earlier := Filter(arrivals[..p], By(k));
    assert arrivals[..p][h] == arrivals[h];
    FilterAt(arrivals[..p], By(k), h);
    var g := |Filter(arrivals[..p][..h], By(k))|;
    assert out[g] == Filter(arrivals, By(k))[g].msg && Filter(arrivals, By(k))[g] == earlier[g];
  }

  /** A call sent directly stands at one place on the wire, which gives back its place in the inbox. */
  lemma DirectCall(b: Bus, k: nat, p: nat, r: string) returns (w: nat)
    requires Acts(b, k, p, r) && Arrivals(b, b.subs[k].conn)[p].writer.None?
    ensures PublishedAs(b, Sent(w), r)
    ensures b.wire[w].conn == b.subs[k].conn && |Filter(b.wire[..w], To(b.subs[k].conn))| == p
  {
    w := FilterOrigin(b.wire, To(b.subs[k].conn), p);
  }

  /** What a handler acts on is in its session's log from where it attached, or was sent to its connection. */
  lemma CallsAreLive(b: Bus, k: nat, p: nat, r: string) returns (o: Publication)
    requires WellFormed(b) && Gated(b) && Delivery(b) && WireOk(b) && Acts(b, k, p, r) && Dedicated(b, k)
    ensures PublishedAs(b, o, r)
    ensures var f := b.subs[k].feeds[0];
            match o
            case Logged(n, j) =>
              && Arrivals(b, b.subs[k].conn)[p].writer == Some(k)
              && n == f.inst && j == f.from + (OwnBefore(b, k, p) - 1 - SnapshotSize(f)) && f.from <= j
              && j < f.from + LiveCount(f) && ChunkMsg(b.subs[k].scope.sid, b.insts[n].log[j]) == Inbox(b, k)[p]
            case Sent(w) =>
              && b.wire[w].conn == b.subs[k].conn && b.wire[w].msg == Inbox(b, k)[p]
              && |Filter(b.wire[..w], To(b.subs[k].conn))| == p
  {
    var s := b.subs[k];
    var f := s.feeds[0];
    if Arrivals(b, s.conn)[p].writer.None? {
      var w := DirectCall(b, k, p, r);
      FilterAt(b.wire, To(s.conn), w);
      o := Sent(w);
    } else {
      OwnCall(b, k, p, r);
      var q := OwnBefore(b, k, p);
      assert OneOk(s) && FeedOk(f, b.insts[f.inst], None);
      CallIsLogged(s, b.insts[f.inst], q);
      o := Logged(f.inst, f.from + (q - 1 - SnapshotSize(f)));
    }
  }

  lemma CallIsLogged(s: Sub, inst: Instance, p: nat)
    requires s.scope.One? && OneOk(s) && FeedOk(s.feeds[0], inst, None) && p < |s.out| && Callable(s.out, s.scope.sid, p)
    ensures var f := s.feeds[0];
            var j := f.from + (p - 1 - SnapshotSize(f));
            SnapshotSize(f) < p <= |f.sent| && j < |inst.log| && inst.log[j] == s.out[p].chunk
  {
    FilterAll(OwedTo(s.feeds[0], inst), Wanted(None));
    CallComesLate(s, p);
    LiveChunkIsLogged(s.feeds[0], inst, p - 1);
  }

  lemma LiveChunkIsLogged(f: Feed, inst: Instance, q: nat)
    requires f.from <= |inst.log| && f.sent <= OwedTo(f, inst) && SnapshotSize(f) <= q < |f.sent|
    ensures f.from + (q - SnapshotSize(f)) < |inst.log|
    ensures f.sent[q] == inst.log[f.from + (q - SnapshotSize(f))]
  {
    assert f.sent[q] == OwedTo(f, inst)[q];
    assert OwedTo(f, inst)[q] == inst.log[f.from..][q - SnapshotSize(f)];
  }

  lemma CallComesLate(s: Sub, p: nat)
    requires s.scope.One? && OneOk(s) && p < |s.out| && Callable(s.out, s.scope.sid, p)
    ensures var f := s.feeds[0]; SnapshotSize(f) < p <= |f.sent| && s.out[p] == ChunkMsg(s.scope.sid, f.sent[p - 1])
  {
    var f := s.feeds[0];
    var q :| 0 <= q < p && s.out[q].HistoryComplete?;
    assert !f.stage.Replaying?;
    var n := SnapshotSize(f);
    var head := s.out[..|f.sent| + 1];
    assert forall i :: 0 <= i < n ==> head[i].ChunkMsg?;
    assert q >= n;
    assert p <= |f.sent|;
    assert s.out[p] == head[p] && head[p] == ChunksOut(s.scope.sid, f.sent[n..])[p - n - 1];
  }

  /** All that subscription `k` has been sent was published before `m` attached. */
  predicate Before(b: Bus, k: nat, m: nat)
    requires k < |b.subs| && m < |b.subs| && Handles(b.subs[k]) && Handles(b.subs[m])
  {
    b.subs[k].feeds[0].from + LiveCount(b.subs[k].feeds[0]) <= b.subs[m].feeds[0].from
  }

  /** Two of the subscription's own messages have different numbers of own messages before them. */
  lemma OwnBeforeGrows(b: Bus, k: nat, p: nat, p': nat)
    requires k < |b.subs| && p < p' < |Inbox(b, k)| && Arrivals(b, b.subs[k].conn)[p].writer == Some(k)
    ensures OwnBefore(b, k, p) < OwnBefore(b, k, p')
  {
    var arrivals := Arrivals(b, b.subs[k].conn);
    assert arrivals[..p'][p] == arrivals[p] && arrivals[..p'][..p] == arrivals[..p];
    FilterAt(arrivals[..p'], By(k), p);
  }

  lemma AtMostOnceIn(b: Bus, r: string, k: nat, p: nat, k': nat, p': nat)
    requires WellFormed(b) && Gated(b) && Delivery(b) && WireOk(b) && PublishedOnce(b, r)
    requires Acts(b, k, p, r) && Acts(b, k', p', r) && Dedicated(b, k) && Dedicated(b, k')
    requires k != k' && b.subs[k].feeds[0].inst == b.subs[k'].feeds[0].inst ==> Before(b, k, k') || Before(b, k', k)
    ensures k == k' && p == p'
  {
    var o := CallsAreLive(b, k, p, r);
    var o' := CallsAreLive(b, k', p', r);
    assert o == o' && k == k';
    OneLogOnePlace(b, r, k, p, p', o);
  }

  lemma OneLogOnePlace(b: Bus, r: string, k: nat, p: nat, p': nat, o: Publication)
    requires WireOk(b) && Acts(b, k, p, r) && Acts(b, k, p', r) && Dedicated(b, k)
    requires o.Sent? ==> p == p'
    requires o.Logged? ==> OwnBefore(b, k, p) == OwnBefore(b, k, p')
    requires o.Logged? ==> var a := Arrivals(b, b.subs[k].conn); a[p].writer == Some(k) && a[p'].writer == Some(k)
    ensures p == p'
  {
    if p < p' {
      OwnBeforeGrows(b, k, p, p');
    } else if p' < p {
      OwnBeforeGrows(b, k, p', p);
    }
  }

  /**
   * Replayed history, retained chunks and a fork's copies never run: over every run, what
   * a handler acts on was published to its session after it attached, or sent directly to
   * its connection.
   */
  lemma OnlyLiveRequestsRun(run: seq<Action>, k: nat, p: nat, r: string)
    requires Feasible(INITIAL, run) && Acts(After(INITIAL, run), k, p, r) && Dedicated(After(INITIAL, run), k)
    ensures var b := After(INITIAL, run);
            var f := b.subs[k].feeds[0];
            var msg := Inbox(b, k)[p];
            || (exists j :: f.from <= j < |b.insts[f.inst].log| && b.insts[f.inst].log[j] == msg.chunk)
            || (TextAnnotation(msg.chunk, CAFE_DIRECT_TO) == Some(b.subs[k].conn)
                && exists w :: 0 <= w < |b.wire| && b.wire[w] == Write(b.subs[k].conn, None, msg))
  {
    GatedFrom(INITIAL, run);
    DeliveryFrom(INITIAL, run);
    WireFrom(INITIAL, run);
    var b := After(INITIAL, run);
    var o := CallsAreLive(b, k, p, r);
    if o.Sent? {
      assert b.wire[o.w] in b.wire && WriteOk(b, b.wire[o.w]);
      assert b.wire[o.w] == Write(b.subs[k].conn, None, Inbox(b, k)[p]);
    }
  }

  /**
   * At-most-once execution: with one live gated handler per session, each on a connection
   * of its own, a request published once is acted on at most once, by one handler at one
   * message, over every run of forks, retained replays, re-subscriptions and direct sends.
   */
  lemma AtMostOnce(run: seq<Action>, r: string, k: nat, p: nat, k': nat, p': nat)
    requires Feasible(INITIAL, run) && OneHandlerRun(INITIAL, run) && PublishedOnce(After(INITIAL, run), r)
    requires OwnConnections(After(INITIAL, run))
    requires Acts(After(INITIAL, run), k, p, r) && Acts(After(INITIAL, run), k', p', r)
    ensures k == k' && p == p'
  {
    GatedFrom(INITIAL, run);
    DeliveryFrom(INITIAL, run);
    InTurnFrom(INITIAL, run);
    WireFrom(INITIAL, run);
    AtMostOnceIn(After(INITIAL, run), r, k, p, k', p');
  }

  /**
   * `spawned` gives each gated handler the position of the announcement it was spawned
   * for, in what one SubscribeAll wrote; no announcement spawns two.
   */
  predicate SpawnedByAnnouncements(b: Bus, m: nat, spawned: map<nat, nat>) {
    && m < |b.subs| && b.subs[m].scope.Everything?
    && (forall k :: 0 <= k < |b.subs| && Handles(b.subs[k]) ==>
          && k in spawned && spawned[k] < |b.subs[m].out|
          && var msg := b.subs[m].out[spawned[k]];
             msg.EventMsg? && msg.event.SessionCreated? && msg.event.sid == b.subs[k].scope.sid)
    && (forall k, k' :: k in spawned && k' in spawned && spawned[k] == spawned[k'] ==> k == k')
  }

  /**
   * The service as it is built: it spawns one handler per announcement on its SubscribeAll
   * stream. Announcements are unique, so no further discipline is needed.
   */
  lemma AtMostOncePerService(run: seq<Action>, m: nat, spawned: map<nat, nat>, r: string, k: nat, p: nat, k': nat, p': nat)
    requires Feasible(INITIAL, run) && FreshRun(INITIAL, run)
    requires SpawnedByAnnouncements(After(INITIAL, run), m, spawned) && PublishedOnce(After(INITIAL, run), r)
    requires OwnConnections(After(INITIAL, run))
    requires Acts(After(INITIAL, run), k, p, r) && Acts(After(INITIAL, run), k', p', r)
    ensures k == k' && p == p'
  {
    GatedFrom(INITIAL, run);
    DeliveryFrom(INITIAL, run);
    WireFrom(INITIAL, run);
    var b := After(INITIAL, run);
    if b.subs[k].feeds[0].inst == b.subs[k'].feeds[0].inst {
      assert b.subs[k].scope.sid == b.subs[k'].scope.sid;
      AnnouncedOnce(run, m, spawned[k], spawned[k']);
    }
    AtMostOnceIn(b, r, k, p, k', p');
  }
}
