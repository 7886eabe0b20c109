/**
 * What reaches a connection, over all runs: its writer is shared by all its subscriptions
 * and by every direct-to publish that names it.
 */
module BusWire {
  import opened Basics
  import opened Chunks
  import opened Sessions
  import opened Registry
  import opened Bus
  import opened BusDelivery
  import opened BusLifecycle
  import opened BusAnnounce

  function By(k: nat): Write -> bool { (w: Write) => w.writer == Some(k) }
  function To(c: ConnId): Write -> bool { (w: Write) => w.conn == c }

  function MsgsOf(ws: seq<Write>): (r: seq<Msg>)
    ensures |r| == |ws| && forall i :: 0 <= i < |r| ==> r[i] == ws[i].msg
  {
    seq(|ws|, i requires 0 <= i < |ws| => ws[i].msg)
  }

  /** What subscription `k` put on the wire. */
  function WrittenBy(b: Bus, k: nat): seq<Msg> {
    MsgsOf(Filter(b.wire, By(k)))
  }

  /** A subscription writes to its own connection; a direct chunk carries the mark of the one it went to. */
  predicate WriteOk(b: Bus, w: Write) {
    if w.writer.Some? then w.writer.value < |b.subs| && b.subs[w.writer.value].conn == w.conn
    else w.msg.ChunkMsg? && TextAnnotation(w.msg.chunk, CAFE_DIRECT_TO) == Some(w.conn)
  }

  predicate WireOk(b: Bus) {
    && (forall k :: 0 <= k < |b.subs| ==> WrittenBy(b, k) == b.subs[k].out)
    && (forall w :: w in b.wire ==> WriteOk(b, w))
  }

  // ----- One step -----

  predicate SameOut(s: Sub, t: Sub) {
    t.conn == s.conn && t.out == s.out
  }

  /** What a step adds to the outputs of the subscriptions. */
  predicate OutsAfter(b: Bus, a: Action, b': Bus)
    requires WellFormed(b) && Enabled(b, a)
  {
    && |b.subs| <= |b'.subs|
    && (forall k :: 0 <= k < |b.subs| ==>
          if IsTask(a) && a.sub == k
          then b'.subs[k].conn == b.subs[k].conn && b'.subs[k].out == b.subs[k].out + TaskOut(b, a)
          else SameOut(b.subs[k], b'.subs[k]))
    && (forall k :: |b.subs| <= k < |b'.subs| ==> b'.subs[k].out == [])
  }

  lemma CommandKeepsOut(b: Bus, a: Action, k: nat)
    requires WellFormed(b) && Enabled(b, a) && IsCommand(a) && k < |b.subs|
    ensures |Effect(b, a).subs| == |b.subs| && SameOut(b.subs[k], Effect(b, a).subs[k])
  {
    if a.SetTags? {
      SetTagsKeepsOut(b, a, k);
    } else if a.Fork? {
      ForkKeepsOut(b, a, k);
    }
  }

  lemma SetTagsKeepsOut(b: Bus, a: Action, k: nat)
    requires WellFormed(b) && Enabled(b, a) && a.SetTags? && k < |b.subs|
    ensures |Effect(b, a).subs| == |b.subs| && SameOut(b.subs[k], Effect(b, a).subs[k])
  {
  }

  lemma ForkKeepsOut(b: Bus, a: Action, k: nat)
    requires WellFormed(b) && Enabled(b, a) && a.Fork? && k < |b.subs|
    ensures |Effect(b, a).subs| == |b.subs| && SameOut(b.subs[k], Effect(b, a).subs[k])
  {
  }

  lemma CommandOuts(b: Bus, a: Action)
    requires WellFormed(b) && Enabled(b, a) && IsCommand(a)
    ensures OutsAfter(b, a, Effect(b, a))
  {
    CommandKeepsCount(b, a);
    forall k | 0 <= k < |b.subs| ensures SameOut(b.subs[k], Effect(b, a).subs[k]) {
      CommandKeepsOut(b, a, k);
    }
  }

  lemma CommandKeepsCount(b: Bus, a: Action)
    requires WellFormed(b) && Enabled(b, a) && IsCommand(a)
    ensures |Effect(b, a).subs| == |b.subs|
  {
  }

  lemma TaskOuts(b: Bus, a: Action)
    requires WellFormed(b) && Enabled(b, a) && IsTask(a)
    ensures OutsAfter(b, a, Effect(b, a))
  {
    TaskShape(b, a);
    if IsFeedTask(a) {
      FeedTaskOuts(b, a);
    } else {
      LoopTaskOuts(b, a);
    }
  }

  lemma FeedTaskOuts(b: Bus, a: Action)
    requires WellFormed(b) && Enabled(b, a) && IsFeedTask(a)
    ensures a.sub < |Effect(b, a).subs| && Effect(b, a).subs[a.sub].out == b.subs[a.sub].out + TaskOut(b, a)
  {
    FeedTaskShape(b, a);
  }

  lemma LoopTaskOuts(b: Bus, a: Action)
    requires WellFormed(b) && Enabled(b, a) && IsTask(a) && !IsFeedTask(a)
    ensures a.sub < |Effect(b, a).subs| && Effect(b, a).subs[a.sub].out == b.subs[a.sub].out + TaskOut(b, a)
  {
    var s := b.subs[a.sub];
    if a.Attach? {
      ListenerAttaches(b, a.sub);
    } else if a.TakeEvent? {
      assert EventTaken(s).out == s.out + EventOut(s);
    }
    if !a.TakeEvent? {
      assert s.out + TaskOut(b, a) == s.out;
    }
  }

  lemma {:induction false} CleanupOuts(b: Bus, c: ConnId, sids: seq<SessionId>)
    requires WellFormed(b)
    ensures |Cleanup(b, c, sids).subs| == |b.subs|
    ensures forall k :: 0 <= k < |b.subs| ==> SameOut(b.subs[k], Cleanup(b, c, sids).subs[k])
    decreases |sids|
  {
    if sids != [] {
      DepartWellFormed(b, c, sids[0]);
      var b1 := Depart(b, c, sids[0]);
      assert forall k :: 0 <= k < |b.subs| ==> SameOut(b.subs[k], b1.subs[k]);
      CleanupOuts(b1, c, sids[1..]);
    }
  }

  lemma StepOuts(b: Bus, a: Action)
    requires WellFormed(b) && Enabled(b, a)
    ensures OutsAfter(b, a, Effect(b, a))
  {
    if IsCommand(a) {
      CommandOuts(b, a);
    } else if IsTask(a) {
      TaskOuts(b, a);
    } else if a.Disconnect? {
      var x := Dropped(b, a.conn);
      DroppedGrows(b, a.conn);
      CleanupOuts(x, a.conn, b.conns[a.conn].tracked);
      assert forall k :: 0 <= k < |b.subs| ==> SameOut(b.subs[k], x.subs[k]);
    }
  }

  lemma WireOutOk(b: Bus, a: Action, b': Bus, w: Write)
    requires WellFormed(b) && Enabled(b, a) && OutsAfter(b, a, b') && w in WireOut(b, a)
    ensures WriteOk(b', w)
  {
    assert CAFE_DIRECT_TO != CAFE_SOURCE_CONNECTION;
  }

  /** A step adds to what `k` wrote exactly what it adds to its output. */
  lemma WireOutBy(b: Bus, a: Action, k: nat)
    requires WellFormed(b) && Enabled(b, a)
    ensures MsgsOf(Filter(WireOut(b, a), By(k))) == if IsTask(a) && a.sub == k then TaskOut(b, a) else []
  {
    if IsTask(a) {
      HandedOverBy(b.subs[a.sub].conn, a.sub, TaskOut(b, a), k);
    } else {
      FilterNone(WireOut(b, a), By(k));
    }
  }

  lemma HandedOverBy(c: ConnId, j: nat, msgs: seq<Msg>, k: nat)
    ensures MsgsOf(Filter(HandedOver(c, j, msgs), By(k))) == if j == k then msgs else []
  {
    if j == k {
      FilterAll(HandedOver(c, j, msgs), By(k));
    } else {
      FilterNone(HandedOver(c, j, msgs), By(k));
    }
  }

  lemma WrittenStep(b: Bus, a: Action, k: nat)
    requires WellFormed(b) && Enabled(b, a)
    ensures WrittenBy(Next(b, a), k)
         == if IsTask(a) && a.sub == k then WrittenBy(b, k) + TaskOut(b, a) else WrittenBy(b, k)
  {
    WrittenConcat(b.wire, WireOut(b, a), k);
    WireOutBy(b, a, k);
    assert !(IsTask(a) && a.sub == k) ==> WrittenBy(b, k) + [] == WrittenBy(b, k);
  }

  lemma WrittenConcat(wire: seq<Write>, more: seq<Write>, k: nat)
    ensures MsgsOf(Filter(wire + more, By(k))) == MsgsOf(Filter(wire, By(k))) + MsgsOf(Filter(more, By(k)))
  {
    FilterConcat(wire, more, By(k));
  }

  lemma NothingYet(b: Bus, k: nat)
    requires WireOk(b) && k >= |b.subs|
    ensures WrittenBy(b, k) == []
  {
    forall w | w in b.wire ensures !By(k)(w) {
      assert WriteOk(b, w);
    }
    FilterNone(b.wire, By(k));
  }

  lemma WireStep(b: Bus, a: Action)
    requires WellFormed(b) && Enabled(b, a) && WireOk(b)
    ensures WellFormed(Next(b, a)) && WireOk(Next(b, a))
  {
    StepGrows(b, a);
    StepOuts(b, a);
    var b' := Next(b, a);
    forall w | w in b'.wire ensures WriteOk(b', w) {
      if w in b.wire {
        assert WriteOk(b, w);
      } else {
        WireOutOk(b, a, b', w);
      }
    }
    forall k | 0 <= k < |b'.subs| ensures WrittenBy(b', k) == b'.subs[k].out {
      WrittenStep(b, a, k);
      if k >= |b.subs| {
        NothingYet(b, k);
      }
    }
  }

  lemma {:induction false} WireFrom(b: Bus, run: seq<Action>)
    requires WellFormed(b) && WireOk(b) && Feasible(b, run)
    ensures WireOk(After(b, run))
    decreases |run|
  {
    if run != [] {
      WireStep(b, run[0]);
      WireFrom(Next(b, run[0]), run[1..]);
    }
  }

  // ----- Every run -----

  /** Nothing reaches a connection but what its own subscriptions wrote and what was sent to it directly. */
  lemma EveryWriteHasASource(run: seq<Action>, c: ConnId, p: nat)
    requires Feasible(INITIAL, run) && p < |After(INITIAL, run).wire| && After(INITIAL, run).wire[p].conn == c
    ensures var b := After(INITIAL, run);
            var w := b.wire[p];
            if w.writer.None? then w.msg.ChunkMsg? && TextAnnotation(w.msg.chunk, CAFE_DIRECT_TO) == Some(c)
            else
              var k := w.writer.value;
              var q := |Filter(b.wire[..p], By(k))|;
              k < |b.subs| && b.subs[k].conn == c && q < |b.subs[k].out| && b.subs[k].out[q] == w.msg
  {
    WireFrom(INITIAL, run);
    var b := After(INITIAL, run);
    assert b.wire[p] in b.wire;
    if b.wire[p].writer.Some? {
      FilterAt(b.wire, By(b.wire[p].writer.value), p);
    }
  }

  predicate AnnouncedOnWire(wire: seq<Write>, p: nat, k: nat, sid: SessionId)
    requires p <= |wire|
  {
    exists q :: 0 <= q < p && wire[q].writer == Some(k)
                && wire[q].msg.EventMsg? && wire[q].msg.event.SessionCreated? && wire[q].msg.event.sid == sid
  }

  /**
   * On the wire of any connection: a chunk that a listener writes comes after that
   * listener's announcement of its session. A chunk sent directly needs none.
   */
  lemma ChunksFollowAnnouncement(run: seq<Action>, k: nat, p: nat)
    requires Feasible(INITIAL, run) && FreshRun(INITIAL, run) && k < |After(INITIAL, run).subs|
    requires After(INITIAL, run).subs[k].scope.Everything? && p < |After(INITIAL, run).wire|
    requires var w := After(INITIAL, run).wire[p]; w.writer == Some(k) && w.msg.ChunkMsg?
    ensures var b := After(INITIAL, run); AnnouncedOnWire(b.wire, p, k, b.wire[p].msg.sid)
  {
    WireFrom(INITIAL, run);
    AnnouncingFrom(INITIAL, run);
    AnnouncedFirst(After(INITIAL, run), k, p);
  }

  lemma AnnouncedFirst(b: Bus, k: nat, p: nat)
    requires WellFormed(b) && Announcing(b) && WireOk(b) && k < |b.subs| && b.subs[k].scope.Everything? && p < |b.wire|
    requires b.wire[p].writer == Some(k) && b.wire[p].msg.ChunkMsg?
    ensures AnnouncedOnWire(b.wire, p, k, b.wire[p].msg.sid)
  {
    var earlier := Filter(b.wire[..p], By(k));
    FilterAt(b.wire, By(k), p);
    var out := b.subs[k].out;
    assert WrittenBy(b, k) == out && OutOk(Roster(b), b.subs[k]);
    assert out[|earlier|] == b.wire[p].msg;
    var q :| 0 <= q < |earlier| && out[q].EventMsg? && out[q].event.SessionCreated? && out[q].event.sid == b.wire[p].msg.sid;
    assert Filter(b.wire, By(k))[q] == earlier[q];
    var i := FilterOrigin(b.wire[..p], By(k), q);
    assert b.wire[i].msg == out[q];
  }

  /**
   * Exactly once, in the bytes on the wire: for each session a listener attached, the
   * chunks it writes for its id are the matching part of what it is owed, in order, up to
   * what is pending.
   */
  lemma WrittenChunksAreOwed(run: seq<Action>, k: nat, i: nat)
    requires Feasible(INITIAL, run) && FreshRun(INITIAL, run) && k < |After(INITIAL, run).subs|
    requires After(INITIAL, run).subs[k].scope.Everything? && i < |After(INITIAL, run).subs[k].feeds|
    ensures var b := After(INITIAL, run);
            var s := b.subs[k];
            var f := s.feeds[i];
            && f.from <= |b.insts[f.inst].log|
            && var written := Projected(WrittenBy(b, k), b.insts[f.inst].session.id);
               var owed := Filter(OwedTo(f, b.insts[f.inst]), Wanted(s.scope.filter));
               && written <= owed
               && (!f.lagged ==> written + Filter(f.todo + f.queue, Wanted(s.scope.filter)) == owed)
  {
    WireFrom(INITIAL, run);
    AnnouncingFrom(INITIAL, run);
    EveryFeedDelivers(run, k, i);
    ProjectedIsSent(After(INITIAL, run), k, i);
  }

  // ----- A connection of its own -----

  /** No other subscription shares the connection of `k`. */
  predicate Dedicated(b: Bus, k: nat)
    requires k < |b.subs|
  {
    forall m :: 0 <= m < |b.subs| && b.subs[m].conn == b.subs[k].conn ==> m == k
  }

  /** What arrives at a connection, in order. */
  function Arrivals(b: Bus, c: ConnId): seq<Write> {
    Filter(b.wire, To(c))
  }

  /** What arrives at a connection of its own is the subscription's output, with the direct chunks in between. */
  lemma OwnArrivals(b: Bus, k: nat)
    requires WireOk(b) && k < |b.subs| && Dedicated(b, k)
    ensures MsgsOf(Filter(Arrivals(b, b.subs[k].conn), By(k))) == b.subs[k].out
    ensures forall w :: w in Arrivals(b, b.subs[k].conn) ==>
              w.writer == Some(k) || (w.writer.None? && WriteOk(b, w) && w.conn == b.subs[k].conn)
  {
    var c := b.subs[k].conn;
    forall w | w in b.wire && By(k)(w) ensures To(c)(w) {
      assert WriteOk(b, w);
    }
    FilterAbsorbs(b.wire, To(c), By(k));
    assert WrittenBy(b, k) == b.subs[k].out;
    forall w | w in Arrivals(b, c) ensures w.writer == Some(k) || (w.writer.None? && WriteOk(b, w) && w.conn == c) {
      FilterMember(b.wire, To(c), w);
      assert WriteOk(b, w);
    }
  }
}
