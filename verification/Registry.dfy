/** The session registry: creation, forking, tags, deletion and grace timers. */
module Registry {
  import opened Basics
  import opened Chunks
  import opened Sessions

  const FORK_PARENT_ID := "fork.parent_id"

  datatype ForkError = ParentNotFound | SessionExists

  /** A registry event, as broadcast to the SubscribeAll listeners. */
  datatype Event =
    | SessionCreated(sid: SessionId, agent: string)
    | SessionDeleted(sid: SessionId)
    | TagsUpdated(sid: SessionId, tags: seq<string>)

  /** A spawned deletion task that wakes at `due`. */
  datatype Timer = Timer(sid: SessionId, due: Instant)

  /** The null chunk a fork appends to record where it came from. */
  function Provenance(id: ChunkId, parent: SessionId): Chunk {
    Chunk(id, NullContent, None, "com.nominal.cafe-bus", map[FORK_PARENT_ID := Str(parent)])
  }

  function Forked(parent: Session, newId: SessionId, now: Instant, provenance: Chunk): Session {
    NewSession(newId, parent.agent).(
      tags := parent.tags,
      parent := Some(parent.id),
      history := parent.history + [provenance],
      retained := Filter(parent.retained, AliveAt(now)))
  }

  lemma ProvenanceIsStored(id: ChunkId, parent: SessionId)
    ensures Stored(Provenance(id, parent))
  {
  }

  // ----- A fork answers as its parent -----

  lemma {:induction false} AfterUsesConcat(retained: seq<Held>, a: seq<Use>, b: seq<Use>)
    ensures AfterUses(retained, a + b) == AfterUses(AfterUses(retained, a), b)
  {
    if b == [] {
      assert a + b == a;
    } else {
      assert (a + b)[..|a + b| - 1] == a + b[..|b| - 1];
      AfterUsesConcat(retained, a, b[..|b| - 1]);
    }
  }

  /**
   * A fork taken at `forkedAt` keeps answering retained reads as its parent does: after
   * any uses of the two with the same publishes, whatever each was pruned by, a read at
   * `now` returns the same chunks from both.
   */
  lemma ForkReadsAsParent(parent: Session, newId: SessionId, forkedAt: Instant, provenance: Chunk,
                          ofParent: seq<Use>, ofFork: seq<Use>, now: Instant)
    requires forkedAt <= now && NoLaterThan(ofParent, now) && NoLaterThan(ofFork, now)
    requires OnlyPublishes(ofParent) == OnlyPublishes(ofFork)
    ensures Filter(AfterUses(Forked(parent, newId, forkedAt, provenance).retained, ofFork), AliveAt(now))
         == Filter(AfterUses(parent.retained, ofParent), AliveAt(now))
  {
    var cut := [Prunes(forkedAt)];
    assert cut[..0] == [];
    assert AfterUses(parent.retained, cut) == Forked(parent, newId, forkedAt, provenance).retained by {
      assert AfterUses(parent.retained, cut[..0]) == parent.retained;
    }
    AfterUsesConcat(parent.retained, cut, ofFork);
    PruningIsUnobservable(parent.retained, cut + ofFork, now);
    PruningIsUnobservable(parent.retained, ofParent, now);
    FilterConcat(cut, ofFork, (u: Use) => u.Publishes?);
    OnlyPublishesDropsPrunes(cut, ofFork);
  }

  lemma {:induction false} OnlyPublishesDropsPrunes(prunes: seq<Use>, uses: seq<Use>)
    requires forall i :: 0 <= i < |prunes| ==> prunes[i].Prunes?
    ensures OnlyPublishes(prunes + uses) == OnlyPublishes(uses)
  {
    if uses == [] {
      assert prunes + uses == prunes;
      if prunes != [] {
        OnlyPublishesDropsPrunes(prunes[..|prunes| - 1], []);
        assert prunes[..|prunes| - 1] + [] == prunes[..|prunes| - 1];
      }
    } else {
      assert (prunes + uses)[..|prunes + uses| - 1] == prunes + uses[..|uses| - 1];
      OnlyPublishesDropsPrunes(prunes, uses[..|uses| - 1]);
    }
  }

  /**
   * Histories: after the same publishes the fork's history is the parent's, plus the
   * provenance chunk for as long as no delete signal names it.
   */
  lemma {:induction false} ForkHistoryFollowsParent(parent: Session, newId: SessionId, forkedAt: Instant,
                                                    provenance: Chunk, log: seq<Chunk>)
    requires provenance.id !in set i | 0 <= i < |parent.history| :: parent.history[i].id
    requires forall i :: 0 <= i < |log| ==> log[i].id != provenance.id
    ensures var fork := Forked(parent, newId, forkedAt, provenance);
            Filter(Replayed(fork.history, log), IdIsNot(provenance.id)) == Replayed(parent.history, log)
    ensures var fork := Forked(parent, newId, forkedAt, provenance);
            provenance in Replayed(fork.history, log) <==> !DeletedFrom(log, provenance.id, 0)
  {
    var fork := Forked(parent, newId, forkedAt, provenance);
    var other := IdIsNot(provenance.id);
    if log == [] {
      FilterAppend(parent.history, provenance, other);
      forall c | c in parent.history ensures c.id != provenance.id {
        var i :| 0 <= i < |parent.history| && parent.history[i] == c;
        assert parent.history[i].id in set i | 0 <= i < |parent.history| :: parent.history[i].id;
      }
      FilterAll(parent.history, other);
      assert provenance == fork.history[|parent.history|];
    } else {
      var front, c := log[..|log| - 1], log[|log| - 1];
      assert log == front + [c];
      ForkHistoryFollowsParent(parent, newId, forkedAt, provenance, front);
      DeletedFromStep(front, c, provenance.id, 0);
      var before := Replayed(fork.history, front);
      if DeleteTarget(c).Some? {
        FilterCommutes(before, IdIsNot(DeleteTarget(c).value), other);
        FilterMembers(before, IdIsNot(DeleteTarget(c).value));
      } else if !IsTransient(c) {
        FilterAppend(before, c, other);
      }
    }
  }

  /** A session after `connId` is deregistered from it. */
  function Left(s: Session, connId: ConnId): Session {
    s.(subscribers := s.subscribers - {connId})
  }

  // ----- The object -----

  class SessionRegistry {
    var sessions: map<SessionId, SessionState>
    /** Everything sent on the event channel, oldest first. */
    var events: seq<Event>

    ghost predicate Valid()
      reads this, set k | k in sessions :: sessions[k]
    {
      forall k :: k in sessions ==> sessions[k].sessionId == k
    }

    /** The abstract registry: which sessions exist, and what each holds. */
    ghost function View(): map<SessionId, Session>
      reads this, set k | k in sessions :: sessions[k]
    {
      map k | k in sessions :: sessions[k].View()
    }

    constructor ()
      ensures Valid() && View() == map[] && events == []
    {
      sessions, events := map[], [];
    }

    method Insert(state: SessionState)
      requires Valid()
      modifies this
      ensures Valid() && sessions == old(sessions)[state.sessionId := state]
      ensures View() == old(View())[state.sessionId := state.View()]
      ensures events == old(events) + [SessionCreated(state.sessionId, state.agentId)]
    {
      sessions := sessions[state.sessionId := state];
      events := events + [SessionCreated(state.sessionId, state.agentId)];
    }

    /**
     * Copies a parent into a fresh, fully seeded session and only then announces it. The
     * fork is a new object: no later change to it reaches the parent, nor the reverse.
     */
    method Fork(parentId: SessionId, newId: SessionId, now: Instant, provenanceId: ChunkId)
      returns (r: Result<SessionId, ForkError>)
      requires Valid()
      modifies this, set k | k in sessions :: sessions[k]
      ensures Valid()
      ensures r == if newId in old(View()) then Err(SessionExists)
                   else if parentId !in old(View()) then Err(ParentNotFound)
                   else Ok(newId)
      ensures r.Err? ==> View() == old(View()) && events == old(events)
      ensures r.Ok? ==>
        var parent := old(View())[parentId];
        && newId in sessions && fresh(sessions[newId])
        && View() == old(View())[parentId := Pruned(parent, now)]
                                [newId := Forked(parent, newId, now, Provenance(provenanceId, parentId))]
        && events == old(events) + [SessionCreated(newId, parent.agent)]
        && sessions[newId].sent == []
    {
      if newId in sessions {
        return Err(SessionExists);
      }
      if parentId !in sessions {
        return Err(ParentNotFound);
      }
      var retained := HeldBy(parentId, now);
      var fork := CopyOf(sessions[parentId], newId, retained, provenanceId);
      Insert(fork);
      r := Ok(newId);
    }

    /** Reads the unexpired retained chunks of one session, pruning it alone. */
    method HeldBy(sid: SessionId, now: Instant) returns (valid: seq<Held>)
      requires Valid() && sid in sessions
      modifies set k | k in sessions :: sessions[k]
      ensures Valid() && valid == Filter(old(View())[sid].retained, AliveAt(now))
      ensures View() == old(View())[sid := Pruned(old(View())[sid], now)]
    {
      valid := sessions[sid].RetainedWithDeadlines(now);
    }

    /** A fully seeded copy that nothing else refers to, and that has broadcast nothing. */
    static method CopyOf(parent: SessionState, newId: SessionId, retained: seq<Held>, provenanceId: ChunkId)
      returns (fork: SessionState)
      ensures fresh(fork) && fork.sent == []
      ensures fork.View() == NewSession(newId, parent.agentId).(
        tags := parent.tags, parent := Some(parent.sessionId), retained := retained,
        history := parent.history + [Provenance(provenanceId, parent.sessionId)])
    {
      fork := new SessionState(newId, parent.agentId);
      fork.tags := parent.tags;
      fork.parentId := Some(parent.sessionId);
      fork.Seed(parent.history, retained);
      fork.history := fork.history + [Provenance(provenanceId, parent.sessionId)];
    }

    /** `get_mut(sid)` followed by `publish`: no other session changes. */
    method PublishTo(sid: SessionId, chunk: Chunk, now: Instant) returns (found: bool)
      requires Valid()
      modifies set k | k in sessions :: sessions[k]
      ensures Valid() && found == (sid in old(View()))
      ensures View() == if found then old(View())[sid := Published(old(View())[sid], chunk, now)] else old(View())
    {
      found := sid in sessions;
      if found {
        sessions[sid].Publish(chunk, now);
      }
    }

    method Remove(sid: SessionId) returns (removed: bool)
      requires Valid()
      modifies this
      ensures Valid() && removed == (sid in old(View())) && View() == old(View()) - {sid}
      ensures events == if removed then old(events) + [SessionDeleted(sid)] else old(events)
    {
      removed := sid in sessions;
      sessions := sessions - {sid};
      if removed {
        events := events + [SessionDeleted(sid)];
      }
    }

    /** No delay or a zero one removes at once; otherwise the timer to start is returned. */
    method ScheduleDeletion(sid: SessionId, delay: Option<nat>, now: Instant) returns (timer: Option<Timer>)
      requires Valid()
      modifies this
      ensures Valid()
      ensures var s := old(View());
              var eligible := sid in s && s[sid].ephemeral.Some?;
              var atOnce := eligible && (delay.None? || delay.value == 0);
              && View() == (if atOnce then s - {sid} else s)
              && events == (if atOnce then old(events) + [SessionDeleted(sid)] else old(events))
              && timer == if eligible && !atOnce then Some(Timer(sid, now + delay.value)) else None
    {
      if sid !in sessions || sessions[sid].ephemeral.None? {
        return None;
      }
      if delay.None? || delay.value == 0 {
        var _ := Remove(sid);
        return None;
      }
      timer := Some(Timer(sid, now + delay.value));
    }

    /** The body of a timer task: it checks the condition again before deleting. */
    method Expire(timer: Timer) returns (removed: bool)
      requires Valid()
      modifies this
      ensures Valid()
      ensures removed <==> timer.sid in old(View()) && old(View())[timer.sid].ephemeral.Some?
                           && Counted(old(View())[timer.sid]) == {}
      ensures View() == if removed then old(View()) - {timer.sid} else old(View())
      ensures events == if removed then old(events) + [SessionDeleted(timer.sid)] else old(events)
    {
      removed := false;
      if timer.sid in sessions && sessions[timer.sid].ephemeral.Some? {
        var n := sessions[timer.sid].CountedSubscriberCount();
        if n == 0 {
          removed := Remove(timer.sid);
        }
      }
    }

    method SetTags(sid: SessionId, tags: seq<string>) returns (found: bool)
      requires Valid()
      modifies this`events, set k | k in sessions :: sessions[k]
      ensures Valid() && found == (sid in old(View()))
      ensures View() == if found then old(View())[sid := old(View())[sid].(tags := tags)] else old(View())
      ensures events == if found then old(events) + [TagsUpdated(sid, tags)] else old(events)
    {
      found := sid in sessions;
      if found {
        sessions[sid].tags := tags;
        events := events + [TagsUpdated(sid, tags)];
      }
    }

    /** Deregisters a departing connection from one session; None when there is no such session. */
    method Depart(sid: SessionId, connId: ConnId, now: Instant) returns (timer: Option<Timer>)
      requires Valid()
      modifies this, set k | k in sessions :: sessions[k]
      ensures Valid()
      ensures sid !in old(View()) ==> View() == old(View()) && events == old(events) && timer.None?
      ensures sid in old(View()) ==>
        var s := old(View())[sid];
        var left := Left(s, connId);
        var abandoned := s.ephemeral.Some? && connId in Counted(s) && Counted(left) == {};
        var keepalive := if s.ephemeral.Some? then s.ephemeral.value.keepaliveSecs * SECOND else 0;
        && View() == (if abandoned && keepalive == 0 then old(View()) - {sid} else old(View())[sid := left])
        && events == (if abandoned && keepalive == 0 then old(events) + [SessionDeleted(sid)] else old(events))
        && timer == if abandoned && keepalive > 0 then Some(Timer(sid, now + keepalive)) else None
    {
      if sid !in sessions {
        return None;
      }
      var counted := Unsubscribe(sid, connId);
      var ephemeral := sessions[sid].ephemeral;
      var remaining := sessions[sid].CountedSubscriberCount();
      timer := None;
      if ephemeral.Some? && counted && remaining == 0 {
        timer := ScheduleDeletion(sid, Some(ephemeral.value.keepaliveSecs * SECOND), now);
      }
    }

    /** Removes one subscriber of one session; returns whether it counted. */
    method Unsubscribe(sid: SessionId, connId: ConnId) returns (counted: bool)
      requires Valid() && sid in sessions
      modifies set k | k in sessions :: sessions[k]
      ensures Valid() && counted == (connId in Counted(old(View())[sid]))
      ensures View() == old(View())[sid := Left(old(View())[sid], connId)]
    {
      var removed := sessions[sid].RemoveSubscriber(connId);
      counted := DepartingWasCounted(removed, sessions[sid].ephemeral);
    }
  }

  /** Whether a departing connection counted toward a session's lifecycle. */
  predicate DepartingWasCounted(removed: Option<SubscriberInfo>, ephemeral: Option<Ephemeral>) {
    match removed
    case None => false
    case Some(info) =>
      match ephemeral
      case None => true
      case Some(cfg) => cfg.countRole.None? || info.role == cfg.countRole
  }
}
