/** Exactly when the context of RunningJobContext ends with its job, as guards along the run. */
module PubSubWakeup {
  import opened Wrappers
  import opened Jobs
  import opened Store
  import opened Cache
  import opened PubSub
  import opened PubSubDelivery
  import opened PubSubWatch
  import opened PubSubTheorems

  // ----- where an update is dropped -----

  /** This writer publishes attempt n and finds the queue full, or the closing cache discards it. */
  predicate RefusedHere(s: State, e: WriterEvent, n: nat) {
    && n == |s.store.log|
    && match e
       case BeginAdd(job, _, discard) =>
         Announces(Find(s.store.jobs, job.id), job) && (|s.queue| >= QUEUE_SLOTS || discard)
       case BeginUpdate(_, key, result, _, discard) =>
         Announces(Find(s.store.jobs, key), result) && (|s.queue| >= QUEUE_SLOTS || discard)
       case _ => false
  }

  /** The service goroutine comes to this subscriber with update n and finds its slot taken. */
  predicate SkippedHere(s: State, e: ServiceEvent, sid: nat, n: nat) {
    && e.NotifyOne? && s.service.Notifying? && s.service.n == n
    && s.service.todo != [] && s.service.todo[0] == sid && sid in s.hub.subs
    && !s.hub.subs[sid].cancelled && s.hub.subs[sid].buf != []
  }

  predicate DroppedHere(s: State, e: Event, sid: nat, n: nat) {
    (e.Writer? && RefusedHere(s, e.w, n)) || (e.Server? && SkippedHere(s, e.v, sid, n))
  }

  /** Along the whole run there is room for update n in the queue and in the subscriber's slot. */
  predicate RoomFor(s: State, es: seq<Event>, sid: nat, n: nat)
    requires Exec(s, es).Some?
    decreases |es|
  {
    es != [] ==> !DroppedHere(s, es[0], sid, n) && RoomFor(Apply(s, es[0]), es[1..], sid, n)
  }

  /** The record that a drop leaves. */
  predicate Refused(log: seq<Attempt>, n: nat) {
    n < |log| && log[n].fate != Enqueued
  }

  predicate Lost(h: Hub, sid: nat, n: nat) {
    sid in h.subs && n in h.subs[sid].lost
  }

  predicate Dropped(s: State, sid: nat, n: nat) {
    Refused(s.store.log, n) || Lost(s.hub, sid, n)
  }

  lemma BeginRefuses(s: State, p: Pending, discard: bool, n: nat)
    requires discard ==> s.stop
    ensures Refused(Begin(s, p, discard).store.log, n) <==>
            || Refused(s.store.log, n)
            || (n == |s.store.log| && Announces(Find(s.store.jobs, p.key), p.input) &&
                (|s.queue| >= QUEUE_SLOTS || discard))
    ensures Begin(s, p, discard).hub == s.hub
  {
  }

  lemma WriterDrops(s: State, e: WriterEvent, sid: nat, n: nat)
    requires WriterEnabled(s, e)
    ensures Dropped(WriterStep(s, e), sid, n) <==> Dropped(s, sid, n) || RefusedHere(s, e, n)
  {
    match e
    case BeginAdd(job, now, discard) => BeginRefuses(s, Pending(job.id, job, now), discard, n);
    case BeginUpdate(_, key, result, now, discard) => BeginRefuses(s, Pending(key, result, now), discard, n);
    case _ =>
  }

  lemma ServiceDrops(s: State, e: ServiceEvent, sid: nat, n: nat)
    requires ServiceEnabled(s, e)
    ensures Dropped(ServiceStep(s, e), sid, n) <==> Dropped(s, sid, n) || SkippedHere(s, e, sid, n)
  {
  }

  lemma ClientDrops(s: State, e: ClientEvent, sid: nat, n: nat)
    requires ClientEnabled(s, e)
    ensures Dropped(ClientStep(s, e), sid, n) <==> Dropped(s, sid, n)
  {
  }

  lemma WatchDrops(s: State, e: WatchEvent, sid: nat, n: nat)
    requires WatchEnabled(s, e)
    ensures Dropped(WatchStep(s, e), sid, n) <==> Dropped(s, sid, n)
  {
  }

  lemma StepDrops(s: State, e: Event, sid: nat, n: nat)
    requires Enabled(s, e)
    ensures Dropped(Apply(s, e), sid, n) <==> Dropped(s, sid, n) || DroppedHere(s, e, sid, n)
  {
    match e
    case Writer(w) => WriterDrops(s, w, sid, n);
    case Server(v) => ServiceDrops(s, v, sid, n);
    case Client(c) => ClientDrops(s, c, sid, n);
    case Watcher(t) => WatchDrops(s, t, sid, n);
  }

  /** In every run an update is dropped exactly where there was no room for it. */
  lemma {:induction false} DroppedExactly(s: State, es: seq<Event>, sid: nat, n: nat)
    requires Exec(s, es).Some?
    ensures Dropped(Exec(s, es).value, sid, n) <==> Dropped(s, sid, n) || !RoomFor(s, es, sid, n)
    decreases |es|
  {
    if es != [] {
      StepDrops(s, es[0], sid, n);
      DroppedExactly(Apply(s, es[0]), es[1..], sid, n);
    }
  }

  // ----- the end of the context -----

  /** The next thing the watcher receives ends its context. */
  predicate EndsContext(s: State, sid: nat) {
    && WatchEnabled(s, WatchReceive(sid))
    && WatchStep(s, WatchReceive(sid)).watches[sid].Ended?
    && WatchStep(s, WatchReceive(sid)).hub.subs[sid].cancelled
  }

  /** A live watcher has not received a terminal update, so one that it was sent is in its slot. */
  lemma SentIsInSlot(s: State, sid: nat, n: nat)
    requires sid in s.watches && s.watches[sid].Watching? && sid in s.hub.subs
    requires SlotOk(s.hub.subs[sid]) && NoneTerminal(s.store.log, Taken(s.hub.subs[sid]))
    requires n < |s.store.log| && Terminal(s.store.log[n].u.status)
    ensures n in s.hub.subs[sid].sent <==> n in s.hub.subs[sid].buf
    ensures n in s.hub.subs[sid].buf ==> EndsContext(s, sid)
  {
    var sub := s.hub.subs[sid];
    assert sub.sent == Taken(sub) + sub.buf;
  }

  /**
   * A terminal update since the watcher subscribed that the service goroutine is done with: it is in
   * the watcher's slot, where receiving it ends the context, exactly if its callback kept the watched
   * ID and the run had room for it in the queue and in the slot.
   */
  lemma WakeupExactly(es: seq<Event>, s: State, sid: nat, n: nat)
    requires Exec(START, es) == Some(s) && Listed(s.hub, sid)
    requires sid in s.watches && s.watches[sid].Watching?
    requires s.hub.subs[sid].cut <= n < |s.store.log| && Terminal(s.store.log[n].u.status)
    requires n !in Awaiting(s, sid)
    ensures s.hub.subs[sid].cut <= s.watches[sid].mark
    ensures n in s.hub.subs[sid].buf <==> s.store.log[n].u.id == s.watches[sid].id && RoomFor(START, es, sid, n)
    ensures n in s.hub.subs[sid].buf ==> EndsContext(s, sid)
  {
    ReachableOk(s);
    DroppedExactly(START, es, sid, n);
    var sub := s.hub.subs[sid];
    assert SubInv(s, sid) && WatchOk(s.store, s.hub, sid, s.watches[sid]);
    SentIsInSlot(s, sid, n);
    assert Deliverable(s.store.log, sub, n) <==>
        s.store.log[n].u.id == s.watches[sid].id && s.store.log[n].fate == Enqueued;
  }

  /**
   * With nothing on its way any more, a live context ends by a receive exactly if some terminal
   * update under the watched ID, since the watcher subscribed, had room all along.
   */
  lemma ContextEndsExactly(es: seq<Event>, s: State, sid: nat)
    requires Exec(START, es) == Some(s) && Listed(s.hub, sid) && Awaiting(s, sid) == []
    requires sid in s.watches && s.watches[sid].Watching?
    ensures EndsContext(s, sid) <==>
            exists n: nat :: && s.hub.subs[sid].cut <= n < |s.store.log| && Terminal(s.store.log[n].u.status)
                             && s.store.log[n].u.id == s.watches[sid].id && RoomFor(START, es, sid, n)
  {
    ReachableOk(s);
    var sub := s.hub.subs[sid];
    if EndsContext(s, sid) {
      assert SubInv(s, sid);
      assert sub.buf[0] in sub.sent;
      WakeupExactly(es, s, sid, sub.buf[0]);
    }
    if n: nat :| && sub.cut <= n < |s.store.log| && Terminal(s.store.log[n].u.status)
                 && s.store.log[n].u.id == s.watches[sid].id && RoomFor(START, es, sid, n)
    {
      WakeupExactly(es, s, sid, n);
    }
  }

  /** So the end of the stored job reaches the watcher exactly if its last commit kept the ID and had room. */
  lemma JobEndExactly(es: seq<Event>, s: State, sid: nat)
    requires Exec(START, es) == Some(s) && Listed(s.hub, sid)
    requires sid in s.watches && s.watches[sid].Watching?
    requires s.watches[sid].id in s.store.jobs && Terminal(s.store.jobs[s.watches[sid].id].status)
    requires s.watches[sid].id in s.store.last && s.store.last[s.watches[sid].id] !in Awaiting(s, sid)
    ensures var id, n := s.watches[sid].id, s.store.last[s.watches[sid].id];
            && s.watches[sid].mark <= n < |s.store.log|
            && (n in s.hub.subs[sid].buf <==> s.store.log[n].u.id == id && RoomFor(START, es, sid, n))
            && (n in s.hub.subs[sid].buf ==> EndsContext(s, sid))
  {
    NoLostWakeup(s, sid);
    ReachableOk(s);
    assert WatchOk(s.store, s.hub, sid, s.watches[sid]);
    WakeupExactly(es, s, sid, s.store.last[s.watches[sid].id]);
  }
}
