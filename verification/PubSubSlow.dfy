/** A watcher that reads too late: its job ends and its context lives on. */
module PubSubSlow {
  import opened Wrappers
  import opened Jobs
  import opened Cache
  import opened PubSub
  import opened PubSubTheorems

  const RUNNER := BareJob("1").(user := "ann", status := RUNNING)
  const RAN := RUNNER.(status := FINISHED)

  lemma Go(s: State, e: Event) returns (s': State)
    requires Reachable(s) && Enabled(s, e)
    ensures Reachable(s') && s' == Apply(s, e)
  {
    ReachableStep(s, e);
    s' := Apply(s, e);
  }

  /** Subscriber 7 is the only one, in the list of job 1. */
  predicate OnlyWatcher(h: Hub, sub: Sub) {
    h == Hub(map[7 := sub], map[ById("1") := [7]], None, false)
  }

  /** The job is stored, its first update is queued. */
  lemma JobAdded() returns (s: State)
    ensures Reachable(s) && s.store.writer.None? && s.store.jobs == map["1" := RUNNER]
    ensures s.store.log == [Attempt("1", UpdateOf(RUNNER), Enqueued)]
    ensures s == START.(store := s.store, queue := [0])
  {
    ReachableStart();
    s := WriterAnnounced(START, RUNNER);
    s := Go(s, Writer(CommitWrite));
  }

  /** A first lookup found it running, and the watcher's channel is being subscribed. */
  lemma WatcherChecked() returns (s: State)
    ensures Reachable(s) && s.store.writer.None? && s.store.jobs == map["1" := RUNNER]
    ensures s.store.log == [Attempt("1", UpdateOf(RUNNER), Enqueued)]
    ensures s == START.(store := s.store, queue := [0], watches := map[7 := Looked("ann", "1")],
                        hub := Hub(map[7 := FreshSub(ById("1"), true, 1)], map[], Some(7), false))
  {
    s := JobAdded();
    s := Go(s, Watcher(FirstLookup(7, "ann", "1")));
    s := Go(s, Client(Check(7, ById("1"))));
  }

  /** It has joined its list. */
  lemma WatcherListed() returns (s: State)
    ensures Reachable(s) && s.store.writer.None? && s.store.jobs == map["1" := RUNNER]
    ensures s.store.log == [Attempt("1", UpdateOf(RUNNER), Enqueued)]
    ensures OnlyWatcher(s.hub, FreshSub(ById("1"), true, 0))
    ensures s == START.(store := s.store, queue := [0], hub := s.hub, watches := map[7 := Looked("ann", "1")])
  {
    s := WatcherChecked();
    assert Head(s) == 0 && ListOf(s.hub, ById("1")) == [];
    s := Go(s, Client(AddSub));
    assert s.hub.lists.Keys == {ById("1")} && s.hub.lists[ById("1")] == [] + [7] == [7];
  }

  /** The second lookup found it running too, and RunningJobContext returned a context. */
  lemma WatcherJoined() returns (s: State)
    ensures Reachable(s) && s.store.writer.None? && s.store.jobs == map["1" := RUNNER]
    ensures s.store.log == [Attempt("1", UpdateOf(RUNNER), Enqueued)]
    ensures OnlyWatcher(s.hub, FreshSub(ById("1"), true, 0))
    ensures s == START.(store := s.store, queue := [0], hub := s.hub, watches := map[7 := Watching("ann", "1", 1)])
  {
    s := WatcherListed();
    s := Go(s, Watcher(SecondLookup(7)));
  }

  /** The service goroutine hands the only queued update to the watcher's channel. */
  lemma Served(s: State, n: nat, sub: Sub) returns (s': State)
    requires Reachable(s) && s.queue == [n] && s.service.Idle? && n < |s.store.log| && s.store.log[n].u.id == "1"
    requires OnlyWatcher(s.hub, sub) && sub.topic == ById("1") && sub.open && !sub.cancelled
    ensures Reachable(s') && OnlyWatcher(s'.hub, Visit(sub, n))
    ensures s' == s.(queue := [], hub := s'.hub)
  {
    s' := Go(s, Server(Take));
    s' := Go(s', Server(StartNotify));
    assert s'.service.todo == [7];
    s' := Go(s', Server(NotifyOne));
    s' := Go(s', Server(EndNotify));
  }

  /** The job finishes. */
  lemma JobFinished(s: State) returns (s': State)
    requires Reachable(s) && s.store.writer.None? && s.store.jobs == map["1" := RUNNER] && s.queue == [] && !s.stop
    ensures Reachable(s') && s'.store.writer.None? && "1" in s'.store.jobs
    ensures s'.store.jobs["1"].status == FINISHED
    ensures s'.store.log == s.store.log + [Attempt("1", UpdateOf(RAN), Enqueued)]
    ensures s' == s.(store := s'.store, queue := [|s.store.log|])
  {
    s' := Go(s, Writer(BeginUpdate("ann", "1", RAN, 0, false)));
    s' := Go(s', Writer(CommitWrite));
  }

  /**
   * The terminal update finds the channel full of an earlier one and is dropped: the job is finished
   * in the store, nothing is queued or in the channel, and the watcher waits on.
   */
  lemma SlowWatcherMisses() returns (s: State)
    ensures Reachable(s) && "1" in s.store.jobs && Terminal(s.store.jobs["1"].status)
    ensures s.store.writer.None? && s.queue == [] && s.service.Idle? && !s.stop
    ensures 7 in s.watches && s.watches[7] == Watching("ann", "1", 1) && Listed(s.hub, 7)
    ensures s.hub.subs[7].buf == [] && s.hub.subs[7].lost == [1] && !s.hub.subs[7].cancelled
    ensures !WatchEnabled(s, WatchReceive(7)) && !WatchEnabled(s, WatchEnd(7))
  {
    s := WatcherJoined();
    var sub := FreshSub(ById("1"), true, 0);
    s := Served(s, 0, sub);
    s := JobFinished(s);
    s := Served(s, 1, Visit(sub, 0));
    s := Go(s, Watcher(WatchReceive(7)));
  }
}
