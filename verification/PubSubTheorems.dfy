/** What holds in every state that any interleaving of the job cache can reach. */
module PubSubTheorems {
  import opened Wrappers
  import opened Jobs
  import opened Store
  import opened Cache
  import opened PubSub
  import opened PubSubStore
  import opened PubSubClose
  import opened PubSubDelivery
  import opened PubSubWatch

  ghost predicate Inv(s: State) {
    InvStore(s.store) && InvQueue(s) && InvClose(s) && InvDelivery(s) && InvWatch(s)
  }

  lemma StartOk()
    ensures Inv(START)
  {
    assert InvStore(START.store) && InvWatch(START);
    assert Pipe(START) == [] && InvQueue(START);
    assert HubOk(START.hub) && InvDelivery(START);
  }

  lemma SlotsFollow(s: State)
    requires InvDelivery(s)
    ensures SlotsOk(s.hub)
  {
    forall sid | sid in s.hub.subs ensures SlotOk(s.hub.subs[sid]) {
      assert SubInv(s, sid);
    }
  }

  lemma WriterKeeps(s: State, e: WriterEvent)
    requires Inv(s) && WriterEnabled(s, e)
    ensures Inv(WriterStep(s, e))
  {
    WriterKeepsStore(s, e);
    WriterKeepsQueue(s, e);
    WriterKeepsClose(s, e);
    WriterKeepsDelivery(s, e);
    WriterKeepsWatch(s, e);
  }

  lemma ServiceKeeps(s: State, e: ServiceEvent)
    requires Inv(s) && ServiceEnabled(s, e)
    ensures Inv(ServiceStep(s, e))
  {
    SlotsFollow(s);
    ServiceKeepsQueue(s, e);
    ServiceKeepsClose(s, e);
    ServiceKeepsDelivery(s, e);
    ServiceKeepsWatch(s, e);
    assert ServiceStep(s, e).store == s.store;
  }

  lemma ClientKeeps(s: State, e: ClientEvent)
    requires Inv(s) && ClientEnabled(s, e)
    ensures Inv(ClientStep(s, e))
  {
    ClientKeepsClose(s, e);
    ClientKeepsDelivery(s, e);
    ClientKeepsWatch(s, e);
    var s' := ClientStep(s, e);
    assert s'.store == s.store && s'.service == s.service && s'.queue == s.queue;
  }

  lemma WatchKeeps(s: State, e: WatchEvent)
    requires Inv(s) && WatchEnabled(s, e)
    ensures Inv(WatchStep(s, e))
  {
    SlotsFollow(s);
    WatchTouches(s, e);
    WatchKeepsClose(s, e);
    WatchKeepsDelivery(s, e);
    assert e.WatchReceive? ==> SubInv(s, e.sid);
    WatchKeepsWatch(s, e);
  }

  /** Every action keeps the invariant. */
  lemma StepKeeps(s: State, e: Event)
    requires Inv(s) && Enabled(s, e)
    ensures Inv(Apply(s, e))
  {
    match e
    case Writer(w) => WriterKeeps(s, w);
    case Server(v) => ServiceKeeps(s, v);
    case Client(c) => ClientKeeps(s, c);
    case Watcher(t) => WatchKeeps(s, t);
  }

  lemma {:induction false} RunKeeps(s: State, es: seq<Event>)
    requires Inv(s) && Exec(s, es).Some?
    ensures Inv(Exec(s, es).value)
    decreases |es|
  {
    if es != [] {
      StepKeeps(s, es[0]);
      RunKeeps(Apply(s, es[0]), es[1..]);
    }
  }

  lemma ReachableOk(s: State)
    requires Reachable(s)
    ensures Inv(s)
  {
    var es :| Exec(START, es) == Some(s);
    StartOk();
    RunKeeps(START, es);
  }

  // ----- order-preserving lossy fan-out -----

  /**
   * The status commits so far are exactly the publish attempts in order, but for one that a
   * writer inside the store lock has announced and not yet stored; and every job is stored under
   * its own ID, whatever callbacks return.
   */
  lemma AttemptsAreCommits(s: State)
    requires Reachable(s)
    ensures |s.store.commits| <= |s.store.log| <= |s.store.commits| + 1
    ensures |s.store.log| == |s.store.commits| + 1 ==> s.store.writer.Some?
    ensures forall i :: 0 <= i < |s.store.commits| ==> Records(s.store.commits[i], s.store.log[i])
    ensures KeysMatch(s.store.jobs)
  {
    ReachableOk(s);
  }

  /** What a callback's result is compared with: the stored job, if there is one. */
  ghost predicate Differs(jobs: map<string, Job>, key: string, job: Job) {
    key !in jobs || jobs[key].status != job.status || jobs[key].statusMsg != job.statusMsg
  }

  /** A write publishes exactly a new job or a changed status or message, as the callback returned it. */
  lemma PublishExactly(s: State, p: Pending, discard: bool)
    ensures var s' := Begin(s, p, discard);
            if Differs(s.store.jobs, p.key, p.input) then
              && |s'.store.log| == |s.store.log| + 1 && s'.store.log[..|s.store.log|] == s.store.log
              && var a := s'.store.log[|s.store.log|];
                 && a.key == p.key && a.u.id == p.input.id && a.u.user == p.input.user && a.u.name == p.input.name
                 && a.u.status == p.input.status && a.u.statusCode == p.input.statusCode
                 && a.u.statusMsg == p.input.statusMsg
                 && s'.queue == s.queue + if a.fate == Enqueued then [|s.store.log|] else []
            else s'.store.log == s.store.log && s'.queue == s.queue
  {
  }

  /**
   * Writers wait for each other only: the store lock admits a write exactly if it is free, an update
   * exactly by a user who may see the job, and a write inside it can always finish.
   */
  lemma WritersExactly(s: State, user: string, key: string, job: Job, now: Time, discard: bool)
    ensures WriterEnabled(s, BeginAdd(job, now, discard)) <==> s.store.writer.None? && (discard ==> s.stop)
    ensures WriterEnabled(s, BeginUpdate(user, key, job, now, discard)) <==>
            && s.store.writer.None? && (discard ==> s.stop)
            && key in s.store.jobs && (user == "*" || s.store.jobs[key].user == user)
    ensures WriterEnabled(s, Delete(key)) <==> s.store.writer.None?
    ensures WriterEnabled(s, CommitWrite) <==> s.store.writer.Some?
    ensures WriterEnabled(s, BeginAdd(job, now, discard)) ==>
            WriterStep(s, BeginAdd(job, now, discard)).store.writer == Some(Pending(job.id, job, now))
    ensures WriterEnabled(s, BeginUpdate(user, key, job, now, discard)) ==>
            WriterStep(s, BeginUpdate(user, key, job, now, discard)).store.writer == Some(Pending(key, job, now))
  {
  }

  /** What a subscriber is sent is an in-order, duplicate-free subsequence of the matching attempts. */
  lemma FanOutInOrder(s: State, sid: nat)
    requires Reachable(s) && sid in s.hub.subs
    ensures Increasing(s.hub.subs[sid].sent)
    ensures forall n :: n in s.hub.subs[sid].sent ==>
              && n < |s.store.log| && s.store.log[n].fate == Enqueued
              && match s.hub.subs[sid].topic
                 case All => true
                 case ById(id) => s.store.log[n].u.id == id
                 case ByUser(user) => s.store.log[n].u.user == user
    ensures Taken(s.hub.subs[sid]) + s.hub.subs[sid].buf == s.hub.subs[sid].sent
  {
    ReachableOk(s);
    assert SubInv(s, sid);
  }

  /** The subscriber keeps its topic, its histories only grow, and with its context cancelled they do not. */
  predicate Grows(sub: Sub, sub': Sub) {
    && sub'.topic == sub.topic && sub.sent <= sub'.sent && sub.lost <= sub'.lost
    && (sub.cancelled ==> sub'.cancelled && sub'.sent == sub.sent && sub'.lost == sub.lost)
    && (!sub.open ==> !sub'.open && sub'.sent == sub.sent && sub'.lost == sub.lost)
  }

  lemma ServiceGrowsSub(s: State, e: ServiceEvent, sid: nat)
    requires InvClose(s) && ServiceEnabled(s, e) && sid in s.hub.subs
    ensures sid in ServiceStep(s, e).hub.subs && Grows(s.hub.subs[sid], ServiceStep(s, e).hub.subs[sid])
  {
    if e.NotifyOne? {
      assert Listed(s.hub, s.service.todo[0]) && ChannelOk(s.hub, s.service.todo[0]);
    }
  }

  lemma ClientGrowsSub(s: State, e: ClientEvent, sid: nat)
    requires ClientEnabled(s, e) && sid in s.hub.subs
    ensures sid in ClientStep(s, e).hub.subs && Grows(s.hub.subs[sid], ClientStep(s, e).hub.subs[sid])
  {
    ClientLeavesHistories(s, e, sid);
  }

  lemma ClientLeavesHistories(s: State, e: ClientEvent, sid: nat)
    requires ClientEnabled(s, e) && sid in s.hub.subs
    ensures sid in ClientStep(s, e).hub.subs
    ensures var sub, sub' := s.hub.subs[sid], ClientStep(s, e).hub.subs[sid];
            && sub'.topic == sub.topic && sub'.sent == sub.sent && sub'.lost == sub.lost && sub'.open == sub.open
            && (sub.cancelled ==> sub'.cancelled)
  {
  }

  lemma WatchGrowsSub(s: State, e: WatchEvent, sid: nat)
    requires WatchEnabled(s, e) && sid in s.hub.subs
    ensures sid in WatchStep(s, e).hub.subs && Grows(s.hub.subs[sid], WatchStep(s, e).hub.subs[sid])
  {
    var sub, sub' := s.hub.subs[sid], WatchStep(s, e).hub.subs[sid];
    assert sub' == sub.(cancelled := sub'.cancelled, buf := sub'.buf);
  }

  lemma StepGrowsSub(s: State, e: Event, sid: nat)
    requires Inv(s) && Enabled(s, e) && sid in s.hub.subs
    ensures sid in Apply(s, e).hub.subs && Grows(s.hub.subs[sid], Apply(s, e).hub.subs[sid])
  {
    match e
    case Writer(w) => WriterTouches(s, w);
    case Server(v) => ServiceGrowsSub(s, v, sid);
    case Client(c) => ClientGrowsSub(s, c, sid);
    case Watcher(t) => WatchGrowsSub(s, t, sid);
  }

  /** No history is ever rewritten, and a closed channel is never sent to or reopened. */
  lemma {:induction false} RunGrowsSub(s: State, es: seq<Event>, sid: nat)
    requires Inv(s) && Exec(s, es).Some? && sid in s.hub.subs
    ensures sid in Exec(s, es).value.hub.subs
    ensures Grows(s.hub.subs[sid], Exec(s, es).value.hub.subs[sid])
    decreases |es|
  {
    if es != [] {
      StepKeeps(s, es[0]);
      StepGrowsSub(s, es[0], sid);
      RunGrowsSub(Apply(s, es[0]), es[1..], sid);
    }
  }

  // ----- exact accounting -----

  /** The publish attempts since the subscriber's cut that concern it. */
  ghost function Concerned(s: State, sid: nat): set<nat>
    requires sid in s.hub.subs
  {
    var sub := s.hub.subs[sid];
    set n: nat | sub.cut <= n < |s.store.log| && Matches(sub.topic, s.store.log[n].u)
  }

  ghost function StillQueued(s: State, sid: nat): set<nat>
    requires sid in s.hub.subs
  {
    set n | n in Awaiting(s, sid) && n in Concerned(s, sid)
  }

  ghost function RefusedByQueue(s: State, sid: nat): set<nat>
    requires sid in s.hub.subs
  {
    set n | n in Concerned(s, sid) && s.store.log[n].fate != Enqueued
  }

  lemma AwaitingAhead(s: State, sid: nat, n: nat)
    requires InvQueue(s) && n in Awaiting(s, sid)
    ensures Limit(s, sid) <= n
  {
    var pipe := Pipe(s);
    if Passed(s.service, sid) {
      var i :| 0 <= i < |s.queue| && s.queue[i] == n;
      assert pipe[0] == s.service.n && pipe[i + 1] == n;
    } else {
      var i :| 0 <= i < |pipe| && pipe[i] == n;
    }
  }

  lemma OutcomesCover(s: State, sid: nat)
    requires sid in s.hub.subs && SubInv(s, sid) && Listed(s.hub, sid)
    ensures Concerned(s, sid) ==
            Elems(s.hub.subs[sid].sent) + Elems(s.hub.subs[sid].lost) + StillQueued(s, sid) + RefusedByQueue(s, sid)
  {
    var sub := s.hub.subs[sid];
    forall n | n in Concerned(s, sid)
      ensures n in sub.sent || n in sub.lost || n in StillQueued(s, sid) || n in RefusedByQueue(s, sid)
    {
      assert s.store.log[n].fate == Enqueued ==> Deliverable(s.store.log, sub, n);
    }
  }

  lemma OutcomesDiffer(s: State, sid: nat)
    requires InvQueue(s) && sid in s.hub.subs && SubInv(s, sid)
    ensures Elems(s.hub.subs[sid].sent) !! Elems(s.hub.subs[sid].lost) !! StillQueued(s, sid) !! RefusedByQueue(s, sid)
  {
    var sub := s.hub.subs[sid];
    forall n | n in StillQueued(s, sid) ensures n !in sub.sent && n !in sub.lost && n !in RefusedByQueue(s, sid) {
      AwaitingAhead(s, sid, n);
      assert n in Pipe(s);
    }
  }

  /** Each of them was sent, is still queued, was refused by the queue or was lost at the channel. */
  lemma ExactlyOneOutcome(s: State, sid: nat)
    requires Inv(s) && Listed(s.hub, sid)
    ensures Concerned(s, sid) ==
            Elems(s.hub.subs[sid].sent) + Elems(s.hub.subs[sid].lost) + StillQueued(s, sid) + RefusedByQueue(s, sid)
    ensures Elems(s.hub.subs[sid].sent) !! Elems(s.hub.subs[sid].lost) !! StillQueued(s, sid) !! RefusedByQueue(s, sid)
  {
    assert SubInv(s, sid);
    OutcomesCover(s, sid);
    OutcomesDiffer(s, sid);
  }

  /** The accounting, in numbers. */
  lemma ExactAccounting(s: State, sid: nat)
    requires Reachable(s) && Listed(s.hub, sid)
    ensures |Concerned(s, sid)| ==
            |s.hub.subs[sid].sent| + |s.hub.subs[sid].lost| + |StillQueued(s, sid)| + |RefusedByQueue(s, sid)|
    ensures Concerned(s, sid) ==
            Elems(s.hub.subs[sid].sent) + Elems(s.hub.subs[sid].lost) + StillQueued(s, sid) + RefusedByQueue(s, sid)
  {
    ReachableOk(s);
    assert SubInv(s, sid);
    ExactlyOneOutcome(s, sid);
    ElemsCount(s.hub.subs[sid].sent);
    ElemsCount(s.hub.subs[sid].lost);
  }

  /** An update is lost at a channel only if that is full, and at the queue only if it is full or closing. */
  lemma DropsOnlyWhenFull(s: State, e: Event, sid: nat)
    requires Reachable(s) && Enabled(s, e) && sid in s.hub.subs
    ensures var s' := Apply(s, e);
            && sid in s'.hub.subs
            && (s'.hub.subs[sid].lost != s.hub.subs[sid].lost ==> s.hub.subs[sid].buf != [])
            && (|s'.store.log| > |s.store.log| && s'.store.log[|s.store.log|].fate != Enqueued ==>
                  s.stop || |s.queue| == 64)
  {
    ReachableOk(s);
    StepGrowsSub(s, e, sid);
    match e
    case Writer(w) => WriterDropsWhenFull(s, w);
    case Server(v) => ServiceDropsWhenFull(s, v, sid);
    case Client(c) => ClientDropsNothing(s, c, sid);
    case Watcher(t) => WatchDropsNothing(s, t, sid);
  }

  lemma WriterDropsWhenFull(s: State, e: WriterEvent)
    requires |s.queue| <= QUEUE_SLOTS && WriterEnabled(s, e)
    ensures var s' := WriterStep(s, e);
            && s'.hub == s.hub
            && (|s'.store.log| > |s.store.log| && s'.store.log[|s.store.log|].fate != Enqueued ==>
                  s.stop || |s.queue| == QUEUE_SLOTS)
  {
  }

  lemma ClientDropsNothing(s: State, e: ClientEvent, sid: nat)
    requires ClientEnabled(s, e) && sid in s.hub.subs
    ensures var s' := ClientStep(s, e);
            s'.store == s.store && sid in s'.hub.subs && s'.hub.subs[sid].lost == s.hub.subs[sid].lost
  {
  }

  lemma WatchDropsNothing(s: State, e: WatchEvent, sid: nat)
    requires WatchEnabled(s, e) && sid in s.hub.subs
    ensures var s' := WatchStep(s, e);
            s'.store == s.store && sid in s'.hub.subs && s'.hub.subs[sid].lost == s.hub.subs[sid].lost
  {
  }

  lemma ServiceDropsWhenFull(s: State, e: ServiceEvent, sid: nat)
    requires ServiceEnabled(s, e) && sid in s.hub.subs
    ensures var s' := ServiceStep(s, e);
            && sid in s'.hub.subs && s'.store == s.store
            && (s'.hub.subs[sid].lost != s.hub.subs[sid].lost ==> s.hub.subs[sid].buf != [])
  {
  }

  // ----- quiescent agreement -----

  /** No drop for this subscriber since its cut, and nothing on its way to it. */
  ghost predicate Quiescent(s: State, sid: nat)
    requires sid in s.hub.subs
  {
    s.store.writer.None? && StillQueued(s, sid) == {} && RefusedByQueue(s, sid) == {} && s.hub.subs[sid].lost == []
  }

  /** The last update sent about a stored job carries its stored status and message. */
  lemma QuiescentAgreement(s: State, sid: nat, k: string) returns (i: nat)
    requires Reachable(s) && Listed(s.hub, sid) && Quiescent(s, sid)
    requires k in s.store.jobs && k in s.store.last && s.store.last[k] in Concerned(s, sid)
    ensures i < |s.hub.subs[sid].sent| && s.hub.subs[sid].sent[i] < |s.store.log|
    ensures var a := s.store.log[s.hub.subs[sid].sent[i]];
            a.key == k && a.u.status == s.store.jobs[k].status && a.u.statusMsg == s.store.jobs[k].statusMsg
    ensures forall j :: i < j < |s.hub.subs[sid].sent| ==>
              s.hub.subs[sid].sent[j] < |s.store.log| && s.store.log[s.hub.subs[sid].sent[j]].key != k
  {
    ReachableOk(s);
    assert SubInv(s, sid);
    ExactlyOneOutcome(s, sid);
    var sent := s.hub.subs[sid].sent;
    assert s.store.last[k] in Elems(sent);
    i :| 0 <= i < |sent| && sent[i] == s.store.last[k];
    assert Latest(k, s.store.jobs[k], s.store.log, |s.store.commits|, s.store.last);
    forall j | i < j < |sent| ensures sent[j] < |s.store.log| && s.store.log[sent[j]].key != k {
      assert sent[j] in sent;
    }
  }

  /** Exactly the callbacks for job k publish under that ID. */
  ghost predicate IdsKept(s: State, k: string) {
    forall a :: a in s.store.log ==> (a.u.id == k <==> a.key == k)
  }

  /** The latest commit of job k was published under its ID, and nothing after it was. */
  ghost predicate LatestUnderId(s: State, k: string)
    requires k in s.store.last && s.store.last[k] < |s.store.log|
  {
    s.store.log[s.store.last[k]].u.id == k &&
    forall m :: s.store.last[k] < m < |s.store.log| ==> s.store.log[m].u.id != k
  }

  lemma KeptIdsSuffice(s: State, k: string)
    requires k in s.store.jobs && Latest(k, s.store.jobs[k], s.store.log, |s.store.log|, s.store.last)
    ensures IdsKept(s, k) ==> LatestUnderId(s, k)
  {
    assert forall m :: 0 <= m < |s.store.log| ==> s.store.log[m] in s.store.log;
  }

  lemma LatestIsGreatest(s: State, sid: nat, k: string)
    requires sid in s.hub.subs && s.hub.subs[sid].topic == ById(k)
    requires k in s.store.last && s.hub.subs[sid].cut <= s.store.last[k] < |s.store.log|
    ensures LatestUnderId(s, k) <==>
            s.store.last[k] in Concerned(s, sid) && forall m :: m in Concerned(s, sid) ==> m <= s.store.last[k]
  {
    assert forall m: nat :: s.store.last[k] <= m < |s.store.log| ==>
        (m in Concerned(s, sid) <==> s.store.log[m].u.id == k);
  }

  /**
   * A subscriber to one job: its very last update is the job's latest commit, which carries the stored
   * status, exactly if callbacks published that commit, and none after it, under the job's ID.
   */
  lemma QuiescentAgreementById(s: State, sid: nat, k: string)
    requires Reachable(s) && Listed(s.hub, sid) && Quiescent(s, sid)
    requires s.hub.subs[sid].topic == ById(k)
    requires k in s.store.jobs && k in s.store.last && s.hub.subs[sid].cut <= s.store.last[k]
    ensures s.store.last[k] < |s.store.log|
    ensures var u := s.store.log[s.store.last[k]].u;
            u.status == s.store.jobs[k].status && u.statusMsg == s.store.jobs[k].statusMsg
    ensures var sent := s.hub.subs[sid].sent;
            sent != [] && sent[|sent| - 1] == s.store.last[k] <==> LatestUnderId(s, k)
    ensures IdsKept(s, k) ==> LatestUnderId(s, k)
  {
    StoredIsLatest(s, k);
    KeptIdsSuffice(s, k);
    LatestIsGreatest(s, sid, k);
    AllSent(s, sid);
    LastIsGreatest(s.hub.subs[sid].sent, s.store.last[k]);
  }

  lemma StoredIsLatest(s: State, k: string)
    requires Reachable(s) && s.store.writer.None? && k in s.store.jobs
    ensures Latest(k, s.store.jobs[k], s.store.log, |s.store.log|, s.store.last)
  {
    ReachableOk(s);
  }

  lemma AllSent(s: State, sid: nat)
    requires Reachable(s) && Listed(s.hub, sid) && Quiescent(s, sid)
    ensures Elems(s.hub.subs[sid].sent) == Concerned(s, sid) && Increasing(s.hub.subs[sid].sent)
  {
    ReachableOk(s);
    ExactlyOneOutcome(s, sid);
    assert SubInv(s, sid);
  }

  lemma LastIsGreatest(s: seq<nat>, x: nat)
    requires Increasing(s)
    ensures s != [] && s[|s| - 1] == x <==> x in Elems(s) && forall y :: y in Elems(s) ==> y <= x
  {
    if s != [] {
      assert s[|s| - 1] in Elems(s);
    }
  }

  // ----- no lost wakeup -----

  /** At the second lookup no writer is in the store, so later commits have positions from the mark on. */
  lemma MarkCountsCommits(s: State, sid: nat)
    requires Reachable(s) && WatchEnabled(s, SecondLookup(sid))
    requires WatchStep(s, SecondLookup(sid)).watches[sid].Watching?
    ensures WatchStep(s, SecondLookup(sid)).watches[sid].mark == |s.store.commits| == |s.store.log|
  {
    ReachableOk(s);
  }

  /** The user may see the job, and it has not ended. */
  ghost predicate SeesRunning(jobs: map<string, Job>, user: string, id: string) {
    && id in jobs && (user == "*" || jobs[id].user == user)
    && jobs[id].status !in ["Canceled", "Failed", "Finished", "Killed"]
  }

  /** Both lookups go on exactly for a job that the user sees running; else the call ends without a context. */
  lemma LookupsExactly(s: State, sid: nat, user: string, id: string)
    ensures WatchEnabled(s, FirstLookup(sid, user, id)) <==>
            s.store.writer.None? && sid !in s.hub.subs && sid !in s.watches && SeesRunning(s.store.jobs, user, id)
    ensures WatchEnabled(s, SecondLookup(sid)) ==>
            var w, s' := s.watches[sid], WatchStep(s, SecondLookup(sid));
            && (SeesRunning(s.store.jobs, w.user, w.id) ==>
                  s'.watches[sid] == Watching(w.user, w.id, |s.store.log|) && s'.hub == s.hub)
            && (!SeesRunning(s.store.jobs, w.user, w.id) ==>
                  s'.watches[sid].Ended? && s'.hub.subs[sid].cancelled)
  {
    if id in s.store.jobs {
      TerminalExactly(s.store.jobs[id].status);
    }
    if WatchEnabled(s, SecondLookup(sid)) && s.watches[sid].id in s.store.jobs {
      TerminalExactly(s.store.jobs[s.watches[sid].id].status);
    }
  }

  /** Only its second lookup makes a watcher live. */
  lemma OnlyLookupGrants(s: State, e: Event, sid: nat)
    requires Enabled(s, e) && sid in Apply(s, e).watches && Apply(s, e).watches[sid].Watching?
    ensures e == Watcher(SecondLookup(sid)) ||
            (sid in s.watches && s.watches[sid] == Apply(s, e).watches[sid])
  {
  }

  /** Every context was granted at some point of the run to a user who saw the job running then. */
  lemma {:induction false} ContextWasGranted(es: seq<Event>, s: State, sid: nat) returns (i: nat, t: State)
    requires Exec(START, es) == Some(s) && sid in s.watches && s.watches[sid].Watching?
    ensures i < |es| && Exec(START, es[..i]) == Some(t) && es[i] == Watcher(SecondLookup(sid))
    ensures SeesRunning(t.store.jobs, s.watches[sid].user, s.watches[sid].id)
    ensures s.watches[sid].mark == |t.store.log|
    decreases |es|
  {
    assert es != [];
    var front, e := es[..|es| - 1], es[|es| - 1];
    assert es == front + [e];
    t := ExecLast(START, front, e);
    OnlyLookupGrants(t, e, sid);
    if e == Watcher(SecondLookup(sid)) {
      i := |front|;
      LookupsExactly(t, sid, "", "");
    } else {
      i, t := ContextWasGranted(front, t, sid);
      assert es[..i] == front[..i];
    }
  }

  /** A call that has ended has cancelled its context, also after a terminal update. */
  lemma EndedIsCancelled(s: State, sid: nat)
    requires Reachable(s) && sid in s.watches && s.watches[sid].Ended?
    ensures sid in s.hub.subs && s.hub.subs[sid].cancelled
  {
    ReachableOk(s);
    assert WatchOk(s.store, s.hub, sid, s.watches[sid]);
  }

  /** On its way to the watcher, in its channel, or counted as dropped. */
  ghost predicate Noticed(s: State, sid: nat, n: nat)
    requires sid in s.hub.subs && n < |s.store.log|
  {
    n in Awaiting(s, sid) || n in s.hub.subs[sid].buf || n in s.hub.subs[sid].lost || s.store.log[n].fate != Enqueued
  }

  /** A terminal update under the watched ID is noticed, whichever job it was written for. */
  lemma TerminalNoticed(s: State, sid: nat, n: nat)
    requires Inv(s) && Listed(s.hub, sid)
    requires sid in s.watches && s.watches[sid].Watching? && s.watches[sid].mark <= n < |s.store.log|
    requires s.store.log[n].u.id == s.watches[sid].id && Terminal(s.store.log[n].u.status)
    ensures Noticed(s, sid, n)
  {
    var sub := s.hub.subs[sid];
    assert SubInv(s, sid) && WatchOk(s.store, s.hub, sid, s.watches[sid]);
    assert s.store.log[n].fate == Enqueued ==> Deliverable(s.store.log, sub, n);
    if n in sub.sent {
      assert sub.sent == Taken(sub) + sub.buf;
    }
  }

  /**
   * While a returned context is live and its subscriber is in its list, every terminal update since
   * the second lookup under the watched ID is noticed. A job that is terminal in the store became so
   * by a commit since then, which is noticed if its callback kept the job's ID.
   */
  lemma NoLostWakeup(s: State, sid: nat)
    requires Reachable(s) && Listed(s.hub, sid)
    requires sid in s.watches && s.watches[sid].Watching?
    ensures forall n | s.watches[sid].mark <= n < |s.store.log| ::
              s.store.log[n].u.id == s.watches[sid].id && Terminal(s.store.log[n].u.status) ==> Noticed(s, sid, n)
    ensures var id, last := s.watches[sid].id, s.store.last;
            id in s.store.jobs && Terminal(s.store.jobs[id].status) ==>
              && id in last && s.watches[sid].mark <= last[id] < |s.store.log|
              && s.store.log[last[id]].u.status == s.store.jobs[id].status
              && (s.store.log[last[id]].u.id == id ==> Noticed(s, sid, last[id]))
  {
    ReachableOk(s);
    var w := s.watches[sid];
    assert WatchOk(s.store, s.hub, sid, w);
    forall n | w.mark <= n < |s.store.log| && s.store.log[n].u.id == w.id && Terminal(s.store.log[n].u.status)
      ensures Noticed(s, sid, n)
    {
      TerminalNoticed(s, sid, n);
    }
    if w.id in s.store.jobs {
      assert Latest(w.id, s.store.jobs[w.id], s.store.log, |s.store.commits|, s.store.last);
    }
  }

  /** Queued and not visited yet, when the slot may still be full, or already in the watcher's channel. */
  ghost predicate StillComing(s: State, sid: nat, n: nat)
    requires sid in s.hub.subs && n < |s.store.log|
  {
    Matches(s.hub.subs[sid].topic, s.store.log[n].u) && (n in Awaiting(s, sid) || n in s.hub.subs[sid].buf)
  }

  /**
   * A terminal commit since the second lookup has not been dropped so far exactly if its callback
   * kept the job's ID, the queue took the update and the channel has not refused it.
   */
  lemma PendingExactly(s: State, sid: nat, n: nat)
    requires Reachable(s) && Listed(s.hub, sid)
    requires sid in s.watches && s.watches[sid].Watching? && s.watches[sid].mark <= n < |s.store.log|
    requires s.store.log[n].key == s.watches[sid].id && Terminal(s.store.log[n].u.status)
    ensures StillComing(s, sid, n) <==>
            && s.store.log[n].u.id == s.watches[sid].id && s.store.log[n].fate == Enqueued
            && n !in s.hub.subs[sid].lost
  {
    ReachableOk(s);
    assert SubInv(s, sid) && WatchOk(s.store, s.hub, sid, s.watches[sid]);
    if s.store.log[n].u.id == s.watches[sid].id {
      TerminalNoticed(s, sid, n);
    }
    if n in Awaiting(s, sid) {
      AwaitingAhead(s, sid, n);
      assert n in Pipe(s);
    }
  }

  lemma UnlistedEnds(s: State, sid: nat)
    requires sid in s.watches && s.watches[sid].Watching? && sid in s.hub.subs && !Listed(s.hub, sid)
    requires s.hub.subscribing != Some(sid) && ChannelOk(s.hub, sid)
    requires SubOk(s.store.log, s.hub.subs[sid], Limit(s, sid))
    ensures WatchEnabled(s, WatchReceive(sid)) || WatchEnabled(s, WatchEnd(sid))
  {
    var sub := s.hub.subs[sid];
    if sub.buf != [] {
      assert sub.buf[0] in sub.sent;
    }
  }

  /** A watcher that is no longer in its list finds its channel closed once it has drained it. */
  lemma UnlistedWatcherEnds(s: State, sid: nat)
    requires Reachable(s) && sid in s.watches && s.watches[sid].Watching? && !Listed(s.hub, sid)
    ensures WatchEnabled(s, WatchReceive(sid)) || WatchEnabled(s, WatchEnd(sid))
  {
    ReachableOk(s);
    assert WatchOk(s.store, s.hub, sid, s.watches[sid]) && SubInv(s, sid);
    UnlistedEnds(s, sid);
  }

  /**
   * A delivered update is in the store, except exactly while it is the newest one and its writer is
   * still between the callback and the write.
   */
  lemma DeliveredIsStored(s: State, sid: nat, n: nat)
    requires Reachable(s) && sid in s.hub.subs && n in s.hub.subs[sid].sent
    ensures n < |s.store.log|
    ensures n < |s.store.commits| <==> !(Announced(s.store) && n == |s.store.log| - 1)
    ensures n < |s.store.commits| ==> Records(s.store.commits[n], s.store.log[n])
  {
    ReachableOk(s);
    assert SubInv(s, sid);
  }

  /** The order that makes this delicate: an update can reach a subscriber before the store shows it. */
  lemma DeliveryMayPrecedeCommit(job: Job) returns (s: State)
    ensures Reachable(s) && job.id !in s.store.jobs
    ensures 7 in s.hub.subs && s.hub.subs[7].sent == [0]
    ensures s.store.log == [Attempt(job.id, UpdateOf(job), Enqueued)]
  {
    s := SubscriberJoined();
    s := WriterAnnounced(s, job);
    ReachableStep(s, Server(Take));
    s := Apply(s, Server(Take));
    assert MuFree(s) && s.service == Holding(0);
    ReachableStep(s, Server(StartNotify));
    assert Audience(s.hub, s.store.log[0].u)[0] == 7;
    s := Apply(s, Server(StartNotify));
    ReachableStep(s, Server(NotifyOne));
    s := Apply(s, Server(NotifyOne));
  }

  lemma SubscriberJoined() returns (s: State)
    ensures Reachable(s)
    ensures s == START.(hub := Hub(map[7 := FreshSub(All, true, 0)], map[All := [7]], None, false))
  {
    ReachableStart();
    ReachableStep(START, Client(Check(7, All)));
    var s1 := Apply(START, Client(Check(7, All)));
    ReachableStep(s1, Client(AddSub));
    s := Apply(s1, Client(AddSub));
    assert s.hub.lists[All] == ListOf(s1.hub, All) + [7] == [7];
    assert s.hub.lists.Keys == {All} && s.hub.lists == map[All := [7]];
    assert s.hub.subs == map[7 := FreshSub(All, true, 0)];
  }

  lemma WriterAnnounced(s0: State, job: Job) returns (s: State)
    requires Reachable(s0) && s0.store == START.store && s0.queue == [] && !s0.stop
    ensures Reachable(s)
    ensures s == s0.(queue := [0], store := Ledger(map[], Some(Pending(job.id, job, 0)),
                       [Attempt(job.id, UpdateOf(job), Enqueued)], [], map[]))
  {
    ReachableStep(s0, Writer(BeginAdd(job, 0, false)));
    s := Apply(s0, Writer(BeginAdd(job, 0, false)));
  }

  // ----- what subscribers do -----

  /**
   * A context can be cancelled at any time, a consumer can receive exactly what is in its slot, and a
   * subscription can start exactly when r.mu is free.
   */
  lemma ClientsExactly(s: State, sid: nat, t: Topic)
    requires Reachable(s)
    ensures ClientEnabled(s, ClientEvent.Cancel(sid)) <==> sid in s.hub.subs
    ensures sid !in s.watches ==> (ClientEnabled(s, Receive(sid)) <==> sid in s.hub.subs && s.hub.subs[sid].buf != [])
    ensures sid !in s.watches ==>
            (ClientEnabled(s, Check(sid, t)) <==>
             && sid !in s.hub.subs && s.hub.subscribing.None? && !s.service.Notifying? && !s.service.Closing?)
    ensures ClientEnabled(s, AddSub) <==> s.hub.subscribing.Some?
  {
    ReachableOk(s);
  }

  lemma TakeSlot(sub: Sub)
    requires SlotOk(sub) && sub.buf != []
    ensures sub.buf[1..] == [] && Taken(sub.(buf := sub.buf[1..])) == Taken(sub) + sub.buf
  {
  }

  /** A consumer takes what is in the slot; the slot is free again. */
  lemma ReceiveExactly(s: State, sid: nat)
    requires Reachable(s) && ClientEnabled(s, Receive(sid))
    ensures var sub, sub' := s.hub.subs[sid], ClientStep(s, Receive(sid)).hub.subs[sid];
            sub'.buf == [] && Taken(sub') == Taken(sub) + sub.buf && sub'.sent == sub.sent
  {
    ReachableOk(s);
    assert SubInv(s, sid);
    TakeSlot(s.hub.subs[sid]);
  }

  /** A cancel marks one subscriber and changes nothing else. */
  lemma CancelExactly(s: State, sid: nat)
    requires sid in s.hub.subs
    ensures var s' := ClientStep(s, ClientEvent.Cancel(sid));
            && s'.hub.subs == s.hub.subs[sid := s.hub.subs[sid].(cancelled := true)]
            && s'.hub.lists == s.hub.lists && s'.store == s.store && s'.service == s.service && s'.queue == s.queue
  {
  }

  /** The next visit closes a cancelled subscriber's channel, sends nothing and takes it off its list. */
  lemma CancelledIsDropped(s: State)
    requires Reachable(s) && ServiceEnabled(s, NotifyOne) && s.hub.subs[s.service.todo[0]].cancelled
    ensures var sid, h' := s.service.todo[0], ServiceStep(s, NotifyOne).hub;
            && !h'.subs[sid].open && !Listed(h', sid)
            && h'.subs[sid].sent == s.hub.subs[sid].sent && h'.subs[sid].lost == s.hub.subs[sid].lost
  {
    ReachableOk(s);
    assert Listed(s.hub, s.service.todo[0]);
    CancelledLeaves(s.hub, s.service.todo[0], s.service.n);
  }

  /** A live watcher can go on exactly if its context is cancelled, or its channel has an update or is closed. */
  lemma WatcherGoesExactly(s: State, sid: nat)
    requires Reachable(s) && sid in s.watches && s.watches[sid].Watching?
    ensures sid in s.hub.subs
    ensures var sub := s.hub.subs[sid];
            && (WatchEnabled(s, WatchReceive(sid)) <==> sub.buf != [])
            && (WatchEnabled(s, WatchEnd(sid)) <==> sub.cancelled || (!sub.open && sub.buf == []))
  {
    ReachableOk(s);
    assert WatchOk(s.store, s.hub, sid, s.watches[sid]) && SubInv(s, sid);
    SlotIsLogged(s.store.log, s.hub.subs[sid], Limit(s, sid));
  }

  lemma SlotIsLogged(log: seq<Attempt>, sub: Sub, limit: nat)
    requires SubOk(log, sub, limit)
    ensures sub.buf != [] ==> sub.buf[0] < |log|
  {
    assert sub.buf != [] ==> sub.buf[0] in sub.sent;
  }

  // ----- close protocol -----

  /** No send on a closed channel, no double close, and what Close leaves behind. */
  lemma CloseProtocol(s: State)
    requires Reachable(s)
    ensures !s.hub.panicked
    ensures forall t, sid :: sid in ListOf(s.hub, t) ==>
              sid in s.hub.subs && s.hub.subs[sid].open && !s.hub.subs[sid].closed
    ensures s.returned ==> s.hub.subscribing.None? && s.stop
    ensures s.returned ==> forall t :: ListOf(s.hub, t) == []
    ensures s.returned ==> forall sid :: sid in s.hub.subs ==> !s.hub.subs[sid].open
  {
    ReachableOk(s);
    ListedIsOpen(s.hub);
    if s.returned {
      UnlistedIsClosed(s.hub);
    }
  }

  lemma ListedIsOpen(h: Hub)
    requires HubOk(h)
    ensures forall t, sid :: sid in ListOf(h, t) ==> sid in h.subs && h.subs[sid].open && !h.subs[sid].closed
  {
    forall t, sid | sid in ListOf(h, t) ensures sid in h.subs && h.subs[sid].open && !h.subs[sid].closed {
      assert ListOk(h, t) && ChannelOk(h, sid);
    }
  }

  lemma UnlistedIsClosed(h: Hub)
    requires HubOk(h) && Empty(h) && h.subscribing.None?
    ensures forall sid :: sid in h.subs ==> !h.subs[sid].open
  {
    forall sid | sid in h.subs ensures !h.subs[sid].open {
      assert ChannelOk(h, sid);
    }
  }

  /** The action sends on a closed channel, or closes one again, which panics in Go. */
  predicate UsesClosed(s: State, e: Event)
    requires Enabled(s, e)
  {
    match e
    case Server(NotifyOne) => !s.hub.subs[s.service.todo[0]].open
    case Server(CloseOne(t)) =>
      var sub := s.hub.subs[ListOf(s.hub, t)[0]];
      !sub.closed && !sub.open
    case _ => false
  }

  lemma PanicsExactly(s: State, e: Event)
    requires Enabled(s, e)
    ensures Apply(s, e).hub.panicked <==> s.hub.panicked || UsesClosed(s, e)
  {
    match e
    case Writer(w) => WriterTouches(s, w);
    case Watcher(t) => WatchTouches(s, t);
    case _ =>
  }

  /** No action of any run uses a closed channel, and Close never finds a subscriber marked closed. */
  lemma ChannelsUsedOpen(s: State, e: Event)
    requires Reachable(s) && Enabled(s, e)
    ensures !UsesClosed(s, e)
    ensures e.Server? && e.v.CloseOne? ==> !s.hub.subs[ListOf(s.hub, e.v.topic)[0]].closed
  {
    ReachableOk(s);
    ListedIsOpen(s.hub);
    if e == Server(NotifyOne) {
      assert Listed(s.hub, s.service.todo[0]);
    }
  }

  /** Close has returned for good: whatever runs afterwards, the lists stay empty. */
  lemma {:induction false} ClosedForGood(s: State, es: seq<Event>)
    requires s.returned && Exec(s, es).Some?
    ensures Exec(s, es).value.returned
    decreases |es|
  {
    if es != [] {
      assert Apply(s, es[0]).returned;
      ClosedForGood(Apply(s, es[0]), es[1..]);
    }
  }
}
