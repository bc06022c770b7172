/**
 * Progress of the cache: queued updates are dealt with, Close returns, and what subscribers find once
 * it has begun.
 */
module PubSubShutdown {
  import opened Wrappers
  import opened Cache
  import opened PubSub
  import opened PubSubStore
  import opened PubSubClose
  import opened PubSubTheorems

  ghost function OpenSubs(h: Hub): set<nat> {
    set sid | sid in h.subs && h.subs[sid].open
  }

  /** Steps of the service goroutine that are left, if it takes no further update from the queue. */
  ghost function ServiceLeft(h: Hub, v: Service): nat {
    match v
    case Holding(_) => 5 + |OpenSubs(h)| + |OpenSubs(h)|
    case Notifying(_, todo) => 4 + |todo| + |OpenSubs(h)|
    case Idle => 3 + |OpenSubs(h)|
    case Leaving => 2 + |OpenSubs(h)|
    case Closing => 1 + |OpenSubs(h)|
    case Exited => 0
  }

  /** Those, the subscription that is under way and the return of Close itself. */
  ghost function StepsLeft(s: State): nat {
    ServiceLeft(s.hub, s.service) + (if s.hub.subscribing.Some? then 1 else 0) + (if s.returned then 0 else 1)
  }

  /** What the return of Close depends on. */
  predicate Closes(e: Event) {
    (e.Server? && !e.v.Take?) || e == Client(AddSub) || e == Client(ReturnClose)
  }

  /** Once Close has begun and until it returns, one of those steps is possible. */
  lemma CloseGoesOn(s: State) returns (e: Event)
    requires Inv(s) && s.stop && !s.returned
    ensures Closes(e) && Enabled(s, e)
  {
    if s.hub.subscribing.Some? {
      e := Client(AddSub);
    } else {
      e := ServiceGoesOn(s);
    }
  }

  lemma ServiceGoesOn(s: State) returns (e: Event)
    requires Inv(s) && s.stop && s.hub.subscribing.None?
    ensures Closes(e) && Enabled(s, e)
  {
    match s.service
    case Idle => e := Server(SeeStop);
    case Holding(n) =>
      assert Pipe(s)[0] == n && n in Pipe(s);
      e := Server(StartNotify);
    case Notifying(_, todo) =>
      assert todo != [] ==> Listed(s.hub, todo[0]);
      e := Server(if todo == [] then EndNotify else NotifyOne);
    case Leaving => e := Server(StartClose);
    case Closing =>
      if t :| t in s.hub.lists && s.hub.lists[t] != [] {
        CloseKeepsHub(s.hub, t);
        e := Server(CloseOne(t));
      } else {
        e := Server(EndClose);
      }
    case Exited => e := Client(ReturnClose);
  }

  // ----- the steps run down -----

  lemma SubsetSize(a: set<nat>, b: set<nat>)
    requires a <= b
    ensures |a| <= |b|
  {
    assert b == a + (b - a);
  }

  lemma AudienceSize(h: Hub, u: StatusUpdate)
    requires HubOk(h)
    ensures |Audience(h, u)| <= |OpenSubs(h)|
  {
    var todo := Audience(h, u);
    AudienceOk(h, u);
    ElemsCount(todo);
    forall sid | sid in Elems(todo) ensures sid in OpenSubs(h) {
      assert Listed(h, sid) && ChannelOk(h, sid);
    }
    SubsetSize(Elems(todo), OpenSubs(h));
  }

  lemma CloseOneShrinks(h: Hub, t: Topic)
    requires HubOk(h) && h.subscribing.None? && ListOf(h, t) != [] && ListOf(h, t)[0] in h.subs
    ensures |OpenSubs(CloseFront(h, t))| < |OpenSubs(h)|
  {
    CloseKeepsHub(h, t);
    var sid := ListOf(h, t)[0];
    assert OpenSubs(CloseFront(h, t)) == OpenSubs(h) - {sid} && sid in OpenSubs(h);
  }

  lemma NotifyShrinks(h: Hub, sid: nat, n: nat)
    requires sid in h.subs
    ensures OpenSubs(NotifySub(h, sid, n)) <= OpenSubs(h)
  {
  }

  /** Each step of the service goroutine but Take brings the return nearer. */
  lemma ServiceRunsDown(s: State, e: ServiceEvent)
    requires InvClose(s) && ServiceEnabled(s, e)
    ensures !e.Take? ==> StepsLeft(ServiceStep(s, e)) < StepsLeft(s)
    ensures e.Take? ==> StepsLeft(ServiceStep(s, e)) == StepsLeft(s) + 2 + |OpenSubs(s.hub)|
    ensures OpenSubs(ServiceStep(s, e).hub) <= OpenSubs(s.hub)
  {
    match e
    case StartNotify => AudienceSize(s.hub, s.store.log[s.service.n].u);
    case NotifyOne =>
      NotifyShrinks(s.hub, s.service.todo[0], s.service.n);
      SubsetSize(OpenSubs(ServiceStep(s, e).hub), OpenSubs(s.hub));
    case CloseOne(t) => CloseOneShrinks(s.hub, t);
    case _ =>
  }

  /** After the stop no channel becomes open. */
  lemma ClientKeepsOpen(s: State, e: ClientEvent)
    requires s.stop && ClientEnabled(s, e)
    ensures OpenSubs(ClientStep(s, e).hub) == OpenSubs(s.hub)
  {
    var h, h' := s.hub, ClientStep(s, e).hub;
    match e
    case Check(sid, t) => assert OpenSubs(h') == OpenSubs(h);
    case AddSub => assert OpenSubs(h') == OpenSubs(h);
    case Cancel(sid) => SetSubOpen(h, sid, h'.subs[sid]);
    case Receive(sid) => SetSubOpen(h, sid, h'.subs[sid]);
    case _ =>
  }

  /** And no subscriber can put the return off. */
  lemma ClientRunsDown(s: State, e: ClientEvent)
    requires s.stop && ClientEnabled(s, e)
    ensures StepsLeft(ClientStep(s, e)) <= StepsLeft(s)
    ensures !s.returned && Closes(Client(e)) ==> StepsLeft(ClientStep(s, e)) < StepsLeft(s)
    ensures OpenSubs(ClientStep(s, e).hub) == OpenSubs(s.hub)
  {
    ClientKeepsOpen(s, e);
    var s' := ClientStep(s, e);
    assert s'.service == s.service && ServiceLeft(s'.hub, s'.service) == ServiceLeft(s.hub, s.service);
  }

  lemma SetSubOpen(h: Hub, sid: nat, sub: Sub)
    requires sid in h.subs && sub.open == h.subs[sid].open
    ensures OpenSubs(SetSub(h, sid, sub)) == OpenSubs(h)
  {
  }

  lemma WatchRunsDown(s: State, e: WatchEvent)
    requires WatchEnabled(s, e)
    ensures StepsLeft(WatchStep(s, e)) == StepsLeft(s) && OpenSubs(WatchStep(s, e).hub) == OpenSubs(s.hub)
  {
    WatchTouches(s, e);
    assert OpenSubs(WatchStep(s, e).hub) == OpenSubs(s.hub);
  }

  lemma StepRunsDown(s: State, e: Event)
    requires Inv(s) && s.stop && !s.returned && Enabled(s, e)
    ensures Apply(s, e).stop && OpenSubs(Apply(s, e).hub) <= OpenSubs(s.hub)
    ensures e == Server(Take) ==> StepsLeft(Apply(s, e)) == StepsLeft(s) + 2 + |OpenSubs(s.hub)|
    ensures e != Server(Take) ==> StepsLeft(Apply(s, e)) + (if Closes(e) then 1 else 0) <= StepsLeft(s)
  {
    match e
    case Writer(w) => WriterTouches(s, w);
    case Server(v) => ServiceRunsDown(s, v);
    case Client(c) => ClientRunsDown(s, c);
    case Watcher(t) =>
      WatchTouches(s, t);
      WatchRunsDown(s, t);
  }

  function Count(es: seq<Event>, p: Event -> bool): (n: nat) {
    if es == [] then 0 else (if p(es[0]) then 1 else 0) + Count(es[1..], p)
  }

  /** The updates taken from the queue, each of which may cost a visit to every open subscriber. */
  function TakeCost(es: seq<Event>, open: nat): (n: nat) {
    if es == [] then 0 else (if es[0] == Server(Take) then 2 + open else 0) + TakeCost(es[1..], open)
  }

  lemma StepCounts(s: State, e: Event, open: nat)
    requires Inv(s) && s.stop && !s.returned && Enabled(s, e) && |OpenSubs(s.hub)| <= open
    ensures Inv(Apply(s, e)) && Apply(s, e).stop && |OpenSubs(Apply(s, e).hub)| <= open
    ensures StepsLeft(Apply(s, e)) + (if Closes(e) then 1 else 0) <=
            StepsLeft(s) + if e == Server(Take) then 2 + open else 0
  {
    StepKeeps(s, e);
    StepRunsDown(s, e);
    SubsetSize(OpenSubs(Apply(s, e).hub), OpenSubs(s.hub));
  }

  lemma {:induction false} RunRunsDown(s: State, es: seq<Event>, open: nat)
    requires Inv(s) && s.stop && Exec(s, es).Some? && !Exec(s, es).value.returned && |OpenSubs(s.hub)| <= open
    ensures Inv(Exec(s, es).value) && Exec(s, es).value.stop
    ensures Count(es, Closes) + StepsLeft(Exec(s, es).value) <= StepsLeft(s) + TakeCost(es, open)
    decreases |es|
  {
    if s.returned {
      ClosedForGood(s, es);
    }
    if es != [] {
      StepCounts(s, es[0], open);
      RunRunsDown(Apply(s, es[0]), es[1..], open);
    }
  }

  /**
   * Close returns: in every run after the stop the steps towards its return are bounded by the work
   * at the stop and the updates still taken from the queue, and until it returns one is possible.
   */
  lemma CloseReturns(s: State, es: seq<Event>) returns (e: Event)
    requires Reachable(s) && s.stop && Exec(s, es).Some? && !Exec(s, es).value.returned
    ensures Count(es, Closes) + StepsLeft(Exec(s, es).value) <= StepsLeft(s) + TakeCost(es, |OpenSubs(s.hub)|)
    ensures Closes(e) && Enabled(Exec(s, es).value, e)
  {
    ReachableOk(s);
    RunRunsDown(s, es, |OpenSubs(s.hub)|);
    e := CloseGoesOn(Exec(s, es).value);
  }

  /** From every reachable state, Close can be called and return, without any help from subscribers. */
  lemma CloseCompletes(s: State) returns (es: seq<Event>, s': State)
    requires Reachable(s)
    ensures Exec(s, es) == Some(s') && s'.returned
    ensures forall e :: e in es ==> Closes(e) || e == Client(CallClose)
  {
    ReachableOk(s);
    if s.stop {
      es, s' := ClosingCompletes(s);
    } else {
      StepKeeps(s, Client(CallClose));
      var s1 := Apply(s, Client(CallClose));
      es, s' := ClosingCompletes(s1);
      ExecCons(s, Client(CallClose), es);
      es := [Client(CallClose)] + es;
    }
  }

  lemma ExecCons(s: State, e: Event, es: seq<Event>)
    requires Enabled(s, e)
    ensures Exec(s, [e] + es) == Exec(Apply(s, e), es)
  {
    ConcatTail([e], es);
    assert [e][1..] + es == es;
  }

  lemma {:induction false} ClosingCompletes(s: State) returns (es: seq<Event>, s': State)
    requires Inv(s) && s.stop
    ensures Exec(s, es) == Some(s') && s'.returned
    ensures forall e :: e in es ==> Closes(e)
    decreases StepsLeft(s)
  {
    if s.returned {
      es, s' := [], s;
    } else {
      var e := CloseGoesOn(s);
      StepKeeps(s, e);
      StepRunsDown(s, e);
      es, s' := ClosingCompletes(Apply(s, e));
      ExecCons(s, e, es);
      es := [e] + es;
    }
  }

  // ----- the queue -----

  lemma AddRunsDown(s: State)
    requires ClientEnabled(s, AddSub)
    ensures StepsLeft(ClientStep(s, AddSub)) < StepsLeft(s) && ClientStep(s, AddSub).queue == s.queue
    ensures ClientStep(s, AddSub).store == s.store && ClientStep(s, AddSub).stop == s.stop
  {
    assert OpenSubs(ClientStep(s, AddSub).hub) == OpenSubs(s.hub);
  }

  /** A step towards an empty queue: of the service goroutine, or of the subscription that holds r.mu. */
  predicate Drains(e: Event) {
    e.Server? || e == Client(AddSub)
  }

  /** The service goroutine's own step, before it has seen the stop. */
  lemma ServiceDrains(s: State) returns (v: ServiceEvent)
    requires InvQueue(s) && InvClose(s) && !s.stop && Pipe(s) != [] && s.hub.subscribing.None?
    ensures ServiceEnabled(s, v) && ServiceStep(s, v).store == s.store && !ServiceStep(s, v).stop
    ensures if s.service.Idle? then |ServiceStep(s, v).queue| < |s.queue|
            else !v.Take? && ServiceStep(s, v).queue == s.queue
  {
    match s.service
    case Idle => v := Take;
    case Holding(n) =>
      assert Pipe(s)[0] == n && n in Pipe(s);
      v := StartNotify;
    case Notifying(_, todo) =>
      assert todo != [] ==> Listed(s.hub, todo[0]);
      v := if todo == [] then EndNotify else NotifyOne;
  }

  lemma DrainGoesOn(s: State) returns (e: Event)
    requires Inv(s) && !s.stop && Pipe(s) != []
    ensures Drains(e) && Enabled(s, e)
    ensures var s' := Apply(s, e);
            && s'.store == s.store && !s'.stop
            && (|s'.queue| < |s.queue| || (s'.queue == s.queue && StepsLeft(s') < StepsLeft(s)))
  {
    if s.hub.subscribing.Some? {
      e := Client(AddSub);
      AddRunsDown(s);
    } else {
      var v := ServiceDrains(s);
      ServiceRunsDown(s, v);
      e := Server(v);
    }
  }

  lemma {:induction false} DrainCompletes(s: State) returns (es: seq<Event>, s': State)
    requires Inv(s) && !s.stop
    ensures Exec(s, es) == Some(s') && Pipe(s') == [] && s'.store == s.store
    ensures forall e :: e in es ==> Drains(e)
    decreases |s.queue|, StepsLeft(s)
  {
    if Pipe(s) == [] {
      es, s' := [], s;
    } else {
      var e := DrainGoesOn(s);
      StepKeeps(s, e);
      es, s' := DrainCompletes(Apply(s, e));
      ExecCons(s, e, es);
      es := [e] + es;
    }
  }

  /**
   * Every queued update can be dealt with: before the stop, the service goroutine empties the queue
   * from every reachable state, without any help from writers, consumers or watchers.
   */
  lemma QueueDrains(s: State) returns (es: seq<Event>, s': State)
    requires Reachable(s) && !s.stop
    ensures Exec(s, es) == Some(s') && s'.queue == [] && Hand(s'.service) == [] && s'.store == s.store
    ensures forall e :: e in es ==> Drains(e)
  {
    ReachableOk(s);
    es, s' := DrainCompletes(s);
  }

  // ----- subscribing to a closing cache -----

  /** Closed from the start. */
  predicate Stillborn(h: Hub, sid: nat) {
    sid in h.subs && !h.subs[sid].open && h.subs[sid].sent == [] && h.subs[sid].lost == [] && !Listed(h, sid)
  }

  lemma ServiceAddsNone(s: State, e: ServiceEvent)
    requires ServiceEnabled(s, e)
    ensures ServiceStep(s, e).hub.subs.Keys == s.hub.subs.Keys
  {
  }

  lemma WatchAddsNone(s: State, e: WatchEvent)
    requires WatchEnabled(s, e)
    ensures WatchStep(s, e).hub.subs.Keys == s.hub.subs.Keys
  {
    WatchTouches(s, e);
  }

  lemma CheckAddsOne(s: State, e: ClientEvent)
    requires ClientEnabled(s, e)
    ensures ClientStep(s, e).hub.subs.Keys == s.hub.subs.Keys + if e.Check? then {e.sid} else {}
  {
  }

  /** Only the head of a subscription adds a subscriber. */
  lemma OnlyCheckAdds(s: State, e: Event, sid: nat)
    requires Enabled(s, e) && sid !in s.hub.subs.Keys && sid in Apply(s, e).hub.subs.Keys
    ensures e.Client? && e.c.Check? && e.c.sid == sid
  {
    match e
    case Writer(w) => WriterTouches(s, w);
    case Server(v) => ServiceAddsNone(s, v);
    case Client(c) => CheckAddsOne(s, c);
    case Watcher(t) => WatchAddsNone(s, t);
  }

  lemma BornClosed(s: State, sid: nat, t: Topic)
    requires ListOk(s.hub, t) && s.stop && ClientEnabled(s, Check(sid, t))
    ensures Stillborn(ClientStep(s, Check(sid, t)).hub, sid)
  {
  }

  lemma StaysClosed(s: State, e: Event, sid: nat)
    requires Inv(s) && Enabled(s, e) && Stillborn(s.hub, sid)
    ensures Stillborn(Apply(s, e).hub, sid)
  {
    StepGrowsSub(s, e, sid);
    StepKeeps(s, e);
    assert ChannelOk(Apply(s, e).hub, sid);
  }

  /** Not subscribed yet, or closed from the start. */
  predicate NotServed(h: Hub, sid: nat) {
    sid in h.subs ==> Stillborn(h, sid)
  }

  lemma StepNeverServes(s: State, e: Event, sid: nat)
    requires Inv(s) && s.stop && Enabled(s, e) && NotServed(s.hub, sid)
    ensures Inv(Apply(s, e)) && NotServed(Apply(s, e).hub, sid)
  {
    StepKeeps(s, e);
    if sid in s.hub.subs {
      StaysClosed(s, e, sid);
    } else if sid in Apply(s, e).hub.subs {
      OnlyCheckAdds(s, e, sid);
      BornClosed(s, sid, e.c.topic);
    }
  }

  lemma StopStays(s: State, e: Event)
    requires s.stop && Enabled(s, e)
    ensures Apply(s, e).stop
  {
  }

  /**
   * A channel that is subscribed in a run after the stop is closed at once, joins no list and is
   * never sent anything.
   */
  lemma {:induction false} SubscribeAfterStop(s: State, es: seq<Event>, sid: nat)
    requires Inv(s) && s.stop && Exec(s, es).Some? && NotServed(s.hub, sid)
    ensures NotServed(Exec(s, es).value.hub, sid)
    decreases |es|
  {
    if es != [] {
      StopStays(s, es[0]);
      StepNeverServes(s, es[0], sid);
      SubscribeAfterStop(Apply(s, es[0]), es[1..], sid);
    }
  }
}
