/** Subscriber lists, channel states and the close protocol. */
module PubSubClose {
  import opened Wrappers
  import opened Cache
  import opened PubSub

  ghost predicate ListOk(h: Hub, t: Topic) {
    && Distinct(ListOf(h, t))
    && forall sid :: sid in ListOf(h, t) ==> sid in h.subs && h.subs[sid].topic == t
  }

  /** A channel is open exactly while it is in its list or about to be added to it. */
  predicate ChannelOk(h: Hub, sid: nat)
    requires sid in h.subs
  {
    && (h.subs[sid].open <==> Listed(h, sid) || h.subscribing == Some(sid))
    && (h.subs[sid].open ==> !h.subs[sid].closed)
  }

  ghost predicate HubOk(h: Hub) {
    && (forall t :: ListOk(h, t))
    && (forall sid :: sid in h.subs ==> ChannelOk(h, sid))
    && (h.subscribing.Some? ==> h.subscribing.value in h.subs && !Listed(h, h.subscribing.value))
    && !h.panicked
  }

  /** Whom the service goroutine still has to notify. */
  ghost predicate TodoOk(h: Hub, u: StatusUpdate, todo: seq<nat>) {
    && Distinct(todo)
    && forall sid :: sid in todo ==> Listed(h, sid) && Matches(h.subs[sid].topic, u)
  }

  ghost predicate Empty(h: Hub) {
    forall t :: ListOf(h, t) == []
  }

  ghost predicate ServiceOk(s: State) {
    match s.service
    case Notifying(n, todo) =>
      s.hub.subscribing.None? && n < |s.store.log| && TodoOk(s.hub, s.store.log[n].u, todo)
    case Leaving => s.stop
    case Closing => s.stop && s.hub.subscribing.None?
    case Exited => s.stop && s.hub.subscribing.None? && Empty(s.hub)
    case _ => true
  }

  ghost predicate InvClose(s: State) {
    HubOk(s.hub) && ServiceOk(s) && (s.returned ==> s.service.Exited?)
  }

  // ----- list operations -----

  lemma {:induction false} WithoutRemoves(list: seq<nat>, x: nat)
    requires Distinct(list)
    ensures Distinct(Without(list, x))
    ensures forall y :: y in Without(list, x) <==> y in list && y != x
  {
    if list != [] {
      assert list == [list[0]] + list[1..];
      if list[0] != x {
        WithoutRemoves(list[1..], x);
        assert list[0] !in Without(list[1..], x);
      }
    }
  }

  lemma TailRemoves(list: seq<nat>)
    requires Distinct(list) && list != []
    ensures Distinct(list[1..])
    ensures forall y :: y in list[1..] <==> y in list && y != list[0]
  {
    assert list == [list[0]] + list[1..];
  }

  /** Changing a subscriber without touching its topic or channel state keeps every list. */
  lemma SetSubKeepsHub(h: Hub, sid: nat, sub: Sub)
    requires HubOk(h) && sid in h.subs
    requires sub.topic == h.subs[sid].topic && sub.open == h.subs[sid].open && sub.closed == h.subs[sid].closed
    ensures HubOk(SetSub(h, sid, sub))
    ensures forall x :: Listed(SetSub(h, sid, sub), x) <==> Listed(h, x)
  {
    var h' := SetSub(h, sid, sub);
    forall t ensures ListOk(h', t) {
      assert ListOk(h, t);
    }
    forall x | x in h'.subs ensures ChannelOk(h', x) {
      assert ChannelOk(h, x);
    }
  }

  /** Taking a subscriber out of its list while closing its channel. */
  lemma RemoveKeepsHub(h: Hub, h': Hub, sid: nat)
    requires HubOk(h) && Listed(h, sid) && h.subscribing.None?
    requires var sub := h.subs[sid];
             && sid in h'.subs && h'.subs == h.subs[sid := h'.subs[sid]]
             && h'.subs[sid] == sub.(closed := true, open := false)
             && h'.lists.Keys == h.lists.Keys + {sub.topic}
             && (forall t :: t != sub.topic ==> ListOf(h', t) == ListOf(h, t))
             && Distinct(ListOf(h', sub.topic))
             && (forall x :: x in ListOf(h', sub.topic) <==> x in ListOf(h, sub.topic) && x != sid)
             && h'.subscribing == None && !h'.panicked
    ensures HubOk(h')
    ensures forall x :: Listed(h', x) <==> Listed(h, x) && x != sid
  {
    forall t ensures ListOk(h', t) {
      assert ListOk(h, t);
    }
    forall x | x in h'.subs ensures ChannelOk(h', x) {
      assert ChannelOk(h, x);
      assert ListOk(h, h.subs[x].topic);
    }
  }

  lemma NotifyKeepsHub(h: Hub, sid: nat, n: nat)
    requires HubOk(h) && Listed(h, sid) && h.subscribing.None?
    ensures HubOk(NotifySub(h, sid, n))
    ensures forall x :: x != sid ==> (Listed(NotifySub(h, sid, n), x) <==> Listed(h, x))
  {
    var sub := h.subs[sid];
    var h' := NotifySub(h, sid, n);
    assert ChannelOk(h, sid) && ListOk(h, sub.topic);
    if sub.cancelled {
      WithoutRemoves(ListOf(h, sub.topic), sid);
      RemoveKeepsHub(h, h', sid);
    } else {
      SetSubKeepsHub(h, sid, Visit(sub, n));
      assert h' == SetSub(h, sid, Visit(sub, n));
    }
  }

  /** The guard of the Close loop always holds: nothing in a list is marked closed. */
  lemma CloseKeepsHub(h: Hub, t: Topic)
    requires HubOk(h) && h.subscribing.None? && ListOf(h, t) != []
    ensures ListOf(h, t)[0] in h.subs && !h.subs[ListOf(h, t)[0]].closed && h.subs[ListOf(h, t)[0]].open
    ensures HubOk(CloseFront(h, t))
  {
    var sid := ListOf(h, t)[0];
    assert ListOk(h, t);
    assert ChannelOk(h, sid);
    TailRemoves(ListOf(h, t));
    RemoveKeepsHub(h, CloseFront(h, t), sid);
  }

  lemma JoinKeepsHub(h: Hub, sid: nat, cut: nat)
    requires HubOk(h) && h.subscribing == Some(sid)
    ensures HubOk(JoinList(h, sid, cut))
  {
    var h' := JoinList(h, sid, cut);
    forall t ensures ListOk(h', t) {
      assert ListOk(h, t);
    }
    forall x | x in h'.subs ensures ChannelOk(h', x) {
      assert ChannelOk(h, x);
    }
  }

  lemma AudienceOk(h: Hub, u: StatusUpdate)
    requires HubOk(h)
    ensures TodoOk(h, u, Audience(h, u))
    ensures forall sid :: Listed(h, sid) && Matches(h.subs[sid].topic, u) ==> sid in Audience(h, u)
  {
    assert ListOk(h, All) && ListOk(h, ById(u.id)) && ListOk(h, ByUser(u.user));
    DistinctConcat(ListOf(h, All), ListOf(h, ById(u.id)));
    DistinctConcat(ListOf(h, All) + ListOf(h, ById(u.id)), ListOf(h, ByUser(u.user)));
  }

  /** Subscribers to everything come first, then those to the job, then those to the user. */
  function Rank(t: Topic): (r: nat) {
    match t case All => 0 case ById(_) => 1 case ByUser(_) => 2
  }

  lemma AudienceInOrder(h: Hub, u: StatusUpdate, i: nat, j: nat)
    requires HubOk(h) && i < j < |Audience(h, u)|
    ensures Audience(h, u)[i] in h.subs && Audience(h, u)[j] in h.subs
    ensures Rank(h.subs[Audience(h, u)[i]].topic) <= Rank(h.subs[Audience(h, u)[j]].topic)
  {
    var all, ids, users := ListOf(h, All), ListOf(h, ById(u.id)), ListOf(h, ByUser(u.user));
    assert ListOk(h, All) && ListOk(h, ById(u.id)) && ListOk(h, ByUser(u.user));
    forall k | 0 <= k < |Audience(h, u)|
      ensures Audience(h, u)[k] in h.subs
      ensures Rank(h.subs[Audience(h, u)[k]].topic) == if k < |all| then 0 else if k < |all| + |ids| then 1 else 2
    {
      assert k < |all| ==> Audience(h, u)[k] == all[k];
      assert |all| <= k < |all| + |ids| ==> Audience(h, u)[k] == ids[k - |all|];
      assert |all| + |ids| <= k ==> Audience(h, u)[k] == users[k - |all| - |ids|];
    }
  }

  // ----- every action -----

  lemma ServiceKeepsClose(s: State, e: ServiceEvent)
    requires InvClose(s) && ServiceEnabled(s, e)
    ensures InvClose(ServiceStep(s, e))
  {
    match e
    case StartNotify => AudienceOk(s.hub, s.store.log[s.service.n].u);
    case NotifyOne =>
      TailRemoves(s.service.todo);
      NotifyKeepsHub(s.hub, s.service.todo[0], s.service.n);
    case CloseOne(t) => CloseKeepsHub(s.hub, t);
    case _ =>
  }

  lemma CheckKeepsClose(s: State, sid: nat, t: Topic)
    requires InvClose(s) && ClientEnabled(s, Check(sid, t))
    ensures InvClose(ClientStep(s, Check(sid, t)))
  {
    var h := ClientStep(s, Check(sid, t)).hub;
    forall x ensures ListOk(h, x) {
      assert ListOk(s.hub, x);
    }
    assert forall x :: ListOf(h, x) == ListOf(s.hub, x);
    assert !Listed(h, sid) by {
      assert ListOk(s.hub, t);
    }
    forall x | x in h.subs ensures ChannelOk(h, x) {
      assert x != sid ==> ChannelOk(s.hub, x);
    }
  }

  lemma SetSubKeepsService(s: State, sid: nat, sub: Sub)
    requires InvClose(s) && sid in s.hub.subs
    requires sub.topic == s.hub.subs[sid].topic && sub.open == s.hub.subs[sid].open &&
             sub.closed == s.hub.subs[sid].closed
    ensures InvClose(s.(hub := SetSub(s.hub, sid, sub)))
  {
    SetSubKeepsHub(s.hub, sid, sub);
    assert forall t :: ListOf(SetSub(s.hub, sid, sub), t) == ListOf(s.hub, t);
  }

  lemma ClientKeepsClose(s: State, e: ClientEvent)
    requires InvClose(s) && ClientEnabled(s, e)
    ensures InvClose(ClientStep(s, e))
  {
    match e
    case Check(sid, t) => CheckKeepsClose(s, sid, t);
    case AddSub => JoinKeepsHub(s.hub, s.hub.subscribing.value, Head(s));
    case Cancel(sid) => SetSubKeepsService(s, sid, s.hub.subs[sid].(cancelled := true));
    case Receive(sid) => SetSubKeepsService(s, sid, s.hub.subs[sid].(buf := s.hub.subs[sid].buf[1..]));
    case _ =>
  }

  /** A watcher only ever cancels its own subscription or empties its channel. */
  lemma WatchTouches(s: State, e: WatchEvent)
    requires WatchEnabled(s, e)
    ensures var s' := WatchStep(s, e);
            && s'.store == s.store && s'.queue == s.queue && s'.service == s.service
            && s'.stop == s.stop && s'.returned == s.returned
            && (e.FirstLookup? ==> s'.hub == s.hub)
            && (!e.FirstLookup? ==>
                  && e.sid in s'.hub.subs && s'.hub == SetSub(s.hub, e.sid, s'.hub.subs[e.sid])
                  && s'.hub.subs[e.sid].topic == s.hub.subs[e.sid].topic
                  && s'.hub.subs[e.sid].open == s.hub.subs[e.sid].open
                  && s'.hub.subs[e.sid].closed == s.hub.subs[e.sid].closed)
  {
    if e.SecondLookup? {
      assert s.hub.subs == s.hub.subs[e.sid := s.hub.subs[e.sid]];
    }
  }

  lemma WatchKeepsClose(s: State, e: WatchEvent)
    requires InvClose(s) && WatchEnabled(s, e)
    ensures InvClose(WatchStep(s, e))
  {
    WatchTouches(s, e);
    if !e.FirstLookup? {
      SetSubKeepsService(s, e.sid, WatchStep(s, e).hub.subs[e.sid]);
    }
  }

  /** A writer only ever touches the store and appends to the log and the queue. */
  lemma WriterTouches(s: State, e: WriterEvent)
    requires WriterEnabled(s, e)
    ensures var s' := WriterStep(s, e);
            && s'.hub == s.hub && s'.service == s.service && s'.stop == s.stop
            && s'.returned == s.returned && s'.watches == s.watches
            && s.store.log <= s'.store.log
  {
  }

  lemma WriterKeepsClose(s: State, e: WriterEvent)
    requires InvClose(s) && WriterEnabled(s, e)
    ensures InvClose(WriterStep(s, e))
  {
    WriterTouches(s, e);
  }
}
