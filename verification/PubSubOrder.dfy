/** The subscriber lists keep the order of subscription, in which updates are handed out. */
module PubSubOrder {
  import opened Wrappers
  import opened PubSub
  import opened PubSubStore
  import opened PubSubClose
  import opened PubSubDelivery
  import opened PubSubTheorems

  /** Whoever stands further back subscribed no earlier: its updates start at the same point or later. */
  ghost predicate InOrder(subs: map<nat, Sub>, list: seq<nat>) {
    && (forall sid :: sid in list ==> sid in subs)
    && forall i, j :: 0 <= i < j < |list| ==> subs[list[i]].cut <= subs[list[j]].cut
  }

  ghost predicate ListsOk(h: Hub) {
    forall t :: InOrder(h.subs, ListOf(h, t))
  }

  lemma {:induction false} WithoutInOrder(subs: map<nat, Sub>, list: seq<nat>, x: nat)
    requires InOrder(subs, list)
    ensures InOrder(subs, Without(list, x))
    ensures forall y :: y in Without(list, x) ==> y in list
  {
    if list != [] {
      TailInOrder(subs, list);
      if list[0] != x {
        WithoutInOrder(subs, list[1..], x);
        forall y | y in Without(list[1..], x) ensures subs[list[0]].cut <= subs[y].cut {
          var j :| 0 <= j < |list[1..]| && list[1..][j] == y;
          assert list[j + 1] == y;
        }
      }
    }
  }

  lemma TailInOrder(subs: map<nat, Sub>, list: seq<nat>)
    requires InOrder(subs, list) && list != []
    ensures InOrder(subs, list[1..])
  {
  }

  /** The same cuts for the same members. */
  lemma SameCuts(subs: map<nat, Sub>, subs': map<nat, Sub>, list: seq<nat>)
    requires InOrder(subs, list)
    requires forall sid :: sid in list ==> sid in subs' && (sid in subs ==> subs'[sid].cut == subs[sid].cut)
    ensures InOrder(subs', list)
  {
    forall i, j | 0 <= i < j < |list| ensures subs'[list[i]].cut <= subs'[list[j]].cut {
      assert list[i] in list && list[j] in list;
    }
  }

  lemma NotifyInOrder(h: Hub, sid: nat, n: nat)
    requires ListsOk(h) && sid in h.subs
    ensures ListsOk(NotifySub(h, sid, n))
  {
    var h' := NotifySub(h, sid, n);
    forall t ensures InOrder(h'.subs, ListOf(h', t)) {
      assert InOrder(h.subs, ListOf(h, t));
      WithoutInOrder(h.subs, ListOf(h, t), sid);
      SameCuts(h.subs, h'.subs, ListOf(h', t));
    }
  }

  lemma CloseInOrder(h: Hub, t: Topic)
    requires ListsOk(h) && ListOf(h, t) != [] && ListOf(h, t)[0] in h.subs
    ensures ListsOk(CloseFront(h, t))
  {
    var h' := CloseFront(h, t);
    forall x ensures InOrder(h'.subs, ListOf(h', x)) {
      assert InOrder(h.subs, ListOf(h, x));
      if x == t {
        TailInOrder(h.subs, ListOf(h, t));
      }
      SameCuts(h.subs, h'.subs, ListOf(h', x));
    }
  }

  lemma JoinInOrder(h: Hub, sid: nat, cut: nat)
    requires ListsOk(h) && sid in h.subs && !Listed(h, sid)
    requires forall t :: ListOk(h, t)
    requires forall x :: Listed(h, x) ==> h.subs[x].cut <= cut
    ensures ListsOk(JoinList(h, sid, cut))
  {
    var h' := JoinList(h, sid, cut);
    forall t ensures InOrder(h'.subs, ListOf(h', t)) {
      assert InOrder(h.subs, ListOf(h, t)) && ListOk(h, t);
      assert forall x :: x in ListOf(h, t) ==> Listed(h, x);
      SameCuts(h.subs, h'.subs, ListOf(h, t));
    }
  }

  lemma SetSubInOrder(h: Hub, sid: nat, sub: Sub)
    requires ListsOk(h) && (sid in h.subs ==> sub.cut == h.subs[sid].cut)
    ensures ListsOk(SetSub(h, sid, sub))
  {
    var h' := SetSub(h, sid, sub);
    forall t ensures InOrder(h'.subs, ListOf(h', t)) {
      assert InOrder(h.subs, ListOf(h, t));
      SameCuts(h.subs, h'.subs, ListOf(h, t));
    }
  }

  lemma ServiceInOrder(s: State, e: ServiceEvent)
    requires ListsOk(s.hub) && ServiceEnabled(s, e)
    ensures ListsOk(ServiceStep(s, e).hub)
  {
    match e
    case NotifyOne => NotifyInOrder(s.hub, s.service.todo[0], s.service.n);
    case CloseOne(t) => CloseInOrder(s.hub, t);
    case _ =>
  }

  lemma CutsPassed(s: State)
    requires InvDelivery(s)
    ensures forall x :: Listed(s.hub, x) ==> s.hub.subs[x].cut <= Head(s)
  {
    forall x | Listed(s.hub, x) ensures s.hub.subs[x].cut <= Head(s) {
      assert SubInv(s, x);
    }
  }

  lemma ClientInOrder(s: State, e: ClientEvent)
    requires HubOk(s.hub) && InvDelivery(s) && ListsOk(s.hub) && ClientEnabled(s, e)
    ensures ListsOk(ClientStep(s, e).hub)
  {
    match e
    case Check(sid, t) => CheckInOrder(s, sid, t);
    case AddSub =>
      CutsPassed(s);
      JoinInOrder(s.hub, s.hub.subscribing.value, Head(s));
    case Cancel(sid) => SetSubInOrder(s.hub, sid, s.hub.subs[sid].(cancelled := true));
    case Receive(sid) => SetSubInOrder(s.hub, sid, s.hub.subs[sid].(buf := s.hub.subs[sid].buf[1..]));
    case _ =>
  }

  lemma CheckInOrder(s: State, sid: nat, t: Topic)
    requires ListsOk(s.hub) && ClientEnabled(s, Check(sid, t))
    ensures ListsOk(ClientStep(s, Check(sid, t)).hub)
  {
    var h' := ClientStep(s, Check(sid, t)).hub;
    SetSubInOrder(s.hub, sid, h'.subs[sid]);
    forall x ensures InOrder(h'.subs, ListOf(h', x)) {
      assert InOrder(SetSub(s.hub, sid, h'.subs[sid]).subs, ListOf(SetSub(s.hub, sid, h'.subs[sid]), x));
    }
  }

  lemma StepInOrder(s: State, e: Event)
    requires Inv(s) && ListsOk(s.hub) && Enabled(s, e)
    ensures ListsOk(Apply(s, e).hub)
  {
    match e
    case Writer(w) => WriterTouches(s, w);
    case Server(v) => ServiceInOrder(s, v);
    case Client(c) => ClientInOrder(s, c);
    case Watcher(t) => WatchInOrder(s, t);
  }

  lemma WatchInOrder(s: State, e: WatchEvent)
    requires ListsOk(s.hub) && WatchEnabled(s, e)
    ensures ListsOk(WatchStep(s, e).hub)
  {
    WatchTouches(s, e);
    if !e.FirstLookup? {
      WatchConsumes(s, e);
      SetSubInOrder(s.hub, e.sid, WatchStep(s, e).hub.subs[e.sid]);
    }
  }

  lemma {:induction false} RunInOrder(s: State, es: seq<Event>)
    requires Inv(s) && ListsOk(s.hub) && Exec(s, es).Some?
    ensures ListsOk(Exec(s, es).value.hub)
    decreases |es|
  {
    if es != [] {
      StepKeeps(s, es[0]);
      StepInOrder(s, es[0]);
      RunInOrder(Apply(s, es[0]), es[1..]);
    }
  }

  /** In every reachable state each list, and so each round of notifications, is in subscription order. */
  lemma ListsInOrder(s: State, t: Topic, i: nat, j: nat)
    requires Reachable(s) && i < j < |ListOf(s.hub, t)|
    ensures ListOf(s.hub, t)[i] in s.hub.subs && ListOf(s.hub, t)[j] in s.hub.subs
    ensures s.hub.subs[ListOf(s.hub, t)[i]].cut <= s.hub.subs[ListOf(s.hub, t)[j]].cut
  {
    var es :| Exec(START, es) == Some(s);
    StartOk();
    RunInOrder(START, es);
    assert InOrder(s.hub.subs, ListOf(s.hub, t));
  }
}
