/** What each subscriber has been sent, has lost, and may still get. */
module PubSubDelivery {
  import opened Wrappers
  import opened Store
  import opened Cache
  import opened PubSub
  import opened PubSubStore
  import opened PubSubClose

  /** The service goroutine has passed this subscriber for the update in its hand. */
  predicate Passed(v: Service, sid: nat) {
    v.Notifying? && sid !in v.todo
  }

  /** Updates that may still reach a subscriber. */
  function Awaiting(s: State, sid: nat): (r: seq<nat>) {
    if Passed(s.service, sid) then s.queue else Pipe(s)
  }

  /** Everything handed to a subscriber so far lies below this position. */
  function Limit(s: State, sid: nat): (r: nat) {
    if Passed(s.service, sid) then s.service.n + 1 else Head(s)
  }

  /** An update that was queued and concerns the subscriber. */
  predicate Deliverable(log: seq<Attempt>, sub: Sub, n: nat) {
    sub.cut <= n < |log| && log[n].fate == Enqueued && Matches(sub.topic, log[n].u)
  }

  ghost predicate SubOk(log: seq<Attempt>, sub: Sub, limit: nat) {
    && Increasing(sub.sent) && Increasing(sub.lost)
    && (forall n :: n in sub.sent ==> n < limit && n !in sub.lost && Deliverable(log, sub, n))
    && (forall n :: n in sub.lost ==> n < limit && Deliverable(log, sub, n))
    && SlotOk(sub)
  }

  /** Nothing deliverable has gone missing. */
  ghost predicate Covered(log: seq<Attempt>, sub: Sub, awaiting: seq<nat>) {
    forall n :: Deliverable(log, sub, n) ==> n in sub.sent || n in sub.lost || n in awaiting
  }

  ghost predicate SubInv(s: State, sid: nat)
    requires sid in s.hub.subs
  {
    var sub := s.hub.subs[sid];
    && SubOk(s.store.log, sub, Limit(s, sid))
    && (Listed(s.hub, sid) ==> sub.cut <= Head(s) && Covered(s.store.log, sub, Awaiting(s, sid)))
    && (s.hub.subscribing == Some(sid) ==> sub.sent == [] && sub.lost == [])
  }

  ghost predicate InvDelivery(s: State) {
    forall sid :: sid in s.hub.subs ==> SubInv(s, sid)
  }

  // ----- one subscriber -----

  lemma SubGrows(log: seq<Attempt>, log': seq<Attempt>, sub: Sub, limit: nat, limit': nat)
    requires SubOk(log, sub, limit) && log <= log' && limit <= limit'
    ensures SubOk(log', sub, limit')
  {
  }

  lemma CoveredGrows(log: seq<Attempt>, a: Attempt, sub: Sub, awaiting: seq<nat>)
    requires Covered(log, sub, awaiting)
    ensures Covered(log + [a], sub, awaiting + [|log|])
    ensures a.fate != Enqueued ==> Covered(log + [a], sub, awaiting)
  {
    forall n: nat | Deliverable(log + [a], sub, n)
      ensures n in sub.sent || n in sub.lost || n in awaiting + [|log|]
      ensures a.fate != Enqueued ==> n in sub.sent || n in sub.lost || n in awaiting
    {
      if n < |log| {
        assert Deliverable(log, sub, n);
      }
    }
  }

  lemma IncreasingSnoc(s: seq<nat>, n: nat)
    requires Increasing(s) && forall m :: m in s ==> m < n
    ensures Increasing(s + [n])
  {
    var t := s + [n];
    forall i, j | 0 <= i < j < |t| ensures t[i] < t[j] {
      assert s[i] in s;
    }
  }

  lemma VisitKeepsCovered(log: seq<Attempt>, sub: Sub, n: nat, queue: seq<nat>)
    requires Covered(log, sub, [n] + queue) && !sub.cancelled
    ensures Covered(log, Visit(sub, n), queue)
  {
    forall m: nat | Deliverable(log, Visit(sub, n), m)
      ensures m in Visit(sub, n).sent || m in Visit(sub, n).lost || m in queue
    {
      assert Deliverable(log, sub, m);
    }
  }

  lemma SendKeepsSub(log: seq<Attempt>, sub: Sub, n: nat)
    requires SubOk(log, sub, n) && Deliverable(log, sub, n) && sub.buf == []
    ensures SubOk(log, sub.(buf := [n], sent := sub.sent + [n]), n + 1)
  {
    IncreasingSnoc(sub.sent, n);
  }

  lemma LoseKeepsSub(log: seq<Attempt>, sub: Sub, n: nat)
    requires SubOk(log, sub, n) && Deliverable(log, sub, n)
    ensures SubOk(log, sub.(lost := sub.lost + [n]), n + 1)
  {
    IncreasingSnoc(sub.lost, n);
  }

  lemma VisitKeepsSub(log: seq<Attempt>, sub: Sub, n: nat, queue: seq<nat>)
    requires SubOk(log, sub, n) && Deliverable(log, sub, n)
    requires Covered(log, sub, [n] + queue)
    ensures SubOk(log, Visit(sub, n), n + 1)
    ensures !sub.cancelled ==> Covered(log, Visit(sub, n), queue)
  {
    if !sub.cancelled {
      VisitKeepsCovered(log, sub, n, queue);
      if sub.buf == [] {
        SendKeepsSub(log, sub, n);
      } else {
        LoseKeepsSub(log, sub, n);
      }
    }
  }

  // ----- writers -----

  lemma AnnounceKeepsSub(s: State, s': State, a: Attempt, sid: nat)
    requires PipeOk(Pipe(s), s.store.log) && sid in s.hub.subs && SubInv(s, sid)
    requires s'.hub == s.hub && s'.service == s.service && s'.store.log == s.store.log + [a]
    requires s'.queue == if a.fate == Enqueued then s.queue + [|s.store.log|] else s.queue
    ensures SubInv(s', sid)
  {
    var sub := s.hub.subs[sid];
    assert Head(s) <= Head(s');
    SubGrows(s.store.log, s'.store.log, sub, Limit(s, sid), Limit(s', sid));
    if Listed(s.hub, sid) {
      CoveredGrows(s.store.log, a, sub, Awaiting(s, sid));
      assert a.fate == Enqueued ==> Awaiting(s', sid) == Awaiting(s, sid) + [|s.store.log|];
    }
  }

  lemma BeginKeepsSub(s: State, p: Pending, discard: bool, sid: nat)
    requires InvQueue(s) && sid in s.hub.subs && SubInv(s, sid)
    ensures SubInv(Begin(s, p, discard), sid)
  {
    if Announces(Find(s.store.jobs, p.key), p.input) {
      AnnounceKeepsSub(s, Begin(s, p, discard), Attempt(p.key, UpdateOf(p.input), FateOf(s, discard)), sid);
    }
  }

  lemma WriterKeepsSub(s: State, e: WriterEvent, sid: nat)
    requires InvQueue(s) && WriterEnabled(s, e) && sid in s.hub.subs && SubInv(s, sid)
    ensures SubInv(WriterStep(s, e), sid)
  {
    match e
    case BeginAdd(job, now, discard) => BeginKeepsSub(s, Pending(job.id, job, now), discard, sid);
    case BeginUpdate(_, key, result, now, discard) =>
      BeginKeepsSub(s, Pending(key, result, now), discard, sid);
    case CommitWrite => SameLogKeepsSub(s, s.(store := Complete(s.store)), sid);
    case Delete(key) => SameLogKeepsSub(s, s.(store := s.store.(jobs := s.store.jobs - {key})), sid);
  }

  lemma SameLogKeepsSub(s: State, s': State, sid: nat)
    requires sid in s.hub.subs && SubInv(s, sid)
    requires s'.hub == s.hub && s'.service == s.service && s'.queue == s.queue && s'.store.log == s.store.log
    ensures SubInv(s', sid)
  {
  }

  lemma WriterKeepsDelivery(s: State, e: WriterEvent)
    requires InvQueue(s) && InvDelivery(s) && WriterEnabled(s, e)
    ensures InvDelivery(WriterStep(s, e))
  {
    WriterTouches(s, e);
    forall sid | sid in s.hub.subs ensures SubInv(WriterStep(s, e), sid) {
      WriterKeepsSub(s, e, sid);
    }
  }

  // ----- the service goroutine -----

  lemma StartNotifyKeepsSub(s: State, sid: nat)
    requires InvClose(s) && ServiceEnabled(s, StartNotify)
    requires sid in s.hub.subs && SubInv(s, sid)
    ensures SubInv(ServiceStep(s, StartNotify), sid)
  {
    var s' := ServiceStep(s, StartNotify);
    var n, sub := s.service.n, s.hub.subs[sid];
    AudienceOk(s.hub, s.store.log[n].u);
    assert Pipe(s') == Pipe(s) == [n] + s.queue;
    if Listed(s.hub, sid) && Passed(s'.service, sid) {
      forall m: nat | Deliverable(s.store.log, sub, m)
        ensures m in sub.sent || m in sub.lost || m in s.queue
      {
        assert m in [n] + s.queue ==> m == n || m in s.queue;
      }
    }
  }

  lemma NotifyOneKeepsSub(s: State, sid: nat)
    requires InvQueue(s) && InvClose(s) && ServiceEnabled(s, NotifyOne)
    requires sid in s.hub.subs && SubInv(s, sid)
    ensures SubInv(ServiceStep(s, NotifyOne), sid)
  {
    var s' := ServiceStep(s, NotifyOne);
    var n, front := s.service.n, s.service.todo[0];
    TailRemoves(s.service.todo);
    NotifyKeepsHub(s.hub, front, n);
    assert Pipe(s') == Pipe(s) == [n] + s.queue && Head(s') == Head(s) == n;
    if sid == front {
      assert n in Pipe(s);
      VisitKeepsSub(s.store.log, s.hub.subs[sid], n, s.queue);
      CancelledLeaves(s.hub, sid, n);
    } else {
      assert Passed(s'.service, sid) == Passed(s.service, sid);
    }
  }

  lemma CancelledLeaves(h: Hub, sid: nat, n: nat)
    requires HubOk(h) && Listed(h, sid)
    ensures h.subs[sid].cancelled ==> !Listed(NotifySub(h, sid, n), sid)
  {
    assert ListOk(h, h.subs[sid].topic);
    WithoutRemoves(ListOf(h, h.subs[sid].topic), sid);
  }

  lemma EndNotifyAdvances(s: State)
    requires InvQueue(s) && ServiceEnabled(s, EndNotify)
    ensures s.service.n + 1 <= Head(ServiceStep(s, EndNotify)) && Head(s) == s.service.n
  {
    var pipe := [s.service.n] + s.queue;
    PipeAdvances(pipe, s.store.log);
    assert pipe[1..] == s.queue;
    assert Pipe(ServiceStep(s, EndNotify)) == s.queue;
  }

  lemma EndNotifyKeepsSub(s: State, sid: nat)
    requires ServiceEnabled(s, EndNotify)
    requires s.service.n + 1 <= Head(ServiceStep(s, EndNotify)) && Head(s) == s.service.n
    requires sid in s.hub.subs && SubInv(s, sid)
    ensures SubInv(ServiceStep(s, EndNotify), sid)
  {
    var s' := ServiceStep(s, EndNotify);
    assert Awaiting(s, sid) == s.queue == Awaiting(s', sid);
    SubGrows(s.store.log, s.store.log, s.hub.subs[sid], Limit(s, sid), Limit(s', sid));
  }

  lemma CloseOneKeepsSub(s: State, t: Topic, sid: nat)
    requires InvClose(s) && ServiceEnabled(s, CloseOne(t))
    requires sid in s.hub.subs && SubInv(s, sid)
    ensures SubInv(ServiceStep(s, CloseOne(t)), sid)
  {
    var s' := ServiceStep(s, CloseOne(t));
    assert ListOk(s.hub, t);
    CloseKeepsHub(s.hub, t);
    TailRemoves(ListOf(s.hub, t));
    assert Pipe(s') == Pipe(s);
  }

  lemma ServiceKeepsSub(s: State, e: ServiceEvent, sid: nat)
    requires InvQueue(s) && InvClose(s) && ServiceEnabled(s, e)
    requires sid in s.hub.subs && SubInv(s, sid)
    ensures sid in ServiceStep(s, e).hub.subs && SubInv(ServiceStep(s, e), sid)
  {
    match e
    case StartNotify => StartNotifyKeepsSub(s, sid);
    case NotifyOne => NotifyOneKeepsSub(s, sid);
    case EndNotify =>
      EndNotifyAdvances(s);
      EndNotifyKeepsSub(s, sid);
    case CloseOne(t) => CloseOneKeepsSub(s, t, sid);
    case _ => assert Pipe(ServiceStep(s, e)) == Pipe(s);
  }

  lemma ServiceKeepsDelivery(s: State, e: ServiceEvent)
    requires InvQueue(s) && InvClose(s) && InvDelivery(s) && ServiceEnabled(s, e)
    ensures InvDelivery(ServiceStep(s, e))
  {
    assert ServiceStep(s, e).hub.subs.Keys == s.hub.subs.Keys;
    forall sid | sid in s.hub.subs
      ensures sid in ServiceStep(s, e).hub.subs && SubInv(ServiceStep(s, e), sid)
    {
      ServiceKeepsSub(s, e, sid);
    }
  }

  // ----- subscribers and watchers -----

  /** A change of the cancel flag, or of the buffer by a receive. */
  predicate Consumes(sub: Sub, sub': Sub) {
    sub' == sub.(cancelled := sub'.cancelled, buf := sub'.buf) &&
    (sub'.buf == sub.buf || (sub.buf != [] && sub'.buf == sub.buf[1..]))
  }

  lemma ConsumeKeepsSub(log: seq<Attempt>, sub: Sub, sub': Sub, limit: nat, awaiting: seq<nat>)
    requires SubOk(log, sub, limit) && Consumes(sub, sub')
    ensures SubOk(log, sub', limit)
    ensures Covered(log, sub, awaiting) ==> Covered(log, sub', awaiting)
  {
    forall n: nat | Deliverable(log, sub', n) ensures Deliverable(log, sub, n) {
    }
  }

  lemma SetSubKeepsDelivery(s: State, sid: nat, sub': Sub)
    requires InvDelivery(s) && HubOk(s.hub) && sid in s.hub.subs && Consumes(s.hub.subs[sid], sub')
    ensures InvDelivery(s.(hub := SetSub(s.hub, sid, sub')))
  {
    var s' := s.(hub := SetSub(s.hub, sid, sub'));
    SetSubKeepsHub(s.hub, sid, sub');
    forall x | x in s'.hub.subs ensures SubInv(s', x) {
      assert SubInv(s, x);
      assert Limit(s', x) == Limit(s, x) && Awaiting(s', x) == Awaiting(s, x) && Head(s') == Head(s);
      if x == sid {
        ConsumeKeepsSub(s.store.log, s.hub.subs[sid], sub', Limit(s, sid), Awaiting(s, sid));
      }
    }
  }

  lemma CheckKeepsOtherSub(s: State, sid: nat, t: Topic, x: nat)
    requires ClientEnabled(s, Check(sid, t)) && x in s.hub.subs && SubInv(s, x)
    ensures SubInv(ClientStep(s, Check(sid, t)), x)
  {
    var s' := ClientStep(s, Check(sid, t));
    assert s'.hub.subs[x] == s.hub.subs[x] && s'.hub.lists == s.hub.lists;
    assert Pipe(s') == Pipe(s) && s'.store == s.store && s'.service == s.service;
  }

  lemma CheckKeepsNewSub(s: State, sid: nat, t: Topic)
    requires ListOk(s.hub, t) && ClientEnabled(s, Check(sid, t))
    ensures SubInv(ClientStep(s, Check(sid, t)), sid)
  {
    var s' := ClientStep(s, Check(sid, t));
    assert s'.hub.subs[sid] == FreshSub(t, !s.stop, |s.store.log|) && !Listed(s'.hub, sid);
  }

  lemma CheckKeepsDelivery(s: State, sid: nat, t: Topic)
    requires InvDelivery(s) && HubOk(s.hub) && ClientEnabled(s, Check(sid, t))
    ensures InvDelivery(ClientStep(s, Check(sid, t)))
  {
    CheckKeepsNewSub(s, sid, t);
    forall x | x in ClientStep(s, Check(sid, t)).hub.subs ensures SubInv(ClientStep(s, Check(sid, t)), x) {
      if x != sid {
        CheckKeepsOtherSub(s, sid, t, x);
      }
    }
  }

  /** A new subscriber's cut is the head of the pipe, so all that it may get is still in there. */
  lemma AddKeepsNewSub(s: State, sid: nat)
    requires InvQueue(s) && InvClose(s) && s.hub.subscribing == Some(sid) && SubInv(s, sid)
    ensures SubInv(ClientStep(s, AddSub), sid)
  {
    var s' := ClientStep(s, AddSub);
    assert Pipe(s') == Pipe(s) && s'.service == s.service;
    forall n: nat | Deliverable(s'.store.log, s'.hub.subs[sid], n) ensures n in Awaiting(s', sid) {
      assert n in Pipe(s);
    }
  }

  lemma AddKeepsOtherSub(s: State, sid: nat)
    requires InvClose(s) && ClientEnabled(s, AddSub)
    requires sid in s.hub.subs && s.hub.subscribing != Some(sid) && SubInv(s, sid)
    ensures SubInv(ClientStep(s, AddSub), sid)
  {
    var s' := ClientStep(s, AddSub);
    assert Pipe(s') == Pipe(s) && s'.service == s.service;
    assert Listed(s'.hub, sid) <==> Listed(s.hub, sid);
  }

  lemma AddKeepsDelivery(s: State)
    requires InvQueue(s) && InvDelivery(s) && InvClose(s) && ClientEnabled(s, AddSub)
    ensures InvDelivery(ClientStep(s, AddSub))
  {
    forall x | x in s.hub.subs ensures SubInv(ClientStep(s, AddSub), x) {
      if s.hub.subscribing == Some(x) {
        AddKeepsNewSub(s, x);
      } else {
        AddKeepsOtherSub(s, x);
      }
    }
  }

  lemma ClientKeepsDelivery(s: State, e: ClientEvent)
    requires InvQueue(s) && InvDelivery(s) && InvClose(s) && ClientEnabled(s, e)
    ensures InvDelivery(ClientStep(s, e))
  {
    match e
    case Check(sid, t) => CheckKeepsDelivery(s, sid, t);
    case AddSub => AddKeepsDelivery(s);
    case Cancel(sid) => SetSubKeepsDelivery(s, sid, s.hub.subs[sid].(cancelled := true));
    case Receive(sid) => SetSubKeepsDelivery(s, sid, s.hub.subs[sid].(buf := s.hub.subs[sid].buf[1..]));
    case _ =>
      forall x | x in s.hub.subs ensures SubInv(ClientStep(s, e), x) {
        assert SubInv(s, x);
      }
  }

  lemma WatchConsumes(s: State, e: WatchEvent)
    requires WatchEnabled(s, e) && !e.FirstLookup?
    ensures e.sid in WatchStep(s, e).hub.subs && Consumes(s.hub.subs[e.sid], WatchStep(s, e).hub.subs[e.sid])
  {
  }

  lemma WatchKeepsDelivery(s: State, e: WatchEvent)
    requires InvDelivery(s) && InvClose(s) && WatchEnabled(s, e)
    ensures InvDelivery(WatchStep(s, e))
  {
    WatchTouches(s, e);
    var s' := WatchStep(s, e);
    var t := s.(hub := s'.hub);
    if !e.FirstLookup? {
      WatchConsumes(s, e);
      SetSubKeepsDelivery(s, e.sid, s'.hub.subs[e.sid]);
    }
    forall x | x in s'.hub.subs ensures SubInv(s', x) {
      SameLogKeepsSub(t, s', x);
    }
  }
}
