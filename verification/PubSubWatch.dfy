/** RunningJobContext: what its watcher knows. */
module PubSubWatch {
  import opened Wrappers
  import opened Jobs
  import opened PubSub
  import opened PubSubStore
  import opened PubSubClose

  /** What has been taken out of a channel so far. */
  function Taken(sub: Sub): (r: seq<nat>) {
    if |sub.buf| <= |sub.sent| then sub.sent[..|sub.sent| - |sub.buf|] else []
  }

  /** A job that was running at the mark and is terminal now has been committed since. */
  predicate SeenRunning(l: Ledger, id: string, mark: nat) {
    mark <= |l.commits| &&
    (id in l.jobs && id in l.last && l.last[id] < mark ==> !Terminal(l.jobs[id].status))
  }

  ghost predicate NoneTerminal(log: seq<Attempt>, taken: seq<nat>) {
    forall n :: n in taken ==> n < |log| && !Terminal(log[n].u.status)
  }

  ghost predicate WatchOk(l: Ledger, h: Hub, sid: nat, w: Watch) {
    match w
    case Looked(_, id) =>
      sid in h.subs ==>
        h.subs[sid].topic == ById(id) && h.subs[sid].cut <= |l.log| && Taken(h.subs[sid]) == []
    case Watching(_, id, mark) =>
      && sid in h.subs && h.subs[sid].topic == ById(id) && h.subs[sid].cut <= mark
      && h.subscribing != Some(sid)
      && SeenRunning(l, id, mark)
      && NoneTerminal(l.log, Taken(h.subs[sid]))
    case Ended => sid in h.subs && h.subs[sid].cancelled
  }

  ghost predicate InvWatch(s: State) {
    forall sid :: sid in s.watches ==> WatchOk(s.store, s.hub, sid, s.watches[sid])
  }

  // ----- writers -----

  lemma CommitKeepsSeen(l: Ledger, id: string, mark: nat)
    requires l.writer.Some? && SeenRunning(l, id, mark)
    ensures SeenRunning(Complete(l), id, mark)
  {
  }

  lemma WriterKeepsSeen(s: State, e: WriterEvent, id: string, mark: nat)
    requires WriterEnabled(s, e) && SeenRunning(s.store, id, mark)
    ensures SeenRunning(WriterStep(s, e).store, id, mark)
  {
    if e.CommitWrite? {
      CommitKeepsSeen(s.store, id, mark);
    }
  }

  lemma WriterKeepsWatch(s: State, e: WriterEvent)
    requires InvWatch(s) && WriterEnabled(s, e)
    ensures InvWatch(WriterStep(s, e))
  {
    WriterTouches(s, e);
    var s' := WriterStep(s, e);
    forall sid | sid in s.watches ensures WatchOk(s'.store, s'.hub, sid, s.watches[sid]) {
      var w := s.watches[sid];
      if w.Watching? {
        WriterKeepsSeen(s, e, w.id, w.mark);
      }
    }
  }

  // ----- the service goroutine -----

  /** Topic, cut and what was taken stay the same, and a cancelled context stays cancelled. */
  predicate SameView(sub: Sub, sub': Sub) {
    sub'.topic == sub.topic && sub'.cut == sub.cut && Taken(sub') == Taken(sub) && (sub.cancelled ==> sub'.cancelled)
  }

  lemma VisitSameView(sub: Sub, n: nat)
    requires SlotOk(sub)
    ensures SameView(sub, Visit(sub, n))
  {
  }

  ghost predicate SlotsOk(h: Hub) {
    forall sid :: sid in h.subs ==> SlotOk(h.subs[sid])
  }

  lemma ServiceSameView(s: State, e: ServiceEvent, sid: nat)
    requires SlotsOk(s.hub) && ServiceEnabled(s, e) && sid in s.hub.subs
    ensures var s' := ServiceStep(s, e);
            && s'.store == s.store && s'.watches == s.watches
            && s'.hub.subscribing == s.hub.subscribing
            && sid in s'.hub.subs && SameView(s.hub.subs[sid], s'.hub.subs[sid])
  {
    if e.NotifyOne? {
      VisitSameView(s.hub.subs[s.service.todo[0]], s.service.n);
    }
  }

  lemma ServiceKeepsWatch(s: State, e: ServiceEvent)
    requires SlotsOk(s.hub) && InvWatch(s) && ServiceEnabled(s, e)
    ensures InvWatch(ServiceStep(s, e))
  {
    var s' := ServiceStep(s, e);
    assert s'.watches == s.watches && s'.hub.subs.Keys == s.hub.subs.Keys;
    forall sid | sid in s.watches ensures WatchOk(s'.store, s'.hub, sid, s.watches[sid]) {
      assert WatchOk(s.store, s.hub, sid, s.watches[sid]);
      if sid in s.hub.subs {
        ServiceSameView(s, e, sid);
      } else {
        assert s'.store == s.store;
      }
    }
  }

  // ----- subscribers -----

  lemma ClientKeepsOne(s: State, e: ClientEvent, sid: nat)
    requires ClientEnabled(s, e) && Head(s) <= |s.store.log|
    requires sid in s.watches && WatchOk(s.store, s.hub, sid, s.watches[sid])
    ensures var s' := ClientStep(s, e);
            s'.watches == s.watches && WatchOk(s'.store, s'.hub, sid, s'.watches[sid])
  {
    match e
    case Cancel(x) => assert SameView(s.hub.subs[x], ClientStep(s, e).hub.subs[x]);
    case _ =>
  }

  lemma ClientKeepsWatch(s: State, e: ClientEvent)
    requires InvQueue(s) && InvWatch(s) && ClientEnabled(s, e)
    ensures InvWatch(ClientStep(s, e))
  {
    assert Head(s) <= |s.store.log| by {
      assert Pipe(s) != [] ==> Pipe(s)[0] in Pipe(s);
    }
    var s' := ClientStep(s, e);
    forall sid | sid in s'.watches ensures WatchOk(s'.store, s'.hub, sid, s'.watches[sid]) {
      ClientKeepsOne(s, e, sid);
    }
  }

  // ----- watchers -----

  /** A watcher's action leaves the other watchers and their subscriptions alone. */
  lemma WatchLeavesOthers(s: State, e: WatchEvent, x: nat)
    requires WatchEnabled(s, e) && x != e.sid && x in s.watches
    requires WatchOk(s.store, s.hub, x, s.watches[x])
    ensures var s' := WatchStep(s, e);
            x in s'.watches && s'.watches[x] == s.watches[x] && WatchOk(s'.store, s'.hub, x, s'.watches[x])
  {
    WatchTouches(s, e);
  }

  lemma ReceiveKeepsOwn(s: State, sid: nat)
    requires WatchEnabled(s, WatchReceive(sid)) && WatchOk(s.store, s.hub, sid, s.watches[sid])
    requires SlotOk(s.hub.subs[sid])
    ensures var s' := WatchStep(s, WatchReceive(sid)); WatchOk(s'.store, s'.hub, sid, s'.watches[sid])
  {
    var sub := s.hub.subs[sid];
    var sub' := WatchStep(s, WatchReceive(sid)).hub.subs[sid];
    assert Taken(sub') == Taken(sub) + [sub.buf[0]];
  }

  lemma WatchKeepsOwn(s: State, e: WatchEvent)
    requires InvStore(s.store) && WatchEnabled(s, e)
    requires e.sid in s.watches ==> WatchOk(s.store, s.hub, e.sid, s.watches[e.sid])
    requires e.WatchReceive? ==> SlotOk(s.hub.subs[e.sid])
    ensures var s' := WatchStep(s, e); WatchOk(s'.store, s'.hub, e.sid, s'.watches[e.sid])
  {
    if e.WatchReceive? {
      ReceiveKeepsOwn(s, e.sid);
    }
  }

  lemma WatchKeepsWatch(s: State, e: WatchEvent)
    requires InvStore(s.store) && InvWatch(s) && WatchEnabled(s, e)
    requires e.WatchReceive? ==> SlotOk(s.hub.subs[e.sid])
    ensures InvWatch(WatchStep(s, e))
  {
    var s' := WatchStep(s, e);
    WatchKeepsOwn(s, e);
    forall x | x in s'.watches ensures WatchOk(s'.store, s'.hub, x, s'.watches[x]) {
      if x != e.sid {
        assert x in s.watches;
        WatchLeavesOthers(s, e, x);
      }
    }
  }
}
