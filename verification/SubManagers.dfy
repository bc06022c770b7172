/**
 * The loops over one subscriber list (cache/cache.go, subManager), and the proof that a
 * processUpdate that nobody interrupts is the run of the machine's single notifications.
 */
module SubManagers {
  import opened Wrappers
  import opened PubSub
  import opened PubSubClose

  // ----- what the loops compute -----

  /** Everyone in the list is known. */
  ghost predicate Known(subs: map<nat, Sub>, list: seq<nat>) {
    forall sid :: sid in list ==> sid in subs
  }

  /** Those whose context is live, in list order. */
  function Survivors(subs: map<nat, Sub>, list: seq<nat>): (r: seq<nat>)
    requires Known(subs, list)
  {
    if list == [] then []
    else (if subs[list[0]].cancelled then [] else [list[0]]) + Survivors(subs, list[1..])
  }

  /** How many of them have room in their channel, or have none. */
  function Count(subs: map<nat, Sub>, list: seq<nat>, room: bool): (r: nat)
    requires Known(subs, list)
  {
    if list == [] then 0
    else (if !subs[list[0]].cancelled && (subs[list[0]].buf == []) == room then 1 else 0) +
         Count(subs, list[1..], room)
  }

  /** Every channel of the list after one pass. */
  ghost function Visited(subs: map<nat, Sub>, list: seq<nat>, n: nat): map<nat, Sub> {
    map sid | sid in subs :: if sid in list then Visit(subs[sid], n) else subs[sid]
  }

  ghost function AllClosed(subs: map<nat, Sub>, list: seq<nat>): map<nat, Sub> {
    map sid | sid in subs :: if sid in list then subs[sid].(closed := true, open := false) else subs[sid]
  }

  /** Every live subscriber is either notified or skipped. */
  lemma {:induction false} CountsAddUp(subs: map<nat, Sub>, list: seq<nat>)
    requires Known(subs, list)
    ensures Count(subs, list, true) + Count(subs, list, false) == |Survivors(subs, list)|
  {
    if list != [] {
      CountsAddUp(subs, list[1..]);
    }
  }

  /** Those of the list whose history of what was sent, or lost, grows in one pass. */
  ghost function Grown(subs: map<nat, Sub>, list: seq<nat>, n: nat, room: bool): set<nat>
    requires Known(subs, list)
  {
    set sid | sid in list &&
      if room then Visit(subs[sid], n).sent != subs[sid].sent else Visit(subs[sid], n).lost != subs[sid].lost
  }

  lemma VisitGrows(sub: Sub, n: nat)
    ensures Visit(sub, n).sent != sub.sent <==> !sub.cancelled && sub.buf == []
    ensures Visit(sub, n).lost != sub.lost <==> !sub.cancelled && sub.buf != []
  {
    assert |sub.sent + [n]| > |sub.sent| && |sub.lost + [n]| > |sub.lost|;
  }

  lemma GrownHead(subs: map<nat, Sub>, list: seq<nat>, n: nat, room: bool)
    requires Known(subs, list) && Distinct(list) && list != []
    ensures Known(subs, list[1..]) && list[0] !in Grown(subs, list[1..], n, room)
    ensures Grown(subs, list, n, room) ==
            Grown(subs, list[1..], n, room) +
            if !subs[list[0]].cancelled && (subs[list[0]].buf == []) == room then {list[0]} else {}
  {
    assert list == [list[0]] + list[1..];
    VisitGrows(subs[list[0]], n);
  }

  /** The counts are the numbers of subscribers that were sent the update, and that lost it. */
  lemma {:induction false} CountsExactly(subs: map<nat, Sub>, list: seq<nat>, n: nat, room: bool)
    requires Known(subs, list) && Distinct(list)
    ensures Count(subs, list, room) == |Grown(subs, list, n, room)|
  {
    if list != [] {
      GrownHead(subs, list, n, room);
      CountsExactly(subs, list[1..], n, room);
    }
  }

  lemma {:induction false} SurvivorsSnoc(subs: map<nat, Sub>, list: seq<nat>, x: nat)
    requires Known(subs, list) && x in subs
    ensures Survivors(subs, list + [x]) == Survivors(subs, list) + if subs[x].cancelled then [] else [x]
  {
    ConcatTail(list, [x]);
    if list != [] {
      SurvivorsSnoc(subs, list[1..], x);
      Assoc(if subs[list[0]].cancelled then [] else [list[0]], Survivors(subs, list[1..]),
            if subs[x].cancelled then [] else [x]);
    }
  }

  lemma {:induction false} CountSnoc(subs: map<nat, Sub>, list: seq<nat>, x: nat, room: bool)
    requires Known(subs, list) && x in subs
    ensures Count(subs, list + [x], room) ==
            Count(subs, list, room) + if !subs[x].cancelled && (subs[x].buf == []) == room then 1 else 0
  {
    ConcatTail(list, [x]);
    if list != [] {
      CountSnoc(subs, list[1..], x, room);
    }
  }

  lemma VisitedSnoc(subs: map<nat, Sub>, list: seq<nat>, x: nat, n: nat)
    requires x in subs && x !in list
    ensures Visited(subs, list, n)[x] == subs[x]
    ensures Visited(subs, list + [x], n) == Visited(subs, list, n)[x := Visit(subs[x], n)]
  {
  }

  lemma {:induction false} SurvivorsAreLive(subs: map<nat, Sub>, list: seq<nat>)
    requires Known(subs, list)
    ensures forall x :: x in Survivors(subs, list) <==> x in list && !subs[x].cancelled
  {
    if list != [] {
      SurvivorsAreLive(subs, list[1..]);
      assert list == [list[0]] + list[1..];
    }
  }

  lemma SliceStep(s: seq<nat>, i: nat)
    requires i < |s|
    ensures RemoveAt(s, i)[i..] == s[i..][1..] && RemoveAt(s, i)[..i] == s[..i]
    ensures s[i + 1..] == s[i..][1..] && s[..i + 1] == s[..i] + [s[i]]
  {
  }

  ghost predicate ListValid(table: map<nat, Sub>, subs: seq<nat>) {
    && Distinct(subs) && Known(table, subs)
    && forall sid :: sid in subs ==> table[sid].open && !table[sid].closed
  }

  /** The Notify loop when it has dealt with `done` and stands at position i of the list. */
  ghost predicate Halfway(table: map<nat, Sub>, list: seq<nat>, n: nat, done: seq<nat>, subs: seq<nat>, i: nat,
                          now: map<nat, Sub>, notified: nat, dropped: nat) {
    && Known(table, done) && i <= |subs| && list == done + subs[i..]
    && subs[..i] == Survivors(table, done) && now == Visited(table, done, n)
    && notified == Count(table, done, true) && dropped == Count(table, done, false)
  }

  /** One round: the subscriber is visited, and kept and counted unless it is cancelled. */
  lemma Round(table: map<nat, Sub>, list: seq<nat>, n: nat, done: seq<nat>, subs: seq<nat>, i: nat,
              now: map<nat, Sub>, notified: nat, dropped: nat)
    requires Halfway(table, list, n, done, subs, i, now, notified, dropped)
    requires i < |subs| && Distinct(list) && Known(table, list)
    ensures subs[i] in table && subs[i] in now && now[subs[i]] == table[subs[i]]
    ensures var sid, sub := subs[i], table[subs[i]];
            Halfway(table, list, n, done + [sid],
                    if sub.cancelled then RemoveAt(subs, i) else subs,
                    if sub.cancelled then i else i + 1,
                    now[sid := Visit(sub, n)],
                    if !sub.cancelled && sub.buf == [] then notified + 1 else notified,
                    if !sub.cancelled && sub.buf != [] then dropped + 1 else dropped)
  {
    var sid := subs[i];
    SplitStep(list, done, subs[i..]);
    assert list[|done|] == sid && sid in list;
    VisitedSnoc(table, done, sid, n);
    SurvivorsSnoc(table, done, sid);
    CountSnoc(table, done, sid, true);
    CountSnoc(table, done, sid, false);
    SliceStep(subs, i);
  }

  /** What the loop leaves behind. */
  lemma AllDone(table: map<nat, Sub>, list: seq<nat>, n: nat, done: seq<nat>, subs: seq<nat>, i: nat,
                now: map<nat, Sub>, notified: nat, dropped: nat)
    requires Halfway(table, list, n, done, subs, i, now, notified, dropped) && i == |subs|
    requires ListValid(table, list)
    ensures done == list && subs == Survivors(table, list) && ListValid(now, subs)
  {
    assert subs[..i] == subs && subs[i..] == [];
    SurvivorsAreLive(table, list);
    SurvivorsDistinct(table, list);
  }

  lemma SplitStep(list: seq<nat>, done: seq<nat>, rest: seq<nat>)
    requires list == done + rest && rest != [] && Distinct(list)
    ensures rest[0] !in done && list == (done + [rest[0]]) + rest[1..]
  {
    assert list[|done|] == rest[0];
    assert forall i :: 0 <= i < |done| ==> done[i] == list[i];
  }

  /** The channels that the lists lead to; the consumers hold them too. */
  class Channels {
    var table: map<nat, Sub>
    var panicked: bool

    constructor ()
      ensures table == map[] && !panicked
    {
      table, panicked := map[], false;
    }

    /** A Go close: closing a closed channel panics. */
    method CloseChannel(sid: nat)
      requires sid in table
      modifies this
      ensures table == old(table)[sid := old(table)[sid].(open := false)]
      ensures panicked == (old(panicked) || !old(table)[sid].open)
    {
      panicked := panicked || !table[sid].open;
      table := table[sid := table[sid].(open := false)];
    }

    /** A Go select with a default: send if the one-slot buffer has room; a closed channel panics. */
    method TrySend(sid: nat, n: nat) returns (sent: bool)
      requires sid in table
      modifies this
      ensures sent == (old(table)[sid].buf == [])
      ensures table == old(table)[sid := if sent then old(table)[sid].(buf := [n], sent := old(table)[sid].sent + [n])
                                         else old(table)[sid].(lost := old(table)[sid].lost + [n])]
      ensures panicked == (old(panicked) || !old(table)[sid].open)
    {
      panicked := panicked || !table[sid].open;
      var sub := table[sid];
      sent := |sub.buf| < 1;
      table := table[sid := if sent then sub.(buf := [n], sent := sub.sent + [n])
                            else sub.(lost := sub.lost + [n])];
    }
  }

  class SubManager {
    var subs: seq<nat>

    constructor ()
      ensures subs == []
    {
      subs := [];
    }

    /** Every listed subscriber has an open channel and is not marked closed; nobody is listed twice. */
    ghost predicate Valid(ch: Channels)
      reads this, ch
    {
      ListValid(ch.table, subs) && !ch.panicked
    }

    /** A new open channel keeps the list valid. */
    method Subscribe(sid: nat, ch: Channels)
      modifies this
      ensures subs == old(subs) + [sid]
      ensures (old(Valid(ch)) && sid !in old(subs) && sid in ch.table && ch.table[sid].open &&
               !ch.table[sid].closed) ==> Valid(ch)
    {
      subs := subs + [sid];
    }

    /** One round of the loop: the subscriber at position i. */
    method NotifyAt(i: nat, n: nat, ch: Channels) returns (removed: bool, sent: bool)
      requires i < |subs| && subs[i] in ch.table && ch.table[subs[i]].open && !ch.panicked
      modifies this, ch
      ensures var sid, sub := old(subs[i]), old(ch.table[subs[i]]);
              && ch.table == old(ch.table)[sid := Visit(sub, n)] && !ch.panicked
              && removed == sub.cancelled
              && subs == (if removed then RemoveAt(old(subs), i) else old(subs))
              && sent == (!sub.cancelled && sub.buf == [])
    {
      var sid := subs[i];
      removed, sent := ch.table[sid].cancelled, false;
      if removed {
        ch.table := ch.table[sid := ch.table[sid].(closed := true)];
        ch.CloseChannel(sid);
        subs := RemoveAt(subs, i);
      } else {
        sent := ch.TrySend(sid, n);
      }
    }

    /** Send to every live subscriber with room, skip full ones, close and drop cancelled ones. */
    method Notify(n: nat, ch: Channels) returns (notified: nat, dropped: nat)
      requires Valid(ch)
      modifies this, ch
      ensures Valid(ch)
      ensures subs == Survivors(old(ch.table), old(subs))
      ensures ch.table == Visited(old(ch.table), old(subs), n)
      ensures notified == Count(old(ch.table), old(subs), true)
      ensures dropped == Count(old(ch.table), old(subs), false)
    {
      notified, dropped := 0, 0;
      ghost var list, table, done := subs, ch.table, [];
      var i := 0;
      while i < |subs|
        invariant Halfway(table, list, n, done, subs, i, ch.table, notified, dropped) && !ch.panicked
        decreases |subs| - i
      {
        ghost var sid := subs[i];
        Round(table, list, n, done, subs, i, ch.table, notified, dropped);
        var removed, sent := NotifyAt(i, n, ch);
        if !removed {
          i := i + 1;
          if sent {
            notified := notified + 1;
          } else {
            dropped := dropped + 1;
          }
        }
        done := done + [sid];
      }
      AllDone(table, list, n, done, subs, i, ch.table, notified, dropped);
    }

    /** Empty the list, closing every channel in it; the guard on `closed` never skips one. */
    method Close(ch: Channels) returns (closed: nat)
      requires Valid(ch)
      modifies this, ch
      ensures Valid(ch) && subs == []
      ensures ch.table == AllClosed(old(ch.table), old(subs))
      ensures closed == |old(subs)|
    {
      closed := 0;
      ghost var list, table := subs, ch.table;
      while subs != []
        invariant closed <= |list| && subs == list[closed..]
        invariant ch.table == AllClosed(table, list[..closed]) && !ch.panicked
        decreases |subs|
      {
        var sid := subs[0];
        assert list[..closed + 1] == list[..closed] + [sid];
        assert sid !in list[..closed];
        subs := subs[1..];
        if !ch.table[sid].closed {
          ch.table := ch.table[sid := ch.table[sid].(closed := true)];
          ch.CloseChannel(sid);
          closed := closed + 1;
        }
        assert ch.table == AllClosed(table, list[..closed]);
      }
      assert list[..closed] == list;
    }
  }

  lemma {:induction false} SurvivorsDistinct(subs: map<nat, Sub>, list: seq<nat>)
    requires Known(subs, list) && Distinct(list)
    ensures Distinct(Survivors(subs, list))
  {
    if list != [] {
      SurvivorsDistinct(subs, list[1..]);
      SurvivorsAreLive(subs, list[1..]);
    }
  }

  // ----- an uninterrupted processUpdate -----

  /** The hub after notifying a whole list of subscribers in turn. */
  ghost function NotifyAll(h: Hub, todo: seq<nat>, n: nat): Hub
    requires Known(h.subs, todo)
    decreases |todo|
  {
    if todo == [] then h
    else
      assert forall sid :: sid in todo[1..] ==> sid in todo;
      NotifyAll(NotifySub(h, todo[0], n), todo[1..], n)
  }

  /** The machine's single notifications, one after the other, notify the whole list. */
  lemma {:induction false} NotificationsRun(s: State)
    requires s.service.Notifying? && Known(s.hub.subs, s.service.todo)
    ensures Exec(s, seq(|s.service.todo|, _ => Server(NotifyOne))) ==
            Some(s.(service := Notifying(s.service.n, []),
                    hub := NotifyAll(s.hub, s.service.todo, s.service.n)))
    decreases |s.service.todo|
  {
    var todo := s.service.todo;
    var es := seq(|todo|, _ => Server(NotifyOne));
    if todo != [] {
      var s' := Apply(s, es[0]);
      assert forall sid :: sid in todo[1..] ==> sid in todo;
      NotificationsRun(s');
      assert es[1..] == seq(|s'.service.todo|, _ => Server(NotifyOne));
    }
  }

  /** Notifying a list visits each of its channels once. */
  lemma {:induction false} NotifyAllVisits(h: Hub, todo: seq<nat>, n: nat)
    requires Known(h.subs, todo) && Distinct(todo)
    ensures NotifyAll(h, todo, n).subs == Visited(h.subs, todo, n)
    decreases |todo|
  {
    if todo != [] {
      assert todo == [todo[0]] + todo[1..];
      var h' := NotifySub(h, todo[0], n);
      NotifyAllVisits(h', todo[1..], n);
      assert todo[0] !in todo[1..];
      assert Visited(h'.subs, todo[1..], n) == Visited(h.subs, todo, n);
    } else {
      assert Visited(h.subs, todo, n) == h.subs;
    }
  }

  /** Removing one cancelled subscriber first makes no difference to who survives. */
  lemma {:induction false} SurvivorsSkip(subs: map<nat, Sub>, subs': map<nat, Sub>, list: seq<nat>, x: nat)
    requires Known(subs, list) && Distinct(list) && x in subs && subs[x].cancelled
    requires forall sid :: sid in subs ==> sid in subs' && subs'[sid].cancelled == subs[sid].cancelled
    ensures Known(subs', Without(list, x))
    ensures Survivors(subs', Without(list, x)) == Survivors(subs, list)
  {
    WithoutRemoves(list, x);
    if list != [] {
      assert list == [list[0]] + list[1..];
      SurvivorsSkip(subs, subs', list[1..], x);
      if list[0] == x {
        assert x !in list[1..];
        SurvivorsSame(subs, subs', list[1..]);
      }
    }
  }

  lemma {:induction false} SurvivorsSame(subs: map<nat, Sub>, subs': map<nat, Sub>, list: seq<nat>)
    requires Known(subs, list)
    requires forall sid :: sid in subs ==> sid in subs' && subs'[sid].cancelled == subs[sid].cancelled
    ensures Known(subs', list) && Survivors(subs', list) == Survivors(subs, list)
  {
    if list != [] {
      SurvivorsSame(subs, subs', list[1..]);
    }
  }

  /** The survivors of a list all of whose cancelled members are about to be visited. */
  ghost predicate WillVisit(h: Hub, t: Topic, todo: seq<nat>) {
    forall sid :: sid in ListOf(h, t) && sid in h.subs && h.subs[sid].cancelled ==> sid in todo
  }

  lemma {:induction false} SurvivorsAll(subs: map<nat, Sub>, list: seq<nat>)
    requires Known(subs, list) && forall sid :: sid in list ==> !subs[sid].cancelled
    ensures Survivors(subs, list) == list
  {
    if list != [] {
      SurvivorsAll(subs, list[1..]);
    }
  }

  lemma NotifyStep(h: Hub, sid: nat, n: nat, t: Topic)
    requires HubOk(h) && h.subscribing.None? && Listed(h, sid)
    ensures var h' := NotifySub(h, sid, n);
            && Known(h.subs, ListOf(h, t)) && Known(h'.subs, ListOf(h', t))
            && Survivors(h'.subs, ListOf(h', t)) == Survivors(h.subs, ListOf(h, t))
  {
    var h' := NotifySub(h, sid, n);
    assert ListOk(h, t) && ListOk(h, h.subs[sid].topic);
    if h.subs[sid].cancelled && t == h.subs[sid].topic {
      SurvivorsSkip(h.subs, h'.subs, ListOf(h, t), sid);
    } else {
      SurvivorsSame(h.subs, h'.subs, ListOf(h, t));
    }
  }

  /** Notifying everyone who is cancelled in a list leaves its survivors, in order. */
  /** The service goroutine's list `todo` is in order, for the lists that it still leads to. */
  ghost predicate Visiting(h: Hub, t: Topic, todo: seq<nat>) {
    && HubOk(h) && h.subscribing.None? && Distinct(todo) && WillVisit(h, t, todo)
    && forall sid :: sid in todo ==> Listed(h, sid)
  }

  lemma VisitingStep(h: Hub, todo: seq<nat>, n: nat, t: Topic)
    requires Visiting(h, t, todo) && todo != []
    ensures Listed(h, todo[0]) && Visiting(NotifySub(h, todo[0], n), t, todo[1..])
  {
    assert todo == [todo[0]] + todo[1..];
    NotifyKeepsHub(h, todo[0], n);
    TailRemoves(todo);
    CancelledGoes(h, todo[0], n, t);
  }

  lemma {:induction false} NotifyAllLists(h: Hub, todo: seq<nat>, n: nat, t: Topic)
    requires Visiting(h, t, todo)
    ensures Known(h.subs, todo) && Known(h.subs, ListOf(h, t))
    ensures ListOf(NotifyAll(h, todo, n), t) == Survivors(h.subs, ListOf(h, t))
    decreases |todo|
  {
    assert ListOk(h, t);
    if todo == [] {
      SurvivorsAll(h.subs, ListOf(h, t));
    } else {
      VisitingStep(h, todo, n, t);
      NotifyStep(h, todo[0], n, t);
      NotifyAllLists(NotifySub(h, todo[0], n), todo[1..], n, t);
    }
  }

  lemma CancelledGoes(h: Hub, sid: nat, n: nat, t: Topic)
    requires HubOk(h) && Listed(h, sid)
    ensures forall x :: x in ListOf(NotifySub(h, sid, n), t) ==>
              x in ListOf(h, t) && (x == sid ==> !h.subs[sid].cancelled)
  {
    assert ListOk(h, t) && ListOk(h, h.subs[sid].topic);
    WithoutRemoves(ListOf(h, h.subs[sid].topic), sid);
  }

  /**
   * processUpdate without interference is one pass over the audience: every channel concerned is
   * visited once, and each of the three lists keeps its live subscribers in order.
   */
  lemma ProcessUpdateRun(s: State) returns (es: seq<Event>, s': State)
    requires InvClose(s) && s.service.Holding? && MuFree(s) && s.service.n < |s.store.log|
    ensures Exec(s, es) == Some(s') && s'.service == Idle
    ensures var u := s.store.log[s.service.n].u;
            && s'.hub.subs == Visited(s.hub.subs, Audience(s.hub, u), s.service.n)
            && (forall t :: Matches(t, u) ==>
                  && Known(s.hub.subs, ListOf(s.hub, t))
                  && ListOf(s'.hub, t) == Survivors(s.hub.subs, ListOf(s.hub, t)))
  {
    var n := s.service.n;
    var u := s.store.log[n].u;
    var todo := Audience(s.hub, u);
    AudienceOk(s.hub, u);
    var s1 := Apply(s, Server(StartNotify));
    assert s1.service == Notifying(n, todo);
    var visits := seq(|todo|, _ => Server(NotifyOne));
    NotificationsRun(s1);
    var s2 := s1.(service := Notifying(n, []), hub := NotifyAll(s1.hub, todo, n));
    s' := s2.(service := Idle);
    es := [Server(StartNotify)] + (visits + [Server(EndNotify)]);
    ExecConcat(s1, visits, [Server(EndNotify)]);
    assert Exec(s2, [Server(EndNotify)]) == Some(s');
    assert es[1..] == visits + [Server(EndNotify)];
    NotifyAllVisits(s.hub, todo, n);
    forall t | Matches(t, u)
      ensures Known(s.hub.subs, ListOf(s.hub, t)) && ListOf(s'.hub, t) == Survivors(s.hub.subs, ListOf(s.hub, t))
    {
      assert ListOk(s.hub, t);
      NotifyAllLists(s.hub, todo, n, t);
    }
  }
}
