/**
 * The job cache as concurrent goroutines (cache/cache.go): writers under the store lock, the
 * bounded queue, the service goroutine under r.mu, subscribers, watchers and Close, one atomic
 * action per event.
 *
 * A publish attempt is named by its position in the log, so the queue, the channel buffers and the
 * histories hold positions; the log also holds the updates themselves, which the steps look up there.
 * `commits`, `last`, `cut`, `sent` and `lost` are histories: no guard reads them.
 */
module PubSub {
  import opened Wrappers
  import opened Jobs
  import opened Store
  import opened Cache

  /** The three families of subscriber lists. */
  datatype Topic = All | ById(id: string) | ByUser(user: string)

  predicate Matches(t: Topic, u: StatusUpdate) {
    match t
    case All => true
    case ById(id) => u.id == id
    case ByUser(user) => u.user == user
  }

  /** What became of a publish attempt at the queue. */
  datatype Fate = Enqueued | QueueFull | Discarded

  datatype Attempt = Attempt(key: string, u: StatusUpdate, fate: Fate)

  /** A store write that inserted a job or changed a status or its message. */
  datatype Commit = Commit(key: string, before: Option<Job>, after: Job)

  /** A writer inside the store lock whose callback has run and whose result is not stored yet. */
  datatype Pending = Pending(key: string, input: Job, now: Time)

  /** The store with its lock, the publish attempts and the status commits so far. */
  datatype Ledger = Ledger(
    jobs: map<string, Job>,
    writer: Option<Pending>,
    log: seq<Attempt>,
    commits: seq<Commit>,
    last: map<string, nat>)

  /** A subscriber with its one-slot channel. */
  datatype Sub = Sub(
    topic: Topic,
    cancelled: bool,
    closed: bool,
    open: bool,
    buf: seq<nat>,
    sent: seq<nat>,
    lost: seq<nat>,
    cut: nat)

  /** The service goroutine; Notifying and Closing hold r.mu. */
  datatype Service =
    | Idle
    | Holding(n: nat)
    | Notifying(n: nat, todo: seq<nat>)
    | Leaving
    | Closing
    | Exited

  /** What r.mu protects: the lists, and the channels they lead to. */
  datatype Hub = Hub(
    subs: map<nat, Sub>,
    lists: map<Topic, seq<nat>>,
    subscribing: Option<nat>,
    panicked: bool)

  /** A RunningJobContext call, from its first lookup on; Watching has returned a context. */
  datatype Watch =
    | Looked(user: string, id: string)
    | Watching(user: string, id: string, mark: nat)
    | Ended

  datatype State = State(
    store: Ledger,
    queue: seq<nat>,
    service: Service,
    hub: Hub,
    stop: bool,
    returned: bool,
    watches: map<nat, Watch>)

  const START := State(
    Ledger(map[], None, [], [], map[]), [], Idle, Hub(map[], map[], None, false), false, false, map[])

  datatype WriterEvent =
    | BeginAdd(job: Job, now: Time, discard: bool)
    | BeginUpdate(user: string, key: string, result: Job, now: Time, discard: bool)
    | CommitWrite
    | Delete(key: string)

  datatype ServiceEvent =
    | Take
    | StartNotify
    | NotifyOne
    | EndNotify
    | SeeStop
    | StartClose
    | CloseOne(topic: Topic)
    | EndClose

  datatype ClientEvent =
    | CallClose
    | ReturnClose
    | Check(sid: nat, topic: Topic)
    | AddSub
    | Cancel(sid: nat)
    | Receive(sid: nat)

  datatype WatchEvent =
    | FirstLookup(sid: nat, user: string, id: string)
    | SecondLookup(sid: nat)
    | WatchReceive(sid: nat)
    | WatchEnd(sid: nat)

  datatype Event =
    | Writer(w: WriterEvent)
    | Server(v: ServiceEvent)
    | Client(c: ClientEvent)
    | Watcher(t: WatchEvent)

  // ----- reading the state -----

  function ListOf(h: Hub, t: Topic): (r: seq<nat>) {
    if t in h.lists then h.lists[t] else []
  }

  predicate Listed(h: Hub, sid: nat) {
    sid in h.subs && sid in ListOf(h, h.subs[sid].topic)
  }

  /** The slot holds the last of what was sent, or nothing. */
  predicate SlotOk(sub: Sub) {
    |sub.buf| <= 1 && |sub.buf| <= |sub.sent| && sub.buf == sub.sent[|sub.sent| - |sub.buf|..]
  }

  /** Nobody holds r.mu. */
  predicate MuFree(s: State) {
    s.hub.subscribing.None? && !s.service.Notifying? && !s.service.Closing?
  }

  predicate StatusChanged(before: Option<Job>, after: Job) {
    before.None? || before.value.status != after.status || before.value.statusMsg != after.statusMsg
  }

  /** The update in the service goroutine's hand. */
  function Hand(v: Service): (r: seq<nat>) {
    if v.Holding? || v.Notifying? then [v.n] else []
  }

  /** Enqueued updates that the service goroutine has not finished with, oldest first. */
  function Pipe(s: State): (r: seq<nat>) {
    Hand(s.service) + s.queue
  }

  /** The oldest of them, or the next position to be published. */
  function First(pipe: seq<nat>, log: seq<Attempt>): (r: nat) {
    if pipe == [] then |log| else pipe[0]
  }

  function Head(s: State): (r: nat) {
    First(Pipe(s), s.store.log)
  }

  // ----- writers -----

  function FateOf(s: State, discard: bool): (r: Fate) {
    if s.stop && (discard || |s.queue| >= QUEUE_SLOTS) then Discarded
    else if |s.queue| >= QUEUE_SLOTS then QueueFull
    else Enqueued
  }

  /** Take the store lock, run the callback and try to publish. */
  function Begin(s: State, p: Pending, discard: bool): (r: State) {
    if Announces(Find(s.store.jobs, p.key), p.input) then
      var a := Attempt(p.key, UpdateOf(p.input), FateOf(s, discard));
      s.(store := s.store.(writer := Some(p), log := s.store.log + [a]),
         queue := if a.fate == Enqueued then s.queue + [|s.store.log|] else s.queue)
    else s.(store := s.store.(writer := Some(p)))
  }

  /** Store the callback's result and release the lock. */
  function Complete(l: Ledger): (r: Ledger)
    requires l.writer.Some?
  {
    var p := l.writer.value;
    var before := Find(l.jobs, p.key);
    var jobs := After(l.jobs, Put(p.key, Some(p.input), p.now));
    if StatusChanged(before, jobs[p.key]) then
      Ledger(jobs, None, l.log, l.commits + [Commit(p.key, before, jobs[p.key])],
             l.last[p.key := |l.commits|])
    else l.(jobs := jobs, writer := None)
  }

  predicate WriterEnabled(s: State, e: WriterEvent) {
    match e
    case BeginAdd(_, _, discard) => s.store.writer.None? && (discard ==> s.stop)
    case BeginUpdate(user, key, _, _, discard) =>
      s.store.writer.None? && Owns(s.store.jobs, user, key) && (discard ==> s.stop)
    case CommitWrite => s.store.writer.Some?
    case Delete(_) => s.store.writer.None?
  }

  function WriterStep(s: State, e: WriterEvent): (r: State)
    requires WriterEnabled(s, e)
  {
    match e
    case BeginAdd(job, now, discard) => Begin(s, Pending(job.id, job, now), discard)
    case BeginUpdate(_, key, result, now, discard) => Begin(s, Pending(key, result, now), discard)
    case CommitWrite => s.(store := Complete(s.store))
    case Delete(key) => s.(store := s.store.(jobs := s.store.jobs - {key}))
  }

  // ----- the service goroutine -----

  /** Remove the first occurrence. */
  function Without(list: seq<nat>, x: nat): (r: seq<nat>) {
    if list == [] then [] else if list[0] == x then list[1..] else [list[0]] + Without(list[1..], x)
  }

  /** One round of the Notify loop: a cancelled subscriber is closed, a full one skipped. */
  function Visit(sub: Sub, n: nat): (r: Sub) {
    if sub.cancelled then sub.(closed := true, open := false)
    else if sub.buf == [] then sub.(buf := [n], sent := sub.sent + [n])
    else sub.(lost := sub.lost + [n])
  }

  /** Sending on a closed channel or closing it again panics. */
  function NotifySub(h: Hub, sid: nat, n: nat): (r: Hub)
    requires sid in h.subs
  {
    var sub := h.subs[sid];
    Hub(h.subs[sid := Visit(sub, n)],
        if sub.cancelled then h.lists[sub.topic := Without(ListOf(h, sub.topic), sid)] else h.lists,
        h.subscribing,
        h.panicked || !sub.open)
  }

  /** One round of the Close loop: remove the front and close it unless it is marked closed. */
  function CloseFront(h: Hub, t: Topic): (r: Hub)
    requires ListOf(h, t) != [] && ListOf(h, t)[0] in h.subs
  {
    var sid := ListOf(h, t)[0];
    var sub := h.subs[sid];
    Hub(if sub.closed then h.subs else h.subs[sid := sub.(closed := true, open := false)],
        h.lists[t := ListOf(h, t)[1..]],
        h.subscribing,
        h.panicked || (!sub.closed && !sub.open))
  }

  /** The subscribers an update concerns, in the order they are visited. */
  function Audience(h: Hub, u: StatusUpdate): (r: seq<nat>) {
    ListOf(h, All) + ListOf(h, ById(u.id)) + ListOf(h, ByUser(u.user))
  }

  predicate ServiceEnabled(s: State, e: ServiceEvent) {
    match e
    case Take => s.service.Idle? && s.queue != []
    case StartNotify => s.service.Holding? && MuFree(s) && s.service.n < |s.store.log|
    case NotifyOne => s.service.Notifying? && s.service.todo != [] && s.service.todo[0] in s.hub.subs
    case EndNotify => s.service.Notifying? && s.service.todo == []
    case SeeStop => s.service.Idle? && s.stop
    case StartClose => s.service.Leaving? && MuFree(s)
    case CloseOne(t) => s.service.Closing? && ListOf(s.hub, t) != [] && ListOf(s.hub, t)[0] in s.hub.subs
    case EndClose => s.service.Closing? && forall t :: t in s.hub.lists ==> s.hub.lists[t] == []
  }

  function ServiceStep(s: State, e: ServiceEvent): (r: State)
    requires ServiceEnabled(s, e)
  {
    match e
    case Take => s.(service := Holding(s.queue[0]), queue := s.queue[1..])
    case StartNotify =>
      s.(service := Notifying(s.service.n, Audience(s.hub, s.store.log[s.service.n].u)))
    case NotifyOne =>
      s.(service := Notifying(s.service.n, s.service.todo[1..]),
         hub := NotifySub(s.hub, s.service.todo[0], s.service.n))
    case EndNotify => s.(service := Idle)
    case SeeStop => s.(service := Leaving)
    case StartClose => s.(service := Closing)
    case CloseOne(t) => s.(hub := CloseFront(s.hub, t))
    case EndClose => s.(service := Exited)
  }

  // ----- callers of Close, subscribers and their contexts -----

  function FreshSub(t: Topic, open: bool, cut: nat): (r: Sub) {
    Sub(t, false, false, open, [], [], [], cut)
  }

  function SetSub(h: Hub, sid: nat, sub: Sub): (r: Hub) {
    h.(subs := h.subs[sid := sub])
  }

  predicate ClientEnabled(s: State, e: ClientEvent) {
    match e
    case CallClose => !s.stop
    case ReturnClose => s.service.Exited?
    case Check(sid, t) =>
      MuFree(s) && sid !in s.hub.subs &&
      (sid in s.watches ==> s.watches[sid].Looked? && t == ById(s.watches[sid].id))
    case AddSub => s.hub.subscribing.Some? && s.hub.subscribing.value in s.hub.subs
    case Cancel(sid) => sid in s.hub.subs
    case Receive(sid) => sid in s.hub.subs && s.hub.subs[sid].buf != [] && sid !in s.watches
  }

  /** The second half of a subscription, still under r.mu. */
  function JoinList(h: Hub, sid: nat, cut: nat): (r: Hub)
    requires sid in h.subs
  {
    var sub := h.subs[sid];
    Hub(h.subs[sid := sub.(cut := cut)], h.lists[sub.topic := ListOf(h, sub.topic) + [sid]],
        None, h.panicked)
  }

  function ClientStep(s: State, e: ClientEvent): (r: State)
    requires ClientEnabled(s, e)
  {
    match e
    case CallClose => s.(stop := true)
    case ReturnClose => s.(returned := true)
    case Check(sid, t) =>
      var h := SetSub(s.hub, sid, FreshSub(t, !s.stop, |s.store.log|));
      s.(hub := if s.stop then h else h.(subscribing := Some(sid)))
    case AddSub => s.(hub := JoinList(s.hub, s.hub.subscribing.value, Head(s)))
    case Cancel(sid) => s.(hub := SetSub(s.hub, sid, s.hub.subs[sid].(cancelled := true)))
    case Receive(sid) => s.(hub := SetSub(s.hub, sid, s.hub.subs[sid].(buf := s.hub.subs[sid].buf[1..])))
  }

  // ----- RunningJobContext -----

  /** The lookups of RunningJobContext: found, visible and not terminal. */
  predicate Runs(jobs: map<string, Job>, user: string, id: string) {
    Owns(jobs, user, id) && !Terminal(jobs[id].status)
  }

  predicate WatchEnabled(s: State, e: WatchEvent) {
    match e
    case FirstLookup(sid, user, id) =>
      s.store.writer.None? && sid !in s.hub.subs && sid !in s.watches && Runs(s.store.jobs, user, id)
    case SecondLookup(sid) =>
      s.store.writer.None? && sid in s.watches && s.watches[sid].Looked? &&
      sid in s.hub.subs && s.hub.subscribing != Some(sid)
    case WatchReceive(sid) =>
      sid in s.watches && s.watches[sid].Watching? && sid in s.hub.subs && s.hub.subs[sid].buf != [] &&
      s.hub.subs[sid].buf[0] < |s.store.log|
    case WatchEnd(sid) =>
      sid in s.watches && s.watches[sid].Watching? && sid in s.hub.subs &&
      (s.hub.subs[sid].cancelled || (!s.hub.subs[sid].open && s.hub.subs[sid].buf == []))
  }

  function WatchStep(s: State, e: WatchEvent): (r: State)
    requires WatchEnabled(s, e)
  {
    match e
    case FirstLookup(sid, user, id) => s.(watches := s.watches[sid := Looked(user, id)])
    case SecondLookup(sid) =>
      var w := s.watches[sid];
      if Runs(s.store.jobs, w.user, w.id) then
        s.(watches := s.watches[sid := Watching(w.user, w.id, |s.store.log|)])
      else
        s.(hub := SetSub(s.hub, sid, s.hub.subs[sid].(cancelled := true)),
           watches := s.watches[sid := Ended])
    case WatchReceive(sid) =>
      var sub := s.hub.subs[sid];
      var done := Terminal(s.store.log[sub.buf[0]].u.status);
      s.(hub := SetSub(s.hub, sid, sub.(buf := sub.buf[1..], cancelled := sub.cancelled || done)),
         watches := if done then s.watches[sid := Ended] else s.watches)
    case WatchEnd(sid) =>
      s.(hub := SetSub(s.hub, sid, s.hub.subs[sid].(cancelled := true)),
         watches := s.watches[sid := Ended])
  }

  // ----- runs -----

  predicate Enabled(s: State, e: Event) {
    match e
    case Writer(w) => WriterEnabled(s, w)
    case Server(v) => ServiceEnabled(s, v)
    case Client(c) => ClientEnabled(s, c)
    case Watcher(t) => WatchEnabled(s, t)
  }

  function Apply(s: State, e: Event): (r: State)
    requires Enabled(s, e)
  {
    match e
    case Writer(w) => WriterStep(s, w)
    case Server(v) => ServiceStep(s, v)
    case Client(c) => ClientStep(s, c)
    case Watcher(t) => WatchStep(s, t)
  }

  /** Run a schedule of events; None if one of them is not enabled. */
  function Exec(s: State, es: seq<Event>): (r: Option<State>)
    decreases |es|
  {
    if es == [] then Some(s)
    else if Enabled(s, es[0]) then Exec(Apply(s, es[0]), es[1..])
    else None
  }

  /** Some interleaving leads from the new cache to this state. */
  ghost predicate Reachable(s: State) {
    exists es :: Exec(START, es) == Some(s)
  }

  lemma {:induction false} ExecConcat(s: State, a: seq<Event>, b: seq<Event>)
    requires Exec(s, a).Some?
    ensures Exec(s, a + b) == Exec(Exec(s, a).value, b)
    decreases |a|
  {
    if a == [] {
      assert a + b == b;
    } else {
      assert (a + b)[1..] == a[1..] + b;
      ExecConcat(Apply(s, a[0]), a[1..], b);
    }
  }

  /** A run of several events ends with its last one. */
  lemma {:induction false} ExecLast(s: State, front: seq<Event>, e: Event) returns (t: State)
    requires Exec(s, front + [e]).Some?
    ensures Exec(s, front) == Some(t) && Enabled(t, e) && Exec(s, front + [e]) == Some(Apply(t, e))
    decreases |front|
  {
    ConcatTail(front, [e]);
    if front == [] {
      t := s;
      assert [e][1..] == [];
    } else {
      t := ExecLast(Apply(s, front[0]), front[1..], e);
    }
  }

  lemma ReachableStep(s: State, e: Event)
    requires Reachable(s) && Enabled(s, e)
    ensures Reachable(Apply(s, e))
  {
    var es :| Exec(START, es) == Some(s);
    ExecConcat(START, es, [e]);
    assert Exec(s, [e]) == Some(Apply(s, e)) by {
      assert [e][1..] == [];
    }
    assert Exec(START, es + [e]) == Some(Apply(s, e));
  }

  lemma ReachableStart()
    ensures Reachable(START)
  {
    assert Exec(START, []) == Some(START);
  }
}
