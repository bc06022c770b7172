/**
 * The example plugin's jobs (examples/inmemory/main.go): submissions, the background goroutine of
 * each job, control requests and pruning, interleaved. Every cache update is atomic, since the
 * cache runs its callback under the store lock.
 */
module Lifecycle {
  import opened Wrappers
  import opened Jobs
  import opened Store
  import opened Cache
  import opened Decimal

  // ----- job IDs -----

  const UINT32: int := 0x1_0000_0000

  /** The k-th value of the int32 counter, which wraps. */
  function CounterAt(k: nat): (n: int)
    ensures -0x8000_0000 <= n < 0x8000_0000
  {
    (k + 0x8000_0000) % UINT32 - 0x8000_0000
  }

  function JobId(k: nat): (id: string) {
    "job-" + Itoa(CounterAt(k))
  }

  lemma CountersDiffer(a: nat, b: nat)
    requires 1 <= a < b <= UINT32
    ensures CounterAt(a) != CounterAt(b)
  {
    assert a + 0x8000_0000 < UINT32 ==> CounterAt(a) == a;
    assert a + 0x8000_0000 >= UINT32 ==> CounterAt(a) == a - UINT32;
    assert b + 0x8000_0000 < UINT32 ==> CounterAt(b) == b;
    assert b + 0x8000_0000 >= UINT32 ==> CounterAt(b) == b - UINT32;
  }

  /** IDs do not repeat within the range of the counter. */
  lemma JobIdsDiffer(a: nat, b: nat)
    requires 1 <= a < b <= UINT32
    ensures JobId(a) != JobId(b)
  {
    CountersDiffer(a, b);
    var x, y := CounterAt(a), CounterAt(b);
    AtoiItoa(x);
    AtoiItoa(y);
    assert JobId(a)[4..] == Itoa(x) && JobId(b)[4..] == Itoa(y);
  }

  /** Up to the first wrap-around the k-th ID carries the number k. */
  lemma JobIdText(k: nat)
    requires k < 0x8000_0000
    ensures JobId(k) == "job-" + Itoa(k)
  {
    assert CounterAt(k) == k;
  }

  // ----- the callbacks -----

  function ToRunning(j: Job): (r: Job) {
    if j.status == PENDING then j.(status := RUNNING) else j
  }

  function ToFinished(j: Job): (r: Job) {
    if j.status == RUNNING then j.(status := FINISHED, exitCode := Some(0)) else j
  }

  /** The operation is supported and the job has the status it needs. */
  predicate Accepts(op: Operation, j: Job) {
    j.status == ValidForStatus(op) && op != Suspend && op != Resume
  }

  function Controlled(op: Operation, msg: string, code: string, j: Job): (r: Job) {
    if !Accepts(op, j) then j
    else match op
      case Stop => j.(status := FINISHED, exitCode := Some(143))
      case Kill => j.(status := KILLED, exitCode := Some(137), statusMsg := msg, statusCode := code)
      case _ => j.(status := CANCELED)
  }

  // ----- the machine -----

  /** A job's goroutine: it marks the job running, then finished unless the job is long-running. */
  datatype Routine = Routine(user: string, longRunning: bool, pc: nat)

  /**
   * `drawn` holds the IDs of submissions that have not stored their job yet. `attempts` and
   * `controls` count publish attempts and successful controls; both are histories.
   */
  datatype State = State(
    jobs: map<string, Job>,
    draws: nat,
    drawn: map<nat, string>,
    routines: map<string, Routine>,
    prunes: map<nat, seq<string>>,
    attempts: map<string, nat>,
    controls: map<string, nat>)

  const START := State(map[], 0, map[], map[], map[], map[], map[])

  datatype Event =
    | DrawId(t: nat, next: string)
    | Submit(t: nat, user: string, job: Job, now: Time)
    | MarkRunning(id: string, now: Time)
    | MarkFinished(id: string, now: Time)
    | Control(user: string, id: string, op: Operation, msg: string, code: string, now: Time)
    | Scan(p: nat, cutoff: Time, chosen: seq<string>)
    | DeleteNext(p: nat)

  predicate Enabled(s: State, e: Event) {
    match e
    case DrawId(t, next) => t !in s.drawn && s.draws < UINT32 && next == JobId(s.draws + 1)
    case Submit(t, _, job, _) => t in s.drawn && job.exitCode.None?
    case MarkRunning(id, _) => id in s.routines && s.routines[id].pc == 0
    case MarkFinished(id, _) => id in s.routines && s.routines[id].pc == 1
    case Control(_, _, _, _, _, _) => true
    case Scan(p, cutoff, chosen) =>
      p !in s.prunes && forall c :: c in chosen ==> c in s.jobs && Stale(s.jobs[c], cutoff)
    case DeleteNext(p) => p in s.prunes && s.prunes[p] != []
  }

  function Count(m: map<string, nat>, id: string): (n: nat) {
    if id in m then m[id] else 0
  }

  function Bump(m: map<string, nat>, id: string, again: bool): (r: map<string, nat>) {
    if again then m[id := Count(m, id) + 1] else m
  }

  /** One cache update by a user with a callback, and whether it publishes. */
  function Do(s: State, user: string, id: string, fn: Job -> Job, now: Time): (r: State) {
    s.(jobs := Updated(s.jobs, user, id, fn, now),
       attempts := Bump(s.attempts, id, Owns(s.jobs, user, id) && Announces(Some(s.jobs[id]), fn(s.jobs[id]))))
  }

  function Submitted(id: string, user: string, job: Job, now: Time): (r: Job) {
    job.(id := id, user := user, submitted := Some(now), lastUpdated := Some(now), status := PENDING)
  }

  function Apply(s: State, e: Event): (r: State)
    requires Enabled(s, e)
  {
    match e
    case DrawId(t, next) => s.(draws := s.draws + 1, drawn := s.drawn[t := next])
    case Submit(t, user, job, now) =>
      var id := s.drawn[t];
      var j := Submitted(id, user, job, now);
      s.(jobs := Added(s.jobs, j, now),
         drawn := s.drawn - {t},
         routines := s.routines[id := Routine(user, "long-running" in job.tags, 0)],
         attempts := Bump(s.attempts, id, Announces(Find(s.jobs, id), j)))
    case MarkRunning(id, now) =>
      var r := s.routines[id];
      Do(s, r.user, id, ToRunning, now).(routines := s.routines[id := r.(pc := if r.longRunning then 2 else 1)])
    case MarkFinished(id, now) =>
      var r := s.routines[id];
      Do(s, r.user, id, ToFinished, now).(routines := s.routines[id := r.(pc := 2)])
    case Control(user, id, op, msg, code, now) =>
      Do(s, user, id, j => Controlled(op, msg, code, j), now)
        .(controls := Bump(s.controls, id, Owns(s.jobs, user, id) && Accepts(op, s.jobs[id])))
    case Scan(p, _, chosen) => s.(prunes := s.prunes[p := chosen])
    case DeleteNext(p) =>
      s.(jobs := s.jobs - {s.prunes[p][0]}, prunes := s.prunes[p := s.prunes[p][1..]])
  }

  function Exec(s: State, es: seq<Event>): (r: Option<State>)
    decreases |es|
  {
    if es == [] then Some(s)
    else if Enabled(s, es[0]) then Exec(Apply(s, es[0]), es[1..])
    else None
  }

  ghost predicate Reachable(s: State) {
    exists es :: Exec(START, es) == Some(s)
  }

  // ----- the invariant -----

  /** Which exit code, and how many publish attempts and controls, go with each status. */
  predicate JobOk(j: Job, attempts: nat, controls: nat) {
    && j.lastUpdated.Some?
    && (|| (j.status == PENDING && j.exitCode == None && attempts == 1 && controls == 0)
        || (j.status == RUNNING && j.exitCode == None && attempts == 2 && controls == 0)
        || (j.status == CANCELED && j.exitCode == None && attempts == 2 && controls == 1)
        || (j.status == FINISHED && j.exitCode == Some(0) && attempts == 3 && controls == 0)
        || (j.status == FINISHED && j.exitCode == Some(143) && attempts == 3 && controls == 1)
        || (j.status == KILLED && j.exitCode == Some(137) && attempts == 3 && controls == 1))
  }

  /** An ID that some submission has drawn. */
  ghost predicate Used(draws: nat, id: string) {
    exists k :: 1 <= k <= draws && id == JobId(k)
  }

  ghost predicate BooksOk(jobs: map<string, Job>, attempts: map<string, nat>, controls: map<string, nat>) {
    && (forall id :: id in jobs ==> JobOk(jobs[id], Count(attempts, id), Count(controls, id)))
    && (forall id :: id in attempts ==> attempts[id] <= 3)
    && (forall id :: id in controls ==> controls[id] <= 1)
  }

  /** IDs of stored and deleted jobs have been drawn, and those still in hand are different from them. */
  ghost predicate IdsOk(s: State) {
    && s.draws <= UINT32 && KeysMatch(s.jobs)
    && s.jobs.Keys <= s.attempts.Keys && s.controls.Keys <= s.attempts.Keys
    && (forall id :: id in s.attempts ==> Used(s.draws, id))
    && (forall t :: t in s.drawn ==> Used(s.draws, s.drawn[t]) && s.drawn[t] !in s.attempts)
    && (forall t, u :: t in s.drawn && u in s.drawn && t != u ==> s.drawn[t] != s.drawn[u])
  }

  /** A candidate for deletion has been stored, and is terminal as long as it is there. */
  ghost predicate CandidatesOk(s: State, ids: seq<string>) {
    forall c :: c in ids ==> c in s.attempts && (c in s.jobs ==> Terminal(s.jobs[c].status))
  }

  ghost predicate PrunesOk(s: State) {
    forall p :: p in s.prunes ==> CandidatesOk(s, s.prunes[p])
  }

  ghost predicate Inv(s: State) {
    IdsOk(s) && BooksOk(s.jobs, s.attempts, s.controls) && PrunesOk(s)
  }

  /** The moves of one job that any single action can make. */
  predicate Moves(from: Job, to: Job) {
    || to == from
    || (from.status == PENDING && (to.status == RUNNING || to.status == CANCELED))
    || (from.status == RUNNING && (to.status == FINISHED || to.status == KILLED))
  }

  lemma FreshId(draws: nat, id: string)
    requires draws < UINT32 && id == JobId(draws + 1)
    ensures !Used(draws, id) && Used(draws + 1, id)
  {
    if k :| 1 <= k <= draws && id == JobId(k) {
      JobIdsDiffer(k, draws + 1);
    }
  }

  /** A callback's result, merged into the job it was computed from. */
  lemma MergeSnapshot(j: Job, r: Job, now: Time)
    requires j.lastUpdated.Some? && (j.exitCode.Some? ==> r.exitCode.Some?)
    requires r == j.(status := r.status, statusMsg := r.statusMsg, statusCode := r.statusCode, exitCode := r.exitCode)
    ensures Merged(j, r, now) == r
  {
  }

  /** One job's books are rewritten; the others stay. */
  lemma BooksUpdated(jobs: map<string, Job>, attempts: map<string, nat>, controls: map<string, nat>,
                     id: string, j: Job, announced: bool, controlled: bool)
    requires BooksOk(jobs, attempts, controls)
    requires JobOk(j, Count(attempts, id) + (if announced then 1 else 0),
                   Count(controls, id) + (if controlled then 1 else 0))
    ensures BooksOk(jobs[id := j], Bump(attempts, id, announced), Bump(controls, id, controlled))
  {
  }

  /** What a callback does to a job whose books are in order. */
  ghost predicate Fair(j: Job, r: Job, attempts: nat, controls: nat, controlled: bool) {
    && JobOk(j, attempts, controls) && Moves(j, r)
    && JobOk(r, attempts + (if Announces(Some(j), r) then 1 else 0), controls + (if controlled then 1 else 0))
    && r == j.(status := r.status, statusMsg := r.statusMsg, statusCode := r.statusCode, exitCode := r.exitCode)
  }

  lemma RunningFair(j: Job, a: nat, c: nat)
    requires JobOk(j, a, c)
    ensures Fair(j, ToRunning(j), a, c, false)
  {
  }

  lemma FinishedFair(j: Job, a: nat, c: nat)
    requires JobOk(j, a, c)
    ensures Fair(j, ToFinished(j), a, c, false)
  {
  }

  lemma ControlledFair(j: Job, a: nat, c: nat, op: Operation, msg: string, code: string)
    requires JobOk(j, a, c)
    ensures Fair(j, Controlled(op, msg, code, j), a, c, Accepts(op, j))
  {
  }

  /** The state after an update of a job that the user owns, or the same state. */
  ghost predicate Rewrites(s: State, s': State, id: string, j: Job, announced: bool, controlled: bool) {
    && s'.jobs == s.jobs[id := j]
    && s'.attempts == Bump(s.attempts, id, announced) && s'.controls == Bump(s.controls, id, controlled)
    && s'.draws == s.draws && s'.drawn == s.drawn && s'.prunes == s.prunes
  }

  /** Candidates stay terminal when jobs that were stored once only move. */
  lemma PrunesKept(s: State, s': State)
    requires PrunesOk(s) && s'.prunes == s.prunes && s.attempts.Keys <= s'.attempts.Keys
    requires forall id :: id in s.attempts && id in s'.jobs ==> id in s.jobs && Moves(s.jobs[id], s'.jobs[id])
    ensures PrunesOk(s')
  {
    forall p | p in s'.prunes ensures CandidatesOk(s', s'.prunes[p]) {
      assert CandidatesOk(s, s.prunes[p]);
    }
  }

  lemma UpdateKeeps(s: State, s': State, id: string, r: Job, controlled: bool)
    requires Inv(s) && id in s.jobs
    requires Fair(s.jobs[id], r, Count(s.attempts, id), Count(s.controls, id), controlled)
    requires Rewrites(s, s', id, r, Announces(Some(s.jobs[id]), r), controlled)
    ensures Inv(s')
    ensures forall k :: k in s.jobs ==> k in s'.jobs && Moves(s.jobs[k], s'.jobs[k])
  {
    BooksUpdated(s.jobs, s.attempts, s.controls, id, r, Announces(Some(s.jobs[id]), r), controlled);
    UpdateKeepsIds(s, s', id, r, Announces(Some(s.jobs[id]), r), controlled);
    PrunesKept(s, s');
  }

  lemma UpdateKeepsIds(s: State, s': State, id: string, r: Job, announced: bool, controlled: bool)
    requires IdsOk(s) && id in s.jobs && r.id == s.jobs[id].id && Rewrites(s, s', id, r, announced, controlled)
    ensures IdsOk(s')
  {
  }

  lemma UnchangedKeeps(s: State, s': State)
    requires Inv(s)
    requires s'.jobs == s.jobs && s'.attempts == s.attempts && s'.controls == s.controls
    requires s'.draws == s.draws && s'.drawn == s.drawn && s'.prunes == s.prunes
    ensures Inv(s')
    ensures forall k :: k in s.jobs ==> k in s'.jobs && Moves(s.jobs[k], s'.jobs[k])
  {
    forall p | p in s'.prunes ensures CandidatesOk(s', s'.prunes[p]) {
      assert CandidatesOk(s, s.prunes[p]);
    }
  }

  lemma DrawKeepsIds(s: State, e: Event)
    requires IdsOk(s) && Enabled(s, e) && e.DrawId?
    ensures IdsOk(Apply(s, e))
  {
    var s' := Apply(s, e);
    FreshId(s.draws, e.next);
    forall id | id in s'.attempts ensures Used(s'.draws, id) {
      UsedGrows(s.draws, id);
    }
    forall t | t in s'.drawn ensures Used(s'.draws, s'.drawn[t]) {
      if t != e.t {
        UsedGrows(s.draws, s.drawn[t]);
      }
    }
  }

  lemma UsedGrows(draws: nat, id: string)
    requires Used(draws, id)
    ensures Used(draws + 1, id)
  {
    var k :| 1 <= k <= draws && id == JobId(k);
  }

  lemma DrawKeeps(s: State, e: Event)
    requires Inv(s) && Enabled(s, e) && e.DrawId?
    ensures Inv(Apply(s, e)) && Apply(s, e).jobs == s.jobs && Apply(s, e).attempts == s.attempts
  {
    DrawKeepsIds(s, e);
    PrunesKept(s, Apply(s, e));
  }

  /** A job is stored under the ID drawn for it, with its first publish attempt. */
  ghost predicate Enters(s: State, s': State, t: nat, j: Job) {
    && t in s.drawn && j.id == s.drawn[t] && JobOk(j, 1, 0)
    && s'.jobs == s.jobs[j.id := j] && s'.attempts == s.attempts[j.id := 1] && s'.controls == s.controls
    && s'.draws == s.draws && s'.drawn == s.drawn - {t} && s'.prunes == s.prunes
  }

  lemma SubmitEnters(s: State, e: Event)
    requires IdsOk(s) && Enabled(s, e) && e.Submit?
    ensures Enters(s, Apply(s, e), e.t, Submitted(s.drawn[e.t], e.user, e.job, e.now))
  {
  }

  lemma EnterKeeps(s: State, s': State, t: nat, j: Job)
    requires Inv(s) && Enters(s, s', t, j)
    ensures Inv(s')
    ensures forall k :: k in s.jobs ==> k in s'.jobs && Moves(s.jobs[k], s'.jobs[k])
    ensures forall k :: k in s.attempts && k !in s.jobs ==> k !in s'.jobs
  {
    BooksUpdated(s.jobs, s.attempts, s.controls, j.id, j, true, false);
    EnterKeepsIds(s, s', t, j);
    PrunesKept(s, s');
  }

  lemma EnterKeepsIds(s: State, s': State, t: nat, j: Job)
    requires IdsOk(s) && Enters(s, s', t, j)
    ensures IdsOk(s')
  {
  }

  lemma SubmitKeeps(s: State, e: Event)
    requires Inv(s) && Enabled(s, e) && e.Submit?
    ensures Inv(Apply(s, e))
    ensures forall k :: k in s.jobs ==> k in Apply(s, e).jobs && Moves(s.jobs[k], Apply(s, e).jobs[k])
    ensures forall k :: k in s.attempts && k !in s.jobs ==> k !in Apply(s, e).jobs
  {
    SubmitEnters(s, e);
    EnterKeeps(s, Apply(s, e), e.t, Submitted(s.drawn[e.t], e.user, e.job, e.now));
  }

  lemma RoutineKeeps(s: State, e: Event)
    requires Inv(s) && Enabled(s, e) && (e.MarkRunning? || e.MarkFinished?)
    ensures Inv(Apply(s, e))
    ensures forall k :: k in s.jobs ==> k in Apply(s, e).jobs && Moves(s.jobs[k], Apply(s, e).jobs[k])
  {
    var s' := Apply(s, e);
    if Owns(s.jobs, s.routines[e.id].user, e.id) {
      var j, a, c := s.jobs[e.id], Count(s.attempts, e.id), Count(s.controls, e.id);
      var r := if e.MarkRunning? then ToRunning(j) else ToFinished(j);
      RunningFair(j, a, c);
      FinishedFair(j, a, c);
      MergeSnapshot(j, r, e.now);
      UpdateKeeps(s, s', e.id, r, false);
    } else {
      UnchangedKeeps(s, s');
    }
  }

  lemma ControlKeeps(s: State, e: Event)
    requires Inv(s) && e.Control?
    ensures Inv(Apply(s, e))
    ensures forall k :: k in s.jobs ==> k in Apply(s, e).jobs && Moves(s.jobs[k], Apply(s, e).jobs[k])
  {
    var s' := Apply(s, e);
    if Owns(s.jobs, e.user, e.id) {
      var j := s.jobs[e.id];
      var r := Controlled(e.op, e.msg, e.code, j);
      ControlledFair(j, Count(s.attempts, e.id), Count(s.controls, e.id), e.op, e.msg, e.code);
      MergeSnapshot(j, r, e.now);
      UpdateKeeps(s, s', e.id, r, Accepts(e.op, j));
    } else {
      UnchangedKeeps(s, s');
    }
  }

  lemma PruneKeepsPrunes(s: State, e: Event)
    requires PrunesOk(s) && s.jobs.Keys <= s.attempts.Keys && Enabled(s, e) && (e.Scan? || e.DeleteNext?)
    ensures PrunesOk(Apply(s, e))
  {
    var s' := Apply(s, e);
    forall p | p in s'.prunes ensures CandidatesOk(s', s'.prunes[p]) {
      assert p in s.prunes ==> CandidatesOk(s, s.prunes[p]);
    }
  }

  lemma PruneKeeps(s: State, e: Event)
    requires Inv(s) && Enabled(s, e) && (e.Scan? || e.DeleteNext?)
    ensures Inv(Apply(s, e))
    ensures forall k :: k in Apply(s, e).jobs ==> k in s.jobs && Apply(s, e).jobs[k] == s.jobs[k]
  {
    var s' := Apply(s, e);
    assert IdsOk(s') && BooksOk(s'.jobs, s'.attempts, s'.controls);
    PruneKeepsPrunes(s, e);
  }

  lemma StepKeeps(s: State, e: Event)
    requires Inv(s) && Enabled(s, e)
    ensures Inv(Apply(s, e))
  {
    match e
    case DrawId(_, _) => DrawKeeps(s, e);
    case Submit(_, _, _, _) => SubmitKeeps(s, e);
    case MarkRunning(_, _) => RoutineKeeps(s, e);
    case MarkFinished(_, _) => RoutineKeeps(s, e);
    case Control(_, _, _, _, _, _) => ControlKeeps(s, e);
    case Scan(_, _, _) => PruneKeeps(s, e);
    case DeleteNext(_) => PruneKeeps(s, e);
  }

  lemma {:induction false} RunKeeps(s: State, es: seq<Event>)
    requires Inv(s) && Exec(s, es).Some?
    ensures Inv(Exec(s, es).value)
    decreases |es|
  {
    if es != [] {
      StepKeeps(s, es[0]);
      RunKeeps(Apply(s, es[0]), es[1..]);
    }
  }

  lemma ReachableOk(s: State)
    requires Reachable(s)
    ensures Inv(s)
  {
    var es :| Exec(START, es) == Some(s);
    RunKeeps(START, es);
  }

  // ----- theorems -----

  /** A job's status moves only from Pending to Running or Canceled, and from Running to Finished or Killed. */
  lemma StatusMoves(s: State, e: Event, id: string)
    requires Reachable(s) && Enabled(s, e) && id in s.jobs && id in Apply(s, e).jobs
    ensures Moves(s.jobs[id], Apply(s, e).jobs[id])
  {
    ReachableOk(s);
    StepMoves(s, e, id);
  }

  lemma StepMoves(s: State, e: Event, id: string)
    requires Inv(s) && Enabled(s, e) && id in s.jobs && id in Apply(s, e).jobs
    ensures Moves(s.jobs[id], Apply(s, e).jobs[id])
  {
    match e
    case DrawId(_, _) => DrawKeeps(s, e);
    case Submit(_, _, _, _) => SubmitKeeps(s, e);
    case MarkRunning(_, _) => RoutineKeeps(s, e);
    case MarkFinished(_, _) => RoutineKeeps(s, e);
    case Control(_, _, _, _, _, _) => ControlKeeps(s, e);
    case Scan(_, _, _) => PruneKeeps(s, e);
    case DeleteNext(_) => PruneKeeps(s, e);
  }

  /** Exit codes, publish attempts and successful controls, for every job there ever was. */
  lemma Bookkeeping(s: State, id: string)
    requires Reachable(s)
    ensures Count(s.attempts, id) <= 3 && Count(s.controls, id) <= 1
    ensures id in s.jobs ==> JobOk(s.jobs[id], Count(s.attempts, id), Count(s.controls, id))
  {
    ReachableOk(s);
  }

  lemma OnlySubmitAdds(s: State, e: Event)
    requires Enabled(s, e) && !e.Submit?
    ensures Apply(s, e).jobs.Keys <= s.jobs.Keys
  {
  }

  lemma AttemptsStay(s: State, e: Event)
    requires Enabled(s, e)
    ensures s.attempts.Keys <= Apply(s, e).attempts.Keys
  {
  }

  /** Terminal states absorb: whatever runs on, a job that was stored and is terminal or deleted stays so. */
  lemma {:induction false} TerminalAbsorbs(s: State, es: seq<Event>, id: string)
    requires Inv(s) && Exec(s, es).Some? && id in s.attempts
    requires id in s.jobs ==> Terminal(s.jobs[id].status)
    ensures id in Exec(s, es).value.jobs ==> id in s.jobs && Exec(s, es).value.jobs[id] == s.jobs[id]
    decreases |es|
  {
    if es != [] {
      var s' := Apply(s, es[0]);
      StepKeeps(s, es[0]);
      AttemptsStay(s, es[0]);
      if id !in s.jobs {
        StepKeepsGone(s, es[0], id);
      } else if id in s'.jobs {
        StepMoves(s, es[0], id);
        assert s'.jobs[id] == s.jobs[id];
      }
      TerminalAbsorbs(s', es[1..], id);
    }
  }

  /** A deleted job does not come back, since its ID is not drawn again. */
  lemma StepKeepsGone(s: State, e: Event, id: string)
    requires Inv(s) && Enabled(s, e) && id in s.attempts && id !in s.jobs
    ensures id !in Apply(s, e).jobs
  {
    if e.Submit? {
      SubmitKeeps(s, e);
    } else {
      OnlySubmitAdds(s, e);
    }
  }

  /** What Prune deletes is terminal at the moment of deletion, although it was chosen earlier. */
  lemma PruneDeletesTerminal(s: State, p: nat)
    requires Reachable(s) && Enabled(s, DeleteNext(p))
    ensures s.prunes[p][0] in s.jobs ==> Terminal(s.jobs[s.prunes[p][0]].status)
    ensures Apply(s, DeleteNext(p)).jobs == s.jobs - {s.prunes[p][0]}
  {
    ReachableOk(s);
    assert CandidatesOk(s, s.prunes[p]);
  }

  // ----- what each action does -----

  /** The stored job after a control: what each operation makes of each status, and nothing else. */
  ghost predicate ControlMakes(op: Operation, msg: string, code: string, j: Job, r: Job) {
    if op == Stop && j.status == RUNNING then r == j.(status := FINISHED, exitCode := Some(143))
    else if op == Kill && j.status == RUNNING then
      r == j.(status := KILLED, exitCode := Some(137), statusMsg := msg, statusCode := code)
    else if op == Cancel && j.status == PENDING then r == j.(status := CANCELED)
    else r == j
  }

  lemma ControlledMakes(op: Operation, msg: string, code: string, j: Job)
    ensures ControlMakes(op, msg, code, j, Controlled(op, msg, code, j))
    ensures Accepts(op, j) <==> Controlled(op, msg, code, j) != j
  {
  }

  /** The effect of an update on the stored jobs, for a callback that changes status and exit code only. */
  lemma DoStores(s: State, user: string, id: string, fn: Job -> Job, now: Time)
    requires Owns(s.jobs, user, id) && s.jobs[id].lastUpdated.Some?
    requires var j, r := s.jobs[id], fn(s.jobs[id]);
             && (j.exitCode.Some? ==> r.exitCode.Some?)
             && r == j.(status := r.status, statusMsg := r.statusMsg, statusCode := r.statusCode,
                        exitCode := r.exitCode)
    ensures Do(s, user, id, fn, now).jobs == s.jobs[id := fn(s.jobs[id])]
  {
    MergeSnapshot(s.jobs[id], fn(s.jobs[id]), now);
  }

  /** A control by a user who may see the job does what its operation says; by anyone else, nothing. */
  lemma ControlExactly(s: State, e: Event)
    requires Reachable(s) && e.Control?
    ensures var s' := Apply(s, e);
            if e.id in s.jobs && (e.user == "*" || s.jobs[e.id].user == e.user) then
              && e.id in s'.jobs && s'.jobs == s.jobs[e.id := s'.jobs[e.id]]
              && ControlMakes(e.op, e.msg, e.code, s.jobs[e.id], s'.jobs[e.id])
              && s'.controls == Bump(s.controls, e.id, s'.jobs[e.id] != s.jobs[e.id])
            else s'.jobs == s.jobs && s'.controls == s.controls
  {
    if Owns(s.jobs, e.user, e.id) {
      Bookkeeping(s, e.id);
      ControlStores(s, e);
      ControlledMakes(e.op, e.msg, e.code, s.jobs[e.id]);
    } else {
      ControlRefused(s, e);
    }
  }

  lemma ControlRefused(s: State, e: Event)
    requires e.Control? && !Owns(s.jobs, e.user, e.id)
    ensures Apply(s, e).jobs == s.jobs && Apply(s, e).controls == s.controls
  {
  }

  lemma ControlStores(s: State, e: Event)
    requires e.Control? && Owns(s.jobs, e.user, e.id) && s.jobs[e.id].lastUpdated.Some?
    ensures var j := s.jobs[e.id];
            && Apply(s, e).jobs == s.jobs[e.id := Controlled(e.op, e.msg, e.code, j)]
            && Apply(s, e).controls == Bump(s.controls, e.id, Accepts(e.op, j))
            && Apply(s, e).routines == s.routines
  {
    DoStores(s, e.user, e.id, j => Controlled(e.op, e.msg, e.code, j), e.now);
  }

  /** A submitted job is stored as given, pending, under the drawn ID and for the user who submits it. */
  lemma SubmitExactly(s: State, e: Event)
    requires Reachable(s) && Enabled(s, e) && e.Submit?
    ensures var s', id := Apply(s, e), s.drawn[e.t];
            && id !in s.jobs && s'.jobs.Keys == s.jobs.Keys + {id}
            && (forall k :: k in s.jobs ==> s'.jobs[k] == s.jobs[k])
            && var j := s'.jobs[id];
               && j.id == id && j.user == e.user && j.status == PENDING
               && j.submitted == Some(e.now) && j.lastUpdated == Some(e.now)
               && j == e.job.(id := j.id, user := j.user, status := j.status, submitted := j.submitted,
                              lastUpdated := j.lastUpdated)
  {
    ReachableOk(s);
    SubmitEnters(s, e);
  }

  /** A scan picks jobs that are stale at that moment, any of them. */
  lemma ScanExactly(s: State, p: nat, cutoff: Time, chosen: seq<string>)
    ensures Enabled(s, Scan(p, cutoff, chosen)) <==>
            && p !in s.prunes
            && forall c :: c in chosen ==>
                 && c in s.jobs && s.jobs[c].status in ["Canceled", "Failed", "Finished", "Killed"]
                 && exists t :: s.jobs[c].lastUpdated == Some(t) && t <= cutoff
    ensures Enabled(s, Scan(p, cutoff, chosen)) ==>
            && Apply(s, Scan(p, cutoff, chosen)).prunes == s.prunes[p := chosen]
            && Apply(s, Scan(p, cutoff, chosen)).jobs == s.jobs
  {
    forall c | c in chosen && c in s.jobs
      ensures Stale(s.jobs[c], cutoff) <==>
              && s.jobs[c].status in ["Canceled", "Failed", "Finished", "Killed"]
              && exists t :: s.jobs[c].lastUpdated == Some(t) && t <= cutoff
    {
      StaleExactly(s.jobs[c], cutoff);
    }
  }

  // ----- the goroutine of each job -----

  /** It acts for the job's owner, and knows from the tags whether it has to finish the job. */
  predicate RoutineOk(j: Job, r: Routine) {
    && r.user == j.user && r.pc <= 2 && (r.longRunning <==> "long-running" in j.tags)
    && (r.longRunning ==> r.pc != 1 && j.exitCode != Some(0))
    && (r.pc > 0 ==> j.status != PENDING)
    && (r.pc == 2 && !r.longRunning ==> Terminal(j.status))
  }

  ghost predicate RoutinesOk(s: State) {
    forall id :: id in s.jobs ==> id in s.routines && RoutineOk(s.jobs[id], s.routines[id])
  }

  /** The goroutine's two steps, on a job that it finds in either status. */
  ghost predicate MarkMakes(e: Event, j: Job, r: Job) {
    if e.MarkRunning? && j.status == PENDING then r == j.(status := RUNNING)
    else if e.MarkFinished? && j.status == RUNNING then r == j.(status := FINISHED, exitCode := Some(0))
    else r == j
  }

  lemma MarkStores(s: State, e: Event)
    requires Enabled(s, e) && (e.MarkRunning? || e.MarkFinished?) && Owns(s.jobs, s.routines[e.id].user, e.id)
    requires s.jobs[e.id].lastUpdated.Some?
    ensures Apply(s, e).jobs ==
            s.jobs[e.id := if e.MarkRunning? then ToRunning(s.jobs[e.id]) else ToFinished(s.jobs[e.id])]
  {
    DoStores(s, s.routines[e.id].user, e.id, if e.MarkRunning? then ToRunning else ToFinished, e.now);
  }

  lemma MarkExactly(s: State, e: Event)
    requires Inv(s) && RoutinesOk(s) && Enabled(s, e) && (e.MarkRunning? || e.MarkFinished?) && e.id in s.jobs
    ensures var s' := Apply(s, e);
            && e.id in s'.jobs && s'.jobs == s.jobs[e.id := s'.jobs[e.id]]
            && MarkMakes(e, s.jobs[e.id], s'.jobs[e.id])
  {
    assert JobOk(s.jobs[e.id], Count(s.attempts, e.id), Count(s.controls, e.id));
    assert RoutineOk(s.jobs[e.id], s.routines[e.id]);
    MarkStores(s, e);
    MarkedMakes(e, s.jobs[e.id]);
  }

  lemma MarkedMakes(e: Event, j: Job)
    requires e.MarkRunning? || e.MarkFinished?
    ensures MarkMakes(e, j, if e.MarkRunning? then ToRunning(j) else ToFinished(j))
  {
  }

  lemma MarkRoutine(s: State, e: Event, j: Job)
    requires Inv(s) && RoutinesOk(s) && Enabled(s, e) && (e.MarkRunning? || e.MarkFinished?) && e.id in s.jobs
    requires MarkMakes(e, s.jobs[e.id], j)
    ensures e.id in Apply(s, e).routines && RoutineOk(j, Apply(s, e).routines[e.id])
  {
    assert RoutineOk(s.jobs[e.id], s.routines[e.id]);
    assert JobOk(s.jobs[e.id], Count(s.attempts, e.id), Count(s.controls, e.id));
  }

  lemma MarkKeepsRoutines(s: State, e: Event)
    requires Inv(s) && RoutinesOk(s) && Enabled(s, e) && (e.MarkRunning? || e.MarkFinished?)
    ensures RoutinesOk(Apply(s, e))
  {
    var s' := Apply(s, e);
    MarkLeavesRoutines(s, e);
    if e.id in s.jobs {
      MarkExactly(s, e);
      MarkRoutine(s, e, s'.jobs[e.id]);
    }
  }

  lemma MarkLeavesRoutines(s: State, e: Event)
    requires Enabled(s, e) && (e.MarkRunning? || e.MarkFinished?)
    ensures forall id :: id in s.routines && id != e.id ==>
              id in Apply(s, e).routines && Apply(s, e).routines[id] == s.routines[id]
    ensures e.id !in s.jobs ==> Apply(s, e).jobs == s.jobs
  {
  }

  lemma ControlledRoutine(op: Operation, msg: string, code: string, j: Job, r: Routine)
    requires RoutineOk(j, r)
    ensures RoutineOk(Controlled(op, msg, code, j), r)
  {
  }

  lemma ControlKeepsRoutines(s: State, e: Event)
    requires Inv(s) && RoutinesOk(s) && e.Control?
    ensures RoutinesOk(Apply(s, e))
  {
    if Owns(s.jobs, e.user, e.id) {
      var j := s.jobs[e.id];
      assert JobOk(j, Count(s.attempts, e.id), Count(s.controls, e.id));
      ControlStores(s, e);
      ControlledRoutine(e.op, e.msg, e.code, j, s.routines[e.id]);
    }
  }

  lemma StepKeepsRoutines(s: State, e: Event)
    requires Inv(s) && RoutinesOk(s) && Enabled(s, e)
    ensures RoutinesOk(Apply(s, e))
  {
    match e
    case MarkRunning(_, _) => MarkKeepsRoutines(s, e);
    case MarkFinished(_, _) => MarkKeepsRoutines(s, e);
    case Control(_, _, _, _, _, _) => ControlKeepsRoutines(s, e);
    case Submit(_, _, _, _) => SubmitEnters(s, e);
    case _ => assert Apply(s, e).routines == s.routines;
  }

  lemma {:induction false} RunKeepsRoutines(s: State, es: seq<Event>)
    requires Inv(s) && RoutinesOk(s) && Exec(s, es).Some?
    ensures RoutinesOk(Exec(s, es).value)
    decreases |es|
  {
    if es != [] {
      StepKeeps(s, es[0]);
      StepKeepsRoutines(s, es[0]);
      RunKeepsRoutines(Apply(s, es[0]), es[1..]);
    }
  }

  /**
   * In every run: once its goroutine has acted a job is no longer pending, once it is done the job has
   * ended unless it is long-running, and a long-running job is never finished but by a control.
   */
  lemma RoutineEnds(s: State, id: string)
    requires Reachable(s) && id in s.jobs
    ensures id in s.routines && s.routines[id].user == s.jobs[id].user
    ensures s.routines[id].pc > 0 ==> s.jobs[id].status != PENDING
    ensures s.routines[id].pc == 2 && "long-running" !in s.jobs[id].tags ==> Terminal(s.jobs[id].status)
    ensures "long-running" in s.jobs[id].tags && s.jobs[id].status == FINISHED ==> s.jobs[id].exitCode == Some(143)
  {
    var es :| Exec(START, es) == Some(s);
    RunKeepsRoutines(START, es);
    ReachableOk(s);
    assert RoutineOk(s.jobs[id], s.routines[id]);
  }

  /** And its two steps take a pending job to running and a running one to finished with code 0. */
  lemma MarksExactly(s: State, e: Event)
    requires Reachable(s) && Enabled(s, e) && (e.MarkRunning? || e.MarkFinished?) && e.id in s.jobs
    ensures var s' := Apply(s, e);
            && e.id in s'.jobs && s'.jobs == s.jobs[e.id := s'.jobs[e.id]]
            && MarkMakes(e, s.jobs[e.id], s'.jobs[e.id])
  {
    var es :| Exec(START, es) == Some(s);
    RunKeepsRoutines(START, es);
    ReachableOk(s);
    MarkExactly(s, e);
  }
}
