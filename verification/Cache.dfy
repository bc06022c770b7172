/** One cache operation at a time: lookup, update, notification and pruning (cache/cache.go). */
module Cache {
  import opened Wrappers
  import opened Jobs
  import opened Store

  datatype Error = JobNotFound

  datatype StatusUpdate = StatusUpdate(
    id: string, user: string, name: string, status: string, statusCode: string, statusMsg: string)

  function UpdateOf(j: Job): (u: StatusUpdate) {
    StatusUpdate(j.id, j.user, j.name, j.status, j.statusCode, j.statusMsg)
  }

  /** Slots of the channel between the store's callbacks and the service goroutine. */
  const QUEUE_SLOTS := 64

  /** An update is announced for a new job, or when the status or its message changes. */
  predicate Announces(cur: Option<Job>, job: Job) {
    cur.None? || job.status != cur.value.status || job.statusMsg != cur.value.statusMsg
  }

  /** The store after AddOrUpdate. */
  function Added(jobs: map<string, Job>, job: Job, now: Time): (r: map<string, Job>) {
    After(jobs, Put(job.id, Some(job), now))
  }

  predicate Owns(jobs: map<string, Job>, user: string, id: string) {
    id in jobs && Visible(user, jobs[id])
  }

  /** The store after Update with a callback that returns `fn` of the stored job. */
  function Updated(jobs: map<string, Job>, user: string, id: string, fn: Job -> Job, now: Time): (r: map<string, Job>)
  {
    if Owns(jobs, user, id) then jobs[id := Merged(jobs[id], fn(jobs[id]), now)] else jobs
  }

  /** Every job stays under its own ID, even when a callback returns a job with another one. */
  lemma KeysStayMatched(jobs: map<string, Job>, job: Job, user: string, id: string, fn: Job -> Job, now: Time)
    requires KeysMatch(jobs)
    ensures KeysMatch(Added(jobs, job, now))
    ensures KeysMatch(Updated(jobs, user, id, fn, now))
  {
  }

  /** Finished, failed, killed or canceled, and last touched no later than the cutoff. */
  predicate Stale(j: Job, cutoff: Time) {
    Terminal(j.status) && j.lastUpdated.Some? && j.lastUpdated.value <= cutoff
  }

  /** A job of any terminal status, also a failed one, goes stale with its timestamp. */
  lemma StaleExactly(j: Job, cutoff: Time)
    ensures Stale(j, cutoff) <==>
            && j.status in ["Canceled", "Failed", "Finished", "Killed"]
            && exists t :: j.lastUpdated == Some(t) && t <= cutoff
  {
    TerminalExactly(j.status);
  }

  // ----- when Update sets the clock -----

  /**
   * A callback that changes an updatable field moves the timestamp to the time of the update exactly
   * if its result carries none; a callback that keeps the snapshot's, exactly if there was none.
   */
  lemma RefreshedExactly(jobs: map<string, Job>, user: string, id: string, fn: Job -> Job, now: Time)
    requires Owns(jobs, user, id) && Touched(jobs[id], fn(jobs[id])) != jobs[id]
    requires fn(jobs[id]).lastUpdated != Some(now)
    ensures var moved := Updated(jobs, user, id, fn, now)[id].lastUpdated == Some(now);
            && (moved <==> fn(jobs[id]).lastUpdated.None?)
            && (fn(jobs[id]).lastUpdated == jobs[id].lastUpdated ==> (moved <==> jobs[id].lastUpdated.None?))
    ensures Reported(jobs[id], fn(jobs[id]))
  {
  }

  /** One call of Update. */
  datatype Call = Call(user: string, id: string, fn: Job -> Job, now: Time)

  function UpdatedAll(jobs: map<string, Job>, calls: seq<Call>): (r: map<string, Job>)
    decreases |calls|
  {
    if calls == [] then jobs
    else
      var c := calls[0];
      UpdatedAll(Updated(jobs, c.user, c.id, c.fn, c.now), calls[1..])
  }

  ghost predicate KeepsTimestamp(fn: Job -> Job) {
    forall j :: fn(j).lastUpdated == j.lastUpdated
  }

  /** The time of the first call that changes the job. */
  function FirstChange(jobs: map<string, Job>, calls: seq<Call>, id: string): (r: Option<Time>)
    decreases |calls|
  {
    if calls == [] then None
    else
      var c := calls[0];
      if c.id == id && Owns(jobs, c.user, id) && Touched(jobs[id], c.fn(jobs[id])) != jobs[id] then Some(c.now)
      else FirstChange(Updated(jobs, c.user, c.id, c.fn, c.now), calls[1..], id)
  }

  /**
   * After any run of updates whose callbacks leave the timestamp alone, it is the one from before the
   * run, or else the time of the first change; later changes never move it.
   */
  lemma {:induction false} TimestampSticks(jobs: map<string, Job>, calls: seq<Call>, id: string)
    requires id in jobs && forall c :: c in calls ==> KeepsTimestamp(c.fn)
    ensures id in UpdatedAll(jobs, calls)
    ensures UpdatedAll(jobs, calls)[id].lastUpdated ==
            if jobs[id].lastUpdated.Some? then jobs[id].lastUpdated else FirstChange(jobs, calls, id)
    decreases |calls|
  {
    if calls != [] {
      var c := calls[0];
      assert c in calls && forall d :: d in calls[1..] ==> d in calls;
      TimestampSticks(Updated(jobs, c.user, c.id, c.fn, c.now), calls[1..], id);
    }
  }

  /** So a job that finished at 100 is stale at a cutoff of 50, and its update was reported as a change. */
  lemma FinishedYetStale() returns (jobs: map<string, Job>, fn: Job -> Job)
    ensures KeysMatch(jobs) && Owns(jobs, "ann", "1") && jobs["1"].status == RUNNING
    ensures KeepsTimestamp(fn) && Reported(jobs["1"], fn(jobs["1"]))
    ensures var after := Updated(jobs, "ann", "1", fn, 100)["1"];
            after.status == FINISHED && after.lastUpdated == Some(0) && Stale(after, 50)
  {
    jobs := map["1" := BareJob("1").(user := "ann", status := RUNNING, lastUpdated := Some(0))];
    fn := (j: Job) => j.(status := FINISHED);
  }

  const TERMINAL := Filter([], None, None, [CANCELED, FAILED, FINISHED, KILLED], [])

  class JobCache {
    const store: InMemoryStore
    var ch: seq<StatusUpdate>
    var stop: bool

    constructor ()
      ensures fresh(store) && Valid() && store.jobs == map[] && ch == [] && !stop
    {
      store := new InMemoryStore();
      ch, stop := [], false;
    }

    ghost predicate Valid()
      reads this, store
    {
      KeysMatch(store.jobs) && |ch| <= QUEUE_SLOTS
    }

    /** The job that a user may see, handed to the caller as a snapshot. */
    method Lookup(user: string, id: string) returns (r: Result<Job, Error>)
      ensures r == if Owns(store.jobs, user, id) then Ok(store.jobs[id]) else Err(JobNotFound)
    {
      var job := Find(store.jobs, id);
      if job.None? || (user != "*" && job.value.user != user) {
        return Err(JobNotFound);
      }
      return Ok(job.value);
    }

    /** Queue an update without blocking; a closing cache may queue or discard it. */
    method Notify(job: Job)
      requires |ch| <= QUEUE_SLOTS
      modifies this`ch
      ensures |ch| <= QUEUE_SLOTS
      ensures ch == old(ch) + [UpdateOf(job)] || (ch == old(ch) && (stop || |ch| == QUEUE_SLOTS))
    {
      var discard: bool := *;
      if |ch| < QUEUE_SLOTS && !(stop && discard) {
        ch := ch + [UpdateOf(job)];
      }
    }

    /** Cache a copy of a job or merge it into the cached one, announcing a status change. */
    method AddOrUpdate(job: Job, now: Time)
      requires Valid()
      modifies this`ch, store
      ensures Valid()
      ensures store.jobs == Added(old(store.jobs), job, now)
      ensures !Announces(Find(old(store.jobs), job.id), job) ==> ch == old(ch)
      ensures Announces(Find(old(store.jobs), job.id), job) && !stop && |old(ch)| < QUEUE_SLOTS ==>
                ch == old(ch) + [UpdateOf(job)]
      ensures ch == old(ch) || ch == old(ch) + [UpdateOf(job)]
    {
      if Announces(Find(store.jobs, job.id), job) {
        Notify(job);
      }
      var _ := store.Update(job.id, _ => Some(job), now);
    }

    /** Run a callback on the cached job and merge its result; a missing or foreign job changes nothing. */
    method Update(user: string, id: string, fn: Job -> Job, now: Time) returns (r: Result<(), Error>)
      requires Valid()
      modifies this`ch, store
      ensures Valid()
      ensures store.jobs == Updated(old(store.jobs), user, id, fn, now)
      ensures r.Ok? <==> Owns(old(store.jobs), user, id)
      ensures r.Err? ==> ch == old(ch) && store.jobs == old(store.jobs)
      ensures r.Ok? && !Announces(Some(old(store.jobs)[id]), fn(old(store.jobs)[id])) ==> ch == old(ch)
      ensures r.Ok? && Announces(Some(old(store.jobs)[id]), fn(old(store.jobs)[id])) &&
              !stop && |old(ch)| < QUEUE_SLOTS ==>
                ch == old(ch) + [UpdateOf(fn(old(store.jobs)[id]))]
      ensures ch == old(ch) || (r.Ok? && ch == old(ch) + [UpdateOf(fn(old(store.jobs)[id]))])
    {
      var cur := Find(store.jobs, id);
      if cur.None? || (user != "*" && cur.value.user != user) {
        // The callback hands the snapshot back, which still goes through the merge.
        if cur.Some? {
          MergeSelf(cur.value, now);
        }
        var _ := store.Update(id, c => c, now);
        assert store.jobs == old(store.jobs);
        return Err(JobNotFound);
      }
      var job := fn(cur.value);
      if job.status != cur.value.status || job.statusMsg != cur.value.statusMsg {
        Notify(job);
      }
      var _ := store.Update(id, _ => Some(job), now);
      return Ok(());
    }

    /**
     * Offer the stale jobs to the caller, in any order, until one is declined; then delete those
     * accepted. `offered` lists the jobs that were offered.
     */
    method Prune(cutoff: Time, accept: Job -> bool) returns (offered: seq<Job>)
      requires Valid()
      modifies store
      ensures Valid()
      ensures Distinct(Ids(offered))
      ensures forall j :: j in offered ==> Find(old(store.jobs), j.id) == Some(j) && Stale(j, cutoff)
      ensures store.jobs == old(store.jobs) - set j | j in offered && accept(j) :: j.id
      ensures forall i :: 0 <= i < |offered| - 1 ==> accept(offered[i])
      ensures (forall j :: j in offered ==> accept(j)) ==>
                forall k :: k in store.jobs ==> !Stale(store.jobs[k], cutoff)
    {
      var candidates;
      offered, candidates := StaleJobs(store.jobs, cutoff, accept);
      for i := 0 to |candidates|
        invariant store.jobs == old(store.jobs) - Elems(candidates[..i])
      {
        assert candidates[..i + 1] == candidates[..i] + [candidates[i]];
        store.Delete(candidates[i]);
      }
      assert candidates[..|candidates|] == candidates;
    }
  }

  /** The scan of Prune, which runs under the store's read lock. */
  method StaleJobs(jobs: map<string, Job>, cutoff: Time, accept: Job -> bool)
    returns (offered: seq<Job>, candidates: seq<string>)
    requires KeysMatch(jobs)
    ensures Distinct(Ids(offered))
    ensures forall j :: j in offered ==> Find(jobs, j.id) == Some(j) && Stale(j, cutoff)
    ensures Elems(candidates) == set j | j in offered && accept(j) :: j.id
    ensures forall i :: 0 <= i < |offered| - 1 ==> accept(offered[i])
    ensures (forall j :: j in offered ==> accept(j)) ==>
              forall k :: k in jobs && Stale(jobs[k], cutoff) ==> k in candidates
  {
    offered, candidates := [], [];
    var todo := jobs.Keys;
    while todo != {}
      invariant Scanned(jobs, cutoff, accept, offered, candidates, todo)
      decreases |todo|
    {
      var k :| k in todo;
      ScanNext(jobs, cutoff, accept, offered, candidates, todo, k);
      todo := todo - {k};
      var job := jobs[k];
      var stale := IsStale(job, cutoff);
      if stale {
        offered := offered + [job];
        if !accept(job) {
          break;
        }
        candidates := candidates + [job.id];
      }
    }
    YieldedIds(offered, candidates, accept);
  }

  /** The scan so far, with these keys still to come: all stale jobs among the others were accepted. */
  ghost predicate Scanned(jobs: map<string, Job>, cutoff: Time, accept: Job -> bool,
                          offered: seq<Job>, candidates: seq<string>, todo: set<string>) {
    && todo <= jobs.Keys && candidates == Ids(offered) && Distinct(candidates)
    && (forall j :: j in offered ==>
          j.id !in todo && Find(jobs, j.id) == Some(j) && Stale(j, cutoff) && accept(j))
    && (forall k :: k in jobs && k !in todo && Stale(jobs[k], cutoff) ==> k in candidates)
  }

  /** One round: a job that is not stale is passed over, a stale one is offered. */
  lemma ScanNext(jobs: map<string, Job>, cutoff: Time, accept: Job -> bool,
                 offered: seq<Job>, candidates: seq<string>, todo: set<string>, k: string)
    requires KeysMatch(jobs) && Scanned(jobs, cutoff, accept, offered, candidates, todo) && k in todo
    ensures !Stale(jobs[k], cutoff) ==> Scanned(jobs, cutoff, accept, offered, candidates, todo - {k})
    ensures Ids(offered + [jobs[k]]) == candidates + [k] && Distinct(candidates + [k])
    ensures Stale(jobs[k], cutoff) && accept(jobs[k]) ==>
              Scanned(jobs, cutoff, accept, offered + [jobs[k]], candidates + [k], todo - {k})
  {
    assert Ids(offered + [jobs[k]]) == candidates + [k];
    assert k !in candidates by {
      assert forall i :: 0 <= i < |offered| ==> offered[i] in offered && candidates[i] == offered[i].id;
    }
  }

  /** The filter and the test at the head of the scan. */
  method IsStale(job: Job, cutoff: Time) returns (r: bool)
    ensures r <==> Stale(job, cutoff)
  {
    var terminal := Includes(TERMINAL, job);
    return terminal && job.lastUpdated.Some? && !(job.lastUpdated.value > cutoff);
  }

  lemma YieldedIds(offered: seq<Job>, candidates: seq<string>, accept: Job -> bool)
    requires |candidates| <= |offered| <= |candidates| + 1
    requires candidates == Ids(offered)[..|candidates|]
    requires forall i :: 0 <= i < |candidates| ==> accept(offered[i])
    requires |candidates| < |offered| ==> !accept(offered[|candidates|])
    ensures Elems(candidates) == set j | j in offered && accept(j) :: j.id
  {
    var accepted := set j | j in offered && accept(j) :: j.id;
    forall x | x in candidates ensures x in accepted {
      var i :| 0 <= i < |candidates| && candidates[i] == x;
      assert offered[i] in offered && Ids(offered)[i] == x;
    }
    forall x | x in accepted ensures x in candidates {
      var j :| j in offered && accept(j) && j.id == x;
      var i :| 0 <= i < |offered| && offered[i] == j;
      assert candidates[i] == Ids(offered)[i] == x;
    }
  }
}
