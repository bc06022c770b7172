/** The in-memory job store (cache/store.go). */
module Store {
  import opened Wrappers
  import opened Jobs
  import opened IdOrder

  // ----- the restricted merge -----

  /** The stored job with the updatable fields of the input, before any timestamp. */
  function Touched(cur: Job, input: Job): (r: Job) {
    cur.(status := input.status,
         statusMsg := input.statusMsg,
         statusCode := input.statusCode,
         pid := if input.pid.Some? then input.pid else cur.pid,
         host := if input.host != "" then input.host else cur.host,
         exitCode := if input.exitCode.Some? then input.exitCode else cur.exitCode,
         submitted := if input.submitted.Some? then input.submitted else cur.submitted)
  }

  /** What the store holds after an update: a given timestamp wins, else a change sets the clock. */
  function Merged(cur: Job, input: Job, now: Time): (r: Job) {
    var t := Touched(cur, input);
    t.(lastUpdated := if input.lastUpdated.Some? then input.lastUpdated
                      else if t != cur then Some(now) else cur.lastUpdated)
  }

  /** The merge reports a change for any given timestamp, also an unchanged one. */
  predicate Reported(cur: Job, input: Job) {
    input.lastUpdated.Some? || Touched(cur, input) != cur
  }

  /** The field-by-field merge of syncJob2. */
  method SyncJob(cur: Job, input: Job, now: Time) returns (job: Job, updated: bool)
    ensures job == Merged(cur, input, now)
    ensures updated <==> Reported(cur, input)
  {
    job, updated := SyncStatus(cur, input);
    if input.pid.Some? && (job.pid.None? || input.pid.value != job.pid.value) {
      job, updated := job.(pid := input.pid), true;
    }
    if input.host != "" && input.host != job.host {
      job, updated := job.(host := input.host), true;
    }
    assert job.(exitCode := cur.exitCode) == job && (updated <==> job != cur);
    if input.exitCode.Some? && (job.exitCode.None? || input.exitCode.value != job.exitCode.value) {
      job, updated := job.(exitCode := input.exitCode), true;
    }
    if input.submitted.Some? && (job.submitted.None? || input.submitted.value != job.submitted.value) {
      job, updated := job.(submitted := input.submitted), true;
    }
    assert job == Touched(cur, input) && (updated <==> job != cur);
    if input.lastUpdated.Some? {
      return job.(lastUpdated := input.lastUpdated), true;
    }
    if !updated {
      return job, false;
    }
    job := job.(lastUpdated := Some(now));
  }

  /** The three status fields are always taken over. */
  method SyncStatus(cur: Job, input: Job) returns (job: Job, updated: bool)
    ensures job == cur.(status := input.status, statusMsg := input.statusMsg,
                        statusCode := input.statusCode)
    ensures updated <==> job != cur
  {
    job, updated := cur, false;
    if input.status != job.status {
      job, updated := job.(status := input.status), true;
    }
    if input.statusMsg != job.statusMsg {
      job, updated := job.(statusMsg := input.statusMsg), true;
    }
    if input.statusCode != job.statusCode {
      job, updated := job.(statusCode := input.statusCode), true;
    }
  }

  /** Merging the same input again, at any later time, changes nothing. */
  lemma MergeIdempotent(cur: Job, input: Job, now: Time, later: Time)
    ensures Merged(Merged(cur, input, now), input, later) == Merged(cur, input, now)
  {
    var once := Merged(cur, input, now);
    assert Touched(once, input) == once.(lastUpdated := once.lastUpdated);
  }

  /** Writing a snapshot back changes nothing, although it counts as an update when timestamped. */
  lemma MergeSelf(j: Job, now: Time)
    ensures Merged(j, j, now) == j
  {
    assert Touched(j, j) == j;
  }

  /**
   * The clock is taken exactly for a change without a given timestamp; a given one is stored. A change
   * is reported exactly if one of these happened or a field changed.
   */
  lemma MergeTimestamp(cur: Job, input: Job, now: Time)
    ensures var r := Merged(cur, input, now);
            var changed := r.(lastUpdated := cur.lastUpdated) != cur;
            && r.lastUpdated ==
               (if input.lastUpdated.Some? then input.lastUpdated else if changed then Some(now) else cur.lastUpdated)
            && (Reported(cur, input) <==> input.lastUpdated.Some? || changed)
  {
  }

  /** Every field outside the eight updatable ones agrees. */
  ghost predicate SameIdentity(a: Job, b: Job) {
    && a.id == b.id && a.user == b.user && a.name == b.name && a.tags == b.tags
    && a.details == b.details && a.misc == b.misc
  }

  /** Nothing that was set has become unset. */
  ghost predicate NothingUnset(a: Job, b: Job) {
    && (a.pid.Some? ==> b.pid.Some?)
    && (a.host != "" ==> b.host != "")
    && (a.exitCode.Some? ==> b.exitCode.Some?)
    && (a.submitted.Some? ==> b.submitted.Some?)
    && (a.lastUpdated.Some? ==> b.lastUpdated.Some?)
  }

  // ----- whole runs of the store -----

  /** One locked store operation; Put carries the job its callback returned, or None for nil. */
  datatype Write = Put(key: string, result: Option<Job>, now: Time) | Remove(key: string)

  function Find(jobs: map<string, Job>, id: string): (r: Option<Job>) {
    if id in jobs then Some(jobs[id]) else None
  }

  function After(jobs: map<string, Job>, w: Write): (r: map<string, Job>) {
    match w
    case Remove(key) => jobs - {key}
    case Put(key, None, _) => jobs
    case Put(key, Some(input), now) =>
      jobs[key := if key in jobs then Merged(jobs[key], input, now) else input]
  }

  function AfterAll(jobs: map<string, Job>, ws: seq<Write>): (r: map<string, Job>)
    decreases |ws|
  {
    if ws == [] then jobs else AfterAll(After(jobs, ws[0]), ws[1..])
  }

  /** From insertion to deletion a job keeps its identity and what was set, whatever is written. */
  lemma {:induction false} RestrictedMerge(jobs: map<string, Job>, ws: seq<Write>, key: string)
    requires key in jobs
    requires forall w :: w in ws ==> w != Remove(key)
    ensures key in AfterAll(jobs, ws)
    ensures SameIdentity(jobs[key], AfterAll(jobs, ws)[key])
    ensures NothingUnset(jobs[key], AfterAll(jobs, ws)[key])
    decreases |ws|
  {
    if ws != [] {
      assert ws[0] in ws && forall w :: w in ws[1..] ==> w in ws;
      RestrictedMerge(After(jobs, ws[0]), ws[1..], key);
    }
  }

  /** Writes to other keys leave a job alone. */
  lemma {:induction false} OtherKeysUntouched(jobs: map<string, Job>, ws: seq<Write>, key: string)
    requires forall w :: w in ws ==> w.key != key
    ensures Find(AfterAll(jobs, ws), key) == Find(jobs, key)
    decreases |ws|
  {
    if ws != [] {
      assert ws[0] in ws && forall w :: w in ws[1..] ==> w in ws;
      OtherKeysUntouched(After(jobs, ws[0]), ws[1..], key);
    }
  }

  // ----- the last write wins -----

  function PidOf(j: Job): (v: Option<int>) { j.pid }
  function HostOf(j: Job): (v: Option<string>) { if j.host == "" then None else Some(j.host) }
  function ExitCodeOf(j: Job): (v: Option<int>) { j.exitCode }
  function SubmittedOf(j: Job): (v: Option<Time>) { j.submitted }
  function StatusOf(j: Job): (v: Option<string>) { Some(j.status) }
  function StatusMsgOf(j: Job): (v: Option<string>) { Some(j.statusMsg) }
  function StatusCodeOf(j: Job): (v: Option<string>) { Some(j.statusCode) }

  /** The value that the last write to the key that sets the field gives it, or else the initial one. */
  function LastSet<T>(initial: Option<T>, ws: seq<Write>, key: string, field: Job -> Option<T>): (v: Option<T>) {
    if ws == [] then initial
    else
      var w := ws[|ws| - 1];
      if w.Put? && w.key == key && w.result.Some? && field(w.result.value).Some? then field(w.result.value)
      else LastSet(initial, ws[..|ws| - 1], key, field)
  }

  lemma {:induction false} AfterAllSnoc(jobs: map<string, Job>, ws: seq<Write>, w: Write)
    ensures AfterAll(jobs, ws + [w]) == After(AfterAll(jobs, ws), w)
    decreases |ws|
  {
    ConcatTail(ws, [w]);
    if ws == [] {
      assert [w][1..] == [];
    } else {
      AfterAllSnoc(After(jobs, ws[0]), ws[1..], w);
    }
  }

  ghost predicate Overwrites<T(!new)>(field: Job -> Option<T>) {
    forall cur, input, now ::
      field(Merged(cur, input, now)) == if field(input).Some? then field(input) else field(cur)
  }

  lemma {:induction false} LastSetWins<T(!new)>(
    jobs: map<string, Job>, ws: seq<Write>, key: string, field: Job -> Option<T>)
    requires key in jobs && Overwrites(field)
    requires forall w :: w in ws ==> w != Remove(key)
    ensures key in AfterAll(jobs, ws)
    ensures field(AfterAll(jobs, ws)[key]) == LastSet(field(jobs[key]), ws, key, field)
    decreases |ws|
  {
    if ws != [] {
      var front, w := ws[..|ws| - 1], ws[|ws| - 1];
      assert ws == front + [w] && w in ws && forall x :: x in front ==> x in ws;
      LastSetWins(jobs, front, key, field);
      AfterAllSnoc(jobs, front, w);
    }
  }

  /** From insertion to deletion each updatable field is what the last write that sets it says. */
  lemma LastWriteWins(jobs: map<string, Job>, ws: seq<Write>, key: string)
    requires key in jobs
    requires forall w :: w in ws ==> w != Remove(key)
    ensures key in AfterAll(jobs, ws)
    ensures var j, r := jobs[key], AfterAll(jobs, ws)[key];
            && r.pid == LastSet(j.pid, ws, key, PidOf)
            && HostOf(r) == LastSet(HostOf(j), ws, key, HostOf)
            && r.exitCode == LastSet(j.exitCode, ws, key, ExitCodeOf)
            && r.submitted == LastSet(j.submitted, ws, key, SubmittedOf)
            && Some(r.status) == LastSet(Some(j.status), ws, key, StatusOf)
            && Some(r.statusMsg) == LastSet(Some(j.statusMsg), ws, key, StatusMsgOf)
            && Some(r.statusCode) == LastSet(Some(j.statusCode), ws, key, StatusCodeOf)
  {
    LastSetWins(jobs, ws, key, PidOf);
    LastSetWins(jobs, ws, key, HostOf);
    LastSetWins(jobs, ws, key, ExitCodeOf);
    LastSetWins(jobs, ws, key, SubmittedOf);
    LastSetWins(jobs, ws, key, StatusOf);
    LastSetWins(jobs, ws, key, StatusMsgOf);
    LastSetWins(jobs, ws, key, StatusCodeOf);
  }

  /** A new job is stored as it is given, and stays so under writes to other keys. */
  lemma InsertedAsGiven(jobs: map<string, Job>, key: string, job: Job, now: Time, ws: seq<Write>)
    requires key !in jobs && forall w :: w in ws ==> w.key != key
    ensures Find(AfterAll(After(jobs, Put(key, Some(job), now)), ws), key) == Some(job)
  {
    OtherKeysUntouched(After(jobs, Put(key, Some(job), now)), ws, key);
  }

  /** A deleted job is gone until somebody stores it again. */
  lemma {:induction false} RemovedIsGone(jobs: map<string, Job>, key: string, ws: seq<Write>)
    requires forall w :: w in ws ==> w.Put? ==> w.key != key
    ensures key !in AfterAll(After(jobs, Remove(key)), ws)
  {
    if ws != [] {
      var front, w := ws[..|ws| - 1], ws[|ws| - 1];
      assert ws == front + [w] && w in ws && forall x :: x in front ==> x in ws;
      RemovedIsGone(jobs, key, front);
      AfterAllSnoc(After(jobs, Remove(key)), front, w);
    }
  }

  // ----- queries -----

  /** Every job is stored under its own ID. */
  ghost predicate KeysMatch(jobs: map<string, Job>) {
    forall k :: k in jobs ==> jobs[k].id == k
  }

  predicate Visible(user: string, j: Job) {
    user == "*" || j.user == user
  }

  ghost predicate Wanted(user: string, filter: Option<Filter>, j: Job)
    requires Visible(user, j) && filter.Some? ==> TimesKnown(filter.value, j)
  {
    Visible(user, j) && (filter.Some? ==> Included(filter.value, j))
  }

  /** A query with a time bound needs the submission time of every job it looks at. */
  ghost predicate Answerable(jobs: map<string, Job>, user: string, filter: Option<Filter>) {
    forall k :: k in jobs && Visible(user, jobs[k]) && filter.Some? ==> TimesKnown(filter.value, jobs[k])
  }

  ghost function WantedIds(jobs: map<string, Job>, user: string, filter: Option<Filter>): set<string>
    requires Answerable(jobs, user, filter)
  {
    set k | k in jobs && Wanted(user, filter, jobs[k])
  }

  ghost function Shown(filter: Option<Filter>, j: Job): Job {
    if filter.None? then j else Projected(j, filter.value.fields)
  }

  ghost function Ids(js: seq<Job>): seq<string> {
    seq(|js|, i requires 0 <= i < |js| => js[i].id)
  }

  /** The list holds exactly the wanted jobs, projected, in ID order. */
  ghost predicate Answers(jobs: map<string, Job>, user: string, filter: Option<Filter>, out: seq<Job>)
    requires Answerable(jobs, user, filter)
  {
    && Sorted(Ids(out))
    && Elems(Ids(out)) == WantedIds(jobs, user, filter)
    && forall i :: 0 <= i < |out| ==> out[i].id in jobs && out[i] == Shown(filter, jobs[out[i].id])
  }

  /** A query has one answer, whatever order the map is walked in. */
  lemma AnswerUnique(jobs: map<string, Job>, user: string, filter: Option<Filter>, a: seq<Job>, b: seq<Job>)
    requires Answerable(jobs, user, filter)
    requires Answers(jobs, user, filter, a) && Answers(jobs, user, filter, b)
    ensures a == b
  {
    SortedUnique(Ids(a), Ids(b));
    assert |a| == |Ids(a)| == |Ids(b)| == |b|;
    forall i | 0 <= i < |a| ensures a[i] == b[i] {
      assert Ids(a)[i] == Ids(b)[i];
    }
  }

  class InMemoryStore {
    var jobs: map<string, Job>

    constructor ()
      ensures jobs == map[]
    {
      jobs := map[];
    }

    /** Replace or merge the job that the callback returns; nil leaves the store alone. */
    method Update(id: string, fn: Option<Job> -> Option<Job>, now: Time) returns (updated: bool)
      modifies this
      ensures jobs == After(old(jobs), Put(id, fn(Find(old(jobs), id)), now))
      ensures updated <==>
                var input := fn(Find(old(jobs), id));
                id in old(jobs) && input.Some? && Reported(old(jobs)[id], input.value)
      ensures !updated && id in old(jobs) ==> jobs == old(jobs)
    {
      var snapshot := Find(jobs, id);
      var input := fn(snapshot);
      if input.None? {
        return false;
      }
      if snapshot.None? {
        jobs := jobs[id := input.value];
        return false;
      }
      var result;
      result, updated := SyncJob(snapshot.value, input.value, now);
      jobs := jobs[id := result];
    }

    method Delete(id: string)
      modifies this
      ensures jobs == After(old(jobs), Remove(id))
    {
      jobs := jobs - {id};
    }

    /** Walk the map in any order, sort the IDs, then look each one up and project it. */
    method JobsForUser(user: string, filter: Option<Filter>) returns (out: seq<Job>)
      requires KeysMatch(jobs) && Answerable(jobs, user, filter)
      ensures Answers(jobs, user, filter, out)
    {
      var ids := CollectIds(jobs, user, filter);
      ids := SortIds(ids);
      out := [];
      assert forall x :: x in ids ==> x in Elems(ids) && x in jobs;
      for i := 0 to |ids|
        invariant |out| == i
        invariant forall n :: 0 <= n < i ==>
            ids[n] in jobs && out[n].id == ids[n] && out[n] == Shown(filter, jobs[ids[n]])
      {
        var snapshot := jobs[ids[i]];
        if filter.Some? {
          snapshot := WithFields(snapshot, filter.value.fields);
        }
        out := out + [snapshot];
      }
      assert Ids(out) == ids;
    }
  }

  /** One round of the first loop below: key k is done, and kept if it is wanted. */
  lemma WantedStep(jobs: map<string, Job>, user: string, filter: Option<Filter>, todo: set<string>, k: string,
                   ids: seq<string>)
    requires Answerable(jobs, user, filter) && todo <= jobs.Keys && k in todo
    requires Distinct(ids) && Elems(ids) == WantedIds(jobs, user, filter) - todo
    ensures var ids' := if Wanted(user, filter, jobs[k]) then ids + [k] else ids;
            Distinct(ids') && Elems(ids') == WantedIds(jobs, user, filter) - (todo - {k})
  {
    assert k !in Elems(ids);
    ElemsConcat(ids, [k]);
    assert Elems([k]) == {k};
  }

  /** The first loop of the query: the IDs of the wanted jobs, in map order. */
  method CollectIds(jobs: map<string, Job>, user: string, filter: Option<Filter>) returns (ids: seq<string>)
    requires KeysMatch(jobs) && Answerable(jobs, user, filter)
    ensures Distinct(ids) && Elems(ids) == WantedIds(jobs, user, filter)
  {
    ids := [];
    var todo := jobs.Keys;
    while todo != {}
      invariant todo <= jobs.Keys
      invariant Distinct(ids)
      invariant Elems(ids) == WantedIds(jobs, user, filter) - todo
      decreases |todo|
    {
      var k :| k in todo;
      var wanted := IsWanted(user, filter, jobs[k]);
      WantedStep(jobs, user, filter, todo, k, ids);
      if wanted {
        ids := ids + [jobs[k].id];
      }
      todo := todo - {k};
    }
  }

  /** The two tests at the head of each query loop. */
  method IsWanted(user: string, filter: Option<Filter>, job: Job) returns (r: bool)
    requires Visible(user, job) && filter.Some? ==> TimesKnown(filter.value, job)
    ensures r <==> Wanted(user, filter, job)
  {
    if user != "*" && job.user != user {
      return false;
    }
    if filter.Some? {
      r := Includes(filter.value, job);
      return;
    }
    return true;
  }
}
