/** Publish attempts and status commits correspond one to one, and the queue keeps their order. */
module PubSubStore {
  import opened Wrappers
  import opened Jobs
  import opened Store
  import opened Cache
  import opened PubSub

  /** The attempt announced what the commit stored, and the commit changed the status. */
  predicate Records(c: Commit, a: Attempt) {
    && c.key == a.key
    && StatusChanged(c.before, c.after)
    && c.after.status == a.u.status && c.after.statusMsg == a.u.statusMsg
    && c.after.statusCode == a.u.statusCode
  }

  ghost predicate Recorded(log: seq<Attempt>, commits: seq<Commit>) {
    |commits| <= |log| && forall i :: 0 <= i < |commits| ==> Records(commits[i], log[i])
  }

  /** The stored status of a job is the one that its latest commit announced. */
  ghost predicate Latest(k: string, j: Job, log: seq<Attempt>, committed: nat, last: map<string, nat>) {
    && k in last && last[k] < committed <= |log|
    && log[last[k]].key == k
    && log[last[k]].u.status == j.status
    && log[last[k]].u.statusMsg == j.statusMsg
    && forall i :: last[k] < i < committed ==> log[i].key != k
  }

  ghost predicate AllLatest(jobs: map<string, Job>, log: seq<Attempt>, committed: nat, last: map<string, nat>) {
    forall k :: k in jobs ==> Latest(k, jobs[k], log, committed, last)
  }

  /** The pending writer announced its result, in the log entry after the committed ones. */
  predicate Announced(l: Ledger) {
    l.writer.Some? && Announces(Find(l.jobs, l.writer.value.key), l.writer.value.input)
  }

  ghost predicate InvStore(l: Ledger) {
    && KeysMatch(l.jobs)
    && |l.log| == |l.commits| + (if Announced(l) then 1 else 0)
    && Recorded(l.log, l.commits)
    && AllLatest(l.jobs, l.log, |l.commits|, l.last)
    && (l.writer.Some? && l.writer.value.key !in l.jobs ==> l.writer.value.input.id == l.writer.value.key)
    && (Announced(l) ==> l.log[|l.commits|].key == l.writer.value.key &&
                         l.log[|l.commits|].u == UpdateOf(l.writer.value.input))
  }

  lemma LogGrows(jobs: map<string, Job>, log: seq<Attempt>, commits: seq<Commit>, last: map<string, nat>, a: Attempt)
    requires Recorded(log, commits) && AllLatest(jobs, log, |commits|, last)
    ensures Recorded(log + [a], commits) && AllLatest(jobs, log + [a], |commits|, last)
  {
    forall k | k in jobs ensures Latest(k, jobs[k], log + [a], |commits|, last) {
      assert Latest(k, jobs[k], log, |commits|, last);
    }
  }

  lemma BeginKeepsStore(s: State, p: Pending, discard: bool)
    requires InvStore(s.store) && s.store.writer.None?
    requires p.key in s.store.jobs || p.input.id == p.key
    ensures InvStore(Begin(s, p, discard).store)
  {
    if Announces(Find(s.store.jobs, p.key), p.input) {
      LogGrows(s.store.jobs, s.store.log, s.store.commits, s.store.last,
               Attempt(p.key, UpdateOf(p.input), FateOf(s, discard)));
    }
  }

  /** A write is a status commit exactly when its callback announced it, and stores what it announced. */
  lemma AnnouncedIffCommitted(jobs: map<string, Job>, p: Pending)
    ensures var after := After(jobs, Put(p.key, Some(p.input), p.now));
            && p.key in after
            && UpdateOf(after[p.key]).(id := p.input.id, user := p.input.user, name := p.input.name) ==
               UpdateOf(p.input)
            && (StatusChanged(Find(jobs, p.key), after[p.key]) <==> Announces(Find(jobs, p.key), p.input))
            && after[p.key].id == (if p.key in jobs then jobs[p.key].id else p.input.id)
  {
  }

  lemma CommitKeepsLatest(l: Ledger, k: string)
    requires InvStore(l) && l.writer.Some? && k in Complete(l).jobs
    ensures var r := Complete(l); Latest(k, r.jobs[k], r.log, |r.commits|, r.last)
  {
    AnnouncedIffCommitted(l.jobs, l.writer.value);
    if k in l.jobs {
      assert Latest(k, l.jobs[k], l.log, |l.commits|, l.last);
    }
  }

  lemma CommitKeepsRecord(l: Ledger)
    requires InvStore(l) && l.writer.Some?
    ensures var r := Complete(l);
            KeysMatch(r.jobs) && |r.log| == |r.commits| && Recorded(r.log, r.commits) && r.writer.None?
  {
    AnnouncedIffCommitted(l.jobs, l.writer.value);
  }

  lemma CommitKeepsStore(l: Ledger)
    requires InvStore(l) && l.writer.Some?
    ensures InvStore(Complete(l))
  {
    CommitKeepsRecord(l);
    var r := Complete(l);
    forall k | k in r.jobs ensures Latest(k, r.jobs[k], r.log, |r.commits|, r.last) {
      CommitKeepsLatest(l, k);
    }
  }

  lemma WriterKeepsStore(s: State, e: WriterEvent)
    requires InvStore(s.store) && WriterEnabled(s, e)
    ensures InvStore(WriterStep(s, e).store)
  {
    match e
    case BeginAdd(job, now, discard) => BeginKeepsStore(s, Pending(job.id, job, now), discard);
    case BeginUpdate(_, key, result, now, discard) => BeginKeepsStore(s, Pending(key, result, now), discard);
    case CommitWrite => CommitKeepsStore(s.store);
    case Delete(_) =>
  }

  /** The two steps of a write that nobody interrupts are the store update as one call. */
  lemma WriteIsTwoSteps(s: State, p: Pending, discard: bool)
    ensures Complete(Begin(s, p, discard).store).jobs == After(s.store.jobs, Put(p.key, Some(p.input), p.now))
    ensures Complete(Begin(s, p, discard).store).writer.None?
    ensures forall key :: s.store.writer.None? ==>
              WriterStep(s, Delete(key)).store.jobs == After(s.store.jobs, Remove(key))
  {
    var l := Begin(s, p, discard).store;
    assert l.jobs == s.store.jobs && l.writer == Some(p);
  }

  // ----- the queue -----

  ghost predicate PipeOk(pipe: seq<nat>, log: seq<Attempt>) {
    && Increasing(pipe)
    && (forall n :: n in pipe ==> n < |log| && log[n].fate == Enqueued)
    && (forall n :: First(pipe, log) <= n < |log| && log[n].fate == Enqueued ==> n in pipe)
  }

  ghost predicate InvQueue(s: State) {
    |s.queue| <= QUEUE_SLOTS && PipeOk(Pipe(s), s.store.log)
  }

  lemma PipeExtends(pipe: seq<nat>, log: seq<Attempt>, a: Attempt)
    requires PipeOk(pipe, log)
    ensures a.fate == Enqueued ==> PipeOk(pipe + [|log|], log + [a])
    ensures a.fate != Enqueued ==> PipeOk(pipe, log + [a])
  {
    var longer := pipe + [|log|];
    forall i, j | 0 <= i < j < |longer| ensures longer[i] < longer[j] {
      assert pipe[i] in pipe;
    }
  }

  lemma PipeAdvances(pipe: seq<nat>, log: seq<Attempt>)
    requires PipeOk(pipe, log) && pipe != []
    ensures PipeOk(pipe[1..], log)
    ensures pipe[0] < First(pipe[1..], log)
  {
    var rest := pipe[1..];
    assert pipe[0] in pipe;
    forall n | n in rest ensures n in pipe {
      var i :| 0 <= i < |rest| && rest[i] == n;
      assert pipe[i + 1] == n;
    }
    forall n | First(rest, log) <= n < |log| && log[n].fate == Enqueued ensures n in rest {
      var i :| 0 <= i < |pipe| && pipe[i] == n;
      assert i > 0 && rest[i - 1] == n;
    }
  }

  lemma BeginKeepsQueue(s: State, p: Pending, discard: bool)
    requires InvQueue(s)
    ensures InvQueue(Begin(s, p, discard))
  {
    var s' := Begin(s, p, discard);
    if Announces(Find(s.store.jobs, p.key), p.input) {
      PipeExtends(Pipe(s), s.store.log, Attempt(p.key, UpdateOf(p.input), FateOf(s, discard)));
      assert Pipe(s) + [|s.store.log|] == Hand(s.service) + (s.queue + [|s.store.log|]);
    }
  }

  lemma WriterKeepsQueue(s: State, e: WriterEvent)
    requires InvQueue(s) && WriterEnabled(s, e)
    ensures InvQueue(WriterStep(s, e))
  {
    match e
    case BeginAdd(job, now, discard) => BeginKeepsQueue(s, Pending(job.id, job, now), discard);
    case BeginUpdate(_, key, result, now, discard) => BeginKeepsQueue(s, Pending(key, result, now), discard);
    case CommitWrite =>
    case Delete(_) =>
  }

  lemma ServiceKeepsQueue(s: State, e: ServiceEvent)
    requires InvQueue(s) && ServiceEnabled(s, e)
    ensures InvQueue(ServiceStep(s, e))
  {
    if e.EndNotify? {
      PipeAdvances(Pipe(s), s.store.log);
      assert Pipe(s)[1..] == Pipe(ServiceStep(s, e));
    } else {
      assert Pipe(ServiceStep(s, e)) == Pipe(s);
    }
  }
}
