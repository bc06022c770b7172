/** The job record, its filter and its field projection (api/types.go). */
module Jobs {
  import opened Wrappers

  /** An instant; only the order of instants matters. */
  type Time = int

  /** A value that the modelled code copies and never inspects. */
  datatype Opaque = Opaque(repr: string)

  const UNSET := Opaque("")

  const CANCELED := "Canceled"
  const FAILED := "Failed"
  const FINISHED := "Finished"
  const KILLED := "Killed"
  const PENDING := "Pending"
  const RUNNING := "Running"
  const SUSPENDED := "Suspended"

  /** No later status is expected. */
  predicate Terminal(status: string) {
    status == CANCELED || status == FAILED || status == FINISHED || status == KILLED
  }

  /** Exactly these four. */
  lemma TerminalExactly(status: string)
    ensures Terminal(status) <==> status in ["Canceled", "Failed", "Finished", "Killed"]
  {
  }

  /**
   * A job. The fields the cache reads or merges are spelled out; `details` holds the other
   * wire fields, which it only copies, with a missing key standing for the zero value;
   * `misc` is local to the plugin and has no wire name.
   */
  datatype Job = Job(
    id: string,
    user: string,
    name: string,
    host: string,
    status: string,
    statusMsg: string,
    statusCode: string,
    pid: Option<int>,
    exitCode: Option<int>,
    lastUpdated: Option<Time>,
    submitted: Option<Time>,
    tags: seq<string>,
    details: map<string, Opaque>,
    misc: Opaque)

  /** The wire fields that the cache only copies. */
  const DETAILS: set<string> := {
    "cluster", "group", "queues", "workingDirectory", "container", "initContainers", "command",
    "exe", "stdoutFile", "stderrFile", "stdin", "args", "environment", "placementConstraints",
    "exposedPorts", "mounts", "config", "resourceLimits", "metadata", "resourceProfile",
    "systemJob", "instanceId"
  }

  /** The fields that have a wire name, except the ID, which no projection drops. */
  datatype Field =
    | User | Name | Host | Status | StatusMessage | StatusCode | Pid | ExitCode
    | LastUpdateTime | SubmissionTime | Tags | Other(detail: string)

  /** The field that a wire name selects, if any; names are case-sensitive. */
  function FieldNamed(name: string): (f: Option<Field>) {
    match name
    case "user" => Some(User)
    case "name" => Some(Name)
    case "host" => Some(Host)
    case "status" => Some(Status)
    case "statusMessage" => Some(StatusMessage)
    case "statusCode" => Some(StatusCode)
    case "pid" => Some(Pid)
    case "exitCode" => Some(ExitCode)
    case "lastUpdateTime" => Some(LastUpdateTime)
    case "submissionTime" => Some(SubmissionTime)
    case "tags" => Some(Tags)
    case _ => if name in DETAILS then Some(Other(name)) else None
  }

  /** Copy one field from src into dst. */
  function CopyField(f: Field, dst: Job, src: Job): (r: Job) {
    match f
    case User => dst.(user := src.user)
    case Name => dst.(name := src.name)
    case Host => dst.(host := src.host)
    case Status => dst.(status := src.status)
    case StatusMessage => dst.(statusMsg := src.statusMsg)
    case StatusCode => dst.(statusCode := src.statusCode)
    case Pid => dst.(pid := src.pid)
    case ExitCode => dst.(exitCode := src.exitCode)
    case LastUpdateTime => dst.(lastUpdated := src.lastUpdated)
    case SubmissionTime => dst.(submitted := src.submitted)
    case Tags => dst.(tags := src.tags)
    case Other(d) =>
      if d in src.details then dst.(details := dst.details[d := src.details[d]])
      else dst.(details := dst.details - {d})
  }

  /** The zero job with an ID. */
  function BareJob(id: string): (j: Job) {
    Job(id, "", "", "", "", "", "", None, None, None, None, [], map[], UNSET)
  }

  /** The job with every field outside `keep` reset; the ID always stays. */
  function Project(j: Job, keep: set<Field>): (r: Job) {
    Job(
      j.id,
      if User in keep then j.user else "",
      if Name in keep then j.name else "",
      if Host in keep then j.host else "",
      if Status in keep then j.status else "",
      if StatusMessage in keep then j.statusMsg else "",
      if StatusCode in keep then j.statusCode else "",
      if Pid in keep then j.pid else None,
      if ExitCode in keep then j.exitCode else None,
      if LastUpdateTime in keep then j.lastUpdated else None,
      if SubmissionTime in keep then j.submitted else None,
      if Tags in keep then j.tags else [],
      KeptDetails(j.details, keep),
      UNSET)
  }

  /** The fields that a list of wire names selects. */
  ghost function Selected(names: seq<string>): set<Field> {
    set n | n in names && FieldNamed(n).Some? :: FieldNamed(n).value
  }

  /** What a query returns for one job: all of it when no field is named. */
  ghost function Projected(j: Job, names: seq<string>): Job {
    if names == [] then j else Project(j, Selected(names))
  }

  /** The details that a projection keeps. */
  function KeptDetails(details: map<string, Opaque>, keep: set<Field>): (r: map<string, Opaque>) {
    map d | d in details && Other(d) in keep :: details[d]
  }

  lemma DetailKept(details: map<string, Opaque>, keep: set<Field>, d: string)
    ensures var now := KeptDetails(details, keep);
            KeptDetails(details, keep + {Other(d)}) ==
            if d in details then now[d := details[d]] else now - {d}
  {
  }

  lemma CopyDetailKeeps(j: Job, keep: set<Field>, d: string)
    ensures CopyField(Other(d), Project(j, keep), j) == Project(j, keep + {Other(d)})
  {
    DetailKept(j.details, keep, d);
  }

  lemma CopyPlainKeeps(j: Job, keep: set<Field>, f: Field)
    requires !f.Other?
    ensures CopyField(f, Project(j, keep), j) == Project(j, keep + {f})
  {
    var now, next := Project(j, keep), Project(j, keep + {f});
    assert now.details == next.details;
    match f {
      case User => assert next == now.(user := j.user);
      case Name => assert next == now.(name := j.name);
      case Host => assert next == now.(host := j.host);
      case Status => assert next == now.(status := j.status);
      case StatusMessage => assert next == now.(statusMsg := j.statusMsg);
      case StatusCode => assert next == now.(statusCode := j.statusCode);
      case Pid => assert next == now.(pid := j.pid);
      case ExitCode => assert next == now.(exitCode := j.exitCode);
      case LastUpdateTime => assert next == now.(lastUpdated := j.lastUpdated);
      case SubmissionTime => assert next == now.(submitted := j.submitted);
      case Tags => assert next == now.(tags := j.tags);
    }
  }

  lemma CopyFieldKeeps(j: Job, keep: set<Field>, f: Field)
    ensures CopyField(f, Project(j, keep), j) == Project(j, keep + {f})
  {
    if f.Other? {
      CopyDetailKeeps(j, keep, f.detail);
    } else {
      CopyPlainKeeps(j, keep, f);
    }
  }

  lemma SelectedSnoc(names: seq<string>, name: string)
    ensures var f := FieldNamed(name);
            Selected(names + [name]) == Selected(names) + if f.Some? then {f.value} else {}
  {
    var f, all := FieldNamed(name), names + [name];
    forall x | x in Selected(names) || (f.Some? && x == f.value) ensures x in Selected(all) {
      if x in Selected(names) {
        var n :| n in names && FieldNamed(n) == Some(x);
        assert n in all;
      } else {
        assert name in all;
      }
    }
  }

  /** The loop over field names computes the projection. */
  method WithFields(job: Job, fields: seq<string>) returns (r: Job)
    ensures r == Projected(job, fields)
  {
    if |fields| == 0 {
      return job;
    }
    r := BareJob(job.id);
    for i := 0 to |fields|
      invariant r == Project(job, Selected(fields[..i]))
    {
      var f := FieldNamed(fields[i]);
      assert fields[..i + 1] == fields[..i] + [fields[i]];
      SelectedSnoc(fields[..i], fields[i]);
      if f.Some? {
        CopyFieldKeeps(job, Selected(fields[..i]), f.value);
        r := CopyField(f.value, r, job);
      }
    }
    assert fields[..|fields|] == fields;
  }

  /** The wire name of a field. */
  function WireName(f: Field): (name: string) {
    match f
    case User => "user"
    case Name => "name"
    case Host => "host"
    case Status => "status"
    case StatusMessage => "statusMessage"
    case StatusCode => "statusCode"
    case Pid => "pid"
    case ExitCode => "exitCode"
    case LastUpdateTime => "lastUpdateTime"
    case SubmissionTime => "submissionTime"
    case Tags => "tags"
    case Other(d) => d
  }

  lemma NamedPlain(f: Field)
    requires !f.Other?
    ensures FieldNamed(WireName(f)) == Some(f)
  {
  }

  lemma NamedExactly(name: string, f: Field)
    ensures FieldNamed(name) == Some(f) <==> name == WireName(f) && (f.Other? ==> f.detail in DETAILS)
  {
    if !f.Other? {
      NamedPlain(f);
    }
  }

  lemma SelectedExactly(names: seq<string>, f: Field)
    ensures f in Selected(names) <==> WireName(f) in names && (f.Other? ==> f.detail in DETAILS)
  {
    forall n | n in names ensures FieldNamed(n) == Some(f) <==> n == WireName(f) && (f.Other? ==> f.detail in DETAILS) {
      NamedExactly(n, f);
    }
  }

  /** What a projection to some names keeps, field by field; the ID stays and local data goes. */
  lemma ProjectedByName(j: Job, names: seq<string>)
    requires names != []
    ensures var r := Projected(j, names);
            && r.id == j.id && r.misc == UNSET
            && r.user == (if "user" in names then j.user else "")
            && r.name == (if "name" in names then j.name else "")
            && r.host == (if "host" in names then j.host else "")
            && r.status == (if "status" in names then j.status else "")
            && r.statusMsg == (if "statusMessage" in names then j.statusMsg else "")
            && r.statusCode == (if "statusCode" in names then j.statusCode else "")
            && r.pid == (if "pid" in names then j.pid else None)
            && r.exitCode == (if "exitCode" in names then j.exitCode else None)
            && r.lastUpdated == (if "lastUpdateTime" in names then j.lastUpdated else None)
            && r.submitted == (if "submissionTime" in names then j.submitted else None)
            && r.tags == (if "tags" in names then j.tags else [])
            && r.details == map d | d in j.details && d in names && d in DETAILS :: j.details[d]
  {
    DetailsByName(j.details, names);
    forall f ensures f in Selected(names) <==> WireName(f) in names && (f.Other? ==> f.detail in DETAILS) {
      SelectedExactly(names, f);
    }
  }

  lemma DetailsByName(details: map<string, Opaque>, names: seq<string>)
    ensures KeptDetails(details, Selected(names)) ==
            map d | d in details && d in names && d in DETAILS :: details[d]
  {
    forall d ensures Other(d) in Selected(names) <==> d in names && d in DETAILS {
      SelectedExactly(names, Other(d));
    }
  }

  lemma ProjectTwice(j: Job, a: set<Field>, b: set<Field>)
    ensures Project(Project(j, a), b) == Project(j, a * b)
  {
  }

  /** Projections compose as the intersection of their field sets. */
  lemma ProjectionsCompose(j: Job, a: seq<string>, b: seq<string>)
    ensures a != [] && b != [] ==>
              Projected(Projected(j, a), b) == Project(j, Selected(a) * Selected(b))
    ensures a == [] ==> Projected(Projected(j, a), b) == Projected(j, b)
    ensures b == [] ==> Projected(Projected(j, a), b) == Projected(j, a)
  {
    ProjectTwice(j, Selected(a), Selected(b));
  }

  datatype Filter = Filter(
    tags: seq<string>,
    startTime: Option<Time>,
    endTime: Option<Time>,
    statuses: seq<string>,
    fields: seq<string>)

  /** A time bound reads the submission time, so that one must be set. */
  predicate TimesKnown(f: Filter, j: Job) {
    f.startTime.Some? || f.endTime.Some? ==> j.submitted.Some?
  }

  /** The job meets every condition of the filter. */
  ghost predicate Included(f: Filter, j: Job)
    requires TimesKnown(f, j)
  {
    && (f.startTime.Some? ==> f.startTime.value <= j.submitted.value)
    && (f.endTime.Some? ==> j.submitted.value <= f.endTime.value)
    && (f.statuses == [] || j.status in f.statuses)
    && (forall t :: t in f.tags ==> t in j.tags)
  }

  /** Time bounds are inclusive, tags narrow one by one, and statuses widen. */
  lemma FilterAlgebra(f: Filter, j: Job, t: Time, more: seq<string>)
    requires j.submitted.Some?
    ensures Included(f.(startTime := Some(t), endTime := Some(t)), j) <==>
            Included(f.(startTime := None, endTime := None), j) && j.submitted == Some(t)
    ensures Included(f.(tags := f.tags + more), j) <==> Included(f, j) && forall x :: x in more ==> x in j.tags
    ensures f.statuses != [] ==>
            (Included(f.(statuses := f.statuses + more), j) <==>
             Included(f, j) || (Included(f.(statuses := []), j) && j.status in more))
    ensures Included(Filter([], None, None, [], f.fields), j)
  {
  }

  method Includes(f: Filter, job: Job) returns (r: bool)
    requires TimesKnown(f, job)
    ensures r <==> Included(f, job)
  {
    if f.startTime.Some? && job.submitted.value < f.startTime.value {
      return false;
    }
    if f.endTime.Some? && job.submitted.value > f.endTime.value {
      return false;
    }
    var found := |f.statuses| == 0;
    for i := 0 to |f.statuses|
      invariant found <==> f.statuses == [] || job.status in f.statuses[..i]
    {
      if job.status == f.statuses[i] {
        found := true;
        break;
      }
    }
    if !found {
      return false;
    }
    for i := 0 to |f.tags|
      invariant forall t :: t in f.tags[..i] ==> t in job.tags
    {
      found := false;
      for k := 0 to |job.tags|
        invariant found <==> f.tags[i] in job.tags[..k]
      {
        if f.tags[i] == job.tags[k] {
          found := true;
          break;
        }
      }
      if !found {
        assert f.tags[i] in f.tags && f.tags[i] !in job.tags;
        return false;
      }
    }
    return true;
  }

  /** The control operations that a request may carry once it has been validated. */
  datatype Operation = Suspend | Resume | Stop | Kill | Cancel

  /** The status a job must have for the operation. */
  function ValidForStatus(op: Operation): (status: string)
    ensures !Terminal(status)
  {
    match op
    case Suspend => RUNNING
    case Stop => RUNNING
    case Kill => RUNNING
    case Resume => SUSPENDED
    case Cancel => PENDING
  }
}
