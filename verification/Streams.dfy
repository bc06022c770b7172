/** The stream store: one cancellable context and one sequence counter per request (launcher/launcher.go). */
module Streams {
  import opened Wrappers

  /** Counters are uint64 and wrap. */
  const UINT64: int := 0x1_0000_0000_0000_0000

  function Inc(n: nat): (r: nat)
    ensures r < UINT64
  {
    (n + 1) % UINT64
  }

  /** A live stream: the context handed to its plugin call and the last sequence number. */
  datatype Record = Record(ctx: nat, seqId: nat)

  /** The streams, the contexts that have been cancelled, and how many contexts were made. */
  datatype Table = Table(streams: map<nat, Record>, cancelled: set<nat>, contexts: nat)

  const EMPTY := Table(map[], {}, 0)

  function Started(t: Table, rid: nat): (r: Table) {
    if rid in t.streams then t
    else t.(streams := t.streams[rid := Record(t.contexts, 0)], contexts := t.contexts + 1)
  }

  function Cancelled(t: Table, rid: nat): (r: Table) {
    if rid in t.streams then t.(streams := t.streams - {rid}, cancelled := t.cancelled + {t.streams[rid].ctx})
    else t
  }

  /** The number that the next sequenced message of a stream carries. */
  function NextNumber(t: Table, rid: nat): (n: nat) {
    if rid in t.streams then Inc(t.streams[rid].seqId) else 0
  }

  function Advanced(t: Table, rid: nat): (r: Table) {
    if rid in t.streams then t.(streams := t.streams[rid := t.streams[rid].(seqId := Inc(t.streams[rid].seqId))])
    else t
  }

  class StreamStore {
    var streams: map<nat, Record>
    var cancelled: set<nat>
    var contexts: nat

    constructor ()
      ensures View() == EMPTY
    {
      streams, cancelled, contexts := map[], {}, 0;
    }

    ghost function View(): Table
      reads this
    {
      Table(streams, cancelled, contexts)
    }

    /** A live stream keeps its context; otherwise a new one starts. */
    method Start(rid: nat) returns (ctx: nat)
      modifies this
      ensures View() == Started(old(View()), rid)
      ensures rid in streams && ctx == streams[rid].ctx
    {
      if rid in streams {
        return streams[rid].ctx;
      }
      ctx := contexts;
      contexts := contexts + 1;
      streams := streams[rid := Record(ctx, 0)];
    }

    method Cancel(rid: nat)
      modifies this
      ensures View() == Cancelled(old(View()), rid)
    {
      if rid in streams {
        cancelled := cancelled + {streams[rid].ctx};
        streams := streams - {rid};
      }
    }

    method SequenceID(rid: nat) returns (n: nat)
      modifies this
      ensures n == NextNumber(old(View()), rid) && View() == Advanced(old(View()), rid)
    {
      if rid in streams {
        var rec := streams[rid];
        rec := rec.(seqId := Inc(rec.seqId));
        streams := streams[rid := rec];
        return rec.seqId;
      }
      return 0;
    }
  }

  // ----- any interleaving of calls -----

  datatype Op = Open(rid: nat) | Stop(rid: nat) | Number(rid: nat)

  function Do(t: Table, op: Op): (r: Table) {
    match op
    case Open(rid) => Started(t, rid)
    case Stop(rid) => Cancelled(t, rid)
    case Number(rid) => Advanced(t, rid)
  }

  function DoAll(t: Table, ops: seq<Op>): (r: Table)
    decreases |ops|
  {
    if ops == [] then t else DoAll(Do(t, ops[0]), ops[1..])
  }

  /** The numbers handed out for one request, in order. */
  function Issued(t: Table, ops: seq<Op>, rid: nat): (r: seq<nat>)
    decreases |ops|
  {
    if ops == [] then []
    else (if ops[0] == Number(rid) then [NextNumber(t, rid)] else []) + Issued(Do(t, ops[0]), ops[1..], rid)
  }

  function Calls(ops: seq<Op>, rid: nat): (r: nat) {
    if ops == [] then 0 else (if ops[0] == Number(rid) then 1 else 0) + Calls(ops[1..], rid)
  }

  /** Until its Cancel a stream counts on without gap or repeat, whatever other streams do. */
  lemma {:induction false} CountsUp(t: Table, ops: seq<Op>, rid: nat)
    requires rid in t.streams && Stop(rid) !in ops
    requires t.streams[rid].seqId + Calls(ops, rid) < UINT64
    ensures rid in DoAll(t, ops).streams && DoAll(t, ops).streams[rid].ctx == t.streams[rid].ctx
    ensures Issued(t, ops, rid) == seq(Calls(ops, rid), i => t.streams[rid].seqId + 1 + i)
    decreases |ops|
  {
    if ops != [] {
      assert ops[0] != Stop(rid) && Stop(rid) !in ops[1..];
      CountsUp(Do(t, ops[0]), ops[1..], rid);
    }
  }

  /** A request without a live stream gets zeros until it is started. */
  lemma {:induction false} ZeroWhenStopped(t: Table, ops: seq<Op>, rid: nat)
    requires rid !in t.streams && Open(rid) !in ops
    ensures rid !in DoAll(t, ops).streams
    ensures Issued(t, ops, rid) == seq(Calls(ops, rid), _ => 0)
    decreases |ops|
  {
    if ops != [] {
      assert ops[0] != Open(rid) && Open(rid) !in ops[1..];
      ZeroWhenStopped(Do(t, ops[0]), ops[1..], rid);
    }
  }

  lemma {:induction false} IssuedConcat(t: Table, a: seq<Op>, b: seq<Op>, rid: nat)
    ensures DoAll(t, a + b) == DoAll(DoAll(t, a), b)
    ensures Issued(t, a + b, rid) == Issued(t, a, rid) + Issued(DoAll(t, a), b, rid)
    decreases |a|
  {
    ConcatTail(a, b);
    if a != [] {
      IssuedConcat(Do(t, a[0]), a[1..], b, rid);
      Assoc(if a[0] == Number(rid) then [NextNumber(t, rid)] else [], Issued(Do(t, a[0]), a[1..], rid),
            Issued(DoAll(t, a), b, rid));
    }
  }

  lemma IssuedAfter(t: Table, op: Op, ops: seq<Op>, rid: nat)
    requires op != Number(rid)
    ensures Issued(t, [op] + ops, rid) == Issued(Do(t, op), ops, rid)
  {
    ConcatTail([op], ops);
  }

  /**
   * One life of a stream inside any run: from its Start, 1, 2, ..., n until its Cancel, and 0 from
   * then on unless it is started again.
   */
  lemma OneLife(t: Table, during: seq<Op>, after: seq<Op>, rid: nat)
    requires rid !in t.streams && Stop(rid) !in during && Open(rid) !in after
    requires Calls(during, rid) < UINT64
    ensures Issued(t, [Open(rid)] + during + [Stop(rid)] + after, rid) ==
            seq(Calls(during, rid), i => 1 + i) + seq(Calls(after, rid), _ => 0)
  {
    var t1 := Started(t, rid);
    var t2 := DoAll(t1, during);
    CountsUp(t1, during, rid);
    ZeroWhenStopped(Cancelled(t2, rid), after, rid);
    IssuedAfter(t2, Stop(rid), after, rid);
    IssuedConcat(t1, during, [Stop(rid)] + after, rid);
    IssuedAfter(t, Open(rid), during + ([Stop(rid)] + after), rid);
    assert [Open(rid)] + during + [Stop(rid)] + after == [Open(rid)] + (during + ([Stop(rid)] + after));
    assert seq(Calls(during, rid), i => t1.streams[rid].seqId + 1 + i) == seq(Calls(during, rid), i => 1 + i);
  }

  /** Live streams have different contexts, none of them cancelled. */
  ghost predicate ContextsOk(t: Table) {
    && (forall r :: r in t.streams ==> t.streams[r].ctx < t.contexts && t.streams[r].ctx !in t.cancelled)
    && (forall c :: c in t.cancelled ==> c < t.contexts)
    && (forall a, b :: a in t.streams && b in t.streams && a != b ==> t.streams[a].ctx != t.streams[b].ctx)
  }

  lemma {:induction false} ContextsKept(t: Table, ops: seq<Op>)
    requires ContextsOk(t)
    ensures ContextsOk(DoAll(t, ops))
    decreases |ops|
  {
    if ops != [] {
      ContextsKept(Do(t, ops[0]), ops[1..]);
    }
  }

  /** In every run: a second Start changes nothing, and Cancel ends one stream and no other. */
  lemma CancelIsLocal(ops: seq<Op>, rid: nat, other: nat)
    requires var t := DoAll(EMPTY, ops); rid in t.streams && other in t.streams && other != rid
    ensures var t := DoAll(EMPTY, ops);
            && Started(t, rid) == t
            && rid !in Cancelled(t, rid).streams && t.streams[rid].ctx in Cancelled(t, rid).cancelled
            && other in Cancelled(t, rid).streams && Cancelled(t, rid).streams[other] == t.streams[other]
            && t.streams[other].ctx !in Cancelled(t, rid).cancelled
  {
    ContextsKept(EMPTY, ops);
  }
}
