/**
 * Response writers running side by side (launcher/launcher.go): a message draws its response ID, a
 * stream message then its sequence number, and only then is it sent. Each stream has one writer.
 */
module Responses {
  import opened Wrappers
  import opened Streams

  /** The goroutine that writes for a stream, or any other one. */
  datatype Author = StreamOf(rid: nat) | Plain(k: nat)

  /** A message on the wire, with the draw of its ID and its sequence number if it has them. */
  datatype Msg = Msg(author: Author, responseId: nat, draw: Option<nat>, seqId: Option<nat>)

  /** A message under construction. */
  datatype Draft = Draft(draw: nat, responseId: nat, seqId: Option<nat>)

  /** Where the ID of a draw is now. */
  datatype Place = Held(a: Author) | Sent(pos: nat)

  /** `ops` and `places` are histories. */
  datatype State = State(
    table: Table,
    counter: nat,
    drafts: map<Author, Draft>,
    wire: seq<Msg>,
    ops: seq<Op>,
    places: seq<Place>)

  const START := State(EMPTY, 0, map[], [], [], [])

  datatype Event =
    | Begin(rid: nat)
    | End(rid: nat)
    | DrawId(a: Author)
    | TakeNumber(rid: nat)
    | Transmit(a: Author)
    | TransmitPlain(a: Author)

  predicate Enabled(s: State, e: Event) {
    match e
    case Begin(_) => true
    case End(_) => true
    case DrawId(a) => a !in s.drafts
    case TakeNumber(rid) => StreamOf(rid) in s.drafts && s.drafts[StreamOf(rid)].seqId.None?
    case Transmit(a) => a in s.drafts && (a.StreamOf? ==> s.drafts[a].seqId.Some?)
    case TransmitPlain(a) => a !in s.drafts
  }

  function Log(s: State, op: Op): (r: State) {
    s.(table := Do(s.table, op), ops := s.ops + [op])
  }

  function Apply(s: State, e: Event): (r: State)
    requires Enabled(s, e)
  {
    match e
    case Begin(rid) => Log(s, Open(rid))
    case End(rid) => Log(s, Stop(rid))
    case DrawId(a) =>
      s.(counter := Inc(s.counter),
         drafts := s.drafts[a := Draft(|s.places|, s.counter, None)],
         places := s.places + [Held(a)])
    case TakeNumber(rid) =>
      var d := s.drafts[StreamOf(rid)];
      Log(s, Number(rid)).(drafts := s.drafts[StreamOf(rid) := d.(seqId := Some(NextNumber(s.table, rid)))])
    case Transmit(a) =>
      var d := s.drafts[a];
      s.(drafts := s.drafts - {a},
         wire := s.wire + [Msg(a, d.responseId, Some(d.draw), d.seqId)],
         places := if d.draw < |s.places| then s.places[d.draw := Sent(|s.wire|)] else s.places)
    case TransmitPlain(a) => s.(wire := s.wire + [Msg(a, 0, None, None)])
  }

  function Exec(s: State, es: seq<Event>): (r: Option<State>)
    decreases |es|
  {
    if es == [] then Some(s)
    else if Enabled(s, es[0]) then Exec(Apply(s, es[0]), es[1..])
    else None
  }

  ghost predicate Reachable(s: State) {
    exists es :: Exec(START, es) == Some(s)
  }

  // ----- response IDs -----

  /** A drawn ID is in exactly one draft or on exactly one message. */
  ghost predicate PlaceOk(s: State, i: nat)
    requires i < |s.places|
  {
    match s.places[i]
    case Held(a) => a in s.drafts && s.drafts[a].draw == i
    case Sent(p) => p < |s.wire| && s.wire[p].draw == Some(i)
  }

  ghost predicate InvIds(s: State) {
    && s.counter == |s.places| % UINT64
    && (forall i :: 0 <= i < |s.places| ==> PlaceOk(s, i))
    && (forall a :: a in s.drafts ==>
          s.drafts[a].draw < |s.places| && s.places[s.drafts[a].draw] == Held(a) &&
          s.drafts[a].responseId == s.drafts[a].draw % UINT64)
    && (forall p :: 0 <= p < |s.wire| ==>
          match s.wire[p].draw
          case None => s.wire[p].responseId == 0 && s.wire[p].seqId.None?
          case Some(i) => i < |s.places| && s.places[i] == Sent(p) && s.wire[p].responseId == i % UINT64)
  }

  lemma StepKeepsIds(s: State, e: Event)
    requires InvIds(s) && Enabled(s, e)
    ensures InvIds(Apply(s, e))
  {
    var s' := Apply(s, e);
    if e.DrawId? {
      IncCounts(|s.places|);
    }
    forall i | 0 <= i < |s'.places| ensures PlaceOk(s', i) {
      assert i < |s.places| ==> PlaceOk(s, i);
    }
  }

  lemma IncCounts(n: nat)
    ensures Inc(n % UINT64) == (n + 1) % UINT64
  {
  }

  // ----- sequence numbers -----

  /** The sequence numbers of a stream as they appear on the wire. */
  function OnWire(wire: seq<Msg>, rid: nat): (r: seq<nat>) {
    if wire == [] then []
    else
      var m := wire[|wire| - 1];
      OnWire(wire[..|wire| - 1], rid) +
      if m.author == StreamOf(rid) && m.seqId.Some? then [m.seqId.value] else []
  }

  /** The number that is drawn and not sent yet. */
  function InDraft(s: State, rid: nat): (r: seq<nat>) {
    if StreamOf(rid) in s.drafts && s.drafts[StreamOf(rid)].seqId.Some? then [s.drafts[StreamOf(rid)].seqId.value]
    else []
  }

  ghost predicate InvSeq(s: State, rid: nat) {
    && s.table == DoAll(EMPTY, s.ops)
    && OnWire(s.wire, rid) + InDraft(s, rid) == Issued(EMPTY, s.ops, rid)
    && (forall k :: Plain(k) in s.drafts ==> s.drafts[Plain(k)].seqId.None?)
  }

  lemma IssuedSnoc(ops: seq<Op>, op: Op, rid: nat)
    ensures DoAll(EMPTY, ops + [op]) == Do(DoAll(EMPTY, ops), op)
    ensures Issued(EMPTY, ops + [op], rid) ==
            Issued(EMPTY, ops, rid) + if op == Number(rid) then [NextNumber(DoAll(EMPTY, ops), rid)] else []
  {
    IssuedConcat(EMPTY, ops, [op], rid);
    assert [op][1..] == [];
  }

  lemma OnWireSnoc(wire: seq<Msg>, m: Msg, rid: nat)
    ensures OnWire(wire + [m], rid) ==
            OnWire(wire, rid) + if m.author == StreamOf(rid) && m.seqId.Some? then [m.seqId.value] else []
  {
    assert (wire + [m])[..|wire|] == wire;
  }

  /** A message of another author leaves a stream's numbers alone. */
  lemma TransmitKeepsOthers(s: State, a: Author, rid: nat)
    requires Enabled(s, Transmit(a)) && a != StreamOf(rid)
    ensures OnWire(Apply(s, Transmit(a)).wire, rid) == OnWire(s.wire, rid)
    ensures InDraft(Apply(s, Transmit(a)), rid) == InDraft(s, rid)
  {
    var d := s.drafts[a];
    OnWireSnoc(s.wire, Msg(a, d.responseId, Some(d.draw), d.seqId), rid);
  }

  /** A stream's own message moves its number from the draft to the wire. */
  lemma TransmitMovesOwn(s: State, rid: nat)
    requires Enabled(s, Transmit(StreamOf(rid)))
    ensures OnWire(Apply(s, Transmit(StreamOf(rid))).wire, rid) == OnWire(s.wire, rid) + InDraft(s, rid)
    ensures InDraft(Apply(s, Transmit(StreamOf(rid))), rid) == []
  {
    var d := s.drafts[StreamOf(rid)];
    OnWireSnoc(s.wire, Msg(StreamOf(rid), d.responseId, Some(d.draw), d.seqId), rid);
  }

  lemma TransmitKeepsSeq(s: State, a: Author, rid: nat)
    requires InvSeq(s, rid) && Enabled(s, Transmit(a))
    ensures InvSeq(Apply(s, Transmit(a)), rid)
  {
    if a == StreamOf(rid) {
      TransmitMovesOwn(s, rid);
    } else {
      TransmitKeepsOthers(s, a, rid);
    }
  }

  lemma StepKeepsSeq(s: State, e: Event, rid: nat)
    requires InvSeq(s, rid) && Enabled(s, e)
    ensures InvSeq(Apply(s, e), rid)
  {
    match e
    case Begin(r) => IssuedSnoc(s.ops, Open(r), rid);
    case End(r) => IssuedSnoc(s.ops, Stop(r), rid);
    case TakeNumber(r) => IssuedSnoc(s.ops, Number(r), rid);
    case Transmit(a) => TransmitKeepsSeq(s, a, rid);
    case TransmitPlain(a) => OnWireSnoc(s.wire, Msg(a, 0, None, None), rid);
    case DrawId(_) =>
  }

  // ----- theorems -----

  lemma {:induction false} RunKeeps(s: State, es: seq<Event>, rid: nat)
    requires InvIds(s) && InvSeq(s, rid) && Exec(s, es).Some?
    ensures InvIds(Exec(s, es).value) && InvSeq(Exec(s, es).value, rid)
    decreases |es|
  {
    if es != [] {
      StepKeepsIds(s, es[0]);
      StepKeepsSeq(s, es[0], rid);
      RunKeeps(Apply(s, es[0]), es[1..], rid);
    }
  }

  lemma ReachableOk(s: State, rid: nat)
    requires Reachable(s)
    ensures InvIds(s) && InvSeq(s, rid)
  {
    var es :| Exec(START, es) == Some(s);
    assert InvSeq(START, rid);
    RunKeeps(START, es, rid);
  }

  /**
   * Without wrap-around the IDs drawn are 0, 1, ..., n-1, each on exactly one message or in one
   * draft; no two messages share one; messages that draw none carry 0.
   */
  lemma ResponseIds(s: State)
    requires Reachable(s) && |s.places| <= UINT64
    ensures forall i :: 0 <= i < |s.places| ==>
              match s.places[i]
              case Held(a) => a in s.drafts && s.drafts[a].responseId == i
              case Sent(p) => p < |s.wire| && s.wire[p].responseId == i && s.wire[p].draw == Some(i)
    ensures forall p :: 0 <= p < |s.wire| && s.wire[p].draw.Some? ==>
              s.wire[p].responseId < |s.places| && s.places[s.wire[p].responseId] == Sent(p)
    ensures forall p :: 0 <= p < |s.wire| && s.wire[p].draw.None? ==> s.wire[p].responseId == 0
  {
    ReachableOk(s, 0);
    forall i | 0 <= i < |s.places|
      ensures match s.places[i]
              case Held(a) => a in s.drafts && s.drafts[a].responseId == i
              case Sent(p) => p < |s.wire| && s.wire[p].responseId == i && s.wire[p].draw == Some(i)
    {
      assert PlaceOk(s, i);
    }
  }

  lemma NoSharedIds(s: State, p: nat, q: nat)
    requires Reachable(s) && |s.places| <= UINT64 && p < q < |s.wire|
    requires s.wire[p].draw.Some? && s.wire[q].draw.Some?
    ensures s.wire[p].responseId != s.wire[q].responseId
  {
    ResponseIds(s);
  }

  /** The calls that a run makes to the stream store. */
  function CallsOf(es: seq<Event>): (ops: seq<Op>) {
    if es == [] then []
    else
      (match es[0]
       case Begin(rid) => [Open(rid)]
       case End(rid) => [Stop(rid)]
       case TakeNumber(rid) => [Number(rid)]
       case _ => []) + CallsOf(es[1..])
  }

  /** In every run a stream is opened, stopped and numbered exactly where the run says so. */
  lemma {:induction false} CallsExactly(s: State, es: seq<Event>)
    requires Exec(s, es).Some?
    ensures Exec(s, es).value.ops == s.ops + CallsOf(es)
    decreases |es|
  {
    if es == [] {
      assert s.ops + [] == s.ops;
    } else {
      var s' := Apply(s, es[0]);
      CallsExactly(s', es[1..]);
      var now := match es[0]
        case Begin(rid) => [Open(rid)]
        case End(rid) => [Stop(rid)]
        case TakeNumber(rid) => [Number(rid)]
        case _ => [];
      assert s'.ops == s.ops + now;
      Assoc(s.ops, now, CallsOf(es[1..]));
    }
  }

  /** A writer has one message at a time, and no writer ever waits for another. */
  lemma AuthorsRespond(s: State, a: Author, rid: nat)
    ensures Enabled(s, DrawId(a)) <==> a !in s.drafts
    ensures Enabled(s, TransmitPlain(a)) <==> a !in s.drafts
    ensures Enabled(s, Transmit(Plain(rid))) <==> Plain(rid) in s.drafts
    ensures Enabled(s, Transmit(StreamOf(rid))) || Enabled(s, TakeNumber(rid)) <==> StreamOf(rid) in s.drafts
  {
  }

  /** Exactly the messages of streams that draw an ID carry a sequence number. */
  ghost predicate Numbered(s: State) {
    && (forall p :: 0 <= p < |s.wire| ==>
          (s.wire[p].seqId.Some? <==> s.wire[p].author.StreamOf? && s.wire[p].draw.Some?))
    && (forall a :: a in s.drafts && s.drafts[a].seqId.Some? ==> a.StreamOf?)
  }

  lemma {:induction false} RunKeepsNumbered(s: State, es: seq<Event>)
    requires Numbered(s) && Exec(s, es).Some?
    ensures Numbered(Exec(s, es).value)
    decreases |es|
  {
    if es != [] {
      RunKeepsNumbered(Apply(s, es[0]), es[1..]);
    }
  }

  lemma NumberedExactly(s: State, p: nat)
    requires Reachable(s) && p < |s.wire|
    ensures s.wire[p].seqId.Some? <==> s.wire[p].author.StreamOf? && s.wire[p].draw.Some?
  {
    var es :| Exec(START, es) == Some(s);
    RunKeepsNumbered(START, es);
  }

  /** On the wire a stream's numbers are those that were issued for it, in order, but for one in a draft. */
  lemma WireKeepsOrder(s: State, rid: nat)
    requires Reachable(s)
    ensures OnWire(s.wire, rid) + InDraft(s, rid) == Issued(EMPTY, s.ops, rid)
    ensures s.table == DoAll(EMPTY, s.ops)
  {
    ReachableOk(s, rid);
  }

  // ----- when the IDs rise along the wire -----

  /** Of any two numbered messages the earlier one carries the smaller ID. */
  ghost predicate IdsRise(wire: seq<Msg>) {
    forall p, q :: 0 <= p < q < |wire| && wire[p].draw.Some? && wire[q].draw.Some? ==>
      wire[p].responseId < wire[q].responseId
  }

  ghost predicate DrawsRise(wire: seq<Msg>) {
    forall p, q :: 0 <= p < q < |wire| && wire[p].draw.Some? && wire[q].draw.Some? ==>
      wire[p].draw.value < wire[q].draw.value
  }

  /** Nothing drawn after this draft is on the wire yet; its writer can test this before the send. */
  ghost predicate NotOvertaken(s: State, a: Author)
    requires a in s.drafts
  {
    forall p :: 0 <= p < |s.wire| && s.wire[p].draw.Some? ==> s.wire[p].draw.value < s.drafts[a].draw
  }

  /** No draft is sent after one that was drawn later. */
  ghost predicate InDrawOrder(s: State, es: seq<Event>)
    requires Exec(s, es).Some?
    decreases |es|
  {
    es != [] ==>
      && (es[0].Transmit? ==> NotOvertaken(s, es[0].a))
      && InDrawOrder(Apply(s, es[0]), es[1..])
  }

  /** One action keeps the wire rising exactly if it sends no overtaken draft. */
  lemma StepRises(s: State, e: Event)
    requires Enabled(s, e)
    ensures DrawsRise(Apply(s, e).wire) <==> DrawsRise(s.wire) && (e.Transmit? ==> NotOvertaken(s, e.a))
  {
    var w, w' := s.wire, Apply(s, e).wire;
    assert forall p :: 0 <= p < |w| ==> w'[p] == w[p];
    if DrawsRise(w') && e.Transmit? {
      assert w'[|w|].draw == Some(s.drafts[e.a].draw);
      assert forall p :: 0 <= p < |w| && w[p].draw.Some? ==> w'[p].draw.value < w'[|w|].draw.value;
    }
  }

  lemma {:induction false} RunRises(s: State, es: seq<Event>)
    requires Exec(s, es).Some?
    ensures DrawsRise(Exec(s, es).value.wire) <==> DrawsRise(s.wire) && InDrawOrder(s, es)
    decreases |es|
  {
    if es != [] {
      StepRises(s, es[0]);
      RunRises(Apply(s, es[0]), es[1..]);
    }
  }

  lemma IdsAreDraws(s: State)
    requires InvIds(s) && |s.places| <= UINT64
    ensures IdsRise(s.wire) <==> DrawsRise(s.wire)
  {
    forall p | 0 <= p < |s.wire| && s.wire[p].draw.Some? ensures s.wire[p].responseId == s.wire[p].draw.value {
    }
  }

  /** In every run without wrap-around, the IDs rise along the wire exactly if no draft is sent overtaken. */
  lemma IdsRiseExactly(es: seq<Event>, s: State)
    requires Exec(START, es) == Some(s) && |s.places| <= UINT64
    ensures IdsRise(s.wire) <==> InDrawOrder(START, es)
  {
    RunRises(START, es);
    ReachableOk(s, 0);
    IdsAreDraws(s);
  }

  /** An ID is drawn only while no other message is under construction. */
  ghost predicate OneAtATime(s: State, es: seq<Event>)
    requires Exec(s, es).Some?
    decreases |es|
  {
    es != [] ==>
      && (es[0].DrawId? ==> s.drafts == map[])
      && OneAtATime(Apply(s, es[0]), es[1..])
  }

  ghost predicate NewestDraft(s: State) {
    forall a :: a in s.drafts ==> s.drafts[a].draw == |s.places| - 1
  }

  lemma {:induction false} AloneInOrder(s: State, es: seq<Event>)
    requires Exec(s, es).Some? && OneAtATime(s, es)
    requires InvIds(s) && NewestDraft(s)
    ensures InDrawOrder(s, es)
    decreases |es|
  {
    if es != [] {
      StepKeepsIds(s, es[0]);
      AloneInOrder(Apply(s, es[0]), es[1..]);
    }
  }

  /** Drawing and sending under one lock makes the IDs rise. */
  lemma OneAtATimeRises(es: seq<Event>, s: State)
    requires Exec(START, es) == Some(s) && |s.places| <= UINT64
    requires OneAtATime(START, es)
    ensures IdsRise(s.wire)
  {
    AloneInOrder(START, es);
    IdsRiseExactly(es, s);
  }

  /** They need not: a writer may draw first and send last. */
  lemma IdsMayCross() returns (s: State)
    ensures Reachable(s) && |s.wire| == 2 && s.wire[0].responseId == 1 && s.wire[1].responseId == 0
    ensures !IdsRise(s.wire)
  {
    var a, b := Plain(0), Plain(1);
    var s1 := Apply(START, DrawId(a));
    var s2 := Apply(s1, DrawId(b));
    var s3 := Apply(s2, Transmit(b));
    s := Apply(s3, Transmit(a));
    var es := [DrawId(a), DrawId(b), Transmit(b), Transmit(a)];
    assert Exec(s, es[4..]) == Some(s);
    assert Exec(s3, es[3..]) == Some(s) by { assert es[3..][1..] == es[4..]; }
    assert Exec(s2, es[2..]) == Some(s) by { assert es[2..][1..] == es[3..]; }
    assert Exec(s1, es[1..]) == Some(s) by { assert es[1..][1..] == es[2..]; }
    assert Exec(START, es) == Some(s);
  }
}
