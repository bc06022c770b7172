/**
 * Communicator.Serve as concurrent goroutines (internal/protocol/communicator.go): the reader, the
 * dispatching loop, the handlers and the writer over their channels, one action per event.
 *
 * A handler is the list of responses it will still send, chosen when it is started; it returns
 * after sending them. `input`, `dispatched`, `given`, `sent` and `written` are histories.
 */
module Serve {
  import opened Wrappers

  datatype Request = Request(body: string)

  datatype Response = Response(body: string)

  datatype Error = Error(msg: string)

  const REQUEST_SLOTS := 100
  const RESPONSE_SLOTS := 100
  const ERROR_SLOTS := 1

  datatype Phase = Reading | Offering(req: Request) | Failing | Ending | Gone

  /** The decoder's remaining requests, the error it then reports, and the request channel. */
  datatype Inbound = Inbound(
    unread: seq<Request>,
    failure: Option<Error>,
    phase: Phase,
    reqCh: seq<Request>,
    reqClosed: bool)

  datatype Writer = Waiting | Encoding(resp: Response) | Reporting(err: Error) | Signalling | Finished

  /** The response channel, the writer, and what was sent to it and written by it. */
  datatype Outbound = Outbound(
    respCh: seq<Response>,
    respClosed: bool,
    writer: Writer,
    encodeFailed: bool,
    sent: seq<Response>,
    written: seq<Response>)

  /** How the dispatching loop ended. */
  datatype Exit = ByContext | ByError | ByEnd

  datatype Main =
    | Looping
    | Joining(exit: Exit)
    | Draining(exit: Exit)
    | Checking(exit: Exit)
    | Returned(exit: Exit, result: Option<Error>)

  datatype State = State(
    inbound: Inbound,
    outbound: Outbound,
    handlers: seq<seq<Response>>,
    errCh: seq<Error>,
    err: Option<Error>,
    main: Main,
    ctxDone: bool,
    panicked: bool,
    input: seq<Request>,
    dispatched: seq<Request>,
    given: multiset<Response>)

  /** Serve on an input that decodes to these requests and then to a clean end or an error. */
  function Start(input: seq<Request>, failure: Option<Error>): (s: State) {
    State(Inbound(input, failure, Reading, [], false), Outbound([], false, Waiting, false, [], []),
          [], [], None, Looping, false, false, input, [], multiset{})
  }

  datatype ReaderEvent = Read | ReadEnd | Offer | Fail | CloseRequests

  datatype MainEvent =
    | LeaveByContext
    | LeaveByError
    | LeaveByEnd
    | Dispatch(sends: seq<Response>)
    | CloseResponses
    | Meet
    | Conclude

  datatype HandlerEvent = Send(i: nat) | Return(i: nat)

  datatype WriterEvent = Pick | Drained | EncodeOk | EncodeFail(err: Error) | Report

  datatype Event =
    | Reader(r: ReaderEvent)
    | Dispatcher(m: MainEvent)
    | Handler(h: HandlerEvent)
    | Output(w: WriterEvent)
    | CancelContext

  // ----- the reader -----

  predicate ReaderEnabled(s: State, e: ReaderEvent) {
    var b := s.inbound;
    match e
    case Read => b.phase.Reading? && b.unread != []
    case ReadEnd => b.phase.Reading? && b.unread == []
    case Offer => b.phase.Offering? && |b.reqCh| < REQUEST_SLOTS
    case Fail => b.phase.Failing? && b.failure.Some? && |s.errCh| < ERROR_SLOTS
    case CloseRequests => b.phase.Ending?
  }

  function ReaderStep(s: State, e: ReaderEvent): (r: State)
    requires ReaderEnabled(s, e)
  {
    var b := s.inbound;
    match e
    case Read => s.(inbound := b.(phase := Offering(b.unread[0]), unread := b.unread[1..]))
    case ReadEnd => s.(inbound := b.(phase := if b.failure.Some? then Failing else Ending))
    case Offer => s.(inbound := b.(phase := Reading, reqCh := b.reqCh + [b.phase.req]))
    case Fail => s.(inbound := b.(phase := Ending), errCh := s.errCh + [b.failure.value])
    case CloseRequests => s.(inbound := b.(phase := Gone, reqClosed := true))
  }

  // ----- the dispatching loop and the shutdown -----

  predicate MainEnabled(s: State, e: MainEvent) {
    match e
    case LeaveByContext => s.main.Looping? && s.ctxDone
    case LeaveByError => s.main.Looping? && s.errCh != []
    case LeaveByEnd => s.main.Looping? && s.inbound.reqClosed && s.inbound.reqCh == []
    case Dispatch(_) => s.main.Looping? && s.inbound.reqCh != []
    case CloseResponses => s.main.Joining? && s.handlers == []
    case Meet => s.main.Draining? && s.outbound.writer.Signalling?
    case Conclude => s.main.Checking?
  }

  /** The value that Serve returns once the writer has stopped. */
  function Verdict(s: State): (r: Option<Error>) {
    if s.err.Some? then s.err else if s.errCh != [] then Some(s.errCh[0]) else None
  }

  function MainStep(s: State, e: MainEvent): (r: State)
    requires MainEnabled(s, e)
  {
    match e
    case LeaveByContext => s.(main := Joining(ByContext))
    case LeaveByError => s.(main := Joining(ByError), err := Some(s.errCh[0]), errCh := s.errCh[1..])
    case LeaveByEnd => s.(main := Joining(ByEnd))
    case Dispatch(sends) =>
      s.(inbound := s.inbound.(reqCh := s.inbound.reqCh[1..]),
         dispatched := s.dispatched + [s.inbound.reqCh[0]],
         handlers := s.handlers + [sends],
         given := s.given + multiset(sends))
    case CloseResponses =>
      s.(main := Draining(s.main.exit),
         outbound := s.outbound.(respClosed := true),
         panicked := s.panicked || s.outbound.respClosed)
    case Meet => s.(main := Checking(s.main.exit), outbound := s.outbound.(writer := Finished))
    case Conclude => s.(main := Returned(s.main.exit, Verdict(s)))
  }

  // ----- the handlers -----

  predicate HandlerEnabled(s: State, e: HandlerEvent) {
    match e
    case Send(i) => i < |s.handlers| && s.handlers[i] != [] && |s.outbound.respCh| < RESPONSE_SLOTS
    case Return(i) => i < |s.handlers| && s.handlers[i] == []
  }

  /** Sending on the closed response channel panics. */
  function HandlerStep(s: State, e: HandlerEvent): (r: State)
    requires HandlerEnabled(s, e)
  {
    match e
    case Send(i) =>
      var x := s.handlers[i][0];
      s.(handlers := s.handlers[i := s.handlers[i][1..]],
         outbound := s.outbound.(respCh := s.outbound.respCh + [x], sent := s.outbound.sent + [x]),
         panicked := s.panicked || s.outbound.respClosed)
    case Return(i) => s.(handlers := RemoveAt(s.handlers, i))
  }

  // ----- the writer -----

  predicate WriterEnabled(s: State, e: WriterEvent) {
    var b := s.outbound;
    match e
    case Pick => b.writer.Waiting? && b.respCh != []
    case Drained => b.writer.Waiting? && b.respCh == [] && b.respClosed
    case EncodeOk => b.writer.Encoding?
    case EncodeFail(_) => b.writer.Encoding?
    case Report => b.writer.Reporting? && |s.errCh| < ERROR_SLOTS
  }

  function WriterStep(s: State, e: WriterEvent): (r: State)
    requires WriterEnabled(s, e)
  {
    var b := s.outbound;
    match e
    case Pick => s.(outbound := b.(writer := Encoding(b.respCh[0]), respCh := b.respCh[1..]))
    case Drained => s.(outbound := b.(writer := Signalling))
    case EncodeOk => s.(outbound := b.(writer := Waiting, written := b.written + [b.writer.resp]))
    case EncodeFail(err) => s.(outbound := b.(writer := Reporting(err), encodeFailed := true))
    case Report => s.(outbound := b.(writer := Signalling), errCh := s.errCh + [b.writer.err])
  }

  // ----- runs -----

  predicate Enabled(s: State, e: Event) {
    match e
    case Reader(r) => ReaderEnabled(s, r)
    case Dispatcher(m) => MainEnabled(s, m)
    case Handler(h) => HandlerEnabled(s, h)
    case Output(w) => WriterEnabled(s, w)
    case CancelContext => !s.ctxDone
  }

  function Apply(s: State, e: Event): (r: State)
    requires Enabled(s, e)
  {
    match e
    case Reader(r) => ReaderStep(s, r)
    case Dispatcher(m) => MainStep(s, m)
    case Handler(h) => HandlerStep(s, h)
    case Output(w) => WriterStep(s, w)
    case CancelContext => s.(ctxDone := true)
  }

  function Exec(s: State, es: seq<Event>): (r: Option<State>)
    decreases |es|
  {
    if es == [] then Some(s)
    else if Enabled(s, es[0]) then Exec(Apply(s, es[0]), es[1..])
    else None
  }

  ghost predicate Reachable(s: State) {
    exists input, failure, es :: Exec(Start(input, failure), es) == Some(s)
  }

  lemma {:induction false} ExecConcat(s: State, a: seq<Event>, b: seq<Event>)
    requires Exec(s, a).Some?
    ensures Exec(s, a + b) == Exec(Exec(s, a).value, b)
    decreases |a|
  {
    if a == [] {
      assert a + b == b;
    } else {
      assert (a + b)[1..] == a[1..] + b;
      ExecConcat(Apply(s, a[0]), a[1..], b);
    }
  }

  lemma ReachableStep(s: State, e: Event)
    requires Reachable(s) && Enabled(s, e)
    ensures Reachable(Apply(s, e))
  {
    var input, failure, es :| Exec(Start(input, failure), es) == Some(s);
    ExecConcat(Start(input, failure), es, [e]);
    assert Exec(s, [e]) == Some(Apply(s, e)) by {
      assert [e][1..] == [];
    }
    assert Exec(Start(input, failure), es + [e]) == Some(Apply(s, e));
  }

  lemma ReachableStart(input: seq<Request>, failure: Option<Error>)
    ensures Reachable(Start(input, failure))
  {
    assert Exec(Start(input, failure), []) == Some(Start(input, failure));
  }
}
