/** What holds in every state that any interleaving of Serve can reach. */
module ServeTheorems {
  import opened Wrappers
  import opened Serve

  // ----- requests -----

  function HeldRequest(b: Inbound): (r: seq<Request>) {
    if b.phase.Offering? then [b.phase.req] else []
  }

  /** No request is lost, repeated or reordered on its way to a handler. */
  ghost predicate RequestsOk(s: State) {
    && s.dispatched + s.inbound.reqCh + HeldRequest(s.inbound) + s.inbound.unread == s.input
    && |s.inbound.reqCh| <= REQUEST_SLOTS
    && (s.inbound.reqClosed <==> s.inbound.phase.Gone?)
    && (s.inbound.phase.Failing? ==> s.inbound.failure.Some?)
    && (s.inbound.phase.Failing? || s.inbound.phase.Ending? || s.inbound.phase.Gone? ==> s.inbound.unread == [])
  }

  // ----- errors -----

  /** An error once reported stays in the channel or in Serve's own variable. */
  ghost predicate ErrorsOk(s: State) {
    var told := s.errCh != [] || s.err.Some?;
    && |s.errCh| <= ERROR_SLOTS
    && (s.err.Some? ==> !s.main.Looping?)
    && (s.inbound.failure.Some? && (s.inbound.phase.Ending? || s.inbound.phase.Gone?) ==> told)
    && (s.outbound.encodeFailed && (s.outbound.writer.Signalling? || s.outbound.writer.Finished?) ==> told)
    && (s.main.Returned? && s.main.result.None? ==> s.err.None?)
  }

  // ----- responses -----

  function HeldResponse(w: Writer): (r: seq<Response>) {
    if w.Encoding? then [w.resp] else []
  }

  /** Until an encode fails, what was sent is what was written, is being written, or is queued. */
  ghost predicate ResponsesOk(b: Outbound) {
    && |b.respCh| <= RESPONSE_SLOTS
    && (!b.encodeFailed ==> b.written + HeldResponse(b.writer) + b.respCh == b.sent)
    && (!b.encodeFailed && (b.writer.Signalling? || b.writer.Finished?) ==> b.respCh == [] && b.respClosed)
    && (b.encodeFailed ==> !b.writer.Waiting? && !b.writer.Encoding?)
    && (b.writer.Reporting? ==> b.encodeFailed)
  }

  // ----- shutdown -----

  ghost predicate ShutdownOk(s: State) {
    && (s.outbound.respClosed <==> s.main.Draining? || s.main.Checking? || s.main.Returned?)
    && (s.outbound.respClosed ==> s.handlers == [])
    && (s.outbound.writer.Finished? <==> s.main.Checking? || s.main.Returned?)
    && !s.panicked
    && (!s.main.Looping? && s.main.exit.ByEnd? ==> s.inbound.phase.Gone? && s.inbound.reqCh == [])
  }

  /** What Serve returned. */
  ghost predicate VerdictOk(s: State) {
    s.main.Returned? && s.main.result.None? ==>
      && !s.outbound.encodeFailed
      && (s.main.exit.ByEnd? ==> s.inbound.failure.None?)
  }

  ghost predicate Inv(s: State) {
    RequestsOk(s) && ErrorsOk(s) && ResponsesOk(s.outbound) && ShutdownOk(s) && VerdictOk(s)
  }

  lemma StartOk(input: seq<Request>, failure: Option<Error>)
    ensures Inv(Start(input, failure))
  {
  }

  lemma ReaderKeeps(s: State, e: ReaderEvent)
    requires Inv(s) && ReaderEnabled(s, e)
    ensures Inv(ReaderStep(s, e))
  {
    var s' := ReaderStep(s, e);
    var b, b' := s.inbound, s'.inbound;
    match e
    case Read =>
      assert b.unread == [b.unread[0]] + b.unread[1..];
      assert s'.dispatched + b'.reqCh + HeldRequest(b') + b'.unread ==
             s.dispatched + b.reqCh + HeldRequest(b) + b.unread;
    case Offer =>
      assert s'.dispatched + b'.reqCh + HeldRequest(b') + b'.unread ==
             s.dispatched + b.reqCh + HeldRequest(b) + b.unread;
    case _ =>
  }

  lemma MainKeeps(s: State, e: MainEvent)
    requires Inv(s) && MainEnabled(s, e)
    ensures Inv(MainStep(s, e))
  {
    var s' := MainStep(s, e);
    if e.Dispatch? {
      assert s.inbound.reqCh == [s.inbound.reqCh[0]] + s.inbound.reqCh[1..];
      assert s'.dispatched + s'.inbound.reqCh == s.dispatched + s.inbound.reqCh;
    }
  }

  lemma HandlerKeeps(s: State, e: HandlerEvent)
    requires Inv(s) && HandlerEnabled(s, e)
    ensures Inv(HandlerStep(s, e))
  {
    var b, b' := s.outbound, HandlerStep(s, e).outbound;
    assert e.Send? && !b.encodeFailed ==>
        b'.written + HeldResponse(b'.writer) + b'.respCh ==
        (b.written + HeldResponse(b.writer) + b.respCh) + [s.handlers[e.i][0]];
  }

  lemma WriterKeeps(s: State, e: WriterEvent)
    requires Inv(s) && WriterEnabled(s, e)
    ensures Inv(WriterStep(s, e))
  {
    var b, b' := s.outbound, WriterStep(s, e).outbound;
    if e.Pick? {
      assert b.respCh == [b.respCh[0]] + b.respCh[1..];
    }
    assert !e.EncodeFail? && !b.encodeFailed ==>
        b'.written + HeldResponse(b'.writer) + b'.respCh == b.written + HeldResponse(b.writer) + b.respCh;
  }

  lemma StepKeeps(s: State, e: Event)
    requires Inv(s) && Enabled(s, e)
    ensures Inv(Apply(s, e))
  {
    match e
    case Reader(r) => ReaderKeeps(s, r);
    case Dispatcher(m) => MainKeeps(s, m);
    case Handler(h) => HandlerKeeps(s, h);
    case Output(w) => WriterKeeps(s, w);
    case CancelContext =>
  }

  lemma {:induction false} RunKeeps(s: State, es: seq<Event>)
    requires Inv(s) && Exec(s, es).Some?
    ensures Inv(Exec(s, es).value)
    decreases |es|
  {
    if es != [] {
      StepKeeps(s, es[0]);
      RunKeeps(Apply(s, es[0]), es[1..]);
    }
  }

  lemma ReachableOk(s: State)
    requires Reachable(s)
    ensures Inv(s)
  {
    var input, failure, es :| Exec(Start(input, failure), es) == Some(s);
    StartOk(input, failure);
    RunKeeps(Start(input, failure), es);
  }

  // ----- no failure is hidden -----

  /**
   * If Serve returns nil, no encode failed and every response sent was written exactly once, in
   * channel order; if it left its loop because the requests ended, the decoder had no error.
   */
  lemma NeverHidesFailure(s: State)
    requires Reachable(s) && s.main.Returned? && s.main.result.None?
    ensures !s.outbound.encodeFailed && s.outbound.written == s.outbound.sent
    ensures s.main.exit.ByEnd? ==> s.inbound.failure.None? && s.dispatched == s.input
  {
    ReachableOk(s);
  }

  /** Written responses are always a prefix of those sent, also after a failed encode. */
  lemma WrittenIsPrefix(s: State)
    requires Reachable(s)
    ensures s.outbound.written <= s.outbound.sent
    ensures !s.panicked && (s.outbound.respClosed ==> s.handlers == [])
  {
    ReachableOk(s);
    var input, failure, es :| Exec(Start(input, failure), es) == Some(s);
    RunKeepsPrefix(Start(input, failure), es);
  }

  lemma {:induction false} RunKeepsPrefix(s: State, es: seq<Event>)
    requires Prefix(s.outbound) && Exec(s, es).Some?
    ensures Prefix(Exec(s, es).value.outbound)
    decreases |es|
  {
    if es != [] {
      StepKeepsPrefix(s, es[0]);
      RunKeepsPrefix(Apply(s, es[0]), es[1..]);
    }
  }

  /** Without the condition on failed encodes, but for the response that failed. */
  ghost predicate Prefix(b: Outbound) {
    b.written + HeldResponse(b.writer) <= b.sent &&
    ((b.writer.Waiting? || b.writer.Encoding?) ==> b.written + HeldResponse(b.writer) + b.respCh == b.sent)
  }

  lemma SendKeepsPrefix(b: Outbound, x: Response)
    requires Prefix(b)
    ensures Prefix(b.(respCh := b.respCh + [x], sent := b.sent + [x]))
  {
    var front := b.written + HeldResponse(b.writer);
    assert front + (b.respCh + [x]) == (front + b.respCh) + [x];
  }

  lemma WriterKeepsPrefix(s: State, e: WriterEvent)
    requires Prefix(s.outbound) && WriterEnabled(s, e)
    ensures Prefix(WriterStep(s, e).outbound)
  {
    var b, b' := s.outbound, WriterStep(s, e).outbound;
    if e.Pick? {
      assert b.respCh == [b.respCh[0]] + b.respCh[1..];
      assert b'.written + HeldResponse(b'.writer) + b'.respCh == b.written + HeldResponse(b.writer) + b.respCh;
    } else if e.EncodeOk? {
      assert b'.written + HeldResponse(b'.writer) == b.written + HeldResponse(b.writer);
    }
  }

  lemma StepKeepsPrefix(s: State, e: Event)
    requires Prefix(s.outbound) && Enabled(s, e)
    ensures Prefix(Apply(s, e).outbound)
  {
    match e
    case Handler(h) =>
      if h.Send? {
        SendKeepsPrefix(s.outbound, s.handlers[h.i][0]);
      }
    case Output(w) => WriterKeepsPrefix(s, w);
    case Reader(r) => assert ReaderStep(s, r).outbound == s.outbound;
    case Dispatcher(m) => assert MainStep(s, m).outbound.written == s.outbound.written;
    case CancelContext =>
  }

  /** The action sends on the closed response channel or closes it again, which panics in Go. */
  predicate UsesClosed(s: State, e: Event) {
    s.outbound.respClosed && ((e.Handler? && e.h.Send?) || e == Dispatcher(CloseResponses))
  }

  lemma PanicsExactly(s: State, e: Event)
    requires Enabled(s, e)
    ensures Apply(s, e).panicked <==> s.panicked || UsesClosed(s, e)
  {
  }

  lemma ChannelUsedOpen(s: State, e: Event)
    requires Reachable(s) && Enabled(s, e)
    ensures !UsesClosed(s, e)
  {
    ReachableOk(s);
  }

  // ----- every handler's responses -----

  ghost function AllOf(hs: seq<seq<Response>>): multiset<Response> {
    if hs == [] then multiset{} else multiset(hs[0]) + AllOf(hs[1..])
  }

  lemma {:induction false} AllOfConcat(a: seq<seq<Response>>, b: seq<seq<Response>>)
    ensures AllOf(a + b) == AllOf(a) + AllOf(b)
  {
    ConcatTail(a, b);
    if a != [] {
      AllOfConcat(a[1..], b);
      assert AllOf(a + b) == multiset(a[0]) + AllOf(a[1..] + b);
    }
  }

  lemma AllOfCons(h: seq<Response>, hs: seq<seq<Response>>)
    ensures AllOf([h] + hs) == multiset(h) + AllOf(hs)
  {
    assert ([h] + hs)[1..] == hs;
  }

  lemma AllOfSplit(hs: seq<seq<Response>>, i: nat)
    requires i < |hs|
    ensures AllOf(hs) == AllOf(hs[..i]) + multiset(hs[i]) + AllOf(hs[i + 1..])
  {
    SplitAt(hs, i);
    AllOfConcat(hs[..i], [hs[i]] + hs[i + 1..]);
    AllOfCons(hs[i], hs[i + 1..]);
  }

  /** Responses given to handlers are sent, or still to be sent. */
  ghost predicate GivenOk(s: State) {
    s.given == multiset(s.outbound.sent) + AllOf(s.handlers)
  }

  lemma SendMovesOne(hs: seq<seq<Response>>, i: nat)
    requires i < |hs| && hs[i] != []
    ensures AllOf(hs) == AllOf(hs[i := hs[i][1..]]) + multiset{hs[i][0]}
  {
    var hs' := hs[i := hs[i][1..]];
    AllOfSplit(hs, i);
    AllOfSplit(hs', i);
    assert hs'[..i] == hs[..i] && hs'[i + 1..] == hs[i + 1..];
    assert hs[i] == [hs[i][0]] + hs[i][1..];
  }

  lemma ReturnMovesNone(hs: seq<seq<Response>>, i: nat)
    requires i < |hs| && hs[i] == []
    ensures AllOf(hs) == AllOf(RemoveAt(hs, i))
  {
    AllOfSplit(hs, i);
    AllOfConcat(hs[..i], hs[i + 1..]);
  }

  lemma HandlerKeepsGiven(s: State, e: HandlerEvent)
    requires GivenOk(s) && HandlerEnabled(s, e)
    ensures GivenOk(HandlerStep(s, e))
  {
    match e
    case Send(i) => SendMovesOne(s.handlers, i);
    case Return(i) => ReturnMovesNone(s.handlers, i);
  }

  lemma MainKeepsGiven(s: State, e: MainEvent)
    requires GivenOk(s) && MainEnabled(s, e)
    ensures GivenOk(MainStep(s, e))
  {
    if e.Dispatch? {
      AllOfConcat(s.handlers, [e.sends]);
      assert AllOf([e.sends]) == multiset(e.sends) + AllOf([e.sends][1..]);
    }
  }

  lemma StepKeepsGiven(s: State, e: Event)
    requires GivenOk(s) && Enabled(s, e)
    ensures GivenOk(Apply(s, e))
  {
    match e
    case Handler(h) => HandlerKeepsGiven(s, h);
    case Dispatcher(m) => MainKeepsGiven(s, m);
    case Reader(r) => assert ReaderStep(s, r).outbound == s.outbound && ReaderStep(s, r).handlers == s.handlers;
    case Output(w) =>
      assert WriterStep(s, w).outbound.sent == s.outbound.sent && WriterStep(s, w).handlers == s.handlers;
    case CancelContext =>
  }

  lemma {:induction false} RunKeepsGiven(s: State, es: seq<Event>)
    requires GivenOk(s) && Exec(s, es).Some?
    ensures GivenOk(Exec(s, es).value)
    decreases |es|
  {
    if es != [] {
      StepKeepsGiven(s, es[0]);
      RunKeepsGiven(Apply(s, es[0]), es[1..]);
    }
  }

  // ----- progress -----

  /** An action of Serve itself, not of its environment. */
  predicate Internal(e: Event) {
    e != CancelContext && !(e.Output? && e.w.EncodeFail?)
  }

  /** Without a failed encode Serve is never stuck before it returns, whatever else went wrong. */
  lemma NeverStuck(s: State) returns (e: Event)
    requires Reachable(s) && !s.outbound.encodeFailed && !s.main.Returned?
    ensures Internal(e) && Enabled(s, e)
  {
    ReachableOk(s);
    match s.outbound.writer
    case Encoding(_) => e := Output(EncodeOk);
    case Signalling => e := Dispatcher(Meet);
    case Finished => e := Dispatcher(Conclude);
    case Waiting =>
      if s.outbound.respCh != [] {
        e := Output(Pick);
      } else if s.outbound.respClosed {
        e := Output(Drained);
      } else if s.handlers != [] {
        e := if s.handlers[0] == [] then Handler(Return(0)) else Handler(Send(0));
      } else if s.main.Joining? {
        e := Dispatcher(CloseResponses);
      } else {
        e := LoopOrReader(s);
      }
  }

  lemma LoopOrReader(s: State) returns (e: Event)
    requires Inv(s) && s.main.Looping?
    ensures Internal(e) && Enabled(s, e)
  {
    if s.inbound.reqCh != [] {
      e := Dispatcher(Dispatch([]));
    } else if s.errCh != [] {
      e := Dispatcher(LeaveByError);
    } else {
      match s.inbound.phase
      case Reading => e := if s.inbound.unread == [] then Reader(ReadEnd) else Reader(Read);
      case Offering(_) => e := Reader(Offer);
      case Failing => e := Reader(Fail);
      case Ending => e := Reader(CloseRequests);
      case Gone => e := Dispatcher(LeaveByEnd);
    }
  }

  /** Requests that no handler has been started for. */
  function Waitlist(s: State): (r: nat) {
    |s.inbound.unread| + |HeldRequest(s.inbound)| + |s.inbound.reqCh|
  }

  function HandlerWork(hs: seq<seq<Response>>): (r: nat) {
    if hs == [] then 0 else 4 * |hs[0]| + 1 + HandlerWork(hs[1..])
  }

  function PhaseWork(p: Phase): (r: nat) {
    match p case Offering(_) => 6 case Reading => 3 case Failing => 2 case Ending => 1 case Gone => 0
  }

  function WriterWork(w: Writer): (r: nat) {
    match w case Encoding(_) => 4 case Reporting(_) => 3 case Waiting => 2 case Signalling => 1 case Finished => 0
  }

  function MainWork(m: Main): (r: nat) {
    match m case Looping => 4 case Joining(_) => 3 case Draining(_) => 2 case Checking(_) => 1 case Returned(_, _) => 0
  }

  /** The work that is left for the requests already dispatched, and for the shutdown. */
  function Work(s: State): (r: nat) {
    4 * |s.inbound.unread| + PhaseWork(s.inbound.phase) + HandlerWork(s.handlers) +
    3 * |s.outbound.respCh| + WriterWork(s.outbound.writer) + MainWork(s.main) +
    (if s.ctxDone then 0 else 1)
  }

  lemma {:induction false} HandlerWorkConcat(a: seq<seq<Response>>, b: seq<seq<Response>>)
    ensures HandlerWork(a + b) == HandlerWork(a) + HandlerWork(b)
  {
    ConcatTail(a, b);
    if a != [] {
      HandlerWorkConcat(a[1..], b);
    }
  }

  lemma HandlerWorkSplit(hs: seq<seq<Response>>, i: nat)
    requires i < |hs|
    ensures HandlerWork(hs) == HandlerWork(hs[..i]) + 4 * |hs[i]| + 1 + HandlerWork(hs[i + 1..])
  {
    SplitAt(hs, i);
    HandlerWorkConcat(hs[..i], [hs[i]] + hs[i + 1..]);
    assert ([hs[i]] + hs[i + 1..])[1..] == hs[i + 1..];
  }

  lemma HandlerDecreases(s: State, e: HandlerEvent)
    requires HandlerEnabled(s, e)
    ensures Waitlist(HandlerStep(s, e)) == Waitlist(s) && Work(HandlerStep(s, e)) < Work(s)
  {
    var hs, hs' := s.handlers, HandlerStep(s, e).handlers;
    HandlerWorkSplit(hs, e.i);
    match e
    case Send(i) =>
      HandlerWorkSplit(hs', i);
      assert hs'[..i] == hs[..i] && hs'[i + 1..] == hs[i + 1..];
    case Return(i) =>
      HandlerWorkConcat(hs[..i], hs[i + 1..]);
  }

  /** Fewer undispatched requests, or as many and less work. */
  predicate Decreases(s: State, s': State) {
    Waitlist(s') < Waitlist(s) || (Waitlist(s') == Waitlist(s) && Work(s') < Work(s))
  }

  lemma ReaderDecreases(s: State, e: ReaderEvent)
    requires ReaderEnabled(s, e)
    ensures Decreases(s, ReaderStep(s, e))
  {
  }

  lemma MainDecreases(s: State, e: MainEvent)
    requires MainEnabled(s, e)
    ensures Decreases(s, MainStep(s, e))
  {
  }

  lemma WriterDecreases(s: State, e: WriterEvent)
    requires WriterEnabled(s, e)
    ensures Decreases(s, WriterStep(s, e))
  {
  }

  /** Every action, also of the environment, makes progress, so no run goes on for ever. */
  lemma StepDecreases(s: State, e: Event)
    requires Enabled(s, e)
    ensures Decreases(s, Apply(s, e))
  {
    match e
    case Handler(h) => HandlerDecreases(s, h);
    case Reader(r) => ReaderDecreases(s, r);
    case Dispatcher(m) => MainDecreases(s, m);
    case Output(w) => WriterDecreases(s, w);
    case CancelContext =>
  }

  /**
   * A clean input ends well: with no read error, no cancel and no failed encode, Serve returns nil
   * after every request was handled once and every response was written once.
   */
  lemma CleanEnd(input: seq<Request>, es: seq<Event>, s: State)
    requires Exec(Start(input, None), es) == Some(s)
    requires !s.ctxDone && !s.outbound.encodeFailed && s.main.Returned?
    ensures s.main == Returned(ByEnd, None)
    ensures s.dispatched == input && s.handlers == []
    ensures s.outbound.written == s.outbound.sent && multiset(s.outbound.written) == s.given
  {
    StartOk(input, None);
    RunKeeps(Start(input, None), es);
    assert CleanOk(input, Start(input, None));
    RunKeepsClean(input, Start(input, None), es);
    RunKeepsGiven(Start(input, None), es);
  }

  /** No error has come up, unless by a cancel or a failed encode. */
  ghost predicate CleanOk(input: seq<Request>, s: State) {
    && s.input == input && s.inbound.failure.None?
    && (!s.outbound.encodeFailed ==> s.errCh == [] && s.err.None?)
    && (!s.outbound.encodeFailed && s.main.Returned? ==> s.main.result.None?)
    && (!s.outbound.encodeFailed && !s.ctxDone && !s.main.Looping? ==> s.main.exit.ByEnd?)
    && (s.outbound.writer.Reporting? ==> s.outbound.encodeFailed)
    && !s.inbound.phase.Failing?
  }

  lemma MainKeepsClean(input: seq<Request>, s: State, e: MainEvent)
    requires CleanOk(input, s) && MainEnabled(s, e)
    ensures CleanOk(input, MainStep(s, e))
  {
  }

  lemma WriterKeepsClean(input: seq<Request>, s: State, e: WriterEvent)
    requires CleanOk(input, s) && WriterEnabled(s, e)
    ensures CleanOk(input, WriterStep(s, e))
  {
  }

  lemma StepKeepsClean(input: seq<Request>, s: State, e: Event)
    requires CleanOk(input, s) && Enabled(s, e)
    ensures CleanOk(input, Apply(s, e))
  {
    match e
    case Dispatcher(m) => MainKeepsClean(input, s, m);
    case Output(w) => WriterKeepsClean(input, s, w);
    case _ =>
  }

  lemma {:induction false} RunKeepsClean(input: seq<Request>, s: State, es: seq<Event>)
    requires CleanOk(input, s) && Exec(s, es).Some?
    ensures CleanOk(input, Exec(s, es).value)
    decreases |es|
  {
    if es != [] {
      StepKeepsClean(input, s, es[0]);
      RunKeepsClean(input, Apply(s, es[0]), es[1..]);
    }
  }

  /** The loop takes any branch that is ready: it is never deaf to a cancel, an error, a request or the end. */
  lemma LoopResponds(s: State, sends: seq<Response>)
    requires Reachable(s) && s.main.Looping?
    ensures MainEnabled(s, LeaveByContext) <==> s.ctxDone
    ensures MainEnabled(s, LeaveByError) <==> s.errCh != []
    ensures MainEnabled(s, LeaveByEnd) <==> s.inbound.phase.Gone? && s.inbound.reqCh == []
    ensures MainEnabled(s, Dispatch(sends)) <==> s.inbound.reqCh != []
  {
    ReachableOk(s);
  }

  /** Any handler can send exactly if it has a response and there is room, and return exactly if it has none. */
  lemma HandlersRespond(s: State, i: nat)
    ensures HandlerEnabled(s, Send(i)) <==> i < |s.handlers| && s.handlers[i] != [] && |s.outbound.respCh| < 100
    ensures HandlerEnabled(s, Return(i)) <==> i < |s.handlers| && s.handlers[i] == []
  {
  }

  // ----- what the result says -----

  /** The loop is left by a cancel or an error only if there was one. */
  ghost predicate ExitOk(input: seq<Request>, failure: Option<Error>, s: State) {
    && s.input == input && s.inbound.failure == failure
    && (!s.main.Looping? && s.main.exit.ByContext? ==> s.ctxDone)
    && (!s.main.Looping? && s.main.exit.ByError? ==> s.err.Some?)
  }

  lemma MainKeepsExit(input: seq<Request>, failure: Option<Error>, s: State, e: MainEvent)
    requires ExitOk(input, failure, s) && MainEnabled(s, e)
    ensures ExitOk(input, failure, MainStep(s, e))
  {
  }

  lemma StepKeepsExit(input: seq<Request>, failure: Option<Error>, s: State, e: Event)
    requires ExitOk(input, failure, s) && Enabled(s, e)
    ensures ExitOk(input, failure, Apply(s, e))
  {
    match e
    case Dispatcher(m) => MainKeepsExit(input, failure, s, m);
    case Output(w) => assert WriterStep(s, w).main == s.main;
    case _ =>
  }

  lemma {:induction false} RunKeepsExit(input: seq<Request>, failure: Option<Error>, s: State, es: seq<Event>)
    requires ExitOk(input, failure, s) && Exec(s, es).Some?
    ensures ExitOk(input, failure, Exec(s, es).value)
    decreases |es|
  {
    if es != [] {
      StepKeepsExit(input, failure, s, es[0]);
      RunKeepsExit(input, failure, Apply(s, es[0]), es[1..]);
    }
  }

  /**
   * Unless it is cancelled, Serve returns nil exactly if neither the decoder nor an encode failed,
   * and then it has dispatched every request.
   */
  lemma VerdictExactly(input: seq<Request>, failure: Option<Error>, es: seq<Event>, s: State)
    requires Exec(Start(input, failure), es) == Some(s) && s.main.Returned? && !s.ctxDone
    ensures s.main.result.None? <==> failure.None? && !s.outbound.encodeFailed
    ensures s.main.result.None? ==> s.dispatched == input && s.outbound.written == s.outbound.sent
  {
    RunKeepsExit(input, failure, Start(input, failure), es);
    ReachableOk(s);
    if failure.None? && !s.outbound.encodeFailed {
      CleanEnd(input, es, s);
    }
  }

  // ----- which error is returned -----

  /** The errors that encodes fail with in a run. */
  ghost function EncodeErrors(es: seq<Event>): set<Error> {
    set e | e in es && e.Output? && e.w.EncodeFail? :: e.w.err
  }

  /** Every error that is under way or returned is one of these. */
  ghost predicate ErrorsAmong(s: State, from: set<Error>) {
    && (s.inbound.failure.Some? ==> s.inbound.failure.value in from)
    && (s.outbound.writer.Reporting? ==> s.outbound.writer.err in from)
    && (forall e :: e in s.errCh ==> e in from)
    && (s.err.Some? ==> s.err.value in from)
    && (s.main.Returned? && s.main.result.Some? ==> s.main.result.value in from)
  }

  lemma MainKeepsErrors(s: State, e: MainEvent, from: set<Error>)
    requires ErrorsAmong(s, from) && MainEnabled(s, e)
    ensures ErrorsAmong(MainStep(s, e), from)
  {
  }

  lemma WriterKeepsErrors(s: State, e: WriterEvent, from: set<Error>)
    requires ErrorsAmong(s, from) && WriterEnabled(s, e)
    ensures ErrorsAmong(WriterStep(s, e), if e.EncodeFail? then from + {e.err} else from)
  {
  }

  lemma StepKeepsErrors(s: State, e: Event, from: set<Error>)
    requires ErrorsAmong(s, from) && Enabled(s, e)
    ensures ErrorsAmong(Apply(s, e), from + EncodeErrors([e]))
  {
    match e
    case Dispatcher(m) => MainKeepsErrors(s, m, from);
    case Output(w) =>
      WriterKeepsErrors(s, w, from);
      assert w.EncodeFail? ==> e in [e] && w.err in EncodeErrors([e]);
    case Reader(r) => ReaderKeepsErrors(s, r, from);
    case _ =>
  }

  lemma ReaderKeepsErrors(s: State, e: ReaderEvent, from: set<Error>)
    requires ErrorsAmong(s, from) && ReaderEnabled(s, e)
    ensures ErrorsAmong(ReaderStep(s, e), from)
  {
  }

  lemma {:induction false} RunKeepsErrors(s: State, es: seq<Event>, from: set<Error>)
    requires ErrorsAmong(s, from) && Exec(s, es).Some?
    ensures ErrorsAmong(Exec(s, es).value, from + EncodeErrors(es))
    decreases |es|
  {
    if es != [] {
      StepKeepsErrors(s, es[0], from);
      RunKeepsErrors(Apply(s, es[0]), es[1..], from + EncodeErrors([es[0]]));
      assert es == [es[0]] + es[1..];
      assert EncodeErrors(es) == EncodeErrors([es[0]]) + EncodeErrors(es[1..]);
    }
  }

  function Reports(es: seq<Event>): (n: nat) {
    if es == [] then 0 else (if es[0] == Reader(Fail) || es[0] == Output(Report) then 1 else 0) + Reports(es[1..])
  }

  /** No report is lost: each is in the channel, but for the one that the loop has received. */
  lemma {:induction false} ReportsCounted(s: State, es: seq<Event>)
    requires Inv(s) && Exec(s, es).Some?
    ensures var s' := Exec(s, es).value;
            |s'.errCh| + (if s'.err.Some? then 1 else 0) == |s.errCh| + (if s.err.Some? then 1 else 0) + Reports(es)
    decreases |es|
  {
    if es != [] {
      StepKeeps(s, es[0]);
      StepCountsReports(s, es[0]);
      ReportsCounted(Apply(s, es[0]), es[1..]);
    }
  }

  lemma StepCountsReports(s: State, e: Event)
    requires Inv(s) && Enabled(s, e)
    ensures var s' := Apply(s, e);
            |s'.errCh| + (if s'.err.Some? then 1 else 0) ==
            |s.errCh| + (if s.err.Some? then 1 else 0) + if e == Reader(Fail) || e == Output(Report) then 1 else 0
  {
  }

  /** Serve makes no error up: what it returns is the decoder's, or one that an encode failed with. */
  lemma ErrorIsReal(input: seq<Request>, failure: Option<Error>, es: seq<Event>, s: State)
    requires Exec(Start(input, failure), es) == Some(s) && s.main.Returned? && s.main.result.Some?
    ensures failure == s.main.result || Output(EncodeFail(s.main.result.value)) in es
  {
    var from := if failure.Some? then {failure.value} else {};
    RunKeepsErrors(Start(input, failure), es, from);
    if failure != s.main.result {
      assert s.main.result.value in EncodeErrors(es);
      var e :| e in es && e.Output? && e.w.EncodeFail? && e.w.err == s.main.result.value;
      assert e == Output(EncodeFail(s.main.result.value));
    }
  }

  /** The first error that the reader or the writer puts on the error channel before Serve concludes. */
  function FirstReport(s: State, es: seq<Event>): (r: Option<Error>)
    requires Exec(s, es).Some?
    decreases |es|
  {
    if es == [] || es[0] == Dispatcher(Conclude) then None
    else if es[0] == Reader(Fail) then s.inbound.failure
    else if es[0] == Output(Report) then Some(s.outbound.writer.err)
    else FirstReport(Apply(s, es[0]), es[1..])
  }

  /** An error that was reported before. */
  function Pending(s: State): (r: Option<Error>) {
    if s.err.Some? then s.err else if s.errCh == [] then None else Some(s.errCh[0])
  }

  lemma StepKeepsFirst(s: State, e: Event)
    requires Inv(s) && Enabled(s, e) && !s.main.Returned? && e != Dispatcher(Conclude)
    ensures !Apply(s, e).main.Returned?
    ensures Pending(s).Some? ==> Pending(Apply(s, e)) == Pending(s)
    ensures Pending(s).None? ==>
            Pending(Apply(s, e)) == (if e == Reader(Fail) then s.inbound.failure
                                     else if e == Output(Report) then Some(s.outbound.writer.err) else None)
  {
    match e
    case Dispatcher(m) => MainKeepsFirst(s, m);
    case Reader(r) => assert ReaderStep(s, r).main == s.main && ReaderStep(s, r).err == s.err;
    case Output(w) => assert WriterStep(s, w).main == s.main && WriterStep(s, w).err == s.err;
    case _ =>
  }

  lemma MainKeepsFirst(s: State, e: MainEvent)
    requires s.err.Some? ==> !s.main.Looping?
    requires MainEnabled(s, e) && !s.main.Returned? && e != Conclude && |s.errCh| <= ERROR_SLOTS
    ensures !MainStep(s, e).main.Returned? && Pending(MainStep(s, e)) == Pending(s)
  {
  }

  lemma {:induction false} ReturnedStays(s: State, es: seq<Event>)
    requires s.main.Returned? && Exec(s, es).Some?
    ensures Exec(s, es).value.main == s.main
    decreases |es|
  {
    if es != [] {
      ReturnedStays(Apply(s, es[0]), es[1..]);
    }
  }

  lemma {:induction false} FirstIsReturned(s: State, es: seq<Event>)
    requires Inv(s) && !s.main.Returned? && Exec(s, es).Some? && Exec(s, es).value.main.Returned?
    ensures Exec(s, es).value.main.result == if Pending(s).Some? then Pending(s) else FirstReport(s, es)
    decreases |es|
  {
    var s' := Apply(s, es[0]);
    if es[0] == Dispatcher(Conclude) {
      ReturnedStays(s', es[1..]);
    } else {
      StepKeeps(s, es[0]);
      StepKeepsFirst(s, es[0]);
      FirstIsReturned(s', es[1..]);
    }
  }

  /**
   * In every run, cancelled or not, Serve returns the first error that was reported before it
   * concluded, and nil if there was none; without cancel or failed encode that is the decoder's.
   */
  lemma ReturnsFirstError(input: seq<Request>, failure: Option<Error>, es: seq<Event>, s: State)
    requires Exec(Start(input, failure), es) == Some(s) && s.main.Returned?
    ensures s.main.result == FirstReport(Start(input, failure), es)
    ensures !s.ctxDone && !s.outbound.encodeFailed ==> s.main.result == failure
  {
    StartOk(input, failure);
    FirstIsReturned(Start(input, failure), es);
    if !s.ctxDone && !s.outbound.encodeFailed {
      VerdictExactly(input, failure, es, s);
      if s.main.result.Some? {
        ErrorIsReal(input, failure, es, s);
        if failure != s.main.result {
          EncodeFailShows(Start(input, failure), es, s.main.result.value);
        }
      }
    }
  }

  lemma {:induction false} FailureStays(s: State, es: seq<Event>)
    requires s.outbound.encodeFailed && Exec(s, es).Some?
    ensures Exec(s, es).value.outbound.encodeFailed
    decreases |es|
  {
    if es != [] {
      FailureStays(Apply(s, es[0]), es[1..]);
    }
  }

  lemma {:induction false} EncodeFailShows(s: State, es: seq<Event>, err: Error)
    requires Output(EncodeFail(err)) in es && Exec(s, es).Some?
    ensures Exec(s, es).value.outbound.encodeFailed
    decreases |es|
  {
    if es[0] == Output(EncodeFail(err)) {
      FailureStays(Apply(s, es[0]), es[1..]);
    } else {
      assert es == [es[0]] + es[1..];
      EncodeFailShows(Apply(s, es[0]), es[1..], err);
    }
  }

  // ----- exactly when Serve hangs -----

  /** No goroutine of Serve can go on; at most the context can still be cancelled. */
  ghost predicate Stuck(s: State) {
    forall e :: Internal(e) ==> !Enabled(s, e)
  }

  /** The reader is done, or blocked on a channel that Serve's loop no longer receives from. */
  predicate ReaderStopped(s: State) {
    match s.inbound.phase
    case Gone => true
    case Offering(_) => |s.inbound.reqCh| == 100
    case Failing => |s.errCh| == 1
    case _ => false
  }

  /** The writer failed and finds the error channel full. */
  predicate Unreported(s: State) {
    s.outbound.writer.Reporting? && |s.errCh| == 1
  }

  /** The writer has stopped receiving, and every handler left is blocked on the full response channel. */
  predicate Jammed(s: State) {
    && (s.outbound.writer.Signalling? || Unreported(s))
    && |s.outbound.respCh| == 100
    && s.handlers != [] && forall i :: 0 <= i < |s.handlers| ==> s.handlers[i] != []
  }

  predicate Hung(s: State) {
    && s.outbound.encodeFailed && ReaderStopped(s)
    && ((s.main.Draining? && Unreported(s)) || (s.main.Joining? && Jammed(s)))
  }

  /** No goroutine of a hung Serve has a step. */
  lemma HungIsStuck(s: State)
    requires Inv(s) && Hung(s)
    ensures !s.main.Returned? && Stuck(s)
  {
    forall e | Internal(e) ensures !Enabled(s, e) {
      assert e.Handler? && e.h.i < |s.handlers| ==> s.handlers[e.h.i] != [];
    }
  }

  /** A reader that is not stopped has a step. */
  lemma ReaderGoes(s: State) returns (e: Event)
    requires Inv(s) && !ReaderStopped(s)
    ensures Internal(e) && Enabled(s, e)
  {
    e := match s.inbound.phase
      case Reading => Reader(if s.inbound.unread == [] then ReadEnd else Read)
      case Offering(_) => Reader(Offer)
      case Failing => Reader(Fail)
      case _ => Reader(CloseRequests);
  }

  /** With the loop left, the reader stopped and Serve not hung, the shutdown goes on. */
  lemma ShutdownGoes(s: State) returns (e: Event)
    requires Inv(s) && s.outbound.encodeFailed && ReaderStopped(s) && !Hung(s)
    requires !s.main.Looping? && !s.main.Returned?
    ensures Internal(e) && Enabled(s, e)
  {
    if s.main.Checking? {
      e := Dispatcher(Conclude);
    } else if s.main.Draining? {
      e := if s.outbound.writer.Signalling? then Dispatcher(Meet) else Output(Report);
    } else if s.handlers == [] {
      e := Dispatcher(CloseResponses);
    } else if s.outbound.writer.Reporting? && s.errCh == [] {
      e := Output(Report);
    } else if i :| 0 <= i < |s.handlers| && s.handlers[i] == [] {
      e := Handler(Return(i));
    } else {
      e := Handler(Send(0));
    }
  }

  /**
   * Before it returns, Serve is stuck exactly if an encode failed, the reader is stopped, and either
   * the failure itself cannot be reported while Serve waits for the writer, or Serve waits for
   * handlers that are all blocked on the response channel, which nobody receives from any more.
   */
  lemma StuckExactly(s: State)
    requires Reachable(s) && !s.main.Returned?
    ensures Stuck(s) <==> Hung(s)
  {
    ReachableOk(s);
    if Hung(s) {
      HungIsStuck(s);
    } else if !s.outbound.encodeFailed {
      var e := NeverStuck(s);
    } else if s.main.Looping? {
      var e := LoopOrReader(s);
    } else if !ReaderStopped(s) {
      var e := ReaderGoes(s);
    } else {
      var e := ShutdownGoes(s);
    }
  }

  /** A hung Serve never returns, whatever happens around it. */
  lemma {:induction false} HungForGood(s: State, es: seq<Event>)
    requires Inv(s) && Hung(s) && Exec(s, es).Some?
    ensures Hung(Exec(s, es).value) && !Exec(s, es).value.main.Returned?
    decreases |es|
  {
    if es != [] {
      HungIsStuck(s);
      assert es[0] == CancelContext;
      StepKeeps(s, es[0]);
      HungForGood(Apply(s, es[0]), es[1..]);
    }
  }

  // ----- two ways to hang -----

  /** One request whose single response is being encoded, with the reader stopped on an error. */
  ghost predicate Poised(s: State, read: Error, x: Response) {
    && s.inbound.phase.Gone? && s.inbound.reqCh == [] && s.errCh == [read] && s.handlers == []
    && s.outbound.writer == Encoding(x) && s.outbound.respCh == [] && !s.outbound.respClosed
    && s.main.Looping? && !s.ctxDone
  }

  lemma ReachDispatched(q: Request, read: Error, x: Response) returns (s: State)
    ensures Reachable(s)
    ensures s.inbound == Inbound([], Some(read), Reading, [], false)
    ensures s.outbound == Outbound([], false, Waiting, false, [], []) && s.handlers == [[x]]
    ensures s.errCh == [] && s.main.Looping? && !s.ctxDone
  {
    s := Start([q], Some(read));
    ReachableStart([q], Some(read));
    s := Go(s, Reader(Read));
    s := Go(s, Reader(Offer));
    s := Go(s, Dispatcher(Dispatch([x])));
  }

  lemma ReachPoised(q: Request, read: Error, x: Response) returns (s: State)
    ensures Reachable(s) && Poised(s, read, x)
  {
    s := ReachDispatched(q, read, x);
    s := Go(s, Handler(Send(0)));
    s := Go(s, Handler(Return(0)));
    s := Go(s, Output(Pick));
    s := Go(s, Reader(ReadEnd));
    s := Go(s, Reader(Fail));
    s := Go(s, Reader(CloseRequests));
  }

  lemma Go(s: State, e: Event) returns (s': State)
    requires Reachable(s) && Enabled(s, e)
    ensures Reachable(s') && s' == Apply(s, e)
  {
    ReachableStep(s, e);
    s' := Apply(s, e);
  }

  /**
   * The error channel has one slot and two producers: a read error followed by a failed encode
   * after the loop was left by a cancel blocks the writer for ever, and Serve with it.
   */
  lemma TwoErrorsHang(q: Request, read: Error, encode: Error, x: Response) returns (s: State)
    ensures Reachable(s) && Hung(s) && s.main.Draining?
    ensures forall e :: !Enabled(s, e)
  {
    s := ReachPoised(q, read, x);
    s := Go(s, CancelContext);
    s := Go(s, Dispatcher(LeaveByContext));
    s := Go(s, Dispatcher(CloseResponses));
    s := Go(s, Output(EncodeFail(encode)));
  }

  /** The first response of the only handler failed to encode. */
  lemma ReachEncodeFailed(q: Request, encode: Error, xs: seq<Response>) returns (s: State)
    requires xs != []
    ensures Reachable(s) && !s.ctxDone && s.input == [q] && s.errCh == [] && s.main.Looping?
    ensures s.inbound == Inbound([], None, Reading, [], false) && s.handlers == [xs[1..]]
    ensures s.outbound.encodeFailed && s.outbound.writer == Reporting(encode) && s.outbound.respCh == []
  {
    s := Start([q], None);
    ReachableStart([q], None);
    s := Go(s, Reader(Read));
    s := Go(s, Reader(Offer));
    s := Go(s, Dispatcher(Dispatch(xs)));
    s := Go(s, Handler(Send(0)));
    s := Go(s, Output(Pick));
    s := Go(s, Output(EncodeFail(encode)));
  }

  /** It was reported, Serve has left its loop, and the handler has the rest to send. */
  lemma ReachUndrained(q: Request, encode: Error, xs: seq<Response>) returns (s: State)
    requires xs != []
    ensures Reachable(s) && !s.ctxDone && s.input == [q] && s.main == Joining(ByError)
    ensures s.inbound == Inbound([], None, Gone, [], true) && s.handlers == [xs[1..]]
    ensures s.outbound.encodeFailed && s.outbound.writer.Signalling? && s.outbound.respCh == []
  {
    s := ReachEncodeFailed(q, encode, xs);
    s := Go(s, Output(Report));
    s := Go(s, Dispatcher(LeaveByError));
    s := Go(s, Reader(ReadEnd));
    s := Go(s, Reader(CloseRequests));
  }

  /** The only handler sends n responses in a row. */
  lemma {:induction false} SendMany(s: State, xs: seq<Response>, n: nat) returns (s': State)
    requires Reachable(s) && s.handlers == [xs]
    requires n <= |xs| && |s.outbound.respCh| + n <= RESPONSE_SLOTS
    ensures Reachable(s') && s'.handlers == [xs[n..]] && |s'.outbound.respCh| == |s.outbound.respCh| + n
    ensures s'.inbound == s.inbound && s'.main == s.main && s'.ctxDone == s.ctxDone && s'.input == s.input
    ensures s'.outbound.writer == s.outbound.writer && s'.outbound.encodeFailed == s.outbound.encodeFailed
    decreases n
  {
    s' := s;
    if n > 0 {
      s' := Go(s, Handler(Send(0)));
      s' := SendMany(s', xs[1..], n - 1);
    }
  }

  /**
   * One failed encode is enough, without a read error or a cancel: the writer stops receiving, so a
   * handler with more responses than the channel holds blocks for ever, and Serve with it.
   */
  lemma ManyResponsesHang(q: Request, encode: Error, xs: seq<Response>) returns (s: State)
    requires |xs| >= 102
    ensures Reachable(s) && Hung(s) && s.main == Joining(ByError)
    ensures !s.ctxDone && s.inbound.failure.None? && s.input == [q]
    ensures forall e :: Enabled(s, e) ==> e == CancelContext
  {
    s := ReachUndrained(q, encode, xs);
    s := SendMany(s, xs[1..], RESPONSE_SLOTS);
    ReachableOk(s);
    HungIsStuck(s);
  }
}
