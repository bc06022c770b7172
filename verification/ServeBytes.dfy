/** Serve on a byte stream: the decoder's messages, parsed one by one, are what the reader offers. */
module ServeBytes {
  import opened Wrappers
  import opened Serve
  import opened ServeTheorems
  import opened Framing

  /** The outcome of parsing a message is a parameter. */
  type Parser = Bytes -> Result<Request, string>

  function Text(e: Framing.Error): (r: string) {
    match e
    case EOF => "EOF"
    case UnexpectedEOF => "unexpected EOF"
    case TooLarge => "message exceeds maximum message size"
    case Failed(text) => text
    case Invalid(text) => text
  }

  /** What the decoder reports at the end: a clean end is no error. */
  function EndError(e: Framing.Error): (r: Option<Serve.Error>) {
    if e == EOF then None else Some(Serve.Error("failed to read from stream: " + Text(e)))
  }

  /** The requests up to the first message that does not parse, and the error the reader ends on. */
  function Requests(msgs: seq<Bytes>, end: Framing.Error, parse: Parser): (r: (seq<Request>, Option<Serve.Error>)) {
    if msgs == [] then ([], EndError(end))
    else
      match parse(msgs[0])
      case Err(text) => ([], EndError(Invalid(text)))
      case Ok(q) =>
        var (qs, failure) := Requests(msgs[1..], end, parse);
        ([q] + qs, failure)
  }

  /** What the reader of Serve gets from these bytes. */
  function Inputs(data: Bytes, fault: Option<string>, limit: nat, parse: Parser)
    : (r: (seq<Request>, Option<Serve.Error>))
  {
    Requests(Decode(data, limit).0, Seen(Decode(data, limit).1, fault), parse)
  }

  /** The same after some requests were read. */
  function After(qs: seq<Request>, data: Bytes, fault: Option<string>, limit: nat, parse: Parser)
    : (r: (seq<Request>, Option<Serve.Error>))
  {
    (qs + Inputs(data, fault, limit, parse).0, Inputs(data, fault, limit, parse).1)
  }

  /** One round of the loop below. */
  lemma ReadStep(qs: seq<Request>, data: Bytes, fault: Option<string>, limit: nat, parse: Parser)
    ensures After(qs, data, fault, limit, parse) ==
            match NextFrame(data, limit)
            case Stop(e) => (qs, EndError(Seen(e, fault)))
            case Message(msg, rest) =>
              match parse(msg)
              case Err(text) => (qs, EndError(Invalid(text)))
              case Ok(q) => After(qs + [q], rest, fault, limit, parse)
  {
    assert qs + [] == qs;
    match NextFrame(data, limit)
    case Stop(_) =>
    case Message(msg, rest) =>
      assert ([msg] + Decode(rest, limit).0)[1..] == Decode(rest, limit).0;
      if parse(msg).Ok? {
        Assoc(qs, [parse(msg).value], Inputs(rest, fault, limit, parse).0);
      }
  }

  /** The loop of the reader goroutine, which ends at a message that does not parse. */
  method ReadRequests(d: Decoder, parse: Parser) returns (qs: seq<Request>, failure: Option<Serve.Error>)
    requires d.Valid() && d.err.None?
    modifies d, d.r, d.headerBuf, d.buf
    ensures (qs, failure) == Inputs(old(d.r.data), d.r.fault, d.buf.Length, parse)
  {
    qs := [];
    var limit, fault := d.buf.Length, d.r.fault;
    ghost var all := Inputs(d.r.data, fault, limit, parse);
    assert [] + all.0 == all.0;
    while true
      invariant d.Valid() && d.err.None? && all == After(qs, d.r.data, fault, limit, parse)
      decreases |d.r.data|
    {
      ReadStep(qs, d.r.data, fault, limit, parse);
      var ok := d.More();
      if !ok {
        return qs, EndError(d.err.value);
      }
      var q := d.Request(parse);
      if q.None? {
        return qs, EndError(d.err.value);
      }
      qs := qs + [q.value];
    }
  }

  /** Serve on these bytes. */
  function Begin(data: Bytes, fault: Option<string>, limit: nat, parse: Parser): (s: State) {
    Start(Inputs(data, fault, limit, parse).0, Inputs(data, fault, limit, parse).1)
  }

  ghost predicate Parses(msgs: seq<Bytes>, parse: Parser) {
    forall i :: 0 <= i < |msgs| ==> parse(msgs[i]).Ok?
  }

  /** These requests are what those messages parse to. */
  ghost predicate ParsedTo(msgs: seq<Bytes>, parse: Parser, qs: seq<Request>) {
    |qs| == |msgs| && forall i :: 0 <= i < |msgs| ==> parse(msgs[i]) == Ok(qs[i])
  }

  lemma {:induction false} RequestsExactly(msgs: seq<Bytes>, end: Framing.Error, parse: Parser)
    ensures Requests(msgs, end, parse).1.None? <==> end == EOF && Parses(msgs, parse)
    ensures Parses(msgs, parse) ==> ParsedTo(msgs, parse, Requests(msgs, end, parse).0)
  {
    if msgs != [] {
      RequestsExactly(msgs[1..], end, parse);
      assert Parses(msgs, parse) <==> parse(msgs[0]).Ok? && Parses(msgs[1..], parse) by {
        assert forall i :: 1 <= i < |msgs| ==> msgs[i] == msgs[1..][i - 1];
      }
    }
  }

  /**
   * On arbitrary bytes, unless it is cancelled: Serve returns nil exactly if the stream ends cleanly,
   * every message parses and no encode failed; then every message was dispatched, in order.
   */
  lemma BytesVerdict(data: Bytes, fault: Option<string>, limit: nat, parse: Parser, es: seq<Event>, s: State)
    requires Exec(Begin(data, fault, limit, parse), es) == Some(s) && s.main.Returned? && !s.ctxDone
    ensures s.main.result.None? <==>
            && Decode(data, limit).1 == EOF && fault.None?
            && Parses(Decode(data, limit).0, parse) && !s.outbound.encodeFailed
    ensures s.main.result.None? ==> ParsedTo(Decode(data, limit).0, parse, s.dispatched)
  {
    RequestsExactly(Decode(data, limit).0, Seen(Decode(data, limit).1, fault), parse);
    VerdictExactly(Inputs(data, fault, limit, parse).0, Inputs(data, fault, limit, parse).1, es, s);
  }

  /** Whatever a cut stream yields is a part of it, so it parses if the stream does. */
  lemma CutParses(msgs: seq<Bytes>, cut: nat, limit: nat, parse: Parser, j: nat)
    requires Sendable(msgs) && cut <= |Frames(msgs)| && Parses(msgs, parse) && YieldsUpTo(msgs, cut, limit, j)
    ensures Decode(Frames(msgs)[..cut], limit).0 == msgs[..j] && Parses(msgs[..j], parse)
  {
  }

  /**
   * A stream of good messages that is cut off: nil exactly if the cut is at a frame boundary or right
   * after a header, and then exactly the messages before the cut were handled.
   */
  lemma CutVerdict(msgs: seq<Bytes>, cut: nat, limit: nat, parse: Parser, es: seq<Event>, s: State)
    requires Sendable(msgs) && Fits(msgs, limit) && Parses(msgs, parse) && cut <= |Frames(msgs)|
    requires Exec(Begin(Frames(msgs)[..cut], None, limit, parse), es) == Some(s)
    requires s.main.Returned? && !s.ctxDone && !s.outbound.encodeFailed
    ensures s.main.result.None? <==> exists j :: LooksComplete(msgs, cut, j)
    ensures forall j: nat :: LooksComplete(msgs, cut, j) ==> ParsedTo(msgs[..j], parse, s.dispatched)
  {
    var data := Frames(msgs)[..cut];
    var k := Truncation(msgs, cut, limit);
    CutParses(msgs, cut, limit, parse, k);
    BytesVerdict(data, None, limit, parse, es, s);
    CleanEndIff(msgs, cut, limit);
    forall j: nat | LooksComplete(msgs, cut, j) ensures ParsedTo(msgs[..j], parse, s.dispatched) {
      OnlyOneFrame(msgs, cut, j, k);
    }
  }

  /** So a stream cut between the header and the body of message j is served as if it ended before it. */
  lemma LostAfterHeader(msgs: seq<Bytes>, j: nat, cut: nat, limit: nat, parse: Parser, es: seq<Event>, s: State)
    requires Sendable(msgs) && Fits(msgs, limit) && Parses(msgs, parse)
    requires j < |msgs| && Sendable(msgs[..j]) && msgs[j] != []
    requires cut == |Frames(msgs[..j])| + 4 && cut <= |Frames(msgs)|
    requires Exec(Begin(Frames(msgs)[..cut], None, limit, parse), es) == Some(s)
    requires s.main.Returned? && !s.ctxDone && !s.outbound.encodeFailed
    ensures s.main.result.None? && |s.dispatched| == j && ParsedTo(msgs[..j], parse, s.dispatched)
  {
    assert LooksComplete(msgs, cut, j);
    CutVerdict(msgs, cut, limit, parse, es, s);
  }
}
