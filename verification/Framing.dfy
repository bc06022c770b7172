/**
 * The wire framing (internal/protocol/stream.go): a four-byte big-endian length, then that many
 * bytes. Payloads are opaque bytes; a reader may split its data anywhere.
 */
module Framing {
  import opened Wrappers

  type byte = x: int | 0 <= x < 256

  type Bytes = seq<byte>

  const UINT32: int := 0x1_0000_0000

  /** Failed is an error of the underlying reader or writer, Invalid one of the parser. */
  datatype Error = EOF | UnexpectedEOF | TooLarge | Failed(text: string) | Invalid(text: string)

  // ----- the format -----

  /** The length, most significant byte first. */
  function Header(n: nat): (h: Bytes)
    requires n < UINT32
    ensures |h| == 4
  {
    var q1 := n / 256;
    var q2 := q1 / 256;
    [q2 / 256, q2 % 256, q1 % 256, n % 256]
  }

  function HeaderValue(h: Bytes): (n: nat)
    requires |h| == 4
    ensures n < UINT32
    ensures n == h[0] as int * 0x100_0000 + h[1] as int * 0x1_0000 + h[2] as int * 0x100 + h[3] as int
  {
    var q2: int := h[0] as int * 256 + h[1] as int;
    var q1: int := q2 * 256 + h[2] as int;
    q1 * 256 + h[3] as int
  }

  lemma HeaderRoundTrip(n: nat)
    requires n < UINT32
    ensures HeaderValue(Header(n)) == n
  {
    var q1 := n / 256;
    var q2 := q1 / 256;
    assert q2 / 256 * 256 + q2 % 256 == q2;
    assert q2 * 256 + q1 % 256 == q1;
  }

  lemma HeaderUnique(h: Bytes)
    requires |h| == 4
    ensures Header(HeaderValue(h)) == h
  {
    var q2: int := h[0] as int * 256 + h[1] as int;
    var q1: int := q2 * 256 + h[2] as int;
    var n := HeaderValue(h);
    assert n / 256 == q1 && n % 256 == h[3] as int;
    assert q1 / 256 == q2 && q1 % 256 == h[2] as int;
  }

  function Frame(msg: Bytes): (f: Bytes)
    requires |msg| < UINT32
    ensures |f| == 4 + |msg|
  {
    Header(|msg|) + msg
  }

  predicate Sendable(msgs: seq<Bytes>) {
    forall m :: m in msgs ==> |m| < UINT32
  }

  /** The stream that carries the messages. */
  function Frames(msgs: seq<Bytes>): (r: Bytes)
    requires Sendable(msgs)
  {
    if msgs == [] then [] else Frame(msgs[0]) + Frames(msgs[1..])
  }

  /** What one call of More finds at the head of the stream. */
  datatype Next = Message(msg: Bytes, rest: Bytes) | Stop(err: Error)

  /** Reading n bytes in full: all of them, none because the stream ended, or too few. */
  function Full(data: Bytes, n: nat): (err: Option<Error>) {
    if |data| >= n then None else if data == [] then Some(EOF) else Some(UnexpectedEOF)
  }

  function NextFrame(data: Bytes, limit: nat): (r: Next)
    ensures r.Message? ==> |r.rest| < |data|
  {
    if Full(data, 4).Some? then Stop(Full(data, 4).value)
    else
      var n, body := HeaderValue(data[..4]), data[4..];
      if n > limit then Stop(TooLarge)
      else if Full(body, n).Some? then Stop(Full(body, n).value)
      else Message(body[..n], body[n..])
  }

  /** All the messages that a stream yields, and the error it ends on. */
  function Decode(data: Bytes, limit: nat): (r: (seq<Bytes>, Error))
    decreases |data|
  {
    match NextFrame(data, limit)
    case Stop(err) => ([], err)
    case Message(msg, rest) =>
      var (msgs, err) := Decode(rest, limit);
      ([msg] + msgs, err)
  }

  /** What is seen of that error when the reader fails at the end of its data instead of ending there. */
  function Seen(end: Error, fault: Option<string>): (e: Error) {
    if fault.Some? && end != TooLarge then Failed(fault.value) else end
  }

  // ----- encoder -----

  /** `fault` is the error that the underlying writer fails with, if it does. */
  class Encoder {
    var out: Bytes
    const maxSize: int
    const fault: string

    constructor (maxSize: int, fault: string)
      ensures out == [] && this.maxSize == maxSize && this.fault == fault
    {
      out := [];
      this.maxSize, this.fault := maxSize, fault;
    }

    /** The underlying writer takes all the bytes, or fails after some of them. */
    method Put(bytes: Bytes) returns (ok: bool)
      modifies this
      ensures old(out) <= out && out <= old(out) + bytes
      ensures ok ==> out == old(out) + bytes
    {
      var k :| 0 <= k <= |bytes|;
      out := out + bytes[..k];
      ok := *;
      ok := ok && k == |bytes|;
    }

    /**
     * Append one frame; refuse a message that is too long and write nothing; or fail with the writer
     * after a part of the frame.
     */
    method Write(msg: Bytes) returns (r: Result<(), Error>)
      modifies this
      ensures r == Err(TooLarge) <==> |msg| > maxSize || |msg| >= UINT32
      ensures r.Ok? ==> |msg| < UINT32 && out == old(out) + Frame(msg)
      ensures r == Err(TooLarge) ==> out == old(out)
      ensures r.Err? && r.error != TooLarge ==>
                r.error == Failed(fault) && |msg| < UINT32 && old(out) <= out && out <= old(out) + Frame(msg)
    {
      if |msg| > maxSize {
        return Err(TooLarge);
      }
      if |msg| > UINT32 - 1 {
        return Err(TooLarge);
      }
      assert old(out) + Frame(msg) == (old(out) + Header(|msg|)) + msg;
      var ok := Put(Header(|msg|));
      if !ok {
        return Err(Failed(fault));
      }
      ok := Put(msg);
      if !ok {
        return Err(Failed(fault));
      }
      return Ok(());
    }

    /** The writer loop, which ends at the first message that fails; `done` counts those before it. */
    method WriteAll(msgs: seq<Bytes>) returns (done: nat, r: Result<(), Error>)
      modifies this
      ensures done <= |msgs| && Accepted(msgs[..done], maxSize) && (r.Ok? <==> done == |msgs|)
      ensures r.Ok? ==> out == old(out) + Frames(msgs[..done])
      ensures r == Err(TooLarge) ==>
                !Accepted([msgs[done]], maxSize) && out == old(out) + Frames(msgs[..done])
      ensures r.Err? && r.error != TooLarge ==>
                && r.error == Failed(fault) && Accepted(msgs[..done + 1], maxSize)
                && old(out) + Frames(msgs[..done]) <= out && out <= old(out) + Frames(msgs[..done + 1])
    {
      done, r := 0, Ok(());
      while done < |msgs|
        invariant done <= |msgs| && r.Ok? && Accepted(msgs[..done], maxSize)
        invariant out == old(out) + Frames(msgs[..done])
      {
        r := Write(msgs[done]);
        if r == Err(TooLarge) {
          return;
        }
        FramesSnoc(old(out), msgs, done, maxSize);
        if r.Err? {
          return;
        }
        done := done + 1;
      }
    }
  }

  /** Every message is within the encoder's limits. */
  predicate Accepted(msgs: seq<Bytes>, maxSize: int) {
    forall m :: m in msgs ==> |m| <= maxSize && |m| < UINT32
  }

  lemma FramesSnoc(base: Bytes, msgs: seq<Bytes>, i: nat, maxSize: int)
    requires i < |msgs| && Accepted(msgs[..i], maxSize) && Accepted([msgs[i]], maxSize) && |msgs[i]| < UINT32
    ensures Accepted(msgs[..i + 1], maxSize)
    ensures (base + Frames(msgs[..i])) + Frame(msgs[i]) == base + Frames(msgs[..i + 1])
  {
    assert msgs[..i + 1] == msgs[..i] + [msgs[i]];
    FramesConcat(msgs[..i], [msgs[i]]);
    assert Frames([msgs[i]]) == Frame(msgs[i]) + Frames([msgs[i]][1..]);
    Assoc(base, Frames(msgs[..i]), Frame(msgs[i]));
  }

  // ----- decoder -----

  /**
   * The bytes the reader still has, the error of its own that it then fails with, if any, and how
   * many empty reads it may still make.
   */
  class Reader {
    var data: Bytes
    var idle: nat
    const fault: Option<string>

    constructor (data: Bytes, fault: Option<string>, idle: nat)
      ensures this.data == data && this.fault == fault
    {
      this.data, this.fault, this.idle := data, fault, idle;
    }

    /**
     * Some of the remaining bytes, as many as the reader likes, also none for a while; the error may
     * come with the last ones.
     */
    method Read(dst: array<byte>, at: nat, want: nat) returns (got: nat, err: Option<Error>)
      requires 0 < want && at + want <= dst.Length
      modifies this, dst
      ensures got <= want && got <= |old(data)| && data == old(data)[got..]
      ensures dst[..at] == old(dst[..at]) && dst[at..at + got] == old(data)[..got]
      ensures dst[at + want..] == old(dst[at + want..])
      ensures idle <= old(idle) && (got == 0 && err.None? ==> idle < old(idle))
      ensures err.Some? ==> data == [] && err.value == Seen(EOF, fault)
    {
      var empty: bool := *;
      if empty && idle > 0 {
        idle := idle - 1;
        return 0, None;
      }
      if data == [] {
        return 0, Some(Seen(EOF, fault));
      }
      got :| 0 < got <= want && got <= |data|;
      for i := 0 to got
        invariant data == old(data) && got <= |data| && idle == old(idle)
        invariant dst[..at] == old(dst[..at]) && dst[at..at + i] == data[..i]
        invariant dst[at + want..] == old(dst[at + want..])
      {
        dst[at + i] := data[i];
        assert dst[at..at + i + 1] == dst[at..at + i] + [data[i]];
        assert data[..i + 1] == data[..i] + [data[i]];
      }
      data := data[got..];
      var early: bool := *;
      err := if early && data == [] then Some(Seen(EOF, fault)) else None;
    }

    /** io.ReadFull: keep reading until n bytes are there, however they are split. */
    method ReadFull(dst: array<byte>, n: nat) returns (err: Option<Error>)
      requires n <= dst.Length
      modifies this, dst
      ensures err.None? <==> Full(old(data), n).None?
      ensures err.Some? ==> err.value == Seen(Full(old(data), n).value, fault)
      ensures err.None? ==> dst[..n] == old(data)[..n] && data == old(data)[n..]
    {
      var have := 0;
      err := None;
      while have < n && err.None?
        invariant have <= n && have <= |old(data)|
        invariant data == old(data)[have..] && dst[..have] == old(data)[..have]
        invariant err.Some? ==> data == [] && err.value == Seen(EOF, fault)
        decreases n - have, idle, err.None?
      {
        var got;
        got, err := Read(dst, have, n - have);
        assert dst[..have + got] == dst[..have] + dst[have..have + got];
        assert old(data)[..have + got] == old(data)[..have] + old(data)[have..][..got];
        have := have + got;
      }
      if have >= n {
        return None;
      }
      if have > 0 && err == Some(EOF) {
        return Some(UnexpectedEOF);
      }
    }
  }

  class Decoder {
    const r: Reader
    const headerBuf: array<byte>
    const buf: array<byte>
    var msgLen: nat
    var err: Option<Error>

    constructor (r: Reader, maxSize: nat)
      ensures Valid() && fresh(headerBuf) && fresh(buf)
      ensures this.r == r && buf.Length == maxSize && err.None?
    {
      this.r := r;
      headerBuf := new byte[4];
      buf := new byte[maxSize];
      msgLen, err := 0, None;
    }

    ghost predicate Valid()
      reads this
    {
      headerBuf.Length == 4 && headerBuf != buf && (err.None? ==> msgLen <= buf.Length)
    }

    /** Consume the next message into the buffer; an error, once met, is final. */
    method More() returns (ok: bool)
      requires Valid()
      modifies this, r, headerBuf, buf
      ensures Valid()
      ensures old(err).Some? ==> !ok && err == old(err) && r.data == old(r.data)
      ensures old(err).None? ==>
                match NextFrame(old(r.data), buf.Length)
                case Message(msg, rest) => ok && err.None? && buf[..msgLen] == msg && r.data == rest
                case Stop(e) => !ok && err == Some(Seen(e, r.fault))
    {
      if err.Some? {
        return false;
      }
      msgLen := 0;
      err := r.ReadFull(headerBuf, 4);
      if err.Some? {
        return false;
      }
      assert headerBuf[..] == headerBuf[..4] == old(r.data)[..4];
      msgLen := HeaderValue(headerBuf[..]);
      if msgLen > buf.Length {
        err := Some(TooLarge);
        return false;
      }
      err := r.ReadFull(buf, msgLen);
      return err.None?;
    }

    /** The current message, parsed; a message that does not parse ends the stream with that error. */
    method Request<T>(parse: Bytes -> Result<T, string>) returns (q: Option<T>)
      requires Valid()
      modifies this`err
      ensures old(err).Some? ==> q.None? && err == old(err)
      ensures old(err).None? ==>
                match parse(buf[..msgLen])
                case Ok(v) => q == Some(v) && err.None?
                case Err(text) => q.None? && err == Some(Invalid(text))
    {
      if err.Some? {
        return None;
      }
      match parse(buf[..msgLen])
      case Ok(v) => q := Some(v);
      case Err(text) => q, err := None, Some(Invalid(text));
    }

    /** The error that callers see: a clean end is none. */
    function Err(): (e: Option<Error>)
      reads this
    {
      if err == Some(EOF) then None else err
    }
  }

  /** Read messages until there are no more. */
  method ReadAll(d: Decoder) returns (msgs: seq<Bytes>)
    requires d.Valid() && d.err.None?
    modifies d, d.r, d.headerBuf, d.buf
    ensures d.Valid() && d.err == Some(Seen(Decode(old(d.r.data), d.buf.Length).1, d.r.fault))
    ensures msgs == Decode(old(d.r.data), d.buf.Length).0
  {
    msgs := [];
    ghost var all := Decode(d.r.data, d.buf.Length);
    while true
      invariant d.Valid() && d.err.None?
      invariant all.0 == msgs + Decode(d.r.data, d.buf.Length).0 && all.1 == Decode(d.r.data, d.buf.Length).1
      decreases |d.r.data|
    {
      ghost var data := d.r.data;
      var ok := d.More();
      if !ok {
        assert Decode(data, d.buf.Length).0 == [] && msgs + [] == msgs;
        return;
      }
      assert Decode(data, d.buf.Length).0 == [d.buf[..d.msgLen]] + Decode(d.r.data, d.buf.Length).0;
      msgs := msgs + [d.buf[..d.msgLen]];
    }
  }

  // ----- theorems -----

  predicate Fits(msgs: seq<Bytes>, limit: nat) {
    forall m :: m in msgs ==> |m| <= limit
  }

  lemma NextOfFrame(msg: Bytes, tail: Bytes, limit: nat)
    requires |msg| < UINT32
    ensures NextFrame(Frame(msg) + tail, limit) == if |msg| > limit then Stop(TooLarge) else Message(msg, tail)
  {
    var data := Frame(msg) + tail;
    assert data[..4] == Header(|msg|);
    HeaderRoundTrip(|msg|);
    assert data[4..] == msg + tail;
    assert (msg + tail)[..|msg|] == msg && (msg + tail)[|msg|..] == tail;
  }

  lemma DecodeOne(msg: Bytes, tail: Bytes, limit: nat)
    requires |msg| < UINT32 && |msg| <= limit
    ensures Decode(Frame(msg) + tail, limit) == ([msg] + Decode(tail, limit).0, Decode(tail, limit).1)
  {
    NextOfFrame(msg, tail, limit);
  }

  lemma FramesCons(msgs: seq<Bytes>, tail: Bytes)
    requires Sendable(msgs) && msgs != []
    ensures Sendable(msgs[1..]) && |msgs[0]| < UINT32
    ensures Frames(msgs) + tail == Frame(msgs[0]) + (Frames(msgs[1..]) + tail)
  {
    assert msgs[0] in msgs;
  }

  /** Frames that fit come out as they went in, whatever follows them. */
  lemma {:induction false} DecodeFrames(msgs: seq<Bytes>, tail: Bytes, limit: nat)
    requires Sendable(msgs) && Fits(msgs, limit)
    ensures Decode(Frames(msgs) + tail, limit) == (msgs + Decode(tail, limit).0, Decode(tail, limit).1)
  {
    if msgs == [] {
      assert Frames(msgs) + tail == tail;
      assert msgs + Decode(tail, limit).0 == Decode(tail, limit).0;
    } else {
      var m, rest := msgs[0], msgs[1..];
      assert m in msgs && forall x :: x in rest ==> x in msgs;
      DecodeFrames(rest, tail, limit);
      FramesCons(msgs, tail);
      DecodeOne(m, Frames(rest) + tail, limit);
      ConsAssoc(msgs, Decode(tail, limit).0);
    }
  }

  lemma {:induction false} FramesConcat(a: seq<Bytes>, b: seq<Bytes>)
    requires Sendable(a) && Sendable(b)
    ensures Sendable(a + b) && Frames(a + b) == Frames(a) + Frames(b)
  {
    ConcatTail(a, b);
    if a != [] {
      assert a[0] in a && forall x :: x in a[1..] ==> x in a;
      FramesConcat(a[1..], b);
      Assoc(Frame(a[0]), Frames(a[1..]), Frames(b));
    }
  }

  /** Decoding an encoded stream gives back exactly its messages and then a clean end. */
  lemma RoundTrip(msgs: seq<Bytes>, limit: nat)
    requires Sendable(msgs) && Fits(msgs, limit)
    ensures Decode(Frames(msgs), limit) == (msgs, EOF)
  {
    DecodeFrames(msgs, [], limit);
    assert Frames(msgs) + [] == Frames(msgs) && msgs + [] == msgs;
  }

  /** A message over the decoder's limit ends the stream with an error, after those before it. */
  lemma OversizeStops(msgs: seq<Bytes>, k: nat, limit: nat)
    requires Sendable(msgs) && k < |msgs| && |msgs[k]| > limit && Fits(msgs[..k], limit)
    ensures Decode(Frames(msgs), limit) == (msgs[..k], TooLarge)
  {
    var a, b := msgs[..k], msgs[k..];
    assert msgs == a + b;
    FramesConcat(a, b);
    DecodeFrames(a, Frames(b), limit);
    NextOfFrame(b[0], Frames(b[1..]), limit);
    assert a + [] == a;
  }

  /** The decoder makes nothing up: what it yields re-encodes to the bytes it consumed. */
  lemma {:induction false} DecodeIsExact(data: Bytes, limit: nat) returns (rest: Bytes)
    ensures Sendable(Decode(data, limit).0) && Fits(Decode(data, limit).0, limit)
    ensures data == Frames(Decode(data, limit).0) + rest
    ensures NextFrame(rest, limit) == Stop(Decode(data, limit).1)
    decreases |data|
  {
    match NextFrame(data, limit)
    case Stop(_) =>
      rest := data;
    case Message(msg, after) =>
      rest := DecodeIsExact(after, limit);
      FrameConsumed(data, limit);
      var msgs := Decode(after, limit).0;
      assert ([msg] + msgs)[1..] == msgs;
      Assoc(Frame(msg), Frames(msgs), rest);
  }

  /**
   * A reader that fails with an error of its own ends the stream with that error, unless a header over
   * the limit came first; a reader that just ends is seen as it is.
   */
  lemma FaultEndsStream(data: Bytes, limit: nat, text: string) returns (rest: Bytes)
    ensures Sendable(Decode(data, limit).0) && data == Frames(Decode(data, limit).0) + rest
    ensures Seen(Decode(data, limit).1, Some(text)) ==
            if |rest| >= 4 && HeaderValue(rest[..4]) > limit then TooLarge else Failed(text)
    ensures Seen(Decode(data, limit).1, None) == Decode(data, limit).1
  {
    rest := DecodeIsExact(data, limit);
  }

  lemma FrameConsumed(data: Bytes, limit: nat)
    requires NextFrame(data, limit).Message?
    ensures var next := NextFrame(data, limit);
            |next.msg| < UINT32 && |next.msg| <= limit && data == Frame(next.msg) + next.rest
  {
    HeaderUnique(data[..4]);
    var n, body := HeaderValue(data[..4]), data[4..];
    assert data == data[..4] + (body[..n] + body[n..]);
  }

  /** What a stream cut inside a frame ends on. */
  function CutError(at: nat): (e: Error) {
    if at == 0 || at == 4 then EOF else UnexpectedEOF
  }

  lemma CutFrame(msg: Bytes, at: nat, limit: nat)
    requires |msg| < UINT32 && |msg| <= limit && at < 4 + |msg|
    ensures NextFrame(Frame(msg)[..at], limit) == Stop(CutError(at))
  {
    var data := Frame(msg)[..at];
    if at >= 4 {
      assert data[..4] == Header(|msg|);
      HeaderRoundTrip(|msg|);
    }
  }

  lemma CutWithin(msgs: seq<Bytes>, cut: nat)
    requires Sendable(msgs) && msgs != [] && cut <= 4 + |msgs[0]| < 4 + UINT32
    ensures cut <= |Frames(msgs)| && Frames(msgs)[..cut] == Frame(msgs[0])[..cut]
  {
  }

  lemma CutBeyond(msgs: seq<Bytes>, cut: nat)
    requires Sendable(msgs) && msgs != [] && |msgs[0]| < UINT32 && Sendable(msgs[1..])
    requires 4 + |msgs[0]| <= cut <= |Frames(msgs)|
    ensures Frames(msgs)[..cut] == Frame(msgs[0]) + Frames(msgs[1..])[..cut - 4 - |msgs[0]|]
  {
  }

  /** The decoder yields the first j messages of the cut stream, and how it then ends. */
  ghost predicate YieldsUpTo(msgs: seq<Bytes>, cut: nat, limit: nat, j: nat)
    requires Sendable(msgs) && cut <= |Frames(msgs)|
  {
    && j <= |msgs| && Sendable(msgs[..j]) && |Frames(msgs[..j])| <= cut
    && (j < |msgs| ==> cut < |Frames(msgs[..j])| + 4 + |msgs[j]|)
    && Decode(Frames(msgs)[..cut], limit).0 == msgs[..j]
    && Decode(Frames(msgs)[..cut], limit).1 == CutError(cut - |Frames(msgs[..j])|)
  }

  lemma CutLater(msgs: seq<Bytes>, cut: nat, limit: nat, i: nat)
    requires Sendable(msgs) && msgs != [] && |msgs[0]| < UINT32 && |msgs[0]| <= limit && Sendable(msgs[1..])
    requires 4 + |msgs[0]| <= cut <= |Frames(msgs)|
    requires YieldsUpTo(msgs[1..], cut - 4 - |msgs[0]|, limit, i)
    ensures YieldsUpTo(msgs, cut, limit, i + 1)
  {
    var tail := Frames(msgs[1..])[..cut - 4 - |msgs[0]|];
    CutBeyond(msgs, cut);
    DecodeOne(msgs[0], tail, limit);
    TakeSucc(msgs, i);
  }

  /**
   * For every cut of an encoded stream the decoder yields exactly the messages wholly before the
   * cut; the end is clean exactly at a frame boundary or right between a header and its body.
   */
  lemma {:induction false} Truncation(msgs: seq<Bytes>, cut: nat, limit: nat) returns (j: nat)
    requires Sendable(msgs) && Fits(msgs, limit) && cut <= |Frames(msgs)|
    ensures YieldsUpTo(msgs, cut, limit, j)
    decreases |msgs|
  {
    if msgs == [] {
      j := 0;
    } else {
      assert msgs[0] in msgs && forall x :: x in msgs[1..] ==> x in msgs;
      var size := 4 + |msgs[0]|;
      if cut < size {
        j := 0;
        CutWithin(msgs, cut);
        CutFrame(msgs[0], cut, limit);
      } else {
        j := Truncation(msgs[1..], cut - size, limit);
        CutLater(msgs, cut, limit, j);
        j := j + 1;
      }
    }
  }

  lemma TakeSucc(msgs: seq<Bytes>, i: nat)
    requires Sendable(msgs) && i < |msgs|
    ensures msgs[..i + 1] == [msgs[0]] + msgs[1..][..i]
    ensures Sendable(msgs[1..][..i]) && |Frames(msgs[..i + 1])| == 4 + |msgs[0]| + |Frames(msgs[1..][..i])|
  {
    assert msgs[..i + 1][1..] == msgs[1..][..i];
  }

  lemma {:induction false} PrefixLengths(msgs: seq<Bytes>, a: nat, b: nat)
    requires Sendable(msgs) && a < b <= |msgs|
    ensures Sendable(msgs[..a]) && Sendable(msgs[..b])
    ensures |Frames(msgs[..a])| + 4 + |msgs[a]| <= |Frames(msgs[..b])|
    decreases b
  {
    var front := msgs[..b - 1];
    assert msgs[..b] == front + [msgs[b - 1]] && msgs[b - 1] in msgs;
    FramesConcat(front, [msgs[b - 1]]);
    assert Frames([msgs[b - 1]]) == Frame(msgs[b - 1]) + Frames([msgs[b - 1]][1..]);
    if a < b - 1 {
      PrefixLengths(msgs, a, b - 1);
    }
  }

  /** The cut is after a whole frame, or after a header whose body is missing. */
  ghost predicate LooksComplete(msgs: seq<Bytes>, cut: nat, j: nat)
    requires Sendable(msgs)
  {
    && j <= |msgs| && Sendable(msgs[..j])
    && (cut == |Frames(msgs[..j])| || (j < |msgs| && msgs[j] != [] && cut == |Frames(msgs[..j])| + 4))
  }

  lemma OnlyOneFrame(msgs: seq<Bytes>, cut: nat, i: nat, j: nat)
    requires Sendable(msgs) && LooksComplete(msgs, cut, i)
    requires j <= |msgs| && Sendable(msgs[..j]) && |Frames(msgs[..j])| <= cut
    requires j < |msgs| ==> cut < |Frames(msgs[..j])| + 4 + |msgs[j]|
    ensures i == j
  {
    if i < j {
      PrefixLengths(msgs, i, j);
    } else if j < i {
      PrefixLengths(msgs, j, i);
    }
  }

  /** A truncated stream passes for a clean end exactly at those cuts. */
  lemma CleanEndIff(msgs: seq<Bytes>, cut: nat, limit: nat)
    requires Sendable(msgs) && Fits(msgs, limit) && cut <= |Frames(msgs)|
    ensures Decode(Frames(msgs)[..cut], limit).1 == EOF <==> exists j :: LooksComplete(msgs, cut, j)
  {
    var j := Truncation(msgs, cut, limit);
    var at := cut - |Frames(msgs[..j])|;
    assert msgs[..|msgs|] == msgs;
    assert CutError(at) == EOF ==> LooksComplete(msgs, cut, j);
    if i :| LooksComplete(msgs, cut, i) {
      OnlyOneFrame(msgs, cut, i, j);
      assert CutError(at) == EOF;
    }
  }

  /** A stream between one frame boundary and the next yields the messages up to one of them. */
  lemma PartIsCut(msgs: seq<Bytes>, done: nat, out: Bytes, limit: nat)
    requires done < |msgs| && Sendable(msgs) && Fits(msgs, limit) && Sendable(msgs[..done])
    requires Frames(msgs[..done]) <= out && out <= Frames(msgs)
    ensures msgs[..done] <= Decode(out, limit).0 && Decode(out, limit).0 <= msgs
  {
    assert out == Frames(msgs)[..|out|];
    var j := Truncation(msgs, |out|, limit);
    if j < done {
      PrefixLengths(msgs, j, done);
    }
  }

  /**
   * Write the messages until one fails, then read what was written: exactly the messages accepted, and
   * at most the one that the writer failed on besides.
   */
  method Transfer(msgs: seq<Bytes>, maxSize: nat, fault: string)
    returns (got: seq<Bytes>, done: nat, sent: Result<(), Error>)
    ensures done <= |got| <= done + 1 && got <= msgs
    ensures sent.Ok? ==> got == msgs
    ensures sent == Err(TooLarge) ==> |got| == done < |msgs| && !Accepted([msgs[done]], maxSize)
    ensures sent.Err? && sent.error != TooLarge ==> sent.error == Failed(fault)
  {
    var enc := new Encoder(maxSize, fault);
    done, sent := enc.WriteAll(msgs);
    var out := enc.out;
    var r := new Reader(out, None, 0);
    var dec := new Decoder(r, maxSize);
    got := ReadAll(dec);
    assert [] + Frames(msgs[..done]) == Frames(msgs[..done]);
    if sent.Ok? || sent.error == TooLarge {
      assert msgs[..|msgs|] == msgs;
      RoundTrip(msgs[..done], maxSize);
    } else {
      var part := msgs[..done + 1];
      assert part[..done] == msgs[..done] && [] + Frames(part) == Frames(part);
      PartIsCut(part, done, out, maxSize);
    }
  }
}
