/** The textual forms of ports, environment variables and mounts (api/types.go). */
module Codecs {
  import opened Wrappers
  import opened Decimal

  datatype Error = InvalidPortSpec | InvalidPort | InvalidEnvSpec | InvalidMountSpec | InvalidMountPath

  // ----- splitting -----

  /** strings.Split on one character. */
  function Split(s: string, c: char): (r: seq<string>)
    ensures r != []
  {
    if s == [] then [[]]
    else
      var rest := Split(s[1..], c);
      if s[0] == c then [[]] + rest else [[s[0]] + rest[0]] + rest[1..]
  }

  /** strings.SplitN into at most two parts: before and after the first occurrence. */
  function Cut(s: string, c: char): (r: (string, Option<string>)) {
    if s == [] then ([], None)
    else if s[0] == c then ([], Some(s[1..]))
    else
      var (before, after) := Cut(s[1..], c);
      ([s[0]] + before, after)
  }

  lemma HeadAssoc(x: string, l: seq<string>, r: seq<string>)
    ensures [x] + (l + r) == ([x] + l) + r
    ensures l != [] ==> (l + r)[0] == l[0] && (l + r)[1..] == l[1..] + r
  {
  }

  lemma {:induction false} SplitConcat(a: string, b: string, c: char)
    ensures Split(a + [c] + b, c) == Split(a, c) + Split(b, c)
  {
    var s := a + [c] + b;
    if a == [] {
      assert s[0] == c && s[1..] == b;
    } else {
      SplitConcat(a[1..], b, c);
      assert s[0] == a[0] && s[1..] == a[1..] + [c] + b;
      var left, right := Split(a[1..], c), Split(b, c);
      HeadAssoc([], left, right);
      HeadAssoc([a[0]] + left[0], left[1..], right);
    }
  }

  lemma {:induction false} SplitSingle(s: string, c: char)
    ensures |Split(s, c)| == 1 <==> c !in s
    ensures c !in s ==> Split(s, c) == [s]
  {
    if s != [] {
      SplitSingle(s[1..], c);
      assert s == [s[0]] + s[1..];
    }
  }

  function Join(parts: seq<string>, c: char): (s: string) {
    if parts == [] then [] else if |parts| == 1 then parts[0] else parts[0] + [c] + Join(parts[1..], c)
  }

  /** Splitting loses nothing, and no part contains the separator. */
  lemma {:induction false} JoinSplit(s: string, c: char)
    ensures Join(Split(s, c), c) == s
    ensures forall x :: x in Split(s, c) ==> c !in x
  {
    if s != [] {
      JoinSplit(s[1..], c);
      var rest := Split(s[1..], c);
      assert s == [s[0]] + s[1..];
      assert rest == [rest[0]] + rest[1..];
      if s[0] == c {
        assert Split(s, c)[1..] == rest;
      } else {
        var r := [[s[0]] + rest[0]] + rest[1..];
        assert Split(s, c) == r && r[1..] == rest[1..];
        assert Join(r, c) == [s[0]] + Join(rest, c);
      }
    }
  }

  lemma {:induction false} CutRejoins(s: string, c: char)
    ensures var (before, after) := Cut(s, c);
            c !in before && s == if after.Some? then before + [c] + after.value else before
  {
    if s != [] {
      CutRejoins(s[1..], c);
      assert s == [s[0]] + s[1..];
    }
  }

  lemma {:induction false} CutConcat(a: string, b: string, c: char)
    requires c !in a
    ensures Cut(a + [c] + b, c) == (a, Some(b))
  {
    if a == [] {
      assert a + [c] + b == [c] + b && ([c] + b)[1..] == b;
    } else {
      assert (a + [c] + b)[1..] == a[1..] + [c] + b;
      CutConcat(a[1..], b, c);
      assert a == [a[0]] + a[1..];
    }
  }

  lemma {:induction false} CutNone(s: string, c: char)
    requires c !in s
    ensures Cut(s, c) == (s, None)
  {
    if s != [] {
      assert s == [s[0]] + s[1..];
      CutNone(s[1..], c);
    }
  }

  // ----- ports -----

  datatype Port = Port(target: Int, published: Option<Int>, protocol: string)

  function PortString(p: Port): (s: string) {
    var published := if p.published.Some? then p.published.value else p.target;
    Itoa(published) + ":" + Itoa(p.target) + "/" + if p.protocol == "" then "tcp" else p.protocol
  }

  /** The port that a text of the form port[:target][/protocol] stands for. */
  function ParsePort(s: string): (r: Result<Port, Error>) {
    var (address, proto) := Cut(s, '/');
    var spec := Split(address, ':');
    if |spec| > 2 then Err(InvalidPortSpec)
    else if Atoi(spec[0]).None? then Err(InvalidPort)
    else if |spec| == 2 && Atoi(spec[1]).None? then Err(InvalidPort)
    else
      var port := Atoi(spec[0]).value;
      var target := if |spec| == 2 then Atoi(spec[1]).value else port;
      Ok(Port(target, if target != port then Some(port) else None, if proto.Some? then proto.value else "tcp"))
  }

  /** The same port as the parser writes it. */
  function NormalPort(p: Port): (q: Port) {
    Port(p.target, if p.published == Some(p.target) then None else p.published,
         if p.protocol == "" then "tcp" else p.protocol)
  }

  /** The four text forms: the first number is the published port, the second the target. */
  lemma PortForms(a: Int, b: Int, proto: string)
    ensures ParsePort(Itoa(a)) == Ok(Port(a, None, "tcp"))
    ensures ParsePort(Itoa(a) + "/" + proto) == Ok(Port(a, None, proto))
    ensures ParsePort(Itoa(a) + ":" + Itoa(b)) == Ok(Port(b, if a == b then None else Some(a), "tcp"))
    ensures ParsePort(Itoa(a) + ":" + Itoa(b) + "/" + proto) == Ok(Port(b, if a == b then None else Some(a), proto))
  {
    AtoiItoa(a);
    AtoiItoa(b);
    SplitSingle(Itoa(a), ':');
    SplitSingle(Itoa(b), ':');
    SplitConcat(Itoa(a), Itoa(b), ':');
    CutNone(Itoa(a), '/');
    CutNone(Itoa(a) + [':'] + Itoa(b), '/');
    CutConcat(Itoa(a), proto, '/');
    CutConcat(Itoa(a) + [':'] + Itoa(b), proto, '/');
  }

  /** Every port is read back, up to normal form, whatever its protocol text is. */
  lemma PortRoundTrip(p: Port)
    ensures ParsePort(PortString(p)) == Ok(NormalPort(p))
    ensures PortString(NormalPort(p)) == PortString(p)
  {
    PortForms(if p.published.Some? then p.published.value else p.target, p.target,
              if p.protocol == "" then "tcp" else p.protocol);
  }

  /** Printing and parsing a parsed port again is the identity, unless its protocol was left empty. */
  lemma ParsedPortIsNormal(s: string)
    requires ParsePort(s).Ok?
    ensures ParsePort(PortString(ParsePort(s).value)) == ParsePort(s) <==> ParsePort(s).value.protocol != ""
  {
    PortRoundTrip(ParsePort(s).value);
  }

  /** What the parser accepts: one or two numbers, and any protocol after a slash. */
  lemma ParsePortExactly(s: string) returns (a: string, b: string, proto: string)
    requires ParsePort(s).Ok?
    ensures s in {a, a + "/" + proto, a + ":" + b, a + ":" + b + "/" + proto}
    ensures ':' !in a && '/' !in a && ':' !in b && '/' !in b
    ensures Atoi(a).Some? && (s in {a + ":" + b, a + ":" + b + "/" + proto} ==> Atoi(b).Some?)
  {
    var (address, after) := Cut(s, '/');
    var spec := Split(address, ':');
    CutRejoins(s, '/');
    JoinSplit(address, ':');
    a, proto := spec[0], if after.Some? then after.value else "";
    b := a;
    assert a in spec;
    if |spec| == 1 {
      assert address == a;
    } else {
      b := spec[1];
      assert b in spec && spec[1..] == [b];
      assert address == a + [':'] + b;
      assert forall c :: c in a || c in b ==> c in address;
    }
  }

  class PortFlag {
    var port: Port

    constructor (port: Port)
      ensures this.port == port
    {
      this.port := port;
    }

    /** Overwrite the port, or leave it alone on an error. */
    method Set(s: string) returns (err: Option<Error>)
      modifies this
      ensures match ParsePort(s)
              case Ok(p) => err.None? && port == p
              case Err(e) => err == Some(e) && port == old(port)
    {
      var proto := "tcp";
      var (address, after) := Cut(s, '/');
      if after.Some? {
        proto := after.value;
      }
      var spec := Split(address, ':');
      if |spec| > 2 {
        return Some(InvalidPortSpec);
      }
      var first := Atoi(spec[0]);
      if first.None? {
        return Some(InvalidPort);
      }
      var target, published := first.value, None;
      if |spec| == 2 {
        var second := Atoi(spec[1]);
        if second.None? {
          return Some(InvalidPort);
        }
        target := second.value;
        if target != first.value {
          published := first;
        }
      }
      port := Port(target, published, proto);
      return None;
    }
  }

  // ----- environment variables -----

  datatype Env = Env(name: string, value: string)

  function EnvString(e: Env): (s: string) {
    e.name + "=" + e.value
  }

  function ParseEnv(s: string): (r: Result<Env, Error>) {
    var spec := Split(s, '=');
    if |spec| != 2 then Err(InvalidEnvSpec) else Ok(Env(spec[0], spec[1]))
  }

  /** A variable is read back exactly when neither part contains the separator. */
  lemma EnvRoundTrip(e: Env)
    ensures ParseEnv(EnvString(e)).Ok? <==> '=' !in e.name && '=' !in e.value
    ensures ParseEnv(EnvString(e)).Ok? ==> ParseEnv(EnvString(e)) == Ok(e)
  {
    SplitConcat(e.name, e.value, '=');
    SplitSingle(e.name, '=');
    SplitSingle(e.value, '=');
  }

  /** Exactly the texts with one separator are read, as what is around it. */
  lemma ParseEnvExactly(s: string, e: Env)
    ensures ParseEnv(s) == Ok(e) <==> s == e.name + "=" + e.value && '=' !in e.name && '=' !in e.value
  {
    if ParseEnv(s) == Ok(e) {
      JoinSplit(s, '=');
      var spec := Split(s, '=');
      assert spec[0] in spec && spec[1] in spec && spec[1..] == [spec[1]];
    }
    EnvRoundTrip(e);
  }

  class EnvFlag {
    var env: Env

    constructor (env: Env)
      ensures this.env == env
    {
      this.env := env;
    }

    method Set(s: string) returns (err: Option<Error>)
      modifies this
      ensures match ParseEnv(s)
              case Ok(e) => err.None? && env == e
              case Err(x) => err == Some(x) && env == old(env)
    {
      var spec := Split(s, '=');
      if |spec| != 2 {
        return Some(InvalidEnvSpec);
      }
      env := Env(spec[0], spec[1]);
      return None;
    }
  }

  // ----- mounts -----

  /** A host path, or any other source, which has no text form. */
  datatype Source = Host(path: string) | Foreign(kind: string)

  datatype Mount = Mount(path: string, name: string, readOnly: bool, source: Source)

  predicate IsAbs(path: string) {
    path != [] && path[0] == '/'
  }

  function MountString(m: Mount): (s: string) {
    if m.source.Foreign? then ""
    else m.source.path + ":" + m.path + ":" + if m.readOnly then "ro" else "rw"
  }

  /** The host mount that a text of the form src[:dst[:ro|:rw]] stands for. */
  function ParseMount(s: string): (r: Result<Mount, Error>) {
    var spec := Split(s, ':');
    var src := spec[0];
    if !IsAbs(src) then Err(InvalidMountPath)
    else if |spec| > 3 then Err(InvalidMountSpec)
    else if |spec| == 3 && spec[2] != "rw" && spec[2] != "ro" then Err(InvalidMountSpec)
    else
      var dst := if |spec| == 1 then src else spec[1];
      if !IsAbs(dst) then Err(InvalidMountPath)
      else Ok(Mount(dst, "", |spec| == 3 && spec[2] == "ro", Host(src)))
  }

  /** A path that the text form can carry. */
  predicate Plain(path: string) {
    IsAbs(path) && ':' !in path
  }

  /** The three text forms: source, destination, and whether it is read-only. */
  lemma MountForms(src: string, dst: string)
    requires Plain(src) && Plain(dst)
    ensures ParseMount(src) == Ok(Mount(src, "", false, Host(src)))
    ensures ParseMount(src + ":" + dst) == Ok(Mount(dst, "", false, Host(src)))
    ensures ParseMount(src + ":" + dst + ":rw") == Ok(Mount(dst, "", false, Host(src)))
    ensures ParseMount(src + ":" + dst + ":ro") == Ok(Mount(dst, "", true, Host(src)))
  {
    SplitSingle(src, ':');
    SplitSingle(dst, ':');
    SplitConcat(src, dst, ':');
    MountParts(Mount(dst, "", false, Host(src)));
    MountParts(Mount(dst, "", true, Host(src)));
    assert src + ":" + dst + ":rw" == MountString(Mount(dst, "", false, Host(src)));
    assert src + ":" + dst + ":ro" == MountString(Mount(dst, "", true, Host(src)));
  }

  lemma MountParts(m: Mount)
    requires m.source.Host?
    ensures Split(MountString(m), ':') ==
            Split(m.source.path, ':') + Split(m.path, ':') + [if m.readOnly then "ro" else "rw"]
  {
    var opt := if m.readOnly then "ro" else "rw";
    assert MountString(m) == (m.source.path + [':'] + m.path) + [':'] + opt;
    SplitConcat(m.source.path + [':'] + m.path, opt, ':');
    SplitConcat(m.source.path, m.path, ':');
    SplitSingle(opt, ':');
  }

  /** A host mount is read back, without its name, exactly when both paths are absolute and free of colons. */
  lemma MountRoundTrip(m: Mount)
    requires m.source.Host?
    ensures ParseMount(MountString(m)).Ok? <==> Plain(m.source.path) && Plain(m.path)
    ensures ParseMount(MountString(m)).Ok? ==> ParseMount(MountString(m)) == Ok(m.(name := ""))
  {
    MountParts(m);
    SplitSingle(m.source.path, ':');
    SplitSingle(m.path, ':');
  }

  /** Other mounts have no text form, and the empty text is refused. */
  lemma ForeignMountRefused(m: Mount)
    requires m.source.Foreign?
    ensures ParseMount(MountString(m)) == Err(InvalidMountPath)
  {
    assert Split("", ':') == [""];
  }

  /** What the parser accepts: the forms of a host mount with plain paths, and nothing else. */
  lemma ParseMountExactly(s: string)
    requires ParseMount(s).Ok?
    ensures var m := ParseMount(s).value;
            && m.source.Host? && Plain(m.source.path) && Plain(m.path) && m.name == ""
            && (|| (s == m.source.path && m.path == m.source.path && !m.readOnly)
                || (s == m.source.path + ":" + m.path && !m.readOnly)
                || (s == m.source.path + ":" + m.path + ":rw" && !m.readOnly)
                || (s == m.source.path + ":" + m.path + ":ro" && m.readOnly))
  {
    var spec := Split(s, ':');
    JoinSplit(s, ':');
    assert spec[0] in spec;
    if |spec| >= 2 {
      assert spec[1] in spec;
    }
    if |spec| == 2 {
      assert spec[1..] == [spec[1]];
    } else if |spec| == 3 {
      assert spec[1..] == [spec[1], spec[2]] && spec[1..][1..] == [spec[2]];
      assert Join(spec[1..], ':') == spec[1] + [':'] + spec[2];
      assert s == spec[0] + [':'] + (spec[1] + [':'] + spec[2]);
    }
  }

  class MountFlag {
    var mount: Mount

    constructor (mount: Mount)
      ensures this.mount == mount
    {
      this.mount := mount;
    }

    method Set(s: string) returns (err: Option<Error>)
      modifies this
      ensures match ParseMount(s)
              case Ok(m) => err.None? && mount == m
              case Err(e) => err == Some(e) && mount == old(mount)
    {
      var spec := Split(s, ':');
      var src := spec[0];
      if !IsAbs(src) {
        return Some(InvalidMountPath);
      }
      var dst, readOnly := src, false;
      if |spec| == 2 {
        dst := spec[1];
      } else if |spec| == 3 {
        dst := spec[1];
        if spec[2] == "ro" {
          readOnly := true;
        } else if spec[2] != "rw" {
          return Some(InvalidMountSpec);
        }
      } else if |spec| != 1 {
        return Some(InvalidMountSpec);
      }
      if !IsAbs(dst) {
        return Some(InvalidMountPath);
      }
      mount := Mount(dst, "", readOnly, Host(src));
      return None;
    }
  }
}
