/** Retries and path fallback of Client.Do, backend/internal/proxy/passthrough.go. */
module Resend {
  import opened Common

  const MAX_RETRIES := 1

  datatype Answer = Status(code: int) | NetworkError(transient: bool)

  predicate RetryableStatus(code: int) {
    code == 502 || code == 503 || code == 504
  }

  // ----- Which paths are tried -----

  /** url.Parse of a trimmed path, reduced to what is looked at: `path` is decoded, a sequence
      of bytes with one character each; `rest` is query and fragment as they are written. */
  datatype Url = Url(absolute: bool, host: string, path: string, rest: string)

  const KEYS := "/api/v1/api-keys"
  const LEGACY := "/api/v1/keys"

  predicate Under(prefix: string, path: string) {
    path == prefix || prefix + "/" <= path
  }

  /** What stands for itself in an encoded path (section 3.3 of RFC 3986, as net/url has it). */
  predicate PathByte(c: char) {
    'a' <= c <= 'z' || 'A' <= c <= 'Z' || '0' <= c <= '9' || c in "-_.~$&+,/:;=@"
  }

  function HexDigit(n: nat): char
    requires n < 16
  {
    if n < 10 then '0' + n as char else 'A' + (n - 10) as char
  }

  function HexValue(c: char): Option<nat> {
    if '0' <= c <= '9' then Some(c as int - '0' as int)
    else if 'A' <= c <= 'F' then Some(c as int - 'A' as int + 10)
    else if 'a' <= c <= 'f' then Some(c as int - 'a' as int + 10)
    else None
  }

  function EscapeByte(c: char): string {
    var b := c as int % 256;
    if PathByte(c) then [c] else ['%', HexDigit(b / 16), HexDigit(b % 16)]
  }

  function EscapePath(path: string): string {
    if path == [] then [] else EscapeByte(path[0]) + EscapePath(path[1..])
  }

  function UnescapePath(s: string): Option<string> {
    if s == [] then Some([])
    else if s[0] != '%' then Prepended(s[0], UnescapePath(s[1..]))
    else if |s| < 3 || HexValue(s[1]).None? || HexValue(s[2]).None? then None
    else Prepended((HexValue(s[1]).value * 16 + HexValue(s[2]).value) as char, UnescapePath(s[3..]))
  }

  lemma HexReadsBack(n: nat)
    requires n < 16
    ensures HexValue(HexDigit(n)) == Some(n)
  {
  }

  function Prepended(c: char, rest: Option<string>): Option<string> {
    if rest.Some? then Some([c] + rest.value) else None
  }

  lemma PairReadsBack(high: nat, low: nat, rest: string)
    requires high < 16 && low < 16
    ensures UnescapePath(['%', HexDigit(high), HexDigit(low)] + rest) ==
            Prepended((high * 16 + low) as char, UnescapePath(rest))
  {
    HexReadsBack(high);
    HexReadsBack(low);
    assert (['%', HexDigit(high), HexDigit(low)] + rest)[3..] == rest;
  }

  lemma PlainReadsBack(c: char, rest: string)
    requires c != '%'
    ensures UnescapePath([c] + rest) == Prepended(c, UnescapePath(rest))
  {
    assert ([c] + rest)[1..] == rest;
  }

  lemma EscapedByte(c: char)
    requires c as int < 256 && !PathByte(c)
    ensures EscapeByte(c) == ['%', HexDigit(c as int / 16), HexDigit(c as int % 16)]
    ensures c as int == (c as int / 16) * 16 + c as int % 16
  {
  }

  lemma ByteReadsBack(c: char, rest: string)
    requires c as int < 256
    ensures UnescapePath(EscapeByte(c) + rest) == Prepended(c, UnescapePath(rest))
  {
    if PathByte(c) {
      PlainReadsBack(c, rest);
    } else {
      EscapedByte(c);
      PairReadsBack(c as int / 16, c as int % 16, rest);
    }
  }

  /** A path of letters, digits and the marks that need no encoding is left alone. */
  lemma {:induction false} PlainPathStays(path: string)
    requires forall c | c in path :: 'a' <= c <= 'z' || 'A' <= c <= 'Z' || '0' <= c <= '9' || c in "-_.~$&+,/:;=@"
    ensures EscapePath(path) == path
  {
    if path != [] {
      PlainPathStays(path[1..]);
      assert path == [path[0]] + path[1..];
    }
  }

  /** The encoded path is read back as the path. */
  lemma {:induction false} EscapeReadsBack(path: string)
    requires forall i | 0 <= i < |path| :: path[i] as int < 256
    ensures UnescapePath(EscapePath(path)) == Some(path)
  {
    if path != [] {
      EscapeReadsBack(path[1..]);
      ByteReadsBack(path[0], EscapePath(path[1..]));
      assert path == [path[0]] + path[1..];
    }
  }

  function UpstreamPaths(upstreamPath: string, parsed: Option<Url>): (paths: seq<string>)
    ensures 1 <= |paths| <= 2 && paths[0] == upstreamPath
  {
    var trimmed := Trim(upstreamPath);
    if trimmed == "" || parsed.None? || parsed.value.absolute || parsed.value.host != "" || "//" <= trimmed
    then [upstreamPath]
    else if !Under(KEYS, parsed.value.path) then [upstreamPath]
    else [upstreamPath, EscapePath(LEGACY + parsed.value.path[|KEYS|..]) + parsed.value.rest]
  }

  ghost predicate Extends(prefix: string, path: string, below: string) {
    path == prefix + below && (below == "" || below[0] == '/')
  }

  lemma UnderIff(prefix: string, path: string)
    ensures Under(prefix, path) <==> exists below :: Extends(prefix, path, below)
    ensures forall below | Extends(prefix, path, below) :: below == path[|prefix|..]
  {
    if Under(prefix, path) {
      var below := path[|prefix|..];
      assert path[..|prefix|] == prefix && path == path[..|prefix|] + below;
      assert Extends(prefix, path, below);
    }
    forall below | Extends(prefix, path, below)
      ensures Under(prefix, path)
    {
      if below == "" {
        assert path == prefix;
      } else {
        assert path[..|prefix| + 1] == prefix + "/";
      }
    }
  }

  /** The second path exists exactly for a relative URL whose path is the keys path or below
      it, and is that URL with the prefix exchanged and the path encoded anew. */
  lemma FallbackIff(upstreamPath: string, parsed: Option<Url>)
    ensures KEYS == "/api/v1/api-keys" && LEGACY == "/api/v1/keys"
    ensures var (paths, trimmed) := (UpstreamPaths(upstreamPath, parsed), Trim(upstreamPath));
            && (|paths| == 2 <==>
                && trimmed != "" && !("//" <= trimmed) && parsed.Some?
                && !parsed.value.absolute && parsed.value.host == ""
                && exists below :: Extends(KEYS, parsed.value.path, below))
            && (|paths| == 2 ==>
                forall below | Extends(KEYS, parsed.value.path, below) ::
                  paths[1] == EscapePath(LEGACY + below) + parsed.value.rest)
  {
    if parsed.Some? {
      UnderIff(KEYS, parsed.value.path);
    }
  }

  // ----- What the loops are for -----

  datatype Outcome = Answered(answer: Answer) | BadRequest

  /** How often a path is sent: only GET and HEAD repeat it, exactly after 502, 503, 504 or a
      transient network error. */
  ghost function Sends(verb: string, first: Answer): nat {
    if (verb == "GET" || verb == "HEAD") && first in {Status(502), Status(503), Status(504), NetworkError(true)} then 2
    else 1
  }

  /** What a call sends and answers: the second path is used exactly after a 404. */
  ghost predicate Resent(verb: string, paths: seq<string>, built: string -> bool, answers: nat -> Answer,
                         before: seq<string>, after: seq<string>, r: Outcome)
    requires 1 <= |paths| <= 2
  {
    var from := |before|;
    var n := Sends(verb, answers(from));
    var m := if |paths| == 1 || answers(from + n - 1) != Status(404) then 0 else Sends(verb, answers(from + n));
    match r
    case Answered(answer) =>
      && after == before + (seq(n, _ => paths[0]) + seq(m, _ => paths[|paths| - 1]))
      && answer == answers(from + n + m - 1)
    case BadRequest =>
      || (!built(paths[0]) && after == before)
      || (|paths| == 2 && !built(paths[1]) && answers(from + n - 1) == Status(404)
          && after == before + seq(n, _ => paths[0]))
  }

  /** So there are at most four sends, other methods are sent once per path, and the second
      path is used only after a 404 on the first. */
  lemma SendsBounded(verb: string, paths: seq<string>, built: string -> bool, answers: nat -> Answer,
                     before: seq<string>, after: seq<string>, r: Outcome)
    requires 1 <= |paths| <= 2 && Resent(verb, paths, built, answers, before, after, r)
    ensures before <= after && |after| <= |before| + 4 && (r.Answered? ==> |after| > |before|)
    ensures verb != "GET" && verb != "HEAD" ==>
              && |after| <= |before| + |paths|
              && (forall i | |before| <= i < |after| :: after[i] == paths[i - |before|])
              && (|after| == |before| + 2 ==> answers(|before|) == Status(404))
    ensures |after| > |before| && answers(|before|) != Status(404) ==>
              (|after| > |before| + 1 && after[|before| + 1] == paths[0] <==>
               && verb in {"GET", "HEAD"}
               && answers(|before|) in {Status(502), Status(503), Status(504), NetworkError(true)})
    ensures |paths| == 2 && paths[0] != paths[1] && paths[1] in after[|before|..] ==>
              exists k | |before| < k < |after| ::
                && answers(k - 1) == Status(404)
                && after[|before|..k] == seq(k - |before|, _ => paths[0])
                && after[k..] == seq(|after| - k, _ => paths[1])
  {
    if |paths| == 2 && paths[0] != paths[1] && paths[1] in after[|before|..] {
      var k := |before| + Sends(verb, answers(|before|));
      assert after[|before|..k] == seq(k - |before|, _ => paths[0]);
      assert after[k..] == seq(|after| - k, _ => paths[1]);
    }
  }

  // ----- The code -----

  /** The upstream: the k-th request ever sent gets the k-th answer. */
  class Upstream {
    const answers: nat -> Answer
    var sent: seq<string>

    constructor (answers: nat -> Answer)
      ensures this.answers == answers && sent == []
    {
      this.answers, sent := answers, [];
    }

    method Send(path: string) returns (a: Answer)
      modifies this
      ensures sent == old(sent) + [path] && a == answers(|old(sent)|)
    {
      a := answers(|sent|);
      sent := sent + [path];
    }
  }

  /** The inner loop: one path, and a second time when the answer allows it. */
  method TryPath(up: Upstream, verb: string, path: string) returns (a: Answer)
    modifies up
    ensures var (from, busy) := (|old(up.sent)|, {Status(502), Status(503), Status(504), NetworkError(true)});
            var n := if (verb == "GET" || verb == "HEAD") && up.answers(from) in busy then 2 else 1;
            up.sent == old(up.sent) + seq(n, _ => path) && a == up.answers(from + n - 1)
  {
    var retryableMethod := verb == "GET" || verb == "HEAD";
    var attempt := 0;
    while attempt <= MAX_RETRIES
      invariant 0 <= attempt <= MAX_RETRIES
      invariant up.sent == old(up.sent) + seq(attempt, _ => path)
      invariant attempt == 1 ==>
        retryableMethod && up.answers(|old(up.sent)|) in {Status(502), Status(503), Status(504), NetworkError(true)}
    {
      a := up.Send(path);
      assert up.sent == old(up.sent) + seq(attempt + 1, _ => path);
      if a.NetworkError? {
        if retryableMethod && attempt < MAX_RETRIES && a.transient {
          attempt := attempt + 1;
          continue;
        }
        return;
      }
      if retryableMethod && attempt < MAX_RETRIES && RetryableStatus(a.code) {
        attempt := attempt + 1;
        continue;
      }
      return;
    }
    assert false;
  }

  /** The outer loop. `built(path)` tells whether URL and request can be built. */
  method Do(up: Upstream, verb: string, paths: seq<string>, built: string -> bool) returns (r: Outcome)
    requires 1 <= |paths| <= 2
    modifies up
    ensures Resent(verb, paths, built, up.answers, old(up.sent), up.sent, r)
    ensures old(up.sent) <= up.sent && |up.sent| <= |old(up.sent)| + 4
    ensures verb != "GET" && verb != "HEAD" ==>
              && |up.sent| <= |old(up.sent)| + |paths|
              && (forall i | |old(up.sent)| <= i < |up.sent| :: up.sent[i] == paths[i - |old(up.sent)|])
              && (|up.sent| == |old(up.sent)| + 2 ==> up.answers(|old(up.sent)|) == Status(404))
    ensures var (from, first) := (|old(up.sent)|, up.answers(|old(up.sent)|));
            |up.sent| > from && first != Status(404) ==>
              (|up.sent| > from + 1 && up.sent[from + 1] == paths[0] <==>
               verb in {"GET", "HEAD"} && first in {Status(502), Status(503), Status(504), NetworkError(true)})
  {
    var p := 0;
    while p < |paths|
      invariant 0 <= p < |paths|
      invariant p == 0 ==> up.sent == old(up.sent)
      invariant p == 1 ==>
        && built(paths[0]) && |up.sent| > |old(up.sent)| && up.answers(|up.sent| - 1) == Status(404)
        && up.sent == old(up.sent) + seq(|up.sent| - |old(up.sent)|, _ => paths[0])
        && |up.sent| == |old(up.sent)| + Sends(verb, up.answers(|old(up.sent)|))
    {
      if !built(paths[p]) {
        SendsBounded(verb, paths, built, up.answers, old(up.sent), up.sent, BadRequest);
        return BadRequest;
      }
      var a := TryPath(up, verb, paths[p]);
      if a == Status(404) && p < |paths| - 1 {
        p := p + 1;
        continue;
      }
      SendsBounded(verb, paths, built, up.answers, old(up.sent), up.sent, Answered(a));
      return Answered(a);
    }
    assert false;
  }
}
