/** The Redis protocol framing of backend/internal/cache/redis.go. A string here is a
    sequence of bytes, one character each. */
module Resp {
  import opened Common
  import opened Decimal

  const CRLF := "\r\n"

  // ----- What is written (RESP specification, "Arrays" and "Bulk strings") -----

  function Bulk(part: string): string {
    "$" + (Itoa(|part|) + (CRLF + (part + CRLF)))
  }

  function Bulks(parts: seq<string>): string {
    if parts == [] then [] else Bulk(parts[0]) + Bulks(parts[1..])
  }

  function Command(parts: seq<string>): string {
    "*" + (Itoa(|parts|) + (CRLF + Bulks(parts)))
  }

  function Take(s: string, n: nat): string {
    if |s| <= n then s else s[..n]
  }

  /** A connection that takes `room` more bytes before writing fails; the failing write may
      have delivered a part. */
  class Conn {
    var sent: string
    var room: nat

    constructor (room: nat)
      ensures sent == "" && this.room == room
    {
      sent, this.room := "", room;
    }

    method Write(s: string) returns (ok: bool)
      modifies this
      ensures ok == (|s| <= old(room))
      ensures sent == old(sent) + Take(s, old(room)) && room == old(room) - |Take(s, old(room))|
    {
      ok := |s| <= room;
      sent, room := sent + Take(s, room), if ok then room - |s| else 0;
    }
  }

  /** What has arrived is always a prefix of the command, and all of it on success. */
  method WriteRedisCommand(conn: Conn, parts: seq<string>) returns (ok: bool)
    modifies conn
    ensures ok == (|Command(parts)| <= old(conn.room))
    ensures conn.sent == old(conn.sent) + Take(Command(parts), old(conn.room))
  {
    var head := "*" + Itoa(|parts|) + CRLF;
    assert Command(parts) == head + Bulks(parts);
    assert parts[0..] == parts;
    TakeAppend(conn.sent, head, Bulks(parts), conn.room);
    ok := conn.Write(head);
    if !ok {
      return;
    }
    for i := 0 to |parts|
      invariant conn.sent + Take(Bulks(parts[i..]), conn.room) == old(conn.sent + Take(Command(parts), conn.room))
      invariant |Bulks(parts[i..])| <= conn.room <==> |Command(parts)| <= old(conn.room)
    {
      assert parts[i..][1..] == parts[i + 1..];
      TakeAppend(conn.sent, Bulk(parts[i]), Bulks(parts[i + 1..]), conn.room);
      ok := conn.Write(Bulk(parts[i]));
      if !ok {
        return;
      }
    }
    ok := true;
  }

  /** Sending two texts in a row, the second only when the first went through. */
  lemma TakeAppend(sent: string, s: string, t: string, n: nat)
    ensures sent + Take(s + t, n) ==
            if |s| <= n then (sent + Take(s, n)) + Take(t, n - |s|) else sent + Take(s, n)
  {
  }

  // ----- What is read, on the stream of bytes still to come -----

  /** The first line with its newline, and what follows; None when no newline comes. */
  function SplitLine(s: string): Option<(string, string)> {
    if s == [] then None
    else if s[0] == '\n' then Some(([s[0]], s[1..]))
    else
      match SplitLine(s[1..])
      case None => None
      case Some(p) => Some(([s[0]] + p.0, p.1))
  }

  function TrimCrLf(s: string): string {
    if s != [] && (s[|s| - 1] == '\r' || s[|s| - 1] == '\n') then TrimCrLf(s[..|s| - 1]) else s
  }

  datatype Reply =
    | Payload(value: string)
    | Missing                       // a negative size
    | ServerError(message: string)
    | Unexpected(line: string)
    | BadSize
    | Truncated                     // the stream ended
    | Panic                         // size + 2 overflows

  function ReadHeader(line: string): Result<nat, Reply> {
    if line != [] && line[0] == '-' then Err(ServerError(line[1..]))
    else if line == [] || line[0] != '$' then Err(Unexpected(line))
    else
      var size := Atoi(line[1..]);
      if !size.Exact? then Err(BadSize)
      else if size.value < 0 then Err(Missing)
      else if size.value > MAX_INT - 2 then Err(Panic)
      else Ok(size.value)
  }

  /** The reply, and the bytes left unread. */
  function ReadBulk(stream: string): (Reply, string) {
    match SplitLine(stream)
    case None => (Truncated, "")
    case Some(p) =>
      match ReadHeader(TrimCrLf(p.0))
      case Err(reply) => (reply, p.1)
      case Ok(size) =>
        if |p.1| < size + 2 then (Truncated, "")
        else (Payload(p.1[..size]), p.1[size + 2..])
  }

  // ----- The buffered reader -----

  function Concat(chunks: seq<string>): string {
    if chunks == [] then [] else chunks[0] + Concat(chunks[1..])
  }

  lemma {:induction false} SplitLineOf(line: string, rest: string)
    requires '\n' !in line
    ensures SplitLine(line + ("\n" + rest)) == Some((line + "\n", rest))
  {
    var s := line + ("\n" + rest);
    if line == [] {
      assert s == "\n" + rest && s[1..] == rest && line + "\n" == "\n";
    } else {
      assert s[1..] == line[1..] + ("\n" + rest);
      SplitLineOf(line[1..], rest);
      assert [line[0]] + (line[1..] + "\n") == line + "\n";
    }
  }

  lemma SplitLineAt(s: string, i: nat, rest: string)
    requires i < |s| && s[i] == '\n' && '\n' !in s[..i]
    ensures SplitLine(s + rest) == Some((s[..i + 1], s[i + 1..] + rest))
  {
    SplitLineOf(s[..i], s[i + 1..] + rest);
    Assoc("\n", s[i + 1..], rest);
    Assoc(s[..i], "\n" + s[i + 1..], rest);
    assert s == s[..i] + ("\n" + s[i + 1..]);
    assert s[..i + 1] == s[..i] + "\n";
  }

  lemma {:induction false} NoLine(s: string)
    requires '\n' !in s
    ensures SplitLine(s) == None
  {
    if s != [] {
      NoLine(s[1..]);
    }
  }

  /** bufio.Reader: bytes already fetched, and the reads the connection will still answer
      before it ends. */
  class Reader {
    var buffered: string
    var chunks: seq<string>

    constructor (chunks: seq<string>)
      ensures Pending() == Concat(chunks)
    {
      buffered, this.chunks := "", chunks;
    }

    /** The stream to come, however it is cut into reads. */
    ghost function Pending(): string
      reads this
    {
      buffered + Concat(chunks)
    }

    method Fill() returns (ok: bool)
      modifies this
      ensures Pending() == old(Pending()) && old(buffered) <= buffered
      ensures ok == (|old(chunks)| > 0)
      ensures |chunks| == if ok then |old(chunks)| - 1 else 0
    {
      ok := chunks != [];
      if ok {
        buffered, chunks := buffered + chunks[0], chunks[1..];
      }
    }

    /** ReadString('\n'). */
    method ReadLine() returns (line: Option<string>)
      modifies this
      ensures match SplitLine(old(Pending()))
              case None => line == None && Pending() == ""
              case Some(p) => line == Some(p.0) && Pending() == p.1
    {
      var i := 0;
      while true
        invariant i <= |buffered| && '\n' !in buffered[..i]
        invariant Pending() == old(Pending())
        decreases |chunks|, |buffered| - i
      {
        if i < |buffered| {
          if buffered[i] == '\n' {
            SplitLineAt(buffered, i, Concat(chunks));
            line := Some(buffered[..i + 1]);
            buffered := buffered[i + 1..];
            return;
          }
          i := i + 1;
        } else {
          ghost var before := buffered;
          var more := Fill();
          assert buffered[..i] == before;
          if !more {
            assert Pending() == buffered;
            NoLine(buffered);
            buffered := "";
            return None;
          }
        }
      }
    }

    /** io.ReadFull into a buffer of n bytes. */
    method ReadFull(n: nat) returns (buf: array<char>, ok: bool)
      modifies this
      ensures fresh(buf) && buf.Length == n
      ensures ok == (n <= |old(Pending())|)
      ensures ok ==> buf[..] == old(Pending())[..n] && Pending() == old(Pending())[n..]
      ensures !ok ==> Pending() == ""
    {
      buf := new char[n];
      var got := 0;
      while got < n
        invariant got <= n
        invariant buf[..got] + Pending() == old(Pending())
        decreases n - got, |chunks|
      {
        if buffered == "" {
          var more := Fill();
          if !more {
            assert Pending() == "" && |old(Pending())| == got;
            return buf, false;
          }
        } else {
          var k := if |buffered| < n - got then |buffered| else n - got;
          ghost var before := buf[..got];
          forall j | 0 <= j < k {
            buf[got + j] := buffered[j];
          }
          assert buf[..got + k] == before + buffered[..k];
          assert buffered[..k] + (buffered[k..] + Concat(chunks)) == Pending();
          buffered := buffered[k..];
          got := got + k;
        }
      }
      ok := true;
    }

    method ReadBulkString() returns (reply: Reply)
      modifies this
      ensures (reply, Pending()) == ReadBulk(old(Pending()))
    {
      var line := ReadLine();
      if line.None? {
        return Truncated;
      }
      var header := ReadHeader(TrimCrLf(line.value));
      if header.Err? {
        return header.error;
      }
      ghost var rest := Pending();
      var buf, ok := ReadFull(header.value + 2);
      if !ok {
        return Truncated;
      }
      reply := Payload(buf[..header.value]);
      assert buf[..header.value] == rest[..header.value + 2][..header.value] == rest[..header.value];
    }
  }

  // ----- The reader takes exactly one frame -----

  lemma HeaderOf(n: nat)
    requires n <= MAX_INT - 2
    ensures var s := "$" + Itoa(n);
            '\n' !in s && TrimCrLf(s) == s && ReadHeader(s) == Ok(n)
  {
    var s := "$" + Itoa(n);
    ItoaValue(n);
    AtoiOfItoa(n);
    assert s[|s| - 1] in Itoa(n) && s[1..] == Itoa(n);
  }

  lemma TrimOne(s: string, c: char)
    requires c == '\r' || c == '\n'
    ensures TrimCrLf(s + [c]) == TrimCrLf(s)
  {
  }

  /** Whatever follows, the reader returns exactly the payload, CR LF included, and leaves
      exactly what follows. */
  lemma FrameReadsBack(payload: string, rest: string)
    requires |payload| <= MAX_INT - 2
    ensures ReadBulk(Bulk(payload) + rest) == (Payload(payload), rest)
  {
    var header, body := "$" + Itoa(|payload|), payload + (CRLF + rest);
    var line := header + ['\r'];
    HeaderOf(|payload|);
    TrimOne(header, '\r');
    TrimOne(line, '\n');
    SplitLineOf(line, body);
    assert line + "\n" == line + ['\n'];
    BulkShape(payload, rest);
    Assoc("$", Itoa(|payload|), CRLF + body);
    Assoc(header, ['\r'], "\n" + body);
    assert CRLF + body == ['\r'] + ("\n" + body);
    assert body[..|payload|] == payload && body[|payload| + 2..] == rest;
  }

  lemma LineOf(h: string, rest: string)
    requires '\n' !in h && (h != [] ==> h[|h| - 1] != '\r')
    ensures SplitLine(h + (CRLF + rest)) == Some((h + CRLF, rest)) && TrimCrLf(h + CRLF) == h
  {
    var line := h + ['\r'];
    SplitLineOf(line, rest);
    Assoc(h, ['\r'], "\n" + rest);
    assert CRLF + rest == ['\r'] + ("\n" + rest);
    assert h + CRLF == line + "\n" == line + ['\n'];
    TrimOne(h, '\r');
    TrimOne(line, '\n');
  }

  /** The answer to any first line, whatever follows it. */
  lemma ReplyIs(h: string, rest: string)
    requires '\n' !in h && (h != [] ==> h[|h| - 1] != '\r')
    ensures var reply := ReadBulk(h + (CRLF + rest));
            if h == [] || (h[0] != '-' && h[0] != '$') then reply == (Unexpected(h), rest)
            else if h[0] == '-' then reply == (ServerError(h[1..]), rest)
            else
              match Atoi(h[1..])
              case Malformed => reply == (BadSize, rest)
              case Clipped(_) => reply == (BadSize, rest)
              case Exact(size) =>
                if size < 0 then reply == (Missing, rest)
                else if size + 2 > 0x7FFF_FFFF_FFFF_FFFF then reply == (Panic, rest)
                else if |rest| < size + 2 then reply == (Truncated, "")
                else reply == (Payload(rest[..size]), rest[size + 2..])
  {
    LineOf(h, rest);
  }

  /** The server's answer to a key that is not there. */
  lemma NilReply(rest: string)
    ensures ReadBulk("$-1\r\n" + rest) == (Missing, rest)
  {
    var h := "$-1";
    assert "$-1\r\n" + rest == h + (CRLF + rest);
    ReplyIs(h, rest);
    AtoiIs("1");
    assert h[1..] == "-" + "1";
    assert Value("1") == 1 by {
      assert "1"[..0] == [];
    }
  }

  lemma NoReply(stream: string)
    requires '\n' !in stream
    ensures ReadBulk(stream) == (Truncated, "")
  {
    NoLine(stream);
  }

  lemma BulkShape(part: string, rest: string)
    ensures Bulk(part) + rest == "$" + (Itoa(|part|) + (CRLF + (part + (CRLF + rest))))
  {
    Assoc("$", Itoa(|part|) + (CRLF + (part + CRLF)), rest);
    Assoc(Itoa(|part|), CRLF + (part + CRLF), rest);
    Assoc(CRLF, part + CRLF, rest);
    Assoc(part, CRLF, rest);
  }

  // ----- A written command decodes uniquely -----

  /** A length and its CR LF, as a server reads them. */
  function DecodeLength(s: string): Option<(nat, string)> {
    var digits := DigitRun(s);
    if digits != [] && CRLF <= s[|digits|..] then Some((Value(digits), s[|digits| + 2..])) else None
  }

  function DecodeBulk(s: string): Option<(string, string)> {
    if s == [] || s[0] != '$' then None
    else
      match DecodeLength(s[1..])
      case None => None
      case Some(p) =>
        if |p.1| >= p.0 + 2 && CRLF <= p.1[p.0..] then Some((p.1[..p.0], p.1[p.0 + 2..])) else None
  }

  function DecodeBulks(count: nat, s: string): Option<(seq<string>, string)>
    decreases count
  {
    if count == 0 then Some(([], s))
    else
      match DecodeBulk(s)
      case None => None
      case Some(first) =>
        match DecodeBulks(count - 1, first.1)
        case None => None
        case Some(others) => Some(([first.0] + others.0, others.1))
  }

  function DecodeCommand(s: string): Option<(seq<string>, string)> {
    if s == [] || s[0] != '*' then None
    else
      match DecodeLength(s[1..])
      case None => None
      case Some(p) => DecodeBulks(p.0, p.1)
  }

  lemma DecodeLengthOf(n: nat, rest: string)
    ensures DecodeLength(Itoa(n) + (CRLF + rest)) == Some((n, rest))
  {
    var s := Itoa(n) + (CRLF + rest);
    ItoaValue(n);
    DigitRunOf(Itoa(n), CRLF + rest);
    assert (CRLF + rest)[0] == '\r';
    assert DigitRun(s) == Itoa(n);
    assert s[|Itoa(n)|..] == CRLF + rest && s[|Itoa(n)| + 2..] == rest;
  }

  lemma DecodeBulkOf(part: string, rest: string)
    ensures DecodeBulk(Bulk(part) + rest) == Some((part, rest))
  {
    var s, body := Bulk(part) + rest, part + (CRLF + rest);
    DecodeLengthOf(|part|, body);
    BulkShape(part, rest);
    assert s[1..] == Itoa(|part|) + (CRLF + body);
    assert body[|part|..] == CRLF + rest && body[..|part|] == part && body[|part| + 2..] == rest;
  }

  lemma {:induction false} DecodeBulksOf(parts: seq<string>, rest: string)
    ensures DecodeBulks(|parts|, Bulks(parts) + rest) == Some((parts, rest))
  {
    if parts == [] {
      assert Bulks(parts) + rest == rest;
    } else {
      var tail := Bulks(parts[1..]) + rest;
      DecodeBulksOf(parts[1..], rest);
      DecodeBulkOf(parts[0], tail);
      BulksJoin(parts, rest);
      assert DecodeBulks(|parts|, Bulk(parts[0]) + tail) == Some(([parts[0]] + parts[1..], rest));
    }
  }

  lemma BulksJoin(parts: seq<string>, rest: string)
    requires parts != []
    ensures Bulks(parts) + rest == Bulk(parts[0]) + (Bulks(parts[1..]) + rest)
    ensures [parts[0]] + parts[1..] == parts
  {
    Assoc(Bulk(parts[0]), Bulks(parts[1..]), rest);
  }

  lemma CommandDecodes(parts: seq<string>, rest: string)
    ensures DecodeCommand(Command(parts) + rest) == Some((parts, rest))
  {
    var s, body := Command(parts) + rest, Bulks(parts) + rest;
    assert s == "*" + (Itoa(|parts|) + (CRLF + body));
    assert s[1..] == Itoa(|parts|) + (CRLF + body);
    DecodeLengthOf(|parts|, body);
    DecodeBulksOf(parts, rest);
  }

  /** Two streams that start with commands are equal only if the commands are. */
  lemma CommandsUnambiguous(parts: seq<string>, rest: string, parts': seq<string>, rest': string)
    requires Command(parts) + rest == Command(parts') + rest'
    ensures parts == parts' && rest == rest'
  {
    CommandDecodes(parts, rest);
    CommandDecodes(parts', rest');
  }
}
