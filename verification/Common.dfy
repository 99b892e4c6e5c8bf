/** Small types shared by every module. */
module Common {

  datatype Option<+T> = None | Some(value: T)

  datatype Result<+T, +E> = Ok(value: T) | Err(error: E)

  /** SQL COALESCE on two nullable values. */
  function Coalesce<T>(first: Option<T>, second: Option<T>): Option<T> {
    if first.Some? then first else second
  }

  /** What happens to one UPDATE, INSERT or DELETE sent to the database:
      it lands and is acknowledged, it lands but the caller sees an error,
      or it never lands and the caller sees an error. */
  datatype Write = Acked | LandedUnacked | Failed {
    predicate Lands() { !Failed? }
  }

  predicate IsSpace(c: char) {
    c == ' ' || '\t' <= c <= '\r'
  }

  function TrimLeft(s: string): string {
    if s != [] && IsSpace(s[0]) then TrimLeft(s[1..]) else s
  }

  function TrimRight(s: string): string {
    if s != [] && IsSpace(s[|s| - 1]) then TrimRight(s[..|s| - 1]) else s
  }

  /** strings.TrimSpace, on ASCII white space. */
  function Trim(s: string): string {
    TrimLeft(TrimRight(s))
  }

  lemma {:induction false} TrimLeftIs(s: string) returns (l: string)
    ensures s == l + TrimLeft(s) && forall c | c in l :: c as int in {9, 10, 11, 12, 13, 32}
    ensures TrimLeft(s) != [] ==> TrimLeft(s)[0] as int !in {9, 10, 11, 12, 13, 32}
  {
    if s != [] && IsSpace(s[0]) {
      l := TrimLeftIs(s[1..]);
      l := [s[0]] + l;
    } else {
      l := [];
    }
  }

  lemma {:induction false} TrimRightIs(s: string) returns (r: string)
    ensures s == TrimRight(s) + r && forall c | c in r :: c as int in {9, 10, 11, 12, 13, 32}
    ensures TrimRight(s) != [] ==> TrimRight(s)[|TrimRight(s)| - 1] as int !in {9, 10, 11, 12, 13, 32}
  {
    if s != [] && IsSpace(s[|s| - 1]) {
      r := TrimRightIs(s[..|s| - 1]);
      r := r + [s[|s| - 1]];
    } else {
      r := [];
    }
  }

  /** Trimming removes exactly the white space at both ends. */
  lemma TrimIs(s: string) returns (l: string, r: string)
    ensures s == l + (Trim(s) + r)
    ensures forall c | c in l || c in r :: c as int in {9, 10, 11, 12, 13, 32}
    ensures Trim(s) != [] ==>
              && Trim(s)[0] as int !in {9, 10, 11, 12, 13, 32}
              && Trim(s)[|Trim(s)| - 1] as int !in {9, 10, 11, 12, 13, 32}
  {
    r := TrimRightIs(s);
    l := TrimLeftIs(TrimRight(s));
    Assoc(l, Trim(s), r);
  }

  lemma Assoc<T>(a: seq<T>, b: seq<T>, c: seq<T>)
    ensures (a + b) + c == a + (b + c)
  {
  }
}
