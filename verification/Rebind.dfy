/** Placeholder rebinding of backend/internal/db/sql_dialect.go: `?` markers become `$1`,
    `$2`, ... for Postgres. A query is a sequence of characters. */
module Rebind {
  import opened Common
  import opened Decimal

  /** A statement as the database sees it: literal text and references to arguments. */
  datatype Item = Lit(c: char) | Ref(index: nat)

  // ----- The two readings of a statement -----

  /** `?` markers take the arguments in order; everything else is text. */
  function Marked(q: string, next: nat): seq<Item> {
    if q == [] then []
    else if q[0] == '?' then [Ref(next)] + Marked(q[1..], next + 1)
    else [Lit(q[0])] + Marked(q[1..], next)
  }

  /** `$` followed by digits refers to an argument; everything else is text. */
  function Numbered(s: string): seq<Item>
    decreases |s|
  {
    if s == [] then []
    else if s[0] == '$' && DigitRun(s[1..]) != [] then
      var digits := DigitRun(s[1..]);
      [Ref(Value(digits))] + Numbered(s[1 + |digits|..])
    else [Lit(s[0])] + Numbered(s[1..])
  }

  // ----- The rewriting -----

  function Rewrite(q: string, next: nat): string {
    if q == [] then []
    else if q[0] == '?' then "$" + Itoa(next) + Rewrite(q[1..], next + 1)
    else [q[0]] + Rewrite(q[1..], next)
  }

  function Lower(s: string): string {
    seq(|s|, i requires 0 <= i < |s| => if 'A' <= s[i] <= 'Z' then s[i] - 'A' + 'a' else s[i])
  }

  function NormalizeDialect(dialect: string): string {
    var d := Lower(Trim(dialect));
    if d == "" then "sqlite" else d
  }

  lemma LowerIs(s: string)
    ensures |Lower(s)| == |s|
    ensures forall i | 0 <= i < |s| ::
              if 'A' <= s[i] <= 'Z' then 'a' <= Lower(s)[i] <= 'z' && Lower(s)[i] as int == s[i] as int + 32
              else Lower(s)[i] == s[i]
  {
  }

  /** A dialect is Postgres when its name is, in small or capital letters and with white
      space around it; the default is SQLite. */
  lemma DialectIs(dialect: string)
    ensures NormalizeDialect(dialect) == "postgres" <==> Lower(Trim(dialect)) == "postgres"
    ensures Trim(dialect) == "" ==> NormalizeDialect(dialect) == "sqlite"
  {
    LowerIs(Trim(dialect));
  }

  /** What the database is sent for a query. */
  function Rebound(dialect: string, query: string): string {
    if NormalizeDialect(dialect) == "postgres" then Rewrite(query, 1) else query
  }

  method Rebind(dialect: string, query: string) returns (out: string)
    ensures out == Rebound(dialect, query)
    ensures Lower(Trim(dialect)) != "postgres" ==> out == query
  {
    if NormalizeDialect(dialect) != "postgres" {
      return query;
    }
    out := "";
    var index := 1;
    for i := 0 to |query|
      invariant index >= 1
      invariant out + Rewrite(query[i..], index) == Rewrite(query, 1)
    {
      assert query[i..][1..] == query[i + 1..];
      if query[i] == '?' {
        out := out + "$" + Itoa(index);
        index := index + 1;
      } else {
        out := out + [query[i]];
      }
    }
  }

  // ----- Meaning -----

  /** No marker and no dollar sign runs into a following digit. */
  predicate Safe(q: string) {
    forall i | 0 <= i < |q| - 1 :: (q[i] == '$' || q[i] == '?') ==> !IsDigit(q[i + 1])
  }

  lemma ReadRef(s: string, digits: string, tail: string)
    requires AllDigits(digits) && digits != [] && DigitRun(tail) == []
    requires s == ['$'] + (digits + tail)
    ensures Numbered(s) == [Ref(Value(digits))] + Numbered(tail)
  {
    DigitRunOf(digits, tail);
    assert s[1..] == digits + tail;
    assert DigitRun(s[1..]) == digits;
    assert s[1 + |digits|..] == tail;
  }

  /** Reading a rewritten marker: its own number, unless the text goes on with a digit. */
  lemma NumberedMarker(s: string, next: nat, rest: string)
    requires next > 0 && s == ['$'] + (Itoa(next) + rest)
    ensures if DigitRun(rest) == [] then Numbered(s) == [Ref(next)] + Numbered(rest)
            else Numbered(s)[..1] != [Ref(next)]
  {
    ItoaValue(next);
    var run := DigitRun(rest);
    if run == [] {
      ReadRef(s, Itoa(next), rest);
    } else {
      var digits, tail := Itoa(next) + run, rest[|run|..];
      assert Itoa(next) + rest == digits + tail;
      MoreDigits(Itoa(next), run);
      ReadRef(s, digits, tail);
    }
  }

  /** Reading the rewritten text, one item at a time. */
  lemma NumberedHead(q: string, next: nat)
    requires q != [] && next > 0
    ensures var rest := Rewrite(q[1..], if q[0] == '?' then next + 1 else next);
            var safe := (q[0] == '$' || q[0] == '?') ==> DigitRun(rest) == [];
            if safe then Numbered(Rewrite(q, next)) == Marked(q, next)[..1] + Numbered(rest)
            else Numbered(Rewrite(q, next))[..1] != Marked(q, next)[..1]
  {
    if q[0] == '?' {
      var rest := Rewrite(q[1..], next + 1);
      assert Rewrite(q, next) == ['$'] + (Itoa(next) + rest);
      NumberedMarker(Rewrite(q, next), next, rest);
      assert Marked(q, next)[..1] == [Ref(next)];
    } else {
      assert Rewrite(q, next)[1..] == Rewrite(q[1..], next);
      assert Marked(q, next)[..1] == [Lit(q[0])];
    }
  }

  lemma SafeHead(q: string, next: nat)
    requires q != []
    ensures Safe(q) <==>
            (Safe(q[1..]) && ((q[0] == '$' || q[0] == '?') ==> DigitRun(Rewrite(q[1..], next)) == []))
  {
  }

  lemma {:induction false} RewriteReadsBack(q: string, next: nat)
    requires next > 0
    ensures Numbered(Rewrite(q, next)) == Marked(q, next) <==> Safe(q)
  {
    if q != [] {
      var after := if q[0] == '?' then next + 1 else next;
      RewriteReadsBack(q[1..], after);
      NumberedHead(q, next);
      SafeHead(q, after);
      assert Marked(q, next) == Marked(q, next)[..1] + Marked(q[1..], after);
    }
  }

  /** Rebinding keeps the statement exactly when no `$` and no `?` is directly followed by
      a digit. */
  lemma RebindKeepsStatementIff(dialect: string, q: string)
    requires NormalizeDialect(dialect) == "postgres"
    ensures Numbered(Rebound(dialect, q)) == Marked(q, 1) <==> Safe(q)
  {
    RewriteReadsBack(q, 1);
  }

  // ----- Substituting arguments -----

  datatype Part<A> = Text(c: char) | Arg(value: A)

  function Markers(q: string): nat {
    if q == [] then 0 else (if q[0] == '?' then 1 else 0) + Markers(q[1..])
  }

  /** Filling the markers in order: each takes the next argument. */
  function FillInOrder<A>(q: string, args: seq<A>): seq<Part<A>>
    requires |args| >= Markers(q)
  {
    if q == [] then []
    else if q[0] == '?' then [Arg(args[0])] + FillInOrder(q[1..], args[1..])
    else [Text(q[0])] + FillInOrder(q[1..], args)
  }

  predicate InRange(item: Item, count: nat) {
    item.Ref? ==> 1 <= item.index <= count
  }

  function Fill<A>(item: Item, args: seq<A>): Part<A>
    requires InRange(item, |args|)
  {
    if item.Ref? then Arg(args[item.index - 1]) else Text(item.c)
  }

  function Substitute<A>(items: seq<Item>, args: seq<A>): seq<Part<A>>
    requires forall item | item in items :: InRange(item, |args|)
  {
    if items == [] then [] else [Fill(items[0], args)] + Substitute(items[1..], args)
  }

  function Indices(items: seq<Item>): seq<nat> {
    if items == [] then []
    else (if items[0].Ref? then [items[0].index] else []) + Indices(items[1..])
  }

  function CountUp(from: nat, count: nat): seq<nat>
    decreases count
  {
    if count == 0 then [] else [from] + CountUp(from + 1, count - 1)
  }

  /** The references are numbered next, next + 1, ... without gap or repetition. */
  lemma {:induction false} NumberedInOrder(q: string, next: nat)
    ensures Indices(Marked(q, next)) == CountUp(next, Markers(q))
  {
    if q != [] {
      NumberedInOrder(q[1..], if q[0] == '?' then next + 1 else next);
    }
  }

  lemma {:induction false} SubstituteMarked<A>(q: string, skipped: nat, args: seq<A>)
    requires skipped + Markers(q) <= |args|
    ensures forall item | item in Marked(q, skipped + 1) :: InRange(item, |args|)
    ensures Substitute(Marked(q, skipped + 1), args) == FillInOrder(q, args[skipped..])
  {
    if q != [] {
      var after := if q[0] == '?' then skipped + 1 else skipped;
      SubstituteMarked(q[1..], after, args);
      assert Marked(q, skipped + 1)[1..] == Marked(q[1..], after + 1);
      assert q[0] == '?' ==> args[skipped..][1..] == args[after..];
    }
  }

  /** Postgres sees what filling the markers in order would give. */
  lemma RebindPreservesMeaning<A>(dialect: string, q: string, args: seq<A>)
    requires NormalizeDialect(dialect) == "postgres" && Safe(q) && Markers(q) <= |args|
    ensures var items := Numbered(Rebound(dialect, q));
            && Indices(items) == CountUp(1, Markers(q))
            && (forall item | item in items :: InRange(item, |args|))
            && Substitute(items, args) == FillInOrder(q, args)
  {
    RebindKeepsStatementIff(dialect, q);
    NumberedInOrder(q, 1);
    SubstituteMarked(q, 0, args);
    assert args[0..] == args;
  }

  // ----- Recovering the input -----

  function Unmarked(items: seq<Item>): string {
    seq(|items|, i requires 0 <= i < |items| => if items[i].Ref? then '?' else items[i].c)
  }

  lemma {:induction false} UnmarkMarked(q: string, next: nat)
    ensures Unmarked(Marked(q, next)) == q
  {
    if q != [] {
      UnmarkMarked(q[1..], if q[0] == '?' then next + 1 else next);
    }
  }

  lemma RebindRecoverable(dialect: string, q: string)
    requires NormalizeDialect(dialect) == "postgres" && Safe(q)
    ensures Unmarked(Numbered(Rebound(dialect, q))) == q
  {
    RebindKeepsStatementIff(dialect, q);
    UnmarkMarked(q, 1);
  }

  // ----- InsertID -----

  function TrimSemicolon(s: string): string {
    if s != [] && s[|s| - 1] == ';' then s[..|s| - 1] else s
  }

  function InsertStatement(dialect: string, insertSQL: string, col: string): string {
    var query := TrimSemicolon(Trim(insertSQL));
    var d := NormalizeDialect(dialect);
    if d == "postgres" then Rebound(d, query + " RETURNING " + col + ";") else Rebound(d, query + ";")
  }

  /** Other dialects are sent the statement itself, with exactly one semicolon at its end more
      than it has after one is taken off. */
  lemma InsertElsewhere(dialect: string, insertSQL: string, col: string)
    requires NormalizeDialect(dialect) != "postgres"
    ensures var query := Trim(insertSQL);
            InsertStatement(dialect, insertSQL, col) ==
            if query != "" && query[|query| - 1] == ';' then query else query + ";"
  {
    var query, d := Trim(insertSQL), NormalizeDialect(dialect);
    NormalTwice(dialect);
    if query != "" && query[|query| - 1] == ';' {
      assert query == query[..|query| - 1] + ";";
    }
  }

  lemma {:induction false} TrimNothing(s: string)
    requires s != "" ==> !IsSpace(s[0]) && !IsSpace(s[|s| - 1])
    ensures Trim(s) == s
  {
  }

  /** Normalizing a normalized dialect changes nothing. */
  lemma NormalTwice(dialect: string)
    ensures NormalizeDialect(NormalizeDialect(dialect)) == NormalizeDialect(dialect)
  {
    var t := Trim(dialect);
    var l, r := TrimIs(dialect);
    LowerIs(t);
    if t == "" {
      assert Trim("sqlite") == "sqlite" && Lower("sqlite") == "sqlite";
    } else {
      TrimNothing(Lower(t));
      LowerIs(Lower(t));
      assert Lower(Lower(t)) == Lower(t);
    }
  }

  lemma {:induction false} MarkedAppend(q: string, suffix: string, next: nat)
    requires '?' !in suffix
    ensures Marked(q + suffix, next) == Marked(q, next) + Marked(suffix, 0)
    decreases |q| + |suffix|
  {
    if q == [] {
      assert q + suffix == suffix;
      if suffix != [] {
        MarkedAppend([], suffix[1..], next);
        assert [] + suffix[1..] == suffix[1..];
      }
    } else {
      assert (q + suffix)[1..] == q[1..] + suffix;
      MarkedAppend(q[1..], suffix, if q[0] == '?' then next + 1 else next);
    }
  }

  lemma PostgresIsNormal()
    ensures NormalizeDialect("postgres") == "postgres"
  {
    assert Trim("postgres") == "postgres";
    assert Lower("postgres") == "postgres";
  }

  lemma SafeAppend(q: string, suffix: string)
    requires Safe(q) && suffix != [] && !IsDigit(suffix[0])
    requires '?' !in suffix && '$' !in suffix
    ensures Safe(q + suffix)
  {
  }

  /** The added clause takes no argument and leaves the others where they are. */
  lemma InsertKeepsArguments(insertSQL: string, col: string)
    requires '?' !in col && '$' !in col
    requires Safe(TrimSemicolon(Trim(insertSQL)))
    ensures Numbered(InsertStatement("postgres", insertSQL, col)) ==
            Marked(TrimSemicolon(Trim(insertSQL)), 1) + Marked(" RETURNING " + col + ";", 0)
  {
    var query := TrimSemicolon(Trim(insertSQL));
    var suffix := " RETURNING " + col + ";";
    assert query + " RETURNING " + col + ";" == query + suffix;
    PostgresIsNormal();
    SafeAppend(query, suffix);
    RebindKeepsStatementIff("postgres", query + suffix);
    MarkedAppend(query, suffix, 1);
  }
}
