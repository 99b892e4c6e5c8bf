/** Version checks of backend/internal/download/service.go. */
module Downloads {
  import opened Common
  import opened Decimal

  /** A row of als_downloads, without the columns the check only passes on. */
  datatype Download = Download(id: int, version: string, updatedAt: int, forceUpdate: bool, changelog: string)

  datatype Version = Version(major: nat, minor: nat, patch: nat)

  // ----- parseVersion: v, digits, dot, digits, dot, digits -----

  /** Atoi's error is ignored, so a number that overflows is clipped. */
  function Component(digits: string): nat
    requires digits != [] && AllDigits(digits)
  {
    assert IsDigit(digits[0]);
    match Atoi(digits)
    case Exact(n) => n
    case Clipped(n) => n
    case Malformed => 0
  }

  /** A run of digits and what follows it. */
  function Number(s: string): Option<(nat, string)> {
    var digits := DigitRun(s);
    if digits == [] then None else Some((Component(digits), s[|digits|..]))
  }

  function AfterDot(s: string): Option<(nat, string)> {
    if s != [] && s[0] == '.' then Number(s[1..]) else None
  }

  function ParseVersion(v: string): Option<Version> {
    if v == [] || v[0] != 'v' then None
    else
      match Number(v[1..])
      case None => None
      case Some(major) =>
        match AfterDot(major.1)
        case None => None
        case Some(minor) =>
          match AfterDot(minor.1)
          case None => None
          case Some(patch) => if patch.1 == [] then Some(Version(major.0, minor.0, patch.0)) else None
  }

  function CompareVersions(a: Version, b: Version): int {
    if a.major != b.major then (if a.major < b.major then -1 else 1)
    else if a.minor != b.minor then (if a.minor < b.minor then -1 else 1)
    else if a.patch != b.patch then (if a.patch < b.patch then -1 else 1)
    else 0
  }

  /** The first differing number, from major to patch, decides. */
  ghost predicate Above(a: Version, b: Version) {
    || a.major > b.major
    || (a.major == b.major && a.minor > b.minor)
    || (a.major == b.major && a.minor == b.minor && a.patch > b.patch)
  }

  /** CompareVersions is the sign of the lexicographic order of the three numbers. */
  lemma CompareIsLexicographic(a: Version, b: Version)
    ensures CompareVersions(a, b) < 0 <==>
              || a.major < b.major
              || (a.major == b.major && a.minor < b.minor)
              || (a.major == b.major && a.minor == b.minor && a.patch < b.patch)
    ensures CompareVersions(a, b) > 0 <==> Above(a, b)
    ensures CompareVersions(a, b) == 0 <==> a == b
    ensures CompareVersions(a, b) == -CompareVersions(b, a)
  {
  }

  /** v, then three non-empty runs of digits with dots between them. */
  ghost predicate Dots(v: string, a: string, b: string, c: string) {
    && a != [] && b != [] && c != [] && AllDigits(a) && AllDigits(b) && AllDigits(c)
    && v == ['v'] + (a + (['.'] + (b + (['.'] + c))))
  }

  /** The number, or the largest int when it is larger. */
  ghost function Clipped64(digits: string): nat
    requires AllDigits(digits)
  {
    if Value(digits) <= MAX_INT then Value(digits) else MAX_INT
  }

  lemma ComponentIs(digits: string)
    requires digits != [] && AllDigits(digits)
    ensures Component(digits) == Clipped64(digits)
  {
    assert IsDigit(digits[0]);
  }

  lemma NumberIs(digits: string, rest: string)
    requires digits != [] && AllDigits(digits) && (rest != [] ==> !IsDigit(rest[0]))
    ensures Number(digits + rest) == Some((Clipped64(digits), rest))
  {
    ComponentIs(digits);
    DigitRunOf(digits, rest);
    assert digits + DigitRun(rest) == digits;
    assert (digits + rest)[|digits|..] == rest;
  }

  /** A number read is a non-empty run of digits that ends where the rest begins. */
  lemma NumberFrom(s: string) returns (digits: string)
    requires Number(s).Some?
    ensures digits != [] && AllDigits(digits) && s == digits + Number(s).value.1
  {
    digits := DigitRun(s);
    assert s == s[..|digits|] + s[|digits|..];
  }

  lemma AfterDotIs(digits: string, rest: string)
    requires digits != [] && AllDigits(digits) && (rest != [] ==> !IsDigit(rest[0]))
    ensures AfterDot(['.'] + (digits + rest)) == Some((Clipped64(digits), rest))
  {
    NumberIs(digits, rest);
    assert (['.'] + (digits + rest))[1..] == digits + rest;
  }

  lemma PartsParse(v: string, major: (nat, string), minor: (nat, string), patch: nat)
    requires v != [] && v[0] == 'v' && Number(v[1..]) == Some(major)
    requires AfterDot(major.1) == Some(minor) && AfterDot(minor.1) == Some((patch, []))
    ensures ParseVersion(v) == Some(Version(major.0, minor.0, patch))
  {
  }

  lemma DotsParse(v: string, a: string, b: string, c: string)
    requires Dots(v, a, b, c)
    ensures ParseVersion(v) == Some(Version(Clipped64(a), Clipped64(b), Clipped64(c)))
  {
    var s2 := ['.'] + c;
    var s1 := ['.'] + (b + s2);
    assert c + [] == c && v[1..] == a + s1;
    NumberIs(a, s1);
    AfterDotIs(b, s2);
    AfterDotIs(c, []);
    PartsParse(v, (Clipped64(a), s1), (Clipped64(b), s2), Clipped64(c));
  }

  lemma ParsedHasDots(v: string) returns (a: string, b: string, c: string)
    requires ParseVersion(v).Some?
    ensures Dots(v, a, b, c)
  {
    var s1 := Number(v[1..]).value.1;
    var s2 := AfterDot(s1).value.1;
    a := NumberFrom(v[1..]);
    b := NumberFrom(s1[1..]);
    c := NumberFrom(s2[1..]);
    assert s2 == ['.'] + s2[1..] && s2[1..] == c + [] == c;
    assert s1 == ['.'] + s1[1..] && s1[1..] == b + s2;
    assert v == ['v'] + v[1..] && v[1..] == a + s1;
  }

  /** Exactly the texts of the form v1.2.3 parse, to their three numbers. */
  lemma ParsesIff(v: string)
    ensures ParseVersion(v).Some? <==> exists a, b, c :: Dots(v, a, b, c)
    ensures forall a, b, c | Dots(v, a, b, c) ::
              ParseVersion(v) == Some(Version(Clipped64(a), Clipped64(b), Clipped64(c)))
  {
    if ParseVersion(v).Some? {
      var a, b, c := ParsedHasDots(v);
    }
    forall a, b, c | Dots(v, a, b, c)
      ensures ParseVersion(v) == Some(Version(Clipped64(a), Clipped64(b), Clipped64(c)))
    {
      DotsParse(v, a, b, c);
    }
  }

  function Printed(version: Version): string {
    ['v'] + (Itoa(version.major) + Dotted(version.minor, Dotted(version.patch, [])))
  }

  predicate InRange(version: Version) {
    version.major <= MAX_INT && version.minor <= MAX_INT && version.patch <= MAX_INT
  }

  /** A printed version parses to its parts. */
  lemma PrintedVersionParses(version: Version)
    requires InRange(version)
    ensures ParseVersion(Printed(version)) == Some(version)
  {
    var s2 := Dotted(version.patch, []);
    var s1 := Dotted(version.minor, s2);
    NumberOf(version.major, s1);
    DottedParses(version.minor, s2);
    DottedParses(version.patch, []);
    assert (['v'] + (Itoa(version.major) + s1))[1..] == Itoa(version.major) + s1;
  }

  function Dotted(n: nat, rest: string): string {
    ['.'] + (Itoa(n) + rest)
  }

  lemma DottedParses(n: nat, rest: string)
    requires n <= MAX_INT && (rest != [] ==> !IsDigit(rest[0]))
    ensures AfterDot(Dotted(n, rest)) == Some((n, rest))
  {
    NumberOf(n, rest);
    assert Dotted(n, rest)[1..] == Itoa(n) + rest;
  }

  lemma NumberOf(n: nat, rest: string)
    requires n <= MAX_INT && (rest != [] ==> !IsDigit(rest[0]))
    ensures Number(Itoa(n) + rest) == Some((n, rest))
  {
    ItoaValue(n);
    AtoiOfItoa(n);
    DigitRunOf(Itoa(n), rest);
    assert Itoa(n) + DigitRun(rest) == Itoa(n);
    assert (Itoa(n) + rest)[|Itoa(n)|..] == rest;
  }

  // ----- preferLatestDownload, for whatever parser -----

  type Parser = string -> Option<Version>

  /** The tie-break: later update, then larger id. */
  predicate Newer(a: Download, b: Download) {
    if a.updatedAt != b.updatedAt then a.updatedAt > b.updatedAt else a.id > b.id
  }

  predicate Parses(parse: Parser, d: Download) {
    parse(d.version).Some?
  }

  function Compare(parse: Parser, a: Download, b: Download): int
    requires Parses(parse, a) && Parses(parse, b)
  {
    CompareVersions(parse(a.version).value, parse(b.version).value)
  }

  predicate Prefers(parse: Parser, a: Download, b: Download) {
    if Parses(parse, a) && Parses(parse, b) && Compare(parse, a, b) != 0 then Compare(parse, a, b) > 0 else Newer(a, b)
  }

  /** On different ids exactly one of two rows is preferred. */
  lemma PrefersOne(parse: Parser, a: Download, b: Download)
    ensures !Prefers(parse, a, a)
    ensures a.id != b.id ==> Prefers(parse, a, b) == !Prefers(parse, b, a)
  {
  }

  /** z's version does not parse, and by time it lies between a newer lower and an older
      higher version. */
  predicate Straddles(parse: Parser, high: Download, low: Download, z: Download) {
    && Parses(parse, high) && Parses(parse, low) && !Parses(parse, z)
    && Compare(parse, high, low) > 0 && Newer(low, z) && Newer(z, high)
  }

  lemma CycleIff(parse: Parser, a: Download, b: Download, c: Download)
    requires a.id != b.id && b.id != c.id && a.id != c.id
    ensures (Prefers(parse, a, b) && Prefers(parse, b, c) && Prefers(parse, c, a)) <==>
            (Straddles(parse, a, b, c) || Straddles(parse, b, c, a) || Straddles(parse, c, a, b))
  {
  }

  // ----- Any arrangement that the sort may leave -----

  ghost predicate DistinctIds(rows: seq<Download>) {
    forall i, j | 0 <= i < j < |rows| :: rows[i].id != rows[j].id
  }

  ghost predicate NoStraddle(parse: Parser, rows: seq<Download>) {
    forall high, low, z | high in rows && low in rows && z in rows :: !Straddles(parse, high, low, z)
  }

  ghost predicate Transitive(parse: Parser, rows: seq<Download>) {
    forall a, b, c | a in rows && b in rows && c in rows && Prefers(parse, a, b) && Prefers(parse, b, c) ::
      Prefers(parse, a, c)
  }

  lemma DistinctRows(rows: seq<Download>, a: Download, b: Download)
    requires DistinctIds(rows) && a in rows && b in rows && a != b
    ensures a.id != b.id
  {
  }

  /** The preference orders the rows exactly when no unparsable row straddles two others. */
  lemma TransitiveIff(parse: Parser, rows: seq<Download>)
    requires DistinctIds(rows)
    ensures Transitive(parse, rows) <==> NoStraddle(parse, rows)
  {
  }

  /** When all versions parse the order is a strict total order. */
  lemma AllParseOrders(parse: Parser, rows: seq<Download>)
    requires DistinctIds(rows) && forall d | d in rows :: Parses(parse, d)
    ensures Transitive(parse, rows)
    ensures forall a, b | a in rows && b in rows && a != b :: Prefers(parse, a, b) == !Prefers(parse, b, a)
  {
  }

  ghost predicate NoInversion(parse: Parser, s: seq<Download>) {
    forall i | 0 <= i < |s| - 1 :: !Prefers(parse, s[i + 1], s[i])
  }

  /** A rearrangement of the rows without an inverted neighbour. */
  ghost predicate Arranged(parse: Parser, sorted: seq<Download>, rows: seq<Download>) {
    multiset(sorted) == multiset(rows) && NoInversion(parse, sorted)
  }

  ghost predicate Best(parse: Parser, d: Download, rows: seq<Download>) {
    d in rows && forall other | other in rows && other != d :: Prefers(parse, d, other)
  }

  lemma {:induction false} HeadPreferred(parse: Parser, sorted: seq<Download>, rows: seq<Download>, j: nat)
    requires DistinctIds(rows) && Transitive(parse, rows) && Arranged(parse, sorted, rows) && j < |sorted|
    ensures sorted[j] == sorted[0] || Prefers(parse, sorted[0], sorted[j])
  {
    assert forall i | 0 <= i < |sorted| :: sorted[i] in multiset(sorted);
    if j > 0 {
      HeadPreferred(parse, sorted, rows, j - 1);
      if sorted[j] != sorted[j - 1] {
        DistinctRows(rows, sorted[j - 1], sorted[j]);
        PrefersOne(parse, sorted[j - 1], sorted[j]);
      }
    }
  }

  lemma ArrangedHeadIsBest(parse: Parser, sorted: seq<Download>, rows: seq<Download>)
    requires DistinctIds(rows) && Transitive(parse, rows) && Arranged(parse, sorted, rows) && rows != []
    ensures sorted != [] && Best(parse, sorted[0], rows)
  {
    assert rows[0] in multiset(rows);
    assert rows[0] in sorted;
    assert sorted[0] in multiset(sorted);
    forall other | other in rows && other != sorted[0]
      ensures Prefers(parse, sorted[0], other)
    {
      assert other in multiset(rows);
      var j :| 0 <= j < |sorted| && sorted[j] == other;
      HeadPreferred(parse, sorted, rows, j);
    }
  }

  lemma BestUnique(parse: Parser, a: Download, b: Download, rows: seq<Download>)
    requires DistinctIds(rows) && Best(parse, a, rows) && Best(parse, b, rows)
    ensures a == b
  {
  }

  // ----- When the choice is determined -----

  /** Whatever the query order and the sort, the same row comes first. */
  ghost predicate Determined(parse: Parser, rows: seq<Download>) {
    forall s, t | Arranged(parse, s, rows) && Arranged(parse, t, rows) :: s != [] && t != [] && s[0] == t[0]
  }

  ghost predicate HasBest(parse: Parser, rows: seq<Download>) {
    exists d :: Best(parse, d, rows)
  }

  lemma Members(s: seq<Download>, rows: seq<Download>, d: Download)
    requires multiset(s) == multiset(rows)
    ensures d in s <==> d in rows
  {
    assert d in s <==> d in multiset(s);
    assert d in rows <==> d in multiset(rows);
  }

  lemma BeatsPredecessor(parse: Parser, s: seq<Download>, rows: seq<Download>, j: nat)
    requires multiset(s) == multiset(rows) && 0 < j < |s| && Best(parse, s[j], rows) && s[j] !in s[..j]
    ensures Prefers(parse, s[j], s[j - 1])
  {
    assert s[j - 1] in s[..j];
    Members(s, rows, s[j - 1]);
  }

  /** A best row heads every arrangement. */
  lemma BestHeads(parse: Parser, d: Download, s: seq<Download>, rows: seq<Download>)
    requires Best(parse, d, rows) && Arranged(parse, s, rows)
    ensures s != [] && s[0] == d
  {
    Members(s, rows, d);
    FirstIndex(s, d);
    var j :| 0 <= j < |s| && s[j] == d && d !in s[..j];
    if j > 0 {
      BeatsPredecessor(parse, s, rows, j);
    }
  }

  lemma {:induction false} FirstIndex(s: seq<Download>, d: Download)
    requires d in s
    ensures exists j :: 0 <= j < |s| && s[j] == d && d !in s[..j]
  {
    var last := |s| - 1;
    if d in s[..last] {
      FirstIndex(s[..last], d);
      var j :| 0 <= j < |s[..last]| && s[..last][j] == d && d !in s[..last][..j];
      assert s[..last][..j] == s[..j];
    } else {
      assert s[last] == d;
    }
  }

  function InsertRow(parse: Parser, x: Download, s: seq<Download>): seq<Download> {
    if s == [] || !Prefers(parse, s[0], x) then [x] + s else [s[0]] + InsertRow(parse, x, s[1..])
  }

  lemma {:induction false} InsertKeeps(parse: Parser, x: Download, s: seq<Download>)
    requires NoInversion(parse, s)
    ensures var r := InsertRow(parse, x, s);
            && NoInversion(parse, r) && multiset(r) == multiset(s) + multiset{x}
            && r != [] && (r[0] == x || (s != [] && r[0] == s[0]))
  {
    if s == [] || !Prefers(parse, s[0], x) {
      assert [x] + s == InsertRow(parse, x, s);
    } else {
      var rest := InsertRow(parse, x, s[1..]);
      InsertKeeps(parse, x, s[1..]);
      assert s == [s[0]] + s[1..];
      assert s[1..] != [] ==> s[1..][0] == s[1];
      assert !Prefers(parse, x, s[0]);
    }
  }

  lemma {:induction false} SomeArrangement(parse: Parser, rows: seq<Download>) returns (s: seq<Download>)
    ensures Arranged(parse, s, rows)
  {
    if rows == [] {
      s := [];
    } else {
      var init, last := rows[..|rows| - 1], rows[|rows| - 1];
      s := SomeArrangement(parse, init);
      InsertKeeps(parse, last, s);
      s := InsertRow(parse, last, s);
      assert rows == init + [last];
    }
  }

  lemma {:induction false} OnceEach(rows: seq<Download>, d: Download)
    requires DistinctIds(rows)
    ensures multiset(rows)[d] <= 1
  {
    if rows != [] {
      var init, last := rows[..|rows| - 1], rows[|rows| - 1];
      OnceEach(init, d);
      assert rows == init + [last];
      assert last !in init;
      assert d == last ==> d !in multiset(init);
    }
  }

  function Moved(s: seq<Download>, k: nat): seq<Download>
    requires 0 < k < |s|
  {
    s[1..k + 1] + [s[0]] + s[k + 1..]
  }

  lemma SwapMultiset(h: Download, a: seq<Download>, b: seq<Download>)
    ensures multiset(a + [h] + b) == multiset([h] + (a + b))
  {
  }

  lemma MovedRows(s: seq<Download>, k: nat)
    requires 0 < k < |s|
    ensures multiset(Moved(s, k)) == multiset(s)
  {
    SwapMultiset(s[0], s[1..k + 1], s[k + 1..]);
    assert s == [s[0]] + (s[1..k + 1] + s[k + 1..]);
  }

  lemma MovedAt(s: seq<Download>, k: nat)
    requires 0 < k < |s|
    ensures |Moved(s, k)| == |s|
    ensures forall i | 0 <= i < |s| :: Moved(s, k)[i] == if i < k then s[i + 1] else if i == k then s[0] else s[i]
  {
  }

  /** Moving the head behind the last row that beats it gives another arrangement. */
  lemma MoveHead(parse: Parser, s: seq<Download>, k: nat)
    requires NoInversion(parse, s) && 0 < k < |s| && Prefers(parse, s[k], s[0])
    requires forall i | k < i < |s| :: !Prefers(parse, s[i], s[0])
    ensures NoInversion(parse, Moved(s, k))
  {
    MovedAt(s, k);
    PrefersNotBoth(parse, s[k], s[0]);
  }

  lemma PrefersNotBoth(parse: Parser, a: Download, b: Download)
    ensures Prefers(parse, a, b) ==> !Prefers(parse, b, a)
  {
  }

  lemma OtherHead(parse: Parser, s: seq<Download>, rows: seq<Download>) returns (s': seq<Download>)
    requires DistinctIds(rows) && Arranged(parse, s, rows) && s != [] && !Best(parse, s[0], rows)
    ensures Arranged(parse, s', rows) && s' != [] && s'[0] != s[0]
  {
    var h := s[0];
    Members(s, rows, h);
    var other :| other in rows && other != h && !Prefers(parse, h, other);
    Members(s, rows, other);
    DistinctRows(rows, h, other);
    PrefersOne(parse, h, other);
    var k := LastBeater(parse, s, other);
    MoveHead(parse, s, k);
    MovedRows(s, k);
    MovedAt(s, k);
    s' := Moved(s, k);
    OnceEach(rows, h);
    assert s == [s[0]] + [s[1]] + s[2..];
  }

  lemma LastBeater(parse: Parser, s: seq<Download>, other: Download) returns (k: nat)
    requires s != [] && other in s && Prefers(parse, other, s[0])
    ensures 0 < k < |s| && Prefers(parse, s[k], s[0])
    ensures forall i | k < i < |s| :: !Prefers(parse, s[i], s[0])
  {
    var j :| 0 <= j < |s| && s[j] == other;
    PrefersOne(parse, s[0], s[0]);
    k := |s| - 1;
    while !Prefers(parse, s[k], s[0])
      invariant 0 < j <= k < |s|
      invariant forall i | k < i < |s| :: !Prefers(parse, s[i], s[0])
      decreases k
    {
      k := k - 1;
    }
  }

  /** The chosen row depends neither on query order nor on the unstable sort exactly when
      one row is preferred to every other. */
  lemma DeterminedIff(parse: Parser, rows: seq<Download>)
    requires DistinctIds(rows) && rows != []
    ensures Determined(parse, rows) <==> HasBest(parse, rows)
  {
    if HasBest(parse, rows) {
      var d :| Best(parse, d, rows);
      forall s | Arranged(parse, s, rows)
        ensures s != [] && s[0] == d
      {
        BestHeads(parse, d, s, rows);
      }
    } else {
      var s := SomeArrangement(parse, rows);
      Members(s, rows, rows[0]);
      var s' := OtherHead(parse, s, rows);
    }
  }

  /** The order being an order is enough, but not needed: a straddled triple below a best
      row does no harm. */
  lemma NoStraddleHasBest(parse: Parser, rows: seq<Download>)
    requires rows != [] && DistinctIds(rows) && NoStraddle(parse, rows)
    ensures HasBest(parse, rows)
  {
    TransitiveIff(parse, rows);
    var s := SomeArrangement(parse, rows);
    ArrangedHeadIsBest(parse, s, rows);
  }

  /** When all versions parse the choice is determined and no update is hidden. */
  lemma AllParseHasBest(parse: Parser, rows: seq<Download>)
    requires rows != [] && DistinctIds(rows) && forall d | d in rows :: Parses(parse, d)
    ensures HasBest(parse, rows) && !Hides(parse, rows)
  {
    NoStraddleHasBest(parse, rows);
  }

  lemma StraddleBelowBest(parse: Parser, high: Download, low: Download, z: Download, top: Download)
    requires Straddles(parse, high, low, z)
    requires Prefers(parse, top, high) && Prefers(parse, top, low) && Prefers(parse, top, z)
    ensures !NoStraddle(parse, [high, low, z, top]) && Best(parse, top, [high, low, z, top])
  {
    var rows := [high, low, z, top];
    assert rows[0] == high && rows[1] == low && rows[2] == z && rows[3] == top;
  }

  lemma LatestIndependentOfOrder(parse: Parser, rows: seq<Download>, rows': seq<Download>,
                                 sorted: seq<Download>, sorted': seq<Download>)
    requires rows != [] && DistinctIds(rows) && HasBest(parse, rows)
    requires multiset(rows') == multiset(rows) && Arranged(parse, sorted, rows) && Arranged(parse, sorted', rows')
    ensures sorted != [] && sorted' != [] && sorted[0] == sorted'[0]
  {
    DeterminedIff(parse, rows);
    assert Arranged(parse, sorted', rows);
  }

  /** A straddled row makes the choice depend on the sort: three arrangements of the same
      rows, each without an inverted neighbour, start with three different rows. */
  lemma StraddleIsAmbiguous(parse: Parser, high: Download, low: Download, z: Download)
    requires Straddles(parse, high, low, z)
    ensures var rows := [high, low, z];
            && Arranged(parse, [high, low, z], rows)
            && Arranged(parse, [low, z, high], rows)
            && Arranged(parse, [z, high, low], rows)
  {
    PrefersOne(parse, high, low);
    PrefersOne(parse, low, z);
    PrefersOne(parse, z, high);
    ThreeArranged(parse, high, low, z, [high, low, z]);
    ThreeArranged(parse, low, z, high, [high, low, z]);
    ThreeArranged(parse, z, high, low, [high, low, z]);
  }

  lemma ThreeArranged(parse: Parser, a: Download, b: Download, c: Download, rows: seq<Download>)
    requires !Prefers(parse, b, a) && !Prefers(parse, c, b) && multiset(rows) == multiset{a, b, c}
    ensures Arranged(parse, [a, b, c], rows)
  {
  }

  lemma StraddleUndetermined(parse: Parser, high: Download, low: Download, z: Download)
    requires Straddles(parse, high, low, z)
    ensures !Determined(parse, [high, low, z])
  {
    StraddleIsAmbiguous(parse, high, low, z);
    var s, t := [high, low, z], [low, z, high];
    assert s[0] != t[0];
  }

  lemma StraddleFrom(parse: Parser, high: Download, low: Download, z: Download, higher: Version, lower: Version)
    requires parse(high.version) == Some(higher) && parse(low.version) == Some(lower) && parse(z.version) == None
    requires CompareVersions(higher, lower) > 0 && low.updatedAt > z.updatedAt > high.updatedAt
    ensures Straddles(parse, high, low, z) && !Determined(parse, [high, low, z])
  {
    StraddleUndetermined(parse, high, low, z);
  }

  lemma EmptyDoesNotParse()
    ensures ParseVersion("") == None
  {
  }

  /** Under the real parser: a lower version updated after a higher one, and between the two
      updates a row whose version was edited away. */
  lemma EmptiedVersionStraddles(high: Download, low: Download, z: Download, higher: Version, lower: Version)
    requires InRange(higher) && InRange(lower) && CompareVersions(higher, lower) > 0
    requires high.version == Printed(higher) && low.version == Printed(lower) && z.version == ""
    requires low.updatedAt > z.updatedAt > high.updatedAt
    ensures Straddles(ParseVersion, high, low, z) && !Determined(ParseVersion, [high, low, z])
  {
    PrintedVersionParses(higher);
    PrintedVersionParses(lower);
    EmptyDoesNotParse();
    StraddleFrom(ParseVersion, high, low, z, higher, lower);
  }

  // ----- CheckVersion -----

  datatype CheckError = Required | InvalidVersion | NotFound | QueryFailed

  datatype CheckResult = CheckResult(latest: Download, current: string, needsUpdate: bool, forceUpdate: bool)

  /** What a check answers, for the rows the query returned. */
  ghost predicate Answers(parse: Parser, platform: string, userVersion: string, rows: Option<seq<Download>>,
                          r: Result<CheckResult, CheckError>)
  {
    var user := Trim(userVersion);
    if Trim(platform) == "" || user == "" then r == Err(Required)
    else if parse(user).None? then r == Err(InvalidVersion)
    else if rows.None? then r == Err(QueryFailed)
    else if rows.value == [] then r == Err(NotFound)
    else
      && r.Ok?
      && var res := r.value;
      && res.latest in rows.value && res.current == user
      && res.forceUpdate == (res.needsUpdate && res.latest.forceUpdate)
      && res.needsUpdate == Exceeds(parse, res.latest, parse(user).value)
      && (DistinctIds(rows.value) && HasBest(parse, rows.value) ==>
            && Best(parse, res.latest, rows.value)
            && (res.needsUpdate <==> OffersMore(parse, rows.value, parse(user).value) && !Hides(parse, rows.value)))
  }

  /** Each row's version is printed from these numbers. */
  ghost predicate PrintedAs(rows: seq<Download>, versions: seq<Version>) {
    && |versions| == |rows|
    && forall i | 0 <= i < |rows| :: InRange(versions[i]) && rows[i].version == Printed(versions[i])
  }

  /** What the numbers decide: no row is above the latest one, among equal versions it is the
      one updated last, and an update is needed exactly when it is above the user's. */
  ghost predicate Decides(rows: seq<Download>, versions: seq<Version>, user: Version, r: CheckResult)
    requires |versions| == |rows|
  {
    exists i | 0 <= i < |rows| ::
      && r.latest == rows[i]
      && (r.needsUpdate <==> Above(versions[i], user))
      && (forall j | 0 <= j < |rows| :: !Above(versions[j], versions[i]))
      && (forall j | 0 <= j < |rows| && j != i && versions[j] == versions[i] ::
            || rows[j].updatedAt < rows[i].updatedAt
            || (rows[j].updatedAt == rows[i].updatedAt && rows[j].id < rows[i].id))
  }

  lemma PrintedParses(rows: seq<Download>, versions: seq<Version>, i: nat)
    requires PrintedAs(rows, versions) && i < |rows|
    ensures ParseVersion(rows[i].version) == Some(versions[i])
  {
    PrintedVersionParses(versions[i]);
  }

  /** For rows whose versions parse to these numbers, under any parser. */
  lemma NumbersDecide(parse: Parser, rows: seq<Download>, versions: seq<Version>, user: Version, r: CheckResult)
    requires DistinctIds(rows) && |versions| == |rows| && Best(parse, r.latest, rows)
    requires forall i | 0 <= i < |rows| :: parse(rows[i].version) == Some(versions[i])
    requires r.needsUpdate == Exceeds(parse, r.latest, user)
    ensures Decides(rows, versions, user, r)
  {
    var i :| 0 <= i < |rows| && rows[i] == r.latest;
    forall j | 0 <= j < |rows|
      ensures !Above(versions[j], versions[i])
      ensures j != i && versions[j] == versions[i] ==>
                || rows[j].updatedAt < rows[i].updatedAt
                || (rows[j].updatedAt == rows[i].updatedAt && rows[j].id < rows[i].id)
    {
      assert j != i ==> rows[j] in rows && rows[j].id != rows[i].id && Prefers(parse, rows[i], rows[j]);
      CompareIsLexicographic(versions[i], versions[j]);
    }
    CompareIsLexicographic(user, versions[i]);
  }

  lemma PrintedDecides(rows: seq<Download>, versions: seq<Version>, platform: string, userVersion: string,
                       user: Version, r: Result<CheckResult, CheckError>)
    requires Answers(ParseVersion, platform, userVersion, Some(rows), r) && r.Ok?
    requires DistinctIds(rows) && PrintedAs(rows, versions) && InRange(user) && Trim(userVersion) == Printed(user)
    ensures Decides(rows, versions, user, r.value)
  {
    forall i | 0 <= i < |rows|
      ensures ParseVersion(rows[i].version) == Some(versions[i])
    {
      PrintedParses(rows, versions, i);
    }
    PrintedVersionParses(user);
    AllParseHasBest(ParseVersion, rows);
    NumbersDecide(ParseVersion, rows, versions, user, r.value);
  }

  method CheckVersion(platform: string, userVersion: string, rows: Option<seq<Download>>, sorted: seq<Download>)
    returns (r: Result<CheckResult, CheckError>)
    requires rows.Some? ==> Arranged(ParseVersion, sorted, rows.value)
    ensures Answers(ParseVersion, platform, userVersion, rows, r)
    ensures forall versions: seq<Version>, user: Version
              | r.Ok? && DistinctIds(rows.value) && PrintedAs(rows.value, versions)
                && InRange(user) && Trim(userVersion) == Printed(user) ::
              Decides(rows.value, versions, user, r.value)
  {
    r := Check(ParseVersion, platform, userVersion, rows, sorted);
    forall versions: seq<Version>, user: Version
      | r.Ok? && DistinctIds(rows.value) && PrintedAs(rows.value, versions)
        && InRange(user) && Trim(userVersion) == Printed(user)
      ensures Decides(rows.value, versions, user, r.value)
    {
      PrintedDecides(rows.value, versions, platform, userVersion, user, r);
    }
  }

  /** `rows` is what the query returns, `sorted` what sort.Slice makes of it. */
  method Check(parse: Parser, platform: string, userVersion: string, rows: Option<seq<Download>>,
               sorted: seq<Download>)
    returns (r: Result<CheckResult, CheckError>)
    requires rows.Some? ==> Arranged(parse, sorted, rows.value)
    ensures Answers(parse, platform, userVersion, rows, r)
  {
    var user := Trim(userVersion);
    if Trim(platform) == "" || user == "" {
      return Err(Required);
    }
    var parsed := parse(user);
    if parsed.None? {
      return Err(InvalidVersion);
    }
    if rows.None? {
      return Err(QueryFailed);
    }
    assert |multiset(sorted)| == |multiset(rows.value)|;
    if |sorted| == 0 {
      return Err(NotFound);
    }
    var latest := sorted[0];
    var found := parse(latest.version);
    var latestVersion := if found.Some? then found.value else Version(0, 0, 0);
    var needsUpdate := CompareVersions(parsed.value, latestVersion) < 0;
    r := Ok(CheckResult(latest, user, needsUpdate, needsUpdate && latest.forceUpdate));
    assert latest in multiset(sorted);
    HeadDecides(parse, sorted, rows.value, parsed.value);
  }

  lemma HeadDecides(parse: Parser, sorted: seq<Download>, rows: seq<Download>, user: Version)
    requires Arranged(parse, sorted, rows) && sorted != [] && rows != []
    ensures DistinctIds(rows) && HasBest(parse, rows) ==>
              && Best(parse, sorted[0], rows)
              && (Exceeds(parse, sorted[0], user) <==> OffersMore(parse, rows, user) && !Hides(parse, rows))
  {
    if DistinctIds(rows) && HasBest(parse, rows) {
      var d :| Best(parse, d, rows);
      BestHeads(parse, d, sorted, rows);
      BestDecides(parse, d, rows, user);
    }
  }

  predicate Exceeds(parse: Parser, d: Download, user: Version) {
    Parses(parse, d) && CompareVersions(user, parse(d.version).value) < 0
  }

  /** Some row's version is higher. */
  ghost predicate OffersMore(parse: Parser, rows: seq<Download>, user: Version) {
    exists d :: d in rows && Exceeds(parse, d, user)
  }

  /** The newest row of all has no version that parses. */
  ghost predicate Hides(parse: Parser, rows: seq<Download>) {
    exists z :: z in rows && !Parses(parse, z) && forall other | other in rows && other != z :: Newer(z, other)
  }

  lemma BestDecides(parse: Parser, best: Download, rows: seq<Download>, user: Version)
    requires DistinctIds(rows) && Best(parse, best, rows)
    ensures Hides(parse, rows) <==> !Parses(parse, best)
    ensures Exceeds(parse, best, user) <==> OffersMore(parse, rows, user) && !Hides(parse, rows)
  {
    if Hides(parse, rows) {
      var z :| z in rows && !Parses(parse, z) && forall other | other in rows && other != z :: Newer(z, other);
      BestUnique(parse, best, z, rows);
    }
  }

  /** needs_update says that some row's version exceeds the user's exactly when no row
      without a version is the newest of all, or no row exceeds it. */
  lemma NeedsUpdateIff(parse: Parser, best: Download, rows: seq<Download>, user: Version)
    requires DistinctIds(rows) && Best(parse, best, rows)
    ensures (Exceeds(parse, best, user) <==> OffersMore(parse, rows, user)) <==>
            !(Hides(parse, rows) && OffersMore(parse, rows, user))
  {
    BestDecides(parse, best, rows, user);
  }

  /** A row whose version was just edited away is chosen over any older row and hides its
      update. */
  lemma BlankRowHidesUpdate(parse: Parser, blank: Download, good: Download, user: Version)
    requires blank.id != good.id && blank.updatedAt > good.updatedAt
    requires !Parses(parse, blank) && Exceeds(parse, good, user)
    ensures var rows := [blank, good];
            && DistinctIds(rows) && NoStraddle(parse, rows) && Best(parse, blank, rows)
            && OffersMore(parse, rows, user) && !Exceeds(parse, blank, user)
  {
    assert good in [blank, good];
  }
}
