/** Cache-rate aggregation of backend/internal/proxy/usage_stats.go. Token counts are
    unbounded integers and rates exact. */
module UsageStats {
  import opened Common

  datatype GroupInfo = GroupInfo(name: string, multiplier: real)

  datatype Record = Record(groupID: int, input: int, read: int, creation: int, group: Option<GroupInfo>)

  /** The integer counters of a group or of everything. */
  datatype Counts = Counts(requests: int, input: int, read: int, creation: int) {
    function Plus(o: Counts): Counts {
      Counts(requests + o.requests, input + o.input, read + o.read, creation + o.creation)
    }
    function Denominator(): int {
      input + read + creation
    }
    function HitRate(): real {
      if Denominator() > 0 then read as real / Denominator() as real else 0.0
    }
  }

  const ZERO := Counts(0, 0, 0, 0)

  datatype Group = Group(id: int, info: GroupInfo, counts: Counts, hitRate: real)

  datatype Stats = Stats(counts: Counts, hitRate: real, groups: seq<Group>)

  // ----- What is to be computed -----

  function One(r: Record): Counts {
    Counts(1, r.input, r.read, r.creation)
  }

  function Total(records: seq<Record>): Counts {
    if records == [] then ZERO else Total(records[..|records| - 1]).Plus(One(records[|records| - 1]))
  }

  function Tally(records: seq<Record>, id: int): Counts {
    if records == [] then ZERO
    else
      var t, last := Tally(records[..|records| - 1], id), records[|records| - 1];
      if last.groupID == id then t.Plus(One(last)) else t
  }

  /** The last group object seen gives name and multiplier. */
  function Info(records: seq<Record>, id: int): GroupInfo {
    if records == [] then GroupInfo("", 0.0)
    else
      var last := records[|records| - 1];
      if last.groupID == id && last.group.Some? then last.group.value else Info(records[..|records| - 1], id)
  }

  function Ids(records: seq<Record>): set<int> {
    set r | r in records :: r.groupID
  }

  function Entry(records: seq<Record>, id: int): Group {
    Group(id, Info(records, id), Tally(records, id), Tally(records, id).HitRate())
  }

  /** The integer fields of an entry. */
  datatype Key = Key(id: int, counts: Counts)

  function KeyOf(g: Group): Key {
    Key(g.id, g.counts)
  }

  function Keys(groups: seq<Group>): seq<Key> {
    seq(|groups|, i requires 0 <= i < |groups| => KeyOf(groups[i]))
  }

  /** Most requests first, then smallest id. */
  predicate Before(a: Key, b: Key) {
    if a.counts.requests != b.counts.requests then a.counts.requests > b.counts.requests else a.id < b.id
  }

  ghost predicate Strict(keys: seq<Key>) {
    forall i, j | 0 <= i < j < |keys| :: Before(keys[i], keys[j])
  }

  ghost predicate Ordered(groups: seq<Group>) {
    Strict(Keys(groups))
  }

  lemma OrderedMeans(groups: seq<Group>)
    requires Ordered(groups)
    ensures forall i, j | 0 <= i < j < |groups| ::
              var (a, b) := (groups[i], groups[j]);
              a.counts.requests > b.counts.requests || (a.counts.requests == b.counts.requests && a.id < b.id)
  {
    forall i, j | 0 <= i < j < |groups|
      ensures var (a, b) := (groups[i], groups[j]);
              a.counts.requests > b.counts.requests || (a.counts.requests == b.counts.requests && a.id < b.id)
    {
      assert Before(Keys(groups)[i], Keys(groups)[j]);
    }
  }

  /** One entry per group, in order. */
  ghost predicate IsBreakdown(groups: seq<Group>, records: seq<Record>) {
    && Ordered(groups)
    && (forall g | g in groups :: g.id in Ids(records) && g == Entry(records, g.id))
    && (forall id | id in Ids(records) :: Entry(records, id) in groups)
  }

  // ----- What the counters mean -----

  ghost function SumOf(records: seq<Record>, f: Record -> int): int {
    if records == [] then 0 else SumOf(records[..|records| - 1], f) + f(records[|records| - 1])
  }

  /** The records of one group. */
  ghost function Of(records: seq<Record>, id: int): seq<Record> {
    if records == [] then []
    else
      var own, last := Of(records[..|records| - 1], id), records[|records| - 1];
      if last.groupID == id then own + [last] else own
  }

  /** Each counter is the sum of that token count over the records, and the rate is the share
      of tokens read from the cache. */
  ghost predicate Reports(c: Counts, rate: real, records: seq<Record>) {
    && c.requests == |records|
    && c.input == SumOf(records, (r: Record) => r.input)
    && c.read == SumOf(records, (r: Record) => r.read)
    && c.creation == SumOf(records, (r: Record) => r.creation)
    && var tokens := c.input + c.read + c.creation;
       if tokens > 0 then rate * tokens as real == c.read as real else rate == 0.0
  }

  lemma {:induction false} TotalCounts(records: seq<Record>)
    ensures var c := Total(records);
            && c.requests == |records|
            && c.input == SumOf(records, (r: Record) => r.input)
            && c.read == SumOf(records, (r: Record) => r.read)
            && c.creation == SumOf(records, (r: Record) => r.creation)
  {
    if records != [] {
      TotalCounts(records[..|records| - 1]);
    }
  }

  lemma RateReports(c: Counts)
    ensures var tokens := c.input + c.read + c.creation;
            if tokens > 0 then c.HitRate() * tokens as real == c.read as real else c.HitRate() == 0.0
  {
  }

  lemma TotalReports(records: seq<Record>)
    ensures Reports(Total(records), Total(records).HitRate(), records)
  {
    TotalCounts(records);
    RateReports(Total(records));
  }

  /** A group's tally is the total over its own records. */
  lemma {:induction false} TallyIsTotal(records: seq<Record>, id: int)
    ensures Tally(records, id) == Total(Of(records, id))
  {
    if records != [] {
      var init, last := records[..|records| - 1], records[|records| - 1];
      TallyIsTotal(init, id);
      assert (Of(init, id) + [last])[..|Of(init, id)|] == Of(init, id);
    }
  }

  /** Of keeps exactly the group's records, in order. */
  lemma {:induction false} OfKeeps(records: seq<Record>, id: int)
    ensures forall r :: multiset(Of(records, id))[r] == if r.groupID == id then multiset(records)[r] else 0
  {
    if records != [] {
      OfKeeps(records[..|records| - 1], id);
      assert records == records[..|records| - 1] + [records[|records| - 1]];
    }
  }

  /** Record i is the group's last one that carries a group. */
  ghost predicate Names(records: seq<Record>, id: int, i: nat) {
    && i < |records| && records[i].groupID == id && records[i].group.Some?
    && forall j | i < j < |records| && records[j].groupID == id :: records[j].group == None
  }

  /** It gives name and multiplier, if there is one. */
  lemma {:induction false} InfoIsLast(records: seq<Record>, id: int)
    ensures forall i: nat | Names(records, id, i) :: records[i].group == Some(Info(records, id))
    ensures (forall i | 0 <= i < |records| && records[i].groupID == id :: records[i].group == None) ==>
              Info(records, id) == GroupInfo("", 0.0)
  {
    if records != [] {
      var init := records[..|records| - 1];
      InfoIsLast(init, id);
      assert forall i: nat | Names(records, id, i) && i < |init| :: Names(init, id, i);
      assert forall i | 0 <= i < |init| :: init[i] == records[i];
    }
  }

  // ----- The code -----

  class GroupAcc {
    var info: GroupInfo
    var counts: Counts

    constructor ()
      ensures info == GroupInfo("", 0.0) && counts == ZERO
    {
      info, counts := GroupInfo("", 0.0), ZERO;
    }

    method Add(r: Record)
      modifies this
      ensures counts == old(counts).Plus(One(r))
      ensures info == if r.group.Some? then r.group.value else old(info)
    {
      counts := Counts(counts.requests + 1, counts.input + r.input, counts.read + r.read, counts.creation + r.creation);
      if r.group.Some? {
        info := r.group.value;
      }
    }
  }

  ghost predicate Holds(acc: GroupAcc, records: seq<Record>, id: int)
    reads acc
  {
    acc.info == Info(records, id) && acc.counts == Tally(records, id)
  }

  lemma AddedRecord(records: seq<Record>, r: Record)
    ensures (records + [r])[..|records|] == records
    ensures Ids(records + [r]) == Ids(records) + {r.groupID}
    ensures Total(records + [r]) == Total(records).Plus(One(r))
  {
  }

  lemma AddedTally(records: seq<Record>, r: Record, id: int)
    ensures Tally(records + [r], id) ==
            if r.groupID == id then Tally(records, id).Plus(One(r)) else Tally(records, id)
    ensures Info(records + [r], id) ==
            if r.groupID == id && r.group.Some? then r.group.value else Info(records, id)
  {
  }

  lemma {:induction false} UnseenId(records: seq<Record>, id: int)
    requires id !in Ids(records)
    ensures Tally(records, id) == ZERO && Info(records, id) == GroupInfo("", 0.0)
  {
    if records != [] {
      var init, last := records[..|records| - 1], records[|records| - 1];
      AddedRecord(init, last);
      assert records == init + [last];
      UnseenId(init, id);
    }
  }

  /** The first loop. */
  method Accumulate(records: seq<Record>) returns (total: Counts, groups: map<int, GroupAcc>)
    ensures total == Total(records) && groups.Keys == Ids(records)
    ensures forall id | id in groups :: fresh(groups[id]) && Holds(groups[id], records, id)
  {
    total, groups := ZERO, map[];
    for i := 0 to |records|
      invariant total == Total(records[..i]) && groups.Keys == Ids(records[..i])
      invariant forall id | id in groups :: fresh(groups[id]) && Holds(groups[id], records[..i], id)
      invariant forall id, id' | id in groups && id' in groups && id != id' :: groups[id] != groups[id']
    {
      var r := records[i];
      AddedRecord(records[..i], r);
      assert records[..i + 1] == records[..i] + [r];
      total := Counts(total.requests + 1, total.input + r.input, total.read + r.read, total.creation + r.creation);
      if r.groupID !in groups {
        UnseenId(records[..i], r.groupID);
        var acc := new GroupAcc();
        groups := groups[r.groupID := acc];
      }
      groups[r.groupID].Add(r);
      forall id | id in groups
        ensures fresh(groups[id]) && Holds(groups[id], records[..i + 1], id)
      {
        AddedTally(records[..i], r, id);
      }
    }
    assert records[..|records|] == records;
  }

  /** sort.Slice: the order is strict, so every sort gives the same result. */
  function Insert(g: Group, groups: seq<Group>): seq<Group> {
    if groups == [] || Before(KeyOf(g), KeyOf(groups[0])) then [g] + groups else [groups[0]] + Insert(g, groups[1..])
  }

  lemma {:induction false} InsertOrders(g: Group, groups: seq<Group>)
    requires Ordered(groups) && forall h | h in groups :: h.id != g.id
    ensures Ordered(Insert(g, groups))
    ensures forall h :: h in Insert(g, groups) <==> h == g || h in groups
  {
    if groups == [] {
    } else if Before(KeyOf(g), KeyOf(groups[0])) {
      AheadOf(g, groups);
    } else {
      assert groups == [groups[0]] + groups[1..];
      assert Keys(groups[1..]) == Keys(groups)[1..];
      InsertOrders(g, groups[1..]);
      forall h | h in groups[1..]
        ensures Before(KeyOf(groups[0]), KeyOf(h))
      {
        var i :| 0 <= i < |groups[1..]| && groups[1..][i] == h;
        assert Before(Keys(groups)[0], Keys(groups)[i + 1]);
      }
      OnFront(groups[0], Insert(g, groups[1..]));
    }
  }

  lemma AheadOf(g: Group, groups: seq<Group>)
    requires Ordered(groups) && groups != [] && Before(KeyOf(g), KeyOf(groups[0]))
    ensures Ordered([g] + groups)
  {
    forall h | h in groups
      ensures Before(KeyOf(g), KeyOf(h))
    {
      var i :| 0 <= i < |groups| && groups[i] == h;
      assert i > 0 ==> Before(Keys(groups)[0], Keys(groups)[i]);
    }
    OnFront(g, groups);
  }

  lemma OnFront(g: Group, groups: seq<Group>)
    requires Ordered(groups) && forall h | h in groups :: Before(KeyOf(g), KeyOf(h))
    ensures Ordered([g] + groups)
  {
    assert Keys([g] + groups) == [KeyOf(g)] + Keys(groups);
    assert forall i | 0 <= i < |groups| :: Keys(groups)[i] == KeyOf(groups[i]) && groups[i] in groups;
  }

  method Breakdown(records: seq<Record>, accs: map<int, GroupAcc>) returns (groups: seq<Group>)
    requires accs.Keys == Ids(records) && forall id | id in accs :: Holds(accs[id], records, id)
    ensures IsBreakdown(groups, records)
  {
    groups := [];
    var todo := accs.Keys;
    while todo != {}
      invariant todo <= accs.Keys && Ordered(groups)
      invariant forall g | g in groups :: g.id in accs.Keys - todo && g == Entry(records, g.id)
      invariant forall id | id in accs.Keys - todo :: Entry(records, id) in groups
      decreases todo
    {
      var id :| id in todo;
      todo := todo - {id};
      var acc := accs[id];
      var g := Group(id, acc.info, acc.counts, acc.counts.HitRate());
      InsertOrders(g, groups);
      groups := Insert(g, groups);
    }
  }

  method AggregateUsageCacheStats(records: seq<Record>) returns (stats: Stats)
    ensures stats.counts == Total(records) && stats.hitRate == Total(records).HitRate()
    ensures IsBreakdown(stats.groups, records)
    ensures Reports(stats.counts, stats.hitRate, records)
    ensures forall g | g in stats.groups :: Reports(g.counts, g.hitRate, Of(records, g.id))
    ensures forall i, j | 0 <= i < j < |stats.groups| ::
              var (a, b) := (stats.groups[i], stats.groups[j]);
              a.counts.requests > b.counts.requests || (a.counts.requests == b.counts.requests && a.id < b.id)
  {
    var total, accs := Accumulate(records);
    var groups := Breakdown(records, accs);
    stats := Stats(total, total.HitRate(), groups);
    TotalReports(records);
    forall g | g in groups
      ensures Reports(g.counts, g.hitRate, Of(records, g.id))
    {
      TallyIsTotal(records, g.id);
      TotalReports(Of(records, g.id));
    }
    OrderedMeans(groups);
  }

  // ----- Conservation -----

  function SumGroups(groups: seq<Group>): Counts {
    if groups == [] then ZERO else groups[0].counts.Plus(SumGroups(groups[1..]))
  }

  function SumTallies(groups: seq<Group>, records: seq<Record>): Counts {
    if groups == [] then ZERO else Tally(records, groups[0].id).Plus(SumTallies(groups[1..], records))
  }

  ghost predicate DistinctIds(groups: seq<Group>) {
    forall i, j | 0 <= i < j < |groups| :: groups[i].id != groups[j].id
  }

  /** Adding a record adds it to exactly one group's tally. */
  lemma {:induction false} SumOneMore(groups: seq<Group>, records: seq<Record>, r: Record)
    requires DistinctIds(groups)
    ensures SumTallies(groups, records + [r]) ==
            if HasId(groups, r.groupID) then SumTallies(groups, records).Plus(One(r))
            else SumTallies(groups, records)
  {
    AddedRecord(records, r);
    if groups != [] {
      SumOneMore(groups[1..], records, r);
      assert groups == [groups[0]] + groups[1..];
    }
  }

  ghost predicate HasId(groups: seq<Group>, id: int) {
    exists g :: g in groups && g.id == id
  }

  lemma {:induction false} SumIsTotal(groups: seq<Group>, records: seq<Record>)
    requires DistinctIds(groups) && forall r | r in records :: HasId(groups, r.groupID)
    ensures SumTallies(groups, records) == Total(records)
  {
    if records == [] {
      SumOfNothing(groups);
    } else {
      var init, last := records[..|records| - 1], records[|records| - 1];
      SumIsTotal(groups, init);
      SumOneMore(groups, init, last);
      assert last in records && records == init + [last];
    }
  }

  lemma {:induction false} SumOfNothing(groups: seq<Group>)
    ensures SumTallies(groups, []) == ZERO
  {
    if groups != [] {
      SumOfNothing(groups[1..]);
    }
  }

  lemma {:induction false} TalliesAreCounts(groups: seq<Group>, records: seq<Record>)
    requires forall g | g in groups :: g.counts == Tally(records, g.id)
    ensures SumTallies(groups, records) == SumGroups(groups)
  {
    if groups != [] {
      TalliesAreCounts(groups[1..], records);
    }
  }

  /** The groups add up to the totals, in every counter. */
  lemma GroupsAddUp(groups: seq<Group>, records: seq<Record>)
    requires IsBreakdown(groups, records)
    ensures SumGroups(groups) == Total(records)
  {
    forall r | r in records
      ensures HasId(groups, r.groupID)
    {
      assert Entry(records, r.groupID).id == r.groupID;
    }
    forall i, j | 0 <= i < j < |groups|
      ensures groups[i].id != groups[j].id
    {
      assert Before(Keys(groups)[i], Keys(groups)[j]);
      assert groups[i] in groups && groups[j] in groups;
    }
    SumIsTotal(groups, records);
    TalliesAreCounts(groups, records);
  }

  // ----- Record order -----

  lemma {:induction false} TallyRemove(records: seq<Record>, k: nat, id: int)
    requires k < |records|
    ensures var rest := records[..k] + records[k + 1..];
            Tally(records, id) ==
            if records[k].groupID == id then Tally(rest, id).Plus(One(records[k])) else Tally(rest, id)
  {
    var rest := records[..k] + records[k + 1..];
    if k == |records| - 1 {
      assert rest == records[..k];
    } else {
      var init, n := records[..|records| - 1], |rest| - 1;
      TallyRemove(init, k, id);
      assert rest[..n] == init[..k] + init[k + 1..];
      assert rest[n] == records[|records| - 1];
    }
  }

  /** A group's counters do not depend on the order of the records. */
  lemma {:induction false} TallyOrderFree(records: seq<Record>, other: seq<Record>, id: int)
    requires multiset(records) == multiset(other)
    ensures Tally(records, id) == Tally(other, id)
    decreases |other|
  {
    assert |multiset(records)| == |multiset(other)|;
    if other != [] {
      var init, last := other[..|other| - 1], other[|other| - 1];
      assert other == init + [last];
      assert last in multiset(other);
      var k :| 0 <= k < |records| && records[k] == last;
      var rest := records[..k] + records[k + 1..];
      SameRest(records, k, init);
      TallyOrderFree(rest, init, id);
      TallyRemove(records, k, id);
    }
  }

  lemma SameIds(records: seq<Record>, other: seq<Record>)
    requires multiset(records) == multiset(other)
    ensures Ids(records) == Ids(other)
  {
    assert forall r :: r in records <==> r in multiset(records);
    assert forall r :: r in other <==> r in multiset(other);
  }

  lemma SameRest(records: seq<Record>, k: nat, init: seq<Record>)
    requires k < |records| && multiset(records) == multiset(init + [records[k]])
    ensures multiset(records[..k] + records[k + 1..]) == multiset(init)
  {
    var a, b, r := records[..k], records[k + 1..], records[k];
    assert records == a + ([r] + b);
    assert multiset(records) == multiset(a) + multiset{r} + multiset(b);
    assert multiset(init + [r]) == multiset(init) + multiset{r};
    assert multiset(a + b) == multiset(records) - multiset{r};
  }

  lemma SameHead(a: seq<Key>, b: seq<Key>)
    requires Strict(a) && Strict(b) && a != [] && b != [] && a[0] in b && b[0] in a
    ensures a[0] == b[0]
  {
  }

  lemma TailMembers(a: seq<Key>, x: Key)
    requires Strict(a) && a != []
    ensures x in a[1..] <==> x in a && x != a[0]
  {
  }

  /** Two strictly ordered listings of the same keys are the same listing. */
  lemma {:induction false} StrictUnique(a: seq<Key>, b: seq<Key>)
    requires Strict(a) && Strict(b) && forall k :: k in a <==> k in b
    ensures a == b
  {
    if a == [] {
      assert forall i | 0 <= i < |b| :: b[i] in b;
    } else {
      assert a[0] in a && a[0] in b && b[0] in b;
      SameHead(a, b);
      forall x
        ensures x in a[1..] <==> x in b[1..]
      {
        TailMembers(a, x);
        TailMembers(b, x);
      }
      StrictUnique(a[1..], b[1..]);
      assert a == [a[0]] + a[1..] && b == [b[0]] + b[1..];
    }
  }

  lemma KeysOfBreakdown(groups: seq<Group>, records: seq<Record>, key: Key)
    requires IsBreakdown(groups, records)
    ensures key in Keys(groups) <==> key.id in Ids(records) && key.counts == Tally(records, key.id)
  {
    if key in Keys(groups) {
      var i :| 0 <= i < |groups| && Keys(groups)[i] == key;
      assert groups[i] in groups;
    }
    if key.id in Ids(records) && key.counts == Tally(records, key.id) {
      var i :| 0 <= i < |groups| && groups[i] == Entry(records, key.id);
      assert Keys(groups)[i] == key;
    }
  }

  /** The groups, their order and their counters do not depend on the order of the records;
      only name and multiplier may. */
  lemma BreakdownOrderFree(groups: seq<Group>, records: seq<Record>, groups': seq<Group>, records': seq<Record>)
    requires IsBreakdown(groups, records) && IsBreakdown(groups', records')
    requires multiset(records) == multiset(records')
    ensures Keys(groups) == Keys(groups')
  {
    forall key
      ensures key in Keys(groups) <==> key in Keys(groups')
    {
      KeysOfBreakdown(groups, records, key);
      KeysOfBreakdown(groups', records', key);
      SameIds(records, records');
      TallyOrderFree(records, records', key.id);
    }
    StrictUnique(Keys(groups), Keys(groups'));
  }

  // ----- The overall rate is a mediant -----

  ghost predicate NonNegative(c: Counts) {
    c.input >= 0 && c.read >= 0 && c.creation >= 0
  }

  lemma {:induction false} TallyNonNegative(records: seq<Record>, id: int)
    requires forall r | r in records :: NonNegative(One(r))
    ensures NonNegative(Tally(records, id))
  {
    if records != [] {
      TallyNonNegative(records[..|records| - 1], id);
    }
  }

  /** If every group with tokens is on one side of the rate n/d, so is their sum. */
  lemma {:induction false} SumAbove(groups: seq<Group>, n: int, d: int)
    requires forall g | g in groups :: NonNegative(g.counts) && g.counts.read * d >= n * g.counts.Denominator()
    ensures SumGroups(groups).read * d >= n * SumGroups(groups).Denominator()
    ensures (exists g :: g in groups && g.counts.read * d > n * g.counts.Denominator()) ==>
              SumGroups(groups).read * d > n * SumGroups(groups).Denominator()
  {
    if groups != [] {
      SumAbove(groups[1..], n, d);
      var a, b := groups[0].counts, SumGroups(groups[1..]);
      assert (a.read + b.read) * d == a.read * d + b.read * d;
      assert n * (a.Denominator() + b.Denominator()) == n * a.Denominator() + n * b.Denominator();
      assert groups[0] in groups;
      assert forall g | g in groups :: g == groups[0] || g in groups[1..];
    }
  }

  lemma {:induction false} SumPositive(groups: seq<Group>)
    requires SumGroups(groups).Denominator() > 0
    ensures exists g :: g in groups && g.counts.Denominator() > 0
  {
    if groups[0].counts.Denominator() > 0 {
      assert groups[0] in groups;
    } else {
      SumPositive(groups[1..]);
      var g :| g in groups[1..] && g.counts.Denominator() > 0;
      assert g in groups;
    }
  }

  lemma RateOrder(a: Counts, b: Counts)
    requires a.Denominator() > 0 && b.Denominator() > 0
    ensures a.HitRate() <= b.HitRate() <==> a.read * b.Denominator() <= b.read * a.Denominator()
  {
  }

  ghost predicate HasTokens(groups: seq<Group>, g: Group) {
    g in groups && g.counts.Denominator() > 0
  }

  /** The rate is at most n/d, cross-multiplied. */
  predicate AtMost(c: Counts, n: int, d: int) {
    c.read * d <= n * c.Denominator()
  }

  /** Not every group can be strictly on one side of the overall rate. */
  lemma NotAllOnOneSide(groups: seq<Group>, n: int, d: int) returns (g: Group)
    requires forall g | g in groups :: NonNegative(g.counts)
    requires SumGroups(groups).Denominator() > 0
    requires SumGroups(groups).read * d == n * SumGroups(groups).Denominator()
    ensures HasTokens(groups, g) && AtMost(g.counts, n, d)
  {
    SumPositive(groups);
    if forall g | HasTokens(groups, g) :: !AtMost(g.counts, n, d) {
      forall g | g in groups
        ensures g.counts.read * d >= n * g.counts.Denominator()
        ensures g.counts.Denominator() > 0 ==> g.counts.read * d > n * g.counts.Denominator()
      {
        if g.counts.Denominator() == 0 {
          assert g.counts.read == 0;
        } else {
          assert HasTokens(groups, g);
        }
      }
      SumAbove(groups, n, d);
    }
    g :| HasTokens(groups, g) && AtMost(g.counts, n, d);
  }

  lemma LowGroup(groups: seq<Group>, t: Counts) returns (g: Group)
    requires (forall g | g in groups :: NonNegative(g.counts)) && SumGroups(groups) == t && t.Denominator() > 0
    ensures HasTokens(groups, g) && g.counts.HitRate() <= t.HitRate()
  {
    g := NotAllOnOneSide(groups, t.read, t.Denominator());
    RateOrder(g.counts, t);
  }

  lemma HighGroup(groups: seq<Group>, t: Counts) returns (g: Group)
    requires (forall g | g in groups :: NonNegative(g.counts)) && SumGroups(groups) == t && t.Denominator() > 0
    ensures HasTokens(groups, g) && g.counts.HitRate() >= t.HitRate()
  {
    Negated(t.read, t.Denominator());
    g := NotAllOnOneSide(groups, -t.read, -t.Denominator());
    Negated(g.counts.read, t.Denominator());
    Negated(t.read, g.counts.Denominator());
    RateOrder(t, g.counts);
  }

  lemma Negated(x: int, y: int)
    ensures x * (-y) == -(x * y) == (-x) * y
  {
  }

  /** Some group with tokens has a hit rate at most, and some at least, the overall one. */
  lemma OverallRateIsMediant(groups: seq<Group>, records: seq<Record>)
    requires IsBreakdown(groups, records) && forall r | r in records :: NonNegative(One(r))
    requires Total(records).Denominator() > 0
    ensures exists g :: HasTokens(groups, g) && g.hitRate <= Total(records).HitRate()
    ensures exists g :: HasTokens(groups, g) && g.hitRate >= Total(records).HitRate()
  {
    GroupsAddUp(groups, records);
    forall g | g in groups
      ensures NonNegative(g.counts)
    {
      TallyNonNegative(records, g.id);
    }
    var low := LowGroup(groups, Total(records));
    var high := HighGroup(groups, Total(records));
  }
}
