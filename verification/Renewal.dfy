/** Local subscription expiry after package purchases, backend/internal/httpapi/routes.go
    lines 7952 to 8021. Times are nanoseconds; a stored expiry has whole seconds. */
module Renewal {
  import opened Common

  const SECOND := 1_000_000_000
  const DAY := 86_400 * SECOND

  /** A time column as read back: parseSubscriptionTime may fail. */
  datatype Stamp = Unreadable | At(time: int)

  datatype Package = Package(tier: string, isDays: bool, days: int)

  datatype Row = Row(tier: string, startedAt: Stamp, expiresAt: Option<Stamp>)

  /** What RFC3339 formatting keeps of a time. */
  function Whole(t: int): int {
    t / SECOND * SECOND
  }

  function Max(a: int, b: int): int {
    if a < b then b else a
  }

  /** Where the bought days start to count. */
  function Base(row: Row, days: int, now: int, extend: bool): int {
    var start := if row.startedAt.At? then row.startedAt.time else now;
    if !extend then start
    else
      var ahead :=
        match row.expiresAt
        case Some(At(t)) => Max(start, t)
        case Some(Unreadable) => start
        case None => if row.startedAt.At? then Max(start, start + days * DAY) else start;
      Max(ahead, now)
  }

  function Updated(row: Row, pkg: Package, now: int, extend: bool): Row {
    if !pkg.isDays || pkg.days <= 0 then row
    else row.(expiresAt := Some(At(Whole(Base(row, pkg.days, now, extend) + pkg.days * DAY))))
  }

  ghost predicate Latest(t: int, times: set<int>) {
    t in times && forall other | other in times :: other <= t
  }

  /** Where a renewal may count from: the start of the row, now, and the end of what was
      paid, which is taken to be one period when nothing is recorded. */
  ghost function Candidates(row: Row, days: int, now: int): set<int> {
    {now}
    + (if row.startedAt.At? then {row.startedAt.time} else {})
    + (match row.expiresAt
       case Some(At(t)) => {t}
       case Some(Unreadable) => {}
       case None => if row.startedAt.At? then {row.startedAt.time + days * 86_400 * 1_000_000_000} else {})
  }

  /** A days package sets the expiry alone, to whole seconds: its days after the start of a
      new row, or after the latest point a renewal may count from. */
  lemma UpdatedIs(row: Row, pkg: Package, now: int, extend: bool) returns (base: int)
    ensures !pkg.isDays || pkg.days <= 0 ==> Updated(row, pkg, now, extend) == row
    ensures pkg.isDays && pkg.days > 0 ==>
              var expiry := Updated(row, pkg, now, extend).expiresAt;
              && Updated(row, pkg, now, extend) == Row(row.tier, row.startedAt, expiry)
              && expiry.Some? && expiry.value.At? && expiry.value.time % 1_000_000_000 == 0
              && 0 <= base + pkg.days * 86_400 * 1_000_000_000 - expiry.value.time < 1_000_000_000
              && (!extend ==> base == if row.startedAt.At? then row.startedAt.time else now)
              && (extend ==> Latest(base, Candidates(row, pkg.days, now)))
  {
    base := Base(row, pkg.days, now, extend);
    WholeIs(base + pkg.days * DAY);
  }

  lemma WholeIs(t: int)
    ensures Whole(t) % SECOND == 0 && 0 <= t - Whole(t) < SECOND
  {
  }

  class Subscription {
    var tier: string
    var startedAt: Stamp
    var expiresAt: Option<Stamp>

    /** INSERT of createOrReplaceSubscription. */
    constructor (tier: string, now: int)
      ensures View() == Row(tier, At(now), None)
    {
      this.tier, startedAt, expiresAt := tier, At(now), None;
    }

    function View(): Row
      reads this
    {
      Row(tier, startedAt, expiresAt)
    }

    /** `found` is false when the SELECT fails; `write` is the fate of the UPDATE. */
    method UpdateLocalPackageSubscriptionExpiry(pkg: Package, now: int, extend: bool, found: bool, write: Write)
      returns (ok: bool)
      modifies this
      ensures var touched := pkg.isDays && pkg.days > 0;
              && ok == (!touched || (found && write.Acked?))
              && View() == if found && write.Lands() then Updated(old(View()), pkg, now, extend) else old(View())
    {
      if !pkg.isDays || pkg.days <= 0 {
        return true;
      }
      if !found {
        return false;
      }
      var base := if startedAt.At? then startedAt.time else now;
      if extend {
        if expiresAt.Some? {
          if expiresAt.value.At? && expiresAt.value.time > base {
            base := expiresAt.value.time;
          }
        } else if startedAt.At? {
          var calculatedExpiry := startedAt.time + pkg.days * DAY;
          if calculatedExpiry > base {
            base := calculatedExpiry;
          }
        }
        if now > base {
          base := now;
        }
      }
      if write.Lands() {
        expiresAt := Some(At(Whole(base + pkg.days * DAY)));
      }
      ok := write.Acked?;
    }
  }

  // ----- One user's purchases -----

  /** `created` is the stamp a new subscription row would get. */
  datatype Purchase = Purchase(pkg: Package, created: int, now: int, write: Write)

  /** ensureActiveSubscriptionForUser, then the expiry update. */
  function Bought(row: Option<Row>, p: Purchase): Row {
    var existed := row.Some? && row.value.tier == p.pkg.tier;
    var ensured := if existed then row.value else Row(p.pkg.tier, At(p.created), None);
    if p.write.Lands() then Updated(ensured, p.pkg, p.now, existed) else ensured
  }

  function AfterPurchases(row: Option<Row>, ps: seq<Purchase>): Option<Row> {
    if ps == [] then row
    else Some(Bought(AfterPurchases(row, ps[..|ps| - 1]), ps[|ps| - 1]))
  }

  /** The first purchase counts from its row's start, the others from their own time. */
  function From(ps: seq<Purchase>, i: nat): int
    requires i < |ps|
  {
    Whole(if i == 0 then ps[0].created else ps[i].now)
  }

  function PaidFrom(ps: seq<Purchase>, i: nat): int
    requires i <= |ps|
    decreases |ps|
  {
    if i == |ps| then 0 else PaidFrom(ps[..|ps| - 1], i) + ps[|ps| - 1].pkg.days * DAY
  }

  ghost predicate SameTier(ps: seq<Purchase>, tier: string) {
    forall p | p in ps :: Days(p, tier)
  }

  function ExpiryOf(ps: seq<Purchase>): int
    requires ps != []
  {
    var last := ps[|ps| - 1];
    (if |ps| == 1 then Whole(last.created) else Max(ExpiryOf(ps[..|ps| - 1]), Whole(last.now)))
    + last.pkg.days * DAY
  }

  predicate Days(p: Purchase, tier: string) {
    p.pkg.tier == tier && p.pkg.isDays && p.pkg.days > 0 && p.write.Lands()
  }

  function Running(tier: string, started: int, expiry: int): Row {
    Row(tier, At(started), Some(At(expiry)))
  }

  lemma FirstPurchase(before: Option<Row>, p: Purchase, tier: string)
    requires Days(p, tier) && (before.Some? ==> before.value.tier != tier)
    ensures var e := Whole(p.created) + p.pkg.days * DAY;
            Bought(before, p) == Running(tier, p.created, e) && Whole(e) == e && e >= p.created
  {
  }

  lemma NextPurchase(tier: string, started: int, expiry: int, p: Purchase)
    requires Days(p, tier) && started <= expiry && Whole(expiry) == expiry
    ensures var e := Max(expiry, Whole(p.now)) + p.pkg.days * DAY;
            && Bought(Some(Running(tier, started, expiry)), p) == Running(tier, started, e)
            && Whole(e) == e && e >= started
  {
  }

  lemma {:induction false} RunExpiry(ps: seq<Purchase>, tier: string, before: Option<Row>)
    requires ps != [] && SameTier(ps, tier) && (before.Some? ==> before.value.tier != tier)
    ensures AfterPurchases(before, ps) == Some(Running(tier, ps[0].created, ExpiryOf(ps)))
    ensures ExpiryOf(ps) >= ps[0].created && Whole(ExpiryOf(ps)) == ExpiryOf(ps)
  {
    var init, last := ps[..|ps| - 1], ps[|ps| - 1];
    assert last in ps;
    if |ps| == 1 {
      assert AfterPurchases(before, init) == before;
      FirstPurchase(before, last, tier);
    } else {
      RunExpiry(init, tier, before);
      NextPurchase(tier, ps[0].created, ExpiryOf(init), last);
    }
  }

  lemma {:induction false} ClosedForm(ps: seq<Purchase>)
    requires ps != [] && forall p | p in ps :: p.pkg.days > 0
    ensures forall i | 0 <= i < |ps| :: ExpiryOf(ps) >= From(ps, i) + PaidFrom(ps, i)
    ensures exists i :: 0 <= i < |ps| && ExpiryOf(ps) == From(ps, i) + PaidFrom(ps, i)
  {
    var init, last, n := ps[..|ps| - 1], ps[|ps| - 1], |ps| - 1;
    assert PaidFrom(ps, n) == last.pkg.days * DAY;
    if n > 0 {
      ClosedForm(init);
      forall i | 0 <= i < n
        ensures From(ps, i) + PaidFrom(ps, i) == From(init, i) + PaidFrom(init, i) + last.pkg.days * DAY
      {
      }
    }
  }

  /** After same-tier purchases the expiry is the largest, over all of them, of the time of
      purchase plus all days paid from then on: days never lapse while paid for. */
  lemma RenewalClosedForm(ps: seq<Purchase>, tier: string, before: Option<Row>)
    requires ps != [] && SameTier(ps, tier) && (before.Some? ==> before.value.tier != tier)
    ensures var row := AfterPurchases(before, ps);
            && row.Some? && row.value.expiresAt.Some? && row.value.expiresAt.value.At?
            && (forall i | 0 <= i < |ps| :: row.value.expiresAt.value.time >= From(ps, i) + PaidFrom(ps, i))
            && (exists i :: 0 <= i < |ps| && row.value.expiresAt.value.time == From(ps, i) + PaidFrom(ps, i))
  {
    RunExpiry(ps, tier, before);
    ClosedForm(ps);
  }

  /** From any row with a readable expiry, a renewal adds at least its days to what was left
      and at least its days to today, and never more than both allow. */
  lemma RenewalLosesNothing(row: Row, p: Purchase, expiry: int)
    requires row.expiresAt == Some(At(expiry)) && row.tier == p.pkg.tier && Whole(expiry) == expiry
    requires p.pkg.isDays && p.pkg.days > 0
    ensures var r := Bought(Some(row), p);
            if !p.write.Lands() then r == row
            else
              && r.expiresAt.Some? && r.expiresAt.value.At?
              && r.expiresAt.value.time >= Max(expiry, Whole(p.now)) + p.pkg.days * DAY
              && (row.startedAt == Unreadable || row.startedAt.time <= Max(expiry, p.now) ==>
                    r.expiresAt.value.time == Max(expiry, Whole(p.now)) + p.pkg.days * DAY)
  {
  }

  // ----- One payment, delivered or retried any number of times -----

  /** The attempts at one payment of a days package: an attempt that ends before its result
      is recorded, by a crash say, is followed by another when the payment is delivered
      again. Each found or created the row, and its expiry write landed or not. */
  ghost predicate OnePayment(attempts: seq<Purchase>, pkg: Package) {
    attempts != [] && pkg.isDays && pkg.days > 0 && forall p | p in attempts :: p.pkg == pkg
  }

  predicate Renews(before: Option<Row>, pkg: Package) {
    before.Some? && before.value.tier == pkg.tier
  }

  function Landed(attempts: seq<Purchase>): nat {
    if attempts == [] then 0
    else Landed(attempts[..|attempts| - 1]) + if attempts[|attempts| - 1].write.Lands() then 1 else 0
  }

  function FirstLanded(attempts: seq<Purchase>): (i: nat)
    requires Landed(attempts) > 0
    ensures i < |attempts|
  {
    var init := attempts[..|attempts| - 1];
    if Landed(init) > 0 then FirstLanded(init) else |attempts| - 1
  }

  /** The expiry the payment is due: one renewal of the row it found, or one period from
      the start of the row it created. */
  function Due(before: Option<Row>, attempts: seq<Purchase>, pkg: Package): Option<Stamp>
    requires Landed(attempts) > 0
  {
    if Renews(before, pkg) then Updated(before.value, pkg, attempts[FirstLanded(attempts)].now, true).expiresAt
    else Some(At(Whole(attempts[0].created) + pkg.days * DAY))
  }

  /** The payment's days count once: the final expiry is the one due. */
  predicate CountedOnce(before: Option<Row>, attempts: seq<Purchase>, pkg: Package) {
    && Landed(attempts) > 0
    && var row := AfterPurchases(before, attempts);
       row.Some? && row.value.expiresAt == Due(before, attempts, pkg)
  }

  lemma WholeDays(a: int, days: int)
    ensures Whole(a + days * DAY) == Whole(a) + days * DAY
  {
  }

  ghost predicate Readable(expiry: Option<Stamp>) {
    expiry.Some? && expiry.value.At? && Whole(expiry.value.time) == expiry.value.time
  }

  /** An extended row has a readable expiry, at least its days after any it had. */
  lemma Extended(row: Row, pkg: Package, now: int)
    requires pkg.isDays && pkg.days > 0
    ensures var r := Updated(row, pkg, now, true);
            && Readable(r.expiresAt)
            && (Readable(row.expiresAt) ==> r.expiresAt.value.time >= row.expiresAt.value.time + pkg.days * DAY)
  {
    WholeDays(Base(row, pkg.days, now, true), pkg.days);
  }

  /** A row without expiry is extended from a full period after its start. */
  lemma ExtendedWithoutExpiry(row: Row, pkg: Package, now: int)
    requires pkg.isDays && pkg.days > 0 && row.startedAt.At? && row.expiresAt == None
    ensures Updated(row, pkg, now, true).expiresAt ==
            Some(At(Max(Whole(row.startedAt.time) + pkg.days * DAY, Whole(now)) + pkg.days * DAY))
  {
    WholeDays(row.startedAt.time, pkg.days);
    WholeDays(Base(row, pkg.days, now, true), pkg.days);
  }

  /** The row after any attempts. */
  ghost predicate Standing(before: Option<Row>, attempts: seq<Purchase>, pkg: Package, row: Row)
    requires attempts != []
  {
    && row.tier == pkg.tier
    && (Landed(attempts) == 0 ==>
          row == if Renews(before, pkg) then before.value else Row(pkg.tier, At(attempts[0].created), None))
    && (Landed(attempts) == 0 ==> !attempts[0].write.Lands())
    && (Landed(attempts) > 0 ==>
          && Readable(row.expiresAt) && Readable(Due(before, attempts, pkg))
          && var (e, due) := (row.expiresAt.value.time, Due(before, attempts, pkg).value.time);
             if Landed(attempts) == 1 && (Renews(before, pkg) || attempts[0].write.Lands()) then e == due
             else e >= due + pkg.days * DAY)
  }

  lemma {:induction false} AttemptsStand(before: Option<Row>, attempts: seq<Purchase>, pkg: Package)
    requires OnePayment(attempts, pkg)
    ensures AfterPurchases(before, attempts).Some?
    ensures Standing(before, attempts, pkg, AfterPurchases(before, attempts).value)
  {
    var init, last := attempts[..|attempts| - 1], attempts[|attempts| - 1];
    assert last in attempts;
    if init == [] {
      assert AfterPurchases(before, init) == before;
      FirstAttempt(before, last);
      assert attempts == [last];
    } else {
      AttemptsStand(before, init, pkg);
      NextAttempt(before, init, last, AfterPurchases(before, init).value);
      assert attempts == init + [last];
    }
  }

  lemma FirstAttempt(before: Option<Row>, p: Purchase)
    requires p.pkg.isDays && p.pkg.days > 0
    ensures Standing(before, [p], p.pkg, Bought(before, p))
  {
    assert [p][..0] == [];
    assert Landed([p]) == if p.write.Lands() then 1 else 0;
    WholeDays(p.created, p.pkg.days);
    if Renews(before, p.pkg) {
      Extended(before.value, p.pkg, p.now);
    }
  }

  lemma LandedNext(before: Option<Row>, init: seq<Purchase>, p: Purchase)
    requires init != []
    ensures var n := Landed(init) + if p.write.Lands() then 1 else 0;
            && Landed(init + [p]) == n
            && (n > 0 ==>
                  Due(before, init + [p], p.pkg) ==
                  if Landed(init) > 0 then Due(before, init, p.pkg)
                  else if Renews(before, p.pkg) then Updated(before.value, p.pkg, p.now, true).expiresAt
                  else Some(At(Whole(init[0].created) + p.pkg.days * DAY)))
  {
    assert (init + [p])[..|init|] == init;
  }

  lemma NextAttempt(before: Option<Row>, init: seq<Purchase>, p: Purchase, row: Row)
    requires init != [] && p.pkg.isDays && p.pkg.days > 0 && Standing(before, init, p.pkg, row)
    ensures Standing(before, init + [p], p.pkg, Bought(Some(row), p))
  {
    LandedNext(before, init, p);
    Extended(row, p.pkg, p.now);
    WholeDays(init[0].created, p.pkg.days);
    if Landed(init) == 0 && !Renews(before, p.pkg) {
      ExtendedWithoutExpiry(row, p.pkg, p.now);
    }
  }

  /** The days of a payment count once exactly when one expiry write of its attempts landed
      and, if an attempt created the row, that write was the first attempt's. Every later
      write that lands adds the days again, and a row left without expiry is taken to have
      run for a full period already. */
  lemma CountedOnceIff(before: Option<Row>, attempts: seq<Purchase>, pkg: Package)
    requires OnePayment(attempts, pkg)
    ensures CountedOnce(before, attempts, pkg) <==>
            Landed(attempts) == 1 && (Renews(before, pkg) || attempts[0].write.Lands())
  {
    AttemptsStand(before, attempts, pkg);
  }

  /** A second attempt at a payment that created its row, whatever became of the first
      expiry write: a full period is added to the first one. The expiry is two periods after
      the start exactly when the attempt comes before the first is over. */
  lemma RetriedNewRow(before: Option<Row>, first: Purchase, retry: Purchase)
    requires !Renews(before, first.pkg)
    requires first.pkg == retry.pkg && first.pkg.isDays && first.pkg.days > 0
    requires retry.write.Lands()
    ensures var row := Bought(Some(Bought(before, first)), retry);
            && row.startedAt == At(first.created)
            && row.expiresAt == Some(At(RetriedExpiry(first, retry)))
    ensures RetriedExpiry(first, retry) == Whole(first.created) + 2 * first.pkg.days * DAY <==>
            Whole(retry.now) <= Whole(first.created) + first.pkg.days * DAY
  {
    if first.write.Lands() {
      FirstPurchase(before, first, first.pkg.tier);
      NextPurchase(first.pkg.tier, first.created, Whole(first.created) + first.pkg.days * DAY, retry);
    } else {
      ExtendedWithoutExpiry(Bought(before, first), first.pkg, retry.now);
    }
  }

  function RetriedExpiry(first: Purchase, retry: Purchase): int {
    var paid := first.pkg.days * DAY;
    Max(Whole(first.created) + paid, Whole(retry.now)) + paid
  }
}
