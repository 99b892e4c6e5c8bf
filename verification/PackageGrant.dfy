/** What a paid package grants upstream, however often its fulfillment is retried:
    executePackagePurchaseFulfillment of backend/internal/httpapi/routes.go and
    EnsureAdminSubscriptionInGroup of backend/internal/proxy/passthrough.go.

    One payment of one user. Any number of attempts run at the same time; each works through
    the package's items in order, every upstream call is one action that may fail, or land
    without the answer arriving, and an attempt can stop anywhere. The upstream applies each
    Idempotency-Key once and subscriptions stay active. Grants of standard groups touch
    neither days nor balance; what concurrent grants do to each other is in GrantRace. */
module PackageGrant {
  import opened Common

  type Tid = nat
  type GroupId = int

  datatype Item =
    | Credit                           // UpdateUserBalance
    | Standard(group: GroupId)         // GrantUserGroup
    | Subscription(group: GroupId)     // EnsureAdminSubscriptionInGroup

  /** The Idempotency-Keys derived from the payment's own key. */
  datatype Key = BalanceKey | AssignKey(g: GroupId) | ExtendKey(g: GroupId)

  datatype Package =
    | Days(days: int, standard: seq<GroupId>, subscription: seq<GroupId>)
    | Balance(amount: int, standard: seq<GroupId>, subscription: seq<GroupId>)

  /** Other packages fail before any call: those without groups, and those that would give a
      subscription group no days. */
  predicate Runnable(pkg: Package) {
    && pkg.standard + pkg.subscription != []
    && (pkg.Days? && pkg.subscription != [] ==> pkg.days > 0)
  }

  function StandardItems(groups: seq<GroupId>): (items: seq<Item>) {
    seq(|groups|, i requires 0 <= i < |groups| => Standard(groups[i]))
  }

  function SubscriptionItems(groups: seq<GroupId>): (items: seq<Item>) {
    seq(|groups|, i requires 0 <= i < |groups| => Subscription(groups[i]))
  }

  /** The calls in the order of the code; a balance package skips its subscription groups. */
  function Work(pkg: Package): seq<Item> {
    match pkg
    case Days(_, standard, subscription) => StandardItems(standard) + SubscriptionItems(subscription)
    case Balance(_, standard, _) => [Credit] + StandardItems(standard)
  }

  /** The user's account upstream. `days` and `credit` count only what this payment gave. */
  datatype Upstream = Upstream(
    applied: set<Key>, active: set<GroupId>, days: map<GroupId, int>, credit: int)

  datatype Pc = Next(i: nat) | Listed(i: nat, isActive: bool)

  datatype State = State(up: Upstream, pcs: map<Tid, Pc>, fulfilled: bool)

  datatype Action =
    | Start(t: Tid)
    | List(t: Tid)                     // ListAdminUserSubscriptions answered
    | Call(t: Tid, w: Write)           // the item's POST
    | Finish(t: Tid)                   // local subscription updated, job fulfilled
    | Stop(t: Tid)                     // any error or crash
    | Activate(group: GroupId)         // another payment's assign

  function Init(active: set<GroupId>): State {
    State(Upstream({}, active, map[], 0), map[], false)
  }

  predicate Enabled(pkg: Package, s: State, a: Action) {
    match a
    case Start(t) => t !in s.pcs && Runnable(pkg)
    case List(t) => t in s.pcs && s.pcs[t].Next? && s.pcs[t].i < |Work(pkg)| && Work(pkg)[s.pcs[t].i].Subscription?
    case Call(t, _) =>
      t in s.pcs && s.pcs[t].i < |Work(pkg)| && (Work(pkg)[s.pcs[t].i].Subscription? <==> s.pcs[t].Listed?)
    case Finish(t) => t in s.pcs && s.pcs[t].Next? && s.pcs[t].i == |Work(pkg)|
    case Stop(t) => t in s.pcs
    case Activate(_) => true
  }

  function DaysOf(up: Upstream, g: GroupId): int {
    if g in up.days then up.days[g] else 0
  }

  function KeyOf(item: Item, isActive: bool): Key
    requires !item.Standard?
  {
    match item
    case Credit => BalanceKey
    case Subscription(g) => if isActive then ExtendKey(g) else AssignKey(g)
  }

  /** The upstream carries out a request whose key it has not seen. */
  function Perform(pkg: Package, up: Upstream, key: Key): Upstream {
    if key in up.applied then up
    else
      var up' := up.(applied := up.applied + {key});
      match key
      case BalanceKey => up'.(credit := up.credit + if pkg.Balance? then pkg.amount else 0)
      case AssignKey(g) => up'.(active := up.active + {g}, days := up.days[g := DaysOf(up, g) + Validity(pkg)])
      case ExtendKey(g) => up'.(days := up.days[g := DaysOf(up, g) + Validity(pkg)])
  }

  function Validity(pkg: Package): int {
    if pkg.Days? then pkg.days else 0
  }

  function Apply(pkg: Package, s: State, a: Action): State
    requires Enabled(pkg, s, a)
  {
    match a
    case Start(t) => s.(pcs := s.pcs[t := Next(0)])
    case List(t) =>
      var i := s.pcs[t].i;
      s.(pcs := s.pcs[t := Listed(i, Work(pkg)[i].group in s.up.active)])
    case Call(t, w) =>
      var pc := s.pcs[t];
      var item := Work(pkg)[pc.i];
      s.(up := if w.Lands() && !item.Standard?
               then Perform(pkg, s.up, KeyOf(item, pc.Listed? && pc.isActive)) else s.up,
         pcs := if w.Acked? then s.pcs[t := Next(pc.i + 1)] else s.pcs - {t})
    case Finish(t) => s.(pcs := s.pcs - {t}, fulfilled := true)
    case Stop(t) => s.(pcs := s.pcs - {t})
    case Activate(g) => s.(up := s.up.(active := s.up.active + {g}))
  }

  ghost function After(pkg: Package, active: set<GroupId>, acts: seq<Action>): Option<State> {
    if acts == [] then Some(Init(active))
    else match After(pkg, active, acts[..|acts| - 1])
         case None => None
         case Some(s) =>
           var a := acts[|acts| - 1];
           if Enabled(pkg, s, a) then Some(Apply(pkg, s, a)) else None
  }

  // ----- The invariant -----

  function One(b: bool): int {
    if b then 1 else 0
  }

  /** The account is exactly what the applied keys say. */
  ghost predicate Ledger(pkg: Package, active0: set<GroupId>, up: Upstream) {
    && up.credit == One(BalanceKey in up.applied) * (if pkg.Balance? then pkg.amount else 0)
    && (forall g ::
          DaysOf(up, g) == (One(AssignKey(g) in up.applied) + One(ExtendKey(g) in up.applied)) * Validity(pkg))
    && (forall g | ExtendKey(g) in up.applied || AssignKey(g) in up.applied || g in active0 :: g in up.active)
    && (forall g | AssignKey(g) in up.applied :: g !in active0)
  }

  predicate DoneItem(item: Item, applied: set<Key>) {
    item.Standard? || KeyOf(item, false) in applied || KeyOf(item, true) in applied
  }

  /** The first n items have been carried out. */
  ghost predicate Done(pkg: Package, applied: set<Key>, n: nat) {
    n <= |Work(pkg)| && forall i | 0 <= i < n :: DoneItem(Work(pkg)[i], applied)
  }

  ghost predicate Progress(pkg: Package, s: State) {
    && (forall t | t in s.pcs :: Done(pkg, s.up.applied, s.pcs[t].i))
    && (s.fulfilled ==> Done(pkg, s.up.applied, |Work(pkg)|))
  }

  /** What an attempt saw in the list decides its key, and stays true. */
  ghost predicate Seen(pkg: Package, active0: set<GroupId>, s: State) {
    forall t | t in s.pcs && s.pcs[t].Listed? ::
      && s.pcs[t].i < |Work(pkg)| && Work(pkg)[s.pcs[t].i].Subscription?
      && var g := Work(pkg)[s.pcs[t].i].group;
         if s.pcs[t].isActive then g in s.up.active else g !in active0
  }

  ghost predicate Inv(pkg: Package, active0: set<GroupId>, s: State) {
    Ledger(pkg, active0, s.up) && Progress(pkg, s) && Seen(pkg, active0, s)
  }

  lemma PerformKeeps(pkg: Package, active0: set<GroupId>, up: Upstream, key: Key)
    requires Ledger(pkg, active0, up)
    requires key.ExtendKey? ==> key.g in up.active
    requires key.AssignKey? ==> key.g !in active0
    ensures Ledger(pkg, active0, Perform(pkg, up, key)) && Perform(pkg, up, key).applied == up.applied + {key}
    ensures up.active <= Perform(pkg, up, key).active
  {
    forall g ensures DaysOf(Perform(pkg, up, key), g) ==
                     (One(AssignKey(g) in up.applied + {key}) + One(ExtendKey(g) in up.applied + {key})) * Validity(pkg)
    {
    }
  }

  lemma CallLedger(pkg: Package, active0: set<GroupId>, s: State, a: Action)
    requires Ledger(pkg, active0, s.up) && Seen(pkg, active0, s) && Enabled(pkg, s, a) && a.Call?
    ensures Ledger(pkg, active0, Apply(pkg, s, a).up)
    ensures s.up.applied <= Apply(pkg, s, a).up.applied && s.up.active <= Apply(pkg, s, a).up.active
    ensures a.w.Lands() ==> DoneItem(Work(pkg)[s.pcs[a.t].i], Apply(pkg, s, a).up.applied)
  {
    var pc := s.pcs[a.t];
    if !Work(pkg)[pc.i].Standard? {
      PerformKeeps(pkg, active0, s.up, KeyOf(Work(pkg)[pc.i], pc.Listed? && pc.isActive));
    }
  }

  lemma CallProgress(pkg: Package, active0: set<GroupId>, s: State, a: Action)
    requires Inv(pkg, active0, s) && Enabled(pkg, s, a) && a.Call?
    ensures Progress(pkg, Apply(pkg, s, a))
  {
    CallLedger(pkg, active0, s, a);
    var s' := Apply(pkg, s, a);
    forall t | t in s'.pcs ensures Done(pkg, s'.up.applied, s'.pcs[t].i) {
      assert Done(pkg, s.up.applied, s.pcs[t].i);
    }
  }

  lemma CallKeeps(pkg: Package, active0: set<GroupId>, s: State, a: Action)
    requires Inv(pkg, active0, s) && Enabled(pkg, s, a) && a.Call?
    ensures Inv(pkg, active0, Apply(pkg, s, a))
  {
    CallLedger(pkg, active0, s, a);
    CallProgress(pkg, active0, s, a);
  }

  lemma StepKeeps(pkg: Package, active0: set<GroupId>, s: State, a: Action)
    requires Inv(pkg, active0, s) && Enabled(pkg, s, a)
    ensures Inv(pkg, active0, Apply(pkg, s, a))
  {
    if a.Call? {
      CallKeeps(pkg, active0, s, a);
    }
  }

  lemma {:induction false} InvAlways(pkg: Package, active0: set<GroupId>, acts: seq<Action>)
    requires After(pkg, active0, acts).Some?
    ensures Inv(pkg, active0, After(pkg, active0, acts).value)
  {
    if acts != [] {
      var before := acts[..|acts| - 1];
      InvAlways(pkg, active0, before);
      StepKeeps(pkg, active0, After(pkg, active0, before).value, acts[|acts| - 1]);
    }
  }

  // ----- Main results -----

  /** Any number of retries credit the balance at most once, exactly once when fulfilled. */
  lemma BalanceCreditedOnce(pkg: Package, active0: set<GroupId>, acts: seq<Action>, s: State)
    requires After(pkg, active0, acts) == Some(s) && pkg.Balance?
    ensures s.up.credit == 0 || s.up.credit == pkg.amount
    ensures s.fulfilled ==> s.up.credit == pkg.amount
  {
    InvAlways(pkg, active0, acts);
    if s.fulfilled {
      assert Work(pkg)[0] == Credit;
      assert DoneItem(Work(pkg)[0], s.up.applied);
    }
  }

  /** Any number of retries give a subscription group 0, V or 2V days, 2V exactly when the
      assign and the extend were both applied; once fulfilled it has received V or 2V days,
      and exactly V when the user's subscription was active to begin with. */
  lemma DaysGranted(pkg: Package, active0: set<GroupId>, acts: seq<Action>, s: State, k: nat)
    requires After(pkg, active0, acts) == Some(s) && pkg.Days? && k < |pkg.subscription|
    ensures var g := pkg.subscription[k];
            && DaysOf(s.up, g) in {0, pkg.days, 2 * pkg.days}
            && (pkg.days > 0 ==>
                  (DaysOf(s.up, g) == 2 * pkg.days <==> AssignKey(g) in s.up.applied && ExtendKey(g) in s.up.applied))
            && (s.fulfilled ==> DaysOf(s.up, g) in {pkg.days, 2 * pkg.days})
            && (s.fulfilled && g in active0 ==> DaysOf(s.up, g) == pkg.days)
  {
    InvAlways(pkg, active0, acts);
    if s.fulfilled {
      assert Work(pkg)[|pkg.standard| + k] == Subscription(pkg.subscription[k]);
      assert DoneItem(Work(pkg)[|pkg.standard| + k], s.up.applied);
    }
  }

  // ----- Only what was bought -----

  /** Every key ever applied belongs to a call of the package, and only packages with groups
      and with days for their subscription groups are worked on. */
  ghost predicate Bought(pkg: Package, s: State) {
    && (BalanceKey in s.up.applied ==> pkg.Balance?)
    && (forall g | AssignKey(g) in s.up.applied || ExtendKey(g) in s.up.applied :: pkg.Days? && g in pkg.subscription)
    && (s.pcs != map[] || s.fulfilled ==>
          && pkg.standard + pkg.subscription != []
          && (pkg.Days? && pkg.subscription != [] ==> pkg.days > 0))
  }

  lemma WorkHas(pkg: Package, i: nat)
    requires i < |Work(pkg)|
    ensures Work(pkg)[i].Credit? ==> pkg.Balance?
    ensures Work(pkg)[i].Subscription? ==> pkg.Days? && Work(pkg)[i].group in pkg.subscription
  {
    if pkg.Days? && Work(pkg)[i].Subscription? {
      assert Work(pkg)[i] == Subscription(pkg.subscription[i - |pkg.standard|]);
    }
  }

  lemma StepBought(pkg: Package, s: State, a: Action)
    requires Bought(pkg, s) && Enabled(pkg, s, a)
    ensures Bought(pkg, Apply(pkg, s, a))
  {
    if a.Call? {
      WorkHas(pkg, s.pcs[a.t].i);
    }
  }

  /** In every run: a days package never credits the balance, a balance package never gives
      days, and no group but the package's own receives any. */
  lemma {:induction false} OnlyWhatWasBought(pkg: Package, active0: set<GroupId>, acts: seq<Action>)
    requires After(pkg, active0, acts).Some?
    ensures Bought(pkg, After(pkg, active0, acts).value)
    ensures var up := After(pkg, active0, acts).value.up;
            && (pkg.Days? ==> up.credit == 0)
            && (forall g | !(pkg.Days? && g in pkg.subscription) :: DaysOf(up, g) == 0)
  {
    if acts != [] {
      var before := acts[..|acts| - 1];
      OnlyWhatWasBought(pkg, active0, before);
      StepBought(pkg, After(pkg, active0, before).value, acts[|acts| - 1]);
    }
    InvAlways(pkg, active0, acts);
  }

  // ----- When exactly V days are granted -----

  lemma Extend(pkg: Package, active0: set<GroupId>, acts: seq<Action>, s: State, a: Action)
    returns (acts': seq<Action>, s': State)
    requires After(pkg, active0, acts) == Some(s) && Enabled(pkg, s, a)
    ensures s' == Apply(pkg, s, a) && After(pkg, active0, acts') == Some(s')
  {
    acts', s' := acts + [a], Apply(pkg, s, a);
    assert acts'[..|acts'| - 1] == acts;
  }

  /** What an undisturbed attempt does to the account between s and s'. */
  ghost predicate Swept(pkg: Package, s: State, s': State, n: nat)
    requires n <= |Work(pkg)|
  {
    && s.up.applied <= s'.up.applied && s.up.active <= s'.up.active
    && (forall g | g in s'.up.active - s.up.active :: Subscription(g) in Work(pkg)[..n])
    && (forall g | g in s.up.active && Subscription(g) in Work(pkg)[..n] :: ExtendKey(g) in s'.up.applied)
  }

  /** What one call may do to the account. */
  ghost predicate Grown(item: Item, up: Upstream, up': Upstream) {
    && up.applied <= up'.applied && up.active <= up'.active
    && (forall g | g in up'.active - up.active :: item == Subscription(g))
    && (item.Subscription? && item.group in up.active ==> ExtendKey(item.group) in up'.applied)
  }

  lemma PerformGrows(pkg: Package, up: Upstream, item: Item)
    requires !item.Standard?
    ensures Grown(item, up, Perform(pkg, up, KeyOf(item, item.Subscription? && item.group in up.active)))
  {
  }

  /** The attempt's next item succeeds: a plain call, or a listing and a call. */
  lemma SweepCall(pkg: Package, active0: set<GroupId>, acts: seq<Action>, s: State, i: nat)
    returns (acts': seq<Action>, s': State)
    requires After(pkg, active0, acts) == Some(s) && s.pcs == map[0 := Next(i)]
    requires i < |Work(pkg)| && !Work(pkg)[i].Subscription?
    ensures After(pkg, active0, acts') == Some(s') && s'.pcs == map[0 := Next(i + 1)]
    ensures Grown(Work(pkg)[i], s.up, s'.up)
  {
    var item := Work(pkg)[i];
    assert s.pcs[0] == Next(i) && s.pcs[0 := Next(i + 1)] == map[0 := Next(i + 1)];
    acts', s' := Extend(pkg, active0, acts, s, Call(0, Acked));
    if item.Standard? {
      assert s'.up == s.up;
    } else {
      PerformGrows(pkg, s.up, item);
      assert s'.up == Perform(pkg, s.up, BalanceKey);
    }
  }

  lemma SweepSubscription(pkg: Package, active0: set<GroupId>, acts: seq<Action>, s: State, i: nat)
    returns (acts': seq<Action>, s': State)
    requires After(pkg, active0, acts) == Some(s) && s.pcs == map[0 := Next(i)]
    requires i < |Work(pkg)| && Work(pkg)[i].Subscription?
    ensures After(pkg, active0, acts') == Some(s') && s'.pcs == map[0 := Next(i + 1)]
    ensures Grown(Work(pkg)[i], s.up, s'.up)
  {
    acts', s' := Extend(pkg, active0, acts, s, List(0));
    acts', s' := Extend(pkg, active0, acts', s', Call(0, Acked));
    PerformGrows(pkg, s.up, Work(pkg)[i]);
  }

  /** An attempt runs through the first n items without a failure. */
  lemma {:induction false} Sweep(pkg: Package, active0: set<GroupId>, acts: seq<Action>, s: State, n: nat)
    returns (acts': seq<Action>, s': State)
    requires Runnable(pkg) && After(pkg, active0, acts) == Some(s) && s.pcs == map[] && n <= |Work(pkg)|
    ensures After(pkg, active0, acts') == Some(s') && s'.pcs == map[0 := Next(n)] && Swept(pkg, s, s', n)
  {
    if n == 0 {
      acts', s' := Extend(pkg, active0, acts, s, Start(0));
    } else {
      acts', s' := Sweep(pkg, active0, acts, s, n - 1);
      assert Work(pkg)[..n] == Work(pkg)[..n - 1] + [Work(pkg)[n - 1]];
      if Work(pkg)[n - 1].Subscription? {
        acts', s' := SweepSubscription(pkg, active0, acts', s', n - 1);
      } else {
        acts', s' := SweepCall(pkg, active0, acts', s', n - 1);
      }
    }
  }

  /** An assign whose answer is lost, then a retry that finds the subscription active. */
  lemma AssignThenExtend(pkg: Package, active0: set<GroupId>, k: nat) returns (acts: seq<Action>, s: State)
    requires pkg.Days? && pkg.days > 0 && k < |pkg.subscription| && pkg.subscription[k] !in active0
    requires pkg.subscription[k] !in pkg.subscription[..k]
    ensures After(pkg, active0, acts) == Some(s) && s.fulfilled
    ensures DaysOf(s.up, pkg.subscription[k]) == 2 * pkg.days
  {
    var g, n := pkg.subscription[k], |pkg.standard| + k;
    assert Work(pkg)[n] == Subscription(g);
    forall i | 0 <= i < n ensures Work(pkg)[i] != Subscription(g) {
      if i >= |pkg.standard| {
        assert pkg.subscription[..k][i - |pkg.standard|] == pkg.subscription[i - |pkg.standard|];
      }
    }
    acts, s := Sweep(pkg, active0, [], Init(active0), n);
    acts, s := Extend(pkg, active0, acts, s, List(0));
    acts, s := Extend(pkg, active0, acts, s, Call(0, LandedUnacked));
    assert s.pcs == map[];
    var s1 := s;
    InvAlways(pkg, active0, acts);
    acts, s := Sweep(pkg, active0, acts, s1, |Work(pkg)|);
    assert Work(pkg)[..|Work(pkg)|][n] == Subscription(g);
    acts, s := Extend(pkg, active0, acts, s, Finish(0));
    InvAlways(pkg, active0, acts);
  }

  /** Every run that fulfils the payment gives the group exactly V days. */
  ghost predicate ExactDays(pkg: Package, active0: set<GroupId>, g: GroupId) {
    forall acts: seq<Action>, s: State | After(pkg, active0, acts) == Some(s) && s.fulfilled ::
      DaysOf(s.up, g) == Validity(pkg)
  }

  lemma FirstIndex(groups: seq<GroupId>, g: GroupId) returns (k: nat)
    requires g in groups
    ensures k < |groups| && groups[k] == g && g !in groups[..k]
  {
    if groups[0] == g {
      k := 0;
    } else {
      k := FirstIndex(groups[1..], g);
      assert groups[..k + 1] == [groups[0]] + groups[1..][..k];
      k := k + 1;
    }
  }

  lemma ExactDaysIff(pkg: Package, active0: set<GroupId>, g: GroupId)
    requires pkg.Days? && pkg.days > 0 && g in pkg.subscription
    ensures ExactDays(pkg, active0, g) <==> g in active0
  {
    var k := FirstIndex(pkg.subscription, g);
    if g in active0 {
      forall acts: seq<Action>, s: State | After(pkg, active0, acts) == Some(s) && s.fulfilled
        ensures DaysOf(s.up, g) == Validity(pkg)
      {
        DaysGranted(pkg, active0, acts, s, k);
      }
    } else {
      var acts, s := AssignThenExtend(pkg, active0, k);
    }
  }
}
