/** Any number of purchases of one tier by one user, lines 7952 to 8021 of
    backend/internal/httpapi/routes.go: a purchase looks the active subscription up, or
    replaces it by a new row, then reads the row and later writes the expiry it computed. No
    transaction or lock spans these statements. Each is one atomic action; the replacing
    transaction is taken as serializable. */
module RenewalRace {
  import opened Common
  import opened Renewal

  type Tid = nat
  type Id = nat

  /** Without `overlap`, a purchase ends before the user's next one begins. With
      `lookupFails`, looking the active subscription up may fail, and the code goes on as if
      there was none. */
  datatype Config = Config(tier: string, overlap: bool, lookupFails: bool)

  datatype Pc =
    | Looked(pkg: Package)                               // nothing to extend was found
    | Ensured(pkg: Package, id: Id, extend: bool)
    | Computed(pkg: Package, id: Id, expiry: int)

  datatype Action =
    | Find(t: Tid, pkg: Package, ok: bool)
    | Create(t: Tid, now: int)
    | Read(t: Tid, now: int)
    | Update(t: Tid, w: Write)
    | Stop(t: Tid)

  /** `days` are the days of all expiry writes that landed, `from` the start of the user's
      first row. */
  datatype State = State(rows: map<Id, Row>, active: Option<Id>, nextId: Id, pcs: map<Tid, Pc>, from: int, days: int)

  const START := State(map[], None, 0, map[], 0, 0)

  predicate Enabled(cfg: Config, s: State, a: Action) {
    match a
    case Find(t, pkg, ok) =>
      t !in s.pcs && pkg.tier == cfg.tier && (!cfg.overlap ==> s.pcs == map[]) && (ok || cfg.lookupFails)
    case Create(t, _) => t in s.pcs && s.pcs[t].Looked?
    case Read(t, _) => t in s.pcs && s.pcs[t].Ensured? && s.pcs[t].id in s.rows
    case Update(t, _) => t in s.pcs && s.pcs[t].Computed? && s.pcs[t].id in s.rows
    case Stop(t) => t in s.pcs
  }

  function Drop(s: State, t: Tid): State {
    s.(pcs := s.pcs - {t})
  }

  function Apply(cfg: Config, s: State, a: Action): State
    requires Enabled(cfg, s, a)
  {
    match a
    case Find(t, pkg, ok) =>
      var found := ok && s.active.Some? && s.active.value in s.rows && s.rows[s.active.value].tier == pkg.tier;
      s.(pcs := s.pcs[t := if found then Ensured(pkg, s.active.value, true) else Looked(pkg)])
    case Create(t, now) =>
      var pkg := s.pcs[t].pkg;
      s.(rows := s.rows[s.nextId := Row(pkg.tier, At(now), None)], active := Some(s.nextId), nextId := s.nextId + 1,
         pcs := s.pcs[t := Ensured(pkg, s.nextId, false)], from := if s.nextId == 0 then Whole(now) else s.from)
    case Read(t, now) =>
      var pc := s.pcs[t];
      var row := Updated(s.rows[pc.id], pc.pkg, now, pc.extend);
      if pc.pkg.isDays && pc.pkg.days > 0 && row.expiresAt.Some? && row.expiresAt.value.At?
      then s.(pcs := s.pcs[t := Computed(pc.pkg, pc.id, row.expiresAt.value.time)]) else Drop(s, t)
    case Update(t, w) =>
      var pc := s.pcs[t];
      if w.Lands()
      then Drop(s, t).(rows := s.rows[pc.id := s.rows[pc.id].(expiresAt := Some(At(pc.expiry)))],
                       days := s.days + pc.pkg.days)
      else Drop(s, t)
    case Stop(t) => Drop(s, t)
  }

  ghost function After(cfg: Config, acts: seq<Action>): Option<State> {
    if acts == [] then Some(START)
    else match After(cfg, acts[..|acts| - 1])
         case None => None
         case Some(s) =>
           var a := acts[|acts| - 1];
           if Enabled(cfg, s, a) then Some(Apply(cfg, s, a)) else None
  }

  /** The active subscription runs for all days paid. */
  ghost predicate Runs(s: State) {
    s.days > 0 ==>
      && s.active.Some? && s.active.value in s.rows
      && var expiry := s.rows[s.active.value].expiresAt;
         Readable(expiry) && expiry.value.time >= s.from + s.days * DAY
  }

  ghost predicate PaidDaysKept(cfg: Config) {
    forall acts: seq<Action>, s: State | After(cfg, acts) == Some(s) :: Runs(s)
  }

  // ----- Purchases that do not overlap, with lookups that succeed -----

  /** The one row, if there is any. */
  ghost predicate RowOk(cfg: Config, s: State) {
    if s.active.None? then s.nextId == 0 && s.days == 0
    else
      && s.nextId > 0 && s.days >= 0 && s.active.value in s.rows
      && var row := s.rows[s.active.value];
      && row.tier == cfg.tier && row.startedAt.At? && Whole(row.startedAt.time) == s.from
      && (row.expiresAt == None || Readable(row.expiresAt))
      && (row.expiresAt == None ==> s.days == 0)
      && (row.expiresAt != None ==> row.expiresAt.value.time >= s.from + s.days * DAY)
  }

  /** What the purchase under way knows is still true. */
  ghost predicate PcOk(s: State, pc: Pc) {
    match pc
    case Looked(_) => s.active == None
    case Ensured(_, id, extend) =>
      s.active == Some(id) && id in s.rows && (!extend ==> s.rows[id].expiresAt == None)
    case Computed(pkg, id, expiry) =>
      && s.active == Some(id) && pkg.days > 0
      && Whole(expiry) == expiry && expiry >= s.from + (s.days + pkg.days) * DAY
  }

  ghost predicate Inv(cfg: Config, s: State) {
    && RowOk(cfg, s)
    && (forall t | t in s.pcs :: PcOk(s, s.pcs[t]) && s.pcs[t].pkg.tier == cfg.tier)
    && (forall t, t' | t in s.pcs && t' in s.pcs :: t == t')
  }

  /** What is computed from the current row covers the days paid so far and the new ones. */
  lemma ComputedCovers(cfg: Config, s: State, pkg: Package, id: Id, now: int, extend: bool)
    requires RowOk(cfg, s) && PcOk(s, Ensured(pkg, id, extend)) && pkg.isDays && pkg.days > 0
    ensures var expiry := Updated(s.rows[id], pkg, now, extend).expiresAt;
            expiry.Some? && expiry.value.At? && PcOk(s, Computed(pkg, id, expiry.value.time))
  {
    var row := s.rows[id];
    if extend {
      Extended(row, pkg, now);
      if row.expiresAt == None {
        ExtendedWithoutExpiry(row, pkg, now);
      }
    } else {
      WholeDays(row.startedAt.time, pkg.days);
    }
  }

  lemma StepKeeps(cfg: Config, s: State, a: Action)
    requires !cfg.overlap && !cfg.lookupFails && Inv(cfg, s) && Enabled(cfg, s, a)
    ensures Inv(cfg, Apply(cfg, s, a))
  {
    if a.Read? {
      var pc := s.pcs[a.t];
      if pc.pkg.isDays && pc.pkg.days > 0 {
        ComputedCovers(cfg, s, pc.pkg, pc.id, a.now, pc.extend);
      }
    }
  }

  lemma {:induction false} InvAlways(cfg: Config, acts: seq<Action>)
    requires !cfg.overlap && !cfg.lookupFails && After(cfg, acts).Some?
    ensures Inv(cfg, After(cfg, acts).value)
  {
    if acts != [] {
      var before := acts[..|acts| - 1];
      InvAlways(cfg, before);
      StepKeeps(cfg, After(cfg, before).value, acts[|acts| - 1]);
    }
  }

  // ----- One purchase on its own is the atomic purchase of Renewal -----

  function ActiveRow(s: State): Option<Row> {
    if s.active.Some? && s.active.value in s.rows then Some(s.rows[s.active.value]) else None
  }

  lemma Extend(cfg: Config, acts: seq<Action>, s: State, a: Action) returns (acts': seq<Action>, s': State)
    requires After(cfg, acts) == Some(s) && Enabled(cfg, s, a)
    ensures s' == Apply(cfg, s, a) && After(cfg, acts') == Some(s')
  {
    acts', s' := acts + [a], Apply(cfg, s, a);
    assert acts'[..|acts'| - 1] == acts;
  }

  /** Without interruption: the active row is then the one bought. A lookup that fails is as
      if there was no row. */
  lemma AloneIsBought(cfg: Config, acts: seq<Action>, s: State, p: Purchase, ok: bool)
    returns (acts': seq<Action>, s': State)
    requires After(cfg, acts) == Some(s) && s.pcs == map[] && Days(p, cfg.tier) && (ok || cfg.lookupFails)
    ensures After(cfg, acts') == Some(s') && s'.pcs == map[]
    ensures ActiveRow(s') == Some(Bought(if ok then ActiveRow(s) else None, p))
    ensures s'.days == s.days + p.pkg.days
    ensures s'.from == if s.nextId == 0 && !(ok && Renews(ActiveRow(s), p.pkg)) then Whole(p.created) else s.from
  {
    acts', s' := Extend(cfg, acts, s, Find(0, p.pkg, ok));
    if s'.pcs[0].Looked? {
      acts', s' := Extend(cfg, acts', s', Create(0, p.created));
    }
    acts', s' := Extend(cfg, acts', s', Read(0, p.now));
    acts', s' := Extend(cfg, acts', s', Update(0, p.write));
  }

  // ----- Runs that lose days -----

  /** Two purchases that read the same row: both are paid, and the row is as after one. */
  lemma BothFromOneReading(cfg: Config, acts: seq<Action>, s: State, p: Purchase)
    returns (acts': seq<Action>, s': State)
    requires cfg.overlap && After(cfg, acts) == Some(s) && s.pcs == map[] && Days(p, cfg.tier)
    requires Renews(ActiveRow(s), p.pkg)
    ensures After(cfg, acts') == Some(s') && s'.days == s.days + 2 * p.pkg.days && s'.from == s.from
    ensures ActiveRow(s') == Some(Bought(ActiveRow(s), p))
  {
    acts', s' := Extend(cfg, acts, s, Find(0, p.pkg, true));
    acts', s' := Extend(cfg, acts', s', Find(1, p.pkg, true));
    acts', s' := Extend(cfg, acts', s', Read(0, p.now));
    acts', s' := Extend(cfg, acts', s', Read(1, p.now));
    acts', s' := Extend(cfg, acts', s', Update(0, p.write));
    acts', s' := Extend(cfg, acts', s', Update(1, p.write));
  }

  /** A purchase of so many days, at time 0. */
  function Period(tier: string, days: int): Purchase {
    Purchase(Package(tier, true, days), 0, 0, Acked)
  }

  lemma FirstPeriod(cfg: Config, days: int) returns (acts: seq<Action>, s: State)
    requires days > 0
    ensures After(cfg, acts) == Some(s) && s.pcs == map[] && s.from == 0 && s.days == days
    ensures ActiveRow(s) == Some(Running(cfg.tier, 0, days * DAY))
  {
    acts, s := AloneIsBought(cfg, [], START, Period(cfg.tier, days), true);
    FirstPurchase(None, Period(cfg.tier, days), cfg.tier);
  }

  /** Two renewals computed from one reading of the row: three periods are paid and
      acknowledged, and the subscription runs for two. */
  lemma LostRenewal(cfg: Config, days: int) returns (acts: seq<Action>, s: State)
    requires cfg.overlap && days > 0
    ensures After(cfg, acts) == Some(s) && s.days == 3 * days && s.from == 0
    ensures ActiveRow(s) == Some(Running(cfg.tier, 0, 2 * days * DAY))
  {
    acts, s := FirstPeriod(cfg, days);
    acts, s := BothFromOneReading(cfg, acts, s, Period(cfg.tier, days));
    NextPurchase(cfg.tier, 0, days * DAY, Period(cfg.tier, days));
  }

  /** A failed lookup ends the running subscription: two periods are paid and acknowledged,
      and the new row runs for one. */
  lemma LostRow(cfg: Config, days: int) returns (acts: seq<Action>, s: State)
    requires cfg.lookupFails && days > 0
    ensures After(cfg, acts) == Some(s) && s.days == 2 * days && s.from == 0
    ensures ActiveRow(s) == Some(Running(cfg.tier, 0, days * DAY))
  {
    acts, s := FirstPeriod(cfg, days);
    acts, s := AloneIsBought(cfg, acts, s, Period(cfg.tier, days), false);
    FirstPurchase(None, Period(cfg.tier, days), cfg.tier);
  }

  /** No paid days are ever lost exactly when the user's purchases do not overlap and the
      lookup of the active subscription never fails. */
  lemma PaidDaysKeptIff(cfg: Config)
    ensures PaidDaysKept(cfg) <==> !cfg.overlap && !cfg.lookupFails
  {
    if cfg.overlap {
      var acts, s := LostRenewal(cfg, 1);
    } else if cfg.lookupFails {
      var acts, s := LostRow(cfg, 1);
    } else {
      forall acts: seq<Action>, s: State | After(cfg, acts) == Some(s)
        ensures Runs(s)
      {
        InvAlways(cfg, acts);
      }
    }
  }
}
