/** No replay of refresh tokens, over every run of the rotation protocol. */
module RotationSafety {
  import opened Common
  import opened Vault
  import opened Rotation

  // ----- From states to runs -----

  ghost predicate SendsAreFresh(cfg: Config) {
    forall acts: seq<Action>, s: State, me: Tid | After(cfg, acts) == Some(s) && Enabled(cfg, s, Send(me)) ::
      s.pcs[me].t !in s.risky && s.pcs[me].t !in s.spent
  }

  /** A sent token stays at risk until a refusal of a request that carried it. */
  lemma {:induction false} RiskyUntilRefused(cfg: Config, acts: seq<Action>, i: nat, j: nat, t: Token)
    requires i < j <= |acts| && SendsAt(cfg, acts, i, t) && After(cfg, acts[..j]).Some?
    requires forall k :: i < k < j ==> !RefusedAt(cfg, acts, k, t)
    ensures t in After(cfg, acts[..j]).value.risky
  {
    assert acts[..j][..j - 1] == acts[..j - 1];
    if j - 1 > i {
      RiskyUntilRefused(cfg, acts, i, j - 1, t);
      assert !RefusedAt(cfg, acts, j - 1, t);
    }
  }

  lemma FreshSendsNeverReplay(cfg: Config)
    requires SendsAreFresh(cfg)
    ensures NoReplay(cfg)
  {
    forall acts: seq<Action>, i: nat, j: nat, t: Token | i < j && SendsAt(cfg, acts, i, t) && SendsAt(cfg, acts, j, t)
      ensures exists k :: i < k < j && RefusedAt(cfg, acts, k, t)
    {
      if forall k :: i < k < j ==> !RefusedAt(cfg, acts, k, t) {
        RiskyUntilRefused(cfg, acts, i, j, t);
        assert false;
      }
    }
  }

  // ----- With the refresh lock -----

  ghost predicate LockedPcOk(s: State, pc: Pc) {
    && (pc.Bound() ==> pc.t in s.issued)
    && (pc.Loaded? || pc.Checked? || pc.Begun? || pc.Resetting? || pc.ResetReady? ==> pc.t !in s.risky)
    && (pc.Begun? && s.row.Some? && s.row.value.state == Stable ==> s.row.value.refresh != Some(pc.t))
    && (pc.ResetReady? && CasHits(s.row, Rotating, pc.v) ==> s.row.value.refresh == Some(pc.t))
    && (pc.Pending() ==> pc.pair.Next() in s.issued && pc.pair.Next() !in s.risky)
  }

  /** A token that may have been consumed never sits in a stable row. */
  ghost predicate RowOk(s: State) {
    s.row.Some? && s.row.value.refresh.Some? ==>
      && s.row.value.refresh.value in s.issued
      && (s.row.value.state == Stable ==> s.row.value.refresh.value !in s.risky)
  }

  ghost predicate LockedInv(s: State) {
    && (forall m, n | m in s.pcs && n in s.pcs :: m == n)
    && s.spent <= s.risky <= s.issued
    && RowOk(s)
    && (forall m | m in s.pcs :: LockedPcOk(s, s.pcs[m]))
  }

  predicate Opening(a: Action) {
    || a.Capture? || a.Import? || a.Purge? || a.Spend? || a.Crash?
    || a.Acquire? || a.Load? || a.BeginCheck? || a.BeginWrite?
  }

  lemma LockedOpening(cfg: Config, s: State, a: Action)
    requires cfg.guard && cfg.lock && LockedInv(s) && Enabled(cfg, s, a) && Opening(a)
    ensures LockedInv(Apply(cfg, s, a))
  {
  }

  lemma LockedClosing(cfg: Config, s: State, a: Action)
    requires cfg.guard && cfg.lock && LockedInv(s) && Enabled(cfg, s, a) && !Opening(a)
    ensures LockedInv(Apply(cfg, s, a))
  {
  }

  lemma {:induction false} LockedRun(cfg: Config, acts: seq<Action>)
    requires cfg.guard && cfg.lock && After(cfg, acts).Some?
    ensures LockedInv(After(cfg, acts).value)
  {
    if acts != [] {
      var before := acts[..|acts| - 1];
      LockedRun(cfg, before);
      var s, a := After(cfg, before).value, acts[|acts| - 1];
      if Opening(a) {
        LockedOpening(cfg, s, a);
      } else {
        LockedClosing(cfg, s, a);
      }
    }
  }

  // ----- Without deletions: the version check alone -----

  /** What a thread knows of the row through the version it loaded. */
  ghost predicate Agrees(row: Option<Row>, t: Token, v: nat) {
    && row.Some? && v <= row.value.version
    && (v == row.value.version <==> row.value.refresh == Some(t))
  }

  ghost predicate CasPcOk(s: State, pc: Pc) {
    && (pc.Bound() ==> pc.t in s.stored && Agrees(s.row, pc.t, pc.v))
    && (pc.Owner() && pc.v == s.row.value.version ==> s.row.value.state == Rotating)
    && (pc.Begun? || pc.Resetting? || pc.ResetReady? ==> pc.t !in s.risky)
    && (pc.Pending() ==> pc.pair.Next() in s.issued)
    && (pc.Pending() && pc.v == s.row.value.version ==> pc.pair.Next() !in s.stored)
  }

  ghost predicate CasRowOk(s: State) {
    s.row.Some? && s.row.value.refresh.Some? ==>
      && s.row.value.refresh.value in s.stored
      && (s.row.value.state == Stable ==> s.row.value.refresh.value !in s.risky)
  }

  /** Two threads with an unresolved BeginRotation never carry the same token. */
  ghost predicate OwnersDiffer(s: State) {
    forall m, n | m in s.pcs && n in s.pcs && m != n && s.pcs[m].Owner() && s.pcs[n].Owner() ::
      s.pcs[m].t != s.pcs[n].t
  }

  ghost predicate CasInv(s: State) {
    && s.spent <= s.risky <= s.stored <= s.issued
    && CasRowOk(s)
    && (forall m | m in s.pcs :: CasPcOk(s, s.pcs[m]))
    && OwnersDiffer(s)
  }

  ghost predicate NoClearing(s: State) {
    forall m | m in s.pcs :: !s.pcs[m].Clearing?
  }

  /** The row's writers, one lemma each; every other action only moves one thread. */
  lemma CasCapture(cfg: Config, s: State, a: Action)
    requires cfg.guard && !cfg.deletes && CasInv(s) && NoClearing(s) && Enabled(cfg, s, a)
    requires a.Capture? || a.Import? || a.Spend? || a.Crash? || a.Acquire? || a.Load? || a.Release?
    ensures CasInv(Apply(cfg, s, a)) && NoClearing(Apply(cfg, s, a))
  {
  }

  lemma CasBegin(cfg: Config, s: State, a: Action)
    requires cfg.guard && !cfg.deletes && CasInv(s) && NoClearing(s) && Enabled(cfg, s, a)
    requires a.BeginCheck? || a.BeginWrite? || a.Send?
    ensures CasInv(Apply(cfg, s, a)) && NoClearing(Apply(cfg, s, a))
  {
  }

  lemma CasReceive(cfg: Config, s: State, a: Action)
    requires cfg.guard && !cfg.deletes && CasInv(s) && NoClearing(s) && Enabled(cfg, s, a)
    requires a.Receive?
    ensures CasInv(Apply(cfg, s, a)) && NoClearing(Apply(cfg, s, a))
  {
  }

  lemma CasSettle(cfg: Config, s: State, a: Action)
    requires cfg.guard && !cfg.deletes && CasInv(s) && NoClearing(s) && Enabled(cfg, s, a)
    requires a.ResetWrite? || a.MarkWrite?
    ensures CasInv(Apply(cfg, s, a)) && NoClearing(Apply(cfg, s, a))
  {
  }

  lemma CasSettleCheck(cfg: Config, s: State, a: Action)
    requires cfg.guard && !cfg.deletes && CasInv(s) && NoClearing(s) && Enabled(cfg, s, a)
    requires a.ResetCheck? || a.MarkCheck?
    ensures CasInv(Apply(cfg, s, a)) && NoClearing(Apply(cfg, s, a))
  {
  }

  lemma CasCompleteCheck(cfg: Config, s: State, a: Action)
    requires cfg.guard && !cfg.deletes && CasInv(s) && NoClearing(s) && Enabled(cfg, s, a)
    requires a.CompleteCheck?
    ensures CasInv(Apply(cfg, s, a)) && NoClearing(Apply(cfg, s, a))
  {
  }

  lemma CasCompleteWrite(cfg: Config, s: State, a: Action)
    requires cfg.guard && !cfg.deletes && CasInv(s) && NoClearing(s) && Enabled(cfg, s, a)
    requires a.CompleteWrite?
    ensures CasInv(Apply(cfg, s, a)) && NoClearing(Apply(cfg, s, a))
  {
  }

  lemma {:induction false} CasRun(cfg: Config, acts: seq<Action>)
    requires cfg.guard && !cfg.deletes && After(cfg, acts).Some?
    ensures CasInv(After(cfg, acts).value) && NoClearing(After(cfg, acts).value)
  {
    if acts != [] {
      var before := acts[..|acts| - 1];
      CasRun(cfg, before);
      var s, a := After(cfg, before).value, acts[|acts| - 1];
      assert Enabled(cfg, s, a);
      match a
      case Capture(_) | Import(_) | Spend(_) | Crash(_) | Acquire(_) | Load(_, _) | Release(_) => CasCapture(cfg, s, a);
      case BeginCheck(_, _) | BeginWrite(_, _) | Send(_) => CasBegin(cfg, s, a);
      case Receive(_, _) => CasReceive(cfg, s, a);
      case CompleteCheck(_, _) => CasCompleteCheck(cfg, s, a);
      case CompleteWrite(_, _) => CasCompleteWrite(cfg, s, a);
      case Purge =>
      case ClearWrite(_, _) =>
      case ResetWrite(_, _) | MarkWrite(_, _) => CasSettle(cfg, s, a);
      case ResetCheck(_, _) | MarkCheck(_, _) => CasSettleCheck(cfg, s, a);
    }
  }

  // ----- One row's lifetime -----

  /** What the version check keeps whatever the captures store: COALESCE may make any token
      stable again, but only together with a version step. */
  ghost predicate LifetimePcOk(s: State, pc: Pc) {
    && !pc.Clearing?
    && (pc.Bound() ==> s.row.Some? && pc.v <= s.row.value.version)
    && (OwnsCurrent(s, pc) ==> s.row.value.state == Rotating)
  }

  /** A thread with an unresolved BeginRotation for the row's current version. */
  ghost predicate OwnsCurrent(s: State, pc: Pc) {
    pc.Owner() && s.row.Some? && pc.v == s.row.value.version
  }

  ghost predicate LifetimeInv(s: State) {
    && (forall m | m in s.pcs :: LifetimePcOk(s, s.pcs[m]))
    && (forall m, n | m in s.pcs && n in s.pcs && OwnsCurrent(s, s.pcs[m]) && OwnsCurrent(s, s.pcs[n]) :: m == n)
  }

  /** The steps, grouped by what they do to the row; the last four groups only move a thread. */
  lemma LifetimeCapture(cfg: Config, s: State, a: Action)
    requires !cfg.deletes && LifetimeInv(s) && Enabled(cfg, s, a)
    requires a.Capture? || a.Import?
    ensures LifetimeInv(Apply(cfg, s, a))
  {
  }

  lemma LifetimeBegin(cfg: Config, s: State, a: Action)
    requires !cfg.deletes && LifetimeInv(s) && Enabled(cfg, s, a)
    requires a.BeginWrite?
    ensures LifetimeInv(Apply(cfg, s, a))
  {
  }

  lemma LifetimeSettle(cfg: Config, s: State, a: Action)
    requires !cfg.deletes && LifetimeInv(s) && Enabled(cfg, s, a)
    requires a.ResetWrite? || a.MarkWrite?
    ensures LifetimeInv(Apply(cfg, s, a))
  {
  }

  lemma LifetimeComplete(cfg: Config, s: State, a: Action)
    requires !cfg.deletes && LifetimeInv(s) && Enabled(cfg, s, a)
    requires a.CompleteWrite?
    ensures LifetimeInv(Apply(cfg, s, a))
  {
  }

  lemma LifetimeEnter(cfg: Config, s: State, a: Action)
    requires !cfg.deletes && LifetimeInv(s) && Enabled(cfg, s, a)
    requires a.Spend? || a.Crash? || a.Acquire? || a.Load? || a.Release? || a.BeginCheck?
    ensures LifetimeInv(Apply(cfg, s, a))
  {
  }

  lemma LifetimeExchange(cfg: Config, s: State, a: Action)
    requires !cfg.deletes && LifetimeInv(s) && Enabled(cfg, s, a)
    requires a.Send? || a.Receive?
    ensures LifetimeInv(Apply(cfg, s, a))
  {
  }

  lemma LifetimeCheck(cfg: Config, s: State, a: Action)
    requires !cfg.deletes && LifetimeInv(s) && Enabled(cfg, s, a)
    requires a.ResetCheck? || a.MarkCheck?
    ensures LifetimeInv(Apply(cfg, s, a))
  {
  }

  lemma LifetimeCompleteCheck(cfg: Config, s: State, a: Action)
    requires !cfg.deletes && LifetimeInv(s) && Enabled(cfg, s, a)
    requires a.CompleteCheck?
    ensures LifetimeInv(Apply(cfg, s, a))
  {
  }

  lemma {:induction false} LifetimeRun(cfg: Config, acts: seq<Action>)
    requires !cfg.deletes && After(cfg, acts).Some?
    ensures LifetimeInv(After(cfg, acts).value)
  {
    if acts != [] {
      var before := acts[..|acts| - 1];
      LifetimeRun(cfg, before);
      var s, a := After(cfg, before).value, acts[|acts| - 1];
      assert Enabled(cfg, s, a);
      match a
      case Capture(_) | Import(_) => LifetimeCapture(cfg, s, a);
      case BeginWrite(_, _) => LifetimeBegin(cfg, s, a);
      case ResetWrite(_, _) | MarkWrite(_, _) => LifetimeSettle(cfg, s, a);
      case CompleteWrite(_, _) => LifetimeComplete(cfg, s, a);
      case Purge =>
      case ClearWrite(_, _) =>
      case Spend(_) | Crash(_) | Acquire(_) | Load(_, _) | Release(_) | BeginCheck(_, _) => LifetimeEnter(cfg, s, a);
      case Send(_) | Receive(_, _) => LifetimeExchange(cfg, s, a);
      case ResetCheck(_, _) | MarkCheck(_, _) => LifetimeCheck(cfg, s, a);
      case CompleteCheck(_, _) => LifetimeCompleteCheck(cfg, s, a);
    }
  }

  // ----- Main results -----

  /** The version check alone, within one row's lifetime and for captures with or without a
      refresh token: the version never decreases, the refresh token changes only with it, at
      most one thread has an unresolved BeginRotation for the current version, and the
      writes of all others leave the row as it is. */
  lemma RowLifetime(cfg: Config, acts: seq<Action>, s: State, a: Action)
    requires !cfg.deletes && After(cfg, acts) == Some(s) && Enabled(cfg, s, a)
    requires s.row.Some?
    ensures var row' := Apply(cfg, s, a).row;
            && row'.Some? && s.row.value.version <= row'.value.version
            && (row'.value.refresh != s.row.value.refresh ==> row'.value.version == s.row.value.version + 1)
    ensures forall m, n | m in s.pcs && n in s.pcs && OwnsCurrent(s, s.pcs[m]) && OwnsCurrent(s, s.pcs[n]) :: m == n
    ensures a.ResetWrite? || a.MarkWrite? || a.CompleteWrite? ==>
              s.pcs[a.me].v != s.row.value.version ==> Apply(cfg, s, a).row == s.row
  {
    LifetimeRun(cfg, acts);
  }

  lemma Safe(cfg: Config)
    requires cfg.guard && (cfg.lock || !cfg.deletes)
    ensures NoReplay(cfg)
  {
    forall acts: seq<Action>, s: State, me: Tid | After(cfg, acts) == Some(s) && Enabled(cfg, s, Send(me))
      ensures s.pcs[me].t !in s.risky && s.pcs[me].t !in s.spent
    {
      if cfg.lock {
        LockedRun(cfg, acts);
      } else {
        CasRun(cfg, acts);
      }
    }
    FreshSendsNeverReplay(cfg);
  }

  // ----- The runs that replay when a condition is missing -----

  function LoginWith(refresh: Option<Token>): Action {
    Capture(UpsertInput(None, "access", refresh, None))
  }

  /** A thread loads the row, begins a rotation and stands before its send. */
  lemma StartRotation(cfg: Config, acts: seq<Action>, s: State, me: Tid) returns (acts': seq<Action>, s': State)
    requires (cfg.lock ==> s.pcs == map[]) && After(cfg, acts) == Some(s) && me !in s.pcs && CanRotate(s.row)
    ensures After(cfg, acts') == Some(s')
    ensures var r := s.row.value;
            s' == Goto(s, me, Begun(r.refresh.value, r.version)).(row := Some(r.(state := Rotating)))
  {
    acts', s' := Extend(cfg, INIT, acts, s, Acquire(me));
    acts', s' := Extend(cfg, INIT, acts', s', Load(me, true));
    acts', s' := Extend(cfg, INIT, acts', s', BeginCheck(me, true));
    acts', s' := Extend(cfg, INIT, acts', s', BeginWrite(me, Acked));
    assert s'.pcs == s.pcs[me := s'.pcs[me]];
  }

  /** The user's first login, then the first rotation, before its send. */
  lemma FirstRotation(cfg: Config) returns (acts: seq<Action>, s: State)
    ensures After(cfg, acts) == Some(s) && s.pcs == map[1 := Begun("a", 0)]
    ensures s.row == Some(Row(None, "access", Some("a"), None, None, Rotating, 0))
    ensures s.issued == {"a"} && s.spent == {}
  {
    acts, s := Extend(cfg, INIT, [], INIT, LoginWith(Some("a")));
    acts, s := StartRotation(cfg, acts, s, 1);
  }

  /** A thread whose request was refused stands before its ResetRotation UPDATE. */
  lemma RefusedRotation(cfg: Config) returns (acts: seq<Action>, s: State)
    ensures After(cfg, acts) == Some(s) && s.pcs == map[1 := ResetReady("a", 0)]
    ensures s.issued == {"a"} && s.spent == {}
  {
    acts, s := FirstRotation(cfg);
    acts, s := Extend(cfg, INIT, acts, s, Send(1));
    acts, s := Extend(cfg, INIT, acts, s, Receive(1, Refused));
    acts, s := Extend(cfg, INIT, acts, s, ResetCheck(1, true));
  }

  /** The same, after its row was deleted and a login created a new one. */
  lemma LateReset(cfg: Config) returns (acts: seq<Action>, s: State)
    requires !cfg.lock && cfg.deletes
    ensures After(cfg, acts) == Some(s)
    ensures s.row == Some(Row(None, "access", Some("b"), None, None, Stable, 0))
    ensures s.pcs == map[1 := ResetReady("a", 0)]
  {
    acts, s := RefusedRotation(cfg);
    acts, s := Extend(cfg, INIT, acts, s, Purge);
    acts, s := Extend(cfg, INIT, acts, s, LoginWith(Some("b")));
  }

  /** Without the lock, deleting and re-creating the row brings version 0 back: a late
      ResetRotation of the old row's rotation makes the new row's token stable while
      another rotation has already sent it. */
  lemma ReplayWithoutLock(cfg: Config)
    requires !cfg.lock && cfg.deletes
    ensures !NoReplay(cfg)
  {
    var acts, s := LateReset(cfg);
    acts, s := StartRotation(cfg, acts, s, 2);
    acts, s := Extend(cfg, INIT, acts, s, Send(2));
    acts, s := Extend(cfg, INIT, acts, s, Spend("b"));
    acts, s := Extend(cfg, INIT, acts, s, ResetWrite(1, Acked));
    acts, s := StartRotation(cfg, acts, s, 3);
    assert Enabled(cfg, s, Send(3)) && s.pcs[3].t in s.spent;
  }

  /** Without the guard, COALESCE keeps a consumed token and makes its row stable again. */
  lemma ReplayWithoutGuard(cfg: Config)
    requires !cfg.guard
    ensures !NoReplay(cfg)
  {
    var acts, s := FirstRotation(cfg);
    acts, s := Extend(cfg, INIT, acts, s, Send(1));
    acts, s := Extend(cfg, INIT, acts, s, Spend("a"));
    acts, s := Extend(cfg, INIT, acts, s, Crash(1));
    acts, s := Extend(cfg, INIT, acts, s, LoginWith(None));
    assert s.pcs == map[];
    acts, s := StartRotation(cfg, acts, s, 1);
    assert Enabled(cfg, s, Send(1)) && s.pcs[1].t in s.spent;
  }

  /** Exactly when no refresh token is ever replayed. */
  lemma NoReplayIff(cfg: Config)
    ensures NoReplay(cfg) <==> cfg.guard && (cfg.lock || !cfg.deletes)
  {
    if cfg.guard && (cfg.lock || !cfg.deletes) {
      Safe(cfg);
    } else if !cfg.guard {
      ReplayWithoutGuard(cfg);
    } else {
      ReplayWithoutLock(cfg);
    }
  }

  // ----- The two statements of a service call, undisturbed -----

  /** The row is in this state and version and holds this token. */
  ghost predicate Holds(s: State, state: RotationState, v: nat, t: Token) {
    && s.row.Some? && s.row.value.state == state && s.row.value.version == v
    && s.row.value.refresh == Some(t) && t != ""
  }

  /** BeginRotation: the check compares state, version and token, and only then the row is
      claimed. */
  lemma BeginAlone(cfg: Config, s: State, me: Tid, readOk: bool, w: Write)
    requires Enabled(cfg, s, BeginCheck(me, readOk))
    ensures var (pc, s1) := (s.pcs[me], Apply(cfg, s, BeginCheck(me, readOk)));
            if !readOk || !Holds(s, Stable, pc.v, pc.t) then s1 == Goto(s, me, Releasing)
            else
              && Enabled(cfg, s1, BeginWrite(me, w))
              && Apply(cfg, s1, BeginWrite(me, w)) ==
                 Goto(s.(row := if w == Failed then s.row else Some(s.row.value.(state := Rotating))), me,
                      if w == Acked then Begun(pc.t, pc.v) else Releasing)
  {
    assert s.pcs[me := Checked(s.pcs[me].t, s.pcs[me].v)][me := Releasing] == s.pcs[me := Releasing];
  }

  lemma ResetAlone(cfg: Config, s: State, me: Tid, readOk: bool, w: Write)
    requires Enabled(cfg, s, ResetCheck(me, readOk))
    ensures var (pc, s1) := (s.pcs[me], Apply(cfg, s, ResetCheck(me, readOk)));
            if !readOk || !Holds(s, Rotating, pc.v, pc.t) then s1 == Goto(s, me, Releasing)
            else
              && Enabled(cfg, s1, ResetWrite(me, w))
              && Apply(cfg, s1, ResetWrite(me, w)).row ==
                 if w == Failed then s.row else Some(s.row.value.(state := Stable))
  {
  }

  lemma MarkAlone(cfg: Config, s: State, me: Tid, readOk: bool, w: Write)
    requires Enabled(cfg, s, MarkCheck(me, readOk))
    ensures var (pc, s1) := (s.pcs[me], Apply(cfg, s, MarkCheck(me, readOk)));
            if !readOk || !Holds(s, Rotating, pc.v, pc.t) then s1 == Goto(s, me, Releasing)
            else
              && Enabled(cfg, s1, MarkWrite(me, w))
              && Apply(cfg, s1, MarkWrite(me, w)).row ==
                 if w == Failed then s.row else Some(s.row.value.(state := Uncertain))
  {
  }

  /** CompleteRotation: a conflict goes on to mark the row, a failure tries again. */
  lemma CompleteAlone(cfg: Config, s: State, me: Tid, readOk: bool, w: Write)
    requires Enabled(cfg, s, CompleteCheck(me, readOk))
    ensures var (pc, s1) := (s.pcs[me], Apply(cfg, s, CompleteCheck(me, readOk)));
            if !readOk then s1 == Goto(s, me, Retry(pc))
            else if !Holds(s, Rotating, pc.v, pc.t) then s1 == Goto(s, me, Marking(pc.t, pc.v))
            else
              && Enabled(cfg, s1, CompleteWrite(me, w))
              && var (s2, pair) := (Apply(cfg, s1, CompleteWrite(me, w)), pc.pair.input);
              && s2.pcs[me] == (if w == Acked then Releasing else Retry(pc))
              && (w == Failed ==> s2.row == s.row)
              && (w != Failed ==>
                    && s2.row.Some?
                    && s2.row.value.access == pair.access && s2.row.value.refresh == pair.refresh
                    && s2.row.value.prev == Some(pc.t)
                    && s2.row.value.state == Stable && s2.row.value.version == pc.v + 1)
  {
  }

  // ----- The row's tokens belong together -----

  /** The row's access and refresh token were delivered together. */
  ghost predicate Paired(s: State) {
    s.row.Some? && s.row.value.refresh.Some? ==> (s.row.value.access, s.row.value.refresh.value) in s.pairs
  }

  ghost predicate AlwaysPaired(cfg: Config) {
    forall acts: seq<Action>, s: State | After(cfg, acts) == Some(s) :: Paired(s)
  }

  ghost predicate PairedInv(s: State) {
    && Paired(s)
    && (forall m | m in s.pcs && s.pcs[m].Pending() ::
          (s.pcs[m].pair.input.access, s.pcs[m].pair.Next()) in s.pairs)
  }

  lemma StepPaired(cfg: Config, s: State, a: Action)
    requires cfg.guard && PairedInv(s) && Enabled(cfg, s, a)
    ensures PairedInv(Apply(cfg, s, a))
  {
  }

  lemma {:induction false} PairedRun(cfg: Config, acts: seq<Action>)
    requires cfg.guard && After(cfg, acts).Some?
    ensures PairedInv(After(cfg, acts).value)
  {
    if acts != [] {
      var before := acts[..|acts| - 1];
      PairedRun(cfg, before);
      StepPaired(cfg, After(cfg, before).value, acts[|acts| - 1]);
    }
  }

  /** Without the guard COALESCE joins a new access token with the refresh token of another
      login. */
  lemma MixedPair(cfg: Config) returns (acts: seq<Action>, s: State)
    requires !cfg.guard
    ensures After(cfg, acts) == Some(s) && !Paired(s)
  {
    acts, s := Extend(cfg, INIT, [], INIT, LoginWith(Some("a")));
    acts, s := Extend(cfg, INIT, acts, s, Capture(UpsertInput(None, "newer", None, None)));
  }

  /** In every run the row holds an access and a refresh token that were delivered together,
      exactly when captures insist on a refresh token. */
  lemma PairedIff(cfg: Config)
    ensures AlwaysPaired(cfg) <==> cfg.guard
  {
    if cfg.guard {
      forall acts: seq<Action>, s: State | After(cfg, acts) == Some(s)
        ensures Paired(s)
      {
        PairedRun(cfg, acts);
      }
    } else {
      var acts, s := MixedPair(cfg);
    }
  }

  /** A row with a refresh token has two tokens that are not blank. */
  ghost predicate Present(s: State) {
    s.row.Some? && s.row.value.refresh.Some? ==> s.row.value.access != "" && s.row.value.refresh != Some("")
  }

  lemma StepPresent(cfg: Config, s: State, a: Action)
    requires Present(s) && Enabled(cfg, s, a)
    ensures Present(Apply(cfg, s, a))
  {
  }

  /** In every run, with or without the guard. */
  lemma {:induction false} TokensPresent(cfg: Config, acts: seq<Action>)
    requires After(cfg, acts).Some?
    ensures Present(After(cfg, acts).value)
  {
    if acts != [] {
      var before := acts[..|acts| - 1];
      TokensPresent(cfg, before);
      StepPresent(cfg, After(cfg, before).value, acts[|acts| - 1]);
    }
  }
}
