/** The upstream token rotation protocol for one user, as a state machine.

    Any number of threads (request handlers of any number of processes) run
    rotateUpstreamVaultLocked of backend/internal/httpapi/routes.go against one vault row.
    Every SQL statement, every send to the upstream and every answer is one atomic action;
    threads can crash between any two of their actions, writes can fail or land without
    being acknowledged, and the upstream can spend a token at any time while a request that
    carries it has not been answered by a refusal.

    Three switches say which deployment is modelled: `lock` is the per-user refresh lock;
    `deletes` allows the statements that delete the vault row (ClearVault and the account
    purge), after which a new row starts again at version 0; `guard` is the check of the
    login paths that the upstream's answer carries a refresh token. */
module Rotation {
  import opened Common
  import opened Vault

  type Tid = nat

  datatype Config = Config(lock: bool, deletes: bool, guard: bool)

  /** What the caller of callSub2APIRefresh makes of the upstream's answer. */
  datatype Answer =
    | Lost                             // transport or body read error
    | Invalid                          // upstreamRefreshDefinitelyInvalid
    | Refused                          // any other status outside 2xx
    | Unusable                         // 2xx without a parsable pair
    | Pair(input: UpsertInput)
  {
    /** The token pair can be installed: both halves are present. */
    predicate Usable() { Pair? && input.access != "" && Nullable(input.refresh).Some? }
    function Next(): Token
      requires Usable()
    {
      input.refresh.value
    }
  }

  /** Where a thread is between its atomic actions. */
  datatype Pc =
    | Locked
    | Loaded(t: Token, v: nat)         // LoadVault returned a stable row
    | Checked(t: Token, v: nat)        // BeginRotation's SELECT matched
    | Begun(t: Token, v: nat)          // BeginRotation's UPDATE was acknowledged
    | InFlight(t: Token, v: nat)
    | Marking(t: Token, v: nat)
    | MarkReady(t: Token, v: nat)
    | Resetting(t: Token, v: nat)
    | ResetReady(t: Token, v: nat)
    | Clearing(t: Token, v: nat)
    | Completing(t: Token, v: nat, pair: Answer, left: nat)
    | CompleteReady(t: Token, v: nat, pair: Answer, left: nat)
    | Releasing
  {
    predicate Bound() { !Locked? && !Releasing? }
    // A BeginRotation by this thread is not resolved yet.
    predicate Owner() { Bound() && !Loaded? && !Checked? }
    predicate Pending() { (Completing? || CompleteReady?) && pair.Usable() }
  }

  datatype Action =
    | Capture(input: UpsertInput)      // login, registration or password sync
    | Import(upstreamUser: int)        // importSub2APIUserForAdminPackage
    | Purge                            // account deletion
    | Spend(token: Token)              // the upstream consumes a token
    | Crash(me: Tid)
    | Acquire(me: Tid)
    | Load(me: Tid, rotate: bool)
    | BeginCheck(me: Tid, readOk: bool)
    | BeginWrite(me: Tid, w: Write)
    | Send(me: Tid)
    | Receive(me: Tid, answer: Answer)
    | ClearWrite(me: Tid, w: Write)
    | ResetCheck(me: Tid, readOk: bool)
    | ResetWrite(me: Tid, w: Write)
    | MarkCheck(me: Tid, readOk: bool)
    | MarkWrite(me: Tid, w: Write)
    | CompleteCheck(me: Tid, readOk: bool)
    | CompleteWrite(me: Tid, w: Write)
    | Release(me: Tid)

  /** `issued` and `stored` are the refresh tokens the upstream ever issued and the row ever
      held; `risky` are the tokens of requests sent and not refused; `spent` the tokens the
      upstream has consumed; `pairs` the access and refresh tokens that one capture or one
      answer delivered together. */
  datatype State = State(
    row: Option<Row>,
    pcs: map<Tid, Pc>,
    issued: set<Token>,
    stored: set<Token>,
    risky: set<Token>,
    spent: set<Token>,
    pairs: set<(Token, Token)>)

  const INIT := State(None, map[], {}, {}, {}, {}, {})

  /** The capture paths give up unless the answer holds an access and a refresh token. */
  predicate Captured(cfg: Config, input: UpsertInput) {
    input.access != "" && (cfg.guard ==> Nullable(input.refresh).Some?)
  }

  function Tokens(refresh: Option<Token>): set<Token> {
    if refresh.Some? then {refresh.value} else {}
  }

  function Delivered(input: UpsertInput): set<(Token, Token)> {
    if Nullable(input.refresh).Some? then {(input.access, input.refresh.value)} else {}
  }

  predicate CanRotate(row: Option<Row>) {
    && row.Some? && row.value.state == Stable
    && row.value.refresh.Some? && row.value.refresh.value != ""
  }

  predicate At(s: State, me: Tid, a: Action) {
    me in s.pcs &&
    var pc := s.pcs[me];
    match a
    case Load(_, _) => pc.Locked?
    case BeginCheck(_, _) => pc.Loaded?
    case BeginWrite(_, _) => pc.Checked?
    case Send(_) => pc.Begun?
    case Receive(_, _) => pc.InFlight?
    case ClearWrite(_, _) => pc.Clearing?
    case ResetCheck(_, _) => pc.Resetting?
    case ResetWrite(_, _) => pc.ResetReady?
    case MarkCheck(_, _) => pc.Marking?
    case MarkWrite(_, _) => pc.MarkReady?
    case CompleteCheck(_, _) => pc.Completing? && pc.Pending()
    case CompleteWrite(_, _) => pc.CompleteReady? && pc.Pending()
    case Release(_) => pc.Locked? || pc.Releasing?
    case Crash(_) => true
    case _ => false
  }

  predicate Enabled(cfg: Config, s: State, a: Action) {
    match a
    // The upstream issues refresh tokens it never issued before.
    case Capture(input) => Nullable(input.refresh).Some? ==> input.refresh.value !in s.issued
    case Import(_) => true
    case Purge => cfg.deletes
    case Spend(token) => token in s.risky
    case Acquire(me) => me !in s.pcs && (cfg.lock ==> s.pcs == map[])
    case Receive(me, answer) =>
      && At(s, me, a)
      && (match answer
          case Invalid => cfg.deletes
          // A refusal means that this token was not consumed and will not be.
          case Refused => s.pcs[me].t !in s.spent
          case Pair(_) => answer.Usable() && answer.Next() !in s.issued
          case _ => true)
    case _ => At(s, a.me, a)
  }

  function Goto(s: State, me: Tid, pc: Pc): State {
    s.(pcs := s.pcs[me := pc])
  }

  function Apply(cfg: Config, s: State, a: Action): State
    requires Enabled(cfg, s, a)
  {
    match a
    case Capture(input) =>
      var tokens := Tokens(Nullable(input.refresh));
      if Captured(cfg, input) then
        s.(row := Some(UpsertRow(s.row, input)), issued := s.issued + tokens, stored := s.stored + tokens,
           pairs := s.pairs + Delivered(input))
      else s
    case Import(upstreamUser) =>
      s.(row := Some(match s.row
                     case None => Row(Some(upstreamUser), "", None, None, None, Stable, 0)
                     case Some(r) => r.(upstreamUser := Some(upstreamUser))))
    case Purge => s.(row := None)
    case Spend(token) => s.(spent := s.spent + {token})
    case Crash(me) => s.(pcs := s.pcs - {me})
    case Acquire(me) => Goto(s, me, Locked)
    case Load(me, rotate) =>
      if CanRotate(s.row) && rotate
      then Goto(s, me, Loaded(s.row.value.refresh.value, s.row.value.version))
      else Goto(s, me, Releasing)
    case BeginCheck(me, readOk) =>
      var pc := s.pcs[me];
      Goto(s, me, if readOk && Matches(s.row, pc.t, Stable, pc.v) then Checked(pc.t, pc.v) else Releasing)
    case BeginWrite(me, w) =>
      var pc := s.pcs[me];
      var hit := w.Acked? && CasHits(s.row, Stable, pc.v);
      Goto(s.(row := if w.Lands() then BeginRow(s.row, pc.v) else s.row), me,
           if hit then Begun(pc.t, pc.v) else Releasing)
    case Send(me) =>
      var pc := s.pcs[me];
      Goto(s.(risky := s.risky + {pc.t}), me, InFlight(pc.t, pc.v))
    case Receive(me, answer) =>
      var pc := s.pcs[me];
      (match answer
       case Lost => Goto(s, me, Marking(pc.t, pc.v))
       case Unusable => Goto(s, me, Marking(pc.t, pc.v))
       case Invalid => Goto(s, me, Clearing(pc.t, pc.v))
       case Refused => Goto(s.(risky := s.risky - {pc.t}), me, Resetting(pc.t, pc.v))
       case Pair(_) =>
         Goto(s.(issued := s.issued + {answer.Next()}, pairs := s.pairs + {(answer.input.access, answer.Next())}), me,
              Completing(pc.t, pc.v, answer, 3)))
    case ClearWrite(me, w) =>
      Goto(s.(row := if w.Lands() then None else s.row), me, Releasing)
    case ResetCheck(me, readOk) =>
      var pc := s.pcs[me];
      Goto(s, me, if readOk && Matches(s.row, pc.t, Rotating, pc.v) then ResetReady(pc.t, pc.v) else Releasing)
    case ResetWrite(me, w) =>
      Goto(s.(row := if w.Lands() then ResetRow(s.row, s.pcs[me].v) else s.row), me, Releasing)
    case MarkCheck(me, readOk) =>
      var pc := s.pcs[me];
      Goto(s, me, if readOk && Matches(s.row, pc.t, Rotating, pc.v) then MarkReady(pc.t, pc.v) else Releasing)
    case MarkWrite(me, w) =>
      Goto(s.(row := if w.Lands() then MarkRow(s.row, s.pcs[me].v) else s.row), me, Releasing)
    case CompleteCheck(me, readOk) =>
      var pc := s.pcs[me];
      Goto(s, me,
           if !readOk then Retry(pc)
           else if Matches(s.row, pc.t, Rotating, pc.v) then CompleteReady(pc.t, pc.v, pc.pair, pc.left)
           else Marking(pc.t, pc.v))
    case CompleteWrite(me, w) =>
      var pc := s.pcs[me];
      var hit := CasHits(s.row, Rotating, pc.v);
      Goto(s.(row := if w.Lands() then CompleteRow(s.row, pc.v, pc.pair.input) else s.row,
              stored := if w.Lands() && hit then s.stored + {pc.pair.Next()} else s.stored), me,
           if !w.Acked? then Retry(pc) else if hit then Releasing else Marking(pc.t, pc.v))
    case Release(me) => s.(pcs := s.pcs - {me})
  }

  /** A failed CompleteRotation is tried three times in all, then marked uncertain. */
  function Retry(pc: Pc): Pc
    requires pc.Completing? || pc.CompleteReady?
  {
    if pc.left > 1 then Completing(pc.t, pc.v, pc.pair, pc.left - 1) else Marking(pc.t, pc.v)
  }

  // ----- Runs -----

  /** The state that the actions lead to, or None when one of them was not enabled. */
  ghost function From(cfg: Config, s0: State, acts: seq<Action>): Option<State> {
    if acts == [] then Some(s0)
    else match From(cfg, s0, acts[..|acts| - 1])
         case None => None
         case Some(s) =>
           var a := acts[|acts| - 1];
           if Enabled(cfg, s, a) then Some(Apply(cfg, s, a)) else None
  }

  ghost function After(cfg: Config, acts: seq<Action>): Option<State> {
    From(cfg, INIT, acts)
  }

  lemma Extend(cfg: Config, s0: State, acts: seq<Action>, s: State, a: Action)
    returns (acts': seq<Action>, s': State)
    requires From(cfg, s0, acts) == Some(s) && Enabled(cfg, s, a)
    ensures acts' == acts + [a] && s' == Apply(cfg, s, a) && From(cfg, s0, acts') == Some(s')
  {
    acts', s' := acts + [a], Apply(cfg, s, a);
    assert acts'[..|acts'| - 1] == acts;
  }

  /** In a run, action i sends token t to the upstream. */
  ghost predicate SendsAt(cfg: Config, acts: seq<Action>, i: nat, t: Token) {
    && i < |acts| && acts[i].Send?
    && var s := After(cfg, acts[..i]);
       s.Some? && Enabled(cfg, s.value, acts[i]) && s.value.pcs[acts[i].me].t == t
  }

  /** In a run, action k is the upstream's refusal of a request that carried t. */
  ghost predicate RefusedAt(cfg: Config, acts: seq<Action>, k: nat, t: Token) {
    && k < |acts| && acts[k].Receive? && acts[k].answer.Refused?
    && var s := After(cfg, acts[..k]);
       s.Some? && Enabled(cfg, s.value, acts[k]) && s.value.pcs[acts[k].me].t == t
  }

  /** No replay: between two sends of one token the upstream refused it, and a token is
      never sent once the upstream has spent it. */
  ghost predicate NoReplay(cfg: Config) {
    && (forall acts: seq<Action>, i: nat, j: nat, t: Token
          | i < j && SendsAt(cfg, acts, i, t) && SendsAt(cfg, acts, j, t) ::
          exists k :: i < k < j && RefusedAt(cfg, acts, k, t))
    && (forall acts: seq<Action>, s: State, me: Tid | After(cfg, acts) == Some(s) && Enabled(cfg, s, Send(me)) ::
          s.pcs[me].t !in s.spent)
  }
}
