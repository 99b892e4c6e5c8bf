/** rotateUpstreamVaultLocked of backend/internal/httpapi/routes.go, run on the token vault.
    Its ghost results show that it performs a run of the rotation protocol: the actions, in
    order, and the state they lead to. */
module Arbiter {
  import opened Common
  import opened Vault
  import opened Rotation

  /** The upstream's answer to a refresh: whether the body holds one of the markers of an
      invalid refresh token, and the tokens parsed from it if any. */
  datatype Reply =
    | TransportError
    | Reply(status: int, marker: bool, tokens: Option<UpsertInput>)

  predicate DefinitelyInvalid(status: int, marker: bool) {
    status == 401 || status == 403 || (status == 400 && marker)
  }

  function Classify(reply: Reply): Answer {
    match reply
    case TransportError => Lost
    case Reply(status, marker, tokens) =>
      if status < 200 || status >= 300 then
        if DefinitelyInvalid(status, marker) then Invalid else Refused
      else if tokens.Some? && Pair(tokens.value).Usable() then Pair(tokens.value)
      else Unusable
  }

  /** The fate of one service call: its SELECT and its write. */
  datatype Io = Io(readOk: bool, w: Write)

  /** None of the first n attempts changed the row. */
  ghost predicate NoneLanded(complete: seq<Io>, n: nat)
    requires n <= |complete|
  {
    forall k | 0 <= k < n :: !complete[k].readOk || complete[k].w.Failed?
  }

  /** Some attempt is acknowledged and no earlier one landed without being acknowledged. */
  ghost predicate Persisted(complete: seq<Io>) {
    exists i | 0 <= i < |complete| ::
      complete[i].readOk && complete[i].w.Acked? && NoneLanded(complete, i)
  }

  datatype Outcome =
    | Rotated
    | Rejected(status: int)
    | NotRotatable                     // ErrRotationUncertain
    | Failure

  ghost function SendsOf(acts: seq<Action>): nat {
    if acts == [] then 0 else SendsOf(acts[..|acts| - 1]) + (if acts[|acts| - 1].Send? then 1 else 0)
  }

  lemma SendsOfSnoc(acts: seq<Action>, a: Action)
    ensures SendsOf(acts + [a]) == SendsOf(acts) + (if a.Send? then 1 else 0)
  {
  }

  /** `s` is where thread `me` left the protocol that it entered in `s0`. */
  ghost predicate Ran(cfg: Config, s0: State, acts: seq<Action>, s: State, me: Tid) {
    From(cfg, s0, acts) == Some(s) && me in s.pcs && s.pcs == s0.pcs[me := s.pcs[me]]
  }

  ghost method Take(cfg: Config, s0: State, acts: seq<Action>, s: State, me: Tid, a: Action)
    returns (acts': seq<Action>, s': State)
    requires Ran(cfg, s0, acts, s, me) && Enabled(cfg, s, a) && me in Apply(cfg, s, a).pcs
    requires Apply(cfg, s, a).pcs == s.pcs[me := Apply(cfg, s, a).pcs[me]]
    ensures Ran(cfg, s0, acts', s', me) && s' == Apply(cfg, s, a)
    ensures SendsOf(acts') == SendsOf(acts) + (if a.Send? then 1 else 0)
  {
    acts', s' := Extend(cfg, s0, acts, s, a);
    SendsOfSnoc(acts, a);
    assert s'.pcs == s0.pcs[me := s'.pcs[me]];
  }

  /** The thread's view of the row is the store's, and other users' rows are untouched. */
  twostate predicate InStep(store: TokenVault, userID: int, s: State)
    reads store
  {
    && s.row == Get(store.rows, userID)
    && forall u | u != userID :: Get(store.rows, u) == Get(old(store.rows), u)
  }

  method Mark(
    store: TokenVault, userID: int, t: Token, v: nat, mark: Io,
    ghost cfg: Config, ghost s0: State, ghost acts0: seq<Action>, ghost s1: State, ghost me: Tid)
    returns (ghost acts: seq<Action>, ghost s: State)
    requires Ran(cfg, s0, acts0, s1, me) && s1.pcs[me] == Marking(t, v) && s1.row == Get(store.rows, userID)
    modifies store
    ensures Ran(cfg, s0, acts, s, me) && s.pcs[me] == Releasing && InStep(store, userID, s)
    ensures SendsOf(acts) == SendsOf(acts0)
    ensures s.row == if mark.readOk && mark.w.Lands() && Matches(s1.row, t, Rotating, v)
                     then Some(s1.row.value.(state := Uncertain)) else s1.row
  {
    acts, s := Take(cfg, s0, acts0, s1, me, MarkCheck(me, mark.readOk));
    PutGet(store.rows, userID, MarkRow(s1.row, v));
    var _ := store.MarkRotationUncertain(userID, t, v, mark.readOk, mark.w);
    if s.pcs[me].MarkReady? {
      acts, s := Take(cfg, s0, acts, s, me, MarkWrite(me, mark.w));
    }
  }

  /** The branch of a status outside 2xx: clear the vault or give the token back. */
  method Refuse(
    store: TokenVault, userID: int, t: Token, v: nat, reply: Reply, clear: Write, reset: Io,
    ghost cfg: Config, ghost s0: State, ghost acts0: seq<Action>, ghost s1: State, ghost me: Tid)
    returns (outcome: Outcome, ghost acts: seq<Action>, ghost s: State)
    requires userID > 0 && reply.Reply? && (Classify(reply).Invalid? || Classify(reply).Refused?)
    requires Ran(cfg, s0, acts0, s1, me) && s1.row == Get(store.rows, userID)
    requires s1.pcs[me] == if Classify(reply).Invalid? then Clearing(t, v) else Resetting(t, v)
    modifies store
    ensures Ran(cfg, s0, acts, s, me) && s.pcs[me] == Releasing && InStep(store, userID, s)
    ensures SendsOf(acts) == SendsOf(acts0)
    ensures !outcome.Rotated?
    ensures if reply.status == 401 || reply.status == 403 || (reply.status == 400 && reply.marker) then
              && s.row == (if clear.Lands() then None else s1.row)
              && outcome == (if clear.Acked? then Rejected(reply.status) else Failure)
            else Matches(s1.row, t, Rotating, v) ==>
              && s.row == (if reset.readOk && reset.w.Lands() then Some(s1.row.value.(state := Stable)) else s1.row)
              && outcome == (if reset.readOk && reset.w.Acked? then Rejected(reply.status) else Failure)
  {
    var err;
    if DefinitelyInvalid(reply.status, reply.marker) {
      PutGet(store.rows, userID, None);
      acts, s := Take(cfg, s0, acts0, s1, me, ClearWrite(me, clear));
      err := store.ClearVault(userID, clear);
    } else {
      PutGet(store.rows, userID, ResetRow(s1.row, v));
      acts, s := Take(cfg, s0, acts0, s1, me, ResetCheck(me, reset.readOk));
      err := store.ResetRotation(userID, t, v, reset.readOk, reset.w);
      if s.pcs[me].ResetReady? {
        acts, s := Take(cfg, s0, acts, s, me, ResetWrite(me, reset.w));
      }
    }
    outcome := if err.Some? then Failure else Rejected(reply.status);
  }

  /** One CompleteRotation. `s1.row` is the rotating row, or the row an earlier
      unacknowledged attempt installed. */
  method TryComplete(
    store: TokenVault, userID: int, t: Token, v: nat, pair: Answer, io: Io, left: nat,
    ghost cfg: Config, ghost s0: State, ghost acts0: seq<Action>, ghost s1: State, ghost me: Tid)
    returns (err: Option<VaultError>, ghost acts: seq<Action>, ghost s: State)
    requires userID > 0 && pair.Usable() && t != ""
    requires Ran(cfg, s0, acts0, s1, me) && s1.pcs[me] == Completing(t, v, pair, left)
    requires s1.row == Get(store.rows, userID)
    modifies store
    ensures Ran(cfg, s0, acts, s, me) && InStep(store, userID, s) && SendsOf(acts) == SendsOf(acts0)
    ensures var matches := io.readOk && Matches(s1.row, t, Rotating, v);
            && s.row == (if matches && io.w.Lands() then CompleteRow(s1.row, v, pair.input) else s1.row)
            && (err.None? <==> matches && io.w.Acked?)
            && (err == Some(RotationConflict) <==> io.readOk && !matches)
            && s.pcs[me] == (if err.None? then Releasing
                             else if err == Some(RotationConflict) then Marking(t, v)
                             else Retry(s1.pcs[me]))
  {
    PutGet(store.rows, userID, CompleteRow(s1.row, v, pair.input));
    acts, s := Take(cfg, s0, acts0, s1, me, CompleteCheck(me, io.readOk));
    err := store.CompleteRotation(userID, t, v, pair.input, io.readOk, io.w);
    if s.pcs[me].CompleteReady? {
      acts, s := Take(cfg, s0, acts, s, me, CompleteWrite(me, io.w));
    }
  }

  /** CompleteRotation, three times at most; a conflict ends the attempts. */
  method Persist(
    store: TokenVault, userID: int, t: Token, v: nat, pair: Answer, complete: seq<Io>, mark: Io,
    ghost cfg: Config, ghost s0: State, ghost acts0: seq<Action>, ghost s1: State, ghost me: Tid)
    returns (outcome: Outcome, ghost acts: seq<Action>, ghost s: State)
    requires userID > 0 && |complete| == 3 && pair.Usable() && t != ""
    requires Ran(cfg, s0, acts0, s1, me) && s1.pcs[me] == Completing(t, v, pair, 3)
    requires s1.row == Get(store.rows, userID) && Matches(s1.row, t, Rotating, v)
    modifies store
    ensures Ran(cfg, s0, acts, s, me) && s.pcs[me] == Releasing && InStep(store, userID, s)
    ensures SendsOf(acts) == SendsOf(acts0)
    ensures outcome.Rotated? <==> Persisted(complete)
    ensures NoneLanded(complete, 3) ==>
              s.row == if mark.readOk && mark.w.Lands() then Some(s1.row.value.(state := Uncertain)) else s1.row
    ensures outcome.Rotated? || outcome == Failure
    ensures !NoneLanded(complete, 3) ==> s.row == CompleteRow(s1.row, v, pair.input)
  {
    acts, s := acts0, s1;
    var attempt, conflict := 0, false;
    ghost var landed := false;
    while attempt < 3 && !conflict
      invariant 0 <= attempt <= 3
      invariant Ran(cfg, s0, acts, s, me) && SendsOf(acts) == SendsOf(acts0) && InStep(store, userID, s)
      invariant s.row == if landed then CompleteRow(s1.row, v, pair.input) else s1.row
      invariant landed <==> !NoneLanded(complete, attempt)
      invariant forall k | 0 <= k < attempt && NoneLanded(complete, k) :: !complete[k].readOk || !complete[k].w.Acked?
      invariant s.pcs[me] == if attempt < 3 && !conflict then Completing(t, v, pair, 3 - attempt) else Marking(t, v)
      invariant conflict ==> landed
    {
      var io := complete[attempt];
      var err;
      err, acts, s := TryComplete(store, userID, t, v, pair, io, 3 - attempt, cfg, s0, acts, s, me);
      landed := landed || (io.readOk && io.w.Lands());
      if err.None? {
        return Rotated, acts, s;
      }
      conflict := err == Some(RotationConflict);
      attempt := attempt + 1;
    }
    acts, s := Mark(store, userID, t, v, mark, cfg, s0, acts, s, me);
    outcome := Failure;
  }

  /** Load the row and begin the rotation. */
  method Begin(
    store: TokenVault, userID: int, vault: Option<Row>, begin: Io,
    ghost cfg: Config, ghost s0: State, ghost me: Tid)
    returns (err: Option<VaultError>, ghost acts: seq<Action>, ghost s: State)
    requires userID > 0 && CanRotate(vault)
    requires vault == Get(store.rows, userID) == s0.row && me in s0.pcs && s0.pcs[me] == Locked
    modifies store
    ensures Ran(cfg, s0, acts, s, me) && InStep(store, userID, s) && SendsOf(acts) == 0
    ensures err.None? <==> begin.readOk && begin.w.Acked?
    ensures err.Some? ==> s.pcs[me] == Releasing
    ensures s.row == if begin.readOk && begin.w.Lands() then Some(vault.value.(state := Rotating)) else vault
    ensures var r := vault.value;
            err.None? ==> s.pcs[me] == Begun(r.refresh.value, r.version) && s.row == BeginRow(vault, r.version)
    ensures s.issued == s0.issued && s.spent == s0.spent
  {
    var t, v := vault.value.refresh.value, vault.value.version;
    acts, s := [], s0;
    acts, s := Take(cfg, s0, acts, s, me, Load(me, true));
    PutGet(store.rows, userID, BeginRow(vault, v));
    acts, s := Take(cfg, s0, acts, s, me, BeginCheck(me, begin.readOk));
    err := store.BeginRotation(userID, t, v, begin.readOk, begin.w);
    if s.pcs[me].Checked? {
      acts, s := Take(cfg, s0, acts, s, me, BeginWrite(me, begin.w));
    }
  }

  /** Where an answer leaves the thread. */
  function Answered(t: Token, v: nat, answer: Answer): Pc {
    match answer
    case Lost => Marking(t, v)
    case Unusable => Marking(t, v)
    case Invalid => Clearing(t, v)
    case Refused => Resetting(t, v)
    case Pair(_) => Completing(t, v, answer, 3)
  }

  /** callSub2APIRefresh: one POST, which the proxy client never repeats, and its answer. */
  ghost method Exchange(
    t: Token, v: nat, answer: Answer, cfg: Config, s0: State, acts0: seq<Action>, s1: State, me: Tid)
    returns (acts: seq<Action>, s: State)
    requires Ran(cfg, s0, acts0, s1, me) && s1.pcs[me] == Begun(t, v) && cfg.deletes
    requires answer.Pair? ==> answer.Usable() && answer.Next() !in s1.issued
    requires answer.Refused? ==> t !in s1.spent
    ensures Ran(cfg, s0, acts, s, me) && s.row == s1.row && SendsOf(acts) == SendsOf(acts0) + 1
    ensures s.pcs[me] == Answered(t, v, answer)
  {
    acts, s := Take(cfg, s0, acts0, s1, me, Send(me));
    acts, s := Take(cfg, s0, acts, s, me, Receive(me, answer));
  }

  /** The vault row with a new pair in it. */
  function Installed(was: Row, pair: UpsertInput): Row {
    Row(if pair.upstreamUser.Some? then pair.upstreamUser else was.upstreamUser,
        pair.access, pair.refresh, was.refresh,
        if pair.expires.Some? then pair.expires else was.expires,
        Stable, was.version + 1)
  }

  /** What the call makes of the upstream's answer, case by case: `was` is the row before
      the rotation began. */
  ghost predicate Resolved(
    was: Row, reply: Reply, clear: Write, reset: Io, mark: Io, complete: seq<Io>, outcome: Outcome, row: Option<Row>)
    requires |complete| == 3
  {
    var rotating := Some(was.(state := Rotating));
    var marked := if mark.readOk && mark.w.Lands() then Some(was.(state := Uncertain)) else rotating;
    match reply
    case TransportError => outcome == Failure && row == marked
    case Reply(status, marker, tokens) =>
      if status == 401 || status == 403 || (status == 400 && marker) then
        && row == (if clear.Lands() then None else rotating)
        && outcome == (if clear.Acked? then Rejected(status) else Failure)
      else if status < 200 || status >= 300 then
        && row == (if reset.readOk && reset.w.Lands() then Some(was.(state := Stable)) else rotating)
        && outcome == (if reset.readOk && reset.w.Acked? then Rejected(status) else Failure)
      else if tokens.None? || tokens.value.access == "" || tokens.value.refresh in {None, Some("")} then
        outcome == Failure && row == marked
      else
        && outcome == (if Persisted(complete) then Rotated else Failure)
        && row == if NoneLanded(complete, 3) then marked else Some(Installed(was, tokens.value))
  }

  /** A reported success and a row that can rotate again hold the answer's pair. */
  ghost predicate Renewed(was: Row, reply: Reply, outcome: Outcome, after: Option<Row>) {
    && (outcome.Rotated? ==>
          && reply.Reply? && reply.tokens.Some? && after.Some?
          && var (pair, row) := (reply.tokens.value, after.value);
          && row.access == pair.access && row.refresh == pair.refresh && row.prev == was.refresh
          && row.state == Stable && row.version == was.version + 1
          && row.expires == (if pair.expires.Some? then pair.expires else was.expires)
          && row.upstreamUser == (if pair.upstreamUser.Some? then pair.upstreamUser else was.upstreamUser))
    && (CanRotate(after) ==>
          || Classify(reply).Refused?
          || (Classify(reply).Pair? && after.value.refresh == reply.tokens.value.refresh
              && after.value.access == reply.tokens.value.access))
  }

  /** What the call answers and the row it leaves. */
  ghost predicate Explained(
    vault: Option<Row>, begin: Io, reply: Reply, clear: Write, reset: Io, mark: Io, complete: seq<Io>,
    outcome: Outcome, row: Option<Row>)
    requires |complete| == 3
  {
    if vault.None? || vault.value.state != Stable || vault.value.refresh in {None, Some("")} then
      outcome == NotRotatable && row == vault
    else if !begin.readOk || !begin.w.Acked? then
      && outcome == Failure
      && row == if begin.readOk && begin.w.Lands() then Some(vault.value.(state := Rotating)) else vault
    else Resolved(vault.value, reply, clear, reset, mark, complete, outcome, row)
  }

  /** The rest of the call, after the upstream has answered. */
  method Resolve(
    store: TokenVault, userID: int, was: Row, reply: Reply, clear: Write, reset: Io, mark: Io, complete: seq<Io>,
    ghost cfg: Config, ghost s0: State, ghost acts0: seq<Action>, ghost s1: State, ghost me: Tid)
    returns (outcome: Outcome, ghost acts: seq<Action>, ghost s: State)
    requires userID > 0 && |complete| == 3 && CanRotate(Some(was))
    requires Ran(cfg, s0, acts0, s1, me) && s1.row == Get(store.rows, userID) == Some(was.(state := Rotating))
    requires s1.pcs[me] == Answered(was.refresh.value, was.version, Classify(reply))
    modifies store
    ensures Ran(cfg, s0, acts, s, me) && s.pcs[me] == Releasing && InStep(store, userID, s)
    ensures SendsOf(acts) == SendsOf(acts0)
    ensures Resolved(was, reply, clear, reset, mark, complete, outcome, s.row)
    ensures Renewed(was, reply, outcome, s.row)
    ensures outcome.Rotated? <==> Classify(reply).Pair? && Persisted(complete)
  {
    var t, v := was.refresh.value, was.version;
    if reply.TransportError? {
      acts, s := Mark(store, userID, t, v, mark, cfg, s0, acts0, s1, me);
      return Failure, acts, s;
    }
    if reply.status < 200 || reply.status >= 300 {
      outcome, acts, s := Refuse(store, userID, t, v, reply, clear, reset, cfg, s0, acts0, s1, me);
      return;
    }
    if reply.tokens.None? || !Pair(reply.tokens.value).Usable() {
      acts, s := Mark(store, userID, t, v, mark, cfg, s0, acts0, s1, me);
      return Failure, acts, s;
    }
    outcome, acts, s := Persist(store, userID, t, v, Pair(reply.tokens.value), complete, mark, cfg, s0, acts0, s1, me);
  }

  /** The caller holds the user's refresh lock and has just loaded `vault`. */
  method RotateUpstreamVaultLocked(
    store: TokenVault, userID: int, vault: Option<Row>,
    begin: Io, reply: Reply, clear: Write, reset: Io, mark: Io, complete: seq<Io>,
    ghost cfg: Config, ghost s0: State, ghost me: Tid)
    returns (outcome: Outcome, ghost acts: seq<Action>, ghost s: State)
    requires userID > 0 && |complete| == 3
    requires vault == Get(store.rows, userID) == s0.row && me in s0.pcs && s0.pcs[me] == Locked
    // The environment: deletions are possible, tokens are fresh, a refused token is not consumed.
    requires cfg.deletes
    requires Classify(reply).Pair? ==> Classify(reply).Next() !in s0.issued
    requires Classify(reply).Refused? && CanRotate(vault) ==> vault.value.refresh.value !in s0.spent
    modifies store
    ensures Ran(cfg, s0, acts, s, me) && s.pcs[me] == Releasing && InStep(store, userID, s)
    ensures SendsOf(acts) <= 1
    ensures SendsOf(acts) == 1 <==> CanRotate(vault) && begin.readOk && begin.w.Acked?
    ensures outcome.Rotated? <==> SendsOf(acts) == 1 && Classify(reply).Pair? && Persisted(complete)
    ensures Explained(vault, begin, reply, clear, reset, mark, complete, outcome, s.row)
    ensures SendsOf(acts) == 1 ==> Renewed(vault.value, reply, outcome, s.row)
  {
    if vault.None? || vault.value.state != Stable || vault.value.refresh.None? || vault.value.refresh.value == "" {
      acts, s := Take(cfg, s0, [], s0, me, Load(me, true));
      return NotRotatable, acts, s;
    }
    var t, v := vault.value.refresh.value, vault.value.version;
    var err;
    err, acts, s := Begin(store, userID, vault, begin, cfg, s0, me);
    if err.Some? {
      return Failure, acts, s;
    }
    acts, s := Exchange(t, v, Classify(reply), cfg, s0, acts, s, me);
    outcome, acts, s := Resolve(store, userID, vault.value, reply, clear, reset, mark, complete,
                                cfg, s0, acts, s, me);
  }
}
