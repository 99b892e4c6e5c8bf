/** All interleavings of the QR-code login: Scan, Deny and Cleanup statements and the read,
    mint, compare-and-set and re-read steps of any number of concurrent Confirm calls. */
module ScanLoginMachine {
  import opened Common
  import opened ScanLogin

  type Tid = nat

  datatype Pc =
    | Rescanning(code: Code, user: UserId)
    | ScanDone(code: Code, user: UserId)
    | Minting(code: Code, user: UserId)
    | Minted(code: Code, user: UserId, token: Token)
    | Reconfirming(code: Code, user: UserId)
    | ConfirmDone(code: Code, user: UserId)
    | Rejected

  /** Every time a statement uses was read before, so it is at most `clock`. */
  datatype Action =
    | Tick
    | Init(device: Code, code: Code, now: int)
    | Scan(t: Tid, code: Code, user: UserId, now: int)
    | Rescan(t: Tid, now: int)
    | Gate(t: Tid, code: Code, user: UserId, now: int)
    | Mint(t: Tid, token: Option<Token>)
    | Cas(t: Tid, now: int)
    | Reconfirm(t: Tid, now: int)
    | Deny(code: Code, now: int)
    | Cleanup(now: int)

  /** `codes` are the scan codes ever issued; a session records for whom and for which code
      it was minted; `scanner` and `confirmer` are the users whose calls moved a row. */
  datatype Session = Session(user: UserId, code: Code)

  datatype State = State(
    clock: int,
    rows: map<Code, Row>,
    codes: set<Code>,
    sessions: map<Token, Session>,
    scanner: map<Code, UserId>,
    confirmer: map<Code, UserId>,
    pcs: map<Tid, Pc>)

  const START := State(0, map[], {}, map[], map[], map[], map[])

  predicate Enabled(s: State, a: Action) {
    match a
    case Tick => true
    case Init(_, code, now) => code !in s.codes && now <= s.clock
    case Scan(t, _, _, now) => t !in s.pcs && now <= s.clock
    case Gate(t, _, _, now) => t !in s.pcs && now <= s.clock
    case Rescan(t, now) => t in s.pcs && s.pcs[t].Rescanning? && now <= s.clock
    case Mint(t, token) => t in s.pcs && s.pcs[t].Minting? && (token.Some? ==> token.value !in s.sessions)
    case Cas(t, now) => t in s.pcs && s.pcs[t].Minted? && now <= s.clock
    case Reconfirm(t, now) => t in s.pcs && s.pcs[t].Reconfirming? && now <= s.clock
    case Deny(_, now) => now <= s.clock
    case Cleanup(now) => now <= s.clock
  }

  function Goto(s: State, t: Tid, pc: Pc): State {
    s.(pcs := s.pcs[t := pc])
  }

  function Apply(s: State, a: Action): State
    requires Enabled(s, a)
  {
    match a
    case Tick => s.(clock := s.clock + 1)
    case Init(device, code, now) =>
      s.(rows := s.rows[code := Row(device, Pending, None, None, now + TTL)], codes := s.codes + {code})
    case Scan(t, code, user, now) =>
      if ScanHits(Get(s.rows, code), now)
      then Goto(s.(rows := s.rows[code := s.rows[code].(status := Scanned, user := Some(user))],
                   scanner := s.scanner[code := user]), t, ScanDone(code, user))
      else Goto(s, t, Rescanning(code, user))
    case Rescan(t, now) =>
      var pc := s.pcs[t];
      Goto(s, t, if RepeatOutcome(Get(s.rows, pc.code), pc.user, false, now) == Ok(true)
                 then ScanDone(pc.code, pc.user) else Rejected)
    case Gate(t, code, user, now) =>
      Goto(s, t, match ConfirmGate(Get(s.rows, code), user, now)
                 case Err(_) => Rejected
                 case Ok(true) => ConfirmDone(code, user)
                 case Ok(false) => Minting(code, user))
    case Mint(t, token) =>
      var pc := s.pcs[t];
      if token.None? then Goto(s, t, Rejected)
      else Goto(s.(sessions := s.sessions[token.value := Session(pc.user, pc.code)]), t,
                Minted(pc.code, pc.user, token.value))
    case Cas(t, now) =>
      var pc := s.pcs[t];
      if ConfirmHits(Get(s.rows, pc.code), pc.user, now)
      then Goto(s.(rows := s.rows[pc.code := s.rows[pc.code].(status := Authorized, token := Some(pc.token))],
                   confirmer := s.confirmer[pc.code := pc.user]), t, ConfirmDone(pc.code, pc.user))
      else Goto(s, t, Reconfirming(pc.code, pc.user))
    case Reconfirm(t, now) =>
      var pc := s.pcs[t];
      Goto(s, t, if RepeatOutcome(Get(s.rows, pc.code), pc.user, true, now) == Ok(true)
                 then ConfirmDone(pc.code, pc.user) else Rejected)
    case Deny(code, now) =>
      if DenyHits(Get(s.rows, code), now)
      then s.(rows := s.rows[code := s.rows[code].(status := Denied)]) else s
    case Cleanup(now) => s.(rows := Swept(s.rows, now))
  }

  ghost function After(acts: seq<Action>): Option<State> {
    if acts == [] then Some(START)
    else match After(acts[..|acts| - 1])
         case None => None
         case Some(s) =>
           var a := acts[|acts| - 1];
           if Enabled(s, a) then Some(Apply(s, a)) else None
  }

  // ----- The invariant -----

  ghost predicate RowOk(s: State, code: Code, row: Row) {
    && code in s.codes
    && (row.user.Some? ==> code in s.scanner && s.scanner[code] == row.user.value)
    && (row.status.Pending? ==> row.user.None? && code !in s.scanner)
    && (row.status.Scanned? || row.status.Authorized? ==> row.user.Some?)
    && (row.token.Some? <==> row.status.Authorized?)
    && (row.status.Authorized? ==>
          && row.token.value in s.sessions
          && s.sessions[row.token.value] == Session(row.user.value, code)
          && code in s.confirmer && s.confirmer[code] == row.user.value)
  }

  ghost predicate ScannedBy(s: State, code: Code, user: UserId) {
    code in s.scanner && s.scanner[code] == user
  }

  ghost predicate PcOk(s: State, pc: Pc) {
    match pc
    case ScanDone(code, user) => code in s.codes && (code in s.rows ==> s.rows[code].user == Some(user))
    case Minting(code, user) => code in s.codes && ScannedBy(s, code, user)
    case Minted(code, user, token) => token in s.sessions && s.sessions[token] == Session(user, code)
    case ConfirmDone(code, user) =>
      code in s.codes && (code in s.rows ==> s.rows[code].status.Authorized? && s.rows[code].user == Some(user))
    case _ => true
  }

  ghost predicate Inv(s: State) {
    && (forall code | code in s.rows :: RowOk(s, code, s.rows[code]))
    && (forall t | t in s.pcs :: PcOk(s, s.pcs[t]))
    && s.scanner.Keys <= s.codes
    && (forall token | token in s.sessions :: ScannedBy(s, s.sessions[token].code, s.sessions[token].user))
  }

  lemma RowsKeep(s: State, a: Action)
    requires Inv(s) && Enabled(s, a) && (a.Init? || a.Deny? || a.Cleanup? || a.Tick?)
    ensures Inv(Apply(s, a))
  {
  }

  lemma ScanKeeps(s: State, a: Action)
    requires Inv(s) && Enabled(s, a) && a.Scan?
    ensures Inv(Apply(s, a))
  {
  }

  lemma CasKeeps(s: State, a: Action)
    requires Inv(s) && Enabled(s, a) && a.Cas?
    ensures Inv(Apply(s, a))
  {
  }

  lemma ThreadKeeps(s: State, a: Action)
    requires Inv(s) && Enabled(s, a) && (a.Rescan? || a.Gate? || a.Mint? || a.Reconfirm?)
    ensures Inv(Apply(s, a))
  {
  }

  lemma {:induction false} InvAlways(acts: seq<Action>)
    requires After(acts).Some?
    ensures Inv(After(acts).value)
  {
    if acts != [] {
      InvAlways(acts[..|acts| - 1]);
      var s, a := After(acts[..|acts| - 1]).value, acts[|acts| - 1];
      match a
      case Scan(_, _, _, _) => ScanKeeps(s, a);
      case Cas(_, _) => CasKeeps(s, a);
      case Rescan(_, _) | Gate(_, _, _, _) | Mint(_, _) | Reconfirm(_, _) => ThreadKeeps(s, a);
      case _ => RowsKeep(s, a);
    }
  }

  // ----- What happens to one row over time -----

  /** From `row` to `row'` of the same code: the bound user never changes, authorized and
      denied rows never change at all, nor do the device and the expiry. */
  ghost predicate Evolves(row: Row, row': Row) {
    && (row.user.Some? ==> row'.user == row.user)
    && (row.status.Authorized? || row.status.Denied? ==> row' == row)
    && (row'.status.Pending? ==> row.status.Pending?)
    && row'.device == row.device && row'.expiresAt == row.expiresAt
  }

  lemma StepEvolves(s: State, a: Action, code: Code)
    requires Inv(s) && Enabled(s, a)
    requires code in s.rows && code in Apply(s, a).rows
    ensures Evolves(s.rows[code], Apply(s, a).rows[code])
  {
  }

  lemma StepCodes(s: State, a: Action, code: Code)
    requires Enabled(s, a) && code in s.codes && code !in s.rows
    ensures code in Apply(s, a).codes && code !in Apply(s, a).rows
  {
  }

  lemma StepGrows(s: State, a: Action)
    requires Enabled(s, a)
    ensures s.codes <= Apply(s, a).codes && s.clock <= Apply(s, a).clock
  {
  }

  /** A row that exists at two moments of a run existed in between and evolved. */
  lemma {:induction false} RowEvolves(acts: seq<Action>, i: nat, code: Code)
    requires i <= |acts| && After(acts).Some? && After(acts[..i]).Some?
    requires code in After(acts[..i]).value.rows && code in After(acts).value.rows
    ensures Evolves(After(acts[..i]).value.rows[code], After(acts).value.rows[code])
  {
    if i == |acts| {
      assert acts[..i] == acts;
    } else {
      var before, a := acts[..|acts| - 1], acts[|acts| - 1];
      assert before[..i] == acts[..i];
      InvAlways(before);
      if code !in After(before).value.rows {
        CodeKnown(before, i, code);
        StepCodes(After(before).value, a, code);
        assert false;
      } else {
        RowEvolves(before, i, code);
        StepEvolves(After(before).value, a, code);
      }
    }
  }

  lemma {:induction false} CodeKnown(acts: seq<Action>, i: nat, code: Code)
    requires i <= |acts| && After(acts).Some? && After(acts[..i]).Some? && code in After(acts[..i]).value.rows
    ensures code in After(acts).value.codes
  {
    if i == |acts| {
      assert acts[..i] == acts;
      InvAlways(acts);
    } else {
      assert acts[..|acts| - 1][..i] == acts[..i];
      CodeKnown(acts[..|acts| - 1], i, code);
      StepGrows(After(acts[..|acts| - 1]).value, acts[|acts| - 1]);
    }
  }

  // ----- Main results -----

  /** In every interleaving: an authorized row was confirmed by its scanner and carries a
      session minted for that user and this code, so no two codes share a session. */
  lemma AuthorizedByItsScanner(acts: seq<Action>, s: State, code: Code, code': Code)
    requires After(acts) == Some(s) && code in s.rows && s.rows[code].status.Authorized?
    ensures var row := s.rows[code];
            && row.user.Some? && row.token.Some?
            && code in s.scanner && s.scanner[code] == row.user.value
            && code in s.confirmer && s.confirmer[code] == row.user.value
            && row.token.value in s.sessions && s.sessions[row.token.value] == Session(row.user.value, code)
            && (code' in s.rows && s.rows[code'].token == row.token ==> code' == code)
  {
    InvAlways(acts);
  }

  /** A Confirm that has returned success names an authorized row of the caller, and a Scan
      that has returned success a row bound to the caller, until the row is deleted. */
  lemma SuccessMeansBound(acts: seq<Action>, s: State, t: Tid)
    requires After(acts) == Some(s) && t in s.pcs && (s.pcs[t].ConfirmDone? || s.pcs[t].ScanDone?)
    requires s.pcs[t].code in s.rows
    ensures s.rows[s.pcs[t].code].user == Some(s.pcs[t].user)
    ensures s.pcs[t].ConfirmDone? ==> s.rows[s.pcs[t].code].status.Authorized?
  {
    InvAlways(acts);
  }

  /** What a poll hands out: a session only from an unexpired authorized row, and then one
      minted for the user who scanned and confirmed this very code. */
  lemma PollShowsScannersSession(acts: seq<Action>, s: State, code: Code, now: int, token: Token)
    requires After(acts) == Some(s) && code in s.rows
    requires StatusView(s.rows[code], now).Shown? && StatusView(s.rows[code], now).session == Some(token)
    ensures token in s.sessions && s.sessions[token].code == code
    ensures code in s.scanner && code in s.confirmer
    ensures s.scanner[code] == s.confirmer[code] == s.sessions[token].user
    ensures s.rows[code].expiresAt > now
  {
    InvAlways(acts);
  }

  lemma StepDeletes(s: State, a: Action, code: Code)
    requires Enabled(s, a) && code in s.rows && code !in Apply(s, a).rows
    ensures a.Cleanup? && s.rows[code].expiresAt + CLEANUP_GRACE < s.clock
  {
  }

  /** A row stays at least until it has been expired for the whole grace. */
  lemma {:induction false} RowStaysUntilGrace(acts: seq<Action>, i: nat, code: Code)
    requires i <= |acts| && After(acts).Some? && After(acts[..i]).Some?
    requires code in After(acts[..i]).value.rows
    requires After(acts).value.clock <= After(acts[..i]).value.rows[code].expiresAt + CLEANUP_GRACE
    ensures code in After(acts).value.rows
  {
    if i == |acts| {
      assert acts[..i] == acts;
    } else {
      var before, a := acts[..|acts| - 1], acts[|acts| - 1];
      assert before[..i] == acts[..i];
      StepGrows(After(before).value, a);
      RowStaysUntilGrace(before, i, code);
      RowEvolves(before, i, code);
      if code !in Apply(After(before).value, a).rows {
        StepDeletes(After(before).value, a, code);
      }
    }
  }

  // ----- Expiry is a hard border -----

  /** The time a statement on this code's row compares with, if the action has one. */
  function Uses(s: State, a: Action, code: Code): Option<int> {
    match a
    case Scan(_, c, _, now) => if c == code then Some(now) else None
    case Deny(c, now) => if c == code then Some(now) else None
    case Cas(t, now) => if t in s.pcs && s.pcs[t].Minted? && s.pcs[t].code == code then Some(now) else None
    case _ => None
  }

  /** A row is changed only by a statement that names its code before it expires. */
  lemma ExpiredUnchanged(s: State, a: Action, code: Code)
    requires Enabled(s, a) && code in s.rows && code in Apply(s, a).rows
    requires !a.Init? || a.code != code
    ensures Uses(s, a, code).None? || Uses(s, a, code).value >= s.rows[code].expiresAt ==>
              Apply(s, a).rows[code] == s.rows[code]
  {
  }

  /** A bound row was bound by its user's Scan, before it expired. */
  lemma {:induction false} BoundBeforeExpiry(acts: seq<Action>, code: Code) returns (i: nat)
    requires After(acts).Some? && code in After(acts).value.rows && After(acts).value.rows[code].user.Some?
    ensures i < |acts| && acts[i].Scan? && acts[i].code == code
    ensures After(acts).value.rows[code].user == Some(acts[i].user)
    ensures acts[i].now < After(acts).value.rows[code].expiresAt
  {
    var before, a := acts[..|acts| - 1], acts[|acts| - 1];
    var s := After(before).value;
    InvAlways(before);
    if code in s.rows && s.rows[code].user.Some? {
      i := BoundBeforeExpiry(before, code);
      StepEvolves(s, a, code);
    } else {
      i := |acts| - 1;
    }
  }

  /** An authorized row was authorized by its scanner's Confirm, before it expired, with the
      session that this Confirm minted. */
  lemma {:induction false} AuthorizedBeforeExpiry(acts: seq<Action>, code: Code) returns (i: nat)
    requires After(acts).Some? && code in After(acts).value.rows && After(acts).value.rows[code].status.Authorized?
    ensures i < |acts| && acts[i].Cas? && After(acts[..i]).Some?
    ensures var row, pcs := After(acts).value.rows[code], After(acts[..i]).value.pcs;
            && acts[i].now < row.expiresAt && acts[i].t in pcs
            && row.user.Some? && row.token.Some?
            && pcs[acts[i].t] == Minted(code, row.user.value, row.token.value)
  {
    var before, a := acts[..|acts| - 1], acts[|acts| - 1];
    var s := After(before).value;
    InvAlways(before);
    InvAlways(acts);
    if code in s.rows && s.rows[code].status.Authorized? {
      i := AuthorizedBeforeExpiry(before, code);
      StepEvolves(s, a, code);
      assert before[..i] == acts[..i];
    } else {
      i := |acts| - 1;
      assert acts[..i] == before;
    }
  }

  /** No session is minted but for the user who scanned the code. */
  lemma MintedForScanner(acts: seq<Action>, s: State, token: Token)
    requires After(acts) == Some(s) && token in s.sessions
    ensures ScannedBy(s, s.sessions[token].code, s.sessions[token].user)
  {
    InvAlways(acts);
  }

  // ----- Progress -----

  lemma Extend(acts: seq<Action>, s: State, a: Action) returns (acts': seq<Action>, s': State)
    requires After(acts) == Some(s) && Enabled(s, a)
    ensures s' == Apply(s, a) && After(acts') == Some(s')
  {
    acts', s' := acts + [a], Apply(s, a);
    assert acts'[..|acts'| - 1] == acts;
  }

  /** In any state a Scan binds a pending row that has not expired, and only such a row. */
  lemma ScanBindsIff(s: State, t: Tid, code: Code, user: UserId, now: int)
    requires Enabled(s, Scan(t, code, user, now))
    ensures var s' := Apply(s, Scan(t, code, user, now));
            if code in s.rows && s.rows[code].status == Pending && now < s.rows[code].expiresAt then
              && s'.pcs[t] == ScanDone(code, user)
              && s'.rows == s.rows[code := s.rows[code].(status := Scanned, user := Some(user))]
            else s'.pcs[t] == Rescanning(code, user) && s'.rows == s.rows
  {
  }

  /** Only a Confirm of the scanner, on a scanned row that has not expired, goes on to mint. */
  lemma GateMintsIff(s: State, t: Tid, code: Code, user: UserId, now: int)
    requires Enabled(s, Gate(t, code, user, now))
    ensures Apply(s, Gate(t, code, user, now)).pcs[t].Minting? <==>
              && code in s.rows && s.rows[code].status == Scanned
              && s.rows[code].user == Some(user) && now < s.rows[code].expiresAt
  {
  }

  /** From any reachable state: an undisturbed scan and confirmation of a pending row, each
      statement before the expiry, authorizes the row, and a poll then shows exactly the
      session that was minted, until the row expires. */
  lemma LoginSucceeds(acts: seq<Action>, s: State, code: Code, user: UserId, t: Tid, u: Tid, token: Token, now: int)
    returns (acts': seq<Action>, s': State)
    requires After(acts) == Some(s) && code in s.rows && s.rows[code].status == Pending
    requires now <= s.clock && now < s.rows[code].expiresAt
    requires t !in s.pcs && u !in s.pcs && t != u && token !in s.sessions
    ensures After(acts') == Some(s') && s'.pcs == s.pcs[t := ScanDone(code, user)][u := ConfirmDone(code, user)]
    ensures s'.rows == s.rows[code := Row(s.rows[code].device, Authorized, Some(user), Some(token),
                                          s.rows[code].expiresAt)]
    ensures s'.sessions == s.sessions[token := Session(user, code)]
    ensures forall later :: StatusView(s'.rows[code], later) ==
                            if later < s.rows[code].expiresAt then Shown(Authorized, Some(token)) else Expired
  {
    acts', s' := Extend(acts, s, Scan(t, code, user, now));
    acts', s' := Extend(acts', s', Gate(u, code, user, now));
    acts', s' := Extend(acts', s', Mint(u, Some(token)));
    acts', s' := Extend(acts', s', Cas(u, now));
  }

  /** A repeated Scan succeeds exactly while the row is scanned by the same user and has not
      expired: an authorized row is not confirmed to a scanner again. */
  lemma RescanSucceedsIff(s: State, t: Tid, now: int)
    requires Enabled(s, Rescan(t, now))
    ensures var (code, user) := (s.pcs[t].code, s.pcs[t].user);
            Apply(s, Rescan(t, now)).pcs[t] ==
            if code in s.rows && s.rows[code].status == Scanned && s.rows[code].user == Some(user)
               && now < s.rows[code].expiresAt
            then ScanDone(code, user) else Rejected
  {
  }

  /** A Confirm that lost its compare-and-set succeeds exactly when another Confirm of the
      same user has authorized the row, which has not expired. */
  lemma ReconfirmSucceedsIff(s: State, t: Tid, now: int)
    requires Enabled(s, Reconfirm(t, now))
    ensures var (code, user) := (s.pcs[t].code, s.pcs[t].user);
            Apply(s, Reconfirm(t, now)).pcs[t] ==
            if code in s.rows && s.rows[code].status == Authorized && s.rows[code].user == Some(user)
               && now < s.rows[code].expiresAt
            then ConfirmDone(code, user) else Rejected
  {
  }

  /** A pending or scanned row can be denied until it expires, and is then denied for good. */
  lemma DenyEndsIff(s: State, code: Code, now: int)
    requires Enabled(s, Deny(code, now)) && code in s.rows
    ensures Apply(s, Deny(code, now)).rows ==
            if s.rows[code].status in {Pending, Scanned} && now < s.rows[code].expiresAt
            then s.rows[code := s.rows[code].(status := Denied)] else s.rows
  {
  }

  /** Cleanup deletes exactly the rows that have been expired for longer than the grace. */
  lemma CleanupDeletesIff(s: State, code: Code, now: int)
    requires Enabled(s, Cleanup(now)) && code in s.rows
    ensures code in Apply(s, Cleanup(now)).rows <==> now <= s.rows[code].expiresAt + CLEANUP_GRACE
  {
  }
}
