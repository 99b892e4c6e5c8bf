/** QR-code login: backend/internal/scanlogin/service.go. The rows of als_scan_codes are
    keyed by scan code (hashing is injective); times are seconds. */
module ScanLogin {
  import opened Common

  type Code = string
  type Token = string
  type UserId = int

  const TTL := 300
  const CLEANUP_GRACE := 600

  datatype Status = Pending | Scanned | Authorized | Denied

  datatype Row = Row(device: Code, status: Status, user: Option<UserId>, token: Option<Token>, expiresAt: int)

  datatype ScanError = NotFound | InvalidState | MintFailed

  // ----- SQL statements: the new row and whether one row was affected -----

  predicate ScanHits(row: Option<Row>, now: int) {
    row.Some? && row.value.status.Pending? && row.value.expiresAt > now
  }

  predicate ConfirmHits(row: Option<Row>, user: UserId, now: int) {
    row.Some? && row.value.status.Scanned? && row.value.user == Some(user) && row.value.expiresAt > now
  }

  predicate DenyHits(row: Option<Row>, now: int) {
    row.Some? && (row.value.status.Pending? || row.value.status.Scanned?) && row.value.expiresAt > now
  }

  predicate Stale(row: Row, now: int) {
    row.expiresAt < now - CLEANUP_GRACE
  }

  function Swept(rows: map<Code, Row>, now: int): map<Code, Row> {
    map code | code in rows && !Stale(rows[code], now) :: rows[code]
  }

  // ----- Reads -----

  /** repeatOutcomeForUser: is this repeated call idempotent, a conflict, or an error? */
  function RepeatOutcome(row: Option<Row>, user: UserId, expectAuthorized: bool, now: int): Result<bool, ScanError> {
    if row.None? then Err(NotFound)
    else if row.value.user != Some(user) || row.value.expiresAt <= now then Err(InvalidState)
    else match row.value.status
         case Authorized => Ok(expectAuthorized)
         case Scanned => Ok(!expectAuthorized)
         case _ => Err(InvalidState)
  }

  /** The check of Confirm before it mints: Ok(true) is an idempotent repeat, Ok(false) asks
      for a session. */
  function ConfirmGate(row: Option<Row>, user: UserId, now: int): Result<bool, ScanError> {
    if row.None? then Err(NotFound)
    else
      var sameUser := row.value.user == Some(user) && row.value.expiresAt > now;
      if row.value.status.Authorized? && sameUser then Ok(true)
      else if row.value.status.Scanned? && sameUser then Ok(false)
      else Err(InvalidState)
  }

  /** What a poll of Status shows. */
  datatype View =
    | Expired
    | Shown(status: Status, session: Option<Token>)

  function StatusView(row: Row, now: int): View {
    if row.expiresAt <= now then Expired
    else Shown(row.status, if row.status.Authorized? && row.user.Some? then row.token else None)
  }

  function Get(rows: map<Code, Row>, code: Code): Option<Row> {
    if code in rows then Some(rows[code]) else None
  }

  // ----- The service -----

  class ScanLoginService {
    var rows: map<Code, Row>
    var byDevice: map<Code, Code>      // the unique device code of each row

    constructor ()
      ensures rows == map[] && byDevice == map[]
    {
      rows, byDevice := map[], map[];
    }

    method Init(device: Code, code: Code, now: int)
      requires code !in rows && device !in byDevice
      modifies this
      ensures rows == old(rows)[code := Row(device, Pending, None, None, now + TTL)]
      ensures byDevice == old(byDevice)[device := code]
      ensures rows[code].status == Pending && rows[code].user == None && rows[code].expiresAt == now + 300
    {
      rows := rows[code := Row(device, Pending, None, None, now + TTL)];
      byDevice := byDevice[device := code];
    }

    method Status(device: Code, now: int) returns (r: Result<View, ScanError>)
      ensures device == "" || device !in byDevice || byDevice[device] !in rows ==> r == Err(NotFound)
      ensures device != "" && device in byDevice && byDevice[device] in rows ==>
                r == Ok(StatusView(rows[byDevice[device]], now))
      ensures r.Ok? ==>
                var row := rows[byDevice[device]];
                r.value == if now >= row.expiresAt then Expired
                           else if row.status == Authorized && row.user.Some? then Shown(Authorized, row.token)
                           else Shown(row.status, None)
    {
      if device == "" || device !in byDevice || byDevice[device] !in rows {
        return Err(NotFound);
      }
      var row := rows[byDevice[device]];
      if row.expiresAt <= now {
        return Ok(Expired);
      }
      var session := None;
      if row.status.Authorized? && row.user.Some? {
        session := row.token;
      }
      r := Ok(Shown(row.status, session));
    }

    method Scan(code: Code, user: UserId, now: int, later: int) returns (err: Option<ScanError>)
      modifies this`rows
      ensures var row := Get(old(rows), code);
              if ScanHits(row, now) then
                err.None? && rows == old(rows)[code := row.value.(status := Scanned, user := Some(user))]
              else
                && rows == old(rows)
                && (err.None? <==> RepeatOutcome(row, user, false, later) == Ok(true))
                && (row.None? ==> err == Some(NotFound))
      ensures code !in old(rows) ==> err == Some(NotFound) && rows == old(rows)
      ensures code in old(rows) ==>
                var row := old(rows)[code];
                if row.status == Pending && now < row.expiresAt then
                  && err == None
                  && rows == old(rows)[code := Row(row.device, Scanned, Some(user), row.token, row.expiresAt)]
                else
                  && rows == old(rows)
                  && err == if row.status == Scanned && row.user == Some(user) && later < row.expiresAt then None
                            else Some(InvalidState)
    {
      if ScanHits(Get(rows, code), now) {
        rows := rows[code := rows[code].(status := Scanned, user := Some(user))];
        return None;
      }
      var repeat := RepeatOutcome(Get(rows, code), user, false, later);
      if repeat.Err? {
        return Some(repeat.error);
      }
      err := if repeat.value then None else Some(InvalidState);
    }

    /** `minted` is the session the minter answers with, None when it fails. */
    method Confirm(code: Code, user: UserId, minted: Option<Token>, now: int, later: int, last: int)
      returns (err: Option<ScanError>)
      modifies this`rows
      ensures var row := Get(old(rows), code);
              match ConfirmGate(row, user, now)
              case Err(e) => err == Some(e) && rows == old(rows)
              case Ok(true) => err == None && rows == old(rows)
              case Ok(false) =>
                if minted.None? then err == Some(MintFailed) && rows == old(rows)
                else if row.value.expiresAt > later then
                  err == None && rows == old(rows)[code := row.value.(status := Authorized, token := minted)]
                else err.Some? && rows == old(rows)
      ensures code !in old(rows) ==> err == Some(NotFound) && rows == old(rows)
      ensures code in old(rows) ==>
                var row := old(rows)[code];
                if row.user != Some(user) || now >= row.expiresAt || row.status in {Pending, Denied} then
                  err == Some(InvalidState) && rows == old(rows)
                else if row.status == Authorized then err == None && rows == old(rows)
                else if minted == None then err == Some(MintFailed) && rows == old(rows)
                else if later < row.expiresAt then
                  && err == None
                  && rows == old(rows)[code := Row(row.device, Authorized, Some(user), minted, row.expiresAt)]
                else err == Some(InvalidState) && rows == old(rows)
    {
      var gate := ConfirmGate(Get(rows, code), user, now);
      if gate.Err? {
        return Some(gate.error);
      }
      if gate.value {
        return None;
      }
      if minted.None? {
        return Some(MintFailed);
      }
      if ConfirmHits(Get(rows, code), user, later) {
        rows := rows[code := rows[code].(status := Authorized, token := minted)];
        return None;
      }
      var repeat := RepeatOutcome(Get(rows, code), user, true, last);
      if repeat.Err? {
        return Some(repeat.error);
      }
      err := if repeat.value then None else Some(InvalidState);
    }

    method Deny(code: Code, now: int) returns (err: Option<ScanError>)
      modifies this`rows
      ensures var row := Get(old(rows), code);
              if DenyHits(row, now) then err.None? && rows == old(rows)[code := row.value.(status := Denied)]
              else rows == old(rows) && err == Some(if row.None? then NotFound else InvalidState)
      ensures code in old(rows) ==>
                var row := old(rows)[code];
                if row.status in {Pending, Scanned} && now < row.expiresAt then
                  err == None && rows == old(rows)[code := Row(row.device, Denied, row.user, row.token, row.expiresAt)]
                else err == Some(InvalidState) && rows == old(rows)
    {
      if DenyHits(Get(rows, code), now) {
        rows := rows[code := rows[code].(status := Denied)];
        return None;
      }
      err := Some(if code !in rows then NotFound else InvalidState);
    }

    method CleanupExpired(now: int)
      modifies this`rows
      ensures rows == Swept(old(rows), now)
      ensures forall code | code in old(rows) :: code in rows <==> old(rows)[code].expiresAt + 600 >= now
    {
      rows := map code | code in rows && rows[code].expiresAt >= now - CLEANUP_GRACE :: rows[code];
    }
  }
}
