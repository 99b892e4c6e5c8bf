/** The token vault of backend/internal/sub2apiauth/service.go: one row per local user
    holding the upstream credentials, a rotation state and a version.

    Each SQL statement is a function on the user's row; `TokenVault` runs the service's
    methods on a map of rows. Credentials are the trimmed strings; sealing and opening
    them are inverse to each other and are left out. */
module Vault {
  import opened Common

  type Token = string

  datatype RotationState = Stable | Rotating | Uncertain

  datatype Row = Row(
    upstreamUser: Option<int>,
    access: Token,
    refresh: Option<Token>,
    prev: Option<Token>,
    expires: Option<int>,
    state: RotationState,
    version: nat)

  datatype UpsertInput = UpsertInput(
    upstreamUser: Option<int>,
    access: Token,
    refresh: Option<Token>,
    expires: Option<int>)

  /** A blank refresh token is stored as NULL. */
  function Nullable(refresh: Option<Token>): Option<Token> {
    if refresh == Some("") then None else refresh
  }

  // ----- SQL statements -----

  function UpsertRow(row: Option<Row>, input: UpsertInput): Row {
    var refresh := Nullable(input.refresh);
    match row
    case None =>
      Row(input.upstreamUser, input.access, refresh, None, input.expires, Stable, 0)
    case Some(r) =>
      Row(Coalesce(input.upstreamUser, r.upstreamUser),
          input.access,
          Coalesce(refresh, r.refresh),
          if refresh.Some? && r.refresh.Some? && refresh != r.refresh then r.refresh else r.prev,
          Coalesce(input.expires, r.expires),
          Stable,
          r.version + 1)
  }

  /** The WHERE clause of the four rotation UPDATEs. */
  predicate CasHits(row: Option<Row>, state: RotationState, version: int) {
    row.Some? && row.value.state == state && row.value.version == version
  }

  function BeginRow(row: Option<Row>, version: int): Option<Row> {
    if CasHits(row, Stable, version) then Some(row.value.(state := Rotating)) else row
  }

  function ResetRow(row: Option<Row>, version: int): Option<Row> {
    if CasHits(row, Rotating, version) then Some(row.value.(state := Stable)) else row
  }

  function MarkRow(row: Option<Row>, version: int): Option<Row> {
    if CasHits(row, Rotating, version) then Some(row.value.(state := Uncertain)) else row
  }

  function CompleteRow(row: Option<Row>, version: int, input: UpsertInput): Option<Row> {
    if CasHits(row, Rotating, version) then
      var r := row.value;
      Some(Row(Coalesce(input.upstreamUser, r.upstreamUser),
               input.access,
               Coalesce(Nullable(input.refresh), r.refresh),
               r.refresh,
               Coalesce(input.expires, r.expires),
               Stable,
               r.version + 1))
    else row
  }

  /** The SELECT and comparison of refreshCredentialMatches. */
  predicate Matches(row: Option<Row>, expected: Token, state: RotationState, version: int) {
    CasHits(row, state, version) && row.value.refresh == Some(expected) && expected != ""
  }

  // ----- The service -----

  datatype VaultError = RotationConflict | StoreFailure | InvalidInput

  function Get(rows: map<int, Row>, userID: int): Option<Row> {
    if userID in rows then Some(rows[userID]) else None
  }

  function Put(rows: map<int, Row>, userID: int, row: Option<Row>): map<int, Row> {
    if row.Some? then rows[userID := row.value] else rows - {userID}
  }

  lemma PutGet(rows: map<int, Row>, userID: int, row: Option<Row>)
    ensures Get(Put(rows, userID, row), userID) == row
    ensures Put(rows, userID, Get(rows, userID)) == rows
    ensures forall u | u != userID :: Get(Put(rows, userID, row), u) == Get(rows, u)
  {
  }

  /** Each method takes the fate of its SELECT (`readOk`) and of its write (`w`) as inputs. */
  class TokenVault {
    var rows: map<int, Row>

    constructor ()
      ensures rows == map[]
    {
      rows := map[];
    }

    method UpsertToken(userID: int, input: UpsertInput, w: Write) returns (err: Option<VaultError>)
      modifies this
      ensures userID <= 0 || input.access == "" ==> err == Some(InvalidInput) && rows == old(rows)
      ensures userID > 0 && input.access != "" ==>
                && err == (if w.Acked? then None else Some(StoreFailure))
                && rows == (if w.Lands() then old(rows)[userID := UpsertRow(Get(old(rows), userID), input)]
                            else old(rows))
      // Column by column, for an existing row and for a new one.
      ensures userID > 0 && input.access != "" && w.Lands() ==>
                && userID in rows
                && var row := rows[userID];
                && row.access == input.access && row.state == Stable
                && if userID in old(rows) then
                     var was := old(rows)[userID];
                     && row.upstreamUser == (if input.upstreamUser.Some? then input.upstreamUser else was.upstreamUser)
                     && row.refresh == (if input.refresh.Some? && input.refresh != Some("") then input.refresh
                                        else was.refresh)
                     && row.prev == (if was.refresh.Some? && row.refresh != was.refresh then was.refresh else was.prev)
                     && row.expires == (if input.expires.Some? then input.expires else was.expires)
                     && row.version == was.version + 1
                   else
                     && row.upstreamUser == input.upstreamUser && row.expires == input.expires
                     && row.refresh == (if input.refresh == Some("") then None else input.refresh)
                     && row.prev == None && row.version == 0
    {
      if userID <= 0 || input.access == "" {
        return Some(InvalidInput);
      }
      if w.Lands() {
        rows := rows[userID := UpsertRow(Get(rows, userID), input)];
      }
      err := if w.Acked? then None else Some(StoreFailure);
    }

    method RefreshCredentialMatches(
      userID: int, expected: Token, state: RotationState, version: int, readOk: bool)
      returns (r: Result<bool, VaultError>)
      ensures !readOk ==> r == Err(StoreFailure)
      ensures readOk ==> r == Ok(Matches(Get(rows, userID), expected, state, version))
      ensures r == Ok(true) <==>
                && readOk && userID in rows && expected != "" && rows[userID].refresh == Some(expected)
                && rows[userID].state == state && rows[userID].version == version
    {
      if !readOk {
        return Err(StoreFailure);
      }
      if userID !in rows {
        return Ok(false);
      }
      var row := rows[userID];
      if row.state != state || row.version != version {
        return Ok(false);
      }
      if row.refresh.None? || row.refresh.value == "" {
        return Ok(false);
      }
      r := Ok(row.refresh.value == expected);
    }

    method BeginRotation(userID: int, expected: Token, version: int, readOk: bool, w: Write)
      returns (err: Option<VaultError>)
      modifies this
      ensures err.None? <==>
                userID > 0 && readOk && w.Acked? && Matches(Get(old(rows), userID), expected, Stable, version)
      ensures rows == (if userID > 0 && readOk && w.Lands()
                          && Matches(Get(old(rows), userID), expected, Stable, version)
                       then Put(old(rows), userID, BeginRow(Get(old(rows), userID), version))
                       else old(rows))
      ensures err == Some(RotationConflict) <==>
                userID <= 0 || expected == "" || (readOk && !Matches(Get(old(rows), userID), expected, Stable, version))
      ensures err.None? ==>
                && userID in old(rows)
                && var was := old(rows)[userID];
                && was.state == Stable && was.version == version && was.refresh == Some(expected) && expected != ""
                && rows == old(rows)[userID := was.(state := Rotating)]
    {
      if userID <= 0 || expected == "" {
        return Some(RotationConflict);
      }
      var matches := RefreshCredentialMatches(userID, expected, Stable, version, readOk);
      if matches.Err? {
        return Some(matches.error);
      }
      if !matches.value {
        return Some(RotationConflict);
      }
      if w.Lands() && rows[userID].state == Stable && rows[userID].version == version {
        rows := rows[userID := rows[userID].(state := Rotating)];
      }
      err := if w.Acked? then None else Some(StoreFailure);
    }

    method ResetRotation(userID: int, expected: Token, version: int, readOk: bool, w: Write)
      returns (err: Option<VaultError>)
      modifies this
      ensures err.None? <==> readOk && w.Acked? && Matches(Get(old(rows), userID), expected, Rotating, version)
      ensures rows == (if readOk && w.Lands() && Matches(Get(old(rows), userID), expected, Rotating, version)
                       then Put(old(rows), userID, ResetRow(Get(old(rows), userID), version))
                       else old(rows))
      ensures err.None? ==>
                && userID in old(rows)
                && var was := old(rows)[userID];
                && was.state == Rotating && was.version == version && was.refresh == Some(expected) && expected != ""
                && rows == old(rows)[userID := was.(state := Stable)]
    {
      var matches := RefreshCredentialMatches(userID, expected, Rotating, version, readOk);
      if matches.Err? {
        return Some(matches.error);
      }
      if !matches.value {
        return Some(RotationConflict);
      }
      if w.Lands() && rows[userID].state == Rotating && rows[userID].version == version {
        rows := rows[userID := rows[userID].(state := Stable)];
      }
      err := if w.Acked? then None else Some(StoreFailure);
    }

    method MarkRotationUncertain(userID: int, expected: Token, version: int, readOk: bool, w: Write)
      returns (err: Option<VaultError>)
      modifies this
      ensures err.None? <==> readOk && w.Acked? && Matches(Get(old(rows), userID), expected, Rotating, version)
      ensures rows == (if readOk && w.Lands() && Matches(Get(old(rows), userID), expected, Rotating, version)
                       then Put(old(rows), userID, MarkRow(Get(old(rows), userID), version))
                       else old(rows))
      ensures err.None? ==>
                && userID in old(rows)
                && var was := old(rows)[userID];
                && was.state == Rotating && was.version == version && was.refresh == Some(expected) && expected != ""
                && rows == old(rows)[userID := was.(state := Uncertain)]
    {
      var matches := RefreshCredentialMatches(userID, expected, Rotating, version, readOk);
      if matches.Err? {
        return Some(matches.error);
      }
      if !matches.value {
        return Some(RotationConflict);
      }
      if w.Lands() && rows[userID].state == Rotating && rows[userID].version == version {
        rows := rows[userID := rows[userID].(state := Uncertain)];
      }
      err := if w.Acked? then None else Some(StoreFailure);
    }

    method CompleteRotation(
      userID: int, expected: Token, version: int, input: UpsertInput, readOk: bool, w: Write)
      returns (err: Option<VaultError>)
      modifies this
      ensures err.None? <==>
                && userID > 0 && input.access != "" && readOk && w.Acked?
                && Matches(Get(old(rows), userID), expected, Rotating, version)
      ensures rows == (if userID > 0 && input.access != "" && readOk && w.Lands()
                          && Matches(Get(old(rows), userID), expected, Rotating, version)
                       then Put(old(rows), userID, CompleteRow(Get(old(rows), userID), version, input))
                       else old(rows))
      ensures err == Some(RotationConflict) <==>
                || userID <= 0 || expected == "" || input.access == ""
                || (readOk && !Matches(Get(old(rows), userID), expected, Rotating, version))
      ensures err.None? ==>
                && userID in old(rows) && userID in rows
                && var (was, row) := (old(rows)[userID], rows[userID]);
                && was.state == Rotating && was.version == version && was.refresh == Some(expected) && expected != ""
                && rows == old(rows)[userID := row]
                && row.access == input.access && row.prev == was.refresh
                && row.state == Stable && row.version == was.version + 1
                && row.refresh == (if input.refresh.Some? && input.refresh != Some("") then input.refresh
                                    else was.refresh)
                && row.expires == (if input.expires.Some? then input.expires else was.expires)
                && row.upstreamUser == (if input.upstreamUser.Some? then input.upstreamUser else was.upstreamUser)
    {
      if userID <= 0 || expected == "" || input.access == "" {
        return Some(RotationConflict);
      }
      var matches := RefreshCredentialMatches(userID, expected, Rotating, version, readOk);
      if matches.Err? {
        return Some(matches.error);
      }
      if !matches.value {
        return Some(RotationConflict);
      }
      if w.Lands() && rows[userID].state == Rotating && rows[userID].version == version {
        var r := rows[userID];
        rows := rows[userID := r.(
          upstreamUser := Coalesce(input.upstreamUser, r.upstreamUser),
          access := input.access,
          refresh := Coalesce(Nullable(input.refresh), r.refresh),
          prev := r.refresh,
          expires := Coalesce(input.expires, r.expires),
          state := Stable,
          version := r.version + 1)];
      }
      err := if w.Acked? then None else Some(StoreFailure);
    }

    method ClearVault(userID: int, w: Write) returns (err: Option<VaultError>)
      modifies this
      ensures userID <= 0 ==> err == Some(InvalidInput) && rows == old(rows)
      ensures userID > 0 ==>
                && err == (if w.Acked? then None else Some(StoreFailure))
                && rows == (if w.Lands() then old(rows) - {userID} else old(rows))
    {
      if userID <= 0 {
        return Some(InvalidInput);
      }
      if w.Lands() {
        rows := rows - {userID};
      }
      err := if w.Acked? then None else Some(StoreFailure);
    }
  }
}
