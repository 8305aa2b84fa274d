/**
 The refresh-token table of `backend/app/auth/service.py`. Each operation is one transaction. A raw
 token stands for its hash, which is taken to be injective; passwords and access tokens are left out.
 */
module TokenStore {
  import opened Wrappers

  datatype TokenRow = TokenRow(
    user: nat, raw: nat, jti: nat, expiresAt: int, revokedAt: Option<int>, replacedBy: Option<nat>)

  datatype AuthError = InvalidCredentials | UserInactive | InvalidRefreshToken | TokenCollision

  datatype AuthTx<+T> = AuthTx(rows: seq<TokenRow>, reply: Result<T, AuthError>)

  /** The position of the row with this raw token. */
  function FindToken(rows: seq<TokenRow>, raw: nat): Option<nat> {
    if rows == [] then None
    else if rows[|rows| - 1].raw == raw then Some(|rows| - 1)
    else FindToken(rows[..|rows| - 1], raw)
  }

  /** Both `token_hash` and `jti` are unique columns. */
  predicate Collides(rows: seq<TokenRow>, raw: nat, jti: nat) {
    exists i | 0 <= i < |rows| :: rows[i].raw == raw || rows[i].jti == jti
  }

  predicate IsLive(row: TokenRow, now: int) {
    row.revokedAt.None? && row.expiresAt > now
  }

  /** `authenticate`: `known` is the outcome of the e-mail and password check. */
  function Login(rows: seq<TokenRow>, user: nat, known: bool, active: bool, raw: nat, jti: nat, now: int,
      days: nat): AuthTx<nat> {
    if !known then AuthTx(rows, Err(InvalidCredentials))
    else if !active then AuthTx(rows, Err(UserInactive))
    else if Collides(rows, raw, jti) then AuthTx(rows, Err(TokenCollision))
    else AuthTx(rows + [TokenRow(user, raw, jti, now + days, None, None)], Ok(raw))
  }

  /** `rotate_refresh`: the presented token is revoked and linked to a new one of the same user. */
  function Rotate(rows: seq<TokenRow>, raw: nat, active: bool, newRaw: nat, newJti: nat, now: int,
      days: nat): AuthTx<nat> {
    match FindToken(rows, raw)
    case None => AuthTx(rows, Err(InvalidRefreshToken))
    case Some(i) =>
      FindTokenPosition(rows, raw);
      if !IsLive(rows[i], now) then AuthTx(rows, Err(InvalidRefreshToken))
      else if !active then AuthTx(rows, Err(UserInactive))
      else if Collides(rows, newRaw, newJti) then AuthTx(rows, Err(TokenCollision))
      else AuthTx(Rotated(rows, i, newRaw, newJti, now, days), Ok(newRaw))
  }

  function Rotated(rows: seq<TokenRow>, i: nat, newRaw: nat, newJti: nat, now: int, days: nat): seq<TokenRow>
    requires i < |rows|
  {
    rows[i := rows[i].(revokedAt := Some(now), replacedBy := Some(newJti))]
    + [TokenRow(rows[i].user, newRaw, newJti, now + days, None, None)]
  }

  /** `revoke_refresh`: revoking again overwrites the time. */
  function Revoke(rows: seq<TokenRow>, raw: nat, now: int): seq<TokenRow> {
    match FindToken(rows, raw)
    case None => rows
    case Some(i) =>
      FindTokenPosition(rows, raw);
      rows[i := rows[i].(revokedAt := Some(now))]
  }

  lemma {:induction false} FindTokenPosition(rows: seq<TokenRow>, raw: nat)
    ensures FindToken(rows, raw).Some? ==>
              FindToken(rows, raw).value < |rows| && rows[FindToken(rows, raw).value].raw == raw
    ensures FindToken(rows, raw).None? <==> forall i | 0 <= i < |rows| :: rows[i].raw != raw
  {
    if rows != [] && rows[|rows| - 1].raw != raw {
      FindTokenPosition(rows[..|rows| - 1], raw);
    }
  }

  /** The table as the service updates it in place. */
  class RefreshTokens {
    var rows: seq<TokenRow>

    constructor ()
      ensures rows == []
    {
      rows := [];
    }

    /** Insert or raise, as the unique columns decide. */
    method Insert(row: TokenRow) returns (ok: bool)
      modifies this
      ensures ok == !Collides(old(rows), row.raw, row.jti)
      ensures rows == if ok then old(rows) + [row] else old(rows)
    {
      ok := !Collides(rows, row.raw, row.jti);
      if ok {
        rows := rows + [row];
      }
    }

    method Authenticate(user: nat, known: bool, active: bool, raw: nat, jti: nat, now: int, days: nat)
      returns (r: Result<nat, AuthError>)
      modifies this
      ensures AuthTx(rows, r) == Login(old(rows), user, known, active, raw, jti, now, days)
    {
      if !known { return Err(InvalidCredentials); }
      if !active { return Err(UserInactive); }
      var ok := Insert(TokenRow(user, raw, jti, now + days, None, None));
      r := if ok then Ok(raw) else Err(TokenCollision);
    }

    /** The old row is changed before the new one is inserted; a collision rolls both back. */
    method RotateRefresh(raw: nat, active: bool, newRaw: nat, newJti: nat, now: int, days: nat)
      returns (r: Result<nat, AuthError>)
      modifies this
      ensures AuthTx(rows, r) == Rotate(old(rows), raw, active, newRaw, newJti, now, days)
    {
      FindTokenPosition(rows, raw);
      var found := FindToken(rows, raw);
      if found.None? || rows[found.value].revokedAt.Some? { return Err(InvalidRefreshToken); }
      var i := found.value;
      if rows[i].expiresAt <= now { return Err(InvalidRefreshToken); }
      if !active { return Err(UserInactive); }
      var start := rows;
      var user := rows[i].user;
      rows := rows[i := rows[i].(revokedAt := Some(now))];
      rows := rows[i := rows[i].(replacedBy := Some(newJti))];
      assert forall k | 0 <= k < |rows| :: rows[k].raw == start[k].raw && rows[k].jti == start[k].jti;
      var ok := Insert(TokenRow(user, newRaw, newJti, now + days, None, None));
      if !ok {
        rows := start;
        return Err(TokenCollision);
      }
      r := Ok(newRaw);
    }

    method RevokeRefresh(raw: nat, now: int)
      modifies this
      ensures rows == Revoke(old(rows), raw, now)
    {
      FindTokenPosition(rows, raw);
      var found := FindToken(rows, raw);
      if found.None? { return; }
      rows := rows[found.value := rows[found.value].(revokedAt := Some(now))];
    }
  }
}
