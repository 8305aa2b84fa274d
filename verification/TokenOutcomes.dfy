/**
 What a login, a rotation and a logout answer and make of the table, said of the rows themselves: who is
 let in, with which error the others are turned away, and what is written.
 */
module TokenOutcomes {
  import opened Wrappers
  import opened TokenStore
  import opened TokenChains
  import opened TokenRaces

  /** Neither value stands in its unique column yet. */
  predicate IsNew(rows: seq<TokenRow>, raw: nat, jti: nat) {
    forall i | 0 <= i < |rows| :: rows[i].raw != raw && rows[i].jti != jti
  }

  /** Row i is the presented token: not revoked, and not yet expired. */
  predicate IsUsableRow(rows: seq<TokenRow>, i: nat, raw: nat, now: int) {
    i < |rows| && rows[i].raw == raw && rows[i].revokedAt.None? && now < rows[i].expiresAt
  }

  ghost predicate IsUsable(rows: seq<TokenRow>, raw: nat, now: int) {
    exists i: nat :: IsUsableRow(rows, i, raw, now)
  }

  lemma LoginOutcome(rows: seq<TokenRow>, user: nat, known: bool, active: bool, raw: nat, jti: nat, now: int, days: nat)
    ensures var tx := Login(rows, user, known, active, raw, jti, now, days);
            && (tx.reply == Err(InvalidCredentials) <==> !known)
            && (tx.reply == Err(UserInactive) <==> known && !active)
            && (tx.reply == Err(TokenCollision) <==> known && active && !IsNew(rows, raw, jti))
            && (tx.reply.Err? ==> tx.rows == rows)
            && (tx.reply.Ok? ==>
                  tx.reply.value == raw && tx.rows == rows + [TokenRow(user, raw, jti, now + days, None, None)])
  {
  }

  lemma FoundIsUnique(rows: seq<TokenRow>, raw: nat, i: nat)
    requires Distinct(rows) && i < |rows| && rows[i].raw == raw
    ensures FindToken(rows, raw) == Some(i)
  {
    FindTokenPosition(rows, raw);
  }

  /**
   A rotation succeeds exactly for an active user with a token that is in the table, not revoked and not
   expired, and new values; it revokes and links that row, and adds a live one of the same user.
   */
  lemma RotateOutcome(rows: seq<TokenRow>, raw: nat, active: bool, newRaw: nat, newJti: nat, now: int, days: nat)
    requires Distinct(rows)
    ensures var tx := Rotate(rows, raw, active, newRaw, newJti, now, days);
            && (tx.reply == Err(InvalidRefreshToken) <==> !IsUsable(rows, raw, now))
            && (tx.reply == Err(UserInactive) <==> IsUsable(rows, raw, now) && !active)
            && (tx.reply == Err(TokenCollision) <==> IsUsable(rows, raw, now) && active && !IsNew(rows, newRaw, newJti))
            && (tx.reply.Ok? <==> IsUsable(rows, raw, now) && active && IsNew(rows, newRaw, newJti))
            && (tx.reply.Err? ==> tx.rows == rows)
    ensures forall i: nat | IsUsableRow(rows, i, raw, now) && active && IsNew(rows, newRaw, newJti) ::
              && Rotate(rows, raw, active, newRaw, newJti, now, days).reply == Ok(newRaw)
              && Rotate(rows, raw, active, newRaw, newJti, now, days).rows ==
                 rows[i := rows[i].(revokedAt := Some(now), replacedBy := Some(newJti))]
                 + [TokenRow(rows[i].user, newRaw, newJti, now + days, None, None)]
  {
    FindTokenPosition(rows, raw);
    forall i: nat | IsUsableRow(rows, i, raw, now) ensures FindToken(rows, raw) == Some(i) {
      FoundIsUnique(rows, raw, i);
    }
    var found := FindToken(rows, raw);
    if found.Some? && rows[found.value].revokedAt.None? && now < rows[found.value].expiresAt {
      assert IsUsableRow(rows, found.value, raw, now);
    }
  }

  /** A logout revokes the row of the presented token, revoked or not, and leaves all others alone. */
  lemma RevokeOutcome(rows: seq<TokenRow>, raw: nat, now: int)
    requires Distinct(rows)
    ensures |Revoke(rows, raw, now)| == |rows|
    ensures forall i | 0 <= i < |rows| ::
              Revoke(rows, raw, now)[i] == if rows[i].raw == raw then rows[i].(revokedAt := Some(now)) else rows[i]
  {
    FindTokenPosition(rows, raw);
    forall i | 0 <= i < |rows| && rows[i].raw == raw ensures FindToken(rows, raw) == Some(i) {
      FoundIsUnique(rows, raw, i);
    }
  }

  /** A session comes to hold a row exactly when it reads a token that can be used at that time. */
  lemma ReadOutcome(s: Race, session: nat, raw: nat, active: bool, now: int, i: nat)
    requires RaceOk(s) && session !in s.held
    ensures var after := RaceStep(s, Read(session, raw, active, now));
            && after.rows == s.rows
            && (session in after.held && after.held[session] == i <==> active && IsUsableRow(s.rows, i, raw, now))
            && after.held == if session in after.held then s.held[session := after.held[session]] else s.held
  {
    FindTokenPosition(s.rows, raw);
    if IsUsableRow(s.rows, i, raw, now) {
      FoundIsUnique(s.rows, raw, i);
    }
  }

  /** Logins and logouts go on as ever; a session that gives up holds nothing. */
  lemma OtherStepsOutcome(s: Race, e: RaceEvent)
    ensures e.LogIn? ==>
              var login := LoginEvent(e.user, true, true, e.raw, e.jti, e.now, e.days);
              RaceStep(s, e) == s.(rows := AuthStep(s.rows, login))
    ensures e.LogOut? ==> RaceStep(s, e) == s.(rows := AuthStep(s.rows, LogoutEvent(e.raw, e.now)))
    ensures e.Abandon? ==> e.session !in RaceStep(s, e).held && RaceStep(s, e).rows == s.rows
    ensures e.Abandon? ==> forall other | other != e.session ::
              && (other in RaceStep(s, e).held <==> other in s.held)
              && (other in s.held ==> RaceStep(s, e).held[other] == s.held[other])
  {
  }

  /** The commit looks at nothing but the new values: revoked or expired meanwhile, the row it holds is written. */
  lemma CommitOutcome(s: Race, session: nat, newRaw: nat, newJti: nat, now: int, days: nat)
    requires RaceOk(s) && session in s.held
    ensures var after := RaceStep(s, Commit(session, newRaw, newJti, now, days));
            var i := s.held[session];
            && after.held == s.held - {session}
            && after.rows == if IsNew(s.rows, newRaw, newJti)
                             then s.rows[i := s.rows[i].(revokedAt := Some(now), replacedBy := Some(newJti))]
                                  + [TokenRow(s.rows[i].user, newRaw, newJti, now + days, None, None)]
                             else s.rows
  {
  }
}
