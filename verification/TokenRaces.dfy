/**
 Rotation as the source runs it: the row is read without a lock, checked, and written back later, so
 other sessions can come in between. Exactly when a token is accepted more than once.
 */
module TokenRaces {
  import opened Wrappers
  import opened TokenStore
  import opened TokenChains

  /** The table, and the rotations between their read and their commit: which row each session holds. */
  datatype Race = Race(rows: seq<TokenRow>, held: map<nat, nat>)

  datatype RaceEvent =
    | Read(session: nat, raw: nat, active: bool, now: int)
    | Commit(session: nat, newRaw: nat, newJti: nat, now: int, days: nat)
    | Abandon(session: nat)
    | LogIn(user: nat, raw: nat, jti: nat, now: int, days: nat)
    | LogOut(raw: nat, now: int)

  /** The checks of `rotate_refresh`, on the row as it was read. */
  function ReadToken(s: Race, session: nat, raw: nat, active: bool, now: int): Race {
    match FindToken(s.rows, raw)
    case None => s
    case Some(i) =>
      FindTokenPosition(s.rows, raw);
      if session !in s.held && IsLive(s.rows[i], now) && active then s.(held := s.held[session := i]) else s
  }

  /** The row is written by its key, whatever it has become since; a collision raises. */
  function CommitRotation(s: Race, session: nat, newRaw: nat, newJti: nat, now: int, days: nat): Race {
    if session !in s.held || s.held[session] >= |s.rows| then s
    else if Collides(s.rows, newRaw, newJti) then s.(held := s.held - {session})
    else Race(Rotated(s.rows, s.held[session], newRaw, newJti, now, days), s.held - {session})
  }

  function RaceStep(s: Race, e: RaceEvent): Race {
    match e
    case Read(session, raw, active, now) => ReadToken(s, session, raw, active, now)
    case Commit(session, newRaw, newJti, now, days) => CommitRotation(s, session, newRaw, newJti, now, days)
    case Abandon(session) => s.(held := s.held - {session})
    case LogIn(user, raw, jti, now, days) => s.(rows := Login(s.rows, user, true, true, raw, jti, now, days).rows)
    case LogOut(raw, now) => s.(rows := Revoke(s.rows, raw, now))
  }

  function RaceRun(s: Race, events: seq<RaceEvent>): Race
    decreases |events|
  {
    if events == [] then s else RaceRun(RaceStep(s, events[0]), events[1..])
  }

  lemma RunOfTwo(s: Race, a: RaceEvent, b: RaceEvent)
    ensures RaceRun(s, [a, b]) == RaceStep(RaceStep(s, a), b)
  {
    assert [a, b][1..] == [b] && [b][1..] == [];
    assert RaceRun(RaceStep(s, a), [b]) == RaceRun(RaceStep(RaceStep(s, a), b), []);
  }

  predicate Holds(s: Race, session: nat, raw: nat) {
    session in s.held && s.held[session] < |s.rows| && s.rows[s.held[session]].raw == raw
  }

  /** This event commits a rotation of the token. */
  predicate Accepts(s: Race, e: RaceEvent, raw: nat) {
    e.Commit? && Holds(s, e.session, raw) && !Collides(s.rows, e.newRaw, e.newJti)
  }

  // ---------- the table under races ----------

  ghost predicate RaceOk(s: Race) {
    && Distinct(s.rows)
    && forall session | session in s.held :: s.held[session] < |s.rows|
  }

  lemma StepKeepsRaceOk(s: Race, e: RaceEvent)
    requires RaceOk(s)
    ensures RaceOk(RaceStep(s, e))
  {
    if e.Read? || e.LogOut? {
      FindTokenPosition(s.rows, e.raw);
    }
  }

  lemma {:induction false} RunKeepsRaceOk(s: Race, events: seq<RaceEvent>)
    requires RaceOk(s)
    ensures RaceOk(RaceRun(s, events))
    decreases |events|
  {
    if events != [] {
      StepKeepsRaceOk(s, events[0]);
      RunKeepsRaceOk(RaceStep(s, events[0]), events[1..]);
    }
  }

  /** Taken without interruption, a read and its commit are the one transaction `Rotate`. */
  lemma UninterruptedIsRotate(s: Race, session: nat, raw: nat, active: bool, newRaw: nat, newJti: nat, now: int,
      days: nat)
    requires session !in s.held
    ensures var after := RaceRun(s, [Read(session, raw, active, now), Commit(session, newRaw, newJti, now, days)]);
            after.rows == Rotate(s.rows, raw, active, newRaw, newJti, now, days).rows && after.held == s.held
  {
    RunOfTwo(s, Read(session, raw, active, now), Commit(session, newRaw, newJti, now, days));
    FindTokenPosition(s.rows, raw);
  }

  // ---------- exactly when a token is accepted again ----------

  predicate IsRevoked(rows: seq<TokenRow>, raw: nat) {
    exists i | 0 <= i < |rows| :: rows[i].raw == raw && rows[i].revokedAt.Some?
  }

  ghost predicate IsSpent(s: Race, raw: nat) {
    IsRevoked(s.rows, raw) && forall session | session in s.held :: !Holds(s, session, raw)
  }

  lemma RevokedStays(s: Race, e: RaceEvent, raw: nat)
    requires IsRevoked(s.rows, raw)
    ensures IsRevoked(RaceStep(s, e).rows, raw)
  {
    var i :| 0 <= i < |s.rows| && s.rows[i].raw == raw && s.rows[i].revokedAt.Some?;
    if e.LogOut? {
      FindTokenPosition(s.rows, e.raw);
    }
    assert RaceStep(s, e).rows[i].raw == raw && RaceStep(s, e).rows[i].revokedAt.Some?;
  }

  /** No session can read a revoked token, so nobody comes to hold it. */
  lemma NobodyComesToHold(s: Race, e: RaceEvent, session: nat, raw: nat)
    requires RaceOk(s) && IsRevoked(s.rows, raw) && Holds(RaceStep(s, e), session, raw)
    ensures Holds(s, session, raw)
  {
    if e.Read? {
      FindTokenPosition(s.rows, e.raw);
      var i :| 0 <= i < |s.rows| && s.rows[i].raw == raw && s.rows[i].revokedAt.Some?;
      assert FindToken(s.rows, raw).Some? ==> FindToken(s.rows, raw).value == i by { FindTokenPosition(s.rows, raw); }
    } else if e.LogOut? {
      FindTokenPosition(s.rows, e.raw);
    }
  }

  lemma {:induction false} SpentIsNeverAccepted(s: Race, events: seq<RaceEvent>, e: RaceEvent, raw: nat)
    requires RaceOk(s) && IsSpent(s, raw)
    ensures !Accepts(RaceRun(s, events), e, raw)
    decreases |events|
  {
    if events != [] {
      var next := RaceStep(s, events[0]);
      StepKeepsRaceOk(s, events[0]);
      RevokedStays(s, events[0], raw);
      forall session | session in next.held ensures !Holds(next, session, raw) {
        if Holds(next, session, raw) {
          NobodyComesToHold(s, events[0], session, raw);
        }
      }
      SpentIsNeverAccepted(next, events[1..], e, raw);
    }
  }

  /** A number above all tokens and identifiers of the table. */
  function Unused(rows: seq<TokenRow>): nat {
    if rows == [] then 0
    else Max(Unused(rows[1..]), Max(rows[0].raw, rows[0].jti) + 1)
  }

  lemma {:induction false} UnusedIsUnused(rows: seq<TokenRow>)
    ensures forall i | 0 <= i < |rows| :: rows[i].raw < Unused(rows) && rows[i].jti < Unused(rows)
  {
    if rows != [] {
      UnusedIsUnused(rows[1..]);
      assert forall i | 0 < i < |rows| :: rows[i] == rows[1..][i - 1];
    }
  }

  ghost predicate CanBeAccepted(s: Race, raw: nat) {
    exists events, e :: Accepts(RaceRun(s, events), e, raw)
  }

  /**
   A revoked token, rotated or logged out, can be accepted again exactly when some session read it
   before it was revoked and has not committed yet; the check does not help, since it is made on that read.
   */
  lemma AcceptedAgainIff(s: Race, raw: nat)
    requires RaceOk(s) && IsRevoked(s.rows, raw)
    ensures CanBeAccepted(s, raw) <==> exists session :: Holds(s, session, raw)
  {
    if CanBeAccepted(s, raw) && !exists session :: Holds(s, session, raw) {
      var events, e :| Accepts(RaceRun(s, events), e, raw);
      SpentIsNeverAccepted(s, events, e, raw);
    }
    if exists session :: Holds(s, session, raw) {
      var session :| Holds(s, session, raw);
      UnusedIsUnused(s.rows);
      assert Accepts(RaceRun(s, []), Commit(session, Unused(s.rows), Unused(s.rows), 0, 0), raw);
    }
  }

  /**
   Right after a rotation of a token commits, the token can be accepted once more exactly when another
   session had already read it: overlapping rotations are the only ones that both succeed.
   */
  lemma AcceptedTwiceIffOverlapping(s: Race, first: RaceEvent, raw: nat)
    requires RaceOk(s) && Accepts(s, first, raw)
    ensures CanBeAccepted(RaceStep(s, first), raw) <==> exists other :: other != first.session && Holds(s, other, raw)
  {
    var after := RaceStep(s, first);
    var i := s.held[first.session];
    StepKeepsRaceOk(s, first);
    assert after.rows[i].raw == raw && after.rows[i].revokedAt.Some?;
    AcceptedAgainIff(after, raw);
    forall other ensures Holds(after, other, raw) <==> other != first.session && Holds(s, other, raw) {
    }
  }

  /**
   What two overlapping rotations leave: two live tokens from one, of which only the second is linked,
   so the first starts a chain of its own that no login accounts for.
   */
  lemma OverlapSplitsTheChain(s: Race, a: RaceEvent, b: RaceEvent, raw: nat)
    requires RaceOk(s) && Accepts(s, a, raw) && Accepts(RaceStep(s, a), b, raw)
    requires a.days > 0 && b.days > 0
    requires forall k | 0 <= k < |s.rows| :: s.rows[k].replacedBy != Some(a.newJti)
    ensures var rows := RaceRun(s, [a, b]).rows;
            var n := |s.rows|;
            && |rows| == n + 2
            && IsLive(rows[n], a.now) && IsLive(rows[n + 1], b.now)
            && rows[n].user == rows[n + 1].user
            && !HasParent(rows, n) && Replaces(rows, s.held[a.session], n + 1)
  {
    var one := RaceStep(s, a);
    var two := RaceStep(one, b);
    RunOfTwo(s, a, b);
    var i := s.held[a.session];
    assert one.held[b.session] == i by {
      assert one.rows[one.held[b.session]].raw == raw == one.rows[i].raw;
      StepKeepsRaceOk(s, a);
    }
    forall k: nat ensures !Replaces(two.rows, k, |s.rows|) {
    }
  }
}
