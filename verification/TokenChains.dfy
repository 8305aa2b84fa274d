/** The token table is a forest of replacement chains, one per login, with at most one usable token each. */
module TokenChains {
  import opened Wrappers
  import opened TokenStore

  datatype AuthEvent =
    | LoginEvent(user: nat, known: bool, active: bool, raw: nat, jti: nat, now: int, days: nat)
    | RotateEvent(raw: nat, active: bool, newRaw: nat, newJti: nat, now: int, days: nat)
    | LogoutEvent(raw: nat, now: int)

  function AuthStep(rows: seq<TokenRow>, e: AuthEvent): seq<TokenRow> {
    match e
    case LoginEvent(user, known, active, raw, jti, now, days) => Login(rows, user, known, active, raw, jti, now,
        days).rows
    case RotateEvent(raw, active, newRaw, newJti, now, days) => Rotate(rows, raw, active, newRaw, newJti, now,
        days).rows
    case LogoutEvent(raw, now) => Revoke(rows, raw, now)
  }

  function AuthRun(rows: seq<TokenRow>, events: seq<AuthEvent>): seq<TokenRow>
    decreases |events|
  {
    if events == [] then rows else AuthRun(AuthStep(rows, events[0]), events[1..])
  }

  predicate Accepted(rows: seq<TokenRow>, e: AuthEvent) {
    match e
    case LoginEvent(user, known, active, raw, jti, now, days) => Login(rows, user, known, active, raw, jti, now,
        days).reply.Ok?
    case RotateEvent(raw, active, newRaw, newJti, now, days) => Rotate(rows, raw, active, newRaw, newJti, now,
        days).reply.Ok?
    case LogoutEvent(raw, now) => true
  }

  // ---------- the forest invariant ----------

  /** Row i was rotated into row k. */
  predicate Replaces(rows: seq<TokenRow>, i: nat, k: nat) {
    i < |rows| && k < |rows| && rows[i].replacedBy == Some(rows[k].jti)
  }

  ghost predicate Distinct(rows: seq<TokenRow>) {
    forall i, j | 0 <= i < j < |rows| :: rows[i].raw != rows[j].raw && rows[i].jti != rows[j].jti
  }

  /** Links lead forward, to a row of the same user, from a revoked row. */
  ghost predicate LinksOk(rows: seq<TokenRow>) {
    forall i | 0 <= i < |rows| && rows[i].replacedBy.Some? ::
      && rows[i].revokedAt.Some?
      && exists k :: i < k < |rows| && Replaces(rows, i, k) && rows[k].user == rows[i].user
  }

  ghost predicate OneParent(rows: seq<TokenRow>) {
    forall i, j | 0 <= i < j < |rows| && rows[i].replacedBy.Some? :: rows[i].replacedBy != rows[j].replacedBy
  }

  ghost predicate Forest(rows: seq<TokenRow>) {
    Distinct(rows) && LinksOk(rows) && OneParent(rows)
  }

  lemma LinkFacts(rows: seq<TokenRow>, i: nat, k: nat)
    requires Forest(rows) && Replaces(rows, i, k)
    ensures i < k && rows[i].user == rows[k].user && rows[i].revokedAt.Some?
  {
    var m :| i < m < |rows| && Replaces(rows, i, m) && rows[m].user == rows[i].user;
    assert m == k;
  }

  lemma SnocKeepsForest(rows: seq<TokenRow>, row: TokenRow)
    requires Forest(rows) && !Collides(rows, row.raw, row.jti) && row.replacedBy.None?
    ensures Forest(rows + [row])
  {
    var longer := rows + [row];
    forall i | 0 <= i < |longer| && longer[i].replacedBy.Some?
      ensures exists k :: i < k < |longer| && Replaces(longer, i, k) && longer[k].user == longer[i].user
    {
      var k :| i < k < |rows| && Replaces(rows, i, k) && rows[k].user == rows[i].user;
      assert Replaces(longer, i, k);
    }
  }

  lemma RevokingKeepsForest(rows: seq<TokenRow>, i: nat, now: int)
    requires Forest(rows) && i < |rows|
    ensures Forest(rows[i := rows[i].(revokedAt := Some(now))])
  {
    var changed := rows[i := rows[i].(revokedAt := Some(now))];
    forall j | 0 <= j < |changed| && changed[j].replacedBy.Some?
      ensures exists k :: j < k < |changed| && Replaces(changed, j, k) && changed[k].user == changed[j].user
    {
      var k :| j < k < |rows| && Replaces(rows, j, k) && rows[k].user == rows[j].user;
      assert Replaces(changed, j, k);
    }
  }

  /** No link points outside the table, so a fresh identifier is not linked to yet. */
  lemma FreshIsNotLinked(rows: seq<TokenRow>, jti: nat)
    requires Forest(rows)
    requires forall k | 0 <= k < |rows| :: rows[k].jti != jti
    ensures forall i | 0 <= i < |rows| :: rows[i].replacedBy != Some(jti)
  {
    forall i | 0 <= i < |rows| && rows[i].replacedBy.Some? ensures rows[i].replacedBy != Some(jti) {
      var k :| i < k < |rows| && Replaces(rows, i, k) && rows[k].user == rows[i].user;
    }
  }

  lemma RotatingKeepsForest(rows: seq<TokenRow>, i: nat, newRaw: nat, newJti: nat, now: int, days: nat)
    requires Forest(rows) && i < |rows| && rows[i].revokedAt.None?
    requires !Collides(rows, newRaw, newJti)
    ensures Forest(Rotated(rows, i, newRaw, newJti, now, days))
  {
    var after := Rotated(rows, i, newRaw, newJti, now, days);
    FreshIsNotLinked(rows, newJti);
    assert forall j | 0 <= j < |rows| ::
        after[j].raw == rows[j].raw && after[j].jti == rows[j].jti && after[j].user == rows[j].user;
    assert forall j | 0 <= j < |rows| && j != i :: after[j] == rows[j];
    forall j | 0 <= j < |after| && after[j].replacedBy.Some?
      ensures after[j].revokedAt.Some?
      ensures exists k :: j < k < |after| && Replaces(after, j, k) && after[k].user == after[j].user
    {
      if j == i {
        assert Replaces(after, i, |rows|);
      } else {
        var k :| j < k < |rows| && Replaces(rows, j, k) && rows[k].user == rows[j].user;
        assert Replaces(after, j, k);
      }
    }
  }

  lemma StepKeepsForest(rows: seq<TokenRow>, e: AuthEvent)
    requires Forest(rows)
    ensures Forest(AuthStep(rows, e))
  {
    match e
    case LoginEvent(user, known, active, raw, jti, now, days) =>
      if Accepted(rows, e) {
        SnocKeepsForest(rows, TokenRow(user, raw, jti, now + days, None, None));
      }
    case RotateEvent(raw, active, newRaw, newJti, now, days) =>
      FindTokenPosition(rows, raw);
      if Accepted(rows, e) {
        RotatingKeepsForest(rows, FindToken(rows, raw).value, newRaw, newJti, now, days);
      }
    case LogoutEvent(raw, now) =>
      FindTokenPosition(rows, raw);
      if FindToken(rows, raw).Some? {
        RevokingKeepsForest(rows, FindToken(rows, raw).value, now);
      }
  }

  lemma {:induction false} RunKeepsForest(rows: seq<TokenRow>, events: seq<AuthEvent>)
    requires Forest(rows)
    ensures Forest(AuthRun(rows, events))
    decreases |events|
  {
    if events != [] {
      StepKeepsForest(rows, events[0]);
      RunKeepsForest(AuthStep(rows, events[0]), events[1..]);
    }
  }

  // ---------- chains ----------

  /** Row k was issued by a rotation. */
  ghost predicate HasParent(rows: seq<TokenRow>, k: nat) {
    exists i :: Replaces(rows, i, k)
  }

  ghost function Parent(rows: seq<TokenRow>, k: nat): (i: nat)
    requires HasParent(rows, k)
    ensures Replaces(rows, i, k)
  {
    var i :| Replaces(rows, i, k);
    i
  }

  /** The login a token descends from. */
  ghost function Root(rows: seq<TokenRow>, k: nat): nat
    requires Forest(rows) && k < |rows|
    decreases k
  {
    if HasParent(rows, k) then
      LinkFacts(rows, Parent(rows, k), k);
      Root(rows, Parent(rows, k))
    else k
  }

  lemma {:induction false} RootFacts(rows: seq<TokenRow>, k: nat)
    requires Forest(rows) && k < |rows|
    ensures Root(rows, k) <= k
    ensures !HasParent(rows, Root(rows, k))
    ensures rows[Root(rows, k)].user == rows[k].user
    decreases k
  {
    if HasParent(rows, k) {
      LinkFacts(rows, Parent(rows, k), k);
      RootFacts(rows, Parent(rows, k));
    }
  }

  /** The chain from row j back to its login passes row i. */
  ghost predicate Descends(rows: seq<TokenRow>, i: nat, j: nat)
    requires Forest(rows) && i < |rows| && j < |rows|
    decreases j
  {
    i == j || (HasParent(rows, j) &&
      (LinkFacts(rows, Parent(rows, j), j);
       Descends(rows, i, Parent(rows, j))))
  }

  /** A proper descendant is reached through the one row that i was rotated into. */
  lemma {:induction false} DescendantsGoThroughTheChild(rows: seq<TokenRow>, i: nat, j: nat) returns (k: nat)
    requires Forest(rows) && i < j < |rows| && Descends(rows, i, j)
    ensures i < k <= j && Replaces(rows, i, k)
    decreases j
  {
    var p := Parent(rows, j);
    LinkFacts(rows, p, j);
    if p == i {
      k := j;
    } else {
      DescendantsAreLater(rows, i, p);
      k := DescendantsGoThroughTheChild(rows, i, p);
    }
  }

  lemma {:induction false} DescendantsAreLater(rows: seq<TokenRow>, i: nat, j: nat)
    requires Forest(rows) && i < |rows| && j < |rows| && Descends(rows, i, j)
    ensures i <= j
    decreases j
  {
    if i != j {
      LinkFacts(rows, Parent(rows, j), j);
      DescendantsAreLater(rows, i, Parent(rows, j));
    }
  }

  /** A row is rotated into one row only. */
  lemma ChildIsUnique(rows: seq<TokenRow>, i: nat, j: nat, k: nat)
    requires Forest(rows) && Replaces(rows, i, j) && Replaces(rows, i, k)
    ensures j == k
  {
  }

  /** Tokens of one login are ordered: the later descends from the earlier. */
  lemma {:induction false} SameRootDescends(rows: seq<TokenRow>, i: nat, j: nat)
    requires Forest(rows) && i <= j < |rows|
    requires Root(rows, i) == Root(rows, j)
    ensures Descends(rows, i, j)
    decreases i + j
  {
    if i < j {
      RootFacts(rows, i);
      RootFacts(rows, j);
      assert HasParent(rows, j);
      var p := Parent(rows, j);
      LinkFacts(rows, p, j);
      if i <= p {
        SameRootDescends(rows, i, p);
      } else {
        SameRootDescends(rows, p, i);
        var k := DescendantsGoThroughTheChild(rows, p, i);
        ChildIsUnique(rows, p, j, k);
      }
    }
  }

  /** In every chain all tokens but the last have been rotated, hence revoked. */
  lemma OnlyTheLastOfAChainIsLive(rows: seq<TokenRow>, i: nat, j: nat)
    requires Forest(rows) && i < j < |rows|
    requires Root(rows, i) == Root(rows, j)
    ensures rows[i].replacedBy.Some? && rows[i].revokedAt.Some?
  {
    SameRootDescends(rows, i, j);
    var k := DescendantsGoThroughTheChild(rows, i, j);
  }

  // ---------- one chain per login ----------

  ghost function CountRoots(rows: seq<TokenRow>, n: nat): nat
    requires n <= |rows|
  {
    if n == 0 then 0 else CountRoots(rows, n - 1) + if HasParent(rows, n - 1) then 0 else 1
  }

  lemma {:induction false} SameParentsSameCount(a: seq<TokenRow>, b: seq<TokenRow>, n: nat)
    requires n <= |a| && n <= |b|
    requires forall k | 0 <= k < n :: HasParent(a, k) <==> HasParent(b, k)
    ensures CountRoots(a, n) == CountRoots(b, n)
  {
    if n > 0 {
      SameParentsSameCount(a, b, n - 1);
    }
  }

  lemma LoginAddsARoot(rows: seq<TokenRow>, row: TokenRow)
    requires Forest(rows) && !Collides(rows, row.raw, row.jti) && row.replacedBy.None?
    ensures CountRoots(rows + [row], |rows| + 1) == CountRoots(rows, |rows|) + 1
  {
    var longer := rows + [row];
    FreshIsNotLinked(rows, row.jti);
    forall k | 0 <= k < |rows| ensures HasParent(rows, k) <==> HasParent(longer, k) {
      forall i: nat ensures Replaces(rows, i, k) <==> Replaces(longer, i, k) {
      }
    }
    SameParentsSameCount(rows, longer, |rows|);
  }

  lemma RotationAddsNoRoot(rows: seq<TokenRow>, i: nat, newRaw: nat, newJti: nat, now: int, days: nat)
    requires Forest(rows) && i < |rows| && rows[i].revokedAt.None?
    requires !Collides(rows, newRaw, newJti)
    ensures CountRoots(Rotated(rows, i, newRaw, newJti, now, days), |rows| + 1) == CountRoots(rows, |rows|)
  {
    var after := Rotated(rows, i, newRaw, newJti, now, days);
    forall k | 0 <= k < |rows| ensures HasParent(rows, k) <==> HasParent(after, k) {
      forall j: nat ensures Replaces(rows, j, k) <==> Replaces(after, j, k) {
        if j < |rows| && j != i { assert after[j] == rows[j]; }
        assert after[k].jti == rows[k].jti;
      }
    }
    SameParentsSameCount(rows, after, |rows|);
    assert Replaces(after, i, |rows|);
  }

  lemma RevokingKeepsRoots(rows: seq<TokenRow>, i: nat, now: int)
    requires i < |rows|
    ensures CountRoots(rows[i := rows[i].(revokedAt := Some(now))], |rows|) == CountRoots(rows, |rows|)
  {
    var after := rows[i := rows[i].(revokedAt := Some(now))];
    forall k | 0 <= k < |rows| ensures HasParent(rows, k) <==> HasParent(after, k) {
      forall j: nat ensures Replaces(rows, j, k) <==> Replaces(after, j, k) {
      }
    }
    SameParentsSameCount(rows, after, |rows|);
  }

  function AcceptedLogins(rows: seq<TokenRow>, events: seq<AuthEvent>): nat
    decreases |events|
  {
    if events == [] then 0
    else (if events[0].LoginEvent? && Accepted(rows, events[0]) then 1 else 0)
         + AcceptedLogins(AuthStep(rows, events[0]), events[1..])
  }

  lemma StepCountsRoots(rows: seq<TokenRow>, e: AuthEvent)
    requires Forest(rows)
    ensures var after := AuthStep(rows, e);
            CountRoots(after, |after|) == CountRoots(rows, |rows|) + if e.LoginEvent? && Accepted(rows, e) then 1 else 0
  {
    match e
    case LoginEvent(user, known, active, raw, jti, now, days) =>
      if Accepted(rows, e) {
        LoginAddsARoot(rows, TokenRow(user, raw, jti, now + days, None, None));
      }
    case RotateEvent(raw, active, newRaw, newJti, now, days) =>
      FindTokenPosition(rows, raw);
      if Accepted(rows, e) {
        RotationAddsNoRoot(rows, FindToken(rows, raw).value, newRaw, newJti, now, days);
      }
    case LogoutEvent(raw, now) =>
      FindTokenPosition(rows, raw);
      if FindToken(rows, raw).Some? {
        RevokingKeepsRoots(rows, FindToken(rows, raw).value, now);
      }
  }

  /** After any run the number of chains is the number of accepted logins. */
  lemma {:induction false} OneChainPerLogin(rows: seq<TokenRow>, events: seq<AuthEvent>)
    requires Forest(rows)
    ensures var after := AuthRun(rows, events);
            CountRoots(after, |after|) == CountRoots(rows, |rows|) + AcceptedLogins(rows, events)
    decreases |events|
  {
    if events != [] {
      StepCountsRoots(rows, events[0]);
      StepKeepsForest(rows, events[0]);
      OneChainPerLogin(AuthStep(rows, events[0]), events[1..]);
    }
  }

  // ---------- revocation is for ever ----------

  /** Rows keep their place and identity, and a revoked row stays revoked. */
  ghost predicate Persists(a: seq<TokenRow>, b: seq<TokenRow>) {
    && |a| <= |b|
    && forall i | 0 <= i < |a| ::
         && b[i].user == a[i].user && b[i].raw == a[i].raw && b[i].jti == a[i].jti && b[i].expiresAt == a[i].expiresAt
         && (a[i].revokedAt.Some? ==> b[i].revokedAt.Some?)
         && (a[i].replacedBy.Some? ==> b[i].replacedBy == a[i].replacedBy)
  }

  lemma StepPersists(rows: seq<TokenRow>, e: AuthEvent)
    requires Forest(rows)
    ensures Persists(rows, AuthStep(rows, e))
  {
    match e
    case LoginEvent(_, _, _, _, _, _, _) =>
    case RotateEvent(raw, _, _, _, _, _) => FindTokenPosition(rows, raw);
    case LogoutEvent(raw, _) => FindTokenPosition(rows, raw);
  }

  lemma {:induction false} RunPersists(rows: seq<TokenRow>, events: seq<AuthEvent>)
    requires Forest(rows)
    ensures Persists(rows, AuthRun(rows, events))
    decreases |events|
  {
    if events != [] {
      StepPersists(rows, events[0]);
      StepKeepsForest(rows, events[0]);
      RunPersists(AuthStep(rows, events[0]), events[1..]);
    }
  }

  lemma RevokedIsRejected(rows: seq<TokenRow>, i: nat, e: AuthEvent)
    requires Forest(rows) && i < |rows| && rows[i].revokedAt.Some?
    requires e.RotateEvent? && e.raw == rows[i].raw
    ensures !Accepted(rows, e) && AuthStep(rows, e) == rows
  {
    FindTokenPosition(rows, e.raw);
    assert FindToken(rows, e.raw) == Some(i);
  }

  /** The row an accepted rotation or a logout leaves revoked. */
  lemma UseRevokes(rows: seq<TokenRow>, e: AuthEvent) returns (i: nat)
    requires Forest(rows)
    requires (e.RotateEvent? && Accepted(rows, e)) || (e.LogoutEvent? && FindToken(rows, e.raw).Some?)
    ensures i < |rows| <= |AuthStep(rows, e)|
    ensures AuthStep(rows, e)[i].raw == e.raw && AuthStep(rows, e)[i].revokedAt.Some?
  {
    FindTokenPosition(rows, e.raw);
    i := FindToken(rows, e.raw).value;
  }

  /**
   Each raw token is accepted for rotation at most once in any run, and never after it was presented
   for logout: every later rotation with it is rejected and changes nothing.
   */
  lemma TokenWorksOnce(rows: seq<TokenRow>, use: AuthEvent, mid: seq<AuthEvent>, again: AuthEvent)
    requires Forest(rows)
    requires (use.RotateEvent? && Accepted(rows, use)) || (use.LogoutEvent? && FindToken(rows, use.raw).Some?)
    requires again.RotateEvent? && again.raw == use.raw
    ensures var later := AuthRun(AuthStep(rows, use), mid);
            !Accepted(later, again) && AuthStep(later, again) == later
  {
    var i := UseRevokes(rows, use);
    StepKeepsForest(rows, use);
    RunPersists(AuthStep(rows, use), mid);
    RunKeepsForest(AuthStep(rows, use), mid);
    RevokedIsRejected(AuthRun(AuthStep(rows, use), mid), i, again);
  }

  /**
   In the table any run of logins, rotations and logouts builds up, chains are disjoint and acyclic,
   belong to one user each, are as many as the accepted logins, and only the last token of a chain can be live.
   */
  lemma TokenForest(events: seq<AuthEvent>, i: nat, j: nat)
    requires i < j < |AuthRun([], events)|
    ensures var rows := AuthRun([], events);
            && Forest(rows)
            && CountRoots(rows, |rows|) == AcceptedLogins([], events)
            && (Root(rows, i) == Root(rows, j) ==>
                  rows[i].user == rows[j].user && rows[i].revokedAt.Some? && rows[i].replacedBy.Some?)
            && !Replaces(rows, j, i)
  {
    var rows := AuthRun([], events);
    RunKeepsForest([], events);
    OneChainPerLogin([], events);
    RootFacts(rows, i);
    RootFacts(rows, j);
    if Root(rows, i) == Root(rows, j) {
      OnlyTheLastOfAChainIsLive(rows, i, j);
    }
    if Replaces(rows, j, i) {
      LinkFacts(rows, j, i);
    }
  }
}
