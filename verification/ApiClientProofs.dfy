/** Single-flight refresh: for any interleaving of any number of requests in one tab. */
module ApiClientProofs {
  import opened Wrappers
  import opened TokenStore
  import opened TokenChains
  import opened ApiClient

  ghost predicate CallOk(c: Call) {
    match c.point
    case Fetching(retry) => !c.path.Restore? && c.fetches == if retry then 1 else 2
    case AwaitingRefresh => c.fetches == if c.path.Restore? then 0 else 1
    case Refreshed(_) => c.fetches == if c.path.Restore? then 0 else 1
    case Finished(_) => c.fetches <= 2
  }

  /** There is a refresh on the network exactly while the promise is pending, and never a second one. */
  ghost predicate SingleFlight(t: Tab) {
    && |t.network| == (if t.inFlight.Pending? then 1 else 0)
    && forall id | id in t.calls :: CallOk(t.calls[id])
  }

  /** The promise settles when its exchange leaves the network; who waited for it has not fetched again. */
  lemma ReturnKeepsSingleFlight(t: Tab, e: TabEvent)
    requires SingleFlight(t) && (e.Arrive? || e.Drop?)
    ensures SingleFlight(TabStep(t, e))
  {
  }

  lemma AskingKeepsSingleFlight(t: Tab, e: TabEvent)
    requires SingleFlight(t) && (e.Begin? || e.Respond?)
    ensures SingleFlight(TabStep(t, e))
  {
  }

  lemma OtherStepsKeepSingleFlight(t: Tab, e: TabEvent)
    requires SingleFlight(t) && !e.Arrive? && !e.Drop? && !e.Begin? && !e.Respond?
    ensures SingleFlight(TabStep(t, e))
  {
  }

  lemma StepKeepsSingleFlight(t: Tab, e: TabEvent)
    requires SingleFlight(t)
    ensures SingleFlight(TabStep(t, e))
  {
    hide SingleFlight, TabStep;
    if e.Arrive? || e.Drop? {
      ReturnKeepsSingleFlight(t, e);
    } else if e.Begin? || e.Respond? {
      AskingKeepsSingleFlight(t, e);
    } else {
      OtherStepsKeepSingleFlight(t, e);
    }
  }

  lemma {:induction false} RunKeepsSingleFlight(t: Tab, events: seq<TabEvent>)
    requires SingleFlight(t)
    ensures SingleFlight(TabRun(t, events))
    decreases |events|
  {
    if events != [] {
      StepKeepsSingleFlight(t, events[0]);
      RunKeepsSingleFlight(TabStep(t, events[0]), events[1..]);
    }
  }

  /** At any time at most one refresh is in flight, and no request ever fetches its path more than twice. */
  lemma OneRefreshAndOneRetry(t: Tab, events: seq<TabEvent>)
    requires IsFresh(t)
    ensures var end := TabRun(t, events);
            && |end.network| <= 1
            && (end.network != [] <==> end.inFlight.Pending?)
            && forall id | id in end.calls :: end.calls[id].fetches <= 2
  {
    RunKeepsSingleFlight(t, events);
    var end := TabRun(t, events);
    forall id | id in end.calls ensures end.calls[id].fetches <= 2 {
      assert CallOk(end.calls[id]);
    }
  }

  // ---------- no rotated token is presented ----------

  ghost predicate Usable(t: Tab, raw: nat) {
    raw in t.issued && !WasRotated(t.rows, raw)
  }

  predicate CarriesToken(x: Exchange) {
    x.Answered? && x.reply.Some?
  }

  /** A presented cookie has not been rotated, nor has a new token, nor the cookie unless a new token is on its way. */
  ghost predicate CookieOk(t: Tab) {
    && (forall x | x in t.network && x.Presented? && x.cookie.Some? :: Usable(t, x.cookie.value))
    && (forall x | x in t.network && CarriesToken(x) :: Usable(t, x.reply.value))
    && (t.cookie.Some? ==> t.cookie.value in t.issued)
    && (t.cookie.Some? && (forall x | x in t.network :: !CarriesToken(x)) ==> Usable(t, t.cookie.value))
  }

  /** The response that carries a new token is lost on its way back. */
  predicate LosesResponse(t: Tab, e: TabEvent) {
    e.Drop? && e.k < |t.network| && t.network[e.k].Answered? && t.network[e.k].reply.Some?
  }

  /** Rotating touches the rotation mark of the presented token only. */
  lemma RotationMarksOne(rows: seq<TokenRow>, raw: nat, active: bool, newRaw: nat, newJti: nat, now: int, days: nat,
      other: nat)
    requires Rotate(rows, raw, active, newRaw, newJti, now, days).reply.Ok?
    requires other != raw && !WasRotated(rows, other)
    ensures !WasRotated(Rotate(rows, raw, active, newRaw, newJti, now, days).rows, other)
  {
    FindTokenPosition(rows, raw);
  }

  lemma NewTokenIsNotRotated(rows: seq<TokenRow>, raw: nat, active: bool, newRaw: nat, newJti: nat, now: int, days: nat)
    requires Rotate(rows, raw, active, newRaw, newJti, now, days).reply.Ok?
    ensures newRaw != raw
    ensures !WasRotated(Rotate(rows, raw, active, newRaw, newJti, now, days).rows, newRaw)
  {
    FindTokenPosition(rows, raw);
  }

  lemma ForeignKeepsMarks(rows: seq<TokenRow>, e: AuthEvent, raw: nat)
    requires !WasRotated(rows, raw)
    requires e.RotateEvent? ==> e.raw != raw
    ensures !WasRotated(AuthStep(rows, e), raw)
  {
    match e
    case LoginEvent(_, _, _, _, _, _, _) =>
    case RotateEvent(r, active, newRaw, newJti, now, days) =>
      if Accepted(rows, e) { RotationMarksOne(rows, r, active, newRaw, newJti, now, days, raw); }
    case LogoutEvent(r, now) =>
      FindTokenPosition(rows, r);
  }

  lemma AnsweredKeepsCookie(t: Tab, after: Tab)
    requires CookieOk(t) && |after.network| == 1 && after.network[0] == Answered(None)
    requires after.rows == t.rows && after.issued == t.issued && after.cookie == t.cookie
    requires forall x | x in t.network :: !CarriesToken(x)
    ensures CookieOk(after)
  {
    assert forall x | x in after.network :: x == Answered(None);
  }

  lemma RotatedKeepsCookie(t: Tab, after: Tab, token: nat)
    requires CookieOk(t) && after.network == [Answered(Some(token))]
    requires Usable(after, token)
    requires after.issued >= t.issued && after.cookie == t.cookie
    ensures CookieOk(after)
  {
    assert after.network[0] == Answered(Some(token));
    assert forall x | x in after.network :: x == Answered(Some(token));
  }

  lemma ServeKeepsCookie(t: Tab, e: TabEvent)
    requires SingleFlight(t) && CookieOk(t) && e.Serve?
    ensures CookieOk(TabStep(t, e))
  {
    var after := TabStep(t, e);
    if after != t {
      assert t.network == [t.network[0]];
      assert after.network == [after.network[0]];
      if CarriesToken(after.network[0]) {
        NewTokenIsNotRotated(t.rows, t.network[0].cookie.value, e.active, e.newRaw, e.newJti, e.now, e.days);
        RotatedKeepsCookie(t, after, e.newRaw);
      } else {
        AnsweredKeepsCookie(t, after);
      }
    }
  }

  lemma LoginKeepsCookie(t: Tab, e: TabEvent)
    requires CookieOk(t) && e.LoginArrives?
    ensures CookieOk(TabStep(t, e))
  {
    var after := TabStep(t, e);
    if after != t {
      forall raw | Usable(t, raw) ensures Usable(after, raw) {
        ForeignKeepsMarks(t.rows, LoginEvent(e.user, true, true, e.raw, e.jti, e.now, e.days), raw);
      }
      assert Usable(after, e.raw) by {
        assert t.rows + [after.rows[|t.rows|]] == after.rows;
      }
    }
  }

  lemma ElsewhereKeepsCookie(t: Tab, e: TabEvent)
    requires CookieOk(t) && e.Elsewhere?
    ensures CookieOk(TabStep(t, e))
  {
    var after := TabStep(t, e);
    if IsForeign(t, e.e) {
      forall raw | Usable(t, raw) ensures Usable(after, raw) {
        ForeignKeepsMarks(t.rows, e.e, raw);
      }
    }
  }

  /** Events inside the tab, without the server or the network. */
  predicate IsLocal(e: TabEvent) {
    || e.Begin? || e.Respond? || e.Unreachable? || e.Continue?
    || e.ClearInFlight? || e.CookieCleared? || e.SetToken?
  }

  /** What happens inside the tab sends at most the present cookie, and only when nothing is on the network. */
  lemma LocalKeepsCookie(t: Tab, e: TabEvent)
    requires SingleFlight(t) && CookieOk(t)
    requires IsLocal(e)
    ensures CookieOk(TabStep(t, e))
  {
    var after := TabStep(t, e);
    assert after.network == t.network || (t.network == [] && after.network == [Presented(t.cookie)]);
    assert after.rows == t.rows && after.issued == t.issued;
    if after.network != t.network {
      assert forall x | x in after.network :: x == Presented(t.cookie);
    }
  }

  lemma ReturnKeepsCookie(t: Tab, e: TabEvent)
    requires SingleFlight(t) && CookieOk(t) && !LosesResponse(t, e)
    requires e.Arrive? || e.Drop?
    ensures CookieOk(TabStep(t, e))
  {
    var after := TabStep(t, e);
    if after != t {
      assert t.network[0] in t.network;
      assert after.network == [];
    }
  }

  lemma StepKeepsCookie(t: Tab, e: TabEvent)
    requires SingleFlight(t) && CookieOk(t) && !LosesResponse(t, e)
    ensures CookieOk(TabStep(t, e))
  {
    match e
    case Serve(_, _, _, _, _, _) => ServeKeepsCookie(t, e);
    case LoginArrives(_, _, _, _, _) => LoginKeepsCookie(t, e);
    case Elsewhere(_) => ElsewhereKeepsCookie(t, e);
    case Arrive(_, _) => ReturnKeepsCookie(t, e);
    case Drop(_) => ReturnKeepsCookie(t, e);
    case _ => LocalKeepsCookie(t, e);
  }

  predicate NoneLost(t: Tab, events: seq<TabEvent>)
    decreases |events|
  {
    events == [] || (!LosesResponse(t, events[0]) && NoneLost(TabStep(t, events[0]), events[1..]))
  }

  lemma {:induction false} RunKeepsCookie(t: Tab, events: seq<TabEvent>)
    requires SingleFlight(t) && CookieOk(t) && NoneLost(t, events)
    ensures CookieOk(TabRun(t, events))
    decreases |events|
  {
    if events != [] {
      StepKeepsSingleFlight(t, events[0]);
      StepKeepsCookie(t, events[0]);
      RunKeepsCookie(TabStep(t, events[0]), events[1..]);
    }
  }

  /**
   If no response that carries a new token is lost, a refresh never presents a token that was already
   rotated: not when it is sent, and not when the server comes to read it.
   */
  lemma NoRotatedTokenIsPresented(t: Tab, events: seq<TabEvent>)
    requires IsFresh(t) && NoneLost(t, events)
    ensures var end := TabRun(t, events);
            forall x | x in end.network && x.Presented? && x.cookie.Some? ::
              x.cookie.value in end.issued && !WasRotated(end.rows, x.cookie.value)
  {
    RunKeepsCookie(t, events);
  }

  // ---------- exactly when a rotated token is presented ----------

  /** The server rotates the very token the browser has for a cookie. */
  predicate RotatesCookie(t: Tab, e: TabEvent) {
    && e.Serve? && e.k < |t.network| && t.cookie.Some? && t.network[e.k] == Presented(t.cookie)
    && Rotate(t.rows, t.cookie.value, e.active, e.newRaw, e.newJti, e.now, e.days).reply.Ok?
  }

  /** The cookie is replaced by the answer to a refresh or by a login, or is cleared. */
  predicate ReplacesCookie(t: Tab, e: TabEvent) {
    || (e.Arrive? && e.k < |t.network| && CarriesToken(t.network[e.k]))
    || (e.LoginArrives? && Login(t.rows, e.user, true, true, e.raw, e.jti, e.now, e.days).reply.Ok?)
    || e.CookieCleared?
  }

  predicate IsStaleFrom(t: Tab, events: seq<TabEvent>, stale: bool)
    decreases |events|
  {
    if events == [] then stale
    else IsStaleFrom(TabStep(t, events[0]), events[1..], RotatesCookie(t, events[0]) || (stale && !ReplacesCookie(t,
        events[0])))
  }

  /** The cookie has been rotated by the server, and since then it was neither replaced nor cleared. */
  predicate IsStale(t: Tab, events: seq<TabEvent>) {
    IsStaleFrom(t, events, false)
  }

  /** Staleness is the rotation mark of the cookie; a token on its way back carries no mark. */
  ghost predicate CookieTracked(t: Tab, stale: bool) {
    && (t.cookie.Some? ==> t.cookie.value in t.issued)
    && (forall x | x in t.network && CarriesToken(x) :: Usable(t, x.reply.value))
    && (stale <==> t.cookie.Some? && WasRotated(t.rows, t.cookie.value))
  }

  lemma MarksStay(rows: seq<TokenRow>, e: AuthEvent, raw: nat)
    requires WasRotated(rows, raw)
    ensures WasRotated(AuthStep(rows, e), raw)
  {
    var i :| 0 <= i < |rows| && rows[i].raw == raw && rows[i].replacedBy.Some?;
    if e.RotateEvent? || e.LogoutEvent? {
      FindTokenPosition(rows, e.raw);
    }
    assert AuthStep(rows, e)[i].raw == raw && AuthStep(rows, e)[i].replacedBy.Some?;
  }

  lemma RotationMarks(rows: seq<TokenRow>, e: AuthEvent)
    requires e.RotateEvent? && Accepted(rows, e)
    ensures WasRotated(AuthStep(rows, e), e.raw)
  {
    FindTokenPosition(rows, e.raw);
    var i := FindToken(rows, e.raw).value;
    assert AuthStep(rows, e)[i].raw == e.raw && AuthStep(rows, e)[i].replacedBy.Some?;
  }

  lemma ServeTracksCookie(t: Tab, e: TabEvent, stale: bool)
    requires SingleFlight(t) && CookieTracked(t, stale) && e.Serve?
    ensures CookieTracked(TabStep(t, e), stale || RotatesCookie(t, e))
  {
    var after := TabStep(t, e);
    if after != t && after.rows != t.rows {
      var raw := t.network[0].cookie.value;
      var use := RotateEvent(raw, e.active, e.newRaw, e.newJti, e.now, e.days);
      assert after.rows == AuthStep(t.rows, use) && Accepted(t.rows, use);
      NewTokenIsNotRotated(t.rows, raw, e.active, e.newRaw, e.newJti, e.now, e.days);
      assert after.network == [Answered(Some(e.newRaw))];
      RotationMarks(t.rows, use);
      if t.cookie.Some? && t.cookie.value != raw {
        if stale {
          MarksStay(t.rows, use, t.cookie.value);
        } else {
          RotationMarksOne(t.rows, raw, e.active, e.newRaw, e.newJti, e.now, e.days, t.cookie.value);
        }
      }
    } else if after != t {
      assert after.network == [after.network[0]];
    }
  }

  lemma LoginTracksCookie(t: Tab, e: TabEvent, stale: bool)
    requires CookieTracked(t, stale) && e.LoginArrives?
    ensures CookieTracked(TabStep(t, e), stale && !ReplacesCookie(t, e))
  {
    var after := TabStep(t, e);
    if after != t {
      forall raw | Usable(t, raw) ensures Usable(after, raw) {
        ForeignKeepsMarks(t.rows, LoginEvent(e.user, true, true, e.raw, e.jti, e.now, e.days), raw);
      }
      assert t.rows + [after.rows[|t.rows|]] == after.rows;
    }
  }

  lemma ElsewhereTracksCookie(t: Tab, e: TabEvent, stale: bool)
    requires CookieTracked(t, stale) && e.Elsewhere?
    ensures CookieTracked(TabStep(t, e), stale)
  {
    var after := TabStep(t, e);
    if IsForeign(t, e.e) {
      forall raw | Usable(t, raw) ensures Usable(after, raw) {
        ForeignKeepsMarks(t.rows, e.e, raw);
      }
      if stale {
        MarksStay(t.rows, e.e, t.cookie.value);
      } else if t.cookie.Some? {
        assert Usable(t, t.cookie.value);
      }
    }
  }

  lemma ReturnTracksCookie(t: Tab, e: TabEvent, stale: bool)
    requires SingleFlight(t) && CookieTracked(t, stale) && (e.Arrive? || e.Drop?)
    ensures CookieTracked(TabStep(t, e), stale && !ReplacesCookie(t, e))
  {
    var after := TabStep(t, e);
    if after != t {
      assert t.network[0] in t.network;
      assert after.network == [];
    }
  }

  lemma LocalTracksCookie(t: Tab, e: TabEvent, stale: bool)
    requires SingleFlight(t) && CookieTracked(t, stale)
    requires IsLocal(e)
    ensures CookieTracked(TabStep(t, e), stale && !ReplacesCookie(t, e))
  {
    var after := TabStep(t, e);
    assert after.network == t.network || after.network == [Presented(t.cookie)];
    assert after.rows == t.rows && after.issued == t.issued;
  }

  lemma StepTracksCookie(t: Tab, e: TabEvent, stale: bool)
    requires SingleFlight(t) && CookieTracked(t, stale)
    ensures CookieTracked(TabStep(t, e), RotatesCookie(t, e) || (stale && !ReplacesCookie(t, e)))
  {
    hide SingleFlight, CookieTracked;
    match e
    case Serve(_, _, _, _, _, _) => ServeTracksCookie(t, e, stale);
    case LoginArrives(_, _, _, _, _) => LoginTracksCookie(t, e, stale);
    case Elsewhere(_) => ElsewhereTracksCookie(t, e, stale);
    case Arrive(_, _) => ReturnTracksCookie(t, e, stale);
    case Drop(_) => ReturnTracksCookie(t, e, stale);
    case _ => LocalTracksCookie(t, e, stale);
  }

  lemma {:induction false} RunTracksCookie(t: Tab, events: seq<TabEvent>, stale: bool)
    requires SingleFlight(t) && CookieTracked(t, stale)
    ensures CookieTracked(TabRun(t, events), IsStaleFrom(t, events, stale))
    decreases |events|
  {
    hide SingleFlight, CookieTracked;
    if events != [] {
      var e := events[0];
      StepKeepsSingleFlight(t, e);
      StepTracksCookie(t, e, stale);
      RunTracksCookie(TabStep(t, e), events[1..], RotatesCookie(t, e) || (stale && !ReplacesCookie(t, e)));
    }
  }

  /**
   Over every run: a step that starts a refresh presents the present cookie, and presents a rotated
   token exactly when the server has rotated that cookie and it was neither replaced nor cleared since.
   */
  lemma RotatedTokenIsPresentedIff(t: Tab, events: seq<TabEvent>, e: TabEvent)
    requires IsFresh(t)
    requires |TabStep(TabRun(t, events), e).network| > |TabRun(t, events).network|
    ensures var end := TabRun(t, events);
            var after := TabStep(end, e);
            && after.network == [Presented(end.cookie)]
            && (end.cookie.Some? && WasRotated(after.rows, end.cookie.value) <==> IsStale(t, events))
  {
    RunKeepsSingleFlight(t, events);
    RunTracksCookie(t, events, false);
  }

  // ---------- what becomes of a stale tab ----------

  lemma StepKeepsTokenForest(t: Tab, e: TabEvent)
    requires Forest(t.rows)
    ensures Forest(TabStep(t, e).rows)
  {
    hide Forest;
    match e
    case Serve(k, active, newRaw, newJti, now, days) =>
      if k < |t.network| && t.network[k].Presented? && t.network[k].cookie.Some? {
        StepKeepsForest(t.rows, RotateEvent(t.network[k].cookie.value, active, newRaw, newJti, now, days));
      }
    case LoginArrives(user, raw, jti, now, days) => StepKeepsForest(t.rows, LoginEvent(user, true, true, raw, jti,
        now, days));
    case Elsewhere(a) => StepKeepsForest(t.rows, a);
    case _ =>
  }

  lemma {:induction false} RunKeepsTokenForest(t: Tab, events: seq<TabEvent>)
    requires Forest(t.rows)
    ensures Forest(TabRun(t, events).rows)
    decreases |events|
  {
    if events != [] {
      StepKeepsTokenForest(t, events[0]);
      RunKeepsTokenForest(TabStep(t, events[0]), events[1..]);
    }
  }

  predicate CanRefresh(t: Tab, id: nat) {
    id in t.calls && t.calls[id].point == Fetching(true) && t.calls[id].path == Resource
  }

  lemma RotatedIsRejected(rows: seq<TokenRow>, raw: nat, active: bool, newRaw: nat, newJti: nat, now: int, days: nat)
    requires Forest(rows) && WasRotated(rows, raw)
    ensures Rotate(rows, raw, active, newRaw, newJti, now, days).reply.Err?
  {
    var i :| 0 <= i < |rows| && rows[i].raw == raw && rows[i].replacedBy.Some?;
    RevokedIsRejected(rows, i, RotateEvent(raw, active, newRaw, newJti, now, days));
  }

  lemma RefusedRefreshEnds(t: Tab, id: nat, serve: TabEvent, body: Body)
    requires SingleFlight(t) && t.inFlight.NoPromise? && t.cookie.Some? && CanRefresh(t, id)
    requires serve.Serve? && serve.k == 0
    requires Rotate(t.rows, t.cookie.value, serve.active, serve.newRaw, serve.newJti, serve.now, serve.days).reply.Err?
    ensures var asked := TabStep(t, Respond(id, 401));
            var answered := TabStep(TabStep(asked, serve), Arrive(0, body));
            var end := TabStep(answered, Continue(id));
            && asked.network == [Presented(t.cookie)]
            && end.calls[id].point == Finished(false) && end.accessToken == None
            && end.rows == t.rows && end.cookie == t.cookie
  {
    var asked := TabStep(t, Respond(id, 401));
    assert asked.network == [Presented(t.cookie)];
    var served := TabStep(asked, serve);
    assert served.network == [Answered(None)] && served.calls == asked.calls;
  }

  /**
   After any run that leaves the cookie stale, the next refused request ends the session of the tab: the
   server turns the rotated token down, the request fails and the access token is dropped.
   */
  lemma StaleTabIsLoggedOut(t: Tab, events: seq<TabEvent>, id: nat, serve: TabEvent, body: Body)
    requires IsFresh(t) && Forest(t.rows) && IsStale(t, events)
    requires TabRun(t, events).inFlight.NoPromise? && CanRefresh(TabRun(t, events), id)
    requires serve.Serve? && serve.k == 0
    ensures var start := TabRun(t, events);
            var asked := TabStep(start, Respond(id, 401));
            var answered := TabStep(TabStep(asked, serve), Arrive(0, body));
            var end := TabStep(answered, Continue(id));
            && asked.network == [Presented(start.cookie)]
            && end.calls[id].point == Finished(false) && end.accessToken == None
            && end.rows == start.rows && end.cookie == start.cookie
  {
    var start := TabRun(t, events);
    RunKeepsSingleFlight(t, events);
    RunTracksCookie(t, events, false);
    RunKeepsTokenForest(t, events);
    RotatedIsRejected(start.rows, start.cookie.value, serve.active, serve.newRaw, serve.newJti, serve.now, serve.days);
    RefusedRefreshEnds(start, id, serve, body);
  }

  // ---------- how a tab goes stale ----------

  /** One request is refused and refreshes, the answer is lost, and another request is under way. */
  function LossyRun(first: nat, second: nat, serve: TabEvent): seq<TabEvent> {
    [Begin(first, Resource), Respond(first, 401), serve, Drop(0), ClearInFlight, Begin(second, Resource)]
  }

  lemma {:induction false} RunOfConcatenation(t: Tab, a: seq<TabEvent>, b: seq<TabEvent>)
    ensures TabRun(t, a + b) == TabRun(TabRun(t, a), b)
    decreases |a|
  {
    if a == [] {
      assert a + b == b;
    } else {
      assert (a + b)[1..] == a[1..] + b;
      RunOfConcatenation(TabStep(t, a[0]), a[1..], b);
    }
  }

  lemma RunOfTwo(t: Tab, a: TabEvent, b: TabEvent)
    ensures TabRun(t, [a, b]) == TabStep(TabStep(t, a), b)
  {
    hide TabStep;
    assert [a, b][1..] == [b] && [b][1..] == [];
    assert TabRun(TabStep(t, a), [b]) == TabRun(TabStep(TabStep(t, a), b), []);
  }

  lemma AskingSends(t: Tab, id: nat)
    requires IsFresh(t)
    ensures TabRun(t, [Begin(id, Resource), Respond(id, 401)])
            == t.(calls := map[id := Call(Resource, 1, AwaitingRefresh)], inFlight := Pending,
                network := [Presented(t.cookie)])
  {
    RunOfTwo(t, Begin(id, Resource), Respond(id, 401));
    assert t.calls[id := Call(Resource, 1, AwaitingRefresh)] == map[id := Call(Resource, 1, AwaitingRefresh)];
  }

  lemma LosingSettles(t: Tab, serve: TabEvent)
    requires |t.network| == 1 && t.network[0] == Presented(t.cookie) && t.cookie.Some?
    requires serve.Serve? && serve.k == 0
    requires Rotate(t.rows, t.cookie.value, serve.active, serve.newRaw, serve.newJti, serve.now, serve.days).reply.Ok?
    ensures var end := TabRun(t, [serve, Drop(0)]);
            && end.network == [] && end.inFlight == Settled(false)
            && end.cookie == t.cookie && end.calls == Woken(t.calls, false)
            && end.rows == Rotate(t.rows, t.cookie.value, serve.active, serve.newRaw, serve.newJti, serve.now,
                serve.days).rows
  {
    hide Rotate;
    RunOfTwo(t, serve, Drop(0));
  }

  lemma LossyRunEnds(t: Tab, first: nat, second: nat, serve: TabEvent)
    requires IsFresh(t) && t.cookie.Some? && first != second
    requires serve.Serve? && serve.k == 0
    requires Rotate(t.rows, t.cookie.value, serve.active, serve.newRaw, serve.newJti, serve.now, serve.days).reply.Ok?
    ensures var end := TabRun(t, LossyRun(first, second, serve));
            && end.inFlight.NoPromise? && CanRefresh(end, second) && end.cookie == t.cookie
            && end.rows == Rotate(t.rows, t.cookie.value, serve.active, serve.newRaw, serve.newJti, serve.now,
                serve.days).rows
  {
    hide Rotate, WasRotated, TabRun;
    var ask := [Begin(first, Resource), Respond(first, 401)];
    var lose := [serve, Drop(0)];
    var go := [ClearInFlight, Begin(second, Resource)];
    assert LossyRun(first, second, serve) == ask + lose + go;
    RunOfConcatenation(t, ask, lose);
    RunOfConcatenation(t, ask + lose, go);
    AskingSends(t, first);
    LosingSettles(TabRun(t, ask), serve);
    RunOfTwo(TabRun(t, ask + lose), ClearInFlight, Begin(second, Resource));
  }

  /** A successful rotation whose answer is lost leaves any fresh tab stale, ready to refresh again. */
  lemma LostResponseLeavesStale(t: Tab, first: nat, second: nat, serve: TabEvent)
    requires IsFresh(t) && t.cookie.Some? && first != second
    requires serve.Serve? && serve.k == 0
    requires Rotate(t.rows, t.cookie.value, serve.active, serve.newRaw, serve.newJti, serve.now, serve.days).reply.Ok?
    ensures var end := TabRun(t, LossyRun(first, second, serve));
            IsStale(t, LossyRun(first, second, serve)) && end.inFlight.NoPromise? && CanRefresh(end, second)
  {
    LossyRunEnds(t, first, second, serve);
    RotationMarks(t.rows, RotateEvent(t.cookie.value, serve.active, serve.newRaw, serve.newJti, serve.now, serve.days));
    RunTracksCookie(t, LossyRun(first, second, serve), false);
  }
}
