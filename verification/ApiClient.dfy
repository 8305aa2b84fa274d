/**
 The HTTP client of `frontend/src/api/client.js` in one browser tab, above the token table: requests
 interleave at their await points, and a 401 leads to one shared refresh and one retry.
 */
module ApiClient {
  import opened Wrappers
  import opened TokenStore
  import opened TokenChains

  /** Paths outside the bypass list, paths in it, and the refresh made when the application boots. */
  datatype Path = Resource | AuthPath | Restore

  /** Where a call stands between its await points. */
  datatype Point =
    | Fetching(retry: bool)
    | AwaitingRefresh
    | Refreshed(ok: bool) // the shared promise is settled; the continuation has not run
    | Finished(ok: bool)

  datatype Call = Call(path: Path, fetches: nat, point: Point)

  /** The module variable `refreshInFlight`. */
  datatype Promise = NoPromise | Pending | Settled(ok: bool)

  /** What the browser makes of the body of a successful refresh: its access token, or a parse error. */
  datatype Body = Unreadable | Parsed(accessToken: Option<nat>)

  /** One refresh request on the network: presented to the server, or answered and under way back. */
  datatype Exchange = Presented(cookie: Option<nat>) | Answered(reply: Option<nat>)

  datatype Tab = Tab(
    accessToken: Option<nat>,
    inFlight: Promise,
    calls: map<nat, Call>,
    network: seq<Exchange>,
    cookie: Option<nat>, // the refresh cookie of the browser
    rows: seq<TokenRow>, // the server's token table
    issued: set<nat> // the raw tokens the server has sent to this browser
  )

  datatype TabEvent =
    | Begin(id: nat, path: Path)
    | Respond(id: nat, status: nat)
    | Unreachable(id: nat)
    | Serve(k: nat, active: bool, newRaw: nat, newJti: nat, now: int, days: nat)
    | Arrive(k: nat, body: Body)
    | Drop(k: nat) // the exchange fails on the network
    | ClearInFlight // the `finally` of the call that made the promise
    | Continue(id: nat)
    | LoginArrives(user: nat, raw: nat, jti: nat, now: int, days: nat)
    | CookieCleared
    | SetToken(token: Option<nat>)
    | Elsewhere(e: AuthEvent) // logouts, and anything other browsers do with their own tokens

  // ---------- tryRefresh ----------

  /** Join the promise if there is one, whatever its state; otherwise present the cookie. */
  function TryRefresh(t: Tab, id: nat, call: Call): Tab {
    match t.inFlight
    case Settled(ok) => t.(calls := t.calls[id := call.(point := Refreshed(ok))])
    case Pending => t.(calls := t.calls[id := call.(point := AwaitingRefresh)])
    case NoPromise =>
      t.(calls := t.calls[id := call.(point := AwaitingRefresh)],
         inFlight := Pending,
         network := t.network + [Presented(t.cookie)])
  }

  function Woken(calls: map<nat, Call>, ok: bool): map<nat, Call> {
    map id | id in calls ::
      if calls[id].point.AwaitingRefresh? then calls[id].(point := Refreshed(ok)) else calls[id]
  }

  /** The promise settles and everyone awaiting it is woken. */
  function Settle(t: Tab, ok: bool): Tab {
    t.(inFlight := Settled(ok), calls := Woken(t.calls, ok))
  }

  function Without(network: seq<Exchange>, k: nat): seq<Exchange>
    requires k < |network|
  {
    network[..k] + network[k + 1..]
  }

  // ---------- request ----------

  function BeginCall(t: Tab, id: nat, path: Path): Tab {
    if id in t.calls then t
    else if path.Restore? then TryRefresh(t, id, Call(path, 0, AwaitingRefresh))
    else t.(calls := t.calls[id := Call(path, 1, Fetching(true))])
  }

  function OnResponse(t: Tab, id: nat, status: nat): Tab {
    if id !in t.calls || !t.calls[id].point.Fetching? then t
    else
      var call := t.calls[id];
      if status == 401 && call.point.retry && !call.path.AuthPath? then TryRefresh(t, id, call)
      else t.(calls := t.calls[id := call.(point := Finished(200 <= status < 300))])
  }

  function OnUnreachable(t: Tab, id: nat): Tab {
    if id !in t.calls || !t.calls[id].point.Fetching? then t
    else t.(calls := t.calls[id := t.calls[id].(point := Finished(false))])
  }

  /** What a call does with the outcome of the refresh: one retry, or the unauthorized handler. */
  function OnRefreshed(t: Tab, id: nat): Tab {
    if id !in t.calls || !t.calls[id].point.Refreshed? then t
    else
      var call := t.calls[id];
      if call.path.Restore? then t.(calls := t.calls[id := call.(point := Finished(call.point.ok))])
      else if call.point.ok then
        t.(calls := t.calls[id := call.(fetches := call.fetches + 1, point := Fetching(false))])
      else
        t.(calls := t.calls[id := call.(point := Finished(false))], accessToken := None)
  }

  // ---------- the refresh exchange ----------

  /** The server handles `POST /auth/refresh`. */
  function OnServe(t: Tab, k: nat, active: bool, newRaw: nat, newJti: nat, now: int, days: nat): Tab {
    if k >= |t.network| || !t.network[k].Presented? then t
    else
      match t.network[k].cookie
      case None => t.(network := t.network[k := Answered(None)])
      case Some(raw) =>
        var tx := Rotate(t.rows, raw, active, newRaw, newJti, now, days);
        match tx.reply
        case Err(_) => t.(network := t.network[k := Answered(None)])
        case Ok(_) => t.(network := t.network[k := Answered(Some(newRaw))], rows := tx.rows,
            issued := t.issued + {newRaw})
  }

  /** The headers set the cookie before the body is read. */
  function OnArrive(t: Tab, k: nat, body: Body): Tab {
    if k >= |t.network| || !t.network[k].Answered? then t
    else
      var reply := t.network[k].reply;
      var rest := t.(network := Without(t.network, k));
      if reply.None? then Settle(rest, false)
      else if body.Unreadable? then Settle(rest.(cookie := reply), false)
      else Settle(rest.(cookie := reply, accessToken := body.accessToken), body.accessToken.Some?)
  }

  function OnDrop(t: Tab, k: nat): Tab {
    if k >= |t.network| then t else Settle(t.(network := Without(t.network, k)), false)
  }

  function OnClear(t: Tab): Tab {
    if t.inFlight.Settled? then t.(inFlight := NoPromise) else t
  }

  // ---------- the rest of the browser and the world ----------

  function OnLogin(t: Tab, user: nat, raw: nat, jti: nat, now: int, days: nat): Tab {
    var tx := Login(t.rows, user, true, true, raw, jti, now, days);
    if tx.reply.Ok? then t.(rows := tx.rows, cookie := Some(raw), issued := t.issued + {raw}) else t
  }

  /** Other browsers rotate only tokens that were not sent to this one. */
  predicate IsForeign(t: Tab, e: AuthEvent) {
    e.RotateEvent? ==> e.raw !in t.issued
  }

  function TabStep(t: Tab, e: TabEvent): Tab {
    match e
    case Begin(id, path) => BeginCall(t, id, path)
    case Respond(id, status) => OnResponse(t, id, status)
    case Unreachable(id) => OnUnreachable(t, id)
    case Serve(k, active, newRaw, newJti, now, days) => OnServe(t, k, active, newRaw, newJti, now, days)
    case Arrive(k, body) => OnArrive(t, k, body)
    case Drop(k) => OnDrop(t, k)
    case ClearInFlight => OnClear(t)
    case Continue(id) => OnRefreshed(t, id)
    case LoginArrives(user, raw, jti, now, days) => OnLogin(t, user, raw, jti, now, days)
    case CookieCleared => t.(cookie := None)
    case SetToken(token) => t.(accessToken := token)
    case Elsewhere(a) => if IsForeign(t, a) then t.(rows := AuthStep(t.rows, a)) else t
  }

  function TabRun(t: Tab, events: seq<TabEvent>): Tab
    decreases |events|
  {
    if events == [] then t else TabRun(TabStep(t, events[0]), events[1..])
  }

  /** A freshly loaded page over any token table, with no cookie or one that has not been rotated. */
  predicate IsFresh(t: Tab) {
    && t.inFlight.NoPromise? && t.calls == map[] && t.network == []
    && (t.cookie.Some? ==> t.cookie.value in t.issued && !WasRotated(t.rows, t.cookie.value))
  }

  predicate WasRotated(rows: seq<TokenRow>, raw: nat) {
    exists i | 0 <= i < |rows| :: rows[i].raw == raw && rows[i].replacedBy.Some?
  }

  // ---------- the module itself ----------

  /** The client's code between its await points, on the module variables it sets and clears. */
  class Client {
    var accessToken: Option<nat>
    var refreshInFlight: Promise
    var calls: map<nat, Call>
    var network: seq<Exchange>
    var cookie: Option<nat>
    var rows: seq<TokenRow>
    var issued: set<nat>

    function View(): Tab
      reads this
    {
      Tab(accessToken, refreshInFlight, calls, network, cookie, rows, issued)
    }

    constructor (t: Tab)
      ensures View() == t
    {
      accessToken, refreshInFlight, calls, network := t.accessToken, t.inFlight, t.calls, t.network;
      cookie, rows, issued := t.cookie, t.rows, t.issued;
    }

    method AwaitRefresh(id: nat, call: Call)
      modifies this
      ensures View() == TryRefresh(old(View()), id, call)
    {
      if refreshInFlight.Settled? {
        calls := calls[id := call.(point := Refreshed(refreshInFlight.ok))];
        return;
      }
      if refreshInFlight.NoPromise? {
        network := network + [Presented(cookie)];
        refreshInFlight := Pending;
      }
      calls := calls[id := call.(point := AwaitingRefresh)];
    }

    method Request(id: nat, path: Path)
      modifies this
      ensures View() == BeginCall(old(View()), id, path)
    {
      if id in calls { return; }
      if path.Restore? {
        AwaitRefresh(id, Call(path, 0, AwaitingRefresh));
      } else {
        calls := calls[id := Call(path, 1, Fetching(true))];
      }
    }

    method HandleResponse(id: nat, status: nat)
      modifies this
      ensures View() == OnResponse(old(View()), id, status)
    {
      if id !in calls || !calls[id].point.Fetching? { return; }
      var call := calls[id];
      if status == 401 && call.point.retry && !call.path.AuthPath? {
        AwaitRefresh(id, call);
        return;
      }
      calls := calls[id := call.(point := Finished(200 <= status < 300))];
    }

    method HandleRefreshResponse(k: nat, body: Body)
      modifies this
      ensures View() == OnArrive(old(View()), k, body)
    {
      if k >= |network| || !network[k].Answered? { return; }
      var reply := network[k].reply;
      network := Without(network, k);
      var refreshed := false;
      if reply.Some? {
        cookie := reply;
        if body.Parsed? {
          accessToken := body.accessToken;
          refreshed := accessToken.Some?;
        }
      }
      refreshInFlight := Settled(refreshed);
      calls := Woken(calls, refreshed);
    }

    method HandleRefreshFailure(k: nat)
      modifies this
      ensures View() == OnDrop(old(View()), k)
    {
      if k >= |network| { return; }
      network := Without(network, k);
      refreshInFlight := Settled(false);
      calls := Woken(calls, false);
    }

    method Finally()
      modifies this
      ensures View() == OnClear(old(View()))
    {
      if refreshInFlight.Settled? {
        refreshInFlight := NoPromise;
      }
    }

    method AfterRefresh(id: nat)
      modifies this
      ensures View() == OnRefreshed(old(View()), id)
    {
      if id !in calls || !calls[id].point.Refreshed? { return; }
      var call := calls[id];
      if call.path.Restore? {
        calls := calls[id := call.(point := Finished(call.point.ok))];
      } else if call.point.ok {
        calls := calls[id := call.(fetches := call.fetches + 1, point := Fetching(false))];
      } else {
        accessToken := None;
        calls := calls[id := call.(point := Finished(false))];
      }
    }
  }
}
