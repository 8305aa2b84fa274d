/**
 What becomes of each call: which steps move it, what a success means, and that a refreshed request is
 really made again. For any interleaving in one tab.
 */
module ApiClientCalls {
  import opened Wrappers
  import opened TokenStore
  import opened ApiClient
  import opened ApiClientProofs

  /** This answer to a refresh brings an access token. */
  predicate BringsToken(t: Tab, e: TabEvent) {
    && e.Arrive? && e.k < |t.network| && CarriesToken(t.network[e.k])
    && e.body.Parsed? && e.body.accessToken.Some?
  }

  predicate IsGood(status: nat) {
    200 <= status <= 299
  }

  /** How a step may move a call, by where the call stands. */
  predicate Moves(t: Tab, e: TabEvent, id: nat, c: Call, d: Call) {
    && d.path == c.path
    && match c.point
       case Fetching(retry) =>
         if e.Unreachable? && e.id == id then d == c.(point := Finished(false))
         else if e.Respond? && e.id == id && e.status == 401 && retry && c.path != AuthPath then
           d.fetches == c.fetches && (d.point.AwaitingRefresh? || d.point.Refreshed?)
         else if e.Respond? && e.id == id then d == c.(point := Finished(IsGood(e.status)))
         else d == c
       case AwaitingRefresh =>
         d == c || ((e.Arrive? || e.Drop?) && d == c.(point := Refreshed(BringsToken(t, e))))
       case Refreshed(ok) =>
         if !(e.Continue? && e.id == id) then d == c
         else if c.path == Restore then d == c.(point := Finished(ok))
         else if ok then d == c.(fetches := c.fetches + 1, point := Fetching(false))
         else d == c.(point := Finished(false))
       case Finished(_) => d == c
  }

  lemma StepMovesCalls(t: Tab, e: TabEvent, id: nat)
    requires id in t.calls
    ensures id in TabStep(t, e).calls && Moves(t, e, id, t.calls[id], TabStep(t, e).calls[id])
  {
    hide Rotate, Login;
    if e.Serve? {
      ServeKeepsCalls(t, e);
    }
  }

  lemma ServeKeepsCalls(t: Tab, e: TabEvent)
    requires e.Serve?
    ensures TabStep(t, e).calls == t.calls
  {
    hide Rotate;
  }

  /** While a refresh is on the network, its end wakes every call that waits for it. */
  lemma EndOfRefreshWakes(t: Tab, e: TabEvent, id: nat)
    requires id in t.calls && t.calls[id].point.AwaitingRefresh?
    requires (e.Arrive? && e.k < |t.network| && t.network[e.k].Answered?) || (e.Drop? && e.k < |t.network|)
    ensures TabStep(t, e).calls[id].point == Refreshed(BringsToken(t, e))
    ensures TabStep(t, e).inFlight == Settled(BringsToken(t, e))
    ensures e.Arrive? && CarriesToken(t.network[e.k]) ==> TabStep(t, e).cookie == t.network[e.k].reply
    ensures BringsToken(t, e) ==> TabStep(t, e).accessToken == e.body.accessToken
  {
  }

  /** A refused request asks for a refresh: its own, the one under way, or the outcome of the last one. */
  lemma RefusedRequestRefreshes(t: Tab, id: nat)
    requires id in t.calls && t.calls[id].point == Fetching(true) && t.calls[id].path != AuthPath
    ensures var after := TabStep(t, Respond(id, 401));
            && (t.inFlight.NoPromise? ==>
                  && after.network == t.network + [Presented(t.cookie)] && after.inFlight == Pending
                  && after.calls[id].point == AwaitingRefresh)
            && (t.inFlight.Pending? ==>
                  after.network == t.network && after.inFlight == Pending && after.calls[id].point == AwaitingRefresh)
            && (t.inFlight.Settled? ==>
                  && after.network == t.network && after.inFlight == t.inFlight
                  && after.calls[id].point == Refreshed(t.inFlight.ok))
  {
  }

  /** The server's part of a refresh is one rotation of the presented token. */
  lemma ServedRefreshIsARotation(t: Tab, e: TabEvent, raw: nat)
    requires e.Serve? && e.k < |t.network| && t.network[e.k] == Presented(Some(raw))
    ensures var tx := Rotate(t.rows, raw, e.active, e.newRaw, e.newJti, e.now, e.days);
            && TabStep(t, e).rows == tx.rows
            && TabStep(t, e).network == t.network[e.k := Answered(if tx.reply.Ok? then Some(e.newRaw) else None)]
  {
    hide Login;
    FindTokenPosition(t.rows, raw);
  }

  // ---------- over runs ----------

  /** The access token is set by hand and by a readable answer, and dropped by a request whose refresh failed. */
  lemma AccessTokenMoves(t: Tab, e: TabEvent)
    ensures var failed := && e.Continue? && e.id in t.calls && t.calls[e.id].point == Refreshed(false)
                          && t.calls[e.id].path != Restore;
            var read := e.Arrive? && e.k < |t.network| && CarriesToken(t.network[e.k]) && e.body.Parsed?;
            TabStep(t, e).accessToken == if e.SetToken? then e.token
                                         else if read then e.body.accessToken
                                         else if failed then None
                                         else t.accessToken
  {
    hide Rotate, Login;
  }

  /** A new request starts with its first fetch; restoring the session starts with a refresh. */
  lemma NewCallStarts(t: Tab, id: nat, path: Path)
    requires id !in t.calls
    ensures var after := TabStep(t, Begin(id, path));
            && id in after.calls && after.calls[id].path == path
            && (path != Restore ==> after.calls[id].fetches == 1 && after.calls[id].point == Fetching(true))
            && (path == Restore ==>
                  && after.calls[id].fetches == 0
                  && (after.calls[id].point.AwaitingRefresh? || after.calls[id].point.Refreshed?))
            && (path == Restore && t.inFlight.NoPromise? ==> after.network == t.network + [Presented(t.cookie)])
  {
  }

  lemma UnknownCallStaysUnknown(t: Tab, e: TabEvent, id: nat)
    requires id !in t.calls && !(e.Begin? && e.id == id)
    ensures id !in TabStep(t, e).calls
  {
    hide Rotate, Login;
    if e.Serve? {
      ServeKeepsCalls(t, e);
    }
  }

  predicate WasAnsweredWell(events: seq<TabEvent>, id: nat) {
    exists i | 0 <= i < |events| :: events[i].Respond? && events[i].id == id && IsGood(events[i].status)
  }

  /** A call other than a restore is not done with success before it got a good response. */
  ghost predicate SuccessOk(t: Tab, id: nat, answered: bool) {
    id in t.calls && t.calls[id].path != Restore && t.calls[id].point == Finished(true) ==> answered
  }

  lemma StepKeepsSuccess(t: Tab, e: TabEvent, id: nat, answered: bool)
    requires SuccessOk(t, id, answered)
    ensures SuccessOk(TabStep(t, e), id, answered || (e.Respond? && e.id == id && IsGood(e.status)))
  {
    hide TabStep;
    if id in t.calls {
      StepMovesCalls(t, e, id);
    } else if e.Begin? && e.id == id {
      NewCallStarts(t, id, e.path);
    } else {
      UnknownCallStaysUnknown(t, e, id);
    }
  }

  lemma {:induction false} RunKeepsSuccess(t: Tab, events: seq<TabEvent>, id: nat, answered: bool)
    requires SuccessOk(t, id, answered)
    ensures SuccessOk(TabRun(t, events), id, answered || WasAnsweredWell(events, id))
    decreases |events|
  {
    hide TabStep;
    if events != [] {
      var e := events[0];
      var now := answered || (e.Respond? && e.id == id && IsGood(e.status));
      StepKeepsSuccess(t, e, id, answered);
      RunKeepsSuccess(TabStep(t, e), events[1..], id, now);
      if WasAnsweredWell(events[1..], id) {
        var rest := events[1..];
        var i :| 0 <= i < |rest| && rest[i].Respond? && rest[i].id == id && IsGood(rest[i].status);
        assert events[i + 1] == events[1..][i];
      }
    }
  }

  /** In any run from a fresh page a request succeeds only with a response of the server that says so. */
  lemma SuccessNeedsAGoodResponse(t: Tab, events: seq<TabEvent>, id: nat)
    requires IsFresh(t)
    requires var end := TabRun(t, events);
             id in end.calls && end.calls[id].path != Restore && end.calls[id].point == Finished(true)
    ensures WasAnsweredWell(events, id)
  {
    RunKeepsSuccess(t, events, id, false);
  }

  predicate LeavesAlone(events: seq<TabEvent>, id: nat) {
    forall i | 0 <= i < |events| :: !(events[i].Continue? && events[i].id == id)
  }

  lemma {:induction false} WokenCallWaits(t: Tab, events: seq<TabEvent>, id: nat)
    requires id in t.calls && t.calls[id].point.Refreshed? && LeavesAlone(events, id)
    ensures id in TabRun(t, events).calls && TabRun(t, events).calls[id] == t.calls[id]
    decreases |events|
  {
    hide TabStep;
    if events != [] {
      StepMovesCalls(t, events[0], id);
      assert forall i | 0 <= i < |events[1..]| :: events[1..][i] == events[i + 1];
      WokenCallWaits(TabStep(t, events[0]), events[1..], id);
    }
  }

  /**
   After any run, a request woken by a successful refresh is fetched a second time in its next own step,
   whatever else happens before: the retry is made, once, and without a further refresh.
   */
  lemma RefreshedRequestIsFetchedAgain(t: Tab, before: seq<TabEvent>, between: seq<TabEvent>, id: nat)
    requires IsFresh(t)
    requires var woken := TabRun(t, before);
             id in woken.calls && woken.calls[id].path != Restore && woken.calls[id].point == Refreshed(true)
    requires LeavesAlone(between, id)
    ensures var after := TabStep(TabRun(TabRun(t, before), between), Continue(id)).calls;
            id in after && after[id].fetches == 2 && after[id].point == Fetching(false)
  {
    hide TabStep;
    var woken := TabRun(t, before);
    RunKeepsSingleFlight(t, before);
    assert CallOk(woken.calls[id]);
    WokenCallWaits(woken, between, id);
    StepMovesCalls(TabRun(woken, between), Continue(id), id);
  }
}
