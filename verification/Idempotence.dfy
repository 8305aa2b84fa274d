/** Submitting is idempotent over whole runs, and a key stands for one payload for ever. */
module Idempotence {
  import opened Wrappers
  import opened Text
  import opened RequestHash
  import opened InterviewDb
  import opened Lifecycle
  import opened Invariant
  import opened SubmissionProofs
  import opened Growth
  import opened Runs

  /** The idempotency row of a submission, as stored. */
  ghost predicate IsRecorded(db: Db, s: Submission, answer: nat) {
    && answer < |db.keys|
    && db.keys[answer].key == Strip(s.key)
    && db.keys[answer].question == s.question
    && db.keys[answer].requestHash == SubmissionHash(s)
  }

  lemma AcceptedIsRecorded(db: Db, actor: nat, s: Submission, now: nat)
    requires Inv(db)
    requires Submit(db, actor, s, now).reply.Ok?
    ensures IsRecorded(Submit(db, actor, s, now).db, s, Submit(db, actor, s, now).reply.value.answer)
  {
    hide QuestionsOk, AnswersOk, PointersOk, EvaluationsOk, FollowUpsOk, BudgetsOk, AccountsOk;
    FindKeyMeaning(db.keys, Strip(s.key));
    var found := FindKey(db.keys, Strip(s.key));
    if found.Some? {
      var i :| 0 <= i < |db.keys| && db.keys[i] == found.value && db.keys[i].key == Strip(s.key);
      assert KeyMatches(db.keys[i], db.answers[i], i);
    }
  }

  predicate SamePayload(s: Submission, again: Submission) {
    again.question == s.question && Strip(again.text) == Strip(s.text) && again.timeTaken == s.timeTaken
  }

  /** How a submission is turned down that uses a recorded key for another payload. */
  function Refusal(db: Db, again: Submission): ServiceError {
    if !ProperSubmission(again) then InvalidAnswer
    else if again.question >= |db.questions| then InvalidCurrentQuestion
    else DuplicateSubmission
  }

  /** A recorded key answers for its own payload and rejects every other one, well-formed or not. */
  lemma RecordedKeyDecides(db: Db, s: Submission, answer: nat, again: Submission, now: nat)
    requires KeysOk(db.keys, db.answers) && IsRecorded(db, s, answer)
    requires ProperSubmission(s) && s.question < |db.questions| && Strip(again.key) == Strip(s.key)
    ensures Submit(db, db.owner, again, now) ==
              if SamePayload(s, again) then Tx(db, Ok(Receipt(answer, true, db.status))) else Tx(db, Err(Refusal(db,
                  again)))
  {
    FindKeyAt(db.keys, db.answers, answer);
    assert KeyMatches(db.keys[answer], db.answers[answer], answer);
    HashDeterminesRequest(Strip(s.text), s.question, s.timeTaken, Strip(again.text), again.question, again.timeTaken);
  }

  lemma RecordsStay(w: World, e: Event, events: seq<Event>, s: Submission, answer: nat)
    requires WorldInv(w) && IsRecorded(Step(w, e).db, s, answer)
    ensures var end := Run(Step(w, e), events).db;
            && KeysOk(end.keys, end.answers)
            && IsRecorded(end, s, answer)
            && (w.db.questions != [] ==> end.questions == w.db.questions)
            && end.owner == w.db.owner
  {
    hide KeysOk, QuestionsOk, AnswersOk, PointersOk, EvaluationsOk, FollowUpsOk, BudgetsOk, AccountsOk;
    StepKeepsWorldInv(w, e);
    StepGrows(w, e);
    RunGrows(Step(w, e), events);
    RunKeepsDb(Step(w, e), events);
  }

  /**
   After a successful submit, whatever happens in between and whatever status the interview has reached,
   the same key returns the same answer for the same payload, is rejected for every other payload,
   and changes nothing either way.
   */
  lemma SubmitIsIdempotent(w: World, actor: nat, s: Submission, now: nat, events: seq<Event>, again: Submission,
      later: nat)
    requires Reachable(w)
    requires Submit(w.db, actor, s, now).reply.Ok?
    requires Strip(again.key) == Strip(s.key)
    ensures var end := Run(Step(w, Event(now, CallSubmit(actor, s))), events).db;
            Submit(end, actor, again, later) ==
              if SamePayload(s, again) then Tx(end, Ok(Receipt(Submit(w.db, actor, s, now).reply.value.answer, true,
                  end.status)))
              else Tx(end, Err(Refusal(end, again)))
  {
    hide Inv;
    ReachableIsOk(w);
    var e := Event(now, CallSubmit(actor, s));
    var answer := Submit(w.db, actor, s, now).reply.value.answer;
    AcceptedIsRecorded(w.db, actor, s, now);
    RecordsStay(w, e, events, s, answer);
    RecordedKeyDecides(Run(Step(w, e), events).db, s, answer, again, later);
  }

  lemma RepeatedSubmitIsIdle(w: World, actor: nat, s: Submission, now: nat, mid: seq<Event>, later: nat)
    requires Reachable(w)
    requires Submit(w.db, actor, s, now).reply.Ok?
    ensures var there := Run(Step(w, Event(now, CallSubmit(actor, s))), mid);
            Step(there, Event(later, CallSubmit(actor, s))) == there
  {
    SubmitIsIdempotent(w, actor, s, now, mid, s, later);
    var there := Run(Step(w, Event(now, CallSubmit(actor, s))), mid);
    assert Submit(there.db, actor, s, later).db == there.db;
    assert Called(there.db, CallSubmit(actor, s), later) == there.db;
  }

  /** Repeating an accepted submit anywhere later in a schedule leaves the whole run as it was. */
  lemma RepeatedSubmitVanishes(w: World, actor: nat, s: Submission, now: nat, mid: seq<Event>, later: nat,
      post: seq<Event>)
    requires Reachable(w)
    requires Submit(w.db, actor, s, now).reply.Ok?
    ensures var first, again := Event(now, CallSubmit(actor, s)), Event(later, CallSubmit(actor, s));
            Run(w, [first] + mid + [again] + post) == Run(w, [first] + mid + post)
  {
    RepeatedSubmitIsIdle(w, actor, s, now, mid, later);
    NoOpVanishes(w, Event(now, CallSubmit(actor, s)), mid, Event(later, CallSubmit(actor, s)), post);
  }
}
