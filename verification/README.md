# Interview service: model and proofs

A Dafny model of the back end of an AI interview trainer, and proofs about every run of it. An
interview is one database row with its questions, answers, evaluations, follow-ups, idempotency keys
and report. API callers and at-least-once workers change it concurrently, one committed transaction
at a time, each under the lock of the interview row. The AI provider may return anything its schema
admits, or raise. The status graph has cycles (an answer can lead to a follow-up, a follow-up to
another answer, and a finished question to the next one), so termination, exactly-once evaluation,
follow-up budgets and the agreement of report and evaluations do not follow from the graph. They
follow from one global invariant, `Invariant.Inv`, which every transaction, delivery, redelivery and
crash is proved to keep.

## How it is built

| part | modules |
|---|---|
| the interview as the database holds it, and each transaction as a function on it | `StateMachine`, `Schemas`, `InterviewDb` |
| the same transactions statement by statement, as methods on a class with rollback; each is proved to do exactly what its function says | `InterviewService` |
| callers, workers, deliveries and crashes interleaved at commit boundaries | `Lifecycle` |
| the global invariant, and what no step undoes | `Counting`, `Invariant`, `SubmissionProofs`, `EvaluationProofs`, `Preservation`, `Growth`, `Runs` |
| what each transaction answers and writes, said of its inputs and result alone | `Outcomes`, `GenerationOutcomes`, `TokenOutcomes` |
| the theorems about runs, and one concrete run | `LifecycleTheorems`, `Provenance`, `Termination`, `Deliveries`, `Idempotence`, `Stranding`, `Witnesses` |
| scoring arithmetic | `Scoring`, `ScoringProofs` |
| text normalisation, retry, bank, question and follow-up generation, request hash | `Text`, `TextProofs`, `Retry`, `QuestionBank`, `QuestionGeneration`, `FollowUps`, `RequestHash` |
| the refresh-token table, and rotations that overlap | `TokenStore`, `TokenChains`, `TokenRaces` |
| the browser client's requests and shared refresh | `ApiClient`, `ApiClientProofs`, `ApiClientCalls` |

`dafny verify dfyconfig.toml` checks the whole project.

A step of a run (`Lifecycle.Step`) is one committed transaction. A worker that commits more than once
is a task that lives on between its commits: a generation task between inserting the questions and
`mark_ready`, an evaluation task between its evaluation and `move_to_next_question`, a report task
between `begin_report`, reading the evaluations and writing the report. Any other event can come in
between, a task can crash at any of these points, and any task can be delivered again at any time.
The theorems speak of every reachable world (`Runs.Reachable`, database and workers in flight) and
every reachable database (`LifecycleTheorems.ReachableDb`): those that some schedule leads to from a
new interview.

## What the code does, where that is not what one would expect

- The status graph in the code lets an owner finish from WAITING_FOR_ANSWER and FOLLOW_UP_REQUIRED;
  docs/interview-state-machine.md:27-29 does not list these edges. The code is followed.
- A declared follow-up limit of 0 is read as 1 (backend/app/workers.py:207).
  `LifecycleTheorems.DeclaredLimitIsExceededIff` says exactly when the declared limit is exceeded.
- A follow-up is decided even for a question that allows none, so a rejected or failed decision
  takes such a question's evaluation back as well; with a spent budget the decision itself fails when
  the first gap does not fit the schema (`FollowUps.SpentBudgetFailsIff`).
- A rejected question or follow-up is never retried, because the rejection is not a validation error.
- Delivering question generation a second time fails the interview
  (`Deliveries.RedeliveredGenerationFailsTheInterview`, `Deliveries.GenerationIsHarmlessIff`).
- A crash between the two commits of an evaluation leaves NEXT_QUESTION until someone ends the
  interview, and a crash after `begin_report`, or an interview without evaluations, leaves it without
  a report for good (module `Stranding`). Hence no unconditional liveness is claimed.
- Once the server has rotated the tab's cookie and the answer is lost, the tab presents the rotated
  token, exactly until a login or another answer replaces the cookie or it is cleared; until then the
  next refused request ends its session (`ApiClientProofs.RotatedTokenIsPresentedIff`,
  `ApiClientProofs.StaleTabIsLoggedOut`).
- `rotate_refresh` reads its row without a lock: two rotations of one token both succeed exactly when
  the second reads before the first commits, and then leave two live tokens of which one is linked
  (`TokenRaces.AcceptedTwiceIffOverlapping`, `TokenRaces.OverlapSplitsTheChain`).

## Model

| member | source | states |
|---|---|---|
| StateMachine.StagesNeverGoBack | backend/app/interviews/state_machine.py:18-38 | On every path of the status graph, of any length, the only way back is inside the answer loop: the stage of an interview never decreases. |
| StateMachine.TerminalStatuses | backend/app/interviews/state_machine.py:36-37 | The statuses without a way out are REPORT_READY and FAILED, and every other status can fail. |
| StateMachine.TerminalEndsThePath | backend/app/interviews/state_machine.py:47-56 | A path that enters a terminal status ends there. |
| StateMachine.GraphIsDocumentedBut | docs/interview-state-machine.md:21-34 | The code's graph is the documented one with exactly two more edges: completion from WAITING_FOR_ANSWER and from FOLLOW_UP_REQUIRED. |
| InterviewService.InterviewStore.Transition | backend/app/interviews/service.py:50-67 | Moves along an edge of the graph and stamps start and completion once; without an edge nothing changes. |
| InterviewService.InterviewStore.BeginPreparationOf | backend/app/interviews/service.py:110-117 | Makes of the database exactly the transaction `InterviewDb.BeginPreparation`, error cases included. |
| InterviewService.InterviewStore.MakeReady | backend/app/interviews/service.py:120-136 | READY only from PREPARING and only with persisted questions. |
| InterviewService.InterviewStore.FindNext | backend/app/interviews/service.py:353 | The scan behind ORDER BY order_index LIMIT 1 agrees with the recursive query function. |
| Preservation.NextOrderMeaning | backend/app/interviews/service.py:147 | That query returns the least order index from the bound on, and nothing exactly when every index is below the bound. |
| InterviewService.InterviewStore.StartInterview | backend/app/interviews/service.py:139-162 | Two moves and the cursor in one transaction; a READY interview without questions is failed and the call rejected. |
| InterviewService.InterviewStore.SubmitAnswer | backend/app/interviews/service.py:257-322 | All rejections in the order of the source, the replayed key, and the new rows; a rejected submit leaves no trace, not even of the flushed move out of FOLLOW_UP_REQUIRED. |
| InterviewService.InterviewStore.AcceptNew | backend/app/interviews/service.py:286-322 | A submission under a new key: the flushed move to waiting is undone when the question turns out not to be the current one. |
| InterviewService.InterviewStore.RecordAnswer | backend/app/interviews/service.py:297-319 | Answer with the next attempt number, pointer, idempotency key and EVALUATING; the key insert cannot violate its unique constraint. |
| InterviewService.InterviewStore.AdvanceAfterEvaluation | backend/app/interviews/service.py:325-336 | Out of EVALUATING only, to FOLLOW_UP_REQUIRED or NEXT_QUESTION as decided. |
| InterviewService.InterviewStore.MoveToNextQuestion | backend/app/interviews/service.py:339-363 | Back to waiting after a follow-up, on to the next order index, or completion when there is none. |
| InterviewService.InterviewStore.FinishInterview | backend/app/interviews/service.py:366-384 | Completion from the active statuses only, and its two kinds of rejection. |
| InterviewService.InterviewStore.FailInterview | backend/app/interviews/service.py:387-398 | FAILED from every status that is not terminal. |
| InterviewService.InterviewStore.GenerateQuestionsWork | backend/app/workers.py:87-142 | All questions or none, and the exception path that fails the interview. |
| InterviewService.InterviewStore.ReadyAfterGeneration | backend/app/workers.py:133-142 | The second commit of generation with its exception path. |
| InterviewService.InterviewStore.EvaluateAnswerWork | backend/app/workers.py:147-233 | Guards, evaluation row, follow-up row and the advance in one transaction; a failed decision rolls the evaluation row back. |
| InterviewService.InterviewStore.BeginReportWork | backend/app/workers.py:255-268 | A delivery owns the report only from COMPLETED and without a report. |
| InterviewService.InterviewStore.BuildReport | backend/app/workers.py:272-293 | The report of the rows as read; no report of no rows. |
| InterviewService.InterviewStore.CompleteReportWork | backend/app/workers.py:310-334 | Report row and REPORT_READY in one transaction, or neither. |
| Outcomes.CreateOutcome | backend/app/interviews/service.py:70-107 | Exactly when an interview is created; it belongs to its owner, asks for the requested number of questions, and is empty. |
| Outcomes.PreparationOutcome | backend/app/interviews/service.py:110-117 | Exactly the owner of a CREATED interview starts its preparation. |
| Outcomes.ReadyOutcome | backend/app/interviews/service.py:120-136 | READY is reached exactly from PREPARING with questions. |
| Outcomes.StartOutcome | backend/app/interviews/service.py:139-162 | Exactly the owner starts a READY interview with questions; the cursor gets the least index, the start its time; without questions it is failed. |
| Outcomes.StrangersHaveNoInfluence | backend/app/interviews/service.py:42-47 | Deleting all calls of other actors than the owner from any schedule leaves its outcome unchanged. |
| Outcomes.SubmitVerdict | backend/app/interviews/service.py:261-295 | Exactly when a submission is accepted, and exactly when each of the five rejections is raised. |
| Outcomes.SubmitOutcome | backend/app/interviews/service.py:278-322 | A submission is reported as a duplicate exactly when its key is known, and then changes nothing; otherwise exactly its answer and key are added, with the status it leaves. |
| Outcomes.MoveToNextOutcome | backend/app/interviews/service.py:339-363 | Back to waiting, on to the least later index, or to the end exactly when no index is later. |
| Outcomes.FinishOutcome | backend/app/interviews/service.py:366-384 | Exactly the owner finishes an interview under way; the completion time is set once. |
| Outcomes.FailOutcome | backend/app/interviews/service.py:387-398 | Every interview but a failed one or one with its report can be failed by its owner. |
| Outcomes.ExceptionOutcome | backend/app/workers.py:134-142 | The exception path fails every interview but those. |
| Outcomes.InsertOutcome | backend/app/workers.py:100-132 | Generation stores each generated question at its own index, only where there are none, or takes the exception path. |
| Outcomes.ReadyOrFailOutcome | backend/app/workers.py:133-142 | The second commit of generation makes the interview READY or takes the exception path. |
| Outcomes.EvaluationOutcome | backend/app/workers.py:152-233 | Exactly when an evaluation commits; it then stores the dimensions of the provider's first valid reply with their rounded means, and a follow-up with the very text of a reply exactly when one is asked for and allowed. |
| Outcomes.EvaluationVerdict | backend/app/workers.py:155-165 | Exactly which deliveries are errors and which are skipped at the guards; neither changes anything. |
| Outcomes.ReadingOutcome | backend/app/workers.py:269-309 | A report worker goes on exactly with some evaluations and a provider that answers, with the scores of those rows. |
| Outcomes.BeginReportOutcome | backend/app/workers.py:255-263 | A delivery owns the report exactly from COMPLETED without a report. |
| Outcomes.WriteReportOutcome | backend/app/workers.py:310-334 | The report is written exactly in REPORT_GENERATING and only once. |
| Outcomes.ReportOutcome | backend/app/workers.py:272-293 | The report of some rows has the scores of their dimensions in order and their number; only no rows give none. |
| RequestHash.HashRequest | backend/app/interviews/service.py:247-254 | Feeds the hash the question, the answer and the time taken, separated by bars, one update at a time. |
| RequestHash.HashDeterminesRequest | docs/interview-state-machine.md:55-58 | Two submissions have the same request hash exactly when text, question and time taken agree, although the answer text may itself contain the separator. |
| SubmissionProofs.MaxAttemptIsCount | backend/app/interviews/service.py:297-298 | When attempts count up from 1, the maximal attempt number of a question is its number of answers. |
| SubmissionProofs.FindKeyMeaning | backend/app/interviews/service.py:278 | The key lookup finds a row with that key, and none exactly when no row has it. |
| SubmissionProofs.SubmitKeepsInv | backend/app/interviews/service.py:257-322 | Every submit, accepted or rejected, keeps the global invariant. |
| EvaluationProofs.EvaluateKeepsInv | backend/app/workers.py:147-233 | An evaluation, with any replies of the provider, keeps the global invariant. |
| Runs.RunKeepsWorldInv | backend/app/workers.py:87-339 | Any schedule of calls, deliveries, continuations and crashes keeps the invariant of the database and of all workers in flight (each finds the status its last commit left or a closed interview, and no two have the same business left), and undoes nothing. |
| Runs.ReachableInv | backend/app/interviews/service.py:103-107 | Every reachable world, from the row `create_interview` inserts, satisfies that invariant. |
| Growth.StepGrows | backend/app/interviews/service.py:50-67 | No step removes or alters a row: tables and history grow at their ends, stamps stay, and a completed or failed interview takes no further answer, evaluation or follow-up. |
| LifecycleTheorems.CreatedInterviewIsReachable | backend/app/interviews/service.py:70-107 | What `create_interview` accepts is a valid plan, and its row is where runs start. |
| LifecycleTheorems.BooksBalance | backend/app/interviews/service.py:257-363 | At the cursor answers equal follow-ups while waiting and exceed them by one while an answer is held; before the cursor they exceed them by one; after it there are none; an active interview's cursor names a question. |
| LifecycleTheorems.FollowUpsAreBounded | backend/app/workers.py:206-231 | Follow-ups of a question never exceed its effective budget nor three, differ after normalisation, and have different, evaluated triggers. |
| LifecycleTheorems.DeclaredLimitIsExceededIff | backend/app/workers.py:207 | With a provider that asks for a suitable follow-up, the declared limit is exceeded exactly when follow-ups are allowed and the declared limit is zero. |
| LifecycleTheorems.QuestionsAreSound | backend/app/workers.py:96-132 | In every reachable state the question set is empty or has exactly the indexes 0 to total-1, each valid against all earlier ones. |
| LifecycleTheorems.StoredQuestionsAreProper | backend/app/ai/question_service.py:39-60 | No stored question of any reachable interview has one of the four forbidden phrases or gives its answer away; each has the difficulty, type and language asked for. |
| LifecycleTheorems.AttemptsAreConsecutive | backend/app/interviews/service.py:297-303 | The attempts of a question are exactly 1 to k, each used once, and its current answer is attempt k. |
| LifecycleTheorems.EvaluationCoverage | backend/app/workers.py:159-165 | At most one evaluation per answer; at most one answer without, which is the current question's latest, only while EVALUATING or after a finish or failure. |
| LifecycleTheorems.GuardsAreEnough | backend/app/workers.py:157-165 | In any reachable state, past the guards stands the latest answer of the question at the cursor, although the worker never looks at the cursor, and all earlier answers are evaluated. |
| LifecycleTheorems.EvaluationLeavesAllOrNothing | backend/app/workers.py:178-244 | An evaluation adds one evaluation and exactly the follow-up its status announces, or leaves no trace. |
| Provenance.EverythingHasASource | backend/app/workers.py:87-233 | In every run each answer was submitted by the owner, each evaluation has dimensions the provider returned for its answer, each follow-up the text the provider asked about its answer, and the questions were generated together in one delivery. |
| LifecycleTheorems.ReportAgreesWithEvaluations | backend/app/workers.py:269-334 | There is a report exactly in REPORT_READY, only one, and recomputing the scores from the stored evaluations in any order gives it; it counts all answers or all but one. |
| LifecycleTheorems.ClosedInterviewIsFrozen | backend/app/workers.py:249-334 | From COMPLETED on, whatever comes, nothing a report is computed from changes, nor a written report. |
| LifecycleTheorems.CursorMovesByOne | backend/app/interviews/service.py:353-363 | The cursor starts at the first question and only ever steps to the next index, from a question that is done. |
| LifecycleTheorems.NaturalCompletionIsComplete | backend/app/interviews/service.py:353-356 | When the interview completes by itself the cursor is at the last question, every question was answered in order, and every answer is evaluated. |
| LifecycleTheorems.HistoryFollowsTheGraph | backend/app/interviews/state_machine.py:51-56 | The history of every reachable interview is a path of the status graph from CREATED to the present status. |
| LifecycleTheorems.StampsAreSetOnce | backend/app/interviews/service.py:60-63 | Start and completion times are set on the way in and never change, and say in which statuses the interview can be. |
| Termination.EveryStepPays | backend/app/interviews/state_machine.py:18-38 | Every step of every reachable world lowers a natural-number measure by at least the statuses it passes through, except the one insertion of the questions, which passes through none and changes nothing else. |
| Termination.StatusChangesAreBounded | backend/app/interviews/service.py:339-363 | A run of any length and interleaving makes at most 6 + 3 * sum(1 + budget) status changes, so at most 606. |
| Deliveries.CommittedDeliveryRepeats | backend/app/workers.py:159-165 | A delivery that commits makes every later delivery of the same work one that finds its work done. |
| Deliveries.LateDeliveryVanishes | backend/app/workers.py:152-165 | A delivery anywhere after a committed one of the same work can be deleted from the schedule without changing the run, also while a newer answer is being evaluated. |
| Deliveries.OnlyFirstDeliveriesMatter | backend/app/workers.py:254-268 | Every schedule has the same outcome as the schedule without the deliveries whose work is already done. |
| Deliveries.GenerationIsHarmlessIff | backend/app/workers.py:92-142 | A generation delivery leaves the database alone exactly when the interview is terminal and has questions already or gets none. |
| Deliveries.RedeliveredGenerationFailsTheInterview | backend/app/workers.py:134-142 | A second generation delivery fails an interview under way, whatever the provider returns. |
| Idempotence.RecordedKeyDecides | backend/app/interviews/service.py:261-285 | A recorded key returns its answer for its own payload and is rejected for every other one, malformed and foreign ones included, with the error of the first check that fails; neither changes anything. |
| Idempotence.SubmitIsIdempotent | backend/app/models/idempotency.py:24-26 | After a successful submit and any further run, in any status, the same key and payload return the same answer, every other payload whatever is rejected, and nothing changes. |
| Idempotence.RepeatedSubmitVanishes | backend/app/interviews/service.py:278-285 | A repeated submit anywhere later in a schedule can be deleted without changing the run. |
| Stranding.NextQuestionMovesIff | backend/app/workers.py:233-236 | An interview in NEXT_QUESTION moves exactly when the worker that evaluated goes on, the owner ends it, or generation is delivered. |
| Stranding.CrashBetweenCommitsStrands | backend/app/workers.py:233-235 | In every reachable world, when the worker between its two evaluation commits crashes, the interview stays exactly as it is until someone ends it, whatever is called or redelivered. |
| Stranding.ReportGeneratingMovesIff | backend/app/workers.py:262-334 | An interview in REPORT_GENERATING moves exactly when a worker that has scored writes its report, the owner fails it, or generation is delivered. |
| Stranding.CrashWhileReportingStrands | backend/app/workers.py:258-268 | In every reachable world, when a worker crashes anywhere between `begin_report` and its report, no schedule ever produces a report. |
| Witnesses.OverTheDeclaredLimit | backend/app/workers.py:206-233 | A concrete run reaches an evaluation of a question that allows follow-ups and declares none, and its next step stores one. |
| Witnesses.BetweenTheCommits | backend/app/workers.py:233-236 | The same run reaches a worker between its two evaluation commits, and its crash leaves NEXT_QUESTION without a worker: the states the stranding and redelivery theorems speak of. |
| Witnesses.EndsInAReport | backend/app/workers.py:249-334 | The same run completes by itself, begins its report and ends in REPORT_READY. |
| Stranding.NoEvaluationsNoReport | backend/app/workers.py:272-273 | An interview that closes without an evaluation never gets a report. |
| ScoringProofs.RoundingWindow | backend/app/evaluations/scoring.py:6-9 | Half-up rounding is the one integer within half a unit above and less than half a unit below, in both directions. |
| ScoringProofs.TechnicalOverallError | backend/app/evaluations/scoring.py:12-14 | A technical overall misses its mean by at most a quarter down and a half up, and is 0 to 10. |
| ScoringProofs.CommunicationOverallError | backend/app/evaluations/scoring.py:17-19 | A communication overall misses its mean by at most a third, and is 0 to 10. |
| ScoringProofs.ReportRoundingError | backend/app/evaluations/scoring.py:30-35 | For any nonempty evaluations three layers of rounding stay within (-3, 11/2], (-23/6, 23/6] and (-41/12, 31/6] of the exact means. |
| ScoringProofs.ReportScoresExactly | backend/app/evaluations/scoring.py:22-35 | Each axis is exactly the half-up rounding of ten times the mean of the per-answer overalls, the overall score that of the mean of the axes; no scores exactly for no evaluations. |
| ScoringProofs.TechnicalBoundIsAttained | backend/app/evaluations/scoring.py:30-35 | Four answers attain the upper technical bound, so it cannot be tightened. |
| ScoringProofs.ReportLiesBetweenAnswers | backend/app/evaluations/scoring.py:30-35 | Each axis lies between the least and greatest per-answer score, and the overall between the axes. |
| ScoringProofs.ScoresMeetTheCheckConstraints | backend/app/models/interview.py:204-209 | The stored scores can never violate the CHECK constraints 0 to 10 and 0 to 100. |
| ScoringProofs.ReportIgnoresOrder | backend/app/workers.py:271 | The report does not depend on the order in which the rows are read; the query has no ORDER BY. |
| ScoringProofs.ReportIgnoresReplication | backend/app/evaluations/scoring.py:33-34 | Repeating the whole list of evaluations gives the same report. |
| ScoringProofs.ReportIsMonotone | backend/app/evaluations/scoring.py:30-35 | Raising any dimensions of any evaluations lowers none of the three scores. |
| TextProofs.NormalizeIsSplitLowerJoin | backend/app/ai/question_service.py:33-36 | The normaliser is: split on whitespace, lower-case, join by single spaces. |
| TextProofs.NormalizeIsIdempotent | backend/app/ai/followup_service.py:29-32 | Normalising twice is normalising once. |
| TextProofs.NormalizeIsTidy | backend/app/ai/question_bank.py:15-18 | A normal form has no leading, trailing or doubled space. |
| TextProofs.SameNormalFormIffSameWords | backend/app/ai/question_service.py:54-57 | Two texts are duplicates exactly when they have the same words, letter case apart. |
| TextProofs.LowerForgetsCase | backend/app/ai/question_service.py:36 | Lower-casing forgets the case of letters and nothing else. |
| TextProofs.StripOutcome | backend/app/interviews/service.py:261 | Stripping takes whitespace off both ends, and all of it. |
| Retry.RunWithRetries | backend/app/ai/retry.py:8-20 | The counting loop agrees with the recursive specification and makes between one and max(1, limit) calls. |
| Retry.RetryMeaning | backend/app/ai/exceptions.py:16-28 | The last call made decides, every earlier one failed validation, and any other error ends the loop at once. |
| QuestionBank.Bank.FindOne | backend/app/ai/question_bank.py:25-43 | The filtering loop returns the first eligible entry. |
| QuestionBank.FirstEligibleIsFirst | backend/app/ai/question_bank.py:25-43 | For any bank: the first entry meeting all filters, and none exactly when no entry does. |
| GenerationOutcomes.EligibleIff | backend/app/ai/question_bank.py:29-41 | Exactly which entries are considered: type, difficulty, language, backend role, and not asked before. |
| QuestionGeneration.ValidateQuestion | backend/app/ai/question_service.py:39-60 | The checks in order, with the early-exit loop over the asked questions, raise the specified complaint. |
| QuestionGeneration.AcceptedQuestionIsFresh | backend/app/ai/question_service.py:54-57 | An accepted question has other words than every asked one and fits the request. |
| GenerationOutcomes.AcceptableIff | backend/app/ai/question_service.py:39-60 | Exactly which questions pass validation, phrase by phrase and limit by limit. |
| GenerationOutcomes.ComplaintVerdict | backend/app/ai/question_service.py:39-60 | A question is turned down for the first reason that applies, in the order of the source. |
| QuestionGeneration.GenerateOne | backend/app/ai/question_service.py:75-97 | Retry, validation and fallback as specified, with at most max(1, limit) provider calls. |
| QuestionGeneration.GeneratedQuestionIsAcceptable | backend/app/ai/question_service.py:89-97 | Against any provider a generated question passes validation and comes from a permitted call or from the bank. |
| QuestionGeneration.GenerationFailsIff | backend/app/ai/question_service.py:89-96 | Generation fails exactly when no permitted call yields an acceptable question before another error and the bank's candidate is missing or unacceptable. |
| GenerationOutcomes.GenerationOutcome | backend/app/ai/question_service.py:89-97 | The question is the provider's first acceptable one in time, otherwise the first considered bank entry if it passes validation, otherwise there is none. |
| QuestionGeneration.GenerateQuestions | backend/app/workers.py:96-131 | The worker's loop, with at most total * max(1, limit) provider calls. |
| QuestionGeneration.GeneratedSetIsSound | backend/app/workers.py:96-131 | A generated set has the planned size, each member valid against the earlier ones, all different after normalisation. |
| GenerationOutcomes.SetIsGeneratedInOrder | backend/app/workers.py:100-131 | Each question of a set is generated for the interview's own settings and the texts of all earlier ones. |
| FollowUps.CheckFollowUp | backend/app/ai/followup_service.py:56-70 | The checks on a follow-up in order, with the loop over earlier follow-ups, raise the specified objection. |
| GenerationOutcomes.ObjectionIff | backend/app/ai/followup_service.py:59-70 | Exactly which follow-ups are objected to, phrase by phrase and limit by limit. |
| GenerationOutcomes.ObjectionVerdict | backend/app/ai/followup_service.py:59-69 | A follow-up is objected to for the first reason that applies. |
| FollowUps.Decide | backend/app/ai/followup_service.py:46-73 | The decision as specified; no call once the budget is spent. |
| FollowUps.RequiredFollowUpIsSound | backend/app/ai/followup_service.py:52-73 | Against any provider a required follow-up is within budget, unlike every earlier one, and was returned by a permitted call. |
| FollowUps.SpentBudgetFailsIff | backend/app/ai/followup_service.py:52-53 | With the budget spent the decision fails exactly when the first gap is empty or longer than 256. |
| TokenStore.RefreshTokens.Authenticate | backend/app/auth/service.py:70-80 | A login adds one fresh live token of the user, or changes nothing. |
| TokenStore.RefreshTokens.RotateRefresh | backend/app/auth/service.py:83-100 | Taken as one transaction: the old token is revoked and linked, the new one inserted, or nothing changes. |
| TokenRaces.UninterruptedIsRotate | backend/app/auth/service.py:83-100 | Read and commit as separate steps are that one transaction when nothing comes in between. |
| TokenRaces.RunKeepsRaceOk | backend/app/models/user.py:34-35 | However reads, commits, logins and logouts interleave, tokens and identifiers stay unique. |
| TokenRaces.AcceptedAgainIff | backend/app/auth/service.py:84-89 | A revoked token can be accepted again in some continuation exactly when a session that read it earlier has not committed yet. |
| TokenRaces.AcceptedTwiceIffOverlapping | backend/app/auth/service.py:84-98 | After a rotation of a token commits, another one of it can succeed exactly when another session already held its read. |
| TokenRaces.OverlapSplitsTheChain | backend/app/auth/service.py:93-98 | Two overlapping rotations leave two live tokens of one user; only the second is linked, the first descends from no login. |
| TokenStore.RefreshTokens.RevokeRefresh | backend/app/auth/service.py:103-109 | A logout revokes the presented token and nothing else. |
| TokenOutcomes.LoginOutcome | backend/app/auth/service.py:70-80 | Exactly when a login succeeds and with which error it fails; it adds one row with its expiry. |
| TokenOutcomes.RotateOutcome | backend/app/auth/service.py:83-100 | A rotation succeeds exactly for an active user with a token that is in the table, not revoked and not expired, and new values; exactly that row is revoked and linked, and one row added. |
| TokenOutcomes.RevokeOutcome | backend/app/auth/service.py:103-109 | A logout sets the revocation time of the presented token, also a second time, and touches no other row. |
| TokenOutcomes.ReadOutcome | backend/app/auth/service.py:84-92 | A session comes to hold a row exactly when it reads an unrevoked, unexpired token of an active user. |
| TokenOutcomes.CommitOutcome | backend/app/auth/service.py:93-98 | A commit writes the row it holds whatever it has become, unless a new value is taken. |
| TokenChains.RunKeepsForest | backend/app/models/user.py:33-38 | Any run of logins, rotations and logouts keeps tokens and identifiers unique, and links forward, within one user, one parent each. |
| TokenChains.OnlyTheLastOfAChainIsLive | backend/app/auth/service.py:93-97 | Of two tokens of one login the earlier has been rotated and revoked. |
| TokenChains.OneChainPerLogin | backend/app/auth/service.py:70-100 | After any run there are as many chains as accepted logins. |
| TokenChains.TokenWorksOnce | backend/app/auth/service.py:84-86 | A raw token is accepted for rotation at most once in any run, and never after logout. |
| TokenChains.TokenForest | backend/app/auth/service.py:70-109 | In the table any run builds up, chains are disjoint, acyclic, of one user each, one per login, and only a chain's last token can be live. |
| ApiClient.Client.AwaitRefresh | frontend/src/api/client.js:63-85 | Joins a refresh that is in flight or just settled, and otherwise starts one with the present cookie. |
| ApiClient.Client.Request | frontend/src/api/client.js:88-101 | A new request fetches its path once; restoring the session refreshes at once. |
| ApiClient.Client.HandleResponse | frontend/src/api/client.js:111-123 | A first 401 outside the bypass list leads to a refresh, any other response ends the call. |
| ApiClient.Client.HandleRefreshResponse | frontend/src/api/client.js:67-75 | The cookie changes with the headers and the access token with a readable body; all waiting calls learn the outcome. |
| ApiClient.Client.AfterRefresh | frontend/src/api/client.js:111-117 | One retry after a successful refresh, the unauthorized handler after a failed one. |
| ApiClientProofs.OneRefreshAndOneRetry | frontend/src/api/client.js:63-124 | For any interleaving of any number of requests at most one refresh is in flight, and no request fetches its path more than twice. |
| ApiClientCalls.StepMovesCalls | frontend/src/api/client.js:94-124 | Which steps move a call from where it stands, and to where; all others leave it alone. |
| ApiClientCalls.NewCallStarts | frontend/src/api/client.js:88-106 | A new request makes its first fetch, a restore starts with a refresh. |
| ApiClientCalls.RefusedRequestRefreshes | frontend/src/api/client.js:63-65 | A first 401 outside the bypass list starts a refresh, joins the one under way, or takes the outcome of the last. |
| ApiClientCalls.EndOfRefreshWakes | frontend/src/api/client.js:67-79 | The end of a refresh wakes every waiting call with its outcome, and stores the cookie and the access token it brings. |
| ApiClientCalls.ServedRefreshIsARotation | backend/app/auth/service.py:83-100 | The server's part of a refresh is one rotation of the presented token. |
| ApiClientCalls.AccessTokenMoves | frontend/src/api/client.js:27-42 | After every step: the access token is the one set by hand or read from an answer, nothing after a request whose refresh failed, and else as before. |
| ApiClientCalls.SuccessNeedsAGoodResponse | frontend/src/api/client.js:111-123 | In any run from a fresh page a request succeeds only after a response from 200 to 299 to that request. |
| ApiClientCalls.RefreshedRequestIsFetchedAgain | frontend/src/api/client.js:112-115 | After any run, a request woken by a successful refresh makes its second fetch in its next own step, without a further refresh. |
| ApiClientProofs.NoRotatedTokenIsPresented | frontend/src/api/client.js:63-85 | If no response with a new token is lost, no refresh presents a token that was already rotated, neither when sent nor when read. |
| ApiClientProofs.RotatedTokenIsPresentedIff | frontend/src/api/client.js:63-85 | Over every run from a fresh page: a step that starts a refresh presents the present cookie, and that token is a rotated one exactly when the server has rotated it and it was neither replaced by an answer or a login nor cleared since. |
| ApiClientProofs.StaleTabIsLoggedOut | frontend/src/api/client.js:111-117 | After any run that leaves the cookie in that state, the next refused request has its refresh turned down, fails, and drops the access token; the table does not change. |
| ApiClientProofs.LostResponseLeavesStale | frontend/src/api/client.js:67-78 | From any fresh page whose cookie can be rotated, a refresh whose answer is lost after the rotation leads there. |

## Left out

- Sessions, identity map, migrations, Celery and Redis: only transactions, the row lock, rollback, unique and check constraints and redelivery are modelled. A locked read is taken to see the latest committed row, as docs/interview-state-machine.md:63-64 says.
- Several interviews at once: each transaction touches one interview under its own lock, so the model is of one interview. A question of another interview is a question identifier outside the table; row identifiers are positions in their tables.
- RequestHash.HashDeterminesRequest: SHA-256 is taken to be injective, so a request hash is modelled by the text that is hashed.
- Password hashing, access tokens and random values: the outcome of the password check and the new raw token and identifier are parameters; the unique columns reject a value that is already there.
- TokenStore.RefreshTokens.RotateRefresh, and the theorems of `TokenChains` and `ApiClientProofs`: rotations of one token are taken one at a time, as the client's single flight makes them. What overlapping ones do is in `TokenRaces`.
- The branch that re-reads a winning idempotency row after an integrity error (backend/app/interviews/service.py:307-317): under the row lock it cannot be reached, which is proved as the precondition of `InterviewService.InterviewStore.InsertKey`.
- Floating point: means are exact reals. Sums of integer scores and halves are exact in the source, and a quotient that is not a half is far from one.
- Unicode: lower-casing is ASCII, and whitespace is what `Text.IsSpace` lists.
- Providers: a script of replies, each a raised error or a schema-valid value. Prompts, truncation of long answers, resume text, persona and provider metadata only shape what the provider sees.
- Free-text feedback, confidence, the feedback row, `updated_at`, question source and attempt columns: written and never read by the logic modelled here.
- `InterviewDb.Create` leaves out the parsing of enumerated fields and the resume lookup.
- The contents of the default question bank: every theorem holds for any bank. The request count, which the worker always sets to 1, is not a parameter.
- `pause_interview`, `resume_interview`, transcript, evaluation list and current-question projections, routers, WebSocket, speech, storage and resume parsing: transport, calls to foreign services, or plain reads.
- The client model is of one tab with its own cookie; other browsers rotate only tokens that were not sent to this one. Settled promises wake their waiters in any order. A refresh that fails on the network is gone from it: it does not reach the server later. A caller's own `retry: false` is left out.
- Liveness: a worker that is never redelivered or a provider that always fails stops an interview; only safety, bounded runs and the exact ways out of the stranding statuses are stated.
