# Fallout Survival Academy: a Dafny model of the quiz game's core

Fallout Survival Academy is a browser quiz about radioactivity. The front end is written in React and the back end runs on Supabase. A player signs in, opens a level and answers tasks: multiple choice plus a free-text reasoning. Each answer adds knowledge points and a radiation dose to the player's stats. The reasoning is judged by an AI model, or by a local rule-based scorer when no model answers. An admin area edits levels, tasks and answer options, and lists the students' attempts with filters and a CSV export. A serverless function, `evaluate-reasoning`, judges reasoning on the server side.

The model covers these parts:

- **LevelPage** (`level_page.dfy`):
  - the answer-submission handler, with its checks in order, the scoring of the chosen option, the stats update, the attempt insert and the feedback card;
  - the next-task handler.
- **LevelFeedback** (`level_feedback.dfy`):
  - extracting the verdict text from the model's reply;
  - the local reasoning scorer, including its category loop, its bonuses, the clamp and its three feedback tiers;
  - the choice between the model's verdict and the local one;
  - the quality label.
- **Auth** (`auth.dfy`):
  - the auth context, with the `Partial<User>` merge of `updateUser`;
  - the demo accounts and the sign-in and sign-up decision chains;
  - sign-out.
- **Game** (`game_context.dfy`):
  - the game context, with the demo fallback content and the loaders with their error fallbacks;
  - the `user_level_progress` table as a map keyed by (user, level), with its upsert and its update.
- **AdminContent** (`admin_content.dfy`):
  - the level editor, task editor and level list of the admin page;
  - their save checks;
  - append, replace and delete by id;
  - the stable sort by `ordering`.
- **AdminAttempts** (`admin_attempts.dfy`):
  - the correctness and AI-quality filters;
  - the quality labels;
  - the CSV export with its quote doubling.
- **EvaluateReasoning** (`evaluate_reasoning.dfy`), the server function:
  - the request flow, with the preflight, the validation, the missing-key fallback, the model call and the error fallback;
  - the score regex as a leftmost-match function;
  - the rule-based fallback;
  - the suggestion list.
- **Register** (`register.dfy`): the redirect, the ordered checks of `handleSubmit` and the submit-enabled condition.
- **RouteGuard** (`route_guard.dfy`):
  - the protected-route decision;
  - the login page's redirect, which uses the same role ranking.
- **Health** (`health.dfy`): the dose thresholds of the health status, the navigation icon and the warning banner.
- Shared modules:
  - **Wrappers**: `Option`;
  - **Text**: the JavaScript `trim` and `\s` whitespace set, `startsWith`, `indexOf`/`includes`, ASCII lower case and decimal integer text;
  - **Schema**: the records.

State that the source changes through React setters is modelled as Dafny classes:
- the auth and game contexts, the level page, the editors and the level list each become a class with fields;
- each handler becomes a method whose `ensures` gives the new state as a function of the old one.

Network and database calls become parameters that stand for what came back. These include:
- the local model reply and the JSON parser;
- the OpenAI chat call;
- each Supabase query result (`Fetch<T>` or an outcome datatype);
- whether a write succeeded.

Clock values (`Date.now()`, `new Date().toISOString()`) and the confirm dialog are parameters too. So is the locale formatting of dates and numbers.

Three behaviours of the code are easy to miss; the model follows the code:
- The attempt insert writes `is_correct`, `ai_feedback`, `ai_suggestions` and `ai_score` as the client writes them, whatever the table's declared columns.
- `loadTasks` sets the current task from the task list as it was before the load (a stale closure). The model does the same.
- Completing a level that was never started updates no row; the code does not create one.

## Model

| member | source | states |
|---|---|---|
| Text.Trim | src/pages/LevelPage.tsx:358 | the `trim` result is the text after its leading whitespace with only whitespace cut off at the end; it is empty exactly when the text is all JavaScript whitespace, and otherwise starts and ends with a non-space |
| Text.TrimIsSlice | src/pages/LevelPage.tsx:358 | the `trim` result is a contiguous slice of the text, with only whitespace cut off before and after it |
| Text.StartsWith | src/contexts/GameContext.tsx:37 | `startsWith` holds exactly when the prefix equals the first characters |
| Text.IndexOf | supabase/functions/evaluate-reasoning/index.ts:210 | `indexOf` result is the least index at or after `from` where the pattern occurs; none means no occurrence |
| Text.DigitsValueOfNatToString | supabase/functions/evaluate-reasoning/index.ts:121 | `parseInt` of the decimal text of n gives back n |
| Text.JoinAppend | src/pages/AdminPage.tsx:818 | `join` of a non-empty list with one more part is the old join, the separator, then that part |
| Schema.FindById | src/pages/LevelPage.tsx:369 | `find` by id (the option lookup here and the demo level lookup at src/contexts/GameContext.tsx:275) returns the first item with that id, and none exactly when no item has it |
| LevelFeedback.GenerateAIFeedback | src/pages/LevelPage.tsx:139-160 | the call throws exactly when the request failed or there is no response text; otherwise the verdict is the parser's reading of the extracted text |
| LevelFeedback.ExtractPlainReply | src/pages/LevelPage.tsx:144-146 | `ExtractVerdictText` of a reply with no think block and no json fence is the reply trimmed |
| LevelFeedback.StripLeadingThink | src/pages/LevelPage.tsx:144 | `StripThink` removes a think block at the head together with its tags and keeps the rest, for any thoughts that do not themselves contain the closing tag |
| LevelFeedback.FencedBodyAtHead | src/pages/LevelPage.tsx:145-146 | `FencedBody` of a json fence yields exactly its body, for any body that holds no closing fence and does not end in a backtick (the lazy match would stop earlier otherwise) |
| LevelFeedback.ExtractFencedReply | src/pages/LevelPage.tsx:144-146 | `ExtractVerdictText` of a think block (thoughts without the closing tag), whitespace, then a json fence gives the parser exactly the fenced JSON, for any fence body that holds no closing fence and does not end in a backtick |
| LevelFeedback.HeadedByFence | src/pages/LevelPage.tsx:144-146 | after trimming leading whitespace, the fence body is still found, under the same condition on the body |
| LevelFeedback.UsedCategoriesBound | src/pages/LevelPage.tsx:183-194 | `usedCategories` never exceeds the number of categories and is 0 exactly when no category has a hit |
| LevelFeedback.CountTerms | src/pages/LevelPage.tsx:183-194 | the category loop's `termScore` and `usedCategories` equal the weighted sum and the count of categories with a hit |
| LevelFeedback.QualityScore | src/pages/LevelPage.tsx:208-238 | the local score always lies in 1..10 |
| LevelFeedback.ScoreReasoning | src/pages/LevelPage.tsx:170-238 | the chain of `+=` bonuses and the clamp compute the reference score, term score and category count |
| LevelFeedback.CorrectAnswerScoresAtLeastFive | src/pages/LevelPage.tsx:209-238 | a correct answer always scores at least 5, so it never falls in the low tier |
| LevelFeedback.CorrectnessRaisesScore | src/pages/LevelPage.tsx:233-238 | for the same reasoning the correct answer's `RawQualityScore` is 3 above the wrong one's, and its clamped score is never lower |
| LevelFeedback.Take | src/pages/LevelPage.tsx:272 | `slice(0, n)` is the prefix of length n, or the whole list when it has at most n items |
| LevelFeedback.TierFeedback | src/pages/LevelPage.tsx:240-273 | the tier's verdict keeps the score and has at most three hints |
| LevelFeedback.LocalFeedback | src/pages/LevelPage.tsx:165-274 | the local verdict has a score in 1..10 and at most three hints |
| LevelFeedback.LowTierHints | src/pages/LevelPage.tsx:244-272 | a score up to 3 gets the first three general hints |
| LevelFeedback.MediumTierDropsUnitHint | src/pages/LevelPage.tsx:252-272 | the medium tier shows exactly its first three hints; the numbers-and-units hint is always cut |
| LevelFeedback.HighTierHints | src/pages/LevelPage.tsx:260-272 | the high tier shows three hints, and the first says whether the answer itself was right |
| LevelFeedback.LocalDemoFeedback | src/pages/LevelPage.tsx:165-274 | the imperative scorer returns the reference local verdict |
| LevelFeedback.EvaluateReasoningWithAI | src/pages/LevelPage.tsx:80-98 | the model's verdict is used when it returned one; on an exception or a null verdict the local verdict is used |
| LevelFeedback.FailedRequestFallsBack | src/pages/LevelPage.tsx:87-98 | a failed request or a missing response never yields a model verdict |
| LevelFeedback.QualityText | src/pages/LevelPage.tsx:474-480 | each label holds for exactly its band: 9 and up, 8, 6-7, 4-5, below 4 |
| LevelPage.ScoreAnswer | src/pages/LevelPage.tsx:369-372 | the first option with the answer's id gives correctness, points and dose; without one the score is false, 0, 0 |
| LevelPage.RadiationSuitScores | src/pages/LevelPage.tsx:369-372 | in the demo shopping task the radiation suit is correct, worth 8 points and adds no dose; free text scores nothing |
| LevelPage.CheckSubmission | src/pages/LevelPage.tsx:343-361 | the first missing item wins (level, user, answer, reasoning of at least 10 trimmed characters); none holds when all are present |
| LevelPage.ButtonMatchesChecks | src/pages/LevelPage.tsx:714-720 | for a signed-in player the button is enabled exactly when idle and the answer and reasoning checks pass |
| LevelPage.AppliedByPatch | src/pages/LevelPage.tsx:383-388 | the stats patch applied to the current user gives the user with both counters raised by the score |
| LevelPage.AppliedAddsDeltas | src/pages/LevelPage.tsx:383-388 | `Applied` changes knowledge points and dose by the score and no other field |
| LevelPage.StatsAccumulate | src/pages/LevelPage.tsx:383-388 | after a series of submissions the counters are the start values plus the sums of all deltas |
| LevelPage.AttemptRecordsAppliedScore | src/pages/LevelPage.tsx:390-410 | the `AttemptFor` row carries the correctness, points and dose that were applied; with no option matched, option_id is null and the raw answer is stored |
| LevelPage.StoredSubmissionKeepsLedger | src/pages/LevelPage.tsx:383-410 | when the insert succeeds, the stored rows still add up to the stats' change since the start |
| LevelPage.FailedInsertBreaksLedger | src/pages/LevelPage.tsx:383-414 | from any stats the stored rows explain, a failed insert after a submission with non-zero points or dose leaves stats that the rows no longer explain |
| LevelPage.Lookup | src/pages/LevelPage.tsx:339-340 | the entry is present exactly when the task id is a key, and it is that key's value |
| LevelPage.PendingSubmission | src/pages/LevelPage.tsx:336-361 | no current task ends silently; a failed check is refused with that check's error; otherwise it goes on with that task's user, level, answer and reasoning |
| LevelPage.AttemptLog.Record | src/pages/LevelPage.tsx:390-414 | the row is appended exactly when the insert succeeds |
| LevelPage.LevelPage.HandleAnswerSubmit | src/pages/LevelPage.tsx:335-433 | a refused submission changes no stats, no attempt and no feedback. An accepted one applies the score to the user and appends the attempt when the write succeeds. It shows the feedback unless the insert threw, and clears both busy flags |
| LevelPage.LevelPage.Accept | src/pages/LevelPage.tsx:363-425 | the accepted path scores the option, chooses the verdict, updates the stats, records the attempt and shows the feedback |
| LevelPage.LevelPage.Evaluate | src/pages/LevelPage.tsx:369-380 | the score is that of the selected option and the verdict is `ChosenVerdict`: the model's when it returned one, otherwise the local one for that correctness |
| LevelPage.LevelPage.Apply | src/pages/LevelPage.tsx:383-425 | the stats update comes first and stays even when the insert fails; the feedback shows the same values |
| LevelPage.LevelPage.ShowFeedback | src/pages/LevelPage.tsx:412-425 | the evaluating flag drops, and the card is set unless the insert threw |
| LevelPage.LevelPage.HandleNextTask | src/pages/LevelPage.tsx:435-457 | the card is cleared. Before the last task the index moves on, that task's options are loaded (or its fallback), and the stored rows and progress stay. At the last task nothing changes for a missing route, user or a demo user; for a real user the completion is stored when the write succeeds and the progress is reread. The level, tasks, current task, loading flag, answers and busy flags are unchanged |
| Auth.Merge | src/contexts/AuthContext.tsx:64-66 | each supplied field of the patch overwrites, and every other field keeps its value |
| Auth.MergeIdempotent | src/contexts/AuthContext.tsx:64-66 | applying a patch twice equals applying it once, and the empty patch changes nothing |
| Auth.MergeThen | src/contexts/AuthContext.tsx:64-66 | two successive updates are one update in which the later fields win |
| Auth.StatsPatchTouchesOnlyCounters | src/pages/LevelPage.tsx:383-388 | the level page's patch changes only knowledge points and dose |
| Auth.UpdatedUser | src/contexts/AuthContext.tsx:64-66 | no user stays no user; a user is merged with the patch |
| Auth.DemoAccount | src/contexts/AuthContext.tsx:70-131 | exactly admin and student1, each with the demo password, are demo accounts; only admin has the admin role; both are stamped with the sign-in time |
| Auth.DemoAccountsSignIn | src/contexts/AuthContext.tsx:70-131 | `SignInError` accepts both demo accounts without any lookup. Admin starts with 0 points and 0 mSv, student1 with 15 points and 0.5 mSv |
| Auth.LookedUpEmail | src/contexts/AuthContext.tsx:134-141 | an email is found exactly when the lookup returned rows and the first row has a non-empty email |
| Auth.UnknownUsernameRejected | src/contexts/AuthContext.tsx:133-141 | without an email found, `SignInError` is 'Invalid username or password', and the password sign-in plays no part |
| Auth.KnownUsernameDelegates | src/contexts/AuthContext.tsx:143-152 | with an email found, `SignInError` is none exactly when the password sign-in succeeds, and its message is passed on |
| Auth.SignUp | src/contexts/AuthContext.tsx:158-203 | no error exactly when the username is free and the account was created (and its profile stored, if a user came back); the inserted row is a fresh student |
| Auth.TakenUsernameCreatesNothing | src/contexts/AuthContext.tsx:158-169 | a taken username is reported, and no profile is inserted |
| Auth.NewProfileDefaults | src/contexts/AuthContext.tsx:180-199 | every inserted profile is a student's, with 0 points and 0.0 mSv, for the account just created |
| Auth.AuthContext.constructor | src/contexts/AuthContext.tsx:18-20 | the context starts with no user and no session, and loading |
| Auth.AuthContext.UpdateUser | src/contexts/AuthContext.tsx:64-66 | the user becomes the merged user; session and loading are unchanged |
| Auth.AuthContext.SignIn | src/contexts/AuthContext.tsx:68-156 | the error is the decision chain's; a demo account sets user and demo session; any other sign-in leaves them as they were |
| Auth.AuthContext.SignOut | src/contexts/AuthContext.tsx:205-212 | user and session are cleared |
| Game.IsDemoUser | src/contexts/GameContext.tsx:36-38 | a user is a demo user exactly when the id starts with "demo-" |
| Game.DemoAccountsAreDemoUsers | src/contexts/GameContext.tsx:36-38 | both demo sign-in accounts are demo users, so their progress is never written |
| Game.LevelFallback | src/contexts/GameContext.tsx:272-276 | after a load error, `LevelOnError` gives a level for exactly the three demo ids, and it has that id |
| Game.DemoContentConsistent | src/contexts/GameContext.tsx:73-244 | every task of `TasksOnError` belongs to its level and every option of `OptionsOnError` to its task |
| Game.DemoTasksAnswerable | src/contexts/GameContext.tsx:117-244 | each demo task has a correct option worth at least 5 points that adds no dose |
| Game.Upserted | src/contexts/GameContext.tsx:360-368 | the upsert adds or rewrites the (user, level) row as not completed and leaves every other key as it was |
| Game.Completed | src/contexts/GameContext.tsx:385-393 | the update marks an existing row completed with that time; it creates no row and leaves other keys alone |
| Game.WritesKeepKeys | src/contexts/GameContext.tsx:360-393 | both writes keep every row under its own (user, level) key |
| Game.CompleteWithoutRecord | src/contexts/GameContext.tsx:385-393 | completing a level never started changes nothing |
| Game.CompleteTwice | src/contexts/GameContext.tsx:385-393 | completing twice equals completing once at the later time |
| Game.RestartAfterComplete | src/contexts/GameContext.tsx:350-393 | starting a completed level again makes it not completed and keeps its start time and old completion time |
| Game.StartThenComplete | src/contexts/GameContext.tsx:350-393 | a start followed by a completion leaves a completed row with that time |
| Game.OtherUsersUntouched | src/contexts/GameContext.tsx:360-393 | writing one user's progress leaves every other user's rows as they were |
| Game.SubmitAnswer | src/contexts/GameContext.tsx:320-326 | it succeeds exactly when a user is signed in, with the demo message |
| Game.GameContext.constructor | src/contexts/GameContext.tsx:27-33 | the context starts with no levels, level, tasks, task, options or progress, and not loading |
| Game.GameContext.LoadLevels | src/contexts/GameContext.tsx:246-262 | the fetched levels, or the demo levels on an error; loading ends false |
| Game.GameContext.LoadLevel | src/contexts/GameContext.tsx:264-280 | the fetched level, or the demo level with that id (or none) on an error |
| Game.GameContext.LoadTasks | src/contexts/GameContext.tsx:282-301 | the fetched tasks, or the level's demo tasks on an error; the current task is taken from the task list as it was before the load |
| Game.GameContext.LoadOptions | src/contexts/GameContext.tsx:303-318 | the fetched options, or the task's demo options on an error |
| Game.GameContext.GetUserProgress | src/contexts/GameContext.tsx:328-348 | no user changes nothing; a demo user gets no progress; otherwise the user's rows, or none when the read fails |
| Game.GameContext.StartLevel | src/contexts/GameContext.tsx:350-373 | for a real user the upsert is applied when the write succeeds and the progress is reread; demo or missing users change nothing |
| Game.GameContext.CompleteLevel | src/contexts/GameContext.tsx:375-398 | for a real user the completion update is applied when the write succeeds and the progress is reread; demo or missing users change nothing |
| EvaluateReasoning.DigitRun | supabase/functions/evaluate-reasoning/index.ts:120 | the run of `\d` characters at a position is all digits and cannot be extended |
| EvaluateReasoning.SpaceRun | supabase/functions/evaluate-reasoning/index.ts:120 | the run of `\s` characters at a position is all whitespace and cannot be extended |
| EvaluateReasoning.MatchAt | supabase/functions/evaluate-reasoning/index.ts:120 | a match of one of the three alternatives at a position always has a digit after it |
| EvaluateReasoning.ScoreMatch | supabase/functions/evaluate-reasoning/index.ts:120 | `match` finds nothing exactly when no position matches; otherwise the result is the leftmost match |
| EvaluateReasoning.ExtractQualityScore | supabase/functions/evaluate-reasoning/index.ts:120-121 | the captured number of the leftmost match, not clamped, and 5 when nothing matches |
| EvaluateReasoning.MatchAtStart | supabase/functions/evaluate-reasoning/index.ts:120-121 | a match at the very start is the one read |
| EvaluateReasoning.SlashScoreRoundTrip | supabase/functions/evaluate-reasoning/index.ts:120-121 | "N/10" at the start is read back as N, whatever follows |
| EvaluateReasoning.VonScoreRoundTrip | supabase/functions/evaluate-reasoning/index.ts:120-121 | "N von 10" at the start is read back as N, with the " von 10" written in any letter case |
| EvaluateReasoning.BewertungScoreRoundTrip | supabase/functions/evaluate-reasoning/index.ts:120-121 | "Bewertung: N" at the start is read back as N when no further digit follows |
| EvaluateReasoning.NoDigitsDefaultScore | supabase/functions/evaluate-reasoning/index.ts:120-121 | a text without any ASCII digit gets the default score 5 |
| EvaluateReasoning.FallbackScore | supabase/functions/evaluate-reasoning/index.ts:161-198 | short reasoning scores 3, correct reasoning 7 or 8, wrong reasoning 3 or 4; always 3..8 |
| EvaluateReasoning.GenerateFallbackFeedback | supabase/functions/evaluate-reasoning/index.ts:154-205 | the result satisfies `IsFallbackFor`: it is one of the fallback evaluations allowed for that reasoning and correctness |
| EvaluateReasoning.FallbackOnlyTextVaries | supabase/functions/evaluate-reasoning/index.ts:169-191 | two fallback evaluations of the same input differ only in the randomly chosen text, and short input has no choice at all |
| EvaluateReasoning.FallbackScoreMonotone | supabase/functions/evaluate-reasoning/index.ts:161-198 | longer reasoning never scores lower, and correct never scores below wrong |
| EvaluateReasoning.FallbackSuggestionCounts | supabase/functions/evaluate-reasoning/index.ts:161-198 | four hints for substantial wrong reasoning, three otherwise |
| EvaluateReasoning.ErrorFallbackIsShort | supabase/functions/evaluate-reasoning/index.ts:139-151 | the error path's fallback is the short-reasoning evaluation with score 3 |
| EvaluateReasoning.GenerateSuggestions | supabase/functions/evaluate-reasoning/index.ts:207-234 | the pushes compute the reference list `Suggestions`, which has between one and three entries |
| EvaluateReasoning.SuggestionsBounded | supabase/functions/evaluate-reasoning/index.ts:227-233 | the suggestion list always has between one and three entries |
| EvaluateReasoning.IncorrectAlwaysReviews | supabase/functions/evaluate-reasoning/index.ts:218-221 | a wrong answer always gets the review-the-basics hint within the first three |
| EvaluateReasoning.QuietTextGetsDefaults | supabase/functions/evaluate-reasoning/index.ts:207-231 | feedback with none of the key words, for long correct reasoning, gets exactly the two default hints |
| EvaluateReasoning.ModelText | supabase/functions/evaluate-reasoning/index.ts:116-117 | the model's content when it is a non-empty string, otherwise the could-not-generate text |
| EvaluateReasoning.Serve | supabase/functions/evaluate-reasoning/index.ts:23-152 | preflight answers "ok", and a body with a missing field is a 400. Without a key the rule-based fallback is returned with 200. With a key the model is called exactly when the body is complete. An unreadable body or a failed call is a 500 with the short fallback. A successful call returns the model's text, the score read from it and the suggestions derived from it |
| AdminContent.Without | src/pages/AdminPage.tsx:308-313 | the filter keeps exactly the items whose id differs |
| AdminContent.WithoutKeepsOrder | src/pages/AdminPage.tsx:308-313 | filtering distributes over concatenation, so the kept items keep their order |
| AdminContent.WithoutAbsent | src/pages/AdminPage.tsx:308-313 | deleting an id that is not there changes nothing |
| AdminContent.Substitute | src/pages/AdminPage.tsx:299-306 | the map replaces exactly the items with that id and keeps the length |
| AdminContent.LevelSaveError | src/pages/AdminPage.tsx:53-59 | saving is refused with the title message exactly when the title is blank after trimming |
| AdminContent.TaskSaveError | src/pages/AdminPage.tsx:271-281 | a blank prompt is refused first; then a multiple-choice task without options; otherwise the save goes through |
| AdminContent.OrderingOrOne | src/pages/AdminPage.tsx:265 | the ordering default keeps a non-zero ordering and turns 0 into a non-zero one |
| AdminContent.MergeOption | src/pages/AdminPage.tsx:303 | the supplied fields overwrite, while id, ordering and the rest are kept |
| AdminContent.NewOption | src/pages/AdminPage.tsx:283-292 | a new option is empty, worth nothing, not correct, has an `option-` id and comes last in the ordering |
| AdminContent.TaskEditor.constructor | src/pages/AdminPage.tsx:261-269 | the form is the task, with its ordering defaulted to 1 |
| AdminContent.TaskEditor.HandleSave | src/pages/AdminPage.tsx:271-281 | the form is passed on exactly when there is no save error |
| AdminContent.TaskEditor.HandleAddOption | src/pages/AdminPage.tsx:283-297 | one new option is appended and nothing else changes |
| AdminContent.TaskEditor.HandleUpdateOption | src/pages/AdminPage.tsx:299-306 | the option with that id is merged with the updates, and the other options are kept |
| AdminContent.TaskEditor.HandleDeleteOption | src/pages/AdminPage.tsx:308-313 | the options with that id are removed |
| AdminContent.UpdateOptionTouchesOnlyItsId | src/pages/AdminPage.tsx:299-306 | an update changes only the option with its id, and that option keeps its id |
| AdminContent.NewTask | src/pages/AdminPage.tsx:61-70 | a new task is an active, empty multiple-choice task with a `task-` id, last in the ordering |
| AdminContent.SaveNewTaskAppends | src/pages/AdminPage.tsx:79-84 | `SavedTasks` appends an unsaved new task |
| AdminContent.SaveExistingTaskReplaces | src/pages/AdminPage.tsx:79-84 | `SavedTasks` replaces an existing task in place and keeps the others |
| AdminContent.LevelEditor.constructor | src/pages/AdminPage.tsx:42-51 | the form is the level's fields with defaults (empty, ordering 1, active), and no task is open |
| AdminContent.LevelEditor.HandleSave | src/pages/AdminPage.tsx:53-59 | the form is passed on exactly when the title is not blank |
| AdminContent.LevelEditor.HandleAddTask | src/pages/AdminPage.tsx:61-72 | a new task is opened in the task editor; the form is unchanged |
| AdminContent.LevelEditor.HandleEditTask | src/pages/AdminPage.tsx:74-77 | the given task is opened in the task editor |
| AdminContent.LevelEditor.HandleSaveTask | src/pages/AdminPage.tsx:79-87 | the tasks become the saved list, and the task editor closes |
| AdminContent.LevelEditor.HandleDeleteTask | src/pages/AdminPage.tsx:89-96 | after confirmation the tasks with that id are removed; otherwise nothing changes |
| AdminContent.InsertStable | src/pages/AdminPage.tsx:586 | inserting keeps every entry and adds the new one |
| AdminContent.InsertStableSorted | src/pages/AdminPage.tsx:586 | inserting into a list sorted by ordering keeps it sorted |
| AdminContent.SortByOrdering | src/pages/AdminPage.tsx:586 | the sort is a permutation of its input and is sorted by ordering |
| AdminContent.InsertStableKeepsTies | src/pages/AdminPage.tsx:586 | inserting into any list keeps the entries of each ordering value in their order and puts the new entry after its equals |
| AdminContent.SortIsStable | src/pages/AdminPage.tsx:586 | for any input, sorted or not, the entries of each ordering value come out in the order they went in (`sort` is stable) |
| AdminContent.SortKeepsSorted | src/pages/AdminPage.tsx:586 | sorting an already sorted list changes nothing |
| AdminContent.InsertStableAt | src/pages/AdminPage.tsx:586 | the new entry goes in at its insert position, and the other entries keep their order |
| AdminContent.InsertPositionSplits | src/pages/AdminPage.tsx:586 | in a sorted list, the entries before that position have an ordering up to the new one's, and those after have a greater one |
| AdminContent.CreateInsertsInPlace | src/pages/AdminPage.tsx:579-586 | appending and sorting is a stable insert: equal orderings keep the new level after the old ones |
| AdminContent.AdminLevels.HandleCreateLevel | src/pages/AdminPage.tsx:579-589 | the list gains exactly the new level (`CreatedEntry`) and is sorted by ordering |
| AdminContent.AdminLevels.constructor | src/pages/AdminPage.tsx:571-577 | the list starts as the given levels, which stand for the list `loadLevels` sets |
| AdminContent.AdminLevels.HandleUpdateLevel | src/pages/AdminPage.tsx:591-597 | the level with that id is replaced by the form's data |
| AdminContent.AdminLevels.HandleDeleteLevel | src/pages/AdminPage.tsx:599-603 | after confirmation the level with that id is removed; otherwise nothing changes |
| AdminContent.UpdateReplacesInPlace | src/pages/AdminPage.tsx:591-594 | an update with `UpdatedEntry` keeps the list length and the other levels, keeps the id, takes the form's title and task count, and drops the topic |
| AdminAttempts.KeepMeansBothFilters | src/pages/AdminPage.tsx:764-775 | `Keep` holds exactly for the attempts of the chosen correctness in the chosen band, once a missing score reads as 0 |
| AdminAttempts.FilteredAttempts | src/pages/AdminPage.tsx:764-775 | every attempt in the result passes both filters, and the result is never longer than the input |
| AdminAttempts.FilterMembers | src/pages/AdminPage.tsx:764-775 | an attempt is in the result exactly when it is in the input and passes both filters |
| AdminAttempts.FilterKeepsOrder | src/pages/AdminPage.tsx:764-775 | filtering distributes over concatenation, so the kept attempts keep their order |
| AdminAttempts.NoFilterShowsAll | src/pages/AdminPage.tsx:764-775 | with both filters on all, every attempt is shown, in order |
| AdminAttempts.FilterIdempotent | src/pages/AdminPage.tsx:764-775 | filtering twice equals filtering once |
| AdminAttempts.QualityBandsPartition | src/pages/AdminPage.tsx:770-772 | the high, medium and low bands together count every attempt exactly once |
| AdminAttempts.CorrectnessPartition | src/pages/AdminPage.tsx:766-767 | the correct and the incorrect attempts together count every attempt exactly once |
| AdminAttempts.QualityLabelMonotone | src/pages/AdminPage.tsx:794-799 | a higher score never gets a worse label |
| AdminAttempts.LabelsAgainstBands | src/pages/AdminPage.tsx:794-799 | `QualityLabel`: Exzellent lies in the high band and Befriedigend in the medium band; Verbesserungsbedarf is exactly the low band; Gut straddles medium and high |
| AdminAttempts.DoubleQuotes | src/pages/AdminPage.tsx:808 | every double quote becomes two, so the text grows by its number of quotes |
| AdminAttempts.CollapseIffDoubled | src/pages/AdminPage.tsx:808-814 | reading a field's content back gives u exactly when the content is u with its quotes doubled |
| AdminAttempts.Quoted | src/pages/AdminPage.tsx:808-814 | a quoted field with its quotes doubled reads back as the original text |
| AdminAttempts.UndoubledQuoteBreaksField | src/pages/AdminPage.tsx:816 | a quoted field whose inner quotes were not doubled reads back differently as soon as it holds a quote |
| AdminAttempts.ScoreText | src/pages/AdminPage.tsx:815 | the score column is N/A exactly when the score is missing or 0 |
| AdminAttempts.YesNo | src/pages/AdminPage.tsx:811 | the correctness column is Ja exactly for a correct attempt and Nein exactly for a wrong one |
| AdminAttempts.RowFields | src/pages/AdminPage.tsx:804-817 | each row has 12 fields like the header, each stated: the date text, then username and level title written unquoted; the four text fields are quoted and read back as the originals; correctness is Ja or Nein; points and dose text; the score or N/A; the suggestions joined with '; ' inside quotes |
| AdminAttempts.SuggestionQuoteBreaksField | src/pages/AdminPage.tsx:816 | the suggestions field does not read back as the joined suggestions once one holds a double quote |
| AdminAttempts.CsvLines | src/pages/AdminPage.tsx:802-818 | the header line, then the line of attempt i at position i + 1 for every attempt, so one line per attempt in order |
| AdminAttempts.CsvLinesAppend | src/pages/AdminPage.tsx:802-818 | one more attempt adds exactly its line at the end |
| AdminAttempts.ExportAppendsRow | src/pages/AdminPage.tsx:802-818 | `ExportAttempts` of one more attempt is the old export, a newline and that attempt's line |
| AdminAttempts.EmptyExportIsHeader | src/pages/AdminPage.tsx:802-818 | with no attempts `ExportAttempts` is the header line alone |
| Register.RedirectFor | src/pages/RegisterPage.tsx:15-17 | a signed-in admin goes to /admin and any other user to /game; without a user the form is shown |
| Register.ValidateAccepts | src/pages/RegisterPage.tsx:19-32 | `Validate` passes exactly for non-blank fields and matching passwords of at least 6 characters |
| Register.MismatchBeforeLength | src/pages/RegisterPage.tsx:24-32 | a mismatch is reported before the length is looked at |
| Register.EnabledMeansFirstChecksPass | src/pages/RegisterPage.tsx:135 | `SubmitEnabled` holds exactly when not loading and the blank and mismatch checks pass; length plays no part |
| Register.EnabledButTooShort | src/pages/RegisterPage.tsx:135 | for the form ("anna", "a@b.de", "abc", "abc") `SubmitEnabled` holds while `Validate` gives `TooShort` |
| Register.SubmitEffect | src/pages/RegisterPage.tsx:19-43 | signUp is called exactly when all checks pass. A blank field shows nothing; each other failure shows its own message. After the call, the error is shown if there is one, otherwise the success message |
| Register.FailedCheckIgnoresSignUp | src/pages/RegisterPage.tsx:22-35 | a failed check neither calls signUp nor depends on its answer |
| Register.RegisterPage.HandleSubmit | src/pages/RegisterPage.tsx:19-43 | the page state follows the submission effect; loading is set around the call and cleared afterwards |
| RouteGuard.RoleIndex | db/database.types.ts:467 | `roles.indexOf` of a role is its position in STUDENT, TEACHER, ADMIN |
| RouteGuard.Rank | src/components/ProtectedRoute.tsx:28 | the rank is at most 2, and a missing profile or level ranks as STUDENT (0) |
| RouteGuard.LoadingShowsSpinner | src/components/ProtectedRoute.tsx:16-22 | while loading, the spinner is shown whatever the user state is |
| RouteGuard.RendersIff | src/components/ProtectedRoute.tsx:16-32 | `Guard` renders the children exactly when the user is loaded, has profile and stats, and has a rank that reaches the required level |
| RouteGuard.DefaultLevelAdmitsEveryProfile | src/components/ProtectedRoute.tsx:11-13 | at the default level 0 every user with profile and stats is admitted |
| RouteGuard.LowerLevelStillAdmits | src/components/ProtectedRoute.tsx:28-30 | lowering the required level never locks out an admitted user |
| RouteGuard.AdminRouteRoles | src/components/ProtectedRoute.tsx:28-30 | level 1 admits exactly teachers and admins and sends everyone else home |
| RouteGuard.LoginAdminAgreesWithGuard | src/pages/LoginPage.tsx:14-16 | `LoginEntry` sends a user to /admin exactly when the admin route's `Guard` would let them in |
| Health.HealthBands | src/pages/GamePage.tsx:24-28 | `HealthFor` is critical exactly above 5 mSv, sick exactly above 2 up to 5, healthy exactly up to 2 |
| Health.HealthIgnoresKnowledge | src/pages/GamePage.tsx:24-30 | two users with the same dose get the same status, whatever their points |
| Health.HealthMonotone | src/pages/GamePage.tsx:24-28 | a higher dose never looks healthier |
| Health.NavigationAgrees | src/components/Navigation.tsx:12-16 | `NavigationIcon` is the game page's status icon for the same dose |
| Health.BannerMatchesStatus | src/pages/GamePage.tsx:145-160 | `BannerFor` shows a banner exactly for a user who is not healthy, and uses the critical wording exactly when the status is critical |

## Left out

- Network, database and model calls are not executed. Their outcomes are parameters: the model reply, the JSON parse, the OpenAI call, each Supabase result and the attempt write. Console logging is dropped.
- LevelFeedback.GenerateAIFeedback: `JSON.parse` and the reading of `parsed.score` and `parsed.verbesserungen` sit inside the `parse` parameter. The mismatch with the field names the prompt asks for is therefore not modelled.
- LevelFeedback.LocalFeedback: the keyword and regex matchers (term lists, `\b` word tests) give their results as a features record. The word and sentence counts come in the same way. The `hasNegation` flag is computed but unused in the source, so it is left out.
- Text.Lower is ASCII case folding. `toLowerCase` and the `/i` flag fold non-ASCII letters too, which is not modelled.
- String lengths count Dafny characters, not UTF-16 code units.
- Register.RegisterPage.HandleSubmit: `password.length` is compared as a character count.
- Register.SubmitEffect: the browser's constraint validation of the form (`required` on all four inputs, `minLength` 3 on the username and 6 on the password, `type="email"`) is not modelled. `handleSubmit` is modelled as if every submission reached it; in the browser a username under 3 characters, a password under 6 characters or a malformed email stops the submit before `handleSubmit` runs, so its too-short message is not reached from typed input.
- EvaluateReasoning.ExtractQualityScore: `parseInt` on a very long digit run loses precision as a JS number. The model reads the exact value.
- EvaluateReasoning.Serve: request fields are modelled as strings or absent. A missing `is_correct` reads as false; non-boolean `is_correct` values and other non-string JSON values are not modelled. CORS headers and the prompt texts are not modelled.
- EvaluateReasoning.BewertungScoreRoundTrip is proved for the spelling "Bewertung: " (one colon, one space) only. ExtractQualityScore itself models the whole `Bewertung:?\s*(\d+)` alternative of the case-insensitive regex, with any letter case, an optional colon and any whitespace run. The round trip for those other spellings is not proved, because its proof is over the resource limit.
- EvaluateReasoning.GenerateFallbackFeedback: `Math.random` is modelled as an arbitrary choice among the listed texts.
- Timers and browser APIs are not modelled: `setTimeout`, `localStorage`, `window.confirm` (a `confirmed` parameter), Blob downloads and toasts beyond the message values kept. The admin attempt loader reads `localStorage` and reverses the list; it is not modelled, and the filters and export take the list as given.
- AdminContent.AdminLevels.constructor takes the initial list as a parameter. The hard-coded demo levels of the admin page are not reproduced.
- The per-field `onChange` setters of the editors are not modelled; all their handlers are.
- AdminContent.LevelEditor.HandleSaveTask requires an open task. The source dereferences `currentTask` and only shows the task editor when one is open.
- RouteGuard.RoleIndex: the guard and the login page import `roles` from src/supabase/supabase.ts, which does not define it (src/supabase/supabase.ts is not part of this model). The model takes the role order STUDENT, TEACHER, ADMIN from the enum in db/database.types.ts.
- RouteGuard.Rank: an unknown role string, for which `indexOf` gives -1, cannot be represented, because roles are a closed enum.
- RouteGuard.Guard reads a user with optional `profile` and `stats`, as the guard and the login page do. The auth context's user record has neither field, so under it every signed-in user is sent to /login. A null user at that point is the `Crash` outcome.
- Floating-point display is not modelled: `toFixed`, the average AI score and the success-rate rounding. Doses are exact reals.
- The locale date text and the number-to-text of the dose in the CSV are parameters.
- `useEffect` wiring, rendering and concurrency between asynchronous handlers are not modelled. Each handler runs to completion.
- The duplicate pages, contexts and navigation under `frontend/` are not part of this model.
- `Game.Upserted` assumes the upsert's conflict target is the (user_id, level_id) pair. `userProgress` is kept as a set of rows.
- Keys that collide with JavaScript object prototype members (the `demoTasks[levelId]` lookup) are not modelled.
