/**
 * The level page's submission handler and task navigation: validating a
 * submission, scoring the chosen option, obtaining a verdict, applying the
 * points and dose to the signed-in user, writing the attempt record and
 * showing the feedback; and moving to the next task or completing the level.
 */
module LevelPage {
  import opened Wrappers
  import opened Text
  import opened Schema
  import opened LevelFeedback
  import Auth
  import Game

  /** The deterministic part of a result: correctness, points and dose of the chosen option. */
  datatype Score = Score(isCorrect: bool, points: int, dose: real)

  /** `options.find(opt => opt.id === answer)`: the first option with that id. */
  function FindOption(options: seq<AnswerOption>, id: string): Option<AnswerOption> {
    FindById(options, (x: AnswerOption) => x.id, id)
  }

  /** The score of a selected option; no option scores false, 0 points, 0 mSv. */
  function ScoreOf(selected: Option<AnswerOption>): Score {
    match selected
    case Some(o) => Score(o.isCorrect, o.pointsAwarded, o.doseDeltaMsv)
    case None => Score(false, 0, 0.0)
  }

  /**
   * Scoring an answer: the values of the first option whose id is the
   * answer, or false/0/0 when no option has that id (a free-text answer).
   */
  function ScoreAnswer(options: seq<AnswerOption>, answer: string): (r: Score)
    ensures (forall i :: 0 <= i < |options| ==> options[i].id != answer) ==> r == Score(false, 0, 0.0)
    ensures forall i :: 0 <= i < |options| && options[i].id == answer &&
                        (forall j :: 0 <= j < i ==> options[j].id != answer) ==>
                        r == Score(options[i].isCorrect, options[i].pointsAwarded, options[i].doseDeltaMsv)
  {
    var found := FindOption(options, answer);
    if found.Some? then
      ghost var k :| 0 <= k < |options| && options[k] == found.value && found.value.id == answer &&
                     forall j :: 0 <= j < k ==> options[j].id != answer;
      assert forall i :: (0 <= i < |options| && options[i].id == answer &&
                          (forall j :: 0 <= j < i ==> options[j].id != answer)) ==> i == k;
      ScoreOf(found)
    else ScoreOf(found)
  }

  /** Why a submission is refused, in the order the handler checks. */
  datatype SubmitError = NoLevel | NoUser | NoAnswer | ReasoningTooShort

  /** The toast shown for each refusal. */
  function ErrorMessage(e: SubmitError): string {
    match e
    case NoLevel => "Kein Level geladen"
    case NoUser => "Kein Nutzer angemeldet"
    case NoAnswer => "Bitte wähle eine Antwort aus"
    case ReasoningTooShort => "Bitte begründe deine Antwort ausführlich (mindestens 10 Zeichen)"
  }

  /** A reasoning long enough to submit: present and at least 10 characters once trimmed. */
  predicate ReasoningSufficient(reasoning: Option<string>) {
    reasoning.Some? && |Trim(reasoning.value)| >= 10
  }

  /** The four checks of the handler, first failure wins. */
  function CheckSubmission(hasLevel: bool, user: Option<User>, answer: Option<string>, reasoning: Option<string>)
    : (r: Option<SubmitError>)
    ensures r.None? <==> hasLevel && user.Some? && Given(answer) && ReasoningSufficient(reasoning)
    ensures r == Some(NoLevel) <==> !hasLevel
    ensures r == Some(NoUser) <==> hasLevel && user.None?
    ensures r == Some(NoAnswer) <==> hasLevel && user.Some? && !Given(answer)
    ensures r == Some(ReasoningTooShort) <==> hasLevel && user.Some? && Given(answer) && !ReasoningSufficient(reasoning)
  {
    if !hasLevel then Some(NoLevel)
    else if user.None? then Some(NoUser)
    else if !Given(answer) then Some(NoAnswer)
    else if reasoning.None? || |Trim(reasoning.value)| < 10 then Some(ReasoningTooShort)
    else None
  }

  /** The submit button's `disabled` condition. */
  function SubmitDisabled(answer: Option<string>, reasoning: Option<string>, submitting: bool, evaluating: bool): bool {
    !Given(answer) || !Given(reasoning) || |Trim(reasoning.GetOr(""))| < 10 || submitting || evaluating
  }

  /**
   * The button and the handler agree: the button is enabled exactly when the
   * answer and reasoning checks pass and nothing is in flight.
   */
  lemma ButtonMatchesChecks(user: User, answer: Option<string>, reasoning: Option<string>, submitting: bool, evaluating: bool)
    ensures !SubmitDisabled(answer, reasoning, submitting, evaluating) <==>
              CheckSubmission(true, Some(user), answer, reasoning).None? && !submitting && !evaluating
  {
    if reasoning.Some? && reasoning.value == "" {
      assert |Trim(reasoning.value)| == 0;
    }
  }

  /** The user after a submission: both counters raised by the score, through the stats patch. */
  function Applied(u: User, s: Score): User {
    Auth.Merge(u, Auth.StatsPatch(u.knowledgePoints + s.points, u.doseMsv + s.dose))
  }

  /** Applying the stats patch to the signed-in user is what `Applied` describes. */
  lemma AppliedByPatch(u: User, s: Score)
    ensures Auth.UpdatedUser(Some(u), Auth.StatsPatch(u.knowledgePoints + s.points, u.doseMsv + s.dose)) == Some(Applied(u, s))
  {
  }

  /** A submission changes the two counters by exactly the score and nothing else. */
  lemma AppliedAddsDeltas(u: User, s: Score)
    ensures Applied(u, s) == u.(knowledgePoints := u.knowledgePoints + s.points, doseMsv := u.doseMsv + s.dose)
  {
    Auth.StatsPatchTouchesOnlyCounters(u, u.knowledgePoints + s.points, u.doseMsv + s.dose);
  }

  function SumPoints(ss: seq<Score>): int {
    if ss == [] then 0 else SumPoints(ss[..|ss| - 1]) + ss[|ss| - 1].points
  }

  function SumDose(ss: seq<Score>): real {
    if ss == [] then 0.0 else SumDose(ss[..|ss| - 1]) + ss[|ss| - 1].dose
  }

  /** The user after a series of accepted submissions, in order. */
  function AfterAll(u: User, ss: seq<Score>): User {
    if ss == [] then u else Applied(AfterAll(u, ss[..|ss| - 1]), ss[|ss| - 1])
  }

  /** Repeated submissions accumulate: the counters are the start values plus the sums of all deltas. */
  lemma {:induction false} StatsAccumulate(u: User, ss: seq<Score>)
    ensures AfterAll(u, ss) == u.(knowledgePoints := u.knowledgePoints + SumPoints(ss), doseMsv := u.doseMsv + SumDose(ss))
  {
    if ss != [] {
      StatsAccumulate(u, ss[..|ss| - 1]);
      AppliedAddsDeltas(AfterAll(u, ss[..|ss| - 1]), ss[|ss| - 1]);
    }
  }

  /** The `answer` column: the option's text, or the raw answer when there is no option or its text is empty. */
  function AnswerText(selected: Option<AnswerOption>, answer: string): string {
    if selected.Some? && selected.value.optionText != "" then selected.value.optionText else answer
  }

  /** The `option_id` column: the option's id, or null. */
  function OptionIdOf(selected: Option<AnswerOption>): Option<string> {
    if selected.Some? && selected.value.id != "" then Some(selected.value.id) else None
  }

  /** The attempt record written for an accepted submission. */
  function AttemptFor(user: User, levelId: string, taskId: string, options: seq<AnswerOption>, answer: string,
                      reasoning: string, verdict: AIFeedback, now: string): AttemptRow
  {
    var selected := FindOption(options, answer);
    var s := ScoreOf(selected);
    AttemptRow(user.id, levelId, taskId, OptionIdOf(selected), AnswerText(selected, answer), reasoning,
               s.isCorrect, s.points, s.dose, verdict.feedback, verdict.suggestions, verdict.score, now)
  }

  /**
   * The record holds the values that were applied to the user; with no
   * matching option it has no option id and the raw answer.
   */
  lemma AttemptRecordsAppliedScore(user: User, levelId: string, taskId: string, options: seq<AnswerOption>,
                                   answer: string, reasoning: string, verdict: AIFeedback, now: string)
    ensures var a := AttemptFor(user, levelId, taskId, options, answer, reasoning, verdict, now);
      var s := ScoreAnswer(options, answer);
      a.isCorrect == s.isCorrect && a.pointsGot == s.points && a.doseMsvGot == s.dose &&
      Applied(user, s).knowledgePoints == user.knowledgePoints + a.pointsGot &&
      Applied(user, s).doseMsv == user.doseMsv + a.doseMsvGot &&
      a.userId == user.id && a.reasoning == reasoning && a.aiScore == verdict.score
    ensures (forall i :: 0 <= i < |options| ==> options[i].id != answer) ==>
      AttemptFor(user, levelId, taskId, options, answer, reasoning, verdict, now).optionId.None? &&
      AttemptFor(user, levelId, taskId, options, answer, reasoning, verdict, now).answer == answer
  {
  }

  /** The feedback card of an accepted submission. */
  datatype TaskFeedback = TaskFeedback(isCorrect: bool, pointsAwarded: int, doseReceived: real,
                                       feedback: string, aiFeedback: AIFeedback, reasoning: string)

  function FeedbackFor(s: Score, verdict: AIFeedback, reasoning: string): TaskFeedback {
    TaskFeedback(s.isCorrect, s.points, s.dose,
                 if s.isCorrect then "Richtig! Du hast die korrekte Antwort gewählt."
                 else "Das ist nicht ganz richtig. Versuche es beim nächsten Mal besser!",
                 verdict, reasoning)
  }

  /** The verdict of a submission: the model's when it returned one, otherwise the local scorer's. */
  function ChosenVerdict(reasoning: string, isCorrect: bool, reply: ModelReply,
                         parse: string -> Option<AIFeedback>, f: ReasoningFeatures): AIFeedback
    requires ValidFeatures(f)
  {
    ModelVerdict(reply, parse).GetOr(LocalFeedback(reasoning, isCorrect, f))
  }

  /** How the attempt insert went. */
  datatype AttemptWrite =
    | Written       // the row was stored
    | WriteRejected // the insert returned an error, which is only logged
    | WriteThrew    // the call raised an exception, caught by the handler

  /**
   * The ledger invariant: the user's counters are the starting counters plus
   * the points and dose of the recorded attempts.
   */
  predicate LedgerConsistent(start: User, u: User, rows: seq<AttemptRow>) {
    u.knowledgePoints == start.knowledgePoints + RowPoints(rows) && u.doseMsv == start.doseMsv + RowDose(rows)
  }

  function RowPoints(rows: seq<AttemptRow>): int {
    if rows == [] then 0 else RowPoints(rows[..|rows| - 1]) + rows[|rows| - 1].pointsGot
  }

  function RowDose(rows: seq<AttemptRow>): real {
    if rows == [] then 0.0 else RowDose(rows[..|rows| - 1]) + rows[|rows| - 1].doseMsvGot
  }

  /** An accepted submission whose attempt is stored keeps the ledger invariant. */
  lemma StoredSubmissionKeepsLedger(start: User, u: User, rows: seq<AttemptRow>, levelId: string, taskId: string,
                                    options: seq<AnswerOption>, answer: string, reasoning: string,
                                    verdict: AIFeedback, now: string)
    requires LedgerConsistent(start, u, rows)
    ensures LedgerConsistent(start, Applied(u, ScoreAnswer(options, answer)),
                             rows + [AttemptFor(u, levelId, taskId, options, answer, reasoning, verdict, now)])
  {
    var a := AttemptFor(u, levelId, taskId, options, answer, reasoning, verdict, now);
    AttemptRecordsAppliedScore(u, levelId, taskId, options, answer, reasoning, verdict, now);
    assert (rows + [a])[..|rows + [a]| - 1] == rows;
    assert RowPoints(rows + [a]) == RowPoints(rows) + a.pointsGot;
    assert RowDose(rows + [a]) == RowDose(rows) + a.doseMsvGot;
  }

  /**
   * When the insert fails the points are applied anyway, so from any
   * consistent ledger a submission with non-zero points or dose breaks the
   * invariant.
   */
  lemma FailedInsertBreaksLedger(start: User, u: User, rows: seq<AttemptRow>, options: seq<AnswerOption>, answer: string)
    requires LedgerConsistent(start, u, rows)
    requires ScoreAnswer(options, answer).points != 0 || ScoreAnswer(options, answer).dose != 0.0
    ensures !LedgerConsistent(start, Applied(u, ScoreAnswer(options, answer)), rows)
  {
    AppliedAddsDeltas(u, ScoreAnswer(options, answer));
  }

  /** Picking the radiation suit in the shopping task is correct, worth 8 points and adds no dose. */
  lemma RadiationSuitScores()
    ensures ScoreAnswer(Game.OptionsOnError("demo-task-shopping"), "demo-option-radiation-suit") == Score(true, 8, 0.0)
    ensures ScoreAnswer(Game.OptionsOnError("demo-task-shopping"), "free text") == Score(false, 0, 0.0)
  {
    var opts := Game.OptionsOnError("demo-task-shopping");
    assert opts[0].id != "demo-option-radiation-suit" && opts[1].id == "demo-option-radiation-suit";
    assert forall i :: 0 <= i < |opts| ==> opts[i].id != "free text";
  }

  /** The stored attempts. */
  class AttemptLog {
    var rows: seq<AttemptRow>

    constructor ()
      ensures rows == []
    {
      rows := [];
    }

    /** The attempt insert: the row is stored only when the write succeeds. */
    method Record(write: AttemptWrite, row: AttemptRow)
      modifies this
      ensures rows == old(rows) + (if write.Written? then [row] else [])
    {
      if write.Written? {
        rows := rows + [row];
      }
    }
  }

  /** What the submission handler did. */
  datatype SubmitResult = NoTask | Refused(error: SubmitError) | Submitted(score: Score, verdict: AIFeedback)

  /** The entry of a map, if present. */
  function Lookup(m: map<string, string>, k: string): (r: Option<string>)
    ensures r.Some? <==> k in m
    ensures r.Some? ==> r.value == m[k]
  {
    if k in m then Some(m[k]) else None
  }

  /** Where the submission handler is headed before it awaits anything: done already, or on to scoring. */
  datatype Pending =
    | Done(result: SubmitResult)
    | Go(user: User, levelId: string, taskId: string, answer: string, why: string)

  /**
   * The synchronous part of `handleAnswerSubmit`: no current task ends it
   * silently, a failed check ends it with that check's toast, and otherwise
   * the current task's answer and reasoning go on to scoring.
   */
  function PendingSubmission(tasks: seq<Task>, index: nat, level: Option<Level>, user: Option<User>,
                             answers: map<string, string>, reasoning: map<string, string>): (p: Pending)
    ensures p == Done(NoTask) <==> index >= |tasks|
    ensures index < |tasks| ==>
              var id := tasks[index].id;
              var check := CheckSubmission(level.Some?, user, Lookup(answers, id), Lookup(reasoning, id));
              (check.Some? ==> p == Done(Refused(check.value))) &&
              (check.None? ==> p == Go(user.value, level.value.id, id, answers[id], reasoning[id]))
  {
    if index >= |tasks| then Done(NoTask)
    else
      var task := tasks[index];
      var answer := Lookup(answers, task.id);
      var why := Lookup(reasoning, task.id);
      var check := CheckSubmission(level.Some?, user, answer, why);
      if check.Some? then Done(Refused(check.value))
      else Go(user.value, level.value.id, task.id, answer.value, why.value)
  }

  /** The page state the handlers change. */
  class LevelPage {
    var currentTaskIndex: nat
    var answers: map<string, string>
    var reasoning: map<string, string>
    var feedback: Option<TaskFeedback>
    var submitting: bool
    var evaluatingReasoning: bool

    constructor ()
      ensures currentTaskIndex == 0 && answers == map[] && reasoning == map[]
      ensures feedback.None? && !submitting && !evaluatingReasoning
    {
      currentTaskIndex, answers, reasoning := 0, map[], map[];
      feedback, submitting, evaluatingReasoning := None, false, false;
    }

    /**
     * `handleAnswerSubmit`. `reply` and `parse` stand for the model call,
     * `features` for what the keyword matchers find in the reasoning, `write`
     * for the outcome of the attempt insert, `now` for the clock.
     */
    method HandleAnswerSubmit(game: Game.GameContext, auth: Auth.AuthContext, log: AttemptLog,
                              reply: ModelReply, parse: string -> Option<AIFeedback>,
                              features: ReasoningFeatures, write: AttemptWrite, now: string)
      returns (result: SubmitResult)
      requires ValidFeatures(features)
      modifies this, auth, log
      // stopped before scoring: the result says why, and nothing changes
      ensures var p := old(PendingSubmission(game.tasks, currentTaskIndex, game.currentLevel, auth.user, answers, reasoning));
              p.Done? ==>
                result == p.result && auth.user == old(auth.user) && log.rows == old(log.rows) &&
                feedback == old(feedback) && submitting == old(submitting) &&
                evaluatingReasoning == old(evaluatingReasoning)
      // scored: stats applied, attempt written when the insert succeeds, feedback shown
      ensures var p := old(PendingSubmission(game.tasks, currentTaskIndex, game.currentLevel, auth.user, answers, reasoning));
              p.Go? ==>
                result.Submitted? &&
                result.score == ScoreAnswer(old(game.options), p.answer) &&
                result.verdict == ChosenVerdict(p.why, result.score.isCorrect, reply, parse, features) &&
                auth.user == Some(Applied(p.user, result.score)) &&
                log.rows == old(log.rows) +
                  (if write.Written? then [AttemptFor(p.user, p.levelId, p.taskId, old(game.options),
                                                      p.answer, p.why, result.verdict, now)] else []) &&
                feedback == (if write.WriteThrew? then old(feedback) else Some(FeedbackFor(result.score, result.verdict, p.why))) &&
                !submitting && !evaluatingReasoning
      ensures currentTaskIndex == old(currentTaskIndex) && answers == old(answers) && reasoning == old(reasoning)
      ensures auth.session == old(auth.session) && auth.loading == old(auth.loading)
    {
      var p := PendingSubmission(game.tasks, currentTaskIndex, game.currentLevel, auth.user, answers, reasoning);
      if p.Done? {
        return p.result;
      }
      result := Accept(auth, log, p, game.options, reply, parse, features, write, now);
    }

    /** The accepted path of the handler: score, verdict, stats update, attempt insert, feedback. */
    method Accept(auth: Auth.AuthContext, log: AttemptLog, p: Pending, options: seq<AnswerOption>,
                  reply: ModelReply, parse: string -> Option<AIFeedback>,
                  features: ReasoningFeatures, write: AttemptWrite, now: string)
      returns (result: SubmitResult)
      requires ValidFeatures(features)
      requires p.Go? && auth.user == Some(p.user)
      modifies this, auth, log
      ensures result.Submitted?
      ensures result.score == ScoreAnswer(options, p.answer)
      ensures result.verdict == ChosenVerdict(p.why, result.score.isCorrect, reply, parse, features)
      ensures auth.user == Some(Applied(p.user, result.score))
      ensures auth.session == old(auth.session) && auth.loading == old(auth.loading)
      ensures log.rows == old(log.rows) +
                (if write.Written? then [AttemptFor(p.user, p.levelId, p.taskId, options, p.answer, p.why, result.verdict, now)] else [])
      ensures feedback == (if write.WriteThrew? then old(feedback) else Some(FeedbackFor(result.score, result.verdict, p.why)))
      ensures !evaluatingReasoning && !submitting
      ensures currentTaskIndex == old(currentTaskIndex) && answers == old(answers) && reasoning == old(reasoning)
    {
      var score, verdict := Evaluate(options, p.answer, p.why, reply, parse, features);
      Apply(auth, log, p.user, p.levelId, p.taskId, options, p.answer, p.why, score, verdict, write, now);
      result := Submitted(score, verdict);
    }

    /** Scoring the chosen option and judging the reasoning; no page state changes. */
    static method Evaluate(options: seq<AnswerOption>, answer: string, why: string,
                           reply: ModelReply, parse: string -> Option<AIFeedback>, features: ReasoningFeatures)
      returns (score: Score, verdict: AIFeedback)
      requires ValidFeatures(features)
      ensures score == ScoreAnswer(options, answer)
      ensures verdict == ChosenVerdict(why, score.isCorrect, reply, parse, features)
    {
      score := ScoreOf(FindOption(options, answer));
      verdict := EvaluateReasoningWithAI(why, score.isCorrect, reply, parse, features);
    }

    /** The writes once the score and the verdict are known: stats update, attempt insert, feedback. */
    method Apply(auth: Auth.AuthContext, log: AttemptLog, user: User, levelId: string, taskId: string,
                 options: seq<AnswerOption>, answer: string, why: string,
                 score: Score, verdict: AIFeedback, write: AttemptWrite, now: string)
      requires auth.user == Some(user)
      modifies this, auth, log
      ensures auth.user == Some(Applied(user, score))
      ensures auth.session == old(auth.session) && auth.loading == old(auth.loading)
      ensures log.rows == old(log.rows) +
                (if write.Written? then [AttemptFor(user, levelId, taskId, options, answer, why, verdict, now)] else [])
      ensures feedback == (if write.WriteThrew? then old(feedback) else Some(FeedbackFor(score, verdict, why)))
      ensures !evaluatingReasoning && !submitting
      ensures currentTaskIndex == old(currentTaskIndex) && answers == old(answers) && reasoning == old(reasoning)
    {
      AppliedByPatch(user, score);
      auth.UpdateUser(Auth.StatsPatch(user.knowledgePoints + score.points, user.doseMsv + score.dose));
      log.Record(write, AttemptFor(user, levelId, taskId, options, answer, why, verdict, now));
      ShowFeedback(write, FeedbackFor(score, verdict, why));
      submitting := false;
    }

    /** The end of the evaluation: the flag drops, and the feedback shows unless the insert threw. */
    method ShowFeedback(write: AttemptWrite, shown: TaskFeedback)
      modifies this
      ensures feedback == (if write.WriteThrew? then old(feedback) else Some(shown))
      ensures !evaluatingReasoning && submitting == old(submitting)
      ensures currentTaskIndex == old(currentTaskIndex) && answers == old(answers) && reasoning == old(reasoning)
    {
      evaluatingReasoning := false;
      if !write.WriteThrew? {
        feedback := Some(shown);
      }
    }

    /**
     * `handleNextTask`: clears the feedback; advances to the next task and
     * loads its options, or at the last task completes the level of the
     * route, if the route has one.
     */
    method HandleNextTask(game: Game.GameContext, user: Option<User>, routeLevelId: Option<string>,
                          store: Game.ProgressStore, fetchedOptions: Fetch<seq<AnswerOption>>,
                          now: string, writeOk: bool, readOk: bool)
      modifies this, game, store
      ensures feedback.None?
      // before the last task: on to the next one and its options
      ensures old(currentTaskIndex) + 1 < |old(game.tasks)| ==>
                currentTaskIndex == old(currentTaskIndex) + 1 &&
                game.options == (if fetchedOptions.Fetched? then fetchedOptions.data
                                 else Game.OptionsOnError(old(game.tasks)[currentTaskIndex].id)) &&
                store.rows == old(store.rows) && game.userProgress == old(game.userProgress)
      // at the last task: the route's level is completed for a real user
      ensures old(currentTaskIndex) + 1 >= |old(game.tasks)| ==>
                currentTaskIndex == old(currentTaskIndex) && game.options == old(game.options)
      ensures old(currentTaskIndex) + 1 >= |old(game.tasks)| &&
              (routeLevelId.None? || user.None? || Game.IsDemoUser(user.value.id)) ==>
                store.rows == old(store.rows) && game.userProgress == old(game.userProgress)
      ensures old(currentTaskIndex) + 1 >= |old(game.tasks)| &&
              routeLevelId.Some? && user.Some? && !Game.IsDemoUser(user.value.id) ==>
                store.rows == (if writeOk then Game.Completed(old(store.rows), user.value.id, routeLevelId.value, now)
                               else old(store.rows)) &&
                game.userProgress == (if readOk then Game.RowsOf(store.rows, user.value.id) else {})
      ensures game.tasks == old(game.tasks) && game.levels == old(game.levels)
      ensures game.currentLevel == old(game.currentLevel) && game.currentTask == old(game.currentTask)
      ensures game.loading == old(game.loading)
      ensures answers == old(answers) && reasoning == old(reasoning)
      ensures submitting == old(submitting) && evaluatingReasoning == old(evaluatingReasoning)
    {
      feedback := None;
      if currentTaskIndex + 1 < |game.tasks| {
        currentTaskIndex := currentTaskIndex + 1;
        game.LoadOptions(game.tasks[currentTaskIndex].id, fetchedOptions);
      } else if routeLevelId.Some? {
        game.CompleteLevel(user, routeLevelId.value, store, now, writeOk, readOk);
      }
    }
  }
}
