/**
 * The game context: the demo-user test, the built-in demo content used when
 * the database cannot be reached, the content loaders, and the per-(user,
 * level) progress lifecycle kept in the `user_level_progress` table.
 */
module Game {
  import opened Wrappers
  import opened Text
  import opened Schema
  import Auth

  /** Demo accounts are recognised by their id prefix alone. */
  function IsDemoUser(userId: string): (r: bool)
    ensures r <==> |userId| >= 5 && userId[..5] == "demo-"
  {
    StartsWith(userId, "demo-")
  }

  /** Both hard-coded sign-in accounts are demo users, so their progress is never written. */
  lemma DemoAccountsAreDemoUsers(username: string, password: string, now: string)
    requires Auth.DemoAccount(username, password, now).Some?
    ensures IsDemoUser(Auth.DemoAccount(username, password, now).value.id)
  {
  }

  // ---------------------------------------------------------------------------
  // Built-in demo content
  // ---------------------------------------------------------------------------

  const Level1Intro: string := "Du erwachst in den Trümmern einer einst blühenden Stadt. Überall siehst du seltsame Warnschilder mit dem Strahlensymbol. Die Luft flimmert merkwürdig, und dein Geigerzähler klickt bedrohlich.\n\nAuf der Ecke findest du einen halb-zerstörten Klamottenladen, in den du hineingehst. Ein alter Mann verkauft dort übrig gebliebene Kleidung und andere nützliche Dinge.\n\nDu hast wie in jedem Computerspiel eine Gesundheitsleiste, ein gewisses Budget und eine Wissensleiste. Dein Ziel ist es am Ende die beiden Leisten möglichst voll zu haben. Das Geld spielt am Ende keine große Rolle.\n\nDeine Wissensleiste ist zu Beginn leer (0 WP), dein Dosimeter hat keine Strahlung gemessen (0mSv) und du besitzt 120€.\n\nDoch Achtung: Zu viel Ausgaben direkt am Ende lassen euch wenig Geld für die weiteren Aufgaben. Die Gesundheitsleiste geht aufgrund der Radioaktivität so oder so runter. Ihr könnt sie nur verlangsamen. Einmal erlittene Schäden werden immer wieder abgezogen, sofern sie nicht geheilt werden."
  const Level2Intro: string := "Du findest ein verlassenes Labor mit funktionierenden Geräten. An der Wand hängt ein Poster: \"STRAHLENSCHUTZ RETTET LEBEN!\"\n\nEin Hologramm eines Wissenschaftlers flackert auf: \"Willkommen im Notfall-Ausbildungszentrum. Du musst lernen, wie Strahlendosen gemessen werden und welche Schutzmaßnahmen existieren.\"\n\nDein Dosimeter zeigt bereits erste Werte an. Zeit ist kostbar!\n\nThemen in diesem Labor:\n• Dosimetrie und Messeinheiten (mSv)\n• Grenzwerte für Strahlenbelastung\n• Die drei Grundregeln: Zeit, Abstand, Abschirmung\n• Praktische Schutzmaßnahmen im Notfall\n\nJede falsche Entscheidung kostet dich Gesundheit!"
  const Level3Intro: string := "Du erreichst einen Bereich, wo die Strahlung schwächer ist. Hier siehst du Schilder für ein Krankenhaus und ein Forschungszentrum. Nicht alle Radioaktivität ist schlecht!\n\nEin Arzt in Schutzkleidung erklärt dir: \"Radioaktivität kann Leben retten! In der Medizin nutzen wir sie für Diagnose und Therapie. Auch in der Forschung hat sie viele positive Anwendungen.\"\n\nDu siehst Geräte für Krebstherapie und Altersbestimmung.\n\nWas du hier entdeckst:\n• Medizinische Anwendungen (Diagnostik, Therapie)\n• Radiokarbonmethode zur Altersbestimmung\n• Technische Anwendungen in der Industrie\n• Kernenergie als Energiequelle\n\nSelbst hier musst du vorsichtig sein - auch gute Strahlung kann gefährlich werden!"

  const Prompt1: string := "Du findest einen halb-zerstörten Klamottenladen, in den du hineingehst. Ein alter Mann verkauft dort übrig gebliebene Kleidung und andere nützliche Dinge. Du musst entscheiden, was du dort kaufen willst:"
  const Prompt2: string := "Ein alter Wissenschaftler fragt dich: \"Warum sind manche Atomkerne instabil und zerfallen radioaktiv?\" Erkläre ihm deine Überlegungen zum Verhältnis von Protonen zu Neutronen."
  const Prompt3: string := "Dein Dosimeter piept! Du musst eine Entscheidung treffen. Welche Aussage über Strahlendosen ist korrekt?"
  const Prompt4: string := "Im Krankenhaus siehst du Geräte mit Strahlensymbolen. Wo wird Radioaktivität in der Medizin eingesetzt?"
  const OptionText1: string := "A) T-Shirt (0€) - Bietet keinen Schutz vor Strahlung"
  const OptionText2: string := "B) Gelber Strahlenschutzanzug (50€) - Professioneller Schutz vor radioaktiver Strahlung"
  const OptionText3: string := "C) Dicke Winterjacke (20€) - Normale Kleidung, etwas Schutz vor Kälte"
  const OptionText4: string := "D) Normale Schutzmaske (20€) - Schutz vor Staub, aber nicht vor Strahlung"
  const OptionText5: string := "E) Mundschutz (3€) - Minimaler Schutz vor Partikeln"
  const OptionText6: string := "F) Mütze (5€) - Schutz vor Sonne, nicht vor Strahlung"
  const OptionText7: string := "G) Filtermaske fürs komplette Gesicht (70€) - Guter Schutz vor radioaktiven Partikeln"
  const OptionText8: string := "1 mSv pro Jahr ist der Grenzwert für die Allgemeinbevölkerung in Deutschland"
  const OptionText9: string := "Je höher die Dosis, desto besser für die Gesundheit"
  const OptionText10: string := "Strahlendosen sind nur bei direktem Kontakt gefährlich"
  const OptionText11: string := "Radioaktive Strahlung ist grundsätzlich ungefährlich"
  const OptionText12: string := "In der Krebstherapie und bei bildgebenden Verfahren wie PET"
  const OptionText13: string := "Nur zur Desinfektion von Operationssälen"
  const OptionText14: string := "Ausschließlich zur Behandlung von Knochenbrüchen"
  const OptionText15: string := "Radioaktivität wird nicht in der Medizin verwendet"

  /** The three demo levels; `now` is the time the list is built. */
  function DemoLevels(now: string): seq<Level> {
    [ Level("demo-level-1", "Die verstrahlten Ruinen - Der Klamottenladen", Level1Intro, "radioactivity", 1, true, now, now),
      Level("demo-level-2", "Das Strahlenschutz-Labor", Level2Intro, "radioactivity", 2, true, now, now),
      Level("demo-level-3", "Die Hoffnungszone", Level3Intro, "radioactivity", 3, true, now, now) ]
  }

  /** The demo tasks per level id. */
  function DemoTasks(now: string): map<string, seq<Task>> {
    map[
      "demo-level-1" := [
        Task("demo-task-shopping", "demo-level-1", MC, Prompt1, 1, true, now),
        Task("demo-task-2", "demo-level-1", Free, Prompt2, 2, true, now) ],
      "demo-level-2" := [
        Task("demo-task-3", "demo-level-2", MC, Prompt3, 1, true, now) ],
      "demo-level-3" := [
        Task("demo-task-4", "demo-level-3", MC, Prompt4, 1, true, now) ]
    ]
  }

  /** The demo answer options per task id: (points, dose in mSv, correct). */
  const DemoOptions: map<string, seq<AnswerOption>> := map[
    "demo-task-shopping" := [
      AnswerOption("demo-option-tshirt", "demo-task-shopping", OptionText1, 2, 3.0, false),
      AnswerOption("demo-option-radiation-suit", "demo-task-shopping", OptionText2, 8, 0.0, true),
      AnswerOption("demo-option-winter-jacket", "demo-task-shopping", OptionText3, 4, 1.5, false),
      AnswerOption("demo-option-mask", "demo-task-shopping", OptionText4, 3, 2.0, false),
      AnswerOption("demo-option-mouth-protection", "demo-task-shopping", OptionText5, 2, 2.5, false),
      AnswerOption("demo-option-cap", "demo-task-shopping", OptionText6, 1, 2.8, false),
      AnswerOption("demo-option-filter-mask", "demo-task-shopping", OptionText7, 7, 0.5, true) ],
    "demo-task-3" := [
      AnswerOption("demo-option-5", "demo-task-3", OptionText8, 5, 0.0, true),
      AnswerOption("demo-option-6", "demo-task-3", OptionText9, 0, 3.0, false),
      AnswerOption("demo-option-7", "demo-task-3", OptionText10, 1, 1.5, false),
      AnswerOption("demo-option-8", "demo-task-3", OptionText11, 0, 5.0, false) ],
    "demo-task-4" := [
      AnswerOption("demo-option-9", "demo-task-4", OptionText12, 5, 0.0, true),
      AnswerOption("demo-option-10", "demo-task-4", OptionText13, 2, 0.2, false),
      AnswerOption("demo-option-11", "demo-task-4", OptionText14, 0, 1.0, false),
      AnswerOption("demo-option-12", "demo-task-4", OptionText15, 0, 2.0, false) ]
  ]

  /** `levels.find(l => l.id === id)`: the first level with that id. */
  function FindLevel(levels: seq<Level>, id: string): Option<Level> {
    FindById(levels, (x: Level) => x.id, id)
  }

  /** The level shown when loading it from the database fails. */
  function LevelOnError(levelId: string, now: string): Option<Level> {
    FindLevel(DemoLevels(now), levelId)
  }

  /** The tasks shown when loading them fails: `demoTasks[levelId] || []`. */
  function TasksOnError(levelId: string, now: string): seq<Task> {
    if levelId in DemoTasks(now) then DemoTasks(now)[levelId] else []
  }

  /** The options shown when loading them fails: `demoOptions[taskId] || []`. */
  function OptionsOnError(taskId: string): seq<AnswerOption> {
    if taskId in DemoOptions then DemoOptions[taskId] else []
  }

  /** On a load error a known demo id gives its demo level, any other id gives no level. */
  lemma LevelFallback(levelId: string, now: string)
    ensures LevelOnError(levelId, now).Some? <==> levelId in {"demo-level-1", "demo-level-2", "demo-level-3"}
    ensures LevelOnError(levelId, now).Some? ==> LevelOnError(levelId, now).value.id == levelId
    ensures levelId == "demo-level-2" ==> LevelOnError(levelId, now).value.title == "Das Strahlenschutz-Labor"
  {
    var ls := DemoLevels(now);
    assert ls[0].id == "demo-level-1" && ls[1].id == "demo-level-2" && ls[2].id == "demo-level-3";
  }

  /** Every demo task list belongs to its level, and every demo option list to its task. */
  lemma DemoContentConsistent(levelId: string, taskId: string, now: string)
    ensures forall t :: t in TasksOnError(levelId, now) ==> t.levelId == levelId
    ensures forall o :: o in OptionsOnError(taskId) ==> o.taskId == taskId
    ensures (levelId in DemoTasks(now)) == (levelId in {"demo-level-1", "demo-level-2", "demo-level-3"})
    ensures TasksOnError("demo-level-1", now)[1].kind == Free
  {
  }

  /** Each demo multiple-choice task has a correct option worth at least 5 points that adds no dose. */
  lemma DemoTasksAnswerable(taskId: string)
    requires taskId in DemoOptions
    ensures exists o :: o in DemoOptions[taskId] && o.isCorrect && o.pointsAwarded >= 5 && o.doseDeltaMsv == 0.0
  {
    var i := if taskId == "demo-task-shopping" then 1 else 0;
    assert DemoOptions[taskId][i] in DemoOptions[taskId];
  }

  // ---------------------------------------------------------------------------
  // The progress table
  // ---------------------------------------------------------------------------

  /** `user_level_progress`, one row per (user id, level id). */
  type ProgressTable = map<(string, string), ProgressRow>

  /** Every row sits under its own (user, level) key. */
  predicate WellKeyed(t: ProgressTable) {
    forall k :: k in t ==> t[k].userId == k.0 && t[k].levelId == k.1
  }

  /**
   * `startLevel`'s upsert of `{ user_id, level_id, completed: false }`: an
   * existing row gets `completed` reset and keeps its other columns; a new
   * row gets the generated id, `started_at = now` and no completion time.
   */
  function Upserted(t: ProgressTable, userId: string, levelId: string, newId: string, now: string): (r: ProgressTable)
    ensures r.Keys == t.Keys + {(userId, levelId)}
    ensures !r[(userId, levelId)].completed
    ensures forall k :: k in t && k != (userId, levelId) ==> r[k] == t[k]
  {
    var key := (userId, levelId);
    if key in t then t[key := t[key].(completed := false)]
    else t[key := ProgressRow(newId, userId, levelId, false, now, None)]
  }

  /**
   * `completeLevel`'s update `{ completed: true, completed_at: now }` where
   * user and level match: only that row changes, and with no such row
   * nothing does.
   */
  function Completed(t: ProgressTable, userId: string, levelId: string, now: string): (r: ProgressTable)
    ensures r.Keys == t.Keys
    ensures (userId, levelId) in t ==>
              r[(userId, levelId)] == t[(userId, levelId)].(completed := true, completedAt := Some(now))
    ensures forall k :: k in t && k != (userId, levelId) ==> r[k] == t[k]
  {
    var key := (userId, levelId);
    if key in t then t[key := t[key].(completed := true, completedAt := Some(now))] else t
  }

  /** The progress rows of one user. */
  function RowsOf(t: ProgressTable, userId: string): set<ProgressRow> {
    set k | k in t && k.0 == userId :: t[k]
  }

  /** Both writes keep every row under its own key. */
  lemma WritesKeepKeys(t: ProgressTable, userId: string, levelId: string, newId: string, now: string)
    requires WellKeyed(t)
    ensures WellKeyed(Upserted(t, userId, levelId, newId, now))
    ensures WellKeyed(Completed(t, userId, levelId, now))
  {
  }

  /** Completing without a prior start changes nothing. */
  lemma CompleteWithoutRecord(t: ProgressTable, userId: string, levelId: string, now: string)
    requires (userId, levelId) !in t
    ensures Completed(t, userId, levelId, now) == t
  {
  }

  /** Completing twice keeps the level completed but the completion time is the later one. */
  lemma CompleteTwice(t: ProgressTable, userId: string, levelId: string, first: string, second: string)
    ensures Completed(Completed(t, userId, levelId, first), userId, levelId, second) == Completed(t, userId, levelId, second)
    ensures (userId, levelId) in t ==>
              Completed(Completed(t, userId, levelId, first), userId, levelId, second)[(userId, levelId)].completed &&
              Completed(Completed(t, userId, levelId, first), userId, levelId, second)[(userId, levelId)].completedAt == Some(second)
  {
    var key := (userId, levelId);
    if key in t {
      assert Completed(Completed(t, userId, levelId, first), userId, levelId, second)[key] == Completed(t, userId, levelId, second)[key];
    }
  }

  /** Starting a completed level again makes it not completed; the old completion time stays. */
  lemma RestartAfterComplete(t: ProgressTable, userId: string, levelId: string, done: string, newId: string, now: string)
    requires (userId, levelId) in t
    ensures var r := Upserted(Completed(t, userId, levelId, done), userId, levelId, newId, now)[(userId, levelId)];
      !r.completed && r.completedAt == Some(done) && r.startedAt == t[(userId, levelId)].startedAt
  {
  }

  /** A start followed by a completion leaves a completed row for that pair. */
  lemma StartThenComplete(t: ProgressTable, userId: string, levelId: string, newId: string, started: string, done: string)
    ensures var r := Completed(Upserted(t, userId, levelId, newId, started), userId, levelId, done)[(userId, levelId)];
      r.completed && r.completedAt == Some(done)
  {
  }

  /** Writing one user's progress leaves every other user's rows as they were. */
  lemma OtherUsersUntouched(t: ProgressTable, userId: string, other: string, levelId: string, newId: string, now: string)
    requires other != userId
    ensures RowsOf(Upserted(t, userId, levelId, newId, now), other) == RowsOf(t, other)
    ensures RowsOf(Completed(t, userId, levelId, now), other) == RowsOf(t, other)
  {
    var u := Upserted(t, userId, levelId, newId, now);
    var c := Completed(t, userId, levelId, now);
    assert forall k :: k in u && k.0 == other ==> k in t && u[k] == t[k];
    assert forall k :: k in c && k.0 == other ==> k in t && c[k] == t[k];
  }

  /** The reply of `submitAnswer`. */
  datatype SubmitReply = SubmitReply(success: bool, feedback: Option<string>)

  /** `submitAnswer`: fails without a user, otherwise acknowledges without storing anything. */
  function SubmitAnswer(user: Option<User>): (r: SubmitReply)
    ensures r.success <==> user.Some?
    ensures r.success ==> r.feedback == Some("Demo-Antwort erfolgreich übermittelt!")
    ensures !r.success ==> r.feedback.None?
  {
    if user.None? then SubmitReply(false, None)
    else SubmitReply(true, Some("Demo-Antwort erfolgreich übermittelt!"))
  }

  /** The remote progress table. */
  class ProgressStore {
    var rows: ProgressTable

    constructor (rows: ProgressTable)
      ensures this.rows == rows
    {
      this.rows := rows;
    }
  }

  /** The state the game context provides to the pages. */
  class GameContext {
    var levels: seq<Level>
    var currentLevel: Option<Level>
    var tasks: seq<Task>
    var currentTask: Option<Task>
    var options: seq<AnswerOption>
    var userProgress: set<ProgressRow>
    var loading: bool

    /** The provider's initial state: everything empty, not loading. */
    constructor ()
      ensures levels == [] && currentLevel.None? && tasks == [] && currentTask.None?
      ensures options == [] && userProgress == {} && !loading
    {
      levels, currentLevel, tasks, currentTask := [], None, [], None;
      options, userProgress, loading := [], {}, false;
    }

    /** `loadLevels`: the fetched levels, or the demo levels on an error. */
    method LoadLevels(fetched: Fetch<seq<Level>>, now: string)
      modifies this
      ensures levels == (if fetched.Fetched? then fetched.data else DemoLevels(now))
      ensures !loading
      ensures currentLevel == old(currentLevel) && tasks == old(tasks) && currentTask == old(currentTask)
      ensures options == old(options) && userProgress == old(userProgress)
    {
      loading := true;
      if fetched.FetchError? {
        levels := DemoLevels(now);
      } else {
        levels := fetched.data;
      }
      loading := false;
    }

    /** `loadLevel`: the fetched level, or on an error (no single row included) the demo level with that id, if any. */
    method LoadLevel(levelId: string, fetched: Fetch<Level>, now: string)
      modifies this
      ensures currentLevel == (if fetched.Fetched? then Some(fetched.data) else LevelOnError(levelId, now))
      ensures levels == old(levels) && tasks == old(tasks) && currentTask == old(currentTask)
      ensures options == old(options) && userProgress == old(userProgress) && loading == old(loading)
    {
      if fetched.FetchError? {
        currentLevel := FindLevel(DemoLevels(now), levelId);
      } else {
        currentLevel := Some(fetched.data);
      }
    }

    /**
     * `loadTasks`: the fetched tasks, or the level's demo tasks on an error.
     * The current task is taken from the task list as it was before this
     * load, which is what the handler's captured state holds.
     */
    method LoadTasks(levelId: string, fetched: Fetch<seq<Task>>, now: string)
      modifies this
      ensures tasks == (if fetched.Fetched? then fetched.data else TasksOnError(levelId, now))
      ensures currentTask == (if |old(tasks)| > 0 then Some(old(tasks)[0]) else old(currentTask))
      ensures levels == old(levels) && currentLevel == old(currentLevel)
      ensures options == old(options) && userProgress == old(userProgress) && loading == old(loading)
    {
      var previous := tasks;
      if fetched.FetchError? {
        tasks := TasksOnError(levelId, now);
      } else {
        tasks := fetched.data;
      }
      if |previous| > 0 {
        currentTask := Some(previous[0]);
      }
    }

    /** `loadOptions`: the fetched options, or the task's demo options on an error. */
    method LoadOptions(taskId: string, fetched: Fetch<seq<AnswerOption>>)
      modifies this
      ensures options == (if fetched.Fetched? then fetched.data else OptionsOnError(taskId))
      ensures levels == old(levels) && currentLevel == old(currentLevel) && tasks == old(tasks)
      ensures currentTask == old(currentTask) && userProgress == old(userProgress) && loading == old(loading)
    {
      if fetched.FetchError? {
        options := OptionsOnError(taskId);
      } else {
        options := fetched.data;
      }
    }

    /**
     * `getUserProgress`: nothing without a user, the empty list for a demo
     * user, otherwise the user's rows (the empty list when the read fails).
     */
    method GetUserProgress(user: Option<User>, store: ProgressStore, readOk: bool)
      modifies this
      ensures user.None? ==> userProgress == old(userProgress)
      ensures user.Some? && IsDemoUser(user.value.id) ==> userProgress == {}
      ensures user.Some? && !IsDemoUser(user.value.id) ==>
                userProgress == (if readOk then RowsOf(store.rows, user.value.id) else {})
      ensures levels == old(levels) && currentLevel == old(currentLevel) && tasks == old(tasks)
      ensures currentTask == old(currentTask) && options == old(options) && loading == old(loading)
    {
      if user.None? {
        return;
      }
      if IsDemoUser(user.value.id) {
        userProgress := {};
        return;
      }
      if readOk {
        userProgress := RowsOf(store.rows, user.value.id);
      } else {
        userProgress := {};
      }
    }

    /**
     * `startLevel`: without a user or for a demo user nothing changes;
     * otherwise the upsert (when the write succeeds) and a progress reload.
     */
    method StartLevel(user: Option<User>, levelId: string, store: ProgressStore,
                      newId: string, now: string, writeOk: bool, readOk: bool)
      modifies this, store
      ensures user.None? || IsDemoUser(user.value.id) ==>
                store.rows == old(store.rows) && userProgress == old(userProgress)
      ensures user.Some? && !IsDemoUser(user.value.id) ==>
                store.rows == (if writeOk then Upserted(old(store.rows), user.value.id, levelId, newId, now)
                               else old(store.rows)) &&
                userProgress == (if readOk then RowsOf(store.rows, user.value.id) else {})
      ensures levels == old(levels) && currentLevel == old(currentLevel) && tasks == old(tasks)
      ensures currentTask == old(currentTask) && options == old(options) && loading == old(loading)
    {
      if user.None? || IsDemoUser(user.value.id) {
        return;
      }
      if writeOk {
        store.rows := Upserted(store.rows, user.value.id, levelId, newId, now);
      }
      GetUserProgress(user, store, readOk);
    }

    /**
     * `completeLevel`: without a user or for a demo user nothing changes;
     * otherwise the update (when the write succeeds) and a progress reload.
     */
    method CompleteLevel(user: Option<User>, levelId: string, store: ProgressStore,
                         now: string, writeOk: bool, readOk: bool)
      modifies this, store
      ensures user.None? || IsDemoUser(user.value.id) ==>
                store.rows == old(store.rows) && userProgress == old(userProgress)
      ensures user.Some? && !IsDemoUser(user.value.id) ==>
                store.rows == (if writeOk then Completed(old(store.rows), user.value.id, levelId, now)
                               else old(store.rows)) &&
                userProgress == (if readOk then RowsOf(store.rows, user.value.id) else {})
      ensures levels == old(levels) && currentLevel == old(currentLevel) && tasks == old(tasks)
      ensures currentTask == old(currentTask) && options == old(options) && loading == old(loading)
    {
      if user.None? || IsDemoUser(user.value.id) {
        return;
      }
      if writeOk {
        store.rows := Completed(store.rows, user.value.id, levelId, now);
      }
      GetUserProgress(user, store, readOk);
    }
  }
}
