/**
 * The records the game passes around: content rows (levels, tasks, answer
 * options), the signed-in user, per-level progress rows, the attempt row the
 * level page writes, and the profile/stats shape the route guard reads.
 */
module Schema {
  import opened Wrappers

  /** The `task_type` enum: multiple choice or free text. */
  datatype TaskType = MC | Free

  datatype Level = Level(
    id: string,
    title: string,
    introText: string,
    topicTag: string,
    ordering: int,
    isActive: bool,
    createdAt: string,
    updatedAt: string)

  datatype Task = Task(
    id: string,
    levelId: string,
    kind: TaskType,
    promptText: string,
    ordering: int,
    isActive: bool,
    createdAt: string)

  /** An answer option of a multiple-choice task; `isCorrect` is the client's boolean flag. */
  datatype AnswerOption = AnswerOption(
    id: string,
    taskId: string,
    optionText: string,
    pointsAwarded: int,
    doseDeltaMsv: real,
    isCorrect: bool)

  /** The roles the client-side user record knows. */
  datatype UserRole = Student | Admin

  /** The signed-in user as the auth context holds it, with the player's counters. */
  datatype User = User(
    id: string,
    username: string,
    email: Option<string>,
    role: UserRole,
    knowledgePoints: int,
    doseMsv: real,
    createdAt: string,
    lastLogin: Option<string>)

  /** A `user_level_progress` row. */
  datatype ProgressRow = ProgressRow(
    id: string,
    userId: string,
    levelId: string,
    completed: bool,
    startedAt: string,
    completedAt: Option<string>)

  /** The payload the level page inserts into `attempts`, field for field as the client writes it. */
  datatype AttemptRow = AttemptRow(
    userId: string,
    levelId: string,
    taskId: string,
    optionId: Option<string>,
    answer: string,
    reasoning: string,
    isCorrect: bool,
    pointsGot: int,
    doseMsvGot: real,
    aiFeedback: string,
    aiSuggestions: seq<string>,
    aiScore: int,
    timestamp: string)

  /** The `role` enum, in its declared order STUDENT, TEACHER, ADMIN. */
  datatype PermissionRole = STUDENT | TEACHER | ADMIN

  /** A `user_profiles` row. */
  datatype UserProfile = UserProfile(
    userId: string,
    username: string,
    email: string,
    permissionLevel: Option<PermissionRole>,
    createdAt: string)

  /** A `user_stats` row. */
  datatype UserStats = UserStats(userId: string, knowledgePoints: int, doseMsv: real)

  /** The outcome of one Supabase query: an error, or the returned data. */
  datatype Fetch<T> = FetchError | Fetched(data: T)

  /** `xs.find(x => key(x) === id)`: the first record whose id is `id`. */
  function FindById<T>(xs: seq<T>, key: T -> string, id: string): (r: Option<T>)
    ensures r.None? <==> forall i :: 0 <= i < |xs| ==> key(xs[i]) != id
    ensures r.Some? ==> exists i :: 0 <= i < |xs| && xs[i] == r.value && key(r.value) == id &&
                                    forall j :: 0 <= j < i ==> key(xs[j]) != id
  {
    if |xs| == 0 then None
    else if key(xs[0]) == id then Some(xs[0])
    else
      var r := FindById(xs[1..], key, id);
      if r.Some? then
        ghost var i :| 0 <= i < |xs[1..]| && xs[1..][i] == r.value && key(r.value) == id &&
                       forall j :: 0 <= j < i ==> key(xs[1..][j]) != id;
        assert xs[i + 1] == r.value;
        r
      else r
  }
}
