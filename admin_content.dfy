/**
 * The content editor of the admin area: the level form with its task list,
 * the task form with its answer options, and the list of levels. Every list
 * change is an append, a replace by id, a delete by id or an append followed
 * by a stable sort on `ordering`.
 */
module AdminContent {
  import opened Wrappers
  import opened Text
  import opened Schema

  /** An answer option in the task form. */
  datatype OptionDraft = OptionDraft(
    id: string,
    optionText: string,
    pointsAwarded: int,
    costEuros: int,
    doseDeltaMsv: real,
    isCorrect: bool,
    ordering: int)

  /** A task in the level form. */
  datatype TaskDraft = TaskDraft(
    id: string,
    kind: TaskType,
    promptText: string,
    ordering: int,
    isActive: bool,
    evaluationCriteria: string,
    options: seq<OptionDraft>)

  /** The level form. */
  datatype LevelDraft = LevelDraft(
    title: string,
    introText: string,
    ordering: int,
    isActive: bool,
    tasks: seq<TaskDraft>)

  /** An entry of the admin level list. */
  datatype LevelEntry = LevelEntry(
    id: string,
    title: string,
    introText: string,
    topicTag: Option<string>,
    ordering: int,
    isActive: bool,
    taskCount: nat,
    tasks: seq<TaskDraft>)

  // ---------------------------------------------------------------------------
  // List operations by id
  // ---------------------------------------------------------------------------

  function TaskId(t: TaskDraft): string { t.id }
  function OptionId(o: OptionDraft): string { o.id }
  function EntryId(l: LevelEntry): string { l.id }

  /** `xs.filter(x => key(x) !== id)`. */
  function Without<T>(xs: seq<T>, key: T -> string, id: string): (r: seq<T>)
    ensures |r| <= |xs|
    ensures forall i :: 0 <= i < |r| ==> r[i] in xs && key(r[i]) != id
    ensures forall i :: 0 <= i < |xs| && key(xs[i]) != id ==> xs[i] in r
  {
    if xs == [] then [] else (if key(xs[0]) == id then [] else [xs[0]]) + Without(xs[1..], key, id)
  }

  /** Deleting distributes over concatenation, so the survivors keep their relative order. */
  lemma {:induction false} WithoutKeepsOrder<T>(a: seq<T>, b: seq<T>, key: T -> string, id: string)
    ensures Without(a + b, key, id) == Without(a, key, id) + Without(b, key, id)
  {
    if a != [] {
      assert (a + b)[0] == a[0] && (a + b)[1..] == a[1..] + b;
      WithoutKeepsOrder(a[1..], b, key, id);
      assert Without(a + b, key, id) == (if key(a[0]) == id then [] else [a[0]]) + Without(a[1..] + b, key, id);
    } else {
      assert a + b == b;
    }
  }

  /** Deleting an id nobody has changes nothing. */
  lemma {:induction false} WithoutAbsent<T>(xs: seq<T>, key: T -> string, id: string)
    requires forall i :: 0 <= i < |xs| ==> key(xs[i]) != id
    ensures Without(xs, key, id) == xs
  {
    if xs != [] {
      WithoutAbsent(xs[1..], key, id);
    }
  }

  /** `xs.map(x => key(x) === id ? f(x) : x)`. */
  function Substitute<T>(xs: seq<T>, key: T -> string, id: string, f: T -> T): (r: seq<T>)
    ensures |r| == |xs|
    ensures forall i :: 0 <= i < |xs| ==> r[i] == if key(xs[i]) == id then f(xs[i]) else xs[i]
  {
    if xs == [] then [] else [if key(xs[0]) == id then f(xs[0]) else xs[0]] + Substitute(xs[1..], key, id, f)
  }

  /** No element with key `id`. */
  predicate Absent<T>(xs: seq<T>, key: T -> string, id: string) {
    forall i :: 0 <= i < |xs| ==> key(xs[i]) != id
  }

  // ---------------------------------------------------------------------------
  // Save checks
  // ---------------------------------------------------------------------------

  const TitleRequired := "Titel ist erforderlich"
  const PromptRequired := "Aufgabenstellung ist erforderlich"
  const OptionRequired := "Multiple Choice Aufgaben benötigen mindestens eine Antwortoption"

  /** The level form's save check: a title that is not blank. */
  function LevelSaveError(d: LevelDraft): (e: Option<string>)
    ensures e.None? <==> !AllSpace(d.title)
    ensures e.Some? ==> e.value == TitleRequired
  {
    if Trim(d.title) == [] then Some(TitleRequired) else None
  }

  /** The task form's save check: a prompt that is not blank, then at least one option for multiple choice. */
  function TaskSaveError(d: TaskDraft): (e: Option<string>)
    ensures e.None? <==> !AllSpace(d.promptText) && (d.kind == MC ==> d.options != [])
    ensures e == Some(PromptRequired) <==> AllSpace(d.promptText)
    ensures e == Some(OptionRequired) <==> !AllSpace(d.promptText) && d.kind == MC && d.options == []
  {
    if Trim(d.promptText) == [] then Some(PromptRequired)
    else if d.kind == MC && |d.options| == 0 then Some(OptionRequired)
    else None
  }

  /** `x || 1` on an ordering: zero becomes one. */
  function OrderingOrOne(n: int): (r: int)
    ensures r != 0 && (n != 0 ==> r == n)
  {
    if n == 0 then 1 else n
  }

  // ---------------------------------------------------------------------------
  // Task editor
  // ---------------------------------------------------------------------------

  /** The fields an option row of the task form can change. */
  datatype OptionPatch = OptionPatch(
    optionText: Option<string>,
    pointsAwarded: Option<int>,
    costEuros: Option<int>,
    doseDeltaMsv: Option<real>,
    isCorrect: Option<bool>)

  /** `{ ...opt, ...updates }`. */
  function MergeOption(o: OptionDraft, p: OptionPatch): (r: OptionDraft)
    ensures r.id == o.id && r.ordering == o.ordering
    ensures r.optionText == p.optionText.GetOr(o.optionText) && r.pointsAwarded == p.pointsAwarded.GetOr(o.pointsAwarded)
    ensures r.costEuros == p.costEuros.GetOr(o.costEuros) && r.doseDeltaMsv == p.doseDeltaMsv.GetOr(o.doseDeltaMsv)
    ensures r.isCorrect == p.isCorrect.GetOr(o.isCorrect)
  {
    o.(optionText := p.optionText.GetOr(o.optionText), pointsAwarded := p.pointsAwarded.GetOr(o.pointsAwarded),
       costEuros := p.costEuros.GetOr(o.costEuros), doseDeltaMsv := p.doseDeltaMsv.GetOr(o.doseDeltaMsv),
       isCorrect := p.isCorrect.GetOr(o.isCorrect))
  }

  /** The blank option `handleAddOption` appends; `now` stands for `Date.now()`. */
  function NewOption(now: string, count: nat): (o: OptionDraft)
    ensures o.optionText == "" && o.pointsAwarded == 0 && o.costEuros == 0 && o.doseDeltaMsv == 0.0 && !o.isCorrect
    ensures o.ordering == count + 1 && StartsWith(o.id, "option-")
  {
    OptionDraft("option-" + now, "", 0, 0, 0.0, false, count + 1)
  }

  class TaskEditor {
    var form: TaskDraft

    /** The form starts from the task, with a zero ordering read as 1. */
    constructor (task: TaskDraft)
      ensures form == task.(ordering := OrderingOrOne(task.ordering))
    {
      form := task.(ordering := OrderingOrOne(task.ordering));
    }

    /** `handleSave`: the check's message, or the form handed to the level editor. */
    method HandleSave() returns (error: Option<string>, saved: Option<TaskDraft>)
      ensures error == TaskSaveError(form)
      ensures saved.Some? <==> error.None?
      ensures saved.Some? ==> saved.value == form
    {
      error := TaskSaveError(form);
      saved := if error.None? then Some(form) else None;
    }

    method HandleAddOption(now: string)
      modifies this
      ensures form == old(form).(options := old(form.options) + [NewOption(now, |old(form.options)|)])
    {
      form := form.(options := form.options + [NewOption(now, |form.options|)]);
    }

    method HandleUpdateOption(optionId: string, updates: OptionPatch)
      modifies this
      ensures form == old(form).(options := Substitute(old(form.options), OptionId, optionId, o => MergeOption(o, updates)))
    {
      form := form.(options := Substitute(form.options, OptionId, optionId, o => MergeOption(o, updates)));
    }

    method HandleDeleteOption(optionId: string)
      modifies this
      ensures form == old(form).(options := Without(old(form.options), OptionId, optionId))
    {
      form := form.(options := Without(form.options, OptionId, optionId));
    }
  }

  /** An option update changes only the option with that id, and only the patched fields of it. */
  lemma UpdateOptionTouchesOnlyItsId(options: seq<OptionDraft>, id: string, p: OptionPatch, i: nat)
    requires i < |options|
    ensures var r := Substitute(options, OptionId, id, o => MergeOption(o, p));
            (options[i].id != id ==> r[i] == options[i]) &&
            (options[i].id == id ==> r[i] == MergeOption(options[i], p) && r[i].id == id)
  {
  }

  // ---------------------------------------------------------------------------
  // Level editor
  // ---------------------------------------------------------------------------

  /** The blank task `handleAddTask` opens; `now` stands for `Date.now()`. */
  function NewTask(now: string, count: nat): (t: TaskDraft)
    ensures t.kind == MC && t.promptText == "" && t.isActive && t.options == [] && t.evaluationCriteria == ""
    ensures t.ordering == count + 1 && StartsWith(t.id, "task-")
  {
    TaskDraft("task-" + now, MC, "", count + 1, true, "", [])
  }

  /**
   * `handleSaveTask`: a task opened under a fresh `task-` id that is not in
   * the list yet is appended; otherwise the task with the saved task's id is
   * replaced.
   */
  function SavedTasks(tasks: seq<TaskDraft>, openedId: string, data: TaskDraft): seq<TaskDraft> {
    if StartsWith(openedId, "task-") && Absent(tasks, TaskId, openedId) then tasks + [data]
    else Substitute(tasks, TaskId, data.id, _ => data)
  }

  /** Saving a new task appends it after all others. */
  lemma SaveNewTaskAppends(tasks: seq<TaskDraft>, now: string, data: TaskDraft)
    requires Absent(tasks, TaskId, "task-" + now)
    ensures SavedTasks(tasks, "task-" + now, data) == tasks + [data]
  {
    assert StartsWith("task-" + now, "task-");
  }

  /** Saving an existing task replaces it in place: same length, same order, the others unchanged. */
  lemma SaveExistingTaskReplaces(tasks: seq<TaskDraft>, data: TaskDraft, i: nat)
    requires i < |tasks| && tasks[i].id == data.id
    ensures var r := SavedTasks(tasks, data.id, data);
            |r| == |tasks| && r[i] == data &&
            forall j :: 0 <= j < |tasks| && tasks[j].id != data.id ==> r[j] == tasks[j]
  {
  }

  class LevelEditor {
    var form: LevelDraft
    var currentTask: Option<TaskDraft>
    var showTaskEditor: bool

    /** The form starts from the level being edited, or blank (ordering 1, active) for a new one. */
    constructor (level: Option<LevelEntry>)
      ensures level.None? ==> form == LevelDraft("", "", 1, true, [])
      ensures level.Some? ==>
                form == LevelDraft(level.value.title, level.value.introText, OrderingOrOne(level.value.ordering),
                                   level.value.isActive, level.value.tasks)
      ensures currentTask.None? && !showTaskEditor
    {
      if level.Some? {
        var l := level.value;
        form := LevelDraft(l.title, l.introText, OrderingOrOne(l.ordering), l.isActive, l.tasks);
      } else {
        form := LevelDraft("", "", 1, true, []);
      }
      currentTask, showTaskEditor := None, false;
    }

    /** `handleSave`: the check's message, or the form handed to the level list. */
    method HandleSave() returns (error: Option<string>, saved: Option<LevelDraft>)
      ensures error == LevelSaveError(form)
      ensures saved.Some? <==> error.None?
      ensures saved.Some? ==> saved.value == form
    {
      error := LevelSaveError(form);
      saved := if error.None? then Some(form) else None;
    }

    method HandleAddTask(now: string)
      modifies this
      ensures currentTask == Some(NewTask(now, |form.tasks|)) && showTaskEditor && form == old(form)
    {
      currentTask := Some(NewTask(now, |form.tasks|));
      showTaskEditor := true;
    }

    method HandleEditTask(task: TaskDraft)
      modifies this
      ensures currentTask == Some(task) && showTaskEditor && form == old(form)
    {
      currentTask := Some(task);
      showTaskEditor := true;
    }

    /** Only reachable from an open task editor, so a task is open. */
    method HandleSaveTask(data: TaskDraft)
      requires currentTask.Some?
      modifies this
      ensures form == old(form).(tasks := SavedTasks(old(form.tasks), old(currentTask).value.id, data))
      ensures currentTask.None? && !showTaskEditor
    {
      form := form.(tasks := SavedTasks(form.tasks, currentTask.value.id, data));
      showTaskEditor := false;
      currentTask := None;
    }

    /** `confirmed` is the answer to the confirmation dialog. */
    method HandleDeleteTask(taskId: string, confirmed: bool)
      modifies this
      ensures form == (if confirmed then old(form).(tasks := Without(old(form.tasks), TaskId, taskId)) else old(form))
      ensures currentTask == old(currentTask) && showTaskEditor == old(showTaskEditor)
    {
      if confirmed {
        form := form.(tasks := Without(form.tasks, TaskId, taskId));
      }
    }
  }

  // ---------------------------------------------------------------------------
  // Level list
  // ---------------------------------------------------------------------------

  predicate SortedByOrdering(xs: seq<LevelEntry>) {
    forall i, j :: 0 <= i < j < |xs| ==> xs[i].ordering <= xs[j].ordering
  }

  /** Inserting into a sorted list after every entry whose ordering is not greater (a stable insert). */
  function InsertStable(xs: seq<LevelEntry>, x: LevelEntry): (r: seq<LevelEntry>)
    ensures multiset(r) == multiset(xs) + multiset{x}
  {
    if xs == [] then [x]
    else if xs[|xs| - 1].ordering <= x.ordering then xs + [x]
    else
      assert xs == xs[..|xs| - 1] + [xs[|xs| - 1]];
      InsertStable(xs[..|xs| - 1], x) + [xs[|xs| - 1]]
  }

  /** The stable insert keeps a sorted list sorted. */
  lemma {:induction false} InsertStableSorted(xs: seq<LevelEntry>, x: LevelEntry)
    requires SortedByOrdering(xs)
    ensures SortedByOrdering(InsertStable(xs, x))
  {
    if xs != [] && xs[|xs| - 1].ordering > x.ordering {
      var init, last := xs[..|xs| - 1], xs[|xs| - 1];
      assert SortedByOrdering(init);
      InsertStableSorted(init, x);
      var r := InsertStable(init, x);
      forall i | 0 <= i < |r|
        ensures r[i].ordering <= last.ordering
      {
        assert r[i] in multiset(r);
        if r[i] != x {
          assert r[i] in multiset(init);
          var j :| 0 <= j < |init| && init[j] == r[i];
          assert xs[j] == init[j];
        }
      }
      assert InsertStable(xs, x) == r + [last];
    }
  }

  /** `[...xs].sort((a, b) => a.ordering - b.ordering)`: sorted by ordering, stable (see SortIsStable), as `Array.prototype.sort` is. */
  function SortByOrdering(xs: seq<LevelEntry>): (r: seq<LevelEntry>)
    ensures multiset(r) == multiset(xs) && SortedByOrdering(r)
  {
    if xs == [] then []
    else
      assert xs == xs[..|xs| - 1] + [xs[|xs| - 1]];
      var sorted := SortByOrdering(xs[..|xs| - 1]);
      InsertStableSorted(sorted, xs[|xs| - 1]);
      InsertStable(sorted, xs[|xs| - 1])
  }

  /** A sorted list is left as it is. */
  lemma {:induction false} SortKeepsSorted(xs: seq<LevelEntry>)
    requires SortedByOrdering(xs)
    ensures SortByOrdering(xs) == xs
  {
    if xs != [] {
      var init, last := xs[..|xs| - 1], xs[|xs| - 1];
      assert SortedByOrdering(init);
      SortKeepsSorted(init);
      assert SortByOrdering(xs) == InsertStable(init, last);
      if init != [] {
        assert init[|init| - 1] == xs[|xs| - 2];
      }
      assert xs == init + [last];
    }
  }

  /** The entries whose ordering is `k`, in list order. */
  function WithOrdering(xs: seq<LevelEntry>, k: int): (r: seq<LevelEntry>)
    ensures |r| <= |xs|
  {
    if xs == [] then []
    else WithOrdering(xs[..|xs| - 1], k) + (if xs[|xs| - 1].ordering == k then [xs[|xs| - 1]] else [])
  }

  /** The entries with ordering `k` of a list with one more entry at the end. */
  lemma WithOrderingAppend(xs: seq<LevelEntry>, x: LevelEntry, k: int)
    ensures WithOrdering(xs + [x], k) == WithOrdering(xs, k) + (if x.ordering == k then [x] else [])
  {
    assert (xs + [x])[..|xs|] == xs;
  }

  /** Two pieces of which one is empty can be appended in either order. */
  lemma SwapEmpty<T>(a: seq<T>, b: seq<T>, c: seq<T>)
    requires b == [] || c == []
    ensures a + b + c == a + c + b
  {
    if b == [] { assert a + b == a; } else { assert a + c == a; }
  }

  /** The stable insert keeps the entries of each ordering in their order and puts the new one last among its equals. */
  lemma {:induction false} InsertStableKeepsTies(xs: seq<LevelEntry>, x: LevelEntry, k: int)
    ensures WithOrdering(InsertStable(xs, x), k) == WithOrdering(xs, k) + (if x.ordering == k then [x] else [])
  {
    if xs == [] {
      WithOrderingAppend([], x, k);
    } else if xs[|xs| - 1].ordering <= x.ordering {
      WithOrderingAppend(xs, x, k);
    } else {
      var init, last := xs[..|xs| - 1], xs[|xs| - 1];
      var r := InsertStable(init, x);
      assert InsertStable(xs, x) == r + [last];
      InsertStableKeepsTies(init, x, k);
      WithOrderingAppend(r, last, k);
      SwapEmpty(WithOrdering(init, k), if x.ordering == k then [x] else [], if last.ordering == k then [last] else []);
    }
  }

  /** Stability: entries with equal ordering come out of the sort in the order they went in. */
  lemma {:induction false} SortIsStable(xs: seq<LevelEntry>, k: int)
    ensures WithOrdering(SortByOrdering(xs), k) == WithOrdering(xs, k)
  {
    if xs != [] {
      var init, last := xs[..|xs| - 1], xs[|xs| - 1];
      var sorted := SortByOrdering(init);
      assert SortByOrdering(xs) == InsertStable(sorted, last);
      SortIsStable(init, k);
      InsertStableKeepsTies(sorted, last, k);
    }
  }

  /** Where the stable insert puts the new entry. */
  function InsertPosition(xs: seq<LevelEntry>, x: LevelEntry): (k: nat)
    ensures k <= |xs|
  {
    if xs == [] then 0
    else if xs[|xs| - 1].ordering <= x.ordering then |xs|
    else InsertPosition(xs[..|xs| - 1], x)
  }

  /** The stable insert puts the new entry at its insert position and moves nothing else. */
  lemma {:induction false} InsertStableAt(xs: seq<LevelEntry>, x: LevelEntry)
    ensures var k := InsertPosition(xs, x);
            InsertStable(xs, x) == xs[..k] + [x] + xs[k..]
  {
    if xs != [] && xs[|xs| - 1].ordering > x.ordering {
      var init := xs[..|xs| - 1];
      InsertStableAt(init, x);
      var k := InsertPosition(init, x);
      assert xs[..k] == init[..k];
      assert xs[k..] == init[k..] + [xs[|xs| - 1]];
    } else if xs != [] {
      assert xs[..|xs|] == xs && xs[|xs|..] == [];
    }
  }

  /** In a sorted list, the entries before the insert position have an ordering up to the new one's, the rest a greater one. */
  lemma {:induction false} InsertPositionSplits(xs: seq<LevelEntry>, x: LevelEntry)
    requires SortedByOrdering(xs)
    ensures var k := InsertPosition(xs, x);
            (forall i :: 0 <= i < k ==> xs[i].ordering <= x.ordering) &&
            (forall i :: k <= i < |xs| ==> xs[i].ordering > x.ordering)
  {
    if xs != [] && xs[|xs| - 1].ordering > x.ordering {
      var init := xs[..|xs| - 1];
      assert SortedByOrdering(init);
      InsertPositionSplits(init, x);
    }
  }

  /** The entry `handleCreateLevel` adds: a fresh id, the form's fields, no topic, the task count. */
  function CreatedEntry(now: string, d: LevelDraft): LevelEntry {
    LevelEntry("demo-level-" + now, d.title, d.introText, None, d.ordering, d.isActive, |d.tasks|, d.tasks)
  }

  /**
   * The entry `handleUpdateLevel` puts in place of the old one: the form's
   * fields under the old id. The form has no topic, so the topic is dropped.
   */
  function UpdatedEntry(id: string, d: LevelDraft): LevelEntry {
    LevelEntry(id, d.title, d.introText, None, d.ordering, d.isActive, |d.tasks|, d.tasks)
  }

  /** Creating a level in a sorted list inserts it after the levels with an ordering up to its own. */
  lemma CreateInsertsInPlace(levels: seq<LevelEntry>, e: LevelEntry)
    requires SortedByOrdering(levels)
    ensures SortByOrdering(levels + [e]) == InsertStable(levels, e)
  {
    assert (levels + [e])[..|levels + [e]| - 1] == levels;
    SortKeepsSorted(levels);
  }

  class AdminLevels {
    var levels: seq<LevelEntry>

    constructor (initial: seq<LevelEntry>)
      ensures levels == initial
    {
      levels := initial;
    }

    /** `handleCreateLevel`: append the new entry, then sort by ordering. */
    method HandleCreateLevel(d: LevelDraft, now: string)
      modifies this
      ensures levels == SortByOrdering(old(levels) + [CreatedEntry(now, d)])
      ensures multiset(levels) == multiset(old(levels)) + multiset{CreatedEntry(now, d)} && SortedByOrdering(levels)
    {
      levels := SortByOrdering(levels + [CreatedEntry(now, d)]);
    }

    /** `handleUpdateLevel`: replace the entry with that id, keeping its place. */
    method HandleUpdateLevel(id: string, d: LevelDraft)
      modifies this
      ensures levels == Substitute(old(levels), EntryId, id, _ => UpdatedEntry(id, d))
    {
      levels := Substitute(levels, EntryId, id, _ => UpdatedEntry(id, d));
    }

    /** `handleDeleteLevel`; `confirmed` is the answer to the confirmation dialog. */
    method HandleDeleteLevel(id: string, confirmed: bool)
      modifies this
      ensures levels == (if confirmed then Without(old(levels), EntryId, id) else old(levels))
    {
      if confirmed {
        levels := Without(levels, EntryId, id);
      }
    }
  }

  /** An updated level keeps its id and place, takes the form's fields, and counts the form's tasks. */
  lemma UpdateReplacesInPlace(levels: seq<LevelEntry>, id: string, d: LevelDraft, i: nat)
    requires i < |levels|
    ensures var r := Substitute(levels, EntryId, id, _ => UpdatedEntry(id, d));
            |r| == |levels| &&
            (levels[i].id == id ==> r[i].id == id && r[i].title == d.title && r[i].taskCount == |d.tasks| &&
                                    r[i].topicTag.None?) &&
            (levels[i].id != id ==> r[i] == levels[i])
  {
  }
}
