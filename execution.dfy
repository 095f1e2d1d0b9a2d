/** The in-memory step of each command that changes the collection: `add`, `add-multiple`,
    `clean`, `delete`, `edit` and `toggle`. Loading the collection before and saving it after
    are left out; each method works on the loaded `ToDo` in place. */
module Execution {
  import opened Wrappers
  import opened Slugs
  import opened Vecs
  import opened Tasks
  import opened Helpers
  import ToDos
  import Interface

  // ---------------------------------------------------------------------------
  // add
  // ---------------------------------------------------------------------------

  /** The task `add` builds: the given id and description, state ToDo, the slugs of the given
      tags (none when absent) and the given project ("Inbox" when absent). */
  function NewTask(slug: Slugger, id: nat, description: string, project: Option<string>, tags: Option<seq<string>>): Task {
    Task(id, description, ToDo, SlugImage(slug, tags.GetOr([])), project.GetOr("Inbox"))
  }

  /** `Task::create(description).id(index)[.project(project)].tags(tags).build()`. */
  method BuildTask(slug: Slugger, index: nat, description: string, project: Option<string>, tags: Option<seq<string>>)
    returns (t: Task)
    ensures t == NewTask(slug, index, description, project, tags)
  {
    var b := new TaskBuilder.Create(description);
    b.WithId(index);
    match project {
      case Some(p) => b.WithProject(p);
      case None =>
    }
    b.WithTags(slug, tags.GetOr([]));
    t := b.Build();
  }

  /** `add_task`: appends one task with the next id. */
  method AddTask(todo: ToDos.ToDo, slug: Slugger, req: Interface.AddToDo)
    modifies todo
    ensures todo.tasks == old(todo.tasks) + [NewTask(slug, GetIndex(old(todo.tasks)), req.description, req.project, req.tag)]
  {
    var index := GetIndex(todo.tasks);
    var t := BuildTask(slug, index, req.description, req.project, req.tag);
    todo.AddTask(t);
  }

  /** A task carrying the next id can be appended without breaking the id order. */
  lemma AppendNextKeepsIdsAscending(tasks: seq<Task>, t: Task)
    requires IdsAscending(tasks) && t.id == GetIndex(tasks)
    ensures IdsAscending(tasks + [t])
    ensures GetIndex(tasks + [t]) == GetIndex(tasks) + 1
  {
    NextIdIsFresh(tasks);
    var r := tasks + [t];
    forall i, j | 0 <= i < j < |r| ensures r[i].id < r[j].id {
      if j == |tasks| {
        assert r[i] in tasks;
      } else {
        assert r[i] == tasks[i] && r[j] == tasks[j];
      }
    }
  }

  /** `add` keeps ids strictly ascending, hence unique, and the new id is unused. */
  lemma AddKeepsIdsAscending(slug: Slugger, tasks: seq<Task>, req: Interface.AddToDo)
    requires IdsAscending(tasks)
    ensures var t := NewTask(slug, GetIndex(tasks), req.description, req.project, req.tag);
      IdsAscending(tasks + [t]) && forall u :: u in tasks ==> u.id != t.id
  {
    var t := NewTask(slug, GetIndex(tasks), req.description, req.project, req.tag);
    AppendNextKeepsIdsAscending(tasks, t);
    NextIdIsFresh(tasks);
  }

  // ---------------------------------------------------------------------------
  // add-multiple
  // ---------------------------------------------------------------------------

  /** The tasks `add-multiple` appends, one per description in input order, with consecutive
      ids from `base`. */
  function NewTasks(slug: Slugger, base: nat, descriptions: seq<string>, project: Option<string>, tags: Option<seq<string>>)
    : seq<Task>
  {
    seq(|descriptions|, i requires 0 <= i < |descriptions| => NewTask(slug, base + i, descriptions[i], project, tags))
  }

  /** The batch: one task per description, ids counting up from `base` one by one, and every
      task sharing the same state, project and tags. */
  lemma NewTasksShape(slug: Slugger, base: nat, descriptions: seq<string>, project: Option<string>, tags: Option<seq<string>>)
    ensures var r := NewTasks(slug, base, descriptions, project, tags);
      && |r| == |descriptions|
      && (forall i :: 0 <= i < |r| ==> r[i].id == base + i && r[i].description == descriptions[i])
      && (forall i, j :: 0 <= i < |r| && 0 <= j < |r| ==>
            r[i].state == r[j].state == ToDo && r[i].project == r[j].project && r[i].tags == r[j].tags)
  {
  }

  /** Adding one by one with `add`, each time taking the next id afresh. */
  function AddedOneByOne(slug: Slugger, tasks: seq<Task>, descriptions: seq<string>, project: Option<string>, tags: Option<seq<string>>)
    : seq<Task>
    decreases |descriptions|
  {
    if descriptions == [] then tasks
    else AddedOneByOne(slug, tasks + [NewTask(slug, GetIndex(tasks), descriptions[0], project, tags)], descriptions[1..], project, tags)
  }

  /** `add-multiple` has the same effect as `add` once per description, in order. */
  lemma {:induction false} AddMultipleIsRepeatedAdd(slug: Slugger, tasks: seq<Task>, descriptions: seq<string>, project: Option<string>, tags: Option<seq<string>>)
    ensures tasks + NewTasks(slug, GetIndex(tasks), descriptions, project, tags) == AddedOneByOne(slug, tasks, descriptions, project, tags)
    decreases |descriptions|
  {
    if descriptions != [] {
      var base := GetIndex(tasks);
      var first := NewTask(slug, base, descriptions[0], project, tags);
      var next := tasks + [first];
      assert GetIndex(next) == base + 1;
      AddMultipleIsRepeatedAdd(slug, next, descriptions[1..], project, tags);
      var all := NewTasks(slug, base, descriptions, project, tags);
      var rest := NewTasks(slug, base + 1, descriptions[1..], project, tags);
      assert all == [first] + rest;
      assert tasks + all == next + rest;
    }
  }

  /** `add_multiple_tasks`: `extend` with a closure that builds each task with the current
      index and then bumps it. */
  method AddMultipleTasks(todo: ToDos.ToDo, slug: Slugger, req: Interface.AddMultipleToDo)
    modifies todo
    ensures todo.tasks == old(todo.tasks) + NewTasks(slug, GetIndex(old(todo.tasks)), req.descriptions, req.project, req.tag)
  {
    var index := GetIndex(todo.tasks);
    ghost var base := index;
    ghost var before := todo.tasks;
    for k := 0 to |req.descriptions|
      invariant index == base + k
      invariant |todo.tasks| == |before| + k
      invariant todo.tasks[..|before|] == before
      invariant forall j :: 0 <= j < k ==>
        todo.tasks[|before| + j] == NewTask(slug, base + j, req.descriptions[j], req.project, req.tag)
    {
      var lastIndex := index;
      index := index + 1;
      var t := BuildTask(slug, lastIndex, req.descriptions[k], req.project, req.tag);
      todo.AddTask(t);
    }
    assert todo.tasks == before + NewTasks(slug, base, req.descriptions, req.project, req.tag);
  }

  /** `add-multiple` keeps ids strictly ascending, and every new id is unused before. */
  lemma {:induction false} AddMultipleKeepsIdsAscending(slug: Slugger, tasks: seq<Task>, descriptions: seq<string>, project: Option<string>, tags: Option<seq<string>>)
    requires IdsAscending(tasks)
    ensures IdsAscending(tasks + NewTasks(slug, GetIndex(tasks), descriptions, project, tags))
    decreases |descriptions|
  {
    if descriptions != [] {
      var base := GetIndex(tasks);
      var first := NewTask(slug, base, descriptions[0], project, tags);
      AppendNextKeepsIdsAscending(tasks, first);
      AddMultipleKeepsIdsAscending(slug, tasks + [first], descriptions[1..], project, tags);
      var all := NewTasks(slug, base, descriptions, project, tags);
      var rest := NewTasks(slug, base + 1, descriptions[1..], project, tags);
      assert all == [first] + rest;
      assert tasks + all == tasks + [first] + rest;
    }
  }

  // ---------------------------------------------------------------------------
  // clean
  // ---------------------------------------------------------------------------

  function NotDone(): Task -> bool {
    (t: Task) => t.state != Done
  }

  /** `clean_completed_tasks`: `retain` the tasks whose state is not Done. */
  method CleanCompletedTasks(todo: ToDos.ToDo)
    modifies todo
    ensures todo.tasks == Retain(old(todo.tasks), NotDone())
  {
    todo.tasks := Retain(todo.tasks, NotDone());
  }

  /** After `clean`, exactly the unfinished tasks remain, each as often as before; cleaning
      twice is cleaning once; and ids stay ascending. */
  lemma CleanKeepsUnfinished(tasks: seq<Task>)
    ensures forall t :: t in Retain(tasks, NotDone()) <==> t in tasks && t.state != Done
    ensures forall t: Task :: t.state != Done ==> multiset(Retain(tasks, NotDone()))[t] == multiset(tasks)[t]
    ensures Retain(Retain(tasks, NotDone()), NotDone()) == Retain(tasks, NotDone())
    ensures IdsAscending(tasks) ==> IdsAscending(Retain(tasks, NotDone()))
  {
    forall t: Task | t.state != Done ensures multiset(Retain(tasks, NotDone()))[t] == multiset(tasks)[t] {
      RetainCount(tasks, NotDone(), t);
    }
    RetainRetain(tasks, NotDone(), NotDone(), NotDone());
    if IdsAscending(tasks) {
      RetainKeepsIdsAscending(tasks, NotDone());
    }
  }

  // ---------------------------------------------------------------------------
  // delete
  // ---------------------------------------------------------------------------

  function NotListed(ids: seq<nat>): Task -> bool {
    (t: Task) => t.id !in ids
  }

  /** `delete_tasks`: `retain` the tasks whose id is not listed. */
  method DeleteTasks(todo: ToDos.ToDo, req: Interface.DeleteToDo)
    modifies todo
    ensures todo.tasks == Retain(old(todo.tasks), NotListed(req.tasks))
  {
    todo.tasks := Retain(todo.tasks, NotListed(req.tasks));
  }

  /** Listed ids that match no task have no effect: deleting them alone changes nothing, and
      adding them to a deletion changes nothing either. */
  lemma DeleteIgnoresUnmatchedIds(tasks: seq<Task>, ids: seq<nat>, extra: seq<nat>)
    requires forall t :: t in tasks ==> t.id !in extra
    ensures Retain(tasks, NotListed(extra)) == tasks
    ensures Retain(tasks, NotListed(ids + extra)) == Retain(tasks, NotListed(ids))
  {
    RetainAll(tasks, NotListed(extra));
    RetainExt(tasks, NotListed(ids + extra), NotListed(ids));
  }

  /** After `delete`, no listed id is left, every other task is kept as often as before, and
      ids stay ascending. */
  lemma DeleteRemovesListed(tasks: seq<Task>, ids: seq<nat>)
    ensures forall t :: t in Retain(tasks, NotListed(ids)) ==> t.id !in ids
    ensures forall t: Task :: t.id !in ids ==> multiset(Retain(tasks, NotListed(ids)))[t] == multiset(tasks)[t]
    ensures IdsAscending(tasks) ==> IdsAscending(Retain(tasks, NotListed(ids)))
  {
    forall t: Task | t.id !in ids ensures multiset(Retain(tasks, NotListed(ids)))[t] == multiset(tasks)[t] {
      RetainCount(tasks, NotListed(ids), t);
    }
    if IdsAscending(tasks) {
      RetainKeepsIdsAscending(tasks, NotListed(ids));
    }
  }

  // ---------------------------------------------------------------------------
  // toggle
  // ---------------------------------------------------------------------------

  /** Every task whose id is listed takes `state`; every field but the state, and every other
      task, is as before. */
  function Toggled(tasks: seq<Task>, ids: seq<nat>, state: State): (r: seq<Task>)
    ensures |r| == |tasks|
    ensures forall i :: 0 <= i < |r| ==> r[i].(state := tasks[i].state) == tasks[i]
    ensures forall i :: 0 <= i < |r| ==> r[i].state == if tasks[i].id in ids then state else tasks[i].state
  {
    seq(|tasks|, i requires 0 <= i < |tasks| => if tasks[i].id in ids then tasks[i].ChangeState(state) else tasks[i])
  }

  /** `toggle_tasks`: `iter_mut().filter(listed).for_each(change_state)`. */
  method ToggleTasks(todo: ToDos.ToDo, req: Interface.ToggleToDo)
    modifies todo
    ensures todo.tasks == Toggled(old(todo.tasks), req.tasks, Interface.ToState(req.state))
  {
    ghost var before := todo.tasks;
    var state := Interface.ToState(req.state);
    for i := 0 to |todo.tasks|
      invariant |todo.tasks| == |before|
      invariant forall k :: 0 <= k < i ==> todo.tasks[k] == Toggled(before, req.tasks, state)[k]
      invariant forall k :: i <= k < |before| ==> todo.tasks[k] == before[k]
    {
      if todo.tasks[i].id in req.tasks {
        todo.tasks := todo.tasks[i := todo.tasks[i].ChangeState(state)];
      }
    }
    assert todo.tasks == Toggled(before, req.tasks, state);
  }

  /** Toggling is idempotent, the last of two toggles of the same ids wins, and ids that
      match no task are ignored. */
  lemma ToggleLaws(tasks: seq<Task>, ids: seq<nat>, extra: seq<nat>, a: State, b: State)
    requires forall t :: t in tasks ==> t.id !in extra
    ensures Toggled(Toggled(tasks, ids, a), ids, a) == Toggled(tasks, ids, a)
    ensures Toggled(Toggled(tasks, ids, a), ids, b) == Toggled(tasks, ids, b)
    ensures Toggled(tasks, ids + extra, a) == Toggled(tasks, ids, a)
  {
    var once := Toggled(tasks, ids, a);
    assert forall i :: 0 <= i < |tasks| ==> once[i].id == tasks[i].id;
    assert Toggled(once, ids, a) == once;
    assert Toggled(once, ids, b) == Toggled(tasks, ids, b);
    forall i | 0 <= i < |tasks| ensures tasks[i].id in ids + extra <==> tasks[i].id in ids {
      assert tasks[i] in tasks;
    }
    assert Toggled(tasks, ids + extra, a) == Toggled(tasks, ids, a);
  }

  /** `toggle` keeps every id where it was, so ids stay ascending. */
  lemma ToggleKeepsIdsAscending(tasks: seq<Task>, ids: seq<nat>, state: State)
    requires IdsAscending(tasks)
    ensures IdsAscending(Toggled(tasks, ids, state))
  {
    var r := Toggled(tasks, ids, state);
    assert forall i :: 0 <= i < |tasks| ==> r[i].id == tasks[i].id;
  }

  // ---------------------------------------------------------------------------
  // edit
  // ---------------------------------------------------------------------------

  datatype EditError = NotFound

  /** The position of the first task with id `id`, as `iter_mut().find` reaches it. */
  function FirstWithId(tasks: seq<Task>, id: nat): (r: Option<nat>)
    ensures r.None? ==> forall i :: 0 <= i < |tasks| ==> tasks[i].id != id
    ensures r.Some? ==> r.value < |tasks| && tasks[r.value].id == id
    ensures r.Some? ==> forall i :: 0 <= i < r.value ==> tasks[i].id != id
  {
    if tasks == [] then None
    else if tasks[0].id == id then Some(0)
    else match FirstWithId(tasks[1..], id)
      case None => None
      case Some(k) => Some(k + 1)
  }

  /** The task after `edit`: each supplied field replaced (tags through `replace_tags`), the
      others and the id kept. */
  function Edited(slug: Slugger, t: Task, req: Interface.EditToDo): Task {
    Task(
      t.id,
      req.description.GetOr(t.description),
      if req.state.Some? then Interface.ToState(req.state.value) else t.state,
      if req.tags.Some? then SlugImage(slug, req.tags.value) else t.tags,
      req.project.GetOr(t.project))
  }

  /** `edit_task`: find the first task with the id; when there is one, overwrite the supplied
      fields in place, otherwise fail with "not found" and leave the collection as it was. */
  method EditTask(todo: ToDos.ToDo, slug: Slugger, req: Interface.EditToDo) returns (outcome: Outcome<EditError>)
    modifies todo
    ensures FirstWithId(old(todo.tasks), req.task).None? ==>
      outcome == Fail(NotFound) && todo.tasks == old(todo.tasks)
    ensures FirstWithId(old(todo.tasks), req.task).Some? ==>
      var i := FirstWithId(old(todo.tasks), req.task).value;
      outcome == Pass && todo.tasks == old(todo.tasks)[i := Edited(slug, old(todo.tasks)[i], req)]
  {
    var i := 0;
    while i < |todo.tasks| && todo.tasks[i].id != req.task
      invariant 0 <= i <= |todo.tasks|
      invariant forall k :: 0 <= k < i ==> todo.tasks[k].id != req.task
    {
      i := i + 1;
    }
    if i == |todo.tasks| {
      return Fail(NotFound);
    }
    var task := todo.tasks[i];
    if req.description.Some? {
      task := task.(description := req.description.value);
    }
    if req.project.Some? {
      task := task.(project := req.project.value);
    }
    if req.state.Some? {
      task := task.(state := Interface.ToState(req.state.value));
    }
    if req.tags.Some? {
      task := task.ReplaceTags(slug, req.tags.value);
    }
    todo.tasks := todo.tasks[i := task];
    outcome := Pass;
  }

  /** An edit that supplies nothing changes nothing; editing twice with the same request is
      editing once; the id is never touched. */
  lemma EditLaws(slug: Slugger, t: Task, req: Interface.EditToDo)
    ensures Edited(slug, t, Interface.EditToDo(req.task, None, None, None, None)) == t
    ensures Edited(slug, Edited(slug, t, req), req) == Edited(slug, t, req)
    ensures Edited(slug, t, req).id == t.id
  {
  }

  /** `edit` keeps ids strictly ascending, and with ascending ids the edited task is the only
      one carrying the requested id. */
  lemma EditKeepsIdsAscending(slug: Slugger, tasks: seq<Task>, req: Interface.EditToDo)
    requires IdsAscending(tasks) && FirstWithId(tasks, req.task).Some?
    ensures var i := FirstWithId(tasks, req.task).value;
      && IdsAscending(tasks[i := Edited(slug, tasks[i], req)])
      && forall j :: 0 <= j < |tasks| && j != i ==> tasks[j].id != req.task
  {
  }

  // ---------------------------------------------------------------------------
  // A session
  // ---------------------------------------------------------------------------

  /** The three steps of the session below that remove or change tasks, on its values. */
  lemma SessionSteps(milk: Task, bob: Task, alice: Task)
    requires milk.id == 0 && bob.id == 1 && alice.id == 2
    requires milk.state == ToDo && alice.state == ToDo
    ensures Toggled([milk, bob, alice], [1], Done) == [milk, bob.(state := Done), alice]
    ensures Retain([milk, bob.(state := Done), alice], NotDone()) == [milk, alice]
    ensures Retain([milk, alice], NotListed([0])) == [alice]
  {
    var toggled := Toggled([milk, bob, alice], [1], Done);
    assert toggled[0] == milk && toggled[1] == bob.(state := Done) && toggled[2] == alice;
    assert Retain([alice], NotDone()) == [alice];
    assert Retain([bob.(state := Done), alice], NotDone()) == [alice];
    assert Retain([alice], NotListed([0])) == [alice];
  }

  /** Add one task, add two more in a project, mark the second done, clean, then delete the
      first: only "Call Alice", with id 2, remains. */
  method Session(slug: Slugger) returns (r: seq<Task>)
    requires slug("grocery") == "grocery"
    ensures r == [Task(2, "Call Alice", ToDo, {}, "Calls")]
  {
    var milk := Task(0, "Buy milk", ToDo, {"grocery"}, "Errands");
    var bob := Task(1, "Call Bob", ToDo, {}, "Calls");
    var alice := Task(2, "Call Alice", ToDo, {}, "Calls");
    SessionSteps(milk, bob, alice);
    assert NewTask(slug, 0, "Buy milk", Some("Errands"), Some(["grocery"])) == milk by {
      assert SlugImage(slug, ["grocery"]) == {"grocery"};
    }
    assert NewTasks(slug, 1, ["Call Bob", "Call Alice"], Some("Calls"), None) == [bob, alice] by {
      assert SlugImage(slug, []) == {};
    }
    var todo := new ToDos.ToDo.Default();
    AddTask(todo, slug, Interface.AddToDo("Buy milk", Some("Errands"), Some(["grocery"])));
    assert todo.tasks == [milk];
    AddMultipleTasks(todo, slug, Interface.AddMultipleToDo(["Call Bob", "Call Alice"], Some("Calls"), None));
    assert todo.tasks == [milk, bob, alice];
    ToggleTasks(todo, Interface.ToggleToDo(Interface.Done, [1]));
    assert todo.tasks == [milk, bob.(state := Done), alice];
    CleanCompletedTasks(todo);
    assert todo.tasks == [milk, alice];
    DeleteTasks(todo, Interface.DeleteToDo([0]));
    r := todo.tasks;
  }
}
