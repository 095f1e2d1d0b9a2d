/** The earlier, id-less revision of the task record (`tasker-lib`): the same builder and
    mutators without `id`, without `replace_tags`, and with an unordered `State` declared as
    ToDo, Doing, Done, Waiting. */
module LegacyTasks {
  import opened Wrappers
  import opened Slugs
  import Tasks

  /** Progress of a task; `ToDo` is the `#[default]` variant. No order is derived. */
  datatype State = ToDo | Doing | Done | Waiting

  /** One id-less task, held by value; its `&mut self` mutators are functions from the task
      before to the task after. */
  datatype Task = Task(description: string, state: State, tags: set<string>, project: string)
  {
    /** `add_tag`: inserts the slug of `tag`; nothing else changes. */
    function AddTag(slug: Slugger, tag: string): (t: Task)
      ensures t.tags == tags + {slug(tag)}
      ensures t.(tags := tags) == this
    {
      this.(tags := tags + {slug(tag)})
    }

    /** `add_tags`: `extend` inserts the slug of every tag, one after the other. */
    function AddTags(slug: Slugger, ts: seq<string>): (t: Task)
      ensures t.tags == tags + SlugImage(slug, ts)
      ensures t.(tags := tags) == this
      decreases |ts|
    {
      if ts == [] then this
      else
        assert ts == [ts[0]] + ts[1..];
        SlugImageAppend(slug, [ts[0]], ts[1..]);
        assert SlugImage(slug, [ts[0]]) == {slug(ts[0])};
        AddTag(slug, ts[0]).AddTags(slug, ts[1..])
    }

    /** `change_description` */
    function ChangeDescription(description: string): (t: Task)
      ensures t.description == description
      ensures t.(description := this.description) == this
    {
      this.(description := description)
    }

    /** `change_state`: any state may follow any state. */
    function ChangeState(state: State): (t: Task)
      ensures t.state == state
      ensures t.(state := this.state) == this
    {
      this.(state := state)
    }
  }

  /** The builder returned by `Task::create`; its setters update it in place. */
  class TaskBuilder {
    var description: string
    var state: State
    var tags: Option<set<string>>
    var project: Option<string>

    /** `Task::create(description)`: the default state, no tags, no project. */
    constructor Create(description: string)
      ensures this.description == description && state == ToDo
      ensures tags == None && project == None
    {
      this.description := description;
      state := ToDo;
      tags := None;
      project := None;
    }

    /** `.state(state)` */
    method WithState(state: State)
      modifies this`state
      ensures this.state == state
    {
      this.state := state;
    }

    /** `.project(project)` */
    method WithProject(project: string)
      modifies this`project
      ensures this.project == Some(project)
    {
      this.project := Some(project);
    }

    /** `.tag(tag)`: adds one slug to the working set, creating the set on first use. */
    method WithTag(slug: Slugger, tag: string)
      modifies this`tags
      ensures tags == Some(old(tags).GetOr({}) + {slug(tag)})
    {
      if tags.None? {
        assert tags.GetOr({}) + {slug(tag)} == {slug(tag)};
        tags := Some({slug(tag)});
      } else {
        tags := Some(tags.value + {slug(tag)});
      }
    }

    /** `.tags(tags)`: replaces the working set with the slugs of `ts`. */
    method WithTags(slug: Slugger, ts: seq<string>)
      modifies this`tags
      ensures tags == Some(SlugImage(slug, ts))
    {
      tags := Some(SlugImage(slug, ts));
    }

    /** `.build()`: copies the fields, with no tags and project "Inbox" for what was never set;
        it only reads the builder. */
    function Build(): (t: Task)
      reads this
      ensures t.description == description && t.state == state
      ensures t.tags == (if tags.Some? then tags.value else {})
      ensures t.project == (if project.Some? then project.value else "Inbox")
    {
      Task(description, state, tags.GetOr({}), project.GetOr("Inbox"))
    }
  }

  /** `Task::create(d).build()` is the default task (the test `task_builder_works`). */
  method CreateBuildDefaults(d: string) returns (t: Task)
    ensures t == Task(d, ToDo, {}, "Inbox")
  {
    var b := new TaskBuilder.Create(d);
    t := b.Build();
  }

  /** `state` and `project` set their own field only (the tests
      `task_builder_change_state_works` and `task_builder_change_project_works`). */
  method BuildWithStateAndProject(d: string, state: State, project: string) returns (s: Task, p: Task)
    ensures s == Task(d, state, {}, "Inbox")
    ensures p == Task(d, ToDo, {}, project)
  {
    var b := new TaskBuilder.Create(d);
    b.WithState(state);
    s := b.Build();
    var c := new TaskBuilder.Create(d);
    c.WithProject(project);
    p := c.Build();
  }

  /** Chained `tag` calls accumulate their slugs (the test `task_builder_change_tag_works`
      is the one-tag case). */
  method BuildWithTwoTags(slug: Slugger, d: string, first: string, second: string) returns (one: Task, two: Task)
    ensures one == Task(d, ToDo, {slug(first)}, "Inbox")
    ensures two == Task(d, ToDo, {slug(first), slug(second)}, "Inbox")
  {
    var b := new TaskBuilder.Create(d);
    b.WithTag(slug, first);
    one := b.Build();
    b.WithTag(slug, second);
    two := b.Build();
  }

  /** The test `task_builder_change_tags_works`, with the two slugs it depends on. */
  method BuildWithTestTags(slug: Slugger) returns (t: Task)
    requires slug("Test 1") == "test-1" && slug("Test 2") == "test-2"
    ensures t == Task("This is a test", ToDo, {"test-1", "test-2"}, "Inbox")
  {
    var b := new TaskBuilder.Create("This is a test");
    b.WithTags(slug, ["Test 1", "Test 2"]);
    t := b.Build();
    assert t.tags == {"test-1", "test-2"} by {
      assert "Test 1" in ["Test 1", "Test 2"] && "Test 2" in ["Test 1", "Test 2"];
    }
  }

  /** The tests `add_tag_works` and `add_tags_works`, with the slugs they depend on. */
  method AddTagsToBuiltTask(slug: Slugger) returns (one: Task, three: Task)
    requires slug("Testing tags") == "testing-tags" && slug("another tag") == "another-tag"
    requires slug("Yet Another Tag") == "yet-another-tag"
    ensures one == Task("This is a test", ToDo, {"testing-tags"}, "Testing")
    ensures three == Task("This is a test", ToDo, {"testing-tags", "another-tag", "yet-another-tag"}, "Testing")
  {
    var b := new TaskBuilder.Create("This is a test");
    b.WithProject("Testing");
    var t := b.Build();
    one := t.AddTag(slug, "Testing tags");
    var ts := ["Testing tags", "another tag", "Yet Another Tag"];
    three := t.AddTags(slug, ts);
    assert three.tags == {"testing-tags", "another-tag", "yet-another-tag"} by {
      assert ts[0] in ts && ts[1] in ts && ts[2] in ts;
    }
  }

  /** `build` leaves the builder as it was: building twice gives equal tasks, and the builder
      can go on being changed afterwards. */
  method BuildTwice(slug: Slugger, d: string, tag: string, project: string) returns (t: Task, u: Task, w: Task)
    ensures t == u == Task(d, ToDo, {slug(tag)}, project)
    ensures w == Task(d, Done, {slug(tag)}, project)
  {
    var b := new TaskBuilder.Create(d);
    b.WithProject(project);
    b.WithTag(slug, tag);
    t := b.Build();
    u := b.Build();
    b.WithState(Done);
    w := b.Build();
  }

  // ---------------------------------------------------------------------------
  // Relation to the later revision
  // ---------------------------------------------------------------------------

  /** The same state under the later revision, matched by name. */
  function Upgraded(s: State): Tasks.State {
    match s
    case ToDo => Tasks.ToDo
    case Doing => Tasks.Doing
    case Done => Tasks.Done
    case Waiting => Tasks.Waiting
  }

  /** The same task under the later revision, given an id. */
  function Upgrade(t: Task, id: nat): Tasks.Task {
    Tasks.Task(id, t.description, Upgraded(t.state), t.tags, t.project)
  }

  /** The later revision only adds the id: every shared mutator commutes with giving a task an
      id, and for a fixed id no two tasks upgrade to the same one. */
  lemma UpgradeCommutes(t: Task, id: nat, slug: Slugger, tag: string, ts: seq<string>, d: string, s: State)
    ensures Upgrade(t.AddTag(slug, tag), id) == Upgrade(t, id).AddTag(slug, tag)
    ensures Upgrade(t.AddTags(slug, ts), id) == Upgrade(t, id).AddTags(slug, ts)
    ensures Upgrade(t.ChangeDescription(d), id) == Upgrade(t, id).ChangeDescription(d)
    ensures Upgrade(t.ChangeState(s), id) == Upgrade(t, id).ChangeState(Upgraded(s))
    ensures forall u: Task :: Upgrade(u, id) == Upgrade(t, id) ==> u == t
  {
  }
}
