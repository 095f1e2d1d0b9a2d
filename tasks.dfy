/** The task record of `lib-tasker`: `Task`, its `State`, the in-place mutators, and the
    `TaskBuilder` that `Task::create` returns. */
module Tasks {
  import opened Wrappers
  import opened Slugs
  import Vecs

  // ---------------------------------------------------------------------------
  // State
  // ---------------------------------------------------------------------------

  /** Progress of a task. `ToDo` is the `#[default]` variant. */
  datatype State = ToDo | Doing | Waiting | Done

  /** Position of a state in its declaration, which is what the derived `Ord` compares. */
  function Position(s: State): nat {
    match s
    case ToDo => 0
    case Doing => 1
    case Waiting => 2
    case Done => 3
  }

  /** `a <= b` under the derived `Ord`. */
  predicate StateLeq(a: State, b: State) {
    Position(a) <= Position(b)
  }

  /** The derived order is a total order (usable as a sort comparator) running
      ToDo < Doing < Waiting < Done. */
  lemma StateOrder()
    ensures Vecs.TotalPreorder(StateLeq)
    ensures forall a, b :: StateLeq(a, b) && StateLeq(b, a) ==> a == b
    ensures StateLeq(ToDo, Doing) && !StateLeq(Doing, ToDo)
    ensures StateLeq(Doing, Waiting) && !StateLeq(Waiting, Doing)
    ensures StateLeq(Waiting, Done) && !StateLeq(Done, Waiting)
  {
  }

  // ---------------------------------------------------------------------------
  // Task
  // ---------------------------------------------------------------------------

  /** One task. `Task` derives `Clone` and `PartialEq` and lives by value inside the
      collection's vector, so a mutator taking `&mut self` is modelled as a function from the
      task before to the task after. */
  datatype Task = Task(id: nat, description: string, state: State, tags: set<string>, project: string)
  {
    /** `add_tag`: inserts the slug of `tag`; nothing else changes. */
    function AddTag(slug: Slugger, tag: string): (t: Task)
      ensures t.tags == tags + {slug(tag)}
      ensures t.(tags := tags) == this
    {
      this.(tags := tags + {slug(tag)})
    }

    /** `add_tags`: `extend` inserts the slug of every tag, one after the other. */
    function AddTags(slug: Slugger, ts: seq<string>): (t: Task)
      ensures t.tags == tags + SlugImage(slug, ts)
      ensures t.(tags := tags) == this
      decreases |ts|
    {
      if ts == [] then this
      else
        assert ts == [ts[0]] + ts[1..];
        SlugImageAppend(slug, [ts[0]], ts[1..]);
        assert SlugImage(slug, [ts[0]]) == {slug(ts[0])};
        AddTag(slug, ts[0]).AddTags(slug, ts[1..])
    }

    /** `replace_tags`: the tag set becomes the slugs of `ts`, whatever it was. */
    function ReplaceTags(slug: Slugger, ts: seq<string>): (t: Task)
      ensures t.tags == SlugImage(slug, ts)
      ensures t.(tags := tags) == this
    {
      this.(tags := SlugImage(slug, ts))
    }

    /** `change_description`: no check on the new text, the empty string included. */
    function ChangeDescription(description: string): (t: Task)
      ensures t.description == description
      ensures t.(description := this.description) == this
    {
      this.(description := description)
    }

    /** `change_state`: any state may follow any state. */
    function ChangeState(state: State): (t: Task)
      ensures t.state == state
      ensures t.(state := this.state) == this
    {
      this.(state := state)
    }
  }

  /** Adding a tag whose slug is already present changes nothing. */
  lemma AddTagPresent(t: Task, slug: Slugger, tag: string)
    requires slug(tag) in t.tags
    ensures t.AddTag(slug, tag) == t
  {
    assert t.tags + {slug(tag)} == t.tags;
  }

  /** `add_tags` is the same as adding the tags one by one with `add_tag`, in any split. */
  lemma {:induction false} AddTagsSplit(t: Task, slug: Slugger, a: seq<string>, b: seq<string>)
    ensures t.AddTags(slug, a + b) == t.AddTags(slug, a).AddTags(slug, b)
  {
    SlugImageAppend(slug, a, b);
    assert t.AddTags(slug, a + b).tags == t.AddTags(slug, a).AddTags(slug, b).tags;
  }

  /** `replace_tags` forgets the old tags entirely: two tasks that differ only in their tags
      agree after the same replacement. */
  lemma ReplaceTagsForgets(t: Task, u: Task, slug: Slugger, ts: seq<string>)
    requires t.(tags := u.tags) == u
    ensures t.ReplaceTags(slug, ts) == u.ReplaceTags(slug, ts)
  {
  }

  // ---------------------------------------------------------------------------
  // TaskBuilder
  // ---------------------------------------------------------------------------

  /** The builder returned by `Task::create`. Its setters update it in place and return it
      for chaining; here chaining is a sequence of calls on the same object. */
  class TaskBuilder {
    var id: nat
    var description: string
    var state: State
    var tags: Option<set<string>>
    var project: Option<string>

    /** `Task::create(description)`: id 0, the default state, no tags, no project. */
    constructor Create(description: string)
      ensures id == 0 && this.description == description && state == ToDo
      ensures tags == None && project == None
    {
      id := 0;
      this.description := description;
      state := ToDo;
      tags := None;
      project := None;
    }

    /** `.id(id)` */
    method WithId(id: nat)
      modifies this`id
      ensures this.id == id
    {
      this.id := id;
    }

    /** `.state(state)` */
    method WithState(state: State)
      modifies this`state
      ensures this.state == state
    {
      this.state := state;
    }

    /** `.project(project)` */
    method WithProject(project: string)
      modifies this`project
      ensures this.project == Some(project)
    {
      this.project := Some(project);
    }

    /** `.tag(tag)`: adds one slug to the working set, creating the set on first use. */
    method WithTag(slug: Slugger, tag: string)
      modifies this`tags
      ensures tags == Some(old(tags).GetOr({}) + {slug(tag)})
    {
      if tags.None? {
        assert tags.GetOr({}) + {slug(tag)} == {slug(tag)};
        tags := Some({slug(tag)});
      } else {
        tags := Some(tags.value + {slug(tag)});
      }
    }

    /** `.tags(tags)`: replaces the working set, whatever it held, with the slugs of `ts`. */
    method WithTags(slug: Slugger, ts: seq<string>)
      modifies this`tags
      ensures tags == Some(SlugImage(slug, ts))
    {
      tags := Some(SlugImage(slug, ts));
    }

    /** `.build()`: copies the fields, with no tags and project "Inbox" for what was never set.
        It takes `&self`, so the builder is left as it was. */
    function Build(): (t: Task)
      reads this
      ensures t.id == id && t.description == description && t.state == state
      ensures t.tags == (if tags.Some? then tags.value else {})
      ensures t.project == (if project.Some? then project.value else "Inbox")
    {
      Task(id, description, state, tags.GetOr({}), project.GetOr("Inbox"))
    }
  }

  /** `Task::create(d).build()` is the default task. */
  method CreateBuildDefaults(d: string) returns (t: Task)
    ensures t == Task(0, d, ToDo, {}, "Inbox")
  {
    var b := new TaskBuilder.Create(d);
    t := b.Build();
  }

  /** The setters `id`, `state` and `project` each set their own field only, in any order. */
  method BuildWithFields(d: string, id: nat, state: State, project: string) returns (t: Task, u: Task)
    ensures t == Task(id, d, state, {}, project)
    ensures u == t
  {
    var b := new TaskBuilder.Create(d);
    b.WithId(id);
    b.WithState(state);
    b.WithProject(project);
    t := b.Build();
    var c := new TaskBuilder.Create(d);
    c.WithProject(project);
    c.WithState(state);
    c.WithId(id);
    u := c.Build();
  }

  /** Chained `tag` calls accumulate their slugs. */
  method BuildWithTwoTags(slug: Slugger, d: string, first: string, second: string) returns (t: Task)
    ensures t == Task(0, d, ToDo, {slug(first), slug(second)}, "Inbox")
  {
    var b := new TaskBuilder.Create(d);
    b.WithTag(slug, first);
    b.WithTag(slug, second);
    t := b.Build();
  }

  /** `tags` discards the tags set before it. */
  method BuildTagThenTags(slug: Slugger, d: string, first: string, ts: seq<string>) returns (t: Task)
    ensures t == Task(0, d, ToDo, SlugImage(slug, ts), "Inbox")
  {
    var b := new TaskBuilder.Create(d);
    b.WithTag(slug, first);
    b.WithTags(slug, ts);
    t := b.Build();
  }

  /** The unit test `task_builder_change_tags_works`, with the two slugs it depends on. */
  method BuildWithTestTags(slug: Slugger) returns (t: Task)
    requires slug("Test 1") == "test-1" && slug("Test 2") == "test-2"
    ensures t == Task(0, "This is a test", ToDo, {"test-1", "test-2"}, "Inbox")
  {
    var b := new TaskBuilder.Create("This is a test");
    b.WithTags(slug, ["Test 1", "Test 2"]);
    t := b.Build();
    assert t.tags == {"test-1", "test-2"} by {
      assert "Test 1" in ["Test 1", "Test 2"] && "Test 2" in ["Test 1", "Test 2"];
    }
  }

  /** The unit test `add_tags_works`: tags added to a built task, with the slugs it depends on. */
  method AddTagsToBuiltTask(slug: Slugger) returns (t: Task)
    requires slug("Testing tags") == "testing-tags" && slug("another tag") == "another-tag"
    requires slug("Yet Another Tag") == "yet-another-tag"
    ensures t == Task(0, "This is a test", ToDo, {"testing-tags", "another-tag", "yet-another-tag"}, "Testing")
  {
    var b := new TaskBuilder.Create("This is a test");
    b.WithProject("Testing");
    t := b.Build();
    var ts := ["Testing tags", "another tag", "Yet Another Tag"];
    t := t.AddTags(slug, ts);
    assert t.tags == {"testing-tags", "another-tag", "yet-another-tag"} by {
      assert ts[0] in ts && ts[1] in ts && ts[2] in ts;
    }
  }
}
