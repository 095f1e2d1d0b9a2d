/** The query side of the command line: the next id to assign, and which tasks `list`
    shows and in what order. The coloured, localised text it prints is left out. */
module Helpers {
  import opened Wrappers
  import opened Tasks
  import opened Text
  import opened Vecs
  import opened Interface

  // ---------------------------------------------------------------------------
  // get_index
  // ---------------------------------------------------------------------------

  /** `get_index`: one more than the id of the last task, or 0 for an empty collection. */
  function GetIndex(tasks: seq<Task>): nat {
    if tasks == [] then 0 else tasks[|tasks| - 1].id + 1
  }

  /** Ids strictly increase along the collection, as they do when every id comes from
      `GetIndex`. */
  ghost predicate IdsAscending(tasks: seq<Task>) {
    forall i, j :: 0 <= i < j < |tasks| ==> tasks[i].id < tasks[j].id
  }

  /** The largest id in a non-empty collection. */
  function MaxId(tasks: seq<Task>): nat
    requires tasks != []
  {
    if |tasks| == 1 then tasks[0].id
    else if tasks[0].id < MaxId(tasks[1..]) then MaxId(tasks[1..])
    else tasks[0].id
  }

  lemma {:induction false} MaxIdIsMax(tasks: seq<Task>)
    requires tasks != []
    ensures forall t :: t in tasks ==> t.id <= MaxId(tasks)
    ensures exists t :: t in tasks && t.id == MaxId(tasks)
  {
    assert tasks[0] in tasks;
    if |tasks| > 1 {
      MaxIdIsMax(tasks[1..]);
      assert tasks == [tasks[0]] + tasks[1..];
      var t :| t in tasks[1..] && t.id == MaxId(tasks[1..]);
      assert t in tasks;
    }
  }

  /** On an id-ordered collection the next id is above every id present (so it is unused),
      and it is `1 + max(ids)` when there is an id at all. */
  lemma NextIdIsFresh(tasks: seq<Task>)
    requires IdsAscending(tasks)
    ensures forall t :: t in tasks ==> t.id < GetIndex(tasks)
    ensures tasks != [] ==> GetIndex(tasks) == MaxId(tasks) + 1
  {
    if tasks != [] {
      MaxIdIsMax(tasks);
      var last := tasks[|tasks| - 1];
      forall t | t in tasks ensures t.id <= last.id {
        var i :| 0 <= i < |tasks| && tasks[i] == t;
      }
    }
  }

  /** Strictly increasing ids are pairwise different. */
  lemma AscendingIdsAreUnique(tasks: seq<Task>)
    requires IdsAscending(tasks)
    ensures forall i, j :: 0 <= i < |tasks| && 0 <= j < |tasks| && i != j ==> tasks[i].id != tasks[j].id
  {
  }

  /** `retain` keeps ids ascending, whatever it removes. */
  lemma {:induction false} RetainKeepsIdsAscending(tasks: seq<Task>, keep: Task -> bool)
    requires IdsAscending(tasks)
    ensures IdsAscending(Retain(tasks, keep))
  {
    if tasks != [] {
      RetainKeepsIdsAscending(tasks[1..], keep);
      var rest := Retain(tasks[1..], keep);
      if keep(tasks[0]) {
        var r := [tasks[0]] + rest;
        forall i, j | 0 <= i < j < |r| ensures r[i].id < r[j].id {
          if i == 0 {
            assert r[j] in tasks[1..];
          } else {
            assert r[i] == rest[i - 1] && r[j] == rest[j - 1];
          }
        }
      }
    }
  }

  // ---------------------------------------------------------------------------
  // list_tasks with options: filters
  // ---------------------------------------------------------------------------

  /** Case-insensitive containment: `field.to_lowercase().contains(&query.to_lowercase())`. */
  predicate MatchesText(field: string, query: string)
    ensures MatchesText(field, query) ==> exists i :: OccursAt(Lower(field), Lower(query), i)
    ensures (exists i :: OccursAt(Lower(field), Lower(query), i)) ==> MatchesText(field, query)
    ensures query == [] ==> MatchesText(field, query)
  {
    var hay, needle := Lower(field), Lower(query);
    ContainsIff(hay, needle);
    ContainsEmpty(hay);
    Contains(hay, needle)
  }

  /** The tag filter: the task has at least one of the queried tags. The query is compared
      as written, without slugging. */
  predicate TagsMeet(tags: set<string>, query: seq<string>)
    ensures TagsMeet(tags, query) <==> exists q :: q in query && q in tags
  {
    var hit := tags * (set q | q in query);
    assert forall q :: q in query && q in tags ==> q in hit;
    hit != {}
  }

  function DescriptionFilter(query: string): Task -> bool {
    (t: Task) => MatchesText(t.description, query)
  }

  function StateFilter(state: State): Task -> bool {
    (t: Task) => t.state == state
  }

  function TagFilter(query: seq<string>): Task -> bool {
    (t: Task) => TagsMeet(t.tags, query)
  }

  function ProjectFilter(query: string): Task -> bool {
    (t: Task) => MatchesText(t.project, query)
  }

  /** The first `n` filters of `list` (description, state, tag, project, in the order the
      code applies them) accept `t`; a filter that was not supplied accepts everything. */
  predicate PassesFirst(opts: ListToDo, n: nat, t: Task) {
    && (n >= 1 && opts.description.Some? ==> MatchesText(t.description, opts.description.value))
    && (n >= 2 && opts.state.Some? ==> t.state == ToState(opts.state.value))
    && (n >= 3 && opts.tag.Some? ==> TagsMeet(t.tags, opts.tag.value))
    && (n >= 4 && opts.project.Some? ==> MatchesText(t.project, opts.project.value))
  }

  /** A task is listed when it passes every supplied filter. */
  predicate Selected(opts: ListToDo, t: Task) {
    PassesFirst(opts, 4, t)
  }

  function PassesFirstFilter(opts: ListToDo, n: nat): Task -> bool {
    (t: Task) => PassesFirst(opts, n, t)
  }

  // ---------------------------------------------------------------------------
  // list_tasks with options: sort
  // ---------------------------------------------------------------------------

  /** The comparator `sort_unstable_by` is given for each key, as "less or equal". */
  function Comparator(key: SortToDo): (Task, Task) -> bool {
    match key
    case ByDescription => (a: Task, b: Task) => LexLeq(Lower(a.description), Lower(b.description))
    case ByProject => (a: Task, b: Task) => LexLeq(Lower(a.project), Lower(b.project))
    case ById => (a: Task, b: Task) => a.id <= b.id
    case ByState => (a: Task, b: Task) => StateLeq(a.state, b.state)
  }

  /** Every comparator is a total preorder, as `sort_unstable_by` requires. */
  lemma ComparatorIsTotalPreorder(key: SortToDo)
    ensures TotalPreorder(Comparator(key))
  {
    var leq := Comparator(key);
    forall a, b ensures leq(a, b) || leq(b, a) {
      LexLeqTotal(Lower(a.description), Lower(b.description));
      LexLeqTotal(Lower(a.project), Lower(b.project));
    }
    forall a, b, c | leq(a, b) && leq(b, c) ensures leq(a, c) {
      match key
      case ByDescription =>
        LexLeqTransitive(Lower(a.description), Lower(b.description), Lower(c.description));
      case ByProject =>
        LexLeqTransitive(Lower(a.project), Lower(b.project), Lower(c.project));
      case ById =>
      case ByState =>
    }
  }

  /** What the options branch of `list_tasks` shows: exactly the tasks passing every supplied
      filter, each as often as in the collection; in collection order when no sort key is
      given, and otherwise nondecreasing in the key. */
  ghost predicate ListedAsRequested(tasks: seq<Task>, opts: ListToDo, shown: seq<Task>) {
    && multiset(shown) == multiset(Retain(tasks, PassesFirstFilter(opts, 4)))
    && (forall t :: t in shown <==> t in tasks && Selected(opts, t))
    && (opts.sortBy.None? ==> shown == Retain(tasks, PassesFirstFilter(opts, 4)))
    && (opts.sortBy.Some? ==> SortedBy(shown, Comparator(opts.sortBy.value)))
  }

  /** Whether the filter of step `n` (0 description, 1 state, 2 tag, 3 project) was supplied. */
  predicate Supplied(opts: ListToDo, n: nat) {
    if n == 0 then opts.description.Some?
    else if n == 1 then opts.state.Some?
    else if n == 2 then opts.tag.Some?
    else n == 3 && opts.project.Some?
  }

  /** The filter of step `n`, when supplied. */
  function StepFilter(opts: ListToDo, n: nat): Task -> bool
    requires Supplied(opts, n)
  {
    if n == 0 then DescriptionFilter(opts.description.value)
    else if n == 1 then StateFilter(ToState(opts.state.value))
    else if n == 2 then TagFilter(opts.tag.value)
    else ProjectFilter(opts.project.value)
  }

  /** One filtering step: applying filter `n` (when supplied) to what passed the filters
      before it leaves what passes the filters up to it. */
  lemma FilterStep(tasks: seq<Task>, opts: ListToDo, n: nat, before: seq<Task>, after: seq<Task>)
    requires n < 4 && before == Retain(tasks, PassesFirstFilter(opts, n))
    requires after == if Supplied(opts, n) then Retain(before, StepFilter(opts, n)) else before
    ensures after == Retain(tasks, PassesFirstFilter(opts, n + 1))
  {
    if Supplied(opts, n) {
      assert forall t :: PassesFirst(opts, n + 1, t) == (PassesFirst(opts, n, t) && StepFilter(opts, n)(t));
      RetainRetain(tasks, PassesFirstFilter(opts, n), StepFilter(opts, n), PassesFirstFilter(opts, n + 1));
    } else {
      assert forall t :: PassesFirst(opts, n + 1, t) == PassesFirst(opts, n, t);
      RetainExt(tasks, PassesFirstFilter(opts, n), PassesFirstFilter(opts, n + 1));
    }
  }

  /** One `if let Some(..) = filter { tasks.retain(..) }` block of `list_tasks`. */
  method ApplyFilter(tasks: seq<Task>, opts: ListToDo, n: nat, before: seq<Task>) returns (after: seq<Task>)
    requires n < 4 && before == Retain(tasks, PassesFirstFilter(opts, n))
    ensures after == Retain(tasks, PassesFirstFilter(opts, n + 1))
  {
    if Supplied(opts, n) {
      after := Retain(before, StepFilter(opts, n));
    } else {
      after := before;
    }
    FilterStep(tasks, opts, n, before, after);
  }

  /** The filtering half of the options branch of `list_tasks`: the description, state, tag
      and project filters in that order, each applied when supplied, leave exactly the tasks
      passing all of them, in collection order. */
  method Filter(tasks: seq<Task>, opts: ListToDo) returns (shown: seq<Task>)
    ensures shown == Retain(tasks, PassesFirstFilter(opts, 4))
  {
    RetainAll(tasks, PassesFirstFilter(opts, 0));
    shown := ApplyFilter(tasks, opts, 0, tasks);
    shown := ApplyFilter(tasks, opts, 1, shown);
    shown := ApplyFilter(tasks, opts, 2, shown);
    shown := ApplyFilter(tasks, opts, 3, shown);
  }

  /** The filtered tasks, sorted by the key when one is given. */
  function Ordered(opts: ListToDo, filtered: seq<Task>): seq<Task> {
    if opts.sortBy.Some? then SortBy(filtered, Comparator(opts.sortBy.value)) else filtered
  }

  /** Sorting the filtered tasks by the requested key gives the listing that was asked for. */
  lemma OrderedIsListed(tasks: seq<Task>, opts: ListToDo, filtered: seq<Task>)
    requires filtered == Retain(tasks, PassesFirstFilter(opts, 4))
    ensures ListedAsRequested(tasks, opts, Ordered(opts, filtered))
  {
    var shown := Ordered(opts, filtered);
    if opts.sortBy.Some? {
      ComparatorIsTotalPreorder(opts.sortBy.value);
      SortByIsSorted(filtered, Comparator(opts.sortBy.value));
    }
    assert multiset(shown) == multiset(filtered);
    forall t ensures t in shown <==> t in tasks && Selected(opts, t) {
      assert t in shown <==> t in multiset(shown);
      assert t in filtered <==> t in multiset(filtered);
    }
  }

  /** The options branch of `list_tasks`: the filters, then the optional sort. */
  method FilterAndSort(tasks: seq<Task>, opts: ListToDo) returns (shown: seq<Task>)
    ensures ListedAsRequested(tasks, opts, shown)
  {
    var filtered := Filter(tasks, opts);
    if opts.sortBy.Some? {
      shown := SortBy(filtered, Comparator(opts.sortBy.value));
    } else {
      shown := filtered;
    }
    OrderedIsListed(tasks, opts, filtered);
  }

  /** Sorting by state four tasks that carry four different states lists them as ToDo, Doing,
      Waiting, Done. */
  lemma SortByStateOrder(tasks: seq<Task>)
    requires |tasks| == 4
    requires forall i, j :: 0 <= i < j < 4 ==> tasks[i].state != tasks[j].state
    ensures var r := SortBy(tasks, Comparator(ByState));
      |r| == 4 && r[0].state == State.ToDo && r[1].state == State.Doing
      && r[2].state == State.Waiting && r[3].state == State.Done
  {
    var r := SortBy(tasks, Comparator(ByState));
    assert |r| == 4 by {
      assert |multiset(r)| == |multiset(tasks)|;
    }
    assert forall i, j :: 0 <= i < j < 4 ==> StateLeq(r[i].state, r[j].state) by {
      ComparatorIsTotalPreorder(ByState);
      SortByIsSorted(tasks, Comparator(ByState));
    }
    forall i, j | 0 <= i < j < 4 ensures r[i].state != r[j].state {
      DistinctPermutation(tasks, r);
      assert r[i] in multiset(tasks) && r[j] in multiset(tasks);
    }
    StateChain(r[0].state, r[1].state, r[2].state, r[3].state);
  }

  /** Four different states in nondecreasing order are the four states in order. */
  lemma StateChain(a: State, b: State, c: State, d: State)
    requires StateLeq(a, b) && StateLeq(b, c) && StateLeq(c, d)
    requires a != b && b != c && c != d
    ensures a == State.ToDo && b == State.Doing && c == State.Waiting && d == State.Done
  {
  }

  /** With two filters, the listing is exactly the tasks each filter alone would list. */
  lemma FiltersAreConjunctive(tasks: seq<Task>, opts: ListToDo, t: Task)
    ensures t in Retain(tasks, PassesFirstFilter(opts, 4)) <==>
      && t in Retain(tasks, PassesFirstFilter(opts.(state := None, tag := None, project := None), 4))
      && t in Retain(tasks, PassesFirstFilter(opts.(description := None), 4))
  {
  }

  // ---------------------------------------------------------------------------
  // list_tasks without options: grouped by project
  // ---------------------------------------------------------------------------

  datatype Group = Group(project: string, tasks: seq<Task>)

  /** What `list_tasks` shows: a flat listing, or the tasks grouped under their projects. */
  datatype View = Listed(tasks: seq<Task>) | Grouped(groups: seq<Group>)

  /** The project of every task, in collection order. */
  function Projects(tasks: seq<Task>): seq<string> {
    seq(|tasks|, i requires 0 <= i < |tasks| => tasks[i].project)
  }

  /** `unique_by(project).map(project).sorted()`: each project once, by `String` order. */
  function SortedProjects(tasks: seq<Task>): seq<string> {
    SortBy(Unique(Projects(tasks)), LexLeq)
  }

  function InProject(project: string): Task -> bool {
    (t: Task) => t.project == project
  }

  /** Under each project, the tasks that carry it, in collection order. */
  function GroupsFor(tasks: seq<Task>, projects: seq<string>): seq<Group> {
    seq(|projects|, i requires 0 <= i < |projects| => Group(projects[i], Retain(tasks, InProject(projects[i]))))
  }

  function GroupByProject(tasks: seq<Task>): seq<Group> {
    GroupsFor(tasks, SortedProjects(tasks))
  }

  /** All the tasks shown, group after group. */
  function Flatten(groups: seq<Group>): seq<Task> {
    if groups == [] then [] else groups[0].tasks + Flatten(groups[1..])
  }

  /** The `for project in projects` loop of the default view: one group per project, holding
      the tasks that carry it. */
  method GroupTasks(tasks: seq<Task>, projects: seq<string>) returns (groups: seq<Group>)
    ensures groups == GroupsFor(tasks, projects)
  {
    groups := [];
    for i := 0 to |projects|
      invariant |groups| == i
      invariant forall k :: 0 <= k < i ==> groups[k] == Group(projects[k], Retain(tasks, InProject(projects[k])))
    {
      groups := groups + [Group(projects[i], Retain(tasks, InProject(projects[i])))];
    }
  }

  /** `list_tasks`: the options branch, or the grouped view built project by project. */
  method ListTasks(tasks: seq<Task>, args: Option<ListToDo>) returns (view: View)
    ensures args.Some? ==> view.Listed? && ListedAsRequested(tasks, args.value, view.tasks)
    ensures args.None? ==> view == Grouped(GroupByProject(tasks))
  {
    if args.Some? {
      var shown := FilterAndSort(tasks, args.value);
      view := Listed(shown);
    } else {
      var projects := SortedProjects(tasks);
      var groups := GroupTasks(tasks, projects);
      view := Grouped(groups);
    }
  }

  /** The projects of the grouped view strictly ascend: sorted, and each shown once. */
  lemma GroupedProjectsAscend(tasks: seq<Task>)
    ensures var gs := GroupByProject(tasks);
      forall i, j :: 0 <= i < j < |gs| ==> LexLeq(gs[i].project, gs[j].project) && gs[i].project != gs[j].project
  {
    var ps := SortedProjects(tasks);
    assert TotalPreorder(LexLeq) by {
      forall a, b ensures LexLeq(a, b) || LexLeq(b, a) {
        LexLeqTotal(a, b);
      }
      forall a, b, c | LexLeq(a, b) && LexLeq(b, c) ensures LexLeq(a, c) {
        LexLeqTransitive(a, b, c);
      }
    }
    SortByIsSorted(Unique(Projects(tasks)), LexLeq);
    DistinctPermutation(Unique(Projects(tasks)), ps);
  }

  /** The grouped view shows exactly the projects that occur in the collection. */
  lemma GroupedProjectsOccur(tasks: seq<Task>)
    ensures forall p :: p in SortedProjects(tasks) <==> p in Projects(tasks)
  {
    var ps := SortedProjects(tasks);
    forall p ensures p in ps <==> p in Projects(tasks) {
      assert p in ps <==> p in multiset(ps);
      assert p in Unique(Projects(tasks)) <==> p in multiset(Unique(Projects(tasks)));
    }
  }

  /** With distinct projects, the groups hold every task whose project is listed, each
      exactly as often as in the collection, and nothing else. */
  lemma {:induction false} FlattenCounts(tasks: seq<Task>, projects: seq<string>, x: Task)
    requires Distinct(projects)
    ensures multiset(Flatten(GroupsFor(tasks, projects)))[x] == if x.project in projects then multiset(tasks)[x] else 0
  {
    if projects != [] {
      var gs := GroupsFor(tasks, projects);
      assert gs[1..] == GroupsFor(tasks, projects[1..]);
      assert Distinct(projects[1..]);
      FlattenCounts(tasks, projects[1..], x);
      RetainCount(tasks, InProject(projects[0]), x);
      assert Flatten(gs) == gs[0].tasks + Flatten(gs[1..]);
      assert x.project in projects <==> x.project == projects[0] || x.project in projects[1..];
      if x.project == projects[0] {
        assert x.project !in projects[1..];
      }
    }
  }

  /** Every task of the collection appears in the grouped view exactly once, and no other. */
  lemma GroupedShowsEachTaskOnce(tasks: seq<Task>)
    ensures multiset(Flatten(GroupByProject(tasks))) == multiset(tasks)
  {
    var ps := SortedProjects(tasks);
    DistinctPermutation(Unique(Projects(tasks)), ps);
    GroupedProjectsOccur(tasks);
    forall x ensures multiset(Flatten(GroupByProject(tasks)))[x] == multiset(tasks)[x] {
      FlattenCounts(tasks, ps, x);
      if x in tasks {
        var k :| 0 <= k < |tasks| && tasks[k] == x;
        assert Projects(tasks)[k] == x.project;
      }
    }
  }

  /** Each group holds exactly its project's tasks, in collection order. */
  lemma GroupHoldsItsProject(tasks: seq<Task>, i: nat)
    requires i < |GroupByProject(tasks)|
    ensures var g := GroupByProject(tasks)[i];
      && (forall t :: t in g.tasks <==> t in tasks && t.project == g.project)
      && g.tasks == Retain(tasks, InProject(g.project))
  {
  }
}
