# tasker, modelled in Dafny

tasker is a command-line to-do manager. Its data is a `ToDo` collection: an ordered vector of
`Task` records, each with
- a numeric id;
- a description;
- a `State` (ToDo, Doing, Waiting or Done);
- a set of slugged tags;
- a project, "Inbox" by default.

Tasks are made with a chained `TaskBuilder`. Every command loads the collection, changes it
in memory and saves it again.

This project models:
- the task record and its builder (`lib-tasker/src/todos/tasks.rs`), as modules `Tasks` and
  `Slugs`;
- the collection (`lib-tasker/src/todos/mod.rs`), as module `ToDos`;
- the in-memory step of the commands `add`, `add-multiple`, `clean`, `delete`, `edit` and
  `toggle` (`tasker-cli/src/execution/mod.rs`), as module `Execution`;
- the query engine (`tasker-cli/src/execution/helpers.rs`), as module `Helpers`. It covers:
  - `get_index`;
  - which tasks `list` shows, and in what order, under its four filters and four sort keys;
  - the default view grouped by project;
- the earlier id-less revision of the task record (`tasker-lib/src/todos/tasks.rs`), as module
  `LegacyTasks`;
- the command-line argument records and the `ToggleState` → `State` mapping
  (`tasker-cli/src/cli/interface.rs`), as module `Interface`.

The standard-library operations the code relies on are modelled once each:
- `Vec::retain`, `sort_unstable_by`, `Iterator::sorted` and `Itertools::unique_by`, in module
  `Vecs`;
- `to_lowercase`, `contains` and the order of `String`, in module `Text`.

The model follows the code's own form:
- `Task` is a value held in the vector, so its `&mut self` mutators are functions from the
  task before to the task after.
- `TaskBuilder` and `ToDo` are classes whose methods update their fields in place.
- The commands are methods that change a `ToDo` in place. Each method's `ensures` ties the new
  collection to a specification function of the old one. The lemmas beside them prove what the
  commands promise:
  - ids stay strictly ascending, hence unique;
  - unmatched ids are ignored;
  - toggling is idempotent;
  - an edit with nothing supplied is the identity;
  - `add-multiple` equals repeated `add`.
- Each `list` filter is a separate `retain` step on the local sequence, followed by an optional sort.

The external `str_slug::slug` is a parameter, `slug: string -> string`, of every operation
that uses it. No law about it is assumed. Facts such as `slug("Test 1") == "test-1"`, which
the unit tests depend on, appear only as preconditions of the members that model those tests.

The snapshot mixes revisions. `tasker-cli/src/cli/interface.rs` names the argument records
`AddTasks`, `ToggleTasks`, `EditTask`, `DeleteTasks`, `ListTasks` and `SortTasks`. The command
code imports them as `AddToDo`, `AddMultipleToDo`, `ToggleToDo`, `EditToDo`, `DeleteToDo`,
`ListToDo` and `SortToDo`, with one description for `add` and a list for `add-multiple`. The
model follows the command code's names and fields.

## Model

| member | source | states |
|---|---|---|
| Tasks.StateLeq | lib-tasker/src/todos/tasks.rs:14-32 | definition: the derived `Ord` of `State`, by declaration order; its properties are stated by `Tasks.StateOrder` |
| Tasks.StateOrder | lib-tasker/src/todos/tasks.rs:14-32 | the derived order of `State` is a total order (usable as a sort comparator), antisymmetric, with ToDo < Doing < Waiting < Done |
| Tasks.Task.AddTag | lib-tasker/src/todos/tasks.rs:45-47 | the tags become the old tags plus the slug of the tag; every other field is unchanged |
| Tasks.Task.AddTags | lib-tasker/src/todos/tasks.rs:49-55 | inserting the tags one by one leaves the old tags plus the slug image of the list; every other field is unchanged |
| Tasks.AddTagPresent | lib-tasker/src/todos/tasks.rs:45-47 | adding a tag whose slug is already present leaves the task equal to itself |
| Tasks.AddTagsSplit | lib-tasker/src/todos/tasks.rs:49-55 | `add_tags` of a concatenation equals `add_tags` of the first part followed by `add_tags` of the second |
| Tasks.Task.ReplaceTags | lib-tasker/src/todos/tasks.rs:57-62 | the tags become exactly the slug image of the list, whatever they were; no other field changes |
| Tasks.ReplaceTagsForgets | lib-tasker/src/todos/tasks.rs:57-62 | two tasks that differ only in their tags are equal after the same replacement |
| Tasks.Task.ChangeDescription | lib-tasker/src/todos/tasks.rs:64-66 | the description becomes the given text, empty text included; no other field changes |
| Tasks.Task.ChangeState | lib-tasker/src/todos/tasks.rs:68-70 | the state becomes the given one, from any state; no other field changes |
| Tasks.TaskBuilder.Create | lib-tasker/src/todos/tasks.rs:35-43 | a new builder has id 0, the description, state ToDo, no tag set and no project |
| Tasks.TaskBuilder.WithId | lib-tasker/src/todos/tasks.rs:83-86 | sets the id and may change no other field |
| Tasks.TaskBuilder.WithState | lib-tasker/src/todos/tasks.rs:88-91 | sets the state and may change no other field |
| Tasks.TaskBuilder.WithProject | lib-tasker/src/todos/tasks.rs:93-96 | sets the project and may change no other field |
| Tasks.TaskBuilder.WithTag | lib-tasker/src/todos/tasks.rs:98-109 | the working set becomes the previous set (empty when none yet) plus the slug of the tag |
| Tasks.TaskBuilder.WithTags | lib-tasker/src/todos/tasks.rs:111-118 | the working set becomes the slug image of the list, discarding any previous set |
| Tasks.TaskBuilder.Build | lib-tasker/src/todos/tasks.rs:120-132 | copies id, description and state; the tags are the working set or empty; the project is the one set or "Inbox"; the builder only reads itself |
| Tasks.CreateBuildDefaults | lib-tasker/src/todos/tasks.rs:139-153 | `create(d).build()` is id 0, description d, ToDo, no tags, project "Inbox" |
| Tasks.BuildWithFields | lib-tasker/src/todos/tasks.rs:83-96 | `id`, `state` and `project` each set their own field, and the order of the calls does not matter |
| Tasks.BuildWithTwoTags | lib-tasker/src/todos/tasks.rs:171-187 | chained `tag` calls accumulate both slugs |
| Tasks.BuildTagThenTags | lib-tasker/src/todos/tasks.rs:111-118 | `tags` after `tag` leaves only the slugs given to `tags` |
| Tasks.BuildWithTestTags | lib-tasker/src/todos/tasks.rs:189-209 | the test with tags "Test 1" and "Test 2" builds the task with tags {"test-1", "test-2"} |
| Tasks.AddTagsToBuiltTask | lib-tasker/src/todos/tasks.rs:245-265 | the test adding three tags to a built task with project "Testing" gives the three slugs |
| Slugs.SlugImage | lib-tasker/src/todos/tasks.rs:115-116 | collecting the slugs one tag at a time yields a set holding the slug of every listed tag and nothing else |
| Slugs.SlugImageAppend | lib-tasker/src/todos/tasks.rs:53-54 | the slug image of a concatenation is the union of the images |
| Slugs.SlugImageSize | lib-tasker/src/todos/tasks.rs:115-116 | the slug image has at most as many tags as the list |
| ToDos.ToDo.From | lib-tasker/src/todos/mod.rs:11-15 | the collection holds exactly the given tasks in the same order |
| ToDos.ToDo.Default | lib-tasker/src/todos/mod.rs:6-8 | the default collection has no tasks |
| ToDos.ToDo.AddTask | lib-tasker/src/todos/mod.rs:17-20 | the length grows by one, the task is last, every earlier task keeps its position |
| ToDos.AddTaskAfterFrom | lib-tasker/src/todos/mod.rs:27-44 | `from([a])` followed by `add_task(b)` holds `[a, b]` |
| Interface.ToState | tasker-cli/src/cli/interface.rs:133-142 | each toggle state becomes the state of the same name: naming the result gives back the toggle state |
| Interface.ToStateBijective | tasker-cli/src/cli/interface.rs:133-142 | the mapping from `ToggleState` to `State` is injective and every state is reached |
| Vecs.Retain | tasker-cli/src/execution/helpers.rs:55-78 | `retain` keeps exactly the elements the predicate accepts, and is no longer than its input |
| Vecs.RetainAtKeptPositions | tasker-cli/src/execution/helpers.rs:55-78 | `retain` yields the subsequence at exactly the accepted positions, in their original order |
| Vecs.RetainCount | tasker-cli/src/execution/helpers.rs:55-78 | every accepted element is kept as often as it occurs, every rejected one is dropped |
| Vecs.RetainRetain | tasker-cli/src/execution/helpers.rs:55-78 | two successive `retain` calls equal one `retain` with the conjunction |
| Vecs.RetainAll | tasker-cli/src/execution/helpers.rs:55-78 | a `retain` that accepts every element changes nothing |
| Vecs.RetainExt | tasker-cli/src/execution/mod.rs:185-187 | `retain` depends only on the verdicts on the elements present |
| Vecs.SortBy | tasker-cli/src/execution/helpers.rs:80-95 | the sorted vector is a permutation of the input |
| Vecs.SortByIsSorted | tasker-cli/src/execution/helpers.rs:80-95 | for a total preorder comparator the sorted vector is nondecreasing |
| Vecs.Unique | tasker-cli/src/execution/helpers.rs:114-118 | `unique_by` keeps every value present once and no other value |
| Vecs.DistinctPermutation | tasker-cli/src/execution/helpers.rs:114-119 | sorting a repetition-free list keeps it repetition-free |
| Text.Lower | tasker-cli/src/execution/helpers.rs:57-59 | lowering keeps the length, leaves no capital letter, turns each capital into its small letter and keeps every other character |
| Text.LowerIdempotent | tasker-cli/src/execution/helpers.rs:57-59 | lowering twice is lowering once |
| Text.ContainsIff | tasker-cli/src/execution/helpers.rs:56-60 | the containment scan holds exactly when the needle occurs at some position |
| Text.Contains | tasker-cli/src/execution/helpers.rs:59 | definition: `str::contains` as a scan over the start positions; its meaning is stated by `Text.ContainsIff` and `Text.ContainsEmpty` |
| Text.ContainsEmpty | tasker-cli/src/execution/helpers.rs:56-60 | every text contains the empty query |
| Text.LexLeq | tasker-cli/src/execution/helpers.rs:82-89 | definition: `Ord for String`, character by character with a proper prefix first; its order laws are stated by the four `Text.LexLeq…` lemmas |
| Text.LexLeqReflexive | tasker-cli/src/execution/helpers.rs:82-89 | the string order is reflexive |
| Text.LexLeqTotal | tasker-cli/src/execution/helpers.rs:82-89 | any two strings are comparable |
| Text.LexLeqAntisymmetric | tasker-cli/src/execution/helpers.rs:82-89 | strings that are each at most the other are equal |
| Text.LexLeqTransitive | tasker-cli/src/execution/helpers.rs:82-89 | the string order is transitive |
| Helpers.GetIndex | tasker-cli/src/execution/helpers.rs:11-13 | definition: one more than the id of the last task, 0 when there is none; that this id is unused and is max + 1 is stated by `Helpers.NextIdIsFresh` |
| Helpers.MaxIdIsMax | tasker-cli/src/execution/helpers.rs:11-13 | `MaxId` bounds every id and is the id of some task |
| Helpers.NextIdIsFresh | tasker-cli/src/execution/helpers.rs:11-13 | with ascending ids, `get_index` is above every id present and equals the largest id plus one |
| Helpers.AscendingIdsAreUnique | tasker-cli/src/execution/helpers.rs:11-13 | strictly ascending ids are pairwise different |
| Helpers.RetainKeepsIdsAscending | tasker-cli/src/execution/mod.rs:155 | any `retain` keeps ids strictly ascending |
| Helpers.MatchesText | tasker-cli/src/execution/helpers.rs:56-60 | a field matches exactly when the lowercased query occurs at some position of the lowercased field; an empty query matches every field |
| Helpers.TagsMeet | tasker-cli/src/execution/helpers.rs:67-70 | a task meets the tag filter exactly when one of the queried tags, as written, is among its tags |
| Helpers.PassesFirst | tasker-cli/src/execution/helpers.rs:55-78 | definition: the conjunction of the first n supplied filters, in the code's order; `Helpers.FilterStep`, `Helpers.Filter` and `Helpers.FiltersAreConjunctive` state what it means for the listing |
| Helpers.Comparator | tasker-cli/src/execution/helpers.rs:80-95 | definition: the four `sort_unstable_by` closures as "less or equal"; `Helpers.ComparatorIsTotalPreorder` states that each is a total preorder |
| Helpers.ComparatorIsTotalPreorder | tasker-cli/src/execution/helpers.rs:80-95 | each of the four sort comparators (lowercased description, lowercased project, id, state) is a total preorder |
| Helpers.FilterStep | tasker-cli/src/execution/helpers.rs:55-78 | applying the next filter, when supplied, to what passed the earlier ones leaves what passes all filters so far |
| Helpers.ApplyFilter | tasker-cli/src/execution/helpers.rs:55-78 | one `if let Some(..) { retain }` block extends the conjunction by its filter |
| Helpers.Filter | tasker-cli/src/execution/helpers.rs:55-78 | the four blocks leave exactly the tasks passing every supplied filter, in collection order |
| Helpers.OrderedIsListed | tasker-cli/src/execution/helpers.rs:80-95 | sorting the filtered tasks by the key gives the requested listing |
| Helpers.FilterAndSort | tasker-cli/src/execution/helpers.rs:52-99 | the options branch shows each task passing every supplied filter exactly as often as it occurs; in collection order without a key, nondecreasing in the key with one |
| Helpers.SortByStateOrder | tasker-cli/src/execution/helpers.rs:91-93 | four tasks with four different states sort by state as ToDo, Doing, Waiting, Done |
| Helpers.FiltersAreConjunctive | tasker-cli/src/execution/helpers.rs:55-78 | a task listed under the description and the other filters together is exactly one listed under each part alone |
| Helpers.GroupTasks | tasker-cli/src/execution/helpers.rs:121-129 | the loop over the sorted projects builds one group per project holding exactly the tasks that carry it |
| Helpers.ListTasks | tasker-cli/src/execution/helpers.rs:49-133 | with options, the requested listing; without, the groups of each sorted distinct project in turn |
| Helpers.SortedProjects | tasker-cli/src/execution/helpers.rs:114-119 | definition: `unique_by(project).map(project).sorted()`; `Helpers.GroupedProjectsAscend` and `Helpers.GroupedProjectsOccur` state that it lists each occurring project once, ascending |
| Helpers.GroupedProjectsAscend | tasker-cli/src/execution/helpers.rs:114-119 | the projects of the grouped view strictly ascend, so each is shown once |
| Helpers.GroupedProjectsOccur | tasker-cli/src/execution/helpers.rs:114-119 | the grouped view shows exactly the projects that occur in the collection |
| Helpers.FlattenCounts | tasker-cli/src/execution/helpers.rs:121-129 | over distinct projects, the groups together hold each task of a listed project as often as the collection does, and nothing else |
| Helpers.GroupedShowsEachTaskOnce | tasker-cli/src/execution/helpers.rs:114-129 | the grouped view is a permutation of the collection: every task appears exactly once |
| Helpers.GroupHoldsItsProject | tasker-cli/src/execution/helpers.rs:124-128 | each group holds exactly its project's tasks, in collection order |
| Execution.NewTask | tasker-cli/src/execution/mod.rs:61-75 | definition: the task `add` builds; `Execution.BuildTask` proves the builder chain yields it and `Execution.AddKeepsIdsAscending` that its id is unused |
| Execution.BuildTask | tasker-cli/src/execution/mod.rs:61-75 | the builder chain yields the given id and description, ToDo, the slug image of the tags or none, and the project or "Inbox" |
| Execution.AddTask | tasker-cli/src/execution/mod.rs:57-75 | `add` appends exactly one task built from the request with id `get_index` of the old collection |
| Execution.AppendNextKeepsIdsAscending | tasker-cli/src/execution/helpers.rs:11-13 | appending a task with the next id keeps ids ascending and raises the next id by one |
| Execution.AddKeepsIdsAscending | tasker-cli/src/execution/mod.rs:59-75 | `add` keeps ids strictly ascending, and the new id is used by no earlier task |
| Execution.NewTasks | tasker-cli/src/execution/mod.rs:104-129 | definition: the batch `add-multiple` appends; its shape is stated by `Execution.NewTasksShape` and its equivalence to repeated `add` by `Execution.AddMultipleIsRepeatedAdd` |
| Execution.NewTasksShape | tasker-cli/src/execution/mod.rs:104-129 | one task per description in input order, consecutive ids from the base, all with the same state, project and tags |
| Execution.AddMultipleIsRepeatedAdd | tasker-cli/src/execution/mod.rs:97-130 | `add-multiple` equals one `add` per description, in order, each taking the next id afresh |
| Execution.AddMultipleTasks | tasker-cli/src/execution/mod.rs:97-130 | the `extend` loop appends task i with id `get_index(old) + i` for every description |
| Execution.AddMultipleKeepsIdsAscending | tasker-cli/src/execution/mod.rs:100-129 | `add-multiple` keeps ids strictly ascending |
| Execution.NotDone | tasker-cli/src/execution/mod.rs:155 | definition: the `clean` closure, true of a task that is not Done; `Execution.CleanKeepsUnfinished` states what `clean` keeps |
| Execution.CleanCompletedTasks | tasker-cli/src/execution/mod.rs:155 | `clean` retains exactly the tasks that are not Done |
| Execution.CleanKeepsUnfinished | tasker-cli/src/execution/mod.rs:155 | after `clean` the unfinished tasks remain, each as often as before, and no Done task; cleaning twice is cleaning once; ids stay ascending |
| Execution.NotListed | tasker-cli/src/execution/mod.rs:185-187 | definition: the `delete` closure, true of a task whose id is not listed; `Execution.DeleteRemovesListed` and `Execution.DeleteIgnoresUnmatchedIds` state what `delete` keeps |
| Execution.DeleteTasks | tasker-cli/src/execution/mod.rs:185-187 | `delete` retains exactly the tasks whose id is not listed |
| Execution.DeleteIgnoresUnmatchedIds | tasker-cli/src/execution/mod.rs:185-187 | ids matching no task have no effect, alone or added to others |
| Execution.DeleteRemovesListed | tasker-cli/src/execution/mod.rs:185-187 | no listed id survives, every other task is kept as often as before, ids stay ascending |
| Execution.Toggled | tasker-cli/src/execution/mod.rs:276-280 | same length; each listed task takes the new state; every other field and every unlisted task is unchanged |
| Execution.ToggleTasks | tasker-cli/src/execution/mod.rs:270-280 | the in-place loop leaves the collection toggled as specified |
| Execution.ToggleLaws | tasker-cli/src/execution/mod.rs:276-280 | toggling is idempotent, the later of two toggles wins, and unmatched ids are ignored |
| Execution.ToggleKeepsIdsAscending | tasker-cli/src/execution/mod.rs:276-280 | `toggle` keeps ids strictly ascending |
| Execution.FirstWithId | tasker-cli/src/execution/mod.rs:212 | the position found carries the id and no earlier task does; none means no task carries it |
| Execution.Edited | tasker-cli/src/execution/mod.rs:213-228 | definition: the task after each supplied field is replaced; `Execution.EditLaws` states that an empty edit is the identity, editing twice is editing once and the id is kept |
| Execution.EditTask | tasker-cli/src/execution/mod.rs:209-236 | a missing id fails with "not found" and leaves the collection unchanged; otherwise only the first task with the id changes, to the edited task |
| Execution.EditLaws | tasker-cli/src/execution/mod.rs:213-229 | an edit supplying nothing is the identity, editing twice is editing once, the id never changes |
| Execution.EditKeepsIdsAscending | tasker-cli/src/execution/mod.rs:212-229 | with ascending ids the edited task is the only one with the id, and ids stay ascending |
| Execution.SessionSteps | tasker-cli/src/execution/mod.rs:152-207 | on concrete tasks, the toggle, clean and delete steps of a session give the stated collections |
| Execution.Session | tasker-cli/src/execution/mod.rs:57-207 | add "Buy milk", add "Call Bob" and "Call Alice" under "Calls", mark id 1 Done, clean, delete id 0: only task 2 "Call Alice" remains |
| LegacyTasks.Task.AddTag | tasker-lib/src/todos/tasks.rs:32-34 | the tags become the old tags plus the slug; description, state and project are unchanged |
| LegacyTasks.Task.AddTags | tasker-lib/src/todos/tasks.rs:36-39 | the tags become the old tags plus the slug image; the other fields are unchanged |
| LegacyTasks.Task.ChangeDescription | tasker-lib/src/todos/tasks.rs:41-43 | only the description changes |
| LegacyTasks.Task.ChangeState | tasker-lib/src/todos/tasks.rs:45-47 | only the state changes |
| LegacyTasks.TaskBuilder.Create | tasker-lib/src/todos/tasks.rs:23-30 | description given, state ToDo, no tag set, no project |
| LegacyTasks.TaskBuilder.WithState | tasker-lib/src/todos/tasks.rs:59-62 | sets the state only |
| LegacyTasks.TaskBuilder.WithProject | tasker-lib/src/todos/tasks.rs:64-67 | sets the project only |
| LegacyTasks.TaskBuilder.WithTag | tasker-lib/src/todos/tasks.rs:69-80 | the working set becomes the previous set (empty when none) plus the slug |
| LegacyTasks.TaskBuilder.WithTags | tasker-lib/src/todos/tasks.rs:82-85 | the working set becomes the slug image of the list |
| LegacyTasks.TaskBuilder.Build | tasker-lib/src/todos/tasks.rs:87-94 | copies the fields, with no tags and "Inbox" for what was never set, reading the builder only |
| LegacyTasks.CreateBuildDefaults | tasker-lib/src/todos/tasks.rs:101-114 | `create(d).build()` is description d, ToDo, no tags, project "Inbox" |
| LegacyTasks.BuildWithStateAndProject | tasker-lib/src/todos/tasks.rs:116-182 | `state` alone and `project` alone each show up in the built task, every other field at its default |
| LegacyTasks.BuildWithTwoTags | tasker-lib/src/todos/tasks.rs:131-146 | one `tag` call gives one slug, a second call accumulates |
| LegacyTasks.BuildWithTestTags | tasker-lib/src/todos/tasks.rs:148-167 | tags "Test 1" and "Test 2" build the task with tags {"test-1", "test-2"} |
| LegacyTasks.AddTagsToBuiltTask | tasker-lib/src/todos/tasks.rs:184-218 | `add_tag` and `add_tags` on a built task with project "Testing" give the expected slugs |
| LegacyTasks.BuildTwice | tasker-lib/src/todos/tasks.rs:87-94 | building twice gives equal tasks, and the builder can be changed and built again |
| LegacyTasks.UpgradeCommutes | tasker-lib/src/todos/tasks.rs:32-47 | every mutator shared with the later revision commutes with giving the task an id, and for a fixed id no two tasks upgrade to the same one |

## Left out

- Slugging: `str_slug::slug` belongs to an external crate. It is the parameter `slug`, with no properties assumed, so nothing is claimed about idempotence or collisions.
- Text.Lower: only ASCII letters are lowered. Rust's `to_lowercase` lowers all of Unicode, and the lowered length can differ from the input outside ASCII.
- Loading and saving the collection: file I/O, RON/TOML serialisation, directory lookup and configuration. A failed save, which makes a command return an error after the change in memory, is not modelled. No load/save round trip is claimed.
- Output: the coloured, English/Spanish text of `list` and of the command messages, the greeting, and the join order of tags, which depends on `HashSet` iteration.
- The `paths` command and `execute_application`'s dispatch: both are I/O only.
- Ids: `usize` is modelled as an unbounded natural. The wrap-around of `last.id + 1` at the top of the range is not covered.
- Vecs.SortBy: the library sort is unstable. The model is an insertion sort, and its contracts promise only a sorted permutation, so the order of ties is not modelled.
- Builder chaining returns `&mut Self`; here it is a sequence of calls on the same builder.
- `Task` values are updated in place through `&mut` in the source; the model replaces the element of the sequence with the updated value, which is the same observable change because tasks are never aliased.
- `tasker-cli/src/main.rs` and `tasker-cli/src/execution.rs`: an older entry point using rayon's parallel iterators and position-based toggling, superseded by the modelled commands.
- `tasker-lib/src/tasks/mod.rs`: its builder comes from the `derive_builder` macro, whose code is not part of this model.
- `tasker-lib/src/todos/mod.rs` and `tasker-lib/src/error.rs`: a bare collection struct and an error enum, with no logic beyond what `ToDos` covers.
- Command-line parsing: the clap declarations of `tasker-cli/src/cli/interface.rs` are the records of module `Interface`; the parsing itself is not modelled.
