/** The typed arguments the command line hands to the commands. Parsing itself is left out;
    only the records and the mapping from `ToggleState` to `State` are modelled. */
module Interface {
  import opened Wrappers
  import Tasks

  /** The states a user can name on the command line. */
  datatype ToggleState = ToDo | Doing | Done | Waiting

  /** `From<ToggleState> for State`: each toggle state becomes the state of the same name. */
  function ToState(ts: ToggleState): (s: Tasks.State)
    ensures Naming(s) == ts
  {
    match ts
    case ToDo => Tasks.ToDo
    case Doing => Tasks.Doing
    case Done => Tasks.Done
    case Waiting => Tasks.Waiting
  }

  /** The toggle state naming `s`: the inverse of `ToState`. */
  function Naming(s: Tasks.State): ToggleState {
    match s
    case ToDo => ToDo
    case Doing => Doing
    case Waiting => Waiting
    case Done => Done
  }

  /** The mapping is a bijection: every state is named by exactly one toggle state. */
  lemma ToStateBijective()
    ensures forall a, b :: ToState(a) == ToState(b) ==> a == b
    ensures forall s :: ToState(Naming(s)) == s
    ensures forall ts :: Naming(ToState(ts)) == ts
  {
  }

  /** The sort keys of `list`. */
  datatype SortToDo = ByDescription | ByProject | ByState | ById

  /** Arguments of `add`. */
  datatype AddToDo = AddToDo(description: string, project: Option<string>, tag: Option<seq<string>>)

  /** Arguments of `add-multiple`. */
  datatype AddMultipleToDo = AddMultipleToDo(descriptions: seq<string>, project: Option<string>, tag: Option<seq<string>>)

  /** Arguments of `delete`: the ids to remove. */
  datatype DeleteToDo = DeleteToDo(tasks: seq<nat>)

  /** Arguments of `edit`: the id of the task and the fields to replace. */
  datatype EditToDo = EditToDo(
    task: nat,
    description: Option<string>,
    state: Option<ToggleState>,
    project: Option<string>,
    tags: Option<seq<string>>)

  /** Arguments of `toggle`: the new state and the ids it applies to. */
  datatype ToggleToDo = ToggleToDo(state: ToggleState, tasks: seq<nat>)

  /** Arguments of `list`: optional filters and an optional sort key. */
  datatype ListToDo = ListToDo(
    sortBy: Option<SortToDo>,
    description: Option<string>,
    state: Option<ToggleState>,
    tag: Option<seq<string>>,
    project: Option<string>)
}
