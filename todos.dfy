/** The task collection of `lib-tasker`: `ToDo`, an ordered vector of tasks. */
module ToDos {
  import opened Tasks

  class ToDo {
    /** `tasks: Vec<Task>`, in file order. */
    var tasks: seq<Task>

    /** `ToDo::from(tasks)`: holds exactly `tasks`, in the same order. */
    constructor From(tasks: seq<Task>)
      ensures this.tasks == tasks
    {
      this.tasks := tasks;
    }

    /** `ToDo::default()`: no tasks. */
    constructor Default()
      ensures tasks == []
    {
      tasks := [];
    }

    /** `add_task`: pushes `task` at the end; every earlier task keeps its place. */
    method AddTask(task: Task)
      modifies this
      ensures tasks == old(tasks) + [task]
      ensures |tasks| == |old(tasks)| + 1 && tasks[|tasks| - 1] == task
      ensures forall i :: 0 <= i < |old(tasks)| ==> tasks[i] == old(tasks)[i]
    {
      tasks := tasks + [task];
    }
  }

  /** The unit test `add_task_works`: `from([a])` followed by `add_task(b)` holds `[a, b]`. */
  method AddTaskAfterFrom(a: Task, b: Task) returns (r: seq<Task>)
    ensures r == [a, b]
  {
    var todo := new ToDo.From([a]);
    todo.AddTask(b);
    r := todo.tasks;
  }
}
