/** Pending computations. A `Task<T>` is an opaque handle that, when
    awaited, yields the value it completes with or the exception it faults
    with; nothing here schedules or starts work. */
module Tasks {
  import opened Prelude

  /** Where a task came from: one already completed by `Task.FromResult`, or
      one started by the caller, named by a number. */
  datatype TaskId = Completed | Started(n: nat)

  datatype Task<T> = Task(id: TaskId, result: Outcome<T>)

  /** `await t`: the value `t` completes with, or its exception rethrown. */
  function Await<T>(t: Task<T>): (o: Outcome<T>)
  {
    t.result
  }

  /** `Task.FromResult`: a task that has already completed with `v`. */
  function FromResult<T>(v: T): (t: Task<T>)
    ensures t.id == Completed && Await(t) == Returned(v)
  {
    Task(Completed, Returned(v))
  }

  /** Which of a combinator's two callbacks was invoked. */
  datatype Callback = OkCallback | ErrorCallback

  /** An observable step of an async combinator, in the order it happens. */
  datatype Event = Invoked(callback: Callback) | Awaited(task: TaskId)
}
