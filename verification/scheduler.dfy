/** The task-scheduler engine of cloudferrylib/scheduler/scheduler.py.

    A scheduler walks a cursor of tasks, looks each task's kind up in its
    dispatch table, fires the start/end hooks around the executor and stops at
    the first task that raises (fail-fast).  The threaded scheduler adds a
    second task kind whose executor forks a child namespace, a child scheduler
    and a cursor over the task's own net, registers them in the CHILDREN
    registry and hands the child to an OS process.

    The cursor is a finite sequence of tasks.  A task's behaviour is given as
    data: the variables it writes into the namespace, or the exception it
    raises.  The hooks' log lines are recorded in the scheduler's `trace`. */
module Scheduler {
  import opened Common

  const NO_ERROR: int := 0
  const ERROR: int := 255

  type TaskId = string

  /** The two dispatch keys: `BaseTask()` and `WrapThreadTask()`. */
  datatype TaskKind = PlainTask | ThreadTask

  /** What calling a plain task does to the namespace it is given. */
  datatype TaskBody = Writes(updates: map<string, Value>) | Raises(message: string)

  /** A node of a task net; a thread task carries the net its child runs. */
  datatype Task = Task(id: TaskId, kind: TaskKind, body: TaskBody, net: seq<Task>)

  /** The bound methods stored in `map_func_task`. */
  datatype Executor = TaskRun | TaskRunThread

  /** What the scheduler reports while it runs, in order. */
  datatype Event =
    | TaskStarted(id: TaskId)               // event_start_task
    | TaskCalled(id: TaskId)                // task_run: task(namespace=...)
    | TaskForked(id: TaskId)                // task_run_thread: fork, then start
    | TaskEnded(id: TaskId)                 // event_end_task
    | TaskErrored(id: TaskId, error: Error) // error_task / event_error_task

  /** An OS process whose target is the given scheduler's start_current_thread. */
  datatype Process = Process(target: Scheduler)

  /** An entry of the CHILDREN registry. */
  datatype ChildRecord = ChildRecord(namespace: Namespace, scheduler: Scheduler, process: Option<Process>)

  /** The variable store behind a namespace, with its CHILDREN registry. */
  class Store {
    var vars: map<string, Value>
    var children: map<TaskId, ChildRecord>

    constructor (vars: map<string, Value>, children: map<TaskId, ChildRecord>)
      ensures this.vars == vars && this.children == children
    {
      this.vars := vars;
      this.children := children;
    }
  }

  class Namespace {
    const store: Store

    constructor (store: Store)
      ensures this.store == store
    {
      this.store := store;
    }

    /** `Namespace()`: empty variables, empty registry. */
    constructor Empty()
      ensures fresh(store) && store.vars == map[] && store.children == map[]
    {
      store := new Store(map[], map[]);
    }

    /** A plain fork shares the store with this namespace; a deep fork gets a
        copy that later writes on either side do not reach. */
    method Fork(isDeepCopy: bool) returns (ns: Namespace)
      ensures fresh(ns)
      ensures !isDeepCopy ==> ns.store == store
      ensures isDeepCopy ==> fresh(ns.store) && ns.store.vars == store.vars && ns.store.children == store.children
    {
      if isDeepCopy {
        var copy := new Store(store.vars, store.children);
        ns := new Namespace(copy);
      } else {
        ns := new Namespace(store);
      }
    }
  }

  /** The dispatch table a BaseScheduler builds for itself. */
  function BaseDispatch(): (d: map<TaskKind, Executor>)
    ensures d.Keys == {PlainTask} && d[PlainTask] == TaskRun
  {
    map[PlainTask := TaskRun]
  }

  /** The table of a SchedulerThread: the base entry plus the thread entry. */
  function ThreadDispatch(): (d: map<TaskKind, Executor>)
    ensures d.Keys == BaseDispatch().Keys + {ThreadTask}
    ensures d[PlainTask] == BaseDispatch()[PlainTask] && d[ThreadTask] == TaskRunThread
  {
    BaseDispatch()[ThreadTask := TaskRunThread]
  }

  /** The exception `run_task` lets escape for `t`, if any: a missing dispatch
      entry is a KeyError; a plain task fails when its body raises; forking
      never fails (the registry entry that start_separate_thread updates was
      written by fork into the shared store just before). */
  function Outcome(dispatch: map<TaskKind, Executor>, t: Task): (e: Option<Error>)
    ensures t.kind !in dispatch ==> e.Some?
    ensures t.kind in dispatch && dispatch[t.kind] == TaskRunThread ==> e.None?
    ensures t.kind in dispatch && dispatch[t.kind] == TaskRun ==> (e.Some? <==> t.body.Raises?)
  {
    if t.kind !in dispatch then Some(KeyError(t.id))
    else match dispatch[t.kind]
      case TaskRun => if t.body.Raises? then Some(TaskFailure(t.body.message)) else None
      case TaskRunThread => None
  }

  /** The hook events `run_task(t)` produces before it returns or raises. */
  function TaskEvents(dispatch: map<TaskKind, Executor>, t: Task): seq<Event>
  {
    if t.kind !in dispatch then [TaskStarted(t.id)]
    else match dispatch[t.kind]
      case TaskRun =>
        [TaskStarted(t.id), TaskCalled(t.id)] + (if t.body.Raises? then [] else [TaskEnded(t.id)])
      case TaskRunThread => [TaskStarted(t.id), TaskForked(t.id), TaskEnded(t.id)]
  }

  /** Index of the first task of `tasks` that raises, or |tasks|. */
  function FirstFailure(dispatch: map<TaskKind, Executor>, tasks: seq<Task>): (k: nat)
    ensures k <= |tasks|
    ensures k < |tasks| ==> Outcome(dispatch, tasks[k]).Some?
  {
    if tasks == [] then 0
    else if Outcome(dispatch, tasks[0]).Some? then 0
    else 1 + FirstFailure(dispatch, tasks[1..])
  }

  /** What one pass of the scheduler has produced so far: the hook trace, the
      namespace variables and the task ids registered in CHILDREN. */
  datatype RunState = RunState(trace: seq<Event>, vars: map<string, Value>, registered: set<TaskId>)

  /** The state after `run_task(t)` returns or raises: its hook events; the
      writes of a plain task that completes; the id of a forked thread task. */
  function Step(dispatch: map<TaskKind, Executor>, s: RunState, t: Task): RunState
  {
    RunState(s.trace + TaskEvents(dispatch, t), s.vars + Writes(dispatch, t), s.registered + ForkedId(dispatch, t))
  }

  function Writes(dispatch: map<TaskKind, Executor>, t: Task): map<string, Value>
  {
    if t.kind in dispatch && dispatch[t.kind] == TaskRun && t.body.Writes? then t.body.updates else map[]
  }

  function ForkedId(dispatch: map<TaskKind, Executor>, t: Task): set<TaskId>
  {
    if t.kind in dispatch && dispatch[t.kind] == TaskRunThread then {t.id} else {}
  }

  /** The state after every task of `done` has run to completion, in order. */
  function Completed(dispatch: map<TaskKind, Executor>, s: RunState, done: seq<Task>): RunState
  {
    if done == [] then s
    else Step(dispatch, Completed(dispatch, s, done[..|done| - 1]), done[|done| - 1])
  }

  /** One pass of `start` over `tasks`: every task up to the first failure
      completes; the failing one is reported to error_task and ends the pass. */
  function RunFrom(dispatch: map<TaskKind, Executor>, s: RunState, tasks: seq<Task>): RunState
  {
    var k := FirstFailure(dispatch, tasks);
    var done := Completed(dispatch, s, tasks[..k]);
    if k < |tasks| then Failed(dispatch, done, tasks[k]) else done
  }

  /** The state after `t` raised and went to error_task. */
  function Failed(dispatch: map<TaskKind, Executor>, s: RunState, t: Task): RunState
    requires Outcome(dispatch, t).Some?
  {
    var after := Step(dispatch, s, t);
    after.(trace := after.trace + [TaskErrored(t.id, Outcome(dispatch, t).value)])
  }

  class Scheduler {
    const namespace: Namespace
    var statusError: int
    var exception: Option<Error>
    var cursor: seq<Task>
    const dispatch: map<TaskKind, Executor>
    /** True for a SchedulerThread (and its subclass Scheduler). */
    const threaded: bool
    var childThreads: map<Option<TaskId>, bool>
    const threadTask: Option<Task>
    const parent: Scheduler?
    var trace: seq<Event>

    /** `BaseScheduler(namespace, cursor)`. */
    constructor Base(ns: Option<Namespace>, cursor: seq<Task>)
      ensures ns.Some? ==> namespace == ns.value
      ensures ns.None? ==> fresh(namespace) && fresh(namespace.store)
                           && namespace.store.vars == map[] && namespace.store.children == map[]
      ensures statusError == NO_ERROR && exception == None && this.cursor == cursor
      ensures dispatch == BaseDispatch() && !threaded
      ensures childThreads == map[] && threadTask == None && parent == null && trace == []
    {
      if ns.Some? {
        namespace := ns.value;
      } else {
        namespace := new Namespace.Empty();
      }
      statusError := NO_ERROR;
      exception := None;
      this.cursor := cursor;
      dispatch := BaseDispatch();
      threaded := false;
      childThreads := map[];
      threadTask := None;
      parent := null;
      trace := [];
    }

    /** `SchedulerThread(namespace, thread_task, cursor, scheduler_parent)`. */
    constructor Thread(ns: Option<Namespace>, threadTask: Option<Task>, cursor: seq<Task>, parent: Scheduler?)
      ensures ns.Some? ==> namespace == ns.value
      ensures ns.None? ==> fresh(namespace) && fresh(namespace.store)
                           && namespace.store.vars == map[] && namespace.store.children == map[]
      ensures statusError == NO_ERROR && exception == None && this.cursor == cursor
      ensures dispatch == ThreadDispatch() && threaded
      ensures childThreads == map[] && this.threadTask == threadTask && this.parent == parent && trace == []
    {
      if ns.Some? {
        namespace := ns.value;
      } else {
        namespace := new Namespace.Empty();
      }
      statusError := NO_ERROR;
      exception := None;
      this.cursor := cursor;
      dispatch := ThreadDispatch();
      threaded := true;
      childThreads := map[];
      this.threadTask := threadTask;
      this.parent := parent;
      trace := [];
    }

    /** The table matches the class the scheduler was built as. */
    predicate Valid() {
      dispatch == if threaded then ThreadDispatch() else BaseDispatch()
    }

    /** The key this scheduler uses in its parent's child_threads. */
    function ThreadKey(): Option<TaskId>
    {
      if threadTask.Some? then Some(threadTask.value.id) else None
    }

    /** The part of the scheduler and its store that a pass over the cursor changes. */
    function State(): RunState
      reads this, namespace.store
    {
      RunState(trace, namespace.store.vars, namespace.store.children.Keys)
    }

    function ParentFrame(): set<object>
    {
      if parent == null then {} else {parent}
    }

    method AddCursor(c: seq<Task>)
      modifies this
      ensures cursor == c
      ensures statusError == old(statusError) && exception == old(exception)
      ensures childThreads == old(childThreads) && trace == old(trace)
    {
      cursor := c;
    }

    method EventStartTask(t: Task) returns (proceed: bool)
      modifies this
      ensures proceed
      ensures trace == old(trace) + [TaskStarted(t.id)]
      ensures statusError == old(statusError) && exception == old(exception)
      ensures cursor == old(cursor) && childThreads == old(childThreads)
    {
      trace := trace + [TaskStarted(t.id)];
      proceed := true;
    }

    method EventEndTask(t: Task) returns (ok: bool)
      modifies this
      ensures ok
      ensures trace == old(trace) + [TaskEnded(t.id)]
      ensures statusError == old(statusError) && exception == old(exception)
      ensures cursor == old(cursor) && childThreads == old(childThreads)
    {
      trace := trace + [TaskEnded(t.id)];
      ok := true;
    }

    /** `error_task`: logs the failure and calls event_error_task, which
        returns True. */
    method ErrorTask(t: Task, e: Error) returns (ok: bool)
      modifies this
      ensures ok
      ensures trace == old(trace) + [TaskErrored(t.id, e)]
      ensures statusError == old(statusError) && exception == old(exception)
      ensures cursor == old(cursor) && childThreads == old(childThreads)
    {
      trace := trace + [TaskErrored(t.id, e)];
      ok := true;
    }

    /** `task_run`: call the task with this scheduler's own namespace. */
    method TaskRunExec(t: Task) returns (err: Option<Error>)
      modifies this, namespace.store
      ensures err == (if t.body.Raises? then Some(TaskFailure(t.body.message)) else None)
      ensures namespace.store.vars == if t.body.Writes? then old(namespace.store.vars) + t.body.updates
                                      else old(namespace.store.vars)
      ensures namespace.store.children == old(namespace.store.children)
      ensures trace == old(trace) + [TaskCalled(t.id)]
      ensures statusError == old(statusError) && exception == old(exception)
      ensures cursor == old(cursor) && childThreads == old(childThreads)
    {
      trace := trace + [TaskCalled(t.id)];
      match t.body
      case Writes(updates) =>
        namespace.store.vars := namespace.store.vars + updates;
        err := None;
      case Raises(message) =>
        err := Some(TaskFailure(message));
    }

    /** `fork`: a child namespace, a child scheduler of the same class over the
        task's net, and a `{namespace, scheduler, process: None}` entry under
        the task in this namespace's CHILDREN registry. */
    method Fork(t: Task, isDeepCopy: bool) returns (child: Scheduler)
      requires threaded
      modifies namespace.store
      ensures fresh(child) && fresh(child.namespace)
      ensures !isDeepCopy ==> child.namespace.store == namespace.store
      ensures isDeepCopy ==> fresh(child.namespace.store)
                             && child.namespace.store.vars == old(namespace.store.vars)
                             && child.namespace.store.children == old(namespace.store.children)
      ensures child.threaded && child.dispatch == ThreadDispatch() && child.Valid()
      ensures child.threadTask == Some(t) && child.parent == this && child.cursor == t.net
      ensures child.statusError == NO_ERROR && child.exception == None
      ensures child.childThreads == map[] && child.trace == []
      ensures namespace.store.children == old(namespace.store.children)[t.id := ChildRecord(child.namespace, child, None)]
      ensures namespace.store.vars == old(namespace.store.vars)
    {
      var ns := namespace.Fork(isDeepCopy);
      child := new Scheduler.Thread(Some(ns), Some(t), t.net, this);
      namespace.store.children := namespace.store.children[t.id := ChildRecord(ns, child, None)];
    }

    /** `start_separate_thread`: record a process running this scheduler under
        its own task in the registry; the process itself is not modelled. */
    method StartSeparateThread() returns (err: Option<Error>)
      requires threadTask.Some?
      modifies namespace.store
      ensures var id := threadTask.value.id;
              if id in old(namespace.store.children) then
                err == None &&
                namespace.store.children == old(namespace.store.children)[id := old(namespace.store.children)[id].(process := Some(Process(this)))]
              else
                err == Some(KeyError(id)) && namespace.store.children == old(namespace.store.children)
      ensures namespace.store.vars == old(namespace.store.vars)
    {
      var id := threadTask.value.id;
      if id in namespace.store.children {
        var entry := namespace.store.children[id];
        namespace.store.children := namespace.store.children[id := entry.(process := Some(Process(this)))];
        err := None;
      } else {
        err := Some(KeyError(id));
      }
    }

    /** `task_run_thread`: fork without deep copy and start the child, which
        (having a thread task) goes to its own process. */
    method TaskRunThreadExec(t: Task) returns (err: Option<Error>, child: Scheduler)
      requires threaded
      modifies this, namespace.store
      decreases 1, 0
      ensures err == None
      ensures fresh(child) && child.threadTask == Some(t) && child.parent == this && child.cursor == t.net
      ensures child.namespace.store == namespace.store
      ensures namespace.store.children == old(namespace.store.children)[t.id := ChildRecord(child.namespace, child, Some(Process(child)))]
      ensures namespace.store.vars == old(namespace.store.vars)
      ensures trace == old(trace) + [TaskForked(t.id)]
      ensures statusError == old(statusError) && exception == old(exception)
      ensures cursor == old(cursor) && childThreads == old(childThreads)
    {
      trace := trace + [TaskForked(t.id)];
      child := Fork(t, false);
      err := child.Start();
    }

    /** `run_task`: start hook, executor looked up by the task's kind, end hook.
        An executor that raises skips the end hook; so does a kind missing
        from the table (KeyError). */
    method RunTask(t: Task) returns (err: Option<Error>)
      requires Valid()
      modifies this, namespace.store
      decreases 1, 1
      ensures err == Outcome(dispatch, t)
      ensures State() == Step(dispatch, old(State()), t)
      ensures statusError == old(statusError) && exception == old(exception)
      ensures cursor == old(cursor) && childThreads == old(childThreads)
    {
      var proceed := EventStartTask(t);
      if proceed {
        if t.kind !in dispatch {
          err := Some(KeyError(t.id));
          return;
        }
        match dispatch[t.kind]
        case TaskRun =>
          err := TaskRunExec(t);
        case TaskRunThread =>
          var child;
          err, child := TaskRunThreadExec(t);
      }
      if err.Some? {
        return;
      }
      var _ := EventEndTask(t);
    }

    /** The body of the loop in `BaseScheduler.start`: run one task; when it
        raises, set ERROR, keep the exception and report it to error_task. */
    method TryRunTask(t: Task) returns (stop: bool)
      requires Valid()
      modifies this, namespace.store
      decreases 1, 2
      ensures stop <==> Outcome(dispatch, t).Some?
      ensures stop ==> statusError == ERROR && exception == Outcome(dispatch, t)
                       && State() == Failed(dispatch, old(State()), t)
      ensures !stop ==> statusError == old(statusError) && exception == old(exception)
                        && State() == Step(dispatch, old(State()), t)
      ensures cursor == old(cursor) && childThreads == old(childThreads)
    {
      var err := RunTask(t);
      stop := err.Some?;
      if stop {
        statusError := ERROR;
        exception := err;
        var _ := ErrorTask(t, err.value);
      }
    }

    /** `BaseScheduler.start`: run the cursor's tasks in order until the first
        one that raises. */
    method RunLoop()
      requires Valid()
      modifies this, namespace.store
      decreases 1, 3
      ensures var k := FirstFailure(dispatch, old(cursor));
              && statusError == (if k < |old(cursor)| then ERROR else old(statusError))
              && exception == (if k < |old(cursor)| then Outcome(dispatch, old(cursor)[k]) else old(exception))
      ensures State() == RunFrom(dispatch, old(State()), old(cursor))
      ensures cursor == old(cursor) && childThreads == old(childThreads)
    {
      ghost var start := State();
      ghost var tasks := cursor;
      var i := 0;
      while i < |cursor|
        invariant 0 <= i <= |tasks| && cursor == tasks
        invariant i <= FirstFailure(dispatch, tasks)
        invariant State() == Completed(dispatch, start, tasks[..i])
        invariant statusError == old(statusError) && exception == old(exception)
        invariant childThreads == old(childThreads)
      {
        PrefixStep(dispatch, start, tasks, i);
        var t := cursor[i];
        assert t == tasks[i];
        var stop := TryRunTask(t);
        if stop {
          RunFromAt(dispatch, start, tasks, i);
          return;
        }
        assert Outcome(dispatch, tasks[i]).None?;
        assert FirstFailure(dispatch, tasks) != i;
        i := i + 1;
      }
      RunFromAt(dispatch, start, tasks, i);
    }

    /** `SchedulerThread.start`: inline when there is no thread task, in a
        separate process otherwise. */
    method Start() returns (err: Option<Error>)
      requires Valid() && threaded && parent != this
      modifies this, namespace.store, ParentFrame()
      decreases if threadTask.None? then 1 else 0, 5
      ensures threadTask.Some? ==>
                var id := threadTask.value.id;
                && (err.None? <==> id in old(namespace.store.children))
                && (id in old(namespace.store.children) ==>
                      namespace.store.children == old(namespace.store.children)[id := old(namespace.store.children)[id].(process := Some(Process(this)))])
                && trace == old(trace) && statusError == old(statusError) && cursor == old(cursor)
                && childThreads == old(childThreads)
                && namespace.store.vars == old(namespace.store.vars)
                && (parent != null ==> unchanged(parent))
      ensures threadTask.None? ==>
                && err == None
                && State() == RunFrom(dispatch, old(State()), old(cursor))
                && statusError == (if FirstFailure(dispatch, old(cursor)) < |old(cursor)| then ERROR else old(statusError))
                && (parent != null ==> parent.childThreads == old(parent.childThreads) - {ThreadKey()})
    {
      if threadTask.None? {
        err := StartCurrentThread();
      } else {
        err := StartSeparateThread();
      }
    }

    /** `event_start_children`: mark the child's task as running. */
    method EventStartChildren(key: Option<TaskId>) returns (ok: bool)
      modifies this
      ensures ok && childThreads == old(childThreads)[key := true]
      ensures trace == old(trace) && statusError == old(statusError) && exception == old(exception)
      ensures cursor == old(cursor)
    {
      childThreads := childThreads[key := true];
      ok := true;
    }

    /** `event_stop_children`: `del child_threads[key]`, a KeyError when the key
        is missing. */
    method EventStopChildren(key: Option<TaskId>) returns (err: Option<Error>)
      modifies this
      ensures key in old(childThreads) ==> err == None && childThreads == old(childThreads) - {key}
      ensures key !in old(childThreads) ==> err.Some? && childThreads == old(childThreads)
      ensures trace == old(trace) && statusError == old(statusError) && exception == old(exception)
      ensures cursor == old(cursor)
    {
      if key in childThreads {
        childThreads := childThreads - {key};
        err := None;
      } else {
        err := Some(KeyError("child thread"));
      }
    }

    method TriggerStartScheduler()
      requires parent != this
      modifies ParentFrame()
      ensures parent != null ==> parent.childThreads == old(parent.childThreads)[ThreadKey() := true]
    {
      if parent != null {
        var _ := parent.EventStartChildren(ThreadKey());
      }
    }

    method TriggerStopScheduler() returns (err: Option<Error>)
      requires parent != this
      modifies ParentFrame()
      ensures parent == null ==> err == None
      ensures parent != null ==>
                if ThreadKey() in old(parent.childThreads) then
                  err == None && parent.childThreads == old(parent.childThreads) - {ThreadKey()}
                else
                  err.Some? && parent.childThreads == old(parent.childThreads)
    {
      err := None;
      if parent != null {
        err := parent.EventStopChildren(ThreadKey());
      }
    }

    /** `start_current_thread`: start trigger, the run loop, stop trigger.  The
        loop never raises, so the stop trigger also follows a failed task, and
        it removes exactly the entry the start trigger added. */
    method StartCurrentThread() returns (err: Option<Error>)
      requires Valid() && threaded && parent != this
      modifies this, namespace.store, ParentFrame()
      decreases 1, 4
      ensures err == None
      ensures State() == RunFrom(dispatch, old(State()), old(cursor))
      ensures statusError == (if FirstFailure(dispatch, old(cursor)) < |old(cursor)| then ERROR else old(statusError))
      ensures parent != null ==> parent.childThreads == old(parent.childThreads) - {ThreadKey()}
    {
      TriggerStartScheduler();
      RunLoop();
      err := TriggerStopScheduler();
    }
  }

  /** One more completed task extends the completed prefix by one step. */
  lemma PrefixStep(dispatch: map<TaskKind, Executor>, s: RunState, tasks: seq<Task>, i: nat)
    requires i < |tasks|
    ensures Completed(dispatch, s, tasks[..i + 1]) == Step(dispatch, Completed(dispatch, s, tasks[..i]), tasks[i])
  {
    assert tasks[..i + 1][..i] == tasks[..i];
  }

  lemma RunFromAt(dispatch: map<TaskKind, Executor>, s: RunState, tasks: seq<Task>, i: nat)
    requires i <= |tasks| && i <= FirstFailure(dispatch, tasks)
    requires i < |tasks| ==> Outcome(dispatch, tasks[i]).Some?
    ensures FirstFailure(dispatch, tasks) == i
    ensures i < |tasks| ==> RunFrom(dispatch, s, tasks) == Failed(dispatch, Completed(dispatch, s, tasks[..i]), tasks[i])
    ensures i == |tasks| ==> RunFrom(dispatch, s, tasks) == Completed(dispatch, s, tasks[..i])
  {
    if i < FirstFailure(dispatch, tasks) {
      BeforeFirstFailure(dispatch, tasks, i);
    }
  }

  /** Every task before the first failure completes. */
  lemma {:induction false} BeforeFirstFailure(dispatch: map<TaskKind, Executor>, tasks: seq<Task>, j: nat)
    requires j < FirstFailure(dispatch, tasks)
    ensures Outcome(dispatch, tasks[j]).None?
  {
    if j > 0 {
      BeforeFirstFailure(dispatch, tasks[1..], j - 1);
    }
  }

  /** `FirstFailure` is exactly the index of the first task that raises: i is
      that index iff every task before i completes and task i (if any) raises. */
  lemma {:induction false} FirstFailureIsFirst(dispatch: map<TaskKind, Executor>, tasks: seq<Task>, i: nat)
    ensures FirstFailure(dispatch, tasks) == i <==>
              && i <= |tasks|
              && (forall j :: 0 <= j < i ==> Outcome(dispatch, tasks[j]).None?)
              && (i < |tasks| ==> Outcome(dispatch, tasks[i]).Some?)
  {
    var k := FirstFailure(dispatch, tasks);
    if k == i {
      forall j | 0 <= j < i ensures Outcome(dispatch, tasks[j]).None? {
        BeforeFirstFailure(dispatch, tasks, j);
      }
    } else if i <= |tasks| && (forall j :: 0 <= j < i ==> Outcome(dispatch, tasks[j]).None?) {
      if k > i {
        BeforeFirstFailure(dispatch, tasks, i);
      }
    }
  }

  /** The hooks of one task: the start hook always fires first, and the end
      hook fires exactly when the task does not raise. */
  lemma HookPairing(dispatch: map<TaskKind, Executor>, t: Task)
    ensures |TaskEvents(dispatch, t)| >= 1 && TaskEvents(dispatch, t)[0] == TaskStarted(t.id)
    ensures TaskEnded(t.id) in TaskEvents(dispatch, t) <==> Outcome(dispatch, t).None?
    ensures forall e :: e in TaskEvents(dispatch, t) ==> e.id == t.id
  {
    var evs := TaskEvents(dispatch, t);
    if Outcome(dispatch, t).Some? {
      assert forall n :: 0 <= n < |evs| ==> evs[n] != TaskEnded(t.id);
    }
  }

  /** Every event of a completed prefix was already in the starting trace or
      names one of the prefix's tasks. */
  lemma {:induction false} EventsMention(dispatch: map<TaskKind, Executor>, s: RunState, done: seq<Task>, e: Event)
    requires e in Completed(dispatch, s, done).trace
    ensures e in s.trace || exists i :: 0 <= i < |done| && e.id == done[i].id
  {
    if done != [] {
      var init := done[..|done| - 1];
      var last := done[|done| - 1];
      if e in Completed(dispatch, s, init).trace {
        EventsMention(dispatch, s, init, e);
        if e !in s.trace {
          var i :| 0 <= i < |init| && e.id == init[i].id;
          assert e.id == done[i].id;
        }
      } else {
        HookPairing(dispatch, last);
        assert e.id == done[|done| - 1].id;
      }
    }
  }

  /** Fail-fast: when task j is the first to raise, nothing after it runs.
      The pass's trace ends with the error report of j, every event it adds
      names one of tasks 0..j, and only the writes of tasks before j reach
      the namespace. */
  lemma FailFast(dispatch: map<TaskKind, Executor>, s: RunState, tasks: seq<Task>, j: nat)
    requires j < |tasks|
    requires forall i :: 0 <= i < j ==> Outcome(dispatch, tasks[i]).None?
    requires Outcome(dispatch, tasks[j]).Some?
    ensures var r := RunFrom(dispatch, s, tasks);
            && |r.trace| > 0 && r.trace[|r.trace| - 1] == TaskErrored(tasks[j].id, Outcome(dispatch, tasks[j]).value)
            && (forall e :: e in r.trace ==> e in s.trace || exists i :: 0 <= i <= j && e.id == tasks[i].id)
            && r.vars == Completed(dispatch, s, tasks[..j]).vars
  {
    FirstFailureIsFirst(dispatch, tasks, j);
    var done := Completed(dispatch, s, tasks[..j]);
    var r := RunFrom(dispatch, s, tasks);
    assert r.trace == done.trace + TaskEvents(dispatch, tasks[j]) + [TaskErrored(tasks[j].id, Outcome(dispatch, tasks[j]).value)];
    forall e | e in r.trace
      ensures e in s.trace || exists i :: 0 <= i <= j && e.id == tasks[i].id
    {
      if e in done.trace {
        EventsMention(dispatch, s, tasks[..j], e);
        if e !in s.trace {
          var i :| 0 <= i < j && e.id == tasks[..j][i].id;
          assert e.id == tasks[i].id;
        }
      } else {
        HookPairing(dispatch, tasks[j]);
        assert e.id == tasks[j].id;
      }
    }
  }

  /** When no task raises, the pass completes every task, and every task's
      end hook is in the trace. */
  lemma {:induction false} CompleteRun(dispatch: map<TaskKind, Executor>, s: RunState, tasks: seq<Task>)
    requires forall j :: 0 <= j < |tasks| ==> Outcome(dispatch, tasks[j]).None?
    ensures FirstFailure(dispatch, tasks) == |tasks|
    ensures RunFrom(dispatch, s, tasks) == Completed(dispatch, s, tasks)
    ensures forall j :: 0 <= j < |tasks| ==> TaskEnded(tasks[j].id) in RunFrom(dispatch, s, tasks).trace
  {
    FirstFailureIsFirst(dispatch, tasks, |tasks|);
    assert tasks[..|tasks|] == tasks;
    forall j | 0 <= j < |tasks| ensures TaskEnded(tasks[j].id) in Completed(dispatch, s, tasks).trace {
      EndedStays(dispatch, s, tasks, j);
    }
  }

  /** The end hook of a completing task j stays in the trace of any longer prefix. */
  lemma {:induction false} EndedStays(dispatch: map<TaskKind, Executor>, s: RunState, done: seq<Task>, j: nat)
    requires j < |done| && Outcome(dispatch, done[j]).None?
    ensures TaskEnded(done[j].id) in Completed(dispatch, s, done).trace
  {
    var init := done[..|done| - 1];
    if j == |done| - 1 {
      HookPairing(dispatch, done[j]);
    } else {
      assert init[j] == done[j];
      EndedStays(dispatch, s, init, j);
    }
  }

  /** A linear run of plain tasks: variable `x` ends up bound exactly when the
      initial namespace or some completed task binds it, to the value of the
      last task that wrote it. */
  lemma {:induction false} AppliedBinding(dispatch: map<TaskKind, Executor>, s: RunState, done: seq<Task>, x: string)
    requires PlainTask in dispatch && dispatch[PlainTask] == TaskRun
    requires forall i :: 0 <= i < |done| ==> done[i].kind == PlainTask && done[i].body.Writes?
    ensures x in Completed(dispatch, s, done).vars <==>
              (x in s.vars || exists i :: 0 <= i < |done| && x in done[i].body.updates)
    ensures forall i :: 0 <= i < |done| && x in done[i].body.updates
              && (forall l :: i < l < |done| ==> x !in done[l].body.updates)
              ==> Completed(dispatch, s, done).vars[x] == done[i].body.updates[x]
  {
    if done != [] {
      var init := done[..|done| - 1];
      var last := done[|done| - 1];
      AppliedBinding(dispatch, s, init, x);
      if x !in Completed(dispatch, s, done).vars {
        forall i | 0 <= i < |done| ensures x !in done[i].body.updates {
          if i < |done| - 1 {
            assert done[i] == init[i];
          }
        }
      }
      forall i | 0 <= i < |done| && x in done[i].body.updates
          && (forall l :: i < l < |done| ==> x !in done[l].body.updates)
        ensures Completed(dispatch, s, done).vars[x] == done[i].body.updates[x]
      {
        if i < |done| - 1 {
          assert done[i] == init[i];
          assert x !in last.body.updates;
          forall l | i < l < |init| ensures x !in init[l].body.updates {
            assert init[l] == done[l];
          }
        }
      }
      if x in Completed(dispatch, s, done).vars && x !in s.vars && x !in last.body.updates {
        var i :| 0 <= i < |init| && x in init[i].body.updates;
        assert done[i] == init[i];
      }
    }
  }

  /** The CHILDREN registry after a prefix holds the starting ids plus exactly
      the ids of the prefix's thread tasks. */
  lemma {:induction false} RegisteredForks(dispatch: map<TaskKind, Executor>, s: RunState, done: seq<Task>, x: TaskId)
    requires dispatch == ThreadDispatch()
    ensures x in Completed(dispatch, s, done).registered <==>
              (x in s.registered || exists i :: 0 <= i < |done| && done[i].kind == ThreadTask && done[i].id == x)
  {
    if done != [] {
      var init := done[..|done| - 1];
      RegisteredForks(dispatch, s, init, x);
      if exists i :: 0 <= i < |done| && done[i].kind == ThreadTask && done[i].id == x {
        var i :| 0 <= i < |done| && done[i].kind == ThreadTask && done[i].id == x;
        if i < |done| - 1 {
          assert init[i] == done[i];
        }
      }
      if exists i :: 0 <= i < |init| && init[i].kind == ThreadTask && init[i].id == x {
        var i :| 0 <= i < |init| && init[i].kind == ThreadTask && init[i].id == x;
        assert done[i] == init[i];
      }
    }
  }
}
