/**
 * The two-tier task dispatcher: a non-critical pool whose work may be dropped at
 * shutdown and a critical pool whose still-queued work is drained and run on the
 * disabling thread. Worker threads are not modelled as threads; `RunNext` is one
 * worker picking up one queued task, which the environment may call at any time
 * or never.
 */
module TaskProcessing {
  import opened Wrappers

  /** Severity of an error-handler entry: `L.WARN` or `L.ERROR`. */
  datatype Level = Warn | Error

  /**
   * A submitted unit of work: an identity, whether it is marked critical
   * (`CriticalRunnable` / `CriticalCallable`), and whether running it throws.
   */
  datatype Task = Task(id: nat, critical: bool, fails: bool)

  /** The handle returned by the callable forms of submission. */
  datatype Future = Future(taskId: nat)

  /** One executor: whether it has been shut down, and the tasks queued on it and not yet started. */
  datatype Pool = Pool(shutdown: bool, pending: seq<Task>)

  /** Lines written to the plugin logger and the error handler, in order. */
  datatype LogEntry =
    | TaskFailed(level: Level, taskId: nat)
    | DisabledProcessing(drained: nat)
    | DisabledProcessingComplete

  /** Why `enable` refuses to start. */
  datatype EnableError = NonCriticalShutDown | CriticalShutDown

  /**
   * The completion handler of the non-critical pool: the task's result passes
   * through unchanged, and a failure (and only a failure) is logged at WARN.
   */
  function ExceptionHandlerNonCritical<T>(t: T, failedTask: Option<nat>): (r: (T, seq<LogEntry>))
    ensures r.0 == t
    ensures r.1 == [] <==> failedTask.None?
    ensures forall e :: e in r.1 ==> e == TaskFailed(Warn, failedTask.value)
    ensures |r.1| <= 1
  {
    (t, if failedTask.Some? then [TaskFailed(Warn, failedTask.value)] else [])
  }

  /**
   * The completion handler of the critical pool: the task's result passes
   * through unchanged, and a failure (and only a failure) is logged at ERROR.
   */
  function ExceptionHandlerCritical<T>(t: T, failedTask: Option<nat>): (r: (T, seq<LogEntry>))
    ensures r.0 == t
    ensures r.1 == [] <==> failedTask.None?
    ensures forall e :: e in r.1 ==> e == TaskFailed(Error, failedTask.value)
    ensures |r.1| <= 1
  {
    (t, if failedTask.Some? then [TaskFailed(Error, failedTask.value)] else [])
  }

  /** What running `task` hands to a completion handler: its id when it threw, nothing otherwise. */
  function Failure(task: Task): (f: Option<nat>)
    ensures f.Some? <==> task.fails
    ensures f.Some? ==> f.value == task.id
  {
    if task.fails then Some(task.id) else None
  }

  /** The ids of `tasks`, in order: the trace of running them one after another. */
  function Ids(tasks: seq<Task>): (ids: seq<nat>)
    ensures |ids| == |tasks|
    ensures forall i :: 0 <= i < |tasks| ==> ids[i] == tasks[i].id
  {
    if tasks == [] then [] else Ids(tasks[..|tasks| - 1]) + [tasks[|tasks| - 1].id]
  }

  /**
   * The warnings logged while draining `tasks`: one WARN entry per failing task,
   * and nothing for a task that runs normally.
   */
  function DrainWarnings(tasks: seq<Task>): (log: seq<LogEntry>)
    ensures |log| <= |tasks|
    ensures forall e :: e in log ==> e.TaskFailed? && e.level == Warn
    ensures forall i :: 0 <= i < |tasks| && tasks[i].fails ==> TaskFailed(Warn, tasks[i].id) in log
    ensures log == [] <==> forall i :: 0 <= i < |tasks| ==> !tasks[i].fails
  {
    if tasks == [] then []
    else
      var last := tasks[|tasks| - 1];
      DrainWarnings(tasks[..|tasks| - 1]) + (if last.fails then [TaskFailed(Warn, last.id)] else [])
  }

  /** The positions of the tasks in `tasks` whose run fails. */
  function FailingPositions(tasks: seq<Task>): set<nat>
  {
    set i | 0 <= i < |tasks| && tasks[i].fails
  }

  /** Every warning of the drain belongs to a task of the drained list whose run fails. */
  lemma {:induction false} DrainWarningsSound(tasks: seq<Task>)
    ensures forall k :: 0 <= k < |DrainWarnings(tasks)| ==>
              exists i :: 0 <= i < |tasks| && tasks[i].fails && DrainWarnings(tasks)[k] == TaskFailed(Warn, tasks[i].id)
  {
    if tasks != [] {
      var n := |tasks| - 1;
      var front := tasks[..n];
      DrainWarningsSound(front);
      var log, frontLog := DrainWarnings(tasks), DrainWarnings(front);
      forall k | 0 <= k < |log|
        ensures exists i :: 0 <= i < |tasks| && tasks[i].fails && log[k] == TaskFailed(Warn, tasks[i].id)
      {
        if k < |frontLog| {
          assert log[k] == frontLog[k];
          var i :| 0 <= i < |front| && front[i].fails && frontLog[k] == TaskFailed(Warn, front[i].id);
          assert tasks[i] == front[i];
        } else {
          assert tasks[n].fails && log[k] == TaskFailed(Warn, tasks[n].id);
        }
      }
    } else {
      assert DrainWarnings(tasks) == [];
    }
  }

  /** Draining logs exactly one warning per failing task. */
  lemma {:induction false} DrainWarningsCount(tasks: seq<Task>)
    ensures |DrainWarnings(tasks)| == |FailingPositions(tasks)|
  {
    if tasks != [] {
      var n := |tasks| - 1;
      var front := tasks[..n];
      DrainWarningsCount(front);
      var added: set<nat> :=if tasks[n].fails then {n} else {};
      forall x ensures x in FailingPositions(tasks) <==> x in FailingPositions(front) + added {
        if 0 <= x < n { assert tasks[x] == front[x]; }
      }
      assert FailingPositions(tasks) == FailingPositions(front) + added;
      assert n !in FailingPositions(front);
      assert |DrainWarnings(tasks)| == |DrainWarnings(front)| + |added|;
    }
  }

  /** Draining `a` and then `b` logs `a`'s warnings first, then `b`'s: warnings come in task order. */
  lemma {:induction false} DrainWarningsAppend(a: seq<Task>, b: seq<Task>)
    ensures DrainWarnings(a + b) == DrainWarnings(a) + DrainWarnings(b)
    decreases |b|
  {
    if b != [] {
      var n := |b| - 1;
      assert (a + b)[..|a + b| - 1] == a + b[..n];
      DrainWarningsAppend(a, b[..n]);
    } else {
      assert a + b == a;
    }
  }

  /** The processing subsystem: both executors and what has been run and logged so far. */
  class Processing {
    var nonCritical: Pool
    var critical: Pool
    /** Ids of the task bodies executed so far, in execution order. */
    var ran: seq<nat>
    /** Everything written to the logger and the error handler, in order. */
    var log: seq<LogEntry>

    /** Every task the critical executor ever accepted, and those of them it has run. */
    ghost var criticalAccepted: seq<Task>
    ghost var criticalDone: seq<Task>

    /**
     * A shut-down critical executor holds no queued work, every task the
     * critical executor accepted has either run or is still queued, in order,
     * and every task recorded as run appears in the execution trace.
     */
    ghost predicate Valid()
      reads this
    {
      (critical.shutdown ==> critical.pending == []) &&
      criticalAccepted == criticalDone + critical.pending &&
      (forall t :: t in criticalDone ==> t.id in ran)
    }

    constructor ()
      ensures Valid()
      ensures nonCritical == Pool(false, []) && critical == Pool(false, [])
      ensures ran == [] && log == []
      ensures criticalAccepted == []
    {
      nonCritical := Pool(false, []);
      critical := Pool(false, []);
      ran := [];
      log := [];
      criticalAccepted := [];
      criticalDone := [];
    }

    /** `submit(Runnable)`: a critical task goes to the critical executor, any other to the non-critical one. */
    method Submit(task: Task)
      requires Valid()
      requires task.critical ==> !critical.shutdown
      modifies this
      ensures Valid()
      ensures task.critical ==> critical.pending == old(critical.pending) + [task] && nonCritical == old(nonCritical)
      ensures !task.critical && !old(nonCritical.shutdown) ==>
                nonCritical.pending == old(nonCritical.pending) + [task] && critical == old(critical)
      ensures !task.critical && old(nonCritical.shutdown) ==>
                nonCritical == old(nonCritical) && critical == old(critical)
      ensures nonCritical.shutdown == old(nonCritical.shutdown) && critical.shutdown == old(critical.shutdown)
      ensures criticalAccepted == old(criticalAccepted) + (if task.critical then [task] else [])
      ensures criticalDone == old(criticalDone)
      ensures ran == old(ran) && log == old(log)
    {
      if task.critical {
        SubmitCritical(task);
        return;
      }
      SubmitNonCritical(task);
    }

    /** `submitNonCritical(Runnable)`: queues the task unless the non-critical executor is shut down. */
    method SubmitNonCritical(task: Task)
      requires Valid()
      modifies this
      ensures Valid()
      ensures old(nonCritical.shutdown) ==> unchanged(this)
      ensures !old(nonCritical.shutdown) ==>
                nonCritical == Pool(false, old(nonCritical.pending) + [task])
      ensures critical == old(critical) && ran == old(ran) && log == old(log)
      ensures criticalAccepted == old(criticalAccepted) && criticalDone == old(criticalDone)
    {
      if nonCritical.shutdown {
        return;
      }
      nonCritical := nonCritical.(pending := nonCritical.pending + [task]);
    }

    /** `submitCritical(Runnable)`: queues the task on the critical executor. */
    method SubmitCritical(task: Task)
      requires Valid()
      requires !critical.shutdown
      modifies this
      ensures Valid()
      ensures critical == Pool(false, old(critical.pending) + [task])
      ensures criticalAccepted == old(criticalAccepted) + [task] && criticalDone == old(criticalDone)
      ensures nonCritical == old(nonCritical) && ran == old(ran) && log == old(log)
    {
      critical := critical.(pending := critical.pending + [task]);
      criticalAccepted := criticalAccepted + [task];
    }

    /** `submit(Callable)`: routes like `Submit`; the non-critical form yields `None` (null) when it drops the task. */
    method SubmitCallable(task: Task) returns (future: Option<Future>)
      requires Valid()
      requires task.critical ==> !critical.shutdown
      modifies this
      ensures Valid()
      ensures future == None <==> !task.critical && old(nonCritical.shutdown)
      ensures future != None ==> future == Some(Future(task.id))
      ensures task.critical ==> critical.pending == old(critical.pending) + [task] && nonCritical == old(nonCritical)
      ensures !task.critical && !old(nonCritical.shutdown) ==>
                nonCritical.pending == old(nonCritical.pending) + [task] && critical == old(critical)
      ensures !task.critical && old(nonCritical.shutdown) ==>
                nonCritical == old(nonCritical) && critical == old(critical)
      ensures nonCritical.shutdown == old(nonCritical.shutdown) && critical.shutdown == old(critical.shutdown)
      ensures criticalAccepted == old(criticalAccepted) + (if task.critical then [task] else [])
      ensures criticalDone == old(criticalDone)
      ensures ran == old(ran) && log == old(log)
    {
      if task.critical {
        var f := SubmitCriticalCallable(task);
        return Some(f);
      }
      future := SubmitNonCriticalCallable(task);
    }

    /** `submitNonCritical(Callable)`: returns null and queues nothing once the non-critical executor is shut down. */
    method SubmitNonCriticalCallable(task: Task) returns (future: Option<Future>)
      requires Valid()
      modifies this
      ensures Valid()
      ensures future == None <==> old(nonCritical.shutdown)
      ensures future != None ==> future == Some(Future(task.id))
      ensures old(nonCritical.shutdown) ==> unchanged(this)
      ensures !old(nonCritical.shutdown) ==>
                nonCritical == Pool(false, old(nonCritical.pending) + [task])
      ensures critical == old(critical) && ran == old(ran) && log == old(log)
      ensures criticalAccepted == old(criticalAccepted) && criticalDone == old(criticalDone)
    {
      if nonCritical.shutdown {
        return None;
      }
      nonCritical := nonCritical.(pending := nonCritical.pending + [task]);
      future := Some(Future(task.id));
    }

    /** `submitCritical(Callable)`: queues the task on the critical executor and returns its future. */
    method SubmitCriticalCallable(task: Task) returns (future: Future)
      requires Valid()
      requires !critical.shutdown
      modifies this
      ensures Valid()
      ensures future == Future(task.id)
      ensures critical == Pool(false, old(critical.pending) + [task])
      ensures criticalAccepted == old(criticalAccepted) + [task] && criticalDone == old(criticalDone)
      ensures nonCritical == old(nonCritical) && ran == old(ran) && log == old(log)
    {
      critical := critical.(pending := critical.pending + [task]);
      criticalAccepted := criticalAccepted + [task];
      future := Future(task.id);
    }

    /**
     * One worker of the chosen executor takes the oldest queued task and runs it;
     * its completion handler logs a failure at the executor's level. With nothing
     * queued, nothing happens.
     */
    method RunNext(fromCritical: bool) returns (started: bool)
      requires Valid()
      modifies this
      ensures Valid()
      ensures var pool := if fromCritical then old(critical) else old(nonCritical);
        && started == (pool.pending != [])
        && (!started ==> unchanged(this))
        && (started ==>
              var task := pool.pending[0];
              && ran == old(ran) + [task.id]
              && log == old(log) + (if !task.fails then []
                                    else [TaskFailed(if fromCritical then Error else Warn, task.id)])
              && (if fromCritical then critical == Pool(pool.shutdown, pool.pending[1..]) && nonCritical == old(nonCritical)
                  else nonCritical == Pool(pool.shutdown, pool.pending[1..]) && critical == old(critical)))
      ensures criticalAccepted == old(criticalAccepted)
    {
      var pool := if fromCritical then critical else nonCritical;
      if pool.pending == [] {
        return false;
      }
      var task := pool.pending[0];
      ran := ran + [task.id];
      var handled;
      if fromCritical {
        handled := ExceptionHandlerCritical(true, Failure(task));
        critical := critical.(pending := critical.pending[1..]);
        criticalDone := criticalDone + [task];
      } else {
        handled := ExceptionHandlerNonCritical(true, Failure(task));
        nonCritical := nonCritical.(pending := nonCritical.pending[1..]);
      }
      log := log + handled.1;
      started := true;
    }

    /** `enable`: refuses if the non-critical executor is shut down, else if the critical one is; changes nothing. */
    function Enable(): (r: Outcome<EnableError>)
      reads this
      ensures r == Pass <==> !nonCritical.shutdown && !critical.shutdown
      ensures nonCritical.shutdown ==> r == Fail(NonCriticalShutDown)
      ensures !nonCritical.shutdown && critical.shutdown ==> r == Fail(CriticalShutDown)
    {
      if nonCritical.shutdown then Fail(NonCriticalShutDown)
      else if critical.shutdown then Fail(CriticalShutDown)
      else Pass
    }

    /**
     * `disable`: shuts both executors down, takes the critical executor's queued
     * tasks and runs each once, in order, on the calling thread, logging a failing
     * one at WARN and carrying on. The number drained is reported first. Afterwards
     * every task the critical executor ever accepted has been run, by a worker or
     * by the drain, and `enable` fails.
     */
    method Disable()
      requires Valid()
      modifies this
      ensures Valid()
      ensures nonCritical == Pool(true, old(nonCritical.pending))
      ensures critical == Pool(true, [])
      ensures ran == old(ran) + Ids(old(critical.pending))
      ensures log == old(log) + [DisabledProcessing(|old(critical.pending)|)]
                     + DrainWarnings(old(critical.pending)) + [DisabledProcessingComplete]
      ensures criticalDone == criticalAccepted == old(criticalAccepted)
      ensures forall t :: t in criticalAccepted ==> t.id in ran
      ensures old(critical.shutdown) ==> ran == old(ran)
      ensures Enable() == Fail(NonCriticalShutDown)
    {
      nonCritical := nonCritical.(shutdown := true);
      var criticalTasks := critical.pending;
      critical := Pool(true, []);
      log := log + [DisabledProcessing(|criticalTasks|)];
      ghost var logBefore := log;
      ghost var doneBefore := criticalDone;
      for i := 0 to |criticalTasks|
        invariant ran == old(ran) + Ids(criticalTasks[..i])
        invariant log == logBefore + DrainWarnings(criticalTasks[..i])
        invariant criticalDone == doneBefore + criticalTasks[..i]
        invariant nonCritical == Pool(true, old(nonCritical.pending)) && critical == Pool(true, [])
        invariant criticalAccepted == old(criticalAccepted)
      {
        var task := criticalTasks[i];
        assert criticalTasks[..i + 1][..i] == criticalTasks[..i];
        ran := ran + [task.id];
        criticalDone := criticalDone + [task];
        if task.fails {
          log := log + [TaskFailed(Warn, task.id)];
        }
      }
      assert criticalTasks[..|criticalTasks|] == criticalTasks;
      log := log + [DisabledProcessingComplete];
    }
  }
}
