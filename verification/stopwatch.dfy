/**
 * stopwatch/stopwatch.go: a timer that records named, non-overlapping tasks
 * and reports each task's share of the total. The clock is not modelled: the
 * nanoseconds a task ran are handed to Stop.
 */
module Stopwatch {
  import opened Samples

  datatype TaskInfo = TaskInfo(taskName: string, taskElapsed: nat)

  /** The sum of the elapsed times of the recorded tasks. */
  function TotalOf(tasks: seq<TaskInfo>): nat
  {
    if tasks == [] then 0 else TotalOf(tasks[..|tasks| - 1]) + tasks[|tasks| - 1].taskElapsed
  }

  /** No single task took longer than all of them together. */
  lemma {:induction false} TaskWithinTotal(tasks: seq<TaskInfo>, i: nat)
    requires i < |tasks|
    ensures tasks[i].taskElapsed <= TotalOf(tasks)
  {
    if i < |tasks| - 1 {
      TaskWithinTotal(tasks[..|tasks| - 1], i);
    }
  }

  /** A task's share of the total in whole percent, truncated; 0 when nothing was timed. */
  function Percent(taskElapsed: nat, total: nat): nat
  {
    if total != 0 then taskElapsed * 100 / total else 0
  }

  /** A task that took no longer than the total gets a share between 0 and 100. */
  lemma PercentInRange(taskElapsed: nat, total: nat)
    requires taskElapsed <= total
    ensures Percent(taskElapsed, total) <= 100
  {
    if total != 0 {
      var q := taskElapsed * 100 / total;
      assert q * total <= taskElapsed * 100 <= 100 * total;
      FactorBound(q, 100, total);
    }
  }

  /** Dividing both sides by a positive factor keeps the order. */
  lemma FactorBound(a: int, b: int, c: int)
    requires c > 0 && a * c <= b * c
    ensures a <= b
  {
  }

  /**
   * A line of PrettyPrint's report: the short summary, the rule and the
   * column headings, then one row per task (milliseconds, percent, name).
   */
  datatype ReportLine =
    | Summary(id: string, totalMs: nat)
    | Rule
    | Headings
    | TaskRow(ms: nat, percent: nat, taskName: string)

  /** The report row of one recorded task. */
  function RowOf(t: TaskInfo, total: nat): ReportLine
  {
    TaskRow(t.taskElapsed / 1000000, Percent(t.taskElapsed, total), t.taskName)
  }

  const EmptyNameError := "task name must not be empty"
  const NotRunningError := "can not stop StopWatch: it's not running"

  function RunningError(current: string): string
  {
    "can not start new stopwatch, current task: " + current + " is running"
  }

  class StopWatch {
    var id: string
    /** The running task, or "" when the watch is idle. */
    var latestTaskName: string
    var taskList: seq<TaskInfo>
    var taskCnt: nat
    var totalElapsed: nat

    /** The count and the running total always agree with the task list. */
    ghost predicate Valid()
      reads this
    {
      taskCnt == |taskList| && totalElapsed == TotalOf(taskList)
    }

    predicate Running()
      reads this
    {
      latestTaskName != ""
    }

    /** New: an idle watch with no tasks. */
    constructor New(id: string)
      ensures Valid() && !Running()
      ensures this.id == id && taskList == [] && taskCnt == 0 && totalElapsed == 0
    {
      this.id := id;
      latestTaskName := "";
      taskList := [];
      taskCnt := 0;
      totalElapsed := 0;
    }

    /** Start: refuses an empty name and refuses to start while a task runs; then the named task runs. */
    method Start(taskName: string) returns (err: Error)
      requires Valid()
      modifies this
      ensures Valid()
      ensures err == if taskName == "" then Some(EmptyNameError)
                     else if old(latestTaskName) != "" then Some(RunningError(old(latestTaskName)))
                     else None
      ensures err.Some? ==> unchanged(this)
      ensures err.None? ==> latestTaskName == taskName && Running()
      ensures id == old(id) && taskList == old(taskList) && taskCnt == old(taskCnt)
      ensures totalElapsed == old(totalElapsed)
    {
      if taskName == "" {
        return Some(EmptyNameError);
      }
      if latestTaskName != "" {
        return Some(RunningError(latestTaskName));
      }
      latestTaskName := taskName;
      err := None;
    }

    /** MustStart panics when Start fails, so its callers must start an idle watch with a non-empty name. */
    method MustStart(taskName: string)
      requires Valid() && taskName != "" && !Running()
      modifies this
      ensures Valid() && latestTaskName == taskName
      ensures id == old(id) && taskList == old(taskList) && totalElapsed == old(totalElapsed)
    {
      var err := Start(taskName);
    }

    /** Stop: refuses when idle; otherwise records the running task with its elapsed time and goes idle. */
    method Stop(elapsed: nat) returns (err: Error)
      requires Valid()
      modifies this
      ensures Valid()
      ensures err == if old(latestTaskName) == "" then Some(NotRunningError) else None
      ensures err.Some? ==> unchanged(this)
      ensures err.None? ==>
        && taskList == old(taskList) + [TaskInfo(old(latestTaskName), elapsed)]
        && taskCnt == old(taskCnt) + 1
        && totalElapsed == old(totalElapsed) + elapsed
        && !Running()
      ensures id == old(id)
    {
      if latestTaskName == "" {
        return Some(NotRunningError);
      }
      totalElapsed := totalElapsed + elapsed;
      var lastTask := TaskInfo(latestTaskName, elapsed);
      assert (taskList + [lastTask])[..|taskList|] == taskList;
      taskList := taskList + [lastTask];
      taskCnt := taskCnt + 1;
      latestTaskName := "";
      err := None;
    }

    /** MustStop panics when Stop fails, so its callers must stop a running watch. */
    method MustStop(elapsed: nat)
      requires Valid() && Running()
      modifies this
      ensures Valid() && !Running()
      ensures taskList == old(taskList) + [TaskInfo(old(latestTaskName), elapsed)]
      ensures id == old(id) && totalElapsed == old(totalElapsed) + elapsed
    {
      var err := Stop(elapsed);
    }

    /** ShortSummary: the watch id and the total running time in whole milliseconds. */
    function ShortSummary(): (line: ReportLine)
      reads this
      ensures line.Summary? && line.id == id
      ensures line.totalMs * 1000000 <= totalElapsed < (line.totalMs + 1) * 1000000
    {
      Summary(id, totalElapsed / 1000000)
    }

    /**
     * PrettyPrint: the summary, a three-line heading, then one row per task in
     * the order the tasks were stopped, each with its truncated share of the total.
     */
    method PrettyPrint() returns (lines: seq<ReportLine>)
      requires Valid()
      ensures |lines| == 4 + |taskList|
      ensures lines[..4] == [ShortSummary(), Rule, Headings, Rule]
      ensures forall i :: 0 <= i < |taskList| ==>
        lines[4 + i] == RowOf(taskList[i], totalElapsed) && lines[4 + i].percent <= 100
    {
      lines := [ShortSummary(), Rule, Headings, Rule];
      for k := 0 to |taskList|
        invariant |lines| == 4 + k
        invariant lines[..4] == [ShortSummary(), Rule, Headings, Rule]
        invariant forall i :: 0 <= i < k ==>
          lines[4 + i] == RowOf(taskList[i], totalElapsed) && lines[4 + i].percent <= 100
      {
        var task := taskList[k];
        var percent := 0;
        if totalElapsed != 0 {
          percent := task.taskElapsed * 100 / totalElapsed;
        }
        TaskWithinTotal(taskList, k);
        PercentInRange(task.taskElapsed, totalElapsed);
        lines := lines + [TaskRow(task.taskElapsed / 1000000, percent, task.taskName)];
      }
    }

    /** Clear: forgets every task, the total, the running task and the id. */
    method Clear()
      modifies this
      ensures Valid() && !Running()
      ensures taskList == [] && totalElapsed == 0 && taskCnt == 0 && id == ""
    {
      taskList := [];
      totalElapsed := 0;
      latestTaskName := "";
      taskCnt := 0;
      id := "";
    }
  }
}
