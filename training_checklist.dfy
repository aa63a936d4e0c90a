/**
 * The checklist screen of one training instance: per-task status, the
 * local minute accounting around start / pause / complete, the progress
 * figures and which approval button the header offers.
 */
module TrainingChecklist {
  import opened Util
  import Card = TrainingInstanceCard

  datatype TaskStatus = Pending | InProgress | Completed | Skipped

  datatype TaskType = ChecklistTask | Quiz | Video | Roleplay

  /** A task as the screen holds it: the template task merged with its instance row. */
  datatype TrainingTask = TrainingTask(
    id: string,
    title: string,
    description: string,
    estimatedMinutes: int,
    isRequired: bool,
    orderIndex: int,
    taskType: TaskType,
    status: TaskStatus,
    completedAt: Option<int>,
    timeSpentMinutes: int,
    score: Option<int>)

  /** A training_instance_tasks row. */
  datatype InstanceTaskRow = InstanceTaskRow(
    instanceId: string,
    templateTaskId: string,
    status: TaskStatus,
    completedAt: Option<int>,
    timeSpentMinutes: int,
    score: Option<int>)

  // ---------------------------------------------------------------------
  // Progress
  // ---------------------------------------------------------------------

  function CompletedCount(tasks: seq<TrainingTask>): (n: nat)
    ensures n <= |tasks|
  {
    if tasks == [] then 0 else (if tasks[0].status == Completed then 1 else 0) + CompletedCount(tasks[1..])
  }

  /** `progressPercentage`: the rounded share of completed tasks, 0 without tasks. */
  function ProgressPercentage(tasks: seq<TrainingTask>): (r: int)
    ensures 0 <= r <= 100
    ensures tasks == [] ==> r == 0
    ensures tasks != [] ==> 2 * |tasks| * r <= 200 * CompletedCount(tasks) + |tasks| < 2 * |tasks| * (r + 1)
  {
    if |tasks| > 0 then
      PercentBounds(CompletedCount(tasks), |tasks|);
      RoundPercent(CompletedCount(tasks), |tasks|)
    else 0
  }

  /** `allTasksCompleted`: the completed count equals the total. */
  predicate AllTasksCompleted(tasks: seq<TrainingTask>) {
    CompletedCount(tasks) == |tasks|
  }

  /**
   * All tasks are completed exactly when every task has status completed:
   * true for an empty list, false as soon as one task is skipped.
   */
  lemma {:induction false} AllCompletedIff(tasks: seq<TrainingTask>)
    ensures AllTasksCompleted(tasks) <==> forall i :: 0 <= i < |tasks| ==> tasks[i].status == Completed
  {
    if tasks != [] {
      AllCompletedIff(tasks[1..]);
      assert forall i :: 1 <= i < |tasks| ==> tasks[i] == tasks[1..][i - 1];
    }
  }

  /** With every task completed the bar shows 100; with none completed it shows 0. */
  lemma ProgressEnds(tasks: seq<TrainingTask>)
    ensures AllTasksCompleted(tasks) && tasks != [] ==> ProgressPercentage(tasks) == 100
    ensures CompletedCount(tasks) == 0 ==> ProgressPercentage(tasks) == 0
  {
    if tasks != [] {
      PercentBounds(CompletedCount(tasks), |tasks|);
    }
  }

  /**
   * Rounding can show 100% before the list is done: with 200 or more
   * tasks and one still open, the bar reads 100 while the approval
   * controls stay hidden.
   */
  lemma RoundsUpToFull(tasks: seq<TrainingTask>)
    requires |tasks| >= 200 && CompletedCount(tasks) == |tasks| - 1
    ensures ProgressPercentage(tasks) == 100 && !AllTasksCompleted(tasks)
  {
    var n := |tasks|;
    var r := ProgressPercentage(tasks);
    assert 2 * n * r <= 200 * (n - 1) + n;
    assert 200 * (n - 1) + n < 2 * n * (r + 1);
    if r < 100 {
      MulMono(2 * n, r + 1, 100);
    }
  }

  // ---------------------------------------------------------------------
  // Task updates and minute accounting
  // ---------------------------------------------------------------------

  function FindTask(tasks: seq<TrainingTask>, id: string): (r: Option<nat>)
    ensures r.Some? ==> r.value < |tasks| && tasks[r.value].id == id
    ensures r.None? ==> forall j :: 0 <= j < |tasks| ==> tasks[j].id != id
  {
    if tasks == [] then None
    else if tasks[0].id == id then Some(0)
    else match FindTask(tasks[1..], id)
      case None => None
      case Some(k) => Some(k + 1)
  }

  /** The local task update on success: status, completion time (set iff completed) and minutes. */
  function MarkTask(t: TrainingTask, status: TaskStatus, now: int, minutes: int): TrainingTask {
    t.(status := status, completedAt := if status == Completed then Some(now) else None, timeSpentMinutes := minutes)
  }

  function MarkTasks(tasks: seq<TrainingTask>, id: string, status: TaskStatus, now: int, minutes: int): (r: seq<TrainingTask>)
    ensures |r| == |tasks|
    ensures forall i :: 0 <= i < |r| ==> r[i] == if tasks[i].id == id then MarkTask(tasks[i], status, now, minutes) else tasks[i]
  {
    seq(|tasks|, i requires 0 <= i < |tasks| =>
      if tasks[i].id == id then MarkTask(tasks[i], status, now, minutes) else tasks[i])
  }

  /** The backend write: the rows of this instance and template task get the new status, time and minutes. */
  function MarkRows(rows: seq<InstanceTaskRow>, instanceId: string, id: string, status: TaskStatus,
                    now: int, minutes: int): (r: seq<InstanceTaskRow>)
    ensures |r| == |rows|
    ensures forall i :: 0 <= i < |r| && (rows[i].instanceId != instanceId || rows[i].templateTaskId != id) ==> r[i] == rows[i]
    ensures forall i :: 0 <= i < |r| && rows[i].instanceId == instanceId && rows[i].templateTaskId == id ==>
              && r[i].instanceId == instanceId && r[i].templateTaskId == id && r[i].score == rows[i].score
              && r[i].status == status && r[i].timeSpentMinutes == minutes
              && (r[i].completedAt.Some? <==> status == Completed)
              && (r[i].completedAt.Some? ==> r[i].completedAt.value == now)
  {
    seq(|rows|, i requires 0 <= i < |rows| =>
      if rows[i].instanceId == instanceId && rows[i].templateTaskId == id then
        rows[i].(status := status, completedAt := if status == Completed then Some(now) else None,
                 timeSpentMinutes := minutes)
      else rows[i])
  }

  /** The minute counters the screen derives from its tasks (a later task with the same id wins). */
  function SpentFrom(tasks: seq<TrainingTask>): (m: map<string, int>)
    ensures forall id :: id in m <==> exists i :: 0 <= i < |tasks| && tasks[i].id == id
  {
    if tasks == [] then map[]
    else
      var n := |tasks| - 1;
      var m := SpentFrom(tasks[..n]);
      assert forall i :: 0 <= i < n ==> tasks[..n][i] == tasks[i];
      m[tasks[n].id := tasks[n].timeSpentMinutes]
  }

  /** A task whose id is unique has its own minutes as its counter. */
  lemma {:induction false} SpentFromUnique(tasks: seq<TrainingTask>, k: nat)
    requires k < |tasks|
    requires forall j :: 0 <= j < |tasks| && j != k ==> tasks[j].id != tasks[k].id
    ensures tasks[k].id in SpentFrom(tasks) && SpentFrom(tasks)[tasks[k].id] == tasks[k].timeSpentMinutes
    decreases |tasks|
  {
    var n := |tasks| - 1;
    if k < n {
      SpentFromUnique(tasks[..n], k);
    }
  }

  /**
   * The minutes a status update writes: the task's counter (0 if none),
   * plus the whole minutes since its recorded start when it is being
   * completed.
   */
  function FinalMinutes(timeSpent: map<string, int>, startTimes: map<string, int>, id: string,
                        status: TaskStatus, now: int): (r: int)
    ensures status == Completed && id in startTimes ==>
              r - (if id in timeSpent then timeSpent[id] else 0) == WholeMinutes(now - startTimes[id])
    ensures !(status == Completed && id in startTimes) ==> r == (if id in timeSpent then timeSpent[id] else 0)
  {
    var base := if id in timeSpent then timeSpent[id] else 0;
    if status == Completed && id in startTimes then base + WholeMinutes(now - startTimes[id]) else base
  }

  /**
   * With the counters in step with the tasks, an update that does not
   * complete a running task writes back the task's own stored minutes,
   * and completing adds the elapsed whole minutes to them.
   */
  lemma StoredMinutesKept(tasks: seq<TrainingTask>, k: nat, startTimes: map<string, int>, status: TaskStatus, now: int)
    requires k < |tasks|
    requires forall j :: 0 <= j < |tasks| && j != k ==> tasks[j].id != tasks[k].id
    ensures var id := tasks[k].id;
            var r := FinalMinutes(SpentFrom(tasks), startTimes, id, status, now);
            && (!(status == Completed && id in startTimes) ==> r == tasks[k].timeSpentMinutes)
            && (status == Completed && id in startTimes ==>
                  r == tasks[k].timeSpentMinutes + WholeMinutes(now - startTimes[id]))
  {
    SpentFromUnique(tasks, k);
  }

  /**
   * Start then complete, with no pause between and the counters in step:
   * the completed task carries its stored minutes plus the whole minutes
   * between the two clock readings.
   */
  lemma StartThenComplete(tasks: seq<TrainingTask>, k: nat, startTimes: map<string, int>, t0: int, t1: int)
    requires k < |tasks|
    requires forall j :: 0 <= j < |tasks| && j != k ==> tasks[j].id != tasks[k].id
    ensures var id := tasks[k].id;
            var m0 := FinalMinutes(SpentFrom(tasks), startTimes, id, InProgress, t0);
            var started := MarkTasks(tasks, id, InProgress, t0, m0);
            FinalMinutes(SpentFrom(started), startTimes[id := t0], id, Completed, t1)
              == tasks[k].timeSpentMinutes + WholeMinutes(t1 - t0)
  {
    var id := tasks[k].id;
    StoredMinutesKept(tasks, k, startTimes, InProgress, t0);
    var m0 := FinalMinutes(SpentFrom(tasks), startTimes, id, InProgress, t0);
    var started := MarkTasks(tasks, id, InProgress, t0, m0);
    assert started[k].id == id && started[k].timeSpentMinutes == tasks[k].timeSpentMinutes;
    SpentFromUnique(started, k);
  }

  /**
   * After a successful update of one task the counters are rebuilt from
   * the tasks, so a minute count kept only in the counter of another task
   * (one that was paused since the last save) is replaced by that task's
   * stored minutes.
   */
  lemma ResyncDropsUnsaved(tasks: seq<TrainingTask>, k: nat, id: string, status: TaskStatus, now: int, minutes: int)
    requires k < |tasks| && tasks[k].id != id
    requires forall j :: 0 <= j < |tasks| && j != k ==> tasks[j].id != tasks[k].id
    ensures var after := SpentFrom(MarkTasks(tasks, id, status, now, minutes));
            tasks[k].id in after && after[tasks[k].id] == tasks[k].timeSpentMinutes
  {
    var marked := MarkTasks(tasks, id, status, now, minutes);
    assert marked[k] == tasks[k];
    SpentFromUnique(marked, k);
  }

  // ---------------------------------------------------------------------
  // Approval controls
  // ---------------------------------------------------------------------

  datatype Controls = Controls(approve: bool, requestApproval: bool)

  /**
   * The header buttons: shown only when every task is completed and the
   * instance status is completed; Approve when the screen may approve and
   * has an approve handler, Request Approval when it may not approve.
   */
  function ApprovalControls(tasks: seq<TrainingTask>, status: Card.InstanceStatus, canApprove: bool, hasApprove: bool): (r: Controls)
    ensures r.approve ==> AllTasksCompleted(tasks) && status == Card.Completed
    ensures r.requestApproval ==> AllTasksCompleted(tasks) && status == Card.Completed
    ensures !(r.approve && r.requestApproval)
  {
    var shown := AllTasksCompleted(tasks) && status == Card.Completed;
    Controls(shown && canApprove && hasApprove, shown && !canApprove)
  }

  /**
   * As the training page wires the screen (canApprove and the approve
   * handler both follow the viewer's leader flag), a leader gets exactly
   * Approve and anyone else exactly Request Approval once the controls show.
   */
  lemma ControlsAsWired(tasks: seq<TrainingTask>, status: Card.InstanceStatus, isLeader: bool)
    ensures var c := ApprovalControls(tasks, status, isLeader, isLeader);
            && (AllTasksCompleted(tasks) && status == Card.Completed ==> c.approve == isLeader && c.requestApproval == !isLeader)
            && (!(AllTasksCompleted(tasks) && status == Card.Completed) ==> !c.approve && !c.requestApproval)
  {
  }

  /**
   * The screen's status is the instance's stored status, and only a
   * request for approval sets it to completed, so an instance that is
   * assigned or in progress never offers Request Approval, however many
   * of its tasks are done.
   */
  lemma RequestNeedsCompletedStatus(tasks: seq<TrainingTask>, status: Card.InstanceStatus, isLeader: bool)
    requires status != Card.Completed
    ensures !ApprovalControls(tasks, status, isLeader, isLeader).requestApproval
  {
  }

  /** The screen of one instance, with its backend task table. */
  class Session {
    const instanceId: string
    var tasks: seq<TrainingTask>
    var activeTaskId: Option<string>
    /** Minutes per task id, as shown and as written by the next status update. */
    var timeSpent: map<string, int>
    /** Start time per running task id. */
    var startTimes: map<string, int>
    var rows: seq<InstanceTaskRow>

    /** The counters after the effect that runs whenever the task list changes. */
    predicate Synced()
      reads this
    {
      timeSpent == SpentFrom(tasks)
    }

    constructor (instanceId: string, tasks: seq<TrainingTask>, rows: seq<InstanceTaskRow>)
      ensures this.instanceId == instanceId && this.tasks == tasks && this.rows == rows
      ensures activeTaskId.None? && startTimes == map[]
      ensures Synced()
    {
      this.instanceId := instanceId;
      this.tasks := tasks;
      this.rows := rows;
      activeTaskId := None;
      startTimes := map[];
      timeSpent := SpentFrom(tasks);
    }

    /**
     * updateTaskStatus. An unknown id or a failed write changes nothing.
     * On success the rows and the tasks with that id take the new status,
     * completion time and minutes, the counters are rebuilt from the
     * tasks, and completing also clears the active task and that task's
     * start time.
     */
    method UpdateTaskStatus(id: string, status: TaskStatus, now: int, ok: bool)
      modifies this
      ensures FindTask(old(tasks), id).None? || !ok ==>
                tasks == old(tasks) && rows == old(rows) && timeSpent == old(timeSpent)
                && startTimes == old(startTimes) && activeTaskId == old(activeTaskId)
      ensures FindTask(old(tasks), id).Some? && ok ==>
                var minutes := FinalMinutes(old(timeSpent), old(startTimes), id, status, now);
                && tasks == MarkTasks(old(tasks), id, status, now, minutes)
                && rows == MarkRows(old(rows), instanceId, id, status, now, minutes)
                && Synced()
                && (status == Completed ==> activeTaskId.None? && startTimes == old(startTimes) - {id})
                && (status != Completed ==> activeTaskId == old(activeTaskId) && startTimes == old(startTimes))
    {
      if FindTask(tasks, id).None? {
        return;
      }
      var minutes := if id in timeSpent then timeSpent[id] else 0;
      if status == Completed && id in startTimes {
        minutes := minutes + WholeMinutes(now - startTimes[id]);
      }
      if !ok {
        return;
      }
      rows := MarkRows(rows, instanceId, id, status, now, minutes);
      tasks := MarkTasks(tasks, id, status, now, minutes);
      timeSpent := timeSpent[id := minutes];
      timeSpent := SpentFrom(tasks);
      if status == Completed {
        activeTaskId := None;
        startTimes := startTimes - {id};
      }
    }

    /** startTask: the task becomes active with its start time now, then its status is set to in progress. */
    method StartTask(id: string, now: int, ok: bool)
      modifies this
      ensures activeTaskId == Some(id) && startTimes == old(startTimes)[id := now]
      ensures FindTask(old(tasks), id).None? || !ok ==> tasks == old(tasks) && rows == old(rows) && timeSpent == old(timeSpent)
      ensures FindTask(old(tasks), id).Some? && ok ==>
                var minutes := if id in old(timeSpent) then old(timeSpent)[id] else 0;
                && tasks == MarkTasks(old(tasks), id, InProgress, now, minutes)
                && rows == MarkRows(old(rows), instanceId, id, InProgress, now, minutes)
                && Synced()
    {
      activeTaskId := Some(id);
      startTimes := startTimes[id := now];
      UpdateTaskStatus(id, InProgress, now, ok);
    }

    /**
     * pauseTask: a running task's counter grows by the whole minutes since
     * its start and its start time is dropped; the active task is cleared
     * either way. Nothing is written to the backend.
     */
    method PauseTask(id: string, now: int)
      modifies this
      ensures activeTaskId.None?
      ensures id in old(startTimes) ==>
                timeSpent == old(timeSpent)[id := (if id in old(timeSpent) then old(timeSpent)[id] else 0)
                                                   + WholeMinutes(now - old(startTimes)[id])]
                && startTimes == old(startTimes) - {id}
      ensures id !in old(startTimes) ==> timeSpent == old(timeSpent) && startTimes == old(startTimes)
      ensures tasks == old(tasks) && rows == old(rows)
    {
      if id in startTimes {
        var extra := WholeMinutes(now - startTimes[id]);
        timeSpent := timeSpent[id := (if id in timeSpent then timeSpent[id] else 0) + extra];
        startTimes := startTimes - {id};
      }
      activeTaskId := None;
    }
  }
}
