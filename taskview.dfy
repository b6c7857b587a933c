/**
 * The task-view host of the car system UI: it keeps the set of live remote
 * task-view servers and, once the car service connects, removes the tasks
 * that were left over from a previous system UI process.
 */
module CarSystemUIProxy {

  /** android.app.WindowConfiguration.WINDOWING_MODE_MULTI_WINDOW. */
  const WINDOWING_MODE_MULTI_WINDOW: int := 6

  /** The part of a TaskAppearedInfo that the start-up cleanup reads. */
  datatype TaskInfo = TaskInfo(taskId: int, windowingMode: int)

  /** On a car, only task-view tasks run in multi-window mode. */
  predicate IsDanglingTask(t: TaskInfo)
  {
    t.windowingMode == WINDOWING_MODE_MULTI_WINDOW
  }

  /** The ids handed to ActivityTaskManager.removeTask, in the order of the task list. */
  function DanglingTaskIds(tasks: seq<TaskInfo>): seq<int>
  {
    if |tasks| == 0 then []
    else
      var last := tasks[|tasks| - 1];
      DanglingTaskIds(tasks[..|tasks| - 1]) + (if IsDanglingTask(last) then [last.taskId] else [])
  }

  predicate DistinctTaskIds(tasks: seq<TaskInfo>)
  {
    forall i, j :: 0 <= i < j < |tasks| ==> tasks[i].taskId != tasks[j].taskId
  }

  /** Every removal names a multi-window task of the list. */
  lemma {:induction false} DanglingTaskIdsSound(tasks: seq<TaskInfo>, k: int)
    requires 0 <= k < |DanglingTaskIds(tasks)|
    ensures exists j :: 0 <= j < |tasks| && IsDanglingTask(tasks[j]) && tasks[j].taskId == DanglingTaskIds(tasks)[k]
  {
    var n := |tasks|;
    var prefix := tasks[..n - 1];
    var rest := DanglingTaskIds(prefix);
    if k < |rest| {
      DanglingTaskIdsSound(prefix, k);
      var j :| 0 <= j < |prefix| && IsDanglingTask(prefix[j]) && prefix[j].taskId == rest[k];
      assert tasks[j] == prefix[j];
    } else {
      assert IsDanglingTask(tasks[n - 1]) && DanglingTaskIds(tasks)[k] == tasks[n - 1].taskId;
    }
  }

  /** Every multi-window task of the list is removed. */
  lemma {:induction false} DanglingTaskIdsComplete(tasks: seq<TaskInfo>, j: int)
    requires 0 <= j < |tasks| && IsDanglingTask(tasks[j])
    ensures tasks[j].taskId in DanglingTaskIds(tasks)
  {
    var n := |tasks|;
    var prefix := tasks[..n - 1];
    if j < n - 1 {
      assert tasks[j] == prefix[j];
      DanglingTaskIdsComplete(prefix, j);
    }
  }

  /**
   * With distinct task ids, the cleanup removes a task exactly when it is a
   * multi-window task: the other tasks are left alone.
   */
  lemma CleanUpRemovesExactlyDanglingTasks(tasks: seq<TaskInfo>)
    requires DistinctTaskIds(tasks)
    ensures forall j :: 0 <= j < |tasks| ==>
      (tasks[j].taskId in DanglingTaskIds(tasks) <==> IsDanglingTask(tasks[j]))
  {
    forall j | 0 <= j < |tasks|
      ensures tasks[j].taskId in DanglingTaskIds(tasks) <==> IsDanglingTask(tasks[j])
    {
      if IsDanglingTask(tasks[j]) {
        DanglingTaskIdsComplete(tasks, j);
      } else if tasks[j].taskId in DanglingTaskIds(tasks) {
        var k :| 0 <= k < |DanglingTaskIds(tasks)| && DanglingTaskIds(tasks)[k] == tasks[j].taskId;
        DanglingTaskIdsSound(tasks, k);
      }
    }
  }

  /** cleanUpExistingTaskViewTasks: the removals it issues, in order. */
  method CleanUpExistingTaskViewTasks(tasks: seq<TaskInfo>) returns (removed: seq<int>)
    ensures removed == DanglingTaskIds(tasks)
  {
    removed := [];
    var i := 0;
    while i < |tasks|
      invariant 0 <= i <= |tasks|
      invariant removed == DanglingTaskIds(tasks[..i])
    {
      var taskInfo := tasks[i];
      assert tasks[..i + 1][..i] == tasks[..i];
      if taskInfo.windowingMode == WINDOWING_MODE_MULTI_WINDOW {
        removed := removed + [taskInfo.taskId];
      }
      i := i + 1;
    }
    assert tasks[..i] == tasks;
  }

  /** A RemoteCarTaskViewServerImpl: one per task view a client asked for. */
  class RemoteCarTaskViewServer {
    const client: int

    constructor (client: int)
      ensures this.client == client
    {
      this.client := client;
    }
  }

  /** CarSystemUIProxyImpl. */
  class CarSystemUIProxyImpl {
    var connected: bool
    var servers: set<RemoteCarTaskViewServer>
    /** Whether the constructor registered the dumpable and the car-service listener. */
    var dumpableRegistered: bool
    var carServiceListenerRegistered: bool
    /** The task ids passed to ActivityTaskManager.removeTask so far. */
    var removedTaskIds: seq<int>
    /** Whether registerTaskMonitor and registerCarSystemUIProxy were called on CarActivityManager. */
    var taskMonitorRegistered: bool
    var proxyRegistered: bool

    /** A non-system user, or a disabled config_registerCarSystemUIProxy, registers no listener. */
    constructor (isSystemUser: bool, registerProxyConfig: bool)
      ensures !connected && servers == {} && removedTaskIds == []
      ensures !taskMonitorRegistered && !proxyRegistered
      ensures dumpableRegistered == isSystemUser
      ensures carServiceListenerRegistered == (isSystemUser && registerProxyConfig)
    {
      connected := false;
      servers := {};
      removedTaskIds := [];
      taskMonitorRegistered := false;
      proxyRegistered := false;
      dumpableRegistered := false;
      carServiceListenerRegistered := false;
      new;
      if !isSystemUser {
        return;
      }
      dumpableRegistered := true;
      if !registerProxyConfig {
        return;
      }
      carServiceListenerRegistered := true;
    }

    /** createCarTaskView: adds exactly one new server to the live set. */
    method CreateCarTaskView(client: int) returns (server: RemoteCarTaskViewServer)
      modifies this
      ensures fresh(server) && server.client == client
      ensures servers == old(servers) + {server} && server !in old(servers)
      ensures |servers| == |old(servers)| + 1
      ensures connected == old(connected) && removedTaskIds == old(removedTaskIds)
      ensures dumpableRegistered == old(dumpableRegistered)
      ensures carServiceListenerRegistered == old(carServiceListenerRegistered)
      ensures taskMonitorRegistered == old(taskMonitorRegistered) && proxyRegistered == old(proxyRegistered)
    {
      server := new RemoteCarTaskViewServer(client);
      servers := servers + {server};
    }

    /** onCarTaskViewReleased: drops that server; an unknown server changes nothing. */
    method OnCarTaskViewReleased(server: RemoteCarTaskViewServer)
      modifies this
      ensures servers == old(servers) - {server}
      ensures server !in old(servers) ==> servers == old(servers)
      ensures connected == old(connected) && removedTaskIds == old(removedTaskIds)
      ensures dumpableRegistered == old(dumpableRegistered)
      ensures carServiceListenerRegistered == old(carServiceListenerRegistered)
      ensures taskMonitorRegistered == old(taskMonitorRegistered) && proxyRegistered == old(proxyRegistered)
    {
      servers := servers - {server};
    }

    /**
     * onConnected: marks the proxy connected, removes the dangling tasks that
     * registerOrganizer reports, and registers with CarActivityManager.
     */
    method OnConnected(registeredTasks: seq<TaskInfo>)
      modifies this
      ensures connected
      ensures removedTaskIds == old(removedTaskIds) + DanglingTaskIds(registeredTasks)
      ensures taskMonitorRegistered && proxyRegistered
      ensures servers == old(servers)
      ensures dumpableRegistered == old(dumpableRegistered)
      ensures carServiceListenerRegistered == old(carServiceListenerRegistered)
    {
      connected := true;
      var removed := CleanUpExistingTaskViewTasks(registeredTasks);
      removedTaskIds := removedTaskIds + removed;
      taskMonitorRegistered := true;
      proxyRegistered := true;
    }
  }
}
