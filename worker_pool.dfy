/**
 * `cachedWorkerThreadPool`: a fixed set of workers, a stack of free worker
 * ids, a FIFO of pending tasks kept as a hand-linked list and a counter of
 * workers in service. Worker replies arrive one at a time as `OnMessage`.
 */
module WorkerPool {
  import opened Common
  import opened Config

  /** A task as appended by the baker: its intent and the uuid of the mesh. */
  datatype Task = Task(intent: WorkerTask, uuid: string)

  /** `{task: task, next: null}`: a node of the pending list. */
  class TaskNode {
    const task: Task
    var next: TaskNode?

    constructor (task: Task)
      ensures this.task == task && next == null
    {
      this.task := task;
      next := null;
    }
  }

  /** The ids `0, 1, …, n - 1` in that order. */
  function Ids(n: nat): (r: seq<int>)
    ensures |r| == n && forall i :: 0 <= i < n ==> r[i] == i
  {
    if n == 0 then [] else Ids(n - 1) + [n - 1]
  }

  class Pool {
    const workerLimit: nat
    var running: int
    /** Used as a stack: `push` appends, `pop` takes the last id. */
    var availableWorker: seq<int>
    var firstPendingTask: TaskNode?
    var lastPendingTask: TaskNode?

    /** The nodes of the pending list from first to last. */
    ghost var nodes: seq<TaskNode>
    /** The tasks waiting, in order. */
    ghost var pending: seq<Task>
    /** Every task appended so far, and every task handed to a worker, in order. */
    ghost var appended: seq<Task>
    ghost var taken: seq<Task>
    /** The ids of the workers in service. */
    ghost var busy: set<int>

    /**
     * The list invariant: the nodes are distinct and linked in order, the
     * last one ends the list; `firstPendingTask` is the first node and
     * `lastPendingTask` the last one when there are two or more, null
     * otherwise.
     */
    ghost predicate QueueValid()
      reads this, nodes
    {
      |nodes| == |pending| &&
      (forall i :: 0 <= i < |nodes| ==> nodes[i].task == pending[i]) &&
      (forall i :: 0 <= i < |nodes| - 1 ==> nodes[i].next == nodes[i + 1]) &&
      (forall i, j :: 0 <= i < j < |nodes| ==> nodes[i] != nodes[j]) &&
      (|nodes| > 0 ==> nodes[|nodes| - 1].next == null) &&
      firstPendingTask == (if |nodes| == 0 then null else nodes[0]) &&
      lastPendingTask == (if |nodes| <= 1 then null else nodes[|nodes| - 1])
    }

    /**
     * The worker invariant: every id below `workerLimit` is either free
     * (once, on the stack) or in service, and `running` counts those in
     * service.
     */
    ghost predicate WorkersValid()
      reads this
    {
      (forall i :: 0 <= i < |availableWorker| ==> 0 <= availableWorker[i] < workerLimit && availableWorker[i] !in busy) &&
      (forall i, j :: 0 <= i < j < |availableWorker| ==> availableWorker[i] != availableWorker[j]) &&
      (forall id :: id in busy ==> 0 <= id < workerLimit) &&
      running == |busy| &&
      running + |availableWorker| == workerLimit
    }

    /** The list invariant, and every appended task is either taken or still pending. */
    ghost predicate QueueAccounted()
      reads this, nodes
    {
      QueueValid() && appended == taken + pending
    }

    ghost predicate Valid()
      reads this, nodes
    {
      QueueAccounted() && WorkersValid()
    }

    /** `setup`: `workerLimit` workers, all free, and nothing pending. */
    constructor Setup(workerLimit: nat)
      ensures Valid() && nodes == []
      ensures this.workerLimit == workerLimit && availableWorker == Ids(workerLimit)
      ensures running == 0 && busy == {} && pending == [] && appended == [] && taken == []
    {
      this.workerLimit := workerLimit;
      running := 0;
      firstPendingTask, lastPendingTask := null, null;
      nodes, pending, appended, taken, busy := [], [], [], [], {};
      var ids: seq<int> := [];
      var i := 0;
      while i < workerLimit
        invariant 0 <= i <= workerLimit && ids == Ids(i)
      {
        ids := ids + [i];
        i := i + 1;
      }
      availableWorker := ids;
    }

    /** `appendTaskToQueue`'s list part: the task goes to the end of the list. */
    method Enqueue(task: Task)
      requires Valid()
      modifies this, nodes
      ensures Valid() && |nodes| == |old(nodes)| + 1 && nodes[..|old(nodes)|] == old(nodes) && fresh(nodes[|old(nodes)|])
      ensures pending == old(pending) + [task] && appended == old(appended) + [task] && taken == old(taken)
      ensures running == old(running) && availableWorker == old(availableWorker) && busy == old(busy)
    {
      var node := new TaskNode(task);
      if firstPendingTask == null {
        firstPendingTask := node;
      } else if lastPendingTask == null {
        lastPendingTask := node;
        firstPendingTask.next := lastPendingTask;
      } else {
        lastPendingTask.next := node;
        lastPendingTask := lastPendingTask.next;
      }
      nodes, pending, appended := nodes + [node], pending + [task], appended + [task];
    }

    /** `getNextTask`: the first pending task, taken off the list; `None` for `null` when nothing is pending. */
    method GetNextTask() returns (t: Option<Task>)
      requires QueueAccounted()
      modifies this
      ensures QueueAccounted() && nodes == (if old(nodes) == [] then [] else old(nodes)[1..])
      ensures old(pending) == [] ==> t.None? && pending == [] && taken == old(taken)
      ensures old(pending) != [] ==> t == Some(old(pending)[0]) && pending == old(pending)[1..] && taken == old(taken) + [t.value]
      ensures appended == old(appended) && running == old(running) && availableWorker == old(availableWorker) && busy == old(busy)
    {
      t := None;
      if firstPendingTask != null {
        t := Some(firstPendingTask.task);
        firstPendingTask := firstPendingTask.next;
        if firstPendingTask == lastPendingTask {
          lastPendingTask := null;
        }
        nodes, pending, taken := nodes[1..], pending[1..], taken + [t.value];
      }
    }

    /** `anyNextTasks`. */
    method AnyNextTasks() returns (b: bool)
      requires QueueValid()
      ensures b <==> pending != []
    {
      b := firstPendingTask != null;
    }

    /**
     * `executeNextTask`: a free worker (the top of the stack) gets the first
     * pending task. `posted` is the message sent, absent when no worker is
     * free or nothing is pending; then nothing changes.
     */
    method ExecuteNextTask() returns (posted: Option<(Task, int)>)
      requires Valid()
      modifies this
      ensures Valid() && appended == old(appended)
      ensures posted.Some? <==> old(availableWorker) != [] && old(pending) != []
      ensures posted.Some? ==>
                var id := old(availableWorker)[|old(availableWorker)| - 1];
                posted.value == (old(pending)[0], id) &&
                pending == old(pending)[1..] && taken == old(taken) + [old(pending)[0]] &&
                availableWorker == old(availableWorker)[..|old(availableWorker)| - 1] &&
                running == old(running) + 1 && busy == old(busy) + {id}
      ensures posted.None? ==>
                pending == old(pending) && taken == old(taken) && availableWorker == old(availableWorker) &&
                running == old(running) && busy == old(busy)
    {
      posted := None;
      if availableWorker != [] {
        var id := availableWorker[|availableWorker| - 1];
        availableWorker := availableWorker[..|availableWorker| - 1];
        var task := GetNextTask();
        if task.Some? {
          running := running + 1;
          busy := busy + {id};
          posted := Some((task.value, id));
        } else {
          availableWorker := availableWorker + [id];
        }
      }
    }

    /** `appendTaskToQueue`: enqueue, then try to hand out the first pending task. */
    method AppendTask(task: Task) returns (posted: Option<(Task, int)>)
      requires Valid()
      modifies this, nodes
      ensures Valid() && appended == old(appended) + [task]
      ensures posted.Some? <==> old(availableWorker) != []
      ensures posted.Some? ==>
                var id := old(availableWorker)[|old(availableWorker)| - 1];
                var queue := old(pending) + [task];
                posted.value == (queue[0], id) &&
                pending == queue[1..] && taken == old(taken) + [queue[0]] &&
                availableWorker == old(availableWorker)[..|old(availableWorker)| - 1] &&
                running == old(running) + 1 && busy == old(busy) + {id}
      ensures posted.None? ==>
                pending == old(pending) + [task] && taken == old(taken) && availableWorker == old(availableWorker) &&
                running == old(running) && busy == old(busy)
    {
      Enqueue(task);
      posted := ExecuteNextTask();
    }

    /**
     * `onMessage`: a Finished reply frees its worker; then either the next
     * pending task is handed out, or, when nothing is pending and no worker
     * is in service, `onTasksFinished` runs (`tasksFinished`). Only a
     * worker in service sends Finished.
     */
    method OnMessage(intent: WorkerTask, workerId: int) returns (posted: Option<(Task, int)>, tasksFinished: bool)
      requires Valid()
      requires intent == FinishedTask ==> workerId in busy
      modifies this
      ensures Valid() && appended == old(appended)
      ensures intent == FinishedTask ==>
                (posted.Some? <==> old(pending) != []) &&
                (posted.Some? ==>
                   posted.value == (old(pending)[0], workerId) &&
                   pending == old(pending)[1..] && taken == old(taken) + [old(pending)[0]] &&
                   availableWorker == old(availableWorker) && running == old(running) && busy == old(busy)) &&
                (posted.None? ==>
                   pending == old(pending) && taken == old(taken) &&
                   availableWorker == old(availableWorker) + [workerId] &&
                   running == old(running) - 1 && busy == old(busy) - {workerId})
      ensures intent != FinishedTask ==>
                (posted.Some? <==> old(availableWorker) != [] && old(pending) != []) &&
                (posted.Some? ==>
                   var id := old(availableWorker)[|old(availableWorker)| - 1];
                   posted.value == (old(pending)[0], id) &&
                   pending == old(pending)[1..] && taken == old(taken) + [old(pending)[0]] &&
                   availableWorker == old(availableWorker)[..|old(availableWorker)| - 1] &&
                   running == old(running) + 1 && busy == old(busy) + {id}) &&
                (posted.None? ==>
                   pending == old(pending) && taken == old(taken) && availableWorker == old(availableWorker) &&
                   running == old(running) && busy == old(busy))
      ensures tasksFinished <==> old(pending) == [] && running == 0
      ensures tasksFinished ==> taken == appended && busy == {} && |availableWorker| == workerLimit
      ensures posted.Some? ==> !tasksFinished
    {
      if intent == FinishedTask {
        running := running - 1;
        busy := busy - {workerId};
        availableWorker := availableWorker + [workerId];
      }
      posted, tasksFinished := None, false;
      var any := AnyNextTasks();
      if any {
        posted := ExecuteNextTask();
      } else if running == 0 {
        tasksFinished := true;
      }
    }
  }
}
