/** `CworkQueue` and the task registry of `ChttpServer` as classes whose methods are
    the regions under a lock, each proved to be a step of the machine in WorkQueue. A
    task object is its number, and its cancel flag is membership in a set. */
module TaskServer {
  import opened WorkQueue

  class CworkQueue {
    var exit: bool
    var tasks: seq<nat>
    var workers: seq<Worker>
    ghost var taken: seq<nat>

    constructor (nThread: nat)
      ensures !exit && tasks == [] && workers == seq(nThread, i => Ready) && taken == []
    {
      exit, tasks, taken := false, [], [];
      workers := [];
      new;
      for i := 0 to nThread
        invariant workers == seq(i, j => Ready) && !exit && tasks == [] && taken == []
      {
        workers := workers + [Ready];
      }
    }

    /** `getNext` from taking the lock until it is released: by returning a task, by
        returning nothing, or by waiting. */
    method GetNext(w: nat)
      requires w < |workers|
      modifies this`tasks, this`workers, this`taken
      ensures exit ==> tasks == old(tasks) && taken == old(taken) && workers == old(workers)[w := Gone]
      ensures !exit && old(tasks) == [] ==> tasks == [] && taken == old(taken) && workers == old(workers)[w := Sleeping]
      ensures !exit && old(tasks) != [] ==>
        && tasks == old(tasks)[1..] && taken == old(taken) + [old(tasks)[0]]
        && workers == old(workers)[w := Running(old(tasks)[0])]
    {
      if !exit {
        if tasks == [] {
          workers := workers[w := Sleeping];
        } else {
          var front := tasks[0];
          PopFront();
          workers := workers[w := Running(front)];
        }
        return;
      }
      workers := workers[w := Gone];
    }

    method PopFront()
      requires tasks != []
      modifies this`tasks, this`taken
      ensures tasks == old(tasks)[1..] && taken == old(taken) + [old(tasks)[0]]
    {
      taken := taken + [tasks[0]];
      tasks := tasks[1..];
    }

    /** `m_exit = true; notify_all()`. */
    method SetExit()
      modifies this`exit, this`workers
      ensures exit && workers == WakeAll(old(workers))
    {
      exit := true;
      var i := 0;
      while i < |workers|
        invariant exit && 0 <= i <= |workers| == |old(workers)|
        invariant forall k :: 0 <= k < i ==> workers[k] == WakeAll(old(workers))[k]
        invariant forall k :: i <= k < |workers| ==> workers[k] == old(workers)[k]
      {
        if workers[i].Sleeping? {
          workers := workers[i := Notified];
        }
        i := i + 1;
      }
      assert workers == WakeAll(old(workers));
    }

    /** Queues the task and notifies one sleeper, whichever it is. */
    method PushTask(task: nat, chosen: nat)
      modifies this`tasks, this`workers
      ensures tasks == old(tasks) + [task] && workers == WakeOne(old(workers), chosen)
    {
      tasks := tasks + [task];
      if chosen < |workers| && workers[chosen].Sleeping? {
        workers := workers[chosen := Notified];
      }
    }

    method SetWorker(w: nat, x: Worker)
      requires w < |workers|
      modifies this`workers
      ensures workers == old(workers)[w := x]
    {
      workers := workers[w := x];
    }
  }

  class ChttpServer {
    const workQueue: CworkQueue
    // Every task constructed so far: the peer it belongs to.
    var nodes: seq<Node>
    var unqueued: bool
    // m_tasks
    var entries: seq<(Node, nat)>
    // The tasks whose m_canceled is set.
    var canceled: set<nat>
    // History.
    ghost var ran: seq<nat>
    ghost var acted: seq<nat>
    ghost var deleted: seq<nat>

    ghost function View(): Server
      reads this, workQueue
    {
      Server.Server(nodes, unqueued, workQueue.tasks, workQueue.exit, workQueue.workers, multiset(entries), canceled,
                    Log(workQueue.taken, ran, acted, deleted))
    }

    ghost predicate Valid()
      reads this, workQueue
    {
      Inv(View())
    }

    constructor (nThread: nat)
      ensures Valid() && View() == Init(nThread) && fresh(workQueue)
    {
      workQueue := new CworkQueue(nThread);
      nodes, unqueued, entries, canceled := [], false, [], {};
      ran, acted, deleted := [], [], [];
      new;
      InitInv(nThread);
    }

    method AddReferenceTask(node: Node, task: nat)
      modifies this`entries
      ensures multiset(entries) == old(multiset(entries)) + multiset{(node, task)}
    {
      entries := entries + [(node, task)];
    }

    /** Erases the one entry of this task among those of its node. */
    method DeleteReferenceTask(node: Node, task: nat)
      modifies this`entries
      ensures multiset(entries) == old(multiset(entries)) - multiset{(node, task)}
    {
      var i := 0;
      while i < |entries|
        invariant 0 <= i <= |entries| && (node, task) !in entries[..i]
      {
        if entries[i] == (node, task) {
          assert entries == entries[..i] + [entries[i]] + entries[i + 1..];
          entries := entries[..i] + entries[i + 1..];
          return;
        }
        i := i + 1;
      }
      assert entries == entries[..i];
    }

    method MarkTasks(node: Node)
      modifies this`canceled
      ensures canceled == old(canceled) + set e | e in multiset(entries) && e.0 == node :: e.1
    {
      var i := 0;
      while i < |entries|
        invariant 0 <= i <= |entries|
        invariant canceled == old(canceled) + set e | e in entries[..i] && e.0 == node :: e.1
      {
        assert entries[..i + 1] == entries[..i] + [entries[i]];
        if entries[i].0 == node {
          canceled := canceled + {entries[i].1};
        }
        i := i + 1;
      }
      assert entries[..i] == entries;
      SameElements(entries, node);
    }

    /** Marks every task of the node, and no other. */
    method CancelTask(node: Node)
      requires Valid()
      modifies this`canceled
      ensures Valid() && View() == Step(old(View()), Cancel(node))
    {
      StepInv(View(), Cancel(node));
      hide Inv;
      MarkTasks(node);
    }

    /** The construction of a `ChttpTask`, which registers itself. */
    method NewTask(node: Node) returns (task: nat)
      requires Valid() && !unqueued
      modifies this`nodes, this`unqueued, this`entries
      ensures task == old(|nodes|)
      ensures Valid() && View() == Step(old(View()), Make(node))
    {
      StepInv(View(), Make(node));
      hide Inv;
      task := |nodes|;
      nodes, unqueued := nodes + [node], true;
      AddReferenceTask(node, task);
    }

    method PushTask(chosen: nat)
      requires Valid() && Enabled(View(), Push(chosen))
      modifies this`unqueued, workQueue`tasks, workQueue`workers
      ensures Valid() && View() == Step(old(View()), Push(chosen))
    {
      StepInv(View(), Push(chosen));
      PushIs(View(), chosen);
      hide Inv, Enabled, Step, WakeOne;
      unqueued := false;
      workQueue.PushTask(if nodes == [] then 0 else |nodes| - 1, chosen);
    }

    // ------------------------------------------------------------ the workers

    method WorkerLooks(w: nat)
      requires Valid() && Enabled(View(), Look(w))
      modifies workQueue`tasks, workQueue`workers, workQueue`taken
      ensures Valid() && View() == Step(old(View()), Look(w))
    {
      StepInv(View(), Look(w));
      hide Inv;
      workQueue.GetNext(w);
    }

    /** `task->run()` up to the test of `m_canceled`. */
    method WorkerRuns(w: nat)
      requires Valid() && Enabled(View(), RunTask(w))
      modifies this`ran, workQueue`workers
      ensures Valid() && View() == Step(old(View()), RunTask(w))
    {
      StepInv(View(), RunTask(w));
      hide Inv;
      var task := workQueue.workers[w].task;
      ran := ran + [task];
      workQueue.SetWorker(w, if task in canceled then Ran(task) else Answering(task));
    }

    /** The rest of `task->run()`, for a task found not canceled. */
    method WorkerAnswers(w: nat)
      requires Valid() && Enabled(View(), Answer(w))
      modifies this`acted, workQueue`workers
      ensures Valid() && View() == Step(old(View()), Answer(w))
    {
      StepInv(View(), Answer(w));
      hide Inv;
      var task := workQueue.workers[w].task;
      acted := acted + [task];
      workQueue.SetWorker(w, Ran(task));
    }

    /** The deleter runs the destructor, which takes the task out of the registry. */
    method DeleteTask(task: nat)
      modifies this`entries, this`deleted
      ensures View() == Delete(old(View()), task)
    {
      deleted := deleted + [task];
      DeleteReferenceTask(if task < |nodes| then nodes[task] else 0, task);
    }

    method WorkerDeletes(w: nat)
      requires Valid() && Enabled(View(), Event.DeleteTask(w))
      modifies this`entries, this`deleted, workQueue`workers
      ensures Valid() && View() == Step(old(View()), Event.DeleteTask(w))
    {
      StepInv(View(), Event.DeleteTask(w));
      hide Inv;
      DeleteTask(workQueue.workers[w].task);
      workQueue.SetWorker(w, Ready);
    }

    // ------------------------------------------------------------ destruction

    method StopWorkers()
      requires Valid()
      modifies workQueue`exit, workQueue`workers
      ensures Valid() && View() == Step(old(View()), Event.SetExit)
    {
      StepInv(View(), Event.SetExit);
      hide Inv;
      workQueue.SetExit();
      assert workQueue.workers == WakeAll(old(workQueue.workers));
    }

    method DeleteFront()
      requires Valid() && Enabled(View(), DisposeOne)
      modifies this`entries, this`deleted, workQueue`tasks, workQueue`taken
      ensures Valid() && View() == Step(old(View()), DisposeOne)
    {
      StepInv(View(), DisposeOne);
      hide Inv, AllGone;
      DeleteTask(workQueue.tasks[0]);
      workQueue.PopFront();
    }

    /** The end of the queue's destructor, after `join`: what was never taken is
        deleted, in order, and nothing is registered any more. */
    method DeleteRest()
      requires Valid() && workQueue.exit && AllGone(workQueue.workers) && !unqueued
      modifies this`entries, this`deleted, workQueue`tasks, workQueue`taken
      ensures Valid() && workQueue.tasks == [] && deleted == old(deleted) + old(workQueue.tasks)
      ensures multiset(entries) == multiset{}
    {
      hide AllGone;
      ghost var n := |deleted|;
      while workQueue.tasks != []
        invariant Valid() && deleted + workQueue.tasks == old(deleted) + old(workQueue.tasks)
        decreases |workQueue.tasks|
      {
        hide Inv;
        assert deleted + [workQueue.tasks[0]] + workQueue.tasks[1..] == deleted + workQueue.tasks;
        DeleteFront();
      }
      assert deleted + [] == deleted;
      EmptyRegistry(View());
    }
  }

  lemma PushIs(s: Server, chosen: nat)
    requires Enabled(s, Push(chosen))
    ensures Step(s, Push(chosen)) ==
      s.(tasks := s.tasks + [if s.nodes == [] then 0 else |s.nodes| - 1], unqueued := false, workers := WakeOne(s.workers, chosen))
  {
  }

  lemma SameElements(entries: seq<(Node, nat)>, node: Node)
    ensures (set e | e in entries && e.0 == node :: e.1) == set e | e in multiset(entries) && e.0 == node :: e.1
  {
    assert forall e :: e in multiset(entries) <==> e in entries;
  }
}
