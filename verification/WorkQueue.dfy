/** The work queue, its worker threads and the server's registry of tasks, as a state
    machine whose steps are the regions under a lock and what happens between them. */
module WorkQueue {
  import opened Common

  /** Peers are known by a number. */
  type Node = nat

  /** A worker is about to take the lock, waits on the condition variable, was
      notified, is about to run a task, has found it not canceled, has run it, or has
      left its loop. The cancel flag is read without a lock, so that anything can happen
      between the read and the answer. */
  datatype Worker =
    | Ready | Sleeping | Notified | Running(task: nat) | Answering(task: nat) | Ran(task: nat) | Gone

  /** Tasks are numbered in the order of their construction. `unqueued` says that the
      last one is registered but not queued yet. */
  datatype Server = Server(
    nodes: seq<Node>,
    unqueued: bool,
    tasks: seq<nat>,
    exit: bool,
    workers: seq<Worker>,
    registry: multiset<(Node, nat)>,
    canceled: set<nat>,
    log: Log)

  /** History: tasks taken out of the queue, run, answered, deleted. */
  datatype Log = Log(taken: seq<nat>, ran: seq<nat>, acted: seq<nat>, deleted: seq<nat>)

  datatype Event =
    | Make(node: Node)
    | Push(chosen: nat)
    | Cancel(peer: Node)
    | Look(looker: nat)
    | Spurious(sleeper: nat)
    | RunTask(runner: nat)
    | Answer(answerer: nat)
    | DeleteTask(owner: nat)
    | SetExit
    | DisposeOne

  function Init(threads: nat): Server {
    Server([], false, [], false, seq(threads, i => Ready), multiset{}, {}, Log([], [], [], []))
  }

  predicate AnySleeping(workers: seq<Worker>) {
    exists w :: 0 <= w < |workers| && workers[w].Sleeping?
  }

  predicate AllGone(workers: seq<Worker>) {
    forall w :: 0 <= w < |workers| ==> workers[w].Gone?
  }

  /** Spurious wake-ups are allowed, and `notify_one` may pick any sleeper. */
  predicate Enabled(s: Server, ev: Event) {
    match ev
    case Make(_) => !s.unqueued
    case Push(w) => s.unqueued && (AnySleeping(s.workers) ==> w < |s.workers| && s.workers[w].Sleeping?)
    case Cancel(_) => true
    case Look(w) => w < |s.workers| && (s.workers[w].Ready? || s.workers[w].Notified?)
    case Spurious(w) => w < |s.workers| && s.workers[w].Sleeping?
    case RunTask(w) => w < |s.workers| && s.workers[w].Running?
    case Answer(w) => w < |s.workers| && s.workers[w].Answering?
    case DeleteTask(w) => w < |s.workers| && s.workers[w].Ran?
    case SetExit => true
    case DisposeOne => s.exit && AllGone(s.workers) && s.tasks != []
  }

  function NodeOf(s: Server, task: nat): Node {
    if task < |s.nodes| then s.nodes[task] else 0
  }

  /** The deleter: the destructor takes the task out of the registry. */
  function Delete(s: Server, task: nat): Server {
    s.(registry := s.registry - multiset{(NodeOf(s, task), task)}, log := s.log.(deleted := s.log.deleted + [task]))
  }

  function TakeFront(s: Server): Server
    requires s.tasks != []
  {
    s.(tasks := s.tasks[1..], log := s.log.(taken := s.log.taken + [s.tasks[0]]))
  }

  function WakeOne(workers: seq<Worker>, w: nat): seq<Worker> {
    if w < |workers| && workers[w].Sleeping? then workers[w := Notified] else workers
  }

  function WakeAll(workers: seq<Worker>): seq<Worker> {
    seq(|workers|, i requires 0 <= i < |workers| => if workers[i].Sleeping? then Notified else workers[i])
  }

  /** One pass of the loop in `getNext`, from taking the lock to releasing it. */
  function LookOnce(s: Server, w: nat): Server
    requires w < |s.workers|
  {
    if s.exit then s.(workers := s.workers[w := Gone])
    else if s.tasks == [] then s.(workers := s.workers[w := Sleeping])
    else TakeFront(s).(workers := s.workers[w := Running(s.tasks[0])])
  }

  /** The start of `run`: a canceled task returns at once. */
  function ReadCanceled(s: Server, w: nat, t: nat): Server
    requires w < |s.workers|
  {
    s.(workers := s.workers[w := if t in s.canceled then Ran(t) else Answering(t)], log := s.log.(ran := s.log.ran + [t]))
  }

  function Step(s: Server, ev: Event): Server
    requires Enabled(s, ev)
  {
    match ev
    case Make(node) =>
      s.(nodes := s.nodes + [node], unqueued := true, registry := s.registry + multiset{(node, |s.nodes|)})
    case Push(w) =>
      s.(tasks := s.tasks + [if s.nodes == [] then 0 else |s.nodes| - 1], unqueued := false, workers := WakeOne(s.workers, w))
    case Cancel(node) => s.(canceled := s.canceled + set e | e in s.registry && e.0 == node :: e.1)
    case Look(w) => LookOnce(s, w)
    case Spurious(w) => s.(workers := s.workers[w := Ready])
    case RunTask(w) => ReadCanceled(s, w, s.workers[w].task)
    case Answer(w) =>
      s.(workers := s.workers[w := Ran(s.workers[w].task)], log := s.log.(acted := s.log.acted + [s.workers[w].task]))
    case DeleteTask(w) => Delete(s, s.workers[w].task).(workers := s.workers[w := Ready])
    case SetExit => s.(exit := true, workers := WakeAll(s.workers))
    case DisposeOne => TakeFront(Delete(s, s.tasks[0]))
  }

  // -------------------------------------------------------------- invariant

  /** How many tasks have been queued. */
  function Queued(s: Server): nat {
    if s.unqueued && s.nodes != [] then |s.nodes| - 1 else |s.nodes|
  }

  /** First in, first out: what was taken and what is queued, in this order, are the
      tasks in the order of queueing. */
  ghost predicate Fifo(s: Server) {
    && (s.unqueued ==> s.nodes != [])
    && |s.log.taken| + |s.tasks| == Queued(s)
    && (forall i :: 0 <= i < |s.log.taken| ==> s.log.taken[i] == i)
    && (forall i :: 0 <= i < |s.tasks| ==> s.tasks[i] == |s.log.taken| + i)
  }

  predicate Holds(w: Worker, t: nat) {
    Busy(w) && w.task == t
  }

  predicate Busy(w: Worker) {
    w.Running? || w.Answering? || w.Ran?
  }

  ghost predicate HeldAlive(s: Server) {
    && (forall w :: 0 <= w < |s.workers| && Busy(s.workers[w]) ==>
          s.workers[w].task < |s.log.taken| && s.workers[w].task !in s.log.deleted)
    && (forall i :: 0 <= i < |s.log.deleted| ==> s.log.deleted[i] < |s.log.taken|)
  }

  ghost predicate HeldApart(s: Server) {
    forall v, w :: 0 <= v < w < |s.workers| && Busy(s.workers[v]) && Busy(s.workers[w]) ==>
      s.workers[v].task != s.workers[w].task
  }

  /** No task is held twice, deleted twice, or held after its deletion. */
  ghost predicate HeldOnce(s: Server) {
    HeldAlive(s) && HeldApart(s) && Distinct(s.log.deleted)
  }

  /** Every task taken is in the hands of one worker or deleted, and not both. */
  ghost predicate Owned(s: Server) {
    && HeldOnce(s)
    && (forall t :: 0 <= t < |s.log.taken| ==>
          t in s.log.deleted || exists w :: 0 <= w < |s.workers| && Holds(s.workers[w], t))
  }

  /** Tasks run at most once, before they are deleted. */
  ghost predicate RanOk(s: Server) {
    && Distinct(s.log.ran)
    && (forall i :: 0 <= i < |s.log.ran| ==> s.log.ran[i] < |s.log.taken|)
    && (forall w :: 0 <= w < |s.workers| && s.workers[w].Running? ==> s.workers[w].task !in s.log.ran)
    && (forall w :: 0 <= w < |s.workers| && (s.workers[w].Answering? || s.workers[w].Ran?) ==> s.workers[w].task in s.log.ran)
    && (!s.exit ==> forall i :: 0 <= i < |s.log.deleted| ==> s.log.deleted[i] in s.log.ran)
  }

  /** A worker has found the task not canceled and has not answered yet. */
  predicate AnswerDue(workers: seq<Worker>, t: nat) {
    exists w :: 0 <= w < |workers| && workers[w] == Answering(t)
  }

  /** Only tasks that run answer, and of these all but canceled ones. */
  ghost predicate ActedOk(s: Server) {
    && Distinct(s.log.acted)
    && (forall i :: 0 <= i < |s.log.acted| ==> s.log.acted[i] in s.log.ran && !AnswerDue(s.workers, s.log.acted[i]))
    && (forall i :: 0 <= i < |s.log.ran| ==>
          s.log.ran[i] in s.log.acted || s.log.ran[i] in s.canceled || AnswerDue(s.workers, s.log.ran[i]))
  }

  ghost predicate RunOnce(s: Server) {
    RanOk(s) && ActedOk(s)
  }

  predicate Live(s: Server, node: Node, t: nat) {
    t < |s.nodes| && s.nodes[t] == node && t !in s.log.deleted
  }

  /** The registry holds exactly the live tasks, each once under its node. */
  ghost predicate RegistryOk(s: Server) {
    && (forall node, t :: s.registry[(node, t)] == if Live(s, node, t) then 1 else 0)
    && (forall t :: t in s.canceled ==> t < |s.nodes|)
  }

  function CountNotified(workers: seq<Worker>): nat
    decreases |workers|
  {
    if workers == [] then 0
    else CountNotified(workers[..|workers| - 1]) + if workers[|workers| - 1].Notified? then 1 else 0
  }

  /** No wake-up is lost. */
  ghost predicate WakeOk(s: Server) {
    && (AnySleeping(s.workers) ==> |s.tasks| <= CountNotified(s.workers) && !s.exit)
    && (forall w :: 0 <= w < |s.workers| && s.workers[w].Gone? ==> s.exit)
  }

  ghost predicate Inv(s: Server) {
    Fifo(s) && Owned(s) && RunOnce(s) && RegistryOk(s) && WakeOk(s)
  }

  // ----------------------------------------------------------- preservation

  lemma FifoStep(s: Server, ev: Event)
    requires Fifo(s) && Enabled(s, ev)
    ensures Fifo(Step(s, ev))
  {
    hide AnySleeping, AllGone;
  }

  /** No task changes hands. */
  ghost predicate SameHands(s: Server, r: Server) {
    && r.log == s.log && |r.workers| == |s.workers|
    && (forall w :: 0 <= w < |s.workers| && (Busy(s.workers[w]) || Busy(r.workers[w])) ==> r.workers[w] == s.workers[w])
    && (s.exit ==> r.exit) && s.canceled <= r.canceled
  }

  predicate Quiet(s: Server, ev: Event) {
    match ev
    case Look(_) => s.exit || s.tasks == []
    case RunTask(_) => false
    case Answer(_) => false
    case DeleteTask(_) => false
    case DisposeOne => false
    case _ => true
  }

  lemma QuietHands(s: Server, ev: Event)
    requires Enabled(s, ev) && Quiet(s, ev)
    ensures SameHands(s, Step(s, ev))
  {
    hide AnySleeping, AllGone;
  }

  lemma SameHeld(s: Server, r: Server)
    requires SameHands(s, r) && Owned(s)
    ensures Owned(r)
  {
    hide Distinct;
    forall t: nat | t < |r.log.taken| && t !in r.log.deleted ensures exists w :: 0 <= w < |r.workers| && Holds(r.workers[w], t) {
      var w :| 0 <= w < |s.workers| && Holds(s.workers[w], t);
      assert Holds(r.workers[w], t);
    }
  }

  lemma SameDue(s: Server, r: Server, t: nat)
    requires SameHands(s, r)
    ensures AnswerDue(r.workers, t) <==> AnswerDue(s.workers, t)
  {
    if w :| 0 <= w < |s.workers| && s.workers[w] == Answering(t) {
      assert r.workers[w] == Answering(t);
    }
    if w :| 0 <= w < |r.workers| && r.workers[w] == Answering(t) {
      assert s.workers[w] == Answering(t);
    }
  }

  lemma SameRun(s: Server, r: Server)
    requires SameHands(s, r) && RunOnce(s)
    ensures RunOnce(r)
  {
    hide Distinct;
    forall t ensures AnswerDue(r.workers, t) <==> AnswerDue(s.workers, t) { SameDue(s, r, t); }
    hide AnswerDue;
  }

  lemma StillHeld(s: Server, ev: Event, t: nat)
    requires Fifo(s) && Owned(s) && Enabled(s, ev) && !Quiet(s, ev) && t < |Step(s, ev).log.taken|
    ensures var r := Step(s, ev); t in r.log.deleted || exists w :: 0 <= w < |r.workers| && Holds(r.workers[w], t)
  {
    hide AnySleeping, AllGone, Distinct, HeldOnce;
    var r := Step(s, ev);
    if t < |s.log.taken| {
      if t !in s.log.deleted {
        var w :| 0 <= w < |s.workers| && Holds(s.workers[w], t);
        assert t in r.log.deleted || Holds(r.workers[w], t);
      }
    } else if ev.Look? {
      assert Holds(r.workers[ev.looker], t);
    }
  }

  lemma HeldAliveStep(s: Server, ev: Event)
    requires Fifo(s) && HeldAlive(s) && HeldApart(s) && Enabled(s, ev) && !Quiet(s, ev)
    ensures HeldAlive(Step(s, ev))
  {
    hide AnySleeping;
  }

  lemma HeldApartStep(s: Server, ev: Event)
    requires Fifo(s) && HeldAlive(s) && HeldApart(s) && Enabled(s, ev) && !Quiet(s, ev)
    ensures HeldApart(Step(s, ev))
  {
    hide AnySleeping;
  }

  lemma DeletedStep(s: Server, ev: Event)
    requires Fifo(s) && HeldAlive(s) && Distinct(s.log.deleted) && Enabled(s, ev) && !Quiet(s, ev)
    ensures Distinct(Step(s, ev).log.deleted)
  {
    hide AnySleeping;
  }

  lemma HeldOnceStep(s: Server, ev: Event)
    requires Fifo(s) && HeldOnce(s) && Enabled(s, ev) && !Quiet(s, ev)
    ensures HeldOnce(Step(s, ev))
  {
    hide Fifo, HeldAlive, HeldApart, Distinct, Enabled, Step, Quiet;
    HeldAliveStep(s, ev);
    HeldApartStep(s, ev);
    DeletedStep(s, ev);
  }

  lemma OwnedStep(s: Server, ev: Event)
    requires Fifo(s) && Owned(s) && Enabled(s, ev)
    ensures Owned(Step(s, ev))
  {
    var r := Step(s, ev);
    hide Fifo, Step, Enabled, Quiet;
    if Quiet(s, ev) {
      hide Owned;
      QuietHands(s, ev);
      SameHeld(s, r);
    } else {
      HeldOnceStep(s, ev);
      forall t: nat | t < |r.log.taken|
        ensures t in r.log.deleted || exists w :: 0 <= w < |r.workers| && Holds(r.workers[w], t)
      {
        StillHeld(s, ev, t);
      }
    }
  }

  lemma RanStep(s: Server, ev: Event)
    requires Fifo(s) && HeldOnce(s) && RanOk(s) && Enabled(s, ev) && !Quiet(s, ev)
    ensures RanOk(Step(s, ev))
  {
    hide AnySleeping;
  }

  /** Which answers are due after a step of a worker. */
  lemma DueStep(s: Server, ev: Event, t: nat)
    requires HeldApart(s) && Enabled(s, ev) && !Quiet(s, ev)
    ensures AnswerDue(Step(s, ev).workers, t) <==>
      if ev.Answer? && t == s.workers[ev.answerer].task then false
      else AnswerDue(s.workers, t) || (ev.RunTask? && t == s.workers[ev.runner].task && t !in s.canceled)
  {
    hide AnySleeping, AllGone;
    var r := Step(s, ev);
    if w :| 0 <= w < |s.workers| && s.workers[w] == Answering(t) {
      assert r.workers[w] == Answering(t) || (ev.Answer? && ev.answerer == w);
    }
    if ev.RunTask? && t == s.workers[ev.runner].task && t !in s.canceled {
      assert r.workers[ev.runner] == Answering(t);
    }
  }

  lemma ActedStep(s: Server, ev: Event)
    requires HeldApart(s) && RanOk(s) && ActedOk(s) && Enabled(s, ev) && !Quiet(s, ev)
    ensures ActedOk(Step(s, ev))
  {
    var r := Step(s, ev);
    hide AnySleeping, AllGone;
    forall t ensures AnswerDue(r.workers, t) <==>
        if ev.Answer? && t == s.workers[ev.answerer].task then false
        else AnswerDue(s.workers, t) || (ev.RunTask? && t == s.workers[ev.runner].task && t !in s.canceled)
    {
      DueStep(s, ev, t);
    }
    assert ev.Answer? ==> AnswerDue(s.workers, s.workers[ev.answerer].task);
    hide AnswerDue, HeldApart;
  }

  lemma RunOnceStep(s: Server, ev: Event)
    requires Fifo(s) && Owned(s) && RunOnce(s) && Enabled(s, ev)
    ensures RunOnce(Step(s, ev))
  {
    assert HeldApart(s);
    hide Fifo, HeldOnce, RanOk, ActedOk, Enabled, Step, Quiet, HeldApart;
    if Quiet(s, ev) {
      hide RunOnce;
      QuietHands(s, ev);
      SameRun(s, Step(s, ev));
    } else {
      RanStep(s, ev);
      ActedStep(s, ev);
    }
  }

  /** A task that is constructed is registered, one that is deleted no longer. */
  lemma RegistryMake(s: Server, node: Node)
    requires Fifo(s) && HeldAlive(s) && RegistryOk(s) && !s.unqueued
    ensures RegistryOk(Step(s, Make(node)))
  {
    var r := Step(s, Make(node));
    forall n, t ensures r.registry[(n, t)] == if Live(r, n, t) then 1 else 0 {
      assert s.registry[(n, t)] == if Live(s, n, t) then 1 else 0;
    }
  }

  lemma RegistryDelete(s: Server, task: nat)
    requires RegistryOk(s) && Live(s, NodeOf(s, task), task)
    ensures RegistryOk(Delete(s, task))
  {
    var r := Delete(s, task);
    forall n, t ensures r.registry[(n, t)] == if Live(r, n, t) then 1 else 0 {
      assert s.registry[(n, t)] == if Live(s, n, t) then 1 else 0;
    }
  }

  lemma RegistryCancel(s: Server, node: Node)
    requires RegistryOk(s)
    ensures RegistryOk(Step(s, Cancel(node)))
  {
    var r := Step(s, Cancel(node));
    forall t | t in r.canceled ensures t < |r.nodes| {
      if t !in s.canceled {
        var e :| e in s.registry && e.0 == node && e.1 == t;
        assert s.registry[(e.0, e.1)] == if Live(s, e.0, e.1) then 1 else 0;
      }
    }
  }

  predicate SameRegistry(s: Server, r: Server) {
    r.nodes == s.nodes && r.registry == s.registry && r.canceled == s.canceled && r.log.deleted == s.log.deleted
  }

  lemma RegistryKept(s: Server, r: Server)
    requires SameRegistry(s, r) && RegistryOk(s)
    ensures RegistryOk(r)
  {
  }

  /** The task a step deletes. */
  lemma DeletedLive(s: Server, task: nat)
    requires Fifo(s) && Owned(s)
    requires (exists w :: 0 <= w < |s.workers| && Holds(s.workers[w], task)) || task in s.tasks
    ensures Live(s, NodeOf(s, task), task)
  {
  }

  lemma RegistryStep(s: Server, ev: Event)
    requires Fifo(s) && Owned(s) && RegistryOk(s) && Enabled(s, ev)
    ensures RegistryOk(Step(s, ev))
  {
    var r := Step(s, ev);
    match ev
    case Make(node) => RegistryMake(s, node);
    case Cancel(node) => RegistryCancel(s, node);
    case DeleteTask(w) =>
      assert Holds(s.workers[w], s.workers[w].task);
      DeletedLive(s, s.workers[w].task);
      hide RegistryOk, Fifo, Owned;
      RegistryDelete(s, s.workers[w].task);
      RegistryKept(Delete(s, s.workers[w].task), r);
    case DisposeOne =>
      DeletedLive(s, s.tasks[0]);
      hide RegistryOk, Fifo, Owned, AllGone;
      RegistryDelete(s, s.tasks[0]);
      RegistryKept(Delete(s, s.tasks[0]), r);
    case _ =>
      hide RegistryOk, Fifo, Owned, AnySleeping, AllGone;
      RegistryKept(s, r);
  }

  lemma {:induction false} CountUpdate(workers: seq<Worker>, w: nat, x: Worker)
    requires w < |workers|
    ensures CountNotified(workers[w := x]) + (if workers[w].Notified? then 1 else 0)
         == CountNotified(workers) + (if x.Notified? then 1 else 0)
    decreases |workers|
  {
    var last := |workers| - 1;
    if w < last {
      CountUpdate(workers[..last], w, x);
      assert workers[w := x][..last] == workers[..last][w := x];
    } else {
      assert workers[w := x][..last] == workers[..last];
    }
  }

  lemma WakePush(s: Server, w: nat)
    requires WakeOk(s) && Enabled(s, Push(w))
    ensures WakeOk(Step(s, Push(w)))
  {
    hide CountNotified;
    if w < |s.workers| { CountUpdate(s.workers, w, Notified); }
  }

  /** A worker that does not sleep does something else. */
  lemma WakeMove(s: Server, r: Server, w: nat)
    requires WakeOk(s) && w < |s.workers| == |r.workers| && r.workers == s.workers[w := r.workers[w]]
    requires r.exit == s.exit && (r.workers[w].Gone? ==> s.exit) && !r.workers[w].Notified?
    requires r.workers[w].Sleeping? ==> !s.exit && r.tasks == []
    requires s.workers[w].Notified? ==> s.exit || r.tasks == [] || |r.tasks| < |s.tasks|
    requires |r.tasks| <= |s.tasks|
    ensures WakeOk(r)
  {
    CountUpdate(s.workers, w, r.workers[w]);
    hide CountNotified;
    if x :| 0 <= x < |r.workers| && r.workers[x].Sleeping? {
      if x != w { assert s.workers[x].Sleeping?; }
    }
  }

  lemma WakeStep(s: Server, ev: Event)
    requires WakeOk(s) && Enabled(s, ev)
    ensures WakeOk(Step(s, ev))
  {
    hide CountNotified;
    var r := Step(s, ev);
    match ev
    case Push(w) => WakePush(s, w);
    case Look(w) => hide WakeOk; WakeMove(s, r, w);
    case Spurious(w) => hide WakeOk; WakeMove(s, r, w);
    case RunTask(w) => hide WakeOk; WakeMove(s, r, w);
    case Answer(w) => hide WakeOk; WakeMove(s, r, w);
    case DeleteTask(w) => hide WakeOk; WakeMove(s, r, w);
    case Make(_) =>
    case Cancel(_) =>
    case SetExit =>
    case DisposeOne =>
  }

  lemma StepInv(s: Server, ev: Event)
    requires Inv(s) && Enabled(s, ev)
    ensures Inv(Step(s, ev))
  {
    hide Fifo, Owned, RunOnce, RegistryOk, WakeOk, Step, Enabled;
    FifoStep(s, ev);
    OwnedStep(s, ev);
    RunOnceStep(s, ev);
    RegistryStep(s, ev);
    WakeStep(s, ev);
  }

  lemma InitInv(threads: nat)
    ensures Inv(Init(threads))
  {
  }

  // -------------------------------------------------------------------- runs

  predicate Legal(s: Server, events: seq<Event>)
    decreases |events|
  {
    events == [] || (Enabled(s, events[0]) && Legal(Step(s, events[0]), events[1..]))
  }

  function After(s: Server, events: seq<Event>): Server
    requires Legal(s, events)
    decreases |events|
  {
    if events == [] then s else After(Step(s, events[0]), events[1..])
  }

  lemma {:induction false} RunInv(s: Server, events: seq<Event>)
    requires Inv(s) && Legal(s, events)
    ensures Inv(After(s, events))
    decreases |events|
  {
    hide Inv, Enabled, Step;
    if events != [] {
      StepInv(s, events[0]);
      RunInv(Step(s, events[0]), events[1..]);
    }
  }

  ghost predicate Reachable(s: Server) {
    exists threads, events :: Legal(Init(threads), events) && After(Init(threads), events) == s
  }

  lemma ReachableInv(s: Server)
    requires Reachable(s)
    ensures Inv(s)
  {
    hide Inv, Legal, After, Init;
    var threads, events :| Legal(Init(threads), events) && After(Init(threads), events) == s;
    InitInv(threads);
    RunInv(Init(threads), events);
  }

  // ---------------------------------------------------------------- promises

  datatype Place = Fresh | InQueue | InHand(worker: nat) | Deleted

  /** Where a task is. */
  predicate At(s: Server, t: nat, p: Place) {
    match p
    case Fresh => s.unqueued && t + 1 == |s.nodes|
    case InQueue => t in s.tasks
    case InHand(w) => w < |s.workers| && Holds(s.workers[w], t)
    case Deleted => t in s.log.deleted
  }

  /** Every task ever constructed is in exactly one place: not yet queued, queued, in
      the hands of one worker, or deleted. */
  lemma OnePlace(s: Server, t: nat)
    requires Reachable(s) && t < |s.nodes|
    ensures exists p :: At(s, t, p)
    ensures forall p, q :: At(s, t, p) && At(s, t, q) ==> p == q
  {
    ReachableInv(s);
    if s.unqueued && t + 1 == |s.nodes| {
      assert At(s, t, Fresh);
    } else if t >= |s.log.taken| {
      assert s.tasks[t - |s.log.taken|] == t;
      assert At(s, t, InQueue);
    } else if t in s.log.deleted {
      assert At(s, t, Deleted);
    } else {
      var w :| 0 <= w < |s.workers| && Holds(s.workers[w], t);
      assert At(s, t, InHand(w));
    }
  }

  /** The queue is first in, first out: taken and queued tasks together are all tasks
      queued so far, in the order of queueing. */
  lemma FirstInFirstOut(s: Server, i: nat)
    requires Reachable(s) && i < Queued(s)
    ensures i < |s.log.taken + s.tasks| && (s.log.taken + s.tasks)[i] == i
  {
    ReachableInv(s);
  }

  /** Tasks run at most once and are deleted at most once, and one that was deleted
      before the queue was told to exit has run. */
  lemma RunsOnce(s: Server, i: nat, j: nat)
    requires Reachable(s)
    ensures i < j < |s.log.ran| ==> s.log.ran[i] != s.log.ran[j]
    ensures i < j < |s.log.deleted| ==> s.log.deleted[i] != s.log.deleted[j]
    ensures !s.exit && i < |s.log.deleted| ==> s.log.deleted[i] in s.log.ran
  {
    ReachableInv(s);
  }

  /** A task that has run and was not canceled has answered, or is about to. */
  lemma AnswersUnlessCanceled(s: Server, t: nat)
    requires Reachable(s) && t in s.log.ran && t !in s.canceled
    ensures t in s.log.acted <==> !AnswerDue(s.workers, t)
  {
    ReachableInv(s);
  }

  /** While a worker sleeps, queued tasks never outnumber the notified workers. */
  lemma NoLostWakeup(s: Server)
    requires Reachable(s) && AnySleeping(s.workers)
    ensures |s.tasks| <= CountNotified(s.workers)
  {
    ReachableInv(s);
  }

  lemma {:induction false} SomeNotified(workers: seq<Worker>)
    requires CountNotified(workers) > 0
    ensures exists w :: 0 <= w < |workers| && workers[w].Notified?
    decreases |workers|
  {
    var last := |workers| - 1;
    if !workers[last].Notified? {
      SomeNotified(workers[..last]);
      var w :| 0 <= w < last && workers[..last][w].Notified?;
      assert workers[w].Notified?;
    }
  }

  /** Something a worker can do without being woken. */
  predicate Moves(s: Server, w: nat) {
    Enabled(s, Look(w)) || Enabled(s, RunTask(w)) || Enabled(s, Answer(w)) || Enabled(s, DeleteTask(w))
  }

  /** A queued task never waits for all workers to be woken: one of them is awake. */
  lemma TasksAreServed(s: Server)
    requires Reachable(s) && s.tasks != [] && s.workers != [] && !s.exit
    ensures exists w :: Moves(s, w)
  {
    ReachableInv(s);
    if AnySleeping(s.workers) {
      SomeNotified(s.workers);
      var w :| 0 <= w < |s.workers| && s.workers[w].Notified?;
      assert Moves(s, w);
    } else {
      assert Moves(s, 0);
    }
  }

  // ------------------------------------------------------------- destruction

  function Effort(w: Worker): nat {
    match w
    case Gone => 0
    case Ran(_) => 2
    case Answering(_) => 3
    case Running(_) => 4
    case _ => 1
  }

  /** How much the workers still have to do before all of them have left. */
  function WorkLeft(workers: seq<Worker>): nat
    decreases |workers|
  {
    if workers == [] then 0 else WorkLeft(workers[..|workers| - 1]) + Effort(workers[|workers| - 1])
  }

  lemma {:induction false} WorkUpdate(workers: seq<Worker>, w: nat, x: Worker)
    requires w < |workers|
    ensures WorkLeft(workers[w := x]) + Effort(workers[w]) == WorkLeft(workers) + Effort(x)
    decreases |workers|
  {
    var last := |workers| - 1;
    if w < last {
      WorkUpdate(workers[..last], w, x);
      assert workers[w := x][..last] == workers[..last][w := x];
    } else {
      assert workers[w := x][..last] == workers[..last];
    }
  }

  lemma {:induction false} NoWorkLeft(workers: seq<Worker>)
    ensures WorkLeft(workers) == 0 <==> AllGone(workers)
    decreases |workers|
  {
    if workers != [] {
      var last := |workers| - 1;
      NoWorkLeft(workers[..last]);
      assert AllGone(workers) ==> forall w :: 0 <= w < last ==> workers[..last][w].Gone?;
      assert AllGone(workers[..last]) ==> forall w :: 0 <= w < last ==> workers[w] == workers[..last][w];
    }
  }

  /** `join` returns: after `setExit` nobody sleeps, some worker can move until all
      are gone, and each move of a worker brings the end closer. */
  lemma JoinGoesOn(s: Server)
    requires Reachable(s) && s.exit
    ensures !AnySleeping(s.workers)
    ensures AllGone(s.workers) || exists w :: Moves(s, w)
    ensures AllGone(s.workers) <==> WorkLeft(s.workers) == 0
  {
    ReachableInv(s);
    assert !AnySleeping(s.workers);
    NoWorkLeft(s.workers);
    if !AllGone(s.workers) {
      var w :| 0 <= w < |s.workers| && !s.workers[w].Gone?;
      assert !s.workers[w].Sleeping?;
      assert Moves(s, w);
    }
  }

  predicate WorkerMoves(ev: Event) {
    ev.Look? || ev.RunTask? || ev.Answer? || ev.DeleteTask?
  }

  /** The worker that moves. */
  function Mover(ev: Event): nat {
    match ev
    case Look(w) => w
    case RunTask(w) => w
    case Answer(w) => w
    case DeleteTask(w) => w
    case _ => 0
  }

  lemma MoveIs(s: Server, ev: Event)
    requires s.exit && Enabled(s, ev) && WorkerMoves(ev)
    ensures Mover(ev) < |s.workers| == |Step(s, ev).workers| && Step(s, ev).exit
    ensures var r, w := Step(s, ev), Mover(ev);
      r.workers == s.workers[w := r.workers[w]] && Effort(r.workers[w]) < Effort(s.workers[w])
  {
    hide AnySleeping, AllGone;
  }

  lemma JoinComesCloser(s: Server, ev: Event)
    requires Reachable(s) && s.exit && Enabled(s, ev)
    ensures Step(s, ev).exit
    ensures WorkerMoves(ev) ==> WorkLeft(Step(s, ev).workers) < WorkLeft(s.workers)
    ensures !WorkerMoves(ev) ==> Step(s, ev).workers == s.workers
  {
    if WorkerMoves(ev) {
      MoveIs(s, ev);
      hide Step, Reachable;
      WorkUpdate(s.workers, Mover(ev), Step(s, ev).workers[Mover(ev)]);
    } else {
      ReachableInv(s);
      hide WorkLeft, AllGone, Fifo, Owned, RunOnce, RegistryOk, Reachable;
      assert !AnySleeping(s.workers);
      NobodySleeps(s);
    }
  }

  lemma NobodySleeps(s: Server)
    requires !AnySleeping(s.workers)
    ensures WakeAll(s.workers) == s.workers
  {
    forall w | 0 <= w < |s.workers| ensures !s.workers[w].Sleeping? {}
  }

  /** The worker that can move after `setExit`, and what it does. */
  lemma SomeoneMoves(s: Server) returns (ev: Event)
    requires Inv(s) && s.exit && !AllGone(s.workers)
    ensures Enabled(s, ev) && WorkerMoves(ev)
    ensures WorkLeft(Step(s, ev).workers) < WorkLeft(s.workers) && Step(s, ev).exit && Step(s, ev).unqueued == s.unqueued
  {
    assert !AnySleeping(s.workers);
    var w: nat :| w < |s.workers| && !s.workers[w].Gone?;
    assert !s.workers[w].Sleeping?;
    hide Inv, WorkLeft, Step;
    ev := match s.workers[w]
      case Running(_) => RunTask(w)
      case Answering(_) => Answer(w)
      case Ran(_) => DeleteTask(w)
      case _ => Look(w);
    MoveIs(s, ev);
    MoveQueues(s, ev);
    WorkUpdate(s.workers, w, Step(s, ev).workers[w]);
  }

  lemma MoveQueues(s: Server, ev: Event)
    requires Enabled(s, ev) && WorkerMoves(ev)
    ensures Step(s, ev).unqueued == s.unqueued
  {
    hide AnySleeping, AllGone;
  }

  lemma {:induction false} AllLeave(s: Server) returns (events: seq<Event>)
    requires Inv(s) && s.exit
    ensures Legal(s, events) && AllGone(After(s, events).workers) && After(s, events).exit && Inv(After(s, events))
    ensures After(s, events).unqueued == s.unqueued
    decreases WorkLeft(s.workers)
  {
    hide Inv, Enabled, Step, WorkLeft, AllGone;
    events := [];
    if !AllGone(s.workers) {
      var ev := SomeoneMoves(s);
      StepInv(s, ev);
      var rest := AllLeave(Step(s, ev));
      events := [ev] + rest;
      assert events[1..] == rest;
    }
  }

  lemma {:induction false} AllDisposed(s: Server) returns (events: seq<Event>)
    requires Inv(s) && s.exit && AllGone(s.workers)
    ensures Legal(s, events) && After(s, events).tasks == [] && AllGone(After(s, events).workers)
    ensures After(s, events).unqueued == s.unqueued && Inv(After(s, events))
    decreases |s.tasks|
  {
    hide Inv, AllGone;
    events := [];
    if s.tasks != [] {
      StepInv(s, DisposeOne);
      var rest := AllDisposed(Step(s, DisposeOne));
      events := [DisposeOne] + rest;
      assert events[1..] == rest;
    }
  }

  lemma {:induction false} LegalAppend(s: Server, a: seq<Event>, b: seq<Event>)
    requires Legal(s, a) && Legal(After(s, a), b)
    ensures Legal(s, a + b) && After(s, a + b) == After(After(s, a), b)
    decreases |a|
  {
    hide Enabled, Step;
    if a == [] {
      assert a + b == b;
    } else {
      LegalAppend(Step(s, a[0]), a[1..], b);
      assert (a + b)[0] == a[0] && (a + b)[1..] == a[1..] + b;
    }
  }

  /** The destructor gets through: from every state ever reached in which no task is
      between its construction and the queue, after `setExit` the workers can leave and
      the tasks still queued be disposed of, and then nothing is left. */
  lemma DestructorEnds(s: Server) returns (events: seq<Event>)
    requires Reachable(s) && !s.unqueued
    ensures Legal(s, [SetExit] + events)
    ensures var r := After(s, [SetExit] + events); AllGone(r.workers) && r.tasks == [] && r.registry == multiset{}
  {
    ReachableInv(s);
    ExitIs(s);
    hide Inv, AllGone, Reachable, Step;
    StepInv(s, SetExit);
    var t := Step(s, SetExit);
    var leave := AllLeave(t);
    var dispose := AllDisposed(After(t, leave));
    LegalAppend(t, leave, dispose);
    events := leave + dispose;
    assert ([SetExit] + events)[1..] == events;
    EmptyRegistry(After(t, events));
  }

  lemma ExitIs(s: Server)
    ensures Enabled(s, SetExit) && Step(s, SetExit).exit && Step(s, SetExit).unqueued == s.unqueued
  {
  }

  /** When the destructor is through, every task was deleted exactly once, those that
      ran did so once, and the registry is empty. */
  lemma NothingLeft(s: Server)
    requires Reachable(s) && AllGone(s.workers) && s.tasks == [] && !s.unqueued
    ensures |s.log.deleted| == |s.nodes| && Distinct(s.log.deleted)
    ensures forall t :: 0 <= t < |s.nodes| ==> t in s.log.deleted
    ensures s.registry == multiset{}
  {
    ReachableInv(s);
    forall t: nat | t < |s.nodes| ensures t in s.log.deleted {}
    EmptyRegistry(s);
    AllNumbers(s.log.deleted, |s.nodes|);
  }

  lemma EmptyRegistry(s: Server)
    requires Inv(s) && AllGone(s.workers) && s.tasks == [] && !s.unqueued
    ensures s.registry == multiset{}
  {
    forall t: nat | t < |s.nodes| ensures t in s.log.deleted {}
    forall e: (Node, nat) ensures s.registry[e] == 0 {
      assert s.registry[(e.0, e.1)] == if Live(s, e.0, e.1) then 1 else 0;
    }
  }

  /** A list of different numbers below `n` with all of them in it has `n` elements. */
  lemma AllNumbers(xs: seq<nat>, n: nat)
    requires Distinct(xs)
    requires forall i :: 0 <= i < |xs| ==> xs[i] < n
    requires forall t :: 0 <= t < n ==> t in xs
    ensures |xs| == n
  {
    DistinctSize(xs);
    assert Elements(xs) == UpTo(n);
  }

  function UpTo(n: nat): (r: set<nat>)
    ensures |r| == n && forall i: nat :: i in r <==> i < n
  {
    if n == 0 then {} else UpTo(n - 1) + {n - 1}
  }

  function Elements(xs: seq<nat>): (r: set<nat>)
    ensures forall x :: x in r <==> x in xs
  {
    set x | x in xs
  }

  lemma {:induction false} DistinctSize(xs: seq<nat>)
    requires Distinct(xs)
    ensures |Elements(xs)| == |xs|
    decreases |xs|
  {
    if xs == [] {
      assert Elements(xs) == {};
    } else {
      var front, last := xs[..|xs| - 1], xs[|xs| - 1];
      DistinctSize(front);
      assert last !in front;
      assert Elements(xs) == Elements(front) + {last};
    }
  }

  // ---------------------------------------------------------------- registry

  /** The registry holds exactly the live tasks, each once, under its own node. */
  lemma RegistryIsLive(s: Server, node: Node, t: nat)
    requires Reachable(s)
    ensures s.registry[(node, t)] == 1 <==> t < |s.nodes| && s.nodes[t] == node && t !in s.log.deleted
    ensures s.registry[(node, t)] <= 1
  {
    ReachableInv(s);
    assert s.registry[(node, t)] == if Live(s, node, t) then 1 else 0;
  }

  /** Canceling a node's tasks marks the live ones of that node and no others. */
  lemma CancelMarks(s: Server, node: Node, t: nat)
    requires Reachable(s)
    ensures t in Step(s, Cancel(node)).canceled <==> t in s.canceled || Live(s, node, t)
  {
    ReachableInv(s);
    assert s.registry[(node, t)] == if Live(s, node, t) then 1 else 0;
    var marked := set e | e in s.registry && e.0 == node :: e.1;
    if Live(s, node, t) {
      assert (node, t) in s.registry;
      assert (node, t).1 in marked;
    }
    if t in marked {
      var e :| e in s.registry && e.0 == node && e.1 == t;
      assert e == (node, t);
    }
  }

  /** A canceled task never answers, whatever happens afterwards, unless its cancel flag
      was read before it was set. */
  lemma {:induction false} CanceledNeverActs(s: Server, t: nat, events: seq<Event>)
    requires t in s.canceled && t !in s.log.acted && !AnswerDue(s.workers, t) && Legal(s, events)
    ensures t !in After(s, events).log.acted
    decreases |events|
  {
    if events != [] {
      CanceledStep(s, t, events[0]);
      hide Step, Enabled, AnswerDue;
      CanceledNeverActs(Step(s, events[0]), t, events[1..]);
    }
  }

  lemma CanceledStep(s: Server, t: nat, ev: Event)
    requires t in s.canceled && t !in s.log.acted && !AnswerDue(s.workers, t) && Enabled(s, ev)
    ensures var r := Step(s, ev); t in r.canceled && t !in r.log.acted && !AnswerDue(r.workers, t)
  {
    hide AnySleeping, AllGone;
    var r := Step(s, ev);
    forall w | 0 <= w < |r.workers| ensures r.workers[w] != Answering(t) {
      if w < |s.workers| { assert s.workers[w] != Answering(t); }
    }
  }

  /** Canceling a task that has not answered keeps it from answering for ever, whatever
      happens afterwards, exactly if no worker has read its cancel flag before. */
  lemma CanceledActsIff(s: Server, t: nat)
    requires t in s.canceled && t !in s.log.acted
    ensures (exists events :: Legal(s, events) && t in After(s, events).log.acted) <==> AnswerDue(s.workers, t)
  {
    hide *;
    if AnswerDue(s.workers, t) {
      var events := AnswerNow(s, t);
      assert Legal(s, events) && t in After(s, events).log.acted;
    } else {
      forall events | Legal(s, events) ensures t !in After(s, events).log.acted {
        CanceledNeverActs(s, t, events);
      }
    }
  }

  lemma AnswerNow(s: Server, t: nat) returns (events: seq<Event>)
    requires AnswerDue(s.workers, t)
    ensures Legal(s, events) && t in After(s, events).log.acted
  {
    var w :| 0 <= w < |s.workers| && s.workers[w] == Answering(t);
    AnswerIs(s, w);
    hide Step, Enabled;
    events := [Answer(w)];
    assert Legal(Step(s, events[0]), events[1..]);
  }

  lemma AnswerIs(s: Server, w: nat)
    requires w < |s.workers| && s.workers[w].Answering?
    ensures Enabled(s, Answer(w)) && Step(s, Answer(w)).log.acted == s.log.acted + [s.workers[w].task]
  {
  }
}
