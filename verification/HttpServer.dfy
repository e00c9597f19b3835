/** `ChttpServer::message`: the loop that turns received bytes into tasks. */
module HttpServer {
  import opened Common
  import opened HttpText
  import opened HttpParser
  import opened HttpPipeline
  import opened HttpContext
  import opened Buffer

  ghost predicate Ready(t: ChttpContext, view: Parse)
    reads t, t.buffer, t.buffer.data
  {
    t.Valid() && t.Inited() && t.View() == view
  }

  /** One task's context: fresh, filled from a complete message. `memory` is whether a
      block for its bytes can be had; if not, an exception leaves the task behind,
      empty, and the message where it was. */
  method HandOver(ctx: ChttpContext, memory: bool) returns (task: ChttpContext, thrown: bool)
    requires ctx.Valid() && ctx.Inited() && ctx.state == Done
    modifies ctx, ctx.buffer.data
    ensures ctx.Valid() && ctx.Inited()
    ensures thrown <==> !memory
    ensures fresh(task) && fresh(task.buffer) && (task.buffer.data != null ==> fresh(task.buffer.data))
    ensures !thrown ==> ctx.View() == Next(old(ctx.View())) && Ready(task, Former(old(ctx.View())))
    ensures thrown ==> ctx.View() == old(ctx.View()) && !task.Inited()
  {
    DoneFacts(ctx.View());
    task := new ChttpContext(0x1000000);
    var ok;
    ok, thrown := ctx.ReinitForNext(task, memory);
  }

  /** Every task has its view, and all it is made of is in `owned`. */
  ghost predicate AllReady(tasks: seq<ChttpContext>, views: seq<Parse>, owned: set<object>)
    reads owned
    decreases |tasks|
  {
    if tasks == [] then views == []
    else
      var n := |tasks| - 1;
      var task := tasks[n];
      && |views| == |tasks|
      && task in owned && task.buffer in owned && task.buffer.data != null && task.buffer.data in owned
      && Ready(task, views[n])
      && AllReady(tasks[..n], views[..n], owned)
  }

  lemma {:induction false} OwnMore(tasks: seq<ChttpContext>, views: seq<Parse>, owned: set<object>, more: set<object>)
    requires AllReady(tasks, views, owned) && owned <= more
    ensures AllReady(tasks, views, more)
    decreases |tasks|
  {
    if tasks != [] {
      OwnMore(tasks[..|tasks| - 1], views[..|tasks| - 1], owned, more);
    }
  }

  /** Task by task. */
  lemma {:induction false} EachReady(tasks: seq<ChttpContext>, views: seq<Parse>, owned: set<object>, i: nat)
    requires AllReady(tasks, views, owned) && i < |tasks|
    ensures |views| == |tasks| && tasks[i] in owned && tasks[i].buffer in owned && Ready(tasks[i], views[i])
    decreases |tasks|
  {
    if i < |tasks| - 1 {
      EachReady(tasks[..|tasks| - 1], views[..|tasks| - 1], owned, i);
    }
  }

  lemma AddTask(tasks: seq<ChttpContext>, views: seq<Parse>, owned: set<object>, task: ChttpContext, view: Parse)
    requires AllReady(tasks, views, owned) && Ready(task, view)
    ensures AllReady(tasks + [task], views + [view], owned + {task, task.buffer, task.buffer.data})
  {
    OwnMore(tasks, views, owned, owned + {task, task.buffer, task.buffer.data});
    assert (tasks + [task])[..|tasks|] == tasks && (views + [view])[..|tasks|] == views;
  }

  /** One turn of the loop, on the specification. */
  lemma Turn(p: Parse, left: nat)
    requires Wf(p)
    ensures var a := Analyze(p);
      if a.state == Done && left > 0 then
        && Wf(Next(a))
        && ServeUpTo(p, left).tasks == [Former(a)] + ServeUpTo(Next(a), left - 1).tasks
        && ServeUpTo(p, left).rest == ServeUpTo(Next(a), left - 1).rest
      else ServeUpTo(p, left) == Outcome([], a)
  {
    var a := Analyze(p);
    if a.state == Done {
      LoadWf(a.data[a.index..]);
    }
  }

  /** One turn: analyse, and hand over the message if there is one and memory for a
      task. `left` is how many more task allocations succeed, `blocks` how many more
      allocations of a task's bytes. */
  method ServeOne(ctx: ChttpContext, left: nat, blocks: nat) returns (task: ChttpContext?, ghost view: Parse, close: bool, thrown: bool)
    requires ctx.Valid() && ctx.Inited()
    modifies ctx, ctx.buffer.data
    ensures ctx.Valid() && ctx.Inited()
    ensures var n := Min(left, blocks); var served := ServeUpTo(old(ctx.View()), n);
      if task != null then
        && n > 0 && fresh(task) && fresh(task.buffer) && fresh(task.buffer.data) && Ready(task, view)
        && served.tasks == [view] + ServeUpTo(ctx.View(), n - 1).tasks
        && served.rest == ServeUpTo(ctx.View(), n - 1).rest
      else
        && served.tasks == [] && served.rest == ctx.View()
        && (close <==> ctx.state == Bad || (ctx.state == Done && left == 0))
        && (thrown <==> ctx.state == Done && left > 0) && (thrown ==> blocks == 0)
  {
    Turn(ctx.View(), Min(left, blocks));
    hide ServeUpTo;
    var stop := ctx.Analysis();
    task, view, close, thrown := null, ctx.View(), ctx.state == Bad || (ctx.state == Done && left == 0), false;
    if ctx.state == Done && left > 0 {
      view := Former(ctx.View());
      var made;
      made, thrown := HandOver(ctx, blocks > 0);
      if !thrown {
        task := made;
      }
    }
  }

  /** Runs the parser, hands over a complete message, and again. `budget` is how many
      task allocations succeed, `blocks` how many allocations of a task's bytes. `close`
      asks the pool to close the connection: the bytes are malformed, or there was no
      memory for a task. Without memory for a task's bytes an exception ends the loop. */
  method Drain(ctx: ChttpContext, budget: nat, blocks: nat)
    returns (tasks: seq<ChttpContext>, ghost views: seq<Parse>, ghost owned: set<object>, close: bool, thrown: bool)
    requires ctx.Valid() && ctx.Inited()
    modifies ctx, ctx.buffer.data
    ensures ctx.Valid() && ctx.Inited() && Outcome(views, ctx.View()) == ServeUpTo(old(ctx.View()), Min(budget, blocks))
    ensures AllReady(tasks, views, owned) && fresh(owned)
    ensures close <==> ctx.state == Bad || (ctx.state == Done && budget <= blocks)
    ensures thrown <==> ctx.state == Done && blocks < budget
  {
    hide Wf, Ready;
    ghost var goal := ServeUpTo(ctx.View(), Min(budget, blocks));
    tasks, views, owned := [], [], {};
    var left, have, more := budget, blocks, true;
    close, thrown := false, false;
    while more
      invariant ctx.Valid() && ctx.Inited() && budget - left == blocks - have
      invariant AllReady(tasks, views, owned) && fresh(owned)
      invariant more ==> Owed(goal, views, ServeUpTo(ctx.View(), Min(left, have)))
      invariant !more ==> goal == Outcome(views, ctx.View()) && Ended(ctx, budget <= blocks, close, thrown)
      decreases more, left
    {
      more, tasks, views, owned, close, thrown := Round(ctx, left, have, tasks, views, owned, goal);
      if more {
        left, have := left - 1, have - 1;
      }
    }
  }

  /** How the loop ends, when a task can or cannot be had before its bytes. */
  ghost predicate Ended(ctx: ChttpContext, noTask: bool, close: bool, thrown: bool)
    reads ctx
  {
    && (close <==> ctx.state == Bad || (ctx.state == Done && noTask))
    && (thrown <==> ctx.state == Done && !noTask)
  }

  /** `goal` is what has been served, and then `rest`. */
  ghost predicate Owed(goal: Outcome, views: seq<Parse>, rest: Outcome) {
    goal == Outcome(views + rest.tasks, rest.rest)
  }

  method Round(ctx: ChttpContext, left: nat, have: nat, tasks: seq<ChttpContext>, ghost views: seq<Parse>, ghost owned: set<object>, ghost goal: Outcome)
    returns (more: bool, tasks': seq<ChttpContext>, ghost views': seq<Parse>, ghost owned': set<object>, close: bool, thrown: bool)
    requires ctx.Valid() && ctx.Inited() && ctx !in owned && ctx.buffer !in owned && ctx.buffer.data !in owned
    requires AllReady(tasks, views, owned) && Owed(goal, views, ServeUpTo(ctx.View(), Min(left, have)))
    modifies ctx, ctx.buffer.data
    ensures ctx.Valid() && ctx.Inited()
    ensures owned <= owned' && fresh(owned' - owned) && AllReady(tasks', views', owned')
    ensures more ==> Min(left, have) > 0 && Owed(goal, views', ServeUpTo(ctx.View(), Min(left - 1, have - 1)))
    ensures !more ==> goal == Outcome(views', ctx.View()) && Ended(ctx, left <= have, close, thrown)
  {
    hide Wf, ServeUpTo, Ready;
    ghost var before := ServeUpTo(ctx.View(), Min(left, have));
    tasks', views', owned' := tasks, views, owned;
    var task;
    ghost var view;
    task, view, close, thrown := ServeOne(ctx, left, have);
    more := task != null;
    if more {
      OwedTurn(goal, views, before, view, ServeUpTo(ctx.View(), Min(left - 1, have - 1)));
      AddTask(tasks, views, owned, task, view);
      tasks', views', owned' := tasks + [task], views + [view], owned + {task, task.buffer, task.buffer.data};
    }
  }

  lemma OwedTurn(goal: Outcome, views: seq<Parse>, before: Outcome, view: Parse, rest: Outcome)
    requires Owed(goal, views, before) && before.tasks == [view] + rest.tasks && before.rest == rest.rest
    ensures Owed(goal, views + [view], rest)
  {
    assert views + ([view] + rest.tasks) == (views + [view]) + rest.tasks;
  }

  /** Takes in `length` bytes written behind the received ones, none if they do not
      fit, and serves what is complete: the tasks' contexts and the bytes left are those
      of `ServeUpTo`. */
  method Message(ctx: ChttpContext, length: nat, budget: nat, blocks: nat)
    returns (tasks: seq<ChttpContext>, ghost views: seq<Parse>, ghost owned: set<object>, close: bool, thrown: bool)
    requires ctx.Valid() && ctx.Inited()
    modifies ctx, ctx.buffer.data
    ensures ctx.Valid() && ctx.Inited()
    ensures var received :=
        if old(ctx.nowIndex) + length <= old(ctx.buffer.length)
        then Extend(old(ctx.View()), old(ctx.buffer.data[ctx.nowIndex..ctx.nowIndex + length]))
        else old(ctx.View());
      Wf(received) && Outcome(views, ctx.View()) == ServeUpTo(received, Min(budget, blocks))
    ensures AllReady(tasks, views, owned) && fresh(owned)
    ensures close <==> ctx.state == Bad || (ctx.state == Done && budget <= blocks)
    ensures thrown <==> ctx.state == Done && blocks < budget
  {
    hide ServeUpTo, Wf;
    ctx.RecvPush(length);
    tasks, views, owned, close, thrown := Drain(ctx, budget, blocks);
  }
}
