/** The race between a parent's idling row and its child's terminal row. The two may be recorded in
    either order and with anything in between that leaves the two attempts alone, and the child may have
    answered, crashed or timed out: the parent has news in the end. */
module Races {
  import opened Options
  import opened Attempts
  import opened Bus
  import opened Schedule
  import opened Protocol
  import opened Keeps
  import opened Runs
  import opened Wakes
  import opened Effects
  import opened Oversight
  import opened Collecting
  import opened Turns
  import opened Journeys

  /** An attempt whose process has ended, newest of its task and not waiting in the queue. */
  ghost predicate Pinned(w: World, agent: nat) {
    && agent in Snap(w).attempts && !Snap(w).attempts[agent].Queued? && agent !in w.alive
    && NewestAgent(Snap(w), OwnerIn(Snap(w), agent)) == agent
  }

  /** The attempt, its last row, its outcome and what it measured are as they were. */
  ghost predicate SameFor(w: World, w': World, agent: nat) {
    && agent in Snap(w).attempts && agent in Snap(w').attempts
    && Snap(w').attempts[agent] == Snap(w).attempts[agent] && OwnerIn(Snap(w'), agent) == OwnerIn(Snap(w), agent)
    && NewestRow(Snap(w'), OwnerIn(Snap(w), agent)) == NewestRow(Snap(w), OwnerIn(Snap(w), agent))
    && (agent in w'.outcomes <==> agent in w.outcomes)
    && (agent in w.outcomes ==> w'.outcomes[agent] == w.outcomes[agent])
    && (agent in w.idled ==> agent in w'.idled && w'.idled[agent] == w.idled[agent])
  }

  /** The step neither records a row for the attempt, nor collects it, nor queues its task again. */
  ghost predicate Spares(w: World, move: Move, agent: nat) {
    var task := OwnerIn(Snap(w), agent);
    match move
    case Others(act) =>
      (match act
       case Delegate(_, dir) => TaskFor(w.rows, dir) != task
       case Watch(_, dir) => TaskFor(w.rows, dir) != task
       case Answer(asked) => TaskFor(w.rows, TaskOf(Snap(w), asked).dir) != task
       case Collect(_, asked) => Addressed(Snap(w), asked) != agent
       case _ => true)
    case Launches(other, _) => other != agent
    case Closes(other, _) => other != agent
    case Wakes(woken) => TaskFor(w.rows, woken.dir) != task
    case _ => true
  }

  lemma SameForOn(w0: World, w1: World, w2: World, agent: nat)
    requires SameFor(w0, w1, agent) && SameFor(w1, w2, agent)
    ensures SameFor(w0, w2, agent)
  {
    hide Snap;
  }

  lemma SameRowsSpare(w: World, w': World, agent: nat)
    requires Pinned(w, agent) && w'.rows == w.rows && agent !in w'.alive
    requires agent in w'.outcomes <==> agent in w.outcomes
    requires agent in w.outcomes ==> w'.outcomes[agent] == w.outcomes[agent]
    requires agent in w.idled ==> agent in w'.idled && w'.idled[agent] == w.idled[agent]
    ensures Pinned(w', agent) && SameFor(w, w', agent)
  {
  }

  /** Nothing but the log and the processes changed, and this attempt has no process still. */
  ghost predicate LogOnly(w: World, w': World, agent: nat) {
    w'.outcomes == w.outcomes && w'.idled == w.idled && agent !in w'.alive
  }

  lemma RowSpares(w: World, w': World, agent: nat, other: nat, state: Attempt, row: nat)
    requires Pinned(w, agent) && LogOnly(w, w', agent) && other != agent
    requires Moves(Snap(w), Snap(w'), other, state, row)
    ensures Pinned(w', agent) && SameFor(w, w', agent)
  {
    hide Snap;
  }

  lemma AddSpares(w: World, w': World, agent: nat, task: nat, added: nat, row: nat)
    requires Pinned(w, agent) && LogOnly(w, w', agent) && task != OwnerIn(Snap(w), agent)
    requires Adds(Snap(w), Snap(w'), task, added, row) && Snap(w).taskByAgent.Keys == Snap(w).attempts.Keys
    ensures Pinned(w', agent) && SameFor(w, w', agent)
  {
    hide Snap;
  }

  lemma QueueSpares(w: World, agent: nat, dir: string, parent: nat, ts: int)
    requires Inv(w) && Pinned(w, agent) && TaskFor(w.rows, dir) != OwnerIn(Snap(w), agent)
    ensures Pinned(Queue(w, dir, parent, ts), agent) && SameFor(w, Queue(w, dir, parent, ts), agent)
  {
    hide Legal, SnapshotOf, Pinned, SameFor;
    InvIsLegal(w);
    assert agent !in w.alive by {
      PinnedHasEnded(w, agent);
    }
    QueueAdds(w, dir, parent, ts);
    AddSpares(w, Queue(w, dir, parent, ts), agent, TaskFor(w.rows, dir), |w.rows.agents| + 1, |w.rows.events| + 1);
  }

  lemma PinnedHasEnded(w: World, agent: nat)
    requires Pinned(w, agent)
    ensures agent !in w.alive && agent in Snap(w).attempts
  {
  }

  lemma ClaimSpares(w: World, agent: nat, limit: int, ts: int)
    requires Inv(w) && Pinned(w, agent)
    ensures Pinned(Claiming(w, TakenFor(w, limit), ts), agent) && SameFor(w, Claiming(w, TakenFor(w, limit), ts), agent)
  {
    hide Inv, SnapshotOf;
    ClaimingFlows(w, limit, ts);
    var w' := Claiming(w, TakenFor(w, limit), ts);
    assert agent !in TakenFor(w, limit);
    assert OwnerIn(Snap(w'), agent) == OwnerIn(Snap(w), agent);
    assert NewestAgent(Snap(w'), OwnerIn(Snap(w), agent)) == agent;
    assert EventsIn(Snap(w'), agent) == EventsIn(Snap(w), agent);
  }

  lemma CollectSpares(w: World, agent: nat, who: nat, asked: nat, ts: int)
    requires Inv(w) && Pinned(w, agent) && Collectable(Snap(w), asked) && Addressed(Snap(w), asked) != agent
    ensures Pinned(CollectedBy(w, who, asked, ts), agent) && SameFor(w, CollectedBy(w, who, asked, ts), agent)
  {
    hide Inv, SnapshotOf, Pinned, SameFor, Moves;
    PinnedHasEnded(w, agent);
    CollectMoves(w, who, asked, ts);
    RowSpares(w, CollectedBy(w, who, asked, ts), agent, Addressed(Snap(w), asked),
              NextState(Snap(w).attempts[Addressed(Snap(w), asked)], COLLECTED, WORKER, 0).value, |w.rows.events| + 1);
  }

  lemma ActSpares(w: World, agent: nat, act: Action, maxDepth: int, ts: int)
    requires Inv(w) && Pinned(w, agent) && Spares(w, Others(act), agent)
    ensures Pinned(Act(w, act, maxDepth, ts), agent) && SameFor(w, Act(w, act, maxDepth, ts), agent)
  {
    hide Inv, Pinned, SameFor, Collectable, MayDelegate, Answerable, ActiveFor, SnapshotOf;
    PinnedHasEnded(w, agent);
    var w' := Act(w, act, maxDepth, ts);
    if Enabled(w, act, maxDepth) {
      match act
      case Delegate(who, dir) => QueueSpares(w, agent, dir, who, ts);
      case Watch(who, dir) => QueueSpares(w, agent, dir, who, ts);
      case Answer(asked) => QueueSpares(w, agent, TaskOf(Snap(w), asked).dir, TaskOf(Snap(w), asked).parentAgent, ts);
      case Collect(who, asked) => CollectSpares(w, agent, who, asked, ts);
      case Idle(who) => SameRowsSpare(w, w', agent);
      case Halt(who) => SameRowsSpare(w, w', agent);
      case Finish(who, kind) => SameRowsSpare(w, w', agent);
      case Exit(who) => SameRowsSpare(w, w', agent);
    } else {
      SameRowsSpare(w, w', agent);
    }
  }

  lemma CloseSpares(w: World, agent: nat, other: nat, close: AgentStatus, ts: int)
    requires Inv(w) && Pinned(w, agent) && Closable(w, other) && IsClose(close) && other != agent
    ensures Pinned(ClosedBy(w, other, close, ts), agent) && SameFor(w, ClosedBy(w, other, close, ts), agent)
  {
    hide Inv, Pinned, SameFor, SnapshotOf, Moves;
    PinnedHasEnded(w, agent);
    CloseKeeps(w, other, close, ts);
    RowSpares(w, ClosedBy(w, other, close, ts), agent, other,
              if other in w.outcomes then Closed(w.outcomes[other].kind) else Lost(close), |w.rows.events| + 1);
  }

  lemma MoveSpares(w: World, agent: nat, step: Step, maxDepth: int)
    requires Inv(w) && Pinned(w, agent) && Spares(w, step.move, agent)
    ensures Pinned(Moved(w, step, maxDepth), agent) && SameFor(w, Moved(w, step, maxDepth), agent)
  {
    hide Inv, Pinned, SameFor, Act, HasNews, SnapshotOf, Claiming, ClosedBy, Queue, Moves;
    PinnedHasEnded(w, agent);
    if Ready(w, step.move) {
      match step.move
      case Others(act) => ActSpares(w, agent, act, maxDepth, step.ts);
      case Claims(limit) => ClaimSpares(w, agent, limit, step.ts);
      case Launches(other, pid) =>
        LaunchKeeps(w, other, pid, step.ts);
        RowSpares(w, Launching(w, other, pid, step.ts), agent, other, Running(pid), |w.rows.events| + 1);
      case Closes(other, close) => CloseSpares(w, agent, other, close, step.ts);
      case Kills(other) => SameRowsSpare(w, Killed(w, other), agent);
      case Wakes(woken) => QueueSpares(w, agent, woken.dir, woken.parentAgent, step.ts);
    } else {
      SameRowsSpare(w, w, agent);
    }
  }

  /** Every step of the run spares the attempt. */
  ghost predicate Spared(w: World, steps: seq<Step>, maxDepth: int, agent: nat) {
    forall i :: 0 <= i < |steps| ==> Spares(Run(w, steps[..i], maxDepth), steps[i].move, agent)
  }

  lemma SparedPrefix(w: World, steps: seq<Step>, maxDepth: int, agent: nat)
    requires steps != [] && Spared(w, steps, maxDepth, agent)
    ensures Spared(w, steps[..|steps| - 1], maxDepth, agent)
    ensures Spares(Run(w, steps[..|steps| - 1], maxDepth), steps[|steps| - 1].move, agent)
  {
    var init := steps[..|steps| - 1];
    forall i | 0 <= i < |init|
      ensures Spares(Run(w, init[..i], maxDepth), init[i].move, agent)
    {
      assert init[..i] == steps[..i];
    }
  }

  lemma {:induction false} RunSpares(w: World, agent: nat, steps: seq<Step>, maxDepth: int)
    requires Inv(w) && Pinned(w, agent) && Spared(w, steps, maxDepth, agent)
    ensures Pinned(Run(w, steps, maxDepth), agent) && SameFor(w, Run(w, steps, maxDepth), agent)
  {
    hide Inv, Pinned, SameFor, Spared, Spares, Moved, SnapshotOf;
    if steps == [] {
      PinnedHasEnded(w, agent);
      SameRowsSpare(w, w, agent);
    } else {
      var init := steps[..|steps| - 1];
      SparedPrefix(w, steps, maxDepth, agent);
      RunSpares(w, agent, init, maxDepth);
      RunKeeps(w, init, maxDepth);
      MoveSpares(Run(w, init, maxDepth), agent, steps[|steps| - 1], maxDepth);
      SameForOn(w, Run(w, init, maxDepth), Run(w, steps, maxDepth), agent);
    }
  }

  // ---------------------------------------------------------------------------------------------
  // What a close leaves.

  lemma NewestIsPinned(w: World, task: nat)
    requires Inv(w) && task in Snap(w).agentsByTask && Closable(w, NewestAgent(Snap(w), task))
    ensures Pinned(w, NewestAgent(Snap(w), task)) && OwnerIn(Snap(w), NewestAgent(Snap(w), task)) == task
  {
    hide Legal, SnapshotOf;
    NewestIsLargest(Snap(w), |w.rows.events|, task);
  }

  /** The attempt is settled, its row is the last of the log, and files and measures are untouched. */
  lemma CloseLands(w: World, agent: nat, close: AgentStatus, ts: int)
    requires Inv(w) && Closable(w, agent) && IsClose(close) && Pinned(w, agent)
    ensures var w', task := ClosedBy(w, agent, close, ts), OwnerIn(Snap(w), agent);
      && Inv(w') && Pinned(w', agent) && w'.outcomes == w.outcomes && w'.idled == w.idled
      && |w'.rows.events| == |w.rows.events| + 1
      && OwnerIn(Snap(w'), agent) == task && NewestRow(Snap(w'), task) == |w.rows.events| + 1
      && Snap(w').attempts[agent] == if agent in w.outcomes then Closed(w.outcomes[agent].kind) else Lost(close)
  {
    hide Inv, SnapshotOf;
    CloseKeeps(w, agent, close, ts);
  }

  lemma CloseFlows(w: World, agent: nat, close: AgentStatus, ts: int)
    requires Inv(w) && Closable(w, agent) && IsClose(close)
    ensures Flows(Snap(w), Snap(ClosedBy(w, agent, close, ts)))
  {
    hide Inv, Flows, SnapshotOf, ClosedBy;
    MoveFlows(w, Step(Closes(agent, close), ts), 0);
  }

  lemma MoveKeepsMeasures(w: World, step: Step, maxDepth: int, agent: nat)
    requires agent in w.idled
    ensures agent in Moved(w, step, maxDepth).idled && Moved(w, step, maxDepth).idled[agent] == w.idled[agent]
  {
    hide HasNews, SnapshotOf;
  }

  lemma {:induction false} RunKeepsMeasures(w: World, steps: seq<Step>, maxDepth: int, agent: nat)
    requires agent in w.idled
    ensures agent in Run(w, steps, maxDepth).idled && Run(w, steps, maxDepth).idled[agent] == w.idled[agent]
  {
    hide Moved;
    if steps != [] {
      RunKeepsMeasures(w, steps[..|steps| - 1], maxDepth, agent);
      MoveKeepsMeasures(Run(w, steps[..|steps| - 1], maxDepth), steps[|steps| - 1], maxDepth, agent);
    }
  }

  /** An idling task's newest attempt reports the watermark it measured. */
  lemma IdlingReportsItsMeasure(w: World, task: nat)
    requires Inv(w) && IsIdling(Snap(w), task) && NewestAgent(Snap(w), task) in w.idled
    ensures var newest := NewestAgent(Snap(w), task);
      newest in w.outcomes && w.outcomes[newest].seenThrough == w.idled[newest].seenThrough && task in Snap(w).agentsByTask
  {
    assert Sited(Snap(w), NewestAgent(Snap(w), task));
  }

  /** An attempt halts only over a child at work, and a halt loses no answer: whatever happens from then
      on, while the halt idles its task has news exactly when some child's answer is unread. */
  lemma HaltSeesEveryUnread(w: World, who: nat, steps: seq<Step>, maxDepth: int, ts: int)
    requires Inv(w) && Enabled(w, Halt(who), maxDepth)
    ensures var halted, task := Act(w, Halt(who), maxDepth, ts), OwnerIn(Snap(w), who);
      && who in halted.idled && halted.idled[who].waiting != []
      && var w' := Run(halted, steps, maxDepth);
         Inv(w') && (NewestAgent(Snap(w'), task) == who && IsIdling(Snap(w'), task) ==>
           (HasNews(Snap(w'), task) <==>
            exists child :: child in Snap(w').tasks && IsChild(Snap(w'), task, child) &&
                            IsNews(Snap(w'), NewestAgent(Snap(w'), child.id))))
  {
    hide Inv, Run, HasNews, SnapshotOf, NewestAgent, IsIdling, IsChild, IsNews;
    var halted, task := Act(w, Halt(who), maxDepth, ts), OwnerIn(Snap(w), who);
    ActKeeps(w, Halt(who), maxDepth, ts);
    RunKeeps(halted, steps, maxDepth);
    RunKeepsMeasures(halted, steps, maxDepth, who);
    var w' := Run(halted, steps, maxDepth);
    if NewestAgent(Snap(w'), task) == who && IsIdling(Snap(w'), task) {
      IdlingReportsItsMeasure(w', task);
      NoWatermarkSeesEveryUnread(w', task);
    }
  }

  lemma MeasuredBefore(w: World, agent: nat)
    requires Inv(w) && (agent in w.idled || (agent in w.outcomes && w.outcomes[agent].kind.IDLING?))
    ensures agent in w.idled && w.idled[agent].seenThrough <= w.idled[agent].mark <= |w.rows.events|
  {
  }

  // ---------------------------------------------------------------------------------------------
  // Either order wakes.

  /** The two rows have been recorded, the child's after everything the parent measured. */
  ghost predicate BothIn(w: World, task: nat, child: HarnessTask, bound: nat) {
    var parent, c := NewestAgent(Snap(w), task), NewestAgent(Snap(w), child.id);
    && Inv(w) && child in Snap(w).tasks && IsChild(Snap(w), task, child) && task in Snap(w).agentsByTask
    && IsIdling(Snap(w), task) && parent in w.idled && w.idled[parent].seenThrough <= bound
    && IsNews(Snap(w), c) && NewestRow(Snap(w), child.id) > bound
  }

  lemma BothInIsNews(w: World, task: nat, child: HarnessTask, bound: nat)
    requires BothIn(w, task, child, bound)
    ensures HasNews(Snap(w), task)
  {
    hide Legal, SnapshotOf;
    UnreadIsNews(w, task, child);
  }

  lemma ChildrenFlow(w: World, w': World, task: nat, child: HarnessTask)
    requires Inv(w) && Inv(w') && Flows(Snap(w), Snap(w'))
    requires task in Snap(w).agentsByTask && child in Snap(w).tasks && IsChild(Snap(w), task, child)
    ensures task in Snap(w').agentsByTask && child in Snap(w').tasks && IsChild(Snap(w'), task, child)
  {
    hide Legal, SnapshotOf;
    assert Roster(Snap(w), task) && Sited(Snap(w'), child.parentAgent);
  }

  /** The parent's newest attempt idled and its process has ended. */
  ghost predicate ParentDone(w: World, task: nat) {
    var parent := NewestAgent(Snap(w), task);
    task in Snap(w).agentsByTask && Closable(w, parent) && parent in w.outcomes && w.outcomes[parent].kind.IDLING?
  }

  /** The child's newest attempt has ended with anything but idling: a verdict, a crash or a timeout. */
  ghost predicate ChildDone(w: World, task: nat, child: HarnessTask, close: AgentStatus) {
    var c := NewestAgent(Snap(w), child.id);
    && task in Snap(w).agentsByTask && child in Snap(w).tasks && IsChild(Snap(w), task, child)
    && IsClose(close) && Closable(w, c) && !CloseStatus(w, c, close).IDLING?
  }

  /** Close the newest attempt of one task, let the run go on, close that of the other. */
  function Race(w: World, first: nat, steps: seq<Step>, second: nat, close: AgentStatus, maxDepth: int,
                ts: int, ts': int): World {
    var mid := Run(ClosedBy(w, NewestAgent(Snap(w), first), close, ts), steps, maxDepth);
    ClosedBy(mid, NewestAgent(Snap(mid), second), close, ts')
  }

  function Midway(w: World, first: nat, steps: seq<Step>, close: AgentStatus, maxDepth: int, ts: int): World {
    Run(ClosedBy(w, NewestAgent(Snap(w), first), close, ts), steps, maxDepth)
  }

  lemma ChildIsATask(w: World, task: nat, child: HarnessTask, close: AgentStatus)
    requires Inv(w) && ChildDone(w, task, child, close)
    ensures child.id in Snap(w).agentsByTask
  {
    TaskById(Snap(w), |w.rows.events|, child);
  }

  /** The parent's row first. In between the child may still run, be killed, even be queued anew: what
      counts is what is closed in the end. */
  lemma ParentFirst(w: World, task: nat, child: HarnessTask, close: AgentStatus, steps: seq<Step>,
                    maxDepth: int, ts: int, ts': int)
    requires Inv(w) && IsClose(close) && ParentDone(w, task)
    requires Spared(ClosedBy(w, NewestAgent(Snap(w), task), close, ts), steps, maxDepth, NewestAgent(Snap(w), task))
    requires ChildDone(Midway(w, task, steps, close, maxDepth, ts), task, child, close)
    ensures HasNews(Snap(Race(w, task, steps, child.id, close, maxDepth, ts, ts')), task)
  {
    hide Inv, Spared, Run, SnapshotOf, ClosedBy, Flows, HasNews, IsChild;
    var parent := NewestAgent(Snap(w), task);
    var w1 := ClosedBy(w, parent, close, ts);
    var w2 := Run(w1, steps, maxDepth);
    var c, end := NewestAgent(Snap(w2), child.id), Race(w, task, steps, child.id, close, maxDepth, ts, ts');
    NewestIsPinned(w, task);
    MeasuredBefore(w, parent);
    CloseLands(w, parent, close, ts);
    RunKeeps(w1, steps, maxDepth);
    RunAppends(w1, steps, maxDepth);
    RunSpares(w1, parent, steps, maxDepth);
    ChildIsATask(w2, task, child, close);
    NewestIsPinned(w2, child.id);
    CloseLands(w2, c, close, ts');
    CloseSpares(w2, parent, c, close, ts');
    CloseFlows(w2, c, close, ts');
    ChildrenFlow(w2, end, task, child);
    BothInIsNews(end, task, child, |w.rows.events|);
  }

  /** The child's row first. In between the parent, which had measured the log by then, may still run;
      the child is neither collected nor queued anew. */
  lemma ChildFirst(w: World, task: nat, child: HarnessTask, close: AgentStatus, steps: seq<Step>,
                   maxDepth: int, ts: int, ts': int)
    requires Inv(w) && ChildDone(w, task, child, close)
    requires Spared(ClosedBy(w, NewestAgent(Snap(w), child.id), close, ts), steps, maxDepth, NewestAgent(Snap(w), child.id))
    requires ParentDone(Midway(w, child.id, steps, close, maxDepth, ts), task)
    requires NewestAgent(Snap(Midway(w, child.id, steps, close, maxDepth, ts)), task) in w.idled
    ensures HasNews(Snap(Race(w, child.id, steps, task, close, maxDepth, ts, ts')), task)
  {
    hide Inv, Spared, Run, SnapshotOf, ClosedBy, Flows, HasNews, IsChild;
    var c := NewestAgent(Snap(w), child.id);
    var w1 := ClosedBy(w, c, close, ts);
    var w2 := Run(w1, steps, maxDepth);
    var parent, end := NewestAgent(Snap(w2), task), Race(w, child.id, steps, task, close, maxDepth, ts, ts');
    ChildIsATask(w, task, child, close);
    NewestIsPinned(w, child.id);
    MeasuredBefore(w, parent);
    CloseLands(w, c, close, ts);
    CloseFlows(w, c, close, ts);
    ChildrenFlow(w, w1, task, child);
    RunKeeps(w1, steps, maxDepth);
    RunFlows(w1, steps, maxDepth);
    ChildrenFlow(w1, w2, task, child);
    RunSpares(w1, c, steps, maxDepth);
    RunKeepsMeasures(w1, steps, maxDepth, parent);
    NewestIsPinned(w2, task);
    CloseLands(w2, parent, close, ts');
    CloseSpares(w2, c, parent, close, ts');
    CloseFlows(w2, parent, close, ts');
    ChildrenFlow(w2, end, task, child);
    BothInIsNews(end, task, child, |w.rows.events|);
  }

  /** What a run that spares an ended attempt keeps of it. */
  lemma SparedStaysDone(w: World, w': World, agent: nat, close: AgentStatus)
    requires Closable(w, agent) && Pinned(w, agent) && SameFor(w, w', agent) && Pinned(w', agent)
    ensures Closable(w', agent) && CloseStatus(w', agent, close) == CloseStatus(w, agent, close)
    ensures NewestAgent(Snap(w'), OwnerIn(Snap(w), agent)) == agent
  {
    hide SnapshotOf;
  }

  lemma DifferentAttempts(w: World, task: nat, child: HarnessTask, close: AgentStatus)
    requires Inv(w) && ParentDone(w, task) && ChildDone(w, task, child, close)
    ensures NewestAgent(Snap(w), task) != NewestAgent(Snap(w), child.id)
  {
  }

  /** While the first of two ended attempts is closed and a run spares the second, it stays as it was. */
  lemma StaysDone(w: World, first: nat, second: nat, close: AgentStatus, steps: seq<Step>, maxDepth: int, ts: int,
                  task: nat, child: HarnessTask)
    requires Inv(w) && IsClose(close) && Closable(w, first) && Closable(w, second) && first != second
    requires Pinned(w, first) && Pinned(w, second)
    requires task in Snap(w).agentsByTask && child in Snap(w).tasks && IsChild(Snap(w), task, child)
    requires Spared(ClosedBy(w, first, close, ts), steps, maxDepth, second)
    ensures var mid := Run(ClosedBy(w, first, close, ts), steps, maxDepth);
      && Closable(mid, second) && CloseStatus(mid, second, close) == CloseStatus(w, second, close)
      && (second in mid.outcomes <==> second in w.outcomes)
      && (second in w.outcomes ==> mid.outcomes[second] == w.outcomes[second])
      && NewestAgent(Snap(mid), OwnerIn(Snap(w), second)) == second
      && task in Snap(mid).agentsByTask && child in Snap(mid).tasks && IsChild(Snap(mid), task, child)
  {
    hide Inv, Spared, Run, SnapshotOf, ClosedBy, Flows, Pinned, Closable, CloseStatus, IsChild;
    var w1 := ClosedBy(w, first, close, ts);
    var mid := Run(w1, steps, maxDepth);
    CloseLands(w, first, close, ts);
    CloseFlows(w, first, close, ts);
    CloseSpares(w, second, first, close, ts);
    RunKeeps(w1, steps, maxDepth);
    RunFlows(w1, steps, maxDepth);
    RunSpares(w1, second, steps, maxDepth);
    SameForOn(w, w1, mid, second);
    SparedStaysDone(w, mid, second, close);
    ChildrenFlow(w, w1, task, child);
    ChildrenFlow(w1, mid, task, child);
  }

  /** When both processes have ended before either row, the parent wakes in both orders, with any run in
      between that spares the two. */
  lemma EitherReapOrderWakes(w: World, task: nat, child: HarnessTask, close: AgentStatus, steps: seq<Step>,
                             maxDepth: int,
                             ts: int, ts': int)
    requires Inv(w) && ParentDone(w, task) && ChildDone(w, task, child, close)
    ensures var parent, c := NewestAgent(Snap(w), task), NewestAgent(Snap(w), child.id);
      && (Spared(ClosedBy(w, parent, close, ts), steps, maxDepth, parent)
          && Spared(ClosedBy(w, parent, close, ts), steps, maxDepth, c)
          ==> HasNews(Snap(Race(w, task, steps, child.id, close, maxDepth, ts, ts')), task))
      && (Spared(ClosedBy(w, c, close, ts), steps, maxDepth, parent)
          && Spared(ClosedBy(w, c, close, ts), steps, maxDepth, c)
          ==> HasNews(Snap(Race(w, child.id, steps, task, close, maxDepth, ts, ts')), task))
  {
    hide Inv, Spared, Run, SnapshotOf, ClosedBy, Flows, HasNews, Pinned, SameFor, Race;
    var parent, c := NewestAgent(Snap(w), task), NewestAgent(Snap(w), child.id);
    ChildIsATask(w, task, child, close);
    NewestIsPinned(w, task);
    NewestIsPinned(w, child.id);
    DifferentAttempts(w, task, child, close);
    if Spared(ClosedBy(w, parent, close, ts), steps, maxDepth, parent) &&
       Spared(ClosedBy(w, parent, close, ts), steps, maxDepth, c) {
      StaysDone(w, parent, c, close, steps, maxDepth, ts, task, child);
      ParentFirst(w, task, child, close, steps, maxDepth, ts, ts');
    }
    if Spared(ClosedBy(w, c, close, ts), steps, maxDepth, parent) && Spared(ClosedBy(w, c, close, ts), steps, maxDepth, c) {
      StaysDone(w, c, parent, close, steps, maxDepth, ts, task, child);
      MeasuredBefore(w, parent);
      ChildFirst(w, task, child, close, steps, maxDepth, ts, ts');
    }
  }
}
