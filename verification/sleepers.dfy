/** Who stays asleep: an idling task whose children hold nothing after its watermark sleeps on through
    everything that does not queue the task, a child of it, or a new child; and how a task gets there. */
module Sleepers {
  import opened Options
  import opened Attempts
  import opened Bus
  import opened Schedule
  import opened Protocol
  import opened Keeps
  import opened Runs
  import opened Wakes
  import opened Effects
  import opened Oversight
  import opened Collecting
  import opened Journeys

  /** The task's newest attempt measured the log, and no child holds anything after what it saw. */
  ghost predicate Dormant(w: World, task: nat, idler: nat) {
    && idler == NewestAgent(Snap(w), task) && idler in Snap(w).attempts && OwnerIn(Snap(w), idler) == task
    && idler in w.idled && NothingComing(Snap(w), task, w.idled[idler].seenThrough)
  }

  /** The step queues neither the task nor a child of it, and makes it no new child. The supervisor's
      own steps never do while the task is dormant. */
  ghost predicate LeavesAlone(w: World, move: Move, task: nat) {
    match move
    case Others(act) =>
      (match act
       case Delegate(who, dir) => Apart(w, task, dir, who)
       case Watch(who, dir) => Apart(w, task, dir, who)
       case Answer(agent) => Apart(w, task, TaskOf(Snap(w), agent).dir, TaskOf(Snap(w), agent).parentAgent)
       case _ => true)
    case _ => true
  }

  lemma DormantHasNoNews(w: World, task: nat, idler: nat)
    requires Inv(w) && Dormant(w, task, idler)
    ensures !HasNews(Snap(w), task)
  {
    if HasNews(Snap(w), task) {
      NewsMeansIdling(w, task);
      assert Sited(Snap(w), idler);
      NothingComingIsNoNews(w, task);
    }
  }

  lemma SameRowsKeepDormant(w: World, w': World, task: nat, idler: nat)
    requires Dormant(w, task, idler) && w'.rows == w.rows
    requires idler in w'.idled && w'.idled[idler] == w.idled[idler]
    ensures Dormant(w', task, idler)
  {
  }

  lemma RowKeepsDormant(w: World, w': World, task: nat, idler: nat, agent: nat, status: AgentStatus,
                        source: EventSource,
                        pid: int, row: nat)
    requires Dormant(w, task, idler) && w'.idled == w.idled
    requires agent in Snap(w).attempts && NextState(Snap(w).attempts[agent], status, source, pid).Some?
    requires Moves(Snap(w), Snap(w'), agent, NextState(Snap(w).attempts[agent], status, source, pid).value, row)
    requires status.COLLECTED? ==> Snap(w).attempts[agent] != Closed(IDLING)
    requires Snap(w).attempts[agent].Lost? ==> IsClose(Snap(w).attempts[agent].close)
    ensures Dormant(w', task, idler)
  {
    hide NothingComing, NextState, SnapshotOf;
    NothingComingSurvivesRows(Snap(w), Snap(w'), agent, status, source, pid, row, task, w.idled[idler].seenThrough);
  }

  lemma QueueKeepsDormant(w: World, task: nat, idler: nat, dir: string, parent: nat, ts: int)
    requires Inv(w) && Dormant(w, task, idler) && Apart(w, task, dir, parent)
    ensures Dormant(Queue(w, dir, parent, ts), task, idler)
  {
    hide Inv, Legal, NothingComing, SnapshotOf;
    InvIsLegal(w);
    NothingComingSurvivesQueue(w, dir, parent, ts, task, w.idled[idler].seenThrough);
    QueueAdds(w, dir, parent, ts);
  }

  lemma ClaimKeepsNothingComing(s: Snapshot, s': Snapshot, agents: seq<nat>, task: nat, seen: int)
    requires ClaimMoves(s, s', agents) && NothingComing(s, task, seen)
    requires forall a :: a in agents ==> AttemptIn(s, a).Queued?
    ensures NothingComing(s', task, seen)
  {
    forall child | child in s'.tasks && IsChild(s', task, child)
      ensures !Outstanding(s', child.id) && (NewestState(s', child.id).Collected? || NewestRow(s', child.id) <= seen)
    {
      assert child in s.tasks && IsChild(s, task, child);
      assert NewestAgent(s', child.id) == NewestAgent(s, child.id);
      assert NewestAgent(s, child.id) !in agents;
    }
  }

  lemma ClaimKeepsDormant(w: World, task: nat, idler: nat, limit: int, ts: int)
    requires Inv(w) && Dormant(w, task, idler)
    ensures Dormant(Claiming(w, TakenFor(w, limit), ts), task, idler)
  {
    hide Inv, NothingComing, SnapshotOf;
    var w' := Claiming(w, TakenFor(w, limit), ts);
    ClaimingFlows(w, limit, ts);
    ClaimKeepsNothingComing(Snap(w), Snap(w'), TakenFor(w, limit), task, w.idled[idler].seenThrough);
    assert NewestAgent(Snap(w'), task) == NewestAgent(Snap(w), task);
  }

  lemma CollectKeepsDormant(w: World, task: nat, idler: nat, who: nat, asked: nat, ts: int)
    requires Inv(w) && Dormant(w, task, idler) && Collectable(Snap(w), asked)
    ensures Dormant(CollectedBy(w, who, asked, ts), task, idler)
  {
    hide Inv, Dormant, SnapshotOf, Moves;
    var agent := Addressed(Snap(w), asked);
    InvIsLegal(w);
    CollectionIsRecordable(w, asked);
    LogMoves(w, agent, COLLECTED, WORKER, 0, ts, 0);
    LostWasClosed(w, agent);
    RowKeepsDormant(w, CollectedBy(w, who, asked, ts), task, idler, agent, COLLECTED, WORKER, 0, |w.rows.events| + 1);
  }

  lemma LostWasClosed(w: World, agent: nat)
    requires Inv(w) && agent in Snap(w).attempts
    ensures Snap(w).attempts[agent].Lost? ==> IsClose(Snap(w).attempts[agent].close)
  {
  }

  lemma ActKeepsDormant(w: World, task: nat, idler: nat, act: Action, maxDepth: int, ts: int)
    requires Inv(w) && Dormant(w, task, idler) && LeavesAlone(w, Others(act), task)
    ensures Dormant(Act(w, act, maxDepth, ts), task, idler)
  {
    hide Inv, Dormant, Apart, Collectable, MayDelegate, Answerable, ActiveFor, SnapshotOf;
    var w' := Act(w, act, maxDepth, ts);
    if Enabled(w, act, maxDepth) {
      DormantIdled(w, task, idler);
      match act
      case Delegate(who, dir) => QueueKeepsDormant(w, task, idler, dir, who, ts);
      case Watch(who, dir) => QueueKeepsDormant(w, task, idler, dir, who, ts);
      case Answer(agent) =>
        QueueKeepsDormant(w, task, idler, TaskOf(Snap(w), agent).dir, TaskOf(Snap(w), agent).parentAgent, ts);
      case Collect(who, asked) => CollectKeepsDormant(w, task, idler, who, asked, ts);
      case Idle(who) => SameRowsKeepDormant(w, w', task, idler);
      case Halt(who) => SameRowsKeepDormant(w, w', task, idler);
      case Finish(who, kind) => SameRowsKeepDormant(w, w', task, idler);
      case Exit(who) => SameRowsKeepDormant(w, w', task, idler);
    }
  }

  lemma DormantIdled(w: World, task: nat, idler: nat)
    requires Dormant(w, task, idler)
    ensures idler in w.idled
  {
  }

  /** A wake never reaches a dormant task or a child of it: neither can have news. */
  lemma WakesAreApart(w: World, task: nat, idler: nat, woken: HarnessTask)
    requires Inv(w) && Dormant(w, task, idler) && woken in Snap(w).tasks && HasNews(Snap(w), woken.id)
    ensures Apart(w, task, woken.dir, woken.parentAgent)
  {
    hide Legal, HasNews, SnapshotOf;
    InvIsLegal(w);
    DirOfTask(w, woken);
    DormantHasNoNews(w, task, idler);
    NewsMeansIdling(w, woken.id);
    TaskById(Snap(w), |w.rows.events|, woken);
    TasksAreRows(w);
    forall child | child in Snap(w).tasks && child.dir == woken.dir
      ensures !IsChild(Snap(w), task, child)
    {
      SameDirSameTask(w, child, woken);
    }
  }

  lemma TasksAreRows(w: World)
    requires Inv(w)
    ensures Snap(w).tasks == w.rows.tasks && TaskRows(w.rows.tasks)
    ensures forall t :: t in w.rows.tasks ==> TaskAt(w.rows.tasks, t.dir) != 0
  {
    forall t | t in w.rows.tasks
      ensures TaskAt(w.rows.tasks, t.dir) != 0
    {
      TaskAtExact(w.rows.tasks, t.dir);
    }
  }

  lemma CloseKeepsDormant(w: World, task: nat, idler: nat, agent: nat, close: AgentStatus, ts: int)
    requires Inv(w) && Dormant(w, task, idler) && Closable(w, agent) && IsClose(close)
    ensures Dormant(ClosedBy(w, agent, close, ts), task, idler)
  {
    hide Legal, Dormant, SnapshotOf, Moves;
    CloseIsRecordable(w, agent, close);
    CloseKeeps(w, agent, close, ts);
    RowKeepsDormant(w, ClosedBy(w, agent, close, ts), task, idler, agent, CloseStatus(w, agent, close), SUPERVISOR, 0,
                    |w.rows.events| + 1);
  }

  lemma LaunchKeepsDormant(w: World, task: nat, idler: nat, agent: nat, pid: int, ts: int)
    requires Inv(w) && Dormant(w, task, idler) && AttemptIn(Snap(w), agent).Claimed?
    ensures Dormant(Launching(w, agent, pid, ts), task, idler)
  {
    hide Inv, Dormant, SnapshotOf, Moves;
    RunningIsRecordable(w, agent, pid);
    LaunchKeeps(w, agent, pid, ts);
    RowKeepsDormant(w, Launching(w, agent, pid, ts), task, idler, agent, RUNNING, SUPERVISOR, pid, |w.rows.events| + 1);
  }

  lemma MoveKeepsDormant(w: World, step: Step, maxDepth: int, task: nat, idler: nat)
    requires Inv(w) && Dormant(w, task, idler) && LeavesAlone(w, step.move, task)
    ensures Dormant(Moved(w, step, maxDepth), task, idler)
  {
    hide Inv, Dormant, Act, HasNews, SnapshotOf, Claiming, ClosedBy, Launching, Queue;
    if Ready(w, step.move) {
      DormantIdled(w, task, idler);
      match step.move
      case Others(act) => ActKeepsDormant(w, task, idler, act, maxDepth, step.ts);
      case Claims(limit) => ClaimKeepsDormant(w, task, idler, limit, step.ts);
      case Launches(agent, pid) => LaunchKeepsDormant(w, task, idler, agent, pid, step.ts);
      case Closes(agent, close) => CloseKeepsDormant(w, task, idler, agent, close, step.ts);
      case Kills(agent) => SameRowsKeepDormant(w, Killed(w, agent), task, idler);
      case Wakes(woken) =>
        WakesAreApart(w, task, idler, woken);
        QueueKeepsDormant(w, task, idler, woken.dir, woken.parentAgent, step.ts);
    }
  }

  /** No step of the run queues the task, a child of it, or a new child. */
  ghost predicate LeftAlone(w: World, steps: seq<Step>, maxDepth: int, task: nat) {
    forall i :: 0 <= i < |steps| ==> LeavesAlone(Run(w, steps[..i], maxDepth), steps[i].move, task)
  }

  lemma LeftAlonePrefix(w: World, steps: seq<Step>, maxDepth: int, task: nat)
    requires steps != [] && LeftAlone(w, steps, maxDepth, task)
    ensures LeftAlone(w, steps[..|steps| - 1], maxDepth, task)
    ensures LeavesAlone(Run(w, steps[..|steps| - 1], maxDepth), steps[|steps| - 1].move, task)
  {
    var init := steps[..|steps| - 1];
    forall i | 0 <= i < |init|
      ensures LeavesAlone(Run(w, init[..i], maxDepth), init[i].move, task)
    {
      assert init[..i] == steps[..i];
    }
  }

  lemma {:induction false} RunKeepsDormant(w: World, steps: seq<Step>, maxDepth: int, task: nat, idler: nat)
    requires Inv(w) && Dormant(w, task, idler) && LeftAlone(w, steps, maxDepth, task)
    ensures Dormant(Run(w, steps, maxDepth), task, idler)
  {
    hide Inv, Dormant, Moved, LeftAlone, LeavesAlone;
    if steps != [] {
      var init := steps[..|steps| - 1];
      LeftAlonePrefix(w, steps, maxDepth, task);
      RunKeepsDormant(w, init, maxDepth, task, idler);
      RunKeeps(w, init, maxDepth);
      MoveKeepsDormant(Run(w, init, maxDepth), steps[|steps| - 1], maxDepth, task, idler);
    }
  }

  // ---------------------------------------------------------------------------------------------
  // Asleep for good, and the two ways there.

  /** A dormant idling task sleeps through any run that leaves it alone. */
  lemma StaysAsleep(w: World, steps: seq<Step>, maxDepth: int, task: nat)
    requires Inv(w) && IsIdling(Snap(w), task) && Dormant(w, task, NewestAgent(Snap(w), task))
    requires LeftAlone(w, steps, maxDepth, task)
    ensures var w' := Run(w, steps, maxDepth);
      && Inv(w') && IsIdling(Snap(w'), task) && !HasNews(Snap(w'), task)
      && NewestAgent(Snap(w'), task) == NewestAgent(Snap(w), task)
  {
    hide Inv, Run, HasNews, NothingComing, SnapshotOf, LeftAlone;
    var w', idler := Run(w, steps, maxDepth), NewestAgent(Snap(w), task);
    RunKeeps(w, steps, maxDepth);
    RunFlows(w, steps, maxDepth);
    RunKeepsDormant(w, steps, maxDepth, task, idler);
    DormantHasNoNews(w', task, idler);
  }

  lemma LateIdleIsDormant(w: World, who: nat, ts: int)
    requires Inv(w) && CanAct(w, who) && who !in w.idled && LiveChildren(Snap(w), who) == []
    ensures Dormant(Measured(w, who, |w.rows.events|), OwnerIn(Snap(w), who), who)
  {
    hide Inv, NothingComing, SnapshotOf;
    NewestOfAlive(w, who);
    EmptyHandedMeansNothingComing(w, who);
  }

  /** First way: an attempt that idles when no child of its is at work. From then on, through its exit,
      its reaping and whatever else happens around it, its task never has news. */
  lemma LateIdleSleeps(w: World, who: nat, steps: seq<Step>, maxDepth: int, ts: int)
    requires Inv(w) && Enabled(w, Idle(who), maxDepth) && LiveChildren(Snap(w), who) == []
    requires LeftAlone(Act(w, Idle(who), maxDepth, ts), steps, maxDepth, OwnerIn(Snap(w), who))
    ensures var w', task := Run(Act(w, Idle(who), maxDepth, ts), steps, maxDepth), OwnerIn(Snap(w), who);
      Inv(w') && NewestAgent(Snap(w'), task) == who && !HasNews(Snap(w'), task)
  {
    hide Inv, Run, HasNews, LiveChildren, SnapshotOf, LeftAlone;
    var start, task := Act(w, Idle(who), maxDepth, ts), OwnerIn(Snap(w), who);
    ActKeeps(w, Idle(who), maxDepth, ts);
    LateIdleIsDormant(w, who, ts);
    RunKeeps(start, steps, maxDepth);
    RunKeepsDormant(start, steps, maxDepth, task, who);
    DormantHasNoNews(Run(start, steps, maxDepth), task, who);
  }

  /** Every child but this one is settled and holds nothing after the watermark. */
  ghost predicate LastHope(s: Snapshot, task: nat, last: nat, seen: int) {
    forall child :: child in s.tasks && IsChild(s, task, child) && child.id != last ==>
      !Outstanding(s, child.id) && (NewestState(s, child.id).Collected? || NewestRow(s, child.id) <= seen)
  }

  /** What a collection leaves of every task's newest attempt and its last row. */
  lemma CollectedNewest(w: World, who: nat, asked: nat, ts: int, child: HarnessTask)
    requires Inv(w) && Collectable(Snap(w), asked) && child in Snap(w).tasks
    ensures var s, s', own := Snap(w), Snap(CollectedBy(w, who, asked, ts)), OwnerIn(Snap(w), asked);
      && Outstanding(s', child.id) == Outstanding(s, child.id)
      && (child.id == own ==> NewestState(s', child.id).Collected? && !Outstanding(s, child.id))
      && (child.id != own ==>
            NewestState(s', child.id) == NewestState(s, child.id) && NewestRow(s', child.id) == NewestRow(s, child.id))
  {
    hide Inv, Legal, Moves, Outstanding, SnapshotOf;
    CollectTakesOne(w, who, asked, ts, child);
    CollectMoves(w, who, asked, ts);
    OwnersDiffer(w, asked, child);
    MovedNewest(Snap(w), Snap(CollectedBy(w, who, asked, ts)), Addressed(Snap(w), asked),
                NextState(Snap(w).attempts[Addressed(Snap(w), asked)], COLLECTED, WORKER,
                          0).value, |w.rows.events| + 1, child.id);
  }

  lemma MovedNewest(s: Snapshot, s': Snapshot, agent: nat, state: Attempt, row: nat, task: nat)
    requires Moves(s, s', agent, state, row)
    ensures NewestState(s', task) == if NewestAgent(s, task) == agent then state else NewestState(s, task)
    ensures NewestRow(s', task) == if NewestAgent(s, task) == agent then row else NewestRow(s, task)
    ensures NewestAgent(s', task) == NewestAgent(s, task)
  {
  }

  lemma StrayLeavesDormant(w: World, who: nat, asked: nat, ts: int, task: nat)
    requires Inv(w) && Collectable(Snap(w), asked) && task in Snap(w).agentsByTask && IsIdling(Snap(w), task)
    requires NewestAgent(Snap(w), task) in w.idled
    requires LastHope(Snap(w), task, OwnerIn(Snap(w), asked), w.idled[NewestAgent(Snap(w), task)].seenThrough)
    ensures var w' := CollectedBy(w, who, asked, ts);
      IsIdling(Snap(w'), task) && Dormant(w', task, NewestAgent(Snap(w'), task))
  {
    hide Inv, Legal, Moves, Outstanding, SnapshotOf, Collectable, CollectedBy;
    var s, w', idler := Snap(w), CollectedBy(w, who, asked, ts), NewestAgent(Snap(w), task);
    var s' := Snap(w');
    var own, seen := OwnerIn(s, asked), w.idled[idler].seenThrough;
    IdlingWasMeasured(w, task);
    NewestInAttempts(w, task);
    CollectFlows(w, who, asked, ts);
    CollectFrame(w, who, asked, ts, task);
    forall child | child in s'.tasks && IsChild(s', task, child)
      ensures !Outstanding(s', child.id) && (NewestState(s', child.id).Collected? || NewestRow(s', child.id) <= seen)
    {
      CollectedNewest(w, who, asked, ts, child);
    }
  }

  lemma NewestInAttempts(w: World, task: nat)
    requires Inv(w) && task in Snap(w).agentsByTask
    ensures NewestAgent(Snap(w), task) in Snap(w).attempts
  {
    NewestIsLargest(Snap(w), |w.rows.events|, task);
  }

  lemma CollectFrame(w: World, who: nat, asked: nat, ts: int, task: nat)
    requires Inv(w) && Collectable(Snap(w), asked)
    ensures var w' := CollectedBy(w, who, asked, ts);
      && w'.idled == w.idled && Snap(w').tasks == Snap(w).tasks && Snap(w').agentsByTask == Snap(w).agentsByTask
      && NewestAgent(Snap(w'), task) == NewestAgent(Snap(w), task)
  {
    hide Inv, Legal, SnapshotOf, Collectable;
    CollectMoves(w, who, asked, ts);
  }

  /** Second way: while a task idles, somebody collects the one child that could still wake it. If the
      child had settled after the watermark the task had news until then; from then on it never has. */
  lemma StrayCollectionSleeps(w: World, who: nat, asked: nat, steps: seq<Step>, maxDepth: int, ts: int,
                              task: nat, child: HarnessTask)
    requires Inv(w) && CanAct(w, who) && Collectable(Snap(w), asked)
    requires task in Snap(w).agentsByTask && IsIdling(Snap(w), task) && NewestAgent(Snap(w), task) in w.idled
    requires child in Snap(w).tasks && child.id == OwnerIn(Snap(w), asked) && IsChild(Snap(w), task, child)
    requires LastHope(Snap(w), task, child.id, w.idled[NewestAgent(Snap(w), task)].seenThrough)
    requires LeftAlone(CollectedBy(w, who, asked, ts), steps, maxDepth, task)
    ensures NewestRow(Snap(w), child.id) > w.idled[NewestAgent(Snap(w), task)].seenThrough ==> HasNews(Snap(w), task)
    ensures var w' := Run(CollectedBy(w, who, asked, ts), steps, maxDepth);
      Inv(w') && IsIdling(Snap(w'), task) && !HasNews(Snap(w'), task)
  {
    hide Inv, Run, Dormant, SnapshotOf, LeftAlone, LastHope, CollectedBy, CanAct, IsIdling, HasNews, Collectable;
    CollectKeeps(w, who, asked, ts);
    StrayLeavesDormant(w, who, asked, ts, task);
    StaysAsleep(CollectedBy(w, who, asked, ts), steps, maxDepth, task);
    CollectableIsNews(w, asked);
    UnreadIsNews(w, task, child);
  }

  lemma CollectableIsNews(w: World, asked: nat)
    requires Inv(w) && Collectable(Snap(w), asked)
    ensures IsNews(Snap(w), NewestAgent(Snap(w), OwnerIn(Snap(w), asked)))
  {
    hide Legal, SnapshotOf;
    AddressedIsNewest(w, asked);
  }

  // ---------------------------------------------------------------------------------------------
  // And there are no others: below every sleeper of a quiet run is a dormant one.

  lemma QuietLeafIsDormant(w: World, task: nat)
    requires QuietAsleep(w, task)
    requires forall child :: child in Snap(w).tasks && IsChild(Snap(w), task, child) ==> !IsIdling(Snap(w), child.id)
    ensures Dormant(w, task, NewestAgent(Snap(w), task))
  {
    hide Legal, SnapshotOf;
    var s, idler := Snap(w), NewestAgent(Snap(w), task);
    IdlingWasMeasured(w, task);
    NewestInAttempts(w, task);
    assert s.tasks[task - 1] in s.tasks && s.tasks[task - 1].id == task;
    forall child | child in s.tasks && IsChild(s, task, child)
      ensures !Outstanding(s, child.id)
      ensures NewestState(s, child.id).Collected? || NewestRow(s, child.id) <= w.idled[idler].seenThrough
    {
      SettledChild(w, task, child);
    }
  }

  lemma SettledChild(w: World, task: nat, child: HarnessTask)
    requires QuietAsleep(w, task) && child in Snap(w).tasks && IsChild(Snap(w), task, child)
    requires !IsIdling(Snap(w), child.id) && NewestAgent(Snap(w), task) in w.idled && !HasNews(Snap(w), task)
    ensures !Outstanding(Snap(w), child.id)
    ensures NewestState(Snap(w), child.id).Collected? ||
            NewestRow(Snap(w), child.id) <= w.idled[NewestAgent(Snap(w), task)].seenThrough
  {
    hide Legal, SnapshotOf;
    if Outstanding(Snap(w), child.id) {
      OutstandingIsIdling(w, child);
    }
    SettledIsNewsOrCollected(w, child);
    if IsNews(Snap(w), NewestAgent(Snap(w), child.id)) {
      UnreadIsNews(w, task, child);
    }
  }

  lemma SettledIsNewsOrCollected(w: World, child: HarnessTask)
    requires Inv(w) && NothingActive(Snap(w)) && child in Snap(w).tasks && !Outstanding(Snap(w), child.id)
    ensures IsNews(Snap(w), NewestAgent(Snap(w), child.id)) || NewestState(Snap(w), child.id).Collected?
  {
  }

  /** A quiet run with nobody wakeable has, at or below each of its sleepers, one that is dormant. */
  lemma {:induction false} DormantBelow(w: World, task: nat) returns (culprit: nat)
    requires QuietAsleep(w, task)
    ensures Tree(Snap(w)) && task <= culprit <= |Snap(w).tasks| && Above(Snap(w), task, culprit)
    ensures IsIdling(Snap(w), culprit) && Dormant(w, culprit, NewestAgent(Snap(w), culprit))
    decreases |Snap(w).tasks| - task
  {
    hide Inv, Dormant, SnapshotOf, NobodyWakeable, NothingActive;
    InvIsATree(w, task);
    if child :| child in Snap(w).tasks && IsChild(Snap(w), task, child) && IsIdling(Snap(w), child.id) {
      ChildIsLinked(w, task, child);
      culprit := DormantBelow(w, child.id);
      AboveThroughChild(Snap(w), task, child.id, culprit);
    } else {
      QuietLeafIsDormant(w, task);
      culprit := task;
    }
  }

  lemma InvIsATree(w: World, task: nat)
    requires QuietAsleep(w, task)
    ensures Inv(w) && Tree(Snap(w)) && Above(Snap(w), task, task)
  {
    SoundRootedIsTree(Snap(w), |w.rows.events|);
  }
}
