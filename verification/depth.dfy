/** Delegation depth over a run: parents come first, ancestors never change, and a delegate tool never
    makes a task deeper than the cap. */
module Depth {
  import opened Options
  import opened Attempts
  import opened Bus
  import opened Schedule
  import opened Protocol
  import opened Keeps
  import opened Runs

  lemma InvIsTree(w: World)
    requires Inv(w)
    ensures Tree(Snap(w))
  {
    SoundRootedIsTree(Snap(w), |w.rows.events|);
  }

  /** The tasks so far are as they were, and so are the owners of their agents. */
  ghost predicate Grown(s: Snapshot, s': Snapshot) {
    && |s.tasks| <= |s'.tasks| && (forall i :: 0 <= i < |s.tasks| ==> s'.tasks[i] == s.tasks[i])
    && (forall a :: a in s.taskByAgent ==> a in s'.taskByAgent && s'.taskByAgent[a] == s.taskByAgent[a])
  }

  lemma {:induction false} AncestorsStay(s: Snapshot, s': Snapshot, task: nat)
    requires Tree(s) && Tree(s') && Grown(s, s') && 1 <= task <= |s.tasks|
    ensures Ancestors(s', task) == Ancestors(s, task)
    decreases task
  {
    assert ParentBefore(s, s.tasks[task - 1]) && ParentBefore(s', s'.tasks[task - 1]);
    var parent := s.tasks[task - 1].parentAgent;
    if parent != HUMAN {
      AncestorsStay(s, s', s.taskByAgent[parent]);
    }
  }

  lemma ActGrows(w: World, act: Action, maxDepth: int, ts: int)
    requires Inv(w)
    ensures Grown(Snap(w), Snap(Act(w, act, maxDepth, ts)))
  {
    hide Inv, Legal, Grown, Collectable, MayDelegate, Answerable, SnapshotOf, ActiveFor, LiveChildren;
    InvIsLegal(w);
    NothingGrows(Snap(w));
    if Enabled(w, act, maxDepth) {
      match act
      case Delegate(who, dir) => QueueGrows(w, dir, who, ts);
      case Watch(who, dir) => QueueGrows(w, dir, who, ts);
      case Answer(agent) => QueueGrows(w, TaskOf(Snap(w), agent).dir, TaskOf(Snap(w), agent).parentAgent, ts);
      case Collect(who, asked) => CollectGrows(w, who, asked, ts);
      case Idle(who) =>
      case Halt(who) =>
      case Finish(who, kind) =>
      case Exit(who) =>
    }
  }

  lemma NothingGrows(s: Snapshot)
    ensures Grown(s, s)
  {
  }

  lemma QueueGrows(w: World, dir: string, parent: nat, ts: int)
    requires Legal(w.rows)
    ensures Grown(Snap(w), Snap(Queue(w, dir, parent, ts)))
  {
    hide Legal;
    EnqueueSnapshot(w.rows, dir, parent, ts);
  }

  lemma CollectGrows(w: World, who: nat, asked: nat, ts: int)
    requires Legal(w.rows) && Collectable(Snap(w), asked)
    ensures Grown(Snap(w), Snap(CollectedBy(w, who, asked, ts)))
  {
    CollectionIsRecordable(w, asked);
    LogMoves(w, Addressed(Snap(w), asked), COLLECTED, WORKER, 0, ts, 0);
  }

  /** No task that is there ever changes depth. */
  lemma DepthsStay(w: World, act: Action, maxDepth: int, ts: int, task: nat)
    requires Inv(w) && 1 <= task <= |w.rows.tasks|
    ensures var w' := Act(w, act, maxDepth, ts);
      && Tree(Snap(w)) && Tree(Snap(w')) && task <= |w'.rows.tasks|
      && Ancestors(Snap(w'), task) == Ancestors(Snap(w), task)
  {
    hide Inv, Act, Tree, Grown;
    ActKeeps(w, act, maxDepth, ts);
    InvIsTree(w);
    InvIsTree(Act(w, act, maxDepth, ts));
    ActGrows(w, act, maxDepth, ts);
    GrownTasks(w, Act(w, act, maxDepth, ts));
    AncestorsStay(Snap(w), Snap(Act(w, act, maxDepth, ts)), task);
  }

  lemma GrownTasks(w: World, w': World)
    requires Grown(Snap(w), Snap(w'))
    ensures |w.rows.tasks| <= |w'.rows.tasks| && Snap(w).tasks == w.rows.tasks && Snap(w').tasks == w'.rows.tasks
  {
  }

  lemma OwnerIsATask(w: World, who: nat)
    requires Inv(w) && who in Snap(w).attempts
    ensures who != HUMAN && 1 <= OwnerIn(Snap(w), who) <= |w.rows.tasks|
    ensures who in Snap(w).taskByAgent
  {
    assert Sited(Snap(w), who);
  }

  /** A task queued for the first time sits one below the attempt that queued it. */
  lemma NewTaskDepth(w: World, dir: string, who: nat, ts: int)
    requires Inv(w) && Inv(Queue(w, dir, who, ts)) && who in Snap(w).attempts && TaskAt(w.rows.tasks, dir) == 0
    ensures var w' := Queue(w, dir, who, ts);
      && |w'.rows.tasks| == |w.rows.tasks| + 1 && 1 <= OwnerIn(Snap(w), who) <= |w.rows.tasks|
      && Tree(Snap(w)) && Tree(Snap(w'))
      && Ancestors(Snap(w'), |w'.rows.tasks|) == Ancestors(Snap(w), OwnerIn(Snap(w), who)) + 1
  {
    hide Inv, Legal, Tree;
    var w' := Queue(w, dir, who, ts);
    InvIsTree(w);
    InvIsTree(w');
    OwnerIsATask(w, who);
    InvIsLegal(w);
    QueueGrows(w, dir, who, ts);
    EnqueueSnapshot(w.rows, dir, who, ts);
    AncestorsStay(Snap(w), Snap(w'), OwnerIn(Snap(w), who));
    AncestorsOfLast(Snap(w'), OwnerIn(Snap(w), who), who);
  }

  lemma AncestorsOfLast(s: Snapshot, owner: nat, who: nat)
    requires Tree(s) && s.tasks != [] && s.tasks[|s.tasks| - 1].parentAgent == who && who != HUMAN
    requires who in s.taskByAgent && s.taskByAgent[who] == owner
    ensures 1 <= owner < |s.tasks|
    ensures Ancestors(s, |s.tasks|) == 1 + Ancestors(s, owner)
  {
    assert ParentBefore(s, s.tasks[|s.tasks| - 1]);
  }

  /** A task a delegate tool makes is never deeper than the cap. */
  lemma DelegationIsCapped(w: World, who: nat, dir: string, maxDepth: int, ts: int)
    requires Inv(w) && Enabled(w, Delegate(who, dir), maxDepth) && TaskAt(w.rows.tasks, dir) == 0
    ensures var w' := Act(w, Delegate(who, dir), maxDepth, ts);
      && |w'.rows.tasks| == |w.rows.tasks| + 1
      && Tree(Snap(w')) && Ancestors(Snap(w'), |w'.rows.tasks|) <= maxDepth
  {
    hide Inv, Tree, Legal, ActiveFor;
    AliveOwner(w, who);
    OwnerIsATask(w, who);
    InvIsTree(w);
    ActKeeps(w, Delegate(who, dir), maxDepth, ts);
    NewTaskDepth(w, dir, who, ts);
    DepthCountsAncestors(Snap(w), who);
  }

  lemma ReusedTaskDepth(w: World, who: nat, dir: string, maxDepth: int, ts: int)
    requires Inv(w) && TaskAt(w.rows.tasks, dir) != 0
    ensures var w', task := Act(w, Delegate(who, dir), maxDepth, ts), TaskAt(w.rows.tasks, dir);
      && 1 <= task <= |w.rows.tasks| <= |w'.rows.tasks| && Tree(Snap(w)) && Tree(Snap(w'))
      && Ancestors(Snap(w'), task) == Ancestors(Snap(w), task)
  {
    hide Inv, Tree, Legal, Act;
    InvIsLegal(w);
    IdsArePositions(w);
    TaskAtExact(w.rows.tasks, dir);
    DepthsStay(w, Delegate(who, dir), maxDepth, ts, TaskAt(w.rows.tasks, dir));
    DepthsStay(w, Delegate(who, dir), maxDepth, ts, |w.rows.tasks|);
  }

  lemma IdsArePositions(w: World)
    requires Inv(w)
    ensures forall i :: 0 <= i < |w.rows.tasks| ==> w.rows.tasks[i].id == i + 1
  {
  }

  /** The task a delegate tool queues an attempt at is within the cap exactly when it is new, or was
      already within it: the cap is asked of the caller, never of a directory that is used again. */
  lemma DelegatedDepthExactly(w: World, who: nat, dir: string, maxDepth: int, ts: int)
    requires Inv(w) && Enabled(w, Delegate(who, dir), maxDepth)
    ensures var w', task, at := Act(w, Delegate(who, dir), maxDepth, ts), TaskFor(w.rows, dir), TaskAt(w.rows.tasks, dir);
      && Tree(Snap(w)) && Tree(Snap(w')) && 1 <= task <= |w'.rows.tasks| && at <= |w.rows.tasks|
      && OwnerIn(Snap(w'), |w.rows.agents| + 1) == task
      && (Ancestors(Snap(w'), task) <= maxDepth <==> at == 0 || Ancestors(Snap(w), at) <= maxDepth)
  {
    hide Inv, Tree, Legal, ActiveFor, MayDelegate, SnapshotOf;
    InvIsTree(w);
    InvIsLegal(w);
    EnqueueSnapshot(w.rows, dir, who, ts);
    if TaskAt(w.rows.tasks, dir) == 0 {
      DelegationIsCapped(w, who, dir, maxDepth, ts);
    } else {
      ReusedTaskDepth(w, who, dir, maxDepth, ts);
    }
  }

  ghost predicate Shallow(w: World, maxDepth: int) {
    Tree(Snap(w)) && forall task :: 1 <= task <= |w.rows.tasks| ==> Ancestors(Snap(w), task) <= maxDepth
  }

  /** A watch that makes a task, asked for by an attempt at the cap. */
  ghost predicate WatchesBelowTheCap(w: World, act: Action, maxDepth: int)
    requires Tree(Snap(w))
  {
    && act.Watch? && Enabled(w, act, maxDepth) && TaskAt(w.rows.tasks, act.dir) == 0
    && 1 <= OwnerIn(Snap(w), act.who) <= |Snap(w).tasks| && Ancestors(Snap(w), OwnerIn(Snap(w), act.who)) >= maxDepth
  }

  /** All depths stay within the cap exactly when the action is not such a watch. */
  lemma ActKeepsShallowExactly(w: World, act: Action, maxDepth: int, ts: int)
    requires Inv(w) && Shallow(w, maxDepth)
    ensures Shallow(Act(w, act, maxDepth, ts), maxDepth) <==> !WatchesBelowTheCap(w, act, maxDepth)
  {
    hide Inv, Tree, Enabled, Act;
    if act.Watch? {
      WatchDepth(w, act.who, act.dir, maxDepth, ts);
    } else {
      ActKeepsShallow(w, act, maxDepth, ts);
    }
  }

  lemma WatchDepth(w: World, who: nat, dir: string, maxDepth: int, ts: int)
    requires Inv(w) && Shallow(w, maxDepth)
    ensures Shallow(Act(w, Watch(who, dir), maxDepth, ts), maxDepth) <==>
            !WatchesBelowTheCap(w, Watch(who, dir), maxDepth)
  {
    hide Inv, Tree, Legal, ActiveFor;
    var w' := Act(w, Watch(who, dir), maxDepth, ts);
    ActKeeps(w, Watch(who, dir), maxDepth, ts);
    InvIsTree(w');
    forall task: nat | 1 <= task <= |w.rows.tasks|
      ensures task <= |w'.rows.tasks| && Ancestors(Snap(w'), task) == Ancestors(Snap(w), task)
    {
      DepthsStay(w, Watch(who, dir), maxDepth, ts, task);
    }
    if Enabled(w, Watch(who, dir), maxDepth) && TaskAt(w.rows.tasks, dir) == 0 {
      AliveOwner(w, who);
      NewTaskDepth(w, dir, who, ts);
    }
  }

  lemma ActKeepsShallow(w: World, act: Action, maxDepth: int, ts: int)
    requires Inv(w) && Shallow(w, maxDepth) && !act.Watch?
    ensures Shallow(Act(w, act, maxDepth, ts), maxDepth)
  {
    hide Inv, Tree, Enabled, Act;
    var w' := Act(w, act, maxDepth, ts);
    ActKeeps(w, act, maxDepth, ts);
    InvIsTree(w');
    NewTasksAreDelegated(w, act, maxDepth, ts);
    forall task: nat | 1 <= task <= |w'.rows.tasks|
      ensures Ancestors(Snap(w'), task) <= maxDepth
    {
      if task <= |w.rows.tasks| {
        DepthsStay(w, act, maxDepth, ts, task);
      } else {
        DelegationIsCapped(w, act.who, act.dir, maxDepth, ts);
      }
    }
  }

  lemma NewTasksAreDelegated(w: World, act: Action, maxDepth: int, ts: int)
    requires Inv(w) && !act.Watch?
    ensures var w' := Act(w, act, maxDepth, ts);
      |w'.rows.tasks| > |w.rows.tasks| ==>
        act.Delegate? && Enabled(w, act, maxDepth) && TaskAt(w.rows.tasks, act.dir) == 0 &&
        |w'.rows.tasks| == |w.rows.tasks| + 1
  {
    hide MayDelegate, Collectable, ActiveFor;
    if act.Answer? && Enabled(w, act, maxDepth) {
      AnswerKeepsTasks(w, act.agent);
    }
  }

  lemma AnswerKeepsTasks(w: World, agent: nat)
    requires Inv(w) && agent in Snap(w).taskByAgent
    ensures TaskAt(w.rows.tasks, TaskOf(Snap(w), agent).dir) != 0
  {
    TaskOfIsOwner(Snap(w), |w.rows.events|, agent);
    TaskAtExact(w.rows.tasks, TaskOf(Snap(w), agent).dir);
  }
}
