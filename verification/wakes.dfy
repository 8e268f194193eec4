/** What waking promises: nobody who waited for a live child is left asleep, wakes do not interfere
    with each other, and the order in which a parent and its child are reaped does not matter. */
module Wakes {
  import opened Options
  import opened Attempts
  import opened Bus
  import opened Schedule
  import opened Protocol
  import opened Keeps
  import opened Runs
  import opened Watermarks

  ghost predicate IsIdling(s: Snapshot, task: nat) {
    NewestState(s, task) == Closed(IDLING)
  }

  ghost predicate NothingActive(s: Snapshot) {
    forall a :: a in s.attempts ==> !Active(s.attempts[a])
  }

  ghost predicate NobodyWakeable(s: Snapshot) {
    forall t :: t in s.tasks ==> !HasNews(s, t.id)
  }

  lemma WakeableExact(s: Snapshot)
    ensures Wakeable(s) == [] <==> NobodyWakeable(s)
    ensures forall t :: t in Wakeable(s) <==> t in s.tasks && HasNews(s, t.id)
  {
    if Wakeable(s) != [] {
      assert Wakeable(s)[0] in Wakeable(s);
    }
  }

  // ---------------------------------------------------------------------------------------------
  // No lost wake-up.

  /** An idling task's newest attempt measured the log, and its one idling row reports that measure. */
  lemma IdlingWasMeasured(w: World, task: nat)
    requires Inv(w) && task in Snap(w).agentsByTask && IsIdling(Snap(w), task)
    ensures var p := NewestAgent(Snap(w), task);
      && p in w.idled && OwnerIn(Snap(w), p) == task && p in w.outcomes && w.outcomes[p].kind.IDLING?
      && |IdlingRows(EventsIn(Snap(w), p))| == 1
      && IdlingRows(EventsIn(Snap(w), p))[0].seenThrough == w.idled[p].seenThrough <= w.idled[p].mark
  {
    var p := NewestAgent(Snap(w), task);
    NewestIsLargest(Snap(w), |w.rows.events|, task);
    assert Snap(w).attempts[p] == Closed(IDLING);
    assert p in w.outcomes && Spoken(Snap(w).attempts[p], w.outcomes[p].kind);
  }

  /** When nothing is active, a child that is still outstanding is itself idling. */
  lemma OutstandingIsIdling(w: World, child: HarnessTask)
    requires Inv(w) && NothingActive(Snap(w)) && child in Snap(w).tasks && Outstanding(Snap(w), child.id)
    ensures IsIdling(Snap(w), child.id)
  {
    var s := Snap(w);
    TaskById(s, |w.rows.events|, child);
    NewestIsLargest(s, |w.rows.events|, child.id);
    var a := NewestAgent(s, child.id);
    assert Recorded(s, a, |w.rows.events|);
  }

  /** A child settled past the mark is news to its parent, unless it was taken. */
  lemma SettledIsNewsOrTaken(w: World, task: nat, child: HarnessTask)
    requires Inv(w) && NothingActive(Snap(w)) && task in Snap(w).agentsByTask && IsIdling(Snap(w), task)
    requires child in Snap(w).tasks && IsChild(Snap(w), task, child) && !Outstanding(Snap(w), child.id)
    requires NewestAgent(Snap(w), task) in w.idled
    requires NewestRow(Snap(w), child.id) > w.idled[NewestAgent(Snap(w), task)].mark
    ensures HasNews(Snap(w), task) || (child.id in w.stray && NewestState(Snap(w), child.id).Collected?)
  {
    IdlingWasMeasured(w, task);
    if NewestState(Snap(w), child.id).Collected? {
      assert TakenSince(Snap(w), task, child, w.idled[NewestAgent(Snap(w), task)].mark);
    } else {
      assert ChildNews(Snap(w), child, IdlingRows(EventsIn(Snap(w), NewestAgent(Snap(w), task)))[0].seenThrough);
    }
  }

  lemma ChildIsLater(w: World, task: nat, child: HarnessTask)
    requires Inv(w) && child in Snap(w).tasks && IsChild(Snap(w), task, child)
    ensures task < child.id <= |Snap(w).tasks| && child == Snap(w).tasks[child.id - 1]
    ensures child.parentAgent in Snap(w).taskByAgent && Snap(w).taskByAgent[child.parentAgent] == task
  {
    var s := Snap(w);
    TaskById(s, |w.rows.events|, child);
    assert task in s.agentsByTask ==> Roster(s, task);
    assert ParentBefore(s, child);
    assert Sited(s, child.parentAgent);
  }

  /** Whether `ancestor` lies on the parent chain of `task`. */
  ghost predicate Above(s: Snapshot, ancestor: nat, task: nat)
    requires Tree(s) && 1 <= task <= |s.tasks|
    decreases task
  {
    || ancestor == task
    || (var parent := s.tasks[task - 1].parentAgent;
        assert ParentBefore(s, s.tasks[task - 1]);
        parent != HUMAN && Above(s, ancestor, s.taskByAgent[parent]))
  }

  lemma {:induction false} AboveThroughChild(s: Snapshot, task: nat, child: nat, below: nat)
    requires Tree(s) && 1 <= child <= |s.tasks| && 1 <= below <= |s.tasks|
    requires s.tasks[child - 1].parentAgent in s.taskByAgent && s.taskByAgent[s.tasks[child - 1].parentAgent] == task
    requires s.tasks[child - 1].parentAgent != HUMAN
    requires Above(s, child, below)
    ensures Above(s, task, below)
    decreases below
  {
    assert ParentBefore(s, s.tasks[below - 1]);
    if child == below {
      assert Above(s, task, task);
    } else {
      AboveThroughChild(s, task, child, s.taskByAgent[s.tasks[below - 1].parentAgent]);
    }
  }

  /** What can leave a task asleep: its newest attempt wrote an idle outcome, and either it saw no live
      child or a child of it was collected by someone other than an attempt of it that had not idled. */
  ghost predicate Abandoned(w: World, task: nat) {
    var s := Snap(w);
    var p := NewestAgent(s, task);
    && p in w.idled && p in w.outcomes && w.outcomes[p].kind.IDLING?
    && (w.idled[p].waiting == [] ||
        exists child :: child in s.tasks && IsChild(s, task, child) && NewestState(s, child.id).Collected? && child.id in w.stray)
  }

  ghost predicate QuietAsleep(w: World, task: nat) {
    && Inv(w) && NothingActive(Snap(w)) && NobodyWakeable(Snap(w))
    && 1 <= task <= |Snap(w).tasks| && IsIdling(Snap(w), task)
  }

  /** The child an idling task was waiting for, when nobody can be blamed for the task itself. */
  lemma AwaitedChild(w: World, task: nat) returns (child: HarnessTask)
    requires QuietAsleep(w, task) && !Abandoned(w, task)
    ensures child in Snap(w).tasks && IsChild(Snap(w), task, child)
    ensures Outstanding(Snap(w), child.id)
  {
    var s := Snap(w);
    IdlingWasMeasured(w, task);
    var p := NewestAgent(s, task);
    assert HasReason(s, task, w.idled[p].mark);
    child :| child in s.tasks && Awaited(s, task, child, w.idled[p].mark);
    assert !HasNews(s, task) by {
      assert s.tasks[task - 1] in s.tasks && s.tasks[task - 1].id == task;
    }
    if !Outstanding(s, child.id) {
      SettledIsNewsOrTaken(w, task, child);
    }
  }

  lemma AgentIdsArePositive(w: World, agent: nat)
    requires Inv(w) && agent in Snap(w).taskByAgent
    ensures agent != HUMAN
  {
    assert Sited(Snap(w), agent);
  }

  /** The child's row names an agent of the task above it. */
  ghost predicate Linked(s: Snapshot, task: nat, child: nat) {
    && 1 <= task < child <= |s.tasks|
    && var parent := s.tasks[child - 1].parentAgent;
       parent != HUMAN && parent in s.taskByAgent && s.taskByAgent[parent] == task
  }

  lemma ChildIsLinked(w: World, task: nat, child: HarnessTask)
    requires Inv(w) && 1 <= task && child in Snap(w).tasks && IsChild(Snap(w), task, child)
    ensures Linked(Snap(w), task, child.id)
  {
    ChildIsLater(w, task, child);
    AgentIdsArePositive(w, child.parentAgent);
  }

  lemma NextSuspect(w: World, task: nat) returns (child: nat)
    requires QuietAsleep(w, task) && !Abandoned(w, task)
    ensures Linked(Snap(w), task, child) && IsIdling(Snap(w), child)
  {
    var found := AwaitedChild(w, task);
    ChildIsLinked(w, task, found);
    OutstandingIsIdling(w, found);
    child := found.id;
  }

  /** Quiet with nobody wakeable, every task left idling is, or has below it, an abandoned one. */
  lemma {:induction false} Blame(w: World, task: nat) returns (culprit: nat)
    requires QuietAsleep(w, task)
    ensures Tree(Snap(w)) && task <= culprit <= |Snap(w).tasks|
    ensures Above(Snap(w), task, culprit) && Abandoned(w, culprit)
    decreases |Snap(w).tasks| - task
  {
    SoundRootedIsTree(Snap(w), |w.rows.events|);
    if Abandoned(w, task) {
      culprit := task;
    } else {
      var child := NextSuspect(w, task);
      culprit := Blame(w, child);
      AboveThroughChild(Snap(w), task, child, culprit);
    }
  }

  /** No lost wake-up: when every idle saw a live child and every child was collected by its own
      parent before that parent idled, a quiet run with nobody wakeable has nobody idling. */
  lemma NoLostWake(w: World)
    requires Inv(w) && NothingActive(Snap(w)) && NobodyWakeable(Snap(w))
    requires w.stray == {} && forall a :: a in w.idled ==> w.idled[a].waiting != []
    ensures forall task :: 1 <= task <= |Snap(w).tasks| ==> !IsIdling(Snap(w), task)
  {
    forall task: nat | 1 <= task <= |Snap(w).tasks|
      ensures !IsIdling(Snap(w), task)
    {
      if IsIdling(Snap(w), task) {
        var culprit := Blame(w, task);
        assert false;
      }
    }
  }

  /** And only then: a quiet run leaves somebody idling exactly when somebody was abandoned. */
  lemma QuietRunForgetsOnlyTheAbandoned(w: World)
    requires Inv(w) && NothingActive(Snap(w)) && NobodyWakeable(Snap(w))
    ensures (exists t :: 1 <= t <= |Snap(w).tasks| && IsIdling(Snap(w), t)) <==>
            (exists t :: 1 <= t <= |Snap(w).tasks| && Abandoned(w, t))
  {
    hide Inv, NothingActive, NobodyWakeable, Above;
    if task: nat :| 1 <= task <= |Snap(w).tasks| && IsIdling(Snap(w), task) {
      var culprit := Blame(w, task);
      assert Abandoned(w, culprit);
    }
    if task: nat :| 1 <= task <= |Snap(w).tasks| && Abandoned(w, task) {
      IdleOutcomeSleeps(w, task);
    }
  }

  /** With nothing active, an idle outcome means an idling task: it was recorded, and nobody collects it. */
  lemma IdleOutcomeSleeps(w: World, task: nat)
    requires Inv(w) && NothingActive(Snap(w))
    requires NewestAgent(Snap(w), task) in w.outcomes && w.outcomes[NewestAgent(Snap(w), task)].kind.IDLING?
    ensures IsIdling(Snap(w), task)
  {
    var p := NewestAgent(Snap(w), task);
    assert p in Snap(w).attempts && Spoken(Snap(w).attempts[p], IDLING);
    assert !Active(Snap(w).attempts[p]);
  }

  // ---------------------------------------------------------------------------------------------
  // The other half: an idle that saw nothing live stays asleep until someone re-queues a child.

  /** Every child is settled, and collected or settled by the mark. */
  ghost predicate NothingComing(s: Snapshot, task: nat, mark: int) {
    forall child :: child in s.tasks && IsChild(s, task, child) ==>
      !Outstanding(s, child.id) && (NewestState(s, child.id).Collected? || NewestRow(s, child.id) <= mark)
  }

  lemma EmptyHandedMeansNothingComing(w: World, who: nat)
    requires Inv(w) && who in w.alive && LiveChildren(Snap(w), who) == []
    ensures NothingComing(Snap(w), OwnerIn(Snap(w), who), |w.rows.events|)
  {
    var s := Snap(w);
    AliveOwner(w, who);
    var task := TaskOf(s, who).id;
    var live := TasksWhere(s.tasks, (t: HarnessTask) => IsChild(s, task, t) && Outstanding(s, t.id));
    forall child | child in s.tasks && IsChild(s, task, child)
      ensures !Outstanding(s, child.id) && NewestRow(s, child.id) <= |w.rows.events|
    {
      assert child !in live;
      NewestRowBounded(s, |w.rows.events|, child.id);
    }
  }

  /** With nothing coming after the watermark, there is no news. */
  lemma NothingComingIsNoNews(w: World, task: nat)
    requires Inv(w) && task in Snap(w).agentsByTask && IsIdling(Snap(w), task)
    requires NewestAgent(Snap(w), task) in w.idled
    requires NothingComing(Snap(w), task, w.idled[NewestAgent(Snap(w), task)].seenThrough)
    ensures !HasNews(Snap(w), task)
  {
    IdlingWasMeasured(w, task);
  }

  /** Recording rows keeps it so: a settled child can only be collected. */
  lemma NothingComingSurvivesRows(s: Snapshot, s': Snapshot, agent: nat, status: AgentStatus, source: EventSource,
                                  pid: int, row: nat, task: nat, mark: int)
    requires agent in s.attempts && NextState(s.attempts[agent], status, source, pid).Some?
    requires Moves(s, s', agent, NextState(s.attempts[agent], status, source, pid).value, row)
    requires status.COLLECTED? ==> s.attempts[agent] != Closed(IDLING)
    requires s.attempts[agent].Lost? ==> IsClose(s.attempts[agent].close)
    requires NothingComing(s, task, mark)
    ensures NothingComing(s', task, mark)
  {
    forall child | child in s'.tasks && IsChild(s', task, child)
      ensures !Outstanding(s', child.id) && (NewestState(s', child.id).Collected? || NewestRow(s', child.id) <= mark)
    {
      assert child in s.tasks && IsChild(s, task, child) && !Outstanding(s, child.id);
      assert NewestState(s', child.id) == NewestState(s, child.id) || NewestAgent(s, child.id) == agent;
    }
  }

  /** Enqueueing at this directory touches neither the task nor a child of it, and makes it no new child. */
  ghost predicate Apart(w: World, task: nat, dir: string, parent: nat) {
    && TaskFor(w.rows, dir) != task
    && (TaskAt(w.rows.tasks, dir) == 0 ==> parent !in AgentsAt(Snap(w), task))
    && (forall child :: child in Snap(w).tasks && child.dir == dir ==> !IsChild(Snap(w), task, child))
  }

  /** And so does enqueueing anything that is not a child of the task. */
  lemma NothingComingSurvivesQueue(w: World, dir: string, parent: nat, ts: int, task: nat, mark: int)
    requires Inv(w) && NothingComing(Snap(w), task, mark)
    requires Apart(w, task, dir, parent)
    ensures NothingComing(Snap(Queue(w, dir, parent, ts)), task, mark)
  {
    hide SnapshotOf;
    var s, s' := Snap(w), Snap(Queue(w, dir, parent, ts));
    QueueAdds(w, dir, parent, ts);
    NoChildAt(w, dir, parent, ts, task);
    forall child | child in s'.tasks && IsChild(s', task, child)
      ensures !Outstanding(s', child.id) && (NewestState(s', child.id).Collected? || NewestRow(s', child.id) <= mark)
    {
      assert child in s.tasks && child.id != TaskFor(w.rows, dir) && IsChild(s, task, child);
      assert NewestState(s', child.id) == NewestState(s, child.id);
    }
  }

  lemma TaskForIsAt(r: Rows, dir: string, child: HarnessTask)
    requires Legal(r) && child in r.tasks && child.id == TaskFor(r, dir)
    ensures child.dir == dir
  {
    TaskAtExact(r.tasks, dir);
  }

  lemma NoChildAt(w: World, dir: string, parent: nat, ts: int, task: nat)
    requires Legal(w.rows) && Apart(w, task, dir, parent)
    ensures forall child :: child in Snap(Queue(w, dir, parent, ts)).tasks && IsChild(Snap(w), task, child) ==>
              child in Snap(w).tasks && child.id != TaskFor(w.rows, dir)
  {
    forall child | child in Snap(w).tasks && child.id == TaskFor(w.rows, dir)
      ensures child.dir == dir
    {
      TaskForIsAt(w.rows, dir, child);
    }
    if TaskAt(w.rows.tasks, dir) != 0 {
      assert Snap(Queue(w, dir, parent, ts)).tasks == Snap(w).tasks;
    }
  }

  // ---------------------------------------------------------------------------------------------
  // Wakes from one snapshot.

  lemma DirOfTask(w: World, task: HarnessTask)
    requires Legal(w.rows) && task in Snap(w).tasks
    ensures TaskFor(w.rows, task.dir) == task.id
  {
    SnapshotsAreSound(w.rows);
    TaskById(Snap(w), |w.rows.events|, task);
    TaskAtExact(w.rows.tasks, task.dir);
  }

  lemma WakeAdds(w: World, woken: HarnessTask, ts: int)
    requires Legal(w.rows) && woken in Snap(w).tasks
    ensures 1 <= woken.id <= |Snap(w).tasks|
    ensures var s' := Snap(Queue(w, woken.dir, woken.parentAgent, ts));
      && s'.tasks == Snap(w).tasks && EventsStay(Snap(w), s')
      && Adds(Snap(w), s', woken.id, |w.rows.agents| + 1, |w.rows.events| + 1)
      && |w.rows.agents| + 1 in s'.events
      && s'.events[|w.rows.agents| + 1] == [AgentEvent(|w.rows.events| + 1, |w.rows.agents| + 1, ts, QUEUED, SUPERVISOR, 0, 0)]
  {
    SnapshotsAreSound(w.rows);
    TaskById(Snap(w), |w.rows.events|, woken);
    DirOfTask(w, woken);
    QueueAdds(w, woken.dir, woken.parentAgent, ts);
    QueueEventsStay(w, woken.dir, woken.parentAgent, ts);
  }

  ghost predicate AllServed(s: Snapshot) {
    forall c :: c in s.tasks ==> NewestAgent(s, c.id) in s.attempts && NewestAgent(s, c.id) in s.events
  }

  lemma NewestAreKnown(w: World)
    requires Legal(w.rows)
    ensures AllServed(Snap(w))
  {
    SnapshotsAreSound(w.rows);
    forall c | c in Snap(w).tasks
      ensures NewestAgent(Snap(w), c.id) in Snap(w).attempts && NewestAgent(Snap(w), c.id) in Snap(w).events
    {
      TaskById(Snap(w), |w.rows.events|, c);
      NewestIsLargest(Snap(w), |w.rows.events|, c.id);
    }
  }

  /** One idling task got a fresh queued attempt, and nothing else moved. */
  ghost predicate OnlyWoke(s: Snapshot, s': Snapshot, woken: nat, agent: nat, row: nat) {
    && Adds(s, s', woken, agent, row) && EventsStay(s, s') && s'.tasks == s.tasks
    && IsIdling(s, woken) && AllServed(s)
    && agent in s'.events && |s'.events[agent]| == 1 && s'.events[agent][0].status.QUEUED?
  }

  /** Waking is enqueueing at the task's own directory, and that is all it does. */
  lemma WakeOnlyWakes(w: World, woken: HarnessTask, ts: int)
    requires Legal(w.rows) && woken in Snap(w).tasks && IsIdling(Snap(w), woken.id)
    ensures OnlyWoke(Snap(w), Snap(Queue(w, woken.dir, woken.parentAgent, ts)), woken.id,
                     |w.rows.agents| + 1, |w.rows.events| + 1)
    ensures 1 <= woken.id <= |Snap(w).tasks|
  {
    WakeAdds(w, woken, ts);
    NewestAreKnown(w);
  }

  /** Waking one idling task changes no other task's news, and leaves the woken one without any. */
  lemma WakesAreIndependent(s: Snapshot, s': Snapshot, woken: nat, agent: nat, row: nat, other: HarnessTask)
    requires OnlyWoke(s, s', woken, agent, row)
    ensures other in s.tasks && other.id != woken ==> HasNews(s', other.id) == HasNews(s, other.id)
    ensures !HasNews(s', woken)
  {
    NoIdlingRows(s'.events[agent]);
    if other in s.tasks && other.id != woken {
      assert EventsIn(s', NewestAgent(s', other.id)) == EventsIn(s, NewestAgent(s, other.id));
      forall c, seen: int | c in s.tasks
        ensures ChildNews(s', c, seen) == ChildNews(s, c, seen)
      {
        assert NewestState(s', c.id) == if c.id == woken then Queued else NewestState(s, c.id);
      }
      forall c | c in s.tasks
        ensures IsChild(s', other.id, c) == IsChild(s, other.id, c)
      {
      }
    }
  }

  /** The process has ended and left an outcome of this kind. */
  ghost predicate ReadyToReap(w: World, agent: nat, kind: AgentStatus) {
    && agent in Snap(w).attempts && Snap(w).attempts[agent].Running? && agent !in w.alive
    && agent in w.outcomes && w.outcomes[agent].kind == kind
  }

  /** The row `_close` records for an agent that left an outcome. */
  function Reap(w: World, agent: nat, ts: int): World
    requires agent in w.outcomes
  {
    Log(w, agent, w.outcomes[agent].kind, SUPERVISOR, 0, ts, w.outcomes[agent].seenThrough)
  }

  lemma WrittenIsVerdict(s: Snapshot, outcomes: map<nat, Header>, agent: nat)
    requires OutcomesFit(s, outcomes) && agent in outcomes
    ensures IsVerdict(outcomes[agent].kind)
  {
  }

  lemma ReapIsRecordable(w: World, agent: nat, kind: AgentStatus)
    requires ReadyToReap(w, agent, kind) && IsVerdict(kind)
    ensures Recordable(w, agent, kind, SUPERVISOR, 0, w.outcomes[agent].seenThrough)
    ensures NextState(Snap(w).attempts[agent], kind, SUPERVISOR, 0) == Some(Closed(kind))
  {
  }

  lemma ReapKeeps(w: World, agent: nat, kind: AgentStatus, ts: int)
    requires Inv(w) && ReadyToReap(w, agent, kind)
    ensures Inv(Reap(w, agent, ts))
    ensures Moves(Snap(w), Snap(Reap(w, agent, ts)), agent, Closed(kind), |w.rows.events| + 1)
  {
    WrittenIsVerdict(Snap(w), w.outcomes, agent);
    ReapIsRecordable(w, agent, kind);
    LogKeeps(w, agent, kind, SUPERVISOR, 0, ts, w.outcomes[agent].seenThrough, w.stray);
    LogMoves(w, agent, kind, SUPERVISOR, 0, ts, w.outcomes[agent].seenThrough);
  }

  /** A child whose answer is unread is news once it was recorded after the watermark. */
  lemma UnreadIsNews(w: World, task: nat, child: HarnessTask)
    requires Inv(w) && task in Snap(w).agentsByTask && IsIdling(Snap(w), task) && NewestAgent(Snap(w), task) in w.idled
    requires child in Snap(w).tasks && IsChild(Snap(w), task, child) && IsNews(Snap(w), NewestAgent(Snap(w), child.id))
    ensures NewestRow(Snap(w), child.id) > w.idled[NewestAgent(Snap(w), task)].seenThrough ==> HasNews(Snap(w), task)
  {
    hide Legal, SnapshotOf;
    IdlingWasMeasured(w, task);
    var seen := w.idled[NewestAgent(Snap(w), task)].seenThrough;
    assert NewestRow(Snap(w), child.id) > seen ==> ChildNews(Snap(w), child, seen);
  }

  /** Without a watermark, exactly an unread settled child is news. */
  lemma NoWatermarkSeesEveryUnread(w: World, task: nat)
    requires Inv(w) && task in Snap(w).agentsByTask && IsIdling(Snap(w), task)
    requires NewestAgent(Snap(w), task) in w.outcomes && w.outcomes[NewestAgent(Snap(w), task)].seenThrough == NO_WATERMARK
    ensures HasNews(Snap(w), task) <==>
            exists child :: child in Snap(w).tasks && IsChild(Snap(w), task, child) &&
                            IsNews(Snap(w), NewestAgent(Snap(w), child.id))
  {
    IdlingWasMeasured(w, task);
    var p := NewestAgent(Snap(w), task);
    NewestIsLargest(Snap(w), |w.rows.events|, task);
    assert IdlingRows(EventsIn(Snap(w), p))[0].seenThrough == NO_WATERMARK;
    forall child | child in Snap(w).tasks && IsNews(Snap(w), NewestAgent(Snap(w), child.id))
      ensures ChildNews(Snap(w), child, NO_WATERMARK)
    {
    }
  }

  // ---------------------------------------------------------------------------------------------
  // An idle that comes too late: every child had settled before it measured the log.

  /** The attempt idles, writes its outcome, exits and is reaped, with nothing else in between. */
  function IdledAndReaped(w: World, who: nat, ts: int): World {
    var gone := Gone(w, who);
    if who in gone.outcomes then Reap(gone, who, ts) else gone
  }

  function Gone(w: World, who: nat): World {
    var finished := Finished(Measured(w, who, |w.rows.events|), who, IDLING);
    finished.(alive := finished.alive - {who})
  }

  lemma GoneIsReady(w: World, who: nat)
    requires Inv(w) && CanAct(w, who) && who !in w.idled
    ensures Inv(Gone(w, who)) && ReadyToReap(Gone(w, who), who, IDLING)
    ensures Gone(w, who).rows == w.rows && who in Gone(w, who).idled
    ensures Gone(w, who).idled[who] == Measure(|w.rows.events|, |w.rows.events|, LiveChildren(Snap(w), who))
  {
    hide Inv;
    MeasureKeeps(w, who, |w.rows.events|);
    FinishKeeps(Measured(w, who, |w.rows.events|), who, IDLING);
    ActKeeps(Finished(Measured(w, who, |w.rows.events|), who, IDLING), Exit(who), 0, 0);
    AliveIsNewest(w, who);
  }

  /** Such an attempt ends up asleep with nothing to wake it, whatever its children still hold. */
  lemma TooLateToBeWoken(w: World, who: nat, ts: int)
    requires Inv(w) && CanAct(w, who) && who !in w.idled && LiveChildren(Snap(w), who) == []
    ensures var w', task := IdledAndReaped(w, who, ts), OwnerIn(Snap(w), who);
      && Inv(w') && IsIdling(Snap(w'), task) && !HasNews(Snap(w'), task)
      && NothingComing(Snap(w'), task, |w.rows.events|)
  {
    hide Inv, HasNews, NothingComing, CanAct;
    var gone, task := Gone(w, who), OwnerIn(Snap(w), who);
    GoneIsReady(w, who);
    NewestOfAlive(w, who);
    EmptyHandedMeansNothingComing(w, who);
    ReapKeeps(gone, who, IDLING, ts);
    var w' := Reap(gone, who, ts);
    NothingComingSurvivesRows(Snap(gone), Snap(w'), who, IDLING, SUPERVISOR, 0, |w.rows.events| + 1, task, |w.rows.events|);
    NothingComingIsNoNews(w', task);
  }

  lemma NewestOfAlive(w: World, who: nat)
    requires Inv(w) && CanAct(w, who)
    ensures who in w.alive && who in Snap(w).attempts && Snap(w).attempts[who].Running?
    ensures NewestAgent(Snap(w), OwnerIn(Snap(w), who)) == who && OwnerIn(Snap(w), who) in Snap(w).agentsByTask
  {
    AliveIsNewest(w, who);
    assert Sited(Snap(w), who);
  }

  /** A wake leaves the idling attempt behind for good: newest agents only ever get later. */
  lemma WakeSpendsItsIdle(w: World, woken: HarnessTask, ts: int)
    requires Legal(w.rows) && woken in Snap(w).tasks
    ensures NewestAgent(Snap(w), woken.id) < NewestAgent(Snap(Queue(w, woken.dir, woken.parentAgent, ts)), woken.id)
  {
    WakeAdds(w, woken, ts);
    NewestAreKnown(w);
  }
}
