/** What the scheduling rules come to: each rule that looks at a task's children, said again over the
    rows of the agents themselves. */
module Children {
  import opened Options
  import opened Attempts
  import opened Bus
  import opened Schedule
  import opened Protocol
  import opened Keeps
  import opened Runs

  /** The agent speaks for a child of the task: no agent of its own task is newer, and that task's
      parent is an agent of this one. */
  ghost predicate SpeaksForChild(s: Snapshot, task: nat, agent: nat) {
    && agent in s.taskByAgent && agent in s.attempts && agent in s.events && s.events[agent] != []
    && 1 <= s.taskByAgent[agent] <= |s.tasks|
    && (forall other :: other in s.taskByAgent && s.taskByAgent[other] == s.taskByAgent[agent] ==> other <= agent)
    && var parent := s.tasks[s.taskByAgent[agent] - 1].parentAgent;
       parent in s.taskByAgent && s.taskByAgent[parent] == task
  }

  lemma AgentsOfTask(s: Snapshot, rows: nat, task: nat, agent: nat)
    requires Sound(s, rows)
    ensures agent in AgentsAt(s, task) <==> agent in s.taskByAgent && s.taskByAgent[agent] == task
  {
    if task in s.agentsByTask {
      assert Roster(s, task);
    }
    if agent in s.taskByAgent {
      assert Sited(s, agent);
    }
  }

  /** A task is a child exactly when its newest agent speaks for one. */
  lemma ChildSpeaks(s: Snapshot, rows: nat, task: nat, child: HarnessTask)
    requires Sound(s, rows) && child in s.tasks
    ensures IsChild(s, task, child) <==> SpeaksForChild(s, task, NewestAgent(s, child.id))
    ensures NewestAgent(s, child.id) in s.attempts && NewestAgent(s, child.id) in s.events
  {
    TaskById(s, rows, child);
    NewestIsLargest(s, rows, child.id);
    assert Recorded(s, NewestAgent(s, child.id), rows);
    AgentsOfTask(s, rows, task, child.parentAgent);
    forall other | other in s.taskByAgent && s.taskByAgent[other] == child.id
      ensures other <= NewestAgent(s, child.id)
    {
      AgentsOfTask(s, rows, child.id, other);
    }
  }

  /** And whoever speaks for a child is the newest agent of one. */
  lemma SpeakerIsNewest(s: Snapshot, rows: nat, task: nat, agent: nat)
    requires Sound(s, rows) && SpeaksForChild(s, task, agent)
    ensures var child := s.tasks[s.taskByAgent[agent] - 1];
      child in s.tasks && NewestAgent(s, child.id) == agent && IsChild(s, task, child)
  {
    var child := s.tasks[s.taskByAgent[agent] - 1];
    assert child.id == s.taskByAgent[agent] && child in s.tasks;
    TaskById(s, rows, child);
    NewestIsLargest(s, rows, child.id);
    AgentsOfTask(s, rows, task, child.parentAgent);
    AgentsOfTask(s, rows, child.id, agent);
  }

  lemma NewestOfEachIn(s: Snapshot, tasks: seq<HarnessTask>, a: nat)
    ensures a in NewestOfEach(s, tasks) <==> exists t :: t in tasks && NewestAgent(s, t.id) == a
  {
    var agents := NewestOfEach(s, tasks);
    if a in agents {
      var i :| 0 <= i < |agents| && agents[i] == a;
      assert tasks[i] in tasks;
    }
    if exists t :: t in tasks && NewestAgent(s, t.id) == a {
      var t :| t in tasks && NewestAgent(s, t.id) == a;
      var i :| 0 <= i < |tasks| && tasks[i] == t;
      assert agents[i] == a;
    }
  }

  /** An agent speaks for a child exactly when it is the newest agent of some child. */
  lemma SpeakersAre(s: Snapshot, rows: nat, task: nat, a: nat)
    requires Sound(s, rows)
    ensures SpeaksForChild(s, task, a) <==> exists t :: t in s.tasks && IsChild(s, task, t) && NewestAgent(s, t.id) == a
  {
    hide Sound, IsChild, NewestAgent;
    if SpeaksForChild(s, task, a) {
      SpeakerIsNewest(s, rows, task, a);
    }
    if exists t :: t in s.tasks && IsChild(s, task, t) && NewestAgent(s, t.id) == a {
      var t :| t in s.tasks && IsChild(s, task, t) && NewestAgent(s, t.id) == a;
      ChildSpeaks(s, rows, task, t);
    }
  }

  /** The uncollected children of a task are those that ended and were not collected. */
  lemma UncollectedExactly(s: Snapshot, rows: nat, task: nat, agent: nat)
    requires Sound(s, rows)
    ensures agent in Uncollected(s, task) <==>
              SpeaksForChild(s, task, agent) && (s.attempts[agent].Closed? || s.attempts[agent].Lost?)
  {
    hide Sound, IsChild, NewestAgent;
    NewestOfEachIn(s, UnreadTasks(s, task), agent);
    SpeakersAre(s, rows, task, agent);
  }

  /** The live children of an attempt are those still queued, claimed or running, and those that idled. */
  lemma LiveChildrenExactly(s: Snapshot, rows: nat, agent: nat, child: nat)
    requires Sound(s, rows) && agent in s.attempts && agent in s.taskByAgent
    ensures child in LiveChildren(s, agent) <==>
              SpeaksForChild(s, s.taskByAgent[agent], child) &&
              match s.attempts[child]
              case Closed(verdict) => verdict == IDLING
              case Lost(_) => false
              case Collected(verdict, _) => verdict == IDLING
              case _ => true
  {
    hide Sound, IsChild, NewestAgent;
    TaskOfIsOwner(s, rows, agent);
    NewestOfEachIn(s, LiveTasks(s, TaskOf(s, agent).id), child);
    SpeakersAre(s, rows, s.taskByAgent[agent], child);
  }

  /** Somebody who speaks for a child ended, otherwise than by idling, with a row after the watermark. */
  ghost predicate SaysLater(s: Snapshot, task: nat, child: nat, seenThrough: int) {
    && SpeaksForChild(s, task, child)
    && (s.attempts[child].Lost? || (s.attempts[child].Closed? && !s.attempts[child].verdict.IDLING?))
    && s.events[child][|s.events[child]| - 1].id > seenThrough
  }

  lemma ChildNewsIsSaid(s: Snapshot, rows: nat, task: nat, child: HarnessTask, seenThrough: int)
    requires Sound(s, rows) && child in s.tasks
    ensures IsChild(s, task, child) && ChildNews(s, child, seenThrough) <==>
            SaysLater(s, task, NewestAgent(s, child.id), seenThrough)
  {
    hide SpeaksForChild, IsChild, NewestAgent, InOrder;
    var newest := NewestAgent(s, child.id);
    ChildSpeaks(s, rows, task, child);
    assert Recorded(s, newest, rows);
    LastIdInOrder(s.events[newest], rows);
    assert SpeaksForChild(s, task, newest) ==> newest in s.attempts;
  }

  lemma NewsHasASpeaker(s: Snapshot, rows: nat, task: nat)
    requires Sound(s, rows) && HasNews(s, task) && NewestAgent(s, task) in s.events
    ensures var idled := IdlingRows(s.events[NewestAgent(s, task)]);
      |idled| == 1 && exists child :: SaysLater(s, task, child, idled[0].seenThrough)
  {
    hide Sound, IsChild, NewestAgent, ChildNews, SaysLater;
    var seenThrough := IdlingRows(s.events[NewestAgent(s, task)])[0].seenThrough;
    var child :| child in s.tasks && IsChild(s, task, child) && ChildNews(s, child, seenThrough);
    ChildNewsIsSaid(s, rows, task, child, seenThrough);
  }

  lemma SpeakerIsNews(s: Snapshot, rows: nat, task: nat, child: nat, row: AgentEvent)
    requires Sound(s, rows) && NewestAgent(s, task) in s.events && IdlingRows(s.events[NewestAgent(s, task)]) == [row]
    requires SaysLater(s, task, child, row.seenThrough)
    ensures HasNews(s, task)
  {
    hide Sound, IsChild, NewestAgent, ChildNews;
    SpeakerIsNewest(s, rows, task, child);
    ChildNewsIsSaid(s, rows, task, s.tasks[s.taskByAgent[child] - 1], row.seenThrough);
  }

  /** A task has news exactly when its newest attempt idled and somebody who speaks for a child of it
      ended, otherwise than by idling, with a row after the watermark of that idling. */
  lemma HasNewsExactly(s: Snapshot, rows: nat, task: nat, newest: nat)
    requires Sound(s, rows) && newest in s.events && newest in s.taskByAgent && s.taskByAgent[newest] == task
    requires forall other :: other in s.taskByAgent && s.taskByAgent[other] == task ==> other <= newest
    ensures HasNews(s, task) <==>
              exists row, child :: row in s.events[newest] && row.status.IDLING? && SaysLater(s, task, child, row.seenThrough)
  {
    hide SpeaksForChild, IsChild, HasNews, InOrder, Ascending;
    assert Recorded(s, newest, rows) && Sited(s, newest);
    AgentsOfTask(s, rows, task, newest);
    NewestIsLargest(s, rows, task);
    LegalHistoryShape(s.events[newest]);
    IdlingRowsExactly(s.events[newest]);
    if HasNews(s, task) {
      NewsHasASpeaker(s, rows, task);
    }
    if exists row, child :: row in s.events[newest] && row.status.IDLING? && SaysLater(s, task, child, row.seenThrough) {
      var row, child :| row in s.events[newest] && row.status.IDLING? && SaysLater(s, task, child, row.seenThrough);
      assert row in IdlingRows(s.events[newest]);
      assert IdlingRows(s.events[newest]) == [row];
      SpeakerIsNews(s, rows, task, child, row);
    }
  }

  // ---------------------------------------------------------------------------------------------
  // What a delegation, a watch and an answer do.

  /** One attempt is queued, at the task of this directory, which is made with this parent if there was
      none; nothing else changes. */
  ghost predicate QueuedAt(w: World, w': World, dir: string, parent: nat) {
    var agent := |w.rows.agents| + 1;
    var owner := OwnerIn(Snap(w'), agent);
    && w' == w.(rows := w'.rows) && agent !in Snap(w).attempts && Snap(w').attempts == Snap(w).attempts[agent := Queued]
    && 1 <= owner <= |w'.rows.tasks| && w'.rows.tasks[owner - 1].dir == dir
    && if exists known :: known in w.rows.tasks && known.dir == dir then w'.rows.tasks == w.rows.tasks
       else w'.rows.tasks == w.rows.tasks + [HarnessTask(owner, dir, parent)]
  }

  lemma QueueIsAt(w: World, dir: string, parent: nat, ts: int)
    requires Legal(w.rows)
    ensures QueuedAt(w, Queue(w, dir, parent, ts), dir, parent)
    ensures OwnerIn(Snap(Queue(w, dir, parent, ts)), |w.rows.agents| + 1) == TaskFor(w.rows, dir)
  {
    hide Legal, SnapshotOf, TaskAt, Enqueued;
    EnqueueSnapshot(w.rows, dir, parent, ts);
    EnqueuedTasks(w.rows, dir, parent, ts);
    NextAgentIsNew(w.rows);
  }

  lemma NextAgentIsNew(r: Rows)
    ensures |r.agents| + 1 !in SnapshotOf(r).attempts
  {
  }

  lemma EnqueuedTasks(r: Rows, dir: string, parent: nat, ts: int)
    requires Legal(r)
    ensures var r', owner := Enqueued(r, dir, parent, ts), TaskFor(r, dir);
      && 1 <= owner <= |r'.tasks| && r'.tasks[owner - 1].dir == dir
      && if exists known :: known in r.tasks && known.dir == dir then r'.tasks == r.tasks
         else r'.tasks == r.tasks + [HarnessTask(owner, dir, parent)]
  {
    TaskAtExact(r.tasks, dir);
    var at := TaskAt(r.tasks, dir);
    if at != 0 {
      assert r.tasks[at - 1] in r.tasks;
    }
  }

  /** A delegate tool and a watch queue an attempt at their directory, as a child of their caller if it is
      new; an answer queues another attempt at the very task that asked. */
  lemma QueuesExactly(w: World, act: Action, maxDepth: int, ts: int)
    requires Inv(w) && Enabled(w, act, maxDepth)
    ensures act.Delegate? || act.Watch? ==> QueuedAt(w, Act(w, act, maxDepth, ts), act.dir, act.who)
    ensures act.Answer? ==>
              var w', task := Act(w, act, maxDepth, ts), TaskOf(Snap(w), act.agent);
              && QueuedAt(w, w', task.dir, task.parentAgent) && w'.rows.tasks == w.rows.tasks
              && OwnerIn(Snap(w'), |w.rows.agents| + 1) == OwnerIn(Snap(w), act.agent)
  {
    hide Inv, Legal, QueuedAt, ActiveFor, MayDelegate, SnapshotOf;
    InvIsLegal(w);
    match act
    case Delegate(who, dir) => QueueIsAt(w, dir, who, ts);
    case Watch(who, dir) => QueueIsAt(w, dir, who, ts);
    case Answer(agent) =>
      var task := TaskOf(Snap(w), agent);
      QueueIsAt(w, task.dir, task.parentAgent, ts);
      AnsweredTask(w, agent);
    case _ =>
  }

  lemma AnsweredTask(w: World, agent: nat)
    requires Inv(w) && Answerable(Snap(w), agent)
    ensures var task := TaskOf(Snap(w), agent);
      && task in w.rows.tasks && TaskFor(w.rows, task.dir) == OwnerIn(Snap(w), agent) && TaskAt(w.rows.tasks, task.dir) != 0
  {
    hide Legal, SnapshotOf, ActiveFor, TaskAt, AllFold, AllManned;
    InvIsLegal(w);
    TasksOfRows(w);
    TaskOfIsOwner(Snap(w), |w.rows.events|, agent);
    DirectoryIsFound(w.rows, OwnerIn(Snap(w), agent));
  }

  lemma TasksOfRows(w: World)
    ensures Snap(w).tasks == w.rows.tasks
  {
  }

  /** A task is found again by its directory. */
  lemma DirectoryIsFound(r: Rows, task: nat)
    requires Legal(r) && 1 <= task <= |r.tasks|
    ensures TaskAt(r.tasks, r.tasks[task - 1].dir) == task && r.tasks[task - 1] in r.tasks
  {
    TaskAtExact(r.tasks, r.tasks[task - 1].dir);
  }
}
