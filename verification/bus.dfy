/** The append-only store (bus/lifecycle_store.py): its rows, the folded view every scheduling rule
    reads, and the class whose transactions append to it. Each BEGIN IMMEDIATE block is one step;
    rows are never deleted, so an id is its row's position, counted from one. */
module Bus {
  import opened Options
  import opened Attempts

  datatype HarnessTask = HarnessTask(id: nat, dir: string, parentAgent: nat)
  datatype AgentRow = AgentRow(id: nat, task: nat)
  datatype Rows = Rows(tasks: seq<HarnessTask>, agents: seq<AgentRow>, events: seq<AgentEvent>)

  /** attempt/snapshot.py: everything about a run, read once and folded once. */
  datatype Snapshot = Snapshot(
    tasks: seq<HarnessTask>,
    agentsByTask: map<nat, seq<nat>>,
    taskByAgent: map<nat, nat>,
    events: map<nat, seq<AgentEvent>>,
    attempts: map<nat, Attempt>)

  /** The person who started the run; agent ids start at one. */
  const HUMAN: nat := 0

  // ---------------------------------------------------------------------------------------------
  // Reading the rows.

  function AgentsOf(agents: seq<AgentRow>, task: nat): seq<nat> {
    if agents == [] then []
    else
      var before := AgentsOf(agents[..|agents| - 1], task);
      var last := agents[|agents| - 1];
      if last.task == task then before + [last.id] else before
  }

  function HistoryOf(events: seq<AgentEvent>, agent: nat): seq<AgentEvent> {
    if events == [] then []
    else
      var before := HistoryOf(events[..|events| - 1], agent);
      var last := events[|events| - 1];
      if last.agent == agent then before + [last] else before
  }

  /** The task whose directory is `dir`, or 0. */
  function TaskAt(tasks: seq<HarnessTask>, dir: string): nat {
    if tasks == [] then 0
    else if tasks[|tasks| - 1].dir == dir then tasks[|tasks| - 1].id
    else TaskAt(tasks[..|tasks| - 1], dir)
  }

  /** What every store the harness writes satisfies: ids are positions, references resolve, no two
      tasks share a directory, every history folds, and no task or agent row stands alone. */
  ghost predicate Legal(r: Rows) {
    TaskRows(r.tasks) && AgentRows(r) && EventRows(r) && AllFold(r.events, |r.agents|) && AllManned(r)
  }

  ghost predicate TaskRows(tasks: seq<HarnessTask>) {
    && (forall i :: 0 <= i < |tasks| ==> tasks[i].id == i + 1)
    && (forall i, j :: 0 <= i < j < |tasks| ==> tasks[i].dir != tasks[j].dir)
  }

  ghost predicate AgentRows(r: Rows) {
    forall i :: 0 <= i < |r.agents| ==> r.agents[i].id == i + 1 && 1 <= r.agents[i].task <= |r.tasks|
  }

  ghost predicate EventRows(r: Rows) {
    forall i :: 0 <= i < |r.events| ==> r.events[i].id == i + 1 && 1 <= r.events[i].agent <= |r.agents|
  }

  ghost predicate AllFold(events: seq<AgentEvent>, agents: nat) {
    forall a :: 1 <= a <= agents ==> Folds(events, a)
  }

  ghost predicate AllManned(r: Rows) {
    forall t :: 1 <= t <= |r.tasks| ==> AgentsOf(r.agents, t) != []
  }

  ghost predicate Folds(events: seq<AgentEvent>, agent: nat) {
    AttemptOf(HistoryOf(events, agent)).Some? && HistoryOf(events, agent) != []
  }

  /** The state an agent's rows fold to; Nascent stands in where the fold rejects them. */
  function State(events: seq<AgentEvent>, agent: nat): Attempt {
    var folded := AttemptOf(HistoryOf(events, agent));
    if folded.None? then Nascent else folded.value
  }

  function TaskOfAgent(agents: seq<AgentRow>, agent: nat): nat {
    if 1 <= agent <= |agents| then agents[agent - 1].task else 0
  }

  /** The numbers 1 to n. */
  function Ids(n: nat): (ids: set<nat>)
    ensures forall i :: i in ids <==> 1 <= i <= n
  {
    if n == 0 then {} else Ids(n - 1) + {n}
  }

  /** The folded view of the rows; the source raises where a history does not fold, which no legal
      store reaches. */
  function SnapshotOf(r: Rows): Snapshot {
    Snapshot(
      r.tasks,
      map t | t in Ids(|r.tasks|) :: AgentsOf(r.agents, t),
      map a | a in Ids(|r.agents|) :: TaskOfAgent(r.agents, a),
      HistoryMap(r.events, |r.agents|),
      StateMap(r.events, |r.agents|))
  }

  function HistoryMap(events: seq<AgentEvent>, agents: nat): map<nat, seq<AgentEvent>> {
    map a | a in Ids(agents) :: HistoryOf(events, a)
  }

  function StateMap(events: seq<AgentEvent>, agents: nat): map<nat, Attempt> {
    map a | a in Ids(agents) :: State(events, a)
  }

  // ---------------------------------------------------------------------------------------------
  // The store's operations as functions of the rows.

  function Appended(r: Rows, agent: nat, status: AgentStatus, source: EventSource,
                    pid: int, ts: int, seenThrough: int): Rows
  {
    r.(events := r.events + [AgentEvent(|r.events| + 1, agent, ts, status, source, pid, seenThrough)])
  }

  function TaskFor(r: Rows, dir: string): nat {
    if TaskAt(r.tasks, dir) == 0 then |r.tasks| + 1 else TaskAt(r.tasks, dir)
  }

  /** Enqueueing: the task row unless its directory is taken, a fresh agent row, and its queued row. */
  function Enqueued(r: Rows, dir: string, parent: nat, ts: int): Rows {
    var tasks := if TaskAt(r.tasks, dir) == 0 then r.tasks + [HarnessTask(|r.tasks| + 1, dir, parent)] else r.tasks;
    var agent := |r.agents| + 1;
    Appended(
      Rows(tasks, r.agents + [AgentRow(agent, TaskFor(r, dir))], r.events),
      agent, QUEUED, SUPERVISOR, 0, ts, 0)
  }

  /** Python's `xs[:limit]`. */
  function Prefix<T>(xs: seq<T>, limit: int): (p: seq<T>)
    ensures p <= xs
    ensures 0 <= limit ==> |p| == if limit <= |xs| then limit else |xs|
  {
    if 0 <= limit then (if limit <= |xs| then xs[..limit] else xs)
    else if |xs| + limit <= 0 then [] else xs[..|xs| + limit]
  }

  lemma PrefixMembers(xs: seq<nat>, limit: int)
    ensures forall x :: x in Prefix(xs, limit) ==> x in xs
    ensures Ascending(xs) ==> Ascending(Prefix(xs, limit))
  {
    var p := Prefix(xs, limit);
    forall x | x in p
      ensures x in xs
    {
      var i :| 0 <= i < |p| && p[i] == x;
      assert xs[i] == x;
    }
  }

  /** The status of an agent's latest row, as the SQL filter sees it. */
  function LatestStatus(events: seq<AgentEvent>, agent: nat): Option<AgentStatus> {
    var h := HistoryOf(events, agent);
    if h == [] then None else Some(h[|h| - 1].status)
  }

  /** The agents the claim query returns, lowest id first: latest row queued, and the fold says so too. */
  function QueuedAgents(r: Rows, n: nat): seq<nat> {
    if n == 0 then []
    else
      QueuedAgents(r, n - 1) +
      if LatestStatus(r.events, n) == Some(QUEUED) && AttemptOf(HistoryOf(r.events, n)) == Some(Queued)
      then [n] else []
  }

  function ClaimedAll(r: Rows, agents: seq<nat>, ts: int): Rows {
    if agents == [] then r
    else Appended(ClaimedAll(r, agents[..|agents| - 1], ts), agents[|agents| - 1], CLAIMED, SUPERVISOR, 0, ts, 0)
  }

  // ---------------------------------------------------------------------------------------------
  // How the snapshot follows the rows.

  lemma AgentsOfAppend(agents: seq<AgentRow>, row: AgentRow, task: nat)
    ensures AgentsOf(agents + [row], task) ==
            AgentsOf(agents, task) + if row.task == task then [row.id] else []
  {
    assert (agents + [row])[..|agents|] == agents;
  }

  lemma HistoryOfAppend(events: seq<AgentEvent>, e: AgentEvent, agent: nat)
    ensures HistoryOf(events + [e], agent) ==
            HistoryOf(events, agent) + if e.agent == agent then [e] else []
  {
    assert (events + [e])[..|events|] == events;
  }

  /** A history is the agent's own rows, in the order of their ids. */
  lemma {:induction false} HistoryIsOrdered(events: seq<AgentEvent>, agent: nat)
    requires forall i :: 0 <= i < |events| ==> events[i].id == i + 1
    ensures forall i :: 0 <= i < |HistoryOf(events, agent)| ==>
              HistoryOf(events, agent)[i].agent == agent && 1 <= HistoryOf(events, agent)[i].id <= |events|
    ensures forall i, j :: 0 <= i < j < |HistoryOf(events, agent)| ==>
              HistoryOf(events, agent)[i].id < HistoryOf(events, agent)[j].id
    ensures forall e :: e in events && e.agent == agent ==> e in HistoryOf(events, agent)
    ensures forall e :: e in HistoryOf(events, agent) ==> e in events
  {
    if events != [] {
      var init := events[..|events| - 1];
      HistoryIsOrdered(init, agent);
      assert events == init + [events[|events| - 1]];
    }
  }

  lemma {:induction false} NoHistory(events: seq<AgentEvent>, agent: nat)
    requires forall e :: e in events ==> e.agent != agent
    ensures HistoryOf(events, agent) == []
  {
    if events != [] {
      NoHistory(events[..|events| - 1], agent);
    }
  }

  /** A task's agents are exactly the rows that name it, oldest first. */
  lemma {:induction false} AgentsAreOrdered(agents: seq<AgentRow>, task: nat)
    requires forall i :: 0 <= i < |agents| ==> agents[i].id == i + 1
    ensures forall a :: a in AgentsOf(agents, task) ==> 1 <= a <= |agents| && agents[a - 1].task == task
    ensures forall i :: 0 <= i < |agents| && agents[i].task == task ==> i + 1 in AgentsOf(agents, task)
    ensures Ascending(AgentsOf(agents, task))
  {
    if agents != [] {
      var init := agents[..|agents| - 1];
      AgentsAreOrdered(init, task);
      var before := AgentsOf(init, task);
      assert forall a :: a in before ==> a <= |init|;
      assert forall i :: 0 <= i < |before| ==> before[i] in before;
    }
  }

  ghost predicate Ascending(xs: seq<nat>) {
    forall i, j :: 0 <= i < j < |xs| ==> xs[i] < xs[j]
  }

  /** Finding a task by its directory. */
  lemma {:induction false} TaskAtExact(tasks: seq<HarnessTask>, dir: string)
    requires forall i :: 0 <= i < |tasks| ==> tasks[i].id == i + 1
    ensures TaskAt(tasks, dir) == 0 ==> forall i :: 0 <= i < |tasks| ==> tasks[i].dir != dir
    ensures TaskAt(tasks, dir) != 0 ==>
              1 <= TaskAt(tasks, dir) <= |tasks| && tasks[TaskAt(tasks, dir) - 1].dir == dir
  {
    if tasks != [] {
      TaskAtExact(tasks[..|tasks| - 1], dir);
    }
  }

  lemma RecordHistories(events: seq<AgentEvent>, e: AgentEvent, a: nat)
    requires Folds(events, a)
    requires e.agent == a ==> NextState(State(events, a), e.status, e.source, e.pid).Some?
    ensures Folds(events + [e], a)
    ensures HistoryOf(events + [e], a) == if e.agent == a then HistoryOf(events, a) + [e] else HistoryOf(events, a)
    ensures State(events + [e], a) ==
            if e.agent == a then NextState(State(events, a), e.status, e.source, e.pid).value else State(events, a)
  {
    HistoryOfAppend(events, e, a);
    if e.agent == a {
      AppendRow(HistoryOf(events, a), e);
    } else {
      assert HistoryOf(events, a) + [] == HistoryOf(events, a);
    }
  }

  /** The snapshot with one more row, moving one agent to a new state. */
  function RecordedIn(s: Snapshot, e: AgentEvent, state: Attempt): Snapshot
    requires e.agent in s.events
  {
    s.(events := s.events[e.agent := s.events[e.agent] + [e]], attempts := s.attempts[e.agent := state])
  }

  lemma RecordLegal(r: Rows, agent: nat, status: AgentStatus, source: EventSource, pid: int, ts: int, seenThrough: int)
    requires Legal(r) && 1 <= agent <= |r.agents|
    requires NextState(State(r.events, agent), status, source, pid).Some?
    ensures Legal(Appended(r, agent, status, source, pid, ts, seenThrough))
  {
    var e := AgentEvent(|r.events| + 1, agent, ts, status, source, pid, seenThrough);
    forall a: nat | 1 <= a <= |r.agents|
      ensures Folds(r.events + [e], a)
    {
      RecordHistories(r.events, e, a);
    }
  }

  /** Recording an accepted row keeps the store legal and touches one agent of the snapshot. */
  lemma RecordSnapshot(r: Rows, agent: nat, status: AgentStatus, source: EventSource,
                       pid: int, ts: int, seenThrough: int)
    requires Legal(r) && 1 <= agent <= |r.agents|
    requires NextState(State(r.events, agent), status, source, pid).Some?
    ensures Legal(Appended(r, agent, status, source, pid, ts, seenThrough))
    ensures SnapshotOf(Appended(r, agent, status, source, pid, ts, seenThrough)) ==
            RecordedIn(SnapshotOf(r), AgentEvent(|r.events| + 1, agent, ts, status, source, pid, seenThrough),
                       NextState(State(r.events, agent), status, source, pid).value)
  {
    RecordLegal(r, agent, status, source, pid, ts, seenThrough);
    OneRowMore(r.events, AgentEvent(|r.events| + 1, agent, ts, status, source, pid, seenThrough), |r.agents|);
  }

  lemma OneRowMore(events: seq<AgentEvent>, e: AgentEvent, n: nat)
    requires AllFold(events, n) && 1 <= e.agent <= n
    requires NextState(State(events, e.agent), e.status, e.source, e.pid).Some?
    ensures HistoryMap(events + [e], n) == HistoryMap(events, n)[e.agent := HistoryOf(events, e.agent) + [e]]
    ensures StateMap(events + [e], n) ==
            StateMap(events, n)[e.agent := NextState(State(events, e.agent), e.status, e.source, e.pid).value]
  {
    forall a: nat | 1 <= a <= n
      ensures a != e.agent ==> HistoryOf(events + [e], a) == HistoryOf(events, a)
      ensures a != e.agent ==> State(events + [e], a) == State(events, a)
    {
      assert Folds(events, a);
      RecordHistories(events, e, a);
    }
    assert Folds(events, e.agent);
    RecordHistories(events, e, e.agent);
    OneHistoryChanged(events, events + [e], n, e.agent);
    OneStateChanged(events, events + [e], n, e.agent);
  }

  lemma OneHistoryChanged(events: seq<AgentEvent>, events': seq<AgentEvent>, n: nat, agent: nat)
    requires forall a: nat :: 1 <= a <= n && a != agent ==> HistoryOf(events', a) == HistoryOf(events, a)
    requires 1 <= agent
    ensures agent <= n ==> HistoryMap(events', n) == HistoryMap(events, n)[agent := HistoryOf(events', agent)]
    ensures agent == n + 1 ==> HistoryMap(events', n + 1) == HistoryMap(events, n)[agent := HistoryOf(events', agent)]
  {
    if agent <= n {
      SameMap(HistoryMap(events', n), HistoryMap(events, n)[agent := HistoryOf(events', agent)]);
    } else if agent == n + 1 {
      SameMap(HistoryMap(events', n + 1), HistoryMap(events, n)[agent := HistoryOf(events', agent)]);
    }
  }

  lemma OneStateChanged(events: seq<AgentEvent>, events': seq<AgentEvent>, n: nat, agent: nat)
    requires forall a: nat :: 1 <= a <= n && a != agent ==> State(events', a) == State(events, a)
    requires 1 <= agent
    ensures agent <= n ==> StateMap(events', n) == StateMap(events, n)[agent := State(events', agent)]
    ensures agent == n + 1 ==> StateMap(events', n + 1) == StateMap(events, n)[agent := State(events', agent)]
  {
    if agent <= n {
      SameMap(StateMap(events', n), StateMap(events, n)[agent := State(events', agent)]);
    } else if agent == n + 1 {
      SameMap(StateMap(events', n + 1), StateMap(events, n)[agent := State(events', agent)]);
    }
  }

  lemma SameMap<V>(m: map<nat, V>, m': map<nat, V>)
    requires m.Keys == m'.Keys
    requires forall k :: k in m ==> m[k] == m'[k]
    ensures m == m'
  {
  }

  lemma EnqueueHistories(r: Rows, dir: string, parent: nat, ts: int)
    requires EventRows(r)
    ensures
      var r' := Enqueued(r, dir, parent, ts);
      var agent := |r.agents| + 1;
      && HistoryOf(r'.events, agent) == [AgentEvent(|r.events| + 1, agent, ts, QUEUED, SUPERVISOR, 0, 0)]
      && Folds(r'.events, agent) && State(r'.events, agent) == Queued
      && (forall a :: 1 <= a <= |r.agents| ==> HistoryOf(r'.events, a) == HistoryOf(r.events, a))
      && (forall a :: 1 <= a <= |r.agents| ==> State(r'.events, a) == State(r.events, a))
  {
    var agent := |r.agents| + 1;
    var e := AgentEvent(|r.events| + 1, agent, ts, QUEUED, SUPERVISOR, 0, 0);
    NoHistory(r.events, agent);
    HistoryOfAppend(r.events, e, agent);
    AppendRow([], e);
    assert [] + [e] == [e];
    forall a: nat | 1 <= a <= |r.agents|
      ensures HistoryOf(r.events + [e], a) == HistoryOf(r.events, a)
      ensures State(r.events + [e], a) == State(r.events, a)
    {
      HistoryOfAppend(r.events, e, a);
      assert HistoryOf(r.events, a) + [] == HistoryOf(r.events, a);
    }
  }

  lemma EnqueueAgents(r: Rows, dir: string, parent: nat, ts: int)
    requires Legal(r)
    ensures
      var r' := Enqueued(r, dir, parent, ts);
      var agent := |r.agents| + 1;
      var task := TaskFor(r, dir);
      && 1 <= task <= |r'.tasks|
      && (task > |r.tasks| ==> AgentsOf(r.agents, task) == [])
      && forall t :: 1 <= t <= |r'.tasks| ==>
           AgentsOf(r'.agents, t) == if t == task then AgentsOf(r.agents, t) + [agent] else AgentsOf(r.agents, t)
  {
    TaskAtExact(r.tasks, dir);
    var row := AgentRow(|r.agents| + 1, TaskFor(r, dir));
    forall t
      ensures AgentsOf(r.agents + [row], t) ==
              if t == row.task then AgentsOf(r.agents, t) + [row.id] else AgentsOf(r.agents, t)
    {
      AgentsOfAppend(r.agents, row, t);
    }
    AgentsAreOrdered(r.agents, row.task);
    var found := AgentsOf(r.agents, row.task);
    assert row.task > |r.tasks| && found != [] ==> found[0] in found;
  }

  lemma EnqueueLegal(r: Rows, dir: string, parent: nat, ts: int)
    requires Legal(r)
    ensures Legal(Enqueued(r, dir, parent, ts))
  {
    TaskAtExact(r.tasks, dir);
    var r' := Enqueued(r, dir, parent, ts);
    assert AllManned(r') by {
      EnqueueAgents(r, dir, parent, ts);
    }
    EnqueueFolds(r, dir, parent, ts);
  }

  lemma EnqueueFolds(r: Rows, dir: string, parent: nat, ts: int)
    requires EventRows(r) && AllFold(r.events, |r.agents|)
    ensures AllFold(Enqueued(r, dir, parent, ts).events, |r.agents| + 1)
  {
    var events := Enqueued(r, dir, parent, ts).events;
    EnqueueHistories(r, dir, parent, ts);
    forall a: nat | 1 <= a <= |r.agents| + 1
      ensures Folds(events, a)
    {
      if a <= |r.agents| {
        assert Folds(r.events, a);
      }
    }
  }

  /** The snapshot with one more queued agent, and its task if that is new. */
  function EnqueuedIn(s: Snapshot, task: nat, dir: string, parent: nat, agent: nat, row: nat, ts: int): Snapshot {
    Snapshot(
      if task in s.agentsByTask then s.tasks else s.tasks + [HarnessTask(task, dir, parent)],
      s.agentsByTask[task := (if task in s.agentsByTask then s.agentsByTask[task] else []) + [agent]],
      s.taskByAgent[agent := task],
      s.events[agent := [AgentEvent(row, agent, ts, QUEUED, SUPERVISOR, 0, 0)]],
      s.attempts[agent := Queued])
  }

  lemma EnqueueTaskFields(r: Rows, dir: string, parent: nat, ts: int)
    requires Legal(r)
    ensures
      var s, s' := SnapshotOf(r), SnapshotOf(Enqueued(r, dir, parent, ts));
      var want := EnqueuedIn(s, TaskFor(r, dir), dir, parent, |r.agents| + 1, |r.events| + 1, ts);
      s'.tasks == want.tasks && s'.agentsByTask == want.agentsByTask
  {
    EnqueueAgents(r, dir, parent, ts);
    TaskAtExact(r.tasks, dir);
    var s, s' := SnapshotOf(r), SnapshotOf(Enqueued(r, dir, parent, ts));
    var want := EnqueuedIn(s, TaskFor(r, dir), dir, parent, |r.agents| + 1, |r.events| + 1, ts);
    SameMap(s'.agentsByTask, want.agentsByTask);
  }

  lemma EnqueueEvents(r: Rows, dir: string, parent: nat, ts: int)
    requires EventRows(r)
    ensures SnapshotOf(Enqueued(r, dir, parent, ts)).events ==
            SnapshotOf(r).events[|r.agents| + 1 :=
              [AgentEvent(|r.events| + 1, |r.agents| + 1, ts, QUEUED, SUPERVISOR, 0, 0)]]
    ensures SnapshotOf(Enqueued(r, dir, parent, ts)).attempts == SnapshotOf(r).attempts[|r.agents| + 1 := Queued]
  {
    EnqueueHistories(r, dir, parent, ts);
    OneHistoryChanged(r.events, Enqueued(r, dir, parent, ts).events, |r.agents|, |r.agents| + 1);
    OneStateChanged(r.events, Enqueued(r, dir, parent, ts).events, |r.agents|, |r.agents| + 1);
  }

  lemma EnqueueOwner(r: Rows, dir: string, parent: nat, ts: int)
    ensures SnapshotOf(Enqueued(r, dir, parent, ts)).taskByAgent ==
            SnapshotOf(r).taskByAgent[|r.agents| + 1 := TaskFor(r, dir)]
  {
    SameMap(SnapshotOf(Enqueued(r, dir, parent, ts)).taskByAgent,
            SnapshotOf(r).taskByAgent[|r.agents| + 1 := TaskFor(r, dir)]);
  }

  /** Enqueueing keeps the store legal and adds one queued agent at the end of its task's attempts. */
  lemma EnqueueSnapshot(r: Rows, dir: string, parent: nat, ts: int)
    requires Legal(r)
    ensures Legal(Enqueued(r, dir, parent, ts))
    ensures SnapshotOf(Enqueued(r, dir, parent, ts)) ==
            EnqueuedIn(SnapshotOf(r), TaskFor(r, dir), dir, parent, |r.agents| + 1, |r.events| + 1, ts)
  {
    EnqueueLegal(r, dir, parent, ts);
    EnqueueTaskFields(r, dir, parent, ts);
    EnqueueEvents(r, dir, parent, ts);
    EnqueueOwner(r, dir, parent, ts);
  }

  // ---------------------------------------------------------------------------------------------
  // The claim queue.

  /** The latest-row filter the query runs in SQL selects exactly the agents whose fold is Queued. */
  lemma LatestRowFilterIsExact(events: seq<AgentEvent>, agent: nat)
    requires Folds(events, agent)
    ensures LatestStatus(events, agent) == Some(QUEUED) <==> State(events, agent) == Queued
  {
    FoldIsGrammar(HistoryOf(events, agent));
  }

  lemma {:induction false} QueuedAgentsExact(r: Rows, n: nat)
    requires AllFold(r.events, n)
    ensures forall a :: a in QueuedAgents(r, n) ==> 1 <= a <= n && State(r.events, a) == Queued
    ensures forall a: nat :: 1 <= a <= n && State(r.events, a) == Queued ==> a in QueuedAgents(r, n)
    ensures Ascending(QueuedAgents(r, n))
  {
    if n > 0 {
      QueuedAgentsExact(r, n - 1);
      LatestRowFilterIsExact(r.events, n);
      var before := QueuedAgents(r, n - 1);
      AscendingAppend(before, n);
      assert Folds(r.events, n);
      assert QueuedAgents(r, n) == if State(r.events, n) == Queued then before + [n] else before;
    }
  }

  lemma AscendingAppend(xs: seq<nat>, x: nat)
    requires Ascending(xs) && forall y :: y in xs ==> y < x
    ensures Ascending(xs + [x])
  {
    assert forall i :: 0 <= i < |xs| ==> xs[i] in xs;
  }

  /** The snapshot part of a claim: the listed agents, and only those, have moved to Claimed. */
  ghost predicate ClaimMoves(s: Snapshot, s': Snapshot, agents: seq<nat>) {
    && s'.tasks == s.tasks && s'.agentsByTask == s.agentsByTask && s'.taskByAgent == s.taskByAgent
    && s'.attempts.Keys == s.attempts.Keys && s'.events.Keys == s.events.Keys
    && (forall a :: a in s.attempts ==> s'.attempts[a] == if a in agents then Claimed else s.attempts[a])
    && (forall a :: a in s.events && a !in agents ==> s'.events[a] == s.events[a])
  }

  ghost predicate Claimable(r: Rows, agents: seq<nat>) {
    && Ascending(agents)
    && (forall a :: a in agents ==> 1 <= a <= |r.agents| && State(r.events, a) == Queued)
  }

  /** Claiming a list of distinct queued agents moves each of them, and nothing else, to Claimed. */
  lemma {:induction false} ClaimSnapshot(r: Rows, agents: seq<nat>, ts: int)
    requires Legal(r) && Claimable(r, agents)
    ensures var r' := ClaimedAll(r, agents, ts);
      && Legal(r') && r'.tasks == r.tasks && r'.agents == r.agents
      && |r'.events| == |r.events| + |agents|
      && ClaimMoves(SnapshotOf(r), SnapshotOf(r'), agents)
  {
    if agents != [] {
      var init, last := agents[..|agents| - 1], agents[|agents| - 1];
      InitClaimable(r, agents);
      ClaimSnapshot(r, init, ts);
      var mid := ClaimedAll(r, init, ts);
      assert State(mid.events, last) == SnapshotOf(mid).attempts[last] == SnapshotOf(r).attempts[last] == Queued;
      RecordSnapshot(mid, last, CLAIMED, SUPERVISOR, 0, ts, 0);
      ClaimOneMore(SnapshotOf(r), SnapshotOf(mid), agents, AgentEvent(|mid.events| + 1, last, ts, CLAIMED, SUPERVISOR, 0, 0));
    }
  }

  lemma InitClaimable(r: Rows, agents: seq<nat>)
    requires agents != [] && Claimable(r, agents)
    ensures Claimable(r, agents[..|agents| - 1])
    ensures agents[|agents| - 1] in agents && agents[|agents| - 1] !in agents[..|agents| - 1]
  {
    assert agents == agents[..|agents| - 1] + [agents[|agents| - 1]];
  }

  lemma ClaimOneMore(s: Snapshot, mid: Snapshot, agents: seq<nat>, e: AgentEvent)
    requires agents != [] && ClaimMoves(s, mid, agents[..|agents| - 1])
    requires e.agent == agents[|agents| - 1] && e.agent in mid.events && e.agent in mid.attempts
    ensures ClaimMoves(s, RecordedIn(mid, e, Claimed), agents)
  {
    assert agents == agents[..|agents| - 1] + [e.agent];
    assert forall a :: a in agents <==> a in agents[..|agents| - 1] || a == e.agent;
  }

  // ---------------------------------------------------------------------------------------------
  // The store itself.

  class LifecycleStore {
    var tasks: seq<HarnessTask>
    var agents: seq<AgentRow>
    var events: seq<AgentEvent>

    constructor ()
      ensures Contents() == Rows([], [], []) && Legal(Contents())
    {
      tasks, agents, events := [], [], [];
    }

    ghost function Contents(): Rows
      reads this
    {
      Rows(tasks, agents, events)
    }

    /** Appends one row, or rejects it and leaves the store as it was. */
    method Record(agent: nat, status: AgentStatus, source: EventSource, pid: int, now: int, seenThrough: int)
      returns (ok: bool)
      requires Legal(Contents()) && 1 <= agent <= |agents|
      modifies this`events
      ensures ok <==> NextState(State(old(events), agent), status, source, pid).Some?
      ensures ok ==> Contents() == Appended(old(Contents()), agent, status, source, pid, now, seenThrough)
      ensures !ok ==> Contents() == old(Contents())
      ensures Legal(Contents())
    {
      var current := AttemptOf(HistoryOf(events, agent));
      assert Folds(events, agent);
      ok := current.Some? && NextState(current.value, status, source, pid).Some?;
      if ok {
        RecordLegal(Contents(), agent, status, source, pid, now, seenThrough);
        events := events + [AgentEvent(|events| + 1, agent, now, status, source, pid, seenThrough)];
      }
    }

    method Enqueue(dir: string, parentAgent: nat, now: int) returns (agent: nat)
      requires Legal(Contents())
      modifies this
      ensures Contents() == Enqueued(old(Contents()), dir, parentAgent, now) && Legal(Contents())
      ensures agent == |agents| == |old(agents)| + 1
    {
      EnqueueLegal(Contents(), dir, parentAgent, now);
      var task := TaskAt(tasks, dir);
      if task == 0 {
        task := |tasks| + 1;
        tasks := tasks + [HarnessTask(task, dir, parentAgent)];
      }
      agent := |agents| + 1;
      agents := agents + [AgentRow(agent, task)];
      events := events + [AgentEvent(|events| + 1, agent, now, QUEUED, SUPERVISOR, 0, 0)];
    }

    method WaitingAgents() returns (waiting: seq<nat>)
      ensures waiting == QueuedAgents(Contents(), |agents|)
    {
      waiting := [];
      for n := 0 to |agents|
        invariant waiting == QueuedAgents(Contents(), n)
      {
        if LatestStatus(events, n + 1) == Some(QUEUED) && AttemptOf(HistoryOf(events, n + 1)) == Some(Queued) {
          waiting := waiting + [n + 1];
        }
      }
    }

    /** Takes up to `limit` queued agents, lowest ids first, and marks each of them claimed. */
    method Claim(limit: int, now: int) returns (waiting: seq<nat>)
      requires Legal(Contents())
      modifies this`events
      ensures waiting == Prefix(QueuedAgents(old(Contents()), |agents|), limit)
      ensures Claimable(old(Contents()), waiting)
      ensures Contents() == ClaimedAll(old(Contents()), waiting, now) && Legal(Contents())
    {
      waiting := WaitingAgents();
      QueuedAgentsExact(Contents(), |agents|);
      PrefixMembers(waiting, limit);
      waiting := Prefix(waiting, limit);
      ghost var before := Contents();
      for i := 0 to |waiting|
        invariant Legal(Contents()) && Contents() == ClaimedAll(before, waiting[..i], now)
      {
        NextClaim(before, waiting, i, now);
        var accepted := Record(waiting[i], CLAIMED, SUPERVISOR, 0, now, 0);
        assert accepted;
      }
      assert waiting[..|waiting|] == waiting;
    }

    method QueuedCount() returns (n: nat)
      requires Legal(Contents())
      ensures n == 0 <==> forall a: nat :: 1 <= a <= |agents| ==> State(events, a) != Queued
    {
      var waiting := WaitingAgents();
      QueuedAgentsExact(Contents(), |agents|);
      n := |waiting|;
      assert n > 0 ==> waiting[0] in waiting;
    }
  }

  /** In the middle of a claim the next agent of the list is still queued, so its row is accepted. */
  lemma NextClaim(r: Rows, agents: seq<nat>, i: nat, ts: int)
    requires Legal(r) && Claimable(r, agents) && i < |agents|
    ensures var mid := ClaimedAll(r, agents[..i], ts);
      && 1 <= agents[i] <= |mid.agents| && State(mid.events, agents[i]) == Queued
      && ClaimedAll(r, agents[..i + 1], ts) == Appended(mid, agents[i], CLAIMED, SUPERVISOR, 0, ts, 0)
  {
    assert agents[..i + 1][..i] == agents[..i];
    PrefixClaimable(r, agents, i);
    ClaimSnapshot(r, agents[..i], ts);
    StateInSnapshot(r, agents[i]);
    StateInSnapshot(ClaimedAll(r, agents[..i], ts), agents[i]);
  }

  lemma PrefixClaimable(r: Rows, agents: seq<nat>, i: nat)
    requires Claimable(r, agents) && i < |agents|
    ensures Claimable(r, agents[..i]) && agents[i] !in agents[..i]
    ensures 1 <= agents[i] <= |r.agents| && State(r.events, agents[i]) == Queued
  {
    assert agents[i] in agents;
    assert forall a :: a in agents[..i] ==> a in agents;
  }

  lemma StateInSnapshot(r: Rows, agent: nat)
    requires 1 <= agent <= |r.agents|
    ensures agent in SnapshotOf(r).attempts && SnapshotOf(r).attempts[agent] == State(r.events, agent)
  {
  }
}
