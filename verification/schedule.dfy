/** The scheduling rules (ancalagon/schedule), each a function of one snapshot. Where the source would
    raise KeyError on a snapshot that lacks the asked key the function returns a default; a sound
    snapshot, which is the only kind a store produces, lacks none. */
module Schedule {
  import opened Options
  import opened Attempts
  import opened Bus

  // ---------------------------------------------------------------------------------------------
  // Lookups.

  function Max(xs: seq<nat>): nat {
    if xs == [] then 0
    else
      var before := Max(xs[..|xs| - 1]);
      if xs[|xs| - 1] > before then xs[|xs| - 1] else before
  }

  /** The largest id among some rows, 0 when there are none. */
  function LastId(events: seq<AgentEvent>): nat {
    if events == [] then 0
    else
      var before := LastId(events[..|events| - 1]);
      if events[|events| - 1].id > before then events[|events| - 1].id else before
  }

  function AgentsAt(s: Snapshot, task: nat): seq<nat> {
    if task in s.agentsByTask then s.agentsByTask[task] else []
  }

  function AttemptIn(s: Snapshot, agent: nat): Attempt {
    if agent in s.attempts then s.attempts[agent] else Nascent
  }

  function EventsIn(s: Snapshot, agent: nat): seq<AgentEvent> {
    if agent in s.events then s.events[agent] else []
  }

  function OwnerIn(s: Snapshot, agent: nat): nat {
    if agent in s.taskByAgent then s.taskByAgent[agent] else 0
  }

  function NewestAgent(s: Snapshot, task: nat): nat {
    Max(AgentsAt(s, task))
  }

  /** Who speaks for a task now, found from any of its agents. */
  function Addressed(s: Snapshot, agent: nat): nat {
    NewestAgent(s, OwnerIn(s, agent))
  }

  function FindTask(tasks: seq<HarnessTask>, id: nat): HarnessTask {
    if tasks == [] then HarnessTask(0, "", HUMAN)
    else if tasks[0].id == id then tasks[0]
    else FindTask(tasks[1..], id)
  }

  function TaskOf(s: Snapshot, agent: nat): HarnessTask {
    FindTask(s.tasks, OwnerIn(s, agent))
  }

  // ---------------------------------------------------------------------------------------------
  // Rules.

  /** Whether a task still has work in flight, counting an idled attempt as work in flight. */
  predicate Outstanding(s: Snapshot, task: nat) {
    match AttemptIn(s, NewestAgent(s, task))
    case Closed(verdict) => verdict.IDLING?
    case Collected(ended, _) => ended.IDLING?
    case Lost(_) => false
    case _ => true
  }

  predicate IsNews(s: Snapshot, agent: nat) {
    match AttemptIn(s, agent)
    case Closed(verdict) => !verdict.IDLING?
    case Lost(_) => true
    case _ => false
  }

  function IdlingRows(events: seq<AgentEvent>): seq<AgentEvent> {
    if events == [] then []
    else
      var before := IdlingRows(events[..|events| - 1]);
      if events[|events| - 1].status.IDLING? then before + [events[|events| - 1]] else before
  }

  predicate IsChild(s: Snapshot, task: nat, child: HarnessTask) {
    child.parentAgent in AgentsAt(s, task)
  }

  /** A child whose newest attempt settled with something recorded after the watermark. */
  predicate ChildNews(s: Snapshot, child: HarnessTask, seenThrough: int) {
    var newest := NewestAgent(s, child.id);
    IsNews(s, newest) && LastId(EventsIn(s, newest)) > seenThrough
  }

  predicate HasNews(s: Snapshot, task: nat) {
    var idled := IdlingRows(EventsIn(s, NewestAgent(s, task)));
    && |idled| == 1
    && exists child :: child in s.tasks && IsChild(s, task, child) && ChildNews(s, child, idled[0].seenThrough)
  }

  /** A comprehension over the tasks that keeps their order. */
  function TasksWhere(tasks: seq<HarnessTask>, keep: HarnessTask -> bool): (kept: seq<HarnessTask>)
    ensures forall t :: t in kept <==> t in tasks && keep(t)
  {
    if tasks == [] then []
    else (if keep(tasks[0]) then [tasks[0]] else []) + TasksWhere(tasks[1..], keep)
  }

  function Wakeable(s: Snapshot): seq<HarnessTask> {
    TasksWhere(s.tasks, (t: HarnessTask) => HasNews(s, t.id))
  }

  function NewestOfEach(s: Snapshot, tasks: seq<HarnessTask>): (agents: seq<nat>)
    ensures |agents| == |tasks|
    ensures forall i :: 0 <= i < |tasks| ==> agents[i] == NewestAgent(s, tasks[i].id)
  {
    seq(|tasks|, i requires 0 <= i < |tasks| => NewestAgent(s, tasks[i].id))
  }

  /** The newest agents of an agent's children whose work is still outstanding. */
  function LiveChildren(s: Snapshot, agent: nat): seq<nat> {
    NewestOfEach(s, LiveTasks(s, TaskOf(s, agent).id))
  }

  function LiveTasks(s: Snapshot, task: nat): (tasks: seq<HarnessTask>)
    ensures forall t :: t in tasks <==> t in s.tasks && IsChild(s, task, t) && Outstanding(s, t.id)
  {
    TasksWhere(s.tasks, (t: HarnessTask) => IsChild(s, task, t) && Outstanding(s, t.id))
  }

  /** A task's children whose newest attempt has closed or been lost, but not yet been collected. */
  function Uncollected(s: Snapshot, task: nat): seq<nat> {
    NewestOfEach(s, UnreadTasks(s, task))
  }

  function UnreadTasks(s: Snapshot, task: nat): (tasks: seq<HarnessTask>)
    ensures forall t :: t in tasks <==> t in s.tasks && IsChild(s, task, t) && Unread(AttemptIn(s, NewestAgent(s, t.id)))
  {
    TasksWhere(s.tasks, (t: HarnessTask) => IsChild(s, task, t) && Unread(AttemptIn(s, NewestAgent(s, t.id))))
  }

  predicate Unread(a: Attempt) {
    a.Closed? || a.Lost?
  }

  /** Some agent at `dir` is still queued, claimed or running: the guard of every re-enqueue. */
  predicate ActiveFor(s: Snapshot, dir: string) {
    exists a :: a in s.attempts && TaskOf(s, a).dir == dir && Active(s.attempts[a])
  }

  /** Agents still claimed or running, over all tasks. */
  function Unreaped(s: Snapshot): set<nat> {
    set a | a in s.attempts && (s.attempts[a].Claimed? || s.attempts[a].Running?)
  }

  // ---------------------------------------------------------------------------------------------
  // Depth.

  const MAX_HOPS: nat := 64

  /** None where the source raises because the chain is longer than the cap. */
  function DepthFrom(s: Snapshot, current: nat, depth: nat): Option<nat>
    requires depth <= MAX_HOPS
    decreases MAX_HOPS - depth
  {
    if current == HUMAN then Some(depth)
    else if depth >= MAX_HOPS then None
    else DepthFrom(s, TaskOf(s, current).parentAgent, depth + 1)
  }

  function DepthOf(s: Snapshot, agent: nat): Option<nat> {
    DepthFrom(s, TaskOf(s, agent).parentAgent, 0)
  }

  // ---------------------------------------------------------------------------------------------
  // What every snapshot of a legal store satisfies.

  ghost predicate Sound(s: Snapshot, rows: nat) {
    && (forall i :: 0 <= i < |s.tasks| ==> s.tasks[i].id == i + 1)
    && s.taskByAgent.Keys == s.attempts.Keys && s.events.Keys == s.attempts.Keys
    && (forall t :: t in s.agentsByTask <==> 1 <= t <= |s.tasks|)
    && (forall t {:trigger Roster(s, t)} :: t in s.agentsByTask ==> Roster(s, t))
    && (forall a {:trigger Sited(s, a)} :: a in s.attempts ==> Sited(s, a))
    && (forall a {:trigger Recorded(s, a, rows)} :: a in s.attempts ==> Recorded(s, a, rows))
  }

  ghost predicate Roster(s: Snapshot, task: nat)
    requires task in s.agentsByTask
  {
    && s.agentsByTask[task] != [] && Ascending(s.agentsByTask[task])
    && forall a :: a in s.agentsByTask[task] ==> a in s.taskByAgent && s.taskByAgent[a] == task
  }

  ghost predicate Sited(s: Snapshot, agent: nat) {
    && 1 <= agent && agent in s.taskByAgent && s.taskByAgent[agent] in s.agentsByTask
    && agent in s.agentsByTask[s.taskByAgent[agent]]
  }

  ghost predicate Recorded(s: Snapshot, agent: nat, rows: nat) {
    && agent in s.attempts && agent in s.events && s.events[agent] != []
    && AttemptOf(s.events[agent]) == Some(s.attempts[agent]) && !s.attempts[agent].Nascent?
    && InOrder(s.events[agent], rows)
  }

  ghost predicate InOrder(events: seq<AgentEvent>, rows: nat) {
    && (forall i :: 0 <= i < |events| ==> 1 <= events[i].id <= rows)
    && (forall i, j :: 0 <= i < j < |events| ==> events[i].id < events[j].id)
  }

  lemma RosterOf(r: Rows, t: nat)
    requires Legal(r) && t in SnapshotOf(r).agentsByTask
    ensures Roster(SnapshotOf(r), t)
  {
    AgentsAreOrdered(r.agents, t);
  }

  lemma SiteOf(r: Rows, a: nat)
    requires Legal(r) && a in SnapshotOf(r).attempts
    ensures Sited(SnapshotOf(r), a)
  {
    AgentsAreOrdered(r.agents, SnapshotOf(r).taskByAgent[a]);
    assert r.agents[a - 1].task == SnapshotOf(r).taskByAgent[a];
  }

  lemma RecordOf(r: Rows, a: nat)
    requires Legal(r) && a in SnapshotOf(r).attempts
    ensures Recorded(SnapshotOf(r), a, |r.events|)
  {
    HistoryIsOrdered(r.events, a);
    assert Folds(r.events, a);
    FoldIsGrammar(HistoryOf(r.events, a));
  }

  lemma SnapshotsAreSound(r: Rows)
    requires Legal(r)
    ensures Sound(SnapshotOf(r), |r.events|)
  {
    var s := SnapshotOf(r);
    forall t | t in s.agentsByTask
      ensures Roster(s, t)
    {
      RosterOf(r, t);
    }
    forall a | a in s.attempts
      ensures Sited(s, a) && Recorded(s, a, |r.events|)
    {
      SiteOf(r, a);
      RecordOf(r, a);
    }
  }

  /** The log's last row carries the largest id any snapshot of it shows. */
  lemma WatermarkIsLargestId(r: Rows, a: nat, i: nat)
    requires Legal(r) && a in SnapshotOf(r).events && i < |SnapshotOf(r).events[a]|
    ensures SnapshotOf(r).events[a][i].id <= |r.events|
    ensures |r.events| > 0 ==>
              var last := r.events[|r.events| - 1];
              last.agent in SnapshotOf(r).events && last in SnapshotOf(r).events[last.agent] && last.id == |r.events|
  {
    HistoryIsOrdered(r.events, a);
    if |r.events| > 0 {
      HistoryIsOrdered(r.events, r.events[|r.events| - 1].agent);
    }
  }

  lemma {:induction false} MaxOfAscending(xs: seq<nat>)
    requires xs != [] && Ascending(xs)
    ensures Max(xs) == xs[|xs| - 1]
  {
    if |xs| > 1 {
      MaxOfAscending(xs[..|xs| - 1]);
    }
  }

  lemma {:induction false} LastIdInOrder(events: seq<AgentEvent>, rows: nat)
    requires InOrder(events, rows)
    ensures LastId(events) == if events == [] then 0 else events[|events| - 1].id
  {
    if |events| > 0 {
      LastIdInOrder(events[..|events| - 1], rows);
    }
  }

  lemma {:induction false} FindTaskById(tasks: seq<HarnessTask>, id: nat, first: nat)
    requires forall i :: 0 <= i < |tasks| ==> tasks[i].id == first + i
    requires first <= id < first + |tasks|
    ensures FindTask(tasks, id) == tasks[id - first]
  {
    if tasks[0].id != id {
      FindTaskById(tasks[1..], id, first + 1);
    }
  }

  lemma TaskOfIsOwner(s: Snapshot, rows: nat, agent: nat)
    requires Sound(s, rows) && agent in s.attempts
    ensures 1 <= s.taskByAgent[agent] <= |s.tasks|
    ensures TaskOf(s, agent) == s.tasks[s.taskByAgent[agent] - 1] && TaskOf(s, agent).id == s.taskByAgent[agent]
  {
    assert Sited(s, agent);
    FindTaskById(s.tasks, s.taskByAgent[agent], 1);
  }

  /** A task's newest agent is one of its agents, and none of them has a larger id. */
  lemma NewestIsLargest(s: Snapshot, rows: nat, task: nat)
    requires Sound(s, rows) && task in s.agentsByTask
    ensures NewestAgent(s, task) in s.attempts && s.taskByAgent[NewestAgent(s, task)] == task
    ensures NewestAgent(s, task) in s.agentsByTask[task]
    ensures forall a :: a in s.agentsByTask[task] ==> a <= NewestAgent(s, task)
  {
    assert Roster(s, task);
    var xs := s.agentsByTask[task];
    MaxOfAscending(xs);
    assert xs[|xs| - 1] in xs;
    assert forall a :: a in xs ==> exists i :: 0 <= i < |xs| && xs[i] == a;
  }

  // ---------------------------------------------------------------------------------------------
  // Depth equals the number of ancestors.

  /** Every task's parent is the person or an agent of an earlier task. */
  ghost predicate Rooted(s: Snapshot) {
    forall i :: 0 <= i < |s.tasks| ==> ParentBefore(s, s.tasks[i])
  }

  ghost predicate ParentBefore(s: Snapshot, t: HarnessTask) {
    t.parentAgent == HUMAN || (t.parentAgent in s.taskByAgent && s.taskByAgent[t.parentAgent] < t.id)
  }

  /** Tasks are numbered in order and every parent belongs to an earlier one. */
  ghost predicate Tree(s: Snapshot) {
    && (forall i :: 0 <= i < |s.tasks| ==> s.tasks[i].id == i + 1)
    && (forall a :: a in s.taskByAgent ==> 1 <= s.taskByAgent[a] <= |s.tasks|)
    && Rooted(s)
  }

  lemma SoundRootedIsTree(s: Snapshot, rows: nat)
    requires Sound(s, rows) && Rooted(s)
    ensures Tree(s)
  {
    forall a | a in s.taskByAgent
      ensures 1 <= s.taskByAgent[a] <= |s.tasks|
    {
      assert Sited(s, a);
    }
  }

  /** The number of ancestors of a task. Each hop goes to an earlier task, so the chain is finite. */
  ghost function Ancestors(s: Snapshot, task: nat): nat
    requires Tree(s) && 1 <= task <= |s.tasks|
    decreases task
  {
    var t := s.tasks[task - 1];
    assert ParentBefore(s, t);
    if t.parentAgent == HUMAN then 0 else 1 + Ancestors(s, s.taskByAgent[t.parentAgent])
  }

  lemma OneHop(s: Snapshot, task: nat)
    requires Tree(s) && 1 <= task <= |s.tasks| && s.tasks[task - 1].parentAgent != HUMAN
    ensures var parent := s.tasks[task - 1].parentAgent;
      && parent in s.taskByAgent && 1 <= s.taskByAgent[parent] < task
      && TaskOf(s, parent) == s.tasks[s.taskByAgent[parent] - 1]
      && Ancestors(s, task) == 1 + Ancestors(s, s.taskByAgent[parent])
  {
    assert ParentBefore(s, s.tasks[task - 1]);
    FindTaskById(s.tasks, s.taskByAgent[s.tasks[task - 1].parentAgent], 1);
  }

  lemma {:induction false} DepthFromCounts(s: Snapshot, task: nat, depth: nat)
    requires Tree(s) && 1 <= task <= |s.tasks| && depth <= MAX_HOPS
    ensures DepthFrom(s, s.tasks[task - 1].parentAgent, depth) ==
            if depth + Ancestors(s, task) <= MAX_HOPS then Some(depth + Ancestors(s, task)) else None
    decreases task
  {
    if s.tasks[task - 1].parentAgent != HUMAN {
      OneHop(s, task);
      if depth < MAX_HOPS {
        DepthFromCounts(s, s.taskByAgent[s.tasks[task - 1].parentAgent], depth + 1);
      }
    }
  }

  /** The depth of an agent is its task's ancestor count, and the lookup fails exactly past the cap. */
  lemma DepthCountsAncestors(s: Snapshot, agent: nat)
    requires Tree(s) && agent in s.taskByAgent
    ensures DepthOf(s, agent) ==
            var ancestors := Ancestors(s, s.taskByAgent[agent]);
            if ancestors <= 64 then Some(ancestors) else None
  {
    FindTaskById(s.tasks, s.taskByAgent[agent], 1);
    DepthFromCounts(s, s.taskByAgent[agent], 0);
  }
}
