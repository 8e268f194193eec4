/** What the supervisor tracks of the run, and how each of its steps keeps it: exactly the running
    attempts are live, and exactly the attempts it has just claimed are waiting to be spawned. */
module Oversight {
  import opened Options
  import opened Attempts
  import opened Bus
  import opened Schedule
  import opened Protocol
  import opened Keeps
  import opened Runs
  import opened Wakes
  import opened Effects

  datatype Process = Spawned(pid: int) | Adopted(pid: int)

  /** The run together with the supervisor's two maps. */
  datatype View = View(world: World, live: map<nat, Process>, started: map<nat, int>)

  ghost predicate Tracked(s: Snapshot, live: map<nat, Process>, started: map<nat, int>) {
    && live.Keys == started.Keys
    && (forall a :: a in live ==> AttemptIn(s, a).Running?)
    && (forall a :: a in s.attempts && s.attempts[a].Running? ==> a in live)
  }

  ghost predicate Holding(s: Snapshot, claimed: set<nat>) {
    && (forall a :: a in claimed ==> AttemptIn(s, a).Claimed?)
    && (forall a :: a in s.attempts && s.attempts[a].Claimed? ==> a in claimed)
  }

  ghost predicate Overseen(v: View, claimed: set<nat>) {
    Inv(v.world) && Tracked(Snap(v.world), v.live, v.started) && Holding(Snap(v.world), claimed)
  }

  function SpawnedIn(live: map<nat, Process>): set<nat> {
    set a | a in live && live[a].Spawned?
  }

  ghost predicate Young(started: map<nat, int>, clock: int, timeoutS: int) {
    forall a :: a in started ==> clock - started[a] < timeoutS
  }

  /** Either less is left to do or nothing happened at all. */
  ghost predicate Progress(v: View, v': View) {
    Work(v'.world) < Work(v.world) || v' == v
  }

  // ---------------------------------------------------------------------------------------------
  // Steps on values.

  /** The row `_close` records: the verdict of the outcome file when there is one, else the close. */
  function ClosedBy(w: World, agent: nat, close: AgentStatus, ts: int): World {
    if agent in w.outcomes then Reap(w, agent, ts) else Log(w, agent, close, SUPERVISOR, 0, ts, 0)
  }

  ghost predicate Closable(w: World, agent: nat) {
    && agent in Snap(w).attempts && agent !in w.alive
    && (Snap(w).attempts[agent].Claimed? || Snap(w).attempts[agent].Running?)
  }

  lemma NotACollection(s: Snapshot, agent: nat, status: AgentStatus, pid: int, idled: map<nat, Measure>,
                       stray: set<nat>)
    requires agent in s.attempts && NextState(s.attempts[agent], status, SUPERVISOR, pid).Some?
    ensures CollectionNoted(s, agent, NextState(s.attempts[agent], status, SUPERVISOR, pid).value, idled, stray)
  {
  }

  lemma SupervisorRowKeeps(w: World, agent: nat, status: AgentStatus, pid: int, ts: int, seen: int)
    requires Inv(w) && Recordable(w, agent, status, SUPERVISOR, pid, seen)
    ensures Inv(Log(w, agent, status, SUPERVISOR, pid, ts, seen))
  {
    NotACollection(Snap(w), agent, status, pid, w.idled, w.stray);
    LogKeeps(w, agent, status, SUPERVISOR, pid, ts, seen, w.stray);
  }

  /** The supervisor's row about an active attempt keeps the invariant and leaves it less to do. */
  lemma SupervisorRecords(w: World, agent: nat, status: AgentStatus, pid: int, ts: int, seen: int)
    requires Inv(w) && Recordable(w, agent, status, SUPERVISOR, pid, seen) && Active(Snap(w).attempts[agent])
    ensures var w' := Log(w, agent, status, SUPERVISOR, pid, ts, seen);
      && Inv(w') && Work(w') < Work(w)
      && Moves(Snap(w), Snap(w'), agent, NextState(Snap(w).attempts[agent], status, SUPERVISOR, pid).value, |w.rows.events| + 1)
  {
    RecordingDropsWork(w, agent, status, pid, ts, seen);
    LogMoves(w, agent, status, SUPERVISOR, pid, ts, seen);
    SupervisorRowKeeps(w, agent, status, pid, ts, seen);
  }

  /** The row a close records, whichever it is. */
  function CloseStatus(w: World, agent: nat, close: AgentStatus): AgentStatus {
    if agent in w.outcomes then w.outcomes[agent].kind else close
  }

  function CloseSeen(w: World, agent: nat): int {
    if agent in w.outcomes then w.outcomes[agent].seenThrough else 0
  }

  /** The table accepts every close: a claimed attempt never has an outcome, a running one may. */
  lemma CloseIsRecordable(w: World, agent: nat, close: AgentStatus)
    requires OutcomesFit(Snap(w), w.outcomes) && Closable(w, agent) && IsClose(close)
    ensures Recordable(w, agent, CloseStatus(w, agent, close), SUPERVISOR, 0, CloseSeen(w, agent))
    ensures NextState(Snap(w).attempts[agent], CloseStatus(w, agent, close), SUPERVISOR, 0) ==
            Some(if agent in w.outcomes then Closed(w.outcomes[agent].kind) else Lost(close))
  {
    assert agent in w.outcomes ==> Spoken(Snap(w).attempts[agent], w.outcomes[agent].kind);
  }

  /** In any legal store the table rejects exactly one kind of close: the verdict of an attempt that was
      claimed and never recorded as running. */
  lemma CloseIsRejectedExactly(w: World, agent: nat, close: AgentStatus)
    requires Legal(w.rows) && agent in Snap(w).attempts && IsClose(close)
    requires Snap(w).attempts[agent].Claimed? || Snap(w).attempts[agent].Running?
    requires agent in w.outcomes ==> IsVerdict(w.outcomes[agent].kind)
    ensures NextState(State(w.rows.events, agent), CloseStatus(w, agent, close), SUPERVISOR, 0).None? <==>
            Snap(w).attempts[agent].Claimed? && agent in w.outcomes
  {
    StateInSnapshot(w.rows, agent);
  }

  /** A worker started before its running row was recorded can leave such an outcome: from any state of
      the invariant, writing one for a claimed attempt makes its close rejected. */
  lemma EarlyOutcomeIsRejected(w: World, agent: nat, h: Header, close: AgentStatus)
    requires Inv(w) && AttemptIn(Snap(w), agent).Claimed? && IsVerdict(h.kind) && IsClose(close)
    ensures var early := w.(outcomes := w.outcomes[agent := h]);
      && !Inv(early)
      && NextState(State(early.rows.events, agent), CloseStatus(early, agent, close), SUPERVISOR, 0).None?
  {
    var early := w.(outcomes := w.outcomes[agent := h]);
    CloseIsRejectedExactly(early, agent, close);
    assert !Spoken(Snap(early).attempts[agent], h.kind);
  }

  lemma CloseKeeps(w: World, agent: nat, close: AgentStatus, ts: int)
    requires Inv(w) && Closable(w, agent) && IsClose(close)
    ensures var w' := ClosedBy(w, agent, close, ts);
      && Inv(w') && Work(w') < Work(w)
      && Moves(Snap(w), Snap(w'), agent, if agent in w.outcomes then Closed(w.outcomes[agent].kind) else Lost(close),
               |w.rows.events| + 1)
  {
    CloseIsRecordable(w, agent, close);
    SupervisorRecords(w, agent, CloseStatus(w, agent, close), 0, ts, CloseSeen(w, agent));
  }

  lemma MoveEndsTracking(s: Snapshot, s': Snapshot, live: map<nat, Process>, started: map<nat, int>, claimed: set<nat>,
                         agent: nat, state: Attempt, row: nat)
    requires Moves(s, s', agent, state, row) && Settled(state)
    ensures Tracked(s, live, started) ==> Tracked(s', live - {agent}, started - {agent})
    ensures Holding(s, claimed) ==> Holding(s', claimed - {agent})
  {
  }

  lemma MoveStartsTracking(s: Snapshot, s': Snapshot, live: map<nat, Process>, started: map<nat, int>,
                           claimed: set<nat>,
                           agent: nat, state: Attempt, row: nat, process: Process, now: int)
    requires Moves(s, s', agent, state, row) && state.Running?
    ensures Tracked(s, live, started) ==> Tracked(s', live[agent := process], started[agent := now])
    ensures Holding(s, claimed) ==> Holding(s', claimed - {agent})
  {
  }

  lemma WorkersKeepTracking(w: World, w': World, live: map<nat, Process>, started: map<nat, int>, claimed: set<nat>)
    requires WorkersOnly(w, w')
    ensures Tracked(Snap(w), live, started) ==> Tracked(Snap(w'), live, started)
    ensures Holding(Snap(w), claimed) ==> Holding(Snap(w'), claimed)
  {
    hide Snap;
  }

  lemma AddsKeepsTracking(s: Snapshot, s': Snapshot, live: map<nat, Process>, started: map<nat, int>, claimed: set<nat>,
                          task: nat, agent: nat, row: nat)
    requires Adds(s, s', task, agent, row)
    ensures Tracked(s, live, started) ==> Tracked(s', live, started)
    ensures Holding(s, claimed) ==> Holding(s', claimed)
  {
  }

  lemma ClaimKeepsTracking(s: Snapshot, s': Snapshot, live: map<nat, Process>, started: map<nat, int>, agents: seq<nat>)
    requires ClaimMoves(s, s', agents)
    requires forall a :: a in agents ==> AttemptIn(s, a).Queued?
    ensures Tracked(s, live, started) ==> Tracked(s', live, started)
    ensures Holding(s, {}) ==> Holding(s', set a | a in agents)
  {
    assert forall a :: a in agents ==> a in s.attempts;
  }

  /** After a kill the process is gone and its attempt can be closed. */
  function Killed(w: World, agent: nat): World {
    w.(alive := w.alive - {agent})
  }

  lemma KillKeeps(w: World, agent: nat)
    requires Inv(w)
    ensures Inv(Killed(w, agent)) && Work(Killed(w, agent)) == Work(w)
  {
    assert AliveRuns(Snap(w), w.alive - {agent});
  }

  /** The store after claiming, seen as a step of the run. */
  function Claiming(w: World, agents: seq<nat>, ts: int): World {
    w.(rows := ClaimedAll(w.rows, agents, ts))
  }

  lemma ClaimIsRecordable(w: World, agent: nat)
    requires Legal(w.rows) && 1 <= agent <= |w.rows.agents| && State(w.rows.events, agent) == Queued
    ensures Recordable(w, agent, CLAIMED, SUPERVISOR, 0, 0) && Active(Snap(w).attempts[agent])
  {
    StateInSnapshot(w.rows, agent);
  }

  lemma {:induction false} ClaimKeeps(w: World, agents: seq<nat>, ts: int)
    requires Inv(w) && Claimable(w.rows, agents)
    ensures Inv(Claiming(w, agents, ts))
    ensures if agents == [] then Claiming(w, agents, ts) == w else Work(Claiming(w, agents, ts)) < Work(w)
  {
    if agents != [] {
      var n := |agents| - 1;
      InitClaimable(w.rows, agents);
      ClaimKeeps(w, agents[..n], ts);
      var mid := Claiming(w, agents[..n], ts);
      NextClaim(w.rows, agents, n, ts);
      assert agents[..n + 1] == agents;
      ClaimIsRecordable(mid, agents[n]);
      SupervisorRecords(mid, agents[n], CLAIMED, 0, ts, 0);
    }
  }

  // ---------------------------------------------------------------------------------------------
  // Waking.

  lemma IdlingRowMeansIdled(events: seq<AgentEvent>)
    requires AttemptOf(events).Some? && IdlingRows(events) != []
    ensures AttemptOf(events).value == Closed(IDLING) || AttemptOf(events).value == Collected(IDLING, true)
  {
    IdlingRowsExactly(events);
    assert IdlingRows(events)[0] in events && IdlingRows(events)[0].status.IDLING?;
    FoldIsGrammar(events);
  }

  /** Only a task whose newest attempt closed as idling can have news. */
  lemma NewsMeansIdling(w: World, task: nat)
    requires Inv(w) && HasNews(Snap(w), task)
    ensures IsIdling(Snap(w), task)
  {
    var p := NewestAgent(Snap(w), task);
    assert p in Snap(w).events;
    assert Recorded(Snap(w), p, |w.rows.events|);
    IdlingRowMeansIdled(EventsIn(Snap(w), p));
  }

  /** An idling task has nothing queued, claimed or running. */
  lemma IdlingIsQuiet(w: World, task: HarnessTask)
    requires Inv(w) && task in Snap(w).tasks && IsIdling(Snap(w), task.id)
    ensures !ActiveFor(Snap(w), task.dir)
  {
    var s := Snap(w);
    forall a | a in s.attempts && TaskOf(s, a).dir == task.dir
      ensures !Active(s.attempts[a])
    {
      TaskOfIsOwner(s, |w.rows.events|, a);
      SameDirSameTask(w, TaskOf(s, a), task);
    }
  }

  lemma SameDirSameTask(w: World, t: HarnessTask, u: HarnessTask)
    requires TaskRows(w.rows.tasks) && t in Snap(w).tasks && u in Snap(w).tasks && t.dir == u.dir
    ensures t == u
  {
  }

  lemma TaskParent(w: World, task: HarnessTask)
    requires Inv(w) && task in Snap(w).tasks
    ensures task.parentAgent == HUMAN || task.parentAgent in Snap(w).attempts
  {
    assert ParentBefore(Snap(w), task);
  }

  lemma WakeKeeps(w: World, woken: HarnessTask, ts: int)
    requires Inv(w) && woken in Snap(w).tasks && HasNews(Snap(w), woken.id)
    ensures Inv(Queue(w, woken.dir, woken.parentAgent, ts)) && IsIdling(Snap(w), woken.id)
  {
    NewsMeansIdling(w, woken.id);
    IdlingIsQuiet(w, woken);
    TaskParent(w, woken);
    QueueKeeps(w, woken.dir, woken.parentAgent, ts);
  }

  /** The news that is left once a task has been woken: everyone else's. */
  ghost predicate NewsLess(s: Snapshot, s': Snapshot, woken: nat) {
    && s'.tasks == s.tasks
    && forall t :: t in s.tasks ==> HasNews(s', t.id) == (HasNews(s, t.id) && t.id != woken)
  }

  lemma OneWakeLess(s: Snapshot, s': Snapshot, woken: nat, agent: nat, row: nat)
    ensures OnlyWoke(s, s', woken, agent, row) ==> NewsLess(s, s', woken)
  {
    if OnlyWoke(s, s', woken, agent, row) {
      forall t | t in s.tasks
        ensures HasNews(s', t.id) == (HasNews(s, t.id) && t.id != woken)
      {
        WakesAreIndependent(s, s', woken, agent, row, t);
      }
    }
  }

  lemma WakeLeaves(w: World, woken: HarnessTask, ts: int)
    requires Legal(w.rows) && woken in Snap(w).tasks && IsIdling(Snap(w), woken.id)
    ensures NewsLess(Snap(w), Snap(Queue(w, woken.dir, woken.parentAgent, ts)), woken.id)
    ensures Adds(Snap(w), Snap(Queue(w, woken.dir, woken.parentAgent, ts)), woken.id, |w.rows.agents| + 1, |w.rows.events| + 1)
  {
    WakeOnlyWakes(w, woken, ts);
    OneWakeLess(Snap(w), Snap(Queue(w, woken.dir, woken.parentAgent, ts)), woken.id, |w.rows.agents| + 1, |w.rows.events| + 1);
  }

  /** What one wake does: it is legal, it ends that task's news and no other's, and it is progress. */
  lemma WakeStep(w: World, woken: HarnessTask, ts: int)
    requires Inv(w) && woken in Snap(w).tasks && HasNews(Snap(w), woken.id)
    ensures var w' := Queue(w, woken.dir, woken.parentAgent, ts);
      && Inv(w') && Work(w') < Work(w) && NewsLess(Snap(w), Snap(w'), woken.id)
      && Adds(Snap(w), Snap(w'), woken.id, |w.rows.agents| + 1, |w.rows.events| + 1)
  {
    WakeKeeps(w, woken, ts);
    WakeLeaves(w, woken, ts);
    WakingDropsWork(w, woken, ts);
  }

  /** The tasks woken one after the other. */
  function WokenAll(w: World, asleep: seq<HarnessTask>, ts: int): World {
    if asleep == [] then w
    else
      var last := asleep[|asleep| - 1];
      Queue(WokenAll(w, asleep[..|asleep| - 1], ts), last.dir, last.parentAgent, ts)
  }

  ghost predicate DistinctTasks(tasks: seq<HarnessTask>) {
    forall i, j :: 0 <= i < j < |tasks| ==> tasks[i].id != tasks[j].id
  }

  lemma {:induction false} FilterKeepsDistinct(tasks: seq<HarnessTask>, keep: HarnessTask -> bool)
    requires DistinctTasks(tasks)
    ensures DistinctTasks(TasksWhere(tasks, keep))
  {
    if tasks != [] {
      FilterKeepsDistinct(tasks[1..], keep);
      var kept := TasksWhere(tasks[1..], keep);
      forall i | 0 <= i < |kept|
        ensures kept[i].id != tasks[0].id
      {
        assert kept[i] in kept;
      }
    }
  }

  /** Exactly the tasks of `asleep` have news. */
  ghost predicate NewsIs(s: Snapshot, asleep: seq<HarnessTask>) {
    && DistinctTasks(asleep) && DistinctTasks(s.tasks)
    && (forall t :: t in asleep ==> t in s.tasks)
    && (forall t :: t in s.tasks ==> (HasNews(s, t.id) <==> t in asleep))
  }

  lemma WakeableIsTheNews(w: World)
    requires Inv(w)
    ensures NewsIs(Snap(w), Wakeable(Snap(w)))
  {
    var s := Snap(w);
    WakeableExact(s);
    FilterKeepsDistinct(s.tasks, (t: HarnessTask) => HasNews(s, t.id));
  }

  lemma TailOfDistinct(xs: seq<HarnessTask>)
    requires DistinctTasks(xs) && xs != []
    ensures DistinctTasks(xs[1..])
    ensures forall t :: t in xs[1..] <==> t in xs && t.id != xs[0].id
  {
    assert xs == [xs[0]] + xs[1..];
    forall t | t in xs[1..]
      ensures t.id != xs[0].id
    {
      var i :| 0 <= i < |xs[1..]| && xs[1..][i] == t;
      assert xs[i + 1] == t;
    }
  }

  lemma NewsAfterOne(s: Snapshot, s': Snapshot, asleep: seq<HarnessTask>)
    requires asleep != [] && NewsIs(s, asleep) && NewsLess(s, s', asleep[0].id)
    ensures NewsIs(s', asleep[1..])
  {
    TailOfDistinct(asleep);
  }

  lemma FirstHasNews(s: Snapshot, asleep: seq<HarnessTask>)
    requires NewsIs(s, asleep) && asleep != []
    ensures asleep[0] in s.tasks && HasNews(s, asleep[0].id)
  {
    assert asleep[0] in asleep;
  }

  /** The supervisor's filter on live attempts never drops a wakeable task. */
  lemma WakeableAreNotLive(v: View, claimed: set<nat>)
    requires Overseen(v, claimed)
    ensures forall t :: t in Wakeable(Snap(v.world)) ==> NewestAgent(Snap(v.world), t.id) !in v.live
  {
    hide Inv, SnapshotOf, HasNews, Wakeable, NewestAgent, Holding;
    var s := Snap(v.world);
    WakeableExact(s);
    forall t | t in Wakeable(s)
      ensures NewestAgent(s, t.id) !in v.live
    {
      NewsMeansIdling(v.world, t.id);
    }
  }

  // ---------------------------------------------------------------------------------------------
  // The supervisor's own steps, as functions of what it sees.

  function AfterFinish(v: View, agent: nat, status: AgentStatus, ts: int, seen: int): View {
    View(Log(v.world, agent, status, SUPERVISOR, 0, ts, seen), v.live - {agent}, v.started - {agent})
  }

  function AfterClose(v: View, agent: nat, close: AgentStatus, ts: int): View {
    AfterFinish(v, agent, CloseStatus(v.world, agent, close), ts, CloseSeen(v.world, agent))
  }

  function AfterSpawn(v: View, agent: nat, pid: Option<int>, ts: int): View {
    match pid
    case Some(p) =>
      var w := Log(v.world, agent, RUNNING, SUPERVISOR, p, ts, 0);
      View(w.(alive := w.alive + {agent}), v.live[agent := Spawned(p)], v.started[agent := ts])
    case None => AfterFinish(v, agent, CRASHED, ts, 0)
  }

  function AfterTimeout(v: View, agent: nat, timeoutS: int, ts: int): View
    requires agent in v.started
  {
    if ts - v.started[agent] < timeoutS then v
    else AfterClose(v.(world := Killed(v.world, agent)), agent, TIMED_OUT, ts)
  }

  /** Workers may act before the process is polled and again before it is killed. */
  function AfterReap(v: View, agent: nat, first: seq<Action>, second: seq<Action>, maxDepth: int,
                     timeoutS: int, ts: int): View
    requires agent in v.started
  {
    var polled := ActAll(v.world, first, maxDepth, ts);
    if agent in polled.alive
    then AfterTimeout(v.(world := ActAll(polled, second, maxDepth, ts)), agent, timeoutS, ts)
    else AfterClose(v.(world := polled), agent, CRASHED, ts)
  }

  lemma CloseIsClosedBy(v: View, agent: nat, close: AgentStatus, ts: int)
    ensures AfterClose(v, agent, close, ts).world == ClosedBy(v.world, agent, close, ts)
  {
  }

  lemma CloseIsOverseen(v: View, claimed: set<nat>, agent: nat, close: AgentStatus, ts: int)
    requires Overseen(v, claimed) && Closable(v.world, agent) && IsClose(close)
    ensures Overseen(AfterClose(v, agent, close, ts), claimed - {agent})
    ensures Work(AfterClose(v, agent, close, ts).world) < Work(v.world)
  {
    CloseKeeps(v.world, agent, close, ts);
    CloseIsClosedBy(v, agent, close, ts);
    MoveEndsTracking(Snap(v.world), Snap(ClosedBy(v.world, agent, close, ts)), v.live, v.started, claimed, agent,
                     if agent in v.world.outcomes then Closed(v.world.outcomes[agent].kind) else Lost(close),
                     |v.world.rows.events| + 1);
  }

  lemma RunningIsRecordable(w: World, agent: nat, pid: int)
    requires agent in Snap(w).attempts && Snap(w).attempts[agent].Claimed?
    ensures Recordable(w, agent, RUNNING, SUPERVISOR, pid, 0)
    ensures NextState(Snap(w).attempts[agent], RUNNING, SUPERVISOR, pid) == Some(Running(pid))
  {
  }

  lemma StartingKeeps(w: World, agent: nat)
    requires Inv(w) && AttemptIn(Snap(w), agent).Running?
    ensures Inv(w.(alive := w.alive + {agent})) && Work(w.(alive := w.alive + {agent})) == Work(w)
  {
    assert AliveRuns(Snap(w), w.alive + {agent});
  }

  lemma RunningRowKeeps(w: World, agent: nat, pid: int, ts: int)
    requires Inv(w) && AttemptIn(Snap(w), agent).Claimed?
    ensures var w' := Log(w, agent, RUNNING, SUPERVISOR, pid, ts, 0);
      && Inv(w') && Work(w') < Work(w) && Moves(Snap(w), Snap(w'), agent, Running(pid), |w.rows.events| + 1)
  {
    RunningIsRecordable(w, agent, pid);
    SupervisorRecords(w, agent, RUNNING, pid, ts, 0);
  }

  lemma StartIsOverseen(v: View, claimed: set<nat>, agent: nat, pid: int, ts: int)
    requires Overseen(v, claimed) && agent in claimed
    ensures Overseen(AfterSpawn(v, agent, Some(pid), ts), claimed - {agent})
    ensures Work(AfterSpawn(v, agent, Some(pid), ts).world) < Work(v.world)
  {
    hide Inv, Legal;
    var w := Log(v.world, agent, RUNNING, SUPERVISOR, pid, ts, 0);
    RunningRowKeeps(v.world, agent, pid, ts);
    StartingKeeps(w, agent);
    MoveStartsTracking(Snap(v.world), Snap(w), v.live, v.started, claimed, agent, Running(pid),
                       |v.world.rows.events| + 1, Spawned(pid), ts);
  }

  lemma ClaimedHasNothing(w: World, agent: nat)
    requires Inv(w) && AttemptIn(Snap(w), agent).Claimed?
    ensures Closable(w, agent) && agent !in w.outcomes
  {
    assert agent in w.outcomes ==> Spoken(Snap(w).attempts[agent], w.outcomes[agent].kind);
  }

  /** The store takes either row a spawn may end with. */
  lemma SpawnIsAccepted(w: World, agent: nat, pid: int)
    requires Inv(w) && AttemptIn(Snap(w), agent).Claimed?
    ensures Legal(w.rows) && 1 <= agent <= |w.rows.agents|
    ensures NextState(State(w.rows.events, agent), RUNNING, SUPERVISOR, pid).Some?
    ensures Recordable(w, agent, CRASHED, SUPERVISOR, 0, 0)
  {
    hide Legal;
    InvIsLegal(w);
    ClaimedHasNothing(w, agent);
    StateInSnapshot(w.rows, agent);
  }

  /** A claimed attempt is spawned or recorded as crashed; either way it is claimed no longer. */
  lemma SpawnIsOverseen(v: View, claimed: set<nat>, agent: nat, pid: Option<int>, ts: int)
    requires Overseen(v, claimed) && agent in claimed
    ensures Overseen(AfterSpawn(v, agent, pid, ts), claimed - {agent})
    ensures Work(AfterSpawn(v, agent, pid, ts).world) < Work(v.world)
  {
    match pid
    case Some(p) => StartIsOverseen(v, claimed, agent, p, ts);
    case None =>
      ClaimedHasNothing(v.world, agent);
      CloseIsOverseen(v, claimed, agent, CRASHED, ts);
  }

  lemma WorkersOverseen(v: View, claimed: set<nat>, w: World)
    requires Overseen(v, claimed) && Inv(w) && WorkersOnly(v.world, w)
    ensures Overseen(v.(world := w), claimed)
  {
    WorkersKeepTracking(v.world, w, v.live, v.started, claimed);
  }

  /** The attempt was closed: as its outcome says if it left one, else as lost. */
  ghost predicate Settles(w: World, agent: nat, close: AgentStatus) {
    AttemptIn(Snap(w), agent) == if agent in w.outcomes then Closed(w.outcomes[agent].kind) else Lost(close)
  }

  /** The last row ends this attempt, by its verdict or by this close. */
  ghost predicate EndsWith(events: seq<AgentEvent>, agent: nat, close: AgentStatus) {
    events != [] && var e := events[|events| - 1];
      e.agent == agent && e.source.SUPERVISOR? && (IsVerdict(e.status) || e.status == close)
  }

  lemma CloseIsAccepted(w: World, agent: nat, close: AgentStatus)
    requires Inv(w) && Closable(w, agent) && IsClose(close)
    ensures Legal(w.rows) && Recordable(w, agent, CloseStatus(w, agent, close), SUPERVISOR, 0, CloseSeen(w, agent))
    ensures agent in w.outcomes ==> IsVerdict(w.outcomes[agent].kind)
  {
    hide SnapshotOf;
    CloseIsRecordable(w, agent, close);
  }

  lemma CloseSettles(v: View, agent: nat, close: AgentStatus, ts: int)
    requires Inv(v.world) && Closable(v.world, agent) && IsClose(close)
    ensures Inv(AfterClose(v, agent, close, ts).world) && Settles(AfterClose(v, agent, close, ts).world, agent, close)
  {
    hide Inv, SnapshotOf;
    CloseKeeps(v.world, agent, close, ts);
    CloseIsClosedBy(v, agent, close, ts);
  }

  lemma SpawnLands(v: View, agent: nat, pid: Option<int>, ts: int)
    requires Inv(v.world) && AttemptIn(Snap(v.world), agent).Claimed?
    ensures var w := AfterSpawn(v, agent, pid, ts).world;
      Inv(w) && AttemptIn(Snap(w), agent) == if pid.Some? then Running(pid.value) else Lost(CRASHED)
  {
    hide Inv, SnapshotOf, Log;
    match pid
    case Some(p) =>
      RunningRowKeeps(v.world, agent, p, ts);
      StartingKeeps(Log(v.world, agent, RUNNING, SUPERVISOR, p, ts, 0), agent);
    case None =>
      ClaimedHasNothing(v.world, agent);
      CloseKeeps(v.world, agent, CRASHED, ts);
  }

  lemma LiveIsClosable(v: View, claimed: set<nat>, agent: nat)
    requires Overseen(v, claimed) && agent in v.live && agent !in v.world.alive
    ensures Closable(v.world, agent)
  {
  }

  lemma KillIsOverseen(v: View, claimed: set<nat>, agent: nat)
    requires Overseen(v, claimed)
    ensures Overseen(v.(world := Killed(v.world, agent)), claimed)
    ensures Work(Killed(v.world, agent)) == Work(v.world)
  {
    KillKeeps(v.world, agent);
  }

  lemma KillAndCloseIsOverseen(v: View, claimed: set<nat>, agent: nat, ts: int)
    requires Overseen(v, claimed) && agent in v.live
    ensures var v' := AfterClose(v.(world := Killed(v.world, agent)), agent, TIMED_OUT, ts);
      Overseen(v', claimed - {agent}) && Work(v'.world) < Work(v.world)
  {
    var killed := v.(world := Killed(v.world, agent));
    KillIsOverseen(v, claimed, agent);
    LiveIsClosable(killed, claimed, agent);
    CloseIsOverseen(killed, claimed, agent, TIMED_OUT, ts);
  }

  lemma TimeoutIsOverseen(v: View, agent: nat, timeoutS: int, ts: int)
    requires Overseen(v, {}) && agent in v.live && agent in v.started
    ensures Overseen(AfterTimeout(v, agent, timeoutS, ts), {})
    ensures Progress(v, AfterTimeout(v, agent, timeoutS, ts))
  {
    hide Inv, AfterClose;
    if ts - v.started[agent] >= timeoutS {
      KillAndCloseIsOverseen(v, {}, agent, ts);
      assert {} - {agent} == {};
    }
  }

  /** One reap keeps the oversight, and leaves the agent ended or still young. */
  lemma ReapIsOverseen(v: View, agent: nat, first: seq<Action>, second: seq<Action>, maxDepth: int,
                       timeoutS: int, ts: int)
    requires Overseen(v, {}) && agent in v.live && agent in v.started
    ensures Overseen(AfterReap(v, agent, first, second, maxDepth, timeoutS, ts), {})
    ensures first == [] && second == [] ==> Progress(v, AfterReap(v, agent, first, second, maxDepth, timeoutS, ts))
  {
    var polled := ActAll(v.world, first, maxDepth, ts);
    ActAllKeeps(v.world, first, maxDepth, ts);
    WorkersOverseen(v, {}, polled);
    if agent in polled.alive {
      var later := ActAll(polled, second, maxDepth, ts);
      ActAllKeeps(polled, second, maxDepth, ts);
      WorkersOverseen(v.(world := polled), {}, later);
      TimeoutIsOverseen(v.(world := later), agent, timeoutS, ts);
    } else {
      LiveIsClosable(v.(world := polled), {}, agent);
      CloseIsOverseen(v.(world := polled), {}, agent, CRASHED, ts);
      assert {} - {agent} == {};
    }
  }

  /** What a reap does to the supervisor's maps: only this agent can leave, and only a young one stays. */
  lemma ReapOnlyEnds(v: View, agent: nat, first: seq<Action>, second: seq<Action>, maxDepth: int,
                     timeoutS: int, ts: int)
    requires agent in v.live && agent in v.started
    ensures var v' := AfterReap(v, agent, first, second, maxDepth, timeoutS, ts);
      || (v'.live == v.live && v'.started == v.started && ts - v.started[agent] < timeoutS)
      || (v'.live == v.live - {agent} && v'.started == v.started - {agent})
    ensures agent in AfterReap(v, agent, first, second, maxDepth, timeoutS, ts).live <==>
            agent in ActAll(v.world, first, maxDepth, ts).alive && ts - v.started[agent] < timeoutS
  {
  }

  /** What is live was live before, and has not been restarted. */
  ghost predicate Kept(v: View, v': View) {
    forall a :: a in v'.live ==>
      && a in v.live && v'.live[a] == v.live[a]
      && a in v.started && a in v'.started && v'.started[a] == v.started[a]
  }

  /** In the middle of a pass: whoever is live and no longer to be polled is young and had not ended. */
  ghost predicate ReapedSoFar(v0: View, v: View, todo: set<nat>, timeoutS: int, ts: int) {
    && Kept(v0, v) && todo <= v.live.Keys && v.world.alive <= v0.world.alive
    && forall a :: a in v.live && a !in todo ==>
         a in v.started && ts - v.started[a] < timeoutS && a in v0.world.alive
  }

  /** Nothing anyone but the supervisor does starts a process. */
  lemma {:induction false} AliveShrinks(w: World, acts: seq<Action>, maxDepth: int, ts: int)
    ensures ActAll(w, acts, maxDepth, ts).alive <= w.alive
    decreases |acts|
  {
    if acts != [] {
      assert Act(w, acts[0], maxDepth, ts).alive <= w.alive;
      AliveShrinks(Act(w, acts[0], maxDepth, ts), acts[1..], maxDepth, ts);
    }
  }

  lemma ReapAlive(v: View, agent: nat, first: seq<Action>, second: seq<Action>, maxDepth: int, timeoutS: int, ts: int)
    requires agent in v.started
    ensures var v' := AfterReap(v, agent, first, second, maxDepth, timeoutS, ts);
      v'.world.alive <= v.world.alive && (agent in v'.live ==> agent in v.world.alive)
  {
    AliveShrinks(v.world, first, maxDepth, ts);
    AliveShrinks(ActAll(v.world, first, maxDepth, ts), second, maxDepth, ts);
  }

  lemma ReapAdvances(v0: View, v: View, todo: set<nat>, agent: nat, v': View, timeoutS: int, ts: int)
    requires ReapedSoFar(v0, v, todo, timeoutS, ts) && agent in todo && agent in v.started
    requires v'.world.alive <= v.world.alive && (agent in v'.live ==> agent in v.world.alive)
    requires || (v'.live == v.live && v'.started == v.started && ts - v.started[agent] < timeoutS)
             || (v'.live == v.live - {agent} && v'.started == v.started - {agent})
    ensures ReapedSoFar(v0, v', todo - {agent}, timeoutS, ts)
  {
  }

  lemma TrackedBoth(v: View, claimed: set<nat>)
    requires Overseen(v, claimed)
    ensures v.live.Keys == v.started.Keys
  {
  }

  /** One reap of a pass, as the pass needs it. */
  lemma ReapStep(v0: View, v: View, todo: set<nat>, agent: nat, first: seq<Action>, second: seq<Action>,
                 maxDepth: int, timeoutS: int, ts: int)
    requires Overseen(v, {}) && ReapedSoFar(v0, v, todo, timeoutS, ts) && agent in todo && agent in v.started
    ensures var v' := AfterReap(v, agent, first, second, maxDepth, timeoutS, ts);
      && Overseen(v', {}) && ReapedSoFar(v0, v', todo - {agent}, timeoutS, ts)
      && (first == [] && second == [] && Progress(v0, v) ==> Progress(v0, v'))
  {
    hide Overseen, Inv;
    ReapIsOverseen(v, agent, first, second, maxDepth, timeoutS, ts);
    ReapOnlyEnds(v, agent, first, second, maxDepth, timeoutS, ts);
    ReapAlive(v, agent, first, second, maxDepth, timeoutS, ts);
    ReapAdvances(v0, v, todo, agent, AfterReap(v, agent, first, second, maxDepth, timeoutS, ts), timeoutS, ts);
  }

  lemma OneMoreSpawned(live: map<nat, Process>, agent: nat, pid: int)
    requires agent !in live
    ensures |SpawnedIn(live[agent := Spawned(pid)])| == |SpawnedIn(live)| + 1
  {
    assert SpawnedIn(live[agent := Spawned(pid)]) == SpawnedIn(live) + {agent};
  }

  lemma FewerSpawned(live: map<nat, Process>, live': map<nat, Process>)
    requires forall a :: a in live' ==> a in live && live'[a] == live[a]
    ensures |SpawnedIn(live')| <= |SpawnedIn(live)|
  {
    Subset(SpawnedIn(live'), SpawnedIn(live));
  }

  lemma Subset(xs: set<nat>, ys: set<nat>)
    requires xs <= ys
    ensures |xs| <= |ys|
  {
    assert ys == xs + (ys - xs);
  }

  /** A claimed attempt once it has been dealt with: it runs from `ts`, or its spawn failed. */
  ghost predicate Launched(v: View, agent: nat, ts: int) {
    if agent in v.live then v.live[agent].Spawned? && agent in v.started && v.started[agent] == ts
    else agent in Snap(v.world).attempts && !Active(Snap(v.world).attempts[agent])
  }

  /** What a claim and its spawns did: nobody live was disturbed, nobody outside the claim was
      started, and each claimed attempt runs from now or is over. */
  ghost predicate Begun(live: map<nat, Process>, started: map<nat, int>, v': View, taken: seq<nat>, ts: int) {
    && (forall a :: a in live ==> a in v'.live && v'.live[a] == live[a])
    && (forall a :: a in started ==> a in v'.started && v'.started[a] == started[a])
    && (forall a :: a in v'.live ==> a in live || a in taken)
    && (forall a :: a in taken ==> Launched(v', a, ts))
  }

  lemma NothingBegun(v: View, ts: int)
    ensures Begun(v.live, v.started, v, [], ts)
  {
  }

  lemma WorkersLeaveLaunched(v: View, w: World, agent: nat, ts: int)
    requires WorkersOnly(v.world, w) && Launched(v, agent, ts)
    ensures Launched(v.(world := w), agent, ts)
  {
  }

  lemma WorkersLeaveBegun(live: map<nat, Process>, started: map<nat, int>, v': View, taken: seq<nat>, ts: int, w: World)
    requires Begun(live, started, v', taken, ts) && WorkersOnly(v'.world, w)
    ensures Begun(live, started, v'.(world := w), taken, ts)
  {
    forall a | a in taken
      ensures Launched(v'.(world := w), a, ts)
    {
      WorkersLeaveLaunched(v', w, a, ts);
    }
  }

  /** The one attempt a spawn moves, and where to. */
  lemma SpawnMoves(v: View, agent: nat, pid: Option<int>, ts: int)
    requires Inv(v.world) && AttemptIn(Snap(v.world), agent).Claimed?
    ensures Moves(Snap(v.world), Snap(AfterSpawn(v, agent, pid, ts).world), agent,
                  if pid.Some? then Running(pid.value) else Lost(CRASHED), |v.world.rows.events| + 1)
  {
    match pid
    case Some(p) => RunningRowKeeps(v.world, agent, p, ts);
    case None =>
      ClaimedHasNothing(v.world, agent);
      CloseKeeps(v.world, agent, CRASHED, ts);
  }

  lemma SpawnBegins(live: map<nat, Process>, started: map<nat, int>, mid: View, taken: seq<nat>, agent: nat,
                    pid: Option<int>, state: Attempt, row: nat, ts: int)
    requires Begun(live, started, mid, taken, ts) && agent !in taken && agent !in mid.live && agent !in mid.started
    requires Moves(Snap(mid.world), Snap(AfterSpawn(mid, agent, pid, ts).world), agent, state, row)
    requires pid.None? ==> !Active(state)
    ensures Begun(live, started, AfterSpawn(mid, agent, pid, ts), taken + [agent], ts)
  {
    var v' := AfterSpawn(mid, agent, pid, ts);
    forall a | a in taken + [agent]
      ensures Launched(v', a, ts)
    {
      if a in taken {
        assert Launched(mid, a, ts);
      }
    }
  }

  /** Which queued attempts a claim with this many free slots takes. */
  function Taken(rows: Rows, free: int): seq<nat> {
    if free <= 0 then [] else Prefix(QueuedAgents(rows, |rows.agents|), free)
  }

  function Remaining(taken: seq<nat>, i: nat): set<nat>
    requires i <= |taken|
  {
    set a | a in taken[i..]
  }

  lemma OneFewerRemaining(taken: seq<nat>, i: nat)
    requires Ascending(taken) && i < |taken|
    ensures taken[i] in Remaining(taken, i) && taken[i] !in taken[..i] && taken[..i] + [taken[i]] == taken[..i + 1]
    ensures Remaining(taken, i + 1) == Remaining(taken, i) - {taken[i]}
  {
    assert taken[i..] == [taken[i]] + taken[i + 1..];
    assert forall j :: i < j < |taken| ==> taken[j] != taken[i];
  }

  lemma ClaimedIsNotLive(v: View, claimed: set<nat>, agent: nat)
    requires Overseen(v, claimed) && agent in claimed
    ensures AttemptIn(Snap(v.world), agent).Claimed? && agent !in v.live && agent !in v.started
  {
  }

  lemma SpawnAddsOne(v: View, agent: nat, pid: Option<int>, ts: int)
    requires agent !in v.live
    ensures |SpawnedIn(AfterSpawn(v, agent, pid, ts).live)| <= |SpawnedIn(v.live)| + 1
  {
    match pid
    case Some(p) => OneMoreSpawned(v.live, agent, p);
    case None => FewerSpawned(v.live, v.live - {agent});
  }

  /** One spawn of a claim, as the loop over the claim needs it. */
  lemma SpawnStep(live: map<nat, Process>, started: map<nat, int>, v: View, taken: seq<nat>, i: nat,
                  pid: Option<int>, ts: int)
    requires Ascending(taken) && i < |taken|
    requires Overseen(v, Remaining(taken, i)) && Begun(live, started, v, taken[..i], ts)
    ensures var v' := AfterSpawn(v, taken[i], pid, ts);
      && Overseen(v', Remaining(taken, i + 1)) && Begun(live, started, v', taken[..i + 1], ts)
      && Work(v'.world) < Work(v.world) && |SpawnedIn(v'.live)| <= |SpawnedIn(v.live)| + 1
  {
    hide Inv, Overseen, Begun, Moves, Work, SnapshotOf;
    OneFewerRemaining(taken, i);
    ClaimedIsNotLive(v, Remaining(taken, i), taken[i]);
    SpawnIsOverseen(v, Remaining(taken, i), taken[i], pid, ts);
    OverseenKeepsInv(v, Remaining(taken, i));
    SpawnMoves(v, taken[i], pid, ts);
    SpawnBegins(live, started, v, taken[..i], taken[i], pid, if pid.Some? then Running(pid.value) else Lost(CRASHED),
                |v.world.rows.events| + 1, ts);
    SpawnAddsOne(v, taken[i], pid, ts);
  }

  lemma OverseenKeepsInv(v: View, claimed: set<nat>)
    requires Overseen(v, claimed)
    ensures Inv(v.world)
  {
  }

  lemma ClaimableAreQueued(r: Rows, agents: seq<nat>)
    requires Claimable(r, agents)
    ensures forall a :: a in agents ==> AttemptIn(SnapshotOf(r), a).Queued?
  {
    forall a | a in agents
      ensures AttemptIn(SnapshotOf(r), a).Queued?
    {
      StateInSnapshot(r, a);
    }
  }

  /** The claim itself: the taken attempts are held, everything tracked stays. */
  lemma ClaimIsOverseen(v: View, agents: seq<nat>, ts: int)
    requires Overseen(v, {}) && Claimable(v.world.rows, agents)
    ensures var v' := v.(world := Claiming(v.world, agents, ts));
      && Overseen(v', Remaining(agents, 0))
      && if agents == [] then v' == v else Work(v'.world) < Work(v.world)
  {
    hide Inv, Legal;
    assert Legal(v.world.rows) by {
      InvIsLegal(v.world);
    }
    ClaimKeeps(v.world, agents, ts);
    ClaimSnapshot(v.world.rows, agents, ts);
    ClaimableAreQueued(v.world.rows, agents);
    ClaimKeepsTracking(Snap(v.world), Snap(Claiming(v.world, agents, ts)), v.live, v.started, agents);
    assert agents[0..] == agents;
  }

  lemma OverseenIsLegal(v: View, claimed: set<nat>)
    requires Overseen(v, claimed)
    ensures Legal(v.world.rows)
  {
  }

  // ---------------------------------------------------------------------------------------------
  // A wake pass and the end of a run.

  /** One wake of a pass: the rest still has news, and nobody else. */
  lemma WakeNext(v: View, rest: seq<HarnessTask>, ts: int)
    requires Overseen(v, {}) && NewsIs(Snap(v.world), rest) && rest != []
    ensures var v' := v.(world := Queue(v.world, rest[0].dir, rest[0].parentAgent, ts));
      && Overseen(v', {}) && NewsIs(Snap(v'.world), rest[1..]) && Work(v'.world) < Work(v.world)
  {
    hide Inv, Work, HasNews, Adds, IsIdling;
    assert rest[0] in rest;
    WakeStep(v.world, rest[0], ts);
    NewsAfterOne(Snap(v.world), Snap(Queue(v.world, rest[0].dir, rest[0].parentAgent, ts)), rest);
    AddsKeepsTracking(Snap(v.world), Snap(Queue(v.world, rest[0].dir, rest[0].parentAgent, ts)), v.live, v.started, {},
                      rest[0].id, |v.world.rows.agents| + 1, |v.world.rows.events| + 1);
  }

  lemma NoNewsLeft(s: Snapshot)
    requires NewsIs(s, [])
    ensures NobodyWakeable(s)
  {
  }

  lemma {:induction false} FilterKeepsAll(tasks: seq<HarnessTask>, keep: HarnessTask -> bool)
    requires forall t :: t in tasks ==> keep(t)
    ensures TasksWhere(tasks, keep) == tasks
  {
    if tasks != [] {
      FilterKeepsAll(tasks[1..], keep);
      assert tasks == [tasks[0]] + tasks[1..];
    }
  }

  lemma WakesExtend(w: World, asleep: seq<HarnessTask>, i: nat, ts: int)
    requires i < |asleep|
    ensures WokenAll(w, asleep[..i + 1], ts) == Queue(WokenAll(w, asleep[..i], ts), asleep[i].dir, asleep[i].parentAgent, ts)
    ensures asleep[i..][0] == asleep[i] && asleep[i..][1..] == asleep[i + 1..]
  {
    assert asleep[..i + 1][..i] == asleep[..i];
  }

  /** With no process alive, only answers can come in, and each of them leaves a queued attempt. */
  lemma {:induction false} OnlyAnswersWithoutProcesses(w: World, acts: seq<Action>, maxDepth: int, ts: int)
    requires Inv(w) && w.alive == {}
    ensures var w' := ActAll(w, acts, maxDepth, ts);
      w' == w || exists a :: a in Snap(w').attempts && Snap(w').attempts[a].Queued?
    decreases |acts|
  {
    if acts != [] {
      var next := Act(w, acts[0], maxDepth, ts);
      ActKeeps(w, acts[0], maxDepth, ts);
      if next == w {
        OnlyAnswersWithoutProcesses(w, acts[1..], maxDepth, ts);
      } else {
        AnswersQueue(w, acts[0], maxDepth, ts);
        ActAllKeeps(next, acts[1..], maxDepth, ts);
        QueuedStays(next, ActAll(next, acts[1..], maxDepth, ts), |w.rows.agents| + 1);
      }
    }
  }

  lemma AnswersQueue(w: World, act: Action, maxDepth: int, ts: int)
    requires Legal(w.rows) && w.alive == {} && Act(w, act, maxDepth, ts) != w
    ensures AttemptIn(Snap(Act(w, act, maxDepth, ts)), |w.rows.agents| + 1).Queued?
  {
    var task := TaskOf(Snap(w), act.agent);
    QueueAdds(w, task.dir, task.parentAgent, ts);
  }

  lemma QueuedStays(w: World, w': World, agent: nat)
    requires WorkersOnly(w, w') && AttemptIn(Snap(w), agent).Queued?
    ensures agent in Snap(w').attempts && Snap(w').attempts[agent].Queued?
  {
  }

  lemma AliveAreLive(v: View, claimed: set<nat>)
    requires Overseen(v, claimed)
    ensures v.world.alive <= v.live.Keys
  {
    forall a | a in v.world.alive
      ensures a in v.live
    {
      assert AttemptIn(Snap(v.world), a).Running?;
    }
  }

  lemma QuietWhenNothingQueued(v: View)
    requires Overseen(v, {}) && v.live == map[] && NothingQueued(Snap(v.world))
    ensures NothingActive(Snap(v.world))
  {
  }

  /** A free slot and a queued attempt make a claim. */
  lemma SomethingTaken(r: Rows, free: int, agent: nat)
    requires Legal(r) && free >= 1 && 1 <= agent <= |r.agents| && State(r.events, agent) == Queued
    ensures Taken(r, free) != []
  {
    QueuedAgentsExact(r, |r.agents|);
  }

  /** No start is later than this. */
  ghost function Latest(started: map<nat, int>): (latest: int)
    ensures forall a :: a in started ==> started[a] <= latest
  {
    if started == map[] then 0
    else
      var a :| a in started;
      var rest := Latest(started - {a});
      assert forall b :: b in started && b != a ==> (started - {a})[b] == started[b];
      if started[a] > rest then started[a] else rest
  }

  /** Somebody is still within their time, so the polling has not gone on for too long. */
  lemma StillWithinTime(started: map<nat, int>, clock: int, timeoutS: int)
    requires started != map[] && Young(started, clock, timeoutS)
    ensures Latest(started) + timeoutS - clock > 0
  {
    var a :| a in started;
  }

  lemma ReapedAreYoung(v0: View, v: View, timeoutS: int, ts: int)
    requires Overseen(v, {}) && ReapedSoFar(v0, v, {}, timeoutS, ts)
    ensures Young(v.started, ts, timeoutS) && |SpawnedIn(v.live)| <= |SpawnedIn(v0.live)|
    ensures v.live.Keys <= v0.world.alive
  {
    FewerSpawned(v0.live, v.live);
  }

  // ---------------------------------------------------------------------------------------------
  // Starting over a store another supervisor left behind.

  /** Who is running is live or still to be dealt with, and who is claimed is still to be dealt with. */
  ghost predicate Accounted(s: Snapshot, live: map<nat, Process>, todo: set<nat>) {
    && live.Keys !! todo
    && (forall a :: a in live ==> AttemptIn(s, a).Running?)
    && (forall a :: a in todo ==> AttemptIn(s, a).Claimed? || AttemptIn(s, a).Running?)
    && (forall a :: a in s.attempts && s.attempts[a].Running? ==> a in live || a in todo)
    && (forall a :: a in s.attempts && s.attempts[a].Claimed? ==> a in todo)
  }

  /** Everything live was adopted, and not after its time was up. */
  ghost predicate AdoptedInTime(live: map<nat, Process>, started: map<nat, int>, timeoutS: int, ts: int) {
    && live.Keys == started.Keys
    && (forall a :: a in live ==> live[a].Adopted? && ts - started[a] <= timeoutS)
  }

  /** What a restart has dealt with so far. */
  ghost predicate Resolving(v: View, todo: set<nat>, timeoutS: int, ts: int) {
    Inv(v.world) && Accounted(Snap(v.world), v.live, todo) && AdoptedInTime(v.live, v.started, timeoutS, ts)
  }

  lemma NothingResolved(w: World, timeoutS: int, ts: int)
    requires Inv(w)
    ensures Resolving(View(w, map[], map[]), Unreaped(Snap(w)), timeoutS, ts)
  {
  }

  lemma AllResolved(v: View, timeoutS: int, ts: int)
    requires Resolving(v, {}, timeoutS, ts)
    ensures Overseen(v, {}) && SpawnedIn(v.live) == {} && AdoptedInTime(v.live, v.started, timeoutS, ts)
  {
  }

  lemma WorkersLeaveAccounted(w: World, w': World, live: map<nat, Process>, todo: set<nat>)
    requires WorkersOnly(w, w') && Accounted(Snap(w), live, todo)
    ensures Accounted(Snap(w'), live, todo)
  {
    hide Snap;
  }

  lemma WorkersLeaveResolving(v: View, todo: set<nat>, timeoutS: int, ts: int, w: World)
    requires Resolving(v, todo, timeoutS, ts) && Inv(w) && WorkersOnly(v.world, w)
    ensures Resolving(v.(world := w), todo, timeoutS, ts)
  {
    hide Inv, WorkersOnly, Accounted;
    WorkersLeaveAccounted(v.world, w, v.live, todo);
  }

  /** The running row of an attempt, None when it has none: what a restart looks for. */
  function RunningRow(events: seq<AgentEvent>): Option<AgentEvent> {
    if events == [] then None
    else if events[|events| - 1].status.RUNNING? then Some(events[|events| - 1])
    else RunningRow(events[..|events| - 1])
  }

  /** A running attempt has its running row last; a claimed one has none. */
  lemma RunningRowExact(events: seq<AgentEvent>)
    requires AttemptOf(events).Some? && events != []
    ensures AttemptOf(events).value.Running? ==>
              RunningRow(events).Some? && RunningRow(events).value == events[|events| - 1] &&
              RunningRow(events).value.pid == AttemptOf(events).value.pid
    ensures AttemptOf(events).value.Claimed? ==> RunningRow(events) == None
  {
    FoldIsGrammar(events);
    if AttemptOf(events).value.Claimed? {
      assert events[..1][..0] == [];
      assert RunningRow(events[..1]) == None;
    }
  }

  /** When the attempt was last seen to start, or `ts` if never. */
  function StartOf(w: World, agent: nat): Option<int> {
    var row := RunningRow(HistoryOf(w.rows.events, agent));
    if row.Some? then Some(row.value.ts) else None
  }

  /** Adopt a young live process, kill an old one, close whatever has no process. */
  function AfterResolve(v: View, agent: nat, timeoutS: int, ts: int): View {
    var start := StartOf(v.world, agent);
    if start.Some? && agent in v.world.alive then
      if ts - start.value <= timeoutS
      then View(v.world, v.live[agent := Adopted(AttemptPid(Snap(v.world), agent))], v.started[agent := start.value])
      else AfterClose(v.(world := Killed(v.world, agent)), agent, TIMED_OUT, ts)
    else AfterClose(v, agent, CRASHED, ts)
  }

  function AttemptPid(s: Snapshot, agent: nat): int {
    match AttemptIn(s, agent)
    case Running(pid) => pid
    case _ => 0
  }

  /** An attempt that runs or is claimed says so in its rows; only a running one says when it started. */
  lemma StartIsRecorded(w: World, agent: nat)
    requires Inv(w) && agent in Snap(w).attempts
    ensures Snap(w).attempts[agent].Running? ==> StartOf(w, agent).Some?
    ensures Snap(w).attempts[agent].Claimed? ==> StartOf(w, agent).None? && agent !in w.alive
  {
    assert Recorded(Snap(w), agent, |w.rows.events|);
    RunningRowExact(Snap(w).events[agent]);
    assert agent in w.alive ==> AttemptIn(Snap(w), agent).Running?;
  }

  /** The running row names the process the attempt runs as. */
  lemma RunningRowNamesProcess(w: World, agent: nat)
    requires Inv(w) && agent in Snap(w).attempts
    ensures Snap(w).attempts[agent].Running? ==>
              RunningRow(HistoryOf(w.rows.events, agent)).Some? &&
              RunningRow(HistoryOf(w.rows.events, agent)).value.pid == AttemptPid(Snap(w), agent)
  {
    assert Recorded(Snap(w), agent, |w.rows.events|);
    RunningRowExact(Snap(w).events[agent]);
  }

  lemma AdoptionAccounts(s: Snapshot, live: map<nat, Process>, todo: set<nat>, agent: nat, process: Process)
    requires Accounted(s, live, todo) && agent in todo && AttemptIn(s, agent).Running?
    ensures Accounted(s, live[agent := process], todo - {agent})
  {
  }

  lemma ClosingAccounts(s: Snapshot, s': Snapshot, live: map<nat, Process>, todo: set<nat>, agent: nat,
                        state: Attempt, row: nat)
    requires Accounted(s, live, todo) && agent in todo && Moves(s, s', agent, state, row) && Settled(state)
    ensures Accounted(s', live - {agent}, todo - {agent})
  {
  }

  lemma ClosingResolves(v: View, todo: set<nat>, agent: nat, close: AgentStatus, timeoutS: int, ts: int)
    requires Resolving(v, todo, timeoutS, ts) && agent in todo && IsClose(close) && Closable(v.world, agent)
    ensures Resolving(AfterClose(v, agent, close, ts), todo - {agent}, timeoutS, ts)
  {
    hide Inv, Accounted, Moves;
    CloseKeeps(v.world, agent, close, ts);
    CloseIsClosedBy(v, agent, close, ts);
    ClosingAccounts(Snap(v.world), Snap(ClosedBy(v.world, agent, close, ts)), v.live, todo, agent,
                    if agent in v.world.outcomes then Closed(v.world.outcomes[agent].kind) else Lost(close),
                    |v.world.rows.events| + 1);
  }

  /** Whoever is still to be dealt with can be closed once it has no process, and only a running
      attempt has one. */
  lemma UnresolvedIsClosable(v: View, todo: set<nat>, agent: nat, timeoutS: int, ts: int)
    requires Resolving(v, todo, timeoutS, ts) && agent in todo
    ensures agent !in v.world.alive ==> Closable(v.world, agent)
    ensures Closable(Killed(v.world, agent), agent)
    ensures agent in v.world.alive ==> StartOf(v.world, agent).Some? && AttemptIn(Snap(v.world), agent).Running?
    ensures agent in v.world.alive ==>
              RunningRow(HistoryOf(v.world.rows.events, agent)).value.pid == AttemptPid(Snap(v.world), agent)
  {
    StartIsRecorded(v.world, agent);
    RunningRowNamesProcess(v.world, agent);
  }

  lemma ResolvingKeepsInv(v: View, todo: set<nat>, timeoutS: int, ts: int)
    requires Resolving(v, todo, timeoutS, ts)
    ensures Inv(v.world)
  {
  }

  lemma AdoptionResolves(v: View, todo: set<nat>, agent: nat, timeoutS: int, ts: int, process: Process, start: int)
    requires Resolving(v, todo, timeoutS, ts) && agent in todo && AttemptIn(Snap(v.world), agent).Running?
    requires process.Adopted? && ts - start <= timeoutS
    ensures Resolving(View(v.world, v.live[agent := process], v.started[agent := start]), todo - {agent}, timeoutS, ts)
  {
    hide Inv, Accounted;
    AdoptionAccounts(Snap(v.world), v.live, todo, agent, process);
  }

  /** A restart keeps exactly the attempts whose process is alive and whose time is not up. */
  lemma AdoptedExactly(v: View, todo: set<nat>, agent: nat, timeoutS: int, ts: int)
    requires Resolving(v, todo, timeoutS, ts) && agent in todo
    ensures var v' := AfterResolve(v, agent, timeoutS, ts);
      && (agent in v'.live <==>
            agent in v.world.alive && StartOf(v.world, agent).Some? && ts - StartOf(v.world, agent).value <= timeoutS)
      && (agent in v'.live ==> v'.world == v.world)
      && (agent in v.world.alive ==> StartOf(v.world, agent).Some?)
      && (agent !in v'.live ==> agent !in v'.world.alive)
  {
    hide Inv, StartOf;
    UnresolvedIsClosable(v, todo, agent, timeoutS, ts);
  }

  lemma KillResolving(v: View, todo: set<nat>, agent: nat, timeoutS: int, ts: int)
    requires Resolving(v, todo, timeoutS, ts)
    ensures Resolving(v.(world := Killed(v.world, agent)), todo, timeoutS, ts)
  {
    hide Inv, Accounted;
    KillKeeps(v.world, agent);
  }

  /** One agent of a restart: adopted in time, or closed. */
  lemma ResolveStep(v: View, todo: set<nat>, agent: nat, timeoutS: int, ts: int)
    requires Resolving(v, todo, timeoutS, ts) && agent in todo
    ensures Resolving(AfterResolve(v, agent, timeoutS, ts), todo - {agent}, timeoutS, ts)
  {
    hide Inv, StartOf, AfterClose, Resolving, Closable, AttemptIn;
    UnresolvedIsClosable(v, todo, agent, timeoutS, ts);
    if agent in v.world.alive {
      if ts - StartOf(v.world, agent).value <= timeoutS {
        AdoptionResolves(v, todo, agent, timeoutS, ts, Adopted(AttemptPid(Snap(v.world), agent)), StartOf(v.world, agent).value);
      } else {
        KillResolving(v, todo, agent, timeoutS, ts);
        ClosingResolves(v.(world := Killed(v.world, agent)), todo, agent, TIMED_OUT, timeoutS, ts);
      }
    } else {
      ClosingResolves(v, todo, agent, CRASHED, timeoutS, ts);
    }
  }

  // ---------------------------------------------------------------------------------------------
  // When the loop may stop, and why it does.

  /** Nobody live, nothing queued, claimed or running, and nobody to wake. */
  ghost predicate Quiescent(v: View) {
    v.live == map[] && v.started == map[] && NothingActive(Snap(v.world)) && NobodyWakeable(Snap(v.world))
  }

  ghost predicate NothingQueued(s: Snapshot) {
    forall a :: a in s.attempts ==> !s.attempts[a].Queued?
  }

  /** With nobody live, either an answer came in and is queued, or the run is still where it was. */
  lemma QuietEnd(v: View, acts: seq<Action>, maxDepth: int, ts: int)
    requires Overseen(v, {}) && v.live == map[] && NobodyWakeable(Snap(v.world))
    requires var v' := v.(world := ActAll(v.world, acts, maxDepth, ts)); Overseen(v', {}) && NothingQueued(Snap(v'.world))
    ensures Quiescent(v.(world := ActAll(v.world, acts, maxDepth, ts)))
  {
    hide Inv, Overseen, NobodyWakeable, ActAll, Snap, NothingActive;
    OverseenKeepsInv(v, {});
    AliveAreLive(v, {});
    TrackedBoth(v, {});
    OnlyAnswersWithoutProcesses(v.world, acts, maxDepth, ts);
    QuietWhenNothingQueued(v.(world := ActAll(v.world, acts, maxDepth, ts)));
  }

  /** A queued attempt while nobody is live is claimed on the next tick. */
  lemma QueuedIsTaken(v: View, maxConcurrent: int, agent: nat)
    requires Overseen(v, {}) && v.live == map[] && maxConcurrent >= 1 && AttemptIn(Snap(v.world), agent).Queued?
    ensures Taken(v.world.rows, maxConcurrent - |SpawnedIn(v.live)|) != []
  {
    assert SpawnedIn(v.live) == {};
    OverseenIsLegal(v, {});
    SomethingTaken(v.world.rows, maxConcurrent, agent);
  }

  /** One step of the loop that goes on: less to do, or the same picture while somebody's time runs. */
  ghost predicate StepsOn(v: View, v': View, clock: int, clock': int, timeoutS: int, pollS: int) {
    || Work(v'.world) < Work(v.world)
    || (v' == v && clock' == clock + pollS && Latest(v.started) + timeoutS - clock > 0)
  }

  lemma CountIsExact(w: World, queued: nat)
    requires queued == 0 <==> forall a: nat :: 1 <= a <= |w.rows.agents| ==> State(w.rows.events, a) != Queued
    ensures queued == 0 <==> NothingQueued(Snap(w))
  {
    if NothingQueued(Snap(w)) {
      forall a: nat | 1 <= a <= |w.rows.agents|
        ensures State(w.rows.events, a) != Queued
      {
        StateInSnapshot(w.rows, a);
      }
    }
  }

  /** So a loop that finds something queued while nobody is live has made progress. */
  lemma QueuedMeansProgress(v: View, maxConcurrent: int)
    requires Overseen(v, {}) && v.live == map[] && maxConcurrent >= 1 && !NothingQueued(Snap(v.world))
    ensures Taken(v.world.rows, maxConcurrent - |SpawnedIn(v.live)|) != []
  {
    var a :| a in Snap(v.world).attempts && Snap(v.world).attempts[a].Queued?;
    QueuedIsTaken(v, maxConcurrent, a);
  }

  lemma NobodyForgotten(v: View)
    requires Overseen(v, {}) && Quiescent(v)
    ensures Inv(v.world)
    ensures v.world.stray == {} && (forall a :: a in v.world.idled ==> v.world.idled[a].waiting != []) ==>
              forall task :: 1 <= task <= |v.world.rows.tasks| ==> !IsIdling(Snap(v.world), task)
  {
    if v.world.stray == {} && forall a :: a in v.world.idled ==> v.world.idled[a].waiting != [] {
      NoLostWake(v.world);
    }
  }

  // ---------------------------------------------------------------------------------------------
  // Starts and endings, as the log has them.

  function PidOf(process: Process): int {
    match process
    case Spawned(pid) => pid
    case Adopted(pid) => pid
  }

  /** The log has a running row of the attempt with this process and this time. */
  ghost predicate StartedBy(events: seq<AgentEvent>, agent: nat, pid: int, start: int) {
    exists e :: e in events && e.agent == agent && e.status.RUNNING? && e.pid == pid && e.ts == start
  }

  /** Every live attempt's process and start are those of its running row. */
  ghost predicate StartsOnRecord(events: seq<AgentEvent>, live: map<nat, Process>, started: map<nat, int>) {
    forall a :: a in live ==> a in started && StartedBy(events, a, PidOf(live[a]), started[a])
  }

  lemma NothingStarted(events: seq<AgentEvent>)
    ensures StartsOnRecord(events, map[], map[])
  {
  }

  lemma NoneSpawned(live: map<nat, Process>)
    requires SpawnedIn(live) == {}
    ensures forall a :: a in live ==> live[a] == Adopted(PidOf(live[a]))
  {
    forall a | a in live
      ensures live[a].Adopted?
    {
      assert a !in SpawnedIn(live);
    }
  }

  lemma StartedStays(events: seq<AgentEvent>, events': seq<AgentEvent>, agent: nat, pid: int, start: int)
    requires events <= events' && StartedBy(events, agent, pid, start)
    ensures StartedBy(events', agent, pid, start)
  {
    var e :| e in events && e.agent == agent && e.status.RUNNING? && e.pid == pid && e.ts == start;
    var i :| 0 <= i < |events| && events[i] == e;
    assert events'[i] == e;
  }

  /** Whoever is live still, with the start it had, is still on record in a longer log. */
  lemma StartsStayOnRecord(events: seq<AgentEvent>, events': seq<AgentEvent>, live: map<nat, Process>,
                           started: map<nat, int>, live': map<nat, Process>, started': map<nat, int>)
    requires events <= events'
    requires forall a :: a in live' ==> a in live && live'[a] == live[a]
    requires forall a :: a in live' && a in started ==> a in started' && started'[a] == started[a]
    ensures StartsOnRecord(events, live, started) ==> StartsOnRecord(events', live', started')
  {
    if StartsOnRecord(events, live, started) {
      forall a | a in live'
        ensures StartedBy(events', a, PidOf(live'[a]), started'[a])
      {
        StartedStays(events, events', a, PidOf(live[a]), started[a]);
      }
    }
  }

  /** A longer log has every start the shorter one had. */
  lemma StartsOnLongerRecord(events: seq<AgentEvent>, events': seq<AgentEvent>, live: map<nat, Process>,
                             started: map<nat, int>)
    requires events <= events'
    ensures StartsOnRecord(events, live, started) ==> StartsOnRecord(events', live, started)
  {
    if StartsOnRecord(events, live, started) {
      StartsStayOnRecord(events, events', live, started, live, started);
    }
  }

  /** An attempt just started is on record with its new row. */
  lemma StartOnRecord(events: seq<AgentEvent>, e: AgentEvent, live: map<nat, Process>, started: map<nat, int>, process: Process)
    requires StartsOnRecord(events, live, started) && e.status.RUNNING? && PidOf(process) == e.pid
    ensures StartsOnRecord(events + [e], live[e.agent := process], started[e.agent := e.ts])
  {
    var events', live', started' := events + [e], live[e.agent := process], started[e.agent := e.ts];
    assert events'[|events|] == e;
    forall a | a in live'
      ensures StartedBy(events', a, PidOf(live'[a]), started'[a])
    {
      if a != e.agent {
        StartedStays(events, events', a, PidOf(live[a]), started[a]);
      }
    }
  }

  lemma SpawnOnRecord(events: seq<AgentEvent>, events': seq<AgentEvent>, live: map<nat, Process>, started: map<nat, int>,
                      agent: nat, pid: Option<int>, ts: int)
    requires |events'| == |events| + 1 && events'[..|events|] == events
    requires pid.Some? ==> var e := events'[|events|]; e.agent == agent && e.status.RUNNING? && e.pid == pid.value && e.ts == ts
    ensures StartsOnRecord(events, live, started) ==>
              StartsOnRecord(events', if pid.Some? then live[agent := Spawned(pid.value)] else live - {agent},
                             if pid.Some? then started[agent := ts] else started - {agent})
  {
    assert events' == events + [events'[|events|]];
    if StartsOnRecord(events, live, started) {
      if pid.Some? {
        StartOnRecord(events, events'[|events|], live, started, Spawned(pid.value));
      } else {
        StartsStayOnRecord(events, events', live, started, live - {agent}, started - {agent});
      }
    }
  }

  /** An attempt has at most one running row and at most one ending row. */
  lemma OneRowOfEach(r: Rows, e: AgentEvent, e': AgentEvent)
    requires Legal(r) && e in r.events && e' in r.events && e.agent == e'.agent
    ensures e.status.RUNNING? && e'.status.RUNNING? ==> e == e'
    ensures Ending(e) && Ending(e') ==> e == e'
  {
    var h := HistoryOf(r.events, e.agent);
    HistoryIsOrdered(r.events, e.agent);
    assert e in h && e' in h;
    OwnerOfRow(r, e);
    assert Folds(r.events, e.agent);
    LegalHistoryShape(h);
  }

  lemma OwnerOfRow(r: Rows, e: AgentEvent)
    requires EventRows(r) && e in r.events
    ensures 1 <= e.agent <= |r.agents|
  {
  }

  lemma {:induction false} RunningRowIsARow(events: seq<AgentEvent>)
    ensures RunningRow(events).Some? ==> RunningRow(events).value in events && RunningRow(events).value.status.RUNNING?
  {
    if events != [] && !events[|events| - 1].status.RUNNING? {
      RunningRowIsARow(events[..|events| - 1]);
    }
  }

  /** What a restart finds as an attempt's running row is a row of the log. */
  lemma FoundRowIsInTheLog(r: Rows, agent: nat)
    requires Legal(r)
    ensures var found := RunningRow(HistoryOf(r.events, agent));
      found.Some? ==> found.value in r.events && found.value.agent == agent && found.value.status.RUNNING?
  {
    HistoryIsOrdered(r.events, agent);
    RunningRowIsARow(HistoryOf(r.events, agent));
    var h := HistoryOf(r.events, agent);
    assert forall e :: e in h ==> e.agent == agent;
  }

  /** A live attempt with a start on record has the start and the process of its one running row. */
  lemma StartsAreTheRows(r: Rows, live: map<nat, Process>, started: map<nat, int>)
    requires Legal(r) && StartsOnRecord(r.events, live, started)
    ensures forall a, e :: a in live && e in r.events && e.agent == a && e.status.RUNNING? ==>
              PidOf(live[a]) == e.pid && started[a] == e.ts
  {
    hide Legal;
    forall a, e | a in live && e in r.events && e.agent == a && e.status.RUNNING?
      ensures PidOf(live[a]) == e.pid && started[a] == e.ts
    {
      var e' :| e' in r.events && e'.agent == a && e'.status.RUNNING? && e'.pid == PidOf(live[a]) && e'.ts == started[a];
      OneRowOfEach(r, e, e');
    }
  }

  /** The attempt is not tracked and its last row ends it, by its verdict or by this close. */
  ghost predicate Ended(v: View, agent: nat, close: AgentStatus) {
    agent !in v.live && agent !in v.started && Settles(v.world, agent, close) && EndsWith(v.world.rows.events, agent, close)
  }

  /** What a restart makes of an attempt that has a process and this running row: in time, it takes over
      the process with the start it had; too late, it kills the process and the attempt timed out. */
  ghost predicate TakenOver(v: View, v': View, running: AgentEvent, timeoutS: int, ts: int) {
    var agent := running.agent;
    if ts - running.ts <= timeoutS
    then v' == v.(live := v.live[agent := Adopted(running.pid)], started := v.started[agent := running.ts])
    else Ended(v', agent, TIMED_OUT) && v'.world.alive == v.world.alive - {agent}
  }

  /** An agent resolved in a restart: adopted as its running row says, or gone. */
  lemma ResolvedOnRecord(events: seq<AgentEvent>, events': seq<AgentEvent>, live: map<nat, Process>, started: map<nat, int>,
                         live': map<nat, Process>, started': map<nat, int>, e: AgentEvent)
    requires StartsOnRecord(events, live, started) && events <= events'
    requires || (e in events && e.status.RUNNING?
                 && live' == live[e.agent := Adopted(e.pid)] && started' == started[e.agent := e.ts])
             || (live' == live - {e.agent} && started' == started - {e.agent})
    ensures StartsOnRecord(events', live', started')
  {
    forall a | a in live'
      ensures a in started' && StartedBy(events', a, PidOf(live'[a]), started'[a])
    {
      if e in events && live' == live[e.agent := Adopted(e.pid)] && a == e.agent {
        assert StartedBy(events, a, e.pid, e.ts);
        StartedStays(events, events', a, e.pid, e.ts);
      } else {
        StartedStays(events, events', a, PidOf(live[a]), started[a]);
      }
    }
  }

  /** A start survives a restart: a supervisor that takes over gives a live attempt in time the very start
      and process it had. */
  lemma RestartKeepsStarts(v: View, agent: nat, timeoutS: int, ts: int)
    requires Overseen(v, {}) && StartsOnRecord(v.world.rows.events, v.live, v.started)
    requires agent in v.live && agent in v.world.alive && agent in v.started && ts - v.started[agent] <= timeoutS
    ensures var v' := AfterResolve(View(v.world, map[], map[]), agent, timeoutS, ts);
      && agent in v'.live && PidOf(v'.live[agent]) == PidOf(v.live[agent])
      && agent in v'.started && v'.started[agent] == v.started[agent]
  {
    hide Inv, Legal, SnapshotOf;
    OverseenKeepsInv(v, {});
    OverseenIsLegal(v, {});
    var r := v.world.rows;
    var e :| e in r.events && e.agent == agent && e.status.RUNNING? && e.pid == PidOf(v.live[agent]) && e.ts == v.started[agent];
    assert agent in Snap(v.world).attempts && Snap(v.world).attempts[agent].Running?;
    StartIsRecorded(v.world, agent);
    RunningRowNamesProcess(v.world, agent);
    FoundRowIsInTheLog(r, agent);
    OneRowOfEach(r, e, RunningRow(HistoryOf(r.events, agent)).value);
  }

  /** The slots that are free are filled from the front of the queue, as far as it goes. */
  lemma TakenIsFront(rows: Rows, free: int)
    ensures var queue := QueuedAgents(rows, |rows.agents|);
      Taken(rows, free) == queue[..if free <= 0 then 0 else if free <= |queue| then free else |queue|]
  {
  }

  /** The attempt left with an ending row, timed out only if its process was alive and its time was up. */
  ghost predicate LeftFairly(v0: View, events: seq<AgentEvent>, agent: nat, timeoutS: int, ts: int) {
    exists e :: e in events && e.agent == agent && Ending(e) &&
      (e.status.TIMED_OUT? ==> agent in v0.world.alive && agent in v0.started && ts - v0.started[agent] >= timeoutS)
  }

  /** So did everybody who was live and is not any more. */
  ghost predicate AllLeftFairly(v0: View, v: View, timeoutS: int, ts: int) {
    forall a :: a in v0.live && a !in v.live ==> LeftFairly(v0, v.world.rows.events, a, timeoutS, ts)
  }

  lemma LeftStays(v0: View, events: seq<AgentEvent>, events': seq<AgentEvent>, agent: nat, timeoutS: int, ts: int)
    requires events <= events' && LeftFairly(v0, events, agent, timeoutS, ts)
    ensures LeftFairly(v0, events', agent, timeoutS, ts)
  {
    var e :| e in events && e.agent == agent && Ending(e) &&
      (e.status.TIMED_OUT? ==> agent in v0.world.alive && agent in v0.started && ts - v0.started[agent] >= timeoutS);
    var i :| 0 <= i < |events| && events[i] == e;
    assert events'[i] == e;
  }

  lemma OneMoreLeft(v0: View, v: View, v': View, todo: set<nat>, agent: nat, timeoutS: int, ts: int)
    requires ReapedSoFar(v0, v, todo, timeoutS, ts) && agent in todo && AllLeftFairly(v0, v, timeoutS, ts)
    requires v.world.rows.events <= v'.world.rows.events && agent in v.started
    requires forall a :: a in v.live && a != agent ==> a in v'.live
    requires agent !in v'.live ==>
               || EndsWith(v'.world.rows.events, agent, CRASHED)
               || (EndsWith(v'.world.rows.events, agent, TIMED_OUT)
                   && agent in v.world.alive && ts - v.started[agent] >= timeoutS)
    ensures AllLeftFairly(v0, v', timeoutS, ts)
  {
    forall a | a in v0.live && a !in v'.live
      ensures LeftFairly(v0, v'.world.rows.events, a, timeoutS, ts)
    {
      if a !in v.live {
        LeftStays(v0, v.world.rows.events, v'.world.rows.events, a, timeoutS, ts);
      } else {
        assert v'.world.rows.events[|v'.world.rows.events| - 1] in v'.world.rows.events;
      }
    }
  }
}
