/** What workers may change while the supervisor is between two of its own steps, and how much work
    the supervisor has left once the workers fall silent. */
module Effects {
  import opened Options
  import opened Attempts
  import opened Bus
  import opened Schedule
  import opened Protocol
  import opened Keeps
  import opened Runs
  import opened Wakes

  // ---------------------------------------------------------------------------------------------
  // The workers' share of a run.

  function ActAll(w: World, acts: seq<Action>, maxDepth: int, ts: int): World
    decreases |acts|
  {
    if acts == [] then w else ActAll(Act(w, acts[0], maxDepth, ts), acts[1..], maxDepth, ts)
  }

  /** Workers and people queue attempts and collect settled ones; they never move an active attempt.
      Processes only end, and an ended process writes no more. */
  ghost predicate WorkersOnly(w: World, w': World) {
    var s, s' := Snap(w), Snap(w');
    && (forall a :: a in s.attempts ==> a in s'.attempts && Stays(s.attempts[a], s'.attempts[a]))
    && (forall a :: a in s'.attempts && a !in s.attempts ==> s'.attempts[a].Queued?)
    && w'.alive <= w.alive
    && (forall a :: a in w.outcomes ==> a in w'.outcomes && w'.outcomes[a] == w.outcomes[a])
    && (forall a :: a in w'.outcomes && a !in w.outcomes ==> a in w.alive)
  }

  predicate Stays(a: Attempt, a': Attempt) {
    if Active(a) then a' == a else !Active(a')
  }

  lemma WorkersOnlyTransitive(w0: World, w1: World, w2: World)
    requires WorkersOnly(w0, w1) && WorkersOnly(w1, w2)
    ensures WorkersOnly(w0, w2)
  {
  }

  lemma QueueIsWorkersOnly(w: World, dir: string, parent: nat, ts: int)
    requires Legal(w.rows)
    ensures WorkersOnly(w, Queue(w, dir, parent, ts))
  {
    hide Legal, Sound, Adds, WorkersOnly, EnqueuedIn;
    QueueAdds(w, dir, parent, ts);
    AddIsWorkersOnly(w, Queue(w, dir, parent, ts), TaskFor(w.rows, dir), |w.rows.agents| + 1, |w.rows.events| + 1);
  }

  lemma AddIsWorkersOnly(w: World, w': World, task: nat, agent: nat, row: nat)
    requires Adds(Snap(w), Snap(w'), task, agent, row) && w'.alive == w.alive && w'.outcomes == w.outcomes
    ensures WorkersOnly(w, w')
  {
    hide Snap;
  }

  lemma MoveIsWorkersOnly(w: World, w': World, agent: nat, state: Attempt, row: nat)
    requires Moves(Snap(w), Snap(w'), agent, state, row) && Stays(Snap(w).attempts[agent], state)
    requires w'.alive == w.alive && w'.outcomes == w.outcomes
    ensures WorkersOnly(w, w')
  {
  }

  lemma CollectingStays(a: Attempt)
    requires NextState(a, COLLECTED, WORKER, 0).Some?
    ensures Stays(a, NextState(a, COLLECTED, WORKER, 0).value)
  {
  }

  lemma CollectIsWorkersOnly(w: World, who: nat, asked: nat, ts: int)
    requires Legal(w.rows) && Collectable(Snap(w), asked)
    ensures WorkersOnly(w, CollectedBy(w, who, asked, ts))
  {
    var agent := Addressed(Snap(w), asked);
    CollectionIsRecordable(w, asked);
    LogMoves(w, agent, COLLECTED, WORKER, 0, ts, 0);
    CollectingStays(Snap(w).attempts[agent]);
    MoveIsWorkersOnly(w, CollectedBy(w, who, asked, ts), agent,
                      NextState(Snap(w).attempts[agent], COLLECTED, WORKER, 0).value, |w.rows.events| + 1);
  }

  lemma BesideTheLog(w: World, w': World)
    requires w'.rows == w.rows && w'.alive <= w.alive
    requires forall a :: a in w.outcomes ==> a in w'.outcomes && w'.outcomes[a] == w.outcomes[a]
    requires forall a :: a in w'.outcomes && a !in w.outcomes ==> a in w.alive
    ensures WorkersOnly(w, w')
  {
  }

  lemma ActIsWorkersOnly(w: World, act: Action, maxDepth: int, ts: int)
    requires Inv(w)
    ensures WorkersOnly(w, Act(w, act, maxDepth, ts))
  {
    hide Inv, Legal, WorkersOnly, MayDelegate, Answerable, Collectable, ActiveFor;
    InvIsLegal(w);
    var w' := Act(w, act, maxDepth, ts);
    if Enabled(w, act, maxDepth) {
      match act
      case Delegate(who, dir) => QueueIsWorkersOnly(w, dir, who, ts);
      case Watch(who, dir) => QueueIsWorkersOnly(w, dir, who, ts);
      case Answer(agent) => QueueIsWorkersOnly(w, TaskOf(Snap(w), agent).dir, TaskOf(Snap(w), agent).parentAgent, ts);
      case Collect(who, asked) => CollectIsWorkersOnly(w, who, asked, ts);
      case Idle(who) => BesideTheLog(w, w');
      case Halt(who) => BesideTheLog(w, w');
      case Finish(who, kind) => BesideTheLog(w, w');
      case Exit(who) => BesideTheLog(w, w');
    } else {
      BesideTheLog(w, w);
    }
  }

  lemma {:induction false} ActAllKeeps(w: World, acts: seq<Action>, maxDepth: int, ts: int)
    requires Inv(w)
    ensures Inv(ActAll(w, acts, maxDepth, ts)) && WorkersOnly(w, ActAll(w, acts, maxDepth, ts))
    decreases |acts|
  {
    if acts != [] {
      var w' := Act(w, acts[0], maxDepth, ts);
      ActKeeps(w, acts[0], maxDepth, ts);
      ActIsWorkersOnly(w, acts[0], maxDepth, ts);
      ActAllKeeps(w', acts[1..], maxDepth, ts);
      WorkersOnlyTransitive(w, w', ActAll(w, acts, maxDepth, ts));
    }
  }

  // ---------------------------------------------------------------------------------------------
  // The supervisor's remaining work when workers do nothing more.

  /** How many more rows a task can draw from the supervisor alone: a queued attempt is claimed, run
      and lost; an idling one may first be woken; a running one that wrote an idle outcome may first
      be closed as idling. */
  function Weight(state: Attempt, idle: bool): nat {
    match state
    case Queued => 3
    case Claimed => 2
    case Running(_) => if idle then 5 else 1
    case Closed(verdict) => if verdict.IDLING? then 4 else 0
    case _ => 0
  }

  predicate WroteIdle(outcomes: map<nat, Header>, agent: nat) {
    agent in outcomes && outcomes[agent].kind.IDLING?
  }

  function TaskWeight(s: Snapshot, outcomes: map<nat, Header>, task: nat): nat {
    Weight(NewestState(s, task), WroteIdle(outcomes, NewestAgent(s, task)))
  }

  function Weights(s: Snapshot, outcomes: map<nat, Header>, tasks: nat): nat {
    if tasks == 0 then 0 else Weights(s, outcomes, tasks - 1) + TaskWeight(s, outcomes, tasks)
  }

  function Work(w: World): nat {
    Weights(Snap(w), w.outcomes, |Snap(w).tasks|)
  }

  /** One task weighs less than before and no other task weighs differently. */
  ghost predicate Lightened(s: Snapshot, s': Snapshot, outcomes: map<nat, Header>, task: nat) {
    && 1 <= task <= |s.tasks| && s'.tasks == s.tasks
    && TaskWeight(s', outcomes, task) < TaskWeight(s, outcomes, task)
    && forall t: nat {:trigger TaskWeight(s', outcomes, t)} :: 1 <= t <= |s.tasks| && t != task ==>
         TaskWeight(s', outcomes, t) == TaskWeight(s, outcomes, t)
  }

  lemma {:induction false} WeightsDrop(s: Snapshot, s': Snapshot, outcomes: map<nat, Header>, task: nat, n: nat)
    requires n <= |s.tasks|
    ensures Lightened(s, s', outcomes, task) ==>
              if task <= n then Weights(s', outcomes, n) < Weights(s, outcomes, n)
              else Weights(s', outcomes, n) == Weights(s, outcomes, n)
  {
    if n > 0 {
      WeightsDrop(s, s', outcomes, task, n - 1);
    }
  }

  lemma OwnerInRange(w: World, agent: nat)
    requires Inv(w) && agent in Snap(w).attempts
    ensures 1 <= OwnerIn(Snap(w), agent) <= |Snap(w).tasks| && OwnerIn(Snap(w), agent) in Snap(w).agentsByTask
  {
    assert Sited(Snap(w), agent);
  }

  lemma WeightDrops(w: World, agent: nat, status: AgentStatus, pid: int, seen: int)
    requires OutcomesFit(Snap(w), w.outcomes)
    requires Recordable(w, agent, status, SUPERVISOR, pid, seen) && Active(Snap(w).attempts[agent])
    ensures Weight(NextState(Snap(w).attempts[agent], status, SUPERVISOR, pid).value, WroteIdle(w.outcomes, agent)) <
            Weight(Snap(w).attempts[agent], WroteIdle(w.outcomes, agent))
  {
    hide Snap;
    assert agent in w.outcomes ==> Spoken(Snap(w).attempts[agent], w.outcomes[agent].kind);
  }

  /** The newest agents of two tasks differ. */
  lemma NewestDiffer(s: Snapshot, rows: nat, task: nat, other: nat)
    requires Sound(s, rows) && 1 <= task <= |s.tasks| && 1 <= other <= |s.tasks| && task != other
    ensures NewestAgent(s, task) != NewestAgent(s, other)
  {
    NewestIsLargest(s, rows, task);
    NewestIsLargest(s, rows, other);
  }

  lemma MoveLightens(s: Snapshot, s': Snapshot, rows: nat, outcomes: map<nat, Header>, agent: nat,
                     state: Attempt, row: nat, task: nat)
    requires Sound(s, rows) && Moves(s, s', agent, state, row)
    requires 1 <= task <= |s.tasks| && agent == NewestAgent(s, task)
    requires Weight(state, WroteIdle(outcomes, agent)) < Weight(s.attempts[agent], WroteIdle(outcomes, agent))
    ensures Lightened(s, s', outcomes, task)
  {
    forall t: nat | 1 <= t <= |s.tasks| && t != task
      ensures TaskWeight(s', outcomes, t) == TaskWeight(s, outcomes, t)
    {
      NewestDiffer(s, rows, task, t);
    }
  }

  /** Any row the supervisor records about an active attempt leaves it less to do. */
  lemma RecordingDropsWork(w: World, agent: nat, status: AgentStatus, pid: int, ts: int, seen: int)
    requires Inv(w) && Recordable(w, agent, status, SUPERVISOR, pid, seen) && Active(Snap(w).attempts[agent])
    ensures Work(Log(w, agent, status, SUPERVISOR, pid, ts, seen)) < Work(w)
  {
    var s, s' := Snap(w), Snap(Log(w, agent, status, SUPERVISOR, pid, ts, seen));
    LogMoves(w, agent, status, SUPERVISOR, pid, ts, seen);
    OwnerInRange(w, agent);
    WeightDrops(w, agent, status, pid, seen);
    MoveLightens(s, s', |w.rows.events|, w.outcomes, agent, NextState(s.attempts[agent], status, SUPERVISOR, pid).value,
                 |w.rows.events| + 1, OwnerIn(s, agent));
    WeightsDrop(s, s', w.outcomes, OwnerIn(s, agent), |s.tasks|);
  }

  lemma WakeLightens(s: Snapshot, s': Snapshot, outcomes: map<nat, Header>, woken: nat, agent: nat, row: nat)
    requires 1 <= woken <= |s.tasks|
    ensures OnlyWoke(s, s', woken, agent, row) ==> Lightened(s, s', outcomes, woken)
  {
    if OnlyWoke(s, s', woken, agent, row) {
      assert NewestState(s', woken) == Queued;
      forall t: nat | t != woken
        ensures TaskWeight(s', outcomes, t) == TaskWeight(s, outcomes, t)
      {
        assert NewestState(s', t) == NewestState(s, t);
      }
    }
  }

  lemma WokenWorkDrops(w: World, w': World, woken: nat, agent: nat, row: nat)
    ensures OnlyWoke(Snap(w), Snap(w'), woken, agent, row) && 1 <= woken <= |Snap(w).tasks| && w'.outcomes == w.outcomes ==>
              Work(w') < Work(w)
  {
    if OnlyWoke(Snap(w), Snap(w'), woken, agent, row) && 1 <= woken <= |Snap(w).tasks| && w'.outcomes == w.outcomes {
      WakeLightens(Snap(w), Snap(w'), w.outcomes, woken, agent, row);
      WeightsDrop(Snap(w), Snap(w'), w.outcomes, woken, |Snap(w).tasks|);
    }
  }

  /** A wake leaves it less to do as well: the idling task now only has an attempt to run. */
  lemma WakingDropsWork(w: World, woken: HarnessTask, ts: int)
    requires Legal(w.rows) && woken in Snap(w).tasks && IsIdling(Snap(w), woken.id)
    ensures Work(Queue(w, woken.dir, woken.parentAgent, ts)) < Work(w)
  {
    WakeOnlyWakes(w, woken, ts);
    WokenWorkDrops(w, Queue(w, woken.dir, woken.parentAgent, ts), woken.id, |w.rows.agents| + 1, |w.rows.events| + 1);
  }
}
