/** Whole runs: any interleaving of what workers and people do with what the supervisor does, and what
    stays true along all of it. */
module Journeys {
  import opened Options
  import opened Attempts
  import opened Bus
  import opened Schedule
  import opened Protocol
  import opened Keeps
  import opened Runs
  import opened Wakes
  import opened Effects
  import opened Oversight
  import opened Turns

  /** One step of a run: others act, or the supervisor claims, launches a claimed attempt, closes an
      attempt whose process has ended, kills, or wakes. */
  datatype Move =
    | Others(act: Action)
    | Claims(limit: int)
    | Launches(agent: nat, pid: int)
    | Closes(agent: nat, close: AgentStatus)
    | Kills(agent: nat)
    | Wakes(task: HarnessTask)

  datatype Step = Step(move: Move, ts: int)

  predicate Ready(w: World, move: Move) {
    match move
    case Others(_) => true
    case Claims(_) => true
    case Launches(agent, _) => AttemptIn(Snap(w), agent).Claimed?
    case Closes(agent, close) =>
      IsClose(close) && agent !in w.alive && (AttemptIn(Snap(w), agent).Claimed? || AttemptIn(Snap(w), agent).Running?)
    case Kills(_) => true
    case Wakes(task) => task in Snap(w).tasks && HasNews(Snap(w), task.id)
  }

  function TakenFor(w: World, limit: int): seq<nat> {
    Prefix(QueuedAgents(w.rows, |w.rows.agents|), limit)
  }

  function Launching(w: World, agent: nat, pid: int, ts: int): World {
    var running := Log(w, agent, RUNNING, SUPERVISOR, pid, ts, 0);
    running.(alive := running.alive + {agent})
  }

  /** A step that is not ready is not taken. */
  function Moved(w: World, step: Step, maxDepth: int): World {
    if !Ready(w, step.move) then w
    else
      match step.move
      case Others(act) => Act(w, act, maxDepth, step.ts)
      case Claims(limit) => Claiming(w, TakenFor(w, limit), step.ts)
      case Launches(agent, pid) => Launching(w, agent, pid, step.ts)
      case Closes(agent, close) => ClosedBy(w, agent, close, step.ts)
      case Kills(agent) => Killed(w, agent)
      case Wakes(task) => Queue(w, task.dir, task.parentAgent, step.ts)
  }

  function Run(w: World, steps: seq<Step>, maxDepth: int): World {
    if steps == [] then w else Moved(Run(w, steps[..|steps| - 1], maxDepth), steps[|steps| - 1], maxDepth)
  }

  // ---------------------------------------------------------------------------------------------
  // Every step keeps the invariant and the order of claims.

  lemma LaunchKeeps(w: World, agent: nat, pid: int, ts: int)
    requires Inv(w) && AttemptIn(Snap(w), agent).Claimed?
    ensures Inv(Launching(w, agent, pid, ts))
    ensures Moves(Snap(w), Snap(Launching(w, agent, pid, ts)), agent, Running(pid), |w.rows.events| + 1)
  {
    RunningRowKeeps(w, agent, pid, ts);
    StartingKeeps(Log(w, agent, RUNNING, SUPERVISOR, pid, ts, 0), agent);
  }

  lemma MoveKeeps(w: World, step: Step, maxDepth: int)
    requires Inv(w)
    ensures Inv(Moved(w, step, maxDepth))
  {
    hide Inv, HasNews, Act, Claiming, Launching, ClosedBy, Killed, Queue;
    if Ready(w, step.move) {
      match step.move
      case Others(act) => ActKeeps(w, act, maxDepth, step.ts);
      case Claims(limit) =>
        InvIsLegal(w);
        PrefixIsClaimable(w.rows, limit);
        ClaimKeeps(w, TakenFor(w, limit), step.ts);
      case Launches(agent, pid) => LaunchKeeps(w, agent, pid, step.ts);
      case Closes(agent, close) => CloseKeeps(w, agent, close, step.ts);
      case Kills(agent) => KillKeeps(w, agent);
      case Wakes(task) => WakeKeeps(w, task, step.ts);
    }
  }

  lemma {:induction false} RunKeeps(w: World, steps: seq<Step>, maxDepth: int)
    requires Inv(w)
    ensures Inv(Run(w, steps, maxDepth))
  {
    hide Inv, Moved;
    if steps != [] {
      RunKeeps(w, steps[..|steps| - 1], maxDepth);
      MoveKeeps(Run(w, steps[..|steps| - 1], maxDepth), steps[|steps| - 1], maxDepth);
    }
  }

  lemma MoveKeepsTurn(w: World, step: Step, maxDepth: int)
    requires Inv(w) && InTurn(w.rows)
    ensures InTurn(Moved(w, step, maxDepth).rows)
  {
    hide Inv, HasNews, Act, InTurn, CloseStatus, CloseSeen;
    InvIsLegal(w);
    if Ready(w, step.move) {
      match step.move
      case Others(act) => ActKeepsTurn(w, act, maxDepth, step.ts);
      case Claims(limit) => ClaimKeepsTurn(w.rows, limit, step.ts);
      case Launches(agent, pid) =>
        RunningIsRecordable(w, agent, pid);
        RecordKeepsTurn(w.rows, agent, RUNNING, SUPERVISOR, pid, step.ts, 0);
      case Closes(agent, close) => CloseKeepsTurn(w, agent, close, step.ts);
      case Kills(agent) =>
      case Wakes(task) => EnqueueKeepsTurn(w.rows, task.dir, task.parentAgent, step.ts);
    }
  }

  lemma CloseKeepsTurn(w: World, agent: nat, close: AgentStatus, ts: int)
    requires Inv(w) && InTurn(w.rows) && Closable(w, agent) && IsClose(close)
    ensures InTurn(ClosedBy(w, agent, close, ts).rows)
  {
    hide InTurn, SnapshotOf;
    CloseIsRecordable(w, agent, close);
    RecordKeepsTurn(w.rows, agent, CloseStatus(w, agent, close), SUPERVISOR, 0, ts, CloseSeen(w, agent));
  }

  /** Over any run, claims stay first in, first out. */
  lemma {:induction false} RunKeepsTurn(w: World, steps: seq<Step>, maxDepth: int)
    requires Inv(w) && InTurn(w.rows)
    ensures InTurn(Run(w, steps, maxDepth).rows)
  {
    hide Inv, InTurn, Moved;
    if steps != [] {
      var init := steps[..|steps| - 1];
      RunKeepsTurn(w, init, maxDepth);
      RunKeeps(w, init, maxDepth);
      MoveKeepsTurn(Run(w, init, maxDepth), steps[|steps| - 1], maxDepth);
    }
  }

  // ---------------------------------------------------------------------------------------------
  // What no step ever takes back.

  /** Tasks stay, newest agents never get older, owners never change, and an idle answer is never collected. */
  ghost predicate Flows(s: Snapshot, s': Snapshot) {
    && (forall t :: t in s.tasks ==> t in s'.tasks)
    && (forall t: nat {:trigger NewestAgent(s', t)} :: NewestAgent(s, t) <= NewestAgent(s', t))
    && (forall a :: a in s.attempts ==> a in s'.attempts && OwnerIn(s', a) == OwnerIn(s, a))
    && (forall a :: a in s.attempts && s.attempts[a] == Closed(IDLING) ==> s'.attempts[a] == Closed(IDLING))
  }

  lemma FlowsOn(s0: Snapshot, s1: Snapshot, s2: Snapshot)
    requires Flows(s0, s1) && Flows(s1, s2)
    ensures Flows(s0, s2)
  {
    forall t: nat
      ensures NewestAgent(s0, t) <= NewestAgent(s2, t)
    {
      assert NewestAgent(s0, t) <= NewestAgent(s1, t);
    }
  }

  lemma MovesFlow(s: Snapshot, s': Snapshot, agent: nat, state: Attempt, row: nat)
    requires Moves(s, s', agent, state, row) && s.attempts[agent] != Closed(IDLING)
    ensures Flows(s, s')
  {
  }

  lemma NewestBelow(w: World, t: nat)
    requires Inv(w)
    ensures NewestAgent(Snap(w), t) <= |w.rows.agents|
  {
    if t in Snap(w).agentsByTask {
      NewestIsLargest(Snap(w), |w.rows.events|, t);
    } else {
      assert AgentsAt(Snap(w), t) == [];
    }
  }

  lemma AddsFlow(s: Snapshot, s': Snapshot, task: nat, agent: nat, row: nat)
    requires Adds(s, s', task, agent, row) && NewestAgent(s, task) <= agent
    requires s.taskByAgent.Keys == s.attempts.Keys
    ensures Flows(s, s')
  {
  }

  lemma QueueFlows(w: World, dir: string, parent: nat, ts: int)
    requires Inv(w)
    ensures Flows(Snap(w), Snap(Queue(w, dir, parent, ts)))
  {
    hide Legal, SnapshotOf;
    QueueAdds(w, dir, parent, ts);
    NewestBelow(w, TaskFor(w.rows, dir));
    AddsFlow(Snap(w), Snap(Queue(w, dir, parent, ts)), TaskFor(w.rows, dir), |w.rows.agents| + 1, |w.rows.events| + 1);
  }

  lemma ClaimFlows(s: Snapshot, s': Snapshot, agents: seq<nat>)
    requires ClaimMoves(s, s', agents) && forall a :: a in agents ==> AttemptIn(s, a).Queued?
    ensures Flows(s, s')
  {
  }

  lemma SameRowsFlow(w: World, w': World)
    requires w'.rows == w.rows
    ensures Flows(Snap(w), Snap(w'))
  {
  }

  lemma CollectFlows(w: World, who: nat, asked: nat, ts: int)
    requires Inv(w) && Collectable(Snap(w), asked)
    ensures Flows(Snap(w), Snap(CollectedBy(w, who, asked, ts)))
  {
    hide Legal, SnapshotOf;
    var agent := Addressed(Snap(w), asked);
    CollectionIsRecordable(w, asked);
    LogMoves(w, agent, COLLECTED, WORKER, 0, ts, 0);
    MovesFlow(Snap(w), Snap(CollectedBy(w, who, asked, ts)), agent,
              NextState(Snap(w).attempts[agent], COLLECTED, WORKER, 0).value, |w.rows.events| + 1);
  }

  lemma ActFlows(w: World, act: Action, maxDepth: int, ts: int)
    requires Inv(w)
    ensures Flows(Snap(w), Snap(Act(w, act, maxDepth, ts)))
  {
    hide Inv, Flows, MayDelegate, Answerable, Collectable, ActiveFor, SnapshotOf;
    var w' := Act(w, act, maxDepth, ts);
    if Enabled(w, act, maxDepth) {
      match act
      case Delegate(who, dir) => QueueFlows(w, dir, who, ts);
      case Watch(who, dir) => QueueFlows(w, dir, who, ts);
      case Answer(agent) => QueueFlows(w, TaskOf(Snap(w), agent).dir, TaskOf(Snap(w), agent).parentAgent, ts);
      case Collect(who, asked) => CollectFlows(w, who, asked, ts);
      case Idle(who) => SameRowsFlow(w, w');
      case Halt(who) => SameRowsFlow(w, w');
      case Finish(who, kind) => SameRowsFlow(w, w');
      case Exit(who) => SameRowsFlow(w, w');
    } else {
      SameRowsFlow(w, w');
    }
  }

  lemma ClaimingFlows(w: World, limit: int, ts: int)
    requires Inv(w)
    ensures ClaimMoves(Snap(w), Snap(Claiming(w, TakenFor(w, limit), ts)), TakenFor(w, limit))
    ensures forall a :: a in TakenFor(w, limit) ==> AttemptIn(Snap(w), a).Queued?
    ensures Flows(Snap(w), Snap(Claiming(w, TakenFor(w, limit), ts)))
  {
    hide Inv, Legal;
    InvIsLegal(w);
    PrefixIsClaimable(w.rows, limit);
    ClaimSnapshot(w.rows, TakenFor(w, limit), ts);
    ClaimableAreQueued(w.rows, TakenFor(w, limit));
    ClaimFlows(Snap(w), Snap(Claiming(w, TakenFor(w, limit), ts)), TakenFor(w, limit));
  }

  lemma MoveFlows(w: World, step: Step, maxDepth: int)
    requires Inv(w)
    ensures Flows(Snap(w), Snap(Moved(w, step, maxDepth)))
  {
    hide Inv, HasNews, Act, Flows, Moves, SnapshotOf, Claiming, Launching, ClosedBy, Queue;
    var w' := Moved(w, step, maxDepth);
    if Ready(w, step.move) {
      match step.move
      case Others(act) => ActFlows(w, act, maxDepth, step.ts);
      case Claims(limit) => ClaimingFlows(w, limit, step.ts);
      case Launches(agent, pid) =>
        LaunchKeeps(w, agent, pid, step.ts);
        MovesFlow(Snap(w), Snap(w'), agent, Running(pid), |w.rows.events| + 1);
      case Closes(agent, close) =>
        CloseKeeps(w, agent, close, step.ts);
        MovesFlow(Snap(w), Snap(w'), agent,
                  if agent in w.outcomes then Closed(w.outcomes[agent].kind) else Lost(close), |w.rows.events| + 1);
      case Kills(agent) => SameRowsFlow(w, w');
      case Wakes(task) => QueueFlows(w, task.dir, task.parentAgent, step.ts);
    } else {
      SameRowsFlow(w, w');
    }
  }

  lemma {:induction false} RunFlows(w: World, steps: seq<Step>, maxDepth: int)
    requires Inv(w)
    ensures Flows(Snap(w), Snap(Run(w, steps, maxDepth)))
  {
    hide Inv, Moved, Flows, SnapshotOf;
    if steps == [] {
      SameRowsFlow(w, w);
    } else {
      var init := steps[..|steps| - 1];
      RunFlows(w, init, maxDepth);
      RunKeeps(w, init, maxDepth);
      MoveFlows(Run(w, init, maxDepth), steps[|steps| - 1], maxDepth);
      FlowsOn(Snap(w), Snap(Run(w, init, maxDepth)), Snap(Run(w, steps, maxDepth)));
    }
  }

  // ---------------------------------------------------------------------------------------------
  // The log is only ever appended to.

  lemma {:induction false} ClaimsAppend(r: Rows, agents: seq<nat>, ts: int)
    ensures r.events <= ClaimedAll(r, agents, ts).events
  {
    if agents != [] {
      ClaimsAppend(r, agents[..|agents| - 1], ts);
    }
  }

  lemma MoveAppends(w: World, step: Step, maxDepth: int)
    ensures w.rows.events <= Moved(w, step, maxDepth).rows.events
  {
    hide HasNews, Enabled, SnapshotOf, CloseStatus;
    if step.move.Claims? {
      ClaimsAppend(w.rows, TakenFor(w, step.move.limit), step.ts);
    }
  }

  lemma {:induction false} RunAppends(w: World, steps: seq<Step>, maxDepth: int)
    ensures w.rows.events <= Run(w, steps, maxDepth).rows.events
  {
    hide Moved;
    if steps != [] {
      RunAppends(w, steps[..|steps| - 1], maxDepth);
      MoveAppends(Run(w, steps[..|steps| - 1], maxDepth), steps[|steps| - 1], maxDepth);
    }
  }

  // ---------------------------------------------------------------------------------------------
  // Each wake spends an idling row of its own.

  /** A wake: the task, and the attempt of it that was idling. */
  datatype Wake = Wake(task: nat, idler: nat)

  /** The wakes of a run, in order. */
  function WakesOf(w: World, steps: seq<Step>, maxDepth: int): seq<Wake> {
    if steps == [] then []
    else
      var n := |steps| - 1;
      var before := Run(w, steps[..n], maxDepth);
      WakesOf(w, steps[..n], maxDepth) +
      match steps[n].move
      case Wakes(task) =>
        if Ready(before, steps[n].move) then [Wake(task.id, NewestAgent(Snap(before), task.id))] else []
      case _ => []
  }

  /** The attempt idled, and its task has gone on to a later one. */
  ghost predicate Spent(s: Snapshot, wake: Wake) {
    && wake.idler in s.attempts && OwnerIn(s, wake.idler) == wake.task
    && s.attempts[wake.idler] == Closed(IDLING) && wake.idler < NewestAgent(s, wake.task)
  }

  lemma SpentFlows(s: Snapshot, s': Snapshot, wake: Wake)
    requires Spent(s, wake) && Flows(s, s')
    ensures Spent(s', wake)
  {
    assert NewestAgent(s, wake.task) <= NewestAgent(s', wake.task);
  }

  /** The idling row the wake answered. */
  ghost predicate Answers(w: World, wake: Wake, row: AgentEvent) {
    IdlingRows(EventsIn(Snap(w), wake.idler)) == [row] && row in w.rows.events && row.agent == wake.idler && row.status.IDLING?
  }

  lemma SpentHasItsRow(w: World, wake: Wake) returns (row: AgentEvent)
    requires Inv(w) && Spent(Snap(w), wake)
    ensures Answers(w, wake, row)
  {
    var s := Snap(w);
    assert wake.idler in w.outcomes;
    var rows := IdlingRows(EventsIn(s, wake.idler));
    assert |rows| == 1;
    row := rows[0];
    assert rows == [row] && row in rows;
    IdlingRowsExactly(EventsIn(s, wake.idler));
    HistoryIsOrdered(w.rows.events, wake.idler);
  }

  /** A wake answers an attempt no earlier wake answered. */
  lemma WakeIsSpent(w: World, task: HarnessTask, ts: int)
    requires Inv(w) && task in Snap(w).tasks && HasNews(Snap(w), task.id)
    ensures Spent(Snap(Queue(w, task.dir, task.parentAgent, ts)), Wake(task.id, NewestAgent(Snap(w), task.id)))
    ensures forall wake {:trigger Spent(Snap(w), wake)} :: Spent(Snap(w), wake) ==> wake.idler != NewestAgent(Snap(w), task.id)
  {
    hide Legal, SnapshotOf, HasNews;
    var s, s' := Snap(w), Snap(Queue(w, task.dir, task.parentAgent, ts));
    InvIsLegal(w);
    NewsMeansIdling(w, task.id);
    TaskById(s, |w.rows.events|, task);
    NewestIsLargest(s, |w.rows.events|, task.id);
    QueueFlows(w, task.dir, task.parentAgent, ts);
    WakeSpendsItsIdle(w, task, ts);
  }

  ghost predicate AllSpent(s: Snapshot, wakes: seq<Wake>) {
    && (forall i :: 0 <= i < |wakes| ==> Spent(s, wakes[i]))
    && (forall i, j :: 0 <= i < j < |wakes| ==> wakes[i].idler != wakes[j].idler)
  }

  lemma AllSpentFlows(s: Snapshot, s': Snapshot, wakes: seq<Wake>)
    requires AllSpent(s, wakes) && Flows(s, s')
    ensures AllSpent(s', wakes)
  {
    forall i | 0 <= i < |wakes|
      ensures Spent(s', wakes[i])
    {
      SpentFlows(s, s', wakes[i]);
    }
  }

  lemma AllSpentAndOne(s: Snapshot, s': Snapshot, wakes: seq<Wake>, wake: Wake)
    requires AllSpent(s, wakes) && AllSpent(s', wakes) && Spent(s', wake)
    requires forall past {:trigger Spent(s, past)} :: Spent(s, past) ==> past.idler != wake.idler
    ensures AllSpent(s', wakes + [wake])
  {
    forall i | 0 <= i < |wakes|
      ensures wakes[i].idler != wake.idler
    {
      assert Spent(s, wakes[i]);
    }
  }

  lemma {:induction false} WakesAreSpent(w: World, steps: seq<Step>, maxDepth: int)
    requires Inv(w)
    ensures AllSpent(Snap(Run(w, steps, maxDepth)), WakesOf(w, steps, maxDepth))
  {
    hide Inv, Moved, Spent, Flows, AllSpent, SnapshotOf, HasNews;
    if steps == [] {
      NothingSpent(Snap(w));
    } else {
      var n := |steps| - 1;
      var before, wakes := Run(w, steps[..n], maxDepth), WakesOf(w, steps[..n], maxDepth);
      RunKeeps(w, steps[..n], maxDepth);
      WakesAreSpent(w, steps[..n], maxDepth);
      MoveFlows(before, steps[n], maxDepth);
      AllSpentFlows(Snap(before), Snap(Moved(before, steps[n], maxDepth)), wakes);
      if steps[n].move.Wakes? && Ready(before, steps[n].move) {
        var task := steps[n].move.task;
        WakeIsSpent(before, task, steps[n].ts);
        WakeMove(before, steps[n], maxDepth);
        AllSpentAndOne(Snap(before), Snap(Moved(before, steps[n], maxDepth)), wakes,
                       Wake(task.id, NewestAgent(Snap(before), task.id)));
      } else {
        assert WakesOf(w, steps, maxDepth) == wakes;
      }
    }
  }

  lemma NothingSpent(s: Snapshot)
    ensures AllSpent(s, [])
  {
  }

  lemma WakeMove(w: World, step: Step, maxDepth: int)
    requires step.move.Wakes? && Ready(w, step.move)
    ensures Moved(w, step, maxDepth) == Queue(w, step.move.task.dir, step.move.task.parentAgent, step.ts)
  {
  }

  /** Over a whole run the wakes map one to one into the idling rows of the log: each answers the one
      idling row of an attempt of its own task, and no two of them the same row. */
  lemma WakesInject(w: World, steps: seq<Step>, maxDepth: int) returns (rows: seq<AgentEvent>)
    requires Inv(w)
    ensures var w', wakes := Run(w, steps, maxDepth), WakesOf(w, steps, maxDepth);
      && |rows| == |wakes|
      && (forall i :: 0 <= i < |rows| ==> Answers(w', wakes[i], rows[i]) && OwnerIn(Snap(w'), rows[i].agent) == wakes[i].task)
      && (forall i, j :: 0 <= i < j < |rows| ==> rows[i] != rows[j])
  {
    hide Inv, Run, WakesOf, SnapshotOf;
    var w', wakes := Run(w, steps, maxDepth), WakesOf(w, steps, maxDepth);
    RunKeeps(w, steps, maxDepth);
    WakesAreSpent(w, steps, maxDepth);
    rows := [];
    for n := 0 to |wakes|
      invariant |rows| == n
      invariant forall i :: 0 <= i < n ==> Answers(w', wakes[i], rows[i])
    {
      var row := SpentHasItsRow(w', wakes[n]);
      rows := rows + [row];
    }
    assert forall i :: 0 <= i < |rows| ==> Spent(Snap(w'), wakes[i]);
  }

  // ---------------------------------------------------------------------------------------------
  // What the supervisor does, with the others in between, is such a run.

  ghost predicate Reaches(w: World, w': World, maxDepth: int) {
    exists steps: seq<Step> :: Run(w, steps, maxDepth) == w'
  }

  lemma {:induction false} RunSplits(w: World, a: seq<Step>, b: seq<Step>, maxDepth: int)
    ensures Run(w, a + b, maxDepth) == Run(Run(w, a, maxDepth), b, maxDepth)
  {
    hide Moved;
    if b == [] {
      assert a + b == a;
    } else {
      var n := |b| - 1;
      assert (a + b)[..|a + b| - 1] == a + b[..n] && (a + b)[|a + b| - 1] == b[n];
      RunSplits(w, a, b[..n], maxDepth);
    }
  }

  lemma ReachesSelf(w: World, maxDepth: int)
    ensures Reaches(w, w, maxDepth)
  {
    assert Run(w, [], maxDepth) == w;
  }

  lemma ReachesOn(w0: World, w1: World, w2: World, maxDepth: int)
    requires Reaches(w0, w1, maxDepth) && Reaches(w1, w2, maxDepth)
    ensures Reaches(w0, w2, maxDepth)
  {
    hide Run;
    var a :| Run(w0, a, maxDepth) == w1;
    var b :| Run(w1, b, maxDepth) == w2;
    RunSplits(w0, a, b, maxDepth);
  }

  lemma ReachesStep(w: World, step: Step, maxDepth: int)
    ensures Reaches(w, Moved(w, step, maxDepth), maxDepth)
  {
    hide Moved;
    assert [step][..0] == [] && Run(w, [], maxDepth) == w;
    assert Run(w, [step], maxDepth) == Moved(w, step, maxDepth);
  }

  lemma {:induction false} ActsReach(w: World, acts: seq<Action>, maxDepth: int, ts: int)
    ensures Reaches(w, ActAll(w, acts, maxDepth, ts), maxDepth)
    decreases |acts|
  {
    hide Act, Reaches;
    if acts == [] {
      ReachesSelf(w, maxDepth);
    } else {
      var next := Act(w, acts[0], maxDepth, ts);
      ReachesStep(w, Step(Others(acts[0]), ts), maxDepth);
      ActsReach(next, acts[1..], maxDepth, ts);
      ReachesOn(w, next, ActAll(w, acts, maxDepth, ts), maxDepth);
    }
  }

  lemma CloseReaches(v: View, agent: nat, close: AgentStatus, ts: int, maxDepth: int)
    requires Closable(v.world, agent) && IsClose(close)
    ensures Reaches(v.world, AfterClose(v, agent, close, ts).world, maxDepth)
  {
    hide Reaches, SnapshotOf;
    CloseIsClosedBy(v, agent, close, ts);
    ReachesStep(v.world, Step(Closes(agent, close), ts), maxDepth);
  }

  lemma KillAndCloseReach(v: View, agent: nat, ts: int, maxDepth: int)
    requires Closable(Killed(v.world, agent), agent)
    ensures Reaches(v.world, AfterClose(v.(world := Killed(v.world, agent)), agent, TIMED_OUT, ts).world, maxDepth)
  {
    hide Reaches, SnapshotOf, AfterClose, Closable;
    var killed := v.(world := Killed(v.world, agent));
    ReachesStep(v.world, Step(Kills(agent), ts), maxDepth);
    CloseReaches(killed, agent, TIMED_OUT, ts, maxDepth);
    ReachesOn(v.world, killed.world, AfterClose(killed, agent, TIMED_OUT, ts).world, maxDepth);
  }

  lemma TimeoutReaches(v: View, agent: nat, timeoutS: int, ts: int, maxDepth: int)
    requires Overseen(v, {}) && agent in v.live && agent in v.started
    ensures Reaches(v.world, AfterTimeout(v, agent, timeoutS, ts).world, maxDepth)
  {
    hide Inv, Reaches, AfterClose;
    if ts - v.started[agent] < timeoutS {
      ReachesSelf(v.world, maxDepth);
    } else {
      KillIsOverseen(v, {}, agent);
      LiveIsClosable(v.(world := Killed(v.world, agent)), {}, agent);
      KillAndCloseReach(v, agent, ts, maxDepth);
    }
  }

  lemma ReapReaches(v: View, agent: nat, first: seq<Action>, second: seq<Action>, maxDepth: int, timeoutS: int, ts: int)
    requires Overseen(v, {}) && agent in v.live && agent in v.started
    ensures Reaches(v.world, AfterReap(v, agent, first, second, maxDepth, timeoutS, ts).world, maxDepth)
  {
    hide Inv, Reaches, Overseen, AfterClose, AfterTimeout, WorkersOnly, ActAll, Closable;
    var polled := ActAll(v.world, first, maxDepth, ts);
    var end := AfterReap(v, agent, first, second, maxDepth, timeoutS, ts).world;
    OverseenKeepsInv(v, {});
    ActAllKeeps(v.world, first, maxDepth, ts);
    WorkersOverseen(v, {}, polled);
    ActsReach(v.world, first, maxDepth, ts);
    if agent in polled.alive {
      var later := ActAll(polled, second, maxDepth, ts);
      ActAllKeeps(polled, second, maxDepth, ts);
      WorkersOverseen(v.(world := polled), {}, later);
      ActsReach(polled, second, maxDepth, ts);
      ReachesOn(v.world, polled, later, maxDepth);
      TimeoutReaches(v.(world := later), agent, timeoutS, ts, maxDepth);
      ReachesOn(v.world, later, end, maxDepth);
    } else {
      LiveIsClosable(v.(world := polled), {}, agent);
      CloseReaches(v.(world := polled), agent, CRASHED, ts, maxDepth);
      ReachesOn(v.world, polled, end, maxDepth);
    }
  }

  lemma SpawnReaches(v: View, agent: nat, pid: Option<int>, ts: int, maxDepth: int)
    requires Inv(v.world) && AttemptIn(Snap(v.world), agent).Claimed?
    ensures Reaches(v.world, AfterSpawn(v, agent, pid, ts).world, maxDepth)
  {
    hide Inv, Reaches, SnapshotOf;
    match pid
    case Some(p) => ReachesStep(v.world, Step(Launches(agent, p), ts), maxDepth);
    case None =>
      ClaimedHasNothing(v.world, agent);
      CloseReaches(v, agent, CRASHED, ts, maxDepth);
  }

  lemma ClaimReaches(w: World, free: int, ts: int, maxDepth: int)
    ensures Reaches(w, Claiming(w, TakenFor(w, free), ts), maxDepth)
  {
    hide Reaches;
    ReachesStep(w, Step(Claims(free), ts), maxDepth);
  }

  lemma WakeReaches(w: World, task: HarnessTask, ts: int, maxDepth: int)
    requires task in Snap(w).tasks && HasNews(Snap(w), task.id)
    ensures Reaches(w, Queue(w, task.dir, task.parentAgent, ts), maxDepth)
  {
    hide Reaches, HasNews;
    ReachesStep(w, Step(Wakes(task), ts), maxDepth);
  }

  lemma ResolveReaches(v: View, todo: set<nat>, agent: nat, timeoutS: int, ts: int, maxDepth: int)
    requires Resolving(v, todo, timeoutS, ts) && agent in todo
    ensures Reaches(v.world, AfterResolve(v, agent, timeoutS, ts).world, maxDepth)
  {
    hide Inv, Reaches, StartOf, AfterClose, Resolving, Closable, AttemptIn;
    UnresolvedIsClosable(v, todo, agent, timeoutS, ts);
    if agent in v.world.alive {
      if ts - StartOf(v.world, agent).value <= timeoutS {
        ReachesSelf(v.world, maxDepth);
      } else {
        KillAndCloseReach(v, agent, ts, maxDepth);
      }
    } else {
      CloseReaches(v, agent, CRASHED, ts, maxDepth);
    }
  }

  /** Whatever a run reaches keeps the invariant and the order of claims. */
  lemma ReachedKeepsTurn(w: World, w': World, maxDepth: int)
    requires Inv(w) && Reaches(w, w', maxDepth)
    ensures Inv(w') && (InTurn(w.rows) ==> InTurn(w'.rows))
  {
    hide Inv, InTurn, Run;
    var steps :| Run(w, steps, maxDepth) == w';
    RunKeeps(w, steps, maxDepth);
    if InTurn(w.rows) {
      RunKeepsTurn(w, steps, maxDepth);
    }
  }

  lemma ReachedAppends(w: World, w': World, maxDepth: int)
    requires Reaches(w, w', maxDepth)
    ensures w.rows.events <= w'.rows.events
  {
    hide Run;
    var steps :| Run(w, steps, maxDepth) == w';
    RunAppends(w, steps, maxDepth);
  }
}
