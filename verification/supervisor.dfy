/** The supervisor (supervisor/supervisor.py) over the shared store, with everyone else's steps run
    between its own: each `Yield` lets the next batch of worker and human actions happen. */
module Supervision {
  import opened Options
  import opened Attempts
  import opened Bus
  import opened Schedule
  import opened Protocol
  import opened Keeps
  import opened Runs
  import opened Wakes
  import opened Effects
  import opened Oversight
  import opened Turns
  import opened Journeys

  lemma SnapIsSnapshot(w: World)
    ensures SnapshotOf(w.rows) == Snap(w)
  {
  }

  function Batch(script: seq<seq<Action>>): seq<Action> {
    if script == [] then [] else script[0]
  }

  function Rest(script: seq<seq<Action>>): seq<seq<Action>> {
    if script == [] then [] else script[1..]
  }

  /** Everything outside the store and the supervisor: files, processes, the clock, and what the
      workers and people are going to do. */
  class Machine {
    var outcomes: map<nat, Header>
    var idled: map<nat, Measure>
    var alive: set<nat>
    var stray: set<nat>
    var clock: int
    var script: seq<seq<Action>>
    const maxDepth: int

    constructor (maxDepth: int, script: seq<seq<Action>>, clock: int)
      ensures outcomes == map[] && idled == map[] && alive == {} && stray == {}
      ensures this.script == script && this.clock == clock && this.maxDepth == maxDepth
    {
      outcomes, idled, alive, stray := map[], map[], {}, {};
      this.clock, this.script, this.maxDepth := clock, script, maxDepth;
    }

    ghost function With(rows: Rows): World
      reads this
    {
      World(rows, outcomes, idled, alive, stray)
    }

    method Yield(bus: LifecycleStore)
      requires Inv(With(bus.Contents()))
      modifies this`outcomes, this`idled, this`alive, this`stray, this`script, bus
      ensures With(bus.Contents()) == ActAll(old(With(bus.Contents())), Batch(old(script)), maxDepth, clock)
      ensures script == Rest(old(script))
      ensures Inv(With(bus.Contents())) && WorkersOnly(old(With(bus.Contents())), With(bus.Contents()))
    {
      var before := World(Rows(bus.tasks, bus.agents, bus.events), outcomes, idled, alive, stray);
      var after := ActAll(before, Batch(script), maxDepth, clock);
      ActAllKeeps(before, Batch(script), maxDepth, clock);
      bus.tasks, bus.agents, bus.events := after.rows.tasks, after.rows.agents, after.rows.events;
      outcomes, idled, alive, stray := after.outcomes, after.idled, after.alive, after.stray;
      script := Rest(script);
    }

    method Kill(agent: nat)
      modifies this`alive
      ensures alive == old(alive) - {agent}
    {
      alive := alive - {agent};
    }

    /** Starts a worker process for an attempt, or fails as the operating system may. */
    method Spawn(agent: nat) returns (pid: Option<int>)
      modifies this`alive
      ensures alive == if pid.Some? then old(alive) + {agent} else old(alive)
    {
      var started: bool, id: int := *, *;
      if started {
        alive := alive + {agent};
        pid := Some(id);
      } else {
        pid := None;
      }
    }

    method Sleep(seconds: int)
      modifies this`clock
      ensures clock == old(clock) + seconds
    {
      clock := clock + seconds;
    }
  }

  class Supervisor {
    const bus: LifecycleStore
    const machine: Machine
    const maxConcurrent: int
    const timeoutS: int
    const pollS: int
    var live: map<nat, Process>
    var started: map<nat, int>

    constructor (bus: LifecycleStore, machine: Machine, maxConcurrent: int, timeoutS: int, pollS: int)
      ensures this.bus == bus && this.machine == machine && this.maxConcurrent == maxConcurrent
      ensures this.timeoutS == timeoutS && this.pollS == pollS && live == map[] && started == map[]
    {
      this.bus, this.machine, this.maxConcurrent := bus, machine, maxConcurrent;
      this.timeoutS, this.pollS, this.live, this.started := timeoutS, pollS, map[], map[];
    }

    ghost function Now(): View
      reads this, machine, bus
    {
      View(machine.With(bus.Contents()), live, started)
    }

    method Finish(agent: nat, status: AgentStatus, seen: int)
      requires Legal(Now().world.rows) && Recordable(Now().world, agent, status, SUPERVISOR, 0, seen)
      modifies this`live, this`started, bus`events
      ensures Now() == AfterFinish(old(Now()), agent, status, machine.clock, seen)
      ensures agent !in live && agent !in started && bus.tasks == old(bus.tasks) && bus.agents == old(bus.agents)
      ensures bus.events == old(bus.events) + [AgentEvent(|bus.events|, agent, machine.clock, status, SUPERVISOR, 0, seen)]
    {
      StateInSnapshot(bus.Contents(), agent);
      var accepted := bus.Record(agent, status, SUPERVISOR, 0, machine.clock, seen);
      assert accepted;
      live := live - {agent};
      started := started - {agent};
    }

    method Close(agent: nat, close: AgentStatus)
      requires Inv(Now().world) && Closable(Now().world, agent) && IsClose(close)
      modifies this`live, this`started, bus`events
      ensures Now() == AfterClose(old(Now()), agent, close, machine.clock)
      ensures Inv(Now().world) && agent !in live && agent !in started
      ensures Settles(Now().world, agent, close) && EndsWith(bus.events, agent, close)
      ensures live == old(live) - {agent} && started == old(started) - {agent}
      ensures bus.events == old(bus.events) + [if agent in machine.outcomes
                then AgentEvent(|bus.events|, agent, machine.clock, machine.outcomes[agent].kind, SUPERVISOR, 0,
                                machine.outcomes[agent].seenThrough)
                else AgentEvent(|bus.events|, agent, machine.clock, close, SUPERVISOR, 0, 0)]
    {
      hide Inv, Legal, OutcomesFit, Settles, Closable, Recordable, SnapshotOf, AttemptIn;
      CloseIsAccepted(Now().world, agent, close);
      CloseSettles(Now(), agent, close, machine.clock);
      if agent in machine.outcomes {
        Finish(agent, machine.outcomes[agent].kind, machine.outcomes[agent].seenThrough);
      } else {
        Finish(agent, close, 0);
      }
    }

    method ReapTimeout(agent: nat)
      requires Overseen(Now(), {}) && agent in live && agent in started
      modifies this`live, this`started, machine`alive, bus`events
      ensures Now() == AfterTimeout(old(Now()), agent, timeoutS, machine.clock)
      ensures Overseen(Now(), {}) && (agent in live <==> machine.clock - old(started)[agent] < timeoutS)
      ensures agent !in live ==> Settles(Now().world, agent, TIMED_OUT) && EndsWith(bus.events, agent, TIMED_OUT)
      ensures forall a :: a in old(live) && a != agent ==> a in live
    {
      hide Inv, Overseen, Settles, Closable, EndsWith;
      TimeoutIsOverseen(Now(), agent, timeoutS, machine.clock);
      if machine.clock - started[agent] < timeoutS {
        return;
      }
      ghost var before := Now();
      machine.Kill(agent);
      assert Now() == before.(world := Killed(before.world, agent));
      KillIsOverseen(before, {}, agent);
      LiveIsClosable(Now(), {}, agent);
      OverseenKeepsInv(Now(), {});
      Close(agent, TIMED_OUT);
    }

    /** Workers and people act; nothing the supervisor tracks moves. */
    method Yield(ghost claimed: set<nat>)
      requires Overseen(Now(), claimed)
      modifies machine`outcomes, machine`idled, machine`alive, machine`stray, machine`script, bus
      ensures Now() == old(Now()).(world := ActAll(old(Now()).world, Batch(old(machine.script)), machine.maxDepth, machine.clock))
      ensures machine.script == Rest(old(machine.script)) && (old(machine.script) == [] ==> Now() == old(Now()))
      ensures Overseen(Now(), claimed) && WorkersOnly(old(Now()).world, Now().world)
      ensures Reaches(old(Now()).world, Now().world, machine.maxDepth)
    {
      hide Reaches;
      ghost var before := Now();
      ActsReach(before.world, Batch(machine.script), machine.maxDepth, machine.clock);
      machine.Yield(bus);
      WorkersOverseen(before, claimed, Now().world);
    }

    /** Polls one process, once workers have had their turn. */
    method ReapOne(agent: nat)
      requires Overseen(Now(), {}) && agent in live && agent in started
      modifies this`live, this`started, machine`outcomes, machine`idled, machine`alive, machine`stray, machine`script, bus
      ensures Now() == AfterReap(old(Now()), agent, Batch(old(machine.script)), Batch(Rest(old(machine.script))),
                                 machine.maxDepth, timeoutS, machine.clock)
      ensures |machine.script| <= |old(machine.script)|
      ensures Overseen(Now(), {}) && Reaches(old(Now()).world, Now().world, machine.maxDepth)
      ensures var polled := ActAll(old(Now()).world, Batch(old(machine.script)), machine.maxDepth, machine.clock);
        var overdue := machine.clock - old(started)[agent] >= timeoutS;
        && polled.alive <= old(machine.alive)
        && (agent in live <==> agent in polled.alive && !overdue)
        && (agent !in polled.alive ==> Settles(Now().world, agent, CRASHED) && EndsWith(bus.events, agent, CRASHED))
        && (agent in polled.alive && overdue ==> Settles(Now().world, agent, TIMED_OUT) && EndsWith(bus.events, agent, TIMED_OUT))
      ensures forall a :: a in old(live) && a != agent ==> a in live
    {
      hide Inv, Overseen, Closable, Reaches, Settles, EndsWith;
      AliveShrinks(Now().world, Batch(machine.script), machine.maxDepth, machine.clock);
      ReapIsOverseen(Now(), agent, Batch(machine.script), Batch(Rest(machine.script)), machine.maxDepth, timeoutS, machine.clock);
      ReapReaches(Now(), agent, Batch(machine.script), Batch(Rest(machine.script)), machine.maxDepth, timeoutS, machine.clock);
      Yield({});
      if agent in machine.alive {
        Yield({});
        ReapTimeout(agent);
      } else {
        LiveIsClosable(Now(), {}, agent);
        OverseenKeepsInv(Now(), {});
        Close(agent, CRASHED);
      }
    }

    /** Whoever is still live afterwards had not ended before and has not used up its time. */
    method Reap()
      requires Overseen(Now(), {})
      modifies this`live, this`started, machine`outcomes, machine`idled, machine`alive, machine`stray, machine`script, bus
      ensures Overseen(Now(), {}) && ReapedSoFar(old(Now()), Now(), {}, timeoutS, machine.clock)
      ensures |machine.script| <= |old(machine.script)|
      ensures old(machine.script) == [] ==> Progress(old(Now()), Now())
      ensures Reaches(old(Now()).world, Now().world, machine.maxDepth)
      ensures AllLeftFairly(old(Now()), Now(), timeoutS, machine.clock)
      ensures StartsOnRecord(old(bus.events), old(live), old(started)) ==> StartsOnRecord(bus.events, live, started)
    {
      hide Inv, Tracked, AfterReap, Reaches, Settles, EndsWith, LeftFairly, StartsOnRecord, ActAll;
      ghost var before := Now();
      TrackedBoth(before, {});
      ReachesSelf(before.world, machine.maxDepth);
      var todo := live.Keys;
      while todo != {}
        invariant Overseen(Now(), {}) && ReapedSoFar(before, Now(), todo, timeoutS, machine.clock)
        invariant |machine.script| <= |old(machine.script)|
        invariant old(machine.script) == [] ==> Progress(before, Now())
        invariant Reaches(before.world, Now().world, machine.maxDepth)
        invariant AllLeftFairly(before, Now(), timeoutS, machine.clock)
        decreases |todo|
      {
        var agent :| agent in todo;
        ghost var mid := Now();
        ReapStep(before, Now(), todo, agent, Batch(machine.script), Batch(Rest(machine.script)),
                 machine.maxDepth, timeoutS, machine.clock);
        assert agent in started by {
          TrackedBoth(Now(), {});
        }
        ReapOne(agent);
        ReachedAppends(mid.world, Now().world, machine.maxDepth);
        OneMoreLeft(before, mid, Now(), todo, agent, timeoutS, machine.clock);
        ReachesOn(before.world, mid.world, Now().world, machine.maxDepth);
        todo := todo - {agent};
      }
      ReachedAppends(before.world, Now().world, machine.maxDepth);
      StartsStayOnRecord(before.world.rows.events, bus.events, before.live, before.started, live, started);
    }

    /** A claimed attempt gets a process and its running row in one step, or is recorded as crashed. */
    method Spawn(agent: nat) returns (pid: Option<int>)
      requires Inv(Now().world) && AttemptIn(Snap(Now().world), agent).Claimed?
      modifies this`live, this`started, machine`alive, bus`events
      ensures Now() == AfterSpawn(old(Now()), agent, pid, machine.clock)
      ensures Inv(Now().world) && (agent in live <==> pid.Some?) && Reaches(old(Now()).world, Now().world, machine.maxDepth)
      ensures AttemptIn(Snap(Now().world), agent) == if pid.Some? then Running(pid.value) else Lost(CRASHED)
      ensures pid.Some? ==>
                && live == old(live)[agent := Spawned(pid.value)] && started == old(started)[agent := machine.clock]
                && bus.events == old(bus.events) +
                                 [AgentEvent(|bus.events|, agent, machine.clock, RUNNING, SUPERVISOR, pid.value, 0)]
      ensures pid.None? ==>
                && live == old(live) - {agent} && started == old(started) - {agent}
                && bus.events == old(bus.events) + [AgentEvent(|bus.events|, agent, machine.clock, CRASHED, SUPERVISOR, 0, 0)]
      ensures StartsOnRecord(old(bus.events), old(live), old(started)) ==> StartsOnRecord(bus.events, live, started)
    {
      hide Inv, Legal, Reaches, StartsOnRecord, Recordable, SnapshotOf, AttemptIn, State, NextState;
      ghost var before := Now();
      pid := machine.Spawn(agent);
      match pid {
        case None =>
          SpawnIsAccepted(before.world, agent, 0);
          Finish(agent, CRASHED, 0);
        case Some(id) =>
          SpawnIsAccepted(before.world, agent, id);
          var accepted := bus.Record(agent, RUNNING, SUPERVISOR, id, machine.clock, 0);
          assert accepted;
          live := live[agent := Spawned(id)];
          started := started[agent := machine.clock];
      }
      SpawnReaches(before, agent, pid, machine.clock, machine.maxDepth);
      SpawnLands(before, agent, pid, machine.clock);
      SpawnOnRecord(before.world.rows.events, bus.events, before.live, before.started, agent, pid, machine.clock);
    }

    /** Workers act, then the next attempt of the claim is spawned. */
    method SpawnNext(taken: seq<nat>, i: nat, ghost live0: map<nat, Process>, ghost started0: map<nat, int>)
      requires Ascending(taken) && i < |taken|
      requires Overseen(Now(), Remaining(taken, i)) && Begun(live0, started0, Now(), taken[..i], machine.clock)
      modifies this`live, this`started, machine`outcomes, machine`idled, machine`alive, machine`stray, machine`script, bus
      ensures Overseen(Now(), Remaining(taken, i + 1)) && Begun(live0, started0, Now(), taken[..i + 1], machine.clock)
      ensures |SpawnedIn(live)| <= |SpawnedIn(old(live))| + 1
      ensures |machine.script| <= |old(machine.script)|
      ensures old(machine.script) == [] ==> Work(Now().world) < Work(old(Now()).world)
      ensures Reaches(old(Now()).world, Now().world, machine.maxDepth)
      ensures StartsOnRecord(old(bus.events), old(live), old(started)) ==> StartsOnRecord(bus.events, live, started)
    {
      hide Inv, Overseen, Begun, AfterSpawn, Work, WorkersOnly, Snap, Reaches, StartsOnRecord;
      ghost var turn := Now();
      Yield(Remaining(taken, i));
      ghost var mid := Now();
      ReachedAppends(turn.world, mid.world, machine.maxDepth);
      StartsOnLongerRecord(turn.world.rows.events, mid.world.rows.events, live, started);
      WorkersLeaveBegun(live0, started0, turn, taken[..i], machine.clock, mid.world);
      OneFewerRemaining(taken, i);
      ClaimedIsNotLive(mid, Remaining(taken, i), taken[i]);
      OverseenKeepsInv(mid, Remaining(taken, i));
      var pid := Spawn(taken[i]);
      SpawnStep(live0, started0, mid, taken, i, pid, machine.clock);
      ReachesOn(turn.world, mid.world, Now().world, machine.maxDepth);
    }

    /** Spawns the attempts of one claim, with workers acting before each. */
    method SpawnEach(taken: seq<nat>)
      requires Overseen(Now(), Remaining(taken, 0)) && Ascending(taken)
      modifies this`live, this`started, machine`outcomes, machine`idled, machine`alive, machine`stray, machine`script, bus
      ensures Overseen(Now(), {}) && Begun(old(live), old(started), Now(), taken, machine.clock)
      ensures |SpawnedIn(live)| <= |SpawnedIn(old(live))| + |taken|
      ensures |machine.script| <= |old(machine.script)|
      ensures old(machine.script) == [] ==>
                if taken == [] then Now() == old(Now()) else Work(Now().world) < Work(old(Now()).world)
      ensures Reaches(old(Now()).world, Now().world, machine.maxDepth)
      ensures StartsOnRecord(old(bus.events), old(live), old(started)) ==> StartsOnRecord(bus.events, live, started)
    {
      hide Inv, Overseen, Begun, Work, Snap, Reaches, StartsOnRecord;
      ghost var before := Now();
      ReachesSelf(before.world, machine.maxDepth);
      NothingBegun(before, machine.clock);
      for i := 0 to |taken|
        invariant Overseen(Now(), Remaining(taken, i)) && Begun(before.live, before.started, Now(), taken[..i], machine.clock)
        invariant |SpawnedIn(live)| <= |SpawnedIn(old(live))| + i
        invariant |machine.script| <= |old(machine.script)|
        invariant old(machine.script) == [] ==>
                    if i == 0 then Now() == before else Work(Now().world) < Work(before.world)
        invariant Reaches(before.world, Now().world, machine.maxDepth)
        invariant StartsOnRecord(old(bus.events), old(live), old(started)) ==> StartsOnRecord(bus.events, live, started)
      {
        ghost var mid := Now();
        SpawnNext(taken, i, before.live, before.started);
        ReachesOn(before.world, mid.world, Now().world, machine.maxDepth);
      }
      assert taken[..|taken|] == taken && Remaining(taken, |taken|) == {};
    }

    /** Claims as many queued attempts as there are free slots, lowest ids first, and spawns each. */
    method StartQueued()
      requires Overseen(Now(), {}) && |SpawnedIn(live)| <= maxConcurrent
      modifies this`live, this`started, machine`outcomes, machine`idled, machine`alive, machine`stray, machine`script, bus
      ensures Overseen(Now(), {}) && |SpawnedIn(live)| <= maxConcurrent
      ensures var asked := ActAll(old(Now()).world, Batch(old(machine.script)), machine.maxDepth, machine.clock);
        var queue, free := QueuedAgents(asked.rows, |asked.rows.agents|), maxConcurrent - |SpawnedIn(old(live))|;
        Begun(old(live), old(started), Now(), queue[..if free <= |queue| then free else |queue|], machine.clock)
      ensures |machine.script| <= |Rest(old(machine.script))|
      ensures old(machine.script) == [] ==>
                if Taken(old(Now()).world.rows, maxConcurrent - |SpawnedIn(old(live))|) == [] then Now() == old(Now())
                else Work(Now().world) < Work(old(Now()).world)
      ensures Reaches(old(Now()).world, Now().world, machine.maxDepth)
      ensures StartsOnRecord(old(bus.events), old(live), old(started)) ==> StartsOnRecord(bus.events, live, started)
    {
      hide Inv, Overseen, Launched, Work, WorkersOnly, Reaches, StartsOnRecord;
      hide ActAll, ClaimedAll, QueuedAgents, SnapshotOf;
      ghost var before := Now();
      Yield({});
      ghost var asked := Now();
      TakenIsFront(asked.world.rows, maxConcurrent - |SpawnedIn(live)|);
      ReachedAppends(before.world, asked.world, machine.maxDepth);
      StartsOnLongerRecord(before.world.rows.events, asked.world.rows.events, live, started);
      var free := maxConcurrent - |SpawnedIn(live)|;
      if free <= 0 {
        return;
      }
      OverseenIsLegal(asked, {});
      var taken := bus.Claim(free, machine.clock);
      ClaimIsOverseen(asked, taken, machine.clock);
      ClaimReaches(asked.world, free, machine.clock, machine.maxDepth);
      ghost var held := Now();
      ReachedAppends(asked.world, held.world, machine.maxDepth);
      StartsOnLongerRecord(asked.world.rows.events, held.world.rows.events, live, started);
      SpawnEach(taken);
      ReachesOn(before.world, asked.world, held.world, machine.maxDepth);
      ReachesOn(before.world, held.world, Now().world, machine.maxDepth);
    }

    /** Enqueues another attempt for every task whose children have news, from one snapshot. */
    method WakeIdling(snapshot: Snapshot)
      requires Overseen(Now(), {}) && snapshot == Snap(Now().world)
      modifies bus
      ensures Now() == old(Now()).(world := WokenAll(old(Now()).world, Wakeable(snapshot), machine.clock))
      ensures Overseen(Now(), {}) && NobodyWakeable(Snap(Now().world)) && Progress(old(Now()), Now())
      ensures Reaches(old(Now()).world, Now().world, machine.maxDepth)
    {
      hide Reaches, Inv, Overseen, Work, Snap, NobodyWakeable, NewsIs, Legal, Enqueued, Wakeable, NewestAgent, TasksWhere;
      ghost var before := Now();
      var current := live;
      var asleep := TasksWhere(Wakeable(snapshot), (t: HarnessTask) => NewestAgent(snapshot, t.id) !in current);
      WakeableAreNotLive(before, {});
      FilterKeepsAll(Wakeable(snapshot), (t: HarnessTask) => NewestAgent(snapshot, t.id) !in current);
      OverseenKeepsInv(before, {});
      WakeableIsTheNews(before.world);
      assert asleep[0..] == asleep && asleep[..0] == [];
      ReachesSelf(before.world, machine.maxDepth);
      for i := 0 to |asleep|
        invariant Now() == before.(world := WokenAll(before.world, asleep[..i], machine.clock))
        invariant Overseen(Now(), {}) && NewsIs(Snap(Now().world), asleep[i..]) && Progress(before, Now())
        invariant Reaches(before.world, Now().world, machine.maxDepth)
      {
        ghost var mid := Now();
        FirstHasNews(Snap(mid.world), asleep[i..]);
        WakeReaches(mid.world, asleep[i], machine.clock, machine.maxDepth);
        WakesExtend(before.world, asleep, i, machine.clock);
        WakeNext(Now(), asleep[i..], machine.clock);
        OverseenIsLegal(Now(), {});
        var agent := bus.Enqueue(asleep[i].dir, asleep[i].parentAgent, machine.clock);
        ReachesOn(before.world, mid.world, Now().world, machine.maxDepth);
      }
      assert asleep[..|asleep|] == asleep && asleep[|asleep|..] == [];
      NoNewsLeft(Snap(Now().world));
    }

    /** Starts, reaps, then wakes. */
    method Tick()
      requires Overseen(Now(), {}) && |SpawnedIn(live)| <= maxConcurrent
      modifies this`live, this`started, machine`outcomes, machine`idled, machine`alive, machine`stray, machine`script, bus
      ensures Overseen(Now(), {}) && |SpawnedIn(live)| <= maxConcurrent
      ensures Young(started, machine.clock, timeoutS) && NobodyWakeable(Snap(Now().world))
      ensures |machine.script| <= |Rest(old(machine.script))|
      ensures old(machine.script) == [] ==> Progress(old(Now()), Now())
      ensures old(machine.script) == [] && Taken(old(Now()).world.rows, maxConcurrent - |SpawnedIn(old(live))|) != [] ==>
                Work(Now().world) < Work(old(Now()).world)
      ensures Reaches(old(Now()).world, Now().world, machine.maxDepth)
      ensures StartsOnRecord(old(bus.events), old(live), old(started)) ==> StartsOnRecord(bus.events, live, started)
    {
      hide StartsOnRecord, AllLeftFairly;
      hide Inv, Overseen, Begun, Work, NobodyWakeable, ReapedSoFar, ActAll, Snap, WokenAll, WorkersOnly, Taken, Young;
      hide SpawnedIn, Reaches;
      ghost var before := Now();
      StartQueued();
      ghost var begun := Now();
      Reap();
      ghost var reaped := Now();
      ReapedAreYoung(begun, Now(), timeoutS, machine.clock);
      Yield({});
      var snapshot := SnapshotOf(Rows(bus.tasks, bus.agents, bus.events));
      assert snapshot == Snap(Now().world) by {
        SnapIsSnapshot(Now().world);
      }
      ghost var seen := Now();
      WakeIdling(snapshot);
      ReachesOn(before.world, begun.world, reaped.world, machine.maxDepth);
      ReachesOn(before.world, reaped.world, seen.world, machine.maxDepth);
      ReachesOn(before.world, seen.world, Now().world, machine.maxDepth);
      ReachesOn(reaped.world, seen.world, Now().world, machine.maxDepth);
      ReachedAppends(reaped.world, Now().world, machine.maxDepth);
      StartsOnLongerRecord(reaped.world.rows.events, bus.events, live, started);
    }

    /** An attempt another supervisor left claimed or running: adopted while its process is alive and its
        time is not up, as its running row has it; killed and timed out when it is; crashed without a process. */
    method ResolveOne(agent: nat, ghost todo: set<nat>)
      requires Resolving(Now(), todo, timeoutS, machine.clock) && agent in todo
      modifies this`live, this`started, machine`alive, bus`events
      ensures Now() == AfterResolve(old(Now()), agent, timeoutS, machine.clock)
      ensures agent in old(machine.alive) ==>
                exists e :: e in old(bus.events) && e.agent == agent && e.status.RUNNING? &&
                            TakenOver(old(Now()), Now(), e, timeoutS, machine.clock)
      ensures agent !in old(machine.alive) ==> Ended(Now(), agent, CRASHED)
      ensures agent !in live ==> live == old(live) - {agent} && started == old(started) - {agent}
      ensures StartsOnRecord(old(bus.events), old(live), old(started)) ==> StartsOnRecord(bus.events, live, started)
    {
      hide Inv, Resolving, Closable, AttemptIn, AttemptPid, Settles, StartsOnRecord, EndsWith, HistoryOf, RunningRow, Legal;
      ghost var before := Now();
      UnresolvedIsClosable(Now(), todo, agent, timeoutS, machine.clock);
      ResolvingKeepsInv(Now(), todo, timeoutS, machine.clock);
      InvIsLegal(Now().world);
      FoundRowIsInTheLog(bus.Contents(), agent);
      var running := RunningRow(HistoryOf(bus.events, agent));
      if running.Some? && agent in machine.alive {
        ResolveRunning(agent, running.value, todo);
      } else {
        Close(agent, CRASHED);
        if StartsOnRecord(before.world.rows.events, before.live, before.started) {
          StartsStayOnRecord(before.world.rows.events, bus.events, before.live, before.started, live, started);
        }
      }
    }

    method ResolveRunning(agent: nat, running: AgentEvent, ghost todo: set<nat>)
      requires Resolving(Now(), todo, timeoutS, machine.clock) && agent in todo && agent in machine.alive
      requires RunningRow(HistoryOf(bus.events, agent)) == Some(running)
      requires running in bus.events && running.agent == agent && running.status.RUNNING?
      modifies this`live, this`started, machine`alive, bus`events
      ensures Now() == AfterResolve(old(Now()), agent, timeoutS, machine.clock)
      ensures TakenOver(old(Now()), Now(), running, timeoutS, machine.clock)
      ensures agent !in live ==> live == old(live) - {agent} && started == old(started) - {agent}
      ensures StartsOnRecord(old(bus.events), old(live), old(started)) ==> StartsOnRecord(bus.events, live, started)
    {
      hide Inv, Resolving, Closable, AttemptIn, AttemptPid, Settles, StartsOnRecord, EndsWith, HistoryOf, RunningRow;
      ghost var before := Now();
      UnresolvedIsClosable(Now(), todo, agent, timeoutS, machine.clock);
      KillResolving(Now(), todo, agent, timeoutS, machine.clock);
      ResolvingKeepsInv(Now().(world := Killed(Now().world, agent)), todo, timeoutS, machine.clock);
      var elapsed := machine.clock - running.ts;
      if elapsed <= timeoutS {
        live := live[agent := Adopted(running.pid)];
        started := started[agent := machine.clock - elapsed];
      } else {
        machine.Kill(agent);
        Close(agent, TIMED_OUT);
      }
      if StartsOnRecord(before.world.rows.events, before.live, before.started) {
        ResolvedOnRecord(before.world.rows.events, bus.events, before.live, before.started, live, started, running);
      }
    }

    /** Takes over what another supervisor left: every attempt still claimed or running is adopted in
        time or closed. */
    method ResolveStale()
      requires Inv(Now().world) && live == map[] && started == map[]
      modifies this`live, this`started, machine`outcomes, machine`idled, machine`alive, machine`stray, machine`script, bus
      ensures Overseen(Now(), {}) && SpawnedIn(live) == {} && AdoptedInTime(live, started, timeoutS, machine.clock)
      ensures StartsOnRecord(bus.events, live, started)
      ensures forall a, e :: a in live && e in bus.events && e.agent == a && e.status.RUNNING? ==>
                live[a] == Adopted(e.pid) && started[a] == e.ts
      ensures |machine.script| <= |old(machine.script)|
      ensures Reaches(old(Now()).world, Now().world, machine.maxDepth)
    {
      hide Inv, Legal, Resolving, AfterResolve, WorkersOnly, ActAll, AdoptedInTime, Overseen, Reaches, StartsOnRecord;
      hide TakenOver, Ended, SnapshotOf;
      ghost var start := Now();
      ReachesSelf(start.world, machine.maxDepth);
      NothingResolved(Now().world, timeoutS, machine.clock);
      NothingStarted(bus.events);
      var todo := Unreaped(SnapshotOf(Rows(bus.tasks, bus.agents, bus.events)));
      while todo != {}
        invariant Resolving(Now(), todo, timeoutS, machine.clock) && StartsOnRecord(bus.events, live, started)
        invariant |machine.script| <= |old(machine.script)|
        invariant Reaches(start.world, Now().world, machine.maxDepth)
        decreases |todo|
      {
        var agent :| agent in todo;
        ghost var before := Now();
        ResolvingKeepsInv(before, todo, timeoutS, machine.clock);
        ActsReach(before.world, Batch(machine.script), machine.maxDepth, machine.clock);
        machine.Yield(bus);
        ghost var mid := Now();
        WorkersLeaveResolving(before, todo, timeoutS, machine.clock, Now().world);
        ReachedAppends(before.world, mid.world, machine.maxDepth);
        StartsOnLongerRecord(before.world.rows.events, mid.world.rows.events, live, started);
        ResolveStep(mid, todo, agent, timeoutS, machine.clock);
        ResolveReaches(mid, todo, agent, timeoutS, machine.clock, machine.maxDepth);
        ResolveOne(agent, todo);
        ReachesOn(start.world, before.world, mid.world, machine.maxDepth);
        ReachesOn(start.world, mid.world, Now().world, machine.maxDepth);
        todo := todo - {agent};
      }
      AllResolved(Now(), timeoutS, machine.clock);
      OverseenIsLegal(Now(), {});
      StartsAreTheRows(bus.Contents(), live, started);
      NoneSpawned(live);
    }

    /** A tick, then whether to go on polling. */
    method IdleStep() returns (going: bool)
      requires Overseen(Now(), {}) && |SpawnedIn(live)| <= maxConcurrent && 1 <= maxConcurrent
      modifies this`live, this`started, machine`outcomes, machine`idled, machine`alive, machine`stray, machine`script,
               machine`clock, bus
      ensures Overseen(Now(), {}) && |SpawnedIn(live)| <= maxConcurrent
      ensures !going ==> Quiescent(Now())
      ensures going ==> machine.clock == old(machine.clock) + pollS && Young(started, old(machine.clock), timeoutS)
      ensures |machine.script| <= |Rest(old(machine.script))|
      ensures going && old(machine.script) == [] ==>
                StepsOn(old(Now()), Now(), old(machine.clock), machine.clock, timeoutS, pollS)
      ensures Reaches(old(Now()).world, Now().world, machine.maxDepth)
      ensures StartsOnRecord(old(bus.events), old(live), old(started)) ==> StartsOnRecord(bus.events, live, started)
    {
      hide Inv, Overseen, Work, NobodyWakeable, ActAll, Snap, WorkersOnly, Taken, Young, NothingActive, SpawnedIn;
      hide NothingQueued, Reaches, StartsOnRecord;
      ghost var before := Now();
      Tick();
      TrackedBoth(Now(), {});
      if live != map[] {
        StillWithinTime(started, machine.clock, timeoutS);
        machine.Sleep(pollS);
        return true;
      }
      ghost var quiet, acts := Now(), Batch(machine.script);
      Yield({});
      ReachesOn(before.world, quiet.world, Now().world, machine.maxDepth);
      ReachedAppends(quiet.world, Now().world, machine.maxDepth);
      StartsOnLongerRecord(quiet.world.rows.events, bus.events, live, started);
      OverseenIsLegal(Now(), {});
      var queued := bus.QueuedCount();
      CountIsExact(Now().world, queued);
      if queued == 0 {
        QuietEnd(quiet, acts, machine.maxDepth, machine.clock);
        return false;
      }
      if Now() == before {
        QueuedMeansProgress(before, maxConcurrent);
      }
      machine.Sleep(pollS);
      return true;
    }

    /** Runs until nothing is live, queued, claimed or running and nobody is left to wake; and then,
        if every idle saw a live child and only parents that had not idled collected, nobody idles. */
    method RunUntilIdle()
      requires Inv(Now().world) && live == map[] && started == map[] && 1 <= maxConcurrent && 0 < pollS
      modifies this`live, this`started, machine`outcomes, machine`idled, machine`alive, machine`stray, machine`script,
               machine`clock, bus
      ensures Inv(Now().world) && Quiescent(Now())
      ensures machine.stray == {} && (forall a :: a in machine.idled ==> machine.idled[a].waiting != []) ==>
                forall task :: 1 <= task <= |bus.tasks| ==> !IsIdling(Snap(Now().world), task)
      ensures Reaches(old(Now()).world, Now().world, machine.maxDepth)
      ensures InTurn(old(bus.Contents())) ==> InTurn(bus.Contents())
    {
      hide Inv, Overseen, Work, Quiescent, Snap, Young, IsIdling, Reaches, InTurn, StartsOnRecord;
      ghost var start := Now();
      ResolveStale();
      var going := true;
      while going
        invariant Overseen(Now(), {}) && |SpawnedIn(live)| <= maxConcurrent
        invariant StartsOnRecord(bus.events, live, started)
        invariant !going ==> Quiescent(Now())
        invariant Reaches(start.world, Now().world, machine.maxDepth)
        decreases going, |machine.script|, Work(Now().world), Latest(started) + timeoutS - machine.clock
      {
        ghost var before := Now();
        going := IdleStep();
        ReachesOn(start.world, before.world, Now().world, machine.maxDepth);
      }
      NobodyForgotten(Now());
      ReachedKeepsTurn(start.world, Now().world, machine.maxDepth);
    }
  }
}
