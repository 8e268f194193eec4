/** Every step keeps the protocol's invariant. A step moves one attempt forward (`Moves`), adds one
    queued attempt (`Adds`), or touches only what lies beside the log. */
module Keeps {
  import opened Options
  import opened Attempts
  import opened Bus
  import opened Schedule
  import opened Protocol

  // ---------------------------------------------------------------------------------------------
  // What recording a row changes in the snapshot, and what it leaves.

  ghost predicate Moves(s: Snapshot, s': Snapshot, agent: nat, state: Attempt, row: nat) {
    && agent in s.attempts
    && s'.tasks == s.tasks && s'.agentsByTask == s.agentsByTask && s'.taskByAgent == s.taskByAgent
    && s'.attempts == s.attempts[agent := state]
    && (forall t: nat :: NewestAgent(s', t) == NewestAgent(s, t))
    && (forall t: nat :: NewestState(s', t) == if NewestAgent(s, t) == agent then state else NewestState(s, t))
    && (forall t: nat :: NewestRow(s', t) == if NewestAgent(s, t) == agent then row else NewestRow(s, t))
  }

  lemma LastIdOfAppend(events: seq<AgentEvent>, e: AgentEvent, rows: nat)
    requires InOrder(events, rows) && rows < e.id
    ensures LastId(events + [e]) == e.id && InOrder(events + [e], e.id)
  {
    LastIdInOrder(events, rows);
    assert (events + [e])[..|events|] == events;
  }

  lemma IdlingRowsOfAppend(events: seq<AgentEvent>, e: AgentEvent)
    ensures IdlingRows(events + [e]) == IdlingRows(events) + if e.status.IDLING? then [e] else []
  {
    assert (events + [e])[..|events|] == events;
  }

  lemma RecordMovesRows(s: Snapshot, rows: nat, e: AgentEvent, state: Attempt)
    requires e.agent in s.events && InOrder(s.events[e.agent], rows) && e.id == rows + 1
    ensures forall t: nat :: NewestAgent(RecordedIn(s, e, state), t) == NewestAgent(s, t)
    ensures forall t: nat :: NewestRow(RecordedIn(s, e, state), t) ==
              if NewestAgent(s, t) == e.agent then e.id else NewestRow(s, t)
  {
    LastIdOfAppend(s.events[e.agent], e, rows);
  }

  lemma RecordMoves(s: Snapshot, rows: nat, e: AgentEvent, state: Attempt)
    requires Sound(s, rows) && e.agent in s.attempts && e.id == rows + 1
    ensures e.agent in s.events && Moves(s, RecordedIn(s, e, state), e.agent, state, e.id)
  {
    assert e.agent in s.events && InOrder(s.events[e.agent], rows) by {
      assert Recorded(s, e.agent, rows);
    }
    RecordMovesRows(s, rows, e, state);
  }

  lemma MovesKeepsOneActive(s: Snapshot, s': Snapshot, agent: nat, state: Attempt, row: nat)
    requires Moves(s, s', agent, state, row) && OneActive(s)
    requires Active(state) ==> Active(s.attempts[agent])
    ensures OneActive(s')
  {
  }

  ghost predicate MarksBefore(idled: map<nat, Measure>, row: nat) {
    forall a :: a in idled ==> idled[a].mark < row
  }

  lemma MovesKeepsWatched(s: Snapshot, s': Snapshot, agent: nat, state: Attempt, row: nat, idled: map<nat, Measure>)
    requires Moves(s, s', agent, state, row) && Watched(s, idled) && MarksBefore(idled, row)
    ensures Watched(s', idled)
  {
    forall a | a in idled && a == NewestAgent(s', OwnerIn(s', a)) && idled[a].waiting != []
      ensures HasReason(s', OwnerIn(s', a), idled[a].mark)
    {
      var task, mark := OwnerIn(s, a), idled[a].mark;
      assert HasReason(s, task, mark);
      var child :| child in s.tasks && Awaited(s, task, child, mark);
      assert NewestRow(s', child.id) > mark || NewestState(s', child.id) == NewestState(s, child.id);
      assert Awaited(s', task, child, mark);
    }
  }

  /** A collection is either noted as stray or no idled attempt was waiting for that child. */
  ghost predicate CollectionNoted(s: Snapshot, agent: nat, state: Attempt, idled: map<nat, Measure>, stray: set<nat>) {
    state.Collected? ==>
      forall a, child :: a in idled && child in s.tasks && a == NewestAgent(s, OwnerIn(s, a)) ==>
        IsChild(s, OwnerIn(s, a), child) && NewestAgent(s, child.id) == agent ==> child.id in stray
  }

  lemma MovesKeepsStrays(s: Snapshot, s': Snapshot, agent: nat, state: Attempt, row: nat,
                         idled: map<nat, Measure>, stray: set<nat>, stray': set<nat>)
    requires Moves(s, s', agent, state, row) && StraysNoted(s, idled, stray)
    requires stray <= stray' && CollectionNoted(s, agent, state, idled, stray')
    ensures StraysNoted(s', idled, stray')
  {
    forall a, child | a in idled && child in s.tasks && a == NewestAgent(s', OwnerIn(s', a))
      && TakenSince(s', OwnerIn(s', a), child, idled[a].mark)
      ensures child.id in stray'
    {
      if NewestAgent(s, child.id) != agent {
        assert TakenSince(s, OwnerIn(s, a), child, idled[a].mark);
      }
    }
  }

  /** What a row of each kind asks of the files and the processes. */
  ghost predicate RowFits(w: World, agent: nat, status: AgentStatus, seen: int) {
    && (IsVerdict(status) ==> agent in w.outcomes && w.outcomes[agent] == Header(status, seen) && agent !in w.alive)
    && (IsClose(status) ==> agent !in w.outcomes && agent !in w.alive)
    && (status.COLLECTED? ==> AttemptIn(Snap(w), agent) != Closed(IDLING))
  }

  lemma MovesKeepsOutcomes(s: Snapshot, s': Snapshot, outcomes: map<nat, Header>, agent: nat, status: AgentStatus,
                           source: EventSource, pid: int, seen: int, state: Attempt, row: nat)
    requires Moves(s, s', agent, state, row)
    requires OutcomesFit(s, outcomes)
    requires IsVerdict(status) ==> agent in outcomes && outcomes[agent] == Header(status, seen)
    requires IsClose(status) ==> agent !in outcomes
    requires status.COLLECTED? ==> s.attempts[agent] != Closed(IDLING)
    requires NextState(s.attempts[agent], status, source, pid) == Some(state)
    ensures OutcomesFit(s', outcomes)
  {
    StateFits(s.attempts[agent], agent in outcomes, if agent in outcomes then outcomes[agent].kind else IDLING,
              status, source, pid);
  }

  /** The one-attempt content of OutcomesFit. */
  predicate Fits(a: Attempt, written: bool, kind: AgentStatus) {
    && (written ==> Spoken(a, kind))
    && (a.Closed? ==> written)
    && (a.Lost? ==> IsClose(a.close))
    && (a.Collected? ==> !a.ended.IDLING? && (a.spoke ==> written))
  }

  lemma StateFits(a: Attempt, written: bool, kind: AgentStatus, status: AgentStatus, source: EventSource, pid: int)
    requires Fits(a, written, kind)
    requires NextState(a, status, source, pid).Some?
    requires IsVerdict(status) ==> written && kind == status
    requires IsClose(status) ==> !written
    requires status.COLLECTED? ==> a != Closed(IDLING)
    ensures Fits(NextState(a, status, source, pid).value, written, kind)
  {
  }

  lemma RecordKeepsIdleRows(s: Snapshot, outcomes: map<nat, Header>, e: AgentEvent, state: Attempt)
    requires e.agent in s.attempts && e.agent in s.events && AttemptOf(s.events[e.agent]) == Some(s.attempts[e.agent])
    requires IdleRows(s, outcomes)
    requires IsVerdict(e.status) ==> e.agent in outcomes && outcomes[e.agent] == Header(e.status, e.seenThrough)
    requires NextState(s.attempts[e.agent], e.status, e.source, e.pid) == Some(state)
    ensures IdleRows(RecordedIn(s, e, state), outcomes)
  {
    NoIdlingBefore(s.events[e.agent]);
    IdlingRowsOfAppend(s.events[e.agent], e);
  }

  lemma NoIdlingBefore(events: seq<AgentEvent>)
    requires AttemptOf(events).Some?
    ensures Active(AttemptOf(events).value) ==> IdlingRows(events) == []
  {
    FoldIsGrammar(events);
    if Active(AttemptOf(events).value) {
      NoIdlingRows(events);
    }
  }

  lemma {:induction false} NoIdlingRows(events: seq<AgentEvent>)
    requires forall e :: e in events ==> !e.status.IDLING?
    ensures IdlingRows(events) == []
  {
    if events != [] {
      NoIdlingRows(events[..|events| - 1]);
    }
  }

  /** The idling rows are all of them, and at most one where no status occurs twice. */
  lemma {:induction false} IdlingRowsExactly(events: seq<AgentEvent>)
    ensures forall e :: e in IdlingRows(events) <==> e in events && e.status.IDLING?
    ensures (forall i, j :: 0 <= i < j < |events| ==> events[i].status != events[j].status) ==> |IdlingRows(events)| <= 1
  {
    if events != [] {
      var before, last := events[..|events| - 1], events[|events| - 1];
      assert events == before + [last];
      IdlingRowsExactly(before);
      if last.status.IDLING? && forall i, j :: 0 <= i < j < |events| ==> events[i].status != events[j].status {
        NoIdlingRows(before);
      }
    }
  }

  lemma MovesKeepsAlive(s: Snapshot, s': Snapshot, agent: nat, state: Attempt, row: nat, alive: set<nat>)
    requires Moves(s, s', agent, state, row) && AliveRuns(s, alive)
    requires agent in alive ==> state.Running?
    ensures AliveRuns(s', alive)
  {
  }

  lemma MovesKeepsRooted(s: Snapshot, s': Snapshot, agent: nat, state: Attempt, row: nat)
    requires Moves(s, s', agent, state, row) && Rooted(s)
    ensures Rooted(s')
  {
    forall i | 0 <= i < |s'.tasks|
      ensures ParentBefore(s', s'.tasks[i])
    {
      assert ParentBefore(s, s.tasks[i]);
    }
  }

  lemma MovesKeepsMeasures(s: Snapshot, s': Snapshot, agent: nat, state: Attempt, row: nat,
                           outcomes: map<nat, Header>, idled: map<nat, Measure>, rows: nat)
    requires Moves(s, s', agent, state, row) && Measures(s, outcomes, idled, rows)
    ensures Measures(s', outcomes, idled, rows + 1) && MarksBefore(idled, rows + 1)
  {
  }

  lemma LogMoves(w: World, agent: nat, status: AgentStatus, source: EventSource, pid: int, ts: int, seen: int)
    requires Legal(w.rows) && agent in Snap(w).attempts
    requires NextState(Snap(w).attempts[agent], status, source, pid).Some?
    ensures
      var w' := Log(w, agent, status, source, pid, ts, seen);
      var state := NextState(Snap(w).attempts[agent], status, source, pid).value;
      var e := AgentEvent(|w.rows.events| + 1, agent, ts, status, source, pid, seen);
      && Legal(w'.rows) && Sound(Snap(w'), |w'.rows.events|)
      && !Snap(w).attempts[agent].Nascent?
      && agent in Snap(w).events && AttemptOf(Snap(w).events[agent]) == Some(Snap(w).attempts[agent])
      && Snap(w') == RecordedIn(Snap(w), e, state)
      && Moves(Snap(w), Snap(w'), agent, state, |w.rows.events| + 1)
  {
    var state := NextState(Snap(w).attempts[agent], status, source, pid).value;
    var e := AgentEvent(|w.rows.events| + 1, agent, ts, status, source, pid, seen);
    RecordSnapshot(w.rows, agent, status, source, pid, ts, seen);
    SnapshotsAreSound(Log(w, agent, status, source, pid, ts, seen).rows);
    SnapshotsAreSound(w.rows);
    assert Recorded(Snap(w), agent, |w.rows.events|);
    RecordMoves(Snap(w), |w.rows.events|, e, state);
  }

  /** The row is one the table accepts and the files and processes agree with. */
  ghost predicate Recordable(w: World, agent: nat, status: AgentStatus, source: EventSource, pid: int, seen: int) {
    && agent in Snap(w).attempts
    && NextState(Snap(w).attempts[agent], status, source, pid).Some?
    && RowFits(w, agent, status, seen)
  }

  lemma LogKeepsActive(w: World, agent: nat, status: AgentStatus, source: EventSource, pid: int, ts: int, seen: int)
    requires Legal(w.rows) && OneActive(Snap(w))
    requires Recordable(w, agent, status, source, pid, seen)
    ensures OneActive(Snap(Log(w, agent, status, source, pid, ts, seen)))
  {
    LogMoves(w, agent, status, source, pid, ts, seen);
    var s, s', row := Snap(w), Snap(Log(w, agent, status, source, pid, ts, seen)), |w.rows.events| + 1;
    var state := NextState(s.attempts[agent], status, source, pid).value;
    assert Active(state) ==> Active(s.attempts[agent]) by {
      NoReturn(s.attempts[agent], status, source, pid);
    }
    MovesKeepsOneActive(s, s', agent, state, row);
  }

  lemma NoReturn(a: Attempt, status: AgentStatus, source: EventSource, pid: int)
    requires NextState(a, status, source, pid).Some? && !a.Nascent?
    ensures Active(NextState(a, status, source, pid).value) ==> Active(a)
  {
  }

  lemma LogKeepsTree(w: World, agent: nat, status: AgentStatus, source: EventSource, pid: int, ts: int, seen: int)
    requires Legal(w.rows) && Rooted(Snap(w)) && AliveRuns(Snap(w), w.alive)
    requires Recordable(w, agent, status, source, pid, seen)
    ensures var s' := Snap(Log(w, agent, status, source, pid, ts, seen));
      Rooted(s') && AliveRuns(s', w.alive)
  {
    LogMoves(w, agent, status, source, pid, ts, seen);
    var s, s', row := Snap(w), Snap(Log(w, agent, status, source, pid, ts, seen)), |w.rows.events| + 1;
    var state := NextState(s.attempts[agent], status, source, pid).value;
    assert agent !in w.alive by {
      if s.attempts[agent].Running? {
        OnlyEndingsLeaveRunning(s.attempts[agent], status, source, pid);
      }
      assert agent in w.alive ==> AttemptIn(s, agent).Running?;
    }
    MovesKeepsAlive(s, s', agent, state, row, w.alive);
    MovesKeepsRooted(s, s', agent, state, row);
  }

  lemma OnlyEndingsLeaveRunning(a: Attempt, status: AgentStatus, source: EventSource, pid: int)
    requires NextState(a, status, source, pid).Some? && a.Running?
    ensures IsVerdict(status) || IsClose(status)
  {
  }

  lemma LogKeepsFiles(w: World, agent: nat, status: AgentStatus, source: EventSource, pid: int, ts: int, seen: int)
    requires Legal(w.rows) && OutcomesFit(Snap(w), w.outcomes) && IdleRows(Snap(w), w.outcomes)
    requires Recordable(w, agent, status, source, pid, seen)
    ensures var s' := Snap(Log(w, agent, status, source, pid, ts, seen));
      OutcomesFit(s', w.outcomes) && IdleRows(s', w.outcomes)
  {
    LogMoves(w, agent, status, source, pid, ts, seen);
    var s, s', row := Snap(w), Snap(Log(w, agent, status, source, pid, ts, seen)), |w.rows.events| + 1;
    var state := NextState(s.attempts[agent], status, source, pid).value;
    MovesKeepsOutcomes(s, s', w.outcomes, agent, status, source, pid, seen, state, row);
    RecordKeepsIdleRows(s, w.outcomes, AgentEvent(row, agent, ts, status, source, pid, seen), state);
  }

  lemma LogKeepsWaits(w: World, agent: nat, status: AgentStatus, source: EventSource, pid: int, ts: int,
                      seen: int, stray: set<nat>)
    requires Legal(w.rows) && Measures(Snap(w), w.outcomes, w.idled, |w.rows.events|)
    requires Watched(Snap(w), w.idled) && StraysNoted(Snap(w), w.idled, w.stray)
    requires Recordable(w, agent, status, source, pid, seen) && w.stray <= stray
    requires CollectionNoted(Snap(w), agent, NextState(Snap(w).attempts[agent], status, source, pid).value, w.idled, stray)
    ensures var s' := Snap(Log(w, agent, status, source, pid, ts, seen));
      Measures(s', w.outcomes, w.idled, |w.rows.events| + 1) && Watched(s', w.idled) && StraysNoted(s', w.idled, stray)
  {
    LogMoves(w, agent, status, source, pid, ts, seen);
    var s, s', row := Snap(w), Snap(Log(w, agent, status, source, pid, ts, seen)), |w.rows.events| + 1;
    var state := NextState(s.attempts[agent], status, source, pid).value;
    MovesKeepsMeasures(s, s', agent, state, row, w.outcomes, w.idled, row - 1);
    MovesKeepsWatched(s, s', agent, state, row, w.idled);
    MovesKeepsStrays(s, s', agent, state, row, w.idled, w.stray, stray);
  }

  /** Recording a row that fits keeps the invariant. */
  lemma LogKeeps(w: World, agent: nat, status: AgentStatus, source: EventSource, pid: int, ts: int, seen: int,
                 stray: set<nat>)
    requires Inv(w) && Recordable(w, agent, status, source, pid, seen) && w.stray <= stray
    requires CollectionNoted(Snap(w), agent, NextState(Snap(w).attempts[agent], status, source, pid).value, w.idled, stray)
    ensures Inv(Log(w, agent, status, source, pid, ts, seen).(stray := stray))
  {
    LogMoves(w, agent, status, source, pid, ts, seen);
    LogKeepsActive(w, agent, status, source, pid, ts, seen);
    LogKeepsTree(w, agent, status, source, pid, ts, seen);
    LogKeepsFiles(w, agent, status, source, pid, ts, seen);
    LogKeepsWaits(w, agent, status, source, pid, ts, seen, stray);
  }

  // ---------------------------------------------------------------------------------------------
  // What enqueueing changes in the snapshot, and what it leaves.

  ghost predicate Adds(s: Snapshot, s': Snapshot, task: nat, agent: nat, row: nat) {
    && agent !in s.attempts && agent !in s.taskByAgent
    && s'.attempts == s.attempts[agent := Queued]
    && s'.taskByAgent == s.taskByAgent[agent := task]
    && (forall c :: c in s.tasks ==> c in s'.tasks)
    && (forall c :: c in s'.tasks ==> c in s.tasks || c.id == task)
    && (forall t: nat :: NewestAgent(s', t) == if t == task then agent else NewestAgent(s, t))
    && (forall t: nat :: NewestState(s', t) == if t == task then Queued else NewestState(s, t))
    && (forall t: nat :: NewestRow(s', t) == if t == task then row else NewestRow(s, t))
    && (forall t: nat, c: HarnessTask :: t != task ==> IsChild(s', t, c) == IsChild(s, t, c))
  }

  lemma MaxOfAppend(xs: seq<nat>, x: nat)
    ensures Max(xs + [x]) == if x > Max(xs) then x else Max(xs)
  {
    assert (xs + [x])[..|xs|] == xs;
  }

  lemma {:induction false} MaxBelow(xs: seq<nat>, bound: nat)
    requires forall x :: x in xs ==> x < bound
    requires 0 < bound
    ensures Max(xs) < bound
    ensures xs == [] || Max(xs) in xs
  {
    if xs != [] {
      var init := xs[..|xs| - 1];
      assert xs == init + [xs[|xs| - 1]];
      assert xs[|xs| - 1] in xs;
      forall x | x in init
        ensures x < bound
      {
        assert x in xs;
      }
      MaxBelow(init, bound);
    }
  }

  lemma AddedNewest(s: Snapshot, rows: nat, task: nat, dir: string, parent: nat, agent: nat, row: nat, ts: int, t: nat)
    requires Sound(s, rows) && forall a :: a in s.attempts ==> a < agent
    requires 0 < agent
    ensures var s' := EnqueuedIn(s, task, dir, parent, agent, row, ts);
      && NewestAgent(s', t) == (if t == task then agent else NewestAgent(s, t))
      && (t != task ==> NewestAgent(s, t) != agent)
  {
    var xs := AgentsAt(s, t);
    assert t in s.agentsByTask ==> Roster(s, t);
    MaxBelow(xs, agent);
    MaxOfAppend(xs, agent);
  }

  lemma EnqueueAddsSnapshot(s: Snapshot, rows: nat, task: nat, dir: string, parent: nat, agent: nat, row: nat, ts: int)
    requires Sound(s, rows) && (forall a :: a in s.attempts ==> a < agent) && 0 < agent && 0 < row
    ensures Adds(s, EnqueuedIn(s, task, dir, parent, agent, row, ts), task, agent, row)
  {
    var s' := EnqueuedIn(s, task, dir, parent, agent, row, ts);
    assert LastId([AgentEvent(row, agent, ts, QUEUED, SUPERVISOR, 0, 0)]) == row by {
      assert [AgentEvent(row, agent, ts, QUEUED, SUPERVISOR, 0, 0)][..0] == [];
    }
    forall t: nat
      ensures NewestAgent(s', t) == if t == task then agent else NewestAgent(s, t)
      ensures NewestState(s', t) == if t == task then Queued else NewestState(s, t)
      ensures NewestRow(s', t) == if t == task then row else NewestRow(s, t)
    {
      AddedNewest(s, rows, task, dir, parent, agent, row, ts, t);
    }
  }

  lemma QueueAdds(w: World, dir: string, parent: nat, ts: int)
    requires Legal(w.rows)
    ensures var w' := Queue(w, dir, parent, ts);
      && Legal(w'.rows) && Sound(Snap(w'), |w'.rows.events|) && |w'.rows.events| == |w.rows.events| + 1
      && Adds(Snap(w), Snap(w'), TaskFor(w.rows, dir), |w.rows.agents| + 1, |w.rows.events| + 1)
      && Snap(w') == EnqueuedIn(Snap(w), TaskFor(w.rows, dir), dir, parent, |w.rows.agents| + 1, |w.rows.events| + 1, ts)
  {
    EnqueueSnapshot(w.rows, dir, parent, ts);
    SnapshotsAreSound(w.rows);
    SnapshotsAreSound(Queue(w, dir, parent, ts).rows);
    EnqueueAddsSnapshot(Snap(w), |w.rows.events|, TaskFor(w.rows, dir), dir, parent,
                        |w.rows.agents| + 1, |w.rows.events| + 1, ts);
  }

  /** No attempt of the task is queued, claimed or running. */
  ghost predicate Quiet(s: Snapshot, task: nat) {
    forall a :: a in s.attempts && OwnerIn(s, a) == task ==> !Active(s.attempts[a])
  }

  lemma GuardMeansQuiet(w: World, dir: string)
    requires Legal(w.rows) && !ActiveFor(Snap(w), dir)
    ensures Quiet(Snap(w), TaskFor(w.rows, dir))
  {
    var s := Snap(w);
    SnapshotsAreSound(w.rows);
    TaskAtExact(w.rows.tasks, dir);
    forall a | a in s.attempts && OwnerIn(s, a) == TaskFor(w.rows, dir)
      ensures !Active(s.attempts[a])
    {
      TaskOfIsOwner(s, |w.rows.events|, a);
    }
  }

  lemma AddsKeepsOneActive(s: Snapshot, s': Snapshot, task: nat, agent: nat, row: nat)
    requires Adds(s, s', task, agent, row) && OneActive(s) && Quiet(s, task) && s.taskByAgent.Keys == s.attempts.Keys
    ensures OneActive(s')
  {
    forall a | a in s'.attempts && Active(s'.attempts[a])
      ensures a == NewestAgent(s', OwnerIn(s', a))
    {
      if a != agent {
        assert OwnerIn(s, a) != task;
      }
    }
  }

  lemma AddsKeepsAlive(s: Snapshot, s': Snapshot, task: nat, agent: nat, row: nat, alive: set<nat>)
    requires Adds(s, s', task, agent, row) && AliveRuns(s, alive)
    ensures AliveRuns(s', alive)
  {
  }

  ghost predicate EventsStay(s: Snapshot, s': Snapshot) {
    && s.events.Keys == s.attempts.Keys
    && forall a :: a in s.events ==> a in s'.events && s'.events[a] == s.events[a]
  }

  lemma QueueEventsStay(w: World, dir: string, parent: nat, ts: int)
    requires Legal(w.rows)
    ensures EventsStay(Snap(w), Snap(Queue(w, dir, parent, ts)))
  {
    EnqueueSnapshot(w.rows, dir, parent, ts);
  }

  lemma AddsKeepsFiles(s: Snapshot, s': Snapshot, task: nat, agent: nat, row: nat, outcomes: map<nat, Header>)
    requires Adds(s, s', task, agent, row) && OutcomesFit(s, outcomes) && IdleRows(s, outcomes)
    requires EventsStay(s, s')
    ensures OutcomesFit(s', outcomes) && IdleRows(s', outcomes)
  {
  }

  lemma AddsKeepsMeasures(s: Snapshot, s': Snapshot, task: nat, agent: nat, row: nat,
                          outcomes: map<nat, Header>, idled: map<nat, Measure>, rows: nat)
    requires Adds(s, s', task, agent, row) && Measures(s, outcomes, idled, rows)
    ensures Measures(s', outcomes, idled, rows + 1) && agent !in idled
  {
  }

  lemma AddsKeepsWatched(s: Snapshot, s': Snapshot, task: nat, agent: nat, row: nat, idled: map<nat, Measure>)
    requires Adds(s, s', task, agent, row) && Watched(s, idled) && agent !in idled
    ensures Watched(s', idled)
  {
    forall a | a in idled && a == NewestAgent(s', OwnerIn(s', a)) && idled[a].waiting != []
      ensures HasReason(s', OwnerIn(s', a), idled[a].mark)
    {
      var owner, mark := OwnerIn(s, a), idled[a].mark;
      assert HasReason(s, owner, mark);
      var child :| child in s.tasks && Awaited(s, owner, child, mark);
      assert Outstanding(s', child.id) == if child.id == task then true else Outstanding(s, child.id) by {
        assert NewestState(s', child.id) == if child.id == task then Queued else NewestState(s, child.id);
      }
      assert Awaited(s', owner, child, mark);
    }
  }

  lemma AddsKeepsStrays(s: Snapshot, s': Snapshot, task: nat, agent: nat, row: nat, idled: map<nat, Measure>,
                        stray: set<nat>)
    requires Adds(s, s', task, agent, row) && StraysNoted(s, idled, stray) && agent !in idled
    ensures StraysNoted(s', idled, stray)
  {
    forall a, child | a in idled && child in s'.tasks && a == NewestAgent(s', OwnerIn(s', a))
      && TakenSince(s', OwnerIn(s', a), child, idled[a].mark)
      ensures child.id in stray
    {
      assert child.id != task;
      assert TakenSince(s, OwnerIn(s, a), child, idled[a].mark);
    }
  }

  lemma AddsKeepsRooted(s: Snapshot, task: nat, dir: string, parent: nat, agent: nat, row: nat, ts: int, rows: nat)
    requires Sound(s, rows) && Rooted(s) && agent !in s.attempts
    requires task in s.agentsByTask || task == |s.tasks| + 1
    requires parent == HUMAN || parent in s.attempts
    ensures Rooted(EnqueuedIn(s, task, dir, parent, agent, row, ts))
  {
    var s' := EnqueuedIn(s, task, dir, parent, agent, row, ts);
    forall i | 0 <= i < |s'.tasks|
      ensures ParentBefore(s', s'.tasks[i])
    {
      if i < |s.tasks| {
        assert ParentBefore(s, s.tasks[i]);
      } else if parent != HUMAN {
        assert Sited(s, parent);
      }
    }
  }

  lemma QueueKeepsAttempts(w: World, dir: string, parent: nat, ts: int)
    requires Legal(w.rows) && Rooted(Snap(w)) && OneActive(Snap(w)) && AliveRuns(Snap(w), w.alive)
    requires !ActiveFor(Snap(w), dir)
    requires parent == HUMAN || parent in Snap(w).attempts
    ensures var s' := Snap(Queue(w, dir, parent, ts)); Rooted(s') && OneActive(s') && AliveRuns(s', w.alive)
  {
    QueueAdds(w, dir, parent, ts);
    GuardMeansQuiet(w, dir);
    SnapshotsAreSound(w.rows);
    TaskAtExact(w.rows.tasks, dir);
    var s, s' := Snap(w), Snap(Queue(w, dir, parent, ts));
    var task, agent, row := TaskFor(w.rows, dir), |w.rows.agents| + 1, |w.rows.events| + 1;
    AddsKeepsOneActive(s, s', task, agent, row);
    AddsKeepsAlive(s, s', task, agent, row, w.alive);
    AddsKeepsRooted(s, task, dir, parent, agent, row, ts, |w.rows.events|);
  }

  lemma QueueKeepsFiles(w: World, dir: string, parent: nat, ts: int)
    requires Legal(w.rows) && OutcomesFit(Snap(w), w.outcomes) && IdleRows(Snap(w), w.outcomes)
    ensures var s' := Snap(Queue(w, dir, parent, ts)); OutcomesFit(s', w.outcomes) && IdleRows(s', w.outcomes)
  {
    QueueAdds(w, dir, parent, ts);
    QueueEventsStay(w, dir, parent, ts);
    AddsKeepsFiles(Snap(w), Snap(Queue(w, dir, parent, ts)), TaskFor(w.rows, dir),
                   |w.rows.agents| + 1, |w.rows.events| + 1, w.outcomes);
  }

  lemma QueueKeepsWaits(w: World, dir: string, parent: nat, ts: int)
    requires Legal(w.rows) && Measures(Snap(w), w.outcomes, w.idled, |w.rows.events|)
    requires Watched(Snap(w), w.idled) && StraysNoted(Snap(w), w.idled, w.stray)
    ensures var s' := Snap(Queue(w, dir, parent, ts));
      && Measures(s', w.outcomes, w.idled, |w.rows.events| + 1)
      && Watched(s', w.idled) && StraysNoted(s', w.idled, w.stray)
  {
    QueueAdds(w, dir, parent, ts);
    var s, s' := Snap(w), Snap(Queue(w, dir, parent, ts));
    var task, agent, row := TaskFor(w.rows, dir), |w.rows.agents| + 1, |w.rows.events| + 1;
    AddsKeepsMeasures(s, s', task, agent, row, w.outcomes, w.idled, |w.rows.events|);
    AddsKeepsWatched(s, s', task, agent, row, w.idled);
    AddsKeepsStrays(s, s', task, agent, row, w.idled, w.stray);
  }

  /** Enqueueing at a directory where nothing is active keeps the invariant. */
  lemma QueueKeeps(w: World, dir: string, parent: nat, ts: int)
    requires Inv(w) && !ActiveFor(Snap(w), dir)
    requires parent == HUMAN || parent in Snap(w).attempts
    ensures Inv(Queue(w, dir, parent, ts))
  {
    QueueAdds(w, dir, parent, ts);
    QueueKeepsAttempts(w, dir, parent, ts);
    QueueKeepsFiles(w, dir, parent, ts);
    QueueKeepsWaits(w, dir, parent, ts);
  }
}
