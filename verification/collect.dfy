/** collect_task (tools/delegate/collect_task.py): what an agent gets for a child's answer, when the
    collection is recorded, and why neither the outcome file nor the closing row is ever missing. */
module Collecting {
  import opened Options
  import opened Attempts
  import opened Bus
  import opened Schedule
  import opened Protocol
  import opened Keeps
  import opened Runs

  /** NoFile and NoRow stand for the two exceptions the source would raise. */
  datatype Reading =
    | NoAgent
    | NotReady(state: Attempt)
    | Answer(kind: AgentStatus)
    | NoFile
    | LostAs(close: AgentStatus, row: nat)
    | NoRow

  function RowsWith(events: seq<AgentEvent>, status: AgentStatus): seq<AgentEvent> {
    if events == [] then []
    else RowsWith(events[..|events| - 1], status) +
         if events[|events| - 1].status == status then [events[|events| - 1]] else []
  }

  function ReadingOf(s: Snapshot, outcomes: map<nat, Header>, asked: nat): Reading {
    if asked !in s.taskByAgent then NoAgent
    else
      var newest := Addressed(s, asked);
      match AttemptIn(s, newest)
      case Closed(_) => if newest in outcomes then Reading.Answer(outcomes[newest].kind) else NoFile
      case Lost(close) =>
        var closing := RowsWith(EventsIn(s, newest), close);
        if closing == [] then NoRow else LostAs(close, LastId(closing))
      case state => NotReady(state)
  }

  /** Reads a child's answer and, unless the child will speak again, marks it collected. */
  method CollectTask(bus: LifecycleStore, outcomes: map<nat, Header>, asked: nat, now: int) returns (reading: Reading)
    requires Legal(bus.Contents())
    modifies bus`events
    ensures reading == ReadingOf(SnapshotOf(old(bus.Contents())), outcomes, asked)
    ensures Legal(bus.Contents())
    ensures bus.Contents() ==
            if Collectable(SnapshotOf(old(bus.Contents())), asked)
            then Appended(old(bus.Contents()), Addressed(SnapshotOf(old(bus.Contents())), asked), COLLECTED, WORKER, 0, now, 0)
            else old(bus.Contents())
  {
    hide Legal, Outstanding, Addressed, SnapshotOf;
    var snapshot := SnapshotOf(Rows(bus.tasks, bus.agents, bus.events));
    if asked !in snapshot.taskByAgent {
      return NoAgent;
    }
    var newest := Addressed(snapshot, asked);
    var state := AttemptIn(snapshot, newest);
    if Unread(state) && !Outstanding(snapshot, OwnerIn(snapshot, asked)) {
      AcceptsCollection(bus.Contents(), newest);
      var accepted := bus.Record(newest, COLLECTED, WORKER, 0, now, 0);
      assert accepted;
    }
    reading := ReadingOf(snapshot, outcomes, asked);
  }

  lemma AcceptsCollection(r: Rows, agent: nat)
    requires Legal(r) && Unread(AttemptIn(SnapshotOf(r), agent))
    ensures 1 <= agent <= |r.agents| && NextState(State(r.events, agent), COLLECTED, WORKER, 0).Some?
  {
  }

  lemma {:induction false} RowsWithLast(events: seq<AgentEvent>, rows: nat)
    requires events != [] && InOrder(events, rows)
    ensures var last := events[|events| - 1];
      && RowsWith(events, last.status) != []
      && LastId(RowsWith(events, last.status)) == last.id == LastId(events)
  {
    var last := events[|events| - 1];
    var before := RowsWith(events[..|events| - 1], last.status);
    LastIdInOrder(events, rows);
    RowsAreAmong(events[..|events| - 1], last.status);
    LastIdBelow(before, last.id);
    assert (before + [last])[..|before|] == before;
  }

  lemma {:induction false} RowsAreAmong(events: seq<AgentEvent>, status: AgentStatus)
    ensures forall e :: e in RowsWith(events, status) ==> e in events && e.status == status
  {
    if events != [] {
      RowsAreAmong(events[..|events| - 1], status);
    }
  }

  lemma {:induction false} LastIdBelow(events: seq<AgentEvent>, bound: nat)
    requires forall e :: e in events ==> e.id < bound
    ensures 0 < bound ==> LastId(events) < bound
  {
    if events != [] {
      assert events[|events| - 1] in events;
      assert forall e :: e in events[..|events| - 1] ==> e in events;
      LastIdBelow(events[..|events| - 1], bound);
    }
  }

  /** A lost attempt's closing row is its last one. */
  lemma LostEndsWithItsClose(s: Snapshot, rows: nat, agent: nat)
    requires Recorded(s, agent, rows) && s.attempts[agent].Lost?
    ensures s.events[agent][|s.events[agent]| - 1].status == s.attempts[agent].close
  {
    EndingRow(s.events[agent]);
  }

  /** Every answer read is there, and is the one the attempt ended with. */
  lemma CollectNeverFails(w: World, asked: nat)
    requires Inv(w)
    ensures var reading, newest := ReadingOf(Snap(w), w.outcomes, asked), Addressed(Snap(w), asked);
      && !reading.NoFile? && !reading.NoRow?
      && (reading.NoAgent? <==> asked !in Snap(w).taskByAgent)
      && (reading.NotReady? ==> reading.state == AttemptIn(Snap(w), newest) && !reading.state.Closed? && !reading.state.Lost?)
      && (reading.Answer? ==> AttemptIn(Snap(w), newest) == Closed(reading.kind))
      && (reading.LostAs? ==> AttemptIn(Snap(w), newest) == Lost(reading.close) && newest !in w.outcomes &&
                              reading.row == LastId(EventsIn(Snap(w), newest)))
  {
    hide Legal, SnapshotOf;
    var s, newest := Snap(w), Addressed(Snap(w), asked);
    if newest in s.attempts {
      assert Recorded(s, newest, |w.rows.events|);
      assert newest in w.outcomes ==> Spoken(s.attempts[newest], w.outcomes[newest].kind);
      if s.attempts[newest].Lost? {
        LostEndsWithItsClose(s, |w.rows.events|, newest);
        RowsWithLast(s.events[newest], |w.rows.events|);
      }
    }
  }

  /** A collection is recorded exactly when there is an answer to read that is not an idle one. */
  lemma CollectRecordsExactly(w: World, asked: nat)
    requires Inv(w)
    ensures var reading := ReadingOf(Snap(w), w.outcomes, asked);
      Collectable(Snap(w), asked) <==> (reading.Answer? && !reading.kind.IDLING?) || reading.LostAs?
  {
    hide SnapshotOf, Legal;
    CollectNeverFails(w, asked);
    if asked in Snap(w).taskByAgent {
      AddressedIsNewest(w, asked);
    }
  }

  lemma AddressedIsNewest(w: World, asked: nat)
    requires Inv(w) && asked in Snap(w).taskByAgent
    ensures var task := OwnerIn(Snap(w), asked);
      task in Snap(w).agentsByTask && Addressed(Snap(w), asked) == NewestAgent(Snap(w), task)
  {
    assert Sited(Snap(w), asked);
  }

  lemma TakesOne(s: Snapshot, s': Snapshot, agent: nat, row: nat, own: nat, task: nat)
    requires agent in s.attempts && Unread(s.attempts[agent]) && !Outstanding(s, own) && NewestAgent(s, own) == agent
    requires s.attempts[agent].Lost? ==> IsClose(s.attempts[agent].close)
    requires Moves(s, s', agent, NextState(s.attempts[agent], COLLECTED, WORKER, 0).value, row)
    requires task != own ==> NewestAgent(s, task) != agent
    ensures Unread(NewestState(s', task)) == (Unread(NewestState(s, task)) && task != own)
    ensures IsNews(s', NewestAgent(s', task)) == (IsNews(s, NewestAgent(s, task)) && task != own)
    ensures Outstanding(s', task) == Outstanding(s, task)
  {
    assert NewestState(s', task) == if task == own then NextState(s.attempts[agent], COLLECTED, WORKER, 0).value
                                    else NewestState(s, task);
  }

  lemma OwnersDiffer(w: World, asked: nat, task: HarnessTask)
    requires Inv(w) && asked in Snap(w).taskByAgent && task in Snap(w).tasks
    ensures task.id != OwnerIn(Snap(w), asked) ==> NewestAgent(Snap(w), task.id) != Addressed(Snap(w), asked)
  {
    AddressedIsNewest(w, asked);
    TaskById(Snap(w), |w.rows.events|, task);
    NewestIsLargest(Snap(w), |w.rows.events|, task.id);
    NewestIsLargest(Snap(w), |w.rows.events|, OwnerIn(Snap(w), asked));
  }

  lemma LostIsClose(w: World, agent: nat)
    requires Inv(w) && agent in Snap(w).attempts && Snap(w).attempts[agent].Lost?
    ensures IsClose(Snap(w).attempts[agent].close)
  {
  }

  /** Collecting takes that one answer, and no other child's: the unread children shrink by exactly it. */
  lemma CollectTakesOne(w: World, who: nat, asked: nat, ts: int, task: HarnessTask)
    requires Inv(w) && Collectable(Snap(w), asked) && task in Snap(w).tasks
    ensures var s, s' := Snap(w), Snap(CollectedBy(w, who, asked, ts));
      && Unread(NewestState(s', task.id)) == (Unread(NewestState(s, task.id)) && task.id != OwnerIn(s, asked))
      && IsNews(s', NewestAgent(s', task.id)) == (IsNews(s, NewestAgent(s, task.id)) && task.id != OwnerIn(s, asked))
      && Outstanding(s', task.id) == Outstanding(s, task.id)
  {
    hide Inv, Outstanding, Moves, NewestState, IsNews, Legal;
    var agent := Addressed(Snap(w), asked);
    CollectMoves(w, who, asked, ts);
    OwnersDiffer(w, asked, task);
    TakesOne(Snap(w), Snap(CollectedBy(w, who, asked, ts)), agent, |w.rows.events| + 1, OwnerIn(Snap(w), asked), task.id);
  }

  lemma CollectMoves(w: World, who: nat, asked: nat, ts: int)
    requires Inv(w) && Collectable(Snap(w), asked)
    ensures var s, agent := Snap(w), Addressed(Snap(w), asked);
      && agent in s.attempts && Unread(s.attempts[agent]) && NewestAgent(s, OwnerIn(s, asked)) == agent
      && (s.attempts[agent].Lost? ==> IsClose(s.attempts[agent].close))
      && NextState(s.attempts[agent], COLLECTED, WORKER, 0).Some?
      && Moves(s, Snap(CollectedBy(w, who, asked, ts)), agent, NextState(s.attempts[agent], COLLECTED, WORKER, 0).value,
               |w.rows.events| + 1)
  {
    hide Inv, Legal;
    InvIsLegal(w);
    AddressedIsNewest(w, asked);
    CollectionIsRecordable(w, asked);
    if AttemptIn(Snap(w), Addressed(Snap(w), asked)).Lost? {
      LostIsClose(w, Addressed(Snap(w), asked));
    }
    LogMoves(w, Addressed(Snap(w), asked), COLLECTED, WORKER, 0, ts, 0);
  }

  function Without(agents: seq<nat>, agent: nat): seq<nat> {
    if agents == [] then []
    else (if agents[0] == agent then [] else [agents[0]]) + Without(agents[1..], agent)
  }

  lemma {:induction false} WithoutIsNoLonger(agents: seq<nat>, agent: nat)
    ensures agent !in Without(agents, agent)
    ensures if agent in agents then |Without(agents, agent)| < |agents| else Without(agents, agent) == agents
  {
    if agents != [] {
      assert agents == [agents[0]] + agents[1..];
      WithoutIsNoLonger(agents[1..], agent);
    }
  }

  lemma {:induction false} FilterWithout(s: Snapshot, s': Snapshot, tasks: seq<HarnessTask>, keep: HarnessTask -> bool,
                                         keep': HarnessTask -> bool, agent: nat)
    requires forall t :: t in tasks ==> keep'(t) == (keep(t) && NewestAgent(s, t.id) != agent)
    requires forall t :: t in tasks ==> NewestAgent(s', t.id) == NewestAgent(s, t.id)
    ensures NewestOfEach(s', TasksWhere(tasks, keep')) == Without(NewestOfEach(s, TasksWhere(tasks, keep)), agent)
  {
    if tasks != [] {
      hide NewestOfEach, NewestAgent, Without;
      FilterWithout(s, s', tasks[1..], keep, keep', agent);
      var kept, kept' := TasksWhere(tasks[1..], keep), TasksWhere(tasks[1..], keep');
      NewestOfCons(s, keep(tasks[0]), tasks[0], kept);
      NewestOfCons(s', keep'(tasks[0]), tasks[0], kept');
      WithoutCons(NewestAgent(s, tasks[0].id), NewestOfEach(s, kept), agent);
    }
  }

  lemma NewestOfCons(s: Snapshot, keeping: bool, first: HarnessTask, rest: seq<HarnessTask>)
    ensures NewestOfEach(s, (if keeping then [first] else []) + rest) ==
            (if keeping then [NewestAgent(s, first.id)] else []) + NewestOfEach(s, rest)
  {
    assert [] + rest == rest && [] + NewestOfEach(s, rest) == NewestOfEach(s, rest);
  }

  lemma WithoutCons(first: nat, rest: seq<nat>, agent: nat)
    ensures Without([first] + rest, agent) == (if first == agent then [] else [first]) + Without(rest, agent)
    ensures Without([] + rest, agent) == Without(rest, agent)
  {
    assert ([first] + rest)[1..] == rest && [] + rest == rest;
  }

  /** As a session reads its children, a collection takes the collected attempt off the list and
      leaves the rest of it as it was. */
  lemma CollectShrinksUncollected(w: World, who: nat, asked: nat, ts: int, parent: nat)
    requires Inv(w) && Collectable(Snap(w), asked)
    ensures Uncollected(Snap(CollectedBy(w, who, asked, ts)), parent) ==
            Without(Uncollected(Snap(w), parent), Addressed(Snap(w), asked))
  {
    hide Inv, Collectable, NextState, CollectedBy;
    var s, s', agent := Snap(w), Snap(CollectedBy(w, who, asked, ts)), Addressed(Snap(w), asked);
    CollectMoves(w, who, asked, ts);
    var keep := (t: HarnessTask) => IsChild(s, parent, t) && Unread(AttemptIn(s, NewestAgent(s, t.id)));
    var keep' := (t: HarnessTask) => IsChild(s', parent, t) && Unread(AttemptIn(s', NewestAgent(s', t.id)));
    forall t | t in s.tasks
      ensures keep'(t) == (keep(t) && NewestAgent(s, t.id) != agent)
    {
      CollectTakesOne(w, who, asked, ts, t);
      OwnersDiffer(w, asked, t);
    }
    FilterWithout(s, s', s.tasks, keep, keep', agent);
  }

  /** No attempt is ever collected as having idled, and one that spoke still has its file. */
  lemma CollectedSpokeOrWasLost(w: World, agent: nat)
    requires Inv(w) && agent in Snap(w).attempts && Snap(w).attempts[agent].Collected?
    ensures !Snap(w).attempts[agent].ended.IDLING?
    ensures Snap(w).attempts[agent].spoke ==> agent in w.outcomes && w.outcomes[agent].kind == Snap(w).attempts[agent].ended
  {
    assert agent in w.outcomes ==> Spoken(Snap(w).attempts[agent], w.outcomes[agent].kind);
  }
}
