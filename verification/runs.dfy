/** Whole runs: every action of a worker or a person keeps the invariant, and what the invariant
    says of the states a run can reach. */
module Runs {
  import opened Options
  import opened Attempts
  import opened Bus
  import opened Schedule
  import opened Protocol
  import opened Keeps
  import opened Watermarks

  // ---------------------------------------------------------------------------------------------
  // Actions keep the invariant.

  lemma InvIsLegal(w: World)
    requires Inv(w)
    ensures Legal(w.rows)
  {
  }

  lemma NewestRowBounded(s: Snapshot, rows: nat, task: nat)
    requires Sound(s, rows)
    ensures NewestRow(s, task) <= rows
  {
    var a := NewestAgent(s, task);
    if a in s.events {
      assert Recorded(s, a, rows);
      LastIdInOrder(s.events[a], rows);
    }
  }

  lemma AliveIsNewest(w: World, who: nat)
    requires Inv(w) && who in w.alive
    ensures who in Snap(w).attempts && Snap(w).attempts[who].Running?
    ensures who == NewestAgent(Snap(w), OwnerIn(Snap(w), who))
  {
    assert AttemptIn(Snap(w), who).Running?;
    assert Active(Snap(w).attempts[who]);
  }

  lemma OneOwner(s: Snapshot, rows: nat, agent: nat, task: nat, other: nat)
    requires Sound(s, rows) && agent in AgentsAt(s, task) && agent in AgentsAt(s, other)
    ensures task == other
  {
    assert Roster(s, task) && Roster(s, other);
  }

  lemma TaskById(s: Snapshot, rows: nat, child: HarnessTask)
    requires Sound(s, rows) && child in s.tasks
    ensures 1 <= child.id <= |s.tasks| && child == s.tasks[child.id - 1] && child == FindTask(s.tasks, child.id)
    ensures child.id in s.agentsByTask
  {
    var i :| 0 <= i < |s.tasks| && s.tasks[i] == child;
    FindTaskById(s.tasks, child.id, 1);
  }

  lemma CollectionIsNoted(w: World, who: nat, asked: nat)
    requires Inv(w) && CanAct(w, who) && Collectable(Snap(w), asked)
    ensures var s := Snap(w);
      CollectionNoted(s, Addressed(s, asked), Collected(IDLING, true), w.idled, CollectedBy(w, who, asked, 0).stray)
  {
    var s := Snap(w);
    var task := OwnerIn(s, asked);
    var rows := |w.rows.events|;
    forall a, child | a in w.idled && child in s.tasks && a == NewestAgent(s, OwnerIn(s, a))
      && IsChild(s, OwnerIn(s, a), child) && NewestAgent(s, child.id) == Addressed(s, asked)
      ensures child.id in CollectedBy(w, who, asked, 0).stray
    {
      TaskById(s, rows, child);
      NewestIsLargest(s, rows, child.id);
      assert Sited(s, asked);
      NewestIsLargest(s, rows, task);
      assert child.id == task;
      if CollectsOwnChild(w, who, task) {
        OneOwner(s, rows, child.parentAgent, OwnerIn(s, a), OwnerIn(s, who));
        AliveIsNewest(w, who);
        assert false;
      }
    }
  }

  lemma CollectionIsRecordable(w: World, asked: nat)
    requires Legal(w.rows) && Collectable(Snap(w), asked)
    ensures Recordable(w, Addressed(Snap(w), asked), COLLECTED, WORKER, 0, 0)
    ensures NextState(Snap(w).attempts[Addressed(Snap(w), asked)], COLLECTED, WORKER, 0).value.Collected?
  {
  }

  lemma CollectKeeps(w: World, who: nat, asked: nat, ts: int)
    requires Inv(w) && CanAct(w, who) && Collectable(Snap(w), asked)
    ensures Inv(CollectedBy(w, who, asked, ts))
  {
    CollectionIsRecordable(w, asked);
    CollectionIsNoted(w, who, asked);
    LogKeeps(w, Addressed(Snap(w), asked), COLLECTED, WORKER, 0, ts, 0, CollectedBy(w, who, asked, ts).stray);
  }

  lemma LiveChildIsAwaited(s: Snapshot, who: nat, mark: nat)
    ensures LiveChildren(s, who) != [] ==> HasReason(s, TaskOf(s, who).id, mark)
  {
    var task := TaskOf(s, who).id;
    var live := TasksWhere(s.tasks, (t: HarnessTask) => IsChild(s, task, t) && Outstanding(s, t.id));
    if live != [] {
      assert live[0] in live;
      assert Awaited(s, task, live[0], mark);
    }
  }

  lemma MeasureKeepsWatched(s: Snapshot, idled: map<nat, Measure>, who: nat, m: Measure)
    requires Watched(s, idled) && m.waiting == LiveChildren(s, who) && TaskOf(s, who).id == OwnerIn(s, who)
    ensures Watched(s, idled[who := m])
  {
    LiveChildIsAwaited(s, who, m.mark);
  }

  lemma MeasureKeepsStrays(s: Snapshot, rows: nat, idled: map<nat, Measure>, who: nat, m: Measure, stray: set<nat>)
    requires Sound(s, rows) && StraysNoted(s, idled, stray) && m.mark == rows
    ensures StraysNoted(s, idled[who := m], stray)
  {
    forall a, child | a in idled[who := m] && child in s.tasks && a == NewestAgent(s, OwnerIn(s, a))
      && TakenSince(s, OwnerIn(s, a), child, idled[who := m][a].mark)
      ensures child.id in stray
    {
      NewestRowBounded(s, rows, child.id);
      assert a != who;
    }
  }

  lemma MeasureKeepsMeasures(s: Snapshot, outcomes: map<nat, Header>, idled: map<nat, Measure>, rows: nat,
                             who: nat, m: Measure)
    requires Measures(s, outcomes, idled, rows)
    requires who in s.attempts && who !in outcomes && m.seenThrough <= m.mark <= rows
    ensures Measures(s, outcomes, idled[who := m], rows)
  {
  }

  lemma AliveOwner(w: World, who: nat)
    requires Inv(w) && who in w.alive
    ensures who in Snap(w).attempts && Snap(w).attempts[who].Running? && TaskOf(Snap(w), who).id == OwnerIn(Snap(w), who)
  {
    AliveIsNewest(w, who);
    TaskOfIsOwner(Snap(w), |w.rows.events|, who);
  }

  lemma MeasureKeepsRest(w: World, who: nat, m: Measure)
    requires Inv(w) && CanAct(w, who) && m.seenThrough <= m.mark == |w.rows.events|
    requires m.waiting == LiveChildren(Snap(w), who)
    ensures var idled := w.idled[who := m];
      && Measures(Snap(w), w.outcomes, idled, |w.rows.events|)
      && Watched(Snap(w), idled) && StraysNoted(Snap(w), idled, w.stray)
  {
    AliveOwner(w, who);
    MeasureKeepsMeasures(Snap(w), w.outcomes, w.idled, |w.rows.events|, who, m);
    MeasureKeepsWatched(Snap(w), w.idled, who, m);
    MeasureKeepsStrays(Snap(w), |w.rows.events|, w.idled, who, m, w.stray);
  }

  lemma MeasureKeeps(w: World, who: nat, seen: int)
    requires Inv(w) && CanAct(w, who) && seen <= |w.rows.events|
    ensures Inv(Measured(w, who, seen))
  {
    MeasureKeepsRest(w, who, Measure(seen, |w.rows.events|, LiveChildren(Snap(w), who)));
  }

  lemma FinishKeepsFiles(s: Snapshot, outcomes: map<nat, Header>, who: nat, h: Header)
    requires OutcomesFit(s, outcomes) && IdleRows(s, outcomes)
    requires who in s.attempts && s.attempts[who].Running? && IsVerdict(h.kind)
    ensures OutcomesFit(s, outcomes[who := h]) && IdleRows(s, outcomes[who := h])
  {
  }

  lemma FinishKeepsMeasures(s: Snapshot, outcomes: map<nat, Header>, idled: map<nat, Measure>, rows: nat,
                            who: nat, h: Header)
    requires Measures(s, outcomes, idled, rows)
    requires h.kind.IDLING? ==> who in idled && h.seenThrough == idled[who].seenThrough
    ensures Measures(s, outcomes[who := h], idled, rows)
  {
  }

  lemma FinishKeeps(w: World, who: nat, kind: AgentStatus)
    requires Inv(w) && CanAct(w, who) && IsVerdict(kind) && (kind.IDLING? ==> who in w.idled)
    ensures Inv(Finished(w, who, kind))
  {
    AliveOwner(w, who);
    var h := Header(kind, if kind.IDLING? && who in w.idled then w.idled[who].seenThrough else 0);
    FinishKeepsFiles(Snap(w), w.outcomes, who, h);
    FinishKeepsMeasures(Snap(w), w.outcomes, w.idled, |w.rows.events|, who, h);
  }

  lemma AnswerParent(w: World, agent: nat)
    requires Inv(w) && agent in Snap(w).taskByAgent
    ensures TaskOf(Snap(w), agent).parentAgent == HUMAN || TaskOf(Snap(w), agent).parentAgent in Snap(w).attempts
  {
    TaskOfIsOwner(Snap(w), |w.rows.events|, agent);
    assert ParentBefore(Snap(w), TaskOf(Snap(w), agent));
  }

  /** Every action of every worker and person keeps the invariant. */
  lemma ActKeeps(w: World, act: Action, maxDepth: int, ts: int)
    requires Inv(w)
    ensures Inv(Act(w, act, maxDepth, ts))
  {
    if Enabled(w, act, maxDepth) {
      match act
      case Delegate(who, dir) => AliveIsNewest(w, who); QueueKeeps(w, dir, who, ts);
      case Watch(who, dir) => AliveIsNewest(w, who); QueueKeeps(w, dir, who, ts);
      case Answer(agent) =>
        AnswerParent(w, agent);
        QueueKeeps(w, TaskOf(Snap(w), agent).dir, TaskOf(Snap(w), agent).parentAgent, ts);
      case Collect(who, asked) => CollectKeeps(w, who, asked, ts);
      case Idle(who) => MeasureKeeps(w, who, |w.rows.events|);
      case Halt(who) => MeasureKeeps(w, who, NO_WATERMARK);
      case Finish(who, kind) => FinishKeeps(w, who, kind);
      case Exit(who) => assert AliveRuns(Snap(w), w.alive - {who});
    }
  }

  // ---------------------------------------------------------------------------------------------
  // Why every enqueue is guarded.

  lemma ActiveTask(w: World, a: nat)
    requires Inv(w) && a in Snap(w).attempts && Active(Snap(w).attempts[a])
    ensures TaskFor(w.rows, TaskOf(Snap(w), a).dir) == OwnerIn(Snap(w), a)
  {
    TaskOfIsOwner(Snap(w), |w.rows.events|, a);
    TaskAtExact(w.rows.tasks, TaskOf(Snap(w), a).dir);
  }

  /** One attempt per task stays active exactly when the guard lets the enqueue through. So the run's
      own first enqueue, which has no guard, is safe on a store where nothing at its directory is
      active, and only there. */
  lemma GuardIsExact(w: World, dir: string, parent: nat, ts: int)
    requires Inv(w) && (parent == HUMAN || parent in Snap(w).attempts)
    ensures OneActive(Snap(Queue(w, dir, parent, ts))) <==> !ActiveFor(Snap(w), dir)
  {
    hide Inv, Legal, SnapshotOf;
    InvIsLegal(w);
    if !ActiveFor(Snap(w), dir) {
      QueueKeeps(w, dir, parent, ts);
      InvIsOneActive(Queue(w, dir, parent, ts));
    } else {
      var a :| a in Snap(w).attempts && TaskOf(Snap(w), a).dir == dir && Active(Snap(w).attempts[a]);
      ActiveTask(w, a);
      QueueAdds(w, dir, parent, ts);
      var s' := Snap(Queue(w, dir, parent, ts));
      assert Active(s'.attempts[a]) && OwnerIn(s', a) == OwnerIn(Snap(w), a);
      assert NewestAgent(s', OwnerIn(s', a)) == |w.rows.agents| + 1;
    }
  }

  lemma InvIsOneActive(w: World)
    requires Inv(w)
    ensures OneActive(Snap(w))
  {
  }

  /** A run starts from a fresh store by enqueueing its root. */
  lemma FirstEnqueueKeeps(dir: string, ts: int)
    ensures Inv(Queue(Fresh(), dir, HUMAN, ts))
  {
    FreshInv();
    QueueKeeps(Fresh(), dir, HUMAN, ts);
  }

  /** Only an attempt that ended by asking can be answered, and it ended: its question is its verdict. */
  lemma AnswerableAsked(w: World, agent: nat)
    requires Inv(w) && Answerable(Snap(w), agent)
    ensures agent in Snap(w).attempts
    ensures Snap(w).attempts[agent] == Closed(NEEDS_INPUT) || Snap(w).attempts[agent] == Collected(NEEDS_INPUT, true)
  {
    hide ActiveFor, SnapshotOf;
    assert Recorded(Snap(w), agent, |w.rows.events|);
    AskedIsTheVerdict(EventsIn(Snap(w), agent));
  }

  lemma AskedIsTheVerdict(events: seq<AgentEvent>)
    requires AttemptOf(events).Some? && exists e :: e in events && e.status.NEEDS_INPUT?
    ensures AttemptOf(events).value == Closed(NEEDS_INPUT) || AttemptOf(events).value == Collected(NEEDS_INPUT, true)
  {
    FoldIsGrammar(events);
  }
}
