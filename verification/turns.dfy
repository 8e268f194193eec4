/** Claims are exclusive and first in, first out: over any interleaving of enqueues, claims and other
    rows, whoever has left the queue was enqueued before everyone still in it, and the claimed rows
    of the log name agents in strictly rising order. */
module Turns {
  import opened Options
  import opened Attempts
  import opened Bus
  import opened Schedule
  import opened Protocol
  import opened Keeps
  import opened Runs

  ghost predicate QueueOrder(s: Snapshot) {
    forall a, b :: a in s.attempts && b in s.attempts && s.attempts[b].Queued? && !s.attempts[a].Queued? ==> a < b
  }

  ghost predicate ClaimsRise(events: seq<AgentEvent>) {
    forall i, j :: 0 <= i < j < |events| && events[i].status.CLAIMED? && events[j].status.CLAIMED? ==>
      events[i].agent < events[j].agent
  }

  ghost predicate ClaimsAreOut(s: Snapshot, events: seq<AgentEvent>) {
    forall i :: 0 <= i < |events| && events[i].status.CLAIMED? ==> OutOfQueue(s, events[i].agent)
  }

  ghost predicate OutOfQueue(s: Snapshot, agent: nat) {
    agent in s.attempts && !s.attempts[agent].Queued?
  }

  ghost predicate InTurn(r: Rows) {
    QueueOrder(SnapshotOf(r)) && ClaimsRise(r.events) && ClaimsAreOut(SnapshotOf(r), r.events)
  }

  lemma EmptyInTurn()
    ensures InTurn(Rows([], [], []))
  {
  }

  lemma OnlyClaimsLeaveTheQueue(a: Attempt, status: AgentStatus, source: EventSource, pid: int)
    requires NextState(a, status, source, pid).Some? && !a.Nascent?
    ensures a.Queued? <==> status.CLAIMED?
    ensures !NextState(a, status, source, pid).value.Queued?
  {
  }

  /** What a row recorded for an agent does to the states. */
  ghost predicate Shifts(s: Snapshot, s': Snapshot, agent: nat, claiming: bool) {
    && agent in s.attempts && s'.attempts.Keys == s.attempts.Keys
    && (forall a :: a in s.attempts && a != agent ==> s'.attempts[a] == s.attempts[a])
    && !s'.attempts[agent].Queued? && (s.attempts[agent].Queued? <==> claiming)
  }

  lemma RecordShifts(r: Rows, agent: nat, status: AgentStatus, source: EventSource, pid: int, ts: int, seen: int)
    requires Legal(r) && agent in SnapshotOf(r).attempts
    requires NextState(SnapshotOf(r).attempts[agent], status, source, pid).Some?
    ensures Shifts(SnapshotOf(r), SnapshotOf(Appended(r, agent, status, source, pid, ts, seen)), agent, status.CLAIMED?)
  {
    SnapshotsAreSound(r);
    assert Recorded(SnapshotOf(r), agent, |r.events|);
    RecordSnapshot(r, agent, status, source, pid, ts, seen);
    OnlyClaimsLeaveTheQueue(SnapshotOf(r).attempts[agent], status, source, pid);
  }

  /** The agent is queued and nobody queued has a lower id. */
  ghost predicate First(s: Snapshot, agent: nat) {
    forall a :: a in s.attempts && s.attempts[a].Queued? ==> agent <= a
  }

  lemma ShiftKeepsQueueOrder(s: Snapshot, s': Snapshot, agent: nat, claiming: bool)
    requires QueueOrder(s) && Shifts(s, s', agent, claiming) && (claiming ==> First(s, agent))
    ensures QueueOrder(s')
  {
  }

  lemma ShiftKeepsClaimsOut(s: Snapshot, s': Snapshot, events: seq<AgentEvent>, e: AgentEvent, claiming: bool)
    requires ClaimsAreOut(s, events) && Shifts(s, s', e.agent, claiming)
    ensures ClaimsAreOut(s', events + [e])
  {
    forall i | 0 <= i < |events| && events[i].status.CLAIMED?
      ensures OutOfQueue(s', events[i].agent)
    {
      assert OutOfQueue(s, events[i].agent);
    }
  }

  /** Every agent ever claimed has a lower id than every agent still queued. */
  lemma ClaimedIsBelow(s: Snapshot, events: seq<AgentEvent>, i: nat, queued: nat)
    requires QueueOrder(s) && ClaimsAreOut(s, events)
    requires i < |events| && events[i].status.CLAIMED? && queued in s.attempts && s.attempts[queued].Queued?
    ensures events[i].agent < queued
  {
    assert OutOfQueue(s, events[i].agent);
  }

  lemma ClaimsStillRise(s: Snapshot, events: seq<AgentEvent>, e: AgentEvent)
    requires QueueOrder(s) && ClaimsAreOut(s, events) && ClaimsRise(events)
    requires e.status.CLAIMED? ==> e.agent in s.attempts && s.attempts[e.agent].Queued?
    ensures ClaimsRise(events + [e])
  {
    forall i | 0 <= i < |events| && events[i].status.CLAIMED? && e.status.CLAIMED?
      ensures events[i].agent < e.agent
    {
      ClaimedIsBelow(s, events, i, e.agent);
    }
  }

  /** Any accepted row keeps the turns, a claim provided it takes the queued attempt of lowest id. */
  lemma RecordKeepsTurn(r: Rows, agent: nat, status: AgentStatus, source: EventSource, pid: int, ts: int, seen: int)
    requires Legal(r) && InTurn(r) && agent in SnapshotOf(r).attempts
    requires NextState(SnapshotOf(r).attempts[agent], status, source, pid).Some?
    requires status.CLAIMED? ==> First(SnapshotOf(r), agent)
    ensures InTurn(Appended(r, agent, status, source, pid, ts, seen))
  {
    hide Legal, NextState;
    var s, s' := SnapshotOf(r), SnapshotOf(Appended(r, agent, status, source, pid, ts, seen));
    var e := AgentEvent(|r.events| + 1, agent, ts, status, source, pid, seen);
    RecordShifts(r, agent, status, source, pid, ts, seen);
    ShiftKeepsQueueOrder(s, s', agent, status.CLAIMED?);
    ShiftKeepsClaimsOut(s, s', r.events, e, status.CLAIMED?);
    ClaimsStillRise(s, r.events, e);
  }

  lemma AddKeepsQueueOrder(s: Snapshot, s': Snapshot, agent: nat)
    requires QueueOrder(s) && s'.attempts == s.attempts[agent := Queued] && forall a :: a in s.attempts ==> a < agent
    ensures QueueOrder(s')
  {
  }

  lemma AddKeepsClaimsOut(s: Snapshot, s': Snapshot, events: seq<AgentEvent>, e: AgentEvent)
    requires ClaimsAreOut(s, events) && s'.attempts == s.attempts[e.agent := Queued] && e.agent !in s.attempts
    requires !e.status.CLAIMED?
    ensures ClaimsAreOut(s', events + [e])
  {
    forall i | 0 <= i < |events| && events[i].status.CLAIMED?
      ensures OutOfQueue(s', events[i].agent)
    {
      assert OutOfQueue(s, events[i].agent);
    }
  }

  /** An enqueued attempt queues behind everyone. */
  lemma EnqueueKeepsTurn(r: Rows, dir: string, parent: nat, ts: int)
    requires Legal(r) && InTurn(r)
    ensures InTurn(Enqueued(r, dir, parent, ts))
  {
    hide Legal;
    var s, s' := SnapshotOf(r), SnapshotOf(Enqueued(r, dir, parent, ts));
    var e := AgentEvent(|r.events| + 1, |r.agents| + 1, ts, QUEUED, SUPERVISOR, 0, 0);
    EnqueueSnapshot(r, dir, parent, ts);
    AddKeepsQueueOrder(s, s', |r.agents| + 1);
    AddKeepsClaimsOut(s, s', r.events, e);
    ClaimsStillRise(s, r.events, e);
  }

  lemma InPrefix(xs: seq<nat>, i: nat, k: nat)
    requires k < |xs| && i <= |xs|
    ensures k < i ==> xs[k] in xs[..i]
  {
    if k < i {
      assert xs[..i][k] == xs[k];
    }
  }

  /** In the middle of a claim the next agent of the list is the lowest one still queued. */
  lemma NextIsFirst(r: Rows, taken: seq<nat>, i: nat, ts: int)
    requires Legal(r) && Claimable(r, taken) && i < |taken| && taken <= QueuedAgents(r, |r.agents|)
    ensures First(SnapshotOf(ClaimedAll(r, taken[..i], ts)), taken[i])
  {
    hide Legal, Claimable, SnapshotOf;
    var all := QueuedAgents(r, |r.agents|);
    var mid := ClaimedAll(r, taken[..i], ts);
    MiddleOfClaim(r, taken, i, ts);
    forall a | a in SnapshotOf(mid).attempts && SnapshotOf(mid).attempts[a].Queued?
      ensures taken[i] <= a
    {
      assert a in SnapshotOf(r).attempts && SnapshotOf(r).attempts[a].Queued? && a !in taken[..i];
      QueuedIsListed(r, a);
      var k :| 0 <= k < |all| && all[k] == a;
      InPrefix(all, i, k);
      assert taken[..i] == all[..i] && taken[i] == all[i];
    }
  }

  lemma MiddleOfClaim(r: Rows, taken: seq<nat>, i: nat, ts: int)
    requires Legal(r) && Claimable(r, taken) && i < |taken|
    ensures ClaimMoves(SnapshotOf(r), SnapshotOf(ClaimedAll(r, taken[..i], ts)), taken[..i])
    ensures Ascending(QueuedAgents(r, |r.agents|))
  {
    PrefixClaimable(r, taken, i);
    ClaimSnapshot(r, taken[..i], ts);
    QueuedAgentsExact(r, |r.agents|);
  }

  lemma QueuedIsListed(r: Rows, a: nat)
    requires Legal(r) && a in SnapshotOf(r).attempts && SnapshotOf(r).attempts[a].Queued?
    ensures a in QueuedAgents(r, |r.agents|)
  {
    QueuedAgentsExact(r, |r.agents|);
    StateInSnapshot(r, a);
  }

  lemma {:induction false} ClaimedAllKeepsTurn(r: Rows, taken: seq<nat>, n: nat, ts: int)
    requires Legal(r) && InTurn(r) && Claimable(r, taken) && n <= |taken| && taken <= QueuedAgents(r, |r.agents|)
    ensures Legal(ClaimedAll(r, taken[..n], ts)) && InTurn(ClaimedAll(r, taken[..n], ts))
  {
    hide Legal, InTurn, Claimable, First, SnapshotOf;
    if n > 0 {
      ClaimedAllKeepsTurn(r, taken, n - 1, ts);
      var mid := ClaimedAll(r, taken[..n - 1], ts);
      NextClaim(r, taken, n - 1, ts);
      NextIsFirst(r, taken, n - 1, ts);
      StateInSnapshot(mid, taken[n - 1]);
      RecordKeepsTurn(mid, taken[n - 1], CLAIMED, SUPERVISOR, 0, ts, 0);
      RecordSnapshot(mid, taken[n - 1], CLAIMED, SUPERVISOR, 0, ts, 0);
    }
  }

  /** A claim of any size keeps the turns. */
  lemma ClaimKeepsTurn(r: Rows, limit: int, ts: int)
    requires Legal(r) && InTurn(r)
    ensures InTurn(ClaimedAll(r, Prefix(QueuedAgents(r, |r.agents|), limit), ts))
  {
    hide Legal, InTurn;
    var taken := Prefix(QueuedAgents(r, |r.agents|), limit);
    PrefixIsClaimable(r, limit);
    assert taken[..|taken|] == taken;
    ClaimedAllKeepsTurn(r, taken, |taken|, ts);
  }

  lemma PrefixIsClaimable(r: Rows, limit: int)
    requires Legal(r)
    ensures Claimable(r, Prefix(QueuedAgents(r, |r.agents|), limit))
  {
    QueuedAgentsExact(r, |r.agents|);
    PrefixMembers(QueuedAgents(r, |r.agents|), limit);
  }

  lemma CollectKeepsTurn(w: World, who: nat, asked: nat, ts: int)
    requires Legal(w.rows) && InTurn(w.rows) && Collectable(Snap(w), asked)
    ensures InTurn(CollectedBy(w, who, asked, ts).rows)
  {
    hide InTurn;
    CollectionIsRecordable(w, asked);
    RecordKeepsTurn(w.rows, Addressed(Snap(w), asked), COLLECTED, WORKER, 0, ts, 0);
  }

  /** Whatever workers and people do keeps the turns. */
  lemma ActKeepsTurn(w: World, act: Action, maxDepth: int, ts: int)
    requires Inv(w) && InTurn(w.rows)
    ensures InTurn(Act(w, act, maxDepth, ts).rows)
  {
    hide InTurn, Collectable, Answerable, MayDelegate;
    if Enabled(w, act, maxDepth) {
      match act
      case Delegate(who, dir) => EnqueueKeepsTurn(w.rows, dir, who, ts);
      case Watch(who, dir) => EnqueueKeepsTurn(w.rows, dir, who, ts);
      case Answer(agent) => EnqueueKeepsTurn(w.rows, TaskOf(Snap(w), agent).dir, TaskOf(Snap(w), agent).parentAgent, ts);
      case Collect(who, asked) => CollectKeepsTurn(w, who, asked, ts);
      case Idle(who) =>
      case Halt(who) =>
      case Finish(who, kind) =>
      case Exit(who) =>
    }
  }

  // ---------------------------------------------------------------------------------------------
  // Any number of stores over one log: their transactions in whatever order they commit.

  datatype Operation =
    | Enqueuing(dir: string, parent: nat, ts: int)
    | TakingUpTo(limit: int, ts: int)
    | Recording(agent: nat, status: AgentStatus, source: EventSource, pid: int, ts: int, seen: int)

  /** A rejected record changes nothing. */
  function Operated(r: Rows, op: Operation): Rows {
    match op
    case Enqueuing(dir, parent, ts) => Enqueued(r, dir, parent, ts)
    case TakingUpTo(limit, ts) => ClaimedAll(r, Prefix(QueuedAgents(r, |r.agents|), limit), ts)
    case Recording(agent, status, source, pid, ts, seen) =>
      if 1 <= agent <= |r.agents| && NextState(State(r.events, agent), status, source, pid).Some?
      then Appended(r, agent, status, source, pid, ts, seen)
      else r
  }

  function OperatedAll(r: Rows, ops: seq<Operation>): Rows {
    if ops == [] then r else Operated(OperatedAll(r, ops[..|ops| - 1]), ops[|ops| - 1])
  }

  /** Only a claim records a claimed row. */
  predicate ClaimsOnlyByClaiming(op: Operation) {
    op.Recording? ==> !op.status.CLAIMED?
  }

  lemma OperationKeepsTurn(r: Rows, op: Operation)
    requires Legal(r) && InTurn(r) && ClaimsOnlyByClaiming(op)
    ensures Legal(Operated(r, op)) && InTurn(Operated(r, op))
  {
    hide Legal, InTurn, SnapshotOf;
    match op
    case Enqueuing(dir, parent, ts) =>
      EnqueueSnapshot(r, dir, parent, ts);
      EnqueueKeepsTurn(r, dir, parent, ts);
    case TakingUpTo(limit, ts) =>
      PrefixIsClaimable(r, limit);
      ClaimSnapshot(r, Prefix(QueuedAgents(r, |r.agents|), limit), ts);
      ClaimKeepsTurn(r, limit, ts);
    case Recording(agent, status, source, pid, ts, seen) =>
      if 1 <= agent <= |r.agents| && NextState(State(r.events, agent), status, source, pid).Some? {
        StateInSnapshot(r, agent);
        RecordLegal(r, agent, status, source, pid, ts, seen);
        RecordKeepsTurn(r, agent, status, source, pid, ts, seen);
      }
  }

  /** From the empty store, whatever the stores do: the log stays legal, the claimed rows name rising
      agents, and every one of them is below everyone still queued. */
  lemma {:induction false} ClaimsAreFirstInFirstOut(ops: seq<Operation>)
    requires forall op :: op in ops ==> ClaimsOnlyByClaiming(op)
    ensures var r := OperatedAll(Rows([], [], []), ops); Legal(r) && InTurn(r)
  {
    hide Legal, InTurn;
    if ops == [] {
      EmptyInTurn();
      EmptyIsLegal();
    } else {
      ClaimsAreFirstInFirstOut(ops[..|ops| - 1]);
      OperationKeepsTurn(OperatedAll(Rows([], [], []), ops[..|ops| - 1]), ops[|ops| - 1]);
    }
  }

  lemma EmptyIsLegal()
    ensures Legal(Rows([], [], []))
  {
  }
}
