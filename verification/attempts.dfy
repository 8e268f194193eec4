/** The life of one attempt: the table of legal transitions (attempt/next_state.py) and the fold of
    an agent's rows through it (attempt/attempt_of.py). */
module Attempts {
  import opened Options

  datatype AgentStatus =
    | QUEUED | CLAIMED | RUNNING
    | COMPLETED | NEEDS_INPUT | EXHAUSTED | FAILED
    | CRASHED | TIMED_OUT
    | IDLING | COLLECTED

  datatype EventSource = SUPERVISOR | WORKER

  datatype Attempt =
    | Nascent
    | Queued
    | Claimed
    | Running(pid: int)
    | Closed(verdict: AgentStatus)
    | Lost(close: AgentStatus)
    | Collected(ended: AgentStatus, spoke: bool)

  /** One row of the log. `ts` is a reading of the one clock; the row's free text is not modelled. */
  datatype AgentEvent = AgentEvent(
    id: nat, agent: nat, ts: int, status: AgentStatus, source: EventSource, pid: int, seenThrough: int)

  predicate IsVerdict(status: AgentStatus) {
    status.COMPLETED? || status.EXHAUSTED? || status.FAILED? || status.NEEDS_INPUT? || status.IDLING?
  }

  predicate IsClose(status: AgentStatus) {
    status.CRASHED? || status.TIMED_OUT?
  }

  /** None stands for IllegalTransition. */
  function NextState(current: Attempt, status: AgentStatus, source: EventSource, pid: int): Option<Attempt> {
    if current.Nascent? && status.QUEUED? && source.SUPERVISOR? then Some(Queued)
    else if current.Queued? && status.CLAIMED? && source.SUPERVISOR? then Some(Claimed)
    else if current.Claimed? && status.RUNNING? && source.SUPERVISOR? then Some(Running(pid))
    else if current.Running? && IsVerdict(status) && source.SUPERVISOR? then Some(Closed(status))
    else if (current.Claimed? || current.Running?) && IsClose(status) && source.SUPERVISOR? then Some(Lost(status))
    else if current.Closed? && status.COLLECTED? && source.WORKER? then Some(Collected(current.verdict, true))
    else if current.Lost? && status.COLLECTED? && source.WORKER? then Some(Collected(current.close, false))
    else None
  }

  /** The left fold of a history, None as soon as one row is rejected. */
  function AttemptOf(events: seq<AgentEvent>): Option<Attempt> {
    if events == [] then Some(Nascent)
    else
      var before := AttemptOf(events[..|events| - 1]);
      var e := events[|events| - 1];
      if before.None? then None else NextState(before.value, e.status, e.source, e.pid)
  }

  predicate Active(a: Attempt) {
    a.Queued? || a.Claimed? || a.Running?
  }

  predicate Settled(a: Attempt) {
    a.Closed? || a.Lost? || a.Collected?
  }

  function Rank(a: Attempt): nat {
    match a
    case Nascent => 0
    case Queued => 1
    case Claimed => 2
    case Running(_) => 3
    case Closed(_) => 4
    case Lost(_) => 4
    case Collected(_, _) => 5
  }

  lemma AppendRow(events: seq<AgentEvent>, e: AgentEvent)
    ensures AttemptOf(events + [e]) ==
            if AttemptOf(events).None? then None
            else NextState(AttemptOf(events).value, e.status, e.source, e.pid)
  {
    assert (events + [e])[..|events|] == events;
  }

  /** A row the table accepts always moves the attempt forward, so no state is ever entered twice. */
  lemma RankRises(current: Attempt, status: AgentStatus, source: EventSource, pid: int)
    requires NextState(current, status, source, pid).Some?
    ensures Rank(current) < Rank(NextState(current, status, source, pid).value) <= 5
  {
  }

  // ---------------------------------------------------------------------------------------------
  // The table read as a grammar: the histories the fold accepts, written down without the fold.

  predicate Row(e: AgentEvent, status: AgentStatus, source: EventSource) {
    e.status == status && e.source == source
  }

  predicate Ending(e: AgentEvent) {
    e.source.SUPERVISOR? && (IsVerdict(e.status) || IsClose(e.status))
  }

  /** queued, claimed, then either running and an ending or a close, then at most one collection. */
  predicate Grammatical(h: seq<AgentEvent>) {
    && |h| <= 5
    && (|h| > 0 ==> Row(h[0], QUEUED, SUPERVISOR))
    && (|h| > 1 ==> Row(h[1], CLAIMED, SUPERVISOR))
    && (|h| > 2 ==> Row(h[2], RUNNING, SUPERVISOR) || (h[2].source.SUPERVISOR? && IsClose(h[2].status)))
    && (|h| > 3 ==> if h[2].status.RUNNING? then Ending(h[3]) else Row(h[3], COLLECTED, WORKER))
    && (|h| > 4 ==> h[2].status.RUNNING? && Row(h[4], COLLECTED, WORKER))
  }

  /** The state a grammatical history ends in, read off its length and its ending row. */
  function StateBySyntax(h: seq<AgentEvent>): Attempt
    requires Grammatical(h)
  {
    if |h| == 0 then Nascent
    else if |h| == 1 then Queued
    else if |h| == 2 then Claimed
    else if h[2].status.RUNNING? then
      if |h| == 3 then Running(h[2].pid)
      else if |h| == 4 then if IsVerdict(h[3].status) then Closed(h[3].status) else Lost(h[3].status)
      else Collected(h[3].status, IsVerdict(h[3].status))
    else
      if |h| == 3 then Lost(h[2].status) else Collected(h[2].status, false)
  }

  /** The fold accepts exactly the grammatical histories and agrees with the syntax on the state. */
  lemma {:induction false} FoldIsGrammar(h: seq<AgentEvent>)
    ensures AttemptOf(h).Some? <==> Grammatical(h)
    ensures Grammatical(h) ==> AttemptOf(h).value == StateBySyntax(h)
  {
    if h != [] {
      var init := h[..|h| - 1];
      FoldIsGrammar(init);
      assert forall i :: 0 <= i < |init| ==> init[i] == h[i];
    }
  }

  /** At most five rows, no status twice, at most one ending row; the rank is never behind the length. */
  lemma LegalHistoryShape(h: seq<AgentEvent>)
    requires AttemptOf(h).Some?
    ensures |h| <= Rank(AttemptOf(h).value) <= 5
    ensures forall i, j :: 0 <= i < j < |h| ==> h[i].status != h[j].status
    ensures forall i, j :: 0 <= i < j < |h| ==> !(Ending(h[i]) && Ending(h[j]))
  {
    FoldIsGrammar(h);
  }

  /** A settled attempt's ending row is its last one, or the last before the collection. */
  lemma EndingRow(h: seq<AgentEvent>)
    requires AttemptOf(h).Some?
    ensures AttemptOf(h).value.Closed? ==> |h| == 4 && h[3].status == AttemptOf(h).value.verdict
    ensures AttemptOf(h).value.Lost? ==> |h| >= 3 && h[|h| - 1].status == AttemptOf(h).value.close
    ensures Active(AttemptOf(h).value) ==> forall e :: e in h ==> !Ending(e)
  {
    FoldIsGrammar(h);
  }
}
