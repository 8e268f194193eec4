/** The run as a transition system: the store's rows, the outcome files, what each attempt measured
    when it idled, and which worker processes are still alive. Workers and people move it through
    `Act`; the supervisor moves it by recording rows, killing processes and enqueueing. Every guard
    that precedes an enqueue or a collection is one step with the write it guards. */
module Protocol {
  import opened Options
  import opened Attempts
  import opened Bus
  import opened Schedule
  import opened Watermarks

  /** An outcome file read for its kind: contracts/outcome_header.py. */
  datatype Header = Header(kind: AgentStatus, seenThrough: int)

  /** What an attempt read when it idled: the watermark it will report, the end of the log at that
      moment, and the children it saw still at work. */
  datatype Measure = Measure(seenThrough: int, mark: nat, waiting: seq<nat>)

  /** `stray` is bookkeeping for the theorems: the tasks whose answer was collected by someone other
      than an attempt of the parent task that had not idled yet. No step reads it. */
  datatype World = World(
    rows: Rows,
    outcomes: map<nat, Header>,
    idled: map<nat, Measure>,
    alive: set<nat>,
    stray: set<nat>)

  datatype Action =
    | Delegate(who: nat, dir: string)
    | Watch(who: nat, dir: string)
    | Answer(agent: nat)
    | Collect(who: nat, asked: nat)
    | Idle(who: nat)
    | Halt(who: nat)
    | Finish(who: nat, kind: AgentStatus)
    | Exit(who: nat)

  function Snap(w: World): Snapshot {
    SnapshotOf(w.rows)
  }

  /** A worker acts while its process lives and until it has written its outcome. */
  predicate CanAct(w: World, who: nat) {
    who in w.alive && who !in w.outcomes
  }

  // ---------------------------------------------------------------------------------------------
  // What workers and people do.

  /** Depth-capped roles hold no delegate tool (session_for.py, `assemble`). */
  predicate MayDelegate(s: Snapshot, who: nat, maxDepth: int) {
    DepthOf(s, who).Some? && DepthOf(s, who).value < maxDepth
  }

  predicate Answerable(s: Snapshot, agent: nat) {
    && agent in s.taskByAgent
    && (exists e :: e in EventsIn(s, agent) && e.status.NEEDS_INPUT?)
    && !ActiveFor(s, TaskOf(s, agent).dir)
  }

  /** collect_task records COLLECTED when the newest attempt is settled and nothing is in flight. */
  predicate Collectable(s: Snapshot, asked: nat) {
    && asked in s.taskByAgent
    && Unread(AttemptIn(s, Addressed(s, asked)))
    && !Outstanding(s, OwnerIn(s, asked))
  }

  /** The collector is an attempt of the parent task that has not idled. */
  predicate CollectsOwnChild(w: World, who: nat, task: nat) {
    var s := Snap(w);
    who !in w.idled && IsChild(s, OwnerIn(s, who), FindTask(s.tasks, task))
  }

  function Queue(w: World, dir: string, parent: nat, ts: int): World {
    w.(rows := Enqueued(w.rows, dir, parent, ts))
  }

  function Log(w: World, agent: nat, status: AgentStatus, source: EventSource, pid: int, ts: int, seen: int): World {
    w.(rows := Appended(w.rows, agent, status, source, pid, ts, seen))
  }

  function CollectedBy(w: World, who: nat, asked: nat, ts: int): World {
    var task := OwnerIn(Snap(w), asked);
    Log(w, Addressed(Snap(w), asked), COLLECTED, WORKER, 0, ts, 0).(
      stray := if CollectsOwnChild(w, who, task) then w.stray else w.stray + {task})
  }

  function Measured(w: World, who: nat, seen: int): World {
    w.(idled := w.idled[who := Measure(seen, |w.rows.events|, LiveChildren(Snap(w), who))])
  }

  function Finished(w: World, who: nat, kind: AgentStatus): World {
    w.(outcomes := w.outcomes[who :=
      Header(kind, if kind.IDLING? && who in w.idled then w.idled[who].seenThrough else 0)])
  }

  predicate Enabled(w: World, act: Action, maxDepth: int) {
    var s := Snap(w);
    match act
    case Delegate(who, dir) => CanAct(w, who) && MayDelegate(s, who, maxDepth) && !ActiveFor(s, dir)
    case Watch(who, dir) => CanAct(w, who) && !ActiveFor(s, dir)
    case Answer(agent) => Answerable(s, agent)
    case Collect(who, asked) => CanAct(w, who) && Collectable(s, asked)
    case Idle(who) => CanAct(w, who) && who !in w.idled
    case Halt(who) => CanAct(w, who) && who !in w.idled && LiveChildren(s, who) != []
    case Finish(who, kind) => CanAct(w, who) && IsVerdict(kind) && (kind.IDLING? ==> who in w.idled)
    case Exit(who) => who in w.alive
  }

  /** One action; a disabled one is refused and changes nothing. */
  function Act(w: World, act: Action, maxDepth: int, ts: int): World {
    if !Enabled(w, act, maxDepth) then w
    else
      match act
      case Delegate(who, dir) => Queue(w, dir, who, ts)
      case Watch(who, dir) => Queue(w, dir, who, ts)
      case Answer(agent) => var task := TaskOf(Snap(w), agent); Queue(w, task.dir, task.parentAgent, ts)
      case Collect(who, asked) => CollectedBy(w, who, asked, ts)
      case Idle(who) => Measured(w, who, |w.rows.events|)
      case Halt(who) => Measured(w, who, NO_WATERMARK)
      case Finish(who, kind) => Finished(w, who, kind)
      case Exit(who) => w.(alive := w.alive - {who})
  }

  // ---------------------------------------------------------------------------------------------
  // The invariant.

  function NewestState(s: Snapshot, task: nat): Attempt {
    AttemptIn(s, NewestAgent(s, task))
  }

  function NewestRow(s: Snapshot, task: nat): nat {
    LastId(EventsIn(s, NewestAgent(s, task)))
  }

  /** At most one attempt of a task is queued, claimed or running, and it is the newest. */
  ghost predicate OneActive(s: Snapshot) {
    forall a {:trigger Active(s.attempts[a])} ::
      a in s.attempts && Active(s.attempts[a]) ==> a == NewestAgent(s, OwnerIn(s, a))
  }

  ghost predicate AliveRuns(s: Snapshot, alive: set<nat>) {
    forall a :: a in alive ==> AttemptIn(s, a).Running?
  }

  /** An outcome file belongs to a running attempt or to one closed as that file says; an attempt
      closed by a verdict has its file, a lost one has none, and an idle answer is never collected. */
  ghost predicate OutcomesFit(s: Snapshot, outcomes: map<nat, Header>) {
    && (forall a :: a in outcomes ==> a in s.attempts && Spoken(s.attempts[a], outcomes[a].kind))
    && (forall a :: a in s.attempts ==> (s.attempts[a].Closed? ==> a in outcomes))
    && (forall a :: a in s.attempts ==> (s.attempts[a].Lost? ==> IsClose(s.attempts[a].close)))
    && (forall a :: a in s.attempts && s.attempts[a].Collected? ==>
          !s.attempts[a].ended.IDLING? && (s.attempts[a].spoke ==> a in outcomes))
  }

  predicate Spoken(a: Attempt, kind: AgentStatus) {
    IsVerdict(kind) && (a.Running? || a == Closed(kind) || a == Collected(kind, true))
  }

  /** An attempt closed as idling has one idling row, carrying its outcome's watermark. */
  ghost predicate IdleRows(s: Snapshot, outcomes: map<nat, Header>) {
    forall a :: a in s.attempts && s.attempts[a] == Closed(IDLING) && a in outcomes ==>
      |IdlingRows(EventsIn(s, a))| == 1 && IdlingRows(EventsIn(s, a))[0].seenThrough == outcomes[a].seenThrough
  }

  ghost predicate Measures(s: Snapshot, outcomes: map<nat, Header>, idled: map<nat, Measure>, rows: nat) {
    && (forall a :: a in idled ==> a in s.attempts && idled[a].seenThrough <= idled[a].mark <= rows)
    && (forall a :: a in outcomes && outcomes[a].kind.IDLING? ==>
          a in idled && outcomes[a].seenThrough == idled[a].seenThrough)
  }

  /** Something an idled attempt can still be woken for, or that someone took from it. */
  ghost predicate Awaited(s: Snapshot, task: nat, child: HarnessTask, mark: nat) {
    IsChild(s, task, child) && (Outstanding(s, child.id) || NewestRow(s, child.id) > mark)
  }

  /** An attempt that saw a live child when it idled is never left without a reason to be woken. */
  ghost predicate Watched(s: Snapshot, idled: map<nat, Measure>) {
    forall a {:trigger HasReason(s, OwnerIn(s, a), idled[a].mark)} ::
      a in idled && a == NewestAgent(s, OwnerIn(s, a)) && idled[a].waiting != [] ==>
      HasReason(s, OwnerIn(s, a), idled[a].mark)
  }

  ghost predicate HasReason(s: Snapshot, task: nat, mark: nat) {
    exists child :: child in s.tasks && Awaited(s, task, child, mark)
  }

  /** A child collected after its parent's newest attempt idled was collected by a stranger. */
  ghost predicate StraysNoted(s: Snapshot, idled: map<nat, Measure>, stray: set<nat>) {
    forall a, child {:trigger TakenSince(s, OwnerIn(s, a), child, idled[a].mark)} ::
      a in idled && child in s.tasks && a == NewestAgent(s, OwnerIn(s, a)) ==>
      (TakenSince(s, OwnerIn(s, a), child, idled[a].mark) ==> child.id in stray)
  }

  ghost predicate TakenSince(s: Snapshot, task: nat, child: HarnessTask, mark: nat) {
    IsChild(s, task, child) && NewestState(s, child.id).Collected? && NewestRow(s, child.id) > mark
  }

  ghost predicate Inv(w: World) {
    var s := Snap(w);
    && Legal(w.rows)
    && Sound(s, |w.rows.events|)
    && Rooted(s) && OneActive(s)
    && AliveRuns(s, w.alive)
    && OutcomesFit(s, w.outcomes) && IdleRows(s, w.outcomes)
    && Measures(s, w.outcomes, w.idled, |w.rows.events|)
    && Watched(s, w.idled) && StraysNoted(s, w.idled, w.stray)
  }

  function Fresh(): World {
    World(Rows([], [], []), map[], map[], {}, {})
  }

  lemma FreshInv()
    ensures Inv(Fresh())
  {
  }
}
