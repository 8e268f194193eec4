/** Three concrete runs from the empty store, every step one that the workers or the supervisor can take.
    In the first the root idles only after its child was reaped, and nobody will ever wake it. In the
    second it idles in time, but a grandchild collects the child's answer, and nobody will ever wake it
    either. In the third a watch asked for at the depth cap makes a task below it, which a delegate tool
    then queues. So the conditions the theorems carry are needed, and the invariant holds in states
    where everything has happened. */
module Examples {
  import opened Options
  import opened Attempts
  import opened Bus
  import opened Schedule
  import opened Protocol
  import opened Keeps
  import opened Runs
  import opened Wakes
  import opened Effects
  import opened Oversight
  import opened Collecting
  import opened Depth

  const ROOT := HarnessTask(1, "root", HUMAN)
  const CHILD := HarnessTask(2, "child", 1)

  /** The part of a snapshot the run depends on. */
  datatype Picture = Picture(
    tasks: seq<HarnessTask>, byTask: map<nat, seq<nat>>, owners: map<nat, nat>, attempts: map<nat, Attempt>, agents: nat)

  ghost predicate At(w: World, p: Picture) {
    && Inv(w) && Legal(w.rows) && |w.rows.agents| == p.agents
    && Snap(w).tasks == p.tasks && Snap(w).agentsByTask == p.byTask && Snap(w).taskByAgent == p.owners
    && Snap(w).attempts == p.attempts
  }

  /** The supervisor claims an attempt and starts it as process 7. */
  function Launch(w: World, agent: nat): World {
    var running := Log(Log(w, agent, CLAIMED, SUPERVISOR, 0, 0, 0), agent, RUNNING, SUPERVISOR, 7, 0, 0);
    running.(alive := running.alive + {agent})
  }

  lemma LogLands(w: World, p: Picture, agent: nat, status: AgentStatus, pid: int)
    requires At(w, p) && agent in p.attempts && (p.attempts[agent].Queued? || p.attempts[agent].Claimed?)
    requires status == if p.attempts[agent].Queued? then CLAIMED else RUNNING
    ensures At(Log(w, agent, status, SUPERVISOR, pid, 0, 0),
               p.(attempts := p.attempts[agent := if status.CLAIMED? then Claimed else Running(pid)]))
  {
    hide Inv, Legal;
    SupervisorRecords(w, agent, status, pid, 0, 0);
    LogMoves(w, agent, status, SUPERVISOR, pid, 0, 0);
  }

  lemma LaunchLands(w: World, p: Picture, agent: nat)
    requires At(w, p) && agent in p.attempts && p.attempts[agent].Queued?
    ensures At(Launch(w, agent), p.(attempts := p.attempts[agent := Running(7)]))
  {
    hide At, Log;
    LogLands(w, p, agent, CLAIMED, 0);
    var claimed := p.(attempts := p.attempts[agent := Claimed]);
    var w' := Log(w, agent, CLAIMED, SUPERVISOR, 0, 0, 0);
    LogLands(w', claimed, agent, RUNNING, 7);
    assert claimed.attempts[agent := Running(7)] == p.attempts[agent := Running(7)];
    ProcessStarts(Log(w', agent, RUNNING, SUPERVISOR, 7, 0, 0), claimed.(attempts := p.attempts[agent := Running(7)]), agent);
  }

  lemma ProcessStarts(w: World, p: Picture, agent: nat)
    requires At(w, p) && agent in p.attempts && p.attempts[agent].Running?
    ensures At(w.(alive := w.alive + {agent}), p)
  {
    hide Inv, Legal;
    StartingKeeps(w, agent);
  }

  /** The empty store with the root queued. */
  function Started(): World {
    Queue(Fresh(), "root", HUMAN, 0)
  }

  const NOTHING := Picture([], map[], map[], map[], 0)

  /** The picture with a first attempt at a directory that had no task. */
  function WithTask(p: Picture, dir: string, parent: nat): Picture {
    var task, agent := |p.tasks| + 1, p.agents + 1;
    Picture(p.tasks + [HarnessTask(task, dir, parent)], p.byTask[task := [agent]], p.owners[agent := task],
            p.attempts[agent := Queued], agent)
  }

  lemma TaskLands(w: World, p: Picture, dir: string, parent: nat)
    requires At(w, p) && Inv(Queue(w, dir, parent, 0))
    requires TaskAt(w.rows.tasks, dir) == 0 && |p.tasks| + 1 !in p.byTask
    ensures At(Queue(w, dir, parent, 0), WithTask(p, dir, parent))
  {
    hide Inv, Legal, SnapshotOf;
    InvIsLegal(Queue(w, dir, parent, 0));
    TasksOfSnapshot(w);
    EnqueueSnapshot(w.rows, dir, parent, 0);
    assert [] + [p.agents + 1] == [p.agents + 1];
  }

  lemma TasksOfSnapshot(w: World)
    ensures Snap(w).tasks == w.rows.tasks
  {
  }

  lemma NothingYet()
    ensures At(Fresh(), NOTHING) && TaskAt(Fresh().rows.tasks, "root") == 0
  {
    FreshInv();
  }

  lemma RootQueued()
    ensures At(Started(), WithTask(NOTHING, "root", HUMAN))
  {
    hide Inv, At;
    FirstEnqueueKeeps("root", 0);
    NothingYet();
    TaskLands(Fresh(), NOTHING, "root", HUMAN);
  }

  // ---------------------------------------------------------------------------------------------
  // The run.

  /** The root runs. */
  function Running1(): World {
    Launch(Started(), 1)
  }

  const P1 := Picture([ROOT], map[1 := [1]], map[1 := 1], map[1 := Running(7)], 1)

  /** It delegates, under a cap of one, and the child runs too. */
  function Delegated(): World {
    Launch(Act(Running1(), Delegate(1, "child"), 1, 0), 2)
  }

  const P2 := Picture([ROOT, CHILD], map[1 := [1], 2 := [2]], map[1 := 1, 2 := 2], map[1 := Running(7), 2 := Running(7)], 2)

  /** The child completes and is gone. */
  function Answered(): World {
    Act(Act(Delegated(), Finish(2, COMPLETED), 1, 0), Exit(2), 1, 0)
  }

  /** It is reaped. */
  function Reaped(): World {
    var w := Answered();
    if 2 in w.outcomes then Reap(w, 2, 0) else w
  }

  const P3 := P2.(attempts := map[1 := Running(7), 2 := Closed(COMPLETED)])

  /** And only now the root idles, ends and is reaped. */
  function Asleep(): World {
    IdledAndReaped(Reaped(), 1, 0)
  }

  lemma RootRuns()
    ensures At(Running1(), P1) && Running1().alive == {1} && Running1().outcomes == map[]
    ensures Running1().idled == map[] && Running1().stray == {}
  {
    hide At;
    RootQueued();
    LaunchLands(Started(), WithTask(NOTHING, "root", HUMAN), 1);
    assert WithTask(NOTHING, "root", HUMAN).(attempts := map[1 := Queued][1 := Running(7)]) == P1;
  }

  lemma RootMayDelegate(s: Snapshot)
    requires s.tasks == P1.tasks && s.taskByAgent == P1.owners && s.attempts == P1.attempts
    ensures MayDelegate(s, 1, 1) && !ActiveFor(s, "child")
  {
    assert TaskOf(s, 1) == ROOT;
  }

  lemma NoChildYet(w: World)
    requires w.rows.tasks == [ROOT]
    ensures TaskAt(w.rows.tasks, "child") == 0
  {
    assert [ROOT][..0] == [];
  }

  lemma RootDelegates()
    ensures At(Delegated(), P2) && Delegated().alive == {1, 2} && Delegated().outcomes == map[]
    ensures Delegated().idled == map[] && Delegated().stray == {}
  {
    hide Inv, Legal, SnapshotOf, MayDelegate, ActiveFor, Launch;
    var w := Running1();
    RootRuns();
    RootMayDelegate(Snap(w));
    TasksOfSnapshot(w);
    NoChildYet(w);
    ActKeeps(w, Delegate(1, "child"), 1, 0);
    TaskLands(w, P1, "child", 1);
    var w' := Queue(w, "child", 1, 0);
    LaunchLands(w', WithTask(P1, "child", 1), 2);
    LaunchBeside(w', 2);
  }

  lemma LaunchBeside(w: World, agent: nat)
    ensures Launch(w, agent).alive == w.alive + {agent} && Launch(w, agent).outcomes == w.outcomes
    ensures Launch(w, agent).idled == w.idled && Launch(w, agent).stray == w.stray
  {
  }

  lemma ChildAnswers()
    ensures At(Answered(), P2) && Answered().alive == {1} && Answered().outcomes == map[2 := Header(COMPLETED, 0)]
    ensures Answered().idled == map[] && Answered().stray == {}
  {
    hide Inv, Legal, SnapshotOf;
    var w := Delegated();
    var written := Act(w, Finish(2, COMPLETED), 1, 0);
    RootDelegates();
    ActKeeps(w, Finish(2, COMPLETED), 1, 0);
    ActKeeps(written, Exit(2), 1, 0);
    assert written == Finished(w, 2, COMPLETED);
  }

  lemma ReapLands(w: World, p: Picture, agent: nat, kind: AgentStatus)
    requires At(w, p) && ReadyToReap(w, agent, kind)
    ensures agent in w.outcomes && At(Reap(w, agent, 0), p.(attempts := p.attempts[agent := Closed(kind)]))
  {
    hide Inv, Legal, SnapshotOf;
    ReapKeeps(w, agent, kind, 0);
    InvIsLegal(Reap(w, agent, 0));
  }

  lemma ChildIsReaped()
    ensures At(Reaped(), P3) && Reaped().alive == {1} && Reaped().idled == map[] && Reaped().stray == {}
    ensures Reaped().outcomes == map[2 := Header(COMPLETED, 0)]
  {
    hide Inv, Legal, SnapshotOf;
    ChildAnswers();
    ReapLands(Answered(), P2, 2, COMPLETED);
    assert P2.attempts[2 := Closed(COMPLETED)] == P3.attempts;
  }

  /** The root sees no child at work: the one it has is closed and unread. */
  lemma NobodyAtWork(s: Snapshot)
    requires s.tasks == P3.tasks && s.agentsByTask == P3.byTask && s.taskByAgent == P3.owners && s.attempts == P3.attempts
    ensures LiveChildren(s, 1) == [] && NewestAgent(s, 1) == 1 && NewestAgent(s, 2) == 2
  {
    assert [1][..0] == [] && [2][..0] == [];
    assert NewestAgent(s, 1) == 1 && NewestAgent(s, 2) == 2;
    assert TaskOf(s, 1) == ROOT;
    LiveChildIsAwaited(s, 1, NewestRow(s, 2));
    assert forall c :: c in s.tasks ==> !Awaited(s, 1, c, NewestRow(s, 2));
  }

  lemma RootIdles()
    ensures Inv(Asleep()) && IsIdling(Snap(Asleep()), 1) && !HasNews(Snap(Asleep()), 1)
    ensures Snap(Asleep()).attempts == map[1 := Closed(IDLING), 2 := Closed(COMPLETED)]
    ensures Snap(Asleep()).tasks == P3.tasks && Snap(Asleep()).agentsByTask == P3.byTask
    ensures Snap(Asleep()).taskByAgent == P3.owners && Asleep().stray == {}
  {
    hide Inv, Legal, SnapshotOf, LiveChildren, HasNews, NothingComing, IsIdling;
    var w := Reaped();
    ChildIsReaped();
    NobodyAtWork(Snap(w));
    TooLateToBeWoken(w, 1, 0);
    GoneIsReady(w, 1);
    ReapLands(Gone(w, 1), P3, 1, IDLING);
    assert P3.attempts[1 := Closed(IDLING)] == map[1 := Closed(IDLING), 2 := Closed(COMPLETED)];
  }

  /** So a run can end quiet, with nobody to wake, the root asleep and its child's answer unread. */
  lemma AWakeIsLost()
    ensures var w := Asleep();
      && Inv(w) && NothingActive(Snap(w)) && NobodyWakeable(Snap(w)) && w.stray == {}
      && IsIdling(Snap(w), 1) && Unread(NewestState(Snap(w), 2)) && IsChild(Snap(w), 1, CHILD)
  {
    hide Inv, HasNews, SnapshotOf, Asleep;
    RootIdles();
    ChildIsUnread(Snap(Asleep()));
    if HasNews(Snap(Asleep()), 2) {
      NewsMeansIdling(Asleep(), 2);
    }
  }

  lemma ChildIsUnread(s: Snapshot)
    requires s.tasks == P3.tasks && s.agentsByTask == P3.byTask && s.taskByAgent == P3.owners
    requires s.attempts == map[1 := Closed(IDLING), 2 := Closed(COMPLETED)]
    ensures NothingActive(s) && !IsIdling(s, 2) && Unread(NewestState(s, 2)) && IsChild(s, 1, CHILD)
    ensures forall t :: t in s.tasks ==> t.id == 1 || t.id == 2
  {
    assert [2][..0] == [];
    assert NewestAgent(s, 2) == 2;
  }

  // ---------------------------------------------------------------------------------------------
  // The second run.

  /** A running attempt writes its outcome, exits and is reaped. */
  function Ended(w: World, agent: nat, kind: AgentStatus): World {
    var gone := Act(Act(w, Finish(agent, kind), 1, 0), Exit(agent), 1, 0);
    if agent in gone.outcomes then Reap(gone, agent, 0) else gone
  }

  lemma EndLands(w: World, p: Picture, agent: nat, kind: AgentStatus)
    requires At(w, p) && CanAct(w, agent) && agent in p.attempts && p.attempts[agent].Running? && IsVerdict(kind)
    requires kind.IDLING? ==> agent in w.idled
    ensures var w' := Ended(w, agent, kind);
      && At(w', p.(attempts := p.attempts[agent := Closed(kind)]))
      && w'.alive == w.alive - {agent} && w'.idled == w.idled && w'.stray == w.stray
      && w'.outcomes.Keys == w.outcomes.Keys + {agent}
  {
    hide Inv, Legal, SnapshotOf;
    var written := Act(w, Finish(agent, kind), 1, 0);
    var gone := Act(written, Exit(agent), 1, 0);
    assert written == Finished(w, agent, kind) && gone == written.(alive := w.alive - {agent});
    ActKeeps(w, Finish(agent, kind), 1, 0);
    ActKeeps(written, Exit(agent), 1, 0);
    ReapLands(gone, p, agent, kind);
  }

  const GRAND := HarnessTask(3, "grand", 2)

  /** The child delegates in its turn, under a cap of two, and all three run. */
  function Three(): World {
    Launch(Act(Delegated(), Delegate(2, "grand"), 2, 0), 3)
  }

  const BYTASK3: map<nat, seq<nat>> := map[1 := [1], 2 := [2], 3 := [3]]
  const OWNERS3: map<nat, nat> := map[1 := 1, 2 := 2, 3 := 3]

  function Picture3(tasks: seq<HarnessTask>, one: Attempt, two: Attempt, three: Attempt): Picture {
    Picture(tasks, BYTASK3, OWNERS3, map[1 := one, 2 := two, 3 := three], 3)
  }

  const FAMILY := [ROOT, CHILD, GRAND]

  lemma ChildMayDelegate(s: Snapshot)
    requires s.tasks == P2.tasks && s.taskByAgent == P2.owners && s.attempts == P2.attempts
    ensures MayDelegate(s, 2, 2) && !ActiveFor(s, "grand") && !ActiveFor(s, "watch")
  {
    FindTaskById(s.tasks, 1, 1);
    FindTaskById(s.tasks, 2, 1);
  }

  lemma NoThirdYet(w: World, dir: string)
    requires w.rows.tasks == [ROOT, CHILD] && dir != "root" && dir != "child"
    ensures TaskAt(w.rows.tasks, dir) == 0
  {
    TaskAtExact(w.rows.tasks, dir);
  }

  lemma ThreeRun()
    ensures At(Three(), Picture3(FAMILY, Running(7), Running(7), Running(7)))
    ensures Three().alive == {1, 2, 3} && Three().outcomes == map[] && Three().idled == map[] && Three().stray == {}
  {
    hide Inv, Legal, SnapshotOf, MayDelegate, ActiveFor, Launch;
    var w := Delegated();
    RootDelegates();
    ChildMayDelegate(Snap(w));
    TasksOfSnapshot(w);
    NoThirdYet(w, "grand");
    ActKeeps(w, Delegate(2, "grand"), 2, 0);
    TaskLands(w, P2, "grand", 2);
    var w' := Queue(w, "grand", 2, 0);
    LaunchLands(w', WithTask(P2, "grand", 2), 3);
    LaunchBeside(w', 3);
  }

  /** The root idles, seeing its child at work, ends and is reaped; then the child completes. */
  function InTime(): World {
    Ended(Ended(Act(Three(), Idle(1), 2, 0), 1, IDLING), 2, COMPLETED)
  }

  lemma RootSeesItsChild(s: Snapshot)
    requires s.tasks == FAMILY && s.agentsByTask == BYTASK3 && s.taskByAgent == OWNERS3
    requires s.attempts == map[1 := Running(7), 2 := Running(7), 3 := Running(7)]
    ensures LiveChildren(s, 1) != []
  {
    assert [2][..0] == [];
    assert TaskOf(s, 1) == ROOT && NewestAgent(s, 2) == 2;
    var live := TasksWhere(s.tasks, (t: HarnessTask) => IsChild(s, 1, t) && Outstanding(s, t.id));
    assert CHILD in s.tasks && IsChild(s, 1, CHILD) && Outstanding(s, CHILD.id);
    assert CHILD in live;
  }

  lemma IdleLands(w: World, p: Picture, who: nat)
    requires At(w, p) && CanAct(w, who) && who !in w.idled
    ensures var w' := Act(w, Idle(who), 2, 0);
      && At(w', p) && w'.alive == w.alive && w'.outcomes == w.outcomes && w'.stray == w.stray
      && w'.idled.Keys == w.idled.Keys + {who} && w'.idled[who].waiting == LiveChildren(Snap(w), who)
  {
    hide Inv, Legal, SnapshotOf, LiveChildren;
    ActKeeps(w, Idle(who), 2, 0);
  }

  lemma SeesItsChild(w: World)
    requires At(w, Picture3(FAMILY, Running(7), Running(7), Running(7)))
    ensures LiveChildren(Snap(w), 1) != []
  {
    hide Inv, Legal, SnapshotOf, LiveChildren;
    RootSeesItsChild(Snap(w));
  }

  lemma RootIdlesInTime()
    ensures At(InTime(), Picture3(FAMILY, Closed(IDLING), Closed(COMPLETED), Running(7)))
    ensures InTime().alive == {3} && InTime().stray == {} && InTime().outcomes.Keys == {1, 2}
    ensures InTime().idled.Keys == {1} && InTime().idled[1].waiting != []
  {
    hide At, SnapshotOf, LiveChildren, Three, Ended, Act;
    var w := Three();
    var measured := Act(w, Idle(1), 2, 0);
    ThreeRun();
    SeesItsChild(w);
    IdleLands(w, Picture3(FAMILY, Running(7), Running(7), Running(7)), 1);
    var p, q := Picture3(FAMILY, Running(7), Running(7), Running(7)), Picture3(FAMILY, Closed(IDLING), Running(7), Running(7));
    EndLands(measured, p, 1, IDLING);
    assert p.attempts[1 := Closed(IDLING)] == q.attempts;
    EndLands(Ended(measured, 1, IDLING), q, 2, COMPLETED);
    assert q.attempts[2 := Closed(COMPLETED)] == Picture3(FAMILY, Closed(IDLING), Closed(COMPLETED), Running(7)).attempts;
  }

  /** Before the root is woken, the grandchild collects the child's answer; then it completes too. */
  function Stolen(): World {
    Ended(Act(InTime(), Collect(3, 2), 2, 0), 3, COMPLETED)
  }

  lemma GrandchildMayCollect(s: Snapshot)
    requires s.tasks == FAMILY && s.agentsByTask == BYTASK3 && s.taskByAgent == OWNERS3
    requires s.attempts == map[1 := Closed(IDLING), 2 := Closed(COMPLETED), 3 := Running(7)]
    ensures Collectable(s, 2) && Addressed(s, 2) == 2 && OwnerIn(s, 3) == 3
    ensures FindTask(s.tasks, 2) == CHILD && !IsChild(s, 3, CHILD)
  {
    assert [2][..0] == [];
    assert NewestAgent(s, 2) == 2;
    assert s.tasks[1..] == [CHILD, GRAND];
  }

  lemma GrandchildCollects()
    ensures At(Act(InTime(), Collect(3, 2), 2, 0), Picture3(FAMILY, Closed(IDLING), Collected(COMPLETED, true), Running(7)))
    ensures var w' := Act(InTime(), Collect(3, 2), 2, 0);
      w'.stray == {2} && w'.alive == {3} && w'.idled == InTime().idled && w'.outcomes == InTime().outcomes
  {
    hide Inv, Legal, SnapshotOf, Collectable, InTime;
    var w := InTime();
    RootIdlesInTime();
    GrandchildMayCollect(Snap(w));
    ActKeeps(w, Collect(3, 2), 2, 0);
    InvIsLegal(CollectedBy(w, 3, 2, 0));
    CollectMoves(w, 3, 2, 0);
    assert Act(w, Collect(3, 2), 2, 0) == CollectedBy(w, 3, 2, 0);
  }

  lemma ChildIsStolen()
    ensures At(Stolen(), Picture3(FAMILY, Closed(IDLING), Collected(COMPLETED, true), Closed(COMPLETED)))
    ensures Stolen().stray == {2} && Stolen().idled == InTime().idled
  {
    hide Inv, Legal, SnapshotOf;
    RootIdlesInTime();
    GrandchildCollects();
    EndLands(Act(InTime(), Collect(3, 2), 2, 0), Picture3(FAMILY, Closed(IDLING), Collected(COMPLETED, true), Running(7)),
             3, COMPLETED);
  }

  lemma NobodyToWake(s: Snapshot)
    requires s.tasks == FAMILY && s.agentsByTask == BYTASK3 && s.taskByAgent == OWNERS3
    requires s.attempts == map[1 := Closed(IDLING), 2 := Collected(COMPLETED, true), 3 := Closed(COMPLETED)]
    ensures NothingActive(s) && IsIdling(s, 1) && !IsIdling(s, 2) && !IsIdling(s, 3)
    ensures !HasNews(s, 1) && NewestState(s, 2).Collected? && IsChild(s, 1, CHILD)
    ensures forall t :: t in s.tasks ==> t.id == 1 || t.id == 2 || t.id == 3
  {
    hide IdlingRows;
    assert [1][..0] == [] && [2][..0] == [] && [3][..0] == [];
    assert NewestAgent(s, 1) == 1 && NewestAgent(s, 2) == 2 && NewestAgent(s, 3) == 3;
  }

  /** So a run can end quiet, with nobody to wake and the root asleep, although the root saw its child at
      work when it idled: the child's answer went to somebody else. */
  lemma AWakeIsStolen()
    ensures var w := Stolen();
      && Inv(w) && NothingActive(Snap(w)) && NobodyWakeable(Snap(w)) && IsIdling(Snap(w), 1)
      && w.stray == {2} && 1 in w.idled && w.idled[1].waiting != []
      && IsChild(Snap(w), 1, CHILD) && NewestState(Snap(w), 2).Collected?
  {
    hide Inv, HasNews, SnapshotOf, Stolen, NothingActive;
    RootIdlesInTime();
    ChildIsStolen();
    NobodyToWake(Snap(Stolen()));
    if HasNews(Snap(Stolen()), 2) {
      NewsMeansIdling(Stolen(), 2);
    }
    if HasNews(Snap(Stolen()), 3) {
      NewsMeansIdling(Stolen(), 3);
    }
  }

  // ---------------------------------------------------------------------------------------------
  // The third run.

  const WATCHER := HarnessTask(3, "watch", 2)

  /** Under a cap of one the child, which is at the cap, asks for a watch; the watch runs and ends. */
  function Watched(): World {
    Act(Delegated(), Watch(2, "watch"), 1, 0)
  }

  function WatchEnded(): World {
    Ended(Launch(Watched(), 3), 3, COMPLETED)
  }

  lemma ChildWatches()
    ensures Enabled(Delegated(), Watch(2, "watch"), 1) && TaskAt(Delegated().rows.tasks, "watch") == 0
    ensures At(Watched(), Picture3([ROOT, CHILD, WATCHER], Running(7), Running(7), Queued))
    ensures Watched().alive == {1, 2} && Watched().outcomes == map[] && Watched().idled == map[]
  {
    hide Inv, Legal, SnapshotOf, ActiveFor;
    var w := Delegated();
    RootDelegates();
    ChildMayDelegate(Snap(w));
    TasksOfSnapshot(w);
    NoThirdYet(w, "watch");
    ActKeeps(w, Watch(2, "watch"), 1, 0);
    TaskLands(w, P2, "watch", 2);
  }

  lemma WatchEnds()
    ensures At(WatchEnded(), Picture3([ROOT, CHILD, WATCHER], Running(7), Running(7), Closed(COMPLETED)))
    ensures WatchEnded().alive == {1, 2} && WatchEnded().outcomes.Keys == {3} && WatchEnded().idled == map[]
  {
    hide Inv, Legal, SnapshotOf, Launch;
    ChildWatches();
    LaunchLands(Watched(), Picture3([ROOT, CHILD, WATCHER], Running(7), Running(7), Queued), 3);
    LaunchBeside(Watched(), 3);
    EndLands(Launch(Watched(), 3), Picture3([ROOT, CHILD, WATCHER], Running(7), Running(7), Running(7)), 3, COMPLETED);
  }

  lemma WatchIsBelow(s: Snapshot)
    requires Tree(s) && s.tasks == [ROOT, CHILD, WATCHER] && s.taskByAgent == OWNERS3
    ensures Ancestors(s, 1) == 0 && Ancestors(s, 2) == 1 && Ancestors(s, 3) == 2
  {
    assert s.tasks[0] == ROOT && s.tasks[1] == CHILD && s.tasks[2] == WATCHER;
    assert Ancestors(s, 1) == 0;
    assert Ancestors(s, 2) == 1 + Ancestors(s, 1);
  }

  lemma RootMayReuse(s: Snapshot)
    requires s.tasks == [ROOT, CHILD, WATCHER] && s.taskByAgent == OWNERS3
    requires s.attempts == map[1 := Running(7), 2 := Running(7), 3 := Closed(COMPLETED)]
    ensures MayDelegate(s, 1, 1) && !ActiveFor(s, "watch")
  {
    FindTaskById(s.tasks, 1, 1);
    FindTaskById(s.tasks, 2, 1);
    FindTaskById(s.tasks, 3, 1);
  }

  lemma WatchTaskIsThird(w: World)
    requires w.rows.tasks == [ROOT, CHILD, WATCHER]
    ensures TaskAt(w.rows.tasks, "watch") == 3
  {
  }

  lemma PairDepths(s: Snapshot)
    requires Tree(s) && s.tasks == [ROOT, CHILD] && s.taskByAgent == P2.owners
    ensures Ancestors(s, 1) == 0 && Ancestors(s, 2) == 1
  {
    assert s.tasks[0] == ROOT && s.tasks[1] == CHILD;
    assert Ancestors(s, 1) == 0;
  }

  /** With a cap of one the child's watch, asked for at the cap, makes a task below it. */
  lemma AWatchBelowTheCap()
    ensures Inv(Delegated()) && Tree(Snap(Delegated())) && Shallow(Delegated(), 1)
    ensures WatchesBelowTheCap(Delegated(), Watch(2, "watch"), 1) && !Shallow(Watched(), 1)
  {
    hide Inv, Tree, SnapshotOf, Delegated, Enabled;
    RootDelegates();
    ChildWatches();
    InvIsTree(Delegated());
    TasksOfSnapshot(Delegated());
    PairDepths(Snap(Delegated()));
    ActKeepsShallowExactly(Delegated(), Watch(2, "watch"), 1, 0);
  }

  lemma RootReuses()
    ensures var w := WatchEnded();
      && Inv(w) && Enabled(w, Delegate(1, "watch"), 1) && TaskAt(w.rows.tasks, "watch") == 3
      && Tree(Snap(w)) && 3 <= |Snap(w).tasks| && Ancestors(Snap(w), 3) == 2
  {
    hide Inv, Tree, SnapshotOf, WatchEnded, MayDelegate, ActiveFor;
    WatchEnds();
    InvIsTree(WatchEnded());
    TasksOfSnapshot(WatchEnded());
    WatchTaskIsThird(WatchEnded());
    RootMayReuse(Snap(WatchEnded()));
    WatchIsBelow(Snap(WatchEnded()));
  }

  /** And once it has ended, a delegate tool of the root, which is well within the cap, queues an attempt
      at that task, below the cap. */
  lemma ADelegateBelowTheCap()
    ensures var w := WatchEnded();
      && Inv(w) && Enabled(w, Delegate(1, "watch"), 1)
      && var w' := Act(w, Delegate(1, "watch"), 1, 0);
         Tree(Snap(w')) && OwnerIn(Snap(w'), |w.rows.agents| + 1) == 3 && 3 <= |Snap(w').tasks| && Ancestors(Snap(w'), 3) > 1
  {
    hide Inv, Tree, SnapshotOf, WatchEnded, Enabled, Act;
    RootReuses();
    DelegatedDepthExactly(WatchEnded(), 1, "watch", 1, 0);
    InvIsTree(WatchEnded());
    TasksOfSnapshot(Act(WatchEnded(), Delegate(1, "watch"), 1, 0));
  }
}
