/** One agent's conversation loop (session.py) under the answering profile (profiles/answering.py):
    it spends a budget, collects what its children said, and forces an answer at the end. What comes
    from outside - the model's replies, the tools' results, the readings of the children, the notes -
    is given by an environment of arbitrary functions of the pass. */
module Sessions {
  import opened Numerals
  import opened Options
  import opened Transcripts
  import opened Budgets
  import opened Watermarks

  /** The tool categories the loop and the assembly tell apart. */
  datatype Category = SUBMIT | DELEGATE | TASKS | LIFECYCLE | OTHER

  /** A bound tool, known by its spec: name, category and cost. */
  datatype BoundTool = BoundTool(name: string, category: Category, cost: nat)

  datatype Asking = Asking(id: string, name: string, arguments: string)

  datatype Reply = Reply(text: string, calls: seq<Asking>)

  datatype Payload = Asked | Idled(seenThrough: int) | Submitted | Other

  datatype Ran = Ran(ok: bool, payload: Payload, text: string, path: string, byteCount: int)

  /** `settled` is the second reading of the uncollected children, at the end of a pass. */
  datatype Environment = Environment(
    notes: nat -> seq<string>,
    outstanding: nat -> seq<nat>,
    uncollected: nat -> seq<nat>,
    settled: nat -> seq<nat>,
    reply: nat -> Reply,
    invoke: (nat, nat) -> Ran)

  datatype Outcome =
    | Unfinished
    | NeedsInput
    | Idling(seenThrough: int)
    | Exhausted
    | Completed
    | Failed

  const COLLECT_TRIES := 2

  // ---------------------------------------------------------------------------------------------
  // Assembling the tools (session_for.py, `assemble`).

  function Names(tools: seq<BoundTool>): set<string> {
    set t | t in tools :: t.name
  }

  predicate Permitted(t: BoundTool, wanted: set<string>, brought: set<BoundTool>, depthCapped: bool) {
    t.name in wanted && !(depthCapped && t.category.DELEGATE?) && !(t.category.SUBMIT? && t !in brought)
  }

  function Select(available: seq<BoundTool>, wanted: set<string>, brought: set<BoundTool>,
                  depthCapped: bool): (held: seq<BoundTool>)
    ensures forall t :: t in held <==> t in available && Permitted(t, wanted, brought, depthCapped)
  {
    if available == [] then []
    else (if Permitted(available[0], wanted, brought, depthCapped) then [available[0]] else []) +
         Select(available[1..], wanted, brought, depthCapped)
  }

  /** None where the role names a tool nobody built. */
  function Assemble(available: seq<BoundTool>, named: set<string>, brought: seq<BoundTool>, depth: int,
                    maxDepth: int): Option<seq<BoundTool>> {
    var wanted := named + Names(brought);
    if wanted <= Names(available) then Some(Select(available, wanted, (set t | t in brought), depth >= maxDepth)) else None
  }

  /** The tool a profile brings is held whatever the role named and however deep the agent is, unless
      it delegates; a capped agent holds no delegate tool; and a submit tool is held only if brought. */
  lemma AssembledTools(available: seq<BoundTool>, named: set<string>, brought: seq<BoundTool>, depth: int,
                       maxDepth: int, t: BoundTool)
    requires Assemble(available, named, brought, depth, maxDepth).Some?
    ensures var held := Assemble(available, named, brought, depth, maxDepth).value;
      && (t in available && t in brought && !t.category.DELEGATE? ==> t in held)
      && (t in held && t.category.DELEGATE? ==> depth < maxDepth)
      && (t in held && t.category.SUBMIT? ==> t in brought)
  {
  }

  predicate NamedOrBrought(name: string, named: set<string>, brought: seq<BoundTool>) {
    name in named || exists b :: b in brought && b.name == name
  }

  /** The assembly fails exactly when a name asked for is no tool's. Otherwise it holds exactly the tools
      the role names or the profile brings, but for delegate tools at the cap and submit tools that
      were not brought. */
  lemma AssembledExactly(available: seq<BoundTool>, named: set<string>, brought: seq<BoundTool>, depth: int, maxDepth: int)
    ensures var held := Assemble(available, named, brought, depth, maxDepth);
      && (held.None? <==> exists name :: NamedOrBrought(name, named, brought) && forall t :: t in available ==> t.name != name)
      && (held.Some? ==> forall t :: t in held.value <==>
            && t in available && NamedOrBrought(t.name, named, brought)
            && !(t.category.DELEGATE? && depth >= maxDepth) && !(t.category.SUBMIT? && t !in brought))
  {
    var wanted := named + Names(brought);
    assert forall name :: name in wanted <==> NamedOrBrought(name, named, brought);
    assert forall name :: name in Names(available) <==> !(forall t :: t in available ==> t.name != name);
  }

  // ---------------------------------------------------------------------------------------------
  // The profile's decisions.

  datatype Turn = Turn(
    offered: seq<BoundTool>,
    remaining: Budget,
    outstanding: seq<nat>,
    uncollected: seq<nat>,
    tries: int)
  {
    predicate Final() {
      remaining.TurnsExhausted()
    }

    function Bound(spec: BoundTool): Option<BoundTool> {
      if spec in offered then Some(spec) else None
    }
  }

  datatype Answering = Answering(terminal: BoundTool, collect: BoundTool, idle: BoundTool) {

    function Halts(turn: Turn): Outcome {
      if turn.Final() && turn.outstanding != [] then Idling(NO_WATERMARK) else Unfinished
    }

    predicate Collecting(turn: Turn) {
      turn.uncollected != [] && turn.tries > 0 && turn.Bound(collect).Some?
    }

    function Forces(turn: Turn): Option<BoundTool> {
      if Collecting(turn) then turn.Bound(collect) else turn.Bound(terminal)
    }

    /** What a turn that is not final keeps from the model. */
    predicate Withheld(turn: Turn, tool: BoundTool) {
      || (tool == idle && turn.outstanding == [])
      || (tool == terminal && (turn.outstanding != [] || turn.uncollected != []))
    }

    function Offers(turn: Turn): seq<BoundTool> {
      if turn.Final() then (match Forces(turn) case Some(tool) => [tool] case None => [])
      else Unwithheld(turn, turn.offered)
    }

    function Unwithheld(turn: Turn, tools: seq<BoundTool>): (kept: seq<BoundTool>)
      ensures forall t :: t in kept <==> t in tools && !Withheld(turn, t)
    {
      if tools == [] then [] else (if Withheld(turn, tools[0]) then [] else [tools[0]]) + Unwithheld(turn, tools[1..])
    }
  }

  /** The model is never offered both ways of ending a turn that is not final: it may idle only while a
      child is at work, and answer only once nothing is at work or unread. On a final turn it is
      offered one tool, the one it is forced to call. */
  lemma OneWayToEnd(profile: Answering, turn: Turn)
    requires profile.terminal in turn.offered && profile.idle in turn.offered && profile.terminal != profile.idle
    ensures !turn.Final() ==>
              && (profile.idle in profile.Offers(turn) <==> turn.outstanding != [])
              && (profile.terminal in profile.Offers(turn) <==> turn.outstanding == [] && turn.uncollected == [])
    ensures turn.Final() ==>
              && profile.Forces(turn).Some? && profile.Offers(turn) == [profile.Forces(turn).value]
              && (turn.uncollected == [] || turn.tries <= 0 ==> profile.Forces(turn) == Some(profile.terminal))
  {
  }

  predicate AnsweringTool(forced: Option<BoundTool>) {
    forced.Some? && forced.value.category.SUBMIT?
  }

  // ---------------------------------------------------------------------------------------------
  // Running the tools of one reply.

  function BlocksOf(reply: Reply): seq<Block> {
    (if reply.text == "" then [] else [Text(reply.text)]) + UsesOf(reply.calls)
  }

  function UsesOf(calls: seq<Asking>): (uses: seq<Block>)
    ensures |uses| == |calls|
    ensures forall i :: 0 <= i < |uses| ==> uses[i] == ToolUse(calls[i].id, calls[i].name, calls[i].arguments)
  {
    if calls == [] then [] else [ToolUse(calls[0].id, calls[0].name, calls[0].arguments)] + UsesOf(calls[1..])
  }

  function IdsOf(calls: seq<Asking>): (ids: seq<string>)
    ensures |ids| == |calls| && forall i :: 0 <= i < |ids| ==> ids[i] == calls[i].id
  {
    seq(|calls|, i requires 0 <= i < |calls| => calls[i].id)
  }

  function Find(tools: seq<BoundTool>, name: string): (found: Option<BoundTool>)
    ensures found.Some? ==> found.value in tools && found.value.name == name
    ensures found.None? ==> forall t :: t in tools ==> t.name != name
  {
    if tools == [] then None
    else if tools[|tools| - 1].name == name then Some(tools[|tools| - 1])
    else Find(tools[..|tools| - 1], name)
  }

  /** What a call costs: nothing when its tool is the one being forced. */
  function Cost(tool: BoundTool, exempt: Option<BoundTool>): nat {
    if exempt == Some(tool) then 0 else tool.cost
  }

  /** How far a batch has come: the allowance left, the calls spent, the blocks recorded so far and
      the results of the calls that ran. */
  datatype Batch = Batch(left: Allowance, spent: int, blocks: seq<Block>, ran: seq<Ran>)

  function Refusal(id: string, reason: string): Block {
    ToolResult(id, reason, true, "", 0)
  }

  function Remain(left: Allowance): string {
    match left
    case Finite(value) => Decimal(value)
    case Infinite => "infinite"
  }

  function OverBudget(id: string, tool: BoundTool, left: Allowance): Block {
    Refusal(id, "tool-call budget exhausted; " + tool.name + " costs " + Decimal(tool.cost) + " and " +
                Remain(left) + " remain")
  }

  function Answered(id: string, result: Ran): Block {
    ToolResult(id, result.text + "\n[full output: " + result.path + "]", !result.ok, result.path, result.byteCount)
  }

  function RunOne(b: Batch, call: Asking, tools: seq<BoundTool>, exempt: Option<BoundTool>, result: Ran): Batch {
    match Find(tools, call.name)
    case None => b.(blocks := b.blocks + [Refusal(call.id, "unknown tool " + call.name)])
    case Some(tool) =>
      var cost := Cost(tool, exempt);
      if b.left.Permits(cost)
      then Batch(b.left.Minus(cost), b.spent + cost, b.blocks + [Answered(call.id, result)], b.ran + [result])
      else b.(blocks := b.blocks + [OverBudget(call.id, tool, b.left)])
  }

  /** The calls run one after the other. */
  function RunAll(calls: seq<Asking>, tools: seq<BoundTool>, exempt: Option<BoundTool>, left: Allowance, spent: int,
                  invoke: nat -> Ran): Batch
  {
    if calls == [] then Batch(left, spent, [], [])
    else
      var n := |calls| - 1;
      RunOne(RunAll(calls[..n], tools, exempt, left, spent, invoke), calls[n], tools, exempt, invoke(n))
  }

  /** The calls of the first `n` that were charged for, found without running anything: a call is
      permitted when what it and the permitted ones before it cost fits the allowance. */
  function Charged(calls: seq<Asking>, tools: seq<BoundTool>, exempt: Option<BoundTool>, left: Allowance, n: nat): nat
    requires n <= |calls|
  {
    if n == 0 then 0
    else
      var before := Charged(calls, tools, exempt, left, n - 1);
      match Find(tools, calls[n - 1].name)
      case None => before
      case Some(tool) => if left.Permits(before + Cost(tool, exempt)) then before + Cost(tool, exempt) else before
  }

  lemma {:induction false} ResultIdsAppend(blocks: seq<Block>, b: Block)
    requires b.ToolResult?
    ensures ResultIds(blocks + [b]) == ResultIds(blocks) + [b.id]
  {
    var longer := blocks + [b];
    if blocks == [] {
      assert longer == [b];
      assert ResultIds(longer) == [b.id] + ResultIds(longer[1..]);
    } else {
      assert longer[0] == blocks[0] && longer[1..] == blocks[1..] + [b];
      ResultIdsAppend(blocks[1..], b);
    }
  }

  /** What one call is charged, given what was charged before it. */
  function Charge(call: Asking, tools: seq<BoundTool>, exempt: Option<BoundTool>, left: Allowance, before: nat): nat {
    match Find(tools, call.name)
    case None => 0
    case Some(tool) => if left.Permits(before + Cost(tool, exempt)) then Cost(tool, exempt) else 0
  }

  lemma RunOneAdds(b: Batch, call: Asking, tools: seq<BoundTool>, exempt: Option<BoundTool>, result: Ran,
                   left: Allowance, before: nat)
    requires b.left == left.Minus(before)
    ensures var b' := RunOne(b, call, tools, exempt, result);
      && |b'.blocks| == |b.blocks| + 1 && b'.blocks[..|b.blocks|] == b.blocks
      && b'.blocks[|b.blocks|].ToolResult? && b'.blocks[|b.blocks|].id == call.id
      && b'.spent == b.spent + Charge(call, tools, exempt, left, before)
      && b'.left == left.Minus(before + Charge(call, tools, exempt, left, before))
  {
  }

  /** Every call is answered once and in order, whatever became of it; the account is kept; and what
      was spent is the cost of exactly the calls that fitted. */
  lemma {:induction false} BatchAnswersEveryCall(calls: seq<Asking>, tools: seq<BoundTool>, exempt: Option<BoundTool>,
                                                 left: Allowance, spent: int, invoke: nat -> Ran)
    ensures var b := RunAll(calls, tools, exempt, left, spent, invoke);
      && |b.blocks| == |calls| && (forall x :: x in b.blocks ==> x.ToolResult?)
      && ResultIds(b.blocks) == IdsOf(calls)
      && b.spent == spent + Charged(calls, tools, exempt, left, |calls|)
      && b.left == left.Minus(Charged(calls, tools, exempt, left, |calls|))
  {
    hide RunOne, Charge, Find;
    if calls != [] {
      var n := |calls| - 1;
      BatchAnswersEveryCall(calls[..n], tools, exempt, left, spent, invoke);
      ChargedPrefix(calls, tools, exempt, left, n, n);
      ChargedStep(calls, tools, exempt, left, n);
      var before := RunAll(calls[..n], tools, exempt, left, spent, invoke);
      var after := RunAll(calls, tools, exempt, left, spent, invoke);
      RunOneAdds(before, calls[n], tools, exempt, invoke(n), left, Charged(calls, tools, exempt, left, n));
      assert after.blocks == before.blocks + [after.blocks[n]];
      ResultIdsAppend(before.blocks, after.blocks[n]);
      assert IdsOf(calls) == IdsOf(calls[..n]) + [calls[n].id];
    } else {
      assert IdsOf(calls) == [];
    }
  }

  lemma ChargedStep(calls: seq<Asking>, tools: seq<BoundTool>, exempt: Option<BoundTool>, left: Allowance, n: nat)
    requires n < |calls|
    ensures Charged(calls, tools, exempt, left, n + 1) ==
            Charged(calls, tools, exempt, left, n) + Charge(calls[n], tools, exempt, left, Charged(calls, tools, exempt, left, n))
  {
  }

  lemma {:induction false} ChargedPrefix(calls: seq<Asking>, tools: seq<BoundTool>, exempt: Option<BoundTool>,
                                         left: Allowance,
                                         k: nat, n: nat)
    requires n <= k <= |calls|
    ensures Charged(calls[..k], tools, exempt, left, n) == Charged(calls, tools, exempt, left, n)
  {
    if n > 0 {
      ChargedPrefix(calls, tools, exempt, left, k, n - 1);
    }
  }

  lemma {:induction false} ChargedFits(given: Allowance, calls: seq<Asking>, tools: seq<BoundTool>,
                                       exempt: Option<BoundTool>,
                                       left: Allowance, spent: int, n: nat)
    requires Accounts(given, left, spent) && n <= |calls|
    ensures var charged := Charged(calls, tools, exempt, left, n);
      Accounts(given, left.Minus(charged), spent + charged)
  {
    if n > 0 {
      ChargedFits(given, calls, tools, exempt, left, spent, n - 1);
    }
  }

  // ---------------------------------------------------------------------------------------------
  // What becomes of each call.

  /** The call names a tool, and what it costs - nothing for the forced tool - still fits. */
  ghost predicate Fits(call: Asking, tools: seq<BoundTool>, exempt: Option<BoundTool>, left: Allowance, before: nat) {
    exists tool :: tool in tools && tool.name == call.name && Find(tools, call.name) == Some(tool) &&
      (left.Infinite? || before + (if exempt == Some(tool) then 0 else tool.cost) <= left.value)
  }

  /** A call that fits is answered by its tool's result, flagged as an error exactly when the result is
      one; any other call is answered by an error. */
  ghost predicate AnsweredFor(call: Asking, block: Block, fits: bool, result: Ran) {
    && block.ToolResult? && block.id == call.id
    && (if fits then result.text <= block.content && block.isError == !result.ok &&
                     block.path == result.path && block.byteCount == result.byteCount
        else block.isError && block.path == "")
  }

  lemma RunOneAnswers(b: Batch, call: Asking, tools: seq<BoundTool>, exempt: Option<BoundTool>, result: Ran,
                      left: Allowance, before: nat)
    requires b.left == left.Minus(before)
    ensures var b', fits := RunOne(b, call, tools, exempt, result), Fits(call, tools, exempt, left, before);
      && |b'.blocks| == |b.blocks| + 1 && b'.blocks[..|b.blocks|] == b.blocks
      && AnsweredFor(call, b'.blocks[|b.blocks|], fits, result)
      && b'.ran == b.ran + (if fits then [result] else [])
  {
  }

  /** The calls of the first `n` that fit, in order. */
  ghost function FittingCalls(calls: seq<Asking>, tools: seq<BoundTool>, exempt: Option<BoundTool>, left: Allowance,
                              n: nat): seq<nat>
    requires n <= |calls|
  {
    if n == 0 then []
    else
      var before := FittingCalls(calls, tools, exempt, left, n - 1);
      if Fits(calls[n - 1], tools, exempt, left, Charged(calls, tools, exempt, left, n - 1)) then before + [n - 1] else before
  }

  lemma {:induction false} FittingCallsExactly(calls: seq<Asking>, tools: seq<BoundTool>, exempt: Option<BoundTool>,
                                               left: Allowance, n: nat)
    requires n <= |calls|
    ensures var ks := FittingCalls(calls, tools, exempt, left, n);
      && (forall k: nat :: k in ks <==> k < n && Fits(calls[k], tools, exempt, left, Charged(calls, tools, exempt, left, k)))
      && (forall i, j :: 0 <= i < j < |ks| ==> ks[i] < ks[j])
  {
    hide Fits, Charged;
    if n > 0 {
      FittingCallsExactly(calls, tools, exempt, left, n - 1);
      var before := FittingCalls(calls, tools, exempt, left, n - 1);
      assert forall i :: 0 <= i < |before| ==> before[i] in before;
    }
  }

  function ResultsAt(invoke: nat -> Ran, ks: seq<nat>): (ran: seq<Ran>)
    ensures |ran| == |ks| && forall i :: 0 <= i < |ks| ==> ran[i] == invoke(ks[i])
  {
    seq(|ks|, i requires 0 <= i < |ks| => invoke(ks[i]))
  }

  lemma {:induction false} FittingPrefix(calls: seq<Asking>, tools: seq<BoundTool>, exempt: Option<BoundTool>, left: Allowance,
                                         k: nat, n: nat)
    requires n <= k <= |calls|
    ensures FittingCalls(calls[..k], tools, exempt, left, n) == FittingCalls(calls, tools, exempt, left, n)
  {
    hide Fits, Charged;
    if n > 0 {
      FittingPrefix(calls, tools, exempt, left, k, n - 1);
      ChargedPrefix(calls, tools, exempt, left, k, n - 1);
    }
  }

  /** A call that fits is charged its tool's cost, nothing when the tool is the forced one; no other call
      is charged. */
  lemma ChargedForFitting(calls: seq<Asking>, tools: seq<BoundTool>, exempt: Option<BoundTool>, left: Allowance, n: nat)
    requires n < |calls|
    ensures var before, after := Charged(calls, tools, exempt, left, n), Charged(calls, tools, exempt, left, n + 1);
      if Fits(calls[n], tools, exempt, left, before)
      then exists tool :: tool in tools && tool.name == calls[n].name &&
             after == before + (if exempt == Some(tool) then 0 else tool.cost)
      else after == before
  {
    var found := Find(tools, calls[n].name);
    if found.Some? {
      assert found.value in tools;
    }
  }

  /** Each call of a batch is answered as it deserves, and exactly the calls that fit have run, in order. */
  lemma {:induction false} BatchAnswersAsDeserved(calls: seq<Asking>, tools: seq<BoundTool>, exempt: Option<BoundTool>,
                                                  left: Allowance, spent: int, invoke: nat -> Ran)
    ensures var b := RunAll(calls, tools, exempt, left, spent, invoke);
      && |b.blocks| == |calls|
      && (forall i :: 0 <= i < |calls| ==>
            AnsweredFor(calls[i], b.blocks[i], Fits(calls[i], tools, exempt, left, Charged(calls, tools, exempt, left, i)),
                        invoke(i)))
      && b.ran == ResultsAt(invoke, FittingCalls(calls, tools, exempt, left, |calls|))
  {
    hide RunOne, Fits, AnsweredFor, Charged;
    if calls != [] {
      var n := |calls| - 1;
      var before, after := RunAll(calls[..n], tools, exempt, left, spent, invoke),
                           RunAll(calls, tools, exempt, left, spent, invoke);
      BatchAnswersAsDeserved(calls[..n], tools, exempt, left, spent, invoke);
      BatchAnswersEveryCall(calls[..n], tools, exempt, left, spent, invoke);
      ChargedPrefix(calls, tools, exempt, left, n, n);
      FittingPrefix(calls, tools, exempt, left, n, n);
      RunOneAnswers(before, calls[n], tools, exempt, invoke(n), left, Charged(calls, tools, exempt, left, n));
      forall i | 0 <= i < n
        ensures AnsweredFor(calls[i], after.blocks[i],
                            Fits(calls[i], tools, exempt, left, Charged(calls, tools, exempt, left, i)), invoke(i))
      {
        ChargedPrefix(calls, tools, exempt, left, n, i);
        assert calls[..n][i] == calls[i] && after.blocks[i] == after.blocks[..n][i];
      }
    }
  }
}
