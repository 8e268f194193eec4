/** The session object and its loop (session.py): every message it records keeps the transcript
    paired, every pass keeps the budget, and the loop ends within a number of model calls that can
    be told beforehand. */
module Conversations {
  import opened Options
  import opened Transcripts
  import opened Budgets
  import opened Sessions
  import opened Watermarks

  const NOTE_PREFIX := "Note from the operator: "
  const UNDERSTOOD := "Understood."

  function OutcomeOfUse(payload: Payload, final: bool): Outcome {
    match payload
    case Asked => NeedsInput
    case Idled(seenThrough) => Idling(seenThrough)
    case Submitted => if final then Exhausted else Completed
    case Other => Unfinished
  }

  /** The outcome of the first result that settles anything. */
  function Settled(ran: seq<Ran>, final: bool): Outcome {
    if ran == [] then Unfinished
    else if OutcomeOfUse(ran[0].payload, final) != Unfinished then OutcomeOfUse(ran[0].payload, final)
    else Settled(ran[1..], final)
  }

  predicate NothingSettled(ran: seq<Ran>) {
    forall i :: 0 <= i < |ran| ==> ran[i].payload == Other
  }

  /** The first result that is not ordinary decides: a question asks, an idle idles with its watermark, and
      a submission completes the session, or exhausts it on a final turn. */
  ghost predicate Concludes(ran: seq<Ran>, final: bool, outcome: Outcome) {
    exists i :: 0 <= i < |ran| && ran[i].payload != Other && NothingSettled(ran[..i]) &&
      match ran[i].payload
      case Asked => outcome == NeedsInput
      case Idled(seenThrough) => outcome == Idling(seenThrough)
      case Submitted => (if final then outcome == Exhausted else outcome == Completed)
  }

  lemma {:induction false} SettledConcludes(ran: seq<Ran>, final: bool)
    ensures Settled(ran, final) == Unfinished <==> NothingSettled(ran)
    ensures !NothingSettled(ran) ==> Concludes(ran, final, Settled(ran, final))
  {
    if ran != [] {
      SettledConcludes(ran[1..], final);
      if ran[0].payload == Other && !NothingSettled(ran[1..]) {
        FirstIsOrdinary(ran, final, Settled(ran, final));
      } else if ran[0].payload != Other {
        assert NothingSettled(ran[..0]);
      }
      assert NothingSettled(ran) <==> ran[0].payload == Other && NothingSettled(ran[1..]) by {
        if NothingSettled(ran) {
          assert forall i :: 0 <= i < |ran[1..]| ==> ran[1..][i] == ran[i + 1];
        }
        assert ran == [ran[0]] + ran[1..];
      }
    }
  }

  lemma FirstIsOrdinary(ran: seq<Ran>, final: bool, outcome: Outcome)
    requires ran != [] && ran[0].payload == Other && Concludes(ran[1..], final, outcome)
    ensures Concludes(ran, final, outcome)
  {
    var i :| 0 <= i < |ran[1..]| && ran[1..][i].payload != Other && NothingSettled(ran[1..][..i]) &&
      match ran[1..][i].payload
      case Asked => outcome == NeedsInput
      case Idled(seenThrough) => outcome == Idling(seenThrough)
      case Submitted => (if final then outcome == Exhausted else outcome == Completed);
    assert ran[i + 1] == ran[1..][i];
    assert ran[..i + 1] == [ran[0]] + ran[1..][..i];
  }

  function Forced(profile: Answering, turn: Turn): Option<BoundTool> {
    if turn.Final() then profile.Forces(turn) else None
  }

  function Invoking(env: Environment, pass: nat): nat -> Ran {
    (i: nat) => env.invoke(pass, i)
  }

  /** What a reply comes to. */
  function Evaluated(profile: Answering, turn: Turn, reply: Reply, invoke: nat -> Ran): Outcome {
    var final, forced := turn.Final(), Forced(profile, turn);
    if reply.calls == [] then if final then Failed else Unfinished
    else
      var settled := Settled(RunAll(reply.calls, turn.offered, forced, turn.remaining.toolCalls, 0, invoke).ran, final);
      if settled != Unfinished then settled
      else if final && AnsweringTool(forced) then Failed
      else Unfinished
  }

  /** The tries left for the next pass. */
  function TriesAfter(profile: Answering, turn: Turn, settled: seq<nat>): int
  {
    var forced := Forced(profile, turn);
    if forced.Some? && !AnsweringTool(forced)
    then if settled != turn.uncollected then COLLECT_TRIES else turn.tries - 1
    else turn.tries
  }

  /** The profile a role is assembled with: its answering tool is held, and collecting is not answering. */
  ghost predicate Answers(profile: Answering, tools: seq<BoundTool>) {
    profile.terminal in tools && profile.terminal.category.SUBMIT? && !profile.collect.category.SUBMIT?
  }

  /** A role assembled with an answering profile answers, however deep its agent is and whatever else it
      names: its terminal tool is among the tools brought, and no depth takes it away. */
  lemma AssembledAnswers(profile: Answering, available: seq<BoundTool>, named: set<string>, brought: seq<BoundTool>,
                         depth: int, maxDepth: int)
    requires Assemble(available, named, brought, depth, maxDepth).Some?
    requires profile.terminal in brought && profile.terminal in available && profile.terminal.category.SUBMIT?
    requires !profile.collect.category.SUBMIT?
    ensures Answers(profile, Assemble(available, named, brought, depth, maxDepth).value)
  {
    AssembledTools(available, named, brought, depth, maxDepth, profile.terminal);
  }

  /** On a final turn only a forced collection can leave the session unfinished. */
  lemma OnlyCollectingGoesOn(profile: Answering, turn: Turn, reply: Reply, invoke: nat -> Ran)
    requires Answers(profile, turn.offered) && turn.Final() && Evaluated(profile, turn, reply, invoke) == Unfinished
    ensures profile.Collecting(turn) && Forced(profile, turn) == Some(profile.collect)
  {
  }

  function TurnOf(tools: seq<BoundTool>, remaining: Budget, env: Environment, pass: nat, tries: int): Turn {
    Turn(tools, remaining, env.outstanding(pass), env.uncollected(pass), tries)
  }

  /** Where a session stands after some model calls: what is left, what was spent, the tries. */
  datatype Books = Books(remaining: Budget, spent: Spend, tries: int)

  /** What the calls of one reply are charged. */
  function ChargeAt(books: Books, tools: seq<BoundTool>, profile: Answering, env: Environment, pass: nat): nat {
    var calls := env.reply(pass).calls;
    Charged(calls, tools, Forced(profile, TurnOf(tools, books.remaining, env, pass, books.tries)),
            books.remaining.toolCalls, |calls|)
  }

  /** The books over a run, kept without running it: each pass that is not final takes a turn, and each
      reply is charged for its permitted calls, the forced tool free of charge. */
  function BooksAfter(budget: Budget, tools: seq<BoundTool>, profile: Answering, env: Environment, passes: nat): Books {
    if passes == 0 then Books(budget, NOTHING_SPENT, COLLECT_TRIES)
    else
      var pass := passes - 1;
      var books := BooksAfter(budget, tools, profile, env, pass);
      var turn := TurnOf(tools, books.remaining, env, pass, books.tries);
      var charge, taken := ChargeAt(books, tools, profile, env, pass), if turn.Final() then 0 else 1;
      Books(Budget(books.remaining.turns.Minus(taken), books.remaining.toolCalls.Minus(charge)),
            Spend(books.spent.turns + taken, books.spent.toolCalls + charge),
            TriesAfter(profile, turn, env.settled(pass)))
  }

  /** The charges of a run, pass by pass, added up. */
  function TotalCharge(budget: Budget, tools: seq<BoundTool>, profile: Answering, env: Environment, passes: nat): nat {
    if passes == 0 then 0
    else
      TotalCharge(budget, tools, profile, env, passes - 1) +
      ChargeAt(BooksAfter(budget, tools, profile, env, passes - 1), tools, profile, env, passes - 1)
  }

  /** Over any number of passes the books balance, the tool calls spent are the charges of all of them
      added up, and the turns spent are the passes up to the allowance. */
  lemma {:induction false} BooksBalance(budget: Budget, tools: seq<BoundTool>, profile: Answering,
                                        env: Environment, passes: nat)
    ensures var books := BooksAfter(budget, tools, profile, env, passes);
      && Balanced(budget, books.remaining, books.spent)
      && books.spent.toolCalls == TotalCharge(budget, tools, profile, env, passes)
      && books.spent.turns == (if budget.turns.Infinite? || passes < TurnsGiven(budget) then passes else TurnsGiven(budget))
  {
    hide Charged, TriesAfter, Forced;
    if passes > 0 {
      var pass := passes - 1;
      BooksBalance(budget, tools, profile, env, pass);
      var books := BooksAfter(budget, tools, profile, env, pass);
      ChargedFits(budget.toolCalls, env.reply(pass).calls, tools,
                  Forced(profile, TurnOf(tools, books.remaining, env, pass, books.tries)),
                  books.remaining.toolCalls, books.spent.toolCalls, |env.reply(pass).calls|);
    }
  }

  lemma BooksStart(budget: Budget, tools: seq<BoundTool>, profile: Answering, env: Environment)
    ensures BooksAfter(budget, tools, profile, env, 0) == Books(budget, NOTHING_SPENT, COLLECT_TRIES)
  {
  }

  /** What one pass that asks the model does to the books. */
  lemma BooksStep(budget: Budget, tools: seq<BoundTool>, profile: Answering, env: Environment, pass: nat, before: Books,
                  remaining: Budget, spent: Spend)
    requires before == BooksAfter(budget, tools, profile, env, pass)
    requires var turn := TurnOf(tools, before.remaining, env, pass, before.tries);
      var charge := Charged(env.reply(pass).calls, tools, Forced(profile, turn), before.remaining.toolCalls,
                            |env.reply(pass).calls|);
      && remaining.turns == (if turn.Final() then before.remaining.turns else before.remaining.turns.Minus(1))
      && spent.turns == (if turn.Final() then before.spent.turns else before.spent.turns + 1)
      && remaining.toolCalls == before.remaining.toolCalls.Minus(charge)
      && spent.toolCalls == before.spent.toolCalls + charge
    ensures var turn := TurnOf(tools, before.remaining, env, pass, before.tries);
      BooksAfter(budget, tools, profile, env, pass + 1) == Books(remaining, spent, TriesAfter(profile, turn, env.settled(pass)))
  {
    hide Charged, TriesAfter;
  }

  /** The transcript with an instruction of the user's at the end, after a word of the assistant's. */
  function Prompted(messages: seq<Message>, number: int, text: string): seq<Message> {
    if messages != [] && messages[|messages| - 1].role.USER?
    then messages + [Message(ASSISTANT, [Text(UNDERSTOOD)], number)] + [Message(USER, [Text(text)], number + 1)]
    else messages + [Message(USER, [Text(text)], number)]
  }

  /** What follows a reply: its calls answered in one message, or a nudge when it makes none, unless the
      turn was final. */
  ghost predicate Followed(before: seq<Message>, number: int, after: seq<Message>, reply: Reply, final: bool) {
    if reply.calls == [] && final then after == before
    else
      && |after| == |before| + 1 && after[..|before|] == before
      && after[|before|].role.USER? && after[|before|].number == number
      && (if reply.calls == [] then after[|before|].blocks == [Text(NUDGE)]
          else ResultIds(after[|before|].blocks) == IdsOf(reply.calls))
  }

  const COLLECT_NOW := "Your budget is exhausted, and some children have answers you have never read."
  const ANSWER_NOW := "Your budget is exhausted. Answer now from what you already know."
  const NUDGE := "Answers are only accepted through the answering tool."

  function Instruction(profile: Answering, turn: Turn): string {
    if profile.Collecting(turn) then COLLECT_NOW else ANSWER_NOW
  }

  /** A final turn asks for a collection exactly when it forces one, and else for the answer. */
  lemma AsksForWhatItForces(profile: Answering, turn: Turn)
    requires turn.Final() && profile.collect != profile.terminal
    ensures Forced(profile, turn) == Some(profile.collect) <==> Instruction(profile, turn) == COLLECT_NOW
    ensures Instruction(profile, turn) == COLLECT_NOW || Instruction(profile, turn) == ANSWER_NOW
  {
    assert |COLLECT_NOW| != |ANSWER_NOW|;
  }

  // ---------------------------------------------------------------------------------------------
  // Plain text neither calls nor answers.

  lemma TextIsPlain(text: string)
    ensures UseIds([Text(text)]) == [] && ResultIds([Text(text)]) == []
  {
    assert [Text(text)][1..] == [];
  }

  lemma OneUse(use: Block, blocks: seq<Block>)
    requires use.ToolUse?
    ensures UseIds([use] + blocks) == [use.id] + UseIds(blocks) && ResultIds([use] + blocks) == ResultIds(blocks)
  {
    assert ([use] + blocks)[1..] == blocks;
  }

  lemma {:induction false} AskedIds(calls: seq<Asking>)
    ensures UseIds(UsesOf(calls)) == IdsOf(calls) && ResultIds(UsesOf(calls)) == []
  {
    if calls != [] {
      var use := ToolUse(calls[0].id, calls[0].name, calls[0].arguments);
      AskedIds(calls[1..]);
      OneUse(use, UsesOf(calls[1..]));
      assert IdsOf(calls) == [calls[0].id] + IdsOf(calls[1..]);
    } else {
      assert IdsOf(calls) == [];
    }
  }

  /** A reply calls what it asks for and answers nothing. */
  lemma ReplyIds(reply: Reply)
    ensures UseIds(BlocksOf(reply)) == IdsOf(reply.calls) && ResultIds(BlocksOf(reply)) == []
  {
    AskedIds(reply.calls);
    if reply.text == "" {
      assert BlocksOf(reply) == UsesOf(reply.calls);
    } else {
      assert BlocksOf(reply)[1..] == UsesOf(reply.calls);
    }
  }

  lemma {:induction false} OnlyUses(calls: seq<Asking>)
    ensures TextOf(UsesOf(calls)) == "" && Calls(UsesOf(calls)) == UsesOf(calls) && ToolMessages(UsesOf(calls)) == []
  {
    if calls != [] {
      OnlyUses(calls[1..]);
      assert UsesOf(calls)[1..] == UsesOf(calls[1..]);
    }
  }

  /** What the model said and called goes back to it as it came, under the assistant's role. */
  lemma ReplyIsSentBack(reply: Reply, number: int)
    ensures ToWire(Message(ASSISTANT, BlocksOf(reply), number)) ==
            if reply.text == "" && reply.calls == [] then [] else [Chat(ASSISTANT, reply.text, UsesOf(reply.calls))]
  {
    hide TextOf, Calls, ToolMessages, UsesOf;
    OnlyUses(reply.calls);
    TextFirst(reply.text, UsesOf(reply.calls));
    assert reply.text + "" == reply.text && [] + UsesOf(reply.calls) == UsesOf(reply.calls);
  }

  lemma TextFirst(text: string, blocks: seq<Block>)
    ensures TextOf([Text(text)] + blocks) == text + TextOf(blocks)
    ensures Calls([Text(text)] + blocks) == Calls(blocks) && ToolMessages([Text(text)] + blocks) == ToolMessages(blocks)
  {
    assert ([Text(text)] + blocks)[1..] == blocks;
  }

  function NoteMessages(notes: seq<string>, number: int): (delivered: seq<Message>)
    ensures |delivered| == |notes|
    ensures forall i :: 0 <= i < |notes| ==> delivered[i] == Message(USER, [Text(NOTE_PREFIX + notes[i])], number + i)
  {
    if notes == [] then []
    else
      var n := |notes| - 1;
      NoteMessages(notes[..n], number) + [Message(USER, [Text(NOTE_PREFIX + notes[n])], number + n)]
  }

  /** What the model is offered on one call, and the tool it is made to call. */
  datatype Request = Request(offered: seq<BoundTool>, forced: Option<BoundTool>)

  // ---------------------------------------------------------------------------------------------
  // The session.

  class Session {
    const tools: seq<BoundTool>
    const profile: Answering
    const budget: Budget
    const env: Environment
    const disk: seq<Message>
    const history: seq<Message>
    var remaining: Budget
    var spent: Spend
    var number: nat
    var messages: seq<Message>
    var log: seq<Message>
    var modelCalls: nat
    var requests: seq<Request>

    /** Paired and numbered, on the books, and the log holds what was recorded since the start. */
    ghost predicate Kept()
      reads this
    {
      && Paired(messages) && Numbered(messages) && number == |messages|
      && Balanced(budget, remaining, spent)
      && |history| <= |messages| && messages[..|history|] == history && log == disk + messages[|history|..]
    }

    /** Between passes nothing waits for an answer. */
    ghost predicate AtRest()
      reads this
    {
      Kept() && Pending(messages) == []
    }

    /** Resumes from whatever prefix of a paired transcript is on disk, or starts afresh. */
    constructor (tools: seq<BoundTool>, profile: Answering, budget: Budget, env: Environment, disk: seq<Message>, goal: string)
      requires Paired(disk) && Numbered(disk)
      ensures this.tools == tools && this.profile == profile && this.budget == budget && this.env == env && this.disk == disk
      ensures AtRest() && remaining == budget && spent == NOTHING_SPENT && modelCalls == 0 && requests == []
      ensures history == Repair(disk)
      ensures messages == if disk == [] then [Message(USER, [Text(goal)], 0)] else Repair(disk)
    {
      hide Paired, Numbered, Repair, Shaped, Interrupted;
      this.tools, this.profile, this.budget, this.env, this.disk := tools, profile, budget, env, disk;
      history, messages, log := Repair(disk), Repair(disk), disk;
      remaining, spent, number, modelCalls, requests := budget, NOTHING_SPENT, |Repair(disk)|, 0, [];
      new;
      RepairPairs(disk);
      assert disk + messages[|history|..] == disk;
      assert Repair(disk) == [] <==> disk == [];
      if messages == [] {
        assert messages + [Message(USER, [Text(goal)], 0)] == [Message(USER, [Text(goal)], 0)];
        Say(USER, goal);
      }
    }

    /** The one place a message is made: it must answer exactly what is pending. */
    method Record(role: Role, blocks: seq<Block>)
      requires Kept() && Shaped(Message(role, blocks, number)) && ResultIds(blocks) == Pending(messages)
      modifies this`messages, this`number, this`log
      ensures messages == old(messages) + [Message(role, blocks, old(number))]
      ensures Kept() && Pending(messages) == UseIds(blocks)
    {
      hide Shaped, Paired, Numbered, Balanced, UseIds, ResultIds;
      PairedAppend(messages, Message(role, blocks, number));
      var message := Message(role, blocks, number);
      number := number + 1;
      messages := messages + [message];
      log := log + [message];
    }

    method Say(role: Role, text: string)
      requires AtRest()
      modifies this`messages, this`number, this`log
      ensures messages == old(messages) + [Message(role, [Text(text)], old(number))] && AtRest()
      ensures number == old(number) + 1
    {
      TextIsPlain(text);
      Record(role, [Text(text)]);
    }

    method Deliver(notes: seq<string>)
      requires AtRest()
      modifies this`messages, this`number, this`log
      ensures AtRest() && messages == old(messages) + NoteMessages(notes, old(number))
    {
      hide AtRest, Kept;
      for i := 0 to |notes|
        invariant AtRest() && messages == old(messages) + NoteMessages(notes[..i], old(number)) && number == old(number) + i
      {
        assert notes[..i + 1][..i] == notes[..i];
        Say(USER, NOTE_PREFIX + notes[i]);
      }
      assert notes[..|notes|] == notes;
    }

    /** Runs what the reply asked for, as far as the allowance goes, and answers every call. */
    method RunTools(calls: seq<Asking>, exempt: Option<BoundTool>, pass: nat) returns (ran: seq<Ran>)
      requires Kept() && calls != [] && Pending(messages) == IdsOf(calls)
      modifies this`messages, this`number, this`log, this`remaining, this`spent
      ensures AtRest()
      ensures var b := RunAll(calls, tools, exempt, old(remaining.toolCalls), old(spent.toolCalls), Invoking(env, pass));
        && ran == b.ran && messages == old(messages) + [Message(USER, b.blocks, old(number))]
        && remaining == old(remaining).(toolCalls := b.left) && spent == old(spent).(toolCalls := b.spent)
        && ResultIds(b.blocks) == IdsOf(calls)
      ensures var left := old(remaining.toolCalls);
        && |messages[|old(messages)|].blocks| == |calls|
        && (forall i :: 0 <= i < |calls| ==>
              AnsweredFor(calls[i], messages[|old(messages)|].blocks[i],
                          Fits(calls[i], tools, exempt, left, Charged(calls, tools, exempt, left, i)), env.invoke(pass, i)))
        && ran == ResultsAt(Invoking(env, pass), FittingCalls(calls, tools, exempt, left, |calls|))
    {
      hide Fits, AnsweredFor, Charged, FittingCalls, ResultsAt;
      hide Paired, Numbered, Shaped, UseIds, ResultIds, Find, Cost, OverBudget, Refusal, Answered;
      var blocks: seq<Block> := [];
      ran := [];
      ghost var invoke := Invoking(env, pass);
      var i := 0;
      while i < |calls|
        invariant 0 <= i <= |calls| && messages == old(messages) && log == old(log) && number == old(number)
        invariant var b := RunAll(calls[..i], tools, exempt, old(remaining.toolCalls), old(spent.toolCalls), invoke);
          && ran == b.ran && blocks == b.blocks
          && remaining == old(remaining).(toolCalls := b.left) && spent == old(spent).(toolCalls := b.spent)
      {
        assert calls[..i + 1][..i] == calls[..i];
        var call := calls[i];
        var tool := Find(tools, call.name);
        if tool.None? {
          blocks := blocks + [Refusal(call.id, "unknown tool " + call.name)];
        } else {
          var cost := Cost(tool.value, exempt);
          if !remaining.toolCalls.Permits(cost) {
            blocks := blocks + [OverBudget(call.id, tool.value, remaining.toolCalls)];
          } else {
            remaining := remaining.SpendToolCalls(cost);
            spent := Spend(spent.turns, spent.toolCalls + cost);
            var result := env.invoke(pass, i);
            ran := ran + [result];
            blocks := blocks + [Answered(call.id, result)];
          }
        }
        i := i + 1;
      }
      assert calls[..|calls|] == calls;
      BatchIsRecordable(budget, calls, tools, exempt, old(remaining.toolCalls), old(spent.toolCalls), invoke);
      BatchAnswersAsDeserved(calls, tools, exempt, old(remaining.toolCalls), old(spent.toolCalls), invoke);
      Record(USER, blocks);
    }

    /** Asks for the answer, or for a collection, on a final turn. */
    method PrepareFinalTurn(turn: Turn)
      requires AtRest()
      modifies this`messages, this`number, this`log
      ensures AtRest() && old(messages) <= messages
      ensures messages == Prompted(old(messages), old(number), Instruction(profile, turn))
    {
      hide AtRest, Kept;
      if messages != [] && messages[|messages| - 1].role.USER? {
        Say(ASSISTANT, UNDERSTOOD);
      }
      Say(USER, Instruction(profile, turn));
    }

    /** What the reply comes to; every call in it is answered and everything else is spoken to. */
    method EvaluateTurn(reply: Reply, turn: Turn, forced: Option<BoundTool>, pass: nat) returns (outcome: Outcome)
      requires Kept() && Pending(messages) == IdsOf(reply.calls)
      requires turn.offered == tools && turn.remaining.toolCalls == remaining.toolCalls
      requires forced == Forced(profile, turn)
      modifies this`messages, this`number, this`log, this`remaining, this`spent
      ensures AtRest() && old(messages) <= messages && remaining.turns == old(remaining).turns && spent.turns == old(spent).turns
      ensures outcome == Evaluated(profile, turn, reply, Invoking(env, pass))
      ensures reply.calls == [] ==> outcome == if turn.Final() then Failed else Unfinished
      ensures reply.calls != [] ==>
                var ran := RunAll(reply.calls, tools, forced, old(remaining).toolCalls, 0, Invoking(env, pass)).ran;
                if !NothingSettled(ran) then Concludes(ran, turn.Final(), outcome)
                else outcome == if turn.Final() && forced.Some? && forced.value.category.SUBMIT? then Failed else Unfinished
      ensures Followed(old(messages), old(number), messages, reply, turn.Final())
      ensures spent.toolCalls == old(spent).toolCalls +
                Charged(reply.calls, tools, forced, old(remaining).toolCalls, |reply.calls|)
      ensures remaining.toolCalls == old(remaining).toolCalls.Minus(
                Charged(reply.calls, tools, forced, old(remaining).toolCalls, |reply.calls|))
    {
      hide Kept, Pending, RunAll, Settled, Forced, Invoking, Charged, Concludes, NothingSettled, ResultIds;
      if reply.calls == [] {
        NothingAsked(reply.calls);
        ChargedNothing(reply.calls, tools, forced, remaining.toolCalls);
        if turn.Final() {
          return Failed;
        }
        Say(USER, NUDGE);
        return Unfinished;
      }
      SpentIsCharged(reply.calls, tools, forced, remaining.toolCalls, spent.toolCalls, Invoking(env, pass));
      var ran := RunTools(reply.calls, forced, pass);
      SettledConcludes(ran, turn.Final());
      outcome := Settled(ran, turn.Final());
      if outcome == Unfinished && turn.Final() && AnsweringTool(forced) {
        outcome := Failed;
      }
    }

    /** Asks the model once, on a turn that does not halt, and lets its reply count. */
    method Ask(pass: nat, turn: Turn) returns (outcome: Outcome)
      requires AtRest() && turn.offered == tools && turn.remaining == remaining
      modifies this`messages, this`number, this`log, this`remaining, this`spent, this`modelCalls, this`requests
      ensures AtRest() && old(messages) <= messages && modelCalls == old(modelCalls) + 1
      ensures requests == old(requests) + [Request(profile.Offers(turn), Forced(profile, turn))]
      ensures outcome == Evaluated(profile, turn, env.reply(pass), Invoking(env, pass))
      ensures remaining.turns == (if turn.Final() then old(remaining).turns else old(remaining).turns.Minus(1))
      ensures spent.turns == (if turn.Final() then old(spent).turns else old(spent).turns + 1)
      ensures remaining.toolCalls == old(remaining).toolCalls.Minus(
                Charged(env.reply(pass).calls, tools, Forced(profile, turn), old(remaining).toolCalls, |env.reply(pass).calls|))
      ensures spent.toolCalls == old(spent).toolCalls +
                Charged(env.reply(pass).calls, tools, Forced(profile, turn), old(remaining).toolCalls, |env.reply(pass).calls|)
      ensures Heard(old(messages), messages, turn, pass)
    {
      hide AtRest, Kept, Pending, Evaluated, Charged, BlocksOf, UseIds, ResultIds, Prompted, Followed, Concludes;
      hide NothingSettled, Instruction;
      var forced := if turn.Final() then profile.Forces(turn) else None;
      RestIsCounted();
      if turn.Final() {
        PrepareFinalTurn(turn);
      } else {
        SpendTurn();
      }
      RestIsCounted();
      var reply := Complete(pass, profile.Offers(turn), forced);
      outcome := EvaluateTurn(reply, turn, forced, pass);
    }

    /** What asking records: on a final turn the instruction, then the reply, then what follows it. */
    ghost predicate Heard(before: seq<Message>, after: seq<Message>, turn: Turn, pass: nat) {
      var asked := if turn.Final() then Prompted(before, |before|, Instruction(profile, turn)) else before;
      Followed(asked + [Message(ASSISTANT, BlocksOf(env.reply(pass)), |asked|)], |asked| + 1, after,
               env.reply(pass), turn.Final())
    }

    /** One pass of the loop: the notes first; then it halts over children at work on a final turn, or asks
        the model once and lets its reply count. */
    method Pass(pass: nat, tries: int) returns (outcome: Outcome, left: int)
      requires AtRest()
      modifies this`messages, this`number, this`log, this`remaining, this`spent, this`modelCalls, this`requests
      ensures AtRest() && old(messages) <= messages
      ensures var turn, noted := TurnOf(tools, old(remaining), env, pass, tries),
                                 old(messages) + NoteMessages(env.notes(pass), old(number));
        && (turn.Final() && env.outstanding(pass) != [] ==>
              outcome == Idling(NO_WATERMARK) && modelCalls == old(modelCalls) && requests == old(requests)
              && remaining == old(remaining) && spent == old(spent) && messages == noted)
        && (!(turn.Final() && env.outstanding(pass) != []) ==>
              && modelCalls == old(modelCalls) + 1 && Heard(noted, messages, turn, pass)
              && requests == old(requests) + [Request(profile.Offers(turn), Forced(profile, turn))]
              && outcome == Evaluated(profile, turn, env.reply(pass), Invoking(env, pass))
              && (outcome == Unfinished ==> left == TriesAfter(profile, turn, env.settled(pass)))
              && remaining.turns == (if turn.Final() then old(remaining).turns else old(remaining).turns.Minus(1))
              && spent.turns == (if turn.Final() then old(spent).turns else old(spent).turns + 1)
              && remaining.toolCalls == old(remaining).toolCalls.Minus(
                   Charged(env.reply(pass).calls, tools, Forced(profile, turn), old(remaining).toolCalls,
                           |env.reply(pass).calls|))
              && spent.toolCalls == old(spent).toolCalls +
                   Charged(env.reply(pass).calls, tools, Forced(profile, turn), old(remaining).toolCalls,
                           |env.reply(pass).calls|))
    {
      hide AtRest, Evaluated, Charged, NoteMessages, Heard;
      Deliver(env.notes(pass));
      var turn := TurnOf(tools, remaining, env, pass, tries);
      left := tries;
      outcome := profile.Halts(turn);
      if outcome != Unfinished {
        return;
      }
      outcome := Ask(pass, turn);
      var forced := Forced(profile, turn);
      if outcome == Unfinished && forced.Some? && !AnsweringTool(forced) {
        left := if env.settled(pass) != turn.uncollected then COLLECT_TRIES else tries - 1;
      }
    }

    /** The next message's number is how many there are. */
    lemma RestIsCounted()
      requires AtRest()
      ensures number == |messages|
    {
    }

    /** A session with a finite turn allowance ends, after at most its turns, two tries for each child
        still uncollected at its first final turn, and one answer. */
    method Loop() returns (outcome: Outcome)
      requires AtRest() && remaining == budget && spent == NOTHING_SPENT && modelCalls == 0 && requests == []
      requires budget.turns.Finite? && Answers(profile, tools) && OnlyShrinks(env, TurnsGiven(budget))
      modifies this`messages, this`number, this`log, this`remaining, this`spent, this`modelCalls, this`requests
      ensures AtRest() && old(messages) <= messages && outcome != Unfinished
      ensures modelCalls <= TurnsGiven(budget) + COLLECT_TRIES * |env.uncollected(TurnsGiven(budget))| + 1
      ensures Balanced(budget, remaining, spent)
      ensures spent.toolCalls == TotalCharge(budget, tools, profile, env, modelCalls)
      ensures spent.turns == if modelCalls < TurnsGiven(budget) then modelCalls else TurnsGiven(budget)
      ensures |requests| == modelCalls
      ensures forall k :: 0 <= k < |requests| ==> AsksInTurn(requests, tools, profile, env, TurnsGiven(budget), k)
      ensures outcome == Completed ==> modelCalls <= TurnsGiven(budget)
      ensures outcome == Exhausted || outcome == Failed ==> modelCalls > TurnsGiven(budget)
    {
      hide Kept, Pending, Evaluated, Charged, TriesAfter, OnlyShrinks, PassesLeft, TotalCharge, AsksInTurn, TriesBy;
      hide NoteMessages, Heard, AllCollecting, Answers, Forced, InStep, InTime, TriesHeld;
      hide BooksAfter;
      var tries, pass := COLLECT_TRIES, 0;
      ghost var turns := TurnsGiven(budget);
      ghost var most := turns + COLLECT_TRIES * |env.uncollected(turns)|;
      StartsInTime(env, turns, most);
      StartsInStep(budget);
      BooksStart(budget, tools, profile, env);
      StartsCollecting(profile, env, turns);
      while true
        invariant AtRest() && old(messages) <= messages && modelCalls == pass == |requests| && pass <= most + 1
        invariant InStep(budget, remaining, pass) && InTime(env, pass, tries, turns, most)
        invariant Books(remaining, spent, tries) == BooksAfter(budget, tools, profile, env, pass)
        invariant tries == TriesBy(env, turns, pass) && AllCollecting(requests, profile, turns)
        invariant TriesHeld(env, turns, pass)
        invariant forall k :: 0 <= k < pass ==> AsksInTurn(requests, tools, profile, env, turns, k)
        decreases most + 1 - pass
      {
        ghost var turn, before := TurnOf(tools, remaining, env, pass, tries), requests;
        ghost var books := Books(remaining, spent, tries);
        FinalInStep(budget, remaining, pass);
        outcome, tries := Pass(pass, tries);
        if !(turn.Final() && env.outstanding(pass) != []) {
          StillInTime(env, pass, turn.tries, turns, most);
          BooksStep(budget, tools, profile, env, pass, books, remaining, spent);
          AsksNext(before, requests, turn, tools, profile, env, turns, pass);
          OutcomeByTurn(profile, turn, env.reply(pass), Invoking(env, pass));
        }
        if outcome != Unfinished {
          BooksBalance(budget, tools, profile, env, modelCalls);
          return;
        }
        StepsInTime(profile, budget, turn, env, pass, turns, most);
        StepsInStep(budget, turn.remaining, remaining, pass);
        TriesStep(before, requests, turn, tools, profile, env, turns, pass);
        pass := pass + 1;
      }
    }

    method SpendTurn()
      requires AtRest() && !remaining.TurnsExhausted()
      modifies this`remaining, this`spent
      ensures AtRest() && remaining == old(remaining).SpendTurn() && spent == old(spent).(turns := old(spent).turns + 1)
    {
      remaining := remaining.SpendTurn();
      spent := Spend(spent.turns + 1, spent.toolCalls);
    }

    /** Asks the model and records its reply. */
    method Complete(pass: nat, offered: seq<BoundTool>, forced: Option<BoundTool>) returns (reply: Reply)
      requires AtRest()
      modifies this`messages, this`number, this`log, this`modelCalls, this`requests
      ensures reply == env.reply(pass) && modelCalls == old(modelCalls) + 1
      ensures requests == old(requests) + [Request(offered, forced)]
      ensures Kept() && messages == old(messages) + [Message(ASSISTANT, BlocksOf(reply), old(number))]
      ensures number == old(number) + 1
      ensures Pending(messages) == IdsOf(reply.calls)
    {
      reply := env.reply(pass);
      modelCalls := modelCalls + 1;
      requests := requests + [Request(offered, forced)];
      ReplyIds(reply);
      Record(ASSISTANT, BlocksOf(reply));
    }
  }

  // ---------------------------------------------------------------------------------------------
  // What the model is sent, and what stays on disk.

  /** Whenever the model is asked, the wire is one a provider reads without objection, with nothing open. */
  lemma SentIsAccepted(session: Session, size: Message -> nat, aboveTokens: int, keepRecent: int)
    requires session.AtRest()
    ensures ReadAll(WireOf(ForWire(session.messages, size, aboveTokens, keepRecent)), Open([])) == Open([])
  {
    hide Paired, WireOf, ForWire;
    WireIsAccepted(session.messages, size, aboveTokens, keepRecent);
  }

  /** A session keeps its own messages paired, but its log only if the log it resumed had nothing pending. */
  lemma LogIsPairedExactly(session: Session)
    requires session.Kept() && session.history == Repair(session.disk) && Paired(session.disk)
    requires |session.messages| > |session.history|
    ensures Paired(session.log) <==> Pending(session.disk) == []
  {
    hide Paired, Numbered, Repair, Pending;
    var added := session.messages[|session.history|..];
    assert session.messages == session.history + added;
    ResumedLogPairedExactly(session.disk, added);
  }

  // ---------------------------------------------------------------------------------------------
  // Why the loop ends.

  function TurnsGiven(budget: Budget): nat {
    if budget.turns.Finite? && budget.turns.value > 0 then budget.turns.value else 0
  }

  predicate NoLonger(before: seq<nat>, after: seq<nat>) {
    after == before || |after| < |before|
  }

  /** From this pass on nobody new is left to collect, unless somebody is at work again. */
  ghost predicate OnlyShrinks(env: Environment, from: nat) {
    forall k: nat {:trigger env.settled(k)} :: k >= from ==>
      env.outstanding(k + 1) != [] ||
      (NoLonger(env.uncollected(k), env.settled(k)) && NoLonger(env.settled(k), env.uncollected(k + 1)))
  }

  /** How many forced collections can still fail to end the session. */
  function PassesLeft(uncollected: seq<nat>, tries: int): nat {
    if uncollected == [] || tries <= 0 then 0 else 2 * (|uncollected| - 1) + tries
  }

  /** The turn allowance falls with the passes until it is used up. */
  ghost predicate InStep(budget: Budget, remaining: Budget, pass: nat) {
    && budget.turns.Finite? && remaining.turns.Finite?
    && remaining.turns.value == budget.turns.value - (if pass < TurnsGiven(budget) then pass else TurnsGiven(budget))
  }

  ghost predicate InTime(env: Environment, pass: nat, tries: int, turns: nat, most: nat) {
    && tries <= COLLECT_TRIES && (pass <= turns ==> tries == COLLECT_TRIES)
    && most == turns + COLLECT_TRIES * |env.uncollected(turns)|
    && (pass >= turns && env.outstanding(pass) == [] ==> pass + PassesLeft(env.uncollected(pass), tries) <= most)
  }

  // ---------------------------------------------------------------------------------------------
  // Which tool each model call is made to use, told from the readings of the children alone.

  /** The two passes before were forced collections, and neither changed what is uncollected. */
  ghost predicate TriedTwice(requests: seq<Request>, profile: Answering, env: Environment, turns: nat, k: nat)
    requires k <= |requests|
  {
    && k >= turns + 2
    && requests[k - 1].forced == Some(profile.collect) && env.settled(k - 1) == env.uncollected(k - 1)
    && requests[k - 2].forced == Some(profile.collect) && env.settled(k - 2) == env.uncollected(k - 2)
  }

  /** Before the turns are gone nothing is forced, and idling and answering are each offered in their own
      situation. After that no child is at work, one tool is offered and forced: the collection while
      something is uncollected, the tool is held, and it has not just failed twice; else the answer. */
  ghost predicate AsksInTurn(requests: seq<Request>, tools: seq<BoundTool>, profile: Answering, env: Environment,
                             turns: nat, k: nat)
    requires k < |requests|
  {
    var request := requests[k];
    if k < turns then
      && request.forced == None
      && forall t :: t in request.offered <==>
           && t in tools && !(t == profile.idle && env.outstanding(k) == [])
           && !(t == profile.terminal && (env.outstanding(k) != [] || env.uncollected(k) != []))
    else
      && env.outstanding(k) == []
      && request.forced == Some(if env.uncollected(k) != [] && profile.collect in tools &&
                                   !TriedTwice(requests, profile, env, turns, k)
                                then profile.collect else profile.terminal)
      && request.offered == [request.forced.value]
  }

  /** When every forced collection changes what is uncollected, as it does when it takes an answer, the
      session is made to answer only once nothing is left to collect. */
  lemma EveryAnswerIsRead(requests: seq<Request>, tools: seq<BoundTool>, profile: Answering, env: Environment, turns: nat,
                          k: nat)
    requires k < |requests| && AsksInTurn(requests, tools, profile, env, turns, k) && k >= turns
    requires profile.collect in tools && Answers(profile, tools)
    requires forall i :: 0 <= i < k && requests[i].forced == Some(profile.collect) ==> env.settled(i) != env.uncollected(i)
    ensures requests[k].forced == Some(profile.terminal) <==> env.uncollected(k) == []
  {
  }

  /** The tries left at a pass, from the readings alone. */
  function TriesBy(env: Environment, turns: nat, k: nat): int {
    if k <= turns then COLLECT_TRIES
    else if env.settled(k - 1) != env.uncollected(k - 1) then COLLECT_TRIES
    else TriesBy(env, turns, k - 1) - 1
  }

  /** Every final pass so far was a forced collection, made with a try left. */
  ghost predicate AllCollecting(requests: seq<Request>, profile: Answering, turns: nat) {
    forall i :: turns <= i < |requests| ==> requests[i].forced == Some(profile.collect)
  }

  ghost predicate TriesHeld(env: Environment, turns: nat, passes: nat) {
    forall i: nat :: turns <= i < passes ==> TriesBy(env, turns, i) > 0
  }

  lemma {:induction false} TriesBounded(env: Environment, turns: nat, k: nat)
    ensures TriesBy(env, turns, k) <= COLLECT_TRIES
  {
    if k > turns {
      TriesBounded(env, turns, k - 1);
    }
  }

  lemma NoTriesExactly(requests: seq<Request>, profile: Answering, env: Environment, turns: nat)
    requires AllCollecting(requests, profile, turns) && TriesHeld(env, turns, |requests|)
    ensures TriesBy(env, turns, |requests|) <= 0 <==> TriedTwice(requests, profile, env, turns, |requests|)
  {
    var k := |requests|;
    if k >= turns + 2 {
      TriesBounded(env, turns, k - 2);
      assert TriesBy(env, turns, k - 1) > 0 && TriesBy(env, turns, k - 2) > 0;
    }
  }

  lemma StartsCollecting(profile: Answering, env: Environment, turns: nat)
    ensures AllCollecting([], profile, turns) && TriesHeld(env, turns, 0) && TriesBy(env, turns, 0) == COLLECT_TRIES
  {
  }

  lemma StartsInStep(budget: Budget)
    requires budget.turns.Finite?
    ensures InStep(budget, budget, 0)
  {
  }

  lemma StepsInStep(budget: Budget, before: Budget, after: Budget, pass: nat)
    requires InStep(budget, before, pass)
    requires after.turns == if before.TurnsExhausted() then before.turns else before.turns.Minus(1)
    ensures InStep(budget, after, pass + 1)
  {
  }

  lemma FinalInStep(budget: Budget, remaining: Budget, pass: nat)
    requires InStep(budget, remaining, pass)
    ensures remaining.TurnsExhausted() <==> pass >= TurnsGiven(budget)
  {
  }

  /** The turn of a pass is what the environment and the tries so far make it. */
  ghost predicate TurnAt(turn: Turn, tools: seq<BoundTool>, env: Environment, turns: nat, pass: nat) {
    && turn.offered == tools && turn.outstanding == env.outstanding(pass) && turn.uncollected == env.uncollected(pass)
    && turn.tries == TriesBy(env, turns, pass) && (turn.Final() <==> pass >= turns)
  }

  lemma AsksStay(before: seq<Request>, one: Request, tools: seq<BoundTool>, profile: Answering, env: Environment,
                 turns: nat, k: nat)
    requires k < |before| && AsksInTurn(before, tools, profile, env, turns, k)
    ensures AsksInTurn(before + [one], tools, profile, env, turns, k)
  {
    assert (before + [one])[k] == before[k];
  }

  /** The request of a pass is the one the readings call for. */
  lemma AskIsInTurn(before: seq<Request>, turn: Turn, tools: seq<BoundTool>, profile: Answering, env: Environment,
                    turns: nat, pass: nat)
    requires |before| == pass && TurnAt(turn, tools, env, turns, pass) && Answers(profile, tools)
    requires AllCollecting(before, profile, turns) && TriesHeld(env, turns, pass)
    requires pass >= turns ==> env.outstanding(pass) == []
    ensures AsksInTurn(before + [Request(profile.Offers(turn), Forced(profile, turn))], tools, profile, env, turns, pass)
  {
    hide TriesBy, TriesHeld, AllCollecting;
    var requests := before + [Request(profile.Offers(turn), Forced(profile, turn))];
    NoTriesExactly(before, profile, env, turns);
    assert TriedTwice(requests, profile, env, turns, pass) <==> TriedTwice(before, profile, env, turns, pass);
  }

  lemma AsksNext(before: seq<Request>, requests: seq<Request>, turn: Turn, tools: seq<BoundTool>, profile: Answering,
                 env: Environment, turns: nat, pass: nat)
    requires |before| == pass && TurnAt(turn, tools, env, turns, pass) && Answers(profile, tools)
    requires AllCollecting(before, profile, turns) && TriesHeld(env, turns, pass)
    requires pass >= turns ==> env.outstanding(pass) == []
    requires requests == before + [Request(profile.Offers(turn), Forced(profile, turn))]
    requires forall k :: 0 <= k < pass ==> AsksInTurn(before, tools, profile, env, turns, k)
    ensures forall k :: 0 <= k < |requests| ==> AsksInTurn(requests, tools, profile, env, turns, k)
  {
    hide AsksInTurn, TurnAt, Answers, AllCollecting, TriesHeld, Forced;
    AskIsInTurn(before, turn, tools, profile, env, turns, pass);
    forall k | 0 <= k < |requests|
      ensures AsksInTurn(requests, tools, profile, env, turns, k)
    {
      if k < pass {
        AsksStay(before, Request(profile.Offers(turn), Forced(profile, turn)), tools, profile, env, turns, k);
      }
    }
  }

  /** A pass that leaves the session unfinished keeps the tries in step with the readings. */
  lemma TriesStep(before: seq<Request>, requests: seq<Request>, turn: Turn, tools: seq<BoundTool>, profile: Answering,
                  env: Environment, turns: nat, pass: nat)
    requires |before| == pass && TurnAt(turn, tools, env, turns, pass) && Answers(profile, tools)
    requires AllCollecting(before, profile, turns) && TriesHeld(env, turns, pass)
    requires requests == before + [Request(profile.Offers(turn), Forced(profile, turn))]
    requires Evaluated(profile, turn, env.reply(pass), Invoking(env, pass)) == Unfinished
    ensures AllCollecting(requests, profile, turns) && TriesHeld(env, turns, pass + 1)
    ensures TriesAfter(profile, turn, env.settled(pass)) == TriesBy(env, turns, pass + 1)
  {
    hide Evaluated;
    if turn.Final() {
      OnlyCollectingGoesOn(profile, turn, env.reply(pass), Invoking(env, pass));
    }
  }

  /** A session completes or asks for no more only on the turns given, and is exhausted or fails only after. */
  lemma OutcomeByTurn(profile: Answering, turn: Turn, reply: Reply, invoke: nat -> Ran)
    ensures Evaluated(profile, turn, reply, invoke) == Completed ==> !turn.Final()
    ensures Evaluated(profile, turn, reply, invoke) == Exhausted || Evaluated(profile, turn, reply, invoke) == Failed ==>
              turn.Final()
  {
    SettledByTurn(RunAll(reply.calls, turn.offered, Forced(profile, turn), turn.remaining.toolCalls, 0, invoke).ran,
                  turn.Final());
  }

  lemma {:induction false} SettledByTurn(ran: seq<Ran>, final: bool)
    ensures Settled(ran, final) == Completed ==> !final
    ensures Settled(ran, final) == Exhausted ==> final
    ensures Settled(ran, final) != Failed
  {
    if ran != [] {
      SettledByTurn(ran[1..], final);
    }
  }

  lemma CollectionCounts(uncollected: seq<nat>, tries: int, settled: seq<nat>, next: seq<nat>)
    requires uncollected != [] && 0 < tries <= COLLECT_TRIES
    requires NoLonger(uncollected, settled) && NoLonger(settled, next)
    ensures PassesLeft(next, if settled != uncollected then COLLECT_TRIES else tries - 1) < PassesLeft(uncollected, tries)
  {
  }

  lemma StillInTime(env: Environment, pass: nat, tries: int, turns: nat, most: nat)
    requires InTime(env, pass, tries, turns, most) && (pass < turns || env.outstanding(pass) == [])
    ensures pass <= most
  {
  }

  lemma StartsInTime(env: Environment, turns: nat, most: nat)
    requires most == turns + COLLECT_TRIES * |env.uncollected(turns)|
    ensures InTime(env, 0, COLLECT_TRIES, turns, most)
  {
  }

  /** A pass that leaves the session unfinished stays within the bound. */
  lemma StepsInTime(profile: Answering, budget: Budget, turn: Turn, env: Environment, pass: nat, turns: nat, most: nat)
    requires Answers(profile, turn.offered) && OnlyShrinks(env, turns) && turns == TurnsGiven(budget)
    requires InStep(budget, turn.remaining, pass) && InTime(env, pass, turn.tries, turns, most)
    requires turn.outstanding == env.outstanding(pass) && turn.uncollected == env.uncollected(pass)
    requires profile.Halts(turn) == Unfinished && Evaluated(profile, turn, env.reply(pass), Invoking(env, pass)) == Unfinished
    ensures InTime(env, pass + 1, TriesAfter(profile, turn, env.settled(pass)), turns, most) && pass + 1 <= most + 1
    ensures turn.Final() <==> pass >= turns
  {
    hide Evaluated, PassesLeft;
    if turn.Final() {
      OnlyCollectingGoesOn(profile, turn, env.reply(pass), Invoking(env, pass));
      assert env.settled(pass) == env.settled(pass);
      if env.outstanding(pass + 1) == [] {
        CollectionCounts(env.uncollected(pass), turn.tries, env.settled(pass), env.uncollected(pass + 1));
      }
      SomePassLeft(env.uncollected(pass), turn.tries);
    } else if pass + 1 == turns {
      FirstFinalPass(env.uncollected(turns));
    }
  }

  lemma SomePassLeft(uncollected: seq<nat>, tries: int)
    requires uncollected != [] && tries > 0
    ensures PassesLeft(uncollected, tries) >= 1
  {
  }

  lemma FirstFinalPass(uncollected: seq<nat>)
    ensures PassesLeft(uncollected, COLLECT_TRIES) == COLLECT_TRIES * |uncollected|
  {
  }

  lemma NothingAsked(calls: seq<Asking>)
    requires calls == []
    ensures IdsOf(calls) == []
  {
  }

  lemma ChargedNothing(calls: seq<Asking>, tools: seq<BoundTool>, exempt: Option<BoundTool>, left: Allowance)
    ensures calls == [] ==> Charged(calls, tools, exempt, left, |calls|) == 0
  {
  }

  /** Which calls run does not depend on what was spent before. */
  lemma {:induction false} SpentIsCharged(calls: seq<Asking>, tools: seq<BoundTool>, exempt: Option<BoundTool>,
                                          left: Allowance,
                                          spent: int, invoke: nat -> Ran)
    ensures RunAll(calls, tools, exempt, left, spent, invoke).ran == RunAll(calls, tools, exempt, left, 0, invoke).ran
    ensures RunAll(calls, tools, exempt, left, spent, invoke).left == RunAll(calls, tools, exempt, left, 0, invoke).left
    ensures RunAll(calls, tools, exempt, left, spent, invoke).spent == spent + Charged(calls, tools, exempt, left, |calls|)
    ensures RunAll(calls, tools, exempt, left, spent, invoke).left == left.Minus(Charged(calls, tools, exempt, left, |calls|))
  {
    BatchAnswersEveryCall(calls, tools, exempt, left, spent, invoke);
    if calls != [] {
      SpentIsCharged(calls[..|calls| - 1], tools, exempt, left, spent, invoke);
    }
  }

  lemma BatchIsRecordable(budget: Budget, calls: seq<Asking>, tools: seq<BoundTool>, exempt: Option<BoundTool>,
                          left: Allowance, spent: int, invoke: nat -> Ran)
    requires Accounts(budget.toolCalls, left, spent)
    ensures var b := RunAll(calls, tools, exempt, left, spent, invoke);
      && Accounts(budget.toolCalls, b.left, b.spent)
      && ResultIds(b.blocks) == IdsOf(calls) && UseIds(b.blocks) == []
      && forall number :: Shaped(Message(USER, b.blocks, number))
  {
    BatchAnswersEveryCall(calls, tools, exempt, left, spent, invoke);
    ChargedFits(budget.toolCalls, calls, tools, exempt, left, spent, |calls|);
    OnlyResultsNoUses(RunAll(calls, tools, exempt, left, spent, invoke).blocks);
  }
}
