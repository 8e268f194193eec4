/** Cutting a transcript so that a new run carries on from there (fork.py). */
module Forks {
  import opened Options
  import opened Transcripts

  datatype Forked = NoMessages | BadCut | BadArguments | Fork(messages: seq<Message>)

  const ACKNOWLEDGED := "Understood."

  /** The task ids some blocks delegate, None as soon as one call's arguments name no task. `parse`
      reads the arguments of a delegate call. */
  function Delegated(blocks: seq<Block>, delegates: set<string>, parse: string -> Option<string>): Option<seq<string>> {
    if blocks == [] then Some([])
    else
      var rest := Delegated(blocks[1..], delegates, parse);
      if !blocks[0].ToolUse? || blocks[0].name !in delegates then rest
      else if parse(blocks[0].arguments).None? || rest.None? then None
      else Some([parse(blocks[0].arguments).value] + rest.value)
  }

  function Orphaned(messages: seq<Message>, delegates: set<string>,
                    parse: string -> Option<string>): Option<seq<string>> {
    if messages == [] then Some([])
    else
      var here, rest := Delegated(messages[0].blocks, delegates, parse), Orphaned(messages[1..], delegates, parse);
      if here.None? || rest.None? then None else Some(here.value + rest.value)
  }

  function Before(messages: seq<Message>, at: int): seq<Message> {
    if messages == [] then []
    else (if messages[0].number < at then [messages[0]] else []) + Before(messages[1..], at)
  }

  function Said(role: Role, text: string, after: Message): Message {
    Message(role, [Text(text)], after.number + 1)
  }

  /** The notice lists the orphaned tasks; its wording is `notice`. */
  function ForkedAt(messages: seq<Message>, at: int, delegates: set<string>, parse: string -> Option<string>,
                    notice: (int, seq<string>) -> string): Forked
  {
    if messages == [] then NoMessages
    else if at <= 0 || at > messages[|messages| - 1].number + 1 then BadCut
    else
      var kept := Before(messages, at);
      var tasks := Orphaned(kept, delegates, parse);
      if tasks.None? then BadArguments
      else if tasks.value == [] then Fork(kept)
      else Fork(Noticed(Repair(kept), notice(at, tasks.value)))
  }

  /** The notice as a user message, after an assistant one. */
  function Noticed(answered: seq<Message>, text: string): seq<Message> {
    if answered == [] then []
    else
      var last := answered[|answered| - 1];
      var bridged := if last.role.USER? then answered + [Said(ASSISTANT, ACKNOWLEDGED, last)] else answered;
      bridged + [Said(USER, text, bridged[|bridged| - 1])]
  }

  lemma {:induction false} NoneBefore(messages: seq<Message>, at: int)
    requires forall m :: m in messages ==> m.number >= at
    ensures Before(messages, at) == []
  {
    if messages != [] {
      assert messages[0] in messages;
      NoneBefore(messages[1..], at);
    }
  }

  /** With messages numbered from `first`, the cut keeps exactly those in front of it. */
  lemma {:induction false} BeforeIsPrefix(messages: seq<Message>, first: nat, at: nat)
    requires forall i :: 0 <= i < |messages| ==> messages[i].number == first + i
    requires first <= at <= first + |messages|
    ensures Before(messages, at) == messages[..at - first]
  {
    if messages != [] {
      if first == at {
        NoneBefore(messages, at);
      } else {
        BeforeIsPrefix(messages[1..], first + 1, at);
        assert [messages[0]] + messages[1..][..at - first - 1] == messages[..at - first];
      }
    }
  }

  lemma SpeechIsPaired(messages: seq<Message>, role: Role, text: string)
    requires Paired(messages) && Numbered(messages) && messages != [] && Pending(messages) == []
    ensures var said := messages + [Said(role, text, messages[|messages| - 1])];
      Paired(said) && Numbered(said) && Pending(said) == []
  {
    var m := Said(role, text, messages[|messages| - 1]);
    assert UseIds(m.blocks) == [] && ResultIds(m.blocks) == [] by {
      assert m.blocks[1..] == [];
    }
    PairedAppend(messages, m);
  }

  /** The notice comes last, right after an assistant message, and nothing is left pending. */
  lemma NoticeIsPaired(answered: seq<Message>, text: string)
    requires Paired(answered) && Numbered(answered) && answered != [] && Pending(answered) == []
    ensures var all := Noticed(answered, text);
      && Paired(all) && Numbered(all) && Pending(all) == [] && answered <= all
      && |answered| < |all| <= |answered| + 2
      && all[|all| - 1].role.USER? && all[|all| - 1].blocks == [Text(text)]
      && all[|all| - 2].role.ASSISTANT?
  {
    hide Paired, Numbered, Pending;
    var last := answered[|answered| - 1];
    var bridged := if last.role.USER? then answered + [Said(ASSISTANT, ACKNOWLEDGED, last)] else answered;
    if last.role.USER? {
      SpeechIsPaired(answered, ASSISTANT, ACKNOWLEDGED);
    }
    SpeechIsPaired(bridged, USER, text);
  }

  /** The cut is refused exactly when it names no message, and the fork fails otherwise only over an
      empty transcript or a kept delegation that names no task. */
  lemma CutIsRefusedExactly(messages: seq<Message>, at: int, delegates: set<string>, parse: string -> Option<string>,
                            notice: (int, seq<string>) -> string)
    requires Numbered(messages)
    ensures ForkedAt(messages, at, delegates, parse, notice).BadCut? <==> messages != [] && !(1 <= at <= |messages|)
    ensures ForkedAt(messages, at, delegates, parse, notice).NoMessages? <==> messages == []
    ensures ForkedAt(messages, at, delegates, parse, notice).BadArguments? <==>
            1 <= at <= |messages| && Orphaned(messages[..at], delegates, parse).None?
  {
    if 1 <= at <= |messages| {
      NumbersFromZero(messages);
      BeforeIsPrefix(messages, 0, at);
    }
  }

  /** A fork keeps the messages in front of the cut, in front; anything it adds is numbered and
      paired, and comes only when the kept messages delegated something. */
  lemma ForkKeepsPrefix(messages: seq<Message>, at: nat, delegates: set<string>, parse: string -> Option<string>,
                        notice: (int, seq<string>) -> string)
    requires Paired(messages) && Numbered(messages) && 1 <= at <= |messages|
    requires Orphaned(messages[..at], delegates, parse).Some?
    ensures var fork := ForkedAt(messages, at, delegates, parse, notice);
      var tasks := Orphaned(messages[..at], delegates, parse).value;
      && fork.Fork? && messages[..at] <= fork.messages
      && Paired(fork.messages) && Numbered(fork.messages)
      && Paired(Repair(fork.messages)) && Numbered(Repair(fork.messages)) && Pending(Repair(fork.messages)) == []
      && (tasks == [] <==> fork.messages == messages[..at])
      && (tasks != [] ==>
            var n := |fork.messages|;
            && Pending(fork.messages) == [] && n >= 2 && Repair(messages[..at]) <= fork.messages
            && fork.messages[n - 1].role.USER? && fork.messages[n - 1].blocks == [Text(notice(at, tasks))]
            && fork.messages[n - 2].role.ASSISTANT?)
  {
    hide Paired, Numbered, Repair, Noticed;
    NumbersFromZero(messages);
    BeforeIsPrefix(messages, 0, at);
    PairedPrefix(messages, at);
    RepairPairs(messages[..at]);
    var tasks := Orphaned(messages[..at], delegates, parse).value;
    if tasks != [] {
      NoticeIsPaired(Repair(messages[..at]), notice(at, tasks));
      RepairPairs(Noticed(Repair(messages[..at]), notice(at, tasks)));
    }
  }

  lemma NumbersFromZero(messages: seq<Message>)
    requires Numbered(messages)
    ensures forall i :: 0 <= i < |messages| ==> messages[i].number == 0 + i
  {
  }

  /** A later cut orphans everything an earlier one does, named first and in the same order. */
  lemma {:induction false} OrphanedGrowWithTheCut(messages: seq<Message>, cut: nat, later: nat, delegates: set<string>,
                                                  parse: string -> Option<string>)
    requires cut <= later <= |messages| && Orphaned(messages[..later], delegates, parse).Some?
    ensures Orphaned(messages[..cut], delegates, parse).Some?
    ensures Orphaned(messages[..cut], delegates, parse).value <= Orphaned(messages[..later], delegates, parse).value
  {
    if cut > 0 {
      assert messages[..cut][1..] == messages[1..][..cut - 1] && messages[..later][1..] == messages[1..][..later - 1];
      OrphanedGrowWithTheCut(messages[1..], cut - 1, later - 1, delegates, parse);
    } else {
      assert messages[..0] == [];
    }
  }

  /** A call of a delegate tool among the messages. */
  ghost predicate Delegates(messages: seq<Message>, delegates: set<string>, b: Block) {
    b.ToolUse? && b.name in delegates && exists i :: 0 <= i < |messages| && b in messages[i].blocks
  }

  function DelegateCalls(blocks: seq<Block>, delegates: set<string>): (calls: seq<Block>)
    ensures forall b :: b in calls <==> b in blocks && b.ToolUse? && b.name in delegates
  {
    if blocks == [] then []
    else
      assert blocks == [blocks[0]] + blocks[1..];
      (if blocks[0].ToolUse? && blocks[0].name in delegates then [blocks[0]] else []) + DelegateCalls(blocks[1..], delegates)
  }

  /** All of them, in order. */
  ghost function DelegateCallsOf(messages: seq<Message>, delegates: set<string>): (calls: seq<Block>)
    ensures forall b :: b in calls <==> Delegates(messages, delegates, b)
  {
    if messages == [] then []
    else
      assert forall b :: Delegates(messages, delegates, b) <==>
               Delegates(messages[1..], delegates, b) || b in DelegateCalls(messages[0].blocks, delegates) by {
        forall b
          ensures Delegates(messages, delegates, b) <==>
                  Delegates(messages[1..], delegates, b) || (b in messages[0].blocks && b.ToolUse? && b.name in delegates)
        {
          DelegatesSplit(messages, delegates, b);
        }
      }
      DelegateCalls(messages[0].blocks, delegates) + DelegateCallsOf(messages[1..], delegates)
  }

  /** The task each of these calls names, in order; None when one of them names none. */
  ghost predicate TasksOf(calls: seq<Block>, parse: string -> Option<string>, tasks: Option<seq<string>>)
    requires forall b :: b in calls ==> b.ToolUse?
  {
    if tasks.None? then exists i :: 0 <= i < |calls| && parse(calls[i].arguments).None?
    else |tasks.value| == |calls| && forall i :: 0 <= i < |calls| ==> parse(calls[i].arguments) == Some(tasks.value[i])
  }

  lemma {:induction false} DelegatedExactly(blocks: seq<Block>, delegates: set<string>, parse: string -> Option<string>)
    ensures TasksOf(DelegateCalls(blocks, delegates), parse, Delegated(blocks, delegates, parse))
  {
    if blocks != [] {
      DelegatedExactly(blocks[1..], delegates, parse);
      if blocks[0].ToolUse? && blocks[0].name in delegates {
        var named := parse(blocks[0].arguments);
        TaskOfOne(blocks[0], parse);
        TasksOfBoth([blocks[0]], DelegateCalls(blocks[1..], delegates), parse,
                    if named.Some? then Some([named.value]) else None, Delegated(blocks[1..], delegates, parse));
      }
    }
  }

  lemma TaskOfOne(call: Block, parse: string -> Option<string>)
    requires call.ToolUse?
    ensures var named := parse(call.arguments); TasksOf([call], parse, if named.Some? then Some([named.value]) else None)
  {
    assert [call][0] == call;
  }

  lemma TasksOfBoth(calls: seq<Block>, more: seq<Block>, parse: string -> Option<string>, tasks: Option<seq<string>>,
                    others: Option<seq<string>>)
    requires forall b :: b in calls ==> b.ToolUse?
    requires forall b :: b in more ==> b.ToolUse?
    requires TasksOf(calls, parse, tasks) && TasksOf(more, parse, others)
    ensures TasksOf(calls + more, parse, if tasks.None? || others.None? then None else Some(tasks.value + others.value))
  {
    if tasks.Some? && others.None? {
      var i :| 0 <= i < |more| && parse(more[i].arguments).None?;
      assert (calls + more)[|calls| + i] == more[i];
    } else if tasks.None? {
      var i :| 0 <= i < |calls| && parse(calls[i].arguments).None?;
      assert (calls + more)[i] == calls[i];
    }
  }

  /** The orphaned tasks are those that the calls of delegate tools name, one for each and in order; the
      cut fails exactly when the arguments of one of those calls name no task. */
  lemma {:induction false} OrphanedExactly(messages: seq<Message>, delegates: set<string>, parse: string -> Option<string>)
    ensures TasksOf(DelegateCallsOf(messages, delegates), parse, Orphaned(messages, delegates, parse))
  {
    hide TasksOf;
    if messages == [] {
      NoTasks(parse);
    } else {
      OrphanedExactly(messages[1..], delegates, parse);
      DelegatedExactly(messages[0].blocks, delegates, parse);
      TasksOfBoth(DelegateCalls(messages[0].blocks, delegates), DelegateCallsOf(messages[1..], delegates), parse,
                  Delegated(messages[0].blocks, delegates, parse), Orphaned(messages[1..], delegates, parse));
    }
  }

  lemma NoTasks(parse: string -> Option<string>)
    ensures TasksOf([], parse, Some([]))
  {
  }

  lemma DelegatesSplit(messages: seq<Message>, delegates: set<string>, b: Block)
    requires messages != []
    ensures Delegates(messages, delegates, b) <==>
            Delegates(messages[1..], delegates, b) || (b in messages[0].blocks && b.ToolUse? && b.name in delegates)
  {
    if Delegates(messages[1..], delegates, b) {
      var i :| 0 <= i < |messages[1..]| && b in messages[1..][i].blocks;
      assert messages[i + 1] == messages[1..][i];
    }
    if Delegates(messages, delegates, b) {
      var i :| 0 <= i < |messages| && b in messages[i].blocks;
      if i > 0 {
        assert messages[1..][i - 1] == messages[i];
      }
    }
  }
}
