/** Transcripts: how tool uses and their results pair up, what a crash can leave (transcript/history.py),
    what compaction changes (transcript/demote.py) and what goes over the wire (`to_wire` in
    llm/adapters/litellm_client.py). */
module Transcripts {
  import opened Numerals

  datatype Role = USER | ASSISTANT

  datatype Block =
    | Text(text: string)
    | ToolUse(id: string, name: string, arguments: string)
    | ToolResult(id: string, content: string, isError: bool, path: string, byteCount: int)

  /** A message; its author and time are not modelled. */
  datatype Message = Message(role: Role, blocks: seq<Block>, number: int)

  const INTERRUPTED := "interrupted: agent terminated before this tool returned"

  /** The ids of the tool calls among some blocks, in order. */
  function UseIds(blocks: seq<Block>): seq<string> {
    if blocks == [] then []
    else (if blocks[0].ToolUse? then [blocks[0].id] else []) + UseIds(blocks[1..])
  }

  /** The ids the tool results among some blocks answer, in order. */
  function ResultIds(blocks: seq<Block>): seq<string> {
    if blocks == [] then []
    else (if blocks[0].ToolResult? then [blocks[0].id] else []) + ResultIds(blocks[1..])
  }

  function Calls(blocks: seq<Block>): (calls: seq<Block>)
    ensures forall b :: b in calls <==> b in blocks && b.ToolUse?
  {
    if blocks == [] then []
    else
      assert blocks == [blocks[0]] + blocks[1..];
      (if blocks[0].ToolUse? then [blocks[0]] else []) + Calls(blocks[1..])
  }

  /** Only the assistant calls tools and only the user answers; an answering message only answers. */
  ghost predicate Shaped(m: Message) {
    && (m.role.USER? ==> UseIds(m.blocks) == [])
    && (m.role.ASSISTANT? ==> ResultIds(m.blocks) == [])
    && (ResultIds(m.blocks) != [] ==> forall b :: b in m.blocks ==> b.ToolResult?)
  }

  /** What the message after these must answer. */
  function Pending(messages: seq<Message>): seq<string> {
    if messages == [] then [] else UseIds(messages[|messages| - 1].blocks)
  }

  /** Every message answers exactly the tool uses of the one before it, once each and in order. */
  ghost predicate Paired(messages: seq<Message>) {
    forall i :: 0 <= i < |messages| ==>
      Shaped(messages[i]) && ResultIds(messages[i].blocks) == Pending(messages[..i])
  }

  ghost predicate Numbered(messages: seq<Message>) {
    forall i :: 0 <= i < |messages| ==> messages[i].number == i
  }

  lemma PairedPrefix(messages: seq<Message>, n: nat)
    requires n <= |messages|
    ensures Paired(messages) ==> Paired(messages[..n])
    ensures Numbered(messages) ==> Numbered(messages[..n])
  {
    forall i | 0 <= i < n
      ensures messages[..n][..i] == messages[..i]
    {
    }
  }

  lemma PairedAppend(messages: seq<Message>, m: Message)
    ensures Paired(messages + [m]) <==>
            Paired(messages) && Shaped(m) && ResultIds(m.blocks) == Pending(messages)
    ensures Numbered(messages + [m]) <==> Numbered(messages) && m.number == |messages|
  {
    var all := messages + [m];
    forall i | 0 <= i <= |messages|
      ensures all[..i] == messages[..i]
    {
    }
    assert messages[..|messages|] == messages;
    if Paired(all) {
      PairedPrefix(all, |messages|);
      assert all[..|messages|] == messages;
      assert all[|messages|] == m;
    }
    if Numbered(all) {
      PairedPrefix(all, |messages|);
      assert all[..|messages|] == messages;
      assert all[|messages|] == m;
    }
  }

  // ---------------------------------------------------------------------------------------------
  // Repairing what a crash left.

  /** The calls of the last message, if an assistant wrote it. */
  function Unanswered(last: Message): seq<Block> {
    if last.role.ASSISTANT? then Calls(last.blocks) else []
  }

  function Interrupted(calls: seq<Block>): (results: seq<Block>)
    requires forall b :: b in calls ==> b.ToolUse?
    ensures |results| == |calls|
    ensures forall b :: b in results ==> b.ToolResult? && b.isError
  {
    if calls == [] then []
    else [ToolResult(calls[0].id, INTERRUPTED, true, "", 0)] + Interrupted(calls[1..])
  }

  /** The message a repair adds. */
  function Synthetic(last: Message): Message {
    Message(USER, Interrupted(Unanswered(last)), last.number + 1)
  }

  function Repair(messages: seq<Message>): seq<Message> {
    if messages == [] || Unanswered(messages[|messages| - 1]) == [] then messages
    else messages + [Synthetic(messages[|messages| - 1])]
  }

  lemma {:induction false} CallsAreUses(blocks: seq<Block>)
    ensures UseIds(Calls(blocks)) == UseIds(blocks)
    ensures Calls(blocks) == [] <==> UseIds(blocks) == []
  {
    if blocks != [] {
      CallsAreUses(blocks[1..]);
      if blocks[0].ToolUse? {
        assert Calls(blocks)[1..] == Calls(blocks[1..]);
      } else {
        assert Calls(blocks) == Calls(blocks[1..]);
      }
    }
  }

  lemma {:induction false} InterruptedAnswers(calls: seq<Block>)
    requires forall b :: b in calls ==> b.ToolUse?
    ensures ResultIds(Interrupted(calls)) == UseIds(calls) && UseIds(Interrupted(calls)) == []
  {
    if calls != [] {
      InterruptedAnswers(calls[1..]);
      assert Interrupted(calls)[1..] == Interrupted(calls[1..]);
    }
  }

  lemma PendingIsUnanswered(messages: seq<Message>)
    requires Paired(messages) && messages != []
    ensures Pending(messages) == UseIds(Unanswered(messages[|messages| - 1]))
    ensures Pending(messages) == [] <==> Unanswered(messages[|messages| - 1]) == []
  {
    assert Shaped(messages[|messages| - 1]);
    CallsAreUses(messages[|messages| - 1].blocks);
  }

  lemma SyntheticAnswers(last: Message)
    requires Shaped(last)
    ensures Shaped(Synthetic(last)) && UseIds(Synthetic(last).blocks) == []
    ensures ResultIds(Synthetic(last).blocks) == UseIds(last.blocks)
  {
    InterruptedAnswers(Unanswered(last));
    CallsAreUses(last.blocks);
  }

  /** Repairing leaves nothing pending, keeps the pairing and the numbering, and adds at most one message. */
  lemma RepairPairs(messages: seq<Message>)
    requires Paired(messages)
    ensures Paired(Repair(messages)) && Pending(Repair(messages)) == []
    ensures Numbered(messages) ==> Numbered(Repair(messages))
    ensures messages <= Repair(messages) && |Repair(messages)| <= |messages| + 1
    ensures Repair(messages) == messages <==> Pending(messages) == []
  {
    hide Shaped, UseIds, ResultIds, Unanswered, Interrupted, Paired, Numbered;
    if messages != [] {
      var last := messages[|messages| - 1];
      PendingIsUnanswered(messages);
      LastIsShaped(messages);
      SyntheticAnswers(last);
      LastIsNumbered(messages);
      PairedAppend(messages, Synthetic(last));
    }
  }

  lemma LastIsShaped(messages: seq<Message>)
    requires Paired(messages) && messages != []
    ensures Shaped(messages[|messages| - 1])
  {
  }

  lemma LastIsNumbered(messages: seq<Message>)
    requires messages != []
    ensures Numbered(messages) ==> messages[|messages| - 1].number == |messages| - 1
  {
  }

  /** Whatever prefix of a paired transcript a crash leaves on disk, repairing it pairs it up again. */
  lemma CrashPrefixIsRepaired(messages: seq<Message>, n: nat)
    requires Paired(messages) && Numbered(messages) && n <= |messages|
    ensures Paired(Repair(messages[..n])) && Numbered(Repair(messages[..n])) && Pending(Repair(messages[..n])) == []
    ensures messages[..n] <= Repair(messages[..n])
  {
    PairedPrefix(messages, n);
    RepairPairs(messages[..n]);
  }

  lemma FirstAdded(disk: seq<Message>, added: seq<Message>)
    requires added != []
    ensures Paired(disk + added) ==> Paired(disk + [added[0]])
    ensures Numbered(disk + added) ==> Numbered(disk + [added[0]])
  {
    PairedPrefix(disk + added, |disk| + 1);
    assert (disk + added)[..|disk| + 1] == disk + [added[0]];
  }

  /** The repair is kept in memory only: once a resumed session has recorded anything, the log on disk
      is paired and numbered exactly when there had been nothing to repair. */
  lemma ResumedLogPairedExactly(disk: seq<Message>, added: seq<Message>)
    requires Paired(disk) && added != []
    requires Paired(Repair(disk) + added) && Numbered(Repair(disk) + added)
    ensures Paired(disk + added) <==> Pending(disk) == []
    ensures Numbered(disk + added) <==> Pending(disk) == []
  {
    hide Paired, Numbered, Repair, Shaped;
    RepairPairs(disk);
    if Pending(disk) != [] {
      FirstAdded(Repair(disk), added);
      FirstAdded(disk, added);
      PairedAppend(Repair(disk), added[0]);
      PairedAppend(disk, added[0]);
      assert |Repair(disk)| == |disk| + 1;
    }
  }

  /** Answering a question appends the answer to the log on disk, whatever that log ends with. */
  function AnsweredLog(disk: seq<Message>, answer: string): seq<Message> {
    disk + [Message(USER, [Text(answer)], |disk|)]
  }

  /** The answered log is always numbered, and paired exactly when the log it was appended to had nothing
      pending; with calls pending, as after a crash in the middle of a batch, no later repair mends it. */
  lemma AnswerKeepsLogExactly(disk: seq<Message>, answer: string)
    requires Paired(disk) && Numbered(disk)
    ensures Numbered(AnsweredLog(disk, answer))
    ensures Paired(AnsweredLog(disk, answer)) <==> Pending(disk) == []
    ensures Paired(Repair(AnsweredLog(disk, answer))) <==> Pending(disk) == []
  {
    var m := Message(USER, [Text(answer)], |disk|);
    assert UseIds(m.blocks) == [] && ResultIds(m.blocks) == [] by {
      assert m.blocks[1..] == [];
    }
    PairedAppend(disk, m);
    assert Repair(AnsweredLog(disk, answer)) == AnsweredLog(disk, answer);
  }

  // ---------------------------------------------------------------------------------------------
  // Compaction.

  /** Only a result longer than this is demoted. */
  const WORTH_DEMOTING := 200

  /** The text that replaces a demoted result; it depends on nothing but the path and the size. */
  function Pointer(path: string, byteCount: int): string {
    "[" + Decimal(byteCount) + " bytes at " + path + " \U{2014} read_file it if you need it]"
  }

  function DemoteBlock(b: Block): Block {
    if !b.ToolResult? || b.isError || b.path == "" || |b.content| <= WORTH_DEMOTING then b
    else b.(content := Pointer(b.path, b.byteCount))
  }

  function DemoteBlocks(blocks: seq<Block>): (r: seq<Block>)
    ensures |r| == |blocks| && forall i :: 0 <= i < |r| ==> r[i] == DemoteBlock(blocks[i])
  {
    if blocks == [] then [] else [DemoteBlock(blocks[0])] + DemoteBlocks(blocks[1..])
  }

  function Demoted(m: Message): Message {
    m.(blocks := DemoteBlocks(m.blocks))
  }

  function Size(messages: seq<Message>, size: Message -> nat): nat {
    if messages == [] then 0 else Size(messages[..|messages| - 1], size) + size(messages[|messages| - 1])
  }

  /** The size of a transcript is the sum of the sizes of its messages. */
  lemma {:induction false} SizesAdd(a: seq<Message>, b: seq<Message>, size: Message -> nat)
    ensures Size(a + b, size) == Size(a, size) + Size(b, size)
    ensures |a| == 1 ==> Size(a, size) == size(a[0])
  {
    if b == [] {
      assert a + b == a;
    } else {
      assert (a + b)[..|a + b| - 1] == a + b[..|b| - 1];
      SizesAdd(a, b[..|b| - 1], size);
    }
  }

  function DemotedBefore(messages: seq<Message>, cut: int): (r: seq<Message>)
    ensures |r| == |messages|
    ensures forall i :: 0 <= i < |r| ==> r[i] == if i < cut then Demoted(messages[i]) else messages[i]
  {
    seq(|messages|, i requires 0 <= i < |messages| => if i < cut then Demoted(messages[i]) else messages[i])
  }

  /** `size` is the length of a message as JSON. */
  function ForWire(messages: seq<Message>, size: Message -> nat, aboveTokens: int, keepRecent: int): seq<Message> {
    if aboveTokens <= 0 || Size(messages, size) / 4 < aboveTokens then messages
    else DemotedBefore(messages, if |messages| - keepRecent < 0 then 0 else |messages| - keepRecent)
  }

  lemma {:induction false} DemotionKeepsIds(blocks: seq<Block>)
    ensures UseIds(DemoteBlocks(blocks)) == UseIds(blocks) && ResultIds(DemoteBlocks(blocks)) == ResultIds(blocks)
  {
    if blocks != [] {
      DemotionKeepsIds(blocks[1..]);
      assert DemoteBlocks(blocks)[1..] == DemoteBlocks(blocks[1..]);
    }
  }

  /** What compaction may change of a message: the content of a filed result, nothing else. */
  ghost predicate Abridges(m: Message, m': Message) {
    && m'.role == m.role && m'.number == m.number && |m'.blocks| == |m.blocks|
    && forall i :: 0 <= i < |m.blocks| ==>
         m'.blocks[i] == m.blocks[i] ||
         (m.blocks[i].ToolResult? && !m.blocks[i].isError && m.blocks[i].path != "" &&
          |m.blocks[i].content| > WORTH_DEMOTING &&
          m'.blocks[i] == m.blocks[i].(content := Pointer(m.blocks[i].path, m.blocks[i].byteCount)))
  }

  /** Compaction keeps every message, who wrote it, its number, its pairing, and the recent ones whole. */
  lemma ForWireKeeps(messages: seq<Message>, size: Message -> nat, aboveTokens: int, keepRecent: int)
    ensures var sent := ForWire(messages, size, aboveTokens, keepRecent);
      && |sent| == |messages|
      && (forall i :: 0 <= i < |sent| ==> Abridges(messages[i], sent[i]))
      && (forall i :: 0 <= i < |sent| && i >= |messages| - keepRecent ==> sent[i] == messages[i])
  {
  }

  /** What compaction makes of one block: a pointer when it is a filed result of more than 200 characters
      that is no error, and else the block itself. */
  ghost predicate Compacts(b: Block, b': Block) {
    if b.ToolResult? && !b.isError && b.path != "" && |b.content| > 200
    then b' == b.(content := Pointer(b.path, b.byteCount))
    else b' == b
  }

  /** A transcript is compacted exactly when a limit is set and a quarter of its size reaches it; then
      every message but the recent ones is. */
  lemma ForWireCompactsExactly(messages: seq<Message>, size: Message -> nat, aboveTokens: int, keepRecent: int)
    ensures var sent := ForWire(messages, size, aboveTokens, keepRecent);
      && |sent| == |messages|
      && ((aboveTokens <= 0 || Size(messages, size) < 4 * aboveTokens) ==> sent == messages)
      && (aboveTokens > 0 && Size(messages, size) >= 4 * aboveTokens ==>
            forall i :: 0 <= i < |messages| - keepRecent && i < |messages| ==>
              |sent[i].blocks| == |messages[i].blocks| &&
              forall k :: 0 <= k < |messages[i].blocks| ==> Compacts(messages[i].blocks[k], sent[i].blocks[k]))
  {
  }

  lemma AbridgedIsShaped(m: Message)
    requires Shaped(m)
    ensures Shaped(Demoted(m))
  {
    DemotionKeepsIds(m.blocks);
  }

  lemma ForWireIds(messages: seq<Message>, size: Message -> nat, aboveTokens: int, keepRecent: int, i: nat)
    requires i < |messages|
    ensures var sent := ForWire(messages, size, aboveTokens, keepRecent);
      && |sent| == |messages|
      && UseIds(sent[i].blocks) == UseIds(messages[i].blocks)
      && ResultIds(sent[i].blocks) == ResultIds(messages[i].blocks)
      && (Shaped(messages[i]) ==> Shaped(sent[i]))
  {
    DemotionKeepsIds(messages[i].blocks);
    if Shaped(messages[i]) {
      AbridgedIsShaped(messages[i]);
    }
  }

  lemma ForWirePairs(messages: seq<Message>, size: Message -> nat, aboveTokens: int, keepRecent: int)
    requires Paired(messages)
    ensures var sent := ForWire(messages, size, aboveTokens, keepRecent);
      Paired(sent) && Pending(sent) == Pending(messages)
  {
    hide ForWire, UseIds, ResultIds, Shaped, Abridges;
    var sent := ForWire(messages, size, aboveTokens, keepRecent);
    ForWireKeeps(messages, size, aboveTokens, keepRecent);
    forall i | 0 <= i < |sent|
      ensures Shaped(sent[i]) && ResultIds(sent[i].blocks) == Pending(sent[..i])
      ensures UseIds(sent[i].blocks) == UseIds(messages[i].blocks)
    {
      ForWireIds(messages, size, aboveTokens, keepRecent, i);
      if i > 0 {
        ForWireIds(messages, size, aboveTokens, keepRecent, i - 1);
        assert sent[..i][i - 1] == sent[i - 1] && messages[..i][i - 1] == messages[i - 1];
      }
    }
  }

  /** Compacting what was compacted changes nothing more. */
  lemma DemotionIsIdempotent(m: Message)
    ensures Demoted(Demoted(m)) == Demoted(m)
  {
    var once := Demoted(m);
    assert DemoteBlocks(once.blocks) == once.blocks;
  }

  // ---------------------------------------------------------------------------------------------
  // The wire.

  datatype WireMessage =
    | Tool(callId: string, content: string)
    | Chat(role: Role, content: string, calls: seq<Block>)

  function ToolMessages(blocks: seq<Block>): seq<WireMessage> {
    if blocks == [] then []
    else (if blocks[0].ToolResult? then [Tool(blocks[0].id, blocks[0].content)] else []) + ToolMessages(blocks[1..])
  }

  function TextOf(blocks: seq<Block>): string {
    if blocks == [] then "" else (if blocks[0].Text? then blocks[0].text else "") + TextOf(blocks[1..])
  }

  function ToWire(m: Message): seq<WireMessage> {
    var results := ToolMessages(m.blocks);
    if results != [] then results
    else
      var text, calls := TextOf(m.blocks), Calls(m.blocks);
      if text == "" && calls == [] then [] else [Chat(m.role, text, calls)]
  }

  function WireOf(messages: seq<Message>): seq<WireMessage> {
    if messages == [] then [] else WireOf(messages[..|messages| - 1]) + ToWire(messages[|messages| - 1])
  }

  /** A provider reading the wire: the calls it still has no result for, or None once it objects. A
      result must answer the first open call, nothing else may come while a call is open, and only the
      assistant may call. */
  datatype Reading = Objects | Open(calls: seq<string>)

  function Read(open: Reading, m: WireMessage): Reading {
    match open
    case Objects => Objects
    case Open(calls) =>
      match m
      case Tool(id, _) => if calls != [] && calls[0] == id then Open(calls[1..]) else Objects
      case Chat(role, _, made) =>
        if calls == [] && (UseIds(made) == [] || role.ASSISTANT?) then Open(UseIds(made)) else Objects
  }

  function ReadAll(wire: seq<WireMessage>, open: Reading): Reading {
    if wire == [] then open else ReadAll(wire[1..], Read(open, wire[0]))
  }

  lemma {:induction false} ReadAllSplits(a: seq<WireMessage>, b: seq<WireMessage>, open: Reading)
    ensures ReadAll(a + b, open) == ReadAll(b, ReadAll(a, open))
  {
    if a == [] {
      assert a + b == b;
    } else {
      assert (a + b)[1..] == a[1..] + b;
      ReadAllSplits(a[1..], b, Read(open, a[0]));
    }
  }

  lemma ReadsFirstResult(b: Block, wire: seq<WireMessage>, calls: seq<string>)
    requires b.ToolResult?
    ensures ReadAll([Tool(b.id, b.content)] + wire, Open([b.id] + calls)) == ReadAll(wire, Open(calls))
  {
    assert ([Tool(b.id, b.content)] + wire)[1..] == wire;
    assert ([b.id] + calls)[1..] == calls;
  }

  lemma {:induction false} ResultsCloseTheirCalls(blocks: seq<Block>, more: seq<string>)
    ensures ReadAll(ToolMessages(blocks), Open(ResultIds(blocks) + more)) == Open(more)
    ensures ToolMessages(blocks) == [] <==> ResultIds(blocks) == []
  {
    if blocks != [] {
      ResultsCloseTheirCalls(blocks[1..], more);
      if blocks[0].ToolResult? {
        ReadsFirstResult(blocks[0], ToolMessages(blocks[1..]), ResultIds(blocks[1..]) + more);
        assert [blocks[0].id] + ResultIds(blocks[1..]) + more == [blocks[0].id] + (ResultIds(blocks[1..]) + more);
      } else {
        assert ToolMessages(blocks) == ToolMessages(blocks[1..]);
        assert ResultIds(blocks) == ResultIds(blocks[1..]);
      }
    } else {
      assert [] + more == more;
    }
  }

  lemma MessageReads(m: Message)
    requires Shaped(m)
    ensures ReadAll(ToWire(m), Open(ResultIds(m.blocks))) == Open(UseIds(m.blocks))
  {
    ResultsCloseTheirCalls(m.blocks, []);
    assert ResultIds(m.blocks) + [] == ResultIds(m.blocks);
    CallsAreUses(m.blocks);
    if ResultIds(m.blocks) != [] {
      OnlyResultsNoUses(m.blocks);
    } else if ToWire(m) != [] {
      assert ToWire(m)[1..] == [];
    }
  }

  lemma {:induction false} OnlyResultsNoUses(blocks: seq<Block>)
    requires forall b :: b in blocks ==> b.ToolResult?
    ensures UseIds(blocks) == []
  {
    if blocks != [] {
      assert blocks[0] in blocks;
      OnlyResultsNoUses(blocks[1..]);
    }
  }

  /** A provider reads a paired transcript without objecting, and what it finds open at the end is
      what the transcript has pending. */
  lemma {:induction false} PairedReads(messages: seq<Message>)
    requires Paired(messages)
    ensures ReadAll(WireOf(messages), Open([])) == Open(Pending(messages))
  {
    if messages != [] {
      var n := |messages| - 1;
      PairedPrefix(messages, n);
      PairedReads(messages[..n]);
      ReadAllSplits(WireOf(messages[..n]), ToWire(messages[n]), Open([]));
      MessageReads(messages[n]);
    }
  }

  /** So what a session sends, compacted or not, is read without objection and leaves nothing open. */
  lemma WireIsAccepted(messages: seq<Message>, size: Message -> nat, aboveTokens: int, keepRecent: int)
    requires Paired(messages)
    ensures ReadAll(WireOf(ForWire(messages, size, aboveTokens, keepRecent)), Open([])) == Open(Pending(messages))
  {
    ForWirePairs(messages, size, aboveTokens, keepRecent);
    PairedReads(ForWire(messages, size, aboveTokens, keepRecent));
  }

  // ---------------------------------------------------------------------------------------------
  // Nothing is lost on the wire.

  function Results(blocks: seq<Block>): seq<(string, string)> {
    if blocks == [] then []
    else (if blocks[0].ToolResult? then [(blocks[0].id, blocks[0].content)] else []) + Results(blocks[1..])
  }

  /** All a transcript says, calls and answers, in order. */
  datatype Substance = Substance(text: string, calls: seq<Block>, results: seq<(string, string)>)

  function Plus(a: Substance, b: Substance): Substance {
    Substance(a.text + b.text, a.calls + b.calls, a.results + b.results)
  }

  function SubstanceOf(messages: seq<Message>): Substance {
    if messages == [] then Substance("", [], [])
    else
      var blocks := messages[|messages| - 1].blocks;
      Plus(SubstanceOf(messages[..|messages| - 1]), Substance(TextOf(blocks), Calls(blocks), Results(blocks)))
  }

  function SubstanceOfWire(wire: seq<WireMessage>): Substance {
    if wire == [] then Substance("", [], [])
    else
      var rest := SubstanceOfWire(wire[1..]);
      match wire[0]
      case Tool(id, content) => Substance(rest.text, rest.calls, [(id, content)] + rest.results)
      case Chat(_, content, calls) => Substance(content + rest.text, calls + rest.calls, rest.results)
  }

  lemma {:induction false} WireSubstanceSplits(a: seq<WireMessage>, b: seq<WireMessage>)
    ensures SubstanceOfWire(a + b) == Plus(SubstanceOfWire(a), SubstanceOfWire(b))
  {
    if a == [] {
      assert a + b == b;
    } else {
      assert (a + b)[1..] == a[1..] + b;
      WireSubstanceSplits(a[1..], b);
    }
  }

  lemma {:induction false} ToolMessagesSubstance(blocks: seq<Block>)
    ensures SubstanceOfWire(ToolMessages(blocks)) == Substance("", [], Results(blocks))
    ensures Results(blocks) == [] <==> ToolMessages(blocks) == []
  {
    if blocks != [] {
      ToolMessagesSubstance(blocks[1..]);
      if blocks[0].ToolResult? {
        assert ToolMessages(blocks)[1..] == ToolMessages(blocks[1..]);
      } else {
        assert ToolMessages(blocks) == ToolMessages(blocks[1..]) && Results(blocks) == Results(blocks[1..]);
      }
    }
  }

  lemma {:induction false} OnlyResults(blocks: seq<Block>)
    requires forall b :: b in blocks ==> b.ToolResult?
    ensures TextOf(blocks) == "" && Calls(blocks) == []
  {
    if blocks != [] {
      assert blocks[0] in blocks;
      OnlyResults(blocks[1..]);
    }
  }

  lemma MessageSubstance(m: Message)
    requires Shaped(m)
    ensures SubstanceOfWire(ToWire(m)) == Substance(TextOf(m.blocks), Calls(m.blocks), Results(m.blocks))
  {
    ToolMessagesSubstance(m.blocks);
    ResultsCloseTheirCalls(m.blocks, []);
    if ToolMessages(m.blocks) != [] {
      OnlyResults(m.blocks);
    } else if ToWire(m) != [] {
      assert ToWire(m)[1..] == [];
    }
  }

  /** Everything said, called and answered reaches the wire, in order, and nothing else does. */
  lemma {:induction false} WireLosesNothing(messages: seq<Message>)
    requires Paired(messages)
    ensures SubstanceOfWire(WireOf(messages)) == SubstanceOf(messages)
  {
    if messages != [] {
      var n := |messages| - 1;
      PairedPrefix(messages, n);
      WireLosesNothing(messages[..n]);
      WireSubstanceSplits(WireOf(messages[..n]), ToWire(messages[n]));
      MessageSubstance(messages[n]);
    }
  }

  lemma {:induction false} TextOfAppend(blocks: seq<Block>, b: Block)
    ensures TextOf(blocks + [b]) == TextOf(blocks) + if b.Text? then b.text else ""
  {
    if blocks != [] {
      assert (blocks + [b])[1..] == blocks[1..] + [b];
      TextOfAppend(blocks[1..], b);
    }
  }

  lemma {:induction false} CallsAppend(blocks: seq<Block>, b: Block)
    ensures Calls(blocks + [b]) == Calls(blocks) + if b.ToolUse? then [b] else []
  {
    if blocks != [] {
      assert (blocks + [b])[1..] == blocks[1..] + [b];
      CallsAppend(blocks[1..], b);
    }
  }

  lemma {:induction false} ResultsAppend(blocks: seq<Block>, b: Block)
    ensures Results(blocks + [b]) == Results(blocks) + if b.ToolResult? then [(b.id, b.content)] else []
  {
    if blocks != [] {
      assert (blocks + [b])[1..] == blocks[1..] + [b];
      ResultsAppend(blocks[1..], b);
    }
  }

  /** A message's text, calls and results are those of its blocks, one by one and in order. */
  lemma PartsInOrder(blocks: seq<Block>, b: Block)
    ensures TextOf(blocks + [b]) == TextOf(blocks) + if b.Text? then b.text else ""
    ensures Calls(blocks + [b]) == Calls(blocks) + if b.ToolUse? then [b] else []
    ensures Results(blocks + [b]) == Results(blocks) + if b.ToolResult? then [(b.id, b.content)] else []
    ensures TextOf([]) == "" && Calls([]) == [] && Results([]) == []
  {
    hide TextOf, Calls, Results;
    TextOfAppend(blocks, b);
    CallsAppend(blocks, b);
    ResultsAppend(blocks, b);
    NoParts();
  }

  lemma NoParts()
    ensures TextOf([]) == "" && Calls([]) == [] && Results([]) == []
  {
  }

  /** The chat messages of a wire, and the messages of a transcript that have something to say. */
  function Chats(wire: seq<WireMessage>): (chats: seq<WireMessage>)
    ensures forall m :: m in chats ==> m.Chat?
  {
    if wire == [] then [] else (if wire[0].Chat? then [wire[0]] else []) + Chats(wire[1..])
  }

  predicate Speaks(m: Message) {
    ResultIds(m.blocks) == [] && exists b :: b in m.blocks && (b.ToolUse? || (b.Text? && b.text != ""))
  }

  function Speaking(messages: seq<Message>): seq<Message> {
    if messages == [] then []
    else
      var last := messages[|messages| - 1];
      Speaking(messages[..|messages| - 1]) + if Speaks(last) then [last] else []
  }

  lemma {:induction false} ChatsSplit(a: seq<WireMessage>, b: seq<WireMessage>)
    ensures Chats(a + b) == Chats(a) + Chats(b)
  {
    if a == [] {
      assert a + b == b;
    } else {
      assert (a + b)[1..] == a[1..] + b;
      ChatsSplit(a[1..], b);
    }
  }

  lemma {:induction false} NoChatsAmongResults(blocks: seq<Block>)
    ensures Chats(ToolMessages(blocks)) == []
  {
    if blocks != [] {
      NoChatsAmongResults(blocks[1..]);
      if blocks[0].ToolResult? {
        assert ToolMessages(blocks)[1..] == ToolMessages(blocks[1..]);
      } else {
        assert ToolMessages(blocks) == ToolMessages(blocks[1..]);
      }
    }
  }

  lemma {:induction false} SomethingToSay(blocks: seq<Block>)
    ensures (TextOf(blocks) != "" || Calls(blocks) != []) <==>
            exists b :: b in blocks && (b.ToolUse? || (b.Text? && b.text != ""))
  {
    if blocks != [] {
      SomethingToSay(blocks[1..]);
      assert blocks == [blocks[0]] + blocks[1..];
    }
  }

  lemma MessageChat(m: Message)
    ensures Chats(ToWire(m)) == if Speaks(m) then [Chat(m.role, TextOf(m.blocks), Calls(m.blocks))] else []
  {
    ResultsCloseTheirCalls(m.blocks, []);
    NoChatsAmongResults(m.blocks);
    SomethingToSay(m.blocks);
    if ToolMessages(m.blocks) == [] && ToWire(m) != [] {
      assert ToWire(m)[1..] == [];
    }
  }

  /** The chat messages of the wire are those with something to say, one each and in order, under their
      own role and with their own text and calls. */
  lemma {:induction false} ChatsAreTheSpeaking(messages: seq<Message>)
    ensures var chats, speaking := Chats(WireOf(messages)), Speaking(messages);
      && |chats| == |speaking|
      && forall i :: 0 <= i < |chats| ==>
           chats[i] == Chat(speaking[i].role, TextOf(speaking[i].blocks), Calls(speaking[i].blocks))
  {
    if messages != [] {
      var n := |messages| - 1;
      ChatsAreTheSpeaking(messages[..n]);
      ChatsSplit(WireOf(messages[..n]), ToWire(messages[n]));
      MessageChat(messages[n]);
    }
  }
}
