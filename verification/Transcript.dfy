// Conversation transcripts in the block format that is stored and sent back to the model.
module Transcripts {
  import opened Prelude

  datatype Role = System | User | Assistant | ToolRole

  // The kinds of block that neither loop nor conversion knows.
  type OtherKind = kind: string | kind != "text" && kind != "tool_use" && kind != "tool_result" witness "thinking"

  // One item of a message's list. An item that is no dictionary is kept as it is shown.
  datatype Block =
    | TextBlock(text: string)
    | ToolUse(id: string, name: string, input: Json)
    | ToolResult(toolUseId: string, result: string)
    | OtherBlock(kind: OtherKind, data: string)
    | Bare(shown: string)

  datatype Content = Text(text: string) | Blocks(blocks: seq<Block>)

  datatype Message = Message(role: Role, content: Content)

  predicate IsTextBlock(b: Block) {
    b.TextBlock?
  }

  function TextOfBlock(b: Block): string {
    if b.TextBlock? then b.text else ""
  }

  function BlocksOf(m: Message): seq<Block> {
    if m.content.Blocks? then m.content.blocks else []
  }

  function CallIds(blocks: seq<Block>): seq<string> {
    if blocks == [] then []
    else (if blocks[0].ToolUse? then [blocks[0].id] else []) + CallIds(blocks[1..])
  }

  function ResultIds(blocks: seq<Block>): seq<string> {
    if blocks == [] then []
    else (if blocks[0].ToolResult? then [blocks[0].toolUseId] else []) + ResultIds(blocks[1..])
  }

  function Calls(m: Message): seq<string> {
    CallIds(BlocksOf(m))
  }

  function Results(m: Message): seq<string> {
    ResultIds(BlocksOf(m))
  }

  predicate OnlyResults(m: Message) {
    m.content.Blocks? && forall b <- m.content.blocks :: b.ToolResult?
  }

  // Message i, if it makes calls, is an assistant's and is followed at once by one user
  // message that holds their results, in order, and nothing else.
  ghost predicate AnsweredAt(ms: seq<Message>, i: nat)
    requires i < |ms|
  {
    Calls(ms[i]) != [] ==>
      && ms[i].role == Assistant
      && i + 1 < |ms|
      && ms[i + 1].role == User
      && OnlyResults(ms[i + 1])
      && Results(ms[i + 1]) == Calls(ms[i])
  }

  // Message i, if it holds results, answers exactly the calls of the message before it.
  ghost predicate AnchoredAt(ms: seq<Message>, i: nat)
    requires i < |ms|
  {
    Results(ms[i]) != [] ==> i > 0 && Calls(ms[i - 1]) == Results(ms[i])
  }

  ghost predicate WellPaired(ms: seq<Message>) {
    && (forall i: nat | i < |ms| :: AnsweredAt(ms, i))
    && (forall i: nat | i < |ms| :: AnchoredAt(ms, i))
  }

  // A transcript that ends cleanly can be continued by any paired one that starts afresh.
  lemma WellPairedAppend(ms: seq<Message>, more: seq<Message>)
    requires WellPaired(ms) && WellPaired(more)
    ensures WellPaired(ms + more)
  {
    var all := ms + more;
    forall i: nat | i < |all| ensures AnsweredAt(all, i) && AnchoredAt(all, i) {
      if i < |ms| {
        assert AnsweredAt(ms, i) && AnchoredAt(ms, i);
      } else {
        assert AnsweredAt(more, i - |ms|) && AnchoredAt(more, i - |ms|);
      }
    }
  }

  // Conversely both parts of a paired transcript are paired, if the first part is.
  lemma WellPairedSplit(ms: seq<Message>, more: seq<Message>)
    requires WellPaired(ms) && WellPaired(ms + more)
    ensures WellPaired(more)
  {
    var all := ms + more;
    forall i: nat | i < |more| ensures AnsweredAt(more, i) && AnchoredAt(more, i) {
      assert AnsweredAt(all, |ms| + i) && AnchoredAt(all, |ms| + i);
      if i == 0 && ms != [] { assert AnsweredAt(ms, |ms| - 1); }
    }
  }

  lemma {:induction false} CallIdsAppend(a: seq<Block>, b: seq<Block>)
    ensures CallIds(a + b) == CallIds(a) + CallIds(b)
    ensures ResultIds(a + b) == ResultIds(a) + ResultIds(b)
  {
    if a == [] {
      assert a + b == b;
    } else {
      assert (a + b)[1..] == a[1..] + b;
      CallIdsAppend(a[1..], b);
      var call, result := if a[0].ToolUse? then [a[0].id] else [], if a[0].ToolResult? then [a[0].toolUseId] else [];
      Regroup(call, CallIds(a[1..]), CallIds(b));
      Regroup(result, ResultIds(a[1..]), ResultIds(b));
    }
  }
}
