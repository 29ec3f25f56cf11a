// Translating a stored transcript into the flat message list of the OpenAI wire format,
// and merging neighbouring texts of one role.
module OpenAiWire {
  import opened Prelude
  import opened Transcripts

  datatype WireMessage =
    | WireText(role: Role, text: string)
    | WireCall(id: string, name: string, arguments: string)
    | WireResult(callId: string, result: string)

  function WireRole(w: WireMessage): Role {
    match w
    case WireText(role, _) => role
    case WireCall(_, _, _) => Assistant
    case WireResult(_, _) => ToolRole
  }

  // Blocks of other kinds are dropped. `dumps` prints a call's input.
  function ConvertBlock(role: Role, b: Block, dumps: Json -> string): seq<WireMessage> {
    match b
    case ToolResult(id, result) => [WireResult(id, result)]
    case TextBlock(text) => [WireText(role, text)]
    case ToolUse(id, name, input) => [WireCall(id, name, dumps(input))]
    case OtherBlock(_, _) => []
    case Bare(shown) => [WireText(role, shown)]
  }

  function ConvertBlocks(role: Role, blocks: seq<Block>, dumps: Json -> string): seq<WireMessage> {
    if blocks == [] then []
    else ConvertBlocks(role, blocks[..|blocks| - 1], dumps) + ConvertBlock(role, blocks[|blocks| - 1], dumps)
  }

  function ConvertMessage(m: Message, dumps: Json -> string): seq<WireMessage> {
    match m.content
    case Text(text) => [WireText(m.role, text)]
    case Blocks(blocks) => ConvertBlocks(m.role, blocks, dumps)
  }

  function ConvertAll(ms: seq<Message>, dumps: Json -> string): seq<WireMessage> {
    if ms == [] then []
    else ConvertAll(ms[..|ms| - 1], dumps) + ConvertMessage(ms[|ms| - 1], dumps)
  }

  function SystemPart(system: Option<string>): seq<WireMessage> {
    if system.Some? && system.value != "" then [WireText(System, system.value)] else []
  }

  // ---- Merging: the reference is a partition into runs ----

  predicate Mergeable(a: WireMessage, b: WireMessage) {
    a.WireText? && b.WireText? && a.role == b.role && a.role != ToolRole
  }

  // How many leading messages form one run.
  function RunLength(w: seq<WireMessage>): (n: nat)
    ensures n <= |w| && (w != [] ==> n > 0)
  {
    if w == [] then 0
    else if |w| > 1 && Mergeable(w[0], w[1]) then 1 + RunLength(w[1..])
    else 1
  }

  function TextsOf(w: seq<WireMessage>): seq<string> {
    if w == [] then []
    else (if w[0].WireText? then [w[0].text] else []) + TextsOf(w[1..])
  }

  function JoinRun(run: seq<WireMessage>): WireMessage
    requires run != []
  {
    if run[0].WireText? then WireText(run[0].role, Join(TextsOf(run), "\n")) else run[0]
  }

  // Each maximal run becomes one message, its texts joined by newlines.
  function JoinRuns(w: seq<WireMessage>): seq<WireMessage> {
    if w == [] then [] else [JoinRun(w[..RunLength(w)])] + JoinRuns(w[RunLength(w)..])
  }

  // What the merging loop does with one more message.
  function Push(merged: seq<WireMessage>, w: WireMessage): seq<WireMessage> {
    if merged != [] && Mergeable(merged[|merged| - 1], w)
    then merged[|merged| - 1 := WireText(w.role, merged[|merged| - 1].text + "\n" + w.text)]
    else merged + [w]
  }

  // ---- The client's methods ----

  method ConvertMessages(messages: seq<Message>, system: Option<string>, dumps: Json -> string) returns (merged: seq<WireMessage>)
    ensures merged == JoinRuns(SystemPart(system) + ConvertAll(messages, dumps))
  {
    var result: seq<WireMessage> := [];
    if system.Some? && system.value != "" {
      result := result + [WireText(System, system.value)];
    }
    ghost var head := result;
    assert head == SystemPart(system);
    for i := 0 to |messages|
      invariant result == head + ConvertAll(messages[..i], dumps)
    {
      ConvertedSoFar(messages, i, head, dumps);
      result := AppendConverted(result, messages[i], dumps);
    }
    assert messages[..|messages|] == messages;
    merged := MergeMessages(result);
  }

  lemma ConvertedSoFar(messages: seq<Message>, i: nat, head: seq<WireMessage>, dumps: Json -> string)
    requires i < |messages|
    ensures head + ConvertAll(messages[..i], dumps) + ConvertMessage(messages[i], dumps)
         == head + ConvertAll(messages[..i + 1], dumps)
  {
    assert messages[..i + 1][..i] == messages[..i];
  }

  method AppendConverted(before: seq<WireMessage>, msg: Message, dumps: Json -> string) returns (result: seq<WireMessage>)
    ensures result == before + ConvertMessage(msg, dumps)
  {
    if msg.content.Text? {
      return before + [WireText(msg.role, msg.content.text)];
    }
    result := before;
    var blocks := msg.content.blocks;
    for j := 0 to |blocks|
      invariant result == before + ConvertBlocks(msg.role, blocks[..j], dumps)
    {
      match blocks[j] {
        case ToolResult(id, text) => result := result + [WireResult(id, text)];
        case TextBlock(text) => result := result + [WireText(msg.role, text)];
        case ToolUse(id, name, input) => result := result + [WireCall(id, name, dumps(input))];
        case OtherBlock(_, _) =>
        case Bare(shown) => result := result + [WireText(msg.role, shown)];
      }
      assert blocks[..j + 1][..j] == blocks[..j];
    }
    assert blocks[..|blocks|] == blocks;
  }

  method MergeMessages(result: seq<WireMessage>) returns (merged: seq<WireMessage>)
    ensures merged == JoinRuns(result)
  {
    merged := [];
    for i := 0 to |result|
      invariant merged == JoinRuns(result[..i])
    {
      var msg := result[i];
      assert result[..i + 1] == result[..i] + [msg];
      PushExtends(result[..i], msg);
      merged := MergeOne(merged, msg);
    }
    assert result[..|result|] == result;
  }

  method MergeOne(before: seq<WireMessage>, msg: WireMessage) returns (merged: seq<WireMessage>)
    ensures merged == Push(before, msg)
  {
    merged := before;
    if merged != [] && WireRole(msg) == WireRole(merged[|merged| - 1]) && WireRole(msg) != ToolRole
       && merged[|merged| - 1].WireText? && msg.WireText? {
      var last := merged[|merged| - 1];
      merged := merged[|merged| - 1 := WireText(last.role, last.text + "\n" + msg.text)];
    } else {
      merged := merged + [msg];
    }
  }

  // ---- Merging refines the reference ----

  lemma {:induction false} RunLengthAppend(w: seq<WireMessage>, m: WireMessage)
    requires w != []
    ensures RunLength(w + [m]) == if RunLength(w) == |w| && Mergeable(w[|w| - 1], m) then |w| + 1 else RunLength(w)
  {
    assert (w + [m])[1..] == w[1..] + [m];
    if |w| > 1 {
      if Mergeable(w[0], w[1]) { RunLengthAppend(w[1..], m); }
    } else {
      assert (w + [m])[1..][1..] == [];
    }
  }

  lemma {:induction false} RunIsUniform(w: seq<WireMessage>, i: nat)
    requires i < RunLength(w)
    ensures i > 0 ==> w[0].WireText? && w[i].WireText? && w[i].role == w[0].role && w[0].role != ToolRole
  {
    if i > 0 { RunIsUniform(w[1..], i - 1); }
  }

  lemma {:induction false} TextsOfAppend(a: seq<WireMessage>, b: seq<WireMessage>)
    ensures TextsOf(a + b) == TextsOf(a) + TextsOf(b)
  {
    if a == [] {
      assert a + b == b;
    } else {
      assert (a + b)[1..] == a[1..] + b;
      TextsOfAppend(a[1..], b);
    }
  }

  lemma OneRun(w: seq<WireMessage>)
    requires w != [] && RunLength(w) == |w|
    ensures JoinRuns(w) == [JoinRun(w)]
  {
    assert w[..|w|] == w && w[|w|..] == [];
  }

  lemma OneMessage(m: WireMessage)
    ensures RunLength([m]) == 1 && JoinRun([m]) == m && JoinRuns([m]) == [m]
    ensures m.WireText? ==> TextsOf([m]) == [m.text]
  {
    assert [m][1..] == [] && [m][..1] == [m];
    assert m.WireText? ==> TextsOf([m]) == [m.text] + TextsOf([m][1..]);
  }

  // The message joins the run.
  lemma PushJoins(w: seq<WireMessage>, m: WireMessage)
    requires w != [] && RunLength(w) == |w| && Mergeable(w[|w| - 1], m)
    ensures JoinRuns(w + [m]) == [WireText(m.role, JoinRun(w).text + "\n" + m.text)]
  {
    RunIsUniform(w, |w| - 1);
    RunLengthAppend(w, m);
    OneRun(w + [m]);
    TextsOfAppend(w, [m]);
    OneMessage(m);
    assert TextsOf(w)[0] == w[0].text;
    JoinAppend(TextsOf(w), [m.text], "\n");
  }

  // A new run begins after the first.
  lemma JoinRunsAcross(w: seq<WireMessage>, n: nat, m: WireMessage)
    requires w != [] && n == RunLength(w) == RunLength(w + [m])
    ensures JoinRuns(w + [m]) == [JoinRun(w[..n])] + JoinRuns(w[n..] + [m])
  {
    assert (w + [m])[..n] == w[..n] && (w + [m])[n..] == w[n..] + [m];
  }

  // A single run takes the message, or is followed by it.
  lemma PushAfterOneRun(w: seq<WireMessage>, m: WireMessage)
    requires w != [] && RunLength(w) == |w|
    ensures JoinRuns(w + [m]) == Push(JoinRuns(w), m)
  {
    OneRun(w);
    JoinedIsMergeable(w, m);
    PushOnOne(JoinRun(w), m);
    if Mergeable(w[|w| - 1], m) { PushJoins(w, m); } else { NewRunBegins(w, m); }
  }

  lemma PushOnOne(head: WireMessage, m: WireMessage)
    ensures Push([head], m) == if Mergeable(head, m) then [WireText(m.role, head.text + "\n" + m.text)] else [head, m]
  {
  }

  lemma JoinedIsMergeable(w: seq<WireMessage>, m: WireMessage)
    requires w != [] && RunLength(w) == |w|
    ensures Mergeable(JoinRun(w), m) <==> Mergeable(w[|w| - 1], m)
  {
    RunIsUniform(w, |w| - 1);
  }

  lemma NewRunBegins(w: seq<WireMessage>, m: WireMessage)
    requires w != [] && RunLength(w) == |w| && !Mergeable(w[|w| - 1], m)
    ensures JoinRuns(w + [m]) == [JoinRun(w), m]
  {
    RunLengthAppend(w, m);
    JoinRunsAcross(w, |w|, m);
    NothingLeft(w, m);
    OneMessage(m);
  }

  lemma NothingLeft(w: seq<WireMessage>, m: WireMessage)
    ensures w[..|w|] == w && w[|w|..] + [m] == [m]
  {
  }

  lemma {:induction false} PushExtends(w: seq<WireMessage>, m: WireMessage)
    ensures JoinRuns(w + [m]) == Push(JoinRuns(w), m)
  {
    if w == [] {
      OneMessage(m);
      assert w + [m] == [m];
    } else {
      var n := RunLength(w);
      if n == |w| {
        PushAfterOneRun(w, m);
      } else {
        RunLengthAppend(w, m);
        JoinRunsAcross(w, n, m);
        PushExtends(w[n..], m);
        PushPastHead(JoinRun(w[..n]), JoinRuns(w[n..]), m);
      }
    }
  }

  lemma PushPastHead(head: WireMessage, rest: seq<WireMessage>, m: WireMessage)
    requires rest != []
    ensures Push([head] + rest, m) == [head] + Push(rest, m)
  {
  }

  // ---- Merging leaves nothing to merge, and is idempotent ----

  ghost predicate NoNeighboursMerge(w: seq<WireMessage>) {
    forall i | 0 <= i < |w| - 1 :: !Mergeable(w[i], w[i + 1])
  }

  lemma {:induction false} RunsEndApart(w: seq<WireMessage>)
    requires w != [] && RunLength(w) < |w|
    ensures !Mergeable(w[RunLength(w) - 1], w[RunLength(w)])
  {
    if |w| > 1 && Mergeable(w[0], w[1]) { RunsEndApart(w[1..]); }
  }

  // The first merged message has the role and kind of the first message.
  lemma JoinRunsHead(w: seq<WireMessage>, before: WireMessage)
    requires w != []
    ensures JoinRuns(w) != [] && (Mergeable(before, JoinRuns(w)[0]) <==> Mergeable(before, w[0]))
  {
  }

  lemma {:induction false} JoinRunsMergedOut(w: seq<WireMessage>)
    ensures NoNeighboursMerge(JoinRuns(w))
  {
    if w != [] {
      var n := RunLength(w);
      JoinRunsMergedOut(w[n..]);
      if n < |w| {
        RunsEndApart(w);
        RunIsUniform(w, n - 1);
        var head := JoinRun(w[..n]);
        JoinRunsHead(w[n..], head);
        assert JoinRuns(w) == [head] + JoinRuns(w[n..]);
        assert !Mergeable(head, w[n]);
      } else {
        assert w[n..] == [];
      }
    }
  }

  lemma {:induction false} NothingToJoin(w: seq<WireMessage>)
    requires NoNeighboursMerge(w)
    ensures JoinRuns(w) == w
  {
    if w != [] {
      assert RunLength(w) == 1;
      assert w[..1] == [w[0]] && [w[0]][1..] == [];
      assert w[0].WireText? ==> TextsOf([w[0]]) == [w[0].text];
      NothingToJoin(w[1..]);
    }
  }

  // Merging leaves nothing to merge, so merging again changes nothing.
  lemma MergeIsIdempotent(w: seq<WireMessage>)
    ensures NoNeighboursMerge(JoinRuns(w)) && JoinRuns(JoinRuns(w)) == JoinRuns(w)
  {
    JoinRunsMergedOut(w);
    NothingToJoin(JoinRuns(w));
  }

  // ---- Calls and results survive, in order, and each result follows its call ----

  function ToolTraffic(w: seq<WireMessage>): seq<WireMessage> {
    if w == [] then []
    else (if w[0].WireText? then [] else [w[0]]) + ToolTraffic(w[1..])
  }

  lemma {:induction false} ToolTrafficAppend(a: seq<WireMessage>, b: seq<WireMessage>)
    ensures ToolTraffic(a + b) == ToolTraffic(a) + ToolTraffic(b)
  {
    if a == [] {
      assert a + b == b;
    } else {
      assert (a + b)[1..] == a[1..] + b;
      ToolTrafficAppend(a[1..], b);
    }
  }

  lemma {:induction false} TextsAreNoTraffic(w: seq<WireMessage>)
    requires forall m <- w :: m.WireText?
    ensures ToolTraffic(w) == []
  {
    if w != [] {
      assert w[0] in w;
      TextsAreNoTraffic(w[1..]);
    }
  }

  lemma {:induction false} MergeKeepsTraffic(w: seq<WireMessage>)
    ensures ToolTraffic(JoinRuns(w)) == ToolTraffic(w)
  {
    if w != [] {
      var n := RunLength(w);
      var head := JoinRun(w[..n]);
      MergeKeepsTraffic(w[n..]);
      assert w == w[..n] + w[n..];
      ToolTrafficAppend(w[..n], w[n..]);
      ToolTrafficAppend([head], JoinRuns(w[n..]));
      assert [head][1..] == [];
      if w[0].WireText? {
        forall i | 0 <= i < n ensures w[i].WireText? { RunIsUniform(w, i); }
        TextsAreNoTraffic(w[..n]);
      } else {
        assert w[..n] == [w[0]];
      }
    }
  }

  function WireCallIds(w: seq<WireMessage>): seq<string> {
    if w == [] then []
    else (if w[0].WireCall? then [w[0].id] else []) + WireCallIds(w[1..])
  }

  function WireResultIds(w: seq<WireMessage>): seq<string> {
    if w == [] then []
    else (if w[0].WireResult? then [w[0].callId] else []) + WireResultIds(w[1..])
  }

  lemma {:induction false} WireIdsAppend(a: seq<WireMessage>, b: seq<WireMessage>)
    ensures WireCallIds(a + b) == WireCallIds(a) + WireCallIds(b)
    ensures WireResultIds(a + b) == WireResultIds(a) + WireResultIds(b)
  {
    if a == [] {
      assert a + b == b;
    } else {
      assert (a + b)[1..] == a[1..] + b;
      WireIdsAppend(a[1..], b);
      var call, result := if a[0].WireCall? then [a[0].id] else [], if a[0].WireResult? then [a[0].callId] else [];
      Regroup(call, WireCallIds(a[1..]), WireCallIds(b));
      Regroup(result, WireResultIds(a[1..]), WireResultIds(b));
    }
  }

  lemma {:induction false} WireIdsOfTraffic(w: seq<WireMessage>)
    ensures WireCallIds(ToolTraffic(w)) == WireCallIds(w) && WireResultIds(ToolTraffic(w)) == WireResultIds(w)
  {
    if w != [] {
      WireIdsOfTraffic(w[1..]);
      if w[0].WireText? {
        assert ToolTraffic(w) == ToolTraffic(w[1..]);
      } else {
        assert ToolTraffic(w)[1..] == ToolTraffic(w[1..]);
      }
    }
  }

  function AllCallIds(ms: seq<Message>): seq<string> {
    if ms == [] then [] else AllCallIds(ms[..|ms| - 1]) + Calls(ms[|ms| - 1])
  }

  function AllResultIds(ms: seq<Message>): seq<string> {
    if ms == [] then [] else AllResultIds(ms[..|ms| - 1]) + Results(ms[|ms| - 1])
  }

  lemma {:induction false} ConvertBlocksIds(role: Role, blocks: seq<Block>, dumps: Json -> string)
    ensures WireCallIds(ConvertBlocks(role, blocks, dumps)) == CallIds(blocks)
    ensures WireResultIds(ConvertBlocks(role, blocks, dumps)) == ResultIds(blocks)
  {
    if blocks != [] {
      var front, b := blocks[..|blocks| - 1], blocks[|blocks| - 1];
      ConvertBlocksIds(role, front, dumps);
      WireIdsAppend(ConvertBlocks(role, front, dumps), ConvertBlock(role, b, dumps));
      LastBlockIds(blocks);
      ConvertBlockIds(role, b, dumps);
    }
  }

  lemma LastBlockIds(blocks: seq<Block>)
    requires blocks != []
    ensures var front, last := blocks[..|blocks| - 1], [blocks[|blocks| - 1]];
            CallIds(blocks) == CallIds(front) + CallIds(last) && ResultIds(blocks) == ResultIds(front) + ResultIds(last)
  {
    CallIdsAppend(blocks[..|blocks| - 1], [blocks[|blocks| - 1]]);
    assert blocks == blocks[..|blocks| - 1] + [blocks[|blocks| - 1]];
  }

  lemma ConvertBlockIds(role: Role, b: Block, dumps: Json -> string)
    ensures WireCallIds(ConvertBlock(role, b, dumps)) == CallIds([b])
    ensures WireResultIds(ConvertBlock(role, b, dumps)) == ResultIds([b])
  {
    assert [b][1..] == [];
    var w := ConvertBlock(role, b, dumps);
    assert w == [] || w[1..] == [];
  }

  lemma MessageIds(m: Message, dumps: Json -> string)
    ensures WireCallIds(ConvertMessage(m, dumps)) == Calls(m) && WireResultIds(ConvertMessage(m, dumps)) == Results(m)
  {
    match m.content {
      case Text(text) => assert ConvertMessage(m, dumps)[1..] == [];
      case Blocks(blocks) => ConvertBlocksIds(m.role, blocks, dumps);
    }
  }

  lemma {:induction false} ConvertAllIds(ms: seq<Message>, dumps: Json -> string)
    ensures WireCallIds(ConvertAll(ms, dumps)) == AllCallIds(ms)
    ensures WireResultIds(ConvertAll(ms, dumps)) == AllResultIds(ms)
  {
    if ms != [] {
      var front, m := ms[..|ms| - 1], ms[|ms| - 1];
      ConvertAllIds(front, dumps);
      MessageIds(m, dumps);
      WireIdsAppend(ConvertAll(front, dumps), ConvertMessage(m, dumps));
    }
  }

  // The wire list carries the transcript's calls and its results, each in order.
  lemma ConversionKeepsIds(ms: seq<Message>, system: Option<string>, dumps: Json -> string)
    ensures var w := JoinRuns(SystemPart(system) + ConvertAll(ms, dumps));
            WireCallIds(w) == AllCallIds(ms) && WireResultIds(w) == AllResultIds(ms)
  {
    var flat := SystemPart(system) + ConvertAll(ms, dumps);
    MergeKeepsTraffic(flat);
    WireIdsOfTraffic(flat);
    WireIdsOfTraffic(JoinRuns(flat));
    WireIdsAppend(SystemPart(system), ConvertAll(ms, dumps));
    assert SystemPart(system) == [] || SystemPart(system)[1..] == [];
    ConvertAllIds(ms, dumps);
  }

  // Every result stands after a message that carries its call.
  ghost predicate ResultsFollowCalls(w: seq<WireMessage>) {
    forall p | 0 <= p < |w| && w[p].WireResult? :: CalledBefore(w, p, w[p].callId)
  }

  ghost predicate CalledBefore(w: seq<WireMessage>, p: nat, id: string) {
    exists q :: 0 <= q < p && q < |w| && w[q].WireCall? && w[q].id == id
  }

  // The same, scanning with the calls seen so far.
  predicate FollowsFrom(w: seq<WireMessage>, seen: set<string>) {
    if w == [] then true
    else match w[0]
         case WireCall(id, _, _) => FollowsFrom(w[1..], seen + {id})
         case WireResult(id, _) => id in seen && FollowsFrom(w[1..], seen)
         case WireText(_, _) => FollowsFrom(w[1..], seen)
  }

  lemma {:induction false} ScanIsPositional(w: seq<WireMessage>, seen: set<string>)
    ensures FollowsFrom(w, seen) <==>
            forall p | 0 <= p < |w| && w[p].WireResult? :: w[p].callId in seen || CalledBefore(w, p, w[p].callId)
  {
    if w != [] {
      var rest := w[1..];
      var more := if w[0].WireCall? then seen + {w[0].id} else seen;
      ScanIsPositional(rest, more);
      forall p | 0 <= p < |rest| && rest[p].WireResult?
        ensures (rest[p].callId in more || CalledBefore(rest, p, rest[p].callId))
           <==> (w[p + 1].callId in seen || CalledBefore(w, p + 1, w[p + 1].callId))
      {
        var id := rest[p].callId;
        if CalledBefore(rest, p, id) {
          var q :| 0 <= q < p && rest[q].WireCall? && rest[q].id == id;
          assert w[q + 1] == rest[q];
        }
        if CalledBefore(w, p + 1, id) {
          var q :| 0 <= q < p + 1 && w[q].WireCall? && w[q].id == id;
          if q > 0 { assert rest[q - 1] == w[q]; }
        }
        if id in more && id !in seen { assert w[0].WireCall? && w[0].id == id; }
      }
      if w[0].WireResult? { assert !CalledBefore(w, 0, w[0].callId); }
      if FollowsFrom(w, seen) {
        forall p | 0 <= p < |w| && w[p].WireResult? ensures w[p].callId in seen || CalledBefore(w, p, w[p].callId) {
          if p > 0 { assert rest[p - 1] == w[p]; }
        }
      }
    }
  }

  lemma {:induction false} ScanSkipsTexts(w: seq<WireMessage>, seen: set<string>)
    ensures FollowsFrom(ToolTraffic(w), seen) == FollowsFrom(w, seen)
  {
    if w != [] {
      ScanSkipsTexts(w[1..], if w[0].WireCall? then seen + {w[0].id} else seen);
      if w[0].WireText? {
        assert ToolTraffic(w) == ToolTraffic(w[1..]);
      } else {
        assert ToolTraffic(w)[1..] == ToolTraffic(w[1..]);
      }
    }
  }

  lemma {:induction false} ScanAppend(a: seq<WireMessage>, b: seq<WireMessage>, seen: set<string>)
    ensures FollowsFrom(a + b, seen) <==>
            FollowsFrom(a, seen) && FollowsFrom(b, seen + set id | id in WireCallIds(a))
  {
    if a == [] {
      assert a + b == b;
      assert seen + (set id | id in WireCallIds(a)) == seen;
    } else {
      assert (a + b)[1..] == a[1..] + b;
      var more := if a[0].WireCall? then seen + {a[0].id} else seen;
      ScanAppend(a[1..], b, more);
      assert more + (set id | id in WireCallIds(a[1..])) == seen + set id | id in WireCallIds(a);
    }
  }

  lemma {:induction false} ResultsSeen(w: seq<WireMessage>, seen: set<string>)
    requires forall id <- WireResultIds(w) :: id in seen
    ensures FollowsFrom(w, seen)
  {
    if w != [] {
      var more := if w[0].WireCall? then seen + {w[0].id} else seen;
      forall id <- WireResultIds(w[1..]) ensures id in more { assert id in WireResultIds(w); }
      ResultsSeen(w[1..], more);
      if w[0].WireResult? { assert WireResultIds(w)[0] == w[0].callId; }
    }
  }

  lemma {:induction false} PairedConverts(ms: seq<Message>, dumps: Json -> string)
    requires forall i: nat | i < |ms| :: AnchoredAt(ms, i)
    ensures FollowsFrom(ConvertAll(ms, dumps), {})
  {
    if ms != [] {
      var front, m := ms[..|ms| - 1], ms[|ms| - 1];
      forall i: nat | i < |front| ensures AnchoredAt(front, i) { assert AnchoredAt(ms, i); }
      PairedConverts(front, dumps);
      var a, b := ConvertAll(front, dumps), ConvertMessage(m, dumps);
      MessageIds(m, dumps);
      ConvertAllIds(front, dumps);
      var called := {} + set id | id in WireCallIds(a);
      assert AnchoredAt(ms, |ms| - 1);
      forall id <- WireResultIds(b) ensures id in called {
        assert Results(m) == Calls(front[|front| - 1]);
        assert AllCallIds(front) == AllCallIds(front[..|front| - 1]) + Calls(front[|front| - 1]);
      }
      ResultsSeen(b, called);
      ScanAppend(a, b, {});
    }
  }

  // Converting a well-paired transcript: every tool message comes after its call.
  lemma ConvertedResultsFollowCalls(ms: seq<Message>, system: Option<string>, dumps: Json -> string)
    requires WellPaired(ms)
    ensures ResultsFollowCalls(JoinRuns(SystemPart(system) + ConvertAll(ms, dumps)))
  {
    var head, body := SystemPart(system), ConvertAll(ms, dumps);
    var merged := JoinRuns(head + body);
    PairedConverts(ms, dumps);
    assert head == [] || head[1..] == [];
    assert WireCallIds(head) == [] && {} + (set id | id in WireCallIds(head)) == {};
    ScanAppend(head, body, {});
    MergeKeepsTraffic(head + body);
    ScanSkipsTexts(head + body, {});
    ScanSkipsTexts(merged, {});
    ScanIsPositional(merged, {});
  }

  // Up to any point, the calls made are the results given and those still to come.
  lemma {:induction false} PairedBalance(ms: seq<Message>, n: nat)
    requires WellPaired(ms) && n <= |ms|
    ensures AllCallIds(ms[..n]) == AllResultIds(ms[..n]) + (if n > 0 then Calls(ms[n - 1]) else [])
  {
    if n > 0 {
      PairedBalance(ms, n - 1);
      assert ms[..n][..n - 1] == ms[..n - 1];
      assert AnchoredAt(ms, n - 1);
      if n > 1 { assert AnsweredAt(ms, n - 2); }
    }
  }

  // On the wire, every call is answered: the results' ids are the calls' ids, in order.
  lemma ConvertedCallsAreAnswered(ms: seq<Message>, system: Option<string>, dumps: Json -> string)
    requires WellPaired(ms)
    ensures var w := JoinRuns(SystemPart(system) + ConvertAll(ms, dumps)); WireResultIds(w) == WireCallIds(w)
  {
    ConversionKeepsIds(ms, system, dumps);
    PairedBalance(ms, |ms|);
    assert ms[..|ms|] == ms;
    if ms != [] { assert AnsweredAt(ms, |ms| - 1); }
  }
}
