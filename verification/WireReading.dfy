// Reading the wire back: what of the transcript it says, told block by block.
module WireReading {
  import opened Prelude
  import opened Transcripts
  import opened OpenAiWire
  import opened SessionHistory

  // ---- The transcript as a list of blocks ----

  datatype Item = Item(role: Role, block: Block)

  function ItemsOf(m: Message): seq<Item> {
    match m.content
    case Text(text) => [Item(m.role, TextBlock(text))]
    case Blocks(blocks) => seq(|blocks|, i requires 0 <= i < |blocks| => Item(m.role, blocks[i]))
  }

  function Items(ms: seq<Message>): seq<Item> {
    if ms == [] then [] else Items(ms[..|ms| - 1]) + ItemsOf(ms[|ms| - 1])
  }

  predicate IsSent(item: Item) {
    !item.block.OtherBlock?
  }

  function Self(item: Item): Item {
    item
  }

  // What is to be said, the system text first.
  function ToSay(ms: seq<Message>, system: Option<string>): seq<Item> {
    (if system.Some? && system.value != "" then [Item(System, TextBlock(system.value))] else [])
    + Picked(Items(ms), IsSent, Self)
  }

  // ---- How one block reads on the wire ----

  ghost predicate Says(c: Codec, m: WireMessage, item: Item) {
    match item.block
    case TextBlock(text) => m == WireText(item.role, text)
    case Bare(shown) => m == WireText(item.role, shown)
    case ToolUse(id, name, input) => m.WireCall? && m.id == id && m.name == name && c.loads(m.arguments) == Some(input)
    case ToolResult(id, result) => m == WireResult(id, result)
    case OtherBlock(_, _) => false
  }

  ghost predicate SaysAll(c: Codec, w: seq<WireMessage>, items: seq<Item>) {
    |w| == |items| && forall k | 0 <= k < |w| :: Says(c, w[k], items[k])
  }

  lemma SaysBoth(c: Codec, v: seq<WireMessage>, items: seq<Item>, w: seq<WireMessage>, more: seq<Item>)
    requires SaysAll(c, v, items) && SaysAll(c, w, more)
    ensures SaysAll(c, v + w, items + more)
  {
  }

  lemma {:induction false} BlocksAreSaid(c: Codec, role: Role, blocks: seq<Block>)
    requires Lawful(c)
    ensures SaysAll(c, ConvertBlocks(role, blocks, c.dumps), Picked(ItemsOf(Message(role, Blocks(blocks))), IsSent, Self))
  {
    var items := ItemsOf(Message(role, Blocks(blocks)));
    if blocks != [] {
      var front, b := blocks[..|blocks| - 1], blocks[|blocks| - 1];
      var before := ItemsOf(Message(role, Blocks(front)));
      BlocksAreSaid(c, role, front);
      assert items == before + [Item(role, b)];
      PickedLater(before, Item(role, b), IsSent, Self);
      BlockIsSaid(c, role, b);
      SaysBoth(c, ConvertBlocks(role, front, c.dumps), Picked(before, IsSent, Self),
               ConvertBlock(role, b, c.dumps), if IsSent(Item(role, b)) then [Item(role, b)] else []);
    }
  }

  lemma BlockIsSaid(c: Codec, role: Role, b: Block)
    requires Lawful(c)
    ensures SaysAll(c, ConvertBlock(role, b, c.dumps), if IsSent(Item(role, b)) then [Item(role, b)] else [])
  {
  }

  lemma MessageIsSaid(c: Codec, m: Message)
    requires Lawful(c)
    ensures SaysAll(c, ConvertMessage(m, c.dumps), Picked(ItemsOf(m), IsSent, Self))
  {
    match m.content {
      case Text(text) => PickedOne(Item(m.role, TextBlock(text)), IsSent, Self);
      case Blocks(blocks) => BlocksAreSaid(c, m.role, blocks);
    }
  }

  lemma {:induction false} AllIsSaid(c: Codec, ms: seq<Message>)
    requires Lawful(c)
    ensures SaysAll(c, ConvertAll(ms, c.dumps), Picked(Items(ms), IsSent, Self))
  {
    if ms != [] {
      var front, m := ms[..|ms| - 1], ms[|ms| - 1];
      AllIsSaid(c, front);
      MessageIsSaid(c, m);
      PickedBoth(Items(front), ItemsOf(m), IsSent, Self);
      SaysBoth(c, ConvertAll(front, c.dumps), Picked(Items(front), IsSent, Self),
               ConvertMessage(m, c.dumps), Picked(ItemsOf(m), IsSent, Self));
    }
  }

  // ---- Merging gathers stretches ----

  function TextOf(m: WireMessage): string {
    if m.WireText? then m.text else ""
  }

  function Values(w: seq<WireMessage>): seq<string> {
    seq(|w|, i requires 0 <= i < |w| => TextOf(w[i]))
  }

  // One message, or a stretch of one speaker's texts joined by newlines.
  ghost predicate IsStretch(m: WireMessage, w: seq<WireMessage>) {
    || w == [m]
    || (w != [] && m.WireText? && m.role != ToolRole && (forall x <- w :: x.WireText? && x.role == m.role)
        && m.text == Join(Values(w), "\n"))
  }

  ghost predicate Gathers(merged: seq<WireMessage>, w: seq<WireMessage>)
    decreases |merged|
  {
    if merged == [] then w == []
    else exists n: nat :: GathersFirst(merged, w, n) && Gathers(merged[1..], w[n..])
  }

  ghost predicate GathersFirst(merged: seq<WireMessage>, w: seq<WireMessage>, n: nat)
    requires merged != []
  {
    n <= |w| && IsStretch(merged[0], w[..n])
  }

  lemma {:induction false} TextsAreValues(w: seq<WireMessage>)
    requires forall m <- w :: m.WireText?
    ensures TextsOf(w) == Values(w)
  {
    if w != [] {
      assert w[0] in w;
      TextsAreValues(w[1..]);
      assert Values(w) == [TextOf(w[0])] + Values(w[1..]);
    }
  }

  lemma RunIsStretch(w: seq<WireMessage>)
    requires w != []
    ensures IsStretch(JoinRun(w[..RunLength(w)]), w[..RunLength(w)])
  {
    var n := RunLength(w);
    var run := w[..n];
    if n == 1 {
      OneMessage(w[0]);
      assert run == [w[0]];
    } else {
      forall i | 0 <= i < n ensures w[i].WireText? && w[i].role == w[0].role && w[0].role != ToolRole {
        RunIsUniform(w, i);
        RunIsUniform(w, 1);
      }
      TextsAreValues(run);
    }
  }

  lemma {:induction false} MergingGathers(w: seq<WireMessage>)
    ensures Gathers(JoinRuns(w), w)
  {
    if w != [] {
      var n := RunLength(w);
      RunIsStretch(w);
      MergingGathers(w[n..]);
      assert JoinRuns(w) == [JoinRun(w[..n])] + JoinRuns(w[n..]);
      assert JoinRuns(w)[1..] == JoinRuns(w[n..]);
      assert GathersFirst(JoinRuns(w), w, n);
    }
  }

  // The wire, read back: there is one message for each block that is sent, saying just that
  // block, and the wire is those messages with each stretch of one speaker's texts joined.
  lemma WireReadsBack(c: Codec, ms: seq<Message>, system: Option<string>) returns (said: seq<WireMessage>)
    requires Lawful(c)
    ensures SaysAll(c, said, ToSay(ms, system))
    ensures var w := JoinRuns(SystemPart(system) + ConvertAll(ms, c.dumps)); Gathers(w, said) && NoNeighboursMerge(w)
  {
    said := SystemPart(system) + ConvertAll(ms, c.dumps);
    AllIsSaid(c, ms);
    SaysBoth(c, SystemPart(system), if system.Some? && system.value != "" then [Item(System, TextBlock(system.value))] else [],
             ConvertAll(ms, c.dumps), Picked(Items(ms), IsSent, Self));
    MergingGathers(said);
    MergeIsIdempotent(said);
  }

  // ---- The calls and results, and the texts of each role ----

  predicate IsTool(m: WireMessage) {
    !m.WireText?
  }

  function Sent(m: WireMessage): WireMessage {
    m
  }

  predicate IsToolItem(item: Item) {
    item.block.ToolUse? || item.block.ToolResult?
  }

  lemma {:induction false} TrafficIsPicked(w: seq<WireMessage>)
    ensures ToolTraffic(w) == Picked(w, IsTool, Sent)
  {
    if w != [] {
      TrafficIsPicked(w[1..]);
      PickedFirst(w, IsTool, Sent);
    }
  }

  lemma {:induction false} ToolsAreSaid(c: Codec, w: seq<WireMessage>, items: seq<Item>)
    requires SaysAll(c, w, items)
    ensures SaysAll(c, Picked(w, IsTool, Sent), Picked(items, IsToolItem, Self))
  {
    if w != [] {
      var m, item := w[|w| - 1], items[|w| - 1];
      ToolsAreSaid(c, w[..|w| - 1], items[..|w| - 1]);
      PickedLater(w[..|w| - 1], m, IsTool, Sent);
      PickedLater(items[..|w| - 1], item, IsToolItem, Self);
      assert w == w[..|w| - 1] + [m] && items == items[..|w| - 1] + [item];
      assert Says(c, m, item);
      SaysBoth(c, Picked(w[..|w| - 1], IsTool, Sent), Picked(items[..|w| - 1], IsToolItem, Self),
               if IsTool(m) then [m] else [], if IsToolItem(item) then [item] else []);
    }
  }

  function TextBy(role: Role): WireMessage -> bool {
    (m: WireMessage) => m.WireText? && m.role == role
  }

  function ItemBy(role: Role): Item -> bool {
    (item: Item) => (item.block.TextBlock? || item.block.Bare?) && item.role == role
  }

  function ItemText(item: Item): string {
    match item.block
    case TextBlock(text) => text
    case Bare(shown) => shown
    case _ => ""
  }

  lemma {:induction false} TextsAreSaid(c: Codec, w: seq<WireMessage>, items: seq<Item>, role: Role)
    requires SaysAll(c, w, items)
    ensures Picked(w, TextBy(role), TextOf) == Picked(items, ItemBy(role), ItemText)
  {
    if w != [] {
      var m, item := w[|w| - 1], items[|w| - 1];
      TextsAreSaid(c, w[..|w| - 1], items[..|w| - 1], role);
      PickedLater(w[..|w| - 1], m, TextBy(role), TextOf);
      PickedLater(items[..|w| - 1], item, ItemBy(role), ItemText);
      assert w == w[..|w| - 1] + [m] && items == items[..|w| - 1] + [item];
      assert Says(c, m, item);
    }
  }

  lemma {:induction false} StretchTexts(w: seq<WireMessage>, role: Role)
    requires forall m <- w :: m.WireText?
    ensures (forall m <- w :: m.role == role) ==> Picked(w, TextBy(role), TextOf) == TextsOf(w)
    ensures (forall m <- w :: m.role != role) ==> Picked(w, TextBy(role), TextOf) == []
  {
    if w != [] {
      assert w[0] in w;
      StretchTexts(w[1..], role);
      PickedFirst(w, TextBy(role), TextOf);
    }
  }

  // The parts in front may be joined beforehand.
  predicate JoinAlike(a: seq<string>, b: seq<string>) {
    (a == [] <==> b == []) && Join(a, "\n") == Join(b, "\n")
  }

  lemma JoinedInFront(parts: seq<string>, more: seq<string>, rest: seq<string>)
    requires JoinAlike(more, rest)
    ensures JoinAlike(parts + more, (if parts == [] then [] else [Join(parts, "\n")]) + rest)
  {
    if parts == [] {
      assert parts + more == more && [] + rest == rest;
    } else if more == [] {
      assert [Join(parts, "\n")] + rest == [Join(parts, "\n")] && parts + more == parts;
    } else {
      JoinAppend(parts, more, "\n");
      JoinAppend([Join(parts, "\n")], rest, "\n");
    }
  }

  lemma HeadTexts(w: seq<WireMessage>, role: Role)
    requires w != []
    ensures var n := RunLength(w);
            var own := Picked(w[..n], TextBy(role), TextOf);
            Picked([JoinRun(w[..n])], TextBy(role), TextOf) == if own == [] then [] else [Join(own, "\n")]
  {
    var n := RunLength(w);
    var run := w[..n];
    PickedOne(JoinRun(run), TextBy(role), TextOf);
    if w[0].WireText? {
      forall i | 0 <= i < n ensures w[i].WireText? && w[i].role == w[0].role { RunIsUniform(w, i); }
      StretchTexts(run, role);
      assert run[0] == w[0] && TextsOf(run) != [];
    } else {
      assert n == 1 && run == [w[0]];
      PickedOne(w[0], TextBy(role), TextOf);
    }
  }

  lemma {:induction false} MergingKeepsTexts(w: seq<WireMessage>, role: Role)
    ensures JoinAlike(Picked(w, TextBy(role), TextOf), Picked(JoinRuns(w), TextBy(role), TextOf))
  {
    if w != [] {
      var n := RunLength(w);
      MergingKeepsTexts(w[n..], role);
      HeadTexts(w, role);
      TextsSplit(w, role);
      JoinedInFront(Picked(w[..n], TextBy(role), TextOf), Picked(w[n..], TextBy(role), TextOf),
                    Picked(JoinRuns(w[n..]), TextBy(role), TextOf));
    }
  }

  lemma TextsSplit(w: seq<WireMessage>, role: Role)
    requires w != []
    ensures var n, speaks := RunLength(w), TextBy(role);
            && Picked(w, speaks, TextOf) == Picked(w[..n], speaks, TextOf) + Picked(w[n..], speaks, TextOf)
            && Picked(JoinRuns(w), speaks, TextOf) == Picked([JoinRun(w[..n])], speaks, TextOf) + Picked(JoinRuns(w[n..]), speaks, TextOf)
  {
    var n := RunLength(w);
    WholeAndParts(w, n, role);
    assert JoinRuns(w) == [JoinRun(w[..n])] + JoinRuns(w[n..]);
    PickedBoth([JoinRun(w[..n])], JoinRuns(w[n..]), TextBy(role), TextOf);
  }

  lemma WholeAndParts(w: seq<WireMessage>, n: nat, role: Role)
    requires n <= |w|
    ensures Picked(w, TextBy(role), TextOf) == Picked(w[..n], TextBy(role), TextOf) + Picked(w[n..], TextBy(role), TextOf)
  {
    assert w == w[..n] + w[n..];
    PickedBoth(w[..n], w[n..], TextBy(role), TextOf);
  }

  // The wire's calls and results are the transcript's, in order and each as it was; the
  // texts of a role, joined, are those of that role, the system text first.
  lemma WireKeepsAll(c: Codec, ms: seq<Message>, system: Option<string>, role: Role)
    requires Lawful(c)
    ensures var w := JoinRuns(SystemPart(system) + ConvertAll(ms, c.dumps));
            && SaysAll(c, Picked(w, IsTool, Sent), Picked(ToSay(ms, system), IsToolItem, Self))
            && Join(Picked(w, TextBy(role), TextOf), "\n") == Join(Picked(ToSay(ms, system), ItemBy(role), ItemText), "\n")
  {
    var flat := SystemPart(system) + ConvertAll(ms, c.dumps);
    AllIsSaid(c, ms);
    SaysBoth(c, SystemPart(system), if system.Some? && system.value != "" then [Item(System, TextBlock(system.value))] else [],
             ConvertAll(ms, c.dumps), Picked(Items(ms), IsSent, Self));
    MergeKeepsTraffic(flat);
    TrafficIsPicked(flat);
    TrafficIsPicked(JoinRuns(flat));
    ToolsAreSaid(c, flat, ToSay(ms, system));
    TextsAreSaid(c, flat, ToSay(ms, system), role);
    MergingKeepsTexts(flat, role);
  }
}
