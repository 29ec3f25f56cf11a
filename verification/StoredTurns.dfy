// Turn after turn of one conversation: each loads the stored history, runs the agent on it
// and saves the result, while the cache in between may expire.
module StoredTurns {
  import opened Prelude
  import opened Transcripts
  import opened AgentLoop
  import opened AgentRuns
  import History = SessionHistory
  import opened StreamAssembly

  // ---- Messages as stored JSON ----

  function RoleName(role: Role): string {
    match role
    case System => "system"
    case User => "user"
    case Assistant => "assistant"
    case ToolRole => "tool"
  }

  function RoleOf(name: string): Role {
    if name == "system" then System
    else if name == "assistant" then Assistant
    else if name == "tool" then ToolRole
    else User
  }

  function BlockJson(b: Block): Json {
    match b
    case TextBlock(text) => JObject(map["type" := JString("text"), "text" := JString(text)])
    case ToolUse(id, name, input) =>
      JObject(map["type" := JString("tool_use"), "id" := JString(id), "name" := JString(name), "input" := input])
    case ToolResult(id, result) =>
      JObject(map["type" := JString("tool_result"), "tool_use_id" := JString(id), "content" := JString(result)])
    case OtherBlock(kind, data) => JObject(map["type" := JString(kind), "data" := JString(data)])
    case Bare(shown) => JString(shown)
  }

  function TextAt(fields: map<string, Json>, key: string): string {
    if key in fields && fields[key].JString? then fields[key].text else ""
  }

  // One item of a stored list: a dictionary by its type, anything else as it is shown.
  function BlockFrom(c: History.Codec, j: Json): Block {
    match j
    case JObject(fields) =>
      var kind := TextAt(fields, "type");
      if kind == "text" then TextBlock(TextAt(fields, "text"))
      else if kind == "tool_use" then
        ToolUse(TextAt(fields, "id"), TextAt(fields, "name"), if "input" in fields then fields["input"] else JObject(map[]))
      else if kind == "tool_result" then ToolResult(TextAt(fields, "tool_use_id"), TextAt(fields, "content"))
      else OtherBlock(kind, TextAt(fields, "data"))
    case JString(text) => Bare(text)
    case _ => Bare(c.show(j))
  }

  function BlocksFrom(c: History.Codec, items: seq<Json>): (blocks: seq<Block>)
    ensures |blocks| == |items|
  {
    if items == [] then [] else [BlockFrom(c, items[0])] + BlocksFrom(c, items[1..])
  }

  function BlocksJson(blocks: seq<Block>): (items: seq<Json>)
    ensures |items| == |blocks|
  {
    if blocks == [] then [] else [BlockJson(blocks[0])] + BlocksJson(blocks[1..])
  }

  // Content that is neither text nor list reaches neither the wire nor the safety check.
  function ContentFrom(c: History.Codec, j: Json): Content {
    match j
    case JString(text) => Text(text)
    case JArray(items) => Blocks(BlocksFrom(c, items))
    case _ => Blocks([OtherBlock("", c.show(j))])
  }

  function EntryFor(m: Message): History.Entry {
    History.Entry(RoleName(m.role), if m.content.Text? then JString(m.content.text) else JArray(BlocksJson(m.content.blocks)))
  }

  function MessageFrom(c: History.Codec, e: History.Entry): Message {
    Message(RoleOf(e.role), ContentFrom(c, e.content))
  }

  function EntriesFor(ms: seq<Message>): seq<History.Entry> {
    seq(|ms|, i requires 0 <= i < |ms| => EntryFor(ms[i]))
  }

  function Messages(c: History.Codec, entries: seq<History.Entry>): seq<Message> {
    seq(|entries|, i requires 0 <= i < |entries| => MessageFrom(c, entries[i]))
  }

  lemma {:induction false} BlocksRoundTrip(c: History.Codec, blocks: seq<Block>)
    ensures BlocksFrom(c, BlocksJson(blocks)) == blocks
  {
    if blocks != [] {
      BlocksRoundTrip(c, blocks[1..]);
      BlockRoundTrip(c, blocks[0]);
      assert BlocksJson(blocks)[1..] == BlocksJson(blocks[1..]);
    }
  }

  lemma BlockRoundTrip(c: History.Codec, b: Block)
    ensures BlockFrom(c, BlockJson(b)) == b
  {
  }

  // A message saved in the cache comes back as it was.
  lemma MessageRoundTrip(c: History.Codec, m: Message)
    ensures MessageFrom(c, EntryFor(m)) == m
  {
    if m.content.Blocks? { BlocksRoundTrip(c, m.content.blocks); }
  }

  lemma MessagesAppend(c: History.Codec, kept: seq<History.Entry>, ms: seq<Message>)
    ensures Messages(c, kept + EntriesFor(ms)) == Messages(c, kept) + ms
  {
    forall i | 0 <= i < |ms| ensures MessageFrom(c, EntryFor(ms[i])) == ms[i] { MessageRoundTrip(c, ms[i]); }
  }

  // ---- One turn ----

  // What a model client hands over: typed objects or plain values, never a bare dictionary.
  type TypedBlock = b: ReplyBlock | !b.RawDict? witness Plain("")

  // One request: the texts it adds as user messages, and what model, tools and safety check
  // do in it.
  datatype Turn<!S> = Turn(
    client: seq<Message> -> Option<seq<TypedBlock>>,
    env: Env<S>,
    state: S,
    startsOver: bool,
    said: seq<string>)

  function EnvOf<S>(turn: Turn<S>): Env<S> {
    turn.env.(model := ms => turn.client(ms))
  }

  function Spoken(said: seq<string>): seq<Message> {
    if said == [] then [] else [Message(User, Text(said[0]))] + Spoken(said[1..])
  }

  // The stored list the turn goes on from.
  function Kept<S>(found: seq<History.Entry>, turn: Turn<S>): seq<History.Entry> {
    if turn.startsOver then [] else found
  }

  function TurnInput<S>(c: History.Codec, found: seq<History.Entry>, turn: Turn<S>): seq<Message> {
    Messages(c, Kept(found, turn)) + Spoken(turn.said)
  }

  function TurnRun<S>(c: History.Codec, found: seq<History.Entry>, turn: Turn<S>): Outcome<S> {
    RunSpec(EnvOf(turn), TurnInput(c, found, turn), turn.state)
  }

  lemma TurnExtends<S>(c: History.Codec, found: seq<History.Entry>, turn: Turn<S>)
    ensures TurnInput(c, found, turn) <= TurnRun(c, found, turn).msgs
    ensures |Kept(found, turn)| <= |TurnRun(c, found, turn).msgs|
  {
    RunAddsBoundedly(EnvOf(turn), TurnInput(c, found, turn), turn.state);
  }

  // The list the turn saves: the stored entries as they are, and what was said and done.
  function SavedBy<S>(c: History.Codec, found: seq<History.Entry>, turn: Turn<S>): seq<History.Entry> {
    TurnExtends(c, found, turn);
    Kept(found, turn) + EntriesFor(TurnRun(c, found, turn).msgs[|Kept(found, turn)|..])
  }

  lemma SavedMessages<S>(c: History.Codec, found: seq<History.Entry>, turn: Turn<S>)
    ensures Messages(c, SavedBy(c, found, turn)) == TurnRun(c, found, turn).msgs
  {
    var kept, msgs := Kept(found, turn), TurnRun(c, found, turn).msgs;
    TurnExtends(c, found, turn);
    MessagesAppend(c, kept, msgs[|kept|..]);
    assert msgs[..|kept|] == Messages(c, kept);
  }

  // ---- Whole conversations ----

  datatype Happening<!S> = Spoke(session: string, turn: Turn<S>) | Dropped(session: string)

  // The reads and writes it comes to. A turn that raises saves nothing.
  function OpsOf<S>(c: History.Codec, w: History.Store, h: Happening<S>): seq<History.Op> {
    match h
    case Dropped(session) => [History.Expired(session)]
    case Spoke(session, turn) =>
      var found := History.Found(c, w, session);
      (if turn.startsOver then [] else [History.Read(session)])
      + (if TurnRun(c, found, turn).raised then [] else [History.Save(session, SavedBy(c, found, turn))])
  }

  function Ops<S>(c: History.Codec, hs: seq<Happening<S>>): seq<History.Op> {
    if hs == [] then []
    else
      var before := Ops(c, hs[..|hs| - 1]);
      before + OpsOf(c, History.Run(c, before), hs[|hs| - 1])
  }

  // What the session's next turn would load.
  function Stored<S>(c: History.Codec, hs: seq<Happening<S>>, session: string): seq<History.Entry> {
    History.Found(c, History.Run(c, Ops(c, hs)), session)
  }

  function Moved<S>(c: History.Codec, v: History.View, h: Happening<S>): History.View {
    match h
    case Dropped(_) => v.(lost := true)
    case Spoke(_, turn) =>
      if TurnRun(c, History.Shown(c, v), turn).raised then v
      else History.View(SavedBy(c, History.Shown(c, v), turn), false)
  }

  lemma OneMoreOp(c: History.Codec, ops: seq<History.Op>, op: History.Op, session: string)
    ensures History.ViewOf(c, ops + [op], session)
         == if op.session == session then History.ViewAfter(c, History.ViewOf(c, ops, session), op) else History.ViewOf(c, ops, session)
  {
    assert (ops + [op])[..|ops|] == ops;
  }

  // The list last saved in the session, and whether the cache has lost it since.
  function ViewNow<S>(c: History.Codec, hs: seq<Happening<S>>, session: string): History.View {
    if hs == [] then History.View([], false)
    else
      var before := ViewNow(c, hs[..|hs| - 1], session);
      if hs[|hs| - 1].session == session then Moved(c, before, hs[|hs| - 1]) else before
  }

  lemma {:induction false} ViewIsOfTheOps<S>(c: History.Codec, hs: seq<Happening<S>>, session: string)
    requires History.Lawful(c)
    ensures History.ViewOf(c, Ops(c, hs), session) == ViewNow(c, hs, session)
  {
    if hs != [] {
      var front, h := hs[..|hs| - 1], hs[|hs| - 1];
      ViewIsOfTheOps(c, front, session);
      match h {
        case Dropped(s) => OneMoreOp(c, Ops(c, front), History.Expired(s), session);
        case Spoke(s, turn) => TurnMoves(c, Ops(c, front), s, turn, session);
      }
    }
  }

  lemma TurnMoves<S>(c: History.Codec, before: seq<History.Op>, s: string, turn: Turn<S>, session: string)
    requires History.Lawful(c)
    ensures var v := History.ViewOf(c, before, session);
            History.ViewOf(c, before + OpsOf(c, History.Run(c, before), Spoke(s, turn)), session)
            == if s == session then Moved(c, v, Spoke(s, turn)) else v
  {
    var found := History.Found(c, History.Run(c, before), s);
    History.ReadsShowTheView(c, before, s);
    var loaded := if turn.startsOver then before else before + [History.Read(s)];
    OneMoreOp(c, before, History.Read(s), session);
    if TurnRun(c, found, turn).raised {
      assert before + OpsOf(c, History.Run(c, before), Spoke(s, turn)) == loaded;
    } else {
      OneMoreOp(c, loaded, History.Save(s, SavedBy(c, found, turn)), session);
      assert before + OpsOf(c, History.Run(c, before), Spoke(s, turn)) == loaded + [History.Save(s, SavedBy(c, found, turn))];
    }
  }

  lemma StoredIsShown<S>(c: History.Codec, hs: seq<Happening<S>>, session: string)
    requires History.Lawful(c)
    ensures Stored(c, hs, session) == History.Shown(c, ViewNow(c, hs, session))
  {
    History.ReadsShowTheView(c, Ops(c, hs), session);
    ViewIsOfTheOps(c, hs, session);
  }

  // ---- Texts that a reading takes for blocks ----

  predicate IsToolBlock(j: Json) {
    j.JObject? && (TextAt(j.fields, "type") == "tool_use" || TextAt(j.fields, "type") == "tool_result")
  }

  predicate HoldsToolBlocks(j: Json) {
    j.JArray? && exists item <- j.items :: IsToolBlock(item)
  }

  // What becomes of content written to a row and read back.
  function Peel(c: History.Codec, j: Json): Json {
    if j.JString? then c.loads(j.text).GetOr(j) else j
  }

  predicate Exposes(c: History.Codec, e: History.Entry) {
    e.content.JString? && HoldsToolBlocks(Peel(c, e.content))
  }

  predicate NoneExposed(c: History.Codec, entries: seq<History.Entry>) {
    forall e <- entries :: !Exposes(c, e)
  }

  // Plain texts are the users'.
  predicate TextsAreUsers(entries: seq<History.Entry>) {
    forall e <- entries :: e.content.JString? ==> e.role == "user"
  }

  lemma RereadPeels(c: History.Codec, entries: seq<History.Entry>, i: nat)
    requires History.Lawful(c) && i < |entries|
    ensures |History.Reread(c, entries)| == |entries|
    ensures History.Reread(c, entries)[i] == entries[i].(content := Peel(c, entries[i].content))
  {
  }

  lemma {:induction false} ToolBlocksMakeIds(c: History.Codec, items: seq<Json>)
    ensures (exists item <- items :: IsToolBlock(item))
            <==> CallIds(BlocksFrom(c, items)) != [] || ResultIds(BlocksFrom(c, items)) != []
  {
    if items != [] {
      var rest, blocks := items[1..], BlocksFrom(c, items);
      ToolBlocksMakeIds(c, rest);
      FirstToolBlock(items);
      assert blocks[0] == BlockFrom(c, items[0]) && blocks[1..] == BlocksFrom(c, rest);
      assert CallIds(blocks) == (if blocks[0].ToolUse? then [blocks[0].id] else []) + CallIds(blocks[1..]);
      assert ResultIds(blocks) == (if blocks[0].ToolResult? then [blocks[0].toolUseId] else []) + ResultIds(blocks[1..]);
      assert IsToolBlock(items[0]) <==> blocks[0].ToolUse? || blocks[0].ToolResult?;
    }
  }

  lemma FirstToolBlock(items: seq<Json>)
    requires items != []
    ensures (exists item <- items :: IsToolBlock(item)) <==> IsToolBlock(items[0]) || exists item <- items[1..] :: IsToolBlock(item)
  {
    assert items == [items[0]] + items[1..];
  }

  lemma ContentMakesIds(c: History.Codec, e: History.Entry)
    ensures var m := MessageFrom(c, e); HoldsToolBlocks(e.content) <==> Calls(m) != [] || Results(m) != []
  {
    match e.content {
      case JArray(items) =>
        ToolBlocksMakeIds(c, items);
        assert BlocksOf(MessageFrom(c, e)) == BlocksFrom(c, items);
      case JString(_) => assert BlocksOf(MessageFrom(c, e)) == [];
      case _ =>
        assert MessageFrom(c, e).content == Blocks([OtherBlock("", c.show(e.content))]);
        OtherMakesNone(c.show(e.content));
    }
  }

  lemma OtherMakesNone(data: string)
    ensures CallIds([OtherBlock("", data)]) == [] && ResultIds([OtherBlock("", data)]) == []
  {
    var blocks := [OtherBlock("", data)];
    assert blocks[1..] == [];
    assert CallIds(blocks) == [] + CallIds(blocks[1..]) && ResultIds(blocks) == [] + ResultIds(blocks[1..]);
  }

  // A reading that exposes nothing leaves every message's calls, results and role.
  lemma SameTraffic(c: History.Codec, e: History.Entry)
    requires !Exposes(c, e)
    ensures var m, n := MessageFrom(c, e), MessageFrom(c, e.(content := Peel(c, e.content)));
            && m.role == n.role && Calls(m) == Calls(n) && Results(m) == Results(n)
            && (Results(m) != [] ==> m == n)
  {
    ContentMakesIds(c, e);
    ContentMakesIds(c, e.(content := Peel(c, e.content)));
  }

  lemma SameTrafficSamePairing(a: seq<Message>, b: seq<Message>)
    requires WellPaired(a) && |a| == |b|
    requires forall i | 0 <= i < |a| :: a[i].role == b[i].role && Calls(a[i]) == Calls(b[i]) && Results(a[i]) == Results(b[i])
    requires forall i | 0 <= i < |a| :: Results(a[i]) != [] ==> a[i] == b[i]
    ensures WellPaired(b)
  {
    forall i: nat | i < |b| ensures AnsweredAt(b, i) && AnchoredAt(b, i) {
      assert AnsweredAt(a, i) && AnchoredAt(a, i);
    }
  }

  // A user's text exposed as blocks has no place in a paired transcript: it makes calls only
  // an assistant may make, or gives results where none are due.
  lemma ExposedIsUnpaired(c: History.Codec, entries: seq<History.Entry>, i: nat)
    requires History.Lawful(c) && WellPaired(Messages(c, entries)) && TextsAreUsers(entries)
    requires i < |entries| && Exposes(c, entries[i])
    requires i > 0 ==> !Exposes(c, entries[i - 1])
    ensures !WellPaired(Messages(c, History.Reread(c, entries)))
  {
    var before, after := Messages(c, entries), Messages(c, History.Reread(c, entries));
    RereadPeels(c, entries, i);
    assert entries[i] in entries;
    assert before[i].content.Text?;
    ContentMakesIds(c, entries[i].(content := Peel(c, entries[i].content)));
    if i > 0 {
      RereadPeels(c, entries, i - 1);
      SameTraffic(c, entries[i - 1]);
    }
    MisplacedBlocks(before, after, i);
  }

  lemma MisplacedBlocks(before: seq<Message>, after: seq<Message>, i: nat)
    requires WellPaired(before) && i < |before| == |after|
    requires before[i].content.Text? && after[i].role == User && (Calls(after[i]) != [] || Results(after[i]) != [])
    requires i > 0 ==> Calls(after[i - 1]) == Calls(before[i - 1])
    ensures !WellPaired(after)
  {
    if i > 0 { CallsPrecedeNoText(before, i); }
    assert !AnsweredAt(after, i) || !AnchoredAt(after, i);
  }

  lemma CallsPrecedeNoText(ms: seq<Message>, i: nat)
    requires WellPaired(ms) && 0 < i < |ms| && ms[i].content.Text?
    ensures Calls(ms[i - 1]) == []
  {
    assert AnsweredAt(ms, i - 1);
  }

  lemma {:induction false} SomeExposedIsUnpaired(c: History.Codec, entries: seq<History.Entry>, i: nat)
    requires History.Lawful(c) && WellPaired(Messages(c, entries)) && TextsAreUsers(entries)
    requires i < |entries| && Exposes(c, entries[i])
    ensures !WellPaired(Messages(c, History.Reread(c, entries)))
  {
    if i > 0 && Exposes(c, entries[i - 1]) {
      SomeExposedIsUnpaired(c, entries, i - 1);
    } else {
      ExposedIsUnpaired(c, entries, i);
    }
  }

  // One expiry: a paired list is read back paired if and only if none of its texts parses to
  // a list with a tool block in it.
  lemma RereadPairing(c: History.Codec, entries: seq<History.Entry>)
    requires History.Lawful(c) && WellPaired(Messages(c, entries)) && TextsAreUsers(entries)
    ensures WellPaired(Messages(c, History.Reread(c, entries))) <==> NoneExposed(c, entries)
  {
    if NoneExposed(c, entries) {
      var before, after := Messages(c, entries), Messages(c, History.Reread(c, entries));
      forall i | 0 <= i < |before|
        ensures before[i].role == after[i].role && Calls(before[i]) == Calls(after[i]) && Results(before[i]) == Results(after[i])
        ensures Results(before[i]) != [] ==> before[i] == after[i]
      {
        RereadPeels(c, entries, i);
        assert entries[i] in entries;
        SameTraffic(c, entries[i]);
      }
      SameTrafficSamePairing(before, after);
    } else {
      var i: nat :| i < |entries| && Exposes(c, entries[i]);
      SomeExposedIsUnpaired(c, entries, i);
    }
  }

  // ---- Turns keep what a reading needs ----

  lemma {:induction false} SpokenPaired(said: seq<string>)
    ensures |Spoken(said)| == |said| && WellPaired(Spoken(said))
    ensures forall i | 0 <= i < |said| :: Spoken(said)[i] == Message(User, Text(said[i]))
  {
    if said != [] { SpokenPaired(said[1..]); }
  }

  lemma TurnKeepsPairing<S>(c: History.Codec, found: seq<History.Entry>, turn: Turn<S>)
    requires WellPaired(Messages(c, found))
    ensures WellPaired(TurnInput(c, found, turn))
    ensures !TurnRun(c, found, turn).raised ==> WellPaired(Messages(c, SavedBy(c, found, turn)))
  {
    var input := TurnInput(c, found, turn);
    SpokenPaired(turn.said);
    assert WellPaired(Messages(c, Kept(found, turn)));
    WellPairedAppend(Messages(c, Kept(found, turn)), Spoken(turn.said));
    SavedMessages(c, found, turn);
    ClientIsClean(turn, input);
    RunPairing(EnvOf(turn), input, turn.state);
    RunRaisesExactlyWhen(EnvOf(turn), input, turn.state);
  }

  // A client of typed blocks hides no tool block, whatever the model says.
  lemma ClientIsClean<S>(turn: Turn<S>, input: seq<Message>)
    ensures AllClean(RunSpec(EnvOf(turn), input, turn.state).replies)
    ensures AllClean(Loop(EnvOf(turn), input, turn.state, map[], 0).replies)
  {
    forall p | EnvOf(turn).model(p).Some? ensures NoRawToolBlocks(EnvOf(turn).model(p).value) {
      var reply: seq<TypedBlock> := turn.client(p).value;
    }
    TypedRepliesAreClean(EnvOf(turn), input, turn.state, map[], 0);
  }

  // The entries a turn adds: what was said, then blocks.
  lemma SavedAt<S>(c: History.Codec, found: seq<History.Entry>, turn: Turn<S>, i: nat)
    requires i < |SavedBy(c, found, turn)|
    ensures var kept, saved := Kept(found, turn), SavedBy(c, found, turn);
            if i < |kept| then saved[i] == kept[i]
            else if i < |kept| + |turn.said| then saved[i] == History.Entry("user", JString(turn.said[i - |kept|]))
            else saved[i].content.JArray?
  {
    var kept, msgs := Kept(found, turn), TurnRun(c, found, turn).msgs;
    TurnExtends(c, found, turn);
    SpokenPaired(turn.said);
    if i >= |kept| {
      assert SavedBy(c, found, turn)[i] == EntryFor(msgs[i]);
      if i < |kept| + |turn.said| {
        assert msgs[i] == TurnInput(c, found, turn)[i];
      } else {
        RunAddsBlocks(EnvOf(turn), TurnInput(c, found, turn), turn.state, i);
      }
    }
  }

  lemma TurnKeepsTexts<S>(c: History.Codec, found: seq<History.Entry>, turn: Turn<S>)
    requires TextsAreUsers(found)
    ensures TextsAreUsers(SavedBy(c, found, turn))
  {
    var saved := SavedBy(c, found, turn);
    forall i: nat | i < |saved| ensures saved[i].content.JString? ==> saved[i].role == "user" {
      SavedAt(c, found, turn, i);
    }
  }

  lemma RereadKeepsTexts(c: History.Codec, entries: seq<History.Entry>)
    requires History.Lawful(c) && TextsAreUsers(entries)
    ensures TextsAreUsers(History.Reread(c, entries))
  {
    var after := History.Reread(c, entries);
    forall i: nat | i < |after| ensures after[i].content.JString? ==> after[i].role == "user" {
      RereadPeels(c, entries, i);
      assert entries[i] in entries;
    }
  }

  lemma {:induction false} ConversationTexts<S>(c: History.Codec, hs: seq<Happening<S>>, session: string)
    requires History.Lawful(c)
    ensures TextsAreUsers(ViewNow(c, hs, session).written)
  {
    if hs != [] {
      var front, h := hs[..|hs| - 1], hs[|hs| - 1];
      var v := ViewNow(c, front, session);
      ConversationTexts(c, front, session);
      RereadKeepsTexts(c, v.written);
      if h.Spoke? { TurnKeepsTexts(c, History.Shown(c, v), h.turn); }
    }
  }

  // ---- When the stored history stays paired ----

  // Here and at every earlier point, the list the next turn would load is paired.
  ghost predicate AlwaysPaired<S>(c: History.Codec, hs: seq<Happening<S>>, session: string) {
    && WellPaired(Messages(c, Stored(c, hs, session)))
    && (hs != [] ==> AlwaysPaired(c, hs[..|hs| - 1], session))
  }

  // Whenever the session's cache entry is dropped, no text in the list last saved parses to
  // a list with a tool block in it.
  ghost predicate NeverExposed<S>(c: History.Codec, hs: seq<Happening<S>>, session: string) {
    hs != [] ==>
      var front, h := hs[..|hs| - 1], hs[|hs| - 1];
      && NeverExposed(c, front, session)
      && (h.Dropped? && h.session == session ==> NoneExposed(c, ViewNow(c, front, session).written))
  }

  lemma OneHappeningPairs<S>(c: History.Codec, v: History.View, h: Happening<S>)
    requires History.Lawful(c) && TextsAreUsers(v.written)
    requires WellPaired(Messages(c, v.written)) && WellPaired(Messages(c, History.Shown(c, v)))
    ensures WellPaired(Messages(c, Moved(c, v, h).written))
    ensures WellPaired(Messages(c, History.Shown(c, Moved(c, v, h)))) <==> (h.Dropped? ==> NoneExposed(c, v.written))
  {
    match h {
      case Dropped(_) => RereadPairing(c, v.written);
      case Spoke(_, turn) => TurnKeepsPairing(c, History.Shown(c, v), turn);
    }
  }

  // For any conversations over any sessions, with any model, tools and safety check: the
  // stored history stays paired if and only if no expiry meets a text that parses to a list
  // with a tool block in it.
  lemma {:induction false} HistoryStaysPaired<S>(c: History.Codec, hs: seq<Happening<S>>, session: string)
    requires History.Lawful(c)
    ensures AlwaysPaired(c, hs, session) <==> NeverExposed(c, hs, session)
    ensures AlwaysPaired(c, hs, session) ==> WellPaired(Messages(c, ViewNow(c, hs, session).written))
  {
    StoredIsShown(c, hs, session);
    if hs != [] {
      var front, h := hs[..|hs| - 1], hs[|hs| - 1];
      StoredIsShown(c, front, session);
      HistoryStaysPaired(c, front, session);
      ConversationTexts(c, front, session);
      if AlwaysPaired(c, front, session) && h.session == session {
        OneHappeningPairs(c, ViewNow(c, front, session), h);
      }
    }
  }

  // ---- The condition on the texts themselves ----

  // The content after so many writings and readings: a text may hold a printed text.
  function Layer(c: History.Codec, j: Json, depth: nat): Json {
    if depth == 0 then j else Peel(c, Layer(c, j, depth - 1))
  }

  ghost predicate Harmless(c: History.Codec, j: Json) {
    forall depth: nat :: !HoldsToolBlocks(Layer(c, j, depth))
  }

  lemma {:induction false} LayerOfPeel(c: History.Codec, j: Json, depth: nat)
    ensures Layer(c, Peel(c, j), depth) == Layer(c, j, depth + 1)
  {
    if depth > 0 { LayerOfPeel(c, j, depth - 1); }
  }

  lemma PeelStaysHarmless(c: History.Codec, j: Json)
    requires Harmless(c, j)
    ensures Harmless(c, Peel(c, j)) && !HoldsToolBlocks(Peel(c, j))
  {
    forall depth: nat ensures !HoldsToolBlocks(Layer(c, Peel(c, j), depth)) { LayerOfPeel(c, j, depth); }
    assert Layer(c, Peel(c, j), 0) == Peel(c, j);
  }

  ghost predicate HarmlessTexts(c: History.Codec, entries: seq<History.Entry>) {
    forall e <- entries :: e.content.JString? ==> Harmless(c, e.content)
  }

  ghost predicate SaysHarmless<S>(c: History.Codec, h: Happening<S>, session: string) {
    h.Spoke? && h.session == session ==> forall text <- h.turn.said :: Harmless(c, JString(text))
  }

  lemma RereadStaysHarmless(c: History.Codec, entries: seq<History.Entry>)
    requires History.Lawful(c) && HarmlessTexts(c, entries)
    ensures NoneExposed(c, entries) && HarmlessTexts(c, History.Reread(c, entries))
  {
    forall i: nat | i < |entries|
      ensures !Exposes(c, entries[i])
      ensures var e := History.Reread(c, entries)[i]; e.content.JString? ==> Harmless(c, e.content)
    {
      RereadPeels(c, entries, i);
      assert entries[i] in entries;
      if entries[i].content.JString? { PeelStaysHarmless(c, entries[i].content); }
    }
    assert |History.Reread(c, entries)| == |entries|;
  }

  lemma TurnStaysHarmless<S>(c: History.Codec, found: seq<History.Entry>, turn: Turn<S>)
    requires HarmlessTexts(c, found) && forall text <- turn.said :: Harmless(c, JString(text))
    ensures HarmlessTexts(c, SavedBy(c, found, turn))
  {
    var saved := SavedBy(c, found, turn);
    forall i: nat | i < |saved| ensures saved[i].content.JString? ==> Harmless(c, saved[i].content) {
      SavedAt(c, found, turn, i);
    }
  }

  // While every text said in the session is harmless, its history stays paired, whatever
  // expires and whatever model and tools do.
  lemma {:induction false} HarmlessTextsStayPaired<S>(c: History.Codec, hs: seq<Happening<S>>, session: string)
    requires History.Lawful(c) && forall i | 0 <= i < |hs| :: SaysHarmless(c, hs[i], session)
    ensures NeverExposed(c, hs, session) && AlwaysPaired(c, hs, session)
    ensures HarmlessTexts(c, ViewNow(c, hs, session).written)
  {
    if hs != [] {
      var front, h := hs[..|hs| - 1], hs[|hs| - 1];
      var v := ViewNow(c, front, session);
      HarmlessTextsStayPaired(c, front, session);
      RereadStaysHarmless(c, v.written);
      if h.Spoke? && h.session == session {
        assert SaysHarmless(c, hs[|hs| - 1], session);
        TurnStaysHarmless(c, History.Shown(c, v), h.turn);
      }
    }
    HistoryStaysPaired(c, hs, session);
  }

  // ---- A harmful text finds its schedule ----

  // A turn that says the text and is refused: the text is stored all the same.
  function Say<S>(env: Env<S>, s: S, text: string, startsOver: bool): Turn<S> {
    Turn(_ => None, env.(isSafe := _ => false), s, startsOver, [text])
  }

  // Said, then written and read back so many times.
  function Breaking<S>(env: Env<S>, s: S, text: string, session: string, depth: nat): seq<Happening<S>> {
    if depth == 0 then [Spoke(session, Say(env, s, text, true))]
    else Breaking(env, s, text, session, depth - 1) + [Dropped(session), Spoke(session, Say(env, s, text, false))]
  }

  lemma SaidIsSaved<S>(c: History.Codec, found: seq<History.Entry>, env: Env<S>, s: S, text: string, startsOver: bool)
    requires text != ""
    ensures var turn := Say(env, s, text, startsOver);
            && !TurnRun(c, found, turn).raised
            && SavedBy(c, found, turn) == Kept(found, turn) + EntriesFor([Message(User, Text(text)), RefusalMessage(env)])
  {
    var turn := Say(env, s, text, startsOver);
    var kept, input := Messages(c, Kept(found, turn)), TurnInput(c, found, turn);
    assert [text][1..] == [] && Spoken([text]) == [Message(User, Text(text))] + Spoken([text][1..]);
    assert input == kept + [Message(User, Text(text))];
    assert LastUserText(input) == text;
    assert TurnRun(c, found, turn).msgs == input + [RefusalMessage(env)];
    assert (input + [RefusalMessage(env)])[|kept|..] == [Message(User, Text(text)), RefusalMessage(env)];
  }

  lemma OneMoreHappening<S>(c: History.Codec, hs: seq<Happening<S>>, h: Happening<S>, session: string)
    requires h.session == session
    ensures ViewNow(c, hs + [h], session) == Moved(c, ViewNow(c, hs, session), h)
  {
    assert (hs + [h])[..|hs|] == hs;
  }

  predicate StartsWith(v: History.View, j: Json) {
    !v.lost && v.written != [] && v.written[0] == History.Entry("user", j)
  }

  lemma SaidStarts<S>(c: History.Codec, env: Env<S>, s: S, text: string, session: string)
    requires text != ""
    ensures StartsWith(Moved(c, History.View([], false), Spoke(session, Say(env, s, text, true))), JString(text))
  {
    SaidIsSaved(c, [], env, s, text, true);
  }

  lemma DroppedPeels<S>(c: History.Codec, v: History.View, env: Env<S>, s: S, text: string, session: string, j: Json)
    requires History.Lawful(c) && text != "" && StartsWith(v, j)
    ensures var dropped := Moved(c, v, Happening<S>.Dropped(session));
            StartsWith(Moved(c, dropped, Spoke(session, Say(env, s, text, false))), Peel(c, j))
  {
    RereadPeels(c, v.written, 0);
    SaidIsSaved(c, History.Reread(c, v.written), env, s, text, false);
  }

  lemma BreakingStarts<S>(c: History.Codec, env: Env<S>, s: S, text: string, session: string)
    requires text != ""
    ensures StartsWith(ViewNow(c, [Spoke(session, Say(env, s, text, true))], session), JString(text))
  {
    var h := Spoke(session, Say(env, s, text, true));
    OneMoreHappening(c, [], h, session);
    assert [] + [h] == [h];
    SaidStarts(c, env, s, text, session);
  }

  lemma BreakingGoesOn<S>(c: History.Codec, hs: seq<Happening<S>>, env: Env<S>, s: S, text: string, session: string, j: Json)
    requires History.Lawful(c) && text != "" && StartsWith(ViewNow(c, hs, session), j)
    ensures StartsWith(ViewNow(c, hs + [Dropped(session), Spoke(session, Say(env, s, text, false))], session), Peel(c, j))
  {
    var drop, again := Happening<S>.Dropped(session), Spoke(session, Say(env, s, text, false));
    OneMoreHappening(c, hs, drop, session);
    OneMoreHappening(c, hs + [drop], again, session);
    assert hs + [drop] + [again] == hs + [drop, again];
    DroppedPeels(c, ViewNow(c, hs, session), env, s, text, session, j);
  }

  lemma {:induction false} BreakingPeels<S>(c: History.Codec, env: Env<S>, s: S, text: string, session: string, depth: nat)
    requires History.Lawful(c) && text != ""
    ensures StartsWith(ViewNow(c, Breaking(env, s, text, session, depth), session), Layer(c, JString(text), depth))
  {
    if depth == 0 {
      BreakingStarts(c, env, s, text, session);
    } else {
      BreakingPeels(c, env, s, text, session, depth - 1);
      BreakingGoesOn(c, Breaking(env, s, text, session, depth - 1), env, s, text, session, Layer(c, JString(text), depth - 1));
    }
  }

  lemma HarmfulTextBreaks<S>(c: History.Codec, env: Env<S>, s: S, text: string, session: string, depth: nat)
    requires History.Lawful(c) && HoldsToolBlocks(Layer(c, JString(text), depth))
    ensures !WellPaired(Messages(c, Stored(c, Breaking(env, s, text, session, depth), session)))
  {
    var hs := Breaking(env, s, text, session, depth);
    EmptyIsHarmless(c, depth);
    BreakingPeels(c, env, s, text, session, depth);
    StoredIsShown(c, hs, session);
    var entries := Stored(c, hs, session);
    ContentMakesIds(c, entries[0]);
    FirstMessageHasNone(Messages(c, entries));
  }

  lemma {:induction false} EmptyIsHarmless(c: History.Codec, depth: nat)
    requires History.Lawful(c)
    ensures Layer(c, JString(""), depth) == JString("")
  {
    if depth > 0 { EmptyIsHarmless(c, depth - 1); }
  }

  lemma FirstMessageHasNone(ms: seq<Message>)
    requires ms != [] && ms[0].role == User && (Calls(ms[0]) != [] || Results(ms[0]) != [])
    ensures !WellPaired(ms)
  {
    assert !AnsweredAt(ms, 0) || !AnchoredAt(ms, 0);
  }

  predicate OnlySays<S>(hs: seq<Happening<S>>, session: string, text: string) {
    forall i | 0 <= i < |hs| :: hs[i].Spoke? && hs[i].session == session ==> forall t <- hs[i].turn.said :: t == text
  }

  lemma {:induction false} BreakingSaysIt<S>(env: Env<S>, s: S, text: string, session: string, depth: nat)
    ensures OnlySays(Breaking(env, s, text, session, depth), session, text)
  {
    if depth > 0 { BreakingSaysIt(env, s, text, session, depth - 1); }
  }

  // The exact condition on what users write: a text can be said in every conversation,
  // however its cache expires, if and only if no repeated parsing of it comes to a list with
  // a tool block in it.
  lemma TextIsHarmlessExactlyWhen<S>(c: History.Codec, env: Env<S>, s: S, text: string, session: string)
    requires History.Lawful(c)
    ensures Harmless(c, JString(text))
            <==> forall hs: seq<Happening<S>> :: OnlySays(hs, session, text) ==> AlwaysPaired(c, hs, session)
  {
    if Harmless(c, JString(text)) {
      forall hs: seq<Happening<S>> | OnlySays(hs, session, text) ensures AlwaysPaired(c, hs, session) {
        forall i | 0 <= i < |hs| ensures SaysHarmless(c, hs[i], session) {}
        HarmlessTextsStayPaired(c, hs, session);
      }
    } else {
      var depth: nat :| HoldsToolBlocks(Layer(c, JString(text), depth));
      BreakingSaysIt(env, s, text, session, depth);
      HarmfulTextBreaks(c, env, s, text, session, depth);
      assert !AlwaysPaired(c, Breaking(env, s, text, session, depth), session);
    }
  }
}
