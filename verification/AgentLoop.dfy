// The agentic loop: call the model, append its reply, execute the tools it calls, append
// their results, and go round again; once plainly and once as a stream of events.
module AgentLoop {
  import opened Prelude
  import opened Transcripts

  // One block of a model's reply: a typed object, a bare dictionary, or anything else.
  datatype ReplyBlock =
    | ObjText(text: string)
    | ObjToolUse(id: string, name: string, input: Json)
    | ObjOther(kind: OtherKind, data: string)
    | RawDict(block: Block)
    | Plain(text: string)

  type Reply = seq<ReplyBlock>

  datatype Call = Call(id: string, name: string, input: Json)

  datatype ToolOutcome = Answered(text: string) | Failed(reason: string)

  // Executing a tool may rewrite its input, which the transcript shares.
  datatype ToolStep<S> = ToolStep(state: S, outcome: ToolOutcome, input: Json)

  // What surrounds the loop: the model is a function of the transcript, a tool of the
  // agent's own state, its name and its input. `model` gives None when the call raises.
  datatype Env<!S> = Env(
    model: seq<Message> -> Option<Reply>,
    tool: (S, string, Json) -> ToolStep<S>,
    isSafe: string -> bool,
    refusal: string,
    display: string -> string,
    limit: nat)

  datatype Event =
    | Understanding
    | Thinking(round: nat)
    | TextEvent(data: Json)
    | ToolCallEvent(display: string)
    | ToolResultEvent(head: string)
    | ErrorEvent(text: string)
    | DoneEvent(last: map<string, Json>)

  // How a run ends. `replies` and `executed` record what the model said and what each
  // executed tool was called and returned; `stopped` marks a stream's early end.
  datatype Outcome<S> = Outcome(
    msgs: seq<Message>,
    state: S,
    last: map<string, Json>,
    replies: seq<Reply>,
    executed: seq<Executed>,
    events: seq<Event>,
    stopped: bool,
    raised: bool)

  datatype Executed = Executed(id: string, name: string, result: string)

  function CallsOf(reply: Reply): seq<Call> {
    if reply == [] then []
    else (if reply[0].ObjToolUse? then [Call(reply[0].id, reply[0].name, reply[0].input)] else []) + CallsOf(reply[1..])
  }

  // The reply as stored, with the executed calls' inputs as the tools left them.
  function Serialize(reply: Reply, inputs: seq<Json>): (blocks: seq<Block>)
    requires |inputs| == |CallsOf(reply)|
    ensures |blocks| == |reply|
  {
    if reply == [] then []
    else
      match reply[0]
      case ObjToolUse(id, name, _) => [ToolUse(id, name, inputs[0])] + Serialize(reply[1..], inputs[1..])
      case ObjText(text) => [TextBlock(text)] + Serialize(reply[1..], inputs)
      case ObjOther(kind, data) => [OtherBlock(kind, data)] + Serialize(reply[1..], inputs)
      case RawDict(block) => [block] + Serialize(reply[1..], inputs)
      case Plain(text) => [TextBlock(text)] + Serialize(reply[1..], inputs)
  }

  function InputsOf(calls: seq<Call>): (inputs: seq<Json>)
    ensures |inputs| == |calls|
  {
    if calls == [] then [] else [calls[0].input] + InputsOf(calls[1..])
  }

  function AssistantMessage(reply: Reply, inputs: seq<Json>): Message
    requires |inputs| == |CallsOf(reply)|
  {
    Message(Assistant, Blocks(Serialize(reply, inputs)))
  }

  function ResultBlocks(calls: seq<Call>, results: seq<string>): (blocks: seq<Block>)
    requires |calls| == |results|
    ensures |blocks| == |calls|
  {
    if calls == [] then [] else [ToolResult(calls[0].id, results[0])] + ResultBlocks(calls[1..], results[1..])
  }

  function ExecutedCalls(calls: seq<Call>, results: seq<string>): (done: seq<Executed>)
    requires |calls| == |results|
    ensures |done| == |calls|
  {
    if calls == [] then [] else [Executed(calls[0].id, calls[0].name, results[0])] + ExecutedCalls(calls[1..], results[1..])
  }

  function ResultText(outcome: ToolOutcome): string {
    match outcome
    case Answered(text) => text
    case Failed(reason) => "Error: " + reason
  }

  datatype Execution<S> = Execution(state: S, inputs: seq<Json>, results: seq<string>, last: map<string, Json>, raised: bool)

  function LastInput(name: string, fields: map<string, Json>): map<string, Json> {
    map["tool_name" := JString(name)] + fields
  }

  // The calls of one reply in order. Unpacking an input that is not a dictionary raises,
  // outside the handler that catches a failing tool.
  function Execute<S>(env: Env<S>, s: S, calls: seq<Call>, last: map<string, Json>): (e: Execution<S>)
    ensures |e.inputs| == |calls|
    ensures if e.raised then |e.results| < |calls| else |e.results| == |calls|
  {
    if calls == [] then Execution(s, [], [], last, false)
    else
      var step := env.tool(s, calls[0].name, calls[0].input);
      if !step.input.JObject? then
        Execution(step.state, [step.input] + InputsOf(calls[1..]), [], last, true)
      else
        var rest := Execute(env, step.state, calls[1..], LastInput(calls[0].name, step.input.fields));
        rest.(inputs := [step.input] + rest.inputs, results := [ResultText(step.outcome)] + rest.results)
  }

  // The two messages of a completed round.
  function RoundMessages<S>(reply: Reply, e: Execution<S>): seq<Message>
    requires |e.inputs| == |e.results| == |CallsOf(reply)|
  {
    [AssistantMessage(reply, e.inputs), Message(User, Blocks(ResultBlocks(CallsOf(reply), e.results)))]
  }

  // The plain loop from `round` on.
  function Loop<S>(env: Env<S>, ms: seq<Message>, s: S, last: map<string, Json>, round: nat): Outcome<S>
    decreases env.limit - round
  {
    if round >= env.limit then Outcome(ms, s, last, [], [], [], false, false)
    else
      var answer := env.model(ms);
      if answer.None? then Outcome(ms, s, last, [], [], [], false, true)
      else
        var reply := answer.value;
        var calls := CallsOf(reply);
        if calls == [] then Outcome(ms + [AssistantMessage(reply, [])], s, last, [reply], [], [], false, false)
        else
          var e := Execute(env, s, calls, last);
          if e.raised then
            Outcome(ms + [AssistantMessage(reply, e.inputs)], e.state, e.last, [reply],
                    ExecutedCalls(calls[..|e.results|], e.results), [], false, true)
          else
            var rest := Loop(env, ms + RoundMessages(reply, e), e.state, e.last, round + 1);
            rest.(replies := [reply] + rest.replies, executed := ExecutedCalls(calls, e.results) + rest.executed)
  }

  // ---- The stream ----

  function ReplyTexts(reply: Reply): seq<Event> {
    if reply == [] then []
    else (if reply[0].ObjText? && !IsBlank(reply[0].text) then [TextEvent(JString(reply[0].text))] else []) + ReplyTexts(reply[1..])
  }

  function Head(text: string): string {
    if |text| <= 200 then text else text[..200]
  }

  function CallEvents<S>(env: Env<S>, done: seq<Executed>): seq<Event> {
    if done == [] then []
    else [ToolCallEvent(env.display(done[0].name)), ToolResultEvent(Head(done[0].result))] + CallEvents(env, done[1..])
  }

  // The events of a round that raises: the raising call is announced, its result is not.
  function BrokenOffEvents<S>(env: Env<S>, calls: seq<Call>, results: seq<string>): seq<Event>
    requires |results| < |calls|
  {
    CallEvents(env, ExecutedCalls(calls[..|results|], results)) + [ToolCallEvent(env.display(calls[|results|].name))]
  }

  // The position of the first call of that name.
  function FirstNamed(calls: seq<Call>, name: string): (i: Option<nat>)
    ensures i.Some? ==> i.value < |calls|
  {
    if calls == [] then None
    else if calls[0].name == name then Some(0)
    else
      var j := FirstNamed(calls[1..], name);
      if j.Some? then Some(j.value + 1) else None
  }

  // Only signs, zeros and points before any exponent.
  predicate IsZero(digits: string) {
    digits == "" || digits[0] == 'e' || digits[0] == 'E' || (digits[0] in "+-0." && IsZero(digits[1..]))
  }

  predicate Truthy(value: Json) {
    match value
    case JNull => false
    case JBool(flag) => flag
    case JNumber(digits) => !IsZero(digits)
    case JString(text) => text != ""
    case JArray(items) => items != []
    case JObject(fields) => fields != map[]
  }

  predicate Stops(calls: seq<Call>) {
    FirstNamed(calls, "ask_clarification").Some? || FirstNamed(calls, "generate_prd").Some?
  }

  const PRD_READY := "需求文档已生成，请确认后进入下一步。"

  // What the stream says when it ends early on a clarification or a generated document.
  function StopEvents(calls: seq<Call>, inputs: seq<Json>): seq<Event>
    requires |calls| == |inputs| && Stops(calls)
  {
    var ask := FirstNamed(calls, "ask_clarification");
    if ask.Some? then
      var input := inputs[ask.value];
      if input.JObject? && "agent_message" in input.fields && Truthy(input.fields["agent_message"])
      then [TextEvent(input.fields["agent_message"])]
      else []
    else [TextEvent(JString(PRD_READY))]
  }

  function Prepend<S>(reply: Reply, done: seq<Executed>, events: seq<Event>, rest: Outcome<S>): Outcome<S> {
    rest.(replies := [reply] + rest.replies, executed := done + rest.executed, events := events + rest.events)
  }

  // The streamed loop from `round` on: the same rounds, with events, ending early on a stop.
  function StreamLoop<S>(env: Env<S>, ms: seq<Message>, s: S, last: map<string, Json>, round: nat): Outcome<S>
    decreases env.limit - round
  {
    if round >= env.limit then Outcome(ms, s, last, [], [], [], false, false)
    else
      var answer := env.model(ms);
      if answer.None? then Outcome(ms, s, last, [], [], [Thinking(round + 1)], false, true)
      else
        var reply := answer.value;
        var calls := CallsOf(reply);
        var opening := [Thinking(round + 1)] + ReplyTexts(reply);
        if calls == [] then Outcome(ms + [AssistantMessage(reply, [])], s, last, [reply], [], opening, false, false)
        else
          var e := Execute(env, s, calls, last);
          if e.raised then
            Outcome(ms + [AssistantMessage(reply, e.inputs)], e.state, e.last, [reply],
                    ExecutedCalls(calls[..|e.results|], e.results),
                    opening + BrokenOffEvents(env, calls, e.results), false, true)
          else
            var done := ExecutedCalls(calls, e.results);
            var events := opening + CallEvents(env, done);
            var after := ms + RoundMessages(reply, e);
            if Stops(calls) then Outcome(after, e.state, e.last, [reply], done, events + StopEvents(calls, e.inputs), true, false)
            else Prepend(reply, done, events, StreamLoop(env, after, e.state, e.last, round + 1))
  }

  // ---- The whole call, with the safety check in front ----

  function TextsOf(blocks: seq<Block>): seq<string> {
    if blocks == [] then []
    else (if blocks[0].TextBlock? then [blocks[0].text] else []) + TextsOf(blocks[1..])
  }

  // The latest user message that carries text; tool results carry none.
  function LastUserText(ms: seq<Message>): string {
    if ms == [] then ""
    else
      var m := ms[|ms| - 1];
      if m.role != User then LastUserText(ms[..|ms| - 1])
      else if m.content.Text? then m.content.text
      else if TextsOf(m.content.blocks) != [] then Join(TextsOf(m.content.blocks), "\n")
      else LastUserText(ms[..|ms| - 1])
  }

  predicate Refused<S>(env: Env<S>, ms: seq<Message>) {
    LastUserText(ms) != "" && !env.isSafe(LastUserText(ms))
  }

  function RefusalMessage<S>(env: Env<S>): Message {
    Message(Assistant, Blocks([TextBlock(env.refusal)]))
  }

  function RunSpec<S>(env: Env<S>, ms: seq<Message>, s: S): Outcome<S> {
    if Refused(env, ms) then Outcome(ms + [RefusalMessage(env)], s, map[], [], [], [], false, false)
    else Loop(env, ms, s, map[], 0)
  }

  function StreamSpec<S>(env: Env<S>, ms: seq<Message>, s: S): Outcome<S> {
    if Refused(env, ms) then
      Outcome(ms + [RefusalMessage(env)], s, map[], [], [], [Understanding, ErrorEvent(env.refusal)], false, false)
    else
      var o := StreamLoop(env, ms, s, map[], 0);
      o.(events := [Understanding] + o.events + (if o.raised then [] else [DoneEvent(o.last)]))
  }

  // ---- One turn of each loop, as the invariants below use it ----

  // `e` is what is done so far followed by `rest`.
  predicate Ahead<S(==)>(e: Execution<S>, inputs: seq<Json>, results: seq<string>, rest: Execution<S>) {
    && e.state == rest.state && e.last == rest.last && e.raised == rest.raised
    && e.inputs == inputs + rest.inputs && e.results == results + rest.results
  }

  lemma ExecuteOne<S>(env: Env<S>, s: S, calls: seq<Call>, i: nat, last: map<string, Json>, inputs: seq<Json>, results: seq<string>, e: Execution<S>)
    requires i < |calls| && Ahead(e, inputs, results, Execute(env, s, calls[i..], last))
    ensures var step := env.tool(s, calls[i].name, calls[i].input);
            if step.input.JObject?
            then Ahead(e, inputs + [step.input], results + [ResultText(step.outcome)],
                       Execute(env, step.state, calls[i + 1..], LastInput(calls[i].name, step.input.fields)))
            else e == Execution(step.state, inputs + [step.input] + InputsOf(calls[i + 1..]), results, last, true)
  {
    assert calls[i..][1..] == calls[i + 1..];
    assert calls[i..][0] == calls[i];
    var step := env.tool(s, calls[i].name, calls[i].input);
    if step.input.JObject? {
      var rest := Execute(env, step.state, calls[i + 1..], LastInput(calls[i].name, step.input.fields));
      assert inputs + ([step.input] + rest.inputs) == inputs + [step.input] + rest.inputs;
      assert results + ([ResultText(step.outcome)] + rest.results) == results + [ResultText(step.outcome)] + rest.results;
    } else {
      assert inputs + ([step.input] + InputsOf(calls[i + 1..])) == inputs + [step.input] + InputsOf(calls[i + 1..]);
    }
  }

  predicate SameEnd<S(==)>(o: Outcome<S>, p: Outcome<S>) {
    (o.msgs, o.state, o.last, o.raised) == (p.msgs, p.state, p.last, p.raised)
  }

  lemma LoopRound<S>(env: Env<S>, ms: seq<Message>, s: S, last: map<string, Json>, round: nat)
    requires round < env.limit && env.model(ms).Some? && CallsOf(env.model(ms).value) != []
    ensures var reply := env.model(ms).value;
            var e := Execute(env, s, CallsOf(reply), last);
            if e.raised then SameEnd(Loop(env, ms, s, last, round), Ended(ms + [AssistantMessage(reply, e.inputs)], e.state, e.last, true))
            else SameEnd(Loop(env, ms, s, last, round), Loop(env, ms + RoundMessages(reply, e), e.state, e.last, round + 1))
  {
  }

  lemma AppendedRound<S>(ms: seq<Message>, reply: Reply, e: Execution<S>)
    requires |e.inputs| == |e.results| == |CallsOf(reply)|
    ensures ms + [AssistantMessage(reply, e.inputs)] + [Message(User, Blocks(ResultBlocks(CallsOf(reply), e.results)))]
         == ms + RoundMessages(reply, e)
  {
  }

  // `o` ends as `rest` does, its events being `events` followed by the rest's.
  predicate Continues<S(==)>(o: Outcome<S>, events: seq<Event>, rest: Outcome<S>) {
    SameEnd(o, rest) && o.events == events + rest.events
  }

  // The stream's events, read in two steps.
  lemma ContinuesOn<S>(o: Outcome<S>, events: seq<Event>, mid: Outcome<S>, more: seq<Event>, rest: Outcome<S>)
    requires Continues(o, events, mid) && Continues(mid, more, rest)
    ensures Continues(o, events + more, rest)
  {
    assert events + (more + rest.events) == events + more + rest.events;
  }

  function Ended<S>(ms: seq<Message>, s: S, last: map<string, Json>, raised: bool): Outcome<S> {
    Outcome(ms, s, last, [], [], [], false, raised)
  }

  lemma StreamRound<S>(env: Env<S>, ms: seq<Message>, s: S, last: map<string, Json>, round: nat)
    requires round < env.limit && env.model(ms).Some? && CallsOf(env.model(ms).value) != []
    ensures var reply := env.model(ms).value;
            var calls := CallsOf(reply);
            var e := Execute(env, s, calls, last);
            var opening := [Thinking(round + 1)] + ReplyTexts(reply);
            var o := StreamLoop(env, ms, s, last, round);
            if e.raised then
              Continues(o, opening + BrokenOffEvents(env, calls, e.results), Ended(ms + [AssistantMessage(reply, e.inputs)], e.state, e.last, true))
            else
              var heard := opening + CallEvents(env, ExecutedCalls(calls, e.results));
              var after := ms + RoundMessages(reply, e);
              if Stops(calls) then Continues(o, heard + StopEvents(calls, e.inputs), Ended(after, e.state, e.last, false))
              else Continues(o, heard, StreamLoop(env, after, e.state, e.last, round + 1))
  {
  }

  // ---- The loops as the agent runs them, on the caller's own list ----

  class MessageList {
    var items: seq<Message>

    constructor (items: seq<Message>)
      ensures this.items == items
    {
      this.items := items;
    }
  }

  class ToolUseAgent<S(!new)> {
    const env: Env<S>
    var state: S

    constructor (env: Env<S>, state: S)
      ensures this.env == env && this.state == state
    {
      this.env := env;
      this.state := state;
    }

    // The tool's changes to a call's input show in the message just appended.
    method ShareInputs(messages: MessageList, reply: Reply, inputs: seq<Json>)
      requires messages.items != [] && |inputs| == |CallsOf(reply)|
      modifies messages
      ensures messages.items == old(messages.items)[..|old(messages.items)| - 1] + [AssistantMessage(reply, inputs)]
    {
      messages.items := messages.items[..|messages.items| - 1] + [AssistantMessage(reply, inputs)];
    }

    // Executes the calls of the reply just appended, rewriting its inputs where it stands.
    method ExecuteTools(messages: MessageList, reply: Reply, last: map<string, Json>)
      returns (inputs: seq<Json>, results: seq<string>, newLast: map<string, Json>, raised: bool)
      requires messages.items != []
      requires messages.items[|messages.items| - 1] == AssistantMessage(reply, InputsOf(CallsOf(reply)))
      modifies this`state, messages
      ensures var e := Execute(env, old(state), CallsOf(reply), last);
              && state == e.state && newLast == e.last && raised == e.raised
              && inputs == e.inputs && results == e.results
              && messages.items == old(messages.items)[..|old(messages.items)| - 1] + [AssistantMessage(reply, e.inputs)]
    {
      var calls := CallsOf(reply);
      ghost var e := Execute(env, state, calls, last);
      ghost var front := messages.items[..|messages.items| - 1];
      inputs := InputsOf(calls);
      results, newLast, raised := [], last, false;
      var i := 0;
      while i < |calls|
        invariant 0 <= i <= |calls| == |inputs|
        invariant messages.items == front + [AssistantMessage(reply, inputs)]
        invariant inputs[i..] == InputsOf(calls[i..]) && !raised
        invariant Ahead(e, inputs[..i], results, Execute(env, state, calls[i..], newLast))
      {
        ExecuteOne(env, state, calls, i, newLast, inputs[..i], results, e);
        var step := env.tool(state, calls[i].name, calls[i].input);
        state := step.state;
        InputsAfter(calls, inputs, i, step.input);
        inputs := inputs[i := step.input];
        ShareInputs(messages, reply, inputs);
        if !step.input.JObject? {
          raised := true;
          return;
        }
        newLast := LastInput(calls[i].name, step.input.fields);
        results := results + [ResultText(step.outcome)];
        i := i + 1;
      }
      assert inputs[..i] == inputs;
    }

    static lemma InputsAfter(calls: seq<Call>, inputs: seq<Json>, i: nat, input: Json)
      requires i < |calls| == |inputs| && inputs[i..] == InputsOf(calls[i..])
      ensures var next := inputs[i := input];
              && next[..i + 1] == inputs[..i] + [input]
              && next[i + 1..] == InputsOf(calls[i + 1..])
              && next == inputs[..i] + [input] + InputsOf(calls[i + 1..])
    {
      assert calls[i..][1..] == calls[i + 1..];
      assert inputs[i..][1..] == inputs[i + 1..];
    }

    method Run(messages: MessageList) returns (last: map<string, Json>, raised: bool)
      modifies this`state, messages
      ensures var o := RunSpec(env, old(messages.items), old(state));
              && messages.items == o.msgs && state == o.state && last == o.last && raised == o.raised
    {
      last, raised := map[], false;
      var text := LastUserText(messages.items);
      if text != "" && !env.isSafe(text) {
        messages.items := messages.items + [RefusalMessage(env)];
        return;
      }
      ghost var o := Loop(env, messages.items, state, last, 0);
      var round, going := 0, true;
      while going && round < env.limit
        invariant 0 <= round <= env.limit && (going ==> !raised)
        invariant SameEnd(o, if going then Loop(env, messages.items, state, last, round) else Ended(messages.items, state, last, raised))
      {
        last, raised, going := RunOneRound(messages, last, round);
        round := round + 1;
      }
    }

    // One round of the loop; `going` says whether another may follow.
    method RunOneRound(messages: MessageList, lastSoFar: map<string, Json>, round: nat)
      returns (last: map<string, Json>, raised: bool, going: bool)
      requires round < env.limit
      modifies this`state, messages
      ensures going ==> !raised
      ensures SameEnd(
                Loop(env, old(messages.items), old(state), lastSoFar, round),
                if going then Loop(env, messages.items, state, last, round + 1) else Ended(messages.items, state, last, raised))
    {
      last, raised, going := lastSoFar, false, false;
      var answer := env.model(messages.items);
      if answer.None? {
        raised := true;
        return;
      }
      var reply := answer.value;
      var calls := CallsOf(reply);
      ghost var front := messages.items;
      if calls != [] { LoopRound(env, front, state, last, round); }
      messages.items := messages.items + [AssistantMessage(reply, InputsOf(calls))];
      if calls == [] {
        return;
      }
      var inputs, results;
      inputs, results, last, raised := ExecuteTools(messages, reply, last);
      if raised {
        return;
      }
      AppendedRound(front, reply, Execution(state, inputs, results, last, false));
      messages.items := messages.items + [Message(User, Blocks(ResultBlocks(calls, results)))];
      going := true;
    }

    // One round of the stream; `going` says whether another may follow.
    method StreamOneRound(messages: MessageList, lastSoFar: map<string, Json>, round: nat)
      returns (events: seq<Event>, last: map<string, Json>, raised: bool, going: bool)
      requires round < env.limit
      modifies this`state, messages
      ensures going ==> !raised
      ensures Continues(
                StreamLoop(env, old(messages.items), old(state), lastSoFar, round),
                events,
                if going then StreamLoop(env, messages.items, state, last, round + 1) else Ended(messages.items, state, last, raised))
    {
      events, last, raised, going := [Thinking(round + 1)], lastSoFar, false, false;
      var answer := env.model(messages.items);
      if answer.None? {
        raised := true;
        return;
      }
      var reply := answer.value;
      var calls := CallsOf(reply);
      ghost var front := messages.items;
      if calls != [] { StreamRound(env, front, state, last, round); }
      messages.items := messages.items + [AssistantMessage(reply, InputsOf(calls))];
      events := events + ReplyTexts(reply);
      if calls == [] {
        return;
      }
      var inputs, results;
      inputs, results, last, raised := ExecuteTools(messages, reply, last);
      if raised {
        events := events + BrokenOffEvents(env, calls, results);
        return;
      }
      AppendedRound(front, reply, Execution(state, inputs, results, last, false));
      events := events + CallEvents(env, ExecutedCalls(calls, results));
      messages.items := messages.items + [Message(User, Blocks(ResultBlocks(calls, results)))];
      if Stops(calls) {
        events := events + StopEvents(calls, inputs);
      } else {
        going := true;
      }
    }

    method RunStream(messages: MessageList) returns (events: seq<Event>, last: map<string, Json>, raised: bool)
      modifies this`state, messages
      ensures var o := StreamSpec(env, old(messages.items), old(state));
              && messages.items == o.msgs && state == o.state && last == o.last && raised == o.raised && events == o.events
    {
      events, last, raised := [], map[], false;
      var text := LastUserText(messages.items);
      if text != "" && !env.isSafe(text) {
        messages.items := messages.items + [RefusalMessage(env)];
        events := [Understanding, ErrorEvent(env.refusal)];
        return;
      }
      ghost var o := StreamLoop(env, messages.items, state, last, 0);
      var round, going := 0, true;
      while going && round < env.limit
        invariant 0 <= round <= env.limit && (going ==> !raised)
        invariant Continues(o, events,
                            if going then StreamLoop(env, messages.items, state, last, round) else Ended(messages.items, state, last, raised))
      {
        ghost var mid := StreamLoop(env, messages.items, state, last, round);
        var heard;
        heard, last, raised, going := StreamOneRound(messages, last, round);
        round := round + 1;
        ghost var rest := if going then StreamLoop(env, messages.items, state, last, round) else Ended(messages.items, state, last, raised);
        ContinuesOn(o, events, mid, heard, rest);
        events := events + heard;
      }
      assert o.events == events;
      events := [Understanding] + events + (if raised then [] else [DoneEvent(last)]);
    }
  }
}
