// The transcript a run leaves, position by position: what each reply, call, tool and result
// put where, told without the functions that build it.
module AgentTranscript {
  import opened Prelude
  import opened Transcripts
  import opened AgentLoop
  import opened AgentRuns

  // ---- The calls of a run, one after another ----

  // How many calls stand before position j of a reply.
  function CallsAhead(reply: Reply, j: nat): nat
    requires j <= |reply|
  {
    if j == 0 then 0 else (if reply[0].ObjToolUse? then 1 else 0) + CallsAhead(reply[1..], j - 1)
  }

  function CallCount(reply: Reply): nat {
    CallsAhead(reply, |reply|)
  }

  // How many calls the first r replies make.
  function CallsBefore(replies: seq<Reply>, r: nat): nat
    requires r <= |replies|
  {
    if r == 0 then 0 else CallCount(replies[0]) + CallsBefore(replies[1..], r - 1)
  }

  function AllCalls(replies: seq<Reply>): seq<Call> {
    if replies == [] then [] else CallsOf(replies[0]) + AllCalls(replies[1..])
  }

  // The agent's state before call k, unless an earlier input was left no dictionary.
  function StateBefore<S>(env: Env<S>, s: S, calls: seq<Call>, k: nat): Option<S>
    requires k <= |calls|
  {
    if k == 0 then Some(s)
    else
      var step := env.tool(s, calls[0].name, calls[0].input);
      if step.input.JObject? then StateBefore(env, step.state, calls[1..], k - 1) else None
  }

  function StepAt<S>(env: Env<S>, s: S, calls: seq<Call>, k: nat): ToolStep<S>
    requires k < |calls| && StateBefore(env, s, calls, k).Some?
  {
    env.tool(StateBefore(env, s, calls, k).value, calls[k].name, calls[k].input)
  }

  // The input as its tool left it; a call that was never reached keeps its own.
  function InputLeft<S>(env: Env<S>, s: S, calls: seq<Call>, k: nat): Json
    requires k < |calls|
  {
    if StateBefore(env, s, calls, k).Some? then StepAt(env, s, calls, k).input else calls[k].input
  }

  // ---- What is stored of a reply and of its results ----

  ghost predicate BlockStored<S>(env: Env<S>, s: S, calls: seq<Call>, b: ReplyBlock, stored: Block, k: nat) {
    match b
    case ObjText(text) => stored == TextBlock(text)
    case ObjToolUse(id, name, input) =>
      k < |calls| && calls[k] == Call(id, name, input) && stored == ToolUse(id, name, InputLeft(env, s, calls, k))
    case ObjOther(kind, data) => stored == OtherBlock(kind, data)
    case RawDict(block) => stored == block
    case Plain(text) => stored == TextBlock(text)
  }

  ghost predicate ReplyStored<S>(env: Env<S>, s: S, calls: seq<Call>, reply: Reply, m: Message, first: nat) {
    && m.role == Assistant && m.content.Blocks? && |m.content.blocks| == |reply|
    && forall j: nat | j < |reply| :: BlockStored(env, s, calls, reply[j], m.content.blocks[j], first + CallsAhead(reply, j))
  }

  // Call k ran, and this is its text.
  ghost predicate ResultIs<S>(env: Env<S>, s: S, calls: seq<Call>, k: nat, text: string) {
    && k < |calls| && StateBefore(env, s, calls, k).Some?
    && (match StepAt(env, s, calls, k).outcome
        case Answered(answer) => text == answer
        case Failed(reason) => text == "Error: " + reason)
  }

  ghost predicate AnswerStored<S>(env: Env<S>, s: S, calls: seq<Call>, stored: Block, k: nat) {
    stored.ToolResult? && k < |calls| && stored.toolUseId == calls[k].id && ResultIs(env, s, calls, k, stored.result)
  }

  ghost predicate AnswersStored<S>(env: Env<S>, s: S, calls: seq<Call>, count: nat, m: Message, first: nat) {
    && m.role == User && m.content.Blocks? && |m.content.blocks| == count
    && forall i: nat | i < count :: AnswerStored(env, s, calls, m.content.blocks[i], first + i)
  }

  // ---- One reply and its round ----

  lemma {:induction false} CallsAheadSplits(reply: Reply, j: nat)
    requires j < |reply|
    ensures CallsAhead(reply, j) + (if reply[j].ObjToolUse? then 1 else 0) == CallsAhead(reply, j + 1) <= CallCount(reply)
    decreases |reply|
  {
    if j > 0 {
      CallsAheadSplits(reply[1..], j - 1);
    } else {
      CallsAheadGrows(reply, 1);
    }
  }

  lemma {:induction false} CallsAheadGrows(reply: Reply, j: nat)
    requires j <= |reply|
    ensures CallsAhead(reply, j) <= CallCount(reply)
  {
    if j > 0 { CallsAheadGrows(reply[1..], j - 1); }
  }

  lemma {:induction false} CallsAreCounted(reply: Reply)
    ensures |CallsOf(reply)| == CallCount(reply)
  {
    if reply != [] { CallsAreCounted(reply[1..]); }
  }

  // The block at position j, stored with the inputs given.
  ghost predicate StoredWith(b: ReplyBlock, stored: Block, calls: seq<Call>, inputs: seq<Json>, k: nat) {
    match b
    case ObjText(text) => stored == TextBlock(text)
    case ObjToolUse(id, name, input) =>
      k < |calls| == |inputs| && calls[k] == Call(id, name, input) && stored == ToolUse(id, name, inputs[k])
    case ObjOther(kind, data) => stored == OtherBlock(kind, data)
    case RawDict(block) => stored == block
    case Plain(text) => stored == TextBlock(text)
  }

  lemma {:induction false} SerializedAt(reply: Reply, inputs: seq<Json>, j: nat)
    requires |inputs| == |CallsOf(reply)| && j < |reply|
    ensures StoredWith(reply[j], Serialize(reply, inputs)[j], CallsOf(reply), inputs, CallsAhead(reply, j))
  {
    if j > 0 {
      var own := reply[0].ObjToolUse?;
      var rest := if own then inputs[1..] else inputs;
      SerializedAt(reply[1..], rest, j - 1);
      SerializeUnfolds(reply, inputs);
      assert CallsOf(reply) == (if own then [Call(reply[0].id, reply[0].name, reply[0].input)] else []) + CallsOf(reply[1..]);
    }
  }

  lemma {:induction false} ExecutedAt<S>(env: Env<S>, s: S, calls: seq<Call>, last: map<string, Json>, k: nat)
    requires k < |calls|
    ensures var e := Execute(env, s, calls, last);
            && e.inputs[k] == InputLeft(env, s, calls, k)
            && (k < |e.results| <==> StateBefore(env, s, calls, k + 1).Some?)
            && (k < |e.results| ==> ResultIs(env, s, calls, k, e.results[k]))
  {
    var step := env.tool(s, calls[0].name, calls[0].input);
    if step.input.JObject? {
      if k > 0 { ExecutedAt(env, step.state, calls[1..], LastInput(calls[0].name, step.input.fields), k - 1); }
    } else if k > 0 {
      InputsAt(calls[1..], k - 1);
    }
  }

  lemma {:induction false} InputsAt(calls: seq<Call>, k: nat)
    requires k < |calls|
    ensures InputsOf(calls)[k] == calls[k].input
  {
    if k > 0 { InputsAt(calls[1..], k - 1); }
  }

  lemma {:induction false} ExecutedState<S>(env: Env<S>, s: S, calls: seq<Call>, last: map<string, Json>)
    ensures var e := Execute(env, s, calls, last);
            StateBefore(env, s, calls, |calls|) == if e.raised then None else Some(e.state)
  {
    if calls != [] {
      var step := env.tool(s, calls[0].name, calls[0].input);
      if step.input.JObject? { ExecutedState(env, step.state, calls[1..], LastInput(calls[0].name, step.input.fields)); }
    }
  }

  lemma {:induction false} ResultAt(calls: seq<Call>, results: seq<string>, i: nat)
    requires |calls| == |results| && i < |calls|
    ensures ResultBlocks(calls, results)[i] == ToolResult(calls[i].id, results[i])
    ensures ExecutedCalls(calls, results)[i] == Executed(calls[i].id, calls[i].name, results[i])
  {
    if i > 0 { ResultAt(calls[1..], results[1..], i - 1); }
  }

  // ---- A first stretch of calls, and those after it ----

  lemma {:induction false} StateInFront<S>(env: Env<S>, s: S, a: seq<Call>, b: seq<Call>, k: nat)
    requires k <= |a|
    ensures StateBefore(env, s, a + b, k) == StateBefore(env, s, a, k)
  {
    if k > 0 {
      var step := env.tool(s, a[0].name, a[0].input);
      assert (a + b)[1..] == a[1..] + b;
      if step.input.JObject? { StateInFront(env, step.state, a[1..], b, k - 1); }
    }
  }

  lemma {:induction false} StateBehind<S>(env: Env<S>, s: S, a: seq<Call>, b: seq<Call>, k: nat)
    requires k <= |b| && StateBefore(env, s, a, |a|).Some?
    ensures StateBefore(env, s, a + b, |a| + k) == StateBefore(env, StateBefore(env, s, a, |a|).value, b, k)
  {
    if a == [] {
      assert a + b == b;
    } else {
      var step := env.tool(s, a[0].name, a[0].input);
      assert (a + b)[1..] == a[1..] + b;
      StateBehind(env, step.state, a[1..], b, k);
    }
  }

  lemma StoredInFront<S>(env: Env<S>, s: S, a: seq<Call>, b: seq<Call>, reply: Reply, m: Message)
    requires ReplyStored(env, s, a, reply, m, 0)
    ensures ReplyStored(env, s, a + b, reply, m, 0)
  {
    forall j: nat | j < |reply| ensures BlockStored(env, s, a + b, reply[j], m.content.blocks[j], 0 + CallsAhead(reply, j)) {
      assert BlockStored(env, s, a, reply[j], m.content.blocks[j], 0 + CallsAhead(reply, j));
      if reply[j].ObjToolUse? { InputInFront(env, s, a, b, CallsAhead(reply, j)); }
    }
  }

  lemma InputInFront<S>(env: Env<S>, s: S, a: seq<Call>, b: seq<Call>, k: nat)
    requires k < |a|
    ensures (a + b)[k] == a[k] && InputLeft(env, s, a + b, k) == InputLeft(env, s, a, k)
  {
    StateInFront(env, s, a, b, k);
  }

  lemma InputBehind<S>(env: Env<S>, s: S, a: seq<Call>, b: seq<Call>, k: nat)
    requires k < |b| && StateBefore(env, s, a, |a|).Some?
    ensures (a + b)[|a| + k] == b[k]
    ensures InputLeft(env, s, a + b, |a| + k) == InputLeft(env, StateBefore(env, s, a, |a|).value, b, k)
  {
    StateBehind(env, s, a, b, k);
  }

  lemma StoredBehind<S>(env: Env<S>, s: S, a: seq<Call>, b: seq<Call>, reply: Reply, m: Message, first: nat)
    requires StateBefore(env, s, a, |a|).Some?
    requires ReplyStored(env, StateBefore(env, s, a, |a|).value, b, reply, m, first)
    ensures ReplyStored(env, s, a + b, reply, m, |a| + first)
  {
    var s' := StateBefore(env, s, a, |a|).value;
    forall j: nat | j < |reply|
      ensures BlockStored(env, s, a + b, reply[j], m.content.blocks[j], |a| + first + CallsAhead(reply, j))
    {
      assert BlockStored(env, s', b, reply[j], m.content.blocks[j], first + CallsAhead(reply, j));
      if reply[j].ObjToolUse? { InputBehind(env, s, a, b, first + CallsAhead(reply, j)); }
    }
  }

  lemma ResultInFront<S>(env: Env<S>, s: S, a: seq<Call>, b: seq<Call>, k: nat, text: string)
    requires ResultIs(env, s, a, k, text)
    ensures ResultIs(env, s, a + b, k, text) && (a + b)[k] == a[k]
  {
    StateInFront(env, s, a, b, k);
  }

  lemma ResultBehind<S>(env: Env<S>, s: S, a: seq<Call>, b: seq<Call>, k: nat, text: string)
    requires StateBefore(env, s, a, |a|).Some? && ResultIs(env, StateBefore(env, s, a, |a|).value, b, k, text)
    ensures ResultIs(env, s, a + b, |a| + k, text) && (a + b)[|a| + k] == b[k]
  {
    StateBehind(env, s, a, b, k);
  }

  lemma AnswersInFront<S>(env: Env<S>, s: S, a: seq<Call>, b: seq<Call>, count: nat, m: Message)
    requires AnswersStored(env, s, a, count, m, 0)
    ensures AnswersStored(env, s, a + b, count, m, 0)
  {
    forall i: nat | i < count ensures AnswerStored(env, s, a + b, m.content.blocks[i], 0 + i) {
      assert AnswerStored(env, s, a, m.content.blocks[i], 0 + i);
      ResultInFront(env, s, a, b, i, m.content.blocks[i].result);
    }
  }

  lemma AnswersBehind<S>(env: Env<S>, s: S, a: seq<Call>, b: seq<Call>, count: nat, m: Message, first: nat)
    requires StateBefore(env, s, a, |a|).Some?
    requires AnswersStored(env, StateBefore(env, s, a, |a|).value, b, count, m, first)
    ensures AnswersStored(env, s, a + b, count, m, |a| + first)
  {
    var s' := StateBefore(env, s, a, |a|).value;
    forall i: nat | i < count ensures AnswerStored(env, s, a + b, m.content.blocks[i], |a| + first + i) {
      assert AnswerStored(env, s', b, m.content.blocks[i], first + i);
      ResultBehind(env, s, a, b, first + i, m.content.blocks[i].result);
    }
  }

  // ---- The transcript of a run ----

  // Round r: asked of the transcript so far, its reply is stored, and its results after it.
  ghost predicate RoundStored<S>(env: Env<S>, s: S, base: nat, o: Outcome<S>, r: nat)
    requires r < |o.replies|
  {
    var calls, at, first := AllCalls(o.replies), base + 2 * r, CallsBefore(o.replies, r);
    && at < |o.msgs|
    && env.model(o.msgs[..at]) == Some(o.replies[r])
    && ReplyStored(env, s, calls, o.replies[r], o.msgs[at], first)
    && (at + 1 < |o.msgs| ==> AnswersStored(env, s, calls, CallCount(o.replies[r]), o.msgs[at + 1], first))
  }

  ghost predicate RoundsStored<S>(env: Env<S>, s: S, base: nat, o: Outcome<S>) {
    forall r: nat | r < |o.replies| :: RoundStored(env, s, base, o, r)
  }

  lemma FirstRound<S>(env: Env<S>, s: S, reply: Reply, last: map<string, Json>)
    ensures var e := Execute(env, s, CallsOf(reply), last);
            && ReplyStored(env, s, CallsOf(reply), reply, AssistantMessage(reply, e.inputs), 0)
            && (!e.raised ==> AnswersStored(env, s, CallsOf(reply), CallCount(reply),
                                            Message(User, Blocks(ResultBlocks(CallsOf(reply), e.results))), 0))
  {
    var calls := CallsOf(reply);
    var e := Execute(env, s, calls, last);
    CallsAreCounted(reply);
    var blocks := Serialize(reply, e.inputs);
    forall j: nat | j < |reply| ensures BlockStored(env, s, calls, reply[j], blocks[j], 0 + CallsAhead(reply, j)) {
      SerializedAt(reply, e.inputs, j);
      if reply[j].ObjToolUse? { ExecutedAt(env, s, calls, last, CallsAhead(reply, j)); }
    }
    if !e.raised {
      forall i: nat | i < |calls| ensures AnswerStored(env, s, calls, ResultBlocks(calls, e.results)[i], 0 + i) {
        ResultAt(calls, e.results, i);
        ExecutedAt(env, s, calls, last, i);
      }
    }
  }

  lemma CallsSplit(reply: Reply, rest: seq<Reply>)
    ensures AllCalls([reply] + rest) == CallsOf(reply) + AllCalls(rest)
    ensures CallsBefore([reply] + rest, 0) == 0
    ensures forall r: nat | r <= |rest| :: CallsBefore([reply] + rest, r + 1) == |CallsOf(reply)| + CallsBefore(rest, r)
  {
    assert ([reply] + rest)[1..] == rest;
    CallsAreCounted(reply);
  }

  lemma LaterRound<S>(env: Env<S>, s: S, base: nat, o: Outcome<S>, reply: Reply, o': Outcome<S>, r: nat)
    requires r < |o'.replies| && o.replies == [reply] + o'.replies && o.msgs == o'.msgs
    requires StateBefore(env, s, CallsOf(reply), |CallsOf(reply)|).Some?
    requires RoundStored(env, StateBefore(env, s, CallsOf(reply), |CallsOf(reply)|).value, base + 2, o', r)
    ensures RoundStored(env, s, base, o, r + 1)
  {
    var a, b, at := CallsOf(reply), AllCalls(o'.replies), base + 2 + 2 * r;
    CallsSplit(reply, o'.replies);
    StoredBehind(env, s, a, b, o'.replies[r], o.msgs[at], CallsBefore(o'.replies, r));
    if at + 1 < |o.msgs| {
      AnswersBehind(env, s, a, b, CallCount(o'.replies[r]), o.msgs[at + 1], CallsBefore(o'.replies, r));
    }
  }

  // What every round of the loop shares: it ends here, or goes on from a state of its own.
  predicate GoesOn<S>(env: Env<S>, ms: seq<Message>, s: S, last: map<string, Json>, round: nat) {
    && round < env.limit && env.model(ms).Some?
    && CallsOf(env.model(ms).value) != [] && !Execute(env, s, CallsOf(env.model(ms).value), last).raised
  }

  lemma LastRoundStores<S>(env: Env<S>, ms: seq<Message>, s: S, last: map<string, Json>, round: nat)
    requires round < env.limit && env.model(ms).Some? && !GoesOn(env, ms, s, last, round)
    ensures RoundStored(env, s, |ms|, Loop(env, ms, s, last, round), 0)
  {
    var reply := env.model(ms).value;
    FirstRound(env, s, reply, last);
    CallsSplit(reply, []);
    assert [reply] + [] == [reply] && CallsOf(reply) + [] == CallsOf(reply);
    assert Loop(env, ms, s, last, round).msgs[..|ms|] == ms;
  }

  lemma OpeningRoundStores<S>(env: Env<S>, ms: seq<Message>, s: S, last: map<string, Json>, round: nat)
    requires GoesOn(env, ms, s, last, round)
    ensures RoundStored(env, s, |ms|, Loop(env, ms, s, last, round), 0)
  {
    var o, reply := Loop(env, ms, s, last, round), env.model(ms).value;
    var calls := CallsOf(reply);
    var e := Execute(env, s, calls, last);
    var after := ms + RoundMessages(reply, e);
    var o' := Loop(env, after, e.state, e.last, round + 1);
    FirstRound(env, s, reply, last);
    CallsSplit(reply, o'.replies);
    LoopGrowth(env, after, e.state, e.last, round + 1);
    assert o.msgs[..|ms|] == ms && o.msgs[|ms|] == after[|ms|] && o.msgs[|ms| + 1] == after[|ms| + 1];
    StoredInFront(env, s, calls, AllCalls(o'.replies), reply, o.msgs[|ms|]);
    AnswersInFront(env, s, calls, AllCalls(o'.replies), CallCount(reply), o.msgs[|ms| + 1]);
  }

  // The first round, and those after it.
  lemma RoundsStoredLater<S>(env: Env<S>, s: S, base: nat, o: Outcome<S>, reply: Reply, o': Outcome<S>)
    requires o.replies == [reply] + o'.replies && o.msgs == o'.msgs && RoundStored(env, s, base, o, 0)
    requires StateBefore(env, s, CallsOf(reply), |CallsOf(reply)|).Some?
    requires RoundsStored(env, StateBefore(env, s, CallsOf(reply), |CallsOf(reply)|).value, base + 2, o')
    ensures RoundsStored(env, s, base, o)
  {
    forall r: nat | r < |o.replies| ensures RoundStored(env, s, base, o, r) {
      if r > 0 { LaterRound(env, s, base, o, reply, o', r - 1); }
    }
  }

  lemma {:induction false} LoopStores<S>(env: Env<S>, ms: seq<Message>, s: S, last: map<string, Json>, round: nat)
    requires round <= env.limit
    ensures RoundsStored(env, s, |ms|, Loop(env, ms, s, last, round))
    decreases env.limit - round
  {
    if GoesOn(env, ms, s, last, round) {
      var reply := env.model(ms).value;
      var e := Execute(env, s, CallsOf(reply), last);
      var after := ms + RoundMessages(reply, e);
      OpeningRoundStores(env, ms, s, last, round);
      ExecutedState(env, s, CallsOf(reply), last);
      LoopStores(env, after, e.state, e.last, round + 1);
      RoundsStoredLater(env, s, |ms|, Loop(env, ms, s, last, round), reply, Loop(env, after, e.state, e.last, round + 1));
    } else if round < env.limit && env.model(ms).Some? {
      LastRoundStores(env, ms, s, last, round);
    }
  }

  // ---- How a run ends ----

  // The state after every call, if none was left a broken input.
  function StateAfter<S>(env: Env<S>, s: S, replies: seq<Reply>): Option<S> {
    StateBefore(env, s, AllCalls(replies), |AllCalls(replies)|)
  }

  predicate LastIsSilent(replies: seq<Reply>) {
    replies != [] && CallCount(replies[|replies| - 1]) == 0
  }

  // `rounds` are left. The run ends in silence, in a broken input, for want of an answer or
  // of rounds, or, streamed, on a stop; and its messages are two a round, but for a last
  // reply without results.
  ghost predicate Ends<S>(env: Env<S>, s: S, base: nat, rounds: nat, o: Outcome<S>) {
    var after, silent := StateAfter(env, s, o.replies), LastIsSilent(o.replies);
    && |o.replies| <= rounds
    && |o.msgs| == base + 2 * |o.replies| - (if silent || after.None? then 1 else 0)
    && (after.Some? ==> o.state == after.value)
    && (o.raised <==> after.None? || (!silent && !o.stopped && |o.replies| < rounds && env.model(o.msgs).None?))
    && (!o.raised ==> silent || o.stopped || |o.replies| == rounds)
    && (o.stopped ==> !silent && after.Some?)
    && |AllCalls(o.replies)| == CallsBefore(o.replies, |o.replies|)
  }

  lemma {:induction false} LoopEnds<S>(env: Env<S>, ms: seq<Message>, s: S, last: map<string, Json>, round: nat)
    requires round <= env.limit
    ensures Ends(env, s, |ms|, env.limit - round, Loop(env, ms, s, last, round))
    decreases env.limit - round
  {
    if GoesOn(env, ms, s, last, round) {
      var reply := env.model(ms).value;
      var e := Execute(env, s, CallsOf(reply), last);
      var after := ms + RoundMessages(reply, e);
      ExecutedState(env, s, CallsOf(reply), last);
      LoopEnds(env, after, e.state, e.last, round + 1);
      EndsLater(env, s, |ms|, env.limit - round, reply, Loop(env, ms, s, last, round), Loop(env, after, e.state, e.last, round + 1));
    } else if round < env.limit && env.model(ms).Some? {
      LastRoundEnds(env, ms, s, env.model(ms).value, last, env.limit - round, Loop(env, ms, s, last, round));
    }
  }

  lemma LastRoundEnds<S>(env: Env<S>, ms: seq<Message>, s: S, reply: Reply, last: map<string, Json>, rounds: nat, o: Outcome<S>)
    requires rounds > 0 && o.replies == [reply]
    requires var e := Execute(env, s, CallsOf(reply), last);
             && (o.state, o.raised) == (e.state, e.raised) && (o.stopped ==> CallsOf(reply) != [] && !e.raised)
             && (CallsOf(reply) == [] || e.raised || o.stopped)
             && |o.msgs| == |ms| + (if o.stopped then 2 else 1)
    ensures Ends(env, s, |ms|, rounds, o)
  {
    ExecutedState(env, s, CallsOf(reply), last);
    CallsAreCounted(reply);
    CallsSplit(reply, []);
    assert [reply] + [] == [reply] && CallsOf(reply) + [] == CallsOf(reply);
  }

  lemma EndsLater<S>(env: Env<S>, s: S, base: nat, rounds: nat, reply: Reply, o: Outcome<S>, o': Outcome<S>)
    requires rounds > 0 && CallsOf(reply) != [] && StateBefore(env, s, CallsOf(reply), |CallsOf(reply)|).Some?
    requires o.replies == [reply] + o'.replies && SameEnd(o, o') && o.stopped == o'.stopped
    requires var s' := StateBefore(env, s, CallsOf(reply), |CallsOf(reply)|).value;
             Ends(env, s', base + 2, rounds - 1, o') && (o'.replies == [] ==> o'.state == s')
    ensures Ends(env, s, base, rounds, o)
  {
    CallsSplit(reply, o'.replies);
    CallsAreCounted(reply);
    StateBehind(env, s, CallsOf(reply), AllCalls(o'.replies), |AllCalls(o'.replies)|);
  }

  // Call k left its input a dictionary, and so did all before it.
  predicate Completes<S>(env: Env<S>, s: S, calls: seq<Call>, k: nat) {
    k < |calls| && StateBefore(env, s, calls, k + 1).Some?
  }

  // Call k was executed, and so recorded.
  ghost predicate ExecutedIs<S>(env: Env<S>, s: S, calls: seq<Call>, x: Executed, k: nat) {
    ResultIs(env, s, calls, k, x.result) && x.id == calls[k].id && x.name == calls[k].name
  }

  // Exactly the calls up to a broken input are executed, in order; the last of them leaves
  // its name and input.
  ghost predicate Executes<S>(env: Env<S>, s: S, last: map<string, Json>, o: Outcome<S>) {
    var calls := AllCalls(o.replies);
    && |o.executed| <= |calls|
    && (forall k: nat | k < |calls| :: k < |o.executed| <==> Completes(env, s, calls, k))
    && (forall k: nat | k < |o.executed| :: ExecutedIs(env, s, calls, o.executed[k], k))
    && o.last == LastOf(env, s, calls, |o.executed|, last)
  }

  ghost function LastOf<S>(env: Env<S>, s: S, calls: seq<Call>, done: nat, last: map<string, Json>): map<string, Json>
    requires done <= |calls|
  {
    if done == 0 then last
    else
      var input := InputLeft(env, s, calls, done - 1);
      map["tool_name" := JString(calls[done - 1].name)] + (if input.JObject? then input.fields else map[])
  }

  lemma {:induction false} ExecutedLast<S>(env: Env<S>, s: S, calls: seq<Call>, last: map<string, Json>)
    ensures var e := Execute(env, s, calls, last); e.last == LastOf(env, s, calls, |e.results|, last)
  {
    if calls != [] {
      var step := env.tool(s, calls[0].name, calls[0].input);
      if step.input.JObject? {
        ExecutedLast(env, step.state, calls[1..], LastInput(calls[0].name, step.input.fields));
      }
    }
  }

  lemma FirstExecutes<S>(env: Env<S>, s: S, calls: seq<Call>, last: map<string, Json>)
    ensures var e := Execute(env, s, calls, last);
            var done := ExecutedCalls(calls[..|e.results|], e.results);
            && |done| == |e.results| <= |calls|
            && (forall k: nat | k < |calls| :: k < |done| <==> Completes(env, s, calls, k))
            && (forall k: nat | k < |done| :: ExecutedIs(env, s, calls, done[k], k))
  {
    var e := Execute(env, s, calls, last);
    var done := ExecutedCalls(calls[..|e.results|], e.results);
    forall k: nat | k < |calls|
      ensures k < |done| <==> Completes(env, s, calls, k)
      ensures k < |done| ==> ExecutedIs(env, s, calls, done[k], k)
    {
      ExecutedAt(env, s, calls, last, k);
      if k < |done| { ResultAt(calls[..|e.results|], e.results, k); }
    }
  }

  lemma ExecutesLater<S>(env: Env<S>, s: S, last: map<string, Json>, reply: Reply, done: seq<Executed>, o: Outcome<S>, o': Outcome<S>, last': map<string, Json>)
    requires var a := CallsOf(reply);
             && |done| == |a| && StateBefore(env, s, a, |a|).Some?
             && (forall k: nat | k < |a| :: Completes(env, s, a, k) && ExecutedIs(env, s, a, done[k], k))
             && Executes(env, StateBefore(env, s, a, |a|).value, last', o') && last' == LastOf(env, s, a, |a|, last)
    requires o.replies == [reply] + o'.replies && o.executed == done + o'.executed && o.last == o'.last
    ensures Executes(env, s, last, o)
  {
    var a, b := CallsOf(reply), AllCalls(o'.replies);
    CallsSplit(reply, o'.replies);
    forall k: nat | k < |a| + |b|
      ensures k < |o.executed| <==> Completes(env, s, a + b, k)
      ensures k < |o.executed| ==> ExecutedIs(env, s, a + b, o.executed[k], k)
    {
      if k < |a| {
        OwnCallExecutes(env, s, a, b, done, k);
        assert o.executed[k] == done[k];
      } else {
        LaterCallExecutes(env, s, a, b, o', k - |a|);
        if k < |o.executed| { assert o.executed[k] == o'.executed[k - |a|]; }
      }
    }
    LastLater(env, s, a, b, |o'.executed|, last);
  }

  lemma OwnCallExecutes<S>(env: Env<S>, s: S, a: seq<Call>, b: seq<Call>, done: seq<Executed>, k: nat)
    requires k < |a| == |done| && Completes(env, s, a, k) && ExecutedIs(env, s, a, done[k], k)
    ensures Completes(env, s, a + b, k) && ExecutedIs(env, s, a + b, done[k], k)
  {
    StateInFront(env, s, a, b, k + 1);
    ResultInFront(env, s, a, b, k, done[k].result);
  }

  lemma LaterCallExecutes<S>(env: Env<S>, s: S, a: seq<Call>, b: seq<Call>, o': Outcome<S>, k: nat)
    requires k < |b| && StateBefore(env, s, a, |a|).Some? && AllCalls(o'.replies) == b
    requires var s' := StateBefore(env, s, a, |a|).value;
             && (k < |o'.executed| <==> Completes(env, s', b, k))
             && (k < |o'.executed| ==> ExecutedIs(env, s', b, o'.executed[k], k))
    ensures k < |o'.executed| <==> Completes(env, s, a + b, |a| + k)
    ensures k < |o'.executed| ==> ExecutedIs(env, s, a + b, o'.executed[k], |a| + k)
  {
    StateBehind(env, s, a, b, k + 1);
    if k < |o'.executed| { ResultBehind(env, s, a, b, k, o'.executed[k].result); }
  }

  lemma LastLater<S>(env: Env<S>, s: S, a: seq<Call>, b: seq<Call>, more: nat, last: map<string, Json>)
    requires more <= |b| && StateBefore(env, s, a, |a|).Some?
    ensures LastOf(env, s, a + b, |a| + more, last)
         == LastOf(env, StateBefore(env, s, a, |a|).value, b, more, LastOf(env, s, a, |a|, last))
  {
    if more > 0 {
      InputBehind(env, s, a, b, more - 1);
    } else if a != [] {
      InputInFront(env, s, a, b, |a| - 1);
    }
  }

  lemma {:induction false} LoopExecutes<S>(env: Env<S>, ms: seq<Message>, s: S, last: map<string, Json>, round: nat)
    ensures Executes(env, s, last, Loop(env, ms, s, last, round))
    decreases env.limit - round
  {
    if round < env.limit && env.model(ms).Some? {
      var reply := env.model(ms).value;
      var calls := CallsOf(reply);
      var e := Execute(env, s, calls, last);
      FirstExecutes(env, s, calls, last);
      ExecutedLast(env, s, calls, last);
      if GoesOn(env, ms, s, last, round) {
        var after := ms + RoundMessages(reply, e);
        ExecutedState(env, s, calls, last);
        assert calls[..|e.results|] == calls;
        LoopExecutes(env, after, e.state, e.last, round + 1);
        ExecutesLater(env, s, last, reply, ExecutedCalls(calls, e.results), Loop(env, ms, s, last, round),
                      Loop(env, after, e.state, e.last, round + 1), e.last);
      } else {
        CallsSplit(reply, []);
        assert [reply] + [] == [reply] && calls + [] == calls;
      }
    }
  }

  // ---- The same of the streamed loop ----

  predicate StreamGoesOn<S>(env: Env<S>, ms: seq<Message>, s: S, last: map<string, Json>, round: nat) {
    GoesOn(env, ms, s, last, round) && !Stops(CallsOf(env.model(ms).value))
  }

  lemma {:induction false} StreamGrows<S>(env: Env<S>, ms: seq<Message>, s: S, last: map<string, Json>, round: nat)
    ensures ms <= StreamLoop(env, ms, s, last, round).msgs
    decreases env.limit - round
  {
    if StreamGoesOn(env, ms, s, last, round) {
      var reply := env.model(ms).value;
      var e := Execute(env, s, CallsOf(reply), last);
      StreamGrows(env, ms + RoundMessages(reply, e), e.state, e.last, round + 1);
    }
  }

  lemma StreamLastStores<S>(env: Env<S>, ms: seq<Message>, s: S, last: map<string, Json>, round: nat)
    requires round < env.limit && env.model(ms).Some? && !StreamGoesOn(env, ms, s, last, round)
    ensures RoundStored(env, s, |ms|, StreamLoop(env, ms, s, last, round), 0)
  {
    var reply := env.model(ms).value;
    FirstRound(env, s, reply, last);
    CallsSplit(reply, []);
    assert [reply] + [] == [reply] && CallsOf(reply) + [] == CallsOf(reply);
    assert StreamLoop(env, ms, s, last, round).msgs[..|ms|] == ms;
  }

  lemma StreamOpeningStores<S>(env: Env<S>, ms: seq<Message>, s: S, last: map<string, Json>, round: nat)
    requires StreamGoesOn(env, ms, s, last, round)
    ensures RoundStored(env, s, |ms|, StreamLoop(env, ms, s, last, round), 0)
  {
    var o, reply := StreamLoop(env, ms, s, last, round), env.model(ms).value;
    var calls := CallsOf(reply);
    var e := Execute(env, s, calls, last);
    var after := ms + RoundMessages(reply, e);
    var o' := StreamLoop(env, after, e.state, e.last, round + 1);
    FirstRound(env, s, reply, last);
    CallsSplit(reply, o'.replies);
    StreamGrows(env, after, e.state, e.last, round + 1);
    assert o.msgs[..|ms|] == ms && o.msgs[|ms|] == after[|ms|] && o.msgs[|ms| + 1] == after[|ms| + 1];
    StoredInFront(env, s, calls, AllCalls(o'.replies), reply, o.msgs[|ms|]);
    AnswersInFront(env, s, calls, AllCalls(o'.replies), CallCount(reply), o.msgs[|ms| + 1]);
  }

  lemma StreamStoresLater<S>(env: Env<S>, ms: seq<Message>, s: S, last: map<string, Json>, round: nat, o': Outcome<S>)
    requires StreamGoesOn(env, ms, s, last, round)
    requires var reply := env.model(ms).value;
             var e := Execute(env, s, CallsOf(reply), last);
             && o' == StreamLoop(env, ms + RoundMessages(reply, e), e.state, e.last, round + 1)
             && RoundsStored(env, e.state, |ms| + 2, o')
    ensures RoundsStored(env, s, |ms|, StreamLoop(env, ms, s, last, round))
  {
    var reply := env.model(ms).value;
    StreamOpeningStores(env, ms, s, last, round);
    ExecutedState(env, s, CallsOf(reply), last);
    RoundsStoredLater(env, s, |ms|, StreamLoop(env, ms, s, last, round), reply, o');
  }

  lemma StreamStopsHere<S>(env: Env<S>, ms: seq<Message>, s: S, last: map<string, Json>, round: nat)
    requires round <= env.limit && !StreamGoesOn(env, ms, s, last, round)
    ensures var o := StreamLoop(env, ms, s, last, round);
            RoundsStored(env, s, |ms|, o) && Ends(env, s, |ms|, env.limit - round, o)
  {
    if round < env.limit && env.model(ms).Some? {
      StreamLastStores(env, ms, s, last, round);
      LastRoundEnds(env, ms, s, env.model(ms).value, last, env.limit - round, StreamLoop(env, ms, s, last, round));
    }
  }

  lemma {:induction false} StreamStores<S>(env: Env<S>, ms: seq<Message>, s: S, last: map<string, Json>, round: nat)
    requires round <= env.limit
    ensures RoundsStored(env, s, |ms|, StreamLoop(env, ms, s, last, round))
    decreases env.limit - round
  {
    if StreamGoesOn(env, ms, s, last, round) {
      var reply := env.model(ms).value;
      var e := Execute(env, s, CallsOf(reply), last);
      var after := ms + RoundMessages(reply, e);
      StreamStores(env, after, e.state, e.last, round + 1);
      StreamStoresLater(env, ms, s, last, round, StreamLoop(env, after, e.state, e.last, round + 1));
    } else {
      StreamStopsHere(env, ms, s, last, round);
    }
  }

  lemma StreamEndsLater<S>(env: Env<S>, ms: seq<Message>, s: S, last: map<string, Json>, round: nat, o': Outcome<S>)
    requires StreamGoesOn(env, ms, s, last, round)
    requires var reply := env.model(ms).value;
             var e := Execute(env, s, CallsOf(reply), last);
             && o' == StreamLoop(env, ms + RoundMessages(reply, e), e.state, e.last, round + 1)
             && Ends(env, e.state, |ms| + 2, env.limit - round - 1, o')
    ensures Ends(env, s, |ms|, env.limit - round, StreamLoop(env, ms, s, last, round))
  {
    var reply := env.model(ms).value;
    ExecutedState(env, s, CallsOf(reply), last);
    EndsLater(env, s, |ms|, env.limit - round, reply, StreamLoop(env, ms, s, last, round), o');
  }

  lemma {:induction false} StreamEnds<S>(env: Env<S>, ms: seq<Message>, s: S, last: map<string, Json>, round: nat)
    requires round <= env.limit
    ensures Ends(env, s, |ms|, env.limit - round, StreamLoop(env, ms, s, last, round))
    decreases env.limit - round
  {
    if StreamGoesOn(env, ms, s, last, round) {
      var reply := env.model(ms).value;
      var e := Execute(env, s, CallsOf(reply), last);
      var after := ms + RoundMessages(reply, e);
      StreamEnds(env, after, e.state, e.last, round + 1);
      StreamEndsLater(env, ms, s, last, round, StreamLoop(env, after, e.state, e.last, round + 1));
    } else {
      StreamStopsHere(env, ms, s, last, round);
    }
  }

  lemma {:induction false} StreamExecutes<S>(env: Env<S>, ms: seq<Message>, s: S, last: map<string, Json>, round: nat)
    ensures Executes(env, s, last, StreamLoop(env, ms, s, last, round))
    decreases env.limit - round
  {
    if round < env.limit && env.model(ms).Some? {
      var reply := env.model(ms).value;
      var calls := CallsOf(reply);
      var e := Execute(env, s, calls, last);
      FirstExecutes(env, s, calls, last);
      ExecutedLast(env, s, calls, last);
      assert !e.raised ==> calls[..|e.results|] == calls;
      if StreamGoesOn(env, ms, s, last, round) {
        var after := ms + RoundMessages(reply, e);
        ExecutedState(env, s, calls, last);
        StreamExecutes(env, after, e.state, e.last, round + 1);
        ExecutesLater(env, s, last, reply, ExecutedCalls(calls, e.results), StreamLoop(env, ms, s, last, round),
                      StreamLoop(env, after, e.state, e.last, round + 1), e.last);
      } else {
        CallsSplit(reply, []);
        assert [reply] + [] == [reply] && calls + [] == calls;
      }
    }
  }

  // ---- The whole run ----

  // A run that is not refused, told in full: the given messages stay, each round asks the
  // model and stores its reply block by block and its results call by call, the calls run in
  // order on the agent's state, and it ends for one of four reasons.
  lemma RunTold<S>(env: Env<S>, ms: seq<Message>, s: S)
    requires !Refused(env, ms)
    ensures var o := RunSpec(env, ms, s);
            && ms <= o.msgs
            && RoundsStored(env, s, |ms|, o)
            && Ends(env, s, |ms|, env.limit, o)
            && Executes(env, s, map[], o)
  {
    var o := RunSpec(env, ms, s);
    LoopGrowth(env, ms, s, map[], 0);
    LoopStores(env, ms, s, map[], 0);
    LoopEnds(env, ms, s, map[], 0);
    LoopExecutes(env, ms, s, map[], 0);
  }

  // A refused run adds the refusal and does nothing else.
  lemma RefusalTold<S>(env: Env<S>, ms: seq<Message>, s: S)
    requires Refused(env, ms)
    ensures var o := RunSpec(env, ms, s);
            && (o.msgs, o.state, o.last) == (ms + [Message(Assistant, Blocks([TextBlock(env.refusal)]))], s, map[])
            && (o.replies, o.executed, o.raised) == ([], [], false)
  {
  }

  // A stream that is not refused leaves the transcript of just such a run.
  lemma StreamTold<S>(env: Env<S>, ms: seq<Message>, s: S)
    requires !Refused(env, ms)
    ensures var o := StreamSpec(env, ms, s);
            && ms <= o.msgs
            && RoundsStored(env, s, |ms|, o)
            && Ends(env, s, |ms|, env.limit, o)
            && Executes(env, s, map[], o)
  {
    var o, p := StreamSpec(env, ms, s), StreamLoop(env, ms, s, map[], 0);
    StreamGrows(env, ms, s, map[], 0);
    StreamStores(env, ms, s, map[], 0);
    forall r: nat | r < |o.replies| ensures RoundStored(env, s, |ms|, o, r) { assert RoundStored(env, s, |ms|, p, r); }
    StreamEnds(env, ms, s, map[], 0);
    StreamExecutes(env, ms, s, map[], 0);
  }

  // ---- Which text the safety check reads ----

  predicate CarriesText(m: Message) {
    m.role == User && (m.content.Text? || exists b <- m.content.blocks :: b.TextBlock?)
  }

  // The text of the last message that carries any: its text, or its text blocks joined.
  ghost predicate LatestText(ms: seq<Message>, text: string) {
    if exists i: nat :: LastCarrier(ms, i)
    then exists i: nat :: LastCarrier(ms, i) && text == TextCarried(ms[i])
    else text == ""
  }

  function TextCarried(m: Message): string {
    if m.content.Text? then m.content.text else Join(Picked(m.content.blocks, IsTextBlock, TextOfBlock), "\n")
  }

  predicate LastCarrier(ms: seq<Message>, i: nat) {
    i < |ms| && CarriesText(ms[i]) && forall k | i < k < |ms| :: !CarriesText(ms[k])
  }

  lemma {:induction false} TextsArePicked(blocks: seq<Block>)
    ensures TextsOf(blocks) == Picked(blocks, IsTextBlock, TextOfBlock)
    ensures TextsOf(blocks) != [] <==> exists b <- blocks :: b.TextBlock?
  {
    if blocks != [] {
      TextsArePicked(blocks[1..]);
      PickedFirst(blocks, IsTextBlock, TextOfBlock);
      assert blocks == [blocks[0]] + blocks[1..];
    }
  }

  lemma {:induction false} SafetyReadsLatestText(ms: seq<Message>)
    ensures LatestText(ms, LastUserText(ms))
  {
    if ms != [] {
      var m, front := ms[|ms| - 1], ms[..|ms| - 1];
      if m.role == User && m.content.Blocks? { TextsArePicked(m.content.blocks); }
      if CarriesText(m) {
        assert LastUserText(ms) == TextCarried(m);
        LastMessageCarries(ms);
      } else {
        assert LastUserText(ms) == LastUserText(front);
        SafetyReadsLatestText(front);
        LastMessageIsMute(ms, LastUserText(front));
      }
    }
  }

  lemma LastMessageCarries(ms: seq<Message>)
    requires ms != [] && CarriesText(ms[|ms| - 1])
    ensures LatestText(ms, TextCarried(ms[|ms| - 1]))
  {
    assert LastCarrier(ms, |ms| - 1);
  }

  lemma LastMessageIsMute(ms: seq<Message>, text: string)
    requires ms != [] && !CarriesText(ms[|ms| - 1]) && LatestText(ms[..|ms| - 1], text)
    ensures LatestText(ms, text)
  {
    var front := ms[..|ms| - 1];
    forall i: nat ensures LastCarrier(ms, i) <==> LastCarrier(front, i) {}
    if i: nat :| LastCarrier(front, i) && text == TextCarried(front[i]) { assert LastCarrier(ms, i) && ms[i] == front[i]; }
  }

  // A call is refused exactly when the latest text of the user is there and unsafe.
  lemma RefusedExactlyWhen<S>(env: Env<S>, ms: seq<Message>)
    ensures Refused(env, ms) <==> exists text :: LatestText(ms, text) && text != "" && !env.isSafe(text)
  {
    SafetyReadsLatestText(ms);
    forall text | LatestText(ms, text) ensures text == LastUserText(ms) { LatestTextIsUnique(ms, text, LastUserText(ms)); }
  }

  lemma LatestTextIsUnique(ms: seq<Message>, a: string, b: string)
    requires LatestText(ms, a) && LatestText(ms, b)
    ensures a == b
  {
  }
}
