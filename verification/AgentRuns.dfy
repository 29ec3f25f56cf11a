// What every run of the agentic loop does to its transcript, and how the stream relates to it.
module AgentRuns {
  import opened Prelude
  import opened Transcripts
  import opened AgentLoop

  // ---- Growth ----

  lemma {:induction false} LoopGrowth<S>(env: Env<S>, ms: seq<Message>, s: S, last: map<string, Json>, round: nat)
    requires round <= env.limit
    ensures var o := Loop(env, ms, s, last, round);
            ms <= o.msgs && |o.msgs| <= |ms| + 2 * (env.limit - round)
    decreases env.limit - round
  {
    if round < env.limit && env.model(ms).Some? && CallsOf(env.model(ms).value) != [] {
      var e := Execute(env, s, CallsOf(env.model(ms).value), last);
      if !e.raised {
        LoopGrowth(env, ms + RoundMessages(env.model(ms).value, e), e.state, e.last, round + 1);
      }
    }
  }

  // A run keeps its input and adds at most two messages a round; a refusal adds exactly one.
  lemma RunAddsBoundedly<S>(env: Env<S>, ms: seq<Message>, s: S)
    ensures var o := RunSpec(env, ms, s);
            && ms <= o.msgs
            && (if Refused(env, ms) then |o.msgs| == |ms| + 1 && o.replies == [] else |o.msgs| <= |ms| + 2 * env.limit)
  {
    if !Refused(env, ms) { LoopGrowth(env, ms, s, map[], 0); }
  }

  // ---- Pairing ----

  // No bare dictionary in the reply poses as a tool call or a tool result.
  predicate NoRawToolBlocks(reply: Reply) {
    forall b <- reply :: b.RawDict? ==> !b.block.ToolUse? && !b.block.ToolResult?
  }

  function IdsOf(calls: seq<Call>): (ids: seq<string>)
    ensures |ids| == |calls|
  {
    if calls == [] then [] else [calls[0].id] + IdsOf(calls[1..])
  }

  lemma SerializeUnfolds(reply: Reply, inputs: seq<Json>)
    requires |inputs| == |CallsOf(reply)| && reply != []
    ensures var own := reply[0].ObjToolUse?;
            var tail := if own then inputs[1..] else inputs;
            var blocks := Serialize(reply, inputs);
            && |tail| == |CallsOf(reply[1..])|
            && blocks[1..] == Serialize(reply[1..], tail)
            && (own ==> blocks[0].ToolUse? && blocks[0].id == reply[0].id)
            && (!own && !reply[0].RawDict? ==> !blocks[0].ToolUse? && !blocks[0].ToolResult?)
            && (reply[0].RawDict? ==> blocks[0] == reply[0].block)
  {
  }

  lemma RawBlocksSplit(reply: Reply)
    requires reply != []
    ensures NoRawToolBlocks(reply) <==>
            (reply[0].RawDict? ==> !reply[0].block.ToolUse? && !reply[0].block.ToolResult?) && NoRawToolBlocks(reply[1..])
  {
    assert reply == [reply[0]] + reply[1..];
  }

  lemma {:induction false} SerializedIds(reply: Reply, inputs: seq<Json>)
    requires |inputs| == |CallsOf(reply)|
    ensures var blocks := Serialize(reply, inputs);
            && |CallIds(blocks)| >= |CallsOf(reply)|
            && (NoRawToolBlocks(reply) <==> |CallIds(blocks)| == |CallsOf(reply)| && ResultIds(blocks) == [])
            && (NoRawToolBlocks(reply) ==> CallIds(blocks) == IdsOf(CallsOf(reply)))
  {
    if reply != [] {
      var own := reply[0].ObjToolUse?;
      SerializeUnfolds(reply, inputs);
      RawBlocksSplit(reply);
      SerializedIds(reply[1..], if own then inputs[1..] else inputs);
      assert CallsOf(reply) == (if own then [Call(reply[0].id, reply[0].name, reply[0].input)] else []) + CallsOf(reply[1..]);
      var calls := CallsOf(reply);
      if own {
        assert calls[1..] == CallsOf(reply[1..]) && calls[0].id == reply[0].id;
        assert IdsOf(calls) == [reply[0].id] + IdsOf(CallsOf(reply[1..]));
      } else {
        assert calls == CallsOf(reply[1..]);
      }
    }
  }

  lemma {:induction false} ResultBlocksIds(calls: seq<Call>, results: seq<string>)
    requires |calls| == |results|
    ensures ResultIds(ResultBlocks(calls, results)) == IdsOf(calls)
    ensures CallIds(ResultBlocks(calls, results)) == []
    ensures forall b <- ResultBlocks(calls, results) :: b.ToolResult?
  {
    if calls == [] {
      assert ResultBlocks(calls, results) == [];
    } else {
      ResultBlocksIds(calls[1..], results[1..]);
      assert ResultBlocks(calls, results)[1..] == ResultBlocks(calls[1..], results[1..]);
    }
  }

  // A round's two messages answer each other exactly when its reply hides no raw tool block.
  lemma RoundPairing<S>(reply: Reply, e: Execution<S>)
    requires |e.inputs| == |e.results| == |CallsOf(reply)| && CallsOf(reply) != []
    ensures WellPaired(RoundMessages(reply, e)) <==> NoRawToolBlocks(reply)
    ensures OnlyResults(RoundMessages(reply, e)[1])
  {
    var ms := RoundMessages(reply, e);
    SerializedIds(reply, e.inputs);
    ResultBlocksIds(CallsOf(reply), e.results);
    assert Calls(ms[0]) == CallIds(Serialize(reply, e.inputs)) && Results(ms[1]) == IdsOf(CallsOf(reply));
    if NoRawToolBlocks(reply) {
      forall i: nat | i < |ms| ensures AnsweredAt(ms, i) && AnchoredAt(ms, i) {}
    }
    if WellPaired(ms) {
      assert AnsweredAt(ms, 0) && AnchoredAt(ms, 0);
    }
  }

  lemma LastReplyPairing(reply: Reply)
    requires CallsOf(reply) == []
    ensures WellPaired([AssistantMessage(reply, [])]) <==> NoRawToolBlocks(reply)
  {
    var ms := [AssistantMessage(reply, [])];
    SerializedIds(reply, []);
    assert Calls(ms[0]) == CallIds(Serialize(reply, []));
    if WellPaired(ms) { assert AnsweredAt(ms, 0) && AnchoredAt(ms, 0); }
  }

  lemma OnlyResultsMakeNoCalls(blocks: seq<Block>)
    requires forall b <- blocks :: b.ToolResult?
    ensures CallIds(blocks) == []
  {
    if blocks != [] {
      assert blocks[0] in blocks;
      OnlyResultsMakeNoCalls(blocks[1..]);
    }
  }

  lemma TextMakesNoCalls(text: string)
    ensures CallIds([TextBlock(text)]) == [] && ResultIds([TextBlock(text)]) == []
  {
    var blocks := [TextBlock(text)];
    assert blocks[1..] == [];
    assert CallIds(blocks) == [] + CallIds(blocks[1..]) && ResultIds(blocks) == [] + ResultIds(blocks[1..]);
  }

  // A paired transcript is paired up to the end of any round in it.
  lemma RoundEndsPaired(ms: seq<Message>, round: seq<Message>, rest: seq<Message>)
    requires WellPaired(ms + round + rest) && |round| == 2 && OnlyResults(round[1])
    ensures WellPaired(ms + round)
  {
    var all, front := ms + round + rest, ms + round;
    OnlyResultsMakeNoCalls(round[1].content.blocks);
    forall i: nat | i < |front| ensures AnsweredAt(front, i) && AnchoredAt(front, i) {
      assert AnsweredAt(all, i) && AnchoredAt(all, i);
    }
  }

  predicate AllClean(replies: seq<Reply>) {
    forall r <- replies :: NoRawToolBlocks(r)
  }

  lemma RoundStep<S>(ms: seq<Message>, reply: Reply, e: Execution<S>, o: Outcome<S>, replies: seq<Reply>, completed: bool)
    requires WellPaired(ms) && |e.inputs| == |e.results| == |CallsOf(reply)| && CallsOf(reply) != []
    requires ms + RoundMessages(reply, e) <= o.msgs
    requires NoRawToolBlocks(reply) ==> (WellPaired(o.msgs) <==> AllClean(replies) && completed)
    ensures WellPaired(o.msgs) <==> AllClean([reply] + replies) && completed
  {
    var round := RoundMessages(reply, e);
    RoundPairing(reply, e);
    if WellPaired(o.msgs) {
      var rest := o.msgs[|ms| + 2..];
      assert o.msgs == ms + round + rest;
      RoundEndsPaired(ms, round, rest);
      WellPairedSplit(ms, round);
    }
    if AllClean([reply] + replies) { assert reply in [reply] + replies; forall r <- replies ensures NoRawToolBlocks(r) { assert r in [reply] + replies; } }
  }

  // ---- What makes a run raise ----

  predicate AllObjects(inputs: seq<Json>) {
    forall j <- inputs :: j.JObject?
  }

  // Executing a reply's calls raises exactly when some input, as the tools left it, is no
  // dictionary.
  lemma {:induction false} ExecuteRaises<S>(env: Env<S>, s: S, calls: seq<Call>, last: map<string, Json>)
    ensures var e := Execute(env, s, calls, last); e.raised <==> !AllObjects(e.inputs)
  {
    if calls != [] {
      var step := env.tool(s, calls[0].name, calls[0].input);
      if step.input.JObject? {
        var last' := LastInput(calls[0].name, step.input.fields);
        ExecuteRaises(env, step.state, calls[1..], last');
        FirstObject(step.input, Execute(env, step.state, calls[1..], last').inputs);
      } else {
        FirstObject(step.input, InputsOf(calls[1..]));
      }
    }
  }

  lemma FirstObject(first: Json, rest: seq<Json>)
    ensures AllObjects([first] + rest) <==> first.JObject? && AllObjects(rest)
  {
    assert ([first] + rest)[0] == first && ([first] + rest)[1..] == rest;
  }

  lemma BothObjects(a: seq<Json>, b: seq<Json>)
    ensures AllObjects(a + b) <==> AllObjects(a) && AllObjects(b)
  {
    forall j ensures j in a + b <==> j in a || j in b {}
  }

  // The inputs of every call the run came to, as the tools left them.
  function LeftInputs<S>(env: Env<S>, ms: seq<Message>, s: S, last: map<string, Json>, round: nat): seq<Json>
    decreases env.limit - round
  {
    if round >= env.limit || env.model(ms).None? || CallsOf(env.model(ms).value) == [] then []
    else
      var reply := env.model(ms).value;
      var e := Execute(env, s, CallsOf(reply), last);
      if e.raised then e.inputs
      else e.inputs + LeftInputs(env, ms + RoundMessages(reply, e), e.state, e.last, round + 1)
  }

  lemma {:induction false} LoopRaises<S>(env: Env<S>, ms: seq<Message>, s: S, last: map<string, Json>, round: nat)
    ensures Loop(env, ms, s, last, round).raised <==>
            || !AllObjects(LeftInputs(env, ms, s, last, round))
            || exists p <- Prompts(env, ms, s, last, round) :: env.model(p).None?
    decreases env.limit - round
  {
    if round < env.limit {
      assert ms in [ms];
      if env.model(ms).Some? && CallsOf(env.model(ms).value) != [] {
        var reply := env.model(ms).value;
        var e := Execute(env, s, CallsOf(reply), last);
        ExecuteRaises(env, s, CallsOf(reply), last);
        if !e.raised {
          var after := ms + RoundMessages(reply, e);
          LoopRaises(env, after, e.state, e.last, round + 1);
          BothObjects(e.inputs, LeftInputs(env, after, e.state, e.last, round + 1));
          var later := Prompts(env, after, e.state, e.last, round + 1);
          forall p ensures p in [ms] + later <==> p == ms || p in later {}
        }
      }
    }
  }

  function RunInputs<S>(env: Env<S>, ms: seq<Message>, s: S): seq<Json> {
    if Refused(env, ms) then [] else LeftInputs(env, ms, s, map[], 0)
  }

  function RunPrompts<S>(env: Env<S>, ms: seq<Message>, s: S): seq<seq<Message>> {
    if Refused(env, ms) then [] else Prompts(env, ms, s, map[], 0)
  }

  // A run raises exactly when an input is no dictionary or the model gives no answer.
  lemma RunRaisesExactlyWhen<S>(env: Env<S>, ms: seq<Message>, s: S)
    ensures RunSpec(env, ms, s).raised <==>
            !AllObjects(RunInputs(env, ms, s)) || exists p <- RunPrompts(env, ms, s) :: env.model(p).None?
  {
    if !Refused(env, ms) { LoopRaises(env, ms, s, map[], 0); }
  }

  // It does happen: arguments that parse to a list, left so by the tool, raise at once.
  lemma ListArgumentsRaise<S>(env: Env<S>, ms: seq<Message>, s: S)
    requires env.limit > 0 && !Refused(env, ms) && env.model(ms).Some? && CallsOf(env.model(ms).value) != []
    requires var call := CallsOf(env.model(ms).value)[0]; env.tool(s, call.name, call.input).input.JArray?
    ensures RunSpec(env, ms, s).raised && !WellPaired(RunSpec(env, ms, s).msgs)
  {
    var reply := env.model(ms).value;
    BrokenRoundUnpaired(ms, reply, Execute(env, s, CallsOf(reply), map[]).inputs);
  }

  lemma BrokenRoundUnpaired(ms: seq<Message>, reply: Reply, inputs: seq<Json>)
    requires |inputs| == |CallsOf(reply)| && CallsOf(reply) != []
    ensures !WellPaired(ms + [AssistantMessage(reply, inputs)])
  {
    SerializedIds(reply, inputs);
    var all := ms + [AssistantMessage(reply, inputs)];
    assert Calls(all[|ms|]) == CallIds(Serialize(reply, inputs));
    assert !AnsweredAt(all, |ms|);
  }

  lemma {:induction false} LoopPairing<S>(env: Env<S>, ms: seq<Message>, s: S, last: map<string, Json>, round: nat)
    requires round <= env.limit && WellPaired(ms)
    ensures var o := Loop(env, ms, s, last, round);
            WellPaired(o.msgs) <==> AllClean(o.replies) && AllObjects(LeftInputs(env, ms, s, last, round))
    decreases env.limit - round
  {
    if round < env.limit && env.model(ms).Some? {
      var reply := env.model(ms).value;
      var calls := CallsOf(reply);
      var e := Execute(env, s, calls, last);
      if calls == [] {
        LastReplyPairing(reply);
        WellPairedEither(ms, [AssistantMessage(reply, [])]);
      } else {
        ExecuteRaises(env, s, calls, last);
        if e.raised { BrokenRoundUnpaired(ms, reply, e.inputs); } else { RoundsPairing(env, ms, s, last, round); }
      }
    }
  }

  // A round that completes, and the rounds after it.
  lemma {:induction false} RoundsPairing<S>(env: Env<S>, ms: seq<Message>, s: S, last: map<string, Json>, round: nat)
    requires round < env.limit && WellPaired(ms) && env.model(ms).Some? && CallsOf(env.model(ms).value) != []
    requires !Execute(env, s, CallsOf(env.model(ms).value), last).raised
    ensures var o := Loop(env, ms, s, last, round);
            WellPaired(o.msgs) <==> AllClean(o.replies) && AllObjects(LeftInputs(env, ms, s, last, round))
    decreases env.limit - round, 0
  {
    var reply := env.model(ms).value;
    var e := Execute(env, s, CallsOf(reply), last);
    var after := ms + RoundMessages(reply, e);
    var later := Loop(env, after, e.state, e.last, round + 1);
    var inputs := LeftInputs(env, after, e.state, e.last, round + 1);
    ExecuteRaises(env, s, CallsOf(reply), last);
    BothObjects(e.inputs, inputs);
    RoundPairing(reply, e);
    LoopGrowth(env, after, e.state, e.last, round + 1);
    if NoRawToolBlocks(reply) {
      WellPairedAppend(ms, RoundMessages(reply, e));
      LoopPairing(env, after, e.state, e.last, round + 1);
    }
    RoundStep(ms, reply, e, Loop(env, ms, s, last, round), later.replies, AllObjects(inputs));
  }

  lemma WellPairedEither(ms: seq<Message>, more: seq<Message>)
    requires WellPaired(ms)
    ensures WellPaired(ms + more) <==> WellPaired(more)
  {
    if WellPaired(more) { WellPairedAppend(ms, more); }
    if WellPaired(ms + more) { WellPairedSplit(ms, more); }
  }

  // For any model and tools: a run, whether it returns or raises, leaves a paired transcript
  // paired exactly when no reply hid a bare dictionary of a tool block among its typed ones
  // and every input is left a dictionary.
  lemma RunPairing<S>(env: Env<S>, ms: seq<Message>, s: S)
    requires WellPaired(ms)
    ensures var o := RunSpec(env, ms, s);
            WellPaired(o.msgs) <==> AllClean(o.replies) && AllObjects(RunInputs(env, ms, s))
  {
    if Refused(env, ms) {
      var more := [RefusalMessage(env)];
      TextMakesNoCalls(env.refusal);
      assert Calls(more[0]) == [] && Results(more[0]) == [];
      assert WellPaired(more);
      WellPairedAppend(ms, more);
    } else {
      LoopPairing(env, ms, s, map[], 0);
    }
  }

  // The condition is met by every reply of typed blocks only, and its failure is real: one
  // bare dictionary leaves a call that nobody answers.
  lemma RawCallStaysUnanswered<S>(env: Env<S>, ms: seq<Message>, s: S, raw: Block)
    requires raw.ToolUse? && env.limit > 0 && !Refused(env, ms) && WellPaired(ms)
    requires env.model(ms) == Some([RawDict(raw)])
    ensures var o := RunSpec(env, ms, s);
            !o.raised && o.executed == [] && o.msgs == ms + [Message(Assistant, Blocks([raw]))] && !WellPaired(o.msgs)
  {
    var reply: Reply := [RawDict(raw)];
    assert reply[1..] == [] && CallsOf(reply) == [] + CallsOf(reply[1..]);
    SerializeUnfolds(reply, []);
    assert Serialize(reply, []) == [raw];
    RunPairing(env, ms, s);
    RunRaisesExactlyWhen(env, ms, s);
    assert reply[0] in reply && !NoRawToolBlocks(reply);
    assert reply in RunSpec(env, ms, s).replies;
  }

  // ---- What the model is shown ----

  // The transcripts handed to the model, call by call.
  function Prompts<S>(env: Env<S>, ms: seq<Message>, s: S, last: map<string, Json>, round: nat): seq<seq<Message>>
    decreases env.limit - round
  {
    if round >= env.limit then []
    else if env.model(ms).None? || CallsOf(env.model(ms).value) == [] then [ms]
    else
      var reply := env.model(ms).value;
      var e := Execute(env, s, CallsOf(reply), last);
      if e.raised then [ms] else [ms] + Prompts(env, ms + RoundMessages(reply, e), e.state, e.last, round + 1)
  }

  // Within a run too, even one that goes on to raise, the model only sees paired transcripts.
  lemma {:induction false} PromptsArePaired<S>(env: Env<S>, ms: seq<Message>, s: S, last: map<string, Json>, round: nat)
    requires WellPaired(ms) && AllClean(Loop(env, ms, s, last, round).replies)
    ensures forall p <- Prompts(env, ms, s, last, round) :: WellPaired(p)
    decreases env.limit - round
  {
    if round < env.limit && env.model(ms).Some? && CallsOf(env.model(ms).value) != [] {
      var reply := env.model(ms).value;
      var e := Execute(env, s, CallsOf(reply), last);
      if !e.raised {
        var o := Loop(env, ms, s, last, round);
        var rest := Loop(env, ms + RoundMessages(reply, e), e.state, e.last, round + 1);
        assert o.replies[0] == reply && o.replies[1..] == rest.replies;
        RoundPairing(reply, e);
        WellPairedAppend(ms, RoundMessages(reply, e));
        PromptsArePaired(env, ms + RoundMessages(reply, e), e.state, e.last, round + 1);
      }
    }
  }

  // ---- What no run of typed replies can do ----

  lemma {:induction false} TypedRepliesAreClean<S>(env: Env<S>, ms: seq<Message>, s: S, last: map<string, Json>, round: nat)
    requires forall p :: env.model(p).Some? ==> NoRawToolBlocks(env.model(p).value)
    ensures AllClean(Loop(env, ms, s, last, round).replies)
    decreases env.limit - round
  {
    if round < env.limit && env.model(ms).Some? && CallsOf(env.model(ms).value) != [] {
      var reply := env.model(ms).value;
      var e := Execute(env, s, CallsOf(reply), last);
      if !e.raised { TypedRepliesAreClean(env, ms + RoundMessages(reply, e), e.state, e.last, round + 1); }
    }
  }

  // Whatever a run adds is in blocks.
  lemma {:induction false} LoopAddsBlocks<S>(env: Env<S>, ms: seq<Message>, s: S, last: map<string, Json>, round: nat, i: nat)
    requires |ms| <= i < |Loop(env, ms, s, last, round).msgs|
    ensures Loop(env, ms, s, last, round).msgs[i].content.Blocks?
    decreases env.limit - round
  {
    if round < env.limit && env.model(ms).Some? && CallsOf(env.model(ms).value) != [] {
      var reply := env.model(ms).value;
      var e := Execute(env, s, CallsOf(reply), last);
      if !e.raised {
        var after := ms + RoundMessages(reply, e);
        LoopGrowth(env, after, e.state, e.last, round + 1);
        if i < |after| {
          assert Loop(env, ms, s, last, round).msgs[i] == after[i];
        } else {
          LoopAddsBlocks(env, after, e.state, e.last, round + 1, i);
        }
      }
    }
  }

  lemma RunAddsBlocks<S>(env: Env<S>, ms: seq<Message>, s: S, i: nat)
    requires |ms| <= i < |RunSpec(env, ms, s).msgs|
    ensures RunSpec(env, ms, s).msgs[i].content.Blocks?
  {
    if !Refused(env, ms) { LoopAddsBlocks(env, ms, s, map[], 0, i); }
  }

  // ---- The stream against the plain run ----

  // A loop leaves the transcript as it is only for want of a round or of an answer.
  lemma LoopMoves<S>(env: Env<S>, ms: seq<Message>, s: S, last: map<string, Json>, round: nat)
    ensures Loop(env, ms, s, last, round).msgs == ms <==> round >= env.limit || env.model(ms).None?
  {
    if round < env.limit && env.model(ms).Some? && CallsOf(env.model(ms).value) != [] {
      var e := Execute(env, s, CallsOf(env.model(ms).value), last);
      if !e.raised {
        LoopGrowth(env, ms + RoundMessages(env.model(ms).value, e), e.state, e.last, round + 1);
      }
    }
  }

  // How the stream `o` and the run `p` compare from a common point on.
  ghost predicate Shadows<S>(env: Env<S>, ms: seq<Message>, round: nat, o: Outcome<S>, p: Outcome<S>) {
    && ms <= o.msgs <= p.msgs
    && (o.stopped ==> !o.raised)
    && (o.msgs == p.msgs <==> !(o.stopped && round + |o.replies| < env.limit && env.model(o.msgs).Some?))
    && (!o.stopped ==> SameEnd(o, p) && o.replies == p.replies && o.executed == p.executed)
  }

  // One more round in front of both.
  lemma ShadowsEarlier<S>(env: Env<S>, ms: seq<Message>, after: seq<Message>, round: nat, reply: Reply, done: seq<Executed>,
                          o: Outcome<S>, p: Outcome<S>, o': Outcome<S>, p': Outcome<S>)
    requires ms <= after && Shadows(env, after, round + 1, o', p')
    requires SameEnd(o, o') && SameEnd(p, p') && o.stopped == o'.stopped
    requires o.replies == [reply] + o'.replies && p.replies == [reply] + p'.replies
    requires o.executed == done + o'.executed && p.executed == done + p'.executed
    ensures Shadows(env, ms, round, o, p)
  {
  }

  lemma {:induction false} StreamAgainstLoop<S>(env: Env<S>, ms: seq<Message>, s: S, last: map<string, Json>, round: nat)
    requires round <= env.limit
    ensures Shadows(env, ms, round, StreamLoop(env, ms, s, last, round), Loop(env, ms, s, last, round))
    decreases env.limit - round
  {
    if round < env.limit && env.model(ms).Some? && CallsOf(env.model(ms).value) != [] {
      var reply := env.model(ms).value;
      var calls := CallsOf(reply);
      var e := Execute(env, s, calls, last);
      if !e.raised {
        var after := ms + RoundMessages(reply, e);
        var o, p := StreamLoop(env, ms, s, last, round), Loop(env, ms, s, last, round);
        var p' := Loop(env, after, e.state, e.last, round + 1);
        assert p.msgs == p'.msgs;
        if Stops(calls) {
          LoopMoves(env, after, e.state, e.last, round + 1);
          LoopGrowth(env, after, e.state, e.last, round + 1);
        } else {
          StreamAgainstLoop(env, after, e.state, e.last, round + 1);
          ShadowsEarlier(env, ms, after, round, reply, ExecutedCalls(calls, e.results), o, p,
                         StreamLoop(env, after, e.state, e.last, round + 1), p');
        }
      }
    }
  }

  // With the same model and tools the stream's transcript is a prefix of the plain run's,
  // and equal unless it stopped early while a further round was still to come.
  lemma StreamIsPrefixOfRun<S>(env: Env<S>, ms: seq<Message>, s: S)
    ensures var o, p := StreamSpec(env, ms, s), RunSpec(env, ms, s);
            && o.msgs <= p.msgs
            && (o.msgs == p.msgs <==> !(o.stopped && |o.replies| < env.limit && env.model(o.msgs).Some?))
            && (!o.stopped ==> SameEnd(o, p))
  {
    if !Refused(env, ms) { StreamAgainstLoop(env, ms, s, map[], 0); }
  }

  predicate IsStopName(name: string) {
    name == "ask_clarification" || name == "generate_prd"
  }

  lemma {:induction false} StopsByName(calls: seq<Call>, results: seq<string>)
    requires |calls| == |results|
    ensures Stops(calls) <==> exists x <- ExecutedCalls(calls, results) :: IsStopName(x.name)
  {
    if calls != [] {
      StopsByName(calls[1..], results[1..]);
      var done := ExecutedCalls(calls, results);
      assert done == [done[0]] + ExecutedCalls(calls[1..], results[1..]);
    }
  }

  // A stream stops early exactly when it has executed one of the two stopping tools.
  lemma {:induction false} StoppedMeansAsked<S>(env: Env<S>, ms: seq<Message>, s: S, last: map<string, Json>, round: nat)
    ensures var o := StreamLoop(env, ms, s, last, round);
            o.stopped <==> !o.raised && exists x <- o.executed :: IsStopName(x.name)
    decreases env.limit - round
  {
    if round < env.limit && env.model(ms).Some? && CallsOf(env.model(ms).value) != [] {
      var reply := env.model(ms).value;
      var e := Execute(env, s, CallsOf(reply), last);
      if !e.raised {
        StopsByName(CallsOf(reply), e.results);
        var done := ExecutedCalls(CallsOf(reply), e.results);
        var rest := StreamLoop(env, ms + RoundMessages(reply, e), e.state, e.last, round + 1);
        if !Stops(CallsOf(reply)) {
          StoppedMeansAsked(env, ms + RoundMessages(reply, e), e.state, e.last, round + 1);
          forall x ensures x in done + rest.executed <==> x in done || x in rest.executed {}
          assert StreamLoop(env, ms, s, last, round).executed == done + rest.executed;
        }
      }
    }
  }

  // Without those tools the two runs are one.
  lemma StreamEqualsRunWithoutStops<S>(env: Env<S>, ms: seq<Message>, s: S)
    requires forall x <- StreamSpec(env, ms, s).executed :: !IsStopName(x.name)
    ensures SameEnd(StreamSpec(env, ms, s), RunSpec(env, ms, s))
  {
    if !Refused(env, ms) {
      StoppedMeansAsked(env, ms, s, map[], 0);
      StreamAgainstLoop(env, ms, s, map[], 0);
    }
  }

  // ---- Events ----

  function ToolEvents(events: seq<Event>): seq<Event> {
    if events == [] then []
    else (if events[0].ToolCallEvent? || events[0].ToolResultEvent? then [events[0]] else []) + ToolEvents(events[1..])
  }

  lemma {:induction false} ToolEventsAppend(a: seq<Event>, b: seq<Event>)
    ensures ToolEvents(a + b) == ToolEvents(a) + ToolEvents(b)
  {
    if a == [] {
      assert a + b == b;
    } else {
      assert (a + b)[1..] == a[1..] + b;
      ToolEventsAppend(a[1..], b);
      var own := if a[0].ToolCallEvent? || a[0].ToolResultEvent? then [a[0]] else [];
      assert ToolEvents(a) == own + ToolEvents(a[1..]) && ToolEvents(a + b) == own + ToolEvents(a[1..] + b);
      assert own + (ToolEvents(a[1..]) + ToolEvents(b)) == own + ToolEvents(a[1..]) + ToolEvents(b);
    }
  }

  lemma {:induction false} CallEventsAppend<S>(env: Env<S>, a: seq<Executed>, b: seq<Executed>)
    ensures CallEvents(env, a + b) == CallEvents(env, a) + CallEvents(env, b)
  {
    if a == [] {
      assert a + b == b;
    } else {
      assert (a + b)[1..] == a[1..] + b;
      CallEventsAppend(env, a[1..], b);
      var first := [ToolCallEvent(env.display(a[0].name)), ToolResultEvent(Head(a[0].result))];
      assert CallEvents(env, a) == first + CallEvents(env, a[1..]);
      assert CallEvents(env, a + b) == first + CallEvents(env, a[1..] + b);
      assert first + (CallEvents(env, a[1..]) + CallEvents(env, b)) == first + CallEvents(env, a[1..]) + CallEvents(env, b);
    }
  }

  lemma {:induction false} CallEventsAreToolEvents<S>(env: Env<S>, a: seq<Executed>)
    ensures ToolEvents(CallEvents(env, a)) == CallEvents(env, a)
  {
    if a != [] {
      CallEventsAreToolEvents(env, a[1..]);
      var first := [ToolCallEvent(env.display(a[0].name)), ToolResultEvent(Head(a[0].result))];
      ToolEventsAppend(first, CallEvents(env, a[1..]));
      assert first[1..] == [first[1]] && first[1..][1..] == [];
      assert ToolEvents(first) == [first[0]] + ToolEvents(first[1..]);
    }
  }

  lemma {:induction false} ReplyTextsAreTexts(reply: Reply)
    ensures ToolEvents(ReplyTexts(reply)) == []
  {
    if reply != [] {
      ReplyTextsAreTexts(reply[1..]);
      assert ReplyTexts(reply) == ReplyTexts([reply[0]]) + ReplyTexts(reply[1..]) by { assert [reply[0]][1..] == []; }
      ToolEventsAppend(ReplyTexts([reply[0]]), ReplyTexts(reply[1..]));
    }
  }

  lemma RoundEvents<S>(env: Env<S>, round: nat, reply: Reply, done: seq<Executed>)
    ensures ToolEvents([Thinking(round)] + ReplyTexts(reply)) == []
    ensures ToolEvents([Thinking(round)] + ReplyTexts(reply) + CallEvents(env, done)) == CallEvents(env, done)
  {
    ReplyTextsAreTexts(reply);
    assert [Thinking(round)][1..] == [];
    ToolEventsAppend([Thinking(round)], ReplyTexts(reply));
    ToolEventsAppend([Thinking(round)] + ReplyTexts(reply), CallEvents(env, done));
    CallEventsAreToolEvents(env, done);
  }

  // The name of the call that breaks the stream off, its input being no dictionary.
  function BreaksAt<S>(env: Env<S>, ms: seq<Message>, s: S, last: map<string, Json>, round: nat): Option<string>
    decreases env.limit - round
  {
    if round >= env.limit || env.model(ms).None? then None
    else
      var reply := env.model(ms).value;
      var calls := CallsOf(reply);
      var e := Execute(env, s, calls, last);
      if e.raised then Some(calls[|e.results|].name)
      else if calls == [] || Stops(calls) then None
      else BreaksAt(env, ms + RoundMessages(reply, e), e.state, e.last, round + 1)
  }

  // The announcement that no result follows.
  function Unanswered<S>(env: Env<S>, name: Option<string>): seq<Event> {
    if name.Some? then [ToolCallEvent(env.display(name.value))] else []
  }

  lemma BrokenRoundEvents<S>(env: Env<S>, round: nat, reply: Reply, results: seq<string>)
    requires |results| < |CallsOf(reply)|
    ensures var calls := CallsOf(reply);
            var done := ExecutedCalls(calls[..|results|], results);
            ToolEvents([Thinking(round)] + ReplyTexts(reply) + BrokenOffEvents(env, calls, results))
            == CallEvents(env, done) + Unanswered(env, Some(calls[|results|].name))
  {
    var calls := CallsOf(reply);
    var done := ExecutedCalls(calls[..|results|], results);
    var opening, last := [Thinking(round)] + ReplyTexts(reply), [ToolCallEvent(env.display(calls[|results|].name))];
    RoundEvents(env, round, reply, done);
    ToolEventsAppend(opening + CallEvents(env, done), last);
    assert last[1..] == [] && ToolEvents(last) == last;
    Regroup(opening, CallEvents(env, done), last);
  }

  lemma StoppedRoundEvents<S>(env: Env<S>, round: nat, reply: Reply, done: seq<Executed>, inputs: seq<Json>)
    requires |inputs| == |CallsOf(reply)| && Stops(CallsOf(reply))
    ensures ToolEvents([Thinking(round)] + ReplyTexts(reply) + CallEvents(env, done) + StopEvents(CallsOf(reply), inputs))
            == CallEvents(env, done)
  {
    var tail := StopEvents(CallsOf(reply), inputs);
    assert tail == [] || tail[1..] == [];
    assert ToolEvents(tail) == [];
    RoundEvents(env, round, reply, done);
    ToolEventsAppend([Thinking(round)] + ReplyTexts(reply) + CallEvents(env, done), tail);
  }

  lemma LaterEvents<S>(env: Env<S>, heard: seq<Event>, done: seq<Executed>, rest: Outcome<S>, name: Option<string>)
    requires ToolEvents(heard) == CallEvents(env, done)
    requires ToolEvents(rest.events) == CallEvents(env, rest.executed) + Unanswered(env, name)
    ensures ToolEvents(heard + rest.events) == CallEvents(env, done + rest.executed) + Unanswered(env, name)
  {
    ToolEventsAppend(heard, rest.events);
    CallEventsAppend(env, done, rest.executed);
    Regroup(CallEvents(env, done), CallEvents(env, rest.executed), Unanswered(env, name));
  }

  lemma {:induction false} LoopEvents<S>(env: Env<S>, ms: seq<Message>, s: S, last: map<string, Json>, round: nat)
    ensures var o := StreamLoop(env, ms, s, last, round);
            ToolEvents(o.events) == CallEvents(env, o.executed) + Unanswered(env, BreaksAt(env, ms, s, last, round))
    decreases env.limit - round
  {
    if round < env.limit {
      assert [Thinking(round + 1)][1..] == [];
      if env.model(ms).Some? {
        var reply := env.model(ms).value;
        var calls := CallsOf(reply);
        var e := Execute(env, s, calls, last);
        if e.raised {
          BrokenRoundEvents(env, round + 1, reply, e.results);
        } else if calls == [] {
          RoundEvents(env, round + 1, reply, []);
        } else {
          var done := ExecutedCalls(calls, e.results);
          if Stops(calls) {
            StoppedRoundEvents(env, round + 1, reply, done, e.inputs);
          } else {
            var after := ms + RoundMessages(reply, e);
            RoundEvents(env, round + 1, reply, done);
            LoopEvents(env, after, e.state, e.last, round + 1);
            LaterEvents(env, [Thinking(round + 1)] + ReplyTexts(reply) + CallEvents(env, done), done,
                        StreamLoop(env, after, e.state, e.last, round + 1), BreaksAt(env, after, e.state, e.last, round + 1));
          }
        }
      }
    }
  }

  function StreamBreaksAt<S>(env: Env<S>, ms: seq<Message>, s: S): Option<string> {
    if Refused(env, ms) then None else BreaksAt(env, ms, s, map[], 0)
  }

  // Every executed call is announced once, and its result follows at once, in call order;
  // only the call whose input breaks the stream off is announced without a result.
  lemma EachCallHasItsTwoEvents<S>(env: Env<S>, ms: seq<Message>, s: S)
    ensures var o := StreamSpec(env, ms, s);
            ToolEvents(o.events) == CallEvents(env, o.executed) + Unanswered(env, StreamBreaksAt(env, ms, s))
    ensures StreamBreaksAt(env, ms, s).Some? ==> StreamSpec(env, ms, s).raised
  {
    if Refused(env, ms) {
      assert ToolEvents([Understanding, ErrorEvent(env.refusal)]) == ToolEvents([ErrorEvent(env.refusal)]) == [];
    } else {
      var o := StreamLoop(env, ms, s, map[], 0);
      LoopEvents(env, ms, s, map[], 0);
      BreakRaises(env, ms, s, map[], 0);
      FramedEvents(o.events, if o.raised then [] else [DoneEvent(o.last)]);
    }
  }

  lemma FramedEvents(events: seq<Event>, end: seq<Event>)
    requires end == [] || (|end| == 1 && end[0].DoneEvent?)
    ensures ToolEvents([Understanding] + events + end) == ToolEvents(events)
  {
    ToolEventsAppend([Understanding] + events, end);
    ToolEventsAppend([Understanding], events);
    assert end == [] || end[1..] == [];
  }

  lemma {:induction false} BreakRaises<S>(env: Env<S>, ms: seq<Message>, s: S, last: map<string, Json>, round: nat)
    ensures BreaksAt(env, ms, s, last, round).Some? ==> StreamLoop(env, ms, s, last, round).raised
    decreases env.limit - round
  {
    if round < env.limit && env.model(ms).Some? && CallsOf(env.model(ms).value) != [] {
      var reply := env.model(ms).value;
      var e := Execute(env, s, CallsOf(reply), last);
      if !e.raised && !Stops(CallsOf(reply)) {
        BreakRaises(env, ms + RoundMessages(reply, e), e.state, e.last, round + 1);
      }
    }
  }

  // ---- The executed calls are the stored results ----

  // The results that user messages hold.
  function StoredResults(ms: seq<Message>): seq<Block> {
    if ms == [] then [] else (if ms[0].role == User then ResultsIn(BlocksOf(ms[0])) else []) + StoredResults(ms[1..])
  }

  function ResultsIn(blocks: seq<Block>): seq<Block> {
    if blocks == [] then []
    else (if blocks[0].ToolResult? then [blocks[0]] else []) + ResultsIn(blocks[1..])
  }

  function ResultsOf(done: seq<Executed>): seq<Block> {
    if done == [] then [] else [ToolResult(done[0].id, done[0].result)] + ResultsOf(done[1..])
  }

  lemma {:induction false} StoredResultsAppend(a: seq<Message>, b: seq<Message>)
    ensures StoredResults(a + b) == StoredResults(a) + StoredResults(b)
  {
    if a == [] {
      assert a + b == b;
    } else {
      assert (a + b)[1..] == a[1..] + b;
      StoredResultsAppend(a[1..], b);
    }
  }

  lemma {:induction false} ResultsOfAppend(a: seq<Executed>, b: seq<Executed>)
    ensures ResultsOf(a + b) == ResultsOf(a) + ResultsOf(b)
  {
    if a == [] {
      assert a + b == b;
    } else {
      assert (a + b)[1..] == a[1..] + b;
      ResultsOfAppend(a[1..], b);
    }
  }

  lemma {:induction false} ResultBlocksStored(calls: seq<Call>, results: seq<string>)
    requires |calls| == |results|
    ensures ResultsIn(ResultBlocks(calls, results)) == ResultsOf(ExecutedCalls(calls, results))
  {
    if calls != [] { ResultBlocksStored(calls[1..], results[1..]); }
  }

  lemma AssistantStoresNone(reply: Reply, inputs: seq<Json>)
    requires |inputs| == |CallsOf(reply)|
    ensures StoredResults([AssistantMessage(reply, inputs)]) == []
  {
    assert [AssistantMessage(reply, inputs)][1..] == [];
  }

  lemma RoundStores<S>(reply: Reply, e: Execution<S>)
    requires |e.inputs| == |e.results| == |CallsOf(reply)|
    ensures StoredResults(RoundMessages(reply, e)) == ResultsOf(ExecutedCalls(CallsOf(reply), e.results))
  {
    var question, answer := [AssistantMessage(reply, e.inputs)], [Message(User, Blocks(ResultBlocks(CallsOf(reply), e.results)))];
    AssistantStoresNone(reply, e.inputs);
    ResultBlocksStored(CallsOf(reply), e.results);
    assert answer[1..] == [];
    StoredResultsAppend(question, answer);
    assert RoundMessages(reply, e) == question + answer;
  }

  // The calls a run executed in a round it then broke off.
  function BrokenOff<S>(env: Env<S>, ms: seq<Message>, s: S, last: map<string, Json>, round: nat): seq<Executed>
    decreases env.limit - round
  {
    if round >= env.limit || env.model(ms).None? then []
    else
      var reply := env.model(ms).value;
      var calls := CallsOf(reply);
      var e := Execute(env, s, calls, last);
      if e.raised then ExecutedCalls(calls[..|e.results|], e.results)
      else if calls == [] then []
      else BrokenOff(env, ms + RoundMessages(reply, e), e.state, e.last, round + 1)
  }

  lemma LaterRoundStores(ms: seq<Message>, pair: seq<Message>, done: seq<Executed>, more: seq<Executed>, o: Outcome, lost: seq<Block>)
    requires StoredResults(pair) == ResultsOf(done)
    requires StoredResults(o.msgs) + lost == StoredResults(ms + pair) + ResultsOf(more)
    ensures StoredResults(o.msgs) + lost == StoredResults(ms) + ResultsOf(done + more)
  {
    StoredResultsAppend(ms, pair);
    ResultsOfAppend(done, more);
    Regroup(StoredResults(ms), ResultsOf(done), ResultsOf(more));
  }

  lemma {:induction false} LoopStoresResults<S>(env: Env<S>, ms: seq<Message>, s: S, last: map<string, Json>, round: nat)
    ensures var o := Loop(env, ms, s, last, round);
            StoredResults(o.msgs) + ResultsOf(BrokenOff(env, ms, s, last, round)) == StoredResults(ms) + ResultsOf(o.executed)
    decreases env.limit - round
  {
    if round < env.limit && env.model(ms).Some? {
      var reply := env.model(ms).value;
      var calls := CallsOf(reply);
      var e := Execute(env, s, calls, last);
      if calls == [] || e.raised {
        AssistantStoresNone(reply, e.inputs);
        StoredResultsAppend(ms, [AssistantMessage(reply, e.inputs)]);
      } else {
        var pair, done := RoundMessages(reply, e), ExecutedCalls(calls, e.results);
        var rest := Loop(env, ms + pair, e.state, e.last, round + 1);
        LoopStoresResults(env, ms + pair, e.state, e.last, round + 1);
        RoundStores(reply, e);
        LaterRoundStores(ms, pair, done, rest.executed, rest, ResultsOf(BrokenOff(env, ms + pair, e.state, e.last, round + 1)));
      }
    }
  }

  function RunBrokenOff<S>(env: Env<S>, ms: seq<Message>, s: S): seq<Executed> {
    if Refused(env, ms) then [] else BrokenOff(env, ms, s, map[], 0)
  }

  // The results a run adds to the transcript's user messages are those of the calls it
  // executed, in order, but for a round that an input broke off, whose results are dropped.
  lemma RunStoresResults<S>(env: Env<S>, ms: seq<Message>, s: S)
    ensures var o := RunSpec(env, ms, s);
            StoredResults(o.msgs) + ResultsOf(RunBrokenOff(env, ms, s)) == StoredResults(ms) + ResultsOf(o.executed)
    ensures AllObjects(RunInputs(env, ms, s)) ==> RunBrokenOff(env, ms, s) == []
  {
    if Refused(env, ms) {
      StoredResultsAppend(ms, [RefusalMessage(env)]);
      assert [RefusalMessage(env)][1..] == [];
    } else {
      LoopStoresResults(env, ms, s, map[], 0);
      NothingBrokenOff(env, ms, s, map[], 0);
    }
  }

  lemma {:induction false} NothingBrokenOff<S>(env: Env<S>, ms: seq<Message>, s: S, last: map<string, Json>, round: nat)
    ensures AllObjects(LeftInputs(env, ms, s, last, round)) ==> BrokenOff(env, ms, s, last, round) == []
    decreases env.limit - round
  {
    if round < env.limit && env.model(ms).Some? {
      var reply := env.model(ms).value;
      var e := Execute(env, s, CallsOf(reply), last);
      ExecuteRaises(env, s, CallsOf(reply), last);
      if !e.raised && CallsOf(reply) != [] {
        NothingBrokenOff(env, ms + RoundMessages(reply, e), e.state, e.last, round + 1);
        BothObjects(e.inputs, LeftInputs(env, ms + RoundMessages(reply, e), e.state, e.last, round + 1));
      }
    }
  }
}
