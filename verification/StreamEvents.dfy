// What a stream is heard to say: round by round and, for the tools, position by position.
module StreamEvents {
  import opened Prelude
  import opened Transcripts
  import opened AgentLoop
  import opened AgentRuns
  import opened AgentTranscript

  // ---- One round ----

  // A block that is said aloud, and its event.
  predicate Speaks(b: ReplyBlock) {
    b.ObjText? && !IsBlank(b.text)
  }

  function Said(b: ReplyBlock): Event {
    TextEvent(if b.ObjText? then JString(b.text) else JNull)
  }

  // The first two hundred characters, or all of a shorter text.
  predicate IsHead(head: string, text: string) {
    head <= text && |head| == if |text| <= 200 then |text| else 200
  }

  // One executed call: its announcement, then its result.
  predicate ShowsCall<S>(env: Env<S>, x: Executed, announced: Event, answered: Event) {
    announced == ToolCallEvent(env.display(x.name)) && answered.ToolResultEvent? && IsHead(answered.head, x.result)
  }

  ghost predicate ShowsCalls<S>(env: Env<S>, done: seq<Executed>, tools: seq<Event>) {
    |tools| == 2 * |done| && forall i | 0 <= i < |done| :: ShowsCall(env, done[i], tools[2 * i], tools[2 * i + 1])
  }

  // Thinking, then what the reply says, then what its executed calls show.
  ghost predicate RoundHeard<S>(env: Env<S>, reply: Reply, done: seq<Executed>, round: nat, events: seq<Event>) {
    exists tools :: ShowsCalls(env, done, tools) && events == [Thinking(round)] + Picked(reply, Speaks, Said) + tools
  }

  lemma {:induction false} TextsAreSaid(reply: Reply)
    ensures ReplyTexts(reply) == Picked(reply, Speaks, Said)
  {
    if reply != [] {
      TextsAreSaid(reply[1..]);
      PickedFirst(reply, Speaks, Said);
    }
  }

  lemma {:induction false} CallsAreShown<S>(env: Env<S>, done: seq<Executed>)
    ensures ShowsCalls(env, done, CallEvents(env, done))
  {
    if done != [] {
      CallsAreShown(env, done[1..]);
      var later, tools := CallEvents(env, done[1..]), CallEvents(env, done);
      forall i | 0 <= i < |done| ensures ShowsCall(env, done[i], tools[2 * i], tools[2 * i + 1]) {
        if i > 0 {
          assert ShowsCall(env, done[1..][i - 1], later[2 * (i - 1)], later[2 * (i - 1) + 1]);
        }
      }
    }
  }

  lemma RoundIsHeard<S>(env: Env<S>, reply: Reply, done: seq<Executed>, round: nat)
    ensures RoundHeard(env, reply, done, round, [Thinking(round)] + ReplyTexts(reply) + CallEvents(env, done))
  {
    TextsAreSaid(reply);
    CallsAreShown(env, done);
  }

  // ---- The whole stream ----

  // The calls of the first reply that were executed.
  function OwnCalls(reply: Reply, executed: seq<Executed>): nat {
    if CallCount(reply) <= |executed| then CallCount(reply) else |executed|
  }

  // Round after round, and the ending after the last.
  ghost predicate Heard<S>(env: Env<S>, replies: seq<Reply>, executed: seq<Executed>, round: nat, events: seq<Event>, ending: seq<Event>)
    decreases |replies|
  {
    if replies == [] then executed == [] && events == ending
    else exists mine, rest :: HeardFirst(env, replies, executed, round, events, mine, rest)
                              && Heard(env, replies[1..], executed[OwnCalls(replies[0], executed)..], round + 1, rest, ending)
  }

  ghost predicate HeardFirst<S>(env: Env<S>, replies: seq<Reply>, executed: seq<Executed>, round: nat,
                                events: seq<Event>, mine: seq<Event>, rest: seq<Event>)
    requires replies != []
  {
    && events == mine + rest
    && RoundHeard(env, replies[0], executed[..OwnCalls(replies[0], executed)], round, mine)
  }

  // What a stop says: the clarification's message, if it has one, or the fixed text.
  ghost predicate StopSays<S>(env: Env<S>, s: S, replies: seq<Reply>, ending: seq<Event>) {
    && replies != []
    && var calls, first := AllCalls(replies), CallsBefore(replies, |replies| - 1);
       if NoneAsked(calls, first) then ending == [TextEvent(JString(PRD_READY))]
       else exists k: nat :: AskSays(env, s, calls, first, k, ending)
  }

  ghost predicate AskSays<S>(env: Env<S>, s: S, calls: seq<Call>, first: nat, k: nat, ending: seq<Event>) {
    FirstAsked(calls, first, k) && ending == MessageOf(InputLeft(env, s, calls, k))
  }

  ghost predicate NoneAsked(calls: seq<Call>, first: nat) {
    forall k: nat :: !FirstAsked(calls, first, k)
  }

  // The first call of the last reply that asks for a clarification.
  ghost predicate FirstAsked(calls: seq<Call>, first: nat, k: nat) {
    && first <= k < |calls| && calls[k].name == "ask_clarification"
    && forall i | first <= i < k :: calls[i].name != "ask_clarification"
  }

  function MessageOf(input: Json): seq<Event> {
    if input.JObject? && "agent_message" in input.fields && Truthy(input.fields["agent_message"])
    then [TextEvent(input.fields["agent_message"])] else []
  }

  // After the last round: the call that breaks off, the thinking no answer followed, what a
  // stop says, or nothing.
  ghost predicate EndsWith<S>(env: Env<S>, s: S, round: nat, o: Outcome<S>, ending: seq<Event>) {
    var calls := AllCalls(o.replies);
    if |o.executed| < |calls| then ending == [ToolCallEvent(env.display(calls[|o.executed|].name))]
    else if o.stopped then StopSays(env, s, o.replies, ending)
    else if o.raised then ending == [Thinking(round + |o.replies| + 1)]
    else ending == []
  }

  ghost predicate Told<S>(env: Env<S>, s: S, round: nat, o: Outcome<S>) {
    exists ending :: Heard(env, o.replies, o.executed, round + 1, o.events, ending) && EndsWith(env, s, round, o, ending)
  }

  lemma FirstIsHeard<S>(env: Env<S>, reply: Reply, done: seq<Executed>, round: nat, ending: seq<Event>)
    requires |done| <= CallCount(reply)
    ensures Heard(env, [reply], done, round, [Thinking(round)] + ReplyTexts(reply) + CallEvents(env, done) + ending, ending)
  {
    var replies, mine := [reply], [Thinking(round)] + ReplyTexts(reply) + CallEvents(env, done);
    RoundIsHeard(env, reply, done, round);
    assert replies[1..] == [] && done[OwnCalls(reply, done)..] == [] && done[..OwnCalls(reply, done)] == done;
    assert HeardFirst(env, replies, done, round, mine + ending, mine, ending);
    assert Heard(env, [], [], round + 1, ending, ending);
  }

  lemma LaterIsHeard<S>(env: Env<S>, reply: Reply, done: seq<Executed>, round: nat, replies: seq<Reply>, executed: seq<Executed>,
                        events: seq<Event>, ending: seq<Event>)
    requires |done| == CallCount(reply) && Heard(env, replies, executed, round + 1, events, ending)
    ensures Heard(env, [reply] + replies, done + executed, round,
                  [Thinking(round)] + ReplyTexts(reply) + CallEvents(env, done) + events, ending)
  {
    var all, ran, mine := [reply] + replies, done + executed, [Thinking(round)] + ReplyTexts(reply) + CallEvents(env, done);
    RoundIsHeard(env, reply, done, round);
    assert all[1..] == replies && ran[..|done|] == done && ran[|done|..] == executed;
    assert HeardFirst(env, all, ran, round, mine + events, mine, events);
  }

  // ---- Stops ----

  lemma {:induction false} FirstNamedIsFirst(calls: seq<Call>, name: string)
    ensures var i := FirstNamed(calls, name);
            && (i.Some? ==> calls[i.value].name == name && forall j | 0 <= j < i.value :: calls[j].name != name)
            && (i.None? ==> forall j | 0 <= j < |calls| :: calls[j].name != name)
  {
    if calls != [] { FirstNamedIsFirst(calls[1..], name); }
  }

  lemma StopIsTold<S>(env: Env<S>, s: S, reply: Reply, last: map<string, Json>)
    requires Stops(CallsOf(reply)) && !Execute(env, s, CallsOf(reply), last).raised
    ensures StopSays(env, s, [reply], StopEvents(CallsOf(reply), Execute(env, s, CallsOf(reply), last).inputs))
  {
    var calls := CallsOf(reply);
    var e := Execute(env, s, calls, last);
    var ask := FirstNamed(calls, "ask_clarification");
    CallsSplit(reply, []);
    assert [reply] + [] == [reply] && calls + [] == calls;
    FirstNamedIsFirst(calls, "ask_clarification");
    if ask.Some? {
      ExecutedAt(env, s, calls, last, ask.value);
      assert FirstAsked(calls, 0, ask.value);
      assert AskSays(env, s, calls, 0, ask.value, StopEvents(calls, e.inputs));
    }
  }

  lemma StopLater<S>(env: Env<S>, s: S, reply: Reply, replies: seq<Reply>, ending: seq<Event>)
    requires var a := CallsOf(reply);
             && StateBefore(env, s, a, |a|).Some?
             && StopSays(env, StateBefore(env, s, a, |a|).value, replies, ending)
    ensures StopSays(env, s, [reply] + replies, ending)
  {
    var a, b, first := CallsOf(reply), AllCalls(replies), CallsBefore(replies, |replies| - 1);
    CallsSplit(reply, replies);
    BeforeTheLast(reply, replies);
    NoneAskedLater(a, b, first);
    if !NoneAsked(b, first) { AskLater(env, s, a, b, first, a + b, |a| + first, ending); }
  }

  lemma AskLater<S>(env: Env<S>, s: S, a: seq<Call>, b: seq<Call>, first: nat, all: seq<Call>, from: nat, ending: seq<Event>)
    requires StateBefore(env, s, a, |a|).Some? && all == a + b && from == |a| + first
    requires exists k: nat :: AskSays(env, StateBefore(env, s, a, |a|).value, b, first, k, ending)
    ensures exists k: nat :: AskSays(env, s, all, from, k, ending)
  {
    var k: nat :| AskSays(env, StateBefore(env, s, a, |a|).value, b, first, k, ending);
    InputBehind(env, s, a, b, k);
    AskedLater(a, b, first, k);
    assert AskSays(env, s, all, from, |a| + k, ending);
  }

  lemma NoneAskedLater(a: seq<Call>, b: seq<Call>, first: nat)
    ensures NoneAsked(a + b, |a| + first) <==> NoneAsked(b, first)
  {
    var all, from := a + b, |a| + first;
    if NoneAsked(b, first) {
      forall k: nat ensures !FirstAsked(all, from, k) {
        if k >= |a| { AskedLater(a, b, first, k - |a|); }
      }
    }
    if k: nat :| FirstAsked(b, first, k) { AskedLater(a, b, first, k); }
  }

  lemma AskedLater(a: seq<Call>, b: seq<Call>, first: nat, k: nat)
    ensures FirstAsked(a + b, |a| + first, |a| + k) <==> FirstAsked(b, first, k)
  {
    if FirstAsked(a + b, |a| + first, |a| + k) {
      forall i | first <= i < k ensures b[i].name != "ask_clarification" { assert (a + b)[|a| + i] == b[i]; }
    }
  }

  lemma BeforeTheLast(reply: Reply, replies: seq<Reply>)
    requires replies != []
    ensures CallsBefore([reply] + replies, |replies|) == |CallsOf(reply)| + CallsBefore(replies, |replies| - 1)
  {
    CallsSplit(reply, replies);
  }

  // ---- The streamed loop ----

  lemma EndsLaterToo<S>(env: Env<S>, s: S, round: nat, reply: Reply, done: seq<Executed>, o: Outcome<S>, o': Outcome<S>, ending: seq<Event>)
    requires var a := CallsOf(reply);
             && StateBefore(env, s, a, |a|).Some? && |done| == |a|
             && EndsWith(env, StateBefore(env, s, a, |a|).value, round + 1, o', ending)
    requires o.replies == [reply] + o'.replies && o.executed == done + o'.executed
    requires o.stopped == o'.stopped && o.raised == o'.raised
    ensures EndsWith(env, s, round, o, ending)
  {
    CallsSplit(reply, o'.replies);
    if |o'.executed| >= |AllCalls(o'.replies)| && o'.stopped { StopLater(env, s, reply, o'.replies, ending); }
  }

  lemma LastRoundTold<S>(env: Env<S>, ms: seq<Message>, s: S, last: map<string, Json>, round: nat)
    requires round < env.limit && env.model(ms).Some? && !StreamGoesOn(env, ms, s, last, round)
    ensures Told(env, s, round, StreamLoop(env, ms, s, last, round))
  {
    var reply := env.model(ms).value;
    var calls := CallsOf(reply);
    var e := Execute(env, s, calls, last);
    var done := ExecutedCalls(calls[..|e.results|], e.results);
    var ending := if e.raised then [ToolCallEvent(env.display(calls[|e.results|].name))]
                  else if calls == [] then [] else StopEvents(calls, e.inputs);
    CallsAreCounted(reply);
    LastRoundEvents(env, ms, s, last, round, ending);
    FirstIsHeard(env, reply, done, round + 1, ending);
    LastEnding(env, ms, s, last, round, ending);
  }

  lemma LastRoundEvents<S>(env: Env<S>, ms: seq<Message>, s: S, last: map<string, Json>, round: nat, ending: seq<Event>)
    requires round < env.limit && env.model(ms).Some? && !StreamGoesOn(env, ms, s, last, round)
    requires var calls := CallsOf(env.model(ms).value);
             var e := Execute(env, s, calls, last);
             ending == if e.raised then [ToolCallEvent(env.display(calls[|e.results|].name))]
                       else if calls == [] then [] else StopEvents(calls, e.inputs)
    ensures var reply := env.model(ms).value;
            var e := Execute(env, s, CallsOf(reply), last);
            var done := ExecutedCalls(CallsOf(reply)[..|e.results|], e.results);
            var o := StreamLoop(env, ms, s, last, round);
            && (o.replies, o.executed) == ([reply], done)
            && o.events == [Thinking(round + 1)] + ReplyTexts(reply) + CallEvents(env, done) + ending
  {
    var reply := env.model(ms).value;
    var calls := CallsOf(reply);
    var e := Execute(env, s, calls, last);
    var done := ExecutedCalls(calls[..|e.results|], e.results);
    Regroup([Thinking(round + 1)] + ReplyTexts(reply), CallEvents(env, done), ending);
    assert !e.raised ==> calls[..|e.results|] == calls;
  }

  lemma LastEnding<S>(env: Env<S>, ms: seq<Message>, s: S, last: map<string, Json>, round: nat, ending: seq<Event>)
    requires round < env.limit && env.model(ms).Some? && !StreamGoesOn(env, ms, s, last, round)
    requires var calls := CallsOf(env.model(ms).value);
             var e := Execute(env, s, calls, last);
             ending == if e.raised then [ToolCallEvent(env.display(calls[|e.results|].name))]
                       else if calls == [] then [] else StopEvents(calls, e.inputs)
    ensures EndsWith(env, s, round, StreamLoop(env, ms, s, last, round), ending)
  {
    var reply := env.model(ms).value;
    var calls := CallsOf(reply);
    var e := Execute(env, s, calls, last);
    CallsSplit(reply, []);
    assert [reply] + [] == [reply] && calls + [] == calls;
    assert !e.raised ==> calls[..|e.results|] == calls;
    if !e.raised && calls != [] { StopIsTold(env, s, reply, last); }
  }

  lemma {:induction false} StreamLoopTold<S>(env: Env<S>, ms: seq<Message>, s: S, last: map<string, Json>, round: nat)
    ensures Told(env, s, round, StreamLoop(env, ms, s, last, round))
    decreases env.limit - round
  {
    var o := StreamLoop(env, ms, s, last, round);
    if StreamGoesOn(env, ms, s, last, round) {
      var reply := env.model(ms).value;
      var e := Execute(env, s, CallsOf(reply), last);
      var o' := StreamLoop(env, ms + RoundMessages(reply, e), e.state, e.last, round + 1);
      StreamLoopTold(env, ms + RoundMessages(reply, e), e.state, e.last, round + 1);
      ExecutedState(env, s, CallsOf(reply), last);
      LaterRoundTold(env, s, round, reply, ExecutedCalls(CallsOf(reply), e.results), o, o');
    } else if round < env.limit && env.model(ms).Some? {
      LastRoundTold(env, ms, s, last, round);
    } else {
      assert Heard(env, [], [], round + 1, o.events, o.events) && EndsWith(env, s, round, o, o.events);
    }
  }

  lemma LaterRoundTold<S>(env: Env<S>, s: S, round: nat, reply: Reply, done: seq<Executed>, o: Outcome<S>, o': Outcome<S>)
    requires var a := CallsOf(reply);
             && StateBefore(env, s, a, |a|).Some? && |done| == |a|
             && Told(env, StateBefore(env, s, a, |a|).value, round + 1, o')
    requires o == Prepend(reply, done, [Thinking(round + 1)] + ReplyTexts(reply) + CallEvents(env, done), o')
    ensures Told(env, s, round, o)
  {
    var s' := StateBefore(env, s, CallsOf(reply), |CallsOf(reply)|).value;
    var ending :| Heard(env, o'.replies, o'.executed, round + 2, o'.events, ending) && EndsWith(env, s', round + 1, o', ending);
    CallsAreCounted(reply);
    LaterIsHeard(env, reply, done, round + 1, o'.replies, o'.executed, o'.events, ending);
    EndsLaterToo(env, s, round, reply, done, o, o', ending);
  }

  // A stream told in full: the understanding, the rounds one by one, the ending, and, unless
  // it raised, the last tool input.
  lemma StreamHeard<S>(env: Env<S>, ms: seq<Message>, s: S) returns (loop: seq<Event>)
    requires !Refused(env, ms)
    ensures var o := StreamSpec(env, ms, s);
            && o.events == [Understanding] + loop + (if o.raised then [] else [DoneEvent(o.last)])
            && Told(env, s, 0, o.(events := loop))
  {
    loop := StreamLoop(env, ms, s, map[], 0).events;
    StreamLoopTold(env, ms, s, map[], 0);
    var o, p := StreamSpec(env, ms, s), StreamLoop(env, ms, s, map[], 0);
    assert o.(events := loop) == p;
  }

  lemma RefusalHeard<S>(env: Env<S>, ms: seq<Message>, s: S)
    requires Refused(env, ms)
    ensures StreamSpec(env, ms, s).events == [Understanding, ErrorEvent(env.refusal)]
  {
  }

  // ---- The tool events by position ----

  predicate IsToolEvent(e: Event) {
    e.ToolCallEvent? || e.ToolResultEvent?
  }

  function Itself(e: Event): Event {
    e
  }

  lemma {:induction false} ToolEventsArePicked(events: seq<Event>)
    ensures ToolEvents(events) == Picked(events, IsToolEvent, Itself)
  {
    if events != [] {
      ToolEventsArePicked(events[1..]);
      PickedFirst(events, IsToolEvent, Itself);
    }
  }

  lemma {:induction false} BreakIsNamed<S>(env: Env<S>, ms: seq<Message>, s: S, last: map<string, Json>, round: nat)
    ensures var o := StreamLoop(env, ms, s, last, round);
            var calls := AllCalls(o.replies);
            && |o.executed| <= |calls|
            && BreaksAt(env, ms, s, last, round)
               == if |o.executed| < |calls| then Some(calls[|o.executed|].name) else None
    decreases env.limit - round
  {
    if round < env.limit && env.model(ms).Some? {
      var reply := env.model(ms).value;
      var calls := CallsOf(reply);
      var e := Execute(env, s, calls, last);
      if StreamGoesOn(env, ms, s, last, round) {
        var after := ms + RoundMessages(reply, e);
        BreakIsNamed(env, after, e.state, e.last, round + 1);
        CallsSplit(reply, StreamLoop(env, after, e.state, e.last, round + 1).replies);
      } else {
        CallsSplit(reply, []);
        assert [reply] + [] == [reply] && calls + [] == calls;
      }
    }
  }

  // Of any stream: the i-th executed call is announced at 2i and answered at 2i + 1, and
  // nothing follows but the announcement of a call that breaks it off.
  lemma ToolEventsByPosition<S>(env: Env<S>, ms: seq<Message>, s: S)
    ensures var o := StreamSpec(env, ms, s);
            var tools, calls, n := Picked(o.events, IsToolEvent, Itself), AllCalls(o.replies), |o.executed|;
            && n <= |calls|
            && |tools| == 2 * n + (if n < |calls| then 1 else 0)
            && (forall i | 0 <= i < n :: ShowsCall(env, o.executed[i], tools[2 * i], tools[2 * i + 1]))
            && (n < |calls| ==> tools[2 * n] == ToolCallEvent(env.display(calls[n].name)))
  {
    var o := StreamSpec(env, ms, s);
    EachCallHasItsTwoEvents(env, ms, s);
    ToolEventsArePicked(o.events);
    CallsAreShown(env, o.executed);
    if !Refused(env, ms) { BreakIsNamed(env, ms, s, map[], 0); }
  }
}
