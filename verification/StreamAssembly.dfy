// Reassembling one reply from the fragments of a streamed completion.
module StreamAssembly {
  import opened Prelude

  // One tool-call fragment; the function part and each of its fields may be missing.
  datatype Fragment = Fragment(index: int, id: Option<string>, part: Option<FunctionPart>)

  datatype FunctionPart = FunctionPart(name: Option<string>, arguments: Option<string>)

  // None stands for a chunk without choices.
  datatype Delta = Delta(content: Option<string>, finish: Option<string>, calls: seq<Fragment>)

  type Chunk = Option<Delta>

  datatype Accumulated = Accumulated(id: string, name: string, arguments: string)

  datatype ReplyPart = TextPart(text: string) | CallPart(id: string, name: string, input: Json)

  datatype StopReason = EndTurn | ToolUseStop

  datatype AssembledReply = AssembledReply(content: seq<ReplyPart>, stopReason: StopReason)

  function Filled(s: Option<string>): bool {
    s.Some? && s.value != ""
  }

  // ---- Reference: what the fragments of one index, or the chunks as a whole, amount to ----

  function FragmentsOf(chunks: seq<Chunk>): seq<Fragment> {
    if chunks == [] then []
    else FragmentsOf(chunks[..|chunks| - 1]) + (if chunks[|chunks| - 1].Some? then chunks[|chunks| - 1].value.calls else [])
  }

  // The fragments of one call, in order of arrival.
  function AtIndex(fragments: seq<Fragment>, index: int): seq<Fragment> {
    if fragments == [] then []
    else
      var f := fragments[|fragments| - 1];
      AtIndex(fragments[..|fragments| - 1], index) + (if f.index == index then [f] else [])
  }

  function LastFilled(values: seq<Option<string>>): string {
    if values == [] then ""
    else if Filled(values[|values| - 1]) then values[|values| - 1].value
    else LastFilled(values[..|values| - 1])
  }

  function Concat(values: seq<Option<string>>): string {
    if values == [] then ""
    else Concat(values[..|values| - 1]) + values[|values| - 1].GetOr("")
  }

  function IdsIn(fragments: seq<Fragment>): seq<Option<string>> {
    seq(|fragments|, i requires 0 <= i < |fragments| => fragments[i].id)
  }

  function NamesIn(fragments: seq<Fragment>): seq<Option<string>> {
    seq(|fragments|, i requires 0 <= i < |fragments| =>
      if fragments[i].part.Some? then fragments[i].part.value.name else None)
  }

  function ArgumentsIn(fragments: seq<Fragment>): seq<Option<string>> {
    seq(|fragments|, i requires 0 <= i < |fragments| =>
      if fragments[i].part.Some? then fragments[i].part.value.arguments else None)
  }

  // One call: its last non-empty id and name, its argument pieces joined.
  function CallFrom(own: seq<Fragment>): Accumulated {
    Accumulated(LastFilled(IdsIn(own)), LastFilled(NamesIn(own)), Concat(ArgumentsIn(own)))
  }

  function Indices(fragments: seq<Fragment>): set<int> {
    set f <- fragments :: f.index
  }

  function CallsFrom(fragments: seq<Fragment>): map<int, Accumulated> {
    map index <- Indices(fragments) :: CallFrom(AtIndex(fragments, index))
  }

  function ContentsIn(chunks: seq<Chunk>): seq<Option<string>> {
    seq(|chunks|, i requires 0 <= i < |chunks| => if chunks[i].Some? then chunks[i].value.content else None)
  }

  function FinishesIn(chunks: seq<Chunk>): seq<Option<string>> {
    seq(|chunks|, i requires 0 <= i < |chunks| => if chunks[i].Some? then chunks[i].value.finish else None)
  }

  // ---- The accumulation loop ----

  lemma OneMoreFragment(fragments: seq<Fragment>, f: Fragment, index: int)
    ensures var more := fragments + [f];
            && Indices(more) == Indices(fragments) + {f.index}
            && AtIndex(more, index) == AtIndex(fragments, index) + (if f.index == index then [f] else [])
  {
    var more := fragments + [f];
    assert more[..|more| - 1] == fragments;
    forall i ensures i in Indices(more) <==> i in Indices(fragments) + {f.index} {}
  }

  lemma OneMoreOwn(own: seq<Fragment>, f: Fragment)
    ensures var more := own + [f];
            && IdsIn(more) == IdsIn(own) + [f.id]
            && NamesIn(more) == NamesIn(own) + [if f.part.Some? then f.part.value.name else None]
            && ArgumentsIn(more) == ArgumentsIn(own) + [if f.part.Some? then f.part.value.arguments else None]
  {
  }

  lemma OneMoreValue(values: seq<Option<string>>, v: Option<string>)
    ensures LastFilled(values + [v]) == if Filled(v) then v.value else LastFilled(values)
    ensures Concat(values + [v]) == Concat(values) + v.GetOr("")
  {
    assert (values + [v])[..|values|] == values;
  }

  lemma {:induction false} AbsentIndexHasNone(fragments: seq<Fragment>, index: int)
    ensures AtIndex(fragments, index) == [] <==> index !in Indices(fragments)
  {
    if fragments != [] {
      var front := fragments[..|fragments| - 1];
      assert fragments == front + [fragments[|fragments| - 1]];
      AbsentIndexHasNone(front, index);
      OneMoreFragment(front, fragments[|fragments| - 1], index);
    }
  }

  // A call with one more of its fragments.
  function Extend(call: Accumulated, tc: Fragment): Accumulated {
    Accumulated(
      if Filled(tc.id) then tc.id.value else call.id,
      if tc.part.Some? && Filled(tc.part.value.name) then tc.part.value.name.value else call.name,
      if tc.part.Some? then call.arguments + tc.part.value.arguments.GetOr("") else call.arguments)
  }

  lemma ExtendIsReference(own: seq<Fragment>, tc: Fragment)
    ensures CallFrom(own + [tc]) == Extend(CallFrom(own), tc)
  {
    OneMoreOwn(own, tc);
    OneMoreValue(IdsIn(own), tc.id);
    OneMoreValue(NamesIn(own), if tc.part.Some? then tc.part.value.name else None);
    OneMoreValue(ArgumentsIn(own), if tc.part.Some? then tc.part.value.arguments else None);
  }

  lemma CallsFromAt(fragments: seq<Fragment>, index: int)
    ensures index in CallsFrom(fragments) <==> index in Indices(fragments)
    ensures index in CallsFrom(fragments) ==> CallsFrom(fragments)[index] == CallFrom(AtIndex(fragments, index))
  {
  }

  lemma OtherCallsKeep(seen: seq<Fragment>, tc: Fragment, index: int)
    requires index != tc.index
    ensures index in CallsFrom(seen + [tc]) <==> index in CallsFrom(seen)
    ensures index in CallsFrom(seen) ==> CallsFrom(seen + [tc])[index] == CallsFrom(seen)[index]
  {
    CallsFromAt(seen, index);
    CallsFromAt(seen + [tc], index);
    OneMoreFragment(seen, tc, index);
    assert AtIndex(seen + [tc], index) == AtIndex(seen, index);
  }

  lemma OwnCallExtends(seen: seq<Fragment>, tc: Fragment)
    ensures var start := if tc.index in CallsFrom(seen) then CallsFrom(seen)[tc.index] else Accumulated("", "", "");
            tc.index in CallsFrom(seen + [tc]) && CallsFrom(seen + [tc])[tc.index] == Extend(start, tc)
  {
    var own := AtIndex(seen, tc.index);
    AbsentIndexHasNone(seen, tc.index);
    ExtendIsReference(own, tc);
    assert CallFrom([]) == Accumulated("", "", "");
    OneMoreFragment(seen, tc, tc.index);
  }

  lemma CallsFromAppend(seen: seq<Fragment>, tc: Fragment)
    ensures var start := if tc.index in CallsFrom(seen) then CallsFrom(seen)[tc.index] else Accumulated("", "", "");
            CallsFrom(seen + [tc]) == CallsFrom(seen)[tc.index := Extend(start, tc)]
  {
    OwnCallExtends(seen, tc);
    var calls, more := CallsFrom(seen), CallsFrom(seen + [tc]);
    forall index | index != tc.index
      ensures (index in more <==> index in calls) && (index in calls ==> more[index] == calls[index])
    {
      OtherCallsKeep(seen, tc, index);
    }
  }

  method AddFragment(calls: map<int, Accumulated>, tc: Fragment) returns (r: map<int, Accumulated>)
    ensures r == calls[tc.index := Extend(if tc.index in calls then calls[tc.index] else Accumulated("", "", ""), tc)]
  {
    r := calls;
    if tc.index !in r {
      r := r[tc.index := Accumulated(tc.id.GetOr(""), "", "")];
    }
    var call := r[tc.index];
    if Filled(tc.id) {
      call := call.(id := tc.id.value);
    }
    if tc.part.Some? {
      if Filled(tc.part.value.name) {
        call := call.(name := tc.part.value.name.value);
      }
      if Filled(tc.part.value.arguments) {
        call := call.(arguments := call.arguments + tc.part.value.arguments.value);
      } else {
        assert call.arguments + "" == call.arguments;
      }
    }
    r := r[tc.index := call];
    assert call == Extend(if tc.index in calls then calls[tc.index] else Accumulated("", "", ""), tc);
    assert r == calls[tc.index := call];
  }

  lemma OneMoreOf(before: seq<Fragment>, parts: seq<Fragment>, j: nat)
    requires j < |parts|
    ensures var calls, tc := CallsFrom(before + parts[..j]), parts[j];
            CallsFrom(before + parts[..j + 1])
            == calls[tc.index := Extend(if tc.index in calls then calls[tc.index] else Accumulated("", "", ""), tc)]
  {
    CallsFromAppend(before + parts[..j], parts[j]);
    assert parts[..j + 1] == parts[..j] + [parts[j]];
    Regroup(before, parts[..j], [parts[j]]);
  }

  method AddFragments(calls: map<int, Accumulated>, parts: seq<Fragment>, ghost before: seq<Fragment>) returns (r: map<int, Accumulated>)
    requires calls == CallsFrom(before)
    ensures r == CallsFrom(before + parts)
  {
    r := calls;
    assert before + parts[..0] == before;
    for j := 0 to |parts|
      invariant r == CallsFrom(before + parts[..j])
    {
      OneMoreOf(before, parts, j);
      r := AddFragment(r, parts[j]);
    }
    assert parts[..|parts|] == parts;
  }

  method StreamAndCollect(chunks: seq<Chunk>) returns (content: string, calls: map<int, Accumulated>, finish: string)
    ensures content == Concat(ContentsIn(chunks))
    ensures finish == LastFilled(FinishesIn(chunks))
    ensures calls == CallsFrom(FragmentsOf(chunks))
  {
    content, calls, finish := "", map[], "";
    for i := 0 to |chunks|
      invariant content == Concat(ContentsIn(chunks[..i]))
      invariant finish == LastFilled(FinishesIn(chunks[..i]))
      invariant calls == CallsFrom(FragmentsOf(chunks[..i]))
    {
      var chunk := chunks[i];
      OneMoreChunk(chunks, i);
      if chunk.Some? {
        var delta := chunk.value;
        if Filled(delta.finish) {
          finish := delta.finish.value;
        }
        if Filled(delta.content) {
          content := content + delta.content.value;
        }
        calls := AddFragments(calls, delta.calls, FragmentsOf(chunks[..i]));
      } else {
        assert FragmentsOf(chunks[..i]) + [] == FragmentsOf(chunks[..i]);
      }
    }
    assert chunks[..|chunks|] == chunks;
  }

  lemma OneMoreChunk(chunks: seq<Chunk>, i: nat)
    requires i < |chunks|
    ensures var c := chunks[i];
            && FragmentsOf(chunks[..i + 1]) == FragmentsOf(chunks[..i]) + (if c.Some? then c.value.calls else [])
            && Concat(ContentsIn(chunks[..i + 1])) == Concat(ContentsIn(chunks[..i])) + (if c.Some? then c.value.content.GetOr("") else "")
            && LastFilled(FinishesIn(chunks[..i + 1]))
               == if c.Some? && Filled(c.value.finish) then c.value.finish.value else LastFilled(FinishesIn(chunks[..i]))
  {
    assert chunks[..i + 1][..i] == chunks[..i];
    assert ContentsIn(chunks[..i + 1]) == ContentsIn(chunks[..i]) + [if chunks[i].Some? then chunks[i].value.content else None];
    assert FinishesIn(chunks[..i + 1]) == FinishesIn(chunks[..i]) + [if chunks[i].Some? then chunks[i].value.finish else None];
    OneMoreValue(ContentsIn(chunks[..i]), if chunks[i].Some? then chunks[i].value.content else None);
    OneMoreValue(FinishesIn(chunks[..i]), if chunks[i].Some? then chunks[i].value.finish else None);
  }

  // ---- Building the reply ----

  // Arguments that do not parse are kept raw. `loads` gives None when parsing fails.
  function ParsedInput(arguments: string, loads: string -> Option<Json>): Json {
    if arguments == "" then JObject(map[])
    else if loads(arguments).Some? then loads(arguments).value
    else JObject(map["raw" := JString(arguments)])
  }

  function CallPartOf(call: Accumulated, loads: string -> Option<Json>): ReplyPart {
    CallPart(call.id, call.name, ParsedInput(call.arguments, loads))
  }

  function PartAt(calls: map<int, Accumulated>, index: int, loads: string -> Option<Json>): ReplyPart {
    CallPartOf(if index in calls then calls[index] else Accumulated("", "", ""), loads)
  }

  function PartsInOrder(calls: map<int, Accumulated>, order: seq<int>, loads: string -> Option<Json>): seq<ReplyPart> {
    if order == [] then []
    else PartsInOrder(calls, order[..|order| - 1], loads) + [PartAt(calls, order[|order| - 1], loads)]
  }

  lemma OneMorePart(head: seq<ReplyPart>, calls: map<int, Accumulated>, order: seq<int>, i: nat, loads: string -> Option<Json>)
    requires i < |order|
    ensures head + PartsInOrder(calls, order[..i + 1], loads)
            == head + PartsInOrder(calls, order[..i], loads) + [PartAt(calls, order[i], loads)]
  {
    assert order[..i + 1][..i] == order[..i];
    var before, part := PartsInOrder(calls, order[..i], loads), PartAt(calls, order[i], loads);
    assert PartsInOrder(calls, order[..i + 1], loads) == before + [part];
    assert head + (before + [part]) == head + before + [part];
  }

  // The calls in ascending index order.
  function CallParts(calls: map<int, Accumulated>, loads: string -> Option<Json>): seq<ReplyPart> {
    PartsInOrder(calls, Sorted(calls.Keys), loads)
  }

  method BuildResponse(content: string, calls: map<int, Accumulated>, finish: string, loads: string -> Option<Json>)
    returns (reply: AssembledReply)
    ensures reply.content == (if content != "" then [TextPart(content)] else []) + CallParts(calls, loads)
    ensures reply.stopReason == if finish == "tool_calls" then ToolUseStop else EndTurn
  {
    var blocks := if content != "" then [TextPart(content)] else [];
    ghost var head := blocks;
    var order := Sorted(calls.Keys);
    assert head + PartsInOrder(calls, order[..0], loads) == head;
    for i := 0 to |order|
      invariant blocks == head + PartsInOrder(calls, order[..i], loads)
    {
      OneMorePart(head, calls, order, i, loads);
      assert order[i] in order;
      var tc := calls[order[i]];
      blocks := blocks + [CallPart(tc.id, tc.name, ParsedInput(tc.arguments, loads))];
    }
    assert order[..|order|] == order;
    reply := AssembledReply(blocks, if finish == "tool_calls" then ToolUseStop else EndTurn);
  }

  // The reply as a function of the stream, by the reference definitions alone.
  function ReplyOf(chunks: seq<Chunk>, loads: string -> Option<Json>): AssembledReply {
    var content := Concat(ContentsIn(chunks));
    AssembledReply(
      (if content != "" then [TextPart(content)] else []) + CallParts(CallsFrom(FragmentsOf(chunks)), loads),
      if LastFilled(FinishesIn(chunks)) == "tool_calls" then ToolUseStop else EndTurn)
  }

  // What the client returns for a stream of chunks.
  method AssembleReply(chunks: seq<Chunk>, loads: string -> Option<Json>) returns (reply: AssembledReply)
    ensures reply == ReplyOf(chunks, loads)
  {
    var content, calls, finish := StreamAndCollect(chunks);
    reply := BuildResponse(content, calls, finish, loads);
  }

  // Two streams that carry the same texts, the same finish reasons and, call by call, the
  // same fragments build the same reply, however they interleave the calls.
  lemma InterleavingDoesNotMatter(a: seq<Chunk>, b: seq<Chunk>, loads: string -> Option<Json>)
    requires Concat(ContentsIn(a)) == Concat(ContentsIn(b))
    requires LastFilled(FinishesIn(a)) == LastFilled(FinishesIn(b))
    requires forall index :: AtIndex(FragmentsOf(a), index) == AtIndex(FragmentsOf(b), index)
    ensures ReplyOf(a, loads) == ReplyOf(b, loads)
  {
    var fa, fb := FragmentsOf(a), FragmentsOf(b);
    forall index ensures index in Indices(fa) <==> index in Indices(fb) {
      AbsentIndexHasNone(fa, index);
      AbsentIndexHasNone(fb, index);
      assert AtIndex(fa, index) == AtIndex(fb, index);
    }
    assert CallsFrom(fa) == CallsFrom(fb);
  }

  // Swapping two neighbouring fragments of different calls leaves every call's own sequence.
  lemma SwapKeepsEachCall(before: seq<Fragment>, x: Fragment, y: Fragment, after: seq<Fragment>, index: int)
    requires x.index != y.index
    ensures AtIndex(before + [x, y] + after, index) == AtIndex(before + [y, x] + after, index)
  {
    OneMoreFragment(before, x, index);
    OneMoreFragment(before + [x], y, index);
    OneMoreFragment(before, y, index);
    OneMoreFragment(before + [y], x, index);
    assert before + [x] + [y] == before + [x, y] && before + [y] + [x] == before + [y, x];
    SameTailSameCall(before + [x, y], before + [y, x], after, index);
  }

  lemma {:induction false} SameTailSameCall(a: seq<Fragment>, b: seq<Fragment>, after: seq<Fragment>, index: int)
    requires AtIndex(a, index) == AtIndex(b, index)
    ensures AtIndex(a + after, index) == AtIndex(b + after, index)
  {
    if after == [] {
      assert a + after == a && b + after == b;
    } else {
      var front, f := after[..|after| - 1], after[|after| - 1];
      SameTailSameCall(a, b, front, index);
      OneMoreFragment(a + front, f, index);
      OneMoreFragment(b + front, f, index);
      assert after == front + [f];
      Regroup(a, front, [f]);
      Regroup(b, front, [f]);
    }
  }

  // ---- The reference by position ----

  function HasIndex(index: int): Fragment -> bool {
    (f: Fragment) => f.index == index
  }

  function Itself(f: Fragment): Fragment {
    f
  }

  // A call's own fragments are those of its index, in order.
  lemma {:induction false} OwnFragmentsTold(fragments: seq<Fragment>, index: int)
    ensures AtIndex(fragments, index) == Picked(fragments, HasIndex(index), Itself)
  {
    if fragments != [] {
      var front, f := fragments[..|fragments| - 1], fragments[|fragments| - 1];
      OwnFragmentsTold(front, index);
      PickedLater(front, f, HasIndex(index), Itself);
      assert fragments == front + [f];
    }
  }

  // The last value that is there and not empty, or nothing.
  lemma {:induction false} LastFilledTold(values: seq<Option<string>>)
    ensures if exists i | 0 <= i < |values| :: Filled(values[i])
            then exists i | 0 <= i < |values| :: LastFilledAt(values, i) && LastFilled(values) == values[i].value
            else LastFilled(values) == ""
  {
    if values != [] {
      var n := |values| - 1;
      if Filled(values[n]) {
        assert LastFilledAt(values, n);
      } else {
        LastFilledTold(values[..n]);
        if i :| 0 <= i < n && LastFilledAt(values[..n], i) && LastFilled(values[..n]) == values[i].value {
          assert LastFilledAt(values, i);
        }
      }
    }
  }

  predicate LastFilledAt(values: seq<Option<string>>, i: nat) {
    i < |values| && Filled(values[i]) && forall j | i < j < |values| :: !Filled(values[j])
  }

  // All pieces one after another, a missing one being empty.
  lemma ConcatTold(values: seq<Option<string>>, v: Option<string>)
    ensures Concat([]) == "" && Concat(values + [v]) == Concat(values) + (if v.Some? then v.value else "")
  {
    assert (values + [v])[..|values|] == values;
  }

  // The fragments of a stream are those of its chunks, one chunk after another.
  lemma FragmentsTold(chunks: seq<Chunk>, chunk: Chunk)
    ensures FragmentsOf([]) == []
    ensures FragmentsOf(chunks + [chunk]) == FragmentsOf(chunks) + (if chunk.Some? then chunk.value.calls else [])
  {
    assert (chunks + [chunk])[..|chunks|] == chunks;
  }

  // An input: nothing for no arguments, their value if they parse, and else their text.
  predicate InputRead(arguments: string, loads: string -> Option<Json>, input: Json) {
    && (arguments == "" ==> input == JObject(map[]))
    && (arguments != "" && loads(arguments).Some? ==> loads(arguments) == Some(input))
    && (arguments != "" && loads(arguments).None? ==> input == JObject(map["raw" := JString(arguments)]))
  }

  lemma {:induction false} PartsAt(calls: map<int, Accumulated>, order: seq<int>, loads: string -> Option<Json>, k: nat)
    requires k < |order|
    ensures |PartsInOrder(calls, order, loads)| == |order| && PartsInOrder(calls, order, loads)[k] == PartAt(calls, order[k], loads)
  {
    if k < |order| - 1 { PartsAt(calls, order[..|order| - 1], loads, k); } else { PartsLength(calls, order, loads); }
  }

  lemma {:induction false} PartsLength(calls: map<int, Accumulated>, order: seq<int>, loads: string -> Option<Json>)
    ensures |PartsInOrder(calls, order, loads)| == |order|
  {
    if order != [] { PartsLength(calls, order[..|order| - 1], loads); }
  }

  // One part for each call, in ascending order of their indices, with the call's id and name
  // and its input as read.
  lemma CallPartsTold(calls: map<int, Accumulated>, loads: string -> Option<Json>, k: nat)
    requires k < |Sorted(calls.Keys)|
    ensures |CallParts(calls, loads)| == |Sorted(calls.Keys)|
    ensures var index, part := Sorted(calls.Keys)[k], CallParts(calls, loads)[k];
            && index in calls && part.CallPart? && part.id == calls[index].id && part.name == calls[index].name
            && InputRead(calls[index].arguments, loads, part.input)
  {
    PartsAt(calls, Sorted(calls.Keys), loads, k);
    assert Sorted(calls.Keys)[k] in Sorted(calls.Keys);
  }
}
