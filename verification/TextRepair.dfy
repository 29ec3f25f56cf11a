// Repairing the punctuation of a model's messages and questions.
module TextRepair {
  import opened Prelude

  predicate IsQuestionMark(c: char) {
    c == '？' || c == '?'
  }

  predicate IsComma(c: char) {
    c == '，' || c == ','
  }

  // What may not dangle at the end of a message.
  predicate Dangles(c: char) {
    IsComma(c) || c == '、' || IsSpace(c)
  }

  predicate IsTerminator(c: char) {
    c == '。' || c == '！' || c == '.'
  }

  // ---- Rewrites ----

  function DropQuestionMarks(s: string): string {
    if s == "" then ""
    else (if IsQuestionMark(s[0]) then "" else [s[0]]) + DropQuestionMarks(s[1..])
  }

  // Left to right, without overlaps.
  function ReplaceAll(s: string, pat: string, patch: string): string
    requires pat != ""
  {
    if |s| < |pat| then s
    else if s[..|pat|] == pat then patch + ReplaceAll(s[|pat|..], pat, patch)
    else [s[0]] + ReplaceAll(s[1..], pat, patch)
  }

  function DropDangling(s: string): (r: string)
    ensures r <= s
  {
    if s != "" && Dangles(s[|s| - 1]) then DropDangling(s[..|s| - 1]) else s
  }

  function StripLeft(s: string): string {
    if s != "" && IsSpace(s[0]) then StripLeft(s[1..]) else s
  }

  function StripRight(s: string): string {
    if s != "" && IsSpace(s[|s| - 1]) then StripRight(s[..|s| - 1]) else s
  }

  function Strip(s: string): string {
    StripLeft(StripRight(s))
  }

  // The fragment a dropped question mark leaves before mark `x`, and what replaces it.
  function Fragment(x: char): (pat: string)
    ensures |pat| == 3
  {
    ['是', '了', x]
  }

  function Mended(x: char): (patch: string)
    ensures |patch| == 4
  {
    ['已', '了', '解', x]
  }

  function Mend(s: string, x: char): string {
    ReplaceAll(s, Fragment(x), Mended(x))
  }

  // The message before its final full stop is supplied.
  function Core(msg: string): string {
    Strip(DropDangling(Mend(Mend(DropQuestionMarks(msg), '，'), '。')))
  }

  function Terminated(core: string): string {
    if core != "" && !IsTerminator(core[|core| - 1]) then core + ['。'] else core
  }

  function SanitizeAgentMessage(msg: string): string {
    if msg == "" then msg else Terminated(Core(msg))
  }

  // ---- No question mark is left, and the message ends properly ----

  predicate NoQuestionMark(s: string) {
    forall c <- s :: !IsQuestionMark(c)
  }

  lemma {:induction false} DropLeavesNone(s: string)
    ensures NoQuestionMark(DropQuestionMarks(s))
    ensures NoQuestionMark(s) ==> DropQuestionMarks(s) == s
  {
    if s != "" {
      DropLeavesNone(s[1..]);
      if NoQuestionMark(s) { assert s[0] in s; }
    }
  }

  lemma {:induction false} MendKeepsClear(s: string, x: char)
    requires NoQuestionMark(s) && !IsQuestionMark(x)
    ensures NoQuestionMark(Mend(s, x))
  {
    if |s| >= 3 {
      assert s[0] in s;
      if s[..3] == Fragment(x) { MendKeepsClear(s[3..], x); } else { MendKeepsClear(s[1..], x); }
    }
  }

  // Stripping keeps a contiguous piece.
  lemma {:induction false} StripRightSlice(s: string) returns (n: nat)
    ensures n <= |s| && StripRight(s) == s[..n] && (n > 0 ==> !IsSpace(s[n - 1]))
  {
    n := |s|;
    if s != "" && IsSpace(s[|s| - 1]) {
      n := StripRightSlice(s[..|s| - 1]);
    }
  }

  lemma {:induction false} StripLeftSlice(s: string) returns (i: nat)
    ensures i <= |s| && StripLeft(s) == s[i..] && (i < |s| ==> !IsSpace(s[i]))
  {
    i := 0;
    if s != "" && IsSpace(s[0]) {
      i := StripLeftSlice(s[1..]);
      i := i + 1;
    }
  }

  lemma StripSlice(s: string) returns (i: nat, n: nat)
    ensures i <= n <= |s| && Strip(s) == s[i..n] && (i < n ==> !IsSpace(s[i]) && !IsSpace(s[n - 1]))
  {
    n := StripRightSlice(s);
    i := StripLeftSlice(s[..n]);
  }

  lemma CoreSlice(msg: string) returns (mended: string, i: nat, n: nat)
    ensures mended == Mend(Mend(DropQuestionMarks(msg), '，'), '。')
    ensures i <= n <= |mended| && Core(msg) == mended[i..n]
    ensures Core(msg) != "" ==> !IsSpace(Core(msg)[0]) && !IsSpace(Core(msg)[|Core(msg)| - 1])
  {
    mended := Mend(Mend(DropQuestionMarks(msg), '，'), '。');
    var kept := DropDangling(mended);
    i, n := StripSlice(kept);
    assert kept == mended[..|kept|];
    assert kept[i..n] == mended[i..n];
  }

  // For any message: no question mark, and empty or ended by one of the three terminators.
  lemma AgentMessageIsDeclarative(msg: string)
    ensures var r := SanitizeAgentMessage(msg);
            NoQuestionMark(r) && (r != "" ==> IsTerminator(r[|r| - 1]))
  {
    if msg != "" {
      CoreIsClear(msg);
    }
  }

  lemma CoreIsClear(msg: string)
    ensures NoQuestionMark(Core(msg))
  {
    var mended, i, n := CoreSlice(msg);
    DropLeavesNone(msg);
    MendKeepsClear(DropQuestionMarks(msg), '，');
    MendKeepsClear(Mend(DropQuestionMarks(msg), '，'), '。');
    forall c | c in mended[i..n] ensures !IsQuestionMark(c) { assert c in mended; }
  }

  // ---- Two applications reach a fixed point ----

  predicate OccursAt(s: string, i: nat, x: char) {
    i + 3 <= |s| && s[i] == '是' && s[i + 1] == '了' && s[i + 2] == x
  }

  predicate Free(s: string, x: char) {
    forall i: nat | i < |s| :: !OccursAt(s, i, x)
  }

  predicate Mark(x: char) {
    x == '，' || x == '。'
  }

  lemma {:induction false} MendNothing(s: string, x: char)
    requires Free(s, x)
    ensures Mend(s, x) == s
  {
    if |s| >= 3 {
      assert !OccursAt(s, 0, x);
      assert s[..3] != Fragment(x) by { assert s[..3][0] == s[0] && s[..3][1] == s[1] && s[..3][2] == s[2]; }
      FreeTail(s, 1, x);
      MendNothing(s[1..], x);
    }
  }

  lemma FreeSlice(s: string, i: nat, n: nat, x: char)
    requires Free(s, x) && i <= n <= |s|
    ensures Free(s[i..n], x)
  {
    forall k: nat | k < |s[i..n]| ensures !OccursAt(s[i..n], k, x) {
      assert !OccursAt(s, i + k, x);
    }
  }

  lemma FreeTail(s: string, i: nat, x: char)
    requires Free(s, x) && i <= |s|
    ensures Free(s[i..], x)
  {
    FreeSlice(s, i, |s|, x);
    assert s[i..|s|] == s[i..];
  }

  // The first character of a mended text is the text's own, or begins a replacement.
  lemma MendHead(s: string, x: char)
    requires Mend(s, x) != ""
    ensures s != ""
    ensures Mend(s, x)[0] == '已' || (Mend(s, x)[0] == s[0] && Mend(s, x)[1..] == Mend(s[1..], x))
  {
    if |s| < 3 { assert s != "" ==> Mend(s[1..], x) == s[1..]; }
  }

  // Mending before `y` leaves no fragment before `y`, and brings none before `x`.
  lemma {:induction false} MendFrees(s: string, y: char, x: char)
    requires Mark(x) && Mark(y) && (x == y || Free(s, x))
    ensures Free(Mend(s, y), x)
  {
    var r := Mend(s, y);
    if |s| >= 3 {
      if s[..3] == Fragment(y) {
        if x != y { FreeTail(s, 3, x); }
        MendFrees(s[3..], y, x);
        var rest := Mend(s[3..], y);
        assert r == Mended(y) + rest;
        forall i: nat | i < |r| ensures !OccursAt(r, i, x) {
          if i >= 4 { assert !OccursAt(rest, i - 4, x); }
        }
      } else {
        if x != y { FreeTail(s, 1, x); }
        MendFrees(s[1..], y, x);
        MendStep(s, y, x);
      }
    }
  }

  // A fragment at the head of a mended text was at the head of the text.
  lemma HeadFragmentWasThere(s: string, y: char, x: char)
    requires |s| >= 3 && s[..3] != Fragment(y) && Mark(x)
    ensures OccursAt(Mend(s, y), 0, x) ==> OccursAt(s, 0, x)
  {
    var r, rest := Mend(s, y), Mend(s[1..], y);
    assert r == [s[0]] + rest;
    if OccursAt(r, 0, x) {
      MendHead(s[1..], y);
      assert rest[0] == '了' && rest[1..] == Mend(s[1..][1..], y);
      MendHead(s[1..][1..], y);
    }
  }

  lemma MendStep(s: string, y: char, x: char)
    requires |s| >= 3 && s[..3] != Fragment(y) && Mark(x) && Mark(y) && (x == y || Free(s, x))
    requires Free(Mend(s[1..], y), x)
    ensures Free(Mend(s, y), x)
  {
    var r, rest := Mend(s, y), Mend(s[1..], y);
    assert r == [s[0]] + rest;
    HeadFragmentWasThere(s, y, x);
    assert s[..3] == [s[0], s[1], s[2]];
    assert !OccursAt(s, 0, x);
    forall i: nat | i < |r| ensures !OccursAt(r, i, x) {
      if i > 0 { assert !OccursAt(rest, i - 1, x); }
    }
  }

  // A text already in final form but for one fragment at its very end.
  predicate Settled(y: string) {
    && NoQuestionMark(y) && Free(y, '，')
    && (y != "" ==> IsTerminator(y[|y| - 1]) && !IsSpace(y[0]))
  }

  lemma CoreIsFree(msg: string)
    ensures Free(Core(msg), '，') && Free(Core(msg), '。') && NoQuestionMark(Core(msg))
  {
    var clear := DropQuestionMarks(msg);
    var mended, i, n := CoreSlice(msg);
    DropLeavesNone(msg);
    MendKeepsClear(clear, '，');
    MendKeepsClear(Mend(clear, '，'), '。');
    MendFrees(clear, '，', '，');
    MendFrees(Mend(clear, '，'), '。', '，');
    MendFrees(Mend(clear, '，'), '。', '。');
    FreeSlice(mended, i, n, '，');
    FreeSlice(mended, i, n, '。');
    forall c | c in mended[i..n] ensures !IsQuestionMark(c) { assert c in mended; }
  }

  lemma SanitizedIsSettled(msg: string)
    ensures Settled(SanitizeAgentMessage(msg))
  {
    if msg != "" {
      var core, r := Core(msg), SanitizeAgentMessage(msg);
      CoreIsFree(msg);
      var _, _, _ := CoreSlice(msg);
      AgentMessageIsDeclarative(msg);
      forall i: nat | i < |r| ensures !OccursAt(r, i, '，') {
        if i + 3 <= |core| { assert !OccursAt(core, i, '，'); }
      }
    }
  }

  // A settled text passes through the trimming steps unchanged.
  lemma TrimmingKeeps(y: string)
    requires y != "" && IsTerminator(y[|y| - 1]) && !IsSpace(y[0])
    ensures Strip(DropDangling(y)) == y && Terminated(y) == y
  {
  }

  // The one thing a second application may change: a final fragment.
  predicate EndsInFragment(s: string) {
    |s| >= 2 && s[|s| - 2] == '是' && s[|s| - 1] == '了'
  }

  lemma {:induction false} MendAtEnd(front: string)
    requires Free(front + ['是', '了'], '。')
    ensures Mend(front + Fragment('。'), '。') == front + Mended('。')
  {
    var s := front + Fragment('。');
    if front == "" {
      assert s == Fragment('。') && s[..3] == s && s[3..] == "";
      assert Mend("", '。') == "";
    } else {
      var whole := front + ['是', '了'];
      assert s[..3] != Fragment('。') by {
        assert !OccursAt(whole, 0, '。');
        assert s[..3][0] == s[0] && s[..3][1] == s[1] && s[..3][2] == s[2];
        if |front| == 1 { assert s[1] == '是'; }
      }
      assert s[1..] == front[1..] + Fragment('。');
      FreeSlice(whole, 1, |whole|, '。');
      assert whole[1..|whole|] == front[1..] + ['是', '了'];
      MendAtEnd(front[1..]);
    }
  }

  lemma MendedEndIsFree(front: string, x: char)
    requires Free(front, x) && Mark(x)
    ensures Free(front + Mended('。'), x)
  {
    var s := front + Mended('。');
    forall i: nat | i < |s| ensures !OccursAt(s, i, x) {
      if i + 3 <= |front| { assert !OccursAt(front, i, x); }
    }
  }

  lemma SettledIsFixed(y: string)
    requires Settled(y) && Free(y, '。')
    ensures SanitizeAgentMessage(y) == y
  {
    DropLeavesNone(y);
    MendNothing(y, '，');
    MendNothing(y, '。');
    if y != "" { TrimmingKeeps(y); }
  }

  // What a core satisfies that is not empty.
  predicate Mendable(core: string) {
    core != "" && Free(core, '，') && Free(core, '。') && NoQuestionMark(core) && !IsSpace(core[0])
  }

  // A core that ends in the bare fragment: the full stop supplied to it completes a
  // fragment, which a second application mends for good.
  lemma SecondApplicationMends(front: string)
    requires Mendable(front + ['是', '了'])
    ensures var y, z := front + Fragment('。'), front + Mended('。');
            SanitizeAgentMessage(y) == z && Settled(z) && Free(z, '。')
  {
    var core, y, z := front + ['是', '了'], front + Fragment('。'), front + Mended('。');
    forall c | c in y ensures !IsQuestionMark(c) { if c in core {} }
    forall i: nat | i < |y| ensures !OccursAt(y, i, '，') {
      if i + 3 <= |core| { assert !OccursAt(core, i, '，'); }
    }
    DropLeavesNone(y);
    MendNothing(y, '，');
    MendAtEnd(front);
    TrimmingKeeps(z);
    FreeSlice(core, 0, |front|, '，');
    FreeSlice(core, 0, |front|, '。');
    assert core[0..|front|] == front;
    MendedEndIsFree(front, '，');
    MendedEndIsFree(front, '。');
    forall c | c in z ensures !IsQuestionMark(c) { if c in front { assert c in core; } }
  }

  lemma CoreOfNothing()
    ensures Core("") == ""
  {
    assert Mend("", '，') == "" && Mend("", '。') == "";
  }

  // What a second application does, exactly.
  lemma SecondApplication(msg: string)
    ensures var y := SanitizeAgentMessage(msg);
            var z := SanitizeAgentMessage(y);
            if EndsInFragment(Core(msg))
            then |y| >= 3 && z == y[..|y| - 3] + Mended('。') && Settled(z) && Free(z, '。')
            else z == y
  {
    CoreOfNothing();
    if EndsInFragment(Core(msg)) {
      var front := FragmentIsCompleted(msg);
      SecondApplicationMends(front);
      assert SanitizeAgentMessage(msg)[..|front|] == front;
    } else if msg != "" {
      SanitizedIsSettled(msg);
      NoFragmentIsFree(msg);
      SettledIsFixed(SanitizeAgentMessage(msg));
    }
  }

  // The supplied full stop completes the fragment at the end of the core.
  lemma FragmentIsCompleted(msg: string) returns (front: string)
    requires msg != "" && EndsInFragment(Core(msg))
    ensures SanitizeAgentMessage(msg) == front + Fragment('。') && Mendable(front + ['是', '了'])
  {
    front := BeforeFragment(Core(msg));
    CoreIsFree(msg);
    var _, _, _ := CoreSlice(msg);
  }

  lemma BeforeFragment(core: string) returns (front: string)
    requires EndsInFragment(core)
    ensures core == front + ['是', '了'] && Terminated(core) == front + Fragment('。')
  {
    front := core[..|core| - 2];
    assert core == front + ['是', '了'];
    assert front + ['是', '了'] + ['。'] == front + Fragment('。');
  }

  lemma NoFragmentIsFree(msg: string)
    requires msg != "" && !EndsInFragment(Core(msg))
    ensures Free(SanitizeAgentMessage(msg), '。')
  {
    var y, core := SanitizeAgentMessage(msg), Core(msg);
    CoreIsFree(msg);
    forall i: nat | i < |y| ensures !OccursAt(y, i, '。') {
      if i + 3 <= |core| { assert !OccursAt(core, i, '。'); }
    }
  }

  // ---- The condition on the message itself ----

  // Without its question marks, and but for what dangles after it, the message ends in the
  // bare fragment, and no comma follows that fragment at once.
  predicate EndsBare(msg: string) {
    var clear := DropQuestionMarks(msg);
    var kept := DropDangling(clear);
    EndsInFragment(kept) && (|kept| == |clear| || clear[|kept|] != '，')
  }

  predicate AllDangle(s: string) {
    forall c <- s :: Dangles(c)
  }

  // No fragment lies across the joint of `a` and `b`.
  predicate CleanJoint(a: string, b: string, x: char) {
    && !(a != "" && a[|a| - 1] == '是' && |b| >= 2 && b[0] == '了' && b[1] == x)
    && !(EndsInFragment(a) && b != "" && b[0] == x)
  }

  lemma {:induction false} MendSplits(a: string, b: string, x: char)
    requires CleanJoint(a, b, x)
    ensures Mend(a + b, x) == Mend(a, x) + Mend(b, x)
  {
    if a == "" {
      assert a + b == b;
    } else if |a| >= 3 && a[..3] == Fragment(x) {
      MendSplits(a[3..], b, x);
      FragmentSplits(a, b, x);
    } else {
      MendSplits(a[1..], b, x);
      LetterSplits(a, b, x);
    }
  }

  lemma FragmentSplits(a: string, b: string, x: char)
    requires |a| >= 3 && a[..3] == Fragment(x) && Mend(a[3..] + b, x) == Mend(a[3..], x) + Mend(b, x)
    ensures Mend(a + b, x) == Mend(a, x) + Mend(b, x)
  {
    assert (a + b)[..3] == a[..3] && (a + b)[3..] == a[3..] + b;
    Regroup(Mended(x), Mend(a[3..], x), Mend(b, x));
  }

  lemma LetterSplits(a: string, b: string, x: char)
    requires CleanJoint(a, b, x) && a != "" && (|a| >= 3 ==> a[..3] != Fragment(x))
    requires Mend(a[1..] + b, x) == Mend(a[1..], x) + Mend(b, x)
    ensures Mend(a + b, x) == Mend(a, x) + Mend(b, x)
  {
    assert (a + b)[1..] == a[1..] + b && (a + b)[0] == a[0];
    MendsFromLetter(a, x);
    if |a + b| >= 3 { HeadIsClear(a, b, x); }
    MendsFromLetter(a + b, x);
    Regroup([a[0]], Mend(a[1..], x), Mend(b, x));
  }

  lemma MendsFromLetter(s: string, x: char)
    requires s != "" && (|s| >= 3 ==> s[..3] != Fragment(x))
    ensures Mend(s, x) == [s[0]] + Mend(s[1..], x)
  {
    if |s| < 3 { assert s == [s[0]] + s[1..]; }
  }

  lemma HeadIsClear(a: string, b: string, x: char)
    requires CleanJoint(a, b, x) && a != "" && |a + b| >= 3 && (|a| >= 3 ==> a[..3] != Fragment(x))
    ensures (a + b)[..3] != Fragment(x)
  {
    var s := a + b;
    if |a| >= 3 {
      assert s[..3] == a[..3];
    } else {
      assert s[..3][0] == a[0] && s[..3][1] == s[1] && s[..3][2] == s[2];
      assert |a| == 2 ==> s[1] == a[1] && s[2] == b[0];
      assert |a| == 1 ==> s[1] == b[0] && s[2] == b[1];
    }
  }

  lemma {:induction false} MendWithoutFragments(s: string, x: char)
    requires '是' !in s
    ensures Mend(s, x) == s
  {
    if |s| >= 3 {
      assert s[..3][0] == s[0] && s[0] in s;
      MendWithoutFragments(s[1..], x);
    }
  }

  // Mending keeps the last character, and makes or takes no bare fragment at the end.
  lemma {:induction false} MendEnds(s: string, x: char)
    requires Mark(x)
    ensures |Mend(s, x)| >= |s| && (s != "" ==> Mend(s, x)[|Mend(s, x)| - 1] == s[|s| - 1])
    ensures EndsInFragment(Mend(s, x)) <==> EndsInFragment(s)
  {
    if |s| >= 3 {
      if s[..3] == Fragment(x) {
        MendEnds(s[3..], x);
        assert s[2] == s[..3][2];
      } else {
        MendEnds(s[1..], x);
      }
    }
  }

  lemma {:induction false} DropsTail(front: string, tail: string)
    requires AllDangle(tail) && (front != "" ==> !Dangles(front[|front| - 1]))
    ensures DropDangling(front + tail) == front
  {
    if tail == "" {
      assert front + tail == front;
    } else {
      var n := |tail| - 1;
      assert (front + tail)[..|front| + n] == front + tail[..n];
      DropsTail(front, tail[..n]);
    }
  }

  lemma {:induction false} DropSplits(s: string) returns (tail: string)
    ensures s == DropDangling(s) + tail && AllDangle(tail)
    ensures DropDangling(s) != "" ==> !Dangles(DropDangling(s)[|DropDangling(s)| - 1])
  {
    if s != "" && Dangles(s[|s| - 1]) {
      tail := DropSplits(s[..|s| - 1]);
      tail := tail + [s[|s| - 1]];
    } else {
      tail := "";
    }
  }

  lemma {:induction false} StripLeftEnds(s: string)
    ensures EndsInFragment(StripLeft(s)) <==> EndsInFragment(s)
  {
    if s != "" && IsSpace(s[0]) { StripLeftEnds(s[1..]); }
  }

  lemma StripEnds(s: string)
    requires s != "" ==> !Dangles(s[|s| - 1])
    ensures EndsInFragment(Strip(s)) <==> EndsInFragment(s)
  {
    StripLeftEnds(s);
  }

  // Nothing but marks and spaces after `kept`, and no fragment made by the first of them.
  lemma MendsApart(kept: string, tail: string)
    requires AllDangle(tail) && (kept != "" ==> !Dangles(kept[|kept| - 1]))
    requires !(EndsInFragment(kept) && tail != "" && tail[0] == '，')
    ensures EndsInFragment(Strip(DropDangling(Mend(Mend(kept + tail, '，'), '。')))) <==> EndsInFragment(kept)
  {
    var once := Mend(kept, '，');
    var twice := Mend(once, '。');
    MendWithoutFragments(tail, '，');
    MendWithoutFragments(tail, '。');
    assert tail != "" ==> tail[0] in tail;
    MendSplits(kept, tail, '，');
    MendSplits(once, tail, '。');
    MendEnds(kept, '，');
    MendEnds(once, '。');
    DropsTail(twice, tail);
    StripEnds(twice);
  }

  const UNDERSTOOD := ['已', '了', '解']

  // A comma at once after the fragment makes one to mend, and is then dropped.
  lemma MendsTogether(front: string, tail: string)
    requires AllDangle(tail)
    ensures !EndsInFragment(Strip(DropDangling(Mend(Mend(front + (Fragment('，') + tail), '，'), '。'))))
  {
    var once, after := Mend(front, '，'), UNDERSTOOD + (['，'] + tail);
    MendSplits(front, Fragment('，') + tail, '，');
    FragmentMended(tail);
    MendWithoutFragments(after, '。');
    MendSplits(once, after, '。');
    UnderstoodStays(Mend(once, '。'), tail);
  }

  lemma UnderstoodStays(front: string, tail: string)
    requires AllDangle(tail)
    ensures !EndsInFragment(Strip(DropDangling(front + (UNDERSTOOD + (['，'] + tail)))))
  {
    assert front + (UNDERSTOOD + (['，'] + tail)) == front + UNDERSTOOD + (['，'] + tail);
    DropsTail(front + UNDERSTOOD, ['，'] + tail);
    StripEnds(front + UNDERSTOOD);
  }

  lemma FragmentMended(tail: string)
    requires AllDangle(tail)
    ensures Mend(Fragment('，') + tail, '，') == UNDERSTOOD + (['，'] + tail)
  {
    var s := Fragment('，') + tail;
    assert s[..3] == Fragment('，') && s[3..] == tail;
    MendWithoutFragments(tail, '，');
    assert Mended('，') + tail == UNDERSTOOD + (['，'] + tail);
  }

  lemma CoreEndsExactlyWhen(msg: string)
    ensures EndsInFragment(Core(msg)) <==> EndsBare(msg)
  {
    var clear := DropQuestionMarks(msg);
    var kept := DropDangling(clear);
    var tail := DropSplits(clear);
    if EndsInFragment(kept) && tail != "" && tail[0] == '，' {
      var front := kept[..|kept| - 2];
      assert clear == front + (Fragment('，') + tail[1..]);
      MendsTogether(front, tail[1..]);
    } else {
      MendsApart(kept, tail);
    }
  }

  // The repair is idempotent on a message exactly when the message does not end in the bare
  // fragment: only then does the supplied full stop make a new one to mend.
  lemma IdempotentExactlyWhen(msg: string)
    ensures SanitizeAgentMessage(SanitizeAgentMessage(msg)) == SanitizeAgentMessage(msg) <==> !EndsBare(msg)
  {
    SecondApplication(msg);
    CoreEndsExactlyWhen(msg);
  }

  // Three characters are enough to fail.
  lemma OneMessageFails()
    ensures var msg := ['是', '？', '了'];
            EndsBare(msg) && SanitizeAgentMessage(SanitizeAgentMessage(msg)) != SanitizeAgentMessage(msg)
  {
    var msg := ['是', '？', '了'];
    DroppedToFragment();
    assert !Dangles('了');
    IdempotentExactlyWhen(msg);
  }

  lemma DroppedToFragment()
    ensures DropQuestionMarks(['是', '？', '了']) == ['是', '了']
  {
    var msg := ['是', '？', '了'];
    DropSingle('了');
    assert msg[1..] == ['？', '了'] && msg[1..][1..] == ['了'];
    assert DropQuestionMarks(msg[1..]) == "" + DropQuestionMarks(['了']);
    assert DropQuestionMarks(msg) == ['是'] + ['了'];
  }

  // In every case two applications are enough.
  lemma TwoApplicationsSuffice(msg: string)
    ensures var twice := SanitizeAgentMessage(SanitizeAgentMessage(msg)); SanitizeAgentMessage(twice) == twice
  {
    SecondApplication(msg);
    if EndsInFragment(Core(msg)) {
      SettledIsFixed(SanitizeAgentMessage(SanitizeAgentMessage(msg)));
    }
  }

  // ---- Questions ----

  // The first question mark that a comma follows at once.
  function FirstBroken(s: string): (i: Option<nat>)
    ensures i.Some? ==> i.value + 1 < |s|
  {
    if |s| < 2 then None
    else if IsQuestionMark(s[0]) && IsComma(s[1]) then Some(0)
    else
      var j := FirstBroken(s[1..]);
      if j.Some? then Some(j.value + 1) else None
  }

  function Truncated(s: string): string {
    if FirstBroken(s).Some? then s[..FirstBroken(s).value + 1] else s
  }

  // The positions of the question marks, ascending.
  function Positions(s: string): (ps: seq<nat>)
    ensures forall i | 0 <= i < |ps| :: ps[i] < |s| && IsQuestionMark(s[ps[i]])
  {
    if s == "" then []
    else
      var n := |s| - 1;
      Positions(s[..n]) + (if IsQuestionMark(s[n]) then [n] else [])
  }

  // All question marks but the last are dropped.
  function KeepLast(s: string): string {
    var ps := Positions(s);
    if ps == [] then s
    else
      var last := ps[|ps| - 1];
      DropQuestionMarks(s[..last]) + s[last..]
  }

  function SanitizeQuestion(text: string): string {
    Strip(KeepLast(Truncated(text)))
  }

  lemma {:induction false} DropAppend(a: string, b: string)
    ensures DropQuestionMarks(a + b) == DropQuestionMarks(a) + DropQuestionMarks(b)
  {
    if a == "" {
      assert a + b == b;
    } else {
      assert (a + b)[1..] == a[1..] + b;
      DropAppend(a[1..], b);
    }
  }

  // Between and before the listed positions there is no question mark.
  lemma {:induction false} PositionsComplete(s: string, k: nat)
    requires k < |s| && IsQuestionMark(s[k])
    ensures k in Positions(s)
  {
    var n := |s| - 1;
    if k < n { PositionsComplete(s[..n], k); }
  }

  lemma {:induction false} PositionsAscend(s: string, i: nat, j: nat)
    requires i < j < |Positions(s)|
    ensures Positions(s)[i] < Positions(s)[j]
  {
    var n := |s| - 1;
    if j < |Positions(s[..n])| { PositionsAscend(s[..n], i, j); }
  }

  predicate Ascending(ps: seq<nat>) {
    forall i, j | 0 <= i < j < |ps| :: ps[i] < ps[j]
  }

  lemma AbsentBetween(ps: seq<nat>, j: nat, k: nat)
    requires Ascending(ps) && j < |ps| && k < ps[j] && (j > 0 ==> ps[j - 1] < k)
    ensures k !in ps
  {
  }

  // Between neighbouring positions there is no question mark.
  lemma NotBetween(s: string, j: nat, k: nat)
    requires j < |Positions(s)| && k < Positions(s)[j] && (j > 0 ==> Positions(s)[j - 1] < k) && k < |s|
    ensures !IsQuestionMark(s[k])
  {
    var ps := Positions(s);
    forall a, b | 0 <= a < b < |ps| ensures ps[a] < ps[b] { PositionsAscend(s, a, b); }
    AbsentBetween(ps, j, k);
    if IsQuestionMark(s[k]) { PositionsComplete(s, k); }
  }

  lemma GapIsClear(s: string, lo: nat, hi: nat, j: nat)
    requires j < |Positions(s)| && hi == Positions(s)[j]
    requires lo == if j == 0 then 0 else Positions(s)[j - 1] + 1
    ensures lo <= hi && NoQuestionMark(s[lo..hi])
  {
    if j > 0 { PositionsAscend(s, j - 1, j); }
    var gap := s[lo..hi];
    forall i: nat | i < |gap| ensures !IsQuestionMark(gap[i]) { NotBetween(s, j, lo + i); }
  }

  // Dropping the question marks of a piece that holds one at its head, then a clear gap.
  lemma DropHeadMark(head: char, gap: string, rest: string)
    requires IsQuestionMark(head) && NoQuestionMark(gap)
    ensures DropQuestionMarks([head] + gap + rest) == gap + DropQuestionMarks(rest)
  {
    DropLeavesNone(gap);
    DropSingle(head);
    DropAppend([head], gap);
    assert "" + gap == gap;
    DropAppend([head] + gap, rest);
  }

  lemma DropSingle(c: char)
    ensures DropQuestionMarks([c]) == if IsQuestionMark(c) then "" else [c]
  {
    assert [c][1..] == "" && DropQuestionMarks("") == "";
  }

  // Deleting one more question mark, counting from the back.
  lemma DeleteOne(s: string, j: nat, last: nat)
    requires 0 < j < |Positions(s)| && last == Positions(s)[|Positions(s)| - 1]
    ensures var ps := Positions(s);
            && ps[j - 1] < ps[j] <= last < |s|
            && DropQuestionMarks(s[ps[j - 1]..last]) == s[ps[j - 1] + 1..ps[j]] + DropQuestionMarks(s[ps[j]..last])
  {
    var ps := Positions(s);
    PositionsAscend(s, j - 1, j);
    if j < |ps| - 1 { PositionsAscend(s, j, |ps| - 1); }
    GapIsClear(s, ps[j - 1] + 1, ps[j], j);
    assert s[ps[j - 1]..last] == [s[ps[j - 1]]] + s[ps[j - 1] + 1..ps[j]] + s[ps[j]..last];
    DropHeadMark(s[ps[j - 1]], s[ps[j - 1] + 1..ps[j]], s[ps[j]..last]);
  }

  // The text once the question marks at `positions[j..]`, but for the last, are deleted.
  function Remaining(s: string, j: nat): string
    requires j < |Positions(s)|
  {
    var ps := Positions(s);
    DroppedFrom(s, ps[j], ps[|ps| - 1])
  }

  // The question marks of s[from..last] dropped.
  function DroppedFrom(s: string, from: nat, last: nat): string
    requires from <= |s| && last <= |s|
  {
    if from <= last then s[..from] + DropQuestionMarks(s[from..last]) + s[last..] else s
  }

  lemma NoneDeleted(s: string)
    requires Positions(s) != []
    ensures Remaining(s, |Positions(s)| - 1) == s
  {
    var last := Positions(s)[|Positions(s)| - 1];
    assert s[..last] + DropQuestionMarks(s[last..last]) == s[..last];
  }

  lemma PopOne(s: string, j: nat)
    requires 0 < j < |Positions(s)|
    ensures var pos, r := Positions(s)[j - 1], Remaining(s, j);
            pos < |r| && r[..pos] + r[pos + 1..] == Remaining(s, j - 1)
  {
    var ps := Positions(s);
    var last := ps[|ps| - 1];
    DeleteOne(s, j, last);
    RemoveOne(s, ps[j - 1], ps[j], last, Remaining(s, j), Remaining(s, j - 1));
  }

  lemma RemoveOne(s: string, pos: nat, next: nat, last: nat, r: string, fewer: string)
    requires pos < next <= last <= |s| && r == DroppedFrom(s, next, last) && fewer == DroppedFrom(s, pos, last)
    requires DropQuestionMarks(s[pos..last]) == s[pos + 1..next] + DropQuestionMarks(s[next..last])
    ensures pos < |r| && r[..pos] + r[pos + 1..] == fewer
  {
    RemoveAt(r, s, pos, next, DropQuestionMarks(s[next..last]), s[last..]);
  }

  lemma RemoveAt(chars: string, s: string, pos: nat, next: nat, mid: string, end: string)
    requires pos < next <= |s| && chars == s[..next] + mid + end
    ensures chars[..pos] + chars[pos + 1..] == s[..pos] + (s[pos + 1..next] + mid) + end
  {
    assert chars[..pos] == s[..pos] && chars[pos + 1..] == s[pos + 1..next] + mid + end;
  }

  lemma AllDeleted(s: string)
    requires Positions(s) != []
    ensures Remaining(s, 0) == KeepLast(s)
  {
    var ps := Positions(s);
    var first, last := ps[0], ps[|ps| - 1];
    if |ps| > 1 { PositionsAscend(s, 0, |ps| - 1); }
    GapIsClear(s, 0, first, 0);
    DropClearFront(s, first, last);
  }

  lemma DropClearFront(s: string, first: nat, last: nat)
    requires first <= last <= |s| && NoQuestionMark(s[0..first])
    ensures DropQuestionMarks(s[..last]) == s[..first] + DropQuestionMarks(s[first..last])
  {
    assert s[0..first] == s[..first];
    DropLeavesNone(s[..first]);
    DropAppend(s[..first], s[first..last]);
    assert s[..last] == s[..first] + s[first..last];
  }

  // The back-to-front deletions remove exactly the question marks before the last.
  method DropEarlierMarks(text: string) returns (r: string)
    ensures r == KeepLast(text)
  {
    var positions := Positions(text);
    r := text;
    if positions == [] {
      return;
    }
    NoneDeleted(text);
    var j := |positions| - 1;
    while j > 0
      invariant 0 <= j < |positions| && r == Remaining(text, j)
    {
      PopOne(text, j);
      j := j - 1;
      var pos := positions[j];
      r := r[..pos] + r[pos + 1..];
    }
    AllDeleted(text);
  }

  method SanitizeQuestionText(text: string) returns (r: string)
    ensures r == SanitizeQuestion(text)
  {
    if text == "" {
      assert FirstBroken("") == None && Positions("") == [];
      return text;
    }
    var broken := FirstBroken(text);
    var shortened := if broken.Some? then text[..broken.value + 1] else text;
    var kept := DropEarlierMarks(shortened);
    r := Strip(kept);
  }

  function MarkCount(s: string): nat {
    if s == "" then 0 else (if IsQuestionMark(s[0]) then 1 else 0) + MarkCount(s[1..])
  }

  lemma {:induction false} MarkCountAppend(a: string, b: string)
    ensures MarkCount(a + b) == MarkCount(a) + MarkCount(b)
  {
    if a == "" {
      assert a + b == b;
    } else {
      assert (a + b)[1..] == a[1..] + b;
      MarkCountAppend(a[1..], b);
    }
  }

  lemma {:induction false} NoMarksNoCount(s: string)
    ensures MarkCount(s) == 0 <==> NoQuestionMark(s)
  {
    if s != "" {
      NoMarksNoCount(s[1..]);
      assert s == [s[0]] + s[1..];
    }
  }

  predicate NoMarkBeforeComma(s: string) {
    forall i | 0 <= i < |s| - 1 :: !(IsQuestionMark(s[i]) && IsComma(s[i + 1]))
  }

  lemma {:induction false} FirstBrokenIsFirst(s: string)
    ensures FirstBroken(s).None? <==> NoMarkBeforeComma(s)
    ensures FirstBroken(s).Some? ==> NoMarkBeforeComma(s[..FirstBroken(s).value + 1]) && IsQuestionMark(s[FirstBroken(s).value])
  {
    if |s| >= 2 && !(IsQuestionMark(s[0]) && IsComma(s[1])) {
      FirstBrokenIsFirst(s[1..]);
      assert forall i | 0 < i < |s| :: s[i] == s[1..][i - 1];
      var j := FirstBroken(s[1..]);
      if j.Some? {
        var piece := s[..j.value + 2];
        assert piece[1..] == s[1..][..j.value + 1];
        forall i | 0 <= i < |piece| - 1 ensures !(IsQuestionMark(piece[i]) && IsComma(piece[i + 1])) {
          if i > 0 { assert piece[i] == piece[1..][i - 1] && piece[i + 1] == piece[1..][i]; }
        }
      }
      if NoMarkBeforeComma(s[1..]) {
        forall i | 0 <= i < |s| - 1 ensures !(IsQuestionMark(s[i]) && IsComma(s[i + 1])) {
          if i > 0 { assert s[i] == s[1..][i - 1] && s[i + 1] == s[1..][i]; }
        }
      }
    }
  }

  lemma TruncatedFacts(s: string)
    ensures NoMarkBeforeComma(Truncated(s)) && (NoQuestionMark(Truncated(s)) <==> NoQuestionMark(s))
  {
    FirstBrokenIsFirst(s);
    var i := FirstBroken(s);
    if i.Some? {
      assert s[i.value] in s && s[..i.value + 1][i.value] in s[..i.value + 1];
    }
  }

  lemma AbsentAfter(ps: seq<nat>, k: nat)
    requires Ascending(ps) && ps != [] && ps[|ps| - 1] < k
    ensures k !in ps
  {
  }

  lemma ClearAfterLast(s: string)
    requires Positions(s) != []
    ensures NoQuestionMark(s[Positions(s)[|Positions(s)| - 1] + 1..])
  {
    var ps := Positions(s);
    forall a, b | 0 <= a < b < |ps| ensures ps[a] < ps[b] { PositionsAscend(s, a, b); }
    var last := ps[|ps| - 1];
    var rest := s[last + 1..];
    forall i: nat | i < |rest| ensures !IsQuestionMark(rest[i]) {
      AbsentAfter(ps, last + 1 + i);
      if IsQuestionMark(s[last + 1 + i]) { PositionsComplete(s, last + 1 + i); }
    }
  }

  // Where the kept question mark stands.
  lemma LastMark(s: string) returns (front: string, rest: string)
    requires !NoQuestionMark(s)
    ensures s == front + rest && rest != "" && IsQuestionMark(rest[0]) && NoQuestionMark(rest[1..])
    ensures KeepLast(s) == DropQuestionMarks(front) + rest && rest == s[|front|..]
  {
    var k: nat :| k < |s| && IsQuestionMark(s[k]);
    PositionsComplete(s, k);
    ClearAfterLast(s);
    var last := Positions(s)[|Positions(s)| - 1];
    front, rest := s[..last], s[last..];
    assert rest[1..] == s[last + 1..];
  }

  lemma NothingToDrop(s: string)
    requires NoQuestionMark(s)
    ensures KeepLast(s) == s
  {
    PositionsMeanMarks(s);
  }

  lemma PositionsMeanMarks(s: string)
    ensures Positions(s) != [] ==> !NoQuestionMark(s)
  {
    if Positions(s) != [] { assert s[Positions(s)[0]] in s; }
  }

  lemma OneMarkCounts(front: string, rest: string)
    requires NoQuestionMark(front) && rest != "" && IsQuestionMark(rest[0]) && NoQuestionMark(rest[1..])
    ensures MarkCount(front + rest) == 1
  {
    NoMarksNoCount(front);
    NoMarksNoCount(rest[1..]);
    MarkCountAppend(front, rest);
  }

  lemma ClearFrontKeepsCommas(front: string, rest: string)
    requires NoQuestionMark(front) && NoMarkBeforeComma(rest)
    ensures NoMarkBeforeComma(front + rest)
  {
    var r := front + rest;
    forall i | 0 <= i < |r| - 1 ensures !(IsQuestionMark(r[i]) && IsComma(r[i + 1])) {
      if i < |front| { assert r[i] in front; } else { assert r[i] == rest[i - |front|] && r[i + 1] == rest[i + 1 - |front|]; }
    }
  }

  lemma CommasInSuffix(s: string, n: nat)
    requires NoMarkBeforeComma(s) && n <= |s|
    ensures NoMarkBeforeComma(s[n..])
  {
    var t := s[n..];
    forall i | 0 <= i < |t| - 1 ensures !(IsQuestionMark(t[i]) && IsComma(t[i + 1])) {
      assert t[i] == s[n + i] && t[i + 1] == s[n + i + 1];
    }
  }

  lemma KeepLastFacts(s: string)
    ensures MarkCount(KeepLast(s)) == if NoQuestionMark(s) then 0 else 1
    ensures NoMarkBeforeComma(s) ==> NoMarkBeforeComma(KeepLast(s))
  {
    if NoQuestionMark(s) {
      NothingToDrop(s);
      NoMarksNoCount(s);
    } else {
      var front, rest := LastMark(s);
      DropLeavesNone(front);
      OneMarkCounts(DropQuestionMarks(front), rest);
      if NoMarkBeforeComma(s) {
        CommasInSuffix(s, |front|);
        ClearFrontKeepsCommas(DropQuestionMarks(front), rest);
      }
    }
  }

  lemma StripFacts(s: string)
    ensures NoMarkBeforeComma(s) ==> NoMarkBeforeComma(Strip(s))
    ensures MarkCount(Strip(s)) == MarkCount(s)
    ensures Strip(Strip(s)) == Strip(s)
  {
    var i, n := StripSlice(s);
    var t := Strip(s);
    assert forall k | 0 <= k < |t| :: t[k] == s[i + k];
    StripKeepsCount(s);
    if t != "" { assert StripRight(t) == t && StripLeft(t) == t; }
  }

  lemma {:induction false} StripLeftKeepsCount(s: string)
    ensures MarkCount(StripLeft(s)) == MarkCount(s)
  {
    if s != "" && IsSpace(s[0]) { StripLeftKeepsCount(s[1..]); }
  }

  lemma {:induction false} StripRightKeepsCount(s: string)
    ensures MarkCount(StripRight(s)) == MarkCount(s)
  {
    if s != "" && IsSpace(s[|s| - 1]) {
      var front, c := s[..|s| - 1], s[|s| - 1];
      StripRightKeepsCount(front);
      MarkCountAppend(front, [c]);
      assert s == front + [c] && [c][1..] == "";
    }
  }

  lemma StripKeepsCount(s: string)
    ensures MarkCount(Strip(s)) == MarkCount(s)
  {
    StripRightKeepsCount(s);
    StripLeftKeepsCount(StripRight(s));
  }

  // At most one question mark, one exactly when the text had any, and never before a comma.
  lemma QuestionHasOneMark(text: string)
    ensures var r := SanitizeQuestion(text);
            && MarkCount(r) <= 1
            && (MarkCount(r) == 1 <==> !NoQuestionMark(text))
            && NoMarkBeforeComma(r)
  {
    TruncatedFacts(text);
    KeepLastFacts(Truncated(text));
    StripFacts(KeepLast(Truncated(text)));
  }

  lemma KeepLastOfOne(s: string)
    requires MarkCount(s) <= 1
    ensures KeepLast(s) == s
  {
    if NoQuestionMark(s) {
      NothingToDrop(s);
    } else {
      var front, rest := LastMark(s);
      ClearBeforeMark(front, rest);
      DropLeavesNone(front);
    }
  }

  lemma ClearBeforeMark(front: string, rest: string)
    requires MarkCount(front + rest) <= 1 && rest != "" && IsQuestionMark(rest[0])
    ensures NoQuestionMark(front)
  {
    MarkCountAppend(front, rest);
    NoMarksNoCount(front);
  }

  lemma QuestionIsIdempotent(text: string)
    ensures SanitizeQuestion(SanitizeQuestion(text)) == SanitizeQuestion(text)
  {
    var r := SanitizeQuestion(text);
    QuestionHasOneMark(text);
    FirstBrokenIsFirst(r);
    KeepLastOfOne(r);
    StripFacts(KeepLast(Truncated(text)));
  }

  // `a` can be had from `b` by deleting characters.
  ghost predicate Subsequence(a: string, b: string) {
    if a == "" then true
    else if b == "" then false
    else (a[0] == b[0] && Subsequence(a[1..], b[1..])) || Subsequence(a, b[1..])
  }

  lemma SubsequenceSkip(a: string, b: string, c: char)
    requires Subsequence(a, b)
    ensures Subsequence(a, [c] + b)
  {
    assert ([c] + b)[1..] == b;
  }

  lemma {:induction false} SubsequenceTransitive(a: string, b: string, c: string)
    requires Subsequence(a, b) && Subsequence(b, c)
    ensures Subsequence(a, c)
    decreases |c|
  {
    if a != "" {
      if Subsequence(b, c[1..]) {
        SubsequenceTransitive(a, b, c[1..]);
      } else if Subsequence(a, b[1..]) {
        SubsequenceTransitive(a, b[1..], c[1..]);
      } else {
        SubsequenceTransitive(a[1..], b[1..], c[1..]);
      }
    }
  }

  lemma {:induction false} SubsequenceSlice(s: string, i: nat, n: nat)
    requires i <= n <= |s|
    ensures Subsequence(s[i..n], s)
    decreases |s|
  {
    if i < n {
      assert s == [s[0]] + s[1..];
      if i == 0 {
        SubsequenceSlice(s[1..], 0, n - 1);
        SubsequenceMatch(s[1..][0..n - 1], s[1..], s[0]);
        assert s[0..n] == [s[0]] + s[1..][0..n - 1];
      } else {
        SubsequenceSlice(s[1..], i - 1, n - 1);
        SubsequenceSkip(s[1..][i - 1..n - 1], s[1..], s[0]);
        assert s[i..n] == s[1..][i - 1..n - 1];
      }
    }
  }

  lemma SubsequenceMatch(a: string, b: string, c: char)
    requires Subsequence(a, b)
    ensures Subsequence([c] + a, [c] + b)
  {
    assert ([c] + a)[1..] == a && ([c] + b)[1..] == b;
  }

  lemma {:induction false} DropIsSubsequence(s: string, t: string)
    ensures Subsequence(DropQuestionMarks(s) + t, s + t)
  {
    if s == "" {
      SubsequenceSlice(t, 0, |t|);
      assert t[0..|t|] == t && DropQuestionMarks(s) + t == t && s + t == t;
    } else {
      DropIsSubsequence(s[1..], t);
      var a, b := DropQuestionMarks(s[1..]) + t, s[1..] + t;
      assert s + t == [s[0]] + b;
      if IsQuestionMark(s[0]) {
        assert DropQuestionMarks(s) + t == a;
        SubsequenceSkip(a, b, s[0]);
      } else {
        assert DropQuestionMarks(s) + t == [s[0]] + a;
        SubsequenceMatch(a, b, s[0]);
      }
    }
  }

  // Nothing is invented: the repaired question is had from the text by deletions.
  lemma QuestionIsSubsequence(text: string)
    ensures Subsequence(SanitizeQuestion(text), text)
  {
    var shortened := Truncated(text);
    var kept := KeepLast(shortened);
    SubsequenceSlice(text, 0, |shortened|);
    assert text[0..|shortened|] == shortened;
    if !NoQuestionMark(shortened) {
      var front, rest := LastMark(shortened);
      DropIsSubsequence(front, rest);
    } else {
      NothingToDrop(shortened);
      SubsequenceSlice(shortened, 0, |shortened|);
      assert shortened[0..|shortened|] == shortened;
    }
    var i, n := StripSlice(kept);
    SubsequenceSlice(kept, i, n);
    SubsequenceTransitive(Strip(kept), kept, shortened);
    SubsequenceTransitive(Strip(kept), shortened, text);
  }

  // ---- Both repairs, told without their steps ----

  predicate IsKeptChar(c: char) {
    !IsQuestionMark(c)
  }

  function Itself(c: char): char {
    c
  }

  lemma {:induction false} MarksAreDropped(s: string)
    ensures DropQuestionMarks(s) == Picked(s, IsKeptChar, Itself)
  {
    if s != "" {
      MarksAreDropped(s[1..]);
      PickedFirst(s, IsKeptChar, Itself);
    }
  }

  predicate AllSpaces(s: string) {
    forall c <- s :: IsSpace(c)
  }

  // Where `pattern` stands in `s`, `patch` stands in `r`, and nothing else differs.
  ghost predicate Replaced(s: string, x: char, pattern: string, patch: string, r: string) {
    exists parts: seq<string> :: Between(s, x, pattern, patch, r, parts)
  }

  ghost predicate Between(s: string, x: char, pattern: string, patch: string, r: string, parts: seq<string>) {
    && parts != [] && (forall part <- parts :: Free(part, x))
    && s == Join(parts, pattern) && r == Join(parts, patch)
  }

  // The first part grows by a letter, or an empty one is put in front.
  lemma LetterInFront(c: char, parts: seq<string>, sep: string)
    requires parts != []
    ensures Join([[c] + parts[0]] + parts[1..], sep) == [c] + Join(parts, sep)
  {
    var more := [[c] + parts[0]] + parts[1..];
    assert more[1..] == parts[1..];
    if |parts| > 1 {
      assert [c] + (parts[0] + sep + Join(parts[1..], sep)) == [c] + parts[0] + sep + Join(parts[1..], sep);
    }
  }

  lemma NothingInFront(parts: seq<string>, sep: string)
    requires parts != []
    ensures Join([""] + parts, sep) == sep + Join(parts, sep)
  {
    assert ([""] + parts)[1..] == parts;
  }

  lemma {:induction false} MendReplaces(s: string, x: char) returns (parts: seq<string>)
    requires Mark(x)
    ensures Between(s, x, Fragment(x), Mended(x), Mend(s, x), parts)
    ensures parts[0] <= s
  {
    if |s| < 3 {
      parts := [s];
    } else if s[..3] == Fragment(x) {
      var rest := MendReplaces(s[3..], x);
      parts := [""] + rest;
      NothingInFront(rest, Fragment(x));
      NothingInFront(rest, Mended(x));
      assert s == Fragment(x) + s[3..];
    } else {
      var rest := MendReplaces(s[1..], x);
      parts := [[s[0]] + rest[0]] + rest[1..];
      LetterInFront(s[0], rest, Fragment(x));
      LetterInFront(s[0], rest, Mended(x));
      assert s == [s[0]] + s[1..];
      FreeInFront(s, rest[0], x);
    }
  }

  lemma FreeInFront(s: string, part: string, x: char)
    requires |s| >= 3 && s[..3] != Fragment(x) && part <= s[1..] && Free(part, x)
    ensures Free([s[0]] + part, x) && [s[0]] + part <= s
  {
    var more := [s[0]] + part;
    forall i: nat | i < |more| ensures !OccursAt(more, i, x) {
      if i > 0 {
        assert !OccursAt(part, i - 1, x);
      } else if |part| >= 2 {
        assert s[..3] == [s[0], part[0], part[1]];
      }
    }
  }

  lemma StripTold(s: string) returns (lead: string, trail: string)
    ensures s == lead + Strip(s) + trail && AllSpaces(lead) && AllSpaces(trail)
    ensures Strip(s) != "" ==> !IsSpace(Strip(s)[0]) && !IsSpace(Strip(s)[|Strip(s)| - 1])
  {
    var _, _ := StripSlice(s);
    trail := StripRightTail(s);
    lead := StripLeftHead(StripRight(s));
    Regroup(lead, Strip(s), trail);
  }

  lemma {:induction false} StripRightTail(s: string) returns (trail: string)
    ensures s == StripRight(s) + trail && AllSpaces(trail)
  {
    trail := "";
    if s != "" && IsSpace(s[|s| - 1]) {
      trail := StripRightTail(s[..|s| - 1]);
      trail := trail + [s[|s| - 1]];
    }
  }

  lemma {:induction false} StripLeftHead(s: string) returns (lead: string)
    ensures s == lead + StripLeft(s) && AllSpaces(lead)
  {
    lead := "";
    if s != "" && IsSpace(s[0]) {
      lead := StripLeftHead(s[1..]);
      lead := [s[0]] + lead;
    }
  }

  // The text without surrounding spaces.
  ghost predicate Stripped(s: string, r: string) {
    && (r != "" ==> !IsSpace(r[0]) && !IsSpace(r[|r| - 1]))
    && exists lead, trail :: s == lead + r + trail && AllSpaces(lead) && AllSpaces(trail)
  }

  lemma StripIsStripped(s: string)
    ensures Stripped(s, Strip(s))
  {
    var lead, trail := StripTold(s);
  }

  // What dangles at the end is gone, all of it and no more.
  ghost predicate Undangled(s: string, r: string) {
    r <= s && AllDangle(s[|r|..]) && (r != "" ==> !Dangles(r[|r| - 1]))
  }

  // The agent's message: question marks out, both fragments mended, the end trimmed, spaces
  // stripped, and a full stop supplied where no terminator stands.
  ghost predicate MessageRepaired(msg: string, once: string, twice: string, kept: string, core: string, r: string) {
    && Replaced(Picked(msg, IsKeptChar, Itself), '，', "是了，", "已了解，", once)
    && Replaced(once, '。', "是了。", "已了解。", twice)
    && Undangled(twice, kept) && Stripped(kept, core)
    && r == if core == "" || IsTerminator(core[|core| - 1]) then core else core + "。"
  }

  lemma AgentMessageTold(msg: string)
    ensures exists once, twice, kept, core :: MessageRepaired(msg, once, twice, kept, core, SanitizeAgentMessage(msg))
  {
    var clear := DropQuestionMarks(msg);
    var once := Mend(clear, '，');
    var twice := Mend(once, '。');
    var kept := DropDangling(twice);
    MarksAreDropped(msg);
    FragmentsSpelled();
    var parts := MendReplaces(clear, '，');
    assert Replaced(clear, '，', "是了，", "已了解，", once);
    parts := MendReplaces(once, '。');
    assert Replaced(once, '。', "是了。", "已了解。", twice);
    var tail := DropSplits(twice);
    assert twice[|kept|..] == tail;
    StripIsStripped(kept);
    CoreOfNothing();
    assert MessageRepaired(msg, once, twice, kept, Strip(kept), SanitizeAgentMessage(msg));
  }

  lemma FragmentsSpelled()
    ensures Fragment('，') == "是了，" && Mended('，') == "已了解，" && Fragment('。') == "是了。" && Mended('。') == "已了解。"
  {
  }

  // The first n characters: all of the text, or up to the first question mark that a comma
  // follows at once.
  predicate CutAt(text: string, n: nat) {
    && n <= |text| && NoMarkBeforeComma(text[..n])
    && (n < |text| ==> n > 0 && IsQuestionMark(text[n - 1]) && IsComma(text[n]))
  }

  // Every question mark but the last is gone, and nothing else.
  ghost predicate LastMarkKept(s: string, r: string) {
    if NoQuestionMark(s) then r == s
    else exists last: nat :: last < |s| && IsQuestionMark(s[last]) && NoQuestionMark(s[last + 1..])
                             && r == Picked(s[..last], IsKeptChar, Itself) + s[last..]
  }

  // A question: cut, cleared of all marks but its last, and stripped.
  ghost predicate QuestionRepaired(text: string, n: nat, kept: string, r: string) {
    CutAt(text, n) && LastMarkKept(text[..n], kept) && Stripped(kept, r)
  }

  lemma QuestionTold(text: string)
    ensures exists n: nat, kept :: QuestionRepaired(text, n, kept, SanitizeQuestion(text))
  {
    var s := Truncated(text);
    CutIsFirst(text);
    KeptIsTold(s);
    StripIsStripped(KeepLast(s));
    QuestionWitness(text, s);
  }

  lemma QuestionWitness(text: string, s: string)
    requires s <= text && CutAt(text, |s|) && LastMarkKept(s, KeepLast(s)) && s == Truncated(text)
    requires Stripped(KeepLast(s), Strip(KeepLast(s)))
    ensures exists n: nat, kept :: QuestionRepaired(text, n, kept, SanitizeQuestion(text))
  {
    assert text[..|s|] == s;
    assert QuestionRepaired(text, |s|, KeepLast(s), SanitizeQuestion(text));
  }

  lemma CutIsFirst(text: string)
    ensures Truncated(text) <= text && CutAt(text, |Truncated(text)|)
  {
    FirstBrokenIsFirst(text);
    var i := FirstBroken(text);
    if i.Some? { BrokenStands(text); } else { assert text[..|text|] == text; }
  }

  lemma {:induction false} BrokenStands(text: string)
    requires FirstBroken(text).Some?
    ensures var i := FirstBroken(text).value; i + 1 < |text| && IsQuestionMark(text[i]) && IsComma(text[i + 1])
  {
    if !(IsQuestionMark(text[0]) && IsComma(text[1])) { BrokenStands(text[1..]); }
  }

  lemma KeptIsTold(s: string)
    ensures LastMarkKept(s, KeepLast(s))
  {
    if NoQuestionMark(s) {
      NothingToDrop(s);
    } else {
      var front, rest := LastMark(s);
      MarksAreDropped(front);
      assert s[..|front|] == front && s[|front|..] == rest && s[|front| + 1..] == rest[1..];
    }
  }

  // ---- The tool input, rewritten in place ----

  class Question {
    var question: Option<string>
  }

  class ClarificationInput {
    var agentMessage: Option<string>
    const questions: seq<Question>

    constructor (agentMessage: Option<string>, questions: seq<Question>)
      ensures this.agentMessage == agentMessage && this.questions == questions
    {
      this.agentMessage := agentMessage;
      this.questions := questions;
    }

    static method RepairQuestion(q: Question)
      modifies q
      ensures q.question == Some(SanitizeQuestion(old(q.question).GetOr("")))
    {
      var cleaned := SanitizeQuestionText(q.question.GetOr(""));
      q.question := Some(cleaned);
    }

    // A question listed twice is repaired twice, which changes nothing more.
    static method RepairQuestions(questions: seq<Question>, i: nat)
      requires i <= |questions|
      modifies questions[i..]
      ensures forall j | i <= j < |questions| ::
                questions[j].question == Some(SanitizeQuestion(old(questions[j].question).GetOr("")))
      decreases |questions| - i
    {
      if i < |questions| {
        QuestionIsIdempotent(questions[i].question.GetOr(""));
        RepairQuestion(questions[i]);
        RepairQuestions(questions, i + 1);
      }
    }

    // Rewrites the message and every question.
    method SanitizeAskClarification()
      modifies this, questions
      ensures agentMessage == Some(SanitizeAgentMessage(old(agentMessage).GetOr("")))
      ensures forall q <- questions :: q.question == Some(SanitizeQuestion(old(q.question).GetOr("")))
    {
      agentMessage := Some(SanitizeAgentMessage(agentMessage.GetOr("")));
      RepairQuestions(questions, 0);
    }
  }
}
