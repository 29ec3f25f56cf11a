// Repairing a chat list for an interface that wants user and assistant to alternate,
// with a user message at either end.
module ClaudeMessages {
  import opened Prelude
  import opened Transcripts

  datatype ChatMessage = ChatMessage(role: Role, content: string)

  const GREETING := ChatMessage(User, "Hello.")
  const OPENER := ChatMessage(User, "（对话开始）")
  const CLOSER := ChatMessage(User, "请继续。")
  const DEFAULT_SYSTEM := "You are a helpful assistant."
  const DEFAULT_REQUEST := ChatMessage(User, "请按照系统提示执行任务。")

  // ---- The cleaning loop as a fold ----

  function Take(cleaned: seq<ChatMessage>, m: ChatMessage): (r: seq<ChatMessage>)
    ensures r != []
  {
    if cleaned == [] then (if m.role != User then [OPENER] else []) + [m]
    else
      var last := cleaned[|cleaned| - 1];
      if m.role == last.role then cleaned[|cleaned| - 1 := last.(content := last.content + "\n" + m.content)]
      else cleaned + [m]
  }

  function TakeAll(ms: seq<ChatMessage>): (r: seq<ChatMessage>)
    ensures ms != [] ==> r != []
  {
    if ms == [] then [] else Take(TakeAll(ms[..|ms| - 1]), ms[|ms| - 1])
  }

  function Closed(cleaned: seq<ChatMessage>): seq<ChatMessage>
    requires cleaned != []
  {
    if cleaned[|cleaned| - 1].role != User then cleaned + [CLOSER] else cleaned
  }

  function Clean(ms: seq<ChatMessage>): seq<ChatMessage> {
    if ms == [] then [GREETING] else Closed(TakeAll(ms))
  }

  method CleanMessages(messages: seq<ChatMessage>) returns (cleaned: seq<ChatMessage>)
    ensures cleaned == Clean(messages) && (messages == [] ==> cleaned == [ChatMessage(User, "Hello.")])
  {
    if messages == [] {
      return [GREETING];
    }
    cleaned := [];
    for i := 0 to |messages|
      invariant cleaned == TakeAll(messages[..i])
    {
      var msg := messages[i];
      assert messages[..i + 1][..i] == messages[..i];
      if cleaned == [] {
        if msg.role != User {
          cleaned := cleaned + [OPENER];
        }
        cleaned := cleaned + [msg];
      } else {
        var last := cleaned[|cleaned| - 1];
        if msg.role == last.role {
          cleaned := cleaned[|cleaned| - 1 := last.(content := last.content + "\n" + msg.content)];
        } else {
          cleaned := cleaned + [msg];
        }
      }
    }
    assert messages[..|messages|] == messages;
    if cleaned[|cleaned| - 1].role != User {
      cleaned := cleaned + [CLOSER];
    }
  }

  // ---- The repaired order ----

  predicate NoEqualNeighbours(ms: seq<ChatMessage>) {
    forall i | 0 <= i < |ms| - 1 :: ms[i].role != ms[i + 1].role
  }

  lemma {:induction false} TakeAllOrder(ms: seq<ChatMessage>)
    requires ms != []
    ensures var r := TakeAll(ms);
            NoEqualNeighbours(r) && r[0].role == User && r[|r| - 1].role == ms[|ms| - 1].role
  {
    if |ms| > 1 { TakeAllOrder(ms[..|ms| - 1]); }
  }

  // Any list, whatever its roles: user first, user last, no role twice in a row.
  lemma CleanOrder(ms: seq<ChatMessage>)
    ensures var r := Clean(ms);
            r != [] && NoEqualNeighbours(r) && r[0].role == User && r[|r| - 1].role == User
  {
    if ms != [] { TakeAllOrder(ms); }
  }

  lemma {:induction false} TakeAllIdentity(ms: seq<ChatMessage>)
    requires NoEqualNeighbours(ms) && (ms != [] ==> ms[0].role == User)
    ensures TakeAll(ms) == ms
  {
    if ms != [] {
      var front := ms[..|ms| - 1];
      assert ms == front + [ms[|ms| - 1]];
      TakeAllIdentity(front);
    }
  }

  lemma CleanIsIdempotent(ms: seq<ChatMessage>)
    ensures Clean(Clean(ms)) == Clean(ms)
  {
    CleanOrder(ms);
    TakeAllIdentity(Clean(ms));
  }

  // ---- The text is kept ----

  predicate AllRole(ms: seq<ChatMessage>, role: Role) {
    forall m <- ms :: m.role == role
  }

  function Texts(ms: seq<ChatMessage>): seq<string> {
    seq(|ms|, i requires 0 <= i < |ms| => ms[i].content)
  }

  // `groups` holds one message for each of consecutive stretches that make up `ms`, each
  // stretch of one role, its texts joined by newlines.
  ghost predicate Groups(groups: seq<ChatMessage>, ms: seq<ChatMessage>)
    decreases |groups|
  {
    if groups == [] then ms == []
    else exists n: nat :: LastGroup(groups, ms, n) && Groups(groups[..|groups| - 1], ms[..n])
  }

  ghost predicate LastGroup(groups: seq<ChatMessage>, ms: seq<ChatMessage>, n: nat)
    requires groups != []
  {
    var last := groups[|groups| - 1];
    n < |ms| && AllRole(ms[n..], last.role) && last.content == Join(Texts(ms[n..]), "\n")
  }

  // What cleaning put in front of the caller's own messages.
  function Opening(ms: seq<ChatMessage>): seq<ChatMessage> {
    if ms != [] && ms[0].role != User then [OPENER] else []
  }

  lemma GroupsGrow(groups: seq<ChatMessage>, ms: seq<ChatMessage>, m: ChatMessage)
    requires Groups(groups, ms)
    ensures Groups(groups + [m], ms + [m])
  {
    var more, all := groups + [m], ms + [m];
    assert more[..|more| - 1] == groups && all[..|ms|] == ms && all[|ms|..] == [m];
    assert Texts([m]) == [m.content];
    assert LastGroup(more, all, |ms|);
  }

  lemma GroupsExtend(groups: seq<ChatMessage>, ms: seq<ChatMessage>, m: ChatMessage)
    requires groups != [] && Groups(groups, ms) && m.role == groups[|groups| - 1].role
    ensures var last := groups[|groups| - 1];
            Groups(groups[|groups| - 1 := last.(content := last.content + "\n" + m.content)], ms + [m])
  {
    var last := groups[|groups| - 1];
    var more, all := groups[|groups| - 1 := last.(content := last.content + "\n" + m.content)], ms + [m];
    var n: nat :| LastGroup(groups, ms, n) && Groups(groups[..|groups| - 1], ms[..n]);
    assert more[..|more| - 1] == groups[..|groups| - 1];
    assert all[..n] == ms[..n] && all[n..] == ms[n..] + [m];
    assert Texts(all[n..]) == Texts(ms[n..]) + [m.content];
    JoinAppend(Texts(ms[n..]), [m.content], "\n");
    assert LastGroup(more, all, n);
  }

  lemma TakeKeepsGroups(open: seq<ChatMessage>, groups: seq<ChatMessage>, ms: seq<ChatMessage>, m: ChatMessage)
    requires groups != [] && Groups(groups, ms)
    ensures Take(open + groups, m) == open + Take(groups, m) && Groups(Take(groups, m), ms + [m])
  {
    if m.role == groups[|groups| - 1].role { GroupsExtend(groups, ms, m); } else { GroupsGrow(groups, ms, m); }
  }

  lemma FirstGroup(m: ChatMessage)
    ensures Groups([m], [m]) && TakeAll([m]) == Opening([m]) + [m]
  {
    assert [m][..0] == [] && TakeAll([]) == [];
    assert Groups([], []);
    GroupsGrow([], [], m);
    assert [] + [m] == [m];
  }

  lemma {:induction false} TakeAllGroups(ms: seq<ChatMessage>) returns (body: seq<ChatMessage>)
    requires ms != []
    ensures body != [] && TakeAll(ms) == Opening(ms) + body && Groups(body, ms)
  {
    var front, m := ms[..|ms| - 1], ms[|ms| - 1];
    assert ms == front + [m];
    if front == [] {
      FirstGroup(m);
      body := [m];
    } else {
      var groups := TakeAllGroups(front);
      TakeKeepsGroups(Opening(front), groups, front, m);
      body := Take(groups, m);
      TakeOneMore(front, m);
    }
  }

  lemma TakeOneMore(front: seq<ChatMessage>, m: ChatMessage)
    requires front != []
    ensures TakeAll(front + [m]) == Take(TakeAll(front), m) && Opening(front + [m]) == Opening(front)
  {
    assert (front + [m])[..|front|] == front;
  }

  // Between an opener and a closer that are added only where needed, the cleaned list is
  // the given one with each stretch of one role joined.
  lemma CleanKeepsText(ms: seq<ChatMessage>) returns (body: seq<ChatMessage>)
    requires ms != []
    ensures Groups(body, ms) && NoEqualNeighbours(body)
    ensures Clean(ms) == Opening(ms) + body + (if ms[|ms| - 1].role != User then [CLOSER] else [])
  {
    body := TakeAllGroups(ms);
    TakeAllOrder(ms);
    SuffixOrder(Opening(ms), body);
    ClosedBy(ms);
  }

  lemma ClosedBy(ms: seq<ChatMessage>)
    requires ms != [] && TakeAll(ms)[|TakeAll(ms)| - 1].role == ms[|ms| - 1].role
    ensures Clean(ms) == TakeAll(ms) + (if ms[|ms| - 1].role != User then [CLOSER] else [])
  {
  }

  lemma SuffixOrder(open: seq<ChatMessage>, body: seq<ChatMessage>)
    requires NoEqualNeighbours(open + body)
    ensures NoEqualNeighbours(body)
  {
    forall i | 0 <= i < |body| - 1 ensures body[i].role != body[i + 1].role {
      assert (open + body)[|open| + i] == body[i] && (open + body)[|open| + i + 1] == body[i + 1];
    }
  }

  lemma {:induction false} GroupsLastRole(groups: seq<ChatMessage>, ms: seq<ChatMessage>)
    requires Groups(groups, ms)
    ensures groups == [] <==> ms == []
    ensures groups != [] ==> ms[|ms| - 1].role == groups[|groups| - 1].role
  {
    if groups != [] {
      var n: nat :| LastGroup(groups, ms, n) && Groups(groups[..|groups| - 1], ms[..n]);
      assert ms[|ms| - 1] == ms[n..][|ms| - 1 - n];
    }
  }

  // There is only one such joined list, so the two properties pin the result down.
  lemma {:induction false} GroupsUnique(a: seq<ChatMessage>, b: seq<ChatMessage>, ms: seq<ChatMessage>)
    requires Groups(a, ms) && Groups(b, ms) && NoEqualNeighbours(a) && NoEqualNeighbours(b)
    ensures a == b
    decreases |a|
  {
    GroupsLastRole(a, ms);
    GroupsLastRole(b, ms);
    if a != [] {
      var i := SameLastStretch(a, b, ms);
      GroupsUnique(a[..|a| - 1], b[..|b| - 1], ms[..i]);
      assert a == a[..|a| - 1] + [a[|a| - 1]] && b == b[..|b| - 1] + [b[|b| - 1]];
    }
  }

  lemma SameLastStretch(a: seq<ChatMessage>, b: seq<ChatMessage>, ms: seq<ChatMessage>) returns (n: nat)
    requires a != [] && b != [] && Groups(a, ms) && Groups(b, ms) && NoEqualNeighbours(a) && NoEqualNeighbours(b)
    requires a[|a| - 1].role == b[|b| - 1].role
    ensures n < |ms| && Groups(a[..|a| - 1], ms[..n]) && Groups(b[..|b| - 1], ms[..n])
    ensures a[|a| - 1] == b[|b| - 1]
  {
    var i: nat :| LastGroup(a, ms, i) && Groups(a[..|a| - 1], ms[..i]);
    var j: nat :| LastGroup(b, ms, j) && Groups(b[..|b| - 1], ms[..j]);
    NotLonger(a, b, ms, i, j);
    NotLonger(b, a, ms, j, i);
    n := i;
  }

  lemma NotLonger(a: seq<ChatMessage>, b: seq<ChatMessage>, ms: seq<ChatMessage>, i: nat, j: nat)
    requires a != [] && b != [] && NoEqualNeighbours(b) && a[|a| - 1].role == b[|b| - 1].role
    requires LastGroup(a, ms, i) && LastGroup(b, ms, j) && Groups(b[..|b| - 1], ms[..j])
    ensures i >= j
  {
    if i < j { GroupsMaximal(b, ms, j, i); }
  }

  // A last group cannot start after a message of its own role.
  lemma GroupsMaximal(groups: seq<ChatMessage>, ms: seq<ChatMessage>, n: nat, i: nat)
    requires groups != [] && NoEqualNeighbours(groups) && i < n < |ms|
    requires LastGroup(groups, ms, n) && Groups(groups[..|groups| - 1], ms[..n])
    ensures !AllRole(ms[i..], groups[|groups| - 1].role)
  {
    var rest := groups[..|groups| - 1];
    GroupsLastRole(rest, ms[..n]);
    assert rest[|rest| - 1].role != groups[|groups| - 1].role;
    assert ms[i..][n - 1 - i] == ms[..n][n - 1];
  }

  // ---- `generate`: splitting off the system messages ----

  function SystemTexts(ms: seq<ChatMessage>): seq<string> {
    if ms == [] then []
    else SystemTexts(ms[..|ms| - 1]) + (if ms[|ms| - 1].role == System then [ms[|ms| - 1].content] else [])
  }

  function ChatOnly(ms: seq<ChatMessage>): seq<ChatMessage> {
    if ms == [] then []
    else ChatOnly(ms[..|ms| - 1]) + (if ms[|ms| - 1].role == System then [] else [ms[|ms| - 1]])
  }

  method PrepareRequest(messages: seq<ChatMessage>, system: Option<string>) returns (finalSystem: string, cleaned: seq<ChatMessage>)
    ensures finalSystem != ""
    ensures system.Some? && system.value != "" ==> finalSystem == system.value
    ensures (system.None? || system.value == "") ==>
              var joined := Join(Picked(messages, IsSystem, ContentOf), "\n\n");
              finalSystem == if joined == "" then DEFAULT_SYSTEM else joined
    ensures var chat := Picked(messages, IsChat, Kept);
            SendsAll(cleaned, if chat == [] then [DEFAULT_REQUEST] else chat)
    ensures Alternates(cleaned)
  {
    var systemParts, chat := SplitMessages(messages);
    SplitIsPicked(messages);
    finalSystem := if system.Some? && system.value != "" then system.value else Join(systemParts, "\n\n");
    if finalSystem == "" {
      finalSystem := DEFAULT_SYSTEM;
    }
    var asked := if chat == [] then [DEFAULT_REQUEST] else chat;
    cleaned := CleanMessages(asked);
    SentAlternates(messages);
    AllIsSent(asked);
  }

  method SplitMessages(messages: seq<ChatMessage>) returns (systemParts: seq<string>, chat: seq<ChatMessage>)
    ensures systemParts == SystemTexts(messages) && chat == ChatOnly(messages)
  {
    systemParts, chat := [], [];
    for i := 0 to |messages|
      invariant systemParts == SystemTexts(messages[..i]) && chat == ChatOnly(messages[..i])
    {
      var msg := messages[i];
      assert messages[..i + 1][..i] == messages[..i];
      if msg.role == System {
        systemParts := systemParts + [msg.content];
      } else {
        chat := chat + [msg];
      }
    }
    assert messages[..|messages|] == messages;
  }

  lemma AllIsSent(chat: seq<ChatMessage>)
    requires chat != []
    ensures SendsAll(Clean(chat), chat)
  {
    var body := CleanKeepsText(chat);
    assert Opening(chat) == if chat[0].role != User then [OPENER] else [];
  }

  predicate IsSystem(m: ChatMessage) {
    m.role == System
  }

  predicate IsChat(m: ChatMessage) {
    m.role != System
  }

  function ContentOf(m: ChatMessage): string {
    m.content
  }

  function Kept(m: ChatMessage): ChatMessage {
    m
  }

  // All of the chat, each stretch of one role joined, between an opener and a closer that
  // are added only where needed.
  ghost predicate SendsAll(sent: seq<ChatMessage>, chat: seq<ChatMessage>) {
    && chat != []
    && exists body :: Groups(body, chat) && NoEqualNeighbours(body)
         && sent == (if chat[0].role != User then [OPENER] else []) + body
                    + (if chat[|chat| - 1].role != User then [CLOSER] else [])
  }

  // The split is by role and position: nothing is lost, moved or changed.
  lemma {:induction false} SplitIsPicked(messages: seq<ChatMessage>)
    ensures SystemTexts(messages) == Picked(messages, IsSystem, ContentOf)
    ensures ChatOnly(messages) == Picked(messages, IsChat, Kept)
  {
    if messages != [] {
      var front, m := messages[..|messages| - 1], messages[|messages| - 1];
      SplitIsPicked(front);
      PickedLater(front, m, IsSystem, ContentOf);
      PickedLater(front, m, IsChat, Kept);
      assert messages == front + [m];
    }
  }

  predicate NoSystem(ms: seq<ChatMessage>) {
    forall m <- ms :: m.role != System
  }

  // No system message, no role twice in a row, a user at both ends.
  predicate Alternates(ms: seq<ChatMessage>) {
    ms != [] && NoSystem(ms) && NoEqualNeighbours(ms) && ms[0].role == User && ms[|ms| - 1].role == User
  }

  lemma TakeBringsNoSystem(cleaned: seq<ChatMessage>, m: ChatMessage)
    requires NoSystem(cleaned) && m.role != System
    ensures NoSystem(Take(cleaned, m))
  {
    var r := Take(cleaned, m);
    if cleaned != [] { assert cleaned[|cleaned| - 1] in cleaned; }
    forall i | 0 <= i < |r| ensures r[i].role != System {
      if i < |cleaned| { assert cleaned[i] in cleaned; }
    }
  }

  lemma {:induction false} CleaningBringsNoSystem(ms: seq<ChatMessage>)
    requires NoSystem(ms)
    ensures NoSystem(TakeAll(ms))
  {
    if ms != [] {
      assert ms == ms[..|ms| - 1] + [ms[|ms| - 1]];
      CleaningBringsNoSystem(ms[..|ms| - 1]);
      TakeBringsNoSystem(TakeAll(ms[..|ms| - 1]), ms[|ms| - 1]);
    }
  }

  // What is sent alternates from user to user, whatever roles the caller gave.
  lemma SentAlternates(messages: seq<ChatMessage>)
    ensures Alternates(Clean(if ChatOnly(messages) == [] then [DEFAULT_REQUEST] else ChatOnly(messages)))
  {
    var chat := if ChatOnly(messages) == [] then [DEFAULT_REQUEST] else ChatOnly(messages);
    ChatOnlyHasNoSystem(messages);
    CleanOrder(chat);
    CleaningBringsNoSystem(chat);
  }

  // Splitting off the system messages keeps none of them and invents nothing.
  lemma {:induction false} ChatOnlyHasNoSystem(ms: seq<ChatMessage>)
    ensures forall m <- ChatOnly(ms) :: m.role != System && m in ms
  {
    if ms != [] {
      ChatOnlyHasNoSystem(ms[..|ms| - 1]);
      assert ms == ms[..|ms| - 1] + [ms[|ms| - 1]];
    }
  }
}
