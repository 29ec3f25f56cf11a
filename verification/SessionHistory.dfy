// Conversation history: a cache with expiry in front of a table of message rows.
module SessionHistory {
  import opened Prelude

  // A printer and parser of JSON, of which only their agreement is assumed, and how the host
  // language shows a parsed value.
  datatype Codec = Codec(dumps: Json -> string, loads: string -> Option<Json>, show: Json -> string)

  ghost predicate Lawful(c: Codec) {
    (forall v :: c.loads(c.dumps(v)) == Some(v)) && c.loads("") == None
  }

  // A text never denotes itself: a printed string carries its quotes.
  ghost predicate QuotesStrings(c: Codec) {
    forall s :: c.loads(s) != Some(JString(s))
  }

  datatype Entry = Entry(role: string, content: Json)

  // A stored message; its table key is the session and the message's position.
  datatype MessageRow = MessageRow(role: string, content: string)

  type Table = map<(string, nat), MessageRow>

  // ---- The list as one JSON text ----

  function EntryJson(e: Entry): Json {
    JObject(map["role" := JString(e.role), "content" := e.content])
  }

  function ListJson(entries: seq<Entry>): Json {
    JArray(seq(|entries|, i requires 0 <= i < |entries| => EntryJson(entries[i])))
  }

  function EntryOf(j: Json): Entry {
    if j.JObject? && "role" in j.fields && "content" in j.fields && j.fields["role"].JString?
    then Entry(j.fields["role"].text, j.fields["content"])
    else Entry("", JNull)
  }

  function EntriesOf(j: Json): seq<Entry> {
    if j.JArray? then seq(|j.items|, i requires 0 <= i < |j.items| => EntryOf(j.items[i])) else []
  }

  lemma ListRoundTrip(c: Codec, entries: seq<Entry>)
    requires Lawful(c)
    ensures c.dumps(ListJson(entries)) != ""
    ensures c.loads(c.dumps(ListJson(entries))) == Some(ListJson(entries)) && EntriesOf(ListJson(entries)) == entries
  {
  }

  // ---- The list as rows ----

  function StoredContent(c: Codec, content: Json): string {
    if content.JString? then content.text else c.dumps(content)
  }

  function LoadedContent(c: Codec, text: string): Json {
    c.loads(text).GetOr(JString(text))
  }

  function RowFor(c: Codec, e: Entry): MessageRow {
    MessageRow(e.role, StoredContent(c, e.content))
  }

  function EntryFrom(c: Codec, row: MessageRow): Entry {
    Entry(row.role, LoadedContent(c, row.content))
  }

  // A text that itself parses as JSON comes back as something else.
  predicate Survives(c: Codec, content: Json) {
    content.JString? ==> c.loads(content.text).None?
  }

  lemma RowRoundTrip(c: Codec, e: Entry)
    requires Lawful(c) && QuotesStrings(c)
    ensures EntryFrom(c, RowFor(c, e)) == e <==> Survives(c, e.content)
  {
  }

  predicate AllSurvive(c: Codec, entries: seq<Entry>) {
    forall e <- entries :: Survives(c, e.content)
  }

  function RowsFor(c: Codec, entries: seq<Entry>): seq<MessageRow> {
    seq(|entries|, i requires 0 <= i < |entries| => RowFor(c, entries[i]))
  }

  function EntriesFrom(c: Codec, rows: seq<MessageRow>): seq<Entry> {
    seq(|rows|, i requires 0 <= i < |rows| => EntryFrom(c, rows[i]))
  }

  // The rows restore the list exactly when none of its texts parses as JSON.
  lemma RowsRoundTrip(c: Codec, entries: seq<Entry>)
    requires Lawful(c) && QuotesStrings(c)
    ensures EntriesFrom(c, RowsFor(c, entries)) == entries <==> AllSurvive(c, entries)
  {
    var back := EntriesFrom(c, RowsFor(c, entries));
    if AllSurvive(c, entries) {
      forall i | 0 <= i < |entries| ensures back[i] == entries[i] {
        assert entries[i] in entries;
        RowRoundTrip(c, entries[i]);
      }
    }
    if back == entries {
      forall e <- entries ensures Survives(c, e.content) {
        var i :| 0 <= i < |entries| && entries[i] == e;
        assert back[i] == e;
        RowRoundTrip(c, e);
      }
    }
  }

  function WithoutSession(table: Table, session: string): Table {
    map key | key in table && key.0 != session :: table[key]
  }

  // All rows of the session deleted, then one inserted per message.
  function Rewritten(table: Table, session: string, rows: seq<MessageRow>): Table {
    if rows == [] then WithoutSession(table, session)
    else Rewritten(table, session, rows[..|rows| - 1])[(session, |rows| - 1) := rows[|rows| - 1]]
  }

  function Positions(table: Table, session: string): set<int> {
    set key <- table.Keys | key.0 == session :: key.1
  }

  // The session's rows, ordered by message position.
  function Select(table: Table, session: string): seq<MessageRow> {
    var order := Sorted(Positions(table, session));
    seq(|order|, i requires 0 <= i < |order| =>
      assert order[i] in Positions(table, session);
      table[(session, order[i])])
  }

  lemma {:induction false} RewrittenAt(table: Table, session: string, rows: seq<MessageRow>, s: string, i: nat)
    ensures var t := Rewritten(table, session, rows);
            if s == session then ((s, i) in t <==> i < |rows|) && (i < |rows| ==> t[(s, i)] == rows[i])
            else ((s, i) in t <==> (s, i) in table) && ((s, i) in table ==> t[(s, i)] == table[(s, i)])
  {
    if rows != [] { RewrittenAt(table, session, rows[..|rows| - 1], s, i); }
  }

  lemma {:induction false} AscendingRange(order: seq<int>, n: nat, i: nat)
    requires forall i, j | 0 <= i < j < |order| :: order[i] < order[j]
    requires forall k :: k in order <==> 0 <= k < n
    requires i <= |order|
    ensures i <= n && (i < |order| ==> order[i] == i) && (i == |order| ==> i == n)
  {
    if i > 0 {
      AscendingRange(order, n, i - 1);
      assert order[i - 1] in order;
    }
    assert i < n ==> i in order;
    assert i < |order| ==> order[i] in order;
  }

  lemma RewrittenSelects(table: Table, session: string, rows: seq<MessageRow>)
    ensures Select(Rewritten(table, session, rows), session) == rows
  {
    var t := Rewritten(table, session, rows);
    forall i: nat { RewrittenAt(table, session, rows, session, i); }
    var order := Sorted(Positions(t, session));
    forall k ensures k in Positions(t, session) <==> 0 <= k < |rows| {
      if 0 <= k < |rows| { assert (session, k as nat) in t.Keys; }
    }
    AscendingRange(order, |rows|, |order|);
    var got := Select(t, session);
    forall i | 0 <= i < |got| ensures got[i] == rows[i] {
      AscendingRange(order, |rows|, i);
      RewrittenAt(table, session, rows, session, i);
    }
  }

  lemma RewrittenElsewhere(table: Table, session: string, rows: seq<MessageRow>, other: string)
    requires other != session
    ensures Select(Rewritten(table, session, rows), other) == Select(table, other)
  {
    var t := Rewritten(table, session, rows);
    forall i: nat { RewrittenAt(table, session, rows, other, i); }
    forall k ensures k in Positions(t, other) <==> k in Positions(table, other) {
      if k in Positions(t, other) { assert (other, k as nat) in t.Keys && (other, k as nat) in table.Keys; }
      if k in Positions(table, other) { assert (other, k as nat) in t.Keys; }
    }
    assert Positions(t, other) == Positions(table, other);
    var order := Sorted(Positions(table, other));
    forall i | 0 <= i < |order| ensures Select(t, other)[i] == Select(table, other)[i] {
      assert order[i] in Positions(table, other);
      RewrittenAt(table, session, rows, other, order[i]);
    }
  }

  // ---- The store ----

  datatype Store = Store(cache: map<string, string>, table: Table)

  const EMPTY := Store(map[], map[])

  function Key(session: string): string {
    "session:" + session + ":history"
  }

  lemma KeyIsInjective(a: string, b: string)
    ensures Key(a) == Key(b) <==> a == b
  {
    assert Key(a)[8..|Key(a)| - 8] == a && Key(b)[8..|Key(b)| - 8] == b;
  }

  function Saved(c: Codec, w: Store, session: string, entries: seq<Entry>): Store {
    Store(w.cache[Key(session) := c.dumps(ListJson(entries))], Rewritten(w.table, session, RowsFor(c, entries)))
  }

  predicate Cached(w: Store, session: string) {
    Key(session) in w.cache && w.cache[Key(session)] != ""
  }

  // What a read returns.
  function Found(c: Codec, w: Store, session: string): seq<Entry> {
    if Cached(w, session) then EntriesOf(c.loads(w.cache[Key(session)]).GetOr(JNull))
    else EntriesFrom(c, Select(w.table, session))
  }

  // A miss refills the cache, unless there is nothing to put there.
  function Refilled(c: Codec, w: Store, session: string): Store {
    if Cached(w, session) || Found(c, w, session) == [] then w
    else w.(cache := w.cache[Key(session) := c.dumps(ListJson(Found(c, w, session)))])
  }

  class SessionManager {
    const codec: Codec
    var cache: map<string, string>
    var table: Table

    constructor (codec: Codec)
      ensures this.codec == codec && World() == EMPTY
    {
      this.codec := codec;
      cache, table := map[], map[];
    }

    function World(): Store
      reads this
    {
      Store(cache, table)
    }

    method SaveMessages(session: string, messages: seq<Entry>)
      modifies this`table
      ensures table == Rewritten(old(table), session, RowsFor(codec, messages))
    {
      ghost var before := table;
      table := map key | key in table && key.0 != session :: table[key];
      var rows := RowsFor(codec, messages);
      for idx := 0 to |messages|
        invariant table == Rewritten(before, session, rows[..idx])
      {
        var content := messages[idx].content;
        var text := if content.JString? then content.text else codec.dumps(content);
        assert rows[..idx + 1][..idx] == rows[..idx];
        table := table[(session, idx) := MessageRow(messages[idx].role, text)];
      }
      assert rows[..|messages|] == rows;
    }

    method GetMessages(session: string) returns (entries: seq<Entry>)
      ensures entries == EntriesFrom(codec, Select(table, session))
    {
      entries := [];
      var rows := Select(table, session);
      for i := 0 to |rows|
        invariant entries == EntriesFrom(codec, rows[..i])
      {
        var parsed := codec.loads(rows[i].content);
        var content := if parsed.Some? then parsed.value else JString(rows[i].content);
        entries := entries + [Entry(rows[i].role, content)];
      }
      assert rows[..|rows|] == rows;
    }

    method SaveHistory(session: string, messages: seq<Entry>)
      modifies this
      ensures World() == Saved(codec, old(World()), session, messages)
    {
      cache := cache[Key(session) := codec.dumps(ListJson(messages))];
      SaveMessages(session, messages);
    }

    method GetHistory(session: string) returns (messages: seq<Entry>)
      modifies this
      ensures messages == Found(codec, old(World()), session)
      ensures World() == Refilled(codec, old(World()), session)
    {
      var raw := if Key(session) in cache then cache[Key(session)] else "";
      if raw != "" {
        return EntriesOf(codec.loads(raw).GetOr(JNull));
      }
      messages := GetMessages(session);
      if messages != [] {
        cache := cache[Key(session) := codec.dumps(ListJson(messages))];
      }
    }

    method AppendToHistory(session: string, newMessages: seq<Entry>) returns (history: seq<Entry>)
      modifies this
      ensures history == Found(codec, old(World()), session) + newMessages
      ensures World() == Saved(codec, Refilled(codec, old(World()), session), session, history)
    {
      history := GetHistory(session);
      history := history + newMessages;
      SaveHistory(session, history);
    }

    // The cache forgets a session's entry when its time is up.
    method Expire(session: string)
      modifies this`cache
      ensures World() == Step(codec, old(World()), Expired(session))
    {
      cache := cache - {Key(session)};
    }
  }

  // ---- Whole runs ----

  datatype Op =
    | Save(session: string, entries: seq<Entry>)
    | Append(session: string, entries: seq<Entry>)
    | Read(session: string)
    | Expired(session: string)

  function Step(c: Codec, w: Store, op: Op): Store {
    match op
    case Save(s, entries) => Saved(c, w, s, entries)
    case Append(s, entries) => Saved(c, Refilled(c, w, s), s, Found(c, w, s) + entries)
    case Read(s) => Refilled(c, w, s)
    case Expired(s) => w.(cache := w.cache - {Key(s)})
  }

  function Run(c: Codec, ops: seq<Op>): Store {
    if ops == [] then EMPTY else Step(c, Run(c, ops[..|ops| - 1]), ops[|ops| - 1])
  }

  function ExpectedAfter(before: seq<Entry>, op: Op): seq<Entry> {
    match op
    case Save(_, entries) => entries
    case Append(_, entries) => before + entries
    case _ => before
  }

  // The last saved list and all later appends, with no cache and no table in sight.
  function Expected(ops: seq<Op>, session: string): seq<Entry> {
    if ops == [] then []
    else
      var before := Expected(ops[..|ops| - 1], session);
      if ops[|ops| - 1].session == session then ExpectedAfter(before, ops[|ops| - 1]) else before
  }

  // ---- What a session shows, with no cache and no table in sight ----

  // The list last written, and whether the cache has lost it since.
  datatype View = View(written: seq<Entry>, lost: bool)

  // A list read back from its own rows.
  function Reread(c: Codec, entries: seq<Entry>): seq<Entry> {
    EntriesFrom(c, RowsFor(c, entries))
  }

  function Shown(c: Codec, v: View): seq<Entry> {
    if v.lost then Reread(c, v.written) else v.written
  }

  function ViewAfter(c: Codec, v: View, op: Op): View {
    match op
    case Save(_, entries) => View(entries, false)
    case Append(_, entries) => View(Shown(c, v) + entries, false)
    case Read(_) => v
    case Expired(_) => v.(lost := true)
  }

  function ViewOf(c: Codec, ops: seq<Op>, session: string): View {
    if ops == [] then View([], false)
    else
      var before := ViewOf(c, ops[..|ops| - 1], session);
      if ops[|ops| - 1].session == session then ViewAfter(c, before, ops[|ops| - 1]) else before
  }

  // The store presents the view: its rows are of the written list, its cache, if it has an
  // entry, is of the shown one, and without an entry the two readings agree.
  ghost predicate Presents(c: Codec, w: Store, session: string, v: View) {
    && Select(w.table, session) == RowsFor(c, v.written)
    && (if Cached(w, session) then w.cache[Key(session)] == c.dumps(ListJson(Shown(c, v)))
        else Shown(c, v) == Reread(c, v.written))
  }

  lemma PresentsMeansFound(c: Codec, w: Store, session: string, v: View)
    requires Lawful(c) && Presents(c, w, session, v)
    ensures Found(c, w, session) == Shown(c, v) && Presents(c, Refilled(c, w, session), session, v)
  {
    ListRoundTrip(c, Shown(c, v));
  }

  lemma SavedPresents(c: Codec, w: Store, session: string, entries: seq<Entry>)
    requires Lawful(c)
    ensures Presents(c, Saved(c, w, session, entries), session, View(entries, false))
  {
    ListRoundTrip(c, entries);
    RewrittenSelects(w.table, session, RowsFor(c, entries));
  }

  lemma OwnSessionPresents(c: Codec, w: Store, op: Op, v: View)
    requires Lawful(c) && Presents(c, w, op.session, v)
    ensures Presents(c, Step(c, w, op), op.session, ViewAfter(c, v, op))
  {
    PresentsMeansFound(c, w, op.session, v);
    match op {
      case Save(s, entries) => SavedPresents(c, w, s, entries);
      case Append(s, entries) => SavedPresents(c, Refilled(c, w, s), s, Shown(c, v) + entries);
      case _ =>
    }
  }

  lemma OtherSessionsPresent(c: Codec, w: Store, op: Op, session: string, v: View)
    requires Presents(c, w, session, v) && op.session != session
    ensures Presents(c, Step(c, w, op), session, v)
  {
    KeyIsInjective(op.session, session);
    match op {
      case Save(s, more) => RewrittenElsewhere(w.table, s, RowsFor(c, more), session);
      case Append(s, more) => RewrittenElsewhere(w.table, s, RowsFor(c, Found(c, w, s) + more), session);
      case _ =>
    }
  }

  lemma {:induction false} RunPresents(c: Codec, ops: seq<Op>, session: string)
    requires Lawful(c)
    ensures Presents(c, Run(c, ops), session, ViewOf(c, ops, session))
  {
    if ops == [] {
      assert Positions(EMPTY.table, session) == {};
    } else {
      var front, op := ops[..|ops| - 1], ops[|ops| - 1];
      RunPresents(c, front, session);
      if op.session != session {
        OtherSessionsPresent(c, Run(c, front), op, session, ViewOf(c, front, session));
      } else {
        OwnSessionPresents(c, Run(c, front), op, ViewOf(c, front, session));
      }
    }
  }

  // After any run over any sessions, with any texts: a read returns the list last written,
  // read back from its rows if an expiry came since.
  lemma ReadsShowTheView(c: Codec, ops: seq<Op>, session: string)
    requires Lawful(c)
    ensures Found(c, Run(c, ops), session) == Shown(c, ViewOf(c, ops, session))
  {
    RunPresents(c, ops, session);
    PresentsMeansFound(c, Run(c, ops), session, ViewOf(c, ops, session));
  }

  // ---- When expiry does not show ----

  // Here and at every earlier point of the run, a read returns the last saved list and all
  // later appends.
  ghost predicate AlwaysFaithful(c: Codec, ops: seq<Op>, session: string) {
    && Found(c, Run(c, ops), session) == Expected(ops, session)
    && (ops != [] ==> AlwaysFaithful(c, ops[..|ops| - 1], session))
  }

  // Whenever the session's entry expires, none of the texts it is to hold parses as JSON.
  ghost predicate AlwaysHarmless(c: Codec, ops: seq<Op>, session: string) {
    ops != [] ==>
      var front := ops[..|ops| - 1];
      && AlwaysHarmless(c, front, session)
      && (ops[|ops| - 1] == Expired(session) ==> AllSurvive(c, Expected(front, session)))
  }

  lemma OneOpFaithful(c: Codec, before: View, expected: seq<Entry>, op: Op)
    requires Lawful(c) && QuotesStrings(c) && before.written == expected == Shown(c, before)
    ensures var after := ViewAfter(c, before, op);
            && after.written == ExpectedAfter(expected, op)
            && (Shown(c, after) == ExpectedAfter(expected, op) <==> (op.Expired? ==> AllSurvive(c, expected)))
  {
    RowsRoundTrip(c, expected);
  }

  // Over whole runs: every read along the way is faithful if and only if every expiry finds
  // a list of harmless texts.
  lemma {:induction false} ReadsAreFaithfulExactlyWhen(c: Codec, ops: seq<Op>, session: string)
    requires Lawful(c) && QuotesStrings(c)
    ensures AlwaysFaithful(c, ops, session) <==> AlwaysHarmless(c, ops, session)
    ensures AlwaysFaithful(c, ops, session) ==> ViewOf(c, ops, session).written == Expected(ops, session)
  {
    ReadsShowTheView(c, ops, session);
    if ops != [] {
      var front, op := ops[..|ops| - 1], ops[|ops| - 1];
      ReadsShowTheView(c, front, session);
      ReadsAreFaithfulExactlyWhen(c, front, session);
      if AlwaysFaithful(c, front, session) && op.session == session {
        OneOpFaithful(c, ViewOf(c, front, session), Expected(front, session), op);
      }
    }
  }

  predicate OpSurvives(c: Codec, op: Op) {
    op.Save? || op.Append? ==> AllSurvive(c, op.entries)
  }

  lemma {:induction false} ExpectedSurvives(c: Codec, ops: seq<Op>, session: string)
    requires forall op <- ops :: OpSurvives(c, op)
    ensures AllSurvive(c, Expected(ops, session))
  {
    if ops != [] {
      assert ops[|ops| - 1] in ops;
      forall op <- ops[..|ops| - 1] ensures OpSurvives(c, op) { assert op in ops; }
      ExpectedSurvives(c, ops[..|ops| - 1], session);
    }
  }

  // In particular, while no text written parses as JSON, a read returns the last saved list
  // and all later appends: whether the cache still had it does not show.
  lemma ReadsSeeTheLastWrite(c: Codec, ops: seq<Op>, session: string)
    requires Lawful(c) && QuotesStrings(c) && forall op <- ops :: OpSurvives(c, op)
    ensures Found(c, Run(c, ops), session) == Expected(ops, session)
  {
    SurvivorsAreHarmless(c, ops, session);
    ReadsAreFaithfulExactlyWhen(c, ops, session);
  }

  lemma {:induction false} SurvivorsAreHarmless(c: Codec, ops: seq<Op>, session: string)
    requires forall op <- ops :: OpSurvives(c, op)
    ensures AlwaysHarmless(c, ops, session)
  {
    if ops != [] {
      forall op <- ops[..|ops| - 1] ensures OpSurvives(c, op) { assert op in ops; }
      SurvivorsAreHarmless(c, ops[..|ops| - 1], session);
      ExpectedSurvives(c, ops[..|ops| - 1], session);
    }
  }

  // The condition is needed: a saved list read back after expiry is the same list exactly
  // when no text in it parses as JSON, whatever happened before.
  lemma ExpiryShowsExactlyWhen(c: Codec, w: Store, session: string, entries: seq<Entry>)
    requires Lawful(c) && QuotesStrings(c)
    ensures Found(c, Saved(c, w, session, entries), session) == entries
    ensures Found(c, Step(c, Saved(c, w, session, entries), Expired(session)), session) == entries <==> AllSurvive(c, entries)
  {
    ListRoundTrip(c, entries);
    RowsRoundTrip(c, entries);
    RewrittenSelects(w.table, session, RowsFor(c, entries));
    ExpiredMisses(c, Saved(c, w, session, entries), session);
  }

  lemma ExpiredMisses(c: Codec, w: Store, session: string)
    ensures Found(c, Step(c, w, Expired(session)), session) == EntriesFrom(c, Select(w.table, session))
  {
  }

  // Such a text: the print of any value. After an expiry the value itself comes back.
  lemma PrintedTextChanges(c: Codec, w: Store, session: string, v: Json)
    requires Lawful(c) && QuotesStrings(c)
    ensures var entries := [Entry("user", JString(c.dumps(v)))];
            var later := Found(c, Step(c, Saved(c, w, session, entries), Expired(session)), session);
            later == [Entry("user", v)] && later != entries
  {
    var entries := [Entry("user", JString(c.dumps(v)))];
    RewrittenSelects(w.table, session, RowsFor(c, entries));
    ExpiredMisses(c, Saved(c, w, session, entries), session);
  }

  // One row for each message, with its role, and its content as the text it is or in print.
  lemma RowsTold(c: Codec, entries: seq<Entry>, i: nat)
    requires Lawful(c) && i < |entries|
    ensures |RowsFor(c, entries)| == |entries|
    ensures var e, row := entries[i], RowsFor(c, entries)[i];
            && row.role == e.role
            && (if e.content.JString? then row.content == e.content.text else c.loads(row.content) == Some(e.content))
  {
  }
}
