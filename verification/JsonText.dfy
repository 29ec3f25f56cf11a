// A printer of JSON and its inverse, as a witness that what is assumed of a codec can be met.
module JsonText {
  import opened Prelude
  import opened SessionHistory

  function Escaped(s: string): string {
    if s == "" then ""
    else (if s[0] == '"' || s[0] == '\\' then ['\\', s[0]] else [s[0]]) + Escaped(s[1..])
  }

  function Quoted(s: string): string {
    ['"'] + Escaped(s) + ['"']
  }

  ghost function Print(v: Json): string
    decreases v, 1, 0
  {
    match v
    case JNull => "n"
    case JBool(flag) => if flag then "t" else "f"
    case JNumber(digits) => ['#'] + Quoted(digits)
    case JString(text) => Quoted(text)
    case JArray(items) => ['['] + PrintItems(v, items)
    case JObject(fields) => ['{'] + PrintFields(v, fields)
  }

  ghost predicate Below(items: seq<Json>, parent: Json) {
    forall i | 0 <= i < |items| :: items[i] < parent
  }

  ghost function PrintItems(parent: Json, items: seq<Json>): string
    requires Below(items, parent)
    decreases parent, 0, |items|
  {
    if items == [] then "]"
    else
      assert items[0] < parent;
      [','] + Print(items[0]) + PrintItems(parent, items[1..])
  }

  // Keys are printed in some order of their own.
  ghost function PrintFields(parent: Json, fields: map<string, Json>): string
    requires forall key <- fields :: fields[key] < parent
    decreases parent, 0, |fields|
  {
    if fields == map[] then "}"
    else
      var key := Any(fields.Keys);
      [','] + Quoted(key) + Print(fields[key]) + PrintFields(parent, fields - {key})
  }

  lemma {:induction false} EscapedUnique(a: string, x: string, b: string, y: string)
    requires Escaped(a) + ['"'] + x == Escaped(b) + ['"'] + y
    ensures (a, x) == (b, y)
  {
    var p, q := Escaped(a) + ['"'] + x, Escaped(b) + ['"'] + y;
    if a == "" || b == "" {
      assert p[0] == q[0];
      assert a == b == "";
      assert p[1..] == x && q[1..] == y;
    } else {
      var n := if a[0] == '"' || a[0] == '\\' then 2 else 1;
      assert p[0] == q[0] && (n == 2 ==> p[1] == q[1]);
      assert p[n..] == Escaped(a[1..]) + ['"'] + x && q[n..] == Escaped(b[1..]) + ['"'] + y;
      EscapedUnique(a[1..], x, b[1..], y);
      assert a == [a[0]] + a[1..] && b == [b[0]] + b[1..];
    }
  }

  lemma QuotedUnique(a: string, x: string, b: string, y: string)
    requires Quoted(a) + x == Quoted(b) + y
    ensures (a, x) == (b, y)
  {
    var p, q := Quoted(a) + x, Quoted(b) + y;
    assert p[1..] == Escaped(a) + ['"'] + x && q[1..] == Escaped(b) + ['"'] + y;
    EscapedUnique(a, x, b, y);
  }

  function KindMark(v: Json): char {
    match v
    case JNull => 'n'
    case JBool(flag) => if flag then 't' else 'f'
    case JNumber(_) => '#'
    case JString(_) => '"'
    case JArray(_) => '['
    case JObject(_) => '{'
  }

  lemma PrintShowsKind(v: Json)
    ensures Print(v) != "" && Print(v)[0] == KindMark(v)
  {
  }

  lemma SameKind(a: Json, x: string, b: Json, y: string)
    requires Print(a) + x == Print(b) + y
    ensures (KindMark(a), Print(a)[1..] + x) == (KindMark(b), Print(b)[1..] + y)
  {
    PrintShowsKind(a);
    PrintShowsKind(b);
    var p, q := Print(a) + x, Print(b) + y;
    assert p[0] == Print(a)[0] && q[0] == Print(b)[0];
    assert p[1..] == Print(a)[1..] + x && q[1..] == Print(b)[1..] + y;
  }

  // No print is a proper prefix of another, and none prints two values.
  lemma {:induction false} PrintUnique(a: Json, x: string, b: Json, y: string)
    requires Print(a) + x == Print(b) + y
    ensures (a, x) == (b, y)
    decreases a, 1, 0
  {
    SameKind(a, x, b, y);
    match a {
      case JNumber(digits) =>
        assert Print(a)[1..] == Quoted(digits) && Print(b)[1..] == Quoted(b.digits);
        QuotedUnique(digits, x, b.digits, y);
      case JString(text) => QuotedUnique(text, x, b.text, y);
      case JArray(items) =>
        assert Print(a)[1..] == PrintItems(a, items) && Print(b)[1..] == PrintItems(b, b.items);
        ItemsUnique(a, items, x, b, b.items, y);
      case JObject(fields) =>
        assert Print(a)[1..] == PrintFields(a, fields) && Print(b)[1..] == PrintFields(b, b.fields);
        FieldsUnique(a, fields, x, b, b.fields, y);
      case _ =>
        assert Print(a)[1..] == "" && Print(b)[1..] == "";
        assert "" + x == x && "" + y == y;
    }
  }

  lemma ItemsSplit(parent: Json, items: seq<Json>, x: string)
    requires Below(items, parent) && items != []
    ensures Below(items[1..], parent)
    ensures PrintItems(parent, items) + x == [','] + (Print(items[0]) + (PrintItems(parent, items[1..]) + x))
  {
  }

  lemma {:induction false} ItemsUnique(a: Json, items: seq<Json>, x: string, b: Json, others: seq<Json>, y: string)
    requires Below(items, a) && Below(others, b)
    requires PrintItems(a, items) + x == PrintItems(b, others) + y
    ensures (items, x) == (others, y)
    decreases a, 0, |items|
  {
    var p, q := PrintItems(a, items) + x, PrintItems(b, others) + y;
    assert p[0] == q[0] && p[1..] == q[1..];
    if items == [] {
      assert others == [] && p[1..] == x && q[1..] == y;
    } else {
      ItemsSplit(a, items, x);
      ItemsSplit(b, others, y);
      PrintUnique(items[0], PrintItems(a, items[1..]) + x, others[0], PrintItems(b, others[1..]) + y);
      ItemsUnique(a, items[1..], x, b, others[1..], y);
      assert items == [items[0]] + items[1..] && others == [others[0]] + others[1..];
    }
  }

  lemma FieldsSplit(parent: Json, fields: map<string, Json>, x: string)
    requires (forall key <- fields :: fields[key] < parent) && fields != map[]
    ensures var key := Any(fields.Keys);
            PrintFields(parent, fields) + x
            == [','] + (Quoted(key) + (Print(fields[key]) + (PrintFields(parent, fields - {key}) + x)))
  {
  }

  lemma SameButOne(fields: map<string, Json>, others: map<string, Json>, key: string)
    requires key in fields && key in others && fields[key] == others[key] && fields - {key} == others - {key}
    ensures fields == others
  {
    assert fields == (fields - {key})[key := fields[key]] && others == (others - {key})[key := others[key]];
  }

  lemma {:induction false} FieldsUnique(a: Json, fields: map<string, Json>, x: string, b: Json, others: map<string, Json>, y: string)
    requires (forall key <- fields :: fields[key] < a) && (forall key <- others :: others[key] < b)
    requires PrintFields(a, fields) + x == PrintFields(b, others) + y
    ensures (fields, x) == (others, y)
    decreases a, 0, |fields|, 1
  {
    var p, q := PrintFields(a, fields) + x, PrintFields(b, others) + y;
    assert p[0] == q[0] && p[1..] == q[1..];
    if fields == map[] {
      assert others == map[] && p[1..] == x && q[1..] == y;
    } else {
      FieldsSplit(a, fields, x);
      FieldsSplit(b, others, y);
      FirstFieldUnique(a, fields, x, b, others, y);
    }
  }

  lemma {:induction false} FirstFieldUnique(a: Json, fields: map<string, Json>, x: string, b: Json, others: map<string, Json>, y: string)
    requires (forall key <- fields :: fields[key] < a) && (forall key <- others :: others[key] < b)
    requires fields != map[] && others != map[]
    requires var key, other := Any(fields.Keys), Any(others.Keys);
             Quoted(key) + (Print(fields[key]) + (PrintFields(a, fields - {key}) + x))
             == Quoted(other) + (Print(others[other]) + (PrintFields(b, others - {other}) + y))
    ensures (fields, x) == (others, y)
    decreases a, 0, |fields|, 0
  {
    var key, other := Any(fields.Keys), Any(others.Keys);
    var r, s := PrintFields(a, fields - {key}) + x, PrintFields(b, others - {other}) + y;
    QuotedUnique(key, Print(fields[key]) + r, other, Print(others[other]) + s);
    PrintUnique(fields[key], r, others[other], s);
    FieldsUnique(a, fields - {key}, x, b, others - {other}, y);
    SameButOne(fields, others, key);
  }

  ghost function Parse(s: string): Option<Json> {
    if v :| Print(v) == s then Some(v) else None
  }

  ghost function Sample(): Codec {
    Codec(v => Print(v), s => Parse(s), v => Print(v))
  }

  lemma EscapedIsNoShorter(s: string)
    ensures |Escaped(s)| >= |s|
  {
  }

  lemma ParseUndoesPrint(v: Json)
    ensures Parse(Print(v)) == Some(v)
  {
    var u :| Print(u) == Print(v) && Parse(Print(v)) == Some(u);
    PrintUnique(u, "", v, "");
  }

  // There is a codec as the history asks for: it parses what it prints, nothing from the
  // empty text, and no text to itself.
  lemma CodecExists()
    ensures Lawful(Sample()) && QuotesStrings(Sample())
  {
    var c := Sample();
    forall v ensures c.loads(c.dumps(v)) == Some(v) { ParseUndoesPrint(v); }
    forall s ensures c.loads(s) != Some(JString(s)) { EscapedIsNoShorter(s); }
    forall v ensures Print(v) != "" {}
  }
}
