// Small datatypes and sequence facts shared by the other modules.
module Prelude {

  datatype Option<+T> = None | Some(value: T) {
    function GetOr(default: T): T {
      if Some? then value else default
    }
  }

  // JSON values, as produced by parsing a model's tool arguments or a stored message.
  datatype Json =
    | JNull
    | JBool(flag: bool)
    | JNumber(digits: string)
    | JString(text: string)
    | JArray(items: seq<Json>)
    | JObject(fields: map<string, Json>)

  ghost function Any<T>(s: set<T>): (x: T)
    requires s != {}
    ensures x in s
  {
    var x :| x in s;
    x
  }

  function Least(s: set<int>): (m: int)
    requires s != {}
    ensures m in s && forall x <- s :: m <= x
  {
    LeastExists(s);
    var m :| m in s && forall x <- s :: m <= x;
    m
  }

  lemma {:induction false} LeastExists(s: set<int>)
    requires s != {}
    ensures exists m :: m in s && forall x <- s :: m <= x
  {
    var y := Any(s);
    if s != {y} {
      LeastExists(s - {y});
      var m :| m in s - {y} && forall x <- s - {y} :: m <= x;
      var least := if y < m then y else m;
      forall x <- s ensures least <= x {
        if x != y { assert x in s - {y}; }
      }
      assert least in s;
    }
  }

  // `sorted` of a set of keys.
  function Sorted(keys: set<int>): (r: seq<int>)
    ensures forall i, j | 0 <= i < j < |r| :: r[i] < r[j]
    ensures forall k :: k in r <==> k in keys
    decreases |keys|
  {
    if keys == {} then [] else [Least(keys)] + Sorted(keys - {Least(keys)})
  }

  // The positions of what is kept, ascending.
  function Where<T>(src: seq<T>, keep: T -> bool): (ps: seq<nat>)
    ensures forall n | 0 <= n < |ps| :: ps[n] < |src|
  {
    if src == [] then []
    else Where(src[..|src| - 1], keep) + (if keep(src[|src| - 1]) then [|src| - 1] else [])
  }

  // What is kept, by value.
  function Picked<T, U>(src: seq<T>, keep: T -> bool, value: T -> U): seq<U> {
    var ps := Where(src, keep);
    seq(|ps|, n requires 0 <= n < |ps| => value(src[ps[n]]))
  }

  // `Where` lists every kept position once, in order, and no other.
  lemma {:induction false} WhereIsExact<T>(src: seq<T>, keep: T -> bool)
    ensures var ps := Where(src, keep);
            && (forall a, b | 0 <= a < b < |ps| :: ps[a] < ps[b])
            && (forall j: nat | j < |src| :: j in ps <==> keep(src[j]))
  {
    if src != [] { WhereIsExact(src[..|src| - 1], keep); }
  }

  lemma PickedLater<T, U>(src: seq<T>, x: T, keep: T -> bool, value: T -> U)
    ensures Picked(src + [x], keep, value) == Picked(src, keep, value) + (if keep(x) then [value(x)] else [])
  {
    assert (src + [x])[..|src|] == src;
  }

  lemma {:induction false} PickedBoth<T, U>(a: seq<T>, b: seq<T>, keep: T -> bool, value: T -> U)
    ensures Picked(a + b, keep, value) == Picked(a, keep, value) + Picked(b, keep, value)
  {
    if b == [] {
      assert a + b == a;
    } else {
      var front, x := b[..|b| - 1], b[|b| - 1];
      PickedBoth(a, front, keep, value);
      PickedLater(a + front, x, keep, value);
      PickedLater(front, x, keep, value);
      assert a + b == a + front + [x] && b == front + [x];
    }
  }

  lemma PickedOne<T, U>(x: T, keep: T -> bool, value: T -> U)
    ensures Picked([x], keep, value) == if keep(x) then [value(x)] else []
  {
    PickedLater([], x, keep, value);
    assert [] + [x] == [x];
  }

  lemma PickedFirst<T, U>(src: seq<T>, keep: T -> bool, value: T -> U)
    requires src != []
    ensures Picked(src, keep, value) == (if keep(src[0]) then [value(src[0])] else []) + Picked(src[1..], keep, value)
  {
    PickedBoth([src[0]], src[1..], keep, value);
    PickedOne(src[0], keep, value);
    assert src == [src[0]] + src[1..];
  }

  lemma Regroup<T>(a: seq<T>, b: seq<T>, c: seq<T>)
    ensures a + (b + c) == a + b + c
  {
  }

  // The texts of `parts`, separated by `sep`.
  function Join(parts: seq<string>, sep: string): string {
    if parts == [] then ""
    else if |parts| == 1 then parts[0]
    else parts[0] + sep + Join(parts[1..], sep)
  }

  lemma {:induction false} JoinAppend(left: seq<string>, right: seq<string>, sep: string)
    requires left != [] && right != []
    ensures Join(left + right, sep) == Join(left, sep) + sep + Join(right, sep)
  {
    if |left| == 1 {
      assert (left + right)[1..] == right;
    } else {
      assert (left + right)[1..] == left[1..] + right;
      JoinAppend(left[1..], right, sep);
    }
  }

  // The characters that Python's `str.strip` and the pattern \s treat as whitespace.
  predicate IsSpace(c: char) {
    var u := c as int;
    || 0x09 <= u <= 0x0D || 0x1C <= u <= 0x20 || u == 0x85 || u == 0xA0 || u == 0x1680
    || 0x2000 <= u <= 0x200A || u == 0x2028 || u == 0x2029 || u == 0x202F || u == 0x205F || u == 0x3000
  }

  predicate IsBlank(text: string) {
    forall c <- text :: IsSpace(c)
  }
}
