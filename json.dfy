/**
 * The JavaScript values the client reads from server bodies and writes into
 * request bodies, with the three operations the code applies to them:
 * truthiness (`if (x)`, `x || y`), property access (`x.key`, `x?.key`) and
 * conversion to text (`String(x)`, template literals, `JSON.stringify`).
 * Numbers are integers; floating point is not modelled.
 */
module Json {
  import opened Text
  import opened ObjectKeys

  datatype Json =
    | Undefined
    | Null
    | Bool(b: bool)
    | Num(n: int)
    | Str(s: string)
    | Arr(items: seq<Json>)
    | Obj(fields: seq<(string, Json)>)

  /** `undefined` or `null`: reading a property of such a value throws a TypeError. */
  predicate Nullish(v: Json) { v.Undefined? || v.Null? }

  /** JavaScript truthiness: false for undefined, null, false, 0 and the empty string. */
  predicate Truthy(v: Json) {
    match v
    case Undefined => false
    case Null => false
    case Bool(b) => b
    case Num(n) => n != 0
    case Str(s) => s != []
    case _ => true
  }

  /** The value of `key` among `fields`; when a key repeats, the last one wins, as with `JSON.parse`. */
  function Lookup(fields: seq<(string, Json)>, key: string): (r: Json)
    ensures (forall i :: 0 <= i < |fields| ==> fields[i].0 != key) ==> r == Undefined
    ensures fields != [] && fields[|fields| - 1].0 == key ==> r == fields[|fields| - 1].1
  {
    if fields == [] then Undefined
    else if fields[|fields| - 1].0 == key then fields[|fields| - 1].1
    else Lookup(fields[..|fields| - 1], key)
  }

  /** The value of `key` is that of its last occurrence. */
  lemma {:induction false} LookupAt(fields: seq<(string, Json)>, key: string, i: nat)
    requires i < |fields| && fields[i].0 == key
    requires forall j :: i < j < |fields| ==> fields[j].0 != key
    ensures Lookup(fields, key) == fields[i].1
    decreases |fields|
  {
    if i < |fields| - 1 {
      LookupAt(fields[..|fields| - 1], key, i);
    }
  }

  /**
   * `v?.[key]`: undefined when `v` is nullish or not an object (the built-in
   * properties of strings and arrays, such as `length`, are not modelled).
   * Plain `v.key` is the same except that it throws when `Nullish(v)`, which
   * callers test first.
   */
  function Member(v: Json, key: string): (r: Json)
    ensures !v.Obj? ==> r == Undefined
  {
    match v
    case Obj(fields) => Lookup(fields, key)
    case _ => Undefined
  }

  /**
   * Reading a member of a parsed object: the value of the key's last
   * occurrence, and undefined when the key does not occur.
   */
  lemma MemberAt(fields: seq<(string, Json)>, key: string)
    ensures (exists i :: 0 <= i < |fields| && fields[i].0 == key) ==>
      exists i :: 0 <= i < |fields| && fields[i].0 == key && Member(Obj(fields), key) == fields[i].1
        && forall j :: i < j < |fields| ==> fields[j].0 != key
    ensures (forall i :: 0 <= i < |fields| ==> fields[i].0 != key) ==> Member(Obj(fields), key) == Undefined
  {
    if i :| 0 <= i < |fields| && fields[i].0 == key {
      var last := LastIndexOf(fields, key, i);
      LookupAt(fields, key, last);
    }
  }

  /** The last index, at or after `i`, where `key` occurs. */
  function LastIndexOf(fields: seq<(string, Json)>, key: string, i: nat): (r: nat)
    requires i < |fields| && fields[i].0 == key
    ensures i <= r < |fields| && fields[r].0 == key
    ensures forall j :: r < j < |fields| ==> fields[j].0 != key
    decreases |fields| - i
  {
    if exists j :: i < j < |fields| && fields[j].0 == key then
      var j :| i < j < |fields| && fields[j].0 == key;
      LastIndexOf(fields, key, j)
    else i
  }

  /** `x || y`. */
  function Or(x: Json, y: Json): (r: Json)
    ensures Truthy(x) ==> r == x
    ensures !Truthy(x) ==> r == y
  {
    if Truthy(x) then x else y
  }

  /** `x || y` is truthy iff one of them is, and a chain of `||` picks its first truthy operand whichever way it is grouped. */
  lemma OrLaws(x: Json, y: Json, z: Json)
    ensures Truthy(Or(x, y)) <==> Truthy(x) || Truthy(y)
    ensures Or(Or(x, y), z) == Or(x, Or(y, z))
    ensures Or(x, y) == x || Or(x, y) == y
  {
  }

  /** `String(v)`, which is also what a template literal `${v}` inserts. */
  function ToText(v: Json): string
    decreases v
  {
    match v
    case Undefined => "undefined"
    case Null => "null"
    case Bool(b) => if b then "true" else "false"
    case Num(n) => IntToString(n)
    case Str(s) => s
    case Arr(items) =>
      Join(seq(|items|, i requires 0 <= i < |items| => if Nullish(items[i]) then "" else ToText(items[i])), ",")
    case Obj(_) => "[object Object]"
  }

  function HexDigit(d: nat): char
    requires d < 16
  {
    ['0', '1', '2', '3', '4', '5', '6', '7', '8', '9', 'a', 'b', 'c', 'd', 'e', 'f'][d]
  }

  /** The JSON escape of one character of a string literal. */
  function EscapeChar(c: char): (r: string)
    ensures r != []
  {
    if c == '"' then "\\\""
    else if c == '\\' then "\\\\"
    else if c == '\n' then "\\n"
    else if c == '\r' then "\\r"
    else if c == '\t' then "\\t"
    else if c == '\U{8}' then "\\b"
    else if c == '\U{C}' then "\\f"
    else if c < ' ' then "\\u00" + [HexDigit(c as int / 16), HexDigit(c as int % 16)]
    else [c]
  }

  function Escape(s: string): string
  {
    if s == [] then [] else EscapeChar(s[0]) + Escape(s[1..])
  }

  function Quote(s: string): (r: string)
    ensures |r| >= 2 && r[0] == '"'
  {
    "\"" + Escape(s) + "\""
  }

  /** The strings of `parts` that are not empty, in order. */
  function NonEmpty(parts: seq<string>): seq<string>
  {
    if parts == [] then []
    else (if parts[0] == [] then [] else [parts[0]]) + NonEmpty(parts[1..])
  }

  /** The second components of `pairs`, in order. */
  function Seconds<T>(pairs: seq<(string, T)>): (r: seq<T>)
    ensures |r| == |pairs| && forall i :: 0 <= i < |pairs| ==> r[i] == pairs[i].1
  {
    seq(|pairs|, i requires 0 <= i < |pairs| => pairs[i].1)
  }

  /**
   * `JSON.stringify(v)` for a value that is not undefined: object members are
   * written in own-key order (array-index keys first, ascending), members
   * whose value is undefined are left out, undefined array elements become
   * `null`.
   */
  function Stringify(v: Json): (r: string)
    requires !v.Undefined?
    ensures r != []
    ensures v.Obj? ==> r[0] == '{'
    decreases v
  {
    match v
    case Null => "null"
    case Bool(b) => if b then "true" else "false"
    case Num(n) => IntToString(n)
    case Str(s) => Quote(s)
    case Arr(items) =>
      "[" + Join(seq(|items|, i requires 0 <= i < |items| =>
                       if items[i].Undefined? then "null" else Stringify(items[i])), ",") + "]"
    case Obj(fields) =>
      var members := seq(|fields|, i requires 0 <= i < |fields| =>
                       (fields[i].0, if fields[i].1.Undefined? then ""
                                     else Quote(fields[i].0) + ":" + Stringify(fields[i].1)));
      "{" + Join(NonEmpty(Seconds(OwnKeyOrder(members))), ",") + "}"
  }

  /** `JSON.stringify` of the object parsed from `{"b":1,"0":2}` writes the index key first. */
  lemma StringifyIndexKeyFirst()
    ensures Stringify(Obj([("b", Num(1)), ("0", Num(2))])) == "{\"0\":2,\"b\":1}"
  {
    var fields := [("b", Num(1)), ("0", Num(2))];
    var b, zero := ("b", "\"b\":1"), ("0", "\"0\":2");
    var members := ExampleMembers(fields);
    var text := Join(NonEmpty(Seconds(OwnKeyOrder(members))), ",");
    assert Stringify(Obj(fields)) == "{" + text + "}";
    OwnKeyOrderOfPair(b, zero);
    assert Seconds([zero, b]) == [zero.1, b.1];
    JoinTwo(zero.1, b.1);
    assert text == zero.1 + "," + b.1;
    ExampleText(zero.1, b.1);
  }

  lemma ExampleText(x: string, y: string)
    requires x == "\"0\":2" && y == "\"b\":1"
    ensures "{" + (x + "," + y) + "}" == "{\"0\":2,\"b\":1}"
  {
  }

  /** The member texts `Stringify` builds for the example object, in reply order. */
  lemma ExampleMembers(fields: seq<(string, Json)>) returns (members: seq<(string, string)>)
    requires fields == [("b", Num(1)), ("0", Num(2))]
    ensures members == seq(|fields|, i requires 0 <= i < |fields| =>
                         (fields[i].0, if fields[i].1.Undefined? then ""
                                       else Quote(fields[i].0) + ":" + Stringify(fields[i].1)))
    ensures members == [("b", "\"b\":1"), ("0", "\"0\":2")]
  {
    MemberTexts();
    members := seq(|fields|, i requires 0 <= i < |fields| =>
                 (fields[i].0, if fields[i].1.Undefined? then ""
                               else Quote(fields[i].0) + ":" + Stringify(fields[i].1)));
    assert members[0] == ("b", "\"b\":1") && members[1] == ("0", "\"0\":2");
  }

  lemma MemberTexts()
    ensures Quote("b") + ":" + Stringify(Num(1)) == "\"b\":1"
    ensures Quote("0") + ":" + Stringify(Num(2)) == "\"0\":2"
  {
    assert Escape("b") == "b" && Escape("0") == "0";
    assert IntToString(1) == "1" && IntToString(2) == "2";
  }

  lemma JoinTwo(x: string, y: string)
    requires x != [] && y != []
    ensures Join(NonEmpty([x, y]), ",") == x + "," + y
  {
    assert [x, y][1..] == [y];
    assert NonEmpty([y]) == [y];
    assert NonEmpty([x, y]) == [x, y];
    assert [x, y][..1] == [x];
  }

  /** An object of string fields, the shape of every document the client stores or posts. */
  function StrObj(fields: seq<(string, string)>): (r: Json)
    ensures r.Obj? && |r.fields| == |fields|
    ensures forall i :: 0 <= i < |fields| ==> r.fields[i] == (fields[i].0, Str(fields[i].1))
  {
    Obj(seq(|fields|, i requires 0 <= i < |fields| => (fields[i].0, Str(fields[i].1))))
  }

  /** Each member of a body built from distinct keys reads back as the string it was given. */
  lemma StrObjMember(fields: seq<(string, string)>, i: nat)
    requires i < |fields|
    requires forall j, k :: 0 <= j < k < |fields| ==> fields[j].0 != fields[k].0
    ensures Member(StrObj(fields), fields[i].0) == Str(fields[i].1)
  {
    LookupAt(StrObj(fields).fields, fields[i].0, i);
  }
}
