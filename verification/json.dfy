/** JSON values, as a language model returns them and as `JSON.stringify`
    writes them. */
module Json {
  import opened Wrappers
  import opened JsNumber

  /** A JSON value. An object keeps its members in order, duplicates included,
      as the text had them. */
  datatype Json = JNull
                | JBool(b: bool)
                | JNum(n: real)
                | JStr(s: string)
                | JArr(items: seq<Json>)
                | JObj(members: seq<Member>)

  datatype Member = Member(key: string, value: Json)

  /** The value of `key` in an object's members; when the key occurs more
      than once the last occurrence wins, as with `JSON.parse`. */
  function Get(members: seq<Member>, key: string): (r: Option<Json>)
    ensures r.None? <==> forall i :: 0 <= i < |members| ==> members[i].key != key
    ensures r.Some? ==> exists i :: 0 <= i < |members| && members[i] == Member(key, r.value) &&
                          forall k :: i < k < |members| ==> members[k].key != key
  {
    if members == [] then None
    else
      var last := members[|members| - 1];
      if last.key == key then Some(last.value)
      else Get(members[..|members| - 1], key)
  }

  /** In an object whose keys are all different, a key's value is the one
      written with it. */
  lemma GetDistinct(members: seq<Member>, i: nat)
    requires i < |members|
    requires forall a, b :: 0 <= a < b < |members| ==> members[a].key != members[b].key
    ensures Get(members, members[i].key) == Some(members[i].value)
  {
    var r := Get(members, members[i].key);
    if r.Some? {
      var j :| 0 <= j < |members| && members[j] == Member(members[i].key, r.value) &&
               forall k :: j < k < |members| ==> members[k].key != members[i].key;
      assert j == i;
    }
  }

  /** A member added at the end is what its key now reads as. */
  lemma GetAppended(members: seq<Member>, m: Member, key: string)
    ensures Get(members + [m], key) == if m.key == key then Some(m.value) else Get(members, key)
  {
    assert (members + [m])[..|members|] == members;
  }

  /** Each key of a three-member object with different keys reads as the
      value written with it. */
  lemma GetThree(a: Member, b: Member, c: Member)
    requires a.key != b.key && a.key != c.key && b.key != c.key
    ensures Get([a, b, c], a.key) == Some(a.value)
    ensures Get([a, b, c], b.key) == Some(b.value)
    ensures Get([a, b, c], c.key) == Some(c.value)
  {
    assert [a, b, c] == [a] + [b] + [c];
    GetAppended([a] + [b], c, a.key);
    GetAppended([a] + [b], c, b.key);
    GetAppended([a] + [b], c, c.key);
    GetAppended([a], b, a.key);
    GetAppended([a], b, b.key);
  }

  const Hex := "0123456789abcdef"

  /** `JSON.stringify`'s escape for one character of a string. */
  function EscapeChar(c: char): (e: string)
    ensures |e| >= 1
    ensures c != '"' && c != '\\' && c >= ' ' ==> e == [c]
  {
    if c == '"' then "\\\""
    else if c == '\\' then "\\\\"
    else if c == '\n' then "\\n"
    else if c == '\r' then "\\r"
    else if c == '\t' then "\\t"
    else if c == '\U{8}' then "\\b"
    else if c == '\U{C}' then "\\f"
    else if c < ' ' then "\\u00" + [Hex[c as int / 16], Hex[c as int % 16]]
    else [c]
  }

  function Escape(s: string): (e: string)
    ensures |e| >= |s|
  {
    if s == [] then [] else EscapeChar(s[0]) + Escape(s[1..])
  }

  /** A string literal: the escaped text between double quotes. */
  function Quote(s: string): (q: string)
    ensures |q| >= 2 && q[0] == '"' && q[|q| - 1] == '"'
  {
    "\"" + Escape(s) + "\""
  }

  /** At most `n` decimal digits of a fraction in [0, 1), stopping when the
      rest is zero. */
  function FractionDigits(f: real, n: nat): (digits: string)
    requires 0.0 <= f < 1.0
    ensures |digits| <= n
    decreases n
  {
    if n == 0 || f == 0.0 then []
    else
      var d := (f * 10.0).Floor;
      assert 0 <= d < 10;
      [DigitChar(d)] + FractionDigits(f * 10.0 - d as real, n - 1)
  }

  /** A number as `JSON.stringify` writes it: integers exactly, other values
      as the integer part, a point and the fraction's digits. */
  function NumberText(x: real): (text: string)
    ensures text != []
  {
    if x == x.Floor as real then IntText(x.Floor)
    else
      var magnitude := if x < 0.0 then -x else x;
      var whole := magnitude.Floor;
      var fraction := FractionDigits(magnitude - whole as real, 20);
      (if x < 0.0 then "-" else "") + IntText(whole) + "." + fraction
  }

  /** The texts joined with commas. */
  function CommaJoin(parts: seq<string>): (text: string)
    ensures parts == [] ==> text == []
  {
    if parts == [] then []
    else if |parts| == 1 then parts[0]
    else parts[0] + "," + CommaJoin(parts[1..])
  }

  /** `JSON.stringify(v)` with no spacing. */
  function Stringify(v: Json): (text: string)
    ensures text != []
    ensures v.JObj? ==> text[0] == '{' && text[|text| - 1] == '}'
    ensures v.JArr? ==> text[0] == '[' && text[|text| - 1] == ']'
    ensures v.JStr? ==> text == Quote(v.s)
  {
    match v
    case JNull => "null"
    case JBool(b) => if b then "true" else "false"
    case JNum(n) => NumberText(n)
    case JStr(s) => Quote(s)
    case JArr(items) =>
      "[" + CommaJoin(seq(|items|, i requires 0 <= i < |items| => Stringify(items[i]))) + "]"
    case JObj(members) =>
      "{" + CommaJoin(seq(|members|, i requires 0 <= i < |members| =>
                            Quote(members[i].key) + ":" + Stringify(members[i].value))) + "}"
  }
}
