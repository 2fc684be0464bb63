/** JSON values as `JSON.parse` returns them, the few JavaScript operations
    the edge functions apply to them, and `JSON.stringify`. */
module JsonValues {
  import opened Wrappers

  /** A parsed JSON value. An object lists its own properties in enumeration
      order, each key once. Numbers are integers here. */
  datatype Json =
    | JNull
    | JBool(b: bool)
    | JNumber(n: int)
    | JString(s: string)
    | JArray(items: seq<Json>)
    | JObject(members: seq<Member>)

  datatype Member = Member(key: string, value: Json)

  /** The value of property `key` of an object, `None` for `undefined`. */
  function Lookup(members: seq<Member>, key: string): (r: Option<Json>)
    ensures r.Some? <==> exists i :: 0 <= i < |members| && members[i].key == key
    ensures r.Some? ==> exists i :: 0 <= i < |members| && members[i].key == key && members[i].value == r.value
  {
    if members == [] then None
    else if members[0].key == key then Some(members[0].value)
    else Lookup(members[1..], key)
  }

  /** No key occurs twice, as in every object `JSON.parse` builds (it keeps
      the last of repeated keys). */
  predicate UniqueKeys(members: seq<Member>)
  {
    forall i, j :: 0 <= i < j < |members| ==> members[i].key != members[j].key
  }

  /** With unique keys, each member is what its key looks up, so taking the
      first or the last of repeated keys makes no difference. */
  lemma {:induction false} LookupUnique(members: seq<Member>, i: nat)
    requires UniqueKeys(members) && i < |members|
    ensures Lookup(members, members[i].key) == Some(members[i].value)
  {
    if i > 0 {
      assert members[0].key != members[i].key;
      assert members[1..][i - 1] == members[i];
      LookupUnique(members[1..], i - 1);
    }
  }

  /** `v[key]` on a value that is not `null`, for the property names the
      handlers read: only an object can have them. */
  function Get(v: Json, key: string): (r: Option<Json>)
    requires v != JNull
    ensures r.Some? ==> v.JObject?
  {
    if v.JObject? then Lookup(v.members, key) else None
  }

  /** `key in v` for the handlers' keys, which are neither `length`, nor an
      array index, nor a member of `Object.prototype`: an object has such a
      key only as an own property and an array never has it. `None` when `v`
      is a primitive, where `in` throws a `TypeError`. */
  function Has(v: Json, key: string): (r: Option<bool>)
    ensures r.Some? <==> v.JObject? || v.JArray?
    ensures r == Some(true) <==> v.JObject? && Lookup(v.members, key).Some?
  {
    match v
    case JObject(ms) => Some(Lookup(ms, key).Some?)
    case JArray(_) => Some(false)
    case _ => None
  }

  /** JavaScript truthiness; `None` is `undefined`. */
  predicate Truthy(v: Option<Json>)
  {
    match v
    case None => false
    case Some(JNull) => false
    case Some(JBool(b)) => b
    case Some(JNumber(n)) => n != 0
    case Some(JString(s)) => s != ""
    case Some(_) => true
  }

  // ---------------------------------------------------------------------------
  // JSON.stringify

  const HexDigits := "0123456789abcdef"

  /** The escape `JSON.stringify` writes for one character of a string. */
  function EscapeChar(c: char): (r: string)
    ensures |r| >= 1 && (r[0] == '\\' <==> c == '"' || c == '\\' || c < ' ')
    ensures r[0] != '\\' ==> r == [c]
  {
    if c == '"' then "\\\""
    else if c == '\\' then "\\\\"
    else if c == '\U{0008}' then "\\b"
    else if c == '\U{000C}' then "\\f"
    else if c == '\n' then "\\n"
    else if c == '\r' then "\\r"
    else if c == '\t' then "\\t"
    else if c < ' ' then "\\u00" + [HexDigits[c as int / 16], HexDigits[c as int % 16]]
    else [c]
  }

  /** A string literal: the characters escaped, between double quotes. */
  function Quote(s: string): (r: string)
    ensures |r| >= 2 && r[0] == '"' && r[|r| - 1] == '"'
  {
    "\"" + Escaped(s) + "\""
  }

  function Escaped(s: string): string
  {
    if s == [] then [] else EscapeChar(s[0]) + Escaped(s[1..])
  }

  /** The value of a hexadecimal digit, either case. */
  function HexValue(c: char): Option<nat>
  {
    if '0' <= c <= '9' then Some(c as nat - '0' as nat)
    else if 'a' <= c <= 'f' then Some(c as nat - 'a' as nat + 10)
    else if 'A' <= c <= 'F' then Some(c as nat - 'A' as nat + 10)
    else None
  }

  /** The code point of a `\uXXXX` escape's four digits. */
  function HexQuad(d: string): (r: Option<nat>)
    requires |d| == 4
    ensures r.Some? ==> r.value < 0x1_0000
  {
    match (HexValue(d[0]), HexValue(d[1]), HexValue(d[2]), HexValue(d[3]))
    case (Some(a), Some(b), Some(c), Some(e)) =>
      if a < 16 && b < 16 && c < 16 && e < 16 then Some(((a * 16 + b) * 16 + c) * 16 + e) else None
    case _ => None
  }

  /** The characters a string literal's body denotes, as `JSON.parse` reads
      them; `None` for a bare quote or control character, a bad escape, or a
      `\u` escape of a lone surrogate. */
  function Unescaped(e: string): (r: Option<string>)
    decreases |e|
  {
    if e == [] then Some([])
    else if e[0] == '"' || e[0] < ' ' then None
    else if e[0] != '\\' then
      match Unescaped(e[1..])
      case Some(rest) => Some([e[0]] + rest)
      case None => None
    else if |e| < 2 then None
    else
      var c: Option<char> :=
        if e[1] == '"' then Some('"')
        else if e[1] == '\\' then Some('\\')
        else if e[1] == '/' then Some('/')
        else if e[1] == 'b' then Some('\U{0008}')
        else if e[1] == 'f' then Some('\U{000C}')
        else if e[1] == 'n' then Some('\n')
        else if e[1] == 'r' then Some('\r')
        else if e[1] == 't' then Some('\t')
        else None;
      if c.Some? then
        match Unescaped(e[2..])
        case Some(rest) => Some([c.value] + rest)
        case None => None
      else if e[1] == 'u' && |e| >= 6 then
        match HexQuad(e[2..6])
        case Some(n) =>
          if 0xD800 <= n < 0xE000 then None
          else
            match Unescaped(e[6..]) {
              case Some(rest) => Some([n as char] + rest)
              case None => None
            }
        case None => None
      else None
  }

  /** A control character without a short escape reads back from its
      `\u00XY` escape. */
  lemma UnescapeControl(c: char, rest: string)
    requires c < ' ' && c != '\U{0008}' && c != '\U{000C}' && c != '\n' && c != '\r' && c != '\t'
    ensures Unescaped(EscapeChar(c) + rest) ==
      match Unescaped(rest)
      case Some(r) => Some([c] + r)
      case None => None
  {
    var e := EscapeChar(c) + rest;
    var hi, lo := c as int / 16, c as int % 16;
    assert e[..6] == "\\u00" + [HexDigits[hi], HexDigits[lo]];
    assert HexValue(HexDigits[hi]) == Some(hi);
    assert HexValue(HexDigits[lo]) == Some(lo);
    assert HexQuad(e[2..6]) == Some(c as nat);
    assert e[6..] == rest;
  }

  lemma UnescapeChar(c: char, rest: string)
    ensures Unescaped(EscapeChar(c) + rest) ==
      match Unescaped(rest)
      case Some(r) => Some([c] + r)
      case None => None
  {
    var e := EscapeChar(c) + rest;
    if c < ' ' && c != '\U{0008}' && c != '\U{000C}' && c != '\n' && c != '\r' && c != '\t' {
      UnescapeControl(c, rest);
    } else if e[0] == '\\' {
      assert e[2..] == rest;
    } else {
      assert e[1..] == rest;
    }
  }

  /** Reading a string literal's body back gives the original string. */
  lemma {:induction false} UnescapeEscaped(s: string)
    ensures Unescaped(Escaped(s)) == Some(s)
  {
    if s != [] {
      UnescapeEscaped(s[1..]);
      UnescapeChar(s[0], Escaped(s[1..]));
      assert [s[0]] + s[1..] == s;
    }
  }

  /** The decimal digits of a natural number. */
  function NatText(n: nat): (r: string)
    ensures |r| >= 1
    ensures forall i :: 0 <= i < |r| ==> '0' <= r[i] <= '9'
  {
    if n < 10 then [HexDigits[n]] else NatText(n / 10) + [HexDigits[n % 10]]
  }

  function IntText(n: int): (r: string)
    ensures |r| >= 1 && (r[0] == '-' <==> n < 0)
    ensures n >= 0 ==> '0' <= r[0] <= '9'
  {
    if n < 0 then "-" + NatText(-n) else NatText(n)
  }

  /** `JSON.stringify(v)`. The first character tells the kind of value: a
      quote only for a string, a bracket only for an array, a brace only for
      an object, which also end in the matching closing character. */
  function Stringify(v: Json): (r: string)
    ensures |r| >= 1
    ensures r[0] == '"' <==> v.JString?
    ensures r[0] == '[' <==> v.JArray?
    ensures r[0] == '{' <==> v.JObject?
    ensures v.JArray? ==> r[|r| - 1] == ']'
    ensures v.JObject? ==> r[|r| - 1] == '}'
  {
    match v
    case JNull => "null"
    case JBool(b) => if b then "true" else "false"
    case JNumber(n) => IntText(n)
    case JString(s) => Quote(s)
    case JArray(items) => "[" + StringifyItems(items) + "]"
    case JObject(ms) => "{" + StringifyMembers(ms) + "}"
  }

  function StringifyItems(items: seq<Json>): string
  {
    if items == [] then ""
    else if |items| == 1 then Stringify(items[0])
    else Stringify(items[0]) + "," + StringifyItems(items[1..])
  }

  function StringifyMembers(ms: seq<Member>): string
  {
    if ms == [] then ""
    else
      var m := Quote(ms[0].key) + ":" + Stringify(ms[0].value);
      if |ms| == 1 then m else m + "," + StringifyMembers(ms[1..])
  }
}
