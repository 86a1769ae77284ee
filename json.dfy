/** JSON values as the browser and the Python backend exchange them, JavaScript's and Python's
    notions of truthiness on them, JavaScript's `String(v)`, and a compact codec in the shape of
    `JSON.stringify` / `JSON.parse` whose round trip is proved. */
module Json {
  import opened Wrappers
  import opened Strings

  datatype Json =
    | JNull
    | JBool(b: bool)
    | JNum(n: int)
    | JStr(s: string)
    | JArr(items: seq<Json>)
    | JObj(members: seq<(string, Json)>)

  /** JavaScript truthiness: null, false, 0 and "" are falsy; every array and object is truthy. */
  predicate JsTruthy(v: Json) {
    match v
    case JNull => false
    case JBool(b) => b
    case JNum(n) => n != 0
    case JStr(s) => s != []
    case JArr(_) => true
    case JObj(_) => true
  }

  /** Python truthiness: as in JavaScript, except that an empty list or dict is falsy. */
  predicate PyTruthy(v: Json) {
    match v
    case JArr(xs) => xs != []
    case JObj(ms) => ms != []
    case _ => JsTruthy(v)
  }

  /** `v.key` in JavaScript, `v.get(key)` in Python: the last member named `key` when `v` is an
      object, and nothing (undefined, None) for every other value. */
  function Get(v: Json, key: string): (r: Option<Json>)
    ensures r.Some? ==> v.JObj?
  {
    if v.JObj? then Lookup(v.members, key) else None
  }

  function Lookup(ms: seq<(string, Json)>, key: string): (r: Option<Json>)
    ensures r.Some? <==> exists i :: 0 <= i < |ms| && ms[i].0 == key
  {
    if ms == [] then None
    else if ms[|ms| - 1].0 == key then Some(ms[|ms| - 1].1)
    else Lookup(ms[..|ms| - 1], key)
  }

  /** In an object whose keys are distinct, a lookup finds the member with that key. */
  lemma {:induction false} LookupUnique(ms: seq<(string, Json)>, i: int)
    requires 0 <= i < |ms|
    requires forall j :: 0 <= j < |ms| && j != i ==> ms[j].0 != ms[i].0
    ensures Lookup(ms, ms[i].0) == Some(ms[i].1)
  {
    if i != |ms| - 1 {
      LookupUnique(ms[..|ms| - 1], i);
    }
  }

  /** A property lookup that is a truthy value in JavaScript. */
  predicate JsTruthyAt(v: Json, key: string) {
    Get(v, key).Some? && JsTruthy(Get(v, key).value)
  }

  // ---------------------------------------------------------------- String(v)

  /** JavaScript's `String(v)`, which `localStorage.setItem` applies to the value it stores. */
  function JsString(v: Json): string
    decreases v
  {
    match v
    case JNull => "null"
    case JBool(b) => if b then "true" else "false"
    case JNum(n) => IntToString(n)
    case JStr(s) => s
    case JArr(xs) => JsJoinItems(xs)
    case JObj(_) => "[object Object]"
  }

  /** `Array.prototype.toString`: the elements joined by commas, null elements as "". */
  function JsJoinItems(xs: seq<Json>): string
    decreases xs
  {
    if xs == [] then []
    else
      (if xs[0] == JNull then [] else JsString(xs[0]))
      + (if |xs| == 1 then [] else "," + JsJoinItems(xs[1..]))
  }

  // ---------------------------------------------------------------- stringify

  /** The letter that follows a backslash when `JSON.stringify` escapes `c`, if it does. */
  function EscapeLetter(c: char): Option<char> {
    if c == '"' then Some('"')
    else if c == '\\' then Some('\\')
    else if c == '\n' then Some('n')
    else if c == '\r' then Some('r')
    else if c == '\t' then Some('t')
    else if c == '\U{8}' then Some('b')
    else if c == '\U{C}' then Some('f')
    else None
  }

  /** The character a backslash escape stands for in `JSON.parse`. */
  function Unescape(letter: char): Option<char> {
    if letter == '"' then Some('"')
    else if letter == '\\' then Some('\\')
    else if letter == '/' then Some('/')
    else if letter == 'n' then Some('\n')
    else if letter == 'r' then Some('\r')
    else if letter == 't' then Some('\t')
    else if letter == 'b' then Some('\U{8}')
    else if letter == 'f' then Some('\U{C}')
    else None
  }

  /** The lower-case hexadecimal digit of `d`, as `JSON.stringify` writes it. */
  function HexDigit(d: nat): (c: char)
    requires d < 16
    ensures HexValue(c) == Some(d)
  {
    if d < 10 then ('0' as int + d) as char else ('a' as int + (d - 10)) as char
  }

  /** The value of a hexadecimal digit in either case, as `JSON.parse` reads it. */
  function HexValue(c: char): (r: Option<nat>)
    ensures r.Some? ==> r.value < 16
  {
    if '0' <= c <= '9' then Some(c as int - '0' as int)
    else if 'a' <= c <= 'f' then Some(c as int - 'a' as int + 10)
    else if 'A' <= c <= 'F' then Some(c as int - 'A' as int + 10)
    else None
  }

  /** The code unit that four hexadecimal digits spell. */
  function Hex4(s: string): (r: Option<nat>)
    requires |s| == 4
    ensures r.Some? ==> r.value < 0x1_0000
  {
    match (HexValue(s[0]), HexValue(s[1]), HexValue(s[2]), HexValue(s[3]))
    case (Some(a), Some(b), Some(c), Some(d)) => Some(((a * 16 + b) * 16 + c) * 16 + d)
    case _ => None
  }

  /** How `JSON.stringify` writes one character of a string: a short escape where there is one,
      `\u00` and two hexadecimal digits for the other control characters, and the character
      itself otherwise (non-ASCII characters included). */
  function EscapeChar(c: char): string {
    match EscapeLetter(c)
    case Some(l) => ['\\', l]
    case None =>
      if c < ' ' then ['\\', 'u', '0', '0', HexDigit(c as int / 16), HexDigit(c as int % 16)]
      else [c]
  }

  function Escape(s: string): string {
    if s == [] then [] else EscapeChar(s[0]) + Escape(s[1..])
  }

  function Quote(s: string): string {
    "\"" + Escape(s) + "\""
  }

  /** `JSON.stringify(v)`. */
  function Stringify(v: Json): string
    decreases v
  {
    match v
    case JNull => "null"
    case JBool(b) => if b then "true" else "false"
    case JNum(n) => IntToString(n)
    case JStr(s) => Quote(s)
    case JArr(xs) => "[" + StringifyItems(xs) + "]"
    case JObj(ms) => "{" + StringifyMembers(ms) + "}"
  }

  function StringifyItems(xs: seq<Json>): string
    decreases xs
  {
    if xs == [] then []
    else Stringify(xs[0]) + (if |xs| == 1 then [] else "," + StringifyItems(xs[1..]))
  }

  function StringifyMembers(ms: seq<(string, Json)>): string
    decreases ms
  {
    if ms == [] then []
    else
      var m := ms[0];
      assert m.1 < m;
      Quote(m.0) + (":" + (Stringify(m.1) + (if |ms| == 1 then [] else "," + StringifyMembers(ms[1..]))))
  }

  // ---------------------------------------------------------------- parse

  function LeadingDigits(s: string): (k: nat)
    ensures k <= |s|
    ensures forall i :: 0 <= i < k ==> IsDigit(s[i])
  {
    if s == [] || !IsDigit(s[0]) then 0 else 1 + LeadingDigits(s[1..])
  }

  function DigitValue(c: char): nat
    requires IsDigit(c)
  {
    c as int - '0' as int
  }

  function DigitsValue(ds: string): nat
    requires forall i :: 0 <= i < |ds| ==> IsDigit(ds[i])
  {
    if ds == [] then 0 else DigitsValue(ds[..|ds| - 1]) * 10 + DigitValue(ds[|ds| - 1])
  }

  /** The digits of an integer at the front of `s`, in JSON's grammar `0 | [1-9][0-9]*`: a
      leading zero followed by more digits is refused, as `JSON.parse` refuses it. */
  function ParseNat(s: string): (r: Option<(nat, string)>)
    ensures r.Some? ==> |r.value.1| < |s|
  {
    var k := LeadingDigits(s);
    if k == 0 || (k >= 2 && s[0] == '0') then None else Some((DigitsValue(s[..k]), s[k..]))
  }

  /** The character that a `\\u` escape spells, given the text after its `u`, and the text after
      the escape. A high surrogate must be followed by an escaped low surrogate, and the pair
      spells one character; a lone surrogate is refused. */
  function ParseUnicodeEscape(s: string): (r: Option<(char, string)>)
    ensures r.Some? ==> |r.value.1| < |s|
  {
    if |s| < 4 then None
    else
      match Hex4(s[..4])
      case None => None
      case Some(u) =>
        if u < 0xD800 || 0xE000 <= u then Some((u as char, s[4..]))
        else if u < 0xDC00 && |s| >= 10 && s[4] == '\\' && s[5] == 'u' then
          match Hex4(s[6..10])
          case Some(low) =>
            if 0xDC00 <= low < 0xE000 then Some(((0x1_0000 + (u - 0xD800) * 0x400 + (low - 0xDC00)) as char, s[10..]))
            else None
          case None => None
        else None
  }

  /** The body of a string literal up to its closing quote, and what follows the quote. A raw
      control character is refused. */
  function ParseString(s: string): (r: Option<(string, string)>)
    ensures r.Some? ==> |r.value.1| < |s|
    decreases |s|
  {
    if s == [] then None
    else if s[0] == '"' then Some(([], s[1..]))
    else if s[0] < ' ' then None
    else if s[0] == '\\' && |s| >= 2 && s[1] == 'u' then
      match ParseUnicodeEscape(s[2..])
      case None => None
      case Some((c, after)) =>
        match ParseString(after)
        case Some((t, rest)) => Some(([c] + t, rest))
        case None => None
    else if s[0] == '\\' then
      if |s| < 2 || Unescape(s[1]).None? then None
      else
        match ParseString(s[2..])
        case Some((t, rest)) => Some(([Unescape(s[1]).value] + t, rest))
        case None => None
    else
      match ParseString(s[1..])
      case Some((t, rest)) => Some(([s[0]] + t, rest))
      case None => None
  }

  /** One JSON value at the front of `s`, and the text after it. */
  function ParseValue(s: string): (r: Option<(Json, string)>)
    ensures r.Some? ==> |r.value.1| < |s|
    decreases |s|, 0
  {
    if s == [] then None
    else if s[0] == 'n' then (if StartsWith(s, "null") then Some((JNull, s[4..])) else None)
    else if s[0] == 't' then (if StartsWith(s, "true") then Some((JBool(true), s[4..])) else None)
    else if s[0] == 'f' then (if StartsWith(s, "false") then Some((JBool(false), s[5..])) else None)
    else if s[0] == '-' then
      match ParseNat(s[1..])
      case Some((n, rest)) => Some((JNum(-(n as int)), rest))
      case None => None
    else if IsDigit(s[0]) then
      match ParseNat(s)
      case Some((n, rest)) => Some((JNum(n), rest))
      case None => None
    else if s[0] == '"' then
      match ParseString(s[1..])
      case Some((t, rest)) => Some((JStr(t), rest))
      case None => None
    else if s[0] == '[' then
      if |s| >= 2 && s[1] == ']' then Some((JArr([]), s[2..])) else ParseItems(s[1..], [])
    else if s[0] == '{' then
      if |s| >= 2 && s[1] == '}' then Some((JObj([]), s[2..])) else ParseMembers(s[1..], [])
    else None
  }

  /** The elements of an array after its `[`, up to and including the closing `]`. */
  function ParseItems(s: string, acc: seq<Json>): (r: Option<(Json, string)>)
    ensures r.Some? ==> |r.value.1| < |s|
    decreases |s|, 1
  {
    match ParseValue(s)
    case None => None
    case Some((v, rest)) =>
      if rest != [] && rest[0] == ',' then ParseItems(rest[1..], acc + [v])
      else if rest != [] && rest[0] == ']' then Some((JArr(acc + [v]), rest[1..]))
      else None
  }

  /** One `"key":value` member at the front of `s`, and the text after it. */
  function ParseMember(s: string): (r: Option<((string, Json), string)>)
    ensures r.Some? ==> |r.value.1| < |s|
    decreases |s|, 1
  {
    if s == [] || s[0] != '"' then None
    else
      match ParseString(s[1..])
      case None => None
      case Some((k, afterKey)) =>
        if afterKey == [] || afterKey[0] != ':' then None
        else
          match ParseValue(afterKey[1..])
          case None => None
          case Some((v, rest)) => Some(((k, v), rest))
  }

  /** The members of an object after its `{`, up to and including the closing `}`. */
  function ParseMembers(s: string, acc: seq<(string, Json)>): (r: Option<(Json, string)>)
    ensures r.Some? ==> |r.value.1| < |s|
    decreases |s|, 2
  {
    match ParseMember(s)
    case None => None
    case Some((m, rest)) =>
      if rest != [] && rest[0] == ',' then ParseMembers(rest[1..], acc + [m])
      else if rest != [] && rest[0] == '}' then Some((JObj(acc + [m]), rest[1..]))
      else None
  }

  /** `JSON.parse(text)`: None where `JSON.parse` throws, for the values modelled here. */
  function Parse(text: string): Option<Json> {
    match ParseValue(text)
    case Some((v, rest)) => if rest == [] then Some(v) else None
    case None => None
  }

  // ---------------------------------------------------------------- round trip

  /** What may follow a value without being read as part of it. */
  predicate Delimited(rest: string) {
    rest == [] || !IsDigit(rest[0])
  }

  lemma {:induction false} LeadingDigitsOfNumeral(ds: string, rest: string)
    requires forall i :: 0 <= i < |ds| ==> IsDigit(ds[i])
    requires Delimited(rest)
    ensures LeadingDigits(ds + rest) == |ds|
    decreases |ds|
  {
    if ds == [] {
      assert ds + rest == rest;
    } else {
      assert (ds + rest)[1..] == ds[1..] + rest;
      LeadingDigitsOfNumeral(ds[1..], rest);
    }
  }

  lemma {:induction false} NumeralValue(n: nat)
    ensures DigitsValue(NatToString(n)) == n
    decreases n
  {
    if n >= 10 {
      var ds := NatToString(n);
      assert ds[..|ds| - 1] == NatToString(n / 10);
      NumeralValue(n / 10);
    }
  }

  /** `NatToString` writes a zero only as the single digit "0". */
  lemma {:induction false} NoLeadingZero(n: nat)
    ensures |NatToString(n)| >= 2 ==> NatToString(n)[0] != '0'
    decreases n
  {
    if n >= 10 {
      NoLeadingZero(n / 10);
      assert NatToString(n)[0] == NatToString(n / 10)[0];
    }
  }

  lemma NatRoundTrip(n: nat, rest: string)
    requires Delimited(rest)
    ensures ParseNat(NatToString(n) + rest) == Some((n, rest))
  {
    var ds := NatToString(n);
    NoLeadingZero(n);
    LeadingDigitsOfNumeral(ds, rest);
    assert (ds + rest)[..|ds|] == ds;
    assert (ds + rest)[|ds|..] == rest;
    NumeralValue(n);
  }

  lemma {:induction false} StringRoundTrip(t: string, rest: string)
    ensures ParseString(Escape(t) + "\"" + rest) == Some((t, rest))
    decreases |t|
  {
    var s := Escape(t) + "\"" + rest;
    if t == [] {
      assert s == "\"" + rest;
    } else {
      var tail := Escape(t[1..]) + "\"" + rest;
      assert s == EscapeChar(t[0]) + tail;
      StringRoundTrip(t[1..], rest);
      assert [t[0]] + t[1..] == t;
      match EscapeLetter(t[0])
      case Some(l) =>
        assert s[0] == '\\' && s[1] == l && l != 'u' && Unescape(l) == Some(t[0]);
        assert s[2..] == tail;
      case None =>
        if t[0] < ' ' {
          ControlEscapeRoundTrip(t[0], tail);
          assert s[2..] == EscapeChar(t[0])[2..] + tail;
        } else {
          assert s[0] == t[0] && s[0] != '"' && s[0] != '\\';
          assert s[1..] == tail;
        }
    }
  }

  /** The `\\u00XX` escape of a control character reads back as that character. */
  lemma ControlEscapeRoundTrip(c: char, tail: string)
    requires c < ' ' && EscapeLetter(c).None?
    ensures ParseUnicodeEscape(EscapeChar(c)[2..] + tail) == Some((c, tail))
  {
    var s := EscapeChar(c)[2..] + tail;
    var hi, lo := c as int / 16, c as int % 16;
    assert s[..4] == ['0', '0', HexDigit(hi), HexDigit(lo)];
    assert Hex4(s[..4]) == Some(c as int);
    assert s[4..] == tail;
  }

  /** The first character of every serialized value tells its kind; in particular none closes a container. */
  lemma StringifyStart(v: Json)
    ensures Stringify(v) != []
    ensures Stringify(v)[0] != ']' && Stringify(v)[0] != '}'
    ensures v.JNum? ==> Stringify(v)[0] == '-' || IsDigit(Stringify(v)[0])
  {
  }

  lemma {:induction false} ValueRoundTrip(v: Json, rest: string)
    requires Delimited(rest)
    ensures ParseValue(Stringify(v) + rest) == Some((v, rest))
    decreases v, 3
  {
    match v
    case JNull => KeywordRoundTrip(v, rest);
    case JBool(_) => KeywordRoundTrip(v, rest);
    case JNum(n) => NumberRoundTrip(n, rest);
    case JStr(t) =>
      var s := Stringify(v) + rest;
      assert s == "\"" + (Escape(t) + "\"" + rest);
      assert s[1..] == Escape(t) + "\"" + rest;
      StringRoundTrip(t, rest);
    case JArr(xs) =>
      ArrayRoundTrip(v, rest);
    case JObj(ms) =>
      ObjectRoundTrip(v, rest);
  }

  lemma KeywordRoundTrip(v: Json, rest: string)
    requires v.JNull? || v.JBool?
    ensures ParseValue(Stringify(v) + rest) == Some((v, rest))
  {
    var s := Stringify(v) + rest;
    if v == JNull {
      assert s[..4] == "null" && s[4..] == rest;
    } else if v.b {
      assert s[..4] == "true" && s[4..] == rest;
    } else {
      assert s[..5] == "false" && s[5..] == rest;
    }
  }

  lemma NumberRoundTrip(n: int, rest: string)
    requires Delimited(rest)
    ensures ParseValue(Stringify(JNum(n)) + rest) == Some((JNum(n), rest))
  {
    var s := Stringify(JNum(n)) + rest;
    if n < 0 {
      assert s == "-" + (NatToString(-n) + rest);
      NatRoundTrip(-n, rest);
      assert s[1..] == NatToString(-n) + rest;
    } else {
      assert s == NatToString(n) + rest;
      assert IsDigit(s[0]);
      NatRoundTrip(n, rest);
    }
  }

  lemma {:induction false} ArrayRoundTrip(v: Json, rest: string)
    requires v.JArr? && Delimited(rest)
    ensures ParseValue(Stringify(v) + rest) == Some((v, rest))
    decreases v, 2
  {
    var xs := v.items;
    var s := Stringify(v) + rest;
    if xs == [] {
      assert StringifyItems(xs) == [];
      assert Stringify(v) == "[]";
      assert s == "[]" + rest;
    } else {
      var inner := StringifyItems(xs) + "]" + rest;
      assert s[0] == '[' && s[1..] == inner && inner[0] != ']' by {
        assert s == "[" + inner;
        StringifyStart(xs[0]);
        assert inner[0] == Stringify(xs[0])[0];
      }
      ParseValueAtBracket(s);
      ItemsRoundTrip(xs, [], rest);
      assert [] + xs == xs;
    }
  }

  lemma {:induction false} ObjectRoundTrip(v: Json, rest: string)
    requires v.JObj? && Delimited(rest)
    ensures ParseValue(Stringify(v) + rest) == Some((v, rest))
    decreases v, 2
  {
    var ms := v.members;
    var s := Stringify(v) + rest;
    if ms == [] {
      assert StringifyMembers(ms) == [];
      assert Stringify(v) == "{}";
      assert s == "{}" + rest;
    } else {
      var inner := StringifyMembers(ms) + "}" + rest;
      assert s[0] == '{' && s[1..] == inner && inner[0] == '"' by {
        assert s == "{" + inner;
      }
      ParseValueAtBrace(s);
      MembersRoundTrip(ms, [], rest);
      assert [] + ms == ms;
    }
  }

  /** A non-empty array literal is read element by element. */
  lemma ParseValueAtBracket(s: string)
    requires |s| >= 2 && s[0] == '[' && s[1] != ']'
    ensures ParseValue(s) == ParseItems(s[1..], [])
  {
  }

  /** A non-empty object literal is read member by member. */
  lemma ParseValueAtBrace(s: string)
    requires |s| >= 2 && s[0] == '{' && s[1] != '}'
    ensures ParseValue(s) == ParseMembers(s[1..], [])
  {
  }

  lemma {:induction false} ItemsRoundTrip(xs: seq<Json>, acc: seq<Json>, rest: string)
    requires xs != []
    ensures ParseItems(StringifyItems(xs) + "]" + rest, acc) == Some((JArr(acc + xs), rest))
    decreases xs, 2
  {
    if |xs| == 1 {
      LastItemsRoundTrip(xs, acc, rest);
    } else {
      MoreItemsRoundTrip(xs, acc, rest);
    }
  }

  lemma {:induction false} LastItemsRoundTrip(xs: seq<Json>, acc: seq<Json>, rest: string)
    requires |xs| == 1
    ensures ParseItems(StringifyItems(xs) + "]" + rest, acc) == Some((JArr(acc + xs), rest))
    decreases xs, 1
  {
    ItemHead(xs, rest);
    ItemsClose(StringifyItems(xs) + "]" + rest, acc, xs[0], rest);
    Snoc(acc, xs);
  }

  lemma {:induction false} MoreItemsRoundTrip(xs: seq<Json>, acc: seq<Json>, rest: string)
    requires |xs| > 1
    ensures ParseItems(StringifyItems(xs) + "]" + rest, acc) == Some((JArr(acc + xs), rest))
    decreases xs, 1
  {
    ItemHead(xs, rest);
    ItemsComma(StringifyItems(xs) + "]" + rest, acc, xs[0], StringifyItems(xs[1..]) + "]" + rest);
    ItemsRoundTrip(xs[1..], acc + [xs[0]], rest);
    Snoc(acc, xs);
  }

  /** The first element of a serialized array reads back, leaving the separator or the bracket after it. */
  lemma {:induction false} ItemHead(xs: seq<Json>, rest: string)
    requires xs != []
    ensures ParseValue(StringifyItems(xs) + "]" + rest)
      == Some((xs[0], if |xs| == 1 then "]" + rest else "," + (StringifyItems(xs[1..]) + "]" + rest)))
    decreases xs, 0
  {
    var s := StringifyItems(xs) + "]" + rest;
    if |xs| == 1 {
      assert s == Stringify(xs[0]) + ("]" + rest);
      ValueRoundTrip(xs[0], "]" + rest);
    } else {
      var tail := "," + (StringifyItems(xs[1..]) + "]" + rest);
      assert s == Stringify(xs[0]) + tail;
      ValueRoundTrip(xs[0], tail);
    }
  }

  /** An element followed by a comma: array parsing goes on after the comma. */
  lemma ItemsComma(s: string, acc: seq<Json>, v: Json, u: string)
    requires ParseValue(s) == Some((v, "," + u))
    ensures ParseItems(s, acc) == ParseItems(u, acc + [v])
  {
    assert ("," + u)[1..] == u;
  }

  /** An element followed by the closing bracket ends the array. */
  lemma ItemsClose(s: string, acc: seq<Json>, v: Json, rest: string)
    requires ParseValue(s) == Some((v, "]" + rest))
    ensures ParseItems(s, acc) == Some((JArr(acc + [v]), rest))
  {
    assert ("]" + rest)[1..] == rest;
  }

  /** A member followed by a comma: object parsing goes on after the comma. */
  lemma MembersComma(s: string, acc: seq<(string, Json)>, m: (string, Json), u: string)
    requires ParseMember(s) == Some((m, "," + u))
    ensures ParseMembers(s, acc) == ParseMembers(u, acc + [m])
  {
    assert ("," + u)[1..] == u;
  }

  /** A member followed by the closing brace ends the object. */
  lemma MembersClose(s: string, acc: seq<(string, Json)>, m: (string, Json), rest: string)
    requires ParseMember(s) == Some((m, "}" + rest))
    ensures ParseMembers(s, acc) == Some((JObj(acc + [m]), rest))
  {
    assert ("}" + rest)[1..] == rest;
  }

  lemma Snoc<T>(acc: seq<T>, xs: seq<T>)
    requires xs != []
    ensures acc + [xs[0]] + xs[1..] == acc + xs
    ensures |xs| == 1 ==> acc + [xs[0]] == acc + xs
  {
  }

  lemma {:induction false} MembersRoundTrip(ms: seq<(string, Json)>, acc: seq<(string, Json)>, rest: string)
    requires ms != []
    ensures ParseMembers(StringifyMembers(ms) + "}" + rest, acc) == Some((JObj(acc + ms), rest))
    decreases ms, 2
  {
    if |ms| == 1 {
      LastMembersRoundTrip(ms, acc, rest);
    } else {
      MoreMembersRoundTrip(ms, acc, rest);
    }
  }

  lemma {:induction false} LastMembersRoundTrip(ms: seq<(string, Json)>, acc: seq<(string, Json)>, rest: string)
    requires |ms| == 1
    ensures ParseMembers(StringifyMembers(ms) + "}" + rest, acc) == Some((JObj(acc + ms), rest))
    decreases ms, 1
  {
    MemberHead(ms, rest);
    MembersClose(StringifyMembers(ms) + "}" + rest, acc, ms[0], rest);
    Snoc(acc, ms);
  }

  lemma {:induction false} MoreMembersRoundTrip(ms: seq<(string, Json)>, acc: seq<(string, Json)>, rest: string)
    requires |ms| > 1
    ensures ParseMembers(StringifyMembers(ms) + "}" + rest, acc) == Some((JObj(acc + ms), rest))
    decreases ms, 1
  {
    MemberHead(ms, rest);
    MembersComma(StringifyMembers(ms) + "}" + rest, acc, ms[0], StringifyMembers(ms[1..]) + "}" + rest);
    MembersRoundTrip(ms[1..], acc + [ms[0]], rest);
    Snoc(acc, ms);
  }

  /** The first member of a serialized object reads back, leaving the separator or the brace after it. */
  lemma {:induction false} MemberHead(ms: seq<(string, Json)>, rest: string)
    requires ms != []
    ensures ParseMember(StringifyMembers(ms) + "}" + rest)
      == Some((ms[0], if |ms| == 1 then "}" + rest else "," + (StringifyMembers(ms[1..]) + "}" + rest)))
    decreases ms, 0
  {
    var m := ms[0];
    assert m.1 < m;
    var s := StringifyMembers(ms) + "}" + rest;
    var tail := if |ms| == 1 then "}" + rest else "," + (StringifyMembers(ms[1..]) + "}" + rest);
    MembersText(ms, rest);
    ValueRoundTrip(m.1, tail);
    MemberRoundTrip(m, Stringify(m.1), tail, s);
  }

  /** A serialized member list starts with its first member's key, a colon and its value. */
  lemma MembersText(ms: seq<(string, Json)>, rest: string)
    requires ms != []
    ensures StringifyMembers(ms) + "}" + rest
      == Quote(ms[0].0) + (":" + (Stringify(ms[0].1)
           + (if |ms| == 1 then "}" + rest else "," + (StringifyMembers(ms[1..]) + "}" + rest))))
  {
    var q, v := Quote(ms[0].0), Stringify(ms[0].1);
    var more := if |ms| == 1 then [] else "," + StringifyMembers(ms[1..]);
    var x := "}" + rest;
    AppendAssoc(StringifyMembers(ms), "}", rest);
    AppendAssoc(q, ":" + (v + more), x);
    AppendAssoc(":", v + more, x);
    AppendAssoc(v, more, x);
    if |ms| == 1 {
      assert more + x == x;
    } else {
      AppendAssoc(",", StringifyMembers(ms[1..]), x);
      AppendAssoc(StringifyMembers(ms[1..]), "}", rest);
    }
  }

  lemma AppendAssoc(a: string, b: string, c: string)
    ensures a + b + c == a + (b + c)
  {
  }

  /** A serialized key, a colon and a value text that reads back as `v` make one member. */
  lemma MemberRoundTrip(m: (string, Json), text: string, tail: string, s: string)
    requires ParseValue(text + tail) == Some((m.1, tail))
    requires s == Quote(m.0) + (":" + (text + tail))
    ensures ParseMember(s) == Some((m, tail))
  {
    var afterKey := ":" + (text + tail);
    assert s[1..] == Escape(m.0) + "\"" + afterKey;
    StringRoundTrip(m.0, afterKey);
  }

  // ---------------------------------------------------------------- \\u escapes read by JSON.parse

  /** The four hexadecimal digits of a UTF-16 code unit. */
  function Hex4Of(u: nat): (ds: string)
    requires u < 0x1_0000
    ensures |ds| == 4
  {
    [HexDigit(u / 0x1000), HexDigit(u / 0x100 % 16), HexDigit(u / 16 % 16), HexDigit(u % 16)]
  }

  lemma Hex4OfValue(u: nat)
    requires u < 0x1_0000
    ensures Hex4(Hex4Of(u)) == Some(u)
  {
    var a, b, c, d := u / 0x1000, u / 0x100 % 16, u / 16 % 16, u % 16;
    assert u / 0x100 == a * 16 + b;
    assert u / 16 == (a * 16 + b) * 16 + c;
  }

  /** What follows `\\u` when `c` is written as escapes: one code unit for a character of the
      Basic Multilingual Plane, and the UTF-16 surrogate pair, the second one escaped too, for
      any other. */
  function UnitEscapes(c: char): string {
    var n := c as int;
    if n < 0x1_0000 then Hex4Of(n)
    else Hex4Of(0xD800 + (n - 0x1_0000) / 0x400) + ['\\', 'u'] + Hex4Of(0xDC00 + (n - 0x1_0000) % 0x400)
  }

  /** Every character written as a `\\u` escape, or as a pair of them beyond the Basic
      Multilingual Plane, reads back as that character. */
  lemma UnicodeEscapeRoundTrip(c: char, tail: string)
    ensures ParseUnicodeEscape(UnitEscapes(c) + tail) == Some((c, tail))
  {
    var n := c as int;
    var s := UnitEscapes(c) + tail;
    if n < 0x1_0000 {
      Hex4OfValue(n);
      assert s[..4] == Hex4Of(n) && s[4..] == tail;
    } else {
      var hi, lo := 0xD800 + (n - 0x1_0000) / 0x400, 0xDC00 + (n - 0x1_0000) % 0x400;
      Hex4OfValue(hi);
      Hex4OfValue(lo);
      assert s[..4] == Hex4Of(hi) && s[4] == '\\' && s[5] == 'u';
      assert s[6..10] == Hex4Of(lo) && s[10..] == tail;
      assert 0x1_0000 + (hi - 0xD800) * 0x400 + (lo - 0xDC00) == n;
    }
  }

  /** A number written with a leading zero, signed or not, is refused: "01" and "-01" are not
      JSON, and neither is an array or object holding one. */
  lemma LeadingZeroRefused(s: string)
    requires |s| >= 2 && s[0] == '0' && IsDigit(s[1])
    ensures ParseValue(s).None? && ParseValue("-" + s).None?
  {
    assert LeadingDigits(s) >= 2 by {
      assert LeadingDigits(s) == 1 + LeadingDigits(s[1..]);
    }
    assert ("-" + s)[1..] == s;
  }

  /** A string literal that holds a raw control character is refused. */
  lemma {:induction false} RawControlRefused(before: string, c: char, after: string)
    requires c < ' '
    requires forall i :: 0 <= i < |before| ==> ' ' <= before[i] && before[i] != '"' && before[i] != '\\'
    ensures ParseString(before + [c] + after) == None
    decreases |before|
  {
    var s := before + [c] + after;
    if before == [] {
      assert s[0] == c;
    } else {
      assert s[1..] == before[1..] + [c] + after;
      RawControlRefused(before[1..], c, after);
    }
  }

  /** `JSON.parse(JSON.stringify(v))` gives back `v`. */
  lemma RoundTrip(v: Json)
    ensures Parse(Stringify(v)) == Some(v)
  {
    ValueRoundTrip(v, []);
    assert Stringify(v) + [] == Stringify(v);
  }
}
