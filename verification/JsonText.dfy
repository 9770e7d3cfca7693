/**
 JSON text: the printer the elicitation encoders amount to, and a parser that inverts it.
 Strings are sequences of Unicode scalar values, that is valid UTF-8; escaping follows
 section 7 of RFC 8259 with the additional characters Go's encoder escapes.
 */
module JsonText {
  import opened Wrappers

  datatype Json =
    | Str(s: string)
    | Num(token: string)
    | Bool(b: bool)
    | Arr(items: seq<Json>)
    | Obj(members: seq<Member>)

  datatype Member = Member(key: string, value: Json)

  // ----- strings -----

  function HexDigit(n: nat): char
    requires n < 16
  {
    if n < 10 then ('0' as int + n) as char else ('a' as int + n - 10) as char
  }

  function HexValue(c: char): Option<nat> {
    if '0' <= c <= '9' then Some(c as int - '0' as int)
    else if 'a' <= c <= 'f' then Some(c as int - 'a' as int + 10)
    else None
  }

  function Hex4(n: nat): string
    requires n < 0x10000
  {
    [HexDigit(n / 4096), HexDigit(n / 256 % 16), HexDigit(n / 16 % 16), HexDigit(n % 16)]
  }

  /** Characters written as a six-character \u escape. */
  predicate NeedsHex(c: char) {
    c < ' ' || c == '<' || c == '>' || c == '&' || c == '\U{2028}' || c == '\U{2029}'
  }

  function EscapeChar(c: char): (r: string)
    ensures |r| > 0 && r[0] != '"'
  {
    if c == '"' then "\\\""
    else if c == '\\' then "\\\\"
    else if c == 8 as char then "\\b"
    else if c == 12 as char then "\\f"
    else if c == '\n' then "\\n"
    else if c == '\r' then "\\r"
    else if c == '\t' then "\\t"
    else if NeedsHex(c) then "\\u" + Hex4(c as int)
    else [c]
  }

  function Escape(s: string): string {
    if s == "" then "" else EscapeChar(s[0]) + Escape(s[1..])
  }

  function Quote(s: string): string {
    "\"" + Escape(s) + "\""
  }

  /** One character of a string body, possibly an escape sequence. */
  function ReadChar(t: string): (r: Option<(char, string)>)
    ensures r.Some? ==> |r.value.1| < |t|
  {
    if t == "" then None
    else if t[0] != '\\' then Some((t[0], t[1..]))
    else if |t| < 2 then None
    else match t[1]
      case '"' => Some(('"', t[2..]))
      case '\\' => Some(('\\', t[2..]))
      case 'b' => Some((8 as char, t[2..]))
      case 'f' => Some((12 as char, t[2..]))
      case 'n' => Some(('\n', t[2..]))
      case 'r' => Some(('\r', t[2..]))
      case 't' => Some(('\t', t[2..]))
      case 'u' =>
        if |t| < 6 then None
        else
          var a, b, c, d := HexValue(t[2]), HexValue(t[3]), HexValue(t[4]), HexValue(t[5]);
          if a.None? || b.None? || c.None? || d.None? then None
          else
            var n := ((a.value * 16 + b.value) * 16 + c.value) * 16 + d.value;
            if 0xD800 <= n < 0xE000 || n >= 0x10000 then None else Some((n as char, t[6..]))
      case _ => None
  }

  /** A string body up to and including its closing quote. */
  function ReadBody(t: string): (r: Option<(string, string)>)
    ensures r.Some? ==> |r.value.1| < |t|
    decreases |t|
  {
    if t == "" then None
    else if t[0] == '"' then Some(("", t[1..]))
    else match ReadChar(t)
      case None => None
      case Some((c, rest)) =>
        match ReadBody(rest)
        case None => None
        case Some((s, rest')) => Some(([c] + s, rest'))
  }

  lemma {:induction false} Hex4Value(n: nat)
    requires n < 0x10000
    ensures ((n / 4096 * 16 + n / 256 % 16) * 16 + n / 16 % 16) * 16 + n % 16 == n
  {
    DropDigit(n, 1);
    DropDigit(n, 16);
    DropDigit(n, 256);
  }

  lemma {:induction false} DropDigit(n: nat, unit: nat)
    requires unit == 1 || unit == 16 || unit == 256
    ensures n / unit == n / (16 * unit) * 16 + n / unit % 16
  {
  }

  lemma {:induction false} HexDigitValue(d: nat)
    requires d < 16
    ensures HexValue(HexDigit(d)) == Some(d)
  {
  }

  lemma {:induction false} ReadEscapedChar(c: char, rest: string)
    ensures ReadChar(EscapeChar(c) + rest) == Some((c, rest))
  {
    var t := EscapeChar(c) + rest;
    if c in "\"\\\n\r\t" || c == 8 as char || c == 12 as char {
      assert t[2..] == rest;
    } else if NeedsHex(c) {
      var n := c as int;
      Hex4Value(n);
      HexDigitValue(n / 4096);
      HexDigitValue(n / 256 % 16);
      HexDigitValue(n / 16 % 16);
      HexDigitValue(n % 16);
      assert t[6..] == rest;
    } else {
      assert t[1..] == rest;
    }
  }

  /** No control character and nothing HTML or JavaScript gives a meaning to. */
  predicate Safe(c: char) {
    c >= ' ' && c != '<' && c != '>' && c != '&' && c != '\U{2028}' && c != '\U{2029}'
  }

  predicate AllSafe(t: string) {
    forall i | 0 <= i < |t| :: Safe(t[i])
  }

  lemma {:induction false} EscapedCharIsSafe(c: char)
    ensures AllSafe(EscapeChar(c))
    ensures Safe(c) && c != '"' && c != '\\' ==> EscapeChar(c) == [c]
  {
    if NeedsHex(c) {
      assert forall n: nat | n < 16 :: Safe(HexDigit(n));
    }
  }

  /** Escaped text can be embedded in HTML. */
  lemma {:induction false} EscapedIsSafe(s: string)
    ensures AllSafe(Escape(s))
    decreases |s|
  {
    if s != "" {
      EscapedCharIsSafe(s[0]);
      EscapedIsSafe(s[1..]);
    }
  }

  lemma {:induction false} ReadEscaped(s: string, rest: string)
    ensures ReadBody(Escape(s) + "\"" + rest) == Some((s, rest))
    decreases |s|
  {
    var t := Escape(s) + "\"" + rest;
    if s == "" {
      assert t[1..] == rest;
    } else {
      var tail := Escape(s[1..]) + "\"" + rest;
      assert t == EscapeChar(s[0]) + tail;
      assert t[0] == EscapeChar(s[0])[0];
      ReadEscapedChar(s[0], tail);
      ReadEscaped(s[1..], rest);
      assert s == [s[0]] + s[1..];
    }
  }

  // ----- numbers -----

  predicate NumStart(c: char) {
    '0' <= c <= '9' || c == '-' || c == '+' || c == 'N'
  }

  predicate NumChar(c: char) {
    NumStart(c) || c in ".eEIinfa"
  }

  /** A non-empty run of number characters, starting as a number does. */
  predicate IsNumber(s: string) {
    |s| > 0 && NumStart(s[0]) && forall i | 0 <= i < |s| :: NumChar(s[i])
  }

  predicate NumStops(rest: string) {
    rest == "" || !NumChar(rest[0])
  }

  function NumEnd(t: string): (n: nat)
    ensures n <= |t|
  {
    if t == "" || !NumChar(t[0]) then 0 else 1 + NumEnd(t[1..])
  }

  lemma {:induction false} NumEndExact(s: string, rest: string)
    requires NumStops(rest) && forall i | 0 <= i < |s| :: NumChar(s[i])
    ensures NumEnd(s + rest) == |s|
  {
    if s == "" {
      assert s + rest == rest;
    } else {
      assert (s + rest)[1..] == s[1..] + rest;
      NumEndExact(s[1..], rest);
    }
  }

  // ----- printing -----

  function Print(j: Json): string
    decreases j, 1
  {
    match j
    case Str(s) => Quote(s)
    case Num(token) => token
    case Bool(b) => if b then "true" else "false"
    case Arr(items) => "[" + PrintItems(items) + "]"
    case Obj(members) => "{" + PrintMembers(members) + "}"
  }

  function PrintItems(items: seq<Json>): string
    decreases items, 0
  {
    if items == [] then ""
    else if |items| == 1 then Print(items[0])
    else Print(items[0]) + "," + PrintItems(items[1..])
  }

  function PrintMember(m: Member): string
    decreases m, 2
  {
    Quote(m.key) + ":" + Print(m.value)
  }

  function PrintMembers(members: seq<Member>): string
    decreases members, 0
  {
    if members == [] then ""
    else if |members| == 1 then PrintMember(members[0])
    else PrintMember(members[0]) + "," + PrintMembers(members[1..])
  }

  // ----- parsing -----

  predicate StartsWith(t: string, p: string) {
    |p| <= |t| && t[..|p|] == p
  }

  function ParseValue(t: string): (r: Option<(Json, string)>)
    ensures r.Some? ==> |r.value.1| < |t|
    decreases |t|, 1
  {
    if t == "" then None
    else if t[0] == '"' then
      (match ReadBody(t[1..])
       case None => None
       case Some((s, rest)) => Some((Str(s), rest)))
    else if t[0] == '[' then
      if StartsWith(t, "[]") then Some((Arr([]), t[2..]))
      else
        (match ParseItems(t[1..])
         case None => None
         case Some((items, rest)) => Some((Arr(items), rest)))
    else if t[0] == '{' then
      if StartsWith(t, "{}") then Some((Obj([]), t[2..]))
      else
        (match ParseMembers(t[1..])
         case None => None
         case Some((ms, rest)) => Some((Obj(ms), rest)))
    else if StartsWith(t, "true") then Some((Bool(true), t[4..]))
    else if StartsWith(t, "false") then Some((Bool(false), t[5..]))
    else if NumStart(t[0]) then Some((Num(t[..NumEnd(t)]), t[NumEnd(t)..]))
    else None
  }

  /** One or more array elements and the closing bracket. */
  function ParseItems(t: string): (r: Option<(seq<Json>, string)>)
    ensures r.Some? ==> |r.value.1| < |t|
    decreases |t|, 2
  {
    match ParseValue(t)
    case None => None
    case Some((j, rest)) =>
      if rest == "" then None
      else if rest[0] == ']' then Some(([j], rest[1..]))
      else if rest[0] != ',' then None
      else match ParseItems(rest[1..])
        case None => None
        case Some((js, rest')) => Some(([j] + js, rest'))
  }

  function ParseMember(t: string): (r: Option<(Member, string)>)
    ensures r.Some? ==> |r.value.1| < |t|
    decreases |t|, 2
  {
    if t == "" || t[0] != '"' then None
    else match ReadBody(t[1..])
      case None => None
      case Some((key, rest)) =>
        if rest == "" || rest[0] != ':' then None
        else match ParseValue(rest[1..])
          case None => None
          case Some((j, rest')) => Some((Member(key, j), rest'))
  }

  /** One or more members and the closing brace. */
  function ParseMembers(t: string): (r: Option<(seq<Member>, string)>)
    ensures r.Some? ==> |r.value.1| < |t|
    decreases |t|, 3
  {
    match ParseMember(t)
    case None => None
    case Some((m, rest)) =>
      if rest == "" then None
      else if rest[0] == '}' then Some(([m], rest[1..]))
      else if rest[0] != ',' then None
      else match ParseMembers(rest[1..])
        case None => None
        case Some((ms, rest')) => Some(([m] + ms, rest'))
  }

  // ----- the parser inverts the printer -----

  /** Every number token inside the value is one. */
  ghost predicate Printable(j: Json)
    decreases j, 1
  {
    match j
    case Num(token) => IsNumber(token)
    case Arr(items) => forall i | 0 <= i < |items| :: Printable(items[i])
    case Obj(members) => forall i | 0 <= i < |members| :: Printable(members[i].value)
    case _ => true
  }

  // Regrouping of concatenations.

  lemma {:induction false} RegroupQuoted(e: string, rest: string)
    ensures ("\"" + e + "\"") + rest == "\"" + (e + "\"" + rest)
  {
  }

  lemma {:induction false} RegroupMember(e: string, v: string, rest: string)
    ensures ("\"" + e + "\"" + ":" + v) + rest == "\"" + (e + "\"" + (":" + (v + rest)))
  {
  }

  lemma {:induction false} RegroupEnclosed(open: string, b: string, close: string, rest: string)
    ensures (open + b + close) + rest == open + (b + close + rest)
  {
  }

  lemma {:induction false} RegroupList(a: string, b: string, close: string, rest: string)
    ensures (a + "," + b) + close + rest == a + ("," + (b + close + rest))
  {
  }

  lemma {:induction false} RegroupLast(a: string, close: string, rest: string)
    ensures a + close + rest == a + (close + rest)
  {
  }

  // One unfolding of each parsing function.

  lemma {:induction false} ParsesString(body: string, s: string, rest: string)
    requires ReadBody(body) == Some((s, rest))
    ensures ParseValue("\"" + body) == Some((Str(s), rest))
  {
    assert ("\"" + body)[1..] == body;
  }

  lemma {:induction false} ParsesNumber(token: string, rest: string)
    requires IsNumber(token) && NumStops(rest)
    ensures ParseValue(token + rest) == Some((Num(token), rest))
  {
    var t := token + rest;
    NumEndExact(token, rest);
    assert t[..|token|] == token && t[|token|..] == rest;
    assert t[0] == token[0];
  }

  lemma {:induction false} ParsesArray(body: string, items: seq<Json>, rest: string)
    requires |body| > 0 && body[0] != ']' && ParseItems(body) == Some((items, rest))
    ensures ParseValue("[" + body) == Some((Arr(items), rest))
  {
    var t := "[" + body;
    assert t[1..] == body;
    assert t[..2][1] == body[0];
  }

  lemma {:induction false} ParsesObject(body: string, members: seq<Member>, rest: string)
    requires |body| > 0 && body[0] != '}' && ParseMembers(body) == Some((members, rest))
    ensures ParseValue("{" + body) == Some((Obj(members), rest))
  {
    var t := "{" + body;
    assert t[1..] == body;
    assert t[..2][1] == body[0];
  }

  lemma {:induction false} ParsesLastItem(t: string, j: Json, rest: string)
    requires ParseValue(t) == Some((j, "]" + rest))
    ensures ParseItems(t) == Some(([j], rest))
  {
    assert ("]" + rest)[1..] == rest;
  }

  lemma {:induction false} ParsesMoreItems(t: string, j: Json, tail: string, js: seq<Json>, rest: string)
    requires ParseValue(t) == Some((j, "," + tail)) && ParseItems(tail) == Some((js, rest))
    ensures ParseItems(t) == Some(([j] + js, rest))
  {
    assert ("," + tail)[1..] == tail;
  }

  lemma {:induction false} ParsesMember(body: string, key: string, text: string, j: Json, rest: string)
    requires ReadBody(body) == Some((key, ":" + text)) && ParseValue(text) == Some((j, rest))
    ensures ParseMember("\"" + body) == Some((Member(key, j), rest))
  {
    assert ("\"" + body)[1..] == body;
    assert (":" + text)[1..] == text;
  }

  lemma {:induction false} ParsesLastMember(t: string, m: Member, rest: string)
    requires ParseMember(t) == Some((m, "}" + rest))
    ensures ParseMembers(t) == Some(([m], rest))
  {
    assert ("}" + rest)[1..] == rest;
  }

  lemma {:induction false} ParsesMoreMembers(t: string, m: Member, tail: string, ms: seq<Member>, rest: string)
    requires ParseMember(t) == Some((m, "," + tail)) && ParseMembers(tail) == Some((ms, rest))
    ensures ParseMembers(t) == Some(([m] + ms, rest))
  {
    assert ("," + tail)[1..] == tail;
  }

  lemma {:induction false} ParsesConstant(j: Json, rest: string)
    requires j.Bool? || j == Arr([]) || j == Obj([])
    ensures ParseValue(Print(j) + rest) == Some((j, rest))
  {
    var t := Print(j) + rest;
    assert t[..|Print(j)|] == Print(j) && t[|Print(j)|..] == rest;
    if j == Bool(false) {
      assert t[..4][0] == 'f';
    }
  }

  /** Printed elements never begin with a closing bracket, nor members with a brace. */
  lemma {:induction false} PrintedStart(j: Json)
    requires Printable(j)
    ensures |Print(j)| > 0 && Print(j)[0] != ']'
  {
  }

  /** The parser reads back exactly the value that was printed, and stops where it ended. */
  lemma {:induction false} ParsePrint(j: Json, rest: string)
    requires Printable(j) && NumStops(rest)
    ensures ParseValue(Print(j) + rest) == Some((j, rest))
    decreases j, 1
  {
    match j
    case Str(s) =>
      ReadEscaped(s, rest);
      ParsesString(Escape(s) + "\"" + rest, s, rest);
      RegroupQuoted(Escape(s), rest);
    case Num(token) => ParsesNumber(token, rest);
    case Bool(_) => ParsesConstant(j, rest);
    case Arr(items) =>
      if items == [] {
        ParsesConstant(j, rest);
      } else {
        var body := PrintItems(items) + "]" + rest;
        ParsePrintItems(items, rest);
        PrintedStart(items[0]);
        assert body[0] == Print(items[0])[0];
        ParsesArray(body, items, rest);
        RegroupEnclosed("[", PrintItems(items), "]", rest);
      }
    case Obj(members) =>
      if members == [] {
        ParsesConstant(j, rest);
      } else {
        var body := PrintMembers(members) + "}" + rest;
        ParsePrintMembers(members, rest);
        assert body[0] == PrintMember(members[0])[0] == '"';
        ParsesObject(body, members, rest);
        RegroupEnclosed("{", PrintMembers(members), "}", rest);
      }
  }

  lemma {:induction false} ParsePrintItems(items: seq<Json>, rest: string)
    requires items != [] && forall i | 0 <= i < |items| :: Printable(items[i])
    ensures ParseItems(PrintItems(items) + "]" + rest) == Some((items, rest))
    decreases items, 0
  {
    var t := PrintItems(items) + "]" + rest;
    if |items| == 1 {
      ParsePrint(items[0], "]" + rest);
      RegroupLast(Print(items[0]), "]", rest);
      ParsesLastItem(t, items[0], rest);
      assert items == [items[0]];
    } else {
      var tail := PrintItems(items[1..]) + "]" + rest;
      RegroupList(Print(items[0]), PrintItems(items[1..]), "]", rest);
      ParsePrint(items[0], "," + tail);
      ParsePrintItems(items[1..], rest);
      ParsesMoreItems(t, items[0], tail, items[1..], rest);
      assert items == [items[0]] + items[1..];
    }
  }

  lemma {:induction false} ParsePrintMember(m: Member, rest: string)
    requires Printable(m.value) && NumStops(rest)
    ensures ParseMember(PrintMember(m) + rest) == Some((m, rest))
    decreases m, 2
  {
    var text := Print(m.value) + rest;
    ReadEscaped(m.key, ":" + text);
    ParsePrint(m.value, rest);
    ParsesMember(Escape(m.key) + "\"" + (":" + text), m.key, text, m.value, rest);
    RegroupMember(Escape(m.key), Print(m.value), rest);
  }

  lemma {:induction false} ParsePrintMembers(members: seq<Member>, rest: string)
    requires members != [] && forall i | 0 <= i < |members| :: Printable(members[i].value)
    ensures ParseMembers(PrintMembers(members) + "}" + rest) == Some((members, rest))
    decreases members, 0
  {
    var t := PrintMembers(members) + "}" + rest;
    if |members| == 1 {
      ParsePrintMember(members[0], "}" + rest);
      RegroupLast(PrintMember(members[0]), "}", rest);
      ParsesLastMember(t, members[0], rest);
      assert members == [members[0]];
    } else {
      var tail := PrintMembers(members[1..]) + "}" + rest;
      RegroupList(PrintMember(members[0]), PrintMembers(members[1..]), "}", rest);
      ParsePrintMember(members[0], "," + tail);
      ParsePrintMembers(members[1..], rest);
      ParsesMoreMembers(t, members[0], tail, members[1..], rest);
      assert members == [members[0]] + members[1..];
    }
  }

  // ----- facts the encoders' loops use -----

  lemma {:induction false} PrintMembersAppend(ms: seq<Member>, m: Member)
    ensures PrintMembers(ms + [m]) == if ms == [] then PrintMember(m) else PrintMembers(ms) + "," + PrintMember(m)
    decreases |ms|
  {
    if |ms| >= 1 {
      assert (ms + [m])[1..] == ms[1..] + [m];
      PrintMembersAppend(ms[1..], m);
    } else {
      assert ms + [m] == [m];
    }
  }

  lemma {:induction false} PrintItemsAppend(js: seq<Json>, j: Json)
    ensures PrintItems(js + [j]) == if js == [] then Print(j) else PrintItems(js) + "," + Print(j)
    decreases |js|
  {
    if |js| > 1 {
      assert (js + [j])[1..] == js[1..] + [j];
      PrintItemsAppend(js[1..], j);
      Commas(Print(js[0]), PrintItems(js[1..]), Print(j));
    } else if |js| == 1 {
      assert (js + [j])[1..] == [j];
    } else {
      assert js + [j] == [j];
    }
  }

  lemma {:induction false} Commas(a: string, b: string, c: string)
    ensures a + "," + (b + "," + c) == a + "," + b + "," + c
  {
  }

  /** Lower- and upper-case letters pass through the escaper untouched. */
  lemma {:induction false} EscapeLetters(s: string)
    requires forall i | 0 <= i < |s| :: 'a' <= s[i] <= 'z' || 'A' <= s[i] <= 'Z'
    ensures Escape(s) == s
  {
    if s != "" {
      EscapeLetters(s[1..]);
      assert s == [s[0]] + s[1..];
    }
  }
}
