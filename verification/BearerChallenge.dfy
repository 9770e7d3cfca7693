/**
 The `WWW-Authenticate` challenge (`streaminghttp/handler.go`): a list of auth-params with
 quoted-string values (section 3 of RFC 6750, section 5.6.4 of RFC 9110), and a reader that
 recovers the list.
 */
module BearerChallenge {
  import opened Wrappers

  datatype Param = Param(name: string, value: string)

  // ----- printing -----

  function EscapeChar(c: char): string {
    if c == '\\' || c == '"' then ['\\', c] else [c]
  }

  function Escape(v: string): string {
    if v == "" then "" else EscapeChar(v[0]) + Escape(v[1..])
  }

  function Piece(p: Param): string {
    p.name + "=\"" + (Escape(p.value) + "\"")
  }

  function Join(ps: seq<Param>): string {
    if ps == [] then "" else if |ps| == 1 then Piece(ps[0]) else Piece(ps[0]) + (", " + Join(ps[1..]))
  }

  function ChallengeText(ps: seq<Param>): string {
    if ps == [] then "Bearer" else "Bearer " + Join(ps)
  }

  function Optional(name: string, value: string): seq<Param> {
    if value != "" then [Param(name, value)] else []
  }

  function Given(name: string, params: map<string, string>): seq<Param> {
    if name in params then [Param(name, params[name])] else []
  }

  predicate IsOrdered(name: string) {
    name == "error" || name == "error_description" || name == "scope"
  }

  /** The parameters outside the fixed order, in the order the map was ranged over. */
  function Others(order: seq<string>, params: map<string, string>): seq<Param>
    requires forall k | k in order :: k in params
  {
    if order == [] then []
    else Others(order[..|order| - 1], params)
         + if IsOrdered(order[|order| - 1]) then [] else [Param(order[|order| - 1], params[order[|order| - 1]])]
  }

  function ParamList(realm: string, metadata: string, params: map<string, string>, order: seq<string>): seq<Param>
    requires forall k | k in order :: k in params
  {
    Optional("realm", realm) + Optional("resource_metadata", metadata)
    + Given("error", params) + Given("error_description", params) + Given("scope", params)
    + Others(order, params)
  }

  method EscapeValue(v: string) returns (r: string)
    ensures r == Escape(v)
  {
    r := "";
    for i := 0 to |v|
      invariant r + Escape(v[i..]) == Escape(v)
    {
      assert v[i..][1..] == v[i + 1..];
      r := r + EscapeChar(v[i]);
    }
  }

  /** `buildBearerChallenge`: pieces are appended to a slice and joined. */
  method BuildBearerChallenge(realm: string, metadata: string, params: map<string, string>, order: seq<string>)
    returns (text: string)
    requires forall k :: k in order <==> k in params
    ensures text == ChallengeText(ParamList(realm, metadata, params, order))
  {
    var pieces: seq<Param> := [];
    if realm != "" {
      pieces := pieces + [Param("realm", realm)];
    }
    assert pieces == Optional("realm", realm);
    if metadata != "" {
      pieces := pieces + [Param("resource_metadata", metadata)];
    }
    assert pieces == Optional("realm", realm) + Optional("resource_metadata", metadata);
    pieces := AppendOrdered(pieces, params);
    pieces := AppendOthers(pieces, params, order);
    text := JoinPieces(pieces);
  }

  method AppendOrdered(start: seq<Param>, params: map<string, string>) returns (pieces: seq<Param>)
    ensures pieces == start + Given("error", params) + Given("error_description", params) + Given("scope", params)
  {
    pieces := AppendGiven(start, "error", params);
    pieces := AppendGiven(pieces, "error_description", params);
    pieces := AppendGiven(pieces, "scope", params);
  }

  method AppendGiven(start: seq<Param>, name: string, params: map<string, string>) returns (pieces: seq<Param>)
    ensures pieces == start + Given(name, params)
  {
    pieces := start;
    if name in params {
      pieces := pieces + [Param(name, params[name])];
    }
  }

  method AppendOthers(start: seq<Param>, params: map<string, string>, order: seq<string>) returns (pieces: seq<Param>)
    requires forall k | k in order :: k in params
    ensures pieces == start + Others(order, params)
  {
    pieces := start;
    for i := 0 to |order|
      invariant pieces == start + Others(order[..i], params)
    {
      assert order[..i + 1][..i] == order[..i];
      if IsOrdered(order[i]) {
        continue;
      }
      pieces := pieces + [Param(order[i], params[order[i]])];
    }
    assert order[..|order|] == order;
  }

  method JoinPieces(ps: seq<Param>) returns (text: string)
    ensures text == ChallengeText(ps)
  {
    if ps == [] {
      return "Bearer";
    }
    var i := |ps| - 1;
    var value := EscapeValue(ps[i].value);
    var joined := ps[i].name + "=\"" + (value + "\"");
    assert ps[i..] == [ps[i]];
    while i > 0
      invariant 0 <= i < |ps| && joined == Join(ps[i..])
    {
      value := EscapeValue(ps[i - 1].value);
      joined := ps[i - 1].name + "=\"" + (value + "\"") + (", " + joined);
      assert ps[i - 1..][1..] == ps[i..];
      i := i - 1;
    }
    assert ps[0..] == ps;
    text := "Bearer " + joined;
  }

  // ----- reading -----

  /** A token character of section 5.6.2 of RFC 9110. */
  predicate TokenChar(c: char) {
    'a' <= c <= 'z' || 'A' <= c <= 'Z' || '0' <= c <= '9' || c in "!#$%&'*+-.^_`|~"
  }

  predicate IsToken(s: string) {
    |s| > 0 && forall i | 0 <= i < |s| :: TokenChar(s[i])
  }

  function TokenLength(t: string): (n: nat)
    ensures n <= |t|
    ensures n < |t| ==> !TokenChar(t[n])
    ensures forall i | 0 <= i < n :: TokenChar(t[i])
  {
    if t == "" || !TokenChar(t[0]) then 0 else 1 + TokenLength(t[1..])
  }

  /** A quoted-string body up to its closing quote; a backslash makes the next character literal. */
  function ReadQuoted(t: string): (r: Option<(string, string)>)
    ensures r.Some? ==> |r.value.1| < |t|
    decreases |t|
  {
    if t == "" then None
    else if t[0] == '"' then Some(("", t[1..]))
    else if t[0] == '\\' && |t| == 1 then None
    else
      var (c, rest) := if t[0] == '\\' then (t[1], t[2..]) else (t[0], t[1..]);
      match ReadQuoted(rest)
      case None => None
      case Some((v, rest')) => Some(([c] + v, rest'))
  }

  function ReadParam(t: string): (r: Option<(Param, string)>)
    ensures r.Some? ==> |r.value.1| < |t|
  {
    var n := TokenLength(t);
    if n == 0 || n + 2 > |t| || t[n] != '=' || t[n + 1] != '"' then None
    else match ReadQuoted(t[n + 2..])
      case None => None
      case Some((v, rest)) => Some((Param(t[..n], v), rest))
  }

  function ReadParams(t: string): Option<seq<Param>>
    decreases |t|
  {
    match ReadParam(t)
    case None => None
    case Some((p, rest)) =>
      if rest == "" then Some([p])
      else if |rest| < 2 || rest[0] != ',' || rest[1] != ' ' then None
      else match ReadParams(rest[2..])
        case None => None
        case Some(ps) => Some([p] + ps)
  }

  function ReadChallenge(t: string): Option<seq<Param>> {
    if t == "Bearer" then Some([])
    else if |t| < 7 || t[..7] != "Bearer " then None
    else ReadParams(t[7..])
  }

  // ----- what is printed is what is read -----

  lemma {:induction false} ReadEscaped(v: string, rest: string)
    ensures ReadQuoted(Escape(v) + "\"" + rest) == Some((v, rest))
    decreases |v|
  {
    var t := Escape(v) + "\"" + rest;
    if v == "" {
      assert t[1..] == rest;
    } else {
      var tail := Escape(v[1..]) + "\"" + rest;
      assert t == EscapeChar(v[0]) + tail;
      ReadEscaped(v[1..], rest);
      assert v == [v[0]] + v[1..];
      if v[0] == '\\' || v[0] == '"' {
        assert t[2..] == tail;
      } else {
        assert t[1..] == tail;
      }
    }
  }

  lemma {:induction false} TokenLengthIs(name: string, rest: string)
    requires IsToken(name) && rest != "" && !TokenChar(rest[0])
    ensures TokenLength(name + rest) == |name|
  {
    var t := name + rest;
    assert t[|name|] == rest[0];
    assert forall i | 0 <= i < |name| :: t[i] == name[i];
  }

  lemma {:induction false} PieceShape(name: string, eq: string, quoted: string, quote: string, rest: string)
    ensures name + eq + (quoted + quote) + rest == name + (eq + (quoted + quote + rest))
  {
    assert (quoted + quote) + rest == quoted + quote + rest;
  }

  lemma {:induction false} ReadPiece(p: Param, rest: string)
    requires IsToken(p.name)
    ensures ReadParam(Piece(p) + rest) == Some((p, rest))
  {
    var quoted := Escape(p.value) + "\"" + rest;
    PieceShape(p.name, "=\"", Escape(p.value), "\"", rest);
    ReadEscaped(p.value, rest);
    ReadNamed(p.name, quoted);
  }

  lemma {:induction false} ReadNamed(name: string, quoted: string)
    requires IsToken(name)
    ensures ReadParam(name + ("=\"" + quoted)) ==
      match ReadQuoted(quoted)
      case None => None
      case Some((v, rest)) => Some((Param(name, v), rest))
  {
    var t := name + ("=\"" + quoted);
    var n := |name|;
    TokenLengthIs(name, "=\"" + quoted);
    assert t[..n] == name && t[n..] == "=\"" + quoted;
    assert t[n] == '=' && t[n + 1] == '"' && t[n + 2..] == quoted;
  }

  lemma {:induction false} ReadLast(p: Param)
    requires IsToken(p.name)
    ensures ReadParams(Piece(p)) == Some([p])
  {
    ReadPiece(p, "");
    assert Piece(p) + "" == Piece(p);
  }

  function Prefixed(p: Param, rest: Option<seq<Param>>): Option<seq<Param>> {
    if rest.None? then None else Some([p] + rest.value)
  }

  lemma {:induction false} ReadMore(p: Param, text: string)
    requires IsToken(p.name)
    ensures ReadParams(Piece(p) + (", " + text)) == Prefixed(p, ReadParams(text))
  {
    var tail := ", " + text;
    ReadPiece(p, tail);
    assert tail[0] == ',' && tail[1] == ' ' && tail[2..] == text;
  }

  lemma {:induction false} ReadJoined(ps: seq<Param>)
    requires ps != [] && forall i | 0 <= i < |ps| :: IsToken(ps[i].name)
    ensures ReadParams(Join(ps)) == Some(ps)
    decreases |ps|
  {
    if |ps| == 1 {
      ReadLast(ps[0]);
      assert ps == [ps[0]];
    } else {
      ReadJoined(ps[1..]);
      ReadFirst(ps);
      assert ps == [ps[0]] + ps[1..];
    }
  }

  lemma {:induction false} ReadFirst(ps: seq<Param>)
    requires |ps| > 1 && IsToken(ps[0].name)
    ensures ReadParams(Join(ps)) == Prefixed(ps[0], ReadParams(Join(ps[1..])))
  {
    ReadMore(ps[0], Join(ps[1..]));
  }

  predicate AllTokens(ps: seq<Param>) {
    forall p | p in ps :: IsToken(p.name)
  }

  /** The reader only ever yields names that are tokens. */
  lemma {:induction false} ReadNamesAreTokens(t: string)
    ensures ReadParams(t).Some? ==> AllTokens(ReadParams(t).value)
    decreases |t|
  {
    match ReadParam(t)
    case None =>
    case Some((p, rest)) =>
      assert IsToken(p.name);
      if |rest| >= 2 {
        ReadNamesAreTokens(rest[2..]);
      }
  }

  lemma {:induction false} ReadHeader(ps: seq<Param>)
    requires ps != []
    ensures ReadChallenge(ChallengeText(ps)) == ReadParams(Join(ps))
  {
    var t := ChallengeText(ps);
    assert t[..7] == "Bearer " && t[7..] == Join(ps);
    assert t[6] == ' ';
  }

  /** A list of parameters is read back exactly, whatever the values, if and only if its names are tokens. */
  lemma {:induction false} ChallengeReadsBack(ps: seq<Param>)
    ensures ReadChallenge(ChallengeText(ps)) == Some(ps) <==> AllTokens(ps)
  {
    if ps != [] {
      ReadHeader(ps);
      ReadNamesAreTokens(Join(ps));
      if AllTokens(ps) {
        ReadJoined(ps);
      }
    }
  }

  /** The first value given for a name. */
  function Find(ps: seq<Param>, name: string): Option<string> {
    if ps == [] then None else if ps[0].name == name then Some(ps[0].value) else Find(ps[1..], name)
  }

  lemma {:induction false} FindConcat(a: seq<Param>, b: seq<Param>, name: string)
    ensures Find(a + b, name) == if Find(a, name).Some? then Find(a, name) else Find(b, name)
    decreases |a|
  {
    if a == [] {
      assert a + b == b;
    } else {
      assert (a + b)[1..] == a[1..] + b;
      FindConcat(a[1..], b, name);
    }
  }

  lemma {:induction false} FindOther(order: seq<string>, params: map<string, string>, name: string)
    requires forall k | k in order :: k in params
    ensures Find(Others(order, params), name) == if !IsOrdered(name) && name in order then Some(params[name]) else None
    decreases |order|
  {
    if order != [] {
      var last := order[|order| - 1];
      FindOther(order[..|order| - 1], params, name);
      FindConcat(Others(order[..|order| - 1], params), if IsOrdered(last) then [] else [Param(last, params[last])], name);
      assert name in order <==> name in order[..|order| - 1] || name == last;
    }
  }

  lemma {:induction false} AllTokensConcat(a: seq<Param>, b: seq<Param>)
    requires AllTokens(a) && AllTokens(b)
    ensures AllTokens(a + b)
  {
  }

  lemma {:induction false} FixedNamesAreTokens()
    ensures IsToken("realm") && IsToken("resource_metadata")
    ensures IsToken("error") && IsToken("error_description") && IsToken("scope")
  {
  }

  lemma {:induction false} TokenNames(realm: string, metadata: string, params: map<string, string>, order: seq<string>)
    requires forall k :: k in order <==> k in params
    requires forall k | k in params :: IsToken(k)
    ensures AllTokens(ParamList(realm, metadata, params, order))
  {
    FixedNamesAreTokens();
    OtherNames(order, params);
    var a, b := Optional("realm", realm), Optional("resource_metadata", metadata);
    var c, d, e := Given("error", params), Given("error_description", params), Given("scope", params);
    AllTokensConcat(a, b);
    AllTokensConcat(a + b, c);
    AllTokensConcat(a + b + c, d);
    AllTokensConcat(a + b + c + d, e);
    AllTokensConcat(a + b + c + d + e, Others(order, params));
  }

  lemma {:induction false} OtherNames(order: seq<string>, params: map<string, string>)
    requires forall k | k in order :: k in params && IsToken(k)
    ensures AllTokens(Others(order, params))
    decreases |order|
  {
    if order != [] {
      OtherNames(order[..|order| - 1], params);
      assert order[|order| - 1] in order;
    }
  }

  lemma {:induction false} FindOptional(fixedName: string, value: string, name: string)
    ensures Find(Optional(fixedName, value), name) == if value != "" && name == fixedName then Some(value) else None
  {
    assert Optional(fixedName, value)[|Optional(fixedName, value)|..] == [];
  }

  lemma {:induction false} FindGiven(given: string, params: map<string, string>, name: string)
    ensures Find(Given(given, params), name) == if given in params && name == given then Some(params[given]) else None
  {
    assert Given(given, params)[|Given(given, params)|..] == [];
  }

  lemma {:induction false} FindSix(a: seq<Param>, b: seq<Param>, c: seq<Param>, d: seq<Param>, e: seq<Param>, f: seq<Param>, name: string)
    ensures Find(a + b + c + d + e + f, name) ==
      if Find(a, name).Some? then Find(a, name)
      else if Find(b, name).Some? then Find(b, name)
      else if Find(c, name).Some? then Find(c, name)
      else if Find(d, name).Some? then Find(d, name)
      else if Find(e, name).Some? then Find(e, name)
      else Find(f, name)
  {
    FindConcat(a, b, name);
    FindConcat(a + b, c, name);
    FindConcat(a + b + c, d, name);
    FindConcat(a + b + c + d, e, name);
    FindConcat(a + b + c + d + e, f, name);
  }

  lemma {:induction false} FindInList(realm: string, metadata: string, params: map<string, string>, order: seq<string>, name: string)
    requires forall k :: k in order <==> k in params
    ensures Find(ParamList(realm, metadata, params, order), name) ==
      if name == "realm" && realm != "" then Some(realm)
      else if name == "resource_metadata" && metadata != "" then Some(metadata)
      else if name in params then Some(params[name])
      else None
  {
    FindSix(Optional("realm", realm), Optional("resource_metadata", metadata), Given("error", params),
            Given("error_description", params), Given("scope", params), Others(order, params), name);
    FindOptional("realm", realm, name);
    FindOptional("resource_metadata", metadata, name);
    FindGiven("error", params, name);
    FindGiven("error_description", params, name);
    FindGiven("scope", params, name);
    FindOther(order, params, name);
  }

  lemma {:induction false} FoundIsListed(ps: seq<Param>, name: string)
    ensures Find(ps, name).Some? ==> exists p :: p in ps && p.name == name
    decreases |ps|
  {
    if ps != [] {
      FoundIsListed(ps[1..], name);
      assert ps[0] in ps && forall p | p in ps[1..] :: p in ps;
    }
  }

  lemma {:induction false} ListedTokensMeanAllTokens(realm: string, metadata: string, params: map<string, string>, order: seq<string>)
    requires forall k :: k in order <==> k in params
    ensures AllTokens(ParamList(realm, metadata, params, order)) <==> forall k | k in params :: IsToken(k)
  {
    var list := ParamList(realm, metadata, params, order);
    if forall k | k in params :: IsToken(k) {
      TokenNames(realm, metadata, params, order);
    }
    if AllTokens(list) {
      forall k | k in params ensures IsToken(k) {
        FindInList(realm, metadata, params, order, k);
        FoundIsListed(list, k);
      }
    }
  }

  /**
   The challenge carries what it was built from, for all values and any map order: the list
   holds the realm, the metadata URL and every parameter under its name, and the reader
   recovers that list if and only if the parameter names are tokens. A parameter that reuses
   one of the two fixed names is shadowed only when that name is set.
   */
  lemma {:induction false} ChallengeCarriesParameters(realm: string, metadata: string, params: map<string, string>, order: seq<string>, name: string)
    requires forall k :: k in order <==> k in params
    ensures var list := ParamList(realm, metadata, params, order);
      && (ReadChallenge(ChallengeText(list)) == Some(list) <==> forall k | k in params :: IsToken(k))
      && Find(list, name) ==
           if name == "realm" && realm != "" then Some(realm)
           else if name == "resource_metadata" && metadata != "" then Some(metadata)
           else if name in params then Some(params[name])
           else None
  {
    ChallengeReadsBack(ParamList(realm, metadata, params, order));
    ListedTokensMeanAllTokens(realm, metadata, params, order);
    FindInList(realm, metadata, params, order, name);
  }
}
