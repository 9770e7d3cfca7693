/**
 The mapping between slash-separated file paths and resource URIs
 (`mcpservice/fs_resources.go`): percent-encoding per segment (section 2.1 of RFC 3986, in
 the variant of Go's `url.PathEscape`) one way, decoding and lexical path cleaning the other.
 Text is a sequence of bytes.
 */
module UriCodec {
  import opened Wrappers

  type Byte = c: char | c as int < 256 witness 'a'
  type Bytes = seq<Byte>

  // ----- percent-encoding of one segment -----

  predicate ShouldEscape(c: Byte) {
    !('a' <= c <= 'z' || 'A' <= c <= 'Z' || '0' <= c <= '9' || c in "-_.~$&+:=@")
  }

  function UpperHex(n: nat): Byte
    requires n < 16
  {
    if n < 10 then ('0' as int + n) as char else ('A' as int + n - 10) as char
  }

  function HexValue(c: Byte): Option<nat> {
    if '0' <= c <= '9' then Some(c as int - '0' as int)
    else if 'A' <= c <= 'F' then Some(c as int - 'A' as int + 10)
    else if 'a' <= c <= 'f' then Some(c as int - 'a' as int + 10)
    else None
  }

  function EscapeByte(c: Byte): Bytes {
    if ShouldEscape(c) then ['%', UpperHex(c as int / 16), UpperHex(c as int % 16)] else [c]
  }

  function PathEscape(s: Bytes): Bytes {
    if s == [] then [] else EscapeByte(s[0]) + PathEscape(s[1..])
  }

  /** Fails on a percent sign that is not followed by two hexadecimal digits. */
  function PathUnescape(s: Bytes): Option<Bytes>
    decreases |s|
  {
    if s == [] then Some([])
    else if s[0] != '%' then
      match PathUnescape(s[1..])
      case None => None
      case Some(r) => Some([s[0]] + r)
    else if |s| < 3 || HexValue(s[1]).None? || HexValue(s[2]).None? then None
    else
      match PathUnescape(s[3..])
      case None => None
      case Some(r) => Some([(HexValue(s[1]).value * 16 + HexValue(s[2]).value) as char] + r)
  }

  lemma {:induction false} UnescapeByte(c: Byte, rest: Bytes)
    requires PathUnescape(rest).Some?
    ensures PathUnescape(EscapeByte(c) + rest) == Some([c] + PathUnescape(rest).value)
  {
    var t := EscapeByte(c) + rest;
    if ShouldEscape(c) {
      assert t[3..] == rest;
      assert HexValue(UpperHex(c as int / 16)) == Some(c as int / 16);
      assert HexValue(UpperHex(c as int % 16)) == Some(c as int % 16);
    } else {
      assert t[1..] == rest;
    }
  }

  /** Decoding undoes encoding, for every sequence of bytes. */
  lemma {:induction false} UnescapeEscape(s: Bytes)
    ensures PathUnescape(PathEscape(s)) == Some(s)
  {
    if s != [] {
      UnescapeEscape(s[1..]);
      UnescapeByte(s[0], PathEscape(s[1..]));
      assert s == [s[0]] + s[1..];
    }
  }

  /** Bytes a path segment may show as they are. */
  predicate Plain(c: Byte) {
    'a' <= c <= 'z' || 'A' <= c <= 'Z' || '0' <= c <= '9' || c in "-_.~$&+:=@"
  }

  /** Escaping keeps plain bytes and writes every other as a percent sign and two capital hexadecimal digits. */
  lemma {:induction false} EscapeByteForm(c: Byte)
    ensures Plain(c) ==> EscapeByte(c) == [c]
    ensures !Plain(c) ==>
      && |EscapeByte(c)| == 3 && EscapeByte(c)[0] == '%'
      && EscapeByte(c)[1] in "0123456789ABCDEF" && EscapeByte(c)[2] in "0123456789ABCDEF"
  {
    if !Plain(c) {
      HexIsCapital(c as int / 16);
      HexIsCapital(c as int % 16);
    }
  }

  lemma {:induction false} HexIsCapital(n: nat)
    requires n < 16
    ensures UpperHex(n) in "0123456789ABCDEF"
  {
    assert "0123456789ABCDEF"[n] == UpperHex(n);
  }

  lemma {:induction false} EscapedBytes(s: Bytes)
    ensures forall i | 0 <= i < |PathEscape(s)| :: Plain(PathEscape(s)[i]) || PathEscape(s)[i] == '%'
  {
    if s != [] {
      EscapedBytes(s[1..]);
      EscapeByteForm(s[0]);
    }
  }

  predicate NoSlash(s: Bytes) {
    forall i | 0 <= i < |s| :: s[i] != '/'
  }

  lemma {:induction false} EscapedHasNoSlash(s: Bytes)
    ensures NoSlash(PathEscape(s))
  {
    if s != [] {
      EscapedHasNoSlash(s[1..]);
    }
  }

  // ----- splitting and joining -----

  function Split(s: Bytes): (r: seq<Bytes>)
    ensures |r| > 0
  {
    if s == [] then [[]]
    else
      var r := Split(s[1..]);
      if s[0] == '/' then [[]] + r else [[s[0]] + r[0]] + r[1..]
  }

  function Join(segs: seq<Bytes>): Bytes {
    if segs == [] then [] else if |segs| == 1 then segs[0] else segs[0] + ['/'] + Join(segs[1..])
  }

  predicate AllNoSlash(segs: seq<Bytes>) {
    forall i | 0 <= i < |segs| :: NoSlash(segs[i])
  }

  lemma {:induction false} SplitPieces(s: Bytes)
    ensures AllNoSlash(Split(s))
    ensures Join(Split(s)) == s
  {
    if s != [] {
      SplitPieces(s[1..]);
      var r := Split(s[1..]);
      if s[0] == '/' {
        assert ([[]] + r)[1..] == r;
      } else {
        var q := [[s[0]] + r[0]] + r[1..];
        assert q[1..] == r[1..];
        assert forall i | 1 <= i < |q| :: q[i] == r[i];
        assert q[0] == [s[0]] + r[0];
      }
    }
  }

  lemma {:induction false} SplitSegment(seg: Bytes)
    requires NoSlash(seg)
    ensures Split(seg) == [seg]
  {
    if seg != [] {
      SplitSegment(seg[1..]);
      assert seg == [seg[0]] + seg[1..];
    }
  }

  lemma {:induction false} SplitFirst(seg: Bytes, rest: Bytes)
    requires NoSlash(seg)
    ensures Split(seg + ['/'] + rest) == [seg] + Split(rest)
  {
    var t := seg + ['/'] + rest;
    if seg == [] {
      assert t[1..] == rest;
    } else {
      assert t[1..] == seg[1..] + ['/'] + rest;
      SplitFirst(seg[1..], rest);
      assert ([seg[1..]] + Split(rest))[1..] == Split(rest);
      assert seg == [seg[0]] + seg[1..];
    }
  }

  /** Splitting a joined path gives the segments back. */
  lemma {:induction false} SplitJoin(segs: seq<Bytes>)
    requires segs != [] && AllNoSlash(segs)
    ensures Split(Join(segs)) == segs
  {
    if |segs| == 1 {
      SplitSegment(segs[0]);
      assert segs == [segs[0]];
    } else {
      SplitJoin(segs[1..]);
      SplitFirst(segs[0], Join(segs[1..]));
      assert segs == [segs[0]] + segs[1..];
    }
  }

  // ----- lexical cleaning, as path.Clean -----

  const DOT: Bytes := ['.']
  const DOTDOT: Bytes := ['.', '.']

  /** One path element against the elements kept so far. */
  function CleanStep(rooted: bool, out: seq<Bytes>, seg: Bytes): seq<Bytes> {
    if seg == [] || seg == DOT then out
    else if seg != DOTDOT then out + [seg]
    else if out != [] && out[|out| - 1] != DOTDOT then out[..|out| - 1]
    else if rooted then out
    else out + [seg]
  }

  function CleanSegs(rooted: bool, out: seq<Bytes>, segs: seq<Bytes>): seq<Bytes>
    decreases |segs|
  {
    if segs == [] then out else CleanSegs(rooted, CleanStep(rooted, out, segs[0]), segs[1..])
  }

  predicate Rooted(s: Bytes) {
    s != [] && s[0] == '/'
  }

  function Render(rooted: bool, out: seq<Bytes>): Bytes {
    if rooted then ['/'] + Join(out) else if out == [] then DOT else Join(out)
  }

  function Clean(s: Bytes): Bytes {
    Render(Rooted(s), CleanSegs(Rooted(s), [], Split(s)))
  }

  /** Elements that cleaning leaves alone. */
  predicate Normal(rooted: bool, out: seq<Bytes>) {
    && (forall i | 0 <= i < |out| :: out[i] != [] && out[i] != DOT && NoSlash(out[i]))
    && (rooted ==> forall i | 0 <= i < |out| :: out[i] != DOTDOT)
    && (forall i, j | 0 <= i < j < |out| && out[j] == DOTDOT :: out[i] == DOTDOT)
  }

  lemma {:induction false} CleanStepNormal(rooted: bool, out: seq<Bytes>, seg: Bytes)
    requires Normal(rooted, out) && NoSlash(seg)
    ensures Normal(rooted, CleanStep(rooted, out, seg))
  {
    if seg == DOTDOT && out != [] && out[|out| - 1] == DOTDOT {
      assert forall i | 0 <= i < |out| :: out[i] == DOTDOT;
    }
  }

  lemma {:induction false} CleanSegsNormal(rooted: bool, out: seq<Bytes>, segs: seq<Bytes>)
    requires Normal(rooted, out) && AllNoSlash(segs)
    ensures Normal(rooted, CleanSegs(rooted, out, segs))
    decreases |segs|
  {
    if segs != [] {
      CleanStepNormal(rooted, out, segs[0]);
      CleanSegsNormal(rooted, CleanStep(rooted, out, segs[0]), segs[1..]);
    }
  }

  lemma {:induction false} NormalPrefix(rooted: bool, out: seq<Bytes>, seg: Bytes, rest: seq<Bytes>)
    requires Normal(rooted, out + [seg] + rest)
    ensures CleanStep(rooted, out, seg) == out + [seg]
  {
    var all := out + [seg] + rest;
    assert all[|out|] == seg;
    if out != [] {
      assert all[|out| - 1] == out[|out| - 1];
    }
  }

  lemma {:induction false} CleanSegsFixed(rooted: bool, out: seq<Bytes>, segs: seq<Bytes>)
    requires Normal(rooted, out + segs)
    ensures CleanSegs(rooted, out, segs) == out + segs
    decreases |segs|
  {
    if segs == [] {
      assert out + segs == out;
    } else {
      assert out + segs == out + [segs[0]] + segs[1..];
      NormalPrefix(rooted, out, segs[0], segs[1..]);
      CleanSegsFixed(rooted, out + [segs[0]], segs[1..]);
    }
  }

  lemma {:induction false} JoinStart(segs: seq<Bytes>)
    requires segs != [] && segs[0] != [] && NoSlash(segs[0])
    ensures Join(segs) != [] && Join(segs)[0] == segs[0][0] && !Rooted(Join(segs))
  {
  }

  /** A path rendered from normal elements is a fixed point of cleaning. */
  lemma {:induction false} CleanRender(rooted: bool, out: seq<Bytes>)
    requires Normal(rooted, out)
    ensures Clean(Render(rooted, out)) == Render(rooted, out)
  {
    var r := Render(rooted, out);
    assert AllNoSlash(out);
    if rooted {
      SplitFirst([], Join(out));
      assert r == [] + ['/'] + Join(out);
      if out == [] {
        assert Split(r) == [[], []];
        assert CleanSegs(true, [], [[], []]) == CleanSegs(true, [], [[], []][1..]) == CleanSegs(true, [], []);
      } else {
        SplitJoin(out);
        assert ([[]] + out)[1..] == out;
        CleanSegsFixed(true, [], out);
        assert [] + out == out;
      }
    } else if out == [] {
      SplitSegment(DOT);
      assert CleanSegs(false, [], [DOT]) == CleanSegs(false, [], [DOT][1..]);
    } else {
      JoinStart(out);
      SplitJoin(out);
      CleanSegsFixed(false, [], out);
      assert [] + out == out;
    }
  }

  /** Cleaning twice is cleaning once. */
  lemma {:induction false} CleanIdempotent(s: Bytes)
    ensures Clean(Clean(s)) == Clean(s)
  {
    SplitPieces(s);
    CleanSegsNormal(Rooted(s), [], Split(s));
    CleanRender(Rooted(s), CleanSegs(Rooted(s), [], Split(s)));
  }

  // ----- the two conversions -----

  function EscapeAll(segs: seq<Bytes>): (r: seq<Bytes>)
    ensures |r| == |segs| && forall i | 0 <= i < |segs| :: r[i] == PathEscape(segs[i])
  {
    seq(|segs|, i requires 0 <= i < |segs| => PathEscape(segs[i]))
  }

  function RelToUri(base: Bytes, rel: Bytes): Bytes {
    base + ['/'] + Join(EscapeAll(Split(rel)))
  }

  function TrimSlashes(s: Bytes): Bytes {
    if s != [] && s[|s| - 1] == '/' then TrimSlashes(s[..|s| - 1]) else s
  }

  predicate HasPrefix(s: Bytes, p: Bytes) {
    |p| <= |s| && s[..|p|] == p
  }

  function UnescapeAll(segs: seq<Bytes>): Option<seq<Bytes>> {
    if segs == [] then Some([])
    else
      match (PathUnescape(segs[0]), UnescapeAll(segs[1..]))
      case (Some(a), Some(b)) => Some([a] + b)
      case _ => None
  }

  predicate Rejected(rel: Bytes) {
    rel == DOT || HasPrefix(rel, ['.', '.', '/'])
  }

  function UriToRel(base: Bytes, uri: Bytes): Option<Bytes> {
    var prefix := TrimSlashes(base) + ['/'];
    if !HasPrefix(uri, prefix) then None
    else
      match UnescapeAll(Split(uri[|prefix|..]))
      case None => None
      case Some(segs) =>
        var rel := Clean(Join(segs));
        if Rejected(rel) then None else Some(rel)
  }

  method RelToUriLoop(base: Bytes, rel: Bytes) returns (uri: Bytes)
    ensures uri == RelToUri(base, rel)
  {
    var segs := Split(rel);
    for i := 0 to |segs|
      invariant |segs| == |Split(rel)|
      invariant forall k | 0 <= k < i :: segs[k] == PathEscape(Split(rel)[k])
      invariant forall k | i <= k < |segs| :: segs[k] == Split(rel)[k]
    {
      segs := segs[i := PathEscape(segs[i])];
    }
    assert segs == EscapeAll(Split(rel));
    uri := base + ['/'] + Join(segs);
  }

  lemma {:induction false} UnescapeAllAt(segs: seq<Bytes>, i: nat)
    requires i < |segs|
    ensures PathUnescape(segs[i]).None? ==> UnescapeAll(segs).None?
    ensures UnescapeAll(segs).Some? ==>
      |UnescapeAll(segs).value| == |segs| && PathUnescape(segs[i]) == Some(UnescapeAll(segs).value[i])
    decreases |segs|
  {
    if i > 0 {
      UnescapeAllAt(segs[1..], i - 1);
    } else if |segs| > 1 {
      UnescapeAllAt(segs[1..], 0);
    }
  }

  lemma {:induction false} UnescapeAllDone(segs: seq<Bytes>, done: seq<Bytes>)
    requires |done| == |segs| && forall i | 0 <= i < |segs| :: PathUnescape(segs[i]) == Some(done[i])
    ensures UnescapeAll(segs) == Some(done)
    decreases |segs|
  {
    if segs != [] {
      UnescapeAllDone(segs[1..], done[1..]);
      assert done == [done[0]] + done[1..];
    } else {
      assert done == [];
    }
  }

  method UriToRelLoop(base: Bytes, uri: Bytes) returns (r: Option<Bytes>)
    ensures r == UriToRel(base, uri)
  {
    var prefix := TrimSlashes(base) + ['/'];
    if !HasPrefix(uri, prefix) {
      return None;
    }
    var split := Split(uri[|prefix|..]);
    var segs := split;
    for i := 0 to |segs|
      invariant |segs| == |split|
      invariant forall k | 0 <= k < i :: PathUnescape(split[k]) == Some(segs[k])
      invariant forall k | i <= k < |segs| :: segs[k] == split[k]
    {
      var dec := PathUnescape(segs[i]);
      if dec.None? {
        UnescapeAllAt(split, i);
        return None;
      }
      segs := segs[i := dec.value];
    }
    UnescapeAllDone(split, segs);
    var rel := Clean(Join(segs));
    if Rejected(rel) {
      return None;
    }
    r := Some(rel);
  }

  // ----- round trips -----

  lemma {:induction false} TrimNothing(base: Bytes)
    requires base == [] || base[|base| - 1] != '/'
    ensures TrimSlashes(base) == base
  {
  }

  lemma {:induction false} TrimPrefix(base: Bytes)
    ensures |TrimSlashes(base)| <= |base| && base[..|TrimSlashes(base)|] == TrimSlashes(base)
    ensures forall i | |TrimSlashes(base)| <= i < |base| :: base[i] == '/'
    decreases |base|
  {
    if base != [] && base[|base| - 1] == '/' {
      TrimPrefix(base[..|base| - 1]);
    }
  }

  /** Decoding what encoding a path produced gives the path back, before cleaning. */
  lemma {:induction false} DecodeEncoded(rel: Bytes)
    ensures UnescapeAll(Split(Join(EscapeAll(Split(rel))))) == Some(Split(rel))
  {
    var segs := Split(rel);
    var enc := EscapeAll(segs);
    forall i | 0 <= i < |enc| ensures NoSlash(enc[i]) && PathUnescape(enc[i]) == Some(segs[i]) {
      EscapedHasNoSlash(segs[i]);
      UnescapeEscape(segs[i]);
    }
    SplitJoin(enc);
    UnescapeAllDone(enc, segs);
  }

  /** On a base without trailing slash, converting there and back is just cleaning. */
  lemma {:induction false} ThereAndBack(base: Bytes, rel: Bytes)
    requires base == [] || base[|base| - 1] != '/'
    ensures UriToRel(base, RelToUri(base, rel)) == if Rejected(Clean(rel)) then None else Some(Clean(rel))
  {
    TrimNothing(base);
    var prefix := base + ['/'];
    var uri := RelToUri(base, rel);
    assert uri[..|prefix|] == prefix;
    assert uri[|prefix|..] == Join(EscapeAll(Split(rel)));
    DecodeEncoded(rel);
    SplitPieces(rel);
  }

  /** Non-empty elements, none of them dots; hence no leading, trailing or double slash. */
  predicate ValidElements(segs: seq<Bytes>) {
    forall i | 0 <= i < |segs| :: segs[i] != [] && segs[i] != DOT && segs[i] != DOTDOT
  }

  /** `fs.ValidPath` on bytes, and no colon. */
  predicate ValidFSPath(p: Bytes) {
    (forall i | 0 <= i < |p| :: p[i] != ':') && (p == DOT || ValidElements(Split(p)))
  }

  lemma {:induction false} ParentFirst(p: Bytes)
    ensures HasPrefix(p, ['.', '.', '/']) ==> Split(p)[0] == DOTDOT
  {
    if HasPrefix(p, ['.', '.', '/']) {
      assert p == DOTDOT + ['/'] + p[3..];
      SplitFirst(DOTDOT, p[3..]);
    }
  }

  lemma {:induction false} ValidIsClean(p: Bytes)
    requires ValidFSPath(p) && p != DOT
    ensures Clean(p) == p && !Rejected(p) && !Rooted(p)
  {
    var segs := Split(p);
    SplitPieces(p);
    JoinStart(segs);
    CleanSegsFixed(false, [], segs);
    assert [] + segs == segs;
    ParentFirst(p);
  }

  lemma {:induction false} SplitStart(s: Bytes)
    requires Rooted(s)
    ensures Split(s)[0] == []
  {
  }

  /** One more leading slash changes nothing about a rooted path. */
  lemma {:induction false} CleanExtraSlash(p: Bytes)
    requires Rooted(p)
    ensures Clean(['/'] + p) == Clean(p)
  {
    SplitFirst([], p);
    assert [] + ['/'] + p == ['/'] + p;
    CleanSkipsEmpty(Split(p));
  }

  lemma {:induction false} CleanSkipsEmpty(segs: seq<Bytes>)
    ensures CleanSegs(true, [], [[]] + segs) == CleanSegs(true, [], segs)
  {
    assert ([[]] + segs)[1..] == segs;
  }

  predicate AllSlashes(s: Bytes) {
    forall i | 0 <= i < |s| :: s[i] == '/'
  }

  lemma {:induction false} CleanSlashed(slashes: Bytes, rel: Bytes)
    requires AllSlashes(slashes) && slashes != []
    ensures Clean(slashes + rel) == Clean(['/'] + rel)
    decreases |slashes|
  {
    if |slashes| == 1 {
      assert slashes == ['/'];
    } else {
      CleanSlashed(slashes[1..], rel);
      assert slashes + rel == ['/'] + (slashes[1..] + rel);
      CleanExtraSlash(slashes[1..] + rel);
    }
  }

  lemma {:induction false} FirstSlash(slashes: Bytes, rest: Bytes)
    requires AllSlashes(slashes) && slashes != []
    ensures slashes + rest == ['/'] + (slashes[1..] + rest)
  {
  }

  lemma {:induction false} DecodeAfterSlash(tail: Bytes)
    requires UnescapeAll(Split(tail)).Some? && UnescapeAll(Split(tail)).value != []
    ensures var segs := UnescapeAll(Split(['/'] + tail));
      segs.Some? && segs.value != [] && Join(segs.value) == ['/'] + Join(UnescapeAll(Split(tail)).value)
  {
    SplitFirst([], tail);
    assert [] + ['/'] + tail == ['/'] + tail;
    var inner := UnescapeAll(Split(tail)).value;
    assert ([[]] + Split(tail))[1..] == Split(tail);
    assert UnescapeAll([[]] + Split(tail)) == Some([[]] + inner);
    assert ([[]] + inner)[1..] == inner;
  }

  /** Decoding an encoded path with slashes before it gives the slashes and the path. */
  lemma {:induction false} DecodeSlashed(slashes: Bytes, rel: Bytes)
    requires AllSlashes(slashes)
    ensures var segs := UnescapeAll(Split(slashes + Join(EscapeAll(Split(rel)))));
      segs.Some? && segs.value != [] && Join(segs.value) == slashes + rel
    decreases |slashes|
  {
    var enc := Join(EscapeAll(Split(rel)));
    if slashes == [] {
      DecodeEncoded(rel);
      SplitPieces(rel);
      assert slashes + enc == enc && slashes + rel == rel;
    } else {
      DecodeSlashed(slashes[1..], rel);
      FirstSlash(slashes, enc);
      FirstSlash(slashes, rel);
      DecodeAfterSlash(slashes[1..] + enc);
    }
  }

  /** What of a base, and the slash after it, is left behind the trimmed prefix. */
  lemma {:induction false} SlashesLeft(base: Bytes) returns (slashes: Bytes)
    requires base != [] && base[|base| - 1] == '/'
    ensures AllSlashes(slashes) && slashes != [] && base + ['/'] == (TrimSlashes(base) + ['/']) + slashes
  {
    TrimPrefix(base);
    TrimShortens(base);
    var n := |TrimSlashes(base)|;
    slashes := base[n..];
    var rest := base[n + 1..] + ['/'];
    assert |rest| == |slashes| && forall i | 0 <= i < |slashes| :: slashes[i] == '/' == rest[i];
    assert base + ['/'] == base[..n] + [base[n]] + rest;
  }

  lemma {:induction false} CleanFromRoot(p: Bytes)
    requires Rooted(p)
    ensures Rooted(Clean(p)) && !Rejected(Clean(p))
  {
    assert Clean(p)[0] == '/';
  }

  lemma {:induction false} StripPrefix(prefix: Bytes, rest: Bytes)
    ensures HasPrefix(prefix + rest, prefix) && (prefix + rest)[|prefix|..] == rest
  {
  }

  /** On a base with a trailing slash, converting there and back is cleaning from the root. */
  lemma {:induction false} ThereAndBackFromRoot(base: Bytes, rel: Bytes)
    requires base != [] && base[|base| - 1] == '/'
    ensures UriToRel(base, RelToUri(base, rel)) == Some(Clean(['/'] + rel))
    ensures Rooted(Clean(['/'] + rel))
  {
    var slashes := SlashesLeft(base);
    var prefix := TrimSlashes(base) + ['/'];
    var enc := Join(EscapeAll(Split(rel)));
    assert RelToUri(base, rel) == prefix + (slashes + enc);
    StripPrefix(prefix, slashes + enc);
    DecodeSlashed(slashes, rel);
    CleanSlashed(slashes, rel);
    CleanFromRoot(['/'] + rel);
  }

  lemma {:induction false} TrimShortens(base: Bytes)
    requires base != [] && base[|base| - 1] == '/'
    ensures |TrimSlashes(base)| < |base|
  {
    TrimPrefix(base[..|base| - 1]);
  }

  /**
   Round trip. A valid path other than the root comes back unchanged exactly when the base
   URI has no trailing slash.
   */
  lemma {:induction false} PathRoundTrip(base: Bytes, p: Bytes)
    requires ValidFSPath(p) && p != DOT
    ensures UriToRel(base, RelToUri(base, p)) == Some(p) <==> (base == [] || base[|base| - 1] != '/')
  {
    ValidIsClean(p);
    if base == [] || base[|base| - 1] != '/' {
      ThereAndBack(base, p);
    } else {
      ThereAndBackFromRoot(base, p);
    }
  }

  /** The default base `fs://` of an unconfigured provider is one that does not round-trip. */
  lemma {:induction false} DefaultBaseDoesNotRoundTrip(p: Bytes)
    requires ValidFSPath(p) && p != DOT
    ensures UriToRel("fs://", RelToUri("fs://", p)) != Some(p)
  {
    PathRoundTrip("fs://", p);
  }

  /**
   Normalisation. The path a URI is accepted as is a fixed point of the round trip exactly
   when the base has no trailing slash or the path is rooted.
   */
  lemma {:induction false} AcceptedUriIsNormalised(base: Bytes, uri: Bytes)
    requires UriToRel(base, uri).Some?
    ensures var r := UriToRel(base, uri).value;
      UriToRel(base, RelToUri(base, r)) == Some(r) <==> base == [] || base[|base| - 1] != '/' || Rooted(r)
  {
    var prefix := TrimSlashes(base) + ['/'];
    var segs := UnescapeAll(Split(uri[|prefix|..])).value;
    CleanIdempotent(Join(segs));
    var r := UriToRel(base, uri).value;
    if base == [] || base[|base| - 1] != '/' {
      ThereAndBack(base, r);
    } else {
      ThereAndBackFromRoot(base, r);
      if Rooted(r) {
        CleanExtraSlash(r);
      }
    }
  }

  lemma {:induction false} JoinParent(out: seq<Bytes>)
    ensures |out| > 1 && out[0] == DOTDOT ==> HasPrefix(Join(out), ['.', '.', '/'])
    ensures |out| == 1 ==> Join(out) == out[0]
  {
    if |out| > 1 && out[0] == DOTDOT {
      assert Join(out)[..3] == ['.', '.', '/'];
    }
  }

  /**
   What acceptance leaves to the later checks: an accepted path is a valid file-system path
   exactly when it is neither rooted nor the parent directory itself.
   */
  lemma {:induction false} AcceptedPathIsValid(base: Bytes, uri: Bytes)
    requires UriToRel(base, uri).Some?
    ensures var r := UriToRel(base, uri).value; ValidElements(Split(r)) <==> !Rooted(r) && r != DOTDOT
  {
    var prefix := TrimSlashes(base) + ['/'];
    var path := Join(UnescapeAll(Split(uri[|prefix|..])).value);
    var out := CleanSegs(Rooted(path), [], Split(path));
    SplitPieces(path);
    CleanSegsNormal(Rooted(path), [], Split(path));
    var r := Clean(path);
    if Rooted(path) {
      SplitStart(r);
    } else {
      SplitJoin(out);
      JoinStart(out);
      JoinParent(out);
    }
  }

  /** Under every base a URI for the parent directory is accepted as "..". */
  lemma {:induction false} ParentIsAccepted(base: Bytes)
    ensures UriToRel(base, TrimSlashes(base) + ['/'] + DOTDOT) == Some(DOTDOT)
  {
    StripPrefix(TrimSlashes(base) + ['/'], DOTDOT);
    SplitSegment(DOTDOT);
    ParentUnescapes();
    ParentIsClean();
  }

  lemma {:induction false} ParentUnescapes()
    ensures UnescapeAll([DOTDOT]) == Some([DOTDOT])
  {
    UnescapeEscape(DOTDOT);
    assert EscapeByte('.') == ['.'] && DOTDOT[1..] == ['.'] && ['.'][1..] == [];
    assert PathEscape(['.']) == ['.'] + PathEscape([]);
    assert PathEscape(DOTDOT) == ['.'] + PathEscape(['.']);
    UnescapeAllDone([DOTDOT], [DOTDOT]);
  }

  lemma {:induction false} ParentIsClean()
    ensures Clean(Join([DOTDOT])) == DOTDOT && !Rejected(DOTDOT)
  {
    SplitSegment(DOTDOT);
    assert CleanSegs(false, [], [DOTDOT]) == CleanSegs(false, [DOTDOT], [DOTDOT][1..]);
  }
}
