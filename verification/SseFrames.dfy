/**
 Server-sent event frames as `lockedSSEWriter.WriteMessageID` writes them
 (`streaminghttp/handler.go`), against the event stream interpretation of section 9.2.6 of the
 WHATWG HTML Standard: whatever sequence of messages is written, the client sees it.
 */
module SseFrames {

  datatype Frame = Frame(id: string, data: string)

  // ----- writing -----

  function FrameText(f: Frame): string {
    (if f.id != "" then "id: " + f.id + "\n" else "") + "data: " + f.data + "\n" + "\n"
  }

  function StreamText(frames: seq<Frame>): string {
    if frames == [] then "" else FrameText(frames[0]) + StreamText(frames[1..])
  }

  /** The response body, written under a lock; nothing is written once the context ended. */
  class Writer {
    var body: string
    var ended: bool

    constructor ()
      ensures body == "" && !ended
    {
      body, ended := "", false;
    }

    method WriteMessageID(id: string, data: string) returns (ok: bool)
      modifies this`body
      ensures ok == !ended
      ensures body == if ok then old(body) + FrameText(Frame(id, data)) else old(body)
    {
      if ended {
        return false;
      }
      ghost var start := body;
      if id != "" {
        body := body + ("id: " + id + "\n");
      }
      ghost var head := if id != "" then "id: " + id + "\n" else "";
      assert body == start + head;
      body := body + "data: ";
      body := body + data;
      body := body + ("\n" + "\n");
      assert body == start + (head + "data: " + data + "\n" + "\n");
      ok := true;
    }
  }

  // ----- reading -----

  predicate IsBreak(c: char) {
    c == '\n' || c == '\r'
  }

  /** The complete lines of a stream; LF, CR and CRLF end a line, a partial one is dropped. */
  function Lines(t: string): seq<string>
    decreases |t|
  {
    var n := LineLength(t);
    if n == |t| then [] else [t[..n]] + Lines(AfterLine(t))
  }

  /** The text behind the first line and its end. */
  function AfterLine(t: string): (r: string)
    requires LineLength(t) < |t|
    ensures |r| < |t|
  {
    var n := LineLength(t);
    if t[n] == '\r' && n + 1 < |t| && t[n + 1] == '\n' then t[n + 2..] else t[n + 1..]
  }

  function LineLength(t: string): (n: nat)
    ensures n <= |t|
    ensures n < |t| ==> IsBreak(t[n])
    ensures forall i | 0 <= i < n :: !IsBreak(t[i])
  {
    if t == "" || IsBreak(t[0]) then 0 else 1 + LineLength(t[1..])
  }

  function ColonAt(line: string): (n: nat)
    ensures n <= |line|
    ensures n < |line| ==> line[n] == ':'
    ensures forall i | 0 <= i < n :: line[i] != ':'
  {
    if line == "" || line[0] == ':' then 0 else 1 + ColonAt(line[1..])
  }

  /** Field name and value; one space after the colon is dropped. */
  function Field(line: string): (string, string) {
    var n := ColonAt(line);
    if n == |line| then (line, "")
    else if n + 1 < |line| && line[n + 1] == ' ' then (line[..n], line[n + 2..])
    else (line[..n], line[n + 1..])
  }

  /** The events dispatched from the lines, given the data and last-event-id buffers. */
  function Dispatch(lines: seq<string>, data: string, lastId: string): seq<Frame>
    decreases |lines|
  {
    if lines == [] then []
    else
      var line := lines[0];
      if line == "" then
        if data == "" then Dispatch(lines[1..], "", lastId)
        else [Frame(lastId, data[..|data| - 1])] + Dispatch(lines[1..], "", lastId)
      else
        var (name, value) := Field(line);
        if name == "data" then Dispatch(lines[1..], data + value + "\n", lastId)
        else if name == "id" && '\0' !in value then Dispatch(lines[1..], data, value)
        else Dispatch(lines[1..], data, lastId)
  }

  function ReadStream(t: string): seq<Frame> {
    Dispatch(Lines(t), "", "")
  }

  // ----- what is written is what is read -----

  predicate OneLine(s: string) {
    forall i | 0 <= i < |s| :: !IsBreak(s[i])
  }

  /** Ids and payloads are single lines; ids contain no NUL. Payloads may be empty. */
  predicate Writable(f: Frame) {
    OneLine(f.id) && OneLine(f.data) && '\0' !in f.id
  }

  /** The id a client associates with each message: its own, or the latest one before. */
  function Expected(frames: seq<Frame>, lastId: string): seq<Frame> {
    if frames == [] then []
    else
      var id := if frames[0].id != "" then frames[0].id else lastId;
      [Frame(id, frames[0].data)] + Expected(frames[1..], id)
  }

  lemma {:induction false} LineLengthIs(line: string, rest: string)
    requires OneLine(line)
    ensures LineLength(line + "\n" + rest) == |line|
  {
    var t := line + "\n" + rest;
    var n := LineLength(t);
    assert t[|line|] == '\n';
    assert forall i | 0 <= i < |line| :: t[i] == line[i];
  }

  lemma {:induction false} FirstLine(line: string, rest: string)
    requires OneLine(line)
    ensures Lines(line + "\n" + rest) == [line] + Lines(rest)
  {
    LineLengthIs(line, rest);
    var t := line + "\n" + rest;
    assert t[..|line|] == line && t[|line| + 1..] == rest;
  }

  lemma {:induction false} FieldOf(name: string, value: string)
    requires forall i | 0 <= i < |name| :: name[i] != ':'
    ensures Field(name + ": " + value) == (name, value)
  {
    var line := name + ": " + value;
    assert line[|name|] == ':' && line[|name| + 1] == ' ';
    assert forall i | 0 <= i < |name| :: line[i] == name[i];
    assert ColonAt(line) == |name|;
    assert line[..|name|] == name && line[|name| + 2..] == value;
  }

  lemma {:induction false} OneLineConcat(a: string, b: string)
    requires OneLine(a) && OneLine(b)
    ensures OneLine(a + b)
  {
  }

  lemma {:induction false} Regroup(line: string, brk: string, rest: string)
    ensures line + brk + brk + rest == line + brk + (brk + rest)
  {
  }

  lemma {:induction false} EmptyLine(rest: string)
    ensures Lines("\n" + rest) == [""] + Lines(rest)
  {
    FirstLine("", rest);
    assert "" + "\n" + rest == "\n" + rest;
  }

  lemma {:induction false} LastLines(line: string, rest: string)
    requires OneLine(line)
    ensures Lines(line + "\n" + "\n" + rest) == [line, ""] + Lines(rest)
  {
    Regroup(line, "\n", rest);
    FirstLine(line, "\n" + rest);
    EmptyLine(rest);
    TwoAndMore(line, "", Lines(rest));
  }

  lemma {:induction false} TwoAndMore(a: string, b: string, more: seq<string>)
    ensures [a] + ([b] + more) == [a, b] + more
  {
  }

  lemma {:induction false} DispatchData(data: string, tail: seq<string>, lastId: string)
    ensures Dispatch(["data: " + data, ""] + tail, "", lastId) == [Frame(lastId, data)] + Dispatch(tail, "", lastId)
  {
    var lines := ["data: " + data, ""] + tail;
    FieldOf("data", data);
    assert "data: " + data == "data" + ": " + data;
    var after := lines[1..];
    assert after[0] == "" && after[1..] == tail;
    var buffer := "" + data + "\n";
    assert Dispatch(lines, "", lastId) == Dispatch(after, buffer, lastId);
    assert buffer[..|buffer| - 1] == data;
  }

  lemma {:induction false} DispatchId(id: string, tail: seq<string>, lastId: string)
    requires '\0' !in id
    ensures Dispatch(["id: " + id] + tail, "", lastId) == Dispatch(tail, "", id)
  {
    FieldOf("id", id);
    assert "id: " + id == "id" + ": " + id;
    assert (["id: " + id] + tail)[1..] == tail;
  }

  lemma {:induction false} PrependAll(head: string, name: string, data: string, brk: string, rest: string)
    ensures head + name + data + brk + brk + rest == head + (name + data + brk + brk + rest)
  {
    assert name + data + brk + brk + rest == name + (data + (brk + (brk + rest)));
    assert head + name + data + brk + brk + rest == head + (name + (data + (brk + (brk + rest))));
  }

  /** The frame's text with what follows it: an optional id line, a data line, an empty line. */
  lemma {:induction false} FrameShape(f: Frame, rest: string)
    ensures var tail := "data: " + f.data + "\n" + "\n" + rest;
      FrameText(f) + rest == if f.id != "" then "id: " + f.id + "\n" + tail else tail
  {
    var head := if f.id != "" then "id: " + f.id + "\n" else "";
    PrependAll(head, "data: ", f.data, "\n", rest);
  }

  lemma {:induction false} ReadFrame(f: Frame, rest: string, lastId: string)
    requires Writable(f)
    ensures var id := if f.id != "" then f.id else lastId;
      Dispatch(Lines(FrameText(f) + rest), "", lastId) == [Frame(id, f.data)] + Dispatch(Lines(rest), "", id)
  {
    FrameShape(f, rest);
    var tail := "data: " + f.data + "\n" + "\n" + rest;
    OneLineConcat("data: ", f.data);
    LastLines("data: " + f.data, rest);
    if f.id != "" {
      ReadIdLine(f.id, tail, lastId);
      DispatchData(f.data, Lines(rest), f.id);
    } else {
      DispatchData(f.data, Lines(rest), lastId);
    }
  }

  lemma {:induction false} ReadIdLine(id: string, tail: string, lastId: string)
    requires OneLine(id) && '\0' !in id
    ensures Dispatch(Lines("id: " + id + "\n" + tail), "", lastId) == Dispatch(Lines(tail), "", id)
  {
    OneLineConcat("id: ", id);
    FirstLine("id: " + id, tail);
    DispatchId(id, Lines(tail), lastId);
  }

  // ----- what a line break does -----

  predicate GoodId(s: string) {
    OneLine(s) && '\0' !in s
  }

  lemma {:induction false} LinesAreSingle(t: string)
    ensures forall i | 0 <= i < |Lines(t)| :: OneLine(Lines(t)[i])
    decreases |t|
  {
    if LineLength(t) < |t| {
      LinesAreSingle(AfterLine(t));
    }
  }

  /** A client never sees an event id with a line break or a NUL. */
  lemma {:induction false} IdsAreGood(lines: seq<string>, data: string, lastId: string)
    requires GoodId(lastId) && forall i | 0 <= i < |lines| :: OneLine(lines[i])
    ensures forall f | f in Dispatch(lines, data, lastId) :: GoodId(f.id)
    decreases |lines|
  {
    if lines != [] {
      var line := lines[0];
      var (name, value) := Field(line);
      assert OneLine(value);
      if line == "" {
        IdsAreGood(lines[1..], "", lastId);
      } else if name == "data" {
        IdsAreGood(lines[1..], data + value + "\n", lastId);
      } else if name == "id" && '\0' !in value {
        IdsAreGood(lines[1..], data, value);
      } else {
        IdsAreGood(lines[1..], data, lastId);
      }
    }
  }

  /** Before an empty line, the first line ends no later than the one that makes it empty. */
  lemma {:induction false} FirstLineEnds(t: string, m: nat)
    requires m + 1 < |t| && t[m] == '\n' && t[m + 1] == '\n'
    ensures LineLength(t) <= m && LineLength(t) + 1 <= |t| - |AfterLine(t)|
    ensures var t' := AfterLine(t);
      var used := |t| - |t'|;
      if used <= m then m - used + 1 < |t'| && t'[m - used] == '\n' && t'[m - used + 1] == '\n'
      else t' != "" && t'[0] == '\n'
  {
    var n := LineLength(t);
    assert !(m < n);
    var t' := AfterLine(t);
    var used := |t| - |t'|;
    assert t' == t[used..];
    if used <= m {
      assert t'[m - used] == t[m] && t'[m - used + 1] == t[m + 1];
    } else {
      assert used == m + 1 && t'[0] == t[m + 1];
    }
  }

  lemma {:induction false} DispatchNow(t: string, data: string, lastId: string)
    requires t != "" && t[0] == '\n' && data != ""
    ensures var r := Dispatch(Lines(t), data, lastId); r != [] && r[0].data == data[..|data| - 1]
  {
    assert LineLength(t) == 0 && t[..0] == "";
  }

  lemma {:induction false} FirstLineOf(t: string)
    requires LineLength(t) < |t|
    ensures Lines(t) != [] && Lines(t)[0] == t[..LineLength(t)] && Lines(t)[1..] == Lines(AfterLine(t))
  {
  }

  /** The first event dispatched has no more data than was buffered and came before the empty line. */
  lemma {:induction false} FirstEventIsShort(t: string, m: nat, data: string, lastId: string)
    requires m + 1 < |t| && t[m] == '\n' && t[m + 1] == '\n' && data != ""
    ensures var r := Dispatch(Lines(t), data, lastId); r != [] && |r[0].data| <= |data| - 1 + m
    decreases |t|
  {
    FirstLineEnds(t, m);
    FirstLineOf(t);
    var n := LineLength(t);
    if n > 0 {
      var (name, value) := Field(t[..n]);
      var data' := if name == "data" then data + value + "\n" else data;
      var id' := if name != "data" && name == "id" && '\0' !in value then value else lastId;
      assert Dispatch(Lines(t), data, lastId) == Dispatch(Lines(AfterLine(t)), data', id');
      DataFieldShrinks(t[..n]);
      ShortRest(t, m, data', id');
    }
  }

  lemma {:induction false} ShortRest(t: string, m: nat, data: string, lastId: string)
    requires m + 1 < |t| && t[m] == '\n' && t[m + 1] == '\n' && data != ""
    ensures var used := |t| - |AfterLine(t)|;
      var r := Dispatch(Lines(AfterLine(t)), data, lastId);
      r != [] && |r[0].data| <= |data| - 1 + if used <= m then m - used else 0
    decreases |t|, 0
  {
    FirstLineEnds(t, m);
    var used := |t| - |AfterLine(t)|;
    if used <= m {
      FirstEventIsShort(AfterLine(t), m - used, data, lastId);
    } else {
      DispatchNow(AfterLine(t), data, lastId);
    }
  }

  lemma {:induction false} DataFieldShrinks(line: string)
    ensures Field(line).0 == "data" ==> |Field(line).1| + 4 <= |line|
  {
  }

  lemma {:induction false} PrefixedLine(name: string, data: string, tail: string)
    requires OneLine(name) && !OneLine(data)
    ensures var n := LineLength(data);
      n < |data| && LineLength(name + data + tail) == |name| + n && (name + data + tail)[..|name| + n] == name + data[..n]
  {
    var n := LineLength(data);
    var t := name + data + tail;
    assert forall i | 0 <= i < |data| :: t[|name| + i] == data[i];
    assert forall i | 0 <= i < |name| :: t[i] == name[i];
  }

  /** A payload with a line break does not come back: the first event it yields is shorter. */
  lemma {:induction false} BrokenPayload(data: string, rest: string, lastId: string)
    requires !OneLine(data)
    ensures var r := Dispatch(Lines("data: " + data + "\n" + "\n" + rest), "", lastId); r != [] && r[0].data != data
  {
    var tail := "\n" + "\n" + rest;
    var name := "data: ";
    var t := name + data + tail;
    assert "data: " + data + "\n" + "\n" + rest == t;
    BrokenText(name, data, tail, t);
    PrefixedLine(name, data, tail);
    FirstLineOf(t);
    var n := LineLength(data);
    DispatchDataLine(data[..n], Lines(AfterLine(t)), lastId);
    ShortRest(t, |name| + |data|, data[..n] + "\n", lastId);
    FirstLineEnds(t, |name| + |data|);
    assert Lines(t) == [Lines(t)[0]] + Lines(t)[1..];
  }

  lemma {:induction false} BrokenText(name: string, data: string, tail: string, t: string)
    requires t == name + data + tail && |tail| >= 2 && tail[0] == '\n' && tail[1] == '\n'
    ensures var m := |name| + |data|; m + 1 < |t| && t[m] == '\n' && t[m + 1] == '\n'
  {
  }

  lemma {:induction false} DispatchDataLine(value: string, tail: seq<string>, lastId: string)
    ensures Dispatch(["data: " + value] + tail, "", lastId) == Dispatch(tail, value + "\n", lastId)
  {
    FieldOf("data", value);
    assert "data: " + value == "data" + ": " + value;
    assert (["data: " + value] + tail)[1..] == tail;
    assert "" + value + "\n" == value + "\n";
  }

  /** A frame that is not writable spoils the first event read from it. */
  lemma {:induction false} BrokenFrame(f: Frame, rest: string, lastId: string)
    requires !Writable(f) && GoodId(lastId)
    ensures var id := if f.id != "" then f.id else lastId;
      var r := Dispatch(Lines(FrameText(f) + rest), "", lastId);
      r == [] || r[0] != Frame(id, f.data)
  {
    var t := FrameText(f) + rest;
    if GoodId(f.id) {
      FrameShape(f, rest);
      var tail := "data: " + f.data + "\n" + "\n" + rest;
      if f.id != "" {
        ReadIdLine(f.id, tail, lastId);
        BrokenPayload(f.data, rest, f.id);
      } else {
        BrokenPayload(f.data, rest, lastId);
      }
    } else {
      LinesAreSingle(t);
      IdsAreGood(Lines(t), "", lastId);
      var r := Dispatch(Lines(t), "", lastId);
      assert r != [] ==> r[0] in r;
    }
  }

  predicate AllWritable(frames: seq<Frame>) {
    forall i | 0 <= i < |frames| :: Writable(frames[i])
  }

  lemma {:induction false} WritableFirst(frames: seq<Frame>)
    requires frames != []
    ensures AllWritable(frames) <==> Writable(frames[0]) && AllWritable(frames[1..])
  {
    assert forall i | 1 <= i < |frames| :: frames[i] == frames[1..][i - 1];
  }

  lemma {:induction false} ReadFirstFrame(f: Frame, rest: string, lastId: string, expected: seq<Frame>)
    requires GoodId(lastId)
    ensures var id := if f.id != "" then f.id else lastId;
      Dispatch(Lines(FrameText(f) + rest), "", lastId) == [Frame(id, f.data)] + expected
      <==> Writable(f) && Dispatch(Lines(rest), "", id) == expected
  {
    var id := if f.id != "" then f.id else lastId;
    if Writable(f) {
      ReadFrame(f, rest, lastId);
      TailsAgree(Frame(id, f.data), Dispatch(Lines(rest), "", id), expected);
    } else {
      BrokenFrame(f, rest, lastId);
      assert ([Frame(id, f.data)] + expected)[0] == Frame(id, f.data);
    }
  }

  lemma {:induction false} ReadFrames(frames: seq<Frame>, lastId: string)
    requires GoodId(lastId)
    ensures Dispatch(Lines(StreamText(frames)), "", lastId) == Expected(frames, lastId) <==> AllWritable(frames)
    decreases |frames|
  {
    if frames != [] {
      var id := if frames[0].id != "" then frames[0].id else lastId;
      WritableFirst(frames);
      ReadFirstFrame(frames[0], StreamText(frames[1..]), lastId, Expected(frames[1..], id));
      if Writable(frames[0]) {
        ReadFrames(frames[1..], id);
      }
    }
  }

  lemma {:induction false} TailsAgree(f: Frame, a: seq<Frame>, b: seq<Frame>)
    ensures [f] + a == [f] + b <==> a == b
  {
    assert ([f] + a)[1..] == a && ([f] + b)[1..] == b;
  }

  /**
   A sequence of messages is read back message by message, in order, if and only if every id
   and payload is a single line and no id contains a NUL.
   */
  lemma {:induction false} StreamReadsBack(frames: seq<Frame>)
    ensures ReadStream(StreamText(frames)) == Expected(frames, "") <==> AllWritable(frames)
  {
    ReadFrames(frames, "");
  }

  lemma {:induction false} ExpectedWithIds(frames: seq<Frame>, lastId: string)
    requires forall i | 0 <= i < |frames| :: frames[i].id != ""
    ensures Expected(frames, lastId) == frames
    decreases |frames|
  {
    if frames != [] {
      ExpectedWithIds(frames[1..], frames[0].id);
      assert frames == [frames[0]] + frames[1..];
    }
  }

  /** When every message carries an id, the client sees exactly the messages written, under the same condition. */
  lemma {:induction false} IdentifiedStreamReadsBack(frames: seq<Frame>)
    requires forall i | 0 <= i < |frames| :: frames[i].id != ""
    ensures ReadStream(StreamText(frames)) == frames <==> AllWritable(frames)
  {
    StreamReadsBack(frames);
    ExpectedWithIds(frames, "");
  }
}
