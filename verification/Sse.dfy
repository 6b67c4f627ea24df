/** Server-sent events: the frame the stream handler writes, and the client side of
    section 9.2.6 of the WHATWG HTML Living Standard ("Interpreting an event stream"). */
module Sse {
  import opened Json

  function Frame(payload: string): string {
    ['d', 'a', 't', 'a', ':', ' '] + payload + ['\n', '\n']
  }

  function Frames(payloads: seq<string>): string {
    if payloads == [] then "" else Frame(payloads[0]) + Frames(payloads[1..])
  }

  // ----- the client -----

  datatype Message = Message(kind: string, data: string, lastId: string)
  datatype Client = Client(data: string, kind: string, lastId: string, out: seq<Message>)

  const INITIAL := Client("", "", "", [])

  // The first complete line (ended by CRLF, LF or CR) and what follows it.
  function FirstLine(s: string): (r: Option<(string, string)>)
    ensures r.Some? ==> |r.value.1| < |s|
  {
    if s == "" then None
    else if s[0] == '\n' then Some(("", s[1..]))
    else if s[0] == '\r' then Some(("", if |s| > 1 && s[1] == '\n' then s[2..] else s[1..]))
    else
      match FirstLine(s[1..])
      case None => None
      case Some((line, rest)) => Some(([s[0]] + line, rest))
  }

  function SkipSpace(s: string): string {
    if s != "" && s[0] == ' ' then s[1..] else s
  }

  // Field name and value: everything before the first colon, everything after it.
  function SplitField(line: string): (string, string) {
    if line == "" then ("", "")
    else if line[0] == ':' then ("", SkipSpace(line[1..]))
    else var (name, value) := SplitField(line[1..]); ([line[0]] + name, value)
  }

  function Dispatch(c: Client): Client {
    if c.data == "" then c.(kind := "")
    else
      var text := if c.data[|c.data| - 1] == '\n' then c.data[..|c.data| - 1] else c.data;
      Client("", "", c.lastId, c.out + [Message(if c.kind == "" then "message" else c.kind, text, c.lastId)])
  }

  // The retry field only sets the reconnection time; it does not change what is delivered.
  function TakeLine(c: Client, line: string): Client {
    if line == "" then Dispatch(c)
    else if line[0] == ':' then c
    else
      var (name, value) := SplitField(line);
      if name == "data" then c.(data := c.data + value + ['\n'])
      else if name == "event" then c.(kind := value)
      else if name == "id" then if '\0' in value then c else c.(lastId := value)
      else c
  }

  function Consume(c: Client, s: string): Client
    decreases |s|
  {
    match FirstLine(s)
    case None => c
    case Some((line, rest)) => Consume(TakeLine(c, line), rest)
  }

  function ParseStream(s: string): seq<Message> {
    var text := if s != "" && s[0] == '\U{FEFF}' then s[1..] else s;
    Consume(INITIAL, text).out
  }

  function Messages(payloads: seq<string>): seq<Message> {
    if payloads == [] then [] else [Message("message", payloads[0], "")] + Messages(payloads[1..])
  }

  // ----- frames survive -----

  lemma {:induction false} LineOf(line: string, rest: string)
    requires OneLine(line)
    ensures FirstLine(line + ['\n'] + rest) == Some((line, rest))
  {
    var s := line + ['\n'] + rest;
    if line == "" {
      assert s[1..] == rest;
    } else {
      assert line[0] in line && OneLine(line[1..]);
      assert s[1..] == line[1..] + ['\n'] + rest;
      LineOf(line[1..], rest);
      assert [line[0]] + line[1..] == line;
    }
  }

  lemma {:induction false} NoLine(s: string)
    requires OneLine(s)
    ensures FirstLine(s) == None
  {
    if s != "" {
      assert s[0] in s && OneLine(s[1..]);
      NoLine(s[1..]);
    }
  }

  function DataLine(payload: string): string {
    ['d', 'a', 't', 'a', ':', ' '] + payload
  }

  lemma SplitCons(c: char, t: string)
    requires c != ':'
    ensures SplitField([c] + t) == ([c] + SplitField(t).0, SplitField(t).1)
  {
    assert ([c] + t)[1..] == t;
  }

  lemma SplitDataLine(payload: string)
    ensures SplitField(DataLine(payload)) == ("data", payload)
  {
    var v := [':', ' '] + payload;
    assert v[1..] == [' '] + payload && ([' '] + payload)[1..] == payload;
    SplitCons('a', v);
    SplitCons('t', ['a'] + v);
    SplitCons('a', ['t'] + (['a'] + v));
    SplitCons('d', ['a'] + (['t'] + (['a'] + v)));
    assert DataLine(payload) == ['d'] + (['a'] + (['t'] + (['a'] + v)));
    assert ['d'] + (['a'] + (['t'] + (['a'] + ""))) == "data";
  }

  lemma FrameParts(payload: string, rest: string)
    ensures Frame(payload) + rest == DataLine(payload) + ['\n'] + (['\n'] + rest)
  {
  }

  predicate Ready(c: Client) {
    c.data == "" && c.kind == "" && c.lastId == ""
  }

  function Delivered(c: Client, payload: string): Client {
    c.(out := c.out + [Message("message", payload, "")])
  }

  lemma ConsumeFrame(c: Client, payload: string, rest: string)
    requires OneLine(payload) && Ready(c)
    ensures Consume(c, Frame(payload) + rest) == Consume(Delivered(c, payload), rest)
  {
    FrameParts(payload, rest);
    LineOf(DataLine(payload), ['\n'] + rest);
    SplitDataLine(payload);
    var mid := TakeLine(c, DataLine(payload));
    assert mid == c.(data := payload + ['\n']);
    assert (['\n'] + rest)[1..] == rest;
    assert Dispatch(mid) == Delivered(c, payload) by {
      assert (payload + ['\n'])[..|payload|] == payload;
    }
    assert Consume(mid, ['\n'] + rest) == Consume(Dispatch(mid), rest);
  }

  predicate AllOneLine(payloads: seq<string>) {
    forall k :: 0 <= k < |payloads| ==> OneLine(payloads[k])
  }

  // A stream cut short inside a frame delivers nothing of that frame.
  lemma ConsumePartialFrame(c: Client, payload: string, cut: nat)
    requires OneLine(payload) && Ready(c) && cut < |Frame(payload)|
    ensures Consume(c, Frame(payload)[..cut]).out == c.out
  {
    var part := Frame(payload)[..cut];
    var n := |DataLine(payload)|;
    if cut <= n {
      assert part == DataLine(payload)[..cut];
      assert OneLine(part);
      NoLine(part);
    } else {
      assert part == DataLine(payload) + ['\n'] + "";
      LineOf(DataLine(payload), "");
      SplitDataLine(payload);
    }
  }

  lemma CutEarly(c: Client, payloads: seq<string>, cut: nat)
    requires AllOneLine(payloads) && Ready(c) && payloads != [] && cut < |Frame(payloads[0])|
    ensures cut < |Frames(payloads[..1])| && cut <= |Frames(payloads)|
    ensures Consume(c, Frames(payloads)[..cut]).out == c.out
  {
    assert Frames(payloads)[..cut] == Frame(payloads[0])[..cut];
    ConsumePartialFrame(c, payloads[0], cut);
    assert payloads[..1] == [payloads[0]];
  }

  lemma CutLater(c: Client, payloads: seq<string>, cut: nat)
    requires AllOneLine(payloads) && Ready(c) && payloads != []
    requires |Frame(payloads[0])| <= cut <= |Frames(payloads)|
    ensures var later, left := Frames(payloads[1..]), cut - |Frame(payloads[0])|;
            left <= |later| && Consume(c, Frames(payloads)[..cut]) == Consume(Delivered(c, payloads[0]), later[..left])
  {
    var frame, later := Frame(payloads[0]), Frames(payloads[1..]);
    assert Frames(payloads)[..cut] == frame + later[..cut - |frame|];
    ConsumeFrame(c, payloads[0], later[..cut - |frame|]);
  }

  lemma MessagesCons(c: Client, payload: string, later: seq<Message>)
    ensures Delivered(c, payload).out + later == c.out + ([Message("message", payload, "")] + later)
  {
  }

  lemma {:induction false} ConsumeFrames(c: Client, payloads: seq<string>, cut: nat) returns (whole: nat)
    requires AllOneLine(payloads) && Ready(c) && cut <= |Frames(payloads)|
    ensures whole <= |payloads| && |Frames(payloads[..whole])| <= cut
    ensures whole < |payloads| ==> cut < |Frames(payloads[..whole + 1])|
    ensures Consume(c, Frames(payloads)[..cut]).out == c.out + Messages(payloads[..whole])
    decreases |payloads|
  {
    if payloads == [] {
      whole := 0;
    } else {
      var frame := Frame(payloads[0]);
      if cut < |frame| {
        CutEarly(c, payloads, cut);
        whole := 0;
      } else {
        CutLater(c, payloads, cut);
        var w := ConsumeFrames(Delivered(c, payloads[0]), payloads[1..], cut - |frame|);
        whole := w + 1;
        TakeCons(payloads, w);
        MessagesCons(c, payloads[0], Messages(payloads[1..][..w]));
        if w < |payloads| - 1 { TakeCons(payloads, w + 1); }
      }
    }
  }

  lemma TakeCons(payloads: seq<string>, w: nat)
    requires w < |payloads|
    ensures Frames(payloads[..w + 1]) == Frame(payloads[0]) + Frames(payloads[1..][..w])
    ensures Messages(payloads[..w + 1]) == [Message("message", payloads[0], "")] + Messages(payloads[1..][..w])
  {
    assert payloads[..w + 1][1..] == payloads[1..][..w];
  }

  // Wherever the connection is cut, the client has received exactly the payloads of the frames that
  // arrived whole: one message each, unchanged and in order.
  lemma TruncatedStream(payloads: seq<string>, cut: nat) returns (whole: nat)
    requires AllOneLine(payloads) && cut <= |Frames(payloads)|
    ensures whole <= |payloads| && |Frames(payloads[..whole])| <= cut
    ensures whole < |payloads| ==> cut < |Frames(payloads[..whole + 1])|
    ensures ParseStream(Frames(payloads)[..cut]) == Messages(payloads[..whole])
  {
    whole := ConsumeFrames(INITIAL, payloads, cut);
    if payloads != [] && cut > 0 {
      assert Frames(payloads)[..cut][0] == 'd';
    }
  }

  // The whole stream delivers every payload.
  lemma StreamRoundTrip(payloads: seq<string>)
    requires AllOneLine(payloads)
    ensures ParseStream(Frames(payloads)) == Messages(payloads)
  {
    var n := |Frames(payloads)|;
    var whole := TruncatedStream(payloads, n);
    assert Frames(payloads)[..n] == Frames(payloads);
    if whole < |payloads| {
      FramesGrow(payloads, whole + 1);
      assert false;
    }
    assert payloads[..whole] == payloads;
  }

  lemma {:induction false} FramesGrow(payloads: seq<string>, k: nat)
    requires k <= |payloads|
    ensures |Frames(payloads[..k])| <= |Frames(payloads)|
  {
    if k > 0 {
      TakeCons(payloads, k - 1);
      FramesGrow(payloads[1..], k - 1);
    }
  }

  // ----- and only such frames survive -----

  lemma {:induction false} BreakInside(s: string, t: string) returns (line: string, rest: string)
    requires !OneLine(s)
    ensures FirstLine(s + t) == Some((line, rest)) && |line| < |s| && |line| + |rest| < |s| + |t|
  {
    assert s != "";
    assert (s + t)[1..] == s[1..] + t;
    if s[0] == '\n' || s[0] == '\r' {
      line, rest := "", FirstLine(s + t).value.1;
    } else {
      assert s == [s[0]] + s[1..];
      line, rest := BreakInside(s[1..], t);
      line := [s[0]] + line;
    }
  }

  lemma {:induction false} ValueShorter(line: string)
    ensures SplitField(line).0 != "" ==> |SplitField(line).0| + |SplitField(line).1| <= |line|
    ensures |SplitField(line).1| <= |line|
  {
    if line != "" && line[0] != ':' { ValueShorter(line[1..]); }
  }

  function AtLeast2(n: nat): nat {
    if n < 2 then 2 else n
  }

  lemma {:induction false} OutputGrows(c: Client, s: string)
    ensures |c.out| <= |Consume(c, s).out| && Consume(c, s).out[..|c.out|] == c.out
    decreases |s|
  {
    match FirstLine(s)
    case None =>
    case Some((line, rest)) =>
      OutputGrows(TakeLine(c, line), rest);
      assert TakeLine(c, line).out[..|c.out|] == c.out;
  }

  // The first message out of buffered data and more text: every further line costs more characters
  // than it adds.
  lemma {:induction false} FirstMessageBound(c: Client, s: string)
    requires c.out == [] && c.data != "" && c.data[|c.data| - 1] == '\n'
    ensures Consume(c, s).out != [] ==> |Consume(c, s).out[0].data| + 3 <= |c.data| + AtLeast2(|s|)
    decreases |s|
  {
    match FirstLine(s)
    case None =>
    case Some((line, rest)) =>
      LineLength(s);
      ValueShorter(line);
      if line == "" {
        OutputGrows(Dispatch(c), rest);
        assert Consume(c, s).out[0] == Dispatch(c).out[0];
      } else {
        FirstMessageBound(TakeLine(c, line), rest);
      }
  }

  lemma {:induction false} LineLength(s: string)
    ensures FirstLine(s).Some? ==> |FirstLine(s).value.0| + 1 + |FirstLine(s).value.1| <= |s|
  {
    if s != "" && s[0] != '\n' && s[0] != '\r' { LineLength(s[1..]); }
  }

  lemma BrokenFrameFirstLine(payload: string) returns (line: string, rest: string)
    requires !OneLine(payload)
    ensures FirstLine(Frame(payload)) == Some((DataLine(line), rest))
    ensures |line| < |payload| && |line| + |rest| <= |payload| + 1
  {
    var end := ['\n', '\n'];
    line, rest := BreakInside(payload, end);
    var f := payload + end;
    assert Frame(payload)[1..][1..][1..][1..][1..][1..] == f;
    assert FirstLine(Frame(payload)[1..][1..][1..][1..][1..]) == Some(([' '] + line, rest));
    assert FirstLine(Frame(payload)[1..][1..][1..][1..]) == Some(([':'] + ([' '] + line), rest));
    assert FirstLine(Frame(payload)[1..][1..][1..]) == Some((['a'] + ([':'] + ([' '] + line)), rest));
    assert FirstLine(Frame(payload)[1..][1..]) == Some((['t'] + (['a'] + ([':'] + ([' '] + line))), rest));
    assert FirstLine(Frame(payload)[1..]) == Some((['a'] + (['t'] + (['a'] + ([':'] + ([' '] + line)))), rest));
    assert DataLine(line) == ['d'] + (['a'] + (['t'] + (['a'] + ([':'] + ([' '] + line)))));
  }

  // The handler writes the payload raw, so a frame delivers it unchanged exactly when it holds no
  // line break.
  lemma FrameIntactExactly(payload: string)
    ensures ParseStream(Frame(payload)) == [Message("message", payload, "")] <==> OneLine(payload)
  {
    assert Frame(payload)[0] == 'd';
    if OneLine(payload) {
      assert [payload][1..] == [];
      assert Frames([payload]) == Frame(payload);
      StreamRoundTrip([payload]);
      assert Messages([payload]) == [Message("message", payload, "")];
    } else {
      var line, rest := BrokenFrameFirstLine(payload);
      SplitDataLine(line);
      var c := TakeLine(INITIAL, DataLine(line));
      assert c == INITIAL.(data := line + ['\n']);
      FirstMessageBound(c, rest);
      assert Consume(INITIAL, Frame(payload)) == Consume(c, rest);
    }
  }
}
