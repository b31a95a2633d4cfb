/** The MCP bridge's reading of a `text/event-stream` response, line by line. */
module SseScanner {
  import opened Prelude
  import opened Text

  datatype Failure = ReadFailed | NoMessage

  const EVENT := "event:"
  const DATA := "data:"

  predicate IsEvent(line: string) {
    HasPrefix(line, EVENT)
  }

  predicate OpensMessage(line: string) {
    IsEvent(line) && TrimSpace(line[|EVENT|..]) == "message"
  }

  // ---- what counts as an answer ----

  /** Line `e` opens a message event that is still in force at line `i`. */
  predicate Governs(lines: seq<string>, e: nat, i: nat) {
    e < i <= |lines| && OpensMessage(lines[e]) && forall j :: e < j < i ==> !IsEvent(lines[j]) && lines[j] != ""
  }

  ghost predicate InMessage(lines: seq<string>, i: nat) {
    exists e :: Governs(lines, e, i)
  }

  function Payload(line: string): string {
    if HasPrefix(line, DATA) then TrimSpace(line[|DATA|..]) else ""
  }

  lemma {:induction false} PayloadIsData(line: string)
    ensures Payload(line) != "" <==> HasPrefix(line, DATA) && !Blank(line[|DATA|..])
  {
    if HasPrefix(line, DATA) { TrimIsBlank(line[|DATA|..]); }
  }

  /** Line `i` is a non-blank data line of a message event. */
  ghost predicate Candidate(lines: seq<string>, i: nat) {
    i < |lines| && InMessage(lines, i) && Payload(lines[i]) != ""
  }

  /** Spelled out: a data line in force of a message event whose payload is not blank. */
  lemma {:induction false} CandidateIs(lines: seq<string>, i: nat)
    requires i < |lines|
    ensures Candidate(lines, i) <==> InMessage(lines, i) && HasPrefix(lines[i], DATA) && !Blank(lines[i][|DATA|..])
  {
    PayloadIsData(lines[i]);
  }

  ghost predicate LastCandidate(lines: seq<string>, i: nat, n: nat) {
    Candidate(lines, i) && forall j :: i < j < n ==> !Candidate(lines, j)
  }

  /** The last candidate before line `n` has this payload. */
  ghost predicate IsAnswer(lines: seq<string>, n: nat, answer: Option<string>) {
    if answer.None? then forall i :: 0 <= i < n ==> !Candidate(lines, i)
    else exists i :: 0 <= i < n && LastCandidate(lines, i, n) && Payload(lines[i]) == answer.value
  }

  /** The scanner. `scanOk` is false when the stream broke off or held a line over the buffer. */
  method Parse(lines: seq<string>, scanOk: bool) returns (r: Result<string, Failure>)
    ensures r == Err(ReadFailed) <==> !scanOk
    ensures scanOk ==> IsAnswer(lines, |lines|, if r.Ok? then Some(r.value) else None)
  {
    var last: Option<string> := None;
    var inMessage := false;
    for i := 0 to |lines|
      invariant inMessage == InMessage(lines, i)
      invariant IsAnswer(lines, i, last)
    {
      var line := lines[i];
      Advance(lines, i);
      NextAnswer(lines, i, last);
      if IsEvent(line) {
        inMessage := TrimSpace(line[|EVENT|..]) == "message";
        continue;
      }
      if HasPrefix(line, DATA) && inMessage {
        var data := TrimSpace(line[|DATA|..]);
        if data == "" { continue; }
        last := Some(data);
      }
      if line == "" { inMessage := false; }
    }
    if !scanOk { return Err(ReadFailed); }
    if last.None? { return Err(NoMessage); }
    return Ok(last.value);
  }

  /** Whether a message event is in force, from one line to the next. */
  lemma {:induction false} Advance(lines: seq<string>, i: nat)
    requires i < |lines|
    ensures InMessage(lines, i + 1) <==>
              OpensMessage(lines[i]) || (!IsEvent(lines[i]) && lines[i] != "" && InMessage(lines, i))
    ensures IsEvent(lines[i]) || lines[i] == "" ==> !HasPrefix(lines[i], DATA)
  {
    if IsEvent(lines[i]) { assert lines[i][0] == 'e' && DATA[0] == 'd'; }
    if OpensMessage(lines[i]) { assert Governs(lines, i, i + 1); }
    if InMessage(lines, i) && !IsEvent(lines[i]) && lines[i] != "" {
      var e :| Governs(lines, e, i);
      assert Governs(lines, e, i + 1);
    }
    if InMessage(lines, i + 1) && !OpensMessage(lines[i]) {
      var e :| Governs(lines, e, i + 1);
      assert Governs(lines, e, i);
    }
  }

  lemma {:induction false} NextAnswer(lines: seq<string>, i: nat, last: Option<string>)
    requires i < |lines|
    ensures IsAnswer(lines, i, last) && !Candidate(lines, i) ==> IsAnswer(lines, i + 1, last)
    ensures Candidate(lines, i) ==> IsAnswer(lines, i + 1, Some(Payload(lines[i])))
  {
  }

  /** There is only one answer. */
  lemma {:induction false} OneAnswer(lines: seq<string>, n: nat, a: Option<string>, b: Option<string>)
    requires IsAnswer(lines, n, a) && IsAnswer(lines, n, b)
    ensures a == b
  {
    if a.Some? && b.Some? {
      var i :| 0 <= i < n && LastCandidate(lines, i, n) && Payload(lines[i]) == a.value;
      var k :| 0 <= k < n && LastCandidate(lines, k, n) && Payload(lines[k]) == b.value;
      assert i == k;
    }
  }

  // ---- against the standard ----

  /** A complete block of the stream: from after an empty line, or the start, to the next empty line. */
  predicate Block(lines: seq<string>, b: nat, end: nat) {
    && b < end < |lines| && lines[end] == "" && (b == 0 || lines[b - 1] == "")
    && forall j :: b <= j < end ==> lines[j] != ""
  }

  /** The last event line from `b` up to before `i`. */
  function LastEvent(lines: seq<string>, b: nat, i: nat): (e: Option<nat>)
    requires b <= i <= |lines|
    ensures e.Some? ==>
              b <= e.value < i && IsEvent(lines[e.value]) && forall j :: e.value < j < i ==> !IsEvent(lines[j])
    ensures e.None? ==> forall j :: b <= j < i ==> !IsEvent(lines[j])
  {
    if i == b then None else if IsEvent(lines[i - 1]) then Some(i - 1) else LastEvent(lines, b, i - 1)
  }

  function TypeOf(line: string): string {
    if IsEvent(line) then line[|EVENT|..] else ""
  }

  /** An event field by section 9.2.6 of the WHATWG HTML standard, where the colon and the value may be missing. */
  predicate StandardEvent(line: string) {
    IsEvent(line) || line == "event"
  }

  /** The last event field of the standard from `b` up to before `i`. */
  function LastStandard(lines: seq<string>, b: nat, i: nat): (e: Option<nat>)
    requires b <= i <= |lines|
    ensures e.Some? ==> b <= e.value < i && StandardEvent(lines[e.value])
    ensures e.Some? ==> forall j :: e.value < j < i ==> !StandardEvent(lines[j])
    ensures e.None? ==> forall j :: b <= j < i ==> !StandardEvent(lines[j])
  {
    if i == b then None else if StandardEvent(lines[i - 1]) then Some(i - 1) else LastStandard(lines, b, i - 1)
  }

  /**
   The type a block is dispatched with by that section: the last event field of the block decides, one
   leading space of its value is dropped, and an empty type is the type "message".
   */
  function StandardType(lines: seq<string>, b: nat, end: nat): string
    requires b <= end <= |lines|
  {
    var e := LastStandard(lines, b, end);
    var named := if e.Some? then TypeOf(lines[e.value]) else "";
    var v := if HasPrefix(named, " ") then named[1..] else named;
    if v == "" then "message" else v
  }

  /** What the scanner goes by: the last event line before the line, in the same block. */
  lemma {:induction false} BlockRule(lines: seq<string>, b: nat, end: nat, i: nat)
    requires Block(lines, b, end) && b <= i < end
    ensures InMessage(lines, i) <==>
            var e := LastEvent(lines, b, i); e.Some? && TrimSpace(TypeOf(lines[e.value])) == "message"
  {
    var e := LastEvent(lines, b, i);
    if e.Some? && OpensMessage(lines[e.value]) { assert Governs(lines, e.value, i); }
  }

  /**
   Stricter than the standard, and exactly how: a data line of a block that the standard dispatches as a
   message is passed over if and only if no event line with a colon precedes it in the block, or the last
   one that does names nothing, or it names something else and the block's last event field is another.
   */
  lemma {:induction false} MissedIff(lines: seq<string>, b: nat, end: nat, i: nat)
    requires Block(lines, b, end) && b <= i < end && HasPrefix(lines[i], DATA)
    requires StandardType(lines, b, end) == "message"
    ensures !InMessage(lines, i) <==>
            var e := LastEvent(lines, b, i);
            || e.None?
            || TypeOf(lines[e.value]) in ["", " "]
            || (LastStandard(lines, b, end) != e && TrimSpace(TypeOf(lines[e.value])) != "message")
  {
    BlockRule(lines, b, end, i);
    var e := LastEvent(lines, b, i);
    if e.Some? {
      var v := TypeOf(lines[e.value]);
      BlankTypes();
      if LastStandard(lines, b, end) == e { PlainType(v); }
    }
  }

  lemma {:induction false} BlankTypes()
    ensures TrimSpace("") == "" && TrimSpace(" ") == ""
  {
    assert TrimLeft(" ") == TrimLeft(" "[1..]);
  }

  /** A last type the standard reads as "message" is empty or trims to "message". */
  lemma {:induction false} PlainType(v: string)
    requires (if HasPrefix(v, " ") then v[1..] else v) in ["", "message"]
    ensures v in ["", " "] || TrimSpace(v) == "message"
  {
    MessageTrims();
    assert HasPrefix(v, " ") ==> v == " " + v[1..];
    assert " " + "message" == " message" && " " + "" == " ";
    assert v == "" || v == " " || v == "message" || v == " message";
  }

  lemma {:induction false} MessageTrims()
    ensures TrimSpace("message") == "message" && TrimSpace(" message") == "message"
  {
    assert " message"[1..] == "message";
    assert TrimLeft("message") == "message" && TrimRight("message") == "message";
  }

  /** A block that names its type after its data is a message to the standard and nothing to the scanner. */
  lemma {:induction false} LateTypeMissed()
    ensures var lines := ["data: x", "event: message", ""];
            && Block(lines, 0, 2) && StandardType(lines, 0, 2) == "message" && IsAnswer(lines, 3, None)
  {
    var lines := ["data: x", "event: message", ""];
    assert lines[0][0] == 'd' && EVENT[0] == 'e';
    assert !IsEvent(lines[0]);
    assert EVENT + " message" == "event: message";
    assert LastStandard(lines, 0, 2) == Some(1);
    assert TypeOf(lines[1]) == " message" && " message"[1..] == "message";
    forall i | 0 <= i < 3 ensures !Candidate(lines, i) {
      if i == 0 {
        BlockRule(lines, 0, 2, 0);
      } else {
        OtherLine(lines, i);
      }
    }
  }

  /**
   A bare `event` line makes a block a message again to the standard; the scanner stays with the type
   named before.
   */
  lemma {:induction false} BareEventMissed()
    ensures var lines := ["event: ping", "event", "data: x", ""];
            && Block(lines, 0, 3) && StandardType(lines, 0, 3) == "message" && IsAnswer(lines, 4, None)
  {
    var lines := ["event: ping", "event", "data: x", ""];
    assert EVENT + " ping" == "event: ping" && !IsEvent("event") by { assert |"event"| < |EVENT|; }
    assert lines[2][0] == 'd' && EVENT[0] == 'e';
    assert LastStandard(lines, 0, 2) == Some(1) && LastStandard(lines, 0, 3) == Some(1);
    assert LastEvent(lines, 0, 1) == Some(0) && LastEvent(lines, 0, 2) == Some(0);
    assert TypeOf(lines[0]) == " ping";
    PingTrims();
    BlockRule(lines, 0, 3, 2);
    forall i | 0 <= i < 4 ensures !Candidate(lines, i) {
      if i != 2 { assert !HasPrefix(lines[i], DATA) by { assert lines[i] == "" || lines[i][0] == 'e'; } }
    }
  }

  lemma {:induction false} PingTrims()
    ensures TrimSpace(" ping") != "message"
  {
    assert " ping"[1..] == "ping";
    assert TrimLeft("ping") == "ping" && TrimRight("ping") == "ping";
  }

  // ---- round trip ----

  /** One frame per payload, as a server writes them. */
  function Frames(payloads: seq<string>): seq<string> {
    seq(3 * |payloads|, i requires 0 <= i < 3 * |payloads| => FrameLine(payloads[i / 3], i % 3))
  }

  function FrameLine(payload: string, part: nat): string {
    if part == 0 then "event: message" else if part == 1 then "data: " + payload else ""
  }

  lemma {:induction false} FrameTypes()
    ensures OpensMessage(EVENT + " message") && !OpensMessage("")
  {
    var line := EVENT + " message";
    assert line[|EVENT|..] == " message";
    MessageTrims();
  }

  lemma {:induction false} FrameData(p: string)
    ensures var line := DATA + " " + p;
            Payload(line) == TrimSpace(p)
  {
    var line := DATA + " " + p;
    assert line[|DATA|..] == " " + p;
    assert (" " + p)[1..] == p;
  }

  /** A line right after a message event is an answer if it carries data at all. */
  lemma {:induction false} RightAfter(lines: seq<string>, i: nat)
    requires 1 <= i < |lines| && OpensMessage(lines[i - 1])
    ensures Candidate(lines, i) <==> Payload(lines[i]) != ""
  {
    assert Governs(lines, i - 1, i);
  }

  lemma {:induction false} DataLine(lines: seq<string>, i: nat, p: string)
    requires 1 <= i < |lines| && lines[i - 1] == EVENT + " message" && lines[i] == DATA + " " + p
    ensures Candidate(lines, i) <==> !Blank(p)
    ensures Payload(lines[i]) == TrimSpace(p)
  {
    FrameTypes();
    FrameData(p);
    TrimIsBlank(p);
    RightAfter(lines, i);
  }

  lemma {:induction false} LiteralFrame(p: string)
    ensures EVENT + " message" == "event: message" && DATA + " " + p == "data: " + p
  {
  }

  lemma {:induction false} FrameAt(payloads: seq<string>, k: nat, part: nat)
    requires k < |payloads| && part < 3
    ensures Frames(payloads)[3 * k + part] == FrameLine(payloads[k], part)
  {
    assert (3 * k + part) / 3 == k && (3 * k + part) % 3 == part;
  }

  lemma {:induction false} FrameCandidate(payloads: seq<string>, k: nat, part: nat)
    requires k < |payloads| && part < 3
    ensures Candidate(Frames(payloads), 3 * k + part) <==> part == 1 && !Blank(payloads[k])
    ensures part == 1 ==> Payload(Frames(payloads)[3 * k + part]) == TrimSpace(payloads[k])
  {
    FrameAt(payloads, k, part);
    if part == 1 {
      FrameAt(payloads, k, 0);
      FramedData(Frames(payloads), 3 * k + 1, payloads[k]);
    } else {
      LiteralFrame(payloads[k]);
      OtherLine(Frames(payloads), 3 * k + part);
    }
  }

  lemma {:induction false} FramedData(lines: seq<string>, i: nat, p: string)
    requires 1 <= i < |lines| && lines[i - 1] == "event: message" && lines[i] == "data: " + p
    ensures Candidate(lines, i) <==> !Blank(p)
    ensures Payload(lines[i]) == TrimSpace(p)
  {
    LiteralFrame(p);
    DataLine(lines, i, p);
  }

  lemma {:induction false} OtherLine(lines: seq<string>, i: nat)
    requires i < |lines| && (lines[i] == EVENT + " message" || lines[i] == "")
    ensures !Candidate(lines, i)
  {
    assert !HasPrefix(lines[i], DATA) by { assert lines[i] == "" || lines[i][0] == 'e'; }
  }

  lemma {:induction false} NoLater(payloads: seq<string>, k: nat, j: nat)
    requires 3 * k + 1 < j < 3 * |payloads| && forall i :: k < i < |payloads| ==> Blank(payloads[i])
    ensures !Candidate(Frames(payloads), j)
  {
    var q, part := Third(j, k, |payloads|);
    FrameCandidate(payloads, q, part);
  }

  /** Which frame a line is in, and which of its lines it is. */
  lemma {:induction false} Third(j: nat, k: nat, n: nat) returns (q: nat, part: nat)
    requires 3 * k + 1 < j < 3 * n
    ensures j == 3 * q + part && part < 3 && q < n && (part == 1 ==> q > k)
  {
    q, part := j / 3, j % 3;
  }

  /** What was framed is read back: the last payload that is not blank, trimmed. */
  lemma {:induction false} FramesRoundTrip(payloads: seq<string>, k: nat)
    requires k < |payloads| && !Blank(payloads[k]) && forall j :: k < j < |payloads| ==> Blank(payloads[j])
    ensures IsAnswer(Frames(payloads), 3 * |payloads|, Some(TrimSpace(payloads[k])))
  {
    var i := 3 * k + 1;
    FrameCandidate(payloads, k, 1);
    forall j | i < j < 3 * |payloads| ensures !Candidate(Frames(payloads), j) { NoLater(payloads, k, j); }
  }
}
