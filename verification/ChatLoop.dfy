/** `citadel chat`: the conversation that is kept, and resent, across answers, errors and interrupts. */
module ChatLoop {
  import opened Prelude
  import opened Text

  datatype Message = User(content: string) | Assistant(content: string)

  datatype Chunk = Chunk(reasoning: string, content: string)

  /** How a reply's stream failed. */
  datatype Failure = Canceled | Otherwise

  /**
   One read at the prompt, with what the engine streams back should the line be sent, how the stream fails
   and whether the request was interrupted by then.
   */
  datatype Read = Line(text: string, reply: seq<Chunk>, failure: Option<Failure>, interrupted: bool) | Eof | BadRead

  /** strings.ToLower as far as the exit words need it: ASCII, and the dotted capital I. */
  function Lower(c: char): char {
    if 'A' <= c <= 'Z' then (c as int + 32) as char else if c == '\U{130}' then 'i' else c
  }

  function ToLower(s: string): string {
    seq(|s|, i requires 0 <= i < |s| => Lower(s[i]))
  }

  predicate ExitWord(input: string) {
    ToLower(input) in {"/exit", "/quit", "exit", "quit", ":q"}
  }

  /** `s` is `w` in whatever case; a capital I may have its dot. */
  predicate SameWord(s: string, w: string) {
    && |s| == |w|
    && forall i :: 0 <= i < |s| ==>
         || s[i] == w[i]
         || ('a' <= w[i] <= 'z' && s[i] as int + 32 == w[i] as int)
         || (w[i] == 'i' && s[i] == '\U{130}')
  }

  lemma {:induction false} LowerIs(s: string, w: string)
    requires forall i :: 0 <= i < |w| ==> 'a' <= w[i] <= 'z' || w[i] in {'/', ':'}
    ensures ToLower(s) == w <==> SameWord(s, w)
  {
    if SameWord(s, w) {
      forall i | 0 <= i < |s| ensures ToLower(s)[i] == w[i] {}
    }
    if ToLower(s) == w {
      forall i | 0 <= i < |s| ensures Lower(s[i]) == w[i] { assert ToLower(s)[i] == w[i]; }
    }
  }

  /** What leaves the session: the end of the input, a failed read, or one of five words between blanks, in any case. */
  lemma {:induction false} LeavesIff(r: Read)
    ensures Leaves(r) <==>
              r.Line? ==>
                exists a, s, b ::
                  && Blank(a) && Blank(b) && r.text == a + s + b
                  && (SameWord(s, "/exit") || SameWord(s, "/quit") || SameWord(s, "exit") || SameWord(s, "quit")
                      || SameWord(s, ":q"))
  {
    if r.Line? {
      LowerWords(TrimSpace(r.text));
      if Leaves(r) {
        var a, b := TrimSplits(r.text);
        assert r.text == a + TrimSpace(r.text) + b;
      }
      if a, s, b :| Blank(a) && Blank(b) && r.text == a + s + b && AnyWord(s) {
        WordIsTight(s);
        TrimOf(a, s, b);
      }
    }
  }

  predicate AnyWord(s: string) {
    SameWord(s, "/exit") || SameWord(s, "/quit") || SameWord(s, "exit") || SameWord(s, "quit") || SameWord(s, ":q")
  }

  lemma {:induction false} LowerWords(s: string)
    ensures ExitWord(s) <==> AnyWord(s)
  {
    LowerIs(s, "/exit");
    LowerIs(s, "/quit");
    LowerIs(s, "exit");
    LowerIs(s, "quit");
    LowerIs(s, ":q");
  }

  lemma {:induction false} WordIsTight(s: string)
    requires AnyWord(s)
    ensures s != "" && Tight(s)
  {
  }

  predicate Leaves(r: Read) {
    !r.Line? || (TrimSpace(r.text) != "" && ExitWord(TrimSpace(r.text)))
  }

  function Answer(reply: seq<Chunk>): string {
    if reply == [] then "" else Answer(reply[..|reply| - 1]) + reply[|reply| - 1].content
  }

  /** What a read adds to the history: a whole exchange, or nothing. */
  function Exchange(r: Read): seq<Message> {
    if Leaves(r) || TrimSpace(r.text) == "" || Answer(r.reply) == "" then []
    else [User(TrimSpace(r.text)), Assistant(Answer(r.reply))]
  }

  function History(inputs: seq<Read>): seq<Message> {
    if inputs == [] then [] else History(inputs[..|inputs| - 1]) + Exchange(inputs[|inputs| - 1])
  }

  /** The line is worth sending. */
  predicate Sends(r: Read) {
    !Leaves(r) && TrimSpace(r.text) != ""
  }

  /** The requests made: each resends the history so far with the line just read. */
  function Requests(inputs: seq<Read>): seq<seq<Message>> {
    if inputs == [] then []
    else
      var init, r := inputs[..|inputs| - 1], inputs[|inputs| - 1];
      Requests(init) + if Sends(r) then [History(init) + [User(TrimSpace(r.text))]] else []
  }

  /** How many reads the session survives. */
  function Stay(inputs: seq<Read>): (k: nat)
    ensures k <= |inputs| && (k < |inputs| ==> Leaves(inputs[k]))
    ensures forall i :: 0 <= i < k ==> !Leaves(inputs[i])
  {
    if inputs == [] || Leaves(inputs[0]) then 0 else 1 + Stay(inputs[1..])
  }

  /** The loop, up to the read that leaves it or as far as `inputs` goes. */
  method Chat(inputs: seq<Read>) returns (messages: seq<Message>, sent: seq<seq<Message>>)
    ensures messages == History(inputs[..Stay(inputs)]) && sent == Requests(inputs[..Stay(inputs)])
  {
    messages, sent := [], [];
    var k := 0;
    while k < |inputs|
      invariant k <= |inputs| && Stay(inputs) == k + Stay(inputs[k..])
      invariant messages == History(inputs[..k]) && sent == Requests(inputs[..k])
    {
      var r := inputs[k];
      NextRead(inputs, k);
      if !r.Line? { return; }
      var input := TrimSpace(r.text);
      if input != "" {
        if ExitWord(input) { return; }
        var asked;
        asked, messages := Turn(messages, r);
        sent := sent + [asked];
      }
      k := k + 1;
    }
  }

  lemma {:induction false} NextRead(inputs: seq<Read>, k: nat)
    requires k < |inputs|
    ensures Leaves(inputs[k]) ==> Stay(inputs[k..]) == 0
    ensures !Leaves(inputs[k]) ==> Stay(inputs[k..]) == 1 + Stay(inputs[k + 1..])
    ensures History(inputs[..k + 1]) == History(inputs[..k]) + Exchange(inputs[k])
    ensures Requests(inputs[..k + 1]) ==
            Requests(inputs[..k]) +
            if Sends(inputs[k]) then [History(inputs[..k]) + [User(TrimSpace(inputs[k].text))]] else []
  {
    assert inputs[..k + 1][..k] == inputs[..k];
    assert inputs[k..][0] == inputs[k] && inputs[k..][1..] == inputs[k + 1..];
  }

  /** One exchange: the request that is made, and the history it leaves. */
  method Turn(history: seq<Message>, r: Read) returns (asked: seq<Message>, messages: seq<Message>)
    requires Sends(r)
    ensures asked == history + [User(TrimSpace(r.text))] && messages == history + Exchange(r)
  {
    messages := history + [User(TrimSpace(r.text))];
    asked := messages;
    var started, answer := Receive(r.reply);
    var done := r.interrupted;
    done := true; // the request is cancelled whether it was interrupted or not, and only then looked at
    messages := Close(messages, r.failure, done, started, answer);
  }

  /**
   After the stream: a failure that is no cancellation drops the turn while the context is not done, and so
   does an answer without content.
   */
  method Close(asked: seq<Message>, failure: Option<Failure>, done: bool, started: bool, answer: string)
    returns (messages: seq<Message>)
    requires asked != [] && (started <==> answer != "")
    ensures messages ==
            if (failure == Some(Otherwise) && !done) || answer == "" then asked[..|asked| - 1]
            else asked + [Assistant(answer)]
  {
    messages := asked;
    if failure.Some? && !(failure.value == Canceled || done) {
      return messages[..|messages| - 1];
    }
    if started && |answer| > 0 {
      messages := messages + [Assistant(answer)];
    } else {
      messages := messages[..|messages| - 1];
    }
  }

  /** The stream callback: reasoning is shown, only content is kept. */
  method Receive(reply: seq<Chunk>) returns (started: bool, answer: string)
    ensures answer == Answer(reply) && (started <==> answer != "")
  {
    started, answer := false, "";
    for i := 0 to |reply|
      invariant answer == Answer(reply[..i]) && (started <==> answer != "")
    {
      assert reply[..i + 1][..i] == reply[..i];
      if reply[i].content != "" {
        started := true;
        answer := answer + reply[i].content;
      }
    }
    assert reply[..|reply|] == reply;
  }

  /** User and assistant in strict turns, ending on an answer, with nothing blank on either side. */
  predicate Alternates(h: seq<Message>) {
    && |h| % 2 == 0
    && forall i :: 0 <= i < |h| ==>
         if i % 2 == 0 then h[i].User? && !Blank(h[i].content) else h[i].Assistant? && h[i].content != ""
  }

  /** At every prompt of every session the history alternates. */
  lemma {:induction false} HistoryAlternates(inputs: seq<Read>)
    ensures Alternates(History(inputs))
  {
    if inputs != [] {
      var r := inputs[|inputs| - 1];
      HistoryAlternates(inputs[..|inputs| - 1]);
      if Exchange(r) != [] {
        var h := History(inputs[..|inputs| - 1]);
        TrimKeeps(r.text);
        assert forall i :: |h| <= i < |h| + 2 ==> (h + Exchange(r))[i] == Exchange(r)[i - |h|];
      }
    }
  }

  /** Every request is such a history with one user turn on top. */
  lemma {:induction false} RequestsEndOnUser(inputs: seq<Read>, j: nat)
    requires j < |Requests(inputs)|
    ensures var q := Requests(inputs)[j];
            q != [] && q[|q| - 1].User? && !Blank(q[|q| - 1].content) && Alternates(q[..|q| - 1])
    ensures exists i :: 0 <= i < |inputs| && Sends(inputs[i]) &&
                        Requests(inputs)[j] == History(inputs[..i]) + [User(TrimSpace(inputs[i].text))]
  {
    var init, r := inputs[..|inputs| - 1], inputs[|inputs| - 1];
    if j < |Requests(init)| {
      RequestsEndOnUser(init, j);
      var i :| 0 <= i < |init| && Sends(init[i]) &&
               Requests(init)[j] == History(init[..i]) + [User(TrimSpace(init[i].text))];
      assert inputs[i] == init[i] && inputs[..i] == init[..i];
    } else {
      HistoryAlternates(init);
      TrimKeeps(r.text);
      assert (History(init) + [User(TrimSpace(r.text))])[..|History(init)|] == History(init);
    }
  }

  lemma {:induction false} TrimKeeps(s: string)
    ensures TrimSpace(s) != "" ==> !Blank(TrimSpace(s))
  {
    TrimLeftStart(s);
    var l := TrimLeft(s);
    if l != "" { TrimRightFirst(l); }
  }

  lemma {:induction false} TrimRightFirst(s: string)
    requires s != "" && !IsSpace(s[0])
    ensures TrimRight(s) != "" && TrimRight(s)[0] == s[0]
  {
    if IsSpace(s[|s| - 1]) { TrimRightFirst(s[..|s| - 1]); }
  }

  /**
   A turn is dropped exactly if no content arrived, however the stream ended. Otherwise it stays with all the
   content there was, and reasoning never counts.
   */
  lemma {:induction false} ReplyKept(inputs: seq<Read>, r: Read, shown: seq<Chunk>)
    requires Sends(r)
    requires |shown| == |r.reply| && forall i :: 0 <= i < |shown| ==> shown[i].content == r.reply[i].content
    ensures History(inputs + [r]) == History(inputs) <==> forall i :: 0 <= i < |shown| ==> shown[i].content == ""
    ensures History(inputs + [r]) != History(inputs) ==>
              History(inputs + [r]) == History(inputs) + [User(TrimSpace(r.text)), Assistant(Answer(shown))]
  {
    assert (inputs + [r])[..|inputs|] == inputs;
    SameContent(r.reply, shown);
    AnswerEmptyIff(shown);
  }

  /** The answer a read adds to a history, empty if it adds none. */
  function Said(inputs: seq<Read>, r: Read, reply: seq<Chunk>): string
    requires r.Line?
  {
    var h := History(inputs + [r.(reply := reply)]);
    if |h| <= |History(inputs)| then "" else h[|h| - 1].content
  }

  lemma {:induction false} SaidIs(inputs: seq<Read>, r: Read, reply: seq<Chunk>)
    requires Sends(r)
    ensures Said(inputs, r, reply) == Answer(reply)
  {
    var x := r.(reply := reply);
    assert (inputs + [x])[..|inputs|] == inputs && (inputs + [x])[|inputs|] == x;
    assert Leaves(x) <==> Leaves(r);
  }

  lemma {:induction false} AnswerConcat(a: seq<Chunk>, b: seq<Chunk>)
    ensures Answer(a + b) == Answer(a) + Answer(b)
  {
    if b == [] {
      assert a + b == a;
    } else {
      var init := b[..|b| - 1];
      assert (a + b)[..|a + b| - 1] == a + init;
      AnswerConcat(a, init);
    }
  }

  /** The answer kept is the content of the chunks in the order they arrived. */
  lemma {:induction false} KeptInOrder(inputs: seq<Read>, r: Read, a: seq<Chunk>, c: Chunk, b: seq<Chunk>)
    requires Sends(r)
    ensures Said(inputs, r, [c]) == c.content
    ensures Said(inputs, r, a + b) == Said(inputs, r, a) + Said(inputs, r, b)
  {
    SaidIs(inputs, r, [c]);
    SaidIs(inputs, r, a);
    SaidIs(inputs, r, b);
    SaidIs(inputs, r, a + b);
    AnswerConcat(a, b);
    assert [c][..0] == [];
  }

  lemma {:induction false} AnswerEmptyIff(reply: seq<Chunk>)
    ensures Answer(reply) == "" <==> forall i :: 0 <= i < |reply| ==> reply[i].content == ""
  {
    if reply != [] { AnswerEmptyIff(reply[..|reply| - 1]); }
  }

  // ---- failures that are no interrupts ----

  /** What a read was meant to add: a failed reply drops the turn unless the request was interrupted. */
  function Meant(r: Read): seq<Message> {
    if r.Line? && r.failure == Some(Otherwise) && !r.interrupted then [] else Exchange(r)
  }

  function MeantHistory(inputs: seq<Read>): seq<Message> {
    if inputs == [] then [] else MeantHistory(inputs[..|inputs| - 1]) + Meant(inputs[|inputs| - 1])
  }

  /** The stream failed by itself after some content. */
  predicate FailsLate(r: Read) {
    && Sends(r) && r.failure == Some(Otherwise) && !r.interrupted
    && exists i :: 0 <= i < |r.reply| && r.reply[i].content != ""
  }

  lemma {:induction false} LateOne(r: Read)
    ensures Exchange(r) == Meant(r) <==> !FailsLate(r)
    ensures Exchange(r) != Meant(r) ==> |Meant(r)| < |Exchange(r)|
  {
    if r.Line? { AnswerEmptyIff(r.reply); }
  }

  /**
   The request is cancelled before its context is looked at, so every failure passes for an interrupt: the
   history is the one that was meant exactly if no reply failed by itself after some content, and longer
   otherwise.
   */
  lemma {:induction false} AsMeantIff(inputs: seq<Read>)
    ensures History(inputs) == MeantHistory(inputs) <==> forall i :: 0 <= i < |inputs| ==> !FailsLate(inputs[i])
    ensures History(inputs) != MeantHistory(inputs) ==> |MeantHistory(inputs)| < |History(inputs)|
  {
    if inputs != [] {
      var init, r := inputs[..|inputs| - 1], inputs[|inputs| - 1];
      AsMeantIff(init);
      LateOne(r);
      assert inputs == init + [r];
    }
  }

  /** A reply that breaks off after three letters. */
  const BREAKS := Line("hi", [Chunk("", "Hel")], Some(Otherwise), false)

  lemma {:induction false} BreaksExchange()
    ensures Sends(BREAKS) && TrimSpace(BREAKS.text) == "hi" && Exchange(BREAKS) == [User("hi"), Assistant("Hel")]
  {
    assert TrimLeft("hi") == "hi" && TrimRight("hi") == "hi";
    assert |ToLower("hi")| == 2 && ToLower("hi")[0] == 'h';
    assert !ExitWord("hi");
    var c := Chunk("", "Hel");
    assert [c][..0] == [];
    assert Answer([c]) == "Hel";
  }

  /** The request made after one exchange. */
  lemma {:induction false} SecondRequest(a: Read, b: Read)
    requires Sends(b)
    ensures History([a]) == Exchange(a)
    ensures Requests([a, b]) == Requests([a]) + [Exchange(a) + [User(TrimSpace(b.text))]]
  {
    assert [a][..0] == [] && [a, b][..1] == [a];
  }

  /** It stays in the history though it failed, and is resent with the next line. */
  lemma {:induction false} BrokenReplyKept(next: Read)
    requires Sends(next)
    ensures History([BREAKS]) == [User("hi"), Assistant("Hel")] && MeantHistory([BREAKS]) == []
    ensures [User("hi"), Assistant("Hel"), User(TrimSpace(next.text))] in Requests([BREAKS, next])
  {
    BreaksExchange();
    SecondRequest(BREAKS, next);
    var asked := Exchange(BREAKS) + [User(TrimSpace(next.text))];
    assert asked == [User("hi"), Assistant("Hel"), User(TrimSpace(next.text))];
    assert asked in [asked];
    assert [BREAKS][..0] == [];
  }

  lemma {:induction false} SameContent(a: seq<Chunk>, b: seq<Chunk>)
    requires |a| == |b| && forall i :: 0 <= i < |a| ==> a[i].content == b[i].content
    ensures Answer(a) == Answer(b)
  {
    if a != [] { SameContent(a[..|a| - 1], b[..|b| - 1]); }
  }
}
