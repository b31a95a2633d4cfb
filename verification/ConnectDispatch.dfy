/**
 `citadel connect <node>` and `citadel ssh <node>`: the retry loop over the terminal endpoint, and when
 it may fall back to raw sshd.

 The network and the operator are oracles: `dial(k)` is how the k-th dial turns out and `answer(k)` what
 the k-th prompt reads. The loop's actions form a trace, and `Conforms` says which traces are right.
 */
module ConnectDispatch {
  import opened Prelude
  import opened Text

  datatype Flags = Flags(raw: bool, mesh: bool, userOrPort: bool, tmux: bool, noTmux: bool)

  /** The JSON error body of a response, None if it cannot be read. */
  datatype Body = Body(error: string, reason: string)

  datatype Response = Response(status: int, body: Option<Body>)

  /** A shell session that ends in an error, or a name that does not resolve, is `Other`. */
  datatype Dialed = Connected | Failed(response: Option<Response>, refused: bool) | Other

  datatype Kind = Plain | Unreachable | Passcode

  function Gate(r: Response): bool {
    r.body.Some? && (HasPrefix(r.body.value.reason, "passcode_") || r.body.value.error == "node passcode required")
  }

  /** remoteShellDialError. */
  function Classify(d: Dialed): Kind {
    match d
    case Failed(Some(r), _) => if r.status == 401 && Gate(r) then Passcode else Plain
    case Failed(None, refused) => if refused then Unreachable else Plain
    case _ => Plain
  }

  datatype Act = Dial(passcode: string, session: string, outcome: Dialed) | Prompt(got: Option<string>) | Raw

  datatype End =
    | Offline | Conflict | Session | DialError | Rejected(attempts: nat) | PromptFailed | RawSsh(ok: bool) | Exhausted

  const MAX_ATTEMPTS: nat := 3

  predicate Conflicting(f: Flags) {
    (f.raw && f.mesh) || (f.userOrPort && f.mesh) || (f.tmux && f.noTmux)
  }

  function SessionName(f: Flags): string {
    if f.tmux then "citadel" else "none"
  }

  // ---- which traces are right ----

  predicate ActOk(f: Flags, start: string, dial: nat -> Dialed, answer: nat -> Option<string>, t: seq<Act>, i: nat)
    requires i < |t|
  {
    match t[i]
    case Dial(passcode, session, outcome) =>
      // even positions: the first dial uses the configured passcode, each later one the answer just read
      && i % 2 == 0 && i / 2 < MAX_ATTEMPTS && session == SessionName(f) && outcome == dial(i / 2)
      && !f.raw && !f.userOrPort
      && (if i == 0 then passcode == start else t[i - 1] == Prompt(Some(passcode)))
    case Prompt(got) =>
      // odd positions: only a passcode challenge is answered, and only while an attempt is left
      i % 2 == 1 && i / 2 + 1 < MAX_ATTEMPTS && got == answer(i / 2) &&
      t[i - 1].Dial? && Classify(t[i - 1].outcome) == Passcode
    case Raw =>
      // the only action by choice, or the last one right after a refused dial
      && i == |t| - 1
      && (if i == 0 then f.raw || f.userOrPort
          else t[i - 1].Dial? && t[i - 1].outcome == Failed(None, true) && !f.mesh)
  }

  predicate Finished(f: Flags, t: seq<Act>, end: End) {
    if t == [] then end == Offline || end == Conflict
    else
      match t[|t| - 1]
      case Dial(_, _, Connected) => end == Session
      case Dial(_, _, o) =>
        (match Classify(o)
         case Passcode => |t| == 2 * MAX_ATTEMPTS - 1 && end == Rejected(MAX_ATTEMPTS)
         case Unreachable => f.mesh && end == DialError
         case Plain => end == DialError)
      case Prompt(got) => got.None? && end == PromptFailed
      case Raw => end.RawSsh?
  }

  predicate Conforms(online: bool, f: Flags, start: string, dial: nat -> Dialed, answer: nat -> Option<string>,
                     t: seq<Act>, end: End) {
    && (forall i :: 0 <= i < |t| ==> ActOk(f, start, dial, answer, t, i))
    && Finished(f, t, end)
    && (t == [] <==> !online || Conflicting(f))
    && (t == [] ==> end == if online then Conflict else Offline)
  }

  /** The dispatcher. */
  method ConnectToNode(online: bool, f: Flags, flagPasscode: string, envPasscode: string,
                       dial: nat -> Dialed, answer: nat -> Option<string>, rawOk: bool)
    returns (t: seq<Act>, end: End)
    ensures Conforms(online, f, if flagPasscode == "" then envPasscode else flagPasscode, dial, answer, t, end)
    ensures end.RawSsh? ==> end.ok == rawOk
  {
    t := [];
    if !online { return t, Offline; }
    if f.raw && f.mesh { return t, Conflict; }
    if f.userOrPort && f.mesh { return t, Conflict; }
    if f.tmux && f.noTmux { return t, Conflict; }
    if f.raw || f.userOrPort { return [Raw], RawSsh(rawOk); }
    var passcode := flagPasscode;
    if passcode == "" { passcode := envPasscode; }
    t, end := DialLoop(f, passcode, dial, answer, rawOk);
  }

  /** The loop over the terminal endpoint. */
  method DialLoop(f: Flags, start: string, dial: nat -> Dialed, answer: nat -> Option<string>, rawOk: bool)
    returns (t: seq<Act>, end: End)
    requires !f.raw && !f.userOrPort && !Conflicting(f)
    ensures Conforms(true, f, start, dial, answer, t, end)
    ensures end.RawSsh? ==> end.ok == rawOk
  {
    t := [];
    var passcode := start;
    for attempt := 1 to MAX_ATTEMPTS + 1
      invariant |t| == 2 * (attempt - 1)
      invariant forall i :: 0 <= i < |t| ==> ActOk(f, start, dial, answer, t, i) && !t[i].Raw?
      invariant if attempt == 1 then passcode == start else t[|t| - 1] == Prompt(Some(passcode))
      // the last attempt leaves the loop
      invariant attempt <= MAX_ATTEMPTS
    {
      var outcome := dial(attempt - 1);
      ghost var t0 := t;
      t := t + [Dial(passcode, SessionName(f), outcome)];
      Extend(f, start, dial, answer, t0, t[|t| - 1]);
      if outcome.Connected? { return t, Session; }
      match Classify(outcome) {
        case Passcode =>
          if attempt == MAX_ATTEMPTS { return t, Rejected(attempt); }
          var pc := answer(attempt - 1);
          ghost var t1 := t;
          t := t + [Prompt(pc)];
          Extend(f, start, dial, answer, t1, Prompt(pc));
          if pc.None? { return t, PromptFailed; }
          passcode := pc.value;
        case Unreachable =>
          if f.mesh { return t, DialError; }
          Extend(f, start, dial, answer, t, Raw);
          return t + [Raw], RawSsh(rawOk);
        case Plain => return t, DialError;
      }
    }
    assert false;
  }

  /** Adding an action that is right at the end keeps the earlier ones right. */
  lemma {:induction false} Extend(f: Flags, start: string, dial: nat -> Dialed, answer: nat -> Option<string>,
                                  t: seq<Act>, a: Act)
    requires forall i :: 0 <= i < |t| ==> ActOk(f, start, dial, answer, t, i) && !t[i].Raw?
    requires ActOk(f, start, dial, answer, t + [a], |t|)
    ensures forall i :: 0 <= i < |t + [a]| ==> ActOk(f, start, dial, answer, t + [a], i)
  {
    forall i | 0 <= i < |t| ensures ActOk(f, start, dial, answer, t + [a], i) {
      assert ActOk(f, start, dial, answer, t, i);
      assert (t + [a])[i] == t[i] && (i > 0 ==> (t + [a])[i - 1] == t[i - 1]);
    }
  }

  // ---- what a right trace promises ----

  function Dials(t: seq<Act>): nat {
    if t == [] then 0 else Dials(t[..|t| - 1]) + if t[|t| - 1].Dial? then 1 else 0
  }

  function Prompts(t: seq<Act>): nat {
    if t == [] then 0 else Prompts(t[..|t| - 1]) + if t[|t| - 1].Prompt? then 1 else 0
  }

  function Raws(t: seq<Act>): nat {
    if t == [] then 0 else Raws(t[..|t| - 1]) + if t[|t| - 1].Raw? then 1 else 0
  }

  lemma {:induction false} Counts(t: seq<Act>)
    requires forall i :: 0 <= i < |t| ==> (t[i].Dial? ==> i % 2 == 0 && i < 5) && (t[i].Prompt? ==> i % 2 == 1 && i < 4)
    ensures Dials(t) <= 3 && Dials(t) <= (|t| + 1) / 2 && Prompts(t) <= 2 && Prompts(t) <= |t| / 2
  {
    if t != [] { Counts(t[..|t| - 1]); }
  }

  lemma {:induction false} NoRaws(t: seq<Act>)
    requires forall i :: 0 <= i < |t| ==> !t[i].Raw?
    ensures Raws(t) == 0
  {
    if t != [] { NoRaws(t[..|t| - 1]); }
  }

  /** At most three dials, two prompts and one raw session, and the loop never runs dry. */
  lemma {:induction false} Bounds(online: bool, f: Flags, start: string, dial: nat -> Dialed,
                                  answer: nat -> Option<string>, t: seq<Act>, end: End)
    requires Conforms(online, f, start, dial, answer, t, end)
    ensures Dials(t) <= 3 && Prompts(t) <= 2 && Raws(t) <= 1 && end != Exhausted
    ensures Conflicting(f) ==> Dials(t) == 0
  {
    forall i | 0 <= i < |t|
      ensures (t[i].Dial? ==> i % 2 == 0 && i < 5) && (t[i].Prompt? ==> i % 2 == 1 && i < 4)
      ensures (t[i].Raw? ==> i == |t| - 1)
    {
      assert ActOk(f, start, dial, answer, t, i);
    }
    Counts(t);
    if t != [] { NoRaws(t[..|t| - 1]); }
  }

  /** A 401 from the passcode gate, told by its body. */
  predicate Challenges(d: Dialed) {
    && d.Failed? && d.response.Some? && d.response.value.status == 401 && d.response.value.body.Some?
    && var body := d.response.value.body.value;
       || body.error == "node passcode required"
       || (|body.reason| >= 9 && body.reason[..9] == "passcode_")
  }

  lemma {:induction false} ClassifyIs(d: Dialed)
    ensures Classify(d) == Passcode <==> Challenges(d)
    ensures Classify(d) == Unreachable <==> d == Failed(None, true)
  {
    if d.Failed? && d.response.Some? && d.response.value.body.Some? {
      var reason := d.response.value.body.value.reason;
      assert |"passcode_"| == 9;
      assert "passcode_" <= reason <==> |reason| >= 9 && reason[..9] == "passcode_";
    }
  }

  /**
   What follows a dial. A challenge is followed by a prompt, unless it is the third; a refused dial by raw
   sshd, unless only the mesh will do; any other ends the trace: with a session if it connected, and with
   its error if not, a response of any other kind included.
   */
  lemma {:induction false} AfterDial(online: bool, f: Flags, start: string, dial: nat -> Dialed,
                                     answer: nat -> Option<string>, t: seq<Act>, end: End, i: nat)
    requires Conforms(online, f, start, dial, answer, t, end) && i < |t| && t[i].Dial?
    ensures t[i].session == if f.tmux then "citadel" else "none"
    ensures var o, last := t[i].outcome, i == |t| - 1;
            if o.Connected? then last && end == Session
            else if Challenges(o) then
              if i < 4 then !last && t[i + 1] == Prompt(answer(i / 2)) else last && end == Rejected(3)
            else if o == Failed(None, true) then
              if f.mesh then last && end == DialError else i == |t| - 2 && t[i + 1] == Raw
            else last && end == DialError
  {
    ClassifyIs(t[i].outcome);
    assert ActOk(f, start, dial, answer, t, i);
    if i + 1 < |t| { assert ActOk(f, start, dial, answer, t, i + 1); }
  }

  /**
   What surrounds a prompt: before it a challenge, after it a dial with the passcode that was read, or,
   if none could be, the end.
   */
  lemma {:induction false} AroundPrompt(online: bool, f: Flags, start: string, dial: nat -> Dialed,
                                        answer: nat -> Option<string>, t: seq<Act>, end: End, i: nat)
    requires Conforms(online, f, start, dial, answer, t, end) && i < |t| && t[i].Prompt?
    ensures i > 0 && t[i - 1].Dial? && Challenges(t[i - 1].outcome)
    ensures if t[i].got.None? then i == |t| - 1 && end == PromptFailed
            else i + 1 < |t| && t[i + 1].Dial? && t[i + 1].passcode == t[i].got.value
  {
    assert ActOk(f, start, dial, answer, t, i);
    ClassifyIs(t[i - 1].outcome);
    if i + 1 < |t| { assert ActOk(f, start, dial, answer, t, i + 1); }
  }

  lemma {:induction false} NextAct(f: Flags, start: string, dial: nat -> Dialed, answer: nat -> Option<string>,
                                   t: seq<Act>, u: seq<Act>, end: End, k: nat)
    requires Conforms(true, f, start, dial, answer, t, end) && k < |t| && k < |u|
    requires forall i :: 0 <= i < |u| ==> ActOk(f, start, dial, answer, u, i)
    requires forall i :: 0 <= i < k ==> t[i] == u[i]
    ensures t[k] == u[k]
  {
    assert ActOk(f, start, dial, answer, t, k) && ActOk(f, start, dial, answer, u, k);
    if k > 0 {
      assert t[k - 1] == u[k - 1];
      assert ActOk(f, start, dial, answer, t, k - 1);
    }
  }

  /** A trace that goes on after `k` actions could not have ended there. */
  lemma {:induction false} GoesOn(f: Flags, start: string, dial: nat -> Dialed, answer: nat -> Option<string>,
                                  u: seq<Act>, k: nat, e: End)
    requires 0 < k < |u| && forall i :: 0 <= i < |u| ==> ActOk(f, start, dial, answer, u, i)
    ensures !Finished(f, u[..k], e)
  {
    assert ActOk(f, start, dial, answer, u, k) && ActOk(f, start, dial, answer, u, k - 1);
    assert u[..k][|u[..k]| - 1] == u[k - 1];
  }

  /** Neither of two right traces stops where the other goes on. */
  lemma {:induction false} SameEnd(f: Flags, start: string, dial: nat -> Dialed, answer: nat -> Option<string>,
                                   t: seq<Act>, u: seq<Act>, e: End, e': End)
    requires Conforms(true, f, start, dial, answer, t, e) && Conforms(true, f, start, dial, answer, u, e')
    requires |t| <= |u| && forall i :: 0 <= i < |t| ==> t[i] == u[i]
    ensures |t| == |u|
  {
    assert u[..|t|] == t;
    if 0 < |t| < |u| { GoesOn(f, start, dial, answer, u, |t|, e); }
  }

  /** The oracles decide the whole trace: whatever else satisfied the specification would act identically. */
  lemma {:induction false} OneTrace(f: Flags, start: string, dial: nat -> Dialed, answer: nat -> Option<string>,
                                    t: seq<Act>, u: seq<Act>, e: End, e': End, k: nat)
    requires Conforms(true, f, start, dial, answer, t, e) && Conforms(true, f, start, dial, answer, u, e')
    requires k <= |t| && k <= |u| && forall i :: 0 <= i < k ==> t[i] == u[i]
    ensures t == u
    decreases |t| - k
  {
    if k < |t| && k < |u| {
      NextAct(f, start, dial, answer, t, u, e, k);
      OneTrace(f, start, dial, answer, t, u, e, e', k + 1);
    } else if k == |t| {
      SameEnd(f, start, dial, answer, t, u, e, e');
    } else {
      SameEnd(f, start, dial, answer, u, t, e', e);
    }
  }
}
