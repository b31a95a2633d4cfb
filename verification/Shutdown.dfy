/**
 The bounded shutdown: every step runs in its own goroutine, and the caller waits for all of them or for
 the grace period, whichever comes first.

 One state machine step per atomic action: a step's function returns, its name is deleted from the
 pending map under the mutex, it leaves the wait group, the waiter closes the channel, and the select
 takes one of its two branches. The timer may fire at any time.
 */
module Shutdown {
  import opened Prelude

  datatype Stage = Working | Returned | Recorded | Left

  /** What the caller gets: nil, or the names still pending at the snapshot. */
  datatype Report = Nil | Stuck(names: set<string>)

  datatype State = State(stages: seq<Stage>, pending: set<string>, closed: bool, report: Option<Report>)

  datatype Move = Return(i: nat) | Record(i: nat) | Leave(i: nat) | Close | TakeDone | TakeTimeout

  function NamesOf(names: seq<string>): set<string> {
    set i | 0 <= i < |names| :: names[i]
  }

  /** No steps: the caller gets nil at once. */
  function Init(names: seq<string>): State {
    State(seq(|names|, _ => Working), NamesOf(names), false, if names == [] then Some(Nil) else None)
  }

  predicate Enabled(s: State, m: Move) {
    match m
    case Return(i) => i < |s.stages| && s.stages[i] == Working
    case Record(i) => i < |s.stages| && s.stages[i] == Returned
    case Leave(i) => i < |s.stages| && s.stages[i] == Recorded
    case Close => !s.closed && forall i :: 0 <= i < |s.stages| ==> s.stages[i] == Left
    case TakeDone => s.report.None? && s.closed
    case TakeTimeout => s.report.None?
  }

  function Next(names: seq<string>, s: State, m: Move): State
    requires |names| == |s.stages| && Enabled(s, m)
  {
    match m
    case Return(i) => s.(stages := s.stages[i := Returned])
    case Record(i) => s.(stages := s.stages[i := Recorded], pending := s.pending - {names[i]})
    case Leave(i) => s.(stages := s.stages[i := Left])
    case Close => s.(closed := true)
    case TakeDone => s.(report := Some(Nil))
    case TakeTimeout => s.(report := Some(Stuck(s.pending)))
  }

  ghost predicate IsRun(names: seq<string>, run: seq<State>, moves: seq<Move>) {
    && |run| == |moves| + 1 && run[0] == Init(names)
    && forall i :: 0 <= i < |moves| ==>
         |run[i].stages| == |names| && Enabled(run[i], moves[i]) && run[i + 1] == Next(names, run[i], moves[i])
  }

  /** The step's function has returned and its name has been crossed off. */
  predicate Finished(s: State, i: nat)
    requires i < |s.stages|
  {
    s.stages[i] == Recorded || s.stages[i] == Left
  }

  /** Some step of that name is finished. */
  predicate Crossed(names: seq<string>, s: State, name: string)
    requires |names| == |s.stages|
  {
    exists i :: 0 <= i < |names| && names[i] == name && Finished(s, i)
  }

  ghost predicate Inv(names: seq<string>, s: State) {
    && |s.stages| == |names|
    && (forall x :: x in s.pending <==> x in NamesOf(names) && !Crossed(names, s, x))
    && (s.closed ==> forall i :: 0 <= i < |s.stages| ==> s.stages[i] == Left)
    && (s.report == Some(Nil) ==> forall i :: 0 <= i < |s.stages| ==> s.stages[i] == Left)
  }

  lemma {:induction false} CrossedMono(names: seq<string>, s: State, m: Move, x: string)
    requires |names| == |s.stages| && Enabled(s, m)
    ensures Crossed(names, Next(names, s, m), x) <==> Crossed(names, s, x) || (m.Record? && names[m.i] == x)
  {
    var s' := Next(names, s, m);
    if Crossed(names, s, x) {
      var i :| 0 <= i < |names| && names[i] == x && Finished(s, i);
      assert Finished(s', i);
    }
    if m.Record? && names[m.i] == x { assert Finished(s', m.i); }
    if Crossed(names, s', x) {
      var i :| 0 <= i < |names| && names[i] == x && Finished(s', i);
      assert Finished(s, i) || (m.Record? && m.i == i);
    }
  }

  lemma {:induction false} InvStep(names: seq<string>, s: State, m: Move)
    requires Inv(names, s) && Enabled(s, m)
    ensures Inv(names, Next(names, s, m))
  {
    var s' := Next(names, s, m);
    forall x ensures x in s'.pending <==> x in NamesOf(names) && !Crossed(names, s', x) { CrossedMono(names, s, m, x); }
  }

  lemma {:induction false} InvInit(names: seq<string>)
    ensures Inv(names, Init(names))
  {
    forall x ensures !Crossed(names, Init(names), x) {}
  }

  lemma {:induction false} RunInv(names: seq<string>, run: seq<State>, moves: seq<Move>, k: nat)
    requires IsRun(names, run, moves) && k < |run|
    ensures Inv(names, run[k])
  {
    if k == 0 {
      InvInit(names);
    } else {
      RunInv(names, run, moves, k - 1);
      InvStep(names, run[k - 1], moves[k - 1]);
    }
  }

  /** In every schedule, the timeout reports a step's name exactly when no step of that name has finished. */
  lemma {:induction false} StuckIffNoneFinished(names: seq<string>, run: seq<State>, moves: seq<Move>, k: nat, i: nat)
    requires IsRun(names, run, moves) && k < |moves| && moves[k] == TakeTimeout && i < |names|
    ensures run[k + 1].report.Some? && run[k + 1].report.value.Stuck?
    ensures |run[k].stages| == |names|
    ensures names[i] in run[k + 1].report.value.names <==> !Crossed(names, run[k], names[i])
  {
    RunInv(names, run, moves, k);
    assert names[i] in NamesOf(names);
  }

  /**
   Under distinct names the timeout reports every step that has not returned, and none that is recorded
   as finished.
   */
  lemma {:induction false} TimeoutReport(names: seq<string>, run: seq<State>, moves: seq<Move>, k: nat, i: nat)
    requires IsRun(names, run, moves) && k < |moves| && moves[k] == TakeTimeout && i < |names|
    requires forall i, j :: 0 <= i < j < |names| ==> names[i] != names[j]
    ensures run[k + 1].report.Some? && run[k + 1].report.value.Stuck? && |run[k].stages| == |names|
    ensures names[i] in run[k + 1].report.value.names <==> !Finished(run[k], i)
    ensures run[k].stages[i] == Working ==> names[i] in run[k + 1].report.value.names
  {
    StuckIffNoneFinished(names, run, moves, k, i);
    if Finished(run[k], i) { assert Crossed(names, run[k], names[i]); }
  }

  /** Nil by way of the channel means that every step has finished; nothing more can be said to be stuck. */
  lemma {:induction false} NilMeansAllFinished(names: seq<string>, run: seq<State>, moves: seq<Move>, k: nat, i: nat)
    requires IsRun(names, run, moves) && k < |run| && run[k].report == Some(Nil) && i < |names|
    ensures |run[k].stages| == |names| && run[k].stages[i] == Left
  {
    RunInv(names, run, moves, k);
  }

  /** The report is given once. */
  lemma {:induction false} ReportStands(names: seq<string>, run: seq<State>, moves: seq<Move>, j: nat, k: nat)
    requires IsRun(names, run, moves) && j <= k < |run| && run[j].report.Some?
    ensures run[k].report == run[j].report
    decreases k
  {
    if j < k { ReportStands(names, run, moves, j, k - 1); }
  }

  /** Two steps of one name: the one that finishes hides the one that hangs. */
  lemma {:induction false} SharedNameHidesHang()
    ensures exists names: seq<string>, run: seq<State>, moves: seq<Move> ::
              && IsRun(names, run, moves) && |names| == 2
              && run[|run| - 1].stages == [Working, Left] && run[|run| - 1].report == Some(Stuck({}))
  {
    var names := ["vpn", "vpn"];
    var moves := [Return(1), Record(1), Leave(1), TakeTimeout];
    assert names[0] in NamesOf(names) && names[1] == "vpn";
    assert NamesOf(names) == {"vpn"};
    var s0 := Init(names);
    var s1 := Next(names, s0, moves[0]);
    var s2 := Next(names, s1, moves[1]);
    var s3 := Next(names, s2, moves[2]);
    var s4 := Next(names, s3, moves[3]);
    var run := [s0, s1, s2, s3, s4];
    assert s0.stages == [Working, Working];
    assert s1.stages == [Working, Returned] && s2.stages == [Working, Recorded];
    assert s3.stages == [Working, Left];
    assert s2.pending == {};
    assert s4.report == Some(Stuck({}));
    forall i | 0 <= i < |moves|
      ensures |run[i].stages| == |names| && Enabled(run[i], moves[i]) && run[i + 1] == Next(names, run[i], moves[i])
    {
      assert i == 0 || i == 1 || i == 2 || i == 3;
    }
    assert IsRun(names, run, moves) && |names| == 2;
    assert run[|run| - 1] == s4;
  }
}
