/** Shutdown of the desktop app (desktop/app/app.go): Exit, doExit and runExitFuncs against concurrent
    calls of Exit and AddExitFunc. */
module AppExit {
  import opened Common

  datatype ExitPc =
    | Calling                          // before the compare-and-swap
    | Waiting                          // the winner, in doExit's select
    | Closing                          // past the select, before exited is set
    | Returned(exiting: bool)

  // the goroutine of runExitFuncs
  datatype Runner =
    | NotStarted
    | Starting(todo: seq<nat>)         // ranging over the functions, under muExitFuncs
    | Joining                          // waiting for the group
    | Finished                         // ch is closed

  datatype FuncRun = FuncRun(func: nat, done: bool)

  datatype State = State(
    exitFuncs: seq<nat>, nextFunc: nat,
    hasExited: bool, exits: seq<ExitPc>,
    runner: Runner,
    running: seq<FuncRun>,             // one goroutine per started function
    waitCount: int,                    // wg
    timerFired: bool,
    exitedSets: nat,
    snapshot: seq<nat>)                // history: the functions runExitFuncs found

  function Init(): State {
    State([], 0, false, [], NotStarted, [], 0, false, 0, [])
  }

  datatype Action =
    | AddExitFunc | CallExit
    | Swap(e: nat)                     // the compare-and-swap on hasExited
    | Collect                          // the functions are counted, under the read lock
    | StartOne                         // one function's goroutine is started
    | FuncDone(r: nat)                 // a function returns and is counted down
    | JoinDone                         // the wait returns and the goroutine closes its channel
    | Fire                             // the 10 second timer
    | Proceed(e: nat)                  // the select
    | SetExited(e: nat)

  predicate Enabled(s: State, a: Action) {
    match a
    case AddExitFunc => !s.runner.Starting?       // muExitFuncs
    case CallExit => true
    case Swap(e) => e < |s.exits| && s.exits[e].Calling?
    case Collect => s.runner.NotStarted? && s.hasExited
    case StartOne => s.runner.Starting? && s.runner.todo != []
    case FuncDone(r) => r < |s.running| && !s.running[r].done
    case JoinDone => s.runner.Joining? && s.waitCount == 0
    case Fire => true
    case Proceed(e) => e < |s.exits| && s.exits[e].Waiting? && (s.runner.Finished? || s.timerFired)
    case SetExited(e) => e < |s.exits| && s.exits[e].Closing?
  }

  function AfterCollect(todo: seq<nat>): Runner {
    if todo == [] then Joining else Starting(todo)
  }

  function Apply(s: State, a: Action): State
    requires Enabled(s, a)
  {
    match a
    case AddExitFunc => s.(exitFuncs := s.exitFuncs + [s.nextFunc], nextFunc := s.nextFunc + 1)
    case CallExit => s.(exits := s.exits + [Calling])
    case Swap(e) =>
      if s.hasExited then s.(exits := s.exits[e := Returned(false)])
      else s.(hasExited := true, exits := s.exits[e := Waiting])
    case Collect =>
      s.(snapshot := s.exitFuncs, waitCount := s.waitCount + |s.exitFuncs|, runner := AfterCollect(s.exitFuncs))
    case StartOne =>
      s.(running := s.running + [FuncRun(s.runner.todo[0], false)], runner := AfterCollect(s.runner.todo[1..]))
    case FuncDone(r) => s.(running := s.running[r := s.running[r].(done := true)], waitCount := s.waitCount - 1)
    case JoinDone => s.(runner := Finished)
    case Fire => s.(timerFired := true)
    case Proceed(e) => s.(exits := s.exits[e := Closing])
    case SetExited(e) => s.(exits := s.exits[e := Returned(true)], exitedSets := s.exitedSets + 1)
  }

  ghost predicate Next(s: State, a: Action, t: State) {
    Enabled(s, a) && t == Apply(s, a)
  }

  ghost predicate Reachable(s: State) {
    exists acts :: Run(Next, Init(), acts, s)
  }

  // Invariant ////////////////////////////////////////////////////////////////////////////////////

  predicate Won(pc: ExitPc) {
    pc.Waiting? || pc.Closing? || pc == Returned(true)
  }

  predicate Past(pc: ExitPc) {
    pc.Closing? || pc == Returned(true)
  }

  function Pending(running: seq<FuncRun>): nat {
    if running == [] then 0
    else Pending(running[..|running| - 1]) + if running[|running| - 1].done then 0 else 1
  }

  function Funcs(running: seq<FuncRun>): seq<nat> {
    seq(|running|, r requires 0 <= r < |running| => running[r].func)
  }

  function Todo(s: State): seq<nat> {
    if s.runner.Starting? then s.runner.todo else []
  }

  ghost predicate OneWinner(s: State) {
    && (forall d, e :: 0 <= d < e < |s.exits| ==> !(Won(s.exits[d]) && Won(s.exits[e])))
    && (s.hasExited <==> exists e :: 0 <= e < |s.exits| && Won(s.exits[e]))
    && s.exitedSets <= 1
    && (s.exitedSets == 1 <==> exists e :: 0 <= e < |s.exits| && s.exits[e] == Returned(true))
  }

  ghost predicate RunsEachOnce(s: State) {
    && (forall i, j :: 0 <= i < j < |s.exitFuncs| ==> s.exitFuncs[i] < s.exitFuncs[j])
    && (forall i :: 0 <= i < |s.exitFuncs| ==> s.exitFuncs[i] < s.nextFunc)
    && s.snapshot <= s.exitFuncs
    && (s.runner.NotStarted? ==> s.running == [] && s.waitCount == 0 && s.snapshot == [])
    && (!s.runner.NotStarted? ==> Funcs(s.running) + Todo(s) == s.snapshot)
    && s.waitCount == Pending(s.running) + |Todo(s)|
    && (s.runner.Finished? ==> Pending(s.running) == 0)
    && (s.runner.Starting? ==> s.runner.todo != [])
    && (!s.runner.NotStarted? ==> s.hasExited)
    && (forall e :: 0 <= e < |s.exits| && Past(s.exits[e]) ==> s.runner.Finished? || s.timerFired)
  }

  ghost predicate Inv(s: State) {
    OneWinner(s) && RunsEachOnce(s)
  }

  lemma ExitStepKeepsOneWinner(s: State, a: Action, e: nat)
    requires OneWinner(s) && Enabled(s, a) && (a.Swap? || a.Proceed? || a.SetExited?) && e == a.e
    ensures OneWinner(Apply(s, a))
  {
    var t := Apply(s, a);
    assert forall d :: 0 <= d < |s.exits| && d != e ==> t.exits[d] == s.exits[d];
    assert Won(t.exits[e]) || t.exits[e] == Returned(false);
  }

  lemma StepKeepsOneWinner(s: State, a: Action)
    requires OneWinner(s) && Enabled(s, a)
    ensures OneWinner(Apply(s, a))
  {
    var t := Apply(s, a);
    if a.CallExit? {
      assert forall e :: 0 <= e < |s.exits| ==> t.exits[e] == s.exits[e];
    } else if a.Swap? || a.Proceed? || a.SetExited? {
      ExitStepKeepsOneWinner(s, a, a.e);
    }
  }

  lemma {:induction false} PendingDone(running: seq<FuncRun>, r: nat)
    requires r < |running| && !running[r].done
    ensures Pending(running[r := running[r].(done := true)]) == Pending(running) - 1
    ensures Pending(running) > 0
  {
    var init, t := running[..|running| - 1], running[r := running[r].(done := true)];
    if r == |running| - 1 {
      assert t[..|t| - 1] == init;
    } else {
      assert t[..|t| - 1] == init[r := running[r].(done := true)];
      PendingDone(init, r);
    }
  }

  lemma StartOneKeepsRuns(s: State)
    requires RunsEachOnce(s) && Enabled(s, StartOne)
    ensures RunsEachOnce(Apply(s, StartOne))
  {
    var t := Apply(s, StartOne);
    assert t.running[..|s.running|] == s.running;
    assert s.runner.todo == [s.runner.todo[0]] + s.runner.todo[1..];
    assert Funcs(t.running) == Funcs(s.running) + [s.runner.todo[0]];
    assert Todo(t) == s.runner.todo[1..];
  }

  lemma FuncDoneKeepsRuns(s: State, r: nat)
    requires RunsEachOnce(s) && Enabled(s, FuncDone(r))
    ensures RunsEachOnce(Apply(s, FuncDone(r)))
  {
    PendingDone(s.running, r);
    assert Funcs(Apply(s, FuncDone(r)).running) == Funcs(s.running);
  }

  lemma CollectKeepsRuns(s: State)
    requires RunsEachOnce(s) && Enabled(s, Collect)
    ensures RunsEachOnce(Apply(s, Collect))
  {
    var t := Apply(s, Collect);
    assert Funcs(t.running) + Todo(t) == s.exitFuncs;
  }

  lemma ExitsKeepRuns(s: State, a: Action)
    requires RunsEachOnce(s) && OneWinner(s) && Enabled(s, a)
    requires a.CallExit? || a.Swap? || a.Proceed? || a.SetExited? || a.Fire? || a.JoinDone? || a.AddExitFunc?
    ensures RunsEachOnce(Apply(s, a))
  {
    var t := Apply(s, a);
    assert t.running == s.running && Todo(t) == Todo(s) && t.snapshot == s.snapshot;
  }

  lemma StepKeepsRunsEachOnce(s: State, a: Action)
    requires RunsEachOnce(s) && OneWinner(s) && Enabled(s, a)
    ensures RunsEachOnce(Apply(s, a))
  {
    match a
    case StartOne => StartOneKeepsRuns(s);
    case FuncDone(r) => FuncDoneKeepsRuns(s, r);
    case Collect => CollectKeepsRuns(s);
    case _ => ExitsKeepRuns(s, a);
  }

  lemma ReachableInv(s: State)
    requires Reachable(s)
    ensures Inv(s)
  {
    var acts :| Run(Next, Init(), acts, s);
    forall x, a, y | Inv(x) && Next(x, a, y) ensures Inv(y) {
      StepKeepsOneWinner(x, a);
      StepKeepsRunsEachOnce(x, a);
    }
    RunKeeps(Next, Inv, Init(), acts, s);
  }

  // What holds of every run /////////////////////////////////////////////////////////////////////////

  /** At most one Exit ever returns true; when all calls have returned, and there was one, exactly one did. */
  lemma ExactlyOneExitReturnsTrue(s: State)
    requires Reachable(s)
    ensures forall d, e :: 0 <= d < |s.exits| && 0 <= e < |s.exits| ==>
      s.exits[d] == Returned(true) && s.exits[e] == Returned(true) ==> d == e
    ensures s.exits != [] && (forall e :: 0 <= e < |s.exits| ==> s.exits[e].Returned?) ==>
      exists e :: 0 <= e < |s.exits| && s.exits[e] == Returned(true)
  {
    ReachableInv(s);
    LosersHaveAWinner(s);
    if s.exits != [] && forall e :: 0 <= e < |s.exits| ==> s.exits[e].Returned? {
      var e := 0;
      if s.exits[0] == Returned(false) {
        e :| 0 <= e < |s.exits| && Won(s.exits[e]);
      }
      assert s.exits[e] == Returned(true);
    }
  }

  /** A call that lost the swap did so because another had won it. */
  lemma LosersHaveAWinner(s: State)
    requires Reachable(s)
    ensures (exists e :: 0 <= e < |s.exits| && s.exits[e] == Returned(false)) ==>
      exists e :: 0 <= e < |s.exits| && Won(s.exits[e])
  {
    var acts :| Run(Next, Init(), acts, s);
    var lost := x => Inv(x) && ((exists e :: 0 <= e < |x.exits| && x.exits[e] == Returned(false)) ==> x.hasExited);
    forall x, a, y | lost(x) && Next(x, a, y) ensures lost(y) {
      StepKeepsOneWinner(x, a);
      StepKeepsRunsEachOnce(x, a);
    }
    RunKeeps(Next, lost, Init(), acts, s);
  }

  /** Every function present when runExitFuncs looked is started at most once, in order, and all of them
      once the goroutine is past its loop; functions added later are not started. */
  lemma EachFuncStartedOnce(s: State)
    requires Reachable(s)
    ensures Funcs(s.running) <= s.snapshot <= s.exitFuncs
    ensures s.runner.Joining? || s.runner.Finished? ==> Funcs(s.running) == s.snapshot
    ensures forall i, j :: 0 <= i < j < |s.running| ==> s.running[i].func != s.running[j].func
  {
    ReachableInv(s);
    assert forall i :: 0 <= i < |s.running| ==> Funcs(s.running)[i] == s.running[i].func;
    assert forall i :: 0 <= i < |s.running| && !s.runner.NotStarted? ==> s.snapshot[i] == s.exitFuncs[i];
  }

  /** exited is set at most once, and only after every one of those functions finished or the timer fired. */
  lemma ExitedSetOnceAndLast(s: State)
    requires Reachable(s)
    ensures s.exitedSets <= 1
    ensures s.exitedSets == 1 && !s.timerFired ==>
      Funcs(s.running) == s.snapshot && forall r :: 0 <= r < |s.running| ==> s.running[r].done
    ensures s.exitedSets == 1 <==> exists e :: 0 <= e < |s.exits| && s.exits[e] == Returned(true)
  {
    ReachableInv(s);
    if s.exitedSets == 1 && !s.timerFired {
      EachFuncStartedOnce(s);
      NonePending(s.running);
    }
  }

  lemma {:induction false} NonePending(running: seq<FuncRun>)
    requires Pending(running) == 0
    ensures forall r :: 0 <= r < |running| ==> running[r].done
  {
    if running != [] {
      NonePending(running[..|running| - 1]);
    }
  }

  /** The wait group never goes negative and cannot be passed early; the winner is never stuck, since
      the timer alone lets it go on. */
  lemma WinnerGoesOn(s: State, e: nat)
    requires Reachable(s) && e < |s.exits| && s.exits[e].Waiting?
    ensures s.waitCount >= 0
    ensures Enabled(Apply(s, Fire), Proceed(e))
    ensures s.runner.Joining? && s.waitCount == 0 ==> forall r :: 0 <= r < |s.running| ==> s.running[r].done
  {
    ReachableInv(s);
    if s.runner.Joining? && s.waitCount == 0 {
      NonePending(s.running);
    }
  }

  /** Nothing of an exit has happened before one is won. */
  lemma NothingBeforeExit(s: State)
    requires Reachable(s) && !s.hasExited
    ensures s.runner.NotStarted? && s.running == [] && s.snapshot == [] && s.waitCount == 0 && s.exitedSets == 0
  {
    ReachableInv(s);
  }

  // The app, updated in place ////////////////////////////////////////////////////////////////////////

  class App {
    var exitFuncs: seq<nat>
    var nextFunc: nat
    var hasExited: bool
    var exits: seq<ExitPc>
    var runner: Runner
    var running: seq<FuncRun>
    var waitCount: int
    var timerFired: bool
    var exitedSets: nat
    var snapshot: seq<nat>    // history

    ghost function View(): State
      reads this
    {
      State(exitFuncs, nextFunc, hasExited, exits, runner, running, waitCount, timerFired, exitedSets, snapshot)
    }

    constructor ()
      ensures View() == Init()
    {
      exitFuncs, nextFunc, hasExited, exits := [], 0, false, [];
      runner, running, waitCount := NotStarted, [], 0;
      timerFired, exitedSets, snapshot := false, 0, [];
    }

    /** Exit, while `late` functions are added after the snapshot and the first `finished` of the started
        ones return in time. Only the first call of all returns true; it starts exactly the functions
        that were there before it, each once, and sets exited once, after all of them returned or, if
        some did not, after the timer fired. Any other call changes nothing else. */
    method Exit(late: nat, finished: nat) returns (exiting: bool)
      requires Reachable(View()) && finished <= |exitFuncs|
      modifies this
      ensures Leads(Next, old(View()), View())
      ensures exiting == !old(hasExited) && hasExited && exits == old(exits) + [Returned(exiting)]
      ensures !exiting ==>
        && exitFuncs == old(exitFuncs) && running == old(running) && exitedSets == old(exitedSets)
        && runner == old(runner) && timerFired == old(timerFired)
      ensures exiting ==>
        && Funcs(running) == snapshot == old(exitFuncs) <= exitFuncs
        && |exitFuncs| == |old(exitFuncs)| + late && exitedSets == 1
        && (forall r :: 0 <= r < finished ==> running[r].done)
        && (timerFired || finished == |running|)
    {
      ghost var s := View();
      exiting := CallAndSwap();
      if !exiting {
        return;
      }
      NothingBeforeExit(s);
      ghost var won := View();
      RunExitFuncs(late, finished);
      LeadsThen(Next, s, won, View());
      ghost var ran := View();
      CloseExit(|exits| - 1, finished == |running|);
      LeadsThen(Next, s, ran, View());
    }

    // the goroutine of runExitFuncs, as far as it gets
    method RunExitFuncs(late: nat, finished: nat)
      requires Enabled(View(), Collect) && running == [] && waitCount == 0 && finished <= |exitFuncs|
      modifies this`snapshot, this`waitCount, this`runner, this`running, this`exitFuncs, this`nextFunc
      ensures Leads(Next, old(View()), View()) && runner.Joining?
      ensures Funcs(running) == snapshot == old(exitFuncs) <= exitFuncs && |exitFuncs| == |old(exitFuncs)| + late
      ensures waitCount == |running| - finished && forall r :: 0 <= r < finished ==> running[r].done
    {
      ghost var s := View();
      StartExitFuncs();
      ghost var started := View();
      AddFuncs(late);
      LeadsThen(Next, s, started, View());
      ghost var added := View();
      EndFuncs(finished);
      LeadsThen(Next, s, added, View());
    }

    // the rest of doExit
    method CloseExit(e: nat, allDone: bool)
      requires e < |exits| && exits[e].Waiting? && runner.Joining? && (allDone ==> waitCount == 0)
      modifies this`runner, this`timerFired, this`exits, this`exitedSets
      ensures Leads(Next, old(View()), View())
      ensures exits == old(exits)[e := Returned(true)] && (timerFired || allDone) && exitedSets == old(exitedSets) + 1
    {
      ghost var s := View();
      LeaveSelect(e, allDone);
      ghost var left := View();
      FinishExit(e);
      LeadsStep(Next, s, left, SetExited(e), View());
    }

    // the compare-and-swap of one more call
    method CallAndSwap() returns (won: bool)
      modifies this`hasExited, this`exits
      ensures Leads(Next, old(View()), View())
      ensures won == !old(hasExited) && hasExited
      ensures exits == old(exits) + [if won then Waiting else Returned(false)]
    {
      ghost var s := View();
      var e := |exits|;
      exits := exits + [Calling];
      ghost var called := View();
      LeadsStart(Next, s);
      LeadsStep(Next, s, s, CallExit, called);
      won := !hasExited;
      hasExited := true;
      exits := exits[e := if won then Waiting else Returned(false)];
      LeadsStep(Next, s, called, Swap(e), View());
    }

    /** runExitFuncs up to wg.Wait, all under muExitFuncs: one start after the other, a run of the machine. */
    method StartExitFuncs()
      requires Enabled(View(), Collect) && running == []
      modifies this`snapshot, this`waitCount, this`runner, this`running
      ensures runner == Joining && snapshot == exitFuncs
      ensures Funcs(running) == exitFuncs && waitCount == old(waitCount) + |exitFuncs|
      ensures forall r :: 0 <= r < |running| ==> !running[r].done
      ensures Leads(Next, old(View()), View())
    {
      ghost var s := View();
      CollectFuncs();
      LeadsStart(Next, s);
      LeadsStep(Next, s, s, Collect, View());
      for k := 0 to |exitFuncs|
        invariant snapshot == exitFuncs && waitCount == old(waitCount) + |exitFuncs|
        invariant Funcs(running) == exitFuncs[..k]
        invariant forall r :: 0 <= r < |running| ==> !running[r].done
        invariant runner == AfterCollect(exitFuncs[k..])
        invariant Leads(Next, s, View())
      {
        ghost var before := View();
        assert exitFuncs[k..] == [exitFuncs[k]] + exitFuncs[k + 1..];
        StartNext(exitFuncs[k], exitFuncs[k + 1..]);
        LeadsStep(Next, s, before, StartOne, View());
      }
    }

    method CollectFuncs()
      requires Enabled(View(), Collect)
      modifies this`snapshot, this`waitCount, this`runner
      ensures View() == Apply(old(View()), Collect)
    {
      snapshot := exitFuncs;
      waitCount := waitCount + |exitFuncs|;
      runner := AfterCollect(exitFuncs);
    }

    // one turn of the loop
    method StartNext(f: nat, rest: seq<nat>)
      requires runner == AfterCollect([f] + rest)
      modifies this`running, this`runner
      ensures Enabled(old(View()), StartOne) && View() == Apply(old(View()), StartOne)
      ensures runner == AfterCollect(rest) && running == old(running) + [FuncRun(f, false)]
      ensures Funcs(running) == Funcs(old(running)) + [f]
    {
      assert ([f] + rest)[1..] == rest;
      running := running + [FuncRun(f, false)];
      runner := AfterCollect(rest);
      assert running[..|running| - 1] == old(running);
    }

    // `n` calls of AddExitFunc
    method AddFuncs(n: nat)
      requires !runner.Starting?
      modifies this`exitFuncs, this`nextFunc
      ensures old(exitFuncs) <= exitFuncs && |exitFuncs| == |old(exitFuncs)| + n
      ensures Leads(Next, old(View()), View())
    {
      ghost var s := View();
      LeadsStart(Next, s);
      for k := 0 to n
        invariant s.exitFuncs <= exitFuncs && |exitFuncs| == |s.exitFuncs| + k
        invariant Leads(Next, s, View())
      {
        ghost var before := View();
        exitFuncs := exitFuncs + [nextFunc];
        nextFunc := nextFunc + 1;
        LeadsStep(Next, s, before, AddExitFunc, View());
      }
    }

    // the first `n` started functions return, each counted down
    method EndFuncs(n: nat)
      requires n <= |running| && forall r :: 0 <= r < |running| ==> !running[r].done
      modifies this`running, this`waitCount
      ensures Leads(Next, old(View()), View())
      ensures Funcs(running) == Funcs(old(running)) && waitCount == old(waitCount) - n
      ensures forall r :: 0 <= r < n ==> running[r].done
    {
      ghost var s := View();
      LeadsStart(Next, s);
      for r := 0 to n
        invariant Leads(Next, s, View())
        invariant Funcs(running) == Funcs(s.running) && waitCount == s.waitCount - r
        invariant |running| == |s.running|
        invariant forall i :: 0 <= i < |running| ==> (running[i].done <==> i < r)
      {
        ghost var before := View();
        EndFunc(r);
        LeadsStep(Next, s, before, FuncDone(r), View());
      }
    }

    method EndFunc(r: nat)
      requires Enabled(View(), FuncDone(r))
      modifies this`running, this`waitCount
      ensures View() == Apply(old(View()), FuncDone(r)) && Funcs(running) == Funcs(old(running))
    {
      running := running[r := running[r].(done := true)];
      waitCount := waitCount - 1;
    }

    // the winner's select: the functions are done, or the timer fires
    method LeaveSelect(e: nat, allDone: bool)
      requires e < |exits| && exits[e].Waiting? && runner.Joining? && (allDone ==> waitCount == 0)
      modifies this`runner, this`timerFired, this`exits
      ensures Leads(Next, old(View()), View())
      ensures exits == old(exits)[e := Closing] && (timerFired || allDone)
    {
      ghost var s := View();
      LeadsStart(Next, s);
      if allDone {
        runner := Finished;
        LeadsStep(Next, s, s, JoinDone, View());
      } else {
        timerFired := true;
        LeadsStep(Next, s, s, Fire, View());
      }
      ghost var ready := View();
      exits := exits[e := Closing];
      LeadsStep(Next, s, ready, Proceed(e), View());
    }

    method FinishExit(e: nat)
      requires Enabled(View(), SetExited(e))
      modifies this`exitedSets, this`exits
      ensures View() == Apply(old(View()), SetExited(e)) && exits[e] == Returned(true)
    {
      exitedSets := exitedSets + 1;
      exits := exits[e := Returned(true)];
    }
  }
}
