/** The iOS dial pool: any number of Handle calls share maxConcurrentDials dialing goroutines through
    one unbuffered request channel; each request carries its own reply channels. */
module DialPool {
  import opened Common

  const MAX_CONCURRENT_DIALS: nat := 2

  datatype Outcome = Connected(conn: nat) | Failed(error: string)

  // `reply` stands for the pair of channels allocated for the request
  datatype Request = Request(addr: string, reply: nat)

  datatype CallPc =
    | Entered                    // before dialingConns is incremented
    | Requesting                 // blocked sending its request
    | Awaiting                   // blocked on the reply select
    | Answered(outcome: Outcome) // before dialingConns is decremented
    | Returned(outcome: Outcome)

  datatype Call = Call(req: Request, pc: CallPc)

  datatype WorkerPc = Idle | Dialing(req: Request, dial: nat) | Replying(req: Request, outcome: Outcome)

  // history: the dials ever made, and how each ended
  datatype Dial = Dial(req: Request, result: Option<Outcome>)

  datatype State = State(dialingConns: int, calls: seq<Call>, workers: seq<WorkerPc>, nextReply: nat, dials: seq<Dial>)

  function Init(): State {
    State(0, [], seq(MAX_CONCURRENT_DIALS, _ => Idle), 0, [])
  }

  datatype Action =
    | Enter(addr: string) | Count(c: nat) | Leave(c: nat)
    | HandOff(c: nat, w: nat)                 // the unbuffered send meets the receive
    | DialReturns(w: nat, outcome: Outcome)
    | Reply(w: nat, c: nat)                   // the reply meets the select

  predicate Enabled(s: State, a: Action) {
    match a
    case Enter(_) => true
    case Count(c) => c < |s.calls| && s.calls[c].pc.Entered?
    case HandOff(c, w) => c < |s.calls| && w < |s.workers| && s.calls[c].pc.Requesting? && s.workers[w].Idle?
    case DialReturns(w, _) => w < |s.workers| && s.workers[w].Dialing? && s.workers[w].dial < |s.dials|
    case Reply(w, c) =>
      && w < |s.workers| && c < |s.calls| && s.workers[w].Replying? && s.calls[c].pc.Awaiting?
      && s.workers[w].req.reply == s.calls[c].req.reply
    case Leave(c) => c < |s.calls| && s.calls[c].pc.Answered?
  }

  function SetCall(s: State, c: nat, pc: CallPc): seq<Call>
    requires c < |s.calls|
  {
    s.calls[c := s.calls[c].(pc := pc)]
  }

  function Apply(s: State, a: Action): State
    requires Enabled(s, a)
  {
    match a
    case Enter(addr) =>
      s.(calls := s.calls + [Call(Request(addr, s.nextReply), Entered)], nextReply := s.nextReply + 1)
    case Count(c) => s.(dialingConns := s.dialingConns + 1, calls := SetCall(s, c, Requesting))
    case HandOff(c, w) =>
      s.(calls := SetCall(s, c, Awaiting),
         workers := s.workers[w := Dialing(s.calls[c].req, |s.dials|)],
         dials := s.dials + [Dial(s.calls[c].req, None)])
    case DialReturns(w, out) =>
      var d := s.workers[w].dial;
      s.(workers := s.workers[w := Replying(s.workers[w].req, out)],
         dials := s.dials[d := s.dials[d].(result := Some(out))])
    case Reply(w, c) =>
      s.(workers := s.workers[w := Idle], calls := SetCall(s, c, Answered(s.workers[w].outcome)))
    case Leave(c) =>
      s.(dialingConns := s.dialingConns - 1, calls := SetCall(s, c, Returned(s.calls[c].pc.outcome)))
  }

  ghost predicate Next(s: State, a: Action, t: State) {
    Enabled(s, a) && t == Apply(s, a)
  }

  ghost predicate Reachable(s: State) {
    exists acts :: Run(Next, Init(), acts, s)
  }

  // Invariant ///////////////////////////////////////////////////////////////////////////////

  predicate Counted(pc: CallPc) {
    pc.Requesting? || pc.Awaiting? || pc.Answered?
  }

  function CountOf(c: Call): nat {
    if Counted(c.pc) then 1 else 0
  }

  /** Calls between the increment and the decrement of dialingConns. */
  function InFlight(calls: seq<Call>): nat {
    Sum(calls, CountOf)
  }

  predicate Handed(pc: CallPc) {
    pc.Awaiting? || pc.Answered? || pc.Returned?
  }

  /** Worker `w` serves the awaiting call `c`, whose reply channel is number `c`. */
  ghost predicate Serves(s: State, w: nat, c: nat)
    requires w < |s.workers| && c < |s.calls|
  {
    !s.workers[w].Idle? && s.workers[w].req == s.calls[c].req
  }

  ghost predicate Shape(s: State) {
    && |s.workers| == MAX_CONCURRENT_DIALS
    && s.nextReply == |s.calls|
    && (forall c :: 0 <= c < |s.calls| ==> s.calls[c].req.reply == c)
    && s.dialingConns == InFlight(s.calls)
  }

  /** Every busy worker serves an awaiting call, no two the same. */
  ghost predicate BusyPaired(s: State) {
    && (forall w :: 0 <= w < |s.workers| && !s.workers[w].Idle? ==>
          var c := s.workers[w].req.reply;
          c < |s.calls| && s.calls[c].req == s.workers[w].req && s.calls[c].pc.Awaiting?)
    && (forall w, x :: 0 <= w < x < |s.workers| && !s.workers[w].Idle? && !s.workers[x].Idle? ==>
          s.workers[w].req.reply != s.workers[x].req.reply)
  }

  ghost predicate InService(s: State, c: nat)
    requires c < |s.calls|
  {
    exists w :: 0 <= w < |s.workers| && Serves(s, w, c)
  }

  /** Busy workers and awaiting calls are paired off one to one. */
  ghost predicate Paired(s: State) {
    BusyPaired(s) && forall c :: 0 <= c < |s.calls| && s.calls[c].pc.Awaiting? ==> InService(s, c)
  }

  /** No call is dialed twice, and only calls handed over are. */
  ghost predicate DialsDistinct(s: State) {
    && (forall d, e :: 0 <= d < e < |s.dials| ==> s.dials[d].req.reply != s.dials[e].req.reply)
    && (forall d :: 0 <= d < |s.dials| ==>
          var c := s.dials[d].req.reply;
          c < |s.calls| && s.calls[c].req == s.dials[d].req && Handed(s.calls[c].pc))
  }

  ghost predicate Dialed(s: State, c: nat)
    requires c < |s.calls|
  {
    exists d :: 0 <= d < |s.dials| && s.dials[d].req == s.calls[c].req
  }

  /** Every call handed over was dialed once. */
  ghost predicate DialedOnce(s: State) {
    DialsDistinct(s) && forall c :: 0 <= c < |s.calls| && Handed(s.calls[c].pc) ==> Dialed(s, c)
  }

  /** The dials still running are those of the dialing workers. */
  ghost predicate RunningDials(s: State) {
    && (forall w :: 0 <= w < |s.workers| && s.workers[w].Dialing? ==>
          s.workers[w].dial < |s.dials| && s.dials[s.workers[w].dial] == Dial(s.workers[w].req, None))
    && (forall d :: 0 <= d < |s.dials| && s.dials[d].result.None? ==>
          exists w :: 0 <= w < |s.workers| && s.workers[w].Dialing? && s.workers[w].dial == d)
  }

  /** What a worker is about to reply, or a call got, is how the dial of that request ended. */
  ghost predicate OutcomeOf(s: State, d: nat)
    requires d < |s.dials|
  {
    && (forall w :: 0 <= w < |s.workers| && s.workers[w].Replying? && s.workers[w].req == s.dials[d].req ==>
          s.dials[d].result == Some(s.workers[w].outcome))
    && (forall c :: 0 <= c < |s.calls| && s.calls[c].req == s.dials[d].req ==>
          s.calls[c].pc.Answered? || s.calls[c].pc.Returned? ==>
          s.dials[d].result == Some(s.calls[c].pc.outcome))
  }

  ghost predicate Outcomes(s: State) {
    forall d :: 0 <= d < |s.dials| ==> OutcomeOf(s, d)
  }

  ghost predicate Inv(s: State) {
    Shape(s) && Paired(s) && DialedOnce(s) && RunningDials(s) && Outcomes(s)
  }

  lemma StepKeepsShape(s: State, a: Action)
    requires Shape(s) && Enabled(s, a)
    ensures Shape(Apply(s, a))
  {
    var t := Apply(s, a);
    if a.Enter? {
      assert t.calls[..|s.calls|] == s.calls;
    } else if !a.DialReturns? {
      CallStepKeepsShape(s, a, a.c);
    }
  }

  lemma CallStepKeepsShape(s: State, a: Action, c: nat)
    requires Shape(s) && Enabled(s, a) && !a.Enter? && !a.DialReturns? && c == a.c
    ensures Shape(Apply(s, a))
  {
    var t := Apply(s, a);
    assert t.calls == s.calls[c := t.calls[c]];
    SumUpdate(s.calls, CountOf, c, t.calls[c]);
  }

  /** Steps that change at most the program counters of calls that are not waiting for a worker. */
  lemma CallStepKeepsBusy(s: State, a: Action)
    requires BusyPaired(s) && Enabled(s, a) && (a.Enter? || a.Count? || a.Leave?)
    ensures BusyPaired(Apply(s, a))
  {
    assert Apply(s, a).workers == s.workers;
  }

  lemma WorkerStepKeepsBusy(s: State, a: Action)
    requires Shape(s) && BusyPaired(s) && Enabled(s, a) && (a.HandOff? || a.DialReturns? || a.Reply?)
    ensures BusyPaired(Apply(s, a))
  {
  }

  lemma StepKeepsInService(s: State, a: Action, c: nat)
    requires Shape(s) && Paired(s) && Enabled(s, a)
    requires c < |Apply(s, a).calls| && Apply(s, a).calls[c].pc.Awaiting?
    ensures InService(Apply(s, a), c)
  {
    var t := Apply(s, a);
    if a.HandOff? && c == a.c {
      assert Serves(t, a.w, c);
    } else {
      assert InService(s, c);
      var w :| 0 <= w < |s.workers| && Serves(s, w, c);
      assert Serves(t, w, c);
    }
  }

  lemma StepKeepsPaired(s: State, a: Action)
    requires Shape(s) && Paired(s) && Enabled(s, a)
    ensures Paired(Apply(s, a))
  {
    if a.Enter? || a.Count? || a.Leave? {
      CallStepKeepsBusy(s, a);
    } else {
      WorkerStepKeepsBusy(s, a);
    }
    var t := Apply(s, a);
    forall c | 0 <= c < |t.calls| && t.calls[c].pc.Awaiting? ensures InService(t, c) {
      StepKeepsInService(s, a, c);
    }
  }

  lemma HandOffKeepsDistinct(s: State, c: nat, w: nat)
    requires Shape(s) && DialsDistinct(s) && Enabled(s, HandOff(c, w))
    ensures DialsDistinct(Apply(s, HandOff(c, w)))
  {
  }

  lemma HandOffKeepsDialed(s: State, c: nat, w: nat, b: nat)
    requires DialedOnce(s) && Enabled(s, HandOff(c, w)) && b < |s.calls|
    requires Handed(Apply(s, HandOff(c, w)).calls[b].pc)
    ensures Dialed(Apply(s, HandOff(c, w)), b)
  {
    var t := Apply(s, HandOff(c, w));
    if b == c {
      assert t.dials[|s.dials|].req == t.calls[b].req;
    } else {
      assert Dialed(s, b);
      var d :| 0 <= d < |s.dials| && s.dials[d].req == s.calls[b].req;
      assert t.dials[d].req == t.calls[b].req;
    }
  }

  lemma HandOffKeepsDialedOnce(s: State, c: nat, w: nat)
    requires Shape(s) && DialedOnce(s) && Enabled(s, HandOff(c, w))
    ensures DialedOnce(Apply(s, HandOff(c, w)))
  {
    HandOffKeepsDistinct(s, c, w);
    var t := Apply(s, HandOff(c, w));
    forall b | 0 <= b < |t.calls| && Handed(t.calls[b].pc) ensures Dialed(t, b) {
      HandOffKeepsDialed(s, c, w, b);
    }
  }

  lemma SameRequests(s: State, t: State)
    requires DialedOnce(s)
    requires |t.dials| == |s.dials| && forall d :: 0 <= d < |s.dials| ==> t.dials[d].req == s.dials[d].req
    requires |s.calls| <= |t.calls| && forall c :: |s.calls| <= c < |t.calls| ==> !Handed(t.calls[c].pc)
    requires forall c :: 0 <= c < |s.calls| ==>
      t.calls[c].req == s.calls[c].req && (Handed(t.calls[c].pc) <==> Handed(s.calls[c].pc))
    ensures DialedOnce(t)
  {
    forall c | 0 <= c < |t.calls| && Handed(t.calls[c].pc) ensures Dialed(t, c) {
      assert Dialed(s, c);
      var d :| 0 <= d < |s.dials| && s.dials[d].req == s.calls[c].req;
      assert t.dials[d].req == t.calls[c].req;
    }
  }

  lemma StepKeepsDialedOnce(s: State, a: Action)
    requires Shape(s) && DialedOnce(s) && Enabled(s, a)
    ensures DialedOnce(Apply(s, a))
  {
    if a.HandOff? {
      HandOffKeepsDialedOnce(s, a.c, a.w);
    } else {
      SameRequests(s, Apply(s, a));
    }
  }

  lemma HandOffKeepsRunningDials(s: State, c: nat, w: nat)
    requires Shape(s) && Paired(s) && RunningDials(s) && Enabled(s, HandOff(c, w))
    ensures RunningDials(Apply(s, HandOff(c, w)))
  {
    var t := Apply(s, HandOff(c, w));
    forall d | 0 <= d < |t.dials| && t.dials[d].result.None?
      ensures exists x :: 0 <= x < |t.workers| && t.workers[x].Dialing? && t.workers[x].dial == d
    {
      if d == |s.dials| {
        assert t.workers[w].dial == d;
      } else {
        var x :| 0 <= x < |s.workers| && s.workers[x].Dialing? && s.workers[x].dial == d;
        assert t.workers[x].dial == d;
      }
    }
  }

  lemma DialReturnKeepsRunningDials(s: State, w: nat, outcome: Outcome)
    requires Shape(s) && Paired(s) && RunningDials(s) && Enabled(s, DialReturns(w, outcome))
    ensures RunningDials(Apply(s, DialReturns(w, outcome)))
  {
    var t := Apply(s, DialReturns(w, outcome));
    forall d | 0 <= d < |t.dials| && t.dials[d].result.None?
      ensures exists x :: 0 <= x < |t.workers| && t.workers[x].Dialing? && t.workers[x].dial == d
    {
      var x :| 0 <= x < |s.workers| && s.workers[x].Dialing? && s.workers[x].dial == d;
      assert t.workers[x].dial == d;
    }
  }

  lemma StepKeepsRunningDials(s: State, a: Action)
    requires Shape(s) && Paired(s) && RunningDials(s) && Enabled(s, a)
    ensures RunningDials(Apply(s, a))
  {
    if a.HandOff? {
      HandOffKeepsRunningDials(s, a.c, a.w);
    } else if a.DialReturns? {
      DialReturnKeepsRunningDials(s, a.w, a.outcome);
    } else {
      var t := Apply(s, a);
      assert t.dials == s.dials && |t.workers| == |s.workers|;
      assert forall w :: 0 <= w < |s.workers| ==>
        t.workers[w] == s.workers[w] || (t.workers[w].Idle? && s.workers[w].Replying?);
      forall d | 0 <= d < |t.dials| && t.dials[d].result.None?
        ensures exists w :: 0 <= w < |t.workers| && t.workers[w].Dialing? && t.workers[w].dial == d
      {
        var w :| 0 <= w < |s.workers| && s.workers[w].Dialing? && s.workers[w].dial == d;
        assert t.workers[w].dial == d;
      }
    }
  }

  lemma HandOffKeepsOutcomes(s: State, c: nat, w: nat, d: nat)
    requires Shape(s) && DialedOnce(s) && Outcomes(s) && Enabled(s, HandOff(c, w))
    requires d < |Apply(s, HandOff(c, w)).dials| && Paired(s)
    ensures OutcomeOf(Apply(s, HandOff(c, w)), d)
  {
    if d < |s.dials| {
      assert OutcomeOf(s, d);
    }
  }

  lemma DialReturnKeepsOutcomes(s: State, w: nat, outcome: Outcome, d: nat)
    requires Shape(s) && Paired(s) && DialedOnce(s) && RunningDials(s) && Outcomes(s)
    requires Enabled(s, DialReturns(w, outcome)) && d < |s.dials|
    ensures OutcomeOf(Apply(s, DialReturns(w, outcome)), d)
  {
    assert OutcomeOf(s, d);
  }

  lemma OthersKeepOutcomes(s: State, a: Action, d: nat)
    requires Shape(s) && Paired(s) && DialedOnce(s) && Outcomes(s) && Enabled(s, a) && d < |s.dials|
    requires !a.HandOff? && !a.DialReturns?
    ensures d < |Apply(s, a).dials| && OutcomeOf(Apply(s, a), d)
  {
    assert OutcomeOf(s, d);
  }

  lemma StepKeepsOutcomes(s: State, a: Action)
    requires Shape(s) && Paired(s) && DialedOnce(s) && RunningDials(s) && Outcomes(s) && Enabled(s, a)
    ensures Outcomes(Apply(s, a))
  {
    var t := Apply(s, a);
    forall d | 0 <= d < |t.dials| ensures OutcomeOf(t, d) {
      if a.HandOff? {
        HandOffKeepsOutcomes(s, a.c, a.w, d);
      } else if a.DialReturns? {
        DialReturnKeepsOutcomes(s, a.w, a.outcome, d);
      } else {
        OthersKeepOutcomes(s, a, d);
      }
    }
  }

  lemma StepKeepsInv(s: State, a: Action)
    requires Inv(s) && Enabled(s, a)
    ensures Inv(Apply(s, a))
  {
    StepKeepsShape(s, a);
    StepKeepsPaired(s, a);
    StepKeepsDialedOnce(s, a);
    StepKeepsRunningDials(s, a);
    StepKeepsOutcomes(s, a);
  }

  lemma ReachableInv(s: State)
    requires Reachable(s)
    ensures Inv(s)
  {
    var acts :| Run(Next, Init(), acts, s);
    forall x, a, y | Inv(x) && Next(x, a, y) ensures Inv(y) {
      StepKeepsInv(x, a);
    }
    RunKeeps(Next, Inv, Init(), acts, s);
  }

  // What callers get ////////////////////////////////////////////////////////////////////////

  /** The dials that have started and not ended. */
  function Running(s: State): set<nat> {
    set d | 0 <= d < |s.dials| && s.dials[d].result.None?
  }

  /** At most two dials run at once, no call is dialed twice, none before its request was taken, and
      dialingConns counts the calls in flight. */
  lemma AtMostTwoDials(s: State)
    requires Reachable(s)
    ensures |Running(s)| <= MAX_CONCURRENT_DIALS
    ensures forall d, e :: 0 <= d < e < |s.dials| ==> s.dials[d].req.reply != s.dials[e].req.reply
    ensures forall c :: 0 <= c < |s.calls| ==>
      (Handed(s.calls[c].pc) <==> exists d :: 0 <= d < |s.dials| && s.dials[d].req == s.calls[c].req)
    ensures s.dialingConns == InFlight(s.calls)
  {
    ReachableInv(s);
    var a := if s.workers[0].Dialing? then {s.workers[0].dial} else {};
    var b := if s.workers[1].Dialing? then {s.workers[1].dial} else {};
    forall d | d in Running(s) ensures d in a + b {
      var w :| 0 <= w < |s.workers| && s.workers[w].Dialing? && s.workers[w].dial == d;
    }
    SubsetIsSmaller(Running(s), a + b);
  }

  lemma {:induction false} SubsetIsSmaller(a: set<nat>, b: set<nat>)
    requires a <= b
    ensures |a| <= |b|
  {
    if a != {} {
      var x :| x in a;
      SubsetIsSmaller(a - {x}, b - {x});
    }
  }

  /** A call that returned was dialed exactly once, at its own address, and returned how that dial ended. */
  lemma OwnOutcomeOnly(s: State, c: nat)
    requires Reachable(s) && c < |s.calls| && s.calls[c].pc.Returned?
    ensures exists d :: 0 <= d < |s.dials| && s.dials[d] == Dial(s.calls[c].req, Some(s.calls[c].pc.outcome))
    ensures forall d, e :: 0 <= d < |s.dials| && 0 <= e < |s.dials| && s.dials[d].req == s.dials[e].req ==> d == e
    ensures forall b :: 0 <= b < |s.calls| && s.calls[b].req.reply == s.calls[c].req.reply ==> b == c
  {
    ReachableInv(s);
    var d :| 0 <= d < |s.dials| && s.dials[d].req == s.calls[c].req;
    assert OutcomeOf(s, d);
    assert s.dials[d] == Dial(s.calls[c].req, Some(s.calls[c].pc.outcome));
  }

  // Progress /////////////////////////////////////////////////////////////////////////////////

  predicate Internal(a: Action) {
    !a.Enter?
  }

  ghost predicate CanStep(s: State) {
    exists a :: Internal(a) && Enabled(s, a)
  }

  lemma StepExists(s: State, a: Action)
    requires Internal(a) && Enabled(s, a)
    ensures CanStep(s)
  {
  }

  lemma BusyWorkerSteps(s: State, w: nat)
    requires Inv(s) && w < |s.workers| && !s.workers[w].Idle?
    ensures CanStep(s)
  {
    if s.workers[w].Dialing? {
      StepExists(s, DialReturns(w, Connected(0)));
    } else {
      StepExists(s, Reply(w, s.workers[w].req.reply));
    }
  }

  /** No deadlock: as long as some call has not returned, some step other than a new call is possible. */
  lemma NeverDeadlocked(s: State, c: nat)
    requires Reachable(s) && c < |s.calls| && !s.calls[c].pc.Returned?
    ensures CanStep(s)
  {
    ReachableInv(s);
    match s.calls[c].pc
    case Entered => StepExists(s, Count(c));
    case Answered(_) => StepExists(s, Leave(c));
    case Requesting =>
      if s.workers[0].Idle? {
        StepExists(s, HandOff(c, 0));
      } else {
        BusyWorkerSteps(s, 0);
      }
    case Awaiting =>
      assert InService(s, c);
      var w :| 0 <= w < |s.workers| && Serves(s, w, c);
      BusyWorkerSteps(s, w);
  }

  function CallRank(c: Call): nat {
    match c.pc
    case Entered => 6
    case Requesting => 5
    case Awaiting => 2
    case Answered(_) => 1
    case Returned(_) => 0
  }

  function WorkerRank(w: WorkerPc): nat {
    match w
    case Idle => 0
    case Dialing(_, _) => 2
    case Replying(_, _) => 1
  }

  function Work(s: State): nat {
    Sum(s.calls, CallRank) + Sum(s.workers, WorkerRank)
  }

  /** Every step other than a new call uses up some of a finite amount of work. */
  lemma EveryStepUsesUpWork(s: State, a: Action)
    requires Enabled(s, a) && Internal(a)
    ensures Work(Apply(s, a)) < Work(s)
  {
    var t := Apply(s, a);
    match a
    case Count(c) => SumUpdate(s.calls, CallRank, c, t.calls[c]);
    case Leave(c) => SumUpdate(s.calls, CallRank, c, t.calls[c]);
    case HandOff(c, w) =>
      SumUpdate(s.calls, CallRank, c, t.calls[c]);
      SumUpdate(s.workers, WorkerRank, w, t.workers[w]);
    case Reply(w, c) =>
      SumUpdate(s.calls, CallRank, c, t.calls[c]);
      SumUpdate(s.workers, WorkerRank, w, t.workers[w]);
    case DialReturns(w, _) => SumUpdate(s.workers, WorkerRank, w, t.workers[w]);
  }

  ghost predicate NextInternal(s: State, a: Action, t: State) {
    Next(s, a, t) && Internal(a)
  }

  /** So without new calls every run is bounded by that work, and when it can go no further every call has
      returned. */
  lemma {:induction false} RunsEndReturned(s: State, acts: seq<Action>, t: State)
    requires Reachable(s) && Run(NextInternal, s, acts, t)
    ensures |acts| + Work(t) <= Work(s)
    ensures !CanStep(t) ==> forall c :: 0 <= c < |t.calls| ==> t.calls[c].pc.Returned?
    decreases |acts|
  {
    if acts == [] {
      forall c | 0 <= c < |t.calls| && !t.calls[c].pc.Returned? ensures CanStep(t) {
        NeverDeadlocked(t, c);
      }
    } else {
      var m :| NextInternal(s, acts[0], m) && Run(NextInternal, m, acts[1..], t);
      EveryStepUsesUpWork(s, acts[0]);
      ReachableStep(s, acts[0], m);
      RunsEndReturned(m, acts[1..], t);
    }
  }

  lemma ReachableStep(s: State, a: Action, t: State)
    requires Reachable(s) && Next(s, a, t)
    ensures Reachable(t)
  {
    var acts :| Run(Next, Init(), acts, s);
    RunLast(Next, Init(), acts, s, a, t);
  }

  // The handler, updated in place ////////////////////////////////////////////////////////////////

  /** proxiedTCPHandler with its counter, and where its dialing goroutines and the Handle calls are. */
  class TcpHandler {
    var dialingConns: int
    var calls: seq<Call>
    var workers: seq<WorkerPc>
    var nextReply: nat
    var dials: seq<Dial>            // history

    ghost function View(): State
      reads this
    {
      State(dialingConns, calls, workers, nextReply, dials)
    }

    // newProxiedTCPHandler with handleDials
    constructor ()
      ensures View() == Init()
    {
      dialingConns, calls, nextReply, dials := 0, [], 0, [];
      var started: seq<WorkerPc> := [];
      for i := 0 to MAX_CONCURRENT_DIALS
        invariant started == seq(i, _ => Idle)
      {
        started := started + [Idle];
      }
      workers := started;
    }

    /** Any number of Handle calls at once: all are counted before the first is served, one goroutine
        serves them one after the other, and all return. Each gets the outcome of its own dial, whatever
        the others got, and the counter is back where it was. It is a run of the machine. */
    method HandleAll(addrs: seq<string>, w: nat, outcomes: seq<Outcome>) returns (results: seq<Outcome>)
      requires w < |workers| && workers[w].Idle? && |outcomes| == |addrs|
      modifies this
      ensures Leads(Next, old(View()), View())
      ensures results == outcomes && AllHandled(old(View()), View(), addrs, outcomes)
    {
      ghost var start := View();
      var first := |calls|;
      ghost var starting := StartAll(addrs);
      ghost var started := View();
      ghost var serving := HandleDial(w, first, outcomes);
      ghost var served := View();
      ghost var finishing;
      results, finishing := FinishAll(first, outcomes);
      LeadsThen(Next, start, started, served);
      LeadsThen(Next, start, served, View());
      StartedServedFinished(start, started, served, View(), addrs, outcomes);
    }

    // Handle, up to the reply select, for one call after the other
    method StartAll(addrs: seq<string>) returns (ghost acts: seq<Action>)
      modifies this`calls, this`nextReply, this`dialingConns
      ensures Run(Next, old(View()), acts, View()) && Started(old(View()), View(), addrs)
    {
      ghost var start := View();
      acts := [];
      for k := 0 to |addrs|
        invariant Run(Next, start, acts, View()) && Started(start, View(), addrs[..k])
      {
        ghost var before := View();
        var c := EnterHandle(addrs[k]);
        ghost var entered := View();
        RunLast(Next, start, acts, before, Enter(addrs[k]), entered);
        CountCall(c);
        RunLast(Next, start, acts + [Enter(addrs[k])], entered, Count(c), View());
        acts := acts + [Enter(addrs[k])] + [Count(c)];
      }
      assert addrs[..|addrs|] == addrs;
    }

    method EnterHandle(addr: string) returns (c: nat)
      modifies this`calls, this`nextReply
      ensures View() == Apply(old(View()), Enter(addr)) && c == |old(calls)|
    {
      c := |calls|;
      calls := calls + [Call(Request(addr, nextReply), Entered)];
      nextReply := nextReply + 1;
    }

    method CountCall(c: nat)
      requires Enabled(View(), Count(c))
      modifies this`calls, this`dialingConns
      ensures View() == Apply(old(View()), Count(c))
    {
      dialingConns := dialingConns + 1;
      calls := calls[c := calls[c].(pc := Requesting)];
    }

    /** handleDial over the requests of the calls from `first` on: each is dialed once and answered with
        its own outcome; nothing else changes, and the goroutine is free again. */
    method HandleDial(w: nat, first: nat, outcomes: seq<Outcome>) returns (ghost acts: seq<Action>)
      requires w < |workers| && workers[w].Idle? && first + |outcomes| <= |calls|
      requires forall c :: first <= c < first + |outcomes| ==> calls[c].pc.Requesting?
      modifies this`calls, this`workers, this`dials
      ensures Run(Next, old(View()), acts, View()) && Served(old(View()), View(), first, outcomes)
    {
      ghost var start := View();
      acts := [];
      for k := 0 to |outcomes|
        invariant Run(Next, start, acts, View()) && Served(start, View(), first, outcomes[..k])
      {
        ghost var before := View();
        ghost var turn := DialOne(w, first + k, outcomes[k]);
        RunThen(Next, start, acts, before, turn, View());
        ServedOneMore(start, before, View(), first, outcomes, k);
        acts := acts + turn;
      }
      assert outcomes[..|outcomes|] == outcomes;
    }

    // one turn of the loop in handleDial
    method DialOne(w: nat, c: nat, outcome: Outcome) returns (ghost acts: seq<Action>)
      requires w < |workers| && workers[w].Idle? && c < |calls| && calls[c].pc.Requesting?
      modifies this`calls, this`workers, this`dials
      ensures Run(Next, old(View()), acts, View())
      ensures workers == old(workers)
      ensures calls == old(calls)[c := old(calls)[c].(pc := Answered(outcome))]
      ensures dials == old(dials) + [Dial(old(calls)[c].req, Some(outcome))]
    {
      TakeRequest(c, w);
      ghost var taken := View();
      FinishDial(w, outcome);
      ghost var dialed := View();
      DeliverReply(w, c);
      acts := [HandOff(c, w), DialReturns(w, outcome), Reply(w, c)];
      RunFirst(Next, dialed, Reply(w, c), View(), [], View(), [Reply(w, c)]);
      RunFirst(Next, taken, DialReturns(w, outcome), dialed, [Reply(w, c)], View(),
        [DialReturns(w, outcome), Reply(w, c)]);
      RunFirst(Next, old(View()), HandOff(c, w), taken, [DialReturns(w, outcome), Reply(w, c)], View(), acts);
    }

    method TakeRequest(c: nat, w: nat)
      requires Enabled(View(), HandOff(c, w))
      modifies this`calls, this`workers, this`dials
      ensures View() == Apply(old(View()), HandOff(c, w))
    {
      var req := calls[c].req;
      workers := workers[w := Dialing(req, |dials|)];
      calls := calls[c := calls[c].(pc := Awaiting)];
      dials := dials + [Dial(req, None)];
    }

    method FinishDial(w: nat, outcome: Outcome)
      requires Enabled(View(), DialReturns(w, outcome))
      modifies this`workers, this`dials
      ensures View() == Apply(old(View()), DialReturns(w, outcome))
    {
      dials := dials[workers[w].dial := dials[workers[w].dial].(result := Some(outcome))];
      workers := workers[w := Replying(workers[w].req, outcome)];
    }

    method DeliverReply(w: nat, c: nat)
      requires Enabled(View(), Reply(w, c))
      modifies this`calls, this`workers
      ensures View() == Apply(old(View()), Reply(w, c))
    {
      calls := calls[c := calls[c].(pc := Answered(workers[w].outcome))];
      workers := workers[w := Idle];
    }

    // the rest of Handle, for the answered calls from `first` on
    method FinishAll(first: nat, ghost outcomes: seq<Outcome>) returns (results: seq<Outcome>, ghost acts: seq<Action>)
      requires first + |outcomes| == |calls|
      requires forall c :: first <= c < |calls| ==> calls[c].pc == Answered(outcomes[c - first])
      modifies this`calls, this`dialingConns
      ensures Run(Next, old(View()), acts, View())
      ensures dialingConns == old(dialingConns) - |outcomes| && results == outcomes
    {
      ghost var start := View();
      results, acts := [], [];
      for k := 0 to |calls| - first
        invariant Run(Next, start, acts, View())
        invariant |calls| == |start.calls| && dialingConns == start.dialingConns - k
        invariant forall c :: first + k <= c < |calls| ==> calls[c].pc == Answered(outcomes[c - first])
        invariant results == outcomes[..k]
      {
        ghost var before := View();
        var result := FinishRequest(first + k);
        RunLast(Next, start, acts, before, Leave(first + k), View());
        acts := acts + [Leave(first + k)];
        results := results + [result];
      }
    }

    method FinishRequest(c: nat) returns (outcome: Outcome)
      requires Enabled(View(), Leave(c))
      modifies this`calls, this`dialingConns
      ensures View() == Apply(old(View()), Leave(c)) && calls[c].pc == Returned(outcome)
    {
      dialingConns := dialingConns - 1;
      outcome := calls[c].pc.outcome;
      calls := calls[c := calls[c].(pc := Returned(outcome))];
    }
  }

  /** Between `s` and `t` the calls from `first` on were each dialed once, in order, and answered with
      their own outcomes; nothing else changed. */
  ghost predicate Served(s: State, t: State, first: nat, outcomes: seq<Outcome>) {
    && t.workers == s.workers && t.dialingConns == s.dialingConns && |t.calls| == |s.calls|
    && first + |outcomes| <= |s.calls|
    && (forall c :: first <= c < first + |outcomes| ==> t.calls[c] == s.calls[c].(pc := Answered(outcomes[c - first])))
    && (forall c :: 0 <= c < |s.calls| && !(first <= c < first + |outcomes|) ==> t.calls[c] == s.calls[c])
    && |t.dials| == |s.dials| + |outcomes| && t.dials[..|s.dials|] == s.dials
    && (forall d :: |s.dials| <= d < |t.dials| ==>
          t.dials[d] == Dial(s.calls[first + d - |s.dials|].req, Some(outcomes[d - |s.dials|])))
  }

  lemma ServedOneMore(s: State, m: State, t: State, first: nat, outcomes: seq<Outcome>, k: nat)
    requires k < |outcomes| && Served(s, m, first, outcomes[..k]) && first + k < |s.calls|
    requires t.workers == m.workers && t.dialingConns == m.dialingConns
    requires t.calls == m.calls[first + k := m.calls[first + k].(pc := Answered(outcomes[k]))]
    requires t.dials == m.dials + [Dial(m.calls[first + k].req, Some(outcomes[k]))]
    ensures Served(s, t, first, outcomes[..k + 1])
  {
  }

  /** Between `s` and `t` one call for each address was made and counted. */
  ghost predicate Started(s: State, t: State, addrs: seq<string>) {
    && t.workers == s.workers && t.dials == s.dials && t.dialingConns == s.dialingConns + |addrs|
    && |t.calls| == |s.calls| + |addrs|
    && forall c :: |s.calls| <= c < |t.calls| ==>
         t.calls[c].pc.Requesting? && t.calls[c].req.addr == addrs[c - |s.calls|]
  }

  /** Between `s` and `t` each address was dialed once, in order, with its own outcome, and the counter
      and the goroutines are as they were. */
  ghost predicate AllHandled(s: State, t: State, addrs: seq<string>, outcomes: seq<Outcome>) {
    && t.workers == s.workers && t.dialingConns == s.dialingConns
    && |t.dials| == |s.dials| + |addrs| && |outcomes| == |addrs| && t.dials[..|s.dials|] == s.dials
    && forall d :: |s.dials| <= d < |t.dials| ==>
         t.dials[d].req.addr == addrs[d - |s.dials|] && t.dials[d].result == Some(outcomes[d - |s.dials|])
  }

  lemma StartedServedFinished(s: State, m: State, n: State, t: State, addrs: seq<string>, outcomes: seq<Outcome>)
    requires |outcomes| == |addrs| && Started(s, m, addrs) && Served(m, n, |s.calls|, outcomes)
    requires t.workers == n.workers && t.dials == n.dials && t.dialingConns == n.dialingConns - |outcomes|
    ensures AllHandled(s, t, addrs, outcomes)
  {
  }
}
