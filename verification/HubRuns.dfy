/** What runs of the websocket hub do with what is put into it from outside: frames waiting for a client's
    writer, hello messages, direct sends, and the registration of services. */
module HubRuns {
  import opened Common
  import opened Hub
  import HubDelivery
  import HubProgress

  // The writer of a client ///////////////////////////////////////////////////////////////////////////

  /** The writer is alive: it is, or some steps of its own take it, back at its select. */
  lemma BackAtSelect(s: State, o: nat) returns (t: State)
    requires Reachable(s) && o < |s.heap| && !s.heap[o].writer.Reporting? && !s.heap[o].writer.Gone?
    ensures Leads(Next, s, t) && t == WithConn(s, o, s.heap[o].(writer := Selecting)) && !t.panicked
  {
    HubProgress.ReachableOwned(s);
    LeadsStart(Next, s);
    t := WithConn(s, o, s.heap[o].(writer := Selecting));
    if s.heap[o].writer.NotStarted? {
      LeadsStep(Next, s, s, StartWriter(o), t);
    } else if s.heap[o].writer.Writing? {
      LeadsStep(Next, s, s, WriteOk(o), t);
    } else {
      assert t == s;
    }
  }

  /** Whatever else waits: from every reachable state the oldest broadcast queued for a client whose writer
      has not ended can be the next it writes. */
  lemma QueuedCanBeWritten(s: State, o: nat) returns (t: State)
    requires Reachable(s) && o < |s.heap| && !s.heap[o].writer.Reporting? && !s.heap[o].writer.Gone?
    requires s.heap[o].out.queue != []
    ensures Leads(Next, s, t) && o < |t.heap| && t.heap[o].writer == Writing(s.heap[o].out.queue[0])
    ensures t.heap[o].out.queue == s.heap[o].out.queue[1..]
    ensures t.heap[o].taken == s.heap[o].taken + [s.heap[o].out.queue[0]]
  {
    var m := BackAtSelect(s, o);
    t := Apply(m, TakeOut(o));
    LeadsStep(Next, s, m, TakeOut(o), t);
  }

  /** And so can the oldest hello. */
  lemma HelloCanBeWritten(s: State, o: nat) returns (t: State)
    requires Reachable(s) && o < |s.heap| && !s.heap[o].writer.Reporting? && !s.heap[o].writer.Gone?
    requires s.heap[o].connectOut != []
    ensures Leads(Next, s, t) && o < |t.heap| && t.heap[o].writer == Writing(s.heap[o].connectOut[0])
    ensures t.heap[o].connectOut == s.heap[o].connectOut[1..]
  {
    var m := BackAtSelect(s, o);
    t := Apply(m, TakeHello(o));
    LeadsStep(Next, s, m, TakeHello(o), t);
  }

  // Hellos /////////////////////////////////////////////////////////////////////////////////////////////

  /** The hellos said to client `o` in a run, in order, and how many of them its writer took. */
  function Said(acts: seq<Action>, o: nat): seq<Frame> {
    if acts == [] then []
    else
      var a := acts[|acts| - 1];
      Said(acts[..|acts| - 1], o) + if a.SayHello? && a.o == o then [a.hello] else []
  }

  function Heard(acts: seq<Action>, o: nat): nat {
    if acts == [] then 0 else Heard(acts[..|acts| - 1], o) + if acts[|acts| - 1] == TakeHello(o) then 1 else 0
  }

  lemma HelloStep(m: State, a: Action, o: nat)
    requires Enabled(m, a)
    ensures var t := Apply(m, a);
      && |m.heap| <= |t.heap| && (o < |t.heap| && o >= |m.heap| ==> t.heap[o].connectOut == [])
      && (o < |m.heap| ==>
            t.heap[o].connectOut ==
              if a.SayHello? && a.o == o then m.heap[o].connectOut + [a.hello]
              else if a == TakeHello(o) then m.heap[o].connectOut[1..]
              else m.heap[o].connectOut)
      && ((a.SayHello? && a.o == o) || a == TakeHello(o) ==> o < |m.heap|)
      && (a == TakeHello(o) ==> m.heap[o].connectOut != [])
  {
    if Quiet(a) {
      QuietHelloStep(m, a, o);
    } else if !a.Join? && !a.Send? && !a.Remove? && !a.CloseAll? {
      assert Apply(m, a).heap == m.heap;
    }
  }

  lemma QuietHelloStep(m: State, a: Action, o: nat)
    requires Enabled(m, a) && Quiet(a)
    ensures var t := Apply(m, a);
      && |m.heap| == |t.heap| && ((a.SayHello? && a.o == o) || a == TakeHello(o) ==> o < |m.heap|)
      && (o < |m.heap| ==>
            t.heap[o].connectOut ==
              if a.SayHello? && a.o == o then m.heap[o].connectOut + [a.hello]
              else if a == TakeHello(o) then m.heap[o].connectOut[1..]
              else m.heap[o].connectOut)
  {
  }

  /** Over every run, what is queued of the hellos said to a client is what its writer has not taken yet. */
  lemma {:induction false} HellosInOrder(acts: seq<Action>, s: State, o: nat)
    requires Run(Next, Init(), acts, s)
    ensures o >= |s.heap| ==> Said(acts, o) == [] && Heard(acts, o) == 0
    ensures o < |s.heap| ==>
      Heard(acts, o) <= |Said(acts, o)| && s.heap[o].connectOut == Said(acts, o)[Heard(acts, o)..]
    decreases |acts|
  {
    if acts != [] {
      var m := RunBeforeLast(Next, Init(), acts, s);
      HellosInOrder(acts[..|acts| - 1], m, o);
      HelloStep(m, acts[|acts| - 1], o);
    }
  }

  // Direct sends ///////////////////////////////////////////////////////////////////////////////////////

  function DirectOffered(acts: seq<Action>): multiset<Frame> {
    if acts == [] then multiset{}
    else
      var a := acts[|acts| - 1];
      DirectOffered(acts[..|acts| - 1]) + if a.OfferDirect? then multiset{a.frame} else multiset{}
  }

  function OneDirect(f: Frame): multiset<Frame> {
    if f.origin.Direct? then multiset{f} else multiset{}
  }

  function DirectIn(frames: seq<Frame>): multiset<Frame> {
    if frames == [] then multiset{}
    else DirectIn(frames[..|frames| - 1]) + OneDirect(frames[|frames| - 1])
  }

  function DirectInHand(s: State): multiset<Frame> {
    if s.bc.Got? || s.bc.Cloning? then OneDirect(s.bc.frame) else multiset{}
  }

  function AllDirect(s: State): multiset<Frame> {
    multiset(s.direct) + DirectInHand(s) + DirectIn(s.log)
  }

  lemma TakenOut(frames: seq<Frame>, k: nat)
    requires k < |frames|
    ensures multiset(frames) == multiset(frames[..k] + frames[k + 1..]) + multiset{frames[k]}
  {
    assert frames == frames[..k] + ([frames[k]] + frames[k + 1..]);
  }

  lemma DirectTaken(m: State, k: nat)
    requires Enabled(m, RecvDirect(k)) && m.direct[k].origin.Direct?
    ensures AllDirect(Apply(m, RecvDirect(k))) == AllDirect(m)
  {
    TakenOut(m.direct, k);
  }

  lemma DirectCloned(m: State)
    requires Enabled(m, Clone)
    ensures AllDirect(Apply(m, Clone)) == AllDirect(m)
  {
    var t := Apply(m, Clone);
    assert t.log[..|t.log| - 1] == m.log;
  }

  lemma ServiceFrameTaken(m: State, v: nat)
    requires HubDelivery.Pipeline(m) && Enabled(m, RecvService(v))
    ensures AllDirect(Apply(m, RecvService(v))) == AllDirect(m)
  {
    assert HubDelivery.PipelineOf(m, v);
  }

  lemma LoopLeavesDirect(m: State, a: Action)
    requires Enabled(m, a) && ByBroadcasterLoop(a) && !a.RecvDirect? && !a.RecvService? && !a.Clone?
    ensures var t := Apply(m, a); t.direct == m.direct && t.log == m.log && DirectInHand(t) == DirectInHand(m)
  {
    if a.Remove? || a.CloseAll? {
      RemovalLeavesDirect(m, a);
    } else if a.Send? {
      SendLeavesDirect(m, a.o);
    } else if a.LockClone? {
      assert Apply(m, a).bc.frame == m.bc.frame;
    } else {
      RestLeavesDirect(m, a);
    }
  }

  lemma RemovalLeavesDirect(m: State, a: Action)
    requires Enabled(m, a) && (a.Remove? || a.CloseAll?)
    ensures var t := Apply(m, a); t.direct == m.direct && t.log == m.log && DirectInHand(t) == DirectInHand(m)
  {
  }

  lemma SendLeavesDirect(m: State, o: nat)
    requires Enabled(m, Send(o))
    ensures var t := Apply(m, Send(o)); t.direct == m.direct && t.log == m.log && DirectInHand(t) == DirectInHand(m)
  {
  }

  lemma RestLeavesDirect(m: State, a: Action)
    requires Enabled(m, a)
    requires a.SendsDone? || a.RecvRemoval? || a.LockRemove? || a.RecvClosed? || a.LockClose?
    ensures var t := Apply(m, a); t.direct == m.direct && t.log == m.log && DirectInHand(t) == DirectInHand(m)
  {
  }

  lemma OthersLeaveDirect(m: State, a: Action)
    requires Enabled(m, a) && !ByBroadcasterLoop(a) && !a.OfferDirect?
    ensures var t := Apply(m, a); t.direct == m.direct && t.log == m.log && t.bc == m.bc
  {
  }

  lemma DirectOfferedMore(m: State, f: Frame)
    requires Enabled(m, OfferDirect(f))
    ensures AllDirect(Apply(m, OfferDirect(f))) == AllDirect(m) + multiset{f}
  {
    assert Apply(m, OfferDirect(f)).log == m.log && Apply(m, OfferDirect(f)).bc == m.bc;
  }

  lemma DirectStep(m: State, a: Action)
    requires HubDelivery.Pipeline(m) && Enabled(m, a)
    ensures a.OfferDirect? ==> AllDirect(Apply(m, a)) == AllDirect(m) + multiset{a.frame}
    ensures !a.OfferDirect? ==> AllDirect(Apply(m, a)) == AllDirect(m)
  {
    if a.OfferDirect? {
      DirectOfferedMore(m, a.frame);
    } else if a.RecvDirect? {
      DirectTaken(m, a.k);
    } else if a.RecvService? {
      ServiceFrameTaken(m, a.v);
    } else if a.Clone? {
      DirectCloned(m);
    } else if ByBroadcasterLoop(a) {
      LoopLeavesDirect(m, a);
    } else {
      OthersLeaveDirect(m, a);
    }
  }

  /** Over every run, every frame sent straight to the hub is still on offer, in the broadcaster's hand, or
      was broadcast, each once. */
  lemma {:induction false} DirectSendsAreKept(acts: seq<Action>, s: State)
    requires Run(Next, Init(), acts, s)
    ensures DirectOffered(acts) == multiset(s.direct) + DirectInHand(s) + DirectIn(s.log)
    decreases |acts|
  {
    if acts != [] {
      var m := RunBeforeLast(Next, Init(), acts, s);
      DirectSendsAreKept(acts[..|acts| - 1], m);
      HubDelivery.ReachableInv(m);
      DirectStep(m, acts[|acts| - 1]);
    }
  }

  // Registration ////////////////////////////////////////////////////////////////////////////////////////

  /** A registered service is found under its type, new and empty, and unregistering it tells exactly it to
      stop, which its loop can do as soon as it is at its select. */
  lemma RegisterThenUnregister(s: State, name: string)
    requires Reachable(s)
    ensures name !in s.services && !s.panicked ==>
      var t := Apply(s, Register(name));
      && Enabled(s, Register(name)) && t.services == s.services[name := |s.svcs|]
      && t.svcs == s.svcs + [Service(name, [], 0, Waiting, [], 0)]
    ensures name in s.services ==>
      && Enabled(s, Unregister(name)) && s.services[name] < |s.svcs|
      && var v, t := s.services[name], Apply(s, Unregister(name));
         && t.services == s.services - {name} && v < |t.svcs| && t.svcs[v].stops == 1
         && (forall u :: 0 <= u < |s.svcs| && u != v ==> t.svcs[u] == s.svcs[u])
         && (t.svcs[v].loop.Waiting? ==>
               Enabled(t, ServiceStop(v)) && Apply(t, ServiceStop(v)).svcs[v].loop.Stopped?)
  {
    HubProgress.ReachableStopRoom(s);
    HubProgress.ReachableOwned(s);
  }

  // From a service to the log //////////////////////////////////////////////////////////////////////////

  predicate Busy(bc: Broadcaster) {
    bc.Got? || bc.Cloning? || bc.Sending? || bc.GotRemoval? || bc.Removing?
  }

  /** The next step of a broadcaster that is handling something, or of the joiner it waits for. */
  ghost function Onward(s: State): Action
    requires Busy(s.bc)
  {
    match s.bc
    case Got(_) => if s.muConns.Free? then LockClone else Join
    case GotRemoval(_) => if s.muConns.Free? then LockRemove else Join
    case Cloning(_) => Clone
    case Removing(_) => Remove
    case Sending(_, left) =>
      if left == {} then SendsDone
      else
        var p: nat :| p in left;
        Send(p)
  }

  lemma OnwardAdvances(s: State)
    requires Ownership(s) && Busy(s.bc)
    ensures Enabled(s, Onward(s))
    ensures var t := Apply(s, Onward(s));
      && (t.bc.Idle? || Busy(t.bc)) && t.svcs == s.svcs && t.outClosed == s.outClosed && t.direct == s.direct
      && (|| HubProgress.Stage(t.bc) < HubProgress.Stage(s.bc)
          || (t.bc == s.bc && HubProgress.Joining(t) < HubProgress.Joining(s))
          || (s.bc.Sending? && t.bc.Sending? && HubProgress.SendsLeft(t.bc) < HubProgress.SendsLeft(s.bc)))
  {
    if s.bc.Sending? && s.bc.left != {} {
      HubProgress.SendMakesProgress(s, Onward(s).o);
    }
  }

  /** Whatever it is handling, the broadcaster can get back to its select. */
  lemma {:induction false} BackToIdle(s: State) returns (t: State)
    requires Ownership(s) && (s.bc.Idle? || Busy(s.bc))
    ensures Leads(Next, s, t) && Ownership(t) && t.bc.Idle?
    ensures t.svcs == s.svcs && t.outClosed == s.outClosed && t.direct == s.direct
    decreases HubProgress.Stage(s.bc), HubProgress.SendsLeft(s.bc), HubProgress.Joining(s)
  {
    LeadsStart(Next, s);
    if s.bc.Idle? {
      t := s;
    } else {
      OnwardAdvances(s);
      var m := Apply(s, Onward(s));
      LeadsStep(Next, s, s, Onward(s), m);
      StepKeepsOwnership(s, Onward(s));
      t := BackToIdle(m);
      LeadsThen(Next, s, m, t);
    }
  }

  ghost predicate EndsOnlyWhenClosed(s: State) {
    s.bc.GotClose? || s.bc.Closing? || s.bc.Done? ==> s.outClosed
  }

  lemma ReachableEnds(s: State)
    requires Reachable(s)
    ensures EndsOnlyWhenClosed(s)
  {
    var acts :| Run(Next, Init(), acts, s);
    forall x, a, y | EndsOnlyWhenClosed(x) && Next(x, a, y) ensures EndsOnlyWhenClosed(y) {
      StepKeepsEnds(x, a);
    }
    RunKeeps(Next, EndsOnlyWhenClosed, Init(), acts, s);
  }

  lemma StepKeepsEnds(s: State, a: Action)
    requires EndsOnlyWhenClosed(s) && Enabled(s, a)
    ensures EndsOnlyWhenClosed(Apply(s, a))
  {
    if !ByBroadcasterLoop(a) {
      assert Apply(s, a).bc == s.bc && (s.outClosed ==> Apply(s, a).outClosed);
    }
  }

  /** The broadcaster at its select takes a frame and puts it in the log, once a joiner lets go of the mutex. */
  lemma TakenIsLogged(s: State, a: Action, f: Frame) returns (t: State)
    requires Ownership(s) && Enabled(s, a) && (a.RecvService? || a.RecvDirect?) && Apply(s, a).bc == Got(f)
    ensures Leads(Next, s, t) && t.log == s.log + [f]
  {
    LeadsStart(Next, s);
    var m := Apply(s, a);
    LeadsStep(Next, s, s, a, m);
    StepKeepsOwnership(s, a);
    t := GotIsLogged(m, f);
    LeadsThen(Next, s, m, t);
  }

  lemma GotIsLogged(s: State, f: Frame) returns (t: State)
    requires Ownership(s) && s.bc == Got(f)
    ensures Leads(Next, s, t) && t.log == s.log + [f]
  {
    LeadsStart(Next, s);
    var m := s;
    if s.muConns.ByJoiner? {
      m := Apply(s, Join);
      StepKeepsOwnership(s, Join);
      LeadsStep(Next, s, s, Join, m);
    }
    var n := Apply(m, LockClone);
    LeadsStep(Next, s, m, LockClone, n);
    t := Apply(n, Clone);
    LeadsStep(Next, s, n, Clone, t);
  }

  /** However busy the hub and however many clients are stalled: from every reachable state in which a
      service offers a frame, and the hub's channel is not closed, some run broadcasts it. */
  lemma OfferedCanBeBroadcast(s: State, v: nat) returns (t: State)
    requires Reachable(s) && !s.outClosed && v < |s.svcs| && s.svcs[v].loop.Offering?
    ensures Leads(Next, s, t) && t.log != [] && t.log[|t.log| - 1] == s.svcs[v].loop.frame
  {
    HubProgress.ReachableOwned(s);
    ReachableEnds(s);
    var m := BackToIdle(s);
    t := TakenIsLogged(m, RecvService(v), s.svcs[v].loop.frame);
    LeadsThen(Next, s, m, t);
  }

  /** And so for what is sent straight to the hub. */
  lemma DirectCanBeBroadcast(s: State, k: nat) returns (t: State)
    requires Reachable(s) && !s.outClosed && k < |s.direct|
    ensures Leads(Next, s, t) && t.log != [] && t.log[|t.log| - 1] == s.direct[k]
  {
    HubProgress.ReachableOwned(s);
    ReachableEnds(s);
    var m := BackToIdle(s);
    t := TakenIsLogged(m, RecvDirect(k), s.direct[k]);
    LeadsThen(Next, s, m, t);
  }

  /** From a put on: a service that was not stopped can hand on the oldest value in its Out that marshals. */
  lemma PutCanBeBroadcast(s: State, v: nat) returns (t: State)
    requires Reachable(s) && !s.outClosed && v < |s.svcs| && s.svcs[v].loop.Waiting?
    requires s.svcs[v].queue != [] && s.svcs[v].queue[0].Encodable?
    ensures Leads(Next, s, t) && t.log != []
    ensures t.log[|t.log| - 1] == Frame(FromQueue(v, s.svcs[v].consumed), s.svcs[v].name, s.svcs[v].queue[0].body)
  {
    HubProgress.ReachableOwned(s);
    var m := Apply(s, ServiceTake(v));
    LeadsStart(Next, s);
    LeadsStep(Next, s, s, ServiceTake(v), m);
    var acts :| Run(Next, Init(), acts, s);
    RunLast(Next, Init(), acts, s, ServiceTake(v), m);
    t := OfferedCanBeBroadcast(m, v);
    LeadsThen(Next, s, m, t);
  }
}
