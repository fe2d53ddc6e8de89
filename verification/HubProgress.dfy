/** Ownership of the client channels and progress of the websocket hub, over every run. */
module HubProgress {
  import opened Common
  import opened Hub
  import opened HubDelivery

  /** In every reachable state a client's channel is open exactly when the client is in conns, each
      client is filed under its own id, ids are unique and at most nextId, and no step has ever sent
      on or closed a closed channel. */
  lemma ChannelsOwned(s: State)
    requires Reachable(s)
    ensures !s.panicked
    ensures forall o :: 0 <= o < |s.heap| ==>
      && (s.heap[o].out.open <==> s.heap[o].id in s.conns && s.conns[s.heap[o].id] == o)
      && 1 <= s.heap[o].id <= s.nextId
    ensures forall o, p :: 0 <= o < p < |s.heap| ==> s.heap[o].id != s.heap[p].id
    ensures forall i :: i in s.conns ==> s.conns[i] < |s.heap| && s.heap[s.conns[i]].id == i
  {
    ReachableInv(s);
    assert forall o :: 0 <= o < |s.heap| ==> (s.heap[o].out.open <==> Registered(s, o));
  }

  /** A closed channel stays closed, so a client that was removed is never sent to again. */
  lemma NoStepReopens(s: State, a: Action, o: nat)
    requires Reachable(s) && Enabled(s, a) && o < |s.heap| && !s.heap[o].out.open
    ensures o < |Apply(s, a).heap|
    ensures !Apply(s, a).heap[o].out.open && Apply(s, a).heap[o].offers == s.heap[o].offers
  {
    ReachableOwned(s);
    if Quiet(a) {
      QuietLeavesClosed(s, a, o);
    } else if a.Join? || a.Send? || a.Remove? || a.CloseAll? {
      HubLeavesClosed(s, a, o);
    } else {
      assert Apply(s, a).heap == s.heap;
    }
  }

  lemma HubLeavesClosed(s: State, a: Action, o: nat)
    requires Ownership(s) && Enabled(s, a) && o < |s.heap| && !s.heap[o].out.open
    requires a.Join? || a.Send? || a.Remove? || a.CloseAll?
    ensures |s.heap| <= |Apply(s, a).heap|
    ensures !Apply(s, a).heap[o].out.open && Apply(s, a).heap[o].offers == s.heap[o].offers
  {
    if a.Send? {
      assert s.heap[a.o].out.open;
    }
  }

  lemma QuietLeavesClosed(s: State, a: Action, o: nat)
    requires Enabled(s, a) && Quiet(a) && o < |s.heap|
    ensures |Apply(s, a).heap| == |s.heap|
    ensures Apply(s, a).heap[o].out.open == s.heap[o].out.open && Apply(s, a).heap[o].offers == s.heap[o].offers
  {
  }

  // The broadcaster is never stuck ///////////////////////////////////////////////////////////////

  ghost predicate MessageOffered(s: State) {
    s.direct != [] || exists v :: 0 <= v < |s.svcs| && s.svcs[v].loop.Offering?
  }

  ghost predicate BroadcasterCanStep(s: State) {
    exists a :: ByBroadcasterLoop(a) && Enabled(s, a)
  }

  lemma CanStep(s: State, a: Action)
    requires ByBroadcasterLoop(a) && Enabled(s, a)
    ensures BroadcasterCanStep(s)
  {
  }

  /** However many clients are stalled or dead: with a message offered or a removal queued, the
      broadcaster can step, or it waits for the mutex, whose holder then can step and let it go. */
  lemma BroadcasterNeverStuck(s: State)
    requires Reachable(s) && !s.bc.Done?
    requires s.bc.Idle? ==> MessageOffered(s) || s.connsToRemove != [] || s.outClosed
    ensures BroadcasterCanStep(s) || (Enabled(s, Join) && BroadcasterCanStep(Apply(s, Join)))
  {
    ReachableOwned(s);
    match s.bc
    case Idle =>
      if s.connsToRemove != [] {
        CanStep(s, RecvRemoval);
      } else if s.outClosed {
        CanStep(s, RecvClosed);
      } else if s.direct != [] {
        CanStep(s, RecvDirect(0));
      } else {
        var v :| 0 <= v < |s.svcs| && s.svcs[v].loop.Offering?;
        CanStep(s, RecvService(v));
      }
    case Got(_) => AfterTheMutex(s, LockClone);
    case GotRemoval(_) => AfterTheMutex(s, LockRemove);
    case GotClose => AfterTheMutex(s, LockClose);
    case Cloning(_) => CanStep(s, Clone);
    case Removing(_) => CanStep(s, Remove);
    case Closing => CanStep(s, CloseAll);
    case Sending(_, left) =>
      if left == {} {
        CanStep(s, SendsDone);
      } else {
        var o :| o in left;
        CanStep(s, Send(o));
      }
  }

  lemma AfterTheMutex(s: State, a: Action)
    requires Ownership(s) && ByBroadcasterLoop(a)
    requires (a.LockClone? && s.bc.Got?) || (a.LockRemove? && s.bc.GotRemoval?) || (a.LockClose? && s.bc.GotClose?)
    ensures BroadcasterCanStep(s) || (Enabled(s, Join) && BroadcasterCanStep(Apply(s, Join)))
  {
    if s.muConns.Free? {
      CanStep(s, a);
    } else {
      CanStep(Apply(s, Join), a);
    }
  }

  /** Steps left until the broadcaster is back at its select, apart from the sends. */
  function Stage(bc: Broadcaster): nat {
    match bc
    case Idle => 0
    case Done => 0
    case Sending(_, _) => 1
    case Cloning(_) => 2
    case Got(_) => 3
    case Removing(_) => 2
    case GotRemoval(_) => 3
    case Closing => 2
    case GotClose => 3
  }

  function SendsLeft(bc: Broadcaster): nat {
    match bc
    case Sending(_, left) => |left|
    case _ => 0
  }

  /** A joiner holds the mutex, and has one step to take. */
  function Joining(s: State): nat {
    if s.muConns.ByJoiner? then 1 else 0
  }

  lemma SendMakesProgress(s: State, o: nat)
    requires Ownership(s) && Enabled(s, Send(o))
    ensures Apply(s, Send(o)).bc == Sending(s.bc.frame, s.bc.left - {o})
    ensures |s.bc.left - {o}| < |s.bc.left|
  {
    assert s.bc.left == (s.bc.left - {o}) + {o};
    assert s.heap[o].out.open;
  }

  lemma OtherStepsAdvance(s: State, a: Action)
    requires Enabled(s, a) && !s.bc.Idle? && !a.Send?
    ensures ByBroadcasterLoop(a) ==> Stage(Apply(s, a).bc) < Stage(s.bc)
    ensures !ByBroadcasterLoop(a) ==> Apply(s, a).bc == s.bc
  {
  }

  /** Handling one message or one removal takes the broadcaster finitely many of its own steps, and
      no step of anybody else adds to them. */
  lemma BroadcasterReturns(s: State, a: Action)
    requires Reachable(s) && Enabled(s, a) && !s.bc.Idle?
    ensures var bc := Apply(s, a).bc;
      if ByBroadcasterLoop(a) then
        Stage(bc) < Stage(s.bc) || (Stage(bc) == Stage(s.bc) && SendsLeft(bc) < SendsLeft(s.bc))
      else bc == s.bc
  {
    if a.Send? {
      ReachableOwned(s);
      SendMakesProgress(s, a.o);
    } else {
      OtherStepsAdvance(s, a);
    }
  }

  lemma ReachableOwned(s: State)
    requires Reachable(s)
    ensures Ownership(s)
  {
    ReachableInv(s);
  }

  /** Steps that send to or receive from a channel. */
  predicate UsesChannel(a: Action) {
    a.SayHello? || a.TakeHello? || a.TakeOut? || a.SeeClosed? || a.Report? || a.Unregister? || a.Put? ||
    a.ServiceTake? || a.ServiceStop? || a.OfferDirect? || a.RecvService? || a.RecvDirect? || a.Send? ||
    a.RecvRemoval? || a.RecvClosed?
  }

  lemma HolderReleases(s: State, a: Action)
    requires s.bc.Cloning? || s.bc.Removing? || s.bc.Closing?
    requires ByBroadcasterLoop(a) && Enabled(s, a)
    ensures !UsesChannel(a) && Apply(s, a).muConns.Free?
  {
  }

  /** Whoever holds muConns lets go of it in its next step, which it can always take and which
      neither sends nor receives. */
  lemma MutexNeverHeldAcrossChannelUse(s: State)
    requires Reachable(s)
    ensures s.muConns.ByJoiner? ==> Enabled(s, Join) && !UsesChannel(Join) && Apply(s, Join).muConns.Free?
    ensures s.muConns.ByBroadcaster? ==> BroadcasterCanStep(s)
    ensures forall a :: s.muConns.ByBroadcaster? && ByBroadcasterLoop(a) && Enabled(s, a) ==>
      !UsesChannel(a) && Apply(s, a).muConns.Free?
  {
    ReachableOwned(s);
    if s.muConns.ByBroadcaster? {
      CanStep(s, if s.bc.Cloning? then Clone else if s.bc.Removing? then Remove else CloseAll);
      forall a | ByBroadcasterLoop(a) && Enabled(s, a) ensures !UsesChannel(a) && Apply(s, a).muConns.Free? {
        HolderReleases(s, a);
      }
    }
  }

  // Unregister never blocks ////////////////////////////////////////////////////////////////////

  ghost predicate StopRoom(s: State) {
    && (forall n :: n in s.services ==>
          s.services[n] < |s.svcs| && s.svcs[s.services[n]].stops == 0 && s.svcs[s.services[n]].name == n)
    && (forall v :: 0 <= v < |s.svcs| ==> s.svcs[v].stops <= 1)
  }

  lemma StepKeepsStopRoom(s: State, a: Action)
    requires StopRoom(s) && Enabled(s, a)
    ensures StopRoom(Apply(s, a))
  {
    var t := Apply(s, a);
    if a.Unregister? || a.Register? || a.Put? || a.ServiceTake? || a.ServiceStop? || a.RecvService? {
      ServicesKeepStopRoom(s, a);
    } else {
      assert t.svcs == s.svcs && t.services == s.services;
    }
  }

  lemma UnregisterKeepsStopRoom(s: State, name: string)
    requires StopRoom(s) && Enabled(s, Unregister(name))
    ensures StopRoom(Apply(s, Unregister(name)))
  {
    if name in s.services {
      assert forall n :: n in s.services && n != name ==> s.services[n] != s.services[name];
    }
  }

  lemma ServicesKeepStopRoom(s: State, a: Action)
    requires StopRoom(s) && Enabled(s, a)
    requires a.Unregister? || a.Register? || a.Put? || a.ServiceTake? || a.ServiceStop? || a.RecvService?
    ensures StopRoom(Apply(s, a))
  {
    if a.Unregister? {
      UnregisterKeepsStopRoom(s, a.name);
    } else if a.Register? {
      assert Apply(s, a).svcs[..|s.svcs|] == s.svcs;
    } else {
      var t := Apply(s, a);
      assert t.services == s.services && |t.svcs| == |s.svcs|;
      assert forall v :: 0 <= v < |s.svcs| ==> t.svcs[v].stops <= s.svcs[v].stops && t.svcs[v].name == s.svcs[v].name;
    }
  }

  /** In every reachable state, unregistering any type finds room in stopCh. */
  lemma UnregisterNeverBlocks(s: State, name: string)
    requires Reachable(s)
    ensures Enabled(s, Unregister(name))
    ensures name !in Apply(s, Unregister(name)).services
  {
    ReachableInv(s);
    ReachableStopRoom(s);
  }

  lemma ReachableStopRoom(s: State)
    requires Reachable(s)
    ensures StopRoom(s)
  {
    var acts :| Run(Next, Init(), acts, s);
    forall x, a, y | StopRoom(x) && Next(x, a, y) ensures StopRoom(y) {
      StepKeepsStopRoom(x, a);
    }
    RunKeeps(Next, StopRoom, Init(), acts, s);
  }
}
