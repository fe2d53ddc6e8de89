/** Removal of dead clients from the websocket hub: who is removed, and that everyone who must be can be. */
module HubRemoval {
  import opened Common
  import opened Hub
  import opened HubProgress

  /** The removal of client `o` is queued or under way. */
  predicate Queued(s: State, o: nat) {
    o in s.connsToRemove || ((s.bc.GotRemoval? || s.bc.Removing?) && s.bc.conn == o)
  }

  ghost predicate RemovalOf(s: State, o: nat)
    requires o < |s.heap|
  {
    var c := s.heap[o];
    && (c.writer.Gone? && c.out.open ==> Queued(s, o))
    && (Queued(s, o) ==> c.writer.Gone?)
    && (!c.out.open && !c.writer.Gone? ==> s.bc.Done?)
  }

  ghost predicate Removals(s: State) {
    forall o :: 0 <= o < |s.heap| ==> RemovalOf(s, o)
  }

  // Every step keeps it ////////////////////////////////////////////////////////////////////////////

  lemma QuietKeepsRemovals(s: State, a: Action, o: nat)
    requires Ownership(s) && Removals(s) && Enabled(s, a) && Quiet(a) && o < |s.heap|
    ensures o < |Apply(s, a).heap| && RemovalOf(Apply(s, a), o)
  {
    assert RemovalOf(s, o);
    if a.Report? {
      assert o in Apply(s, a).connsToRemove <==> o in s.connsToRemove || o == a.o;
    }
  }

  lemma JoinKeepsRemovals(s: State, o: nat)
    requires Ownership(s) && Removals(s) && Enabled(s, Join) && o < |Apply(s, Join).heap|
    ensures RemovalOf(Apply(s, Join), o)
  {
    if o < |s.heap| {
      assert RemovalOf(s, o);
    } else {
      assert !Queued(s, o);
    }
  }

  lemma RemoveKeepsRemovals(s: State, o: nat)
    requires Ownership(s) && Removals(s) && Enabled(s, Remove) && o < |s.heap|
    ensures o < |Apply(s, Remove).heap| && RemovalOf(Apply(s, Remove), o)
  {
    assert RemovalOf(s, o);
    RemoveCloses(s);
  }

  /** Removing a client closes its channel and no other. */
  lemma RemoveCloses(s: State)
    requires Ownership(s) && Enabled(s, Remove)
    ensures var t := Apply(s, Remove);
      && |t.heap| == |s.heap| && t.bc.Idle? && t.muConns.Free? && t.connsToRemove == s.connsToRemove
      && forall o :: 0 <= o < |s.heap| ==>
           && t.heap[o].writer == s.heap[o].writer && t.heap[o].id == s.heap[o].id
           && (t.heap[o].out.open <==> s.heap[o].out.open && o != s.bc.conn)
  {
    var o := s.bc.conn;
    assert s.heap[o].out.open <==> Registered(s, o);
    assert s.heap[o].id in s.conns ==> s.conns[s.heap[o].id] == o;
  }

  lemma CloseAllKeepsRemovals(s: State, o: nat)
    requires Ownership(s) && Removals(s) && Enabled(s, CloseAll) && o < |s.heap|
    ensures o < |Apply(s, CloseAll).heap| && RemovalOf(Apply(s, CloseAll), o)
  {
    assert RemovalOf(s, o);
    CloseAllCloses(s);
  }

  lemma CloseAllCloses(s: State)
    requires Ownership(s) && Enabled(s, CloseAll)
    ensures var t := Apply(s, CloseAll);
      && |t.heap| == |s.heap| && t.bc.Done? && t.connsToRemove == s.connsToRemove && !t.panicked
      && forall o :: 0 <= o < |s.heap| ==>
           t.heap[o].writer == s.heap[o].writer && t.heap[o].id == s.heap[o].id && !t.heap[o].out.open
  {
    forall i | i in s.conns ensures s.heap[s.conns[i]].out.open {
      assert Registered(s, s.conns[i]);
    }
    forall o | 0 <= o < |s.heap| && s.heap[o].out.open ensures o in Clients(s.conns) {
      assert Registered(s, o);
      assert s.conns[s.heap[o].id] == o;
    }
  }

  lemma SendKeepsRemovals(s: State, p: nat, o: nat)
    requires Ownership(s) && Removals(s) && Enabled(s, Send(p)) && o < |s.heap|
    ensures o < |Apply(s, Send(p)).heap| && RemovalOf(Apply(s, Send(p)), o)
  {
    assert RemovalOf(s, o);
    assert s.heap[p].out.open;
  }

  lemma OthersKeepRemovals(s: State, a: Action, o: nat)
    requires Removals(s) && Enabled(s, a) && o < |s.heap|
    requires !Quiet(a) && !a.Join? && !a.Remove? && !a.CloseAll? && !a.Send?
    ensures o < |Apply(s, a).heap| && RemovalOf(Apply(s, a), o)
  {
    assert RemovalOf(s, o);
    assert Apply(s, a).heap == s.heap;
    if a.RecvRemoval? {
      assert s.connsToRemove == [s.connsToRemove[0]] + s.connsToRemove[1..];
    }
  }

  lemma StepKeepsRemovals(s: State, a: Action)
    requires Ownership(s) && Removals(s) && Enabled(s, a)
    ensures Removals(Apply(s, a))
  {
    var t := Apply(s, a);
    forall o | 0 <= o < |t.heap| ensures RemovalOf(t, o) {
      if a.Join? {
        JoinKeepsRemovals(s, o);
      } else {
        HeapKeepsSize(s, a);
        if Quiet(a) {
          QuietKeepsRemovals(s, a, o);
        } else if a.Remove? {
          RemoveKeepsRemovals(s, o);
        } else if a.CloseAll? {
          CloseAllKeepsRemovals(s, o);
        } else if a.Send? {
          SendKeepsRemovals(s, a.o, o);
        } else {
          OthersKeepRemovals(s, a, o);
        }
      }
    }
  }

  lemma HeapKeepsSize(s: State, a: Action)
    requires Enabled(s, a) && !a.Join?
    ensures |Apply(s, a).heap| == |s.heap|
  {
  }

  lemma ReachableRemovals(s: State)
    requires Reachable(s)
    ensures Ownership(s) && Removals(s)
  {
    var acts :| Run(Next, Init(), acts, s);
    var keeps := (x: State) => Ownership(x) && Removals(x);
    forall x, a, y | keeps(x) && Next(x, a, y) ensures keeps(y) {
      StepKeepsOwnership(x, a);
      StepKeepsRemovals(x, a);
    }
    RunKeeps(Next, keeps, Init(), acts, s);
  }

  // Who is removed //////////////////////////////////////////////////////////////////////////////////

  /** In every reachable state: a client whose writer has ended while its channel is open is queued for
      removal, and only such writers are; and a channel is closed only if its writer has ended, or by
      the teardown. */
  lemma DeadClientsAreQueued(s: State, o: nat)
    requires Reachable(s) && o < |s.heap|
    ensures s.heap[o].writer.Gone? && s.heap[o].out.open ==> Queued(s, o)
    ensures Queued(s, o) ==> s.heap[o].writer.Gone?
    ensures !s.heap[o].out.open ==> s.heap[o].writer.Gone? || s.bc.Done?
  {
    ReachableRemovals(s);
    assert RemovalOf(s, o);
  }

  /** A failed write dooms its client and nobody else. */
  lemma FailedWriteDooms(s: State, o: nat)
    requires Enabled(s, WriteFail(o))
    ensures var t := Apply(s, WriteFail(o));
      && |t.heap| == |s.heap| && Doomed(t, o)
      && forall p :: 0 <= p < |s.heap| && p != o ==> (Doomed(t, p) <==> Doomed(s, p))
  {
  }

  predicate Suspect(s: State, o: nat) {
    o < |s.heap| && (Doomed(s, o) || (s.heap[o].writer.Gone? && s.heap[o].out.open))
  }

  lemma QuietSuspects(s: State, a: Action, o: nat)
    requires Ownership(s) && Removals(s) && Enabled(s, a) && Quiet(a) && Suspect(Apply(s, a), o)
    ensures Suspect(s, o) || a == WriteFail(o)
  {
    assert |Apply(s, a).heap| == |s.heap|;
    if a.Report? {
      assert o in Apply(s, a).connsToRemove <==> o in s.connsToRemove || o == a.o;
    }
  }

  lemma OtherSuspects(s: State, a: Action, o: nat)
    requires Ownership(s) && Removals(s) && Enabled(s, a) && !Quiet(a) && Suspect(Apply(s, a), o)
    ensures Suspect(s, o)
  {
    if a.Join? {
      assert !Queued(s, |s.heap|);
    } else if a.Remove? {
      RemoveCloses(s);
    } else if a.CloseAll? {
      CloseAllCloses(s);
    } else if a.Send? {
      assert s.heap[a.o].out.open;
    } else {
      assert Apply(s, a).heap == s.heap;
    }
  }

  /** Over every run: only a client whose write failed is ever reported, queued or removed by the hub's loop. */
  lemma {:induction false} OnlyFailedWritesAreRemoved(acts: seq<Action>, s: State, o: nat)
    requires Run(Next, Init(), acts, s) && Suspect(s, o)
    ensures WriteFail(o) in acts
    decreases |acts|
  {
    if acts != [] {
      var m := RunBeforeLast(Next, Init(), acts, s);
      var last := acts[|acts| - 1];
      ReachableRemovals(m);
      if Quiet(last) {
        QuietSuspects(m, last, o);
      } else {
        OtherSuspects(m, last, o);
      }
      if last != WriteFail(o) {
        OnlyFailedWritesAreRemoved(acts[..|acts| - 1], m, o);
      }
    }
  }

  // Everyone who must be removed can be /////////////////////////////////////////////////////////////

  /** The client's write failed, and its removal has yet to happen. */
  predicate Doomed(s: State, o: nat)
    requires o < |s.heap|
  {
    s.heap[o].writer.Reporting? || Queued(s, o)
  }

  /** What the hub and the client do next towards the removal. */
  ghost function Towards(s: State, o: nat): Action
    requires o < |s.heap|
  {
    match s.bc
    case Idle => if s.connsToRemove != [] then RecvRemoval else Report(o)
    case Got(_) => if s.muConns.Free? then LockClone else Join
    case GotRemoval(_) => if s.muConns.Free? then LockRemove else Join
    case GotClose => if s.muConns.Free? then LockClose else Join
    case Cloning(_) => Clone
    case Removing(_) => Remove
    case Closing => CloseAll
    case Sending(_, left) =>
      if left == {} then SendsDone
      else
        var p: nat :| p in left;
        Send(p)
    case Done => Join
  }

  /** The client is still doomed, or its channel is closed; it is the same client. */
  predicate StillDoomed(s: State, t: State, o: nat)
    requires o < |s.heap|
  {
    && o < |t.heap| && t.heap[o].id == s.heap[o].id && t.heap[o].writer == s.heap[o].writer
    && (!t.heap[o].out.open || (Doomed(t, o) && !t.bc.Done?))
  }

  lemma MovingOn(s: State, o: nat)
    requires Ownership(s) && o < |s.heap| && Doomed(s, o) && (s.bc.Got? || s.bc.GotRemoval? || s.bc.GotClose?)
    ensures var a := Towards(s, o); Enabled(s, a) && StillDoomed(s, Apply(s, a), o)
    ensures var t := Apply(s, Towards(s, o));
      && t.connsToRemove == s.connsToRemove
      && (Stage(t.bc) < Stage(s.bc) || (t.bc == s.bc && Joining(t) < Joining(s)))
  {
  }

  lemma SendingOn(s: State, o: nat)
    requires Ownership(s) && o < |s.heap| && Doomed(s, o) && s.bc.Sending?
    ensures var a := Towards(s, o); Enabled(s, a) && StillDoomed(s, Apply(s, a), o)
    ensures var t := Apply(s, Towards(s, o));
      && t.connsToRemove == s.connsToRemove
      && (Stage(t.bc) < Stage(s.bc) || (Stage(t.bc) == Stage(s.bc) && SendsLeft(t.bc) < SendsLeft(s.bc)))
  {
    if s.bc.left != {} {
      SendMakesProgress(s, Towards(s, o).o);
    }
  }

  lemma Finishing(s: State, o: nat)
    requires Ownership(s) && o < |s.heap| && Doomed(s, o) && (s.bc.Cloning? || s.bc.Removing? || s.bc.Closing?)
    ensures var a := Towards(s, o); Enabled(s, a) && StillDoomed(s, Apply(s, a), o)
    ensures var t := Apply(s, Towards(s, o));
      t.connsToRemove == s.connsToRemove && (t.heap[o].out.open ==> Stage(t.bc) < Stage(s.bc))
  {
    if s.bc.Removing? {
      RemoveCloses(s);
    } else if s.bc.Closing? {
      CloseAllCloses(s);
    }
  }

  lemma TakingRemoval(s: State, o: nat)
    requires Ownership(s) && o < |s.heap| && Doomed(s, o) && s.bc.Idle? && s.connsToRemove != []
    ensures Enabled(s, RecvRemoval) && StillDoomed(s, Apply(s, RecvRemoval), o)
    ensures |Apply(s, RecvRemoval).connsToRemove| < |s.connsToRemove|
  {
    assert s.connsToRemove == [s.connsToRemove[0]] + s.connsToRemove[1..];
  }

  lemma Reporting(s: State, o: nat)
    requires Ownership(s) && o < |s.heap| && Doomed(s, o) && s.bc.Idle? && s.connsToRemove == []
    ensures Enabled(s, Report(o)) && s.heap[o].writer.Reporting?
    ensures var t := Apply(s, Report(o));
      o < |t.heap| && t.heap[o].id == s.heap[o].id && t.heap[o].writer.Gone? && Doomed(t, o) && !t.bc.Done?
  {
    assert Apply(s, Report(o)).connsToRemove == [o];
  }

  lemma {:induction false} LeadsToRemoval(s: State, o: nat) returns (t: State)
    requires Ownership(s) && o < |s.heap| && (!s.heap[o].out.open || (Doomed(s, o) && !s.bc.Done?))
    ensures Leads(Next, s, t) && Ownership(t)
    ensures o < |t.heap| && t.heap[o].id == s.heap[o].id && !t.heap[o].out.open
    decreases if s.heap[o].writer.Reporting? then 1 else 0, |s.connsToRemove|, Stage(s.bc), SendsLeft(s.bc), Joining(s)
  {
    LeadsStart(Next, s);
    if !s.heap[o].out.open {
      t := s;
    } else {
      var a := Towards(s, o);
      if s.bc.Idle? && s.connsToRemove != [] {
        TakingRemoval(s, o);
      } else if s.bc.Idle? {
        Reporting(s, o);
      } else if s.bc.Sending? {
        SendingOn(s, o);
      } else if s.bc.Cloning? || s.bc.Removing? || s.bc.Closing? {
        Finishing(s, o);
      } else {
        MovingOn(s, o);
      }
      var m := Apply(s, a);
      LeadsStep(Next, s, s, a, m);
      StepKeepsOwnership(s, a);
      t := LeadsToRemoval(m, o);
      LeadsThen(Next, s, m, t);
    }
  }

  /** However many clients are stalled, dead or queued before it: from every reachable state in which a
      client's write has failed, some run closes its channel and takes it out of conns, as long as the hub's
      loop has not ended. */
  lemma DeadClientsCanBeRemoved(s: State, o: nat) returns (t: State)
    requires Reachable(s) && o < |s.heap| && !s.bc.Done?
    requires Doomed(s, o) || (s.heap[o].writer.Gone? && s.heap[o].out.open)
    ensures Leads(Next, s, t)
    ensures o < |t.heap| && !t.heap[o].out.open && s.heap[o].id !in t.conns
  {
    DeadClientsAreQueued(s, o);
    ReachableRemovals(s);
    t := LeadsToRemoval(s, o);
    NotFiled(t, o);
  }

  lemma NotFiled(t: State, o: nat)
    requires Ownership(t) && o < |t.heap| && !t.heap[o].out.open
    ensures t.heap[o].id !in t.conns
  {
    assert !Registered(t, o);
  }
}
