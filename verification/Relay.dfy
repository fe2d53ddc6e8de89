/** The byte relay (internalsdk/relay.go): copyToUpstream and copyFromUpstream run at once over one
    downstream and one upstream connection. */
module Relay {
  import opened Common

  const CHUNK: nat := 2048

  newtype byte = x: int | 0 <= x < 256

  datatype Loop = Reading | Holding(chunk: seq<byte>) | Exiting | Ended

  // One direction: what was read from one side, what the other side got, and what was dropped
  datatype Flow = Flow(
    loop: Loop,
    read: seq<byte>, delivered: seq<byte>, lost: seq<byte>)   // history

  datatype State = State(toUpstream: Flow, fromUpstream: Flow, downstreamClosed: bool, upstreamClosed: bool)

  function Init(): State {
    State(Flow(Reading, [], [], []), Flow(Reading, [], [], []), false, false)
  }

  // A read yields `data`, and fails or not; a write hands over `accepted` bytes, all of them unless it fails.
  datatype Action =
    | ReadDownstream(data: seq<byte>, failed: bool)
    | WriteUpstream(accepted: nat, failed: bool)
    | LeaveToUpstream
    | ReadUpstream(data: seq<byte>, failed: bool)
    | WriteDownstream(accepted: nat, failed: bool)
    | LeaveFromUpstream

  predicate CanWrite(f: Flow, accepted: nat, failed: bool) {
    f.loop.Holding? && accepted <= |f.loop.chunk| && (!failed ==> accepted == |f.loop.chunk|)
  }

  predicate Enabled(s: State, a: Action) {
    match a
    case ReadDownstream(data, _) => s.toUpstream.loop.Reading? && |data| <= CHUNK
    case WriteUpstream(accepted, failed) => CanWrite(s.toUpstream, accepted, failed)
    case LeaveToUpstream => s.toUpstream.loop.Exiting?
    case ReadUpstream(_, _) => s.fromUpstream.loop.Reading?
    case WriteDownstream(accepted, failed) => CanWrite(s.fromUpstream, accepted, failed)
    case LeaveFromUpstream => s.fromUpstream.loop.Exiting?
  }

  function AfterRead(f: Flow, data: seq<byte>, failed: bool): Flow {
    if failed then Flow(Exiting, f.read + data, f.delivered, f.lost + data)
    else Flow(Holding(data), f.read + data, f.delivered, f.lost)
  }

  function AfterWrite(f: Flow, accepted: nat, failed: bool): Flow
    requires CanWrite(f, accepted, failed)
  {
    Flow(if failed then Exiting else Reading, f.read, f.delivered + f.loop.chunk[..accepted],
      f.lost + f.loop.chunk[accepted..])
  }

  function Apply(s: State, a: Action): State
    requires Enabled(s, a)
  {
    match a
    case ReadDownstream(data, failed) =>
      s.(toUpstream := AfterRead(s.toUpstream, data, failed), upstreamClosed := s.upstreamClosed || failed)
    case WriteUpstream(accepted, failed) => s.(toUpstream := AfterWrite(s.toUpstream, accepted, failed))
    case LeaveToUpstream => s.(toUpstream := s.toUpstream.(loop := Ended), downstreamClosed := true)
    case ReadUpstream(data, failed) =>
      s.(fromUpstream := AfterRead(s.fromUpstream, data, failed), downstreamClosed := s.downstreamClosed || failed)
    case WriteDownstream(accepted, failed) => s.(fromUpstream := AfterWrite(s.fromUpstream, accepted, failed))
    case LeaveFromUpstream => s.(fromUpstream := s.fromUpstream.(loop := Ended), upstreamClosed := true)
  }

  ghost predicate Next(s: State, a: Action, t: State) {
    Enabled(s, a) && t == Apply(s, a)
  }

  ghost predicate Reachable(s: State) {
    exists acts :: Run(Next, Init(), acts, s)
  }

  // Invariant ////////////////////////////////////////////////////////////////////////////////////

  /** Every byte read is delivered, in hand, or lost, in this order; bytes are lost only when the loop ends. */
  predicate Conserved(f: Flow) {
    && f.read == f.delivered + (if f.loop.Holding? then f.loop.chunk else []) + f.lost
    && (f.loop.Reading? || f.loop.Holding? ==> f.lost == [])
  }

  predicate Inv(s: State) {
    && Conserved(s.toUpstream) && Conserved(s.fromUpstream)
    && |s.toUpstream.lost| <= CHUNK
    && (s.toUpstream.loop.Holding? ==> |s.toUpstream.loop.chunk| <= CHUNK)
    && (s.toUpstream.loop.Ended? ==> s.downstreamClosed)
    && (s.fromUpstream.loop.Ended? ==> s.upstreamClosed)
  }

  lemma ReadConserves(f: Flow, data: seq<byte>, failed: bool)
    requires Conserved(f) && f.loop.Reading?
    ensures Conserved(AfterRead(f, data, failed))
  {
    assert f.read + data == f.delivered + data + [];
    assert f.read + data == f.delivered + [] + ([] + data);
  }

  lemma WriteConserves(f: Flow, accepted: nat, failed: bool)
    requires Conserved(f) && CanWrite(f, accepted, failed)
    ensures Conserved(AfterWrite(f, accepted, failed))
  {
    var c := f.loop.chunk;
    assert c == c[..accepted] + c[accepted..];
    assert f.delivered + c + [] == (f.delivered + c[..accepted]) + [] + ([] + c[accepted..]);
  }

  lemma StepKeepsInv(s: State, a: Action)
    requires Inv(s) && Enabled(s, a)
    ensures Inv(Apply(s, a))
  {
    match a
    case ReadDownstream(data, failed) => ReadConserves(s.toUpstream, data, failed);
    case ReadUpstream(data, failed) => ReadConserves(s.fromUpstream, data, failed);
    case WriteUpstream(accepted, failed) => WriteConserves(s.toUpstream, accepted, failed);
    case WriteDownstream(accepted, failed) => WriteConserves(s.fromUpstream, accepted, failed);
    case _ =>
  }

  lemma ReachableInv(s: State)
    requires Reachable(s)
    ensures Inv(s)
  {
    var acts :| Run(Next, Init(), acts, s);
    forall x, a, y | Inv(x) && Next(x, a, y) ensures Inv(y) {
      StepKeepsInv(x, a);
    }
    RunKeeps(Next, Inv, Init(), acts, s);
  }

  /** In every run each side gets a prefix of what was read from the other: nothing is reordered,
      duplicated or skipped. While a loop is still reading, all of it has been delivered. */
  lemma DeliveredIsPrefix(s: State)
    requires Reachable(s)
    ensures s.toUpstream.delivered <= s.toUpstream.read && s.fromUpstream.delivered <= s.fromUpstream.read
    ensures s.toUpstream.loop.Reading? ==> s.toUpstream.delivered == s.toUpstream.read
    ensures s.fromUpstream.loop.Reading? ==> s.fromUpstream.delivered == s.fromUpstream.read
    ensures |s.toUpstream.read| - |s.toUpstream.delivered| <= CHUNK
  {
    ReachableInv(s);
  }

  /** Once both loops have ended both connections are closed. */
  lemma BothClosed(s: State)
    requires Reachable(s) && s.toUpstream.loop.Ended? && s.fromUpstream.loop.Ended?
    ensures s.downstreamClosed && s.upstreamClosed
  {
    ReachableInv(s);
  }

  // What a run says about lost bytes, without the machine's history /////////////////////////////////////

  datatype Way = Up | Down

  function FlowOf(s: State, way: Way): Flow {
    if way.Up? then s.toUpstream else s.fromUpstream
  }

  predicate Reads(a: Action, way: Way) {
    if way.Up? then a.ReadDownstream? else a.ReadUpstream?
  }

  predicate Writes(a: Action, way: Way) {
    if way.Up? then a.WriteUpstream? else a.WriteDownstream?
  }

  function DataOf(a: Action): seq<byte> {
    if a.ReadDownstream? || a.ReadUpstream? then a.data else []
  }

  /** All bytes the reads of one direction returned, in order. */
  function AllRead(acts: seq<Action>, way: Way): seq<byte> {
    if acts == [] then []
    else AllRead(acts[..|acts| - 1], way) + if Reads(acts[|acts| - 1], way) then DataOf(acts[|acts| - 1]) else []
  }

  /** How many bytes the writes of one direction handed over. */
  function AllAccepted(acts: seq<Action>, way: Way): nat {
    if acts == [] then 0
    else AllAccepted(acts[..|acts| - 1], way) + if Writes(acts[|acts| - 1], way) then acts[|acts| - 1].accepted else 0
  }

  function LastRead(acts: seq<Action>, way: Way): seq<byte> {
    if acts == [] then []
    else if Reads(acts[|acts| - 1], way) then DataOf(acts[|acts| - 1])
    else LastRead(acts[..|acts| - 1], way)
  }

  /** Step `k` is a read that returned bytes along with its error, or a write that handed over less
      than the read before it returned. */
  predicate LosesAt(acts: seq<Action>, k: nat, way: Way)
    requires k < |acts|
  {
    || (Reads(acts[k], way) && acts[k].failed && acts[k].data != [])
    || (Writes(acts[k], way) && acts[k].accepted < |LastRead(acts[..k], way)|)
  }

  ghost predicate Loses(acts: seq<Action>, way: Way) {
    exists k :: 0 <= k < |acts| && LosesAt(acts, k, way)
  }

  lemma LosesOneMore(acts: seq<Action>, way: Way)
    requires acts != []
    ensures Loses(acts, way) <==> Loses(acts[..|acts| - 1], way) || LosesAt(acts, |acts| - 1, way)
  {
    var init := acts[..|acts| - 1];
    assert forall k :: 0 <= k < |init| ==> init[..k] == acts[..k];
    assert forall k :: 0 <= k < |init| ==> LosesAt(init, k, way) == LosesAt(acts, k, way);
  }

  ghost predicate Told(acts: seq<Action>, f: Flow, way: Way) {
    && f.read == AllRead(acts, way) && |f.delivered| == AllAccepted(acts, way)
    && (f.loop.Holding? ==> f.loop.chunk == LastRead(acts, way))
    && (f.lost != [] <==> Loses(acts, way))
  }

  /** What a step does to one direction. */
  lemma FlowStep(m: State, a: Action, way: Way)
    requires Enabled(m, a)
    ensures var f, g := FlowOf(m, way), FlowOf(Apply(m, a), way);
      if Reads(a, way) then f.loop.Reading? && g == AfterRead(f, a.data, a.failed)
      else if Writes(a, way) then CanWrite(f, a.accepted, a.failed) && g == AfterWrite(f, a.accepted, a.failed)
      else g.read == f.read && g.lost == f.lost && g.delivered == f.delivered && (g.loop.Holding? ==> g.loop == f.loop)
  {
  }

  lemma ReadIsTold(acts: seq<Action>, f: Flow, way: Way)
    requires acts != [] && Told(acts[..|acts| - 1], f, way) && Conserved(f) && f.loop.Reading?
    requires Reads(acts[|acts| - 1], way)
    ensures Told(acts, AfterRead(f, acts[|acts| - 1].data, acts[|acts| - 1].failed), way)
  {
    LosesOneMore(acts, way);
  }

  lemma WriteIsTold(acts: seq<Action>, f: Flow, way: Way)
    requires acts != [] && Told(acts[..|acts| - 1], f, way) && Conserved(f)
    requires var a := acts[|acts| - 1]; Writes(a, way) && CanWrite(f, a.accepted, a.failed)
    ensures Told(acts, AfterWrite(f, acts[|acts| - 1].accepted, acts[|acts| - 1].failed), way)
  {
    LosesOneMore(acts, way);
  }

  lemma OtherIsTold(acts: seq<Action>, f: Flow, g: Flow, way: Way)
    requires acts != [] && Told(acts[..|acts| - 1], f, way)
    requires !Reads(acts[|acts| - 1], way) && !Writes(acts[|acts| - 1], way)
    requires g.read == f.read && g.lost == f.lost && g.delivered == f.delivered
    requires g.loop.Holding? ==> g.loop == f.loop
    ensures Told(acts, g, way)
  {
    LosesOneMore(acts, way);
  }

  lemma {:induction false} RunIsTold(acts: seq<Action>, s: State, way: Way)
    requires Run(Next, Init(), acts, s)
    ensures Told(acts, FlowOf(s, way), way)
    decreases |acts|
  {
    if acts != [] {
      var m := RunBeforeLast(Next, Init(), acts, s);
      var f, last := FlowOf(m, way), acts[|acts| - 1];
      RunIsTold(acts[..|acts| - 1], m, way);
      ReachableInv(m);
      FlowStep(m, last, way);
      if Reads(last, way) {
        ReadIsTold(acts, f, way);
      } else if Writes(last, way) {
        WriteIsTold(acts, f, way);
      } else {
        OtherIsTold(acts, f, FlowOf(s, way), way);
      }
    }
  }

  /** Over every run, each way: the other side got exactly the first bytes of all that was read, as many as
      the writes handed over. */
  lemma DeliveredExactly(acts: seq<Action>, s: State, way: Way)
    requires Run(Next, Init(), acts, s)
    ensures AllAccepted(acts, way) <= |AllRead(acts, way)|
    ensures FlowOf(s, way).delivered == AllRead(acts, way)[..AllAccepted(acts, way)]
  {
    RunIsTold(acts, s, way);
    ReachableInv(s);
    DeliveredIsPrefix(s);
  }

  /** Over every run to the end of a loop: the other side got every byte that was read, exactly when no
      read returned bytes along with its error and no write stopped part way. */
  lemma LostExactly(acts: seq<Action>, s: State, way: Way)
    requires Run(Next, Init(), acts, s) && FlowOf(s, way).loop.Ended?
    ensures FlowOf(s, way).delivered == AllRead(acts, way) <==> !Loses(acts, way)
  {
    RunIsTold(acts, s, way);
    ReachableInv(s);
  }

  /** A read of this direction failed in the run. */
  ghost predicate ReadFailed(acts: seq<Action>, way: Way) {
    exists k :: 0 <= k < |acts| && Reads(acts[k], way) && acts[k].failed
  }

  lemma ReadFailedOneMore(acts: seq<Action>, way: Way)
    requires acts != []
    ensures var last := acts[|acts| - 1];
      ReadFailed(acts, way) <==> ReadFailed(acts[..|acts| - 1], way) || (Reads(last, way) && last.failed)
  {
    var init := acts[..|acts| - 1];
    if k :| 0 <= k < |init| && Reads(init[k], way) && init[k].failed {
      assert acts[k] == init[k];
    }
    if k :| 0 <= k < |acts| && Reads(acts[k], way) && acts[k].failed {
      assert k < |init| ==> init[k] == acts[k];
    }
  }

  /** Over every run, each connection is closed exactly when reading the other one failed, or the loop that
      reads it has ended. */
  lemma {:induction false} ClosedExactly(acts: seq<Action>, s: State)
    requires Run(Next, Init(), acts, s)
    ensures s.upstreamClosed <==> ReadFailed(acts, Up) || s.fromUpstream.loop.Ended?
    ensures s.downstreamClosed <==> ReadFailed(acts, Down) || s.toUpstream.loop.Ended?
    decreases |acts|
  {
    if acts != [] {
      var m := RunBeforeLast(Next, Init(), acts, s);
      ClosedExactly(acts[..|acts| - 1], m);
      ReadFailedOneMore(acts, Up);
      ReadFailedOneMore(acts, Down);
    }
  }

  /** And a loop ends exactly one step after its read or its write failed. */
  lemma {:induction false} EndsExactly(acts: seq<Action>, s: State, way: Way)
    requires Run(Next, Init(), acts, s)
    ensures FlowOf(s, way).loop.Exiting? || FlowOf(s, way).loop.Ended? <==> Failed(acts, way)
    decreases |acts|
  {
    if acts != [] {
      var m := RunBeforeLast(Next, Init(), acts, s);
      EndsExactly(acts[..|acts| - 1], m, way);
      FailedOneMore(acts, way);
    }
  }

  ghost predicate Failed(acts: seq<Action>, way: Way) {
    exists k :: 0 <= k < |acts| && (Reads(acts[k], way) || Writes(acts[k], way)) && acts[k].failed
  }

  lemma FailedOneMore(acts: seq<Action>, way: Way)
    requires acts != []
    ensures var last := acts[|acts| - 1];
      Failed(acts, way) <==> Failed(acts[..|acts| - 1], way) || ((Reads(last, way) || Writes(last, way)) && last.failed)
  {
    var init := acts[..|acts| - 1];
    if k :| 0 <= k < |init| && (Reads(init[k], way) || Writes(init[k], way)) && init[k].failed {
      assert acts[k] == init[k];
    }
    if k :| 0 <= k < |acts| && (Reads(acts[k], way) || Writes(acts[k], way)) && acts[k].failed {
      assert k < |init| ==> init[k] == acts[k];
    }
  }

  /** Such a run: the only read returns one byte and an error, and both connections end up closed
      without the byte having been sent. */
  lemma LosingExample() returns (acts: seq<Action>, s: State)
    ensures Run(Next, Init(), acts, s) && |acts| == 2 && acts[0] == ReadDownstream([7], true)
    ensures s.downstreamClosed && s.upstreamClosed && s.toUpstream.loop.Ended?
    ensures AllRead(acts, Up) == [7] && s.toUpstream.delivered == []
  {
    var read := ReadDownstream([7], true);
    var m := Apply(Init(), read);
    s := Apply(m, LeaveToUpstream);
    acts := [read, LeaveToUpstream];
    RunFirst(Next, m, LeaveToUpstream, s, [], s, [LeaveToUpstream]);
    RunFirst(Next, Init(), read, m, [LeaveToUpstream], s, acts);
    RunIsTold(acts, s, Up);
  }

  // The two loops, over one reused buffer ///////////////////////////////////////////////////////////

  datatype Turn = Turn(data: seq<byte>, readFailed: bool, accepted: nat, writeFailed: bool)

  predicate Plausible(t: Turn) {
    |t.data| <= CHUNK && t.accepted <= |t.data| && (!t.writeFailed ==> t.accepted == |t.data|)
  }

  class Tunnel {
    const b: array<byte>
    var n: nat
    var toUpstream: Flow
    var fromUpstream: Flow
    var downstreamClosed: bool
    var upstreamClosed: bool

    ghost function View(): State
      reads this
    {
      State(toUpstream, fromUpstream, downstreamClosed, upstreamClosed)
    }

    constructor ()
      ensures View() == Init() && fresh(b) && b.Length == CHUNK
    {
      b := new byte[CHUNK](_ => 0);
      n := 0;
      toUpstream, fromUpstream := Flow(Reading, [], [], []), Flow(Reading, [], [], []);
      downstreamClosed, upstreamClosed := false, false;
    }

    /** copyToUpstream, for as many turns as the connections allow; what it does is a run of the machine,
        so everything above holds of it. */
    method CopyToUpstream(turns: seq<Turn>)
      requires b.Length == CHUNK && toUpstream.loop.Reading?
      requires forall k :: 0 <= k < |turns| ==> Plausible(turns[k])
      modifies this, b
      ensures Leads(Next, old(View()), View())
      ensures toUpstream.loop.Reading? || (toUpstream.loop.Ended? && downstreamClosed)
      ensures fromUpstream == old(fromUpstream)
    {
      ghost var acts: seq<Action> := [];
      var i := 0;
      while i < |turns| && toUpstream.loop.Reading?
        invariant 0 <= i <= |turns| && (toUpstream.loop.Reading? || toUpstream.loop.Exiting?)
        invariant Run(Next, old(View()), acts, View())
        invariant fromUpstream == old(fromUpstream)
        decreases |turns| - i
      {
        var t := turns[i];
        i := i + 1;
        ghost var before := View();
        Fill(t.data, t.readFailed);
        ghost var held := View();
        RunLast(Next, old(View()), acts, before, ReadDownstream(t.data, t.readFailed), held);
        acts := acts + [ReadDownstream(t.data, t.readFailed)];
        if !t.readFailed {
          Send(t.accepted, t.writeFailed);
          RunLast(Next, old(View()), acts, held, WriteUpstream(t.accepted, t.writeFailed), View());
          acts := acts + [WriteUpstream(t.accepted, t.writeFailed)];
        }
      }
      if !toUpstream.loop.Reading? {
        ghost var leaving := View();
        Leave();
        RunLast(Next, old(View()), acts, leaving, LeaveToUpstream, View());
      }
    }

    // a read into the start of the buffer
    method Fill(data: seq<byte>, failed: bool)
      requires b.Length == CHUNK && Enabled(View(), ReadDownstream(data, failed))
      modifies this`n, this`toUpstream, this`upstreamClosed, b
      ensures View() == Apply(old(View()), ReadDownstream(data, failed))
      ensures n == |data| <= b.Length && b[..n] == data
    {
      n := |data|;
      forall k | 0 <= k < n {
        b[k] := data[k];
      }
      assert b[..n] == data;
      if failed {
        upstreamClosed := true;
        toUpstream := Flow(Exiting, toUpstream.read + b[..n], toUpstream.delivered, toUpstream.lost + b[..n]);
      } else {
        toUpstream := Flow(Holding(b[..n]), toUpstream.read + b[..n], toUpstream.delivered, toUpstream.lost);
      }
    }

    // a write of what was just read: bytes that an earlier, longer read left in the buffer are not sent
    method Send(accepted: nat, failed: bool)
      requires n <= b.Length && Enabled(View(), WriteUpstream(accepted, failed)) && toUpstream.loop.chunk == b[..n]
      modifies this`toUpstream
      ensures View() == Apply(old(View()), WriteUpstream(accepted, failed))
    {
      assert b[..n][..accepted] == b[..accepted] && b[..n][accepted..] == b[accepted..n];
      toUpstream := Flow(if failed then Exiting else Reading, toUpstream.read,
                         toUpstream.delivered + b[..accepted], toUpstream.lost + b[accepted..n]);
    }

    // the deferred downstream.Close
    method Leave()
      requires Enabled(View(), LeaveToUpstream)
      modifies this`toUpstream, this`downstreamClosed
      ensures View() == Apply(old(View()), LeaveToUpstream)
    {
      downstreamClosed := true;
      toUpstream := toUpstream.(loop := Ended);
    }

    /** copyFromUpstream: whole messages of any length, no shared buffer. */
    method CopyFromUpstream(turns: seq<Turn>)
      requires fromUpstream.loop.Reading?
      requires forall k :: 0 <= k < |turns| ==>
        turns[k].accepted <= |turns[k].data| && (!turns[k].writeFailed ==> turns[k].accepted == |turns[k].data|)
      modifies this
      ensures Leads(Next, old(View()), View())
      ensures fromUpstream.loop.Reading? || (fromUpstream.loop.Ended? && upstreamClosed)
      ensures toUpstream == old(toUpstream)
    {
      ghost var acts: seq<Action> := [];
      var i := 0;
      while i < |turns| && fromUpstream.loop.Reading?
        invariant 0 <= i <= |turns| && (fromUpstream.loop.Reading? || fromUpstream.loop.Exiting?)
        invariant Run(Next, old(View()), acts, View())
        invariant toUpstream == old(toUpstream)
        decreases |turns| - i
      {
        var t := turns[i];
        i := i + 1;
        ghost var before := View();
        Receive(t.data, t.readFailed);
        ghost var held := View();
        RunLast(Next, old(View()), acts, before, ReadUpstream(t.data, t.readFailed), held);
        acts := acts + [ReadUpstream(t.data, t.readFailed)];
        if !t.readFailed {
          Forward(t.accepted, t.writeFailed);
          RunLast(Next, old(View()), acts, held, WriteDownstream(t.accepted, t.writeFailed), View());
          acts := acts + [WriteDownstream(t.accepted, t.writeFailed)];
        }
      }
      if !fromUpstream.loop.Reading? {
        ghost var leaving := View();
        LeaveFrom();
        RunLast(Next, old(View()), acts, leaving, LeaveFromUpstream, View());
      }
    }

    method Receive(data: seq<byte>, failed: bool)
      requires Enabled(View(), ReadUpstream(data, failed))
      modifies this`fromUpstream, this`downstreamClosed
      ensures View() == Apply(old(View()), ReadUpstream(data, failed))
    {
      fromUpstream := AfterRead(fromUpstream, data, failed);
      if failed {
        downstreamClosed := true;
      }
    }

    method Forward(accepted: nat, failed: bool)
      requires Enabled(View(), WriteDownstream(accepted, failed))
      modifies this`fromUpstream
      ensures View() == Apply(old(View()), WriteDownstream(accepted, failed))
    {
      fromUpstream := AfterWrite(fromUpstream, accepted, failed);
    }

    // the deferred close of the upstream
    method LeaveFrom()
      requires Enabled(View(), LeaveFromUpstream)
      modifies this`fromUpstream, this`upstreamClosed
      ensures View() == Apply(old(View()), LeaveFromUpstream)
    {
      upstreamClosed := true;
      fromUpstream := fromUpstream.(loop := Ended);
    }
  }
}
