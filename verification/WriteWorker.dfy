/** The single write goroutine shared by many callers on iOS: thread_limiting_conn.go's worker with its
    TCP and UDP connections, and ios.go's writerAdapter, which is the same pattern.

    UDP writes and adapter writes allocate a reply channel per call; all TCP writes of one connection
    share that connection's one-slot result channel. */
module WriteWorker {
  import opened Common

  const BUFFER_DEPTH: nat := 100

  datatype Result = Result(n: int, err: string)

  // A result on its way to a caller; `call` records whose write produced it.
  datatype Reply = Reply(call: nat, result: Result)

  datatype Channel = Channel(buffered: bool, buf: seq<Reply>, closed: bool)

  datatype CallPc =
    | Sending                                   // blocked queueing the task
    | Waiting                                   // blocked on the reply
    | Done(reply: Option<Reply>)                // None: the connection was closed
    | Panicked                                  // sent on the adapter's closed request channel

  datatype Call = Call(chan: nat, pc: CallPc, invokedAt: nat, respondedAt: nat)

  datatype WorkerPc = Idle | Writing(call: nat) | Replying(reply: Reply) | Exited

  // history: one underlying write, when it ended and with what result
  datatype Exec = Exec(call: nat, result: Result, at: nat)

  datatype State = State(
    calls: seq<Call>, chans: seq<Channel>, tasks: seq<nat>, worker: WorkerPc, shut: bool,
    now: nat,              // history: a clock that ticks with every step
    enqueued: seq<nat>,    // history: calls in the order their task entered the queue
    log: seq<Exec>)        // history: the underlying writes in order

  function Init(): State {
    State([], [], [], Idle, false, 0, [], [])
  }

  datatype Action =
    | Open                                      // a new TCP connection
    | CloseConn(ch: nat)
    | InvokeTcp(ch: nat)
    | InvokeOwn                                 // UDP WriteFrom or writerAdapter.Write
    | Enqueue(c: nat)
    | Start | Finish(result: Result)            // the worker's underlying write
    | ReplyDirect(c: nat) | ReplyBuffered
    | Receive(c: nat) | ReceiveClosed(c: nat)
    | Shut | Exit                               // writerAdapter.Close; the worker's range loop ends

  predicate IsWaiting(s: State, c: nat) {
    c < |s.calls| && s.calls[c].pc.Waiting? && s.calls[c].chan < |s.chans|
  }

  function ChanOf(s: State, c: nat): Channel
    requires IsWaiting(s, c)
  {
    s.chans[s.calls[c].chan]
  }

  predicate HasReplyChan(s: State) {
    s.worker.Replying? && s.worker.reply.call < |s.calls| && s.calls[s.worker.reply.call].chan < |s.chans|
  }

  function ReplyChan(s: State): nat
    requires HasReplyChan(s)
  {
    s.calls[s.worker.reply.call].chan
  }

  predicate Enabled(s: State, a: Action) {
    match a
    case Open => true
    case CloseConn(ch) => ch < |s.chans| && s.chans[ch].buffered
    case InvokeTcp(ch) => ch < |s.chans| && s.chans[ch].buffered
    case InvokeOwn => true
    case Enqueue(c) => c < |s.calls| && s.calls[c].pc.Sending? && (s.shut || |s.tasks| < BUFFER_DEPTH)
    case Start => s.worker.Idle? && s.tasks != []
    case Finish(_) => s.worker.Writing?
    case ReplyDirect(c) =>
      && HasReplyChan(s) && !s.chans[ReplyChan(s)].buffered
      && IsWaiting(s, c) && s.calls[c].chan == ReplyChan(s)
    case ReplyBuffered =>
      && HasReplyChan(s) && s.chans[ReplyChan(s)].buffered
      && (s.chans[ReplyChan(s)].closed || s.chans[ReplyChan(s)].buf == [])
    case Receive(c) => IsWaiting(s, c) && ChanOf(s, c).buf != []
    case ReceiveClosed(c) => IsWaiting(s, c) && ChanOf(s, c).buf == [] && ChanOf(s, c).closed
    case Shut => true
    case Exit => s.worker.Idle? && s.shut && s.tasks == []
  }

  function SetPc(s: State, c: nat, pc: CallPc): State
    requires c < |s.calls|
  {
    s.(calls := s.calls[c := s.calls[c].(pc := pc)])
  }

  function Respond(s: State, c: nat, r: Option<Reply>): State
    requires c < |s.calls|
  {
    s.(calls := s.calls[c := s.calls[c].(pc := Done(r), respondedAt := s.now)])
  }

  function SetChan(s: State, ch: nat, x: Channel): State
    requires ch < |s.chans|
  {
    s.(chans := s.chans[ch := x])
  }

  function Invoked(s: State, ch: nat): State {
    s.(calls := s.calls + [Call(ch, Sending, s.now, 0)])
  }

  function Effect(s: State, a: Action): State
    requires Enabled(s, a)
  {
    match a
    case Open => s.(chans := s.chans + [Channel(true, [], false)])
    case CloseConn(ch) => SetChan(s, ch, s.chans[ch].(closed := true))
    case InvokeTcp(ch) => Invoked(s, ch)
    case InvokeOwn => Invoked(s, |s.chans|).(chans := s.chans + [Channel(false, [], false)])
    case Enqueue(c) =>
      if s.shut then SetPc(s, c, Panicked)
      else SetPc(s, c, Waiting).(tasks := s.tasks + [c], enqueued := s.enqueued + [c])
    case Start => s.(worker := Writing(s.tasks[0]), tasks := s.tasks[1..])
    case Finish(r) =>
      s.(worker := Replying(Reply(s.worker.call, r)), log := s.log + [Exec(s.worker.call, r, s.now)])
    case ReplyDirect(c) => Respond(s, c, Some(s.worker.reply)).(worker := Idle)
    case ReplyBuffered =>
      var ch := ReplyChan(s);
      if s.chans[ch].closed then s.(worker := Idle)
      else SetChan(s, ch, s.chans[ch].(buf := [s.worker.reply])).(worker := Idle)
    case Receive(c) =>
      var ch := s.calls[c].chan;
      SetChan(Respond(s, c, Some(s.chans[ch].buf[0])), ch, s.chans[ch].(buf := s.chans[ch].buf[1..]))
    case ReceiveClosed(c) => Respond(s, c, None)
    case Shut => s.(shut := true)
    case Exit => s.(worker := Exited)
  }

  function Apply(s: State, a: Action): State
    requires Enabled(s, a)
  {
    Effect(s, a).(now := s.now + 1)
  }

  ghost predicate Next(s: State, a: Action, t: State) {
    Enabled(s, a) && t == Apply(s, a)
  }

  /** No other call is waiting for a reply on the channel of `c`. */
  predicate Alone(s: State, c: nat)
    requires c < |s.calls|
  {
    forall b :: 0 <= b < |s.calls| && s.calls[b].pc.Waiting? && s.calls[b].chan == s.calls[c].chan ==> b == c
  }

  /** One outstanding call per channel: always so for UDP and the adapter, whose channels are not
      shared; for TCP it is up to the caller. */
  ghost predicate NextOneEach(s: State, a: Action, t: State) {
    Next(s, a, t) && (a.Enqueue? ==> Alone(s, a.c))
  }

  ghost predicate Reachable(s: State) {
    exists acts :: Run(NextOneEach, Init(), acts, s)
  }

  // Invariant ////////////////////////////////////////////////////////////////////////////////

  function CallsOf(log: seq<Exec>): seq<nat> {
    seq(|log|, k requires 0 <= k < |log| => log[k].call)
  }

  function Current(s: State): seq<nat> {
    if s.worker.Writing? then [s.worker.call] else []
  }

  ghost predicate Shape(s: State) {
    && (forall c :: 0 <= c < |s.calls| ==> s.calls[c].chan < |s.chans| && s.calls[c].invokedAt < s.now)
    && (forall b, c :: 0 <= b < c < |s.calls| && !s.chans[s.calls[b].chan].buffered ==>
        s.calls[b].chan != s.calls[c].chan)
    && (forall ch :: 0 <= ch < |s.chans| ==>
          |s.chans[ch].buf| <= 1 && (!s.chans[ch].buffered ==> s.chans[ch].buf == [] && !s.chans[ch].closed))
  }

  /** Tasks are executed in the order they were queued, each once. */
  ghost predicate Ordered(s: State) {
    && s.enqueued == CallsOf(s.log) + Current(s) + s.tasks
    && (forall i, j :: 0 <= i < j < |s.enqueued| ==> s.enqueued[i] != s.enqueued[j])
    && (forall i :: 0 <= i < |s.enqueued| ==>
          s.enqueued[i] < |s.calls| && (s.calls[s.enqueued[i]].pc.Waiting? || s.calls[s.enqueued[i]].pc.Done?))
    && (forall c :: 0 <= c < |s.calls| && (s.calls[c].pc.Waiting? || s.calls[c].pc.Done?) ==> c in s.enqueued)
    && |s.tasks| <= BUFFER_DEPTH
    && (s.worker.Exited? ==> s.shut && s.tasks == [])
  }

  ghost predicate Timed(s: State) {
    && (forall i, j :: 0 <= i < j < |s.log| ==> s.log[i].at < s.log[j].at)
    && (forall i :: 0 <= i < |s.log| ==> s.log[i].at < s.now)
    && (forall i :: 0 <= i < |s.log| ==> s.log[i].call < |s.calls| && s.calls[s.log[i].call].invokedAt < s.log[i].at)
  }

  ghost predicate Logged(s: State, r: Reply) {
    exists k :: 0 <= k < |s.log| && s.log[k].call == r.call && s.log[k].result == r.result
  }

  ghost predicate OneEach(s: State) {
    forall b, c :: 0 <= b < c < |s.calls| && s.calls[b].pc.Waiting? && s.calls[c].pc.Waiting? ==>
      s.calls[b].chan != s.calls[c].chan
  }

  /** The reply of call `c` can still arrive: nothing is in its channel and it waits, or the channel is closed. */
  ghost predicate Expecting(s: State, c: nat) {
    && c < |s.calls| && s.calls[c].chan < |s.chans|
    && (!s.chans[s.calls[c].chan].closed ==> s.calls[c].pc.Waiting? && s.chans[s.calls[c].chan].buf == [])
  }

  /** A call that got a result got it after its write ended. */
  predicate Responded(s: State, x: Exec) {
    x.call < |s.calls| && s.calls[x.call].pc.Done? && s.calls[x.call].pc.reply.Some? ==>
      x.at < s.calls[x.call].respondedAt
  }

  /** What lies in a result channel is the logged result of the one call waiting on it. */
  ghost predicate BufferOk(s: State, ch: nat)
    requires ch < |s.chans|
  {
    s.chans[ch].buf != [] ==>
      var r := s.chans[ch].buf[0];
      r.call < |s.calls| && s.calls[r.call].chan == ch && s.calls[r.call].pc.Waiting? && Logged(s, r)
  }

  ghost predicate DoneOk(s: State, c: nat)
    requires c < |s.calls|
  {
    s.calls[c].pc.Done? && s.calls[c].pc.reply.Some? ==>
      s.calls[c].pc.reply.value.call == c && Logged(s, s.calls[c].pc.reply.value) && s.calls[c].respondedAt < s.now
  }

  ghost predicate OwnReplies(s: State) {
    && OneEach(s)
    && (forall k :: 0 <= k < |s.tasks| ==> Expecting(s, s.tasks[k]))
    && (s.worker.Writing? ==> Expecting(s, s.worker.call))
    && (s.worker.Replying? ==> Expecting(s, s.worker.reply.call) && Logged(s, s.worker.reply))
    && (forall ch :: 0 <= ch < |s.chans| ==> BufferOk(s, ch))
    && (forall c :: 0 <= c < |s.calls| ==> DoneOk(s, c))
    && (forall k :: 0 <= k < |s.log| ==> Responded(s, s.log[k]))
  }

  /** No reply is lost: a waiting call is still to be served, or its reply is there, or its connection is closed. */
  ghost predicate ServedCall(s: State, c: nat)
    requires c < |s.calls|
  {
    s.calls[c].pc.Waiting? && s.calls[c].chan < |s.chans| && !s.chans[s.calls[c].chan].closed ==>
      c in s.tasks || s.worker == Writing(c) || (s.worker.Replying? && s.worker.reply.call == c) ||
      s.chans[s.calls[c].chan].buf != []
  }

  ghost predicate Served(s: State) {
    forall c :: 0 <= c < |s.calls| ==> ServedCall(s, c)
  }

  ghost predicate Inv(s: State) {
    Shape(s) && Ordered(s) && Timed(s) && OwnReplies(s) && Served(s)
  }

  lemma InvokeKeepsShape(s: State, a: Action)
    requires Shape(s) && Enabled(s, a) && (a.InvokeTcp? || a.InvokeOwn?)
    ensures Shape(Apply(s, a))
  {
  }

  lemma CallersKeepShape(s: State, a: Action)
    requires Shape(s) && Enabled(s, a) && (a.Enqueue? || a.ReplyDirect? || a.ReceiveClosed?)
    ensures Shape(Apply(s, a))
  {
    var t := Apply(s, a);
    assert t.chans == s.chans && |t.calls| == |s.calls|;
    assert forall c :: 0 <= c < |s.calls| ==>
      t.calls[c].chan == s.calls[c].chan && t.calls[c].invokedAt == s.calls[c].invokedAt;
  }

  lemma ChannelsKeepShape(s: State, a: Action)
    requires Shape(s) && Enabled(s, a)
    requires a.Open? || a.CloseConn? || a.ReplyBuffered? || a.Receive?
    ensures Shape(Apply(s, a))
  {
  }

  lemma StepKeepsShape(s: State, a: Action)
    requires Shape(s) && Enabled(s, a)
    ensures Shape(Apply(s, a))
  {
    if a.InvokeTcp? || a.InvokeOwn? {
      InvokeKeepsShape(s, a);
    } else if a.Enqueue? || a.ReplyDirect? || a.ReceiveClosed? {
      CallersKeepShape(s, a);
    } else if a.Open? || a.CloseConn? || a.ReplyBuffered? || a.Receive? {
      ChannelsKeepShape(s, a);
    } else {
      var t := Apply(s, a);
      assert t.calls == s.calls && t.chans == s.chans;
    }
  }

  predicate Queued(pc: CallPc) {
    pc.Waiting? || pc.Done?
  }

  lemma SameQueueStaysOrdered(s: State, t: State)
    requires Ordered(s)
    requires t.enqueued == s.enqueued && CallsOf(t.log) + Current(t) + t.tasks == s.enqueued && |t.tasks| <= |s.tasks|
    requires |s.calls| <= |t.calls|
    requires forall c :: 0 <= c < |s.calls| ==> (Queued(t.calls[c].pc) <==> Queued(s.calls[c].pc))
    requires forall c :: |s.calls| <= c < |t.calls| ==> !Queued(t.calls[c].pc)
    requires t.worker.Exited? ==> t.shut && t.tasks == []
    ensures Ordered(t)
  {
  }

  lemma EnqueueKeepsOrdered(s: State, c: nat)
    requires Shape(s) && Ordered(s) && Enabled(s, Enqueue(c)) && !s.shut
    ensures Ordered(Apply(s, Enqueue(c)))
  {
    var t := Apply(s, Enqueue(c));
    assert c !in s.enqueued;
    assert t.enqueued == CallsOf(t.log) + Current(t) + t.tasks;
    assert t.enqueued[|s.enqueued|] == c;
    forall b | 0 <= b < |t.calls| && Queued(t.calls[b].pc) ensures b in t.enqueued {
      if b != c {
        assert b in s.enqueued;
      }
    }
  }

  lemma WorkerKeepsOrdered(s: State, a: Action)
    requires Ordered(s) && Enabled(s, a) && (a.Start? || a.Finish? || a.Exit?)
    ensures Ordered(Apply(s, a))
  {
    var t := Apply(s, a);
    if a.Start? {
      assert s.tasks == [s.tasks[0]] + s.tasks[1..];
    } else if a.Finish? {
      assert CallsOf(t.log) == CallsOf(s.log) + Current(s);
    }
    assert CallsOf(t.log) + Current(t) + t.tasks == s.enqueued;
    SameQueueStaysOrdered(s, t);
  }

  lemma OthersKeepOrdered(s: State, a: Action)
    requires Ordered(s) && Enabled(s, a) && !a.Start? && !a.Finish? && !a.Exit? && (a.Enqueue? ==> s.shut)
    ensures Ordered(Apply(s, a))
  {
    var t := Apply(s, a);
    assert t.log == s.log && Current(t) == Current(s) && t.tasks == s.tasks && t.enqueued == s.enqueued;
    SameQueueStaysOrdered(s, t);
  }

  lemma StepKeepsOrdered(s: State, a: Action)
    requires Shape(s) && Ordered(s) && Enabled(s, a)
    ensures Ordered(Apply(s, a))
  {
    if a.Start? || a.Finish? || a.Exit? {
      WorkerKeepsOrdered(s, a);
    } else if a.Enqueue? && !s.shut {
      EnqueueKeepsOrdered(s, a.c);
    } else {
      OthersKeepOrdered(s, a);
    }
  }

  lemma StepKeepsTimed(s: State, a: Action)
    requires Shape(s) && Ordered(s) && Timed(s) && Enabled(s, a)
    ensures Timed(Apply(s, a))
  {
    if a.Finish? {
      FinishKeepsTimed(s, a.result);
    } else {
      var t := Apply(s, a);
      assert t.log == s.log && |s.calls| <= |t.calls|;
      assert forall c :: 0 <= c < |s.calls| ==> t.calls[c].invokedAt == s.calls[c].invokedAt;
    }
  }

  lemma FinishKeepsTimed(s: State, r: Result)
    requires Shape(s) && Ordered(s) && Timed(s) && Enabled(s, Finish(r))
    ensures Timed(Apply(s, Finish(r)))
  {
    assert s.enqueued[|s.log|] == s.worker.call;
  }

  // What the queue order says about one call /////////////////////////////////////////////////////

  lemma PendingNotLogged(s: State, c: nat)
    requires Ordered(s) && (c in s.tasks || s.worker == Writing(c))
    ensures forall k :: 0 <= k < |s.log| ==> s.log[k].call != c
  {
    var n := |CallsOf(s.log)| + |Current(s)|;
    forall k | 0 <= k < |s.log| ensures s.log[k].call != c {
      assert s.enqueued[k] == s.log[k].call;
      if c in s.tasks {
        var j :| 0 <= j < |s.tasks| && s.tasks[j] == c;
        assert s.enqueued[n + j] == c;
      } else {
        assert s.enqueued[|s.log|] == c;
      }
    }
  }

  lemma LoggedStays(s: State, t: State, r: Reply)
    requires Logged(s, r) && s.log <= t.log
    ensures Logged(t, r)
  {
    var k :| 0 <= k < |s.log| && s.log[k].call == r.call && s.log[k].result == r.result;
    assert t.log[k] == s.log[k];
  }

  lemma AllLoggedStay(s: State, t: State)
    requires s.log <= t.log
    ensures forall r: Reply :: Logged(s, r) ==> Logged(t, r)
  {
    forall r: Reply | Logged(s, r) ensures Logged(t, r) {
      LoggedStays(s, t, r);
    }
  }

  /** Steps that neither respond to a call nor end a write keep what was already received. */
  lemma ReceivedStays(s: State, t: State)
    requires Ordered(s) && OwnReplies(s) && t.log == s.log && |s.calls| <= |t.calls| && s.now <= t.now
    requires forall c :: 0 <= c < |s.calls| && t.calls[c].pc.Done? && t.calls[c].pc.reply.Some? ==>
      t.calls[c] == s.calls[c]
    requires forall c :: |s.calls| <= c < |t.calls| ==> !t.calls[c].pc.Done?
    ensures forall c :: 0 <= c < |t.calls| ==> DoneOk(t, c)
    ensures forall k :: 0 <= k < |t.log| ==> Responded(t, t.log[k])
  {
    AllLoggedStay(s, t);
    forall c | 0 <= c < |t.calls| ensures DoneOk(t, c) {
      if c < |s.calls| {
        assert DoneOk(s, c);
      }
    }
    forall k | 0 <= k < |t.log| ensures Responded(t, t.log[k]) {
      assert Responded(s, s.log[k]);
      assert s.enqueued[k] == s.log[k].call;
    }
  }

  // Each kind of step keeps every reply with its own call ///////////////////////////////////////

  lemma EnqueueKeepsOwnReplies(s: State, c: nat)
    requires Shape(s) && Ordered(s) && OwnReplies(s) && Enabled(s, Enqueue(c)) && Alone(s, c)
    ensures OwnReplies(Apply(s, Enqueue(c)))
  {
    var t := Apply(s, Enqueue(c));
    assert s.worker.Writing? ==> s.enqueued[|s.log|] == s.worker.call;
    NotYetQueued(s, c);
    ReceivedStays(s, t);
    AllLoggedStay(s, t);
    forall ch | 0 <= ch < |t.chans| ensures BufferOk(t, ch) {
      assert BufferOk(s, ch);
    }
    assert BufferOk(s, s.calls[c].chan);
    assert forall k :: 0 <= k < |s.tasks| ==> Expecting(s, s.tasks[k]);
  }

  lemma NotYetQueued(s: State, c: nat)
    requires Ordered(s) && c < |s.calls| && !Queued(s.calls[c].pc)
    ensures c !in s.tasks && s.worker != Writing(c)
  {
    var n := |CallsOf(s.log)| + |Current(s)|;
    assert forall i :: 0 <= i < |s.tasks| ==> s.enqueued[n + i] == s.tasks[i];
    assert s.worker.Writing? ==> s.enqueued[|s.log|] == s.worker.call;
  }

  lemma ReplyBufferedKeepsOwnReplies(s: State)
    requires Shape(s) && Ordered(s) && OwnReplies(s) && Enabled(s, ReplyBuffered)
    ensures OwnReplies(Apply(s, ReplyBuffered))
  {
    var t := Apply(s, ReplyBuffered);
    ReceivedStays(s, t);
    AllLoggedStay(s, t);
    forall k | 0 <= k < |t.tasks| ensures Expecting(t, t.tasks[k]) {
      PendingNotLogged(s, s.tasks[k]);
    }
    forall ch | 0 <= ch < |t.chans| ensures BufferOk(t, ch) {
      assert BufferOk(s, ch);
    }
  }

  /** Responding to `c` with its own logged result. */
  lemma ResponseIsOwn(s: State, t: State, c: nat)
    requires Ordered(s) && Timed(s) && OwnReplies(s) && c < |s.calls| && t.log == s.log && |t.calls| == |s.calls| &&
      s.now < t.now
    requires forall b :: 0 <= b < |s.calls| && b != c ==> t.calls[b] == s.calls[b]
    requires t.calls[c].pc.Done? && t.calls[c].respondedAt == s.now
    requires t.calls[c].pc.reply.Some? ==> t.calls[c].pc.reply.value.call == c && Logged(s, t.calls[c].pc.reply.value)
    ensures forall b :: 0 <= b < |t.calls| ==> DoneOk(t, b)
    ensures forall k :: 0 <= k < |t.log| ==> Responded(t, t.log[k])
  {
    AllLoggedStay(s, t);
    forall b | 0 <= b < |t.calls| ensures DoneOk(t, b) {
      assert DoneOk(s, b);
    }
    forall k | 0 <= k < |t.log| ensures Responded(t, t.log[k]) {
      assert Responded(s, s.log[k]);
    }
  }

  lemma ReplyDirectKeepsOwnReplies(s: State, c: nat)
    requires Shape(s) && Ordered(s) && Timed(s) && OwnReplies(s) && Enabled(s, ReplyDirect(c))
    ensures OwnReplies(Apply(s, ReplyDirect(c)))
    ensures s.worker.reply.call == c
  {
    var t := Apply(s, ReplyDirect(c));
    ResponseIsOwn(s, t, c);
    AllLoggedStay(s, t);
    forall k | 0 <= k < |t.tasks| ensures Expecting(t, t.tasks[k]) {
      PendingNotLogged(s, s.tasks[k]);
    }
    forall ch | 0 <= ch < |t.chans| ensures BufferOk(t, ch) {
      assert BufferOk(s, ch);
    }
  }

  lemma ReceivesItsOwn(s: State, c: nat)
    requires Shape(s) && OwnReplies(s) && Enabled(s, Receive(c))
    ensures ChanOf(s, c).buf == [ChanOf(s, c).buf[0]]
    ensures ChanOf(s, c).buf[0].call == c && Logged(s, ChanOf(s, c).buf[0])
  {
    assert BufferOk(s, s.calls[c].chan);
  }

  lemma ReceiveKeepsBuffers(s: State, c: nat)
    requires Shape(s) && OwnReplies(s) && Enabled(s, Receive(c))
    ensures var t := Apply(s, Receive(c)); forall ch :: 0 <= ch < |t.chans| ==> BufferOk(t, ch)
  {
    var t := Apply(s, Receive(c));
    ReceivesItsOwn(s, c);
    AllLoggedStay(s, t);
    forall ch | 0 <= ch < |t.chans| ensures BufferOk(t, ch) {
      assert BufferOk(s, ch);
    }
  }

  lemma ReceiveKeepsOwnReplies(s: State, c: nat)
    requires Shape(s) && Ordered(s) && Timed(s) && OwnReplies(s) && Enabled(s, Receive(c))
    ensures OwnReplies(Apply(s, Receive(c)))
  {
    var t := Apply(s, Receive(c));
    ReceivesItsOwn(s, c);
    ResponseIsOwn(s, t, c);
    AllLoggedStay(s, t);
    ReceiveKeepsBuffers(s, c);
    forall k | 0 <= k < |t.tasks| ensures Expecting(t, t.tasks[k]) {
      assert Expecting(s, s.tasks[k]);
    }
  }

  lemma ReceiveClosedKeepsOwnReplies(s: State, c: nat)
    requires Shape(s) && Ordered(s) && Timed(s) && OwnReplies(s) && Enabled(s, ReceiveClosed(c))
    ensures OwnReplies(Apply(s, ReceiveClosed(c)))
  {
    var t := Apply(s, ReceiveClosed(c));
    ResponseIsOwn(s, t, c);
    AllLoggedStay(s, t);
    forall k | 0 <= k < |t.tasks| ensures Expecting(t, t.tasks[k]) {
      assert Expecting(s, s.tasks[k]);
    }
    forall ch | 0 <= ch < |t.chans| ensures BufferOk(t, ch) {
      assert BufferOk(s, ch);
    }
  }

  lemma FinishKeepsOwnReplies(s: State, r: Result)
    requires Shape(s) && Ordered(s) && OwnReplies(s) && Enabled(s, Finish(r))
    ensures OwnReplies(Apply(s, Finish(r)))
  {
    var t := Apply(s, Finish(r));
    AllLoggedStay(s, t);
    PendingNotLogged(s, s.worker.call);
    assert t.log[|s.log|] == Exec(s.worker.call, r, s.now);
    assert Logged(t, t.worker.reply);
    forall c | 0 <= c < |t.calls| ensures DoneOk(t, c) {
      assert DoneOk(s, c);
    }
    forall k | 0 <= k < |t.log| ensures Responded(t, t.log[k]) {
      if k < |s.log| {
        assert Responded(s, s.log[k]);
      } else if s.calls[s.worker.call].pc.Done? {
        assert DoneOk(s, s.worker.call);
      }
    }
    forall ch | 0 <= ch < |t.chans| ensures BufferOk(t, ch) {
      assert BufferOk(s, ch);
    }
  }

  lemma OthersKeepOwnReplies(s: State, a: Action)
    requires Shape(s) && Ordered(s) && OwnReplies(s) && Enabled(s, a)
    requires a.Open? || a.InvokeTcp? || a.InvokeOwn? || a.CloseConn? || a.Start? || a.Shut? || a.Exit?
    ensures OwnReplies(Apply(s, a))
  {
    var t := Apply(s, a);
    ReceivedStays(s, t);
    AllLoggedStay(s, t);
    forall k | 0 <= k < |t.tasks| ensures Expecting(t, t.tasks[k]) {
      assert Expecting(s, if a.Start? then s.tasks[k + 1] else s.tasks[k]);
    }
    OthersKeepBuffers(s, a);
  }

  lemma OthersKeepBuffers(s: State, a: Action)
    requires Shape(s) && Ordered(s) && OwnReplies(s) && Enabled(s, a)
    requires a.Open? || a.InvokeTcp? || a.InvokeOwn? || a.CloseConn? || a.Start? || a.Shut? || a.Exit?
    ensures forall ch :: 0 <= ch < |Apply(s, a).chans| ==> BufferOk(Apply(s, a), ch)
  {
    var t := Apply(s, a);
    AllLoggedStay(s, t);
    forall ch | 0 <= ch < |t.chans| ensures BufferOk(t, ch) {
      if ch < |s.chans| {
        assert BufferOk(s, ch);
      }
    }
  }

  lemma StepKeepsOwnReplies(s: State, a: Action)
    requires Shape(s) && Ordered(s) && Timed(s) && OwnReplies(s) && Enabled(s, a)
    requires a.Enqueue? ==> Alone(s, a.c)
    ensures OwnReplies(Apply(s, a))
  {
    match a
    case Enqueue(c) => EnqueueKeepsOwnReplies(s, c);
    case ReplyBuffered => ReplyBufferedKeepsOwnReplies(s);
    case ReplyDirect(c) => ReplyDirectKeepsOwnReplies(s, c);
    case Receive(c) => ReceiveKeepsOwnReplies(s, c);
    case Finish(r) => FinishKeepsOwnReplies(s, r);
    case ReceiveClosed(c) => ReceiveClosedKeepsOwnReplies(s, c);
    case _ => OthersKeepOwnReplies(s, a);
  }

  lemma ResponsesKeepServed(s: State, a: Action, c: nat)
    requires Shape(s) && OwnReplies(s) && Served(s) && Enabled(s, a) && c < |s.calls|
    requires a.ReplyDirect? || a.Receive? || a.ReceiveClosed? || a.ReplyBuffered?
    ensures ServedCall(Apply(s, a), c)
  {
    assert ServedCall(s, c);
    if a.Receive? {
      ReceivesItsOwn(s, a.c);
    }
  }

  lemma OthersKeepServed(s: State, a: Action, c: nat)
    requires Served(s) && Enabled(s, a) && c < |Apply(s, a).calls|
    requires !a.ReplyDirect? && !a.Receive? && !a.ReceiveClosed? && !a.ReplyBuffered?
    requires Shape(s)
    ensures ServedCall(Apply(s, a), c)
  {
    var t := Apply(s, a);
    if c < |s.calls| {
      assert ServedCall(s, c);
      if a.Enqueue? && !s.shut {
        assert t.tasks[|s.tasks|] == a.c;
        assert c in s.tasks ==> c in t.tasks;
      } else if a.Start? {
        assert c in s.tasks && c != s.tasks[0] ==> c in t.tasks;
      }
    }
  }

  lemma StepKeepsServed(s: State, a: Action)
    requires Shape(s) && OwnReplies(s) && Served(s) && Enabled(s, a)
    ensures Served(Apply(s, a))
  {
    var t := Apply(s, a);
    forall c | 0 <= c < |t.calls| ensures ServedCall(t, c) {
      if a.ReplyDirect? || a.Receive? || a.ReceiveClosed? || a.ReplyBuffered? {
        ResponsesKeepServed(s, a, c);
      } else {
        OthersKeepServed(s, a, c);
      }
    }
  }

  lemma StepKeepsInv(s: State, a: Action, t: State)
    requires Inv(s) && NextOneEach(s, a, t)
    ensures Inv(t)
  {
    StepKeepsShape(s, a);
    StepKeepsOrdered(s, a);
    StepKeepsTimed(s, a);
    StepKeepsOwnReplies(s, a);
    StepKeepsServed(s, a);
  }

  lemma StepsKeepInv()
    ensures forall x, a, y :: Inv(x) && NextOneEach(x, a, y) ==> Inv(y)
  {
    forall x, a, y | Inv(x) && NextOneEach(x, a, y) ensures Inv(y) {
      StepKeepsInv(x, a, y);
    }
  }

  lemma EmptyIsOrdered(s: State)
    requires s.calls == [] && s.tasks == [] && s.log == [] && s.enqueued == [] && s.worker.Idle?
    ensures Ordered(s)
  {
    assert CallsOf(s.log) == [] && Current(s) == [];
  }

  lemma EmptyIsServed(s: State)
    requires s.calls == [] && s.chans == [] && s.tasks == [] && s.log == [] && s.worker.Idle?
    ensures Shape(s) && Timed(s) && OwnReplies(s) && Served(s)
  {
    assert |s.calls| == |s.chans| == |s.tasks| == |s.log| == 0;
  }

  lemma InitInv()
    ensures Inv(Init())
  {
    EmptyIsOrdered(Init());
    EmptyIsServed(Init());
  }

  lemma ReachableInv(s: State)
    requires Reachable(s)
    ensures Inv(s)
  {
    var acts :| Run(NextOneEach, Init(), acts, s);
    InitInv();
    StepsKeepInv();
    RunKeeps(NextOneEach, Inv, Init(), acts, s);
  }

  // What callers get ////////////////////////////////////////////////////////////////////////////

  /** The underlying writes happen one after the other, in the order the tasks were queued, each task once. */
  lemma ExecutedOnceInOrder(s: State)
    requires Reachable(s)
    ensures CallsOf(s.log) <= s.enqueued
    ensures forall i, j :: 0 <= i < j < |s.log| ==> s.log[i].call != s.log[j].call && s.log[i].at < s.log[j].at
  {
    ReachableInv(s);
    assert forall i :: 0 <= i < |s.log| ==> s.enqueued[i] == s.log[i].call;
  }

  /** `x` is the write of call `c`, ended between its invocation and its response, with the result it got. */
  predicate ResultOf(s: State, c: nat, x: Exec) {
    && c < |s.calls| && s.calls[c].pc.Done? && s.calls[c].pc.reply.Some?
    && x.call == c && x.result == s.calls[c].pc.reply.value.result
    && s.calls[c].invokedAt < x.at < s.calls[c].respondedAt
  }

  /** A call that got a result got that of its own write, which took effect between its invocation
      and its response. */
  lemma OwnResult(s: State, c: nat)
    requires Reachable(s) && c < |s.calls| && s.calls[c].pc.Done? && s.calls[c].pc.reply.Some?
    ensures s.calls[c].pc.reply.value.call == c
    ensures exists k :: 0 <= k < |s.log| && ResultOf(s, c, s.log[k])
  {
    ReachableInv(s);
    assert DoneOk(s, c);
    var r := s.calls[c].pc.reply.value;
    var k :| 0 <= k < |s.log| && s.log[k].call == r.call && s.log[k].result == r.result;
    assert Responded(s, s.log[k]);
    assert ResultOf(s, c, s.log[k]);
  }

  /** So the order of the writes respects real time: a call that was answered before another was
      invoked was executed before it. */
  lemma RealTimeOrder(s: State, i: nat, j: nat)
    requires Reachable(s) && i < |s.log| && j < |s.log|
    requires var b := s.log[i].call; var c := s.log[j].call;
      && b < |s.calls| && c < |s.calls| && s.calls[b].pc.Done? && s.calls[b].pc.reply.Some?
      && s.calls[b].respondedAt <= s.calls[c].invokedAt
    ensures i < j
  {
    ReachableInv(s);
    assert Responded(s, s.log[i]);
  }

  // Progress ///////////////////////////////////////////////////////////////////////////////////

  /** Steps of the worker, and of callers that were already invoked. */
  predicate Internal(a: Action) {
    a.Enqueue? || a.Start? || a.Finish? || a.ReplyDirect? || a.ReplyBuffered? || a.Receive? || a.ReceiveClosed?
  }

  /** The next step of a worker that has something to do. */
  lemma WorkerStep(s: State) returns (a: Action)
    requires Inv(s) && (s.worker.Writing? || s.worker.Replying? || (s.worker.Idle? && s.tasks != []))
    ensures Internal(a) && !a.Enqueue? && !a.Receive? && !a.ReceiveClosed? && Enabled(s, a)
    ensures a.ReplyDirect? ==> !s.chans[s.calls[a.c].chan].buffered
  {
    match s.worker
    case Idle => a := Start;
    case Writing(c) => a := Finish(Result(0, ""));
    case Replying(r) =>
      if s.chans[s.calls[r.call].chan].buffered {
        a := ReplyBuffered;
      } else {
        a := ReplyDirect(r.call);
      }
  }

  predicate Settled(pc: CallPc) {
    pc.Done? || pc.Panicked?
  }

  ghost predicate NextInternal(s: State, a: Action, t: State) {
    NextOneEach(s, a, t) && Internal(a)
  }

  predicate CanTake(s: State, a: Action) {
    Internal(a) && Enabled(s, a) && (a.Enqueue? ==> Alone(s, a.c))
  }

  /** No deadlock: a call that is neither answered nor panicked leaves some internal step possible, still
      with one call per connection. */
  lemma NeverDeadlocked(s: State, c: nat)
    requires Reachable(s) && c < |s.calls| && !Settled(s.calls[c].pc)
    ensures exists a :: CanTake(s, a)
  {
    ReachableInv(s);
    var a: Action;
    if s.worker.Writing? || s.worker.Replying? || (s.worker.Idle? && s.tasks != []) {
      a := WorkerStep(s);
    } else if s.calls[c].pc.Sending? && Alone(s, c) {
      a := Enqueue(c);
    } else {
      var b := c;
      if s.calls[c].pc.Sending? {
        b :| 0 <= b < |s.calls| && s.calls[b].pc.Waiting? && s.calls[b].chan == s.calls[c].chan;
      }
      assert ServedCall(s, b);
      a := if ChanOf(s, b).buf != [] then Receive(b) else ReceiveClosed(b);
    }
    assert CanTake(s, a);
  }

  function CallRank(c: Call): nat {
    match c.pc
    case Sending => 5
    case Waiting => 1
    case _ => 0
  }

  function WorkerWork(s: State): nat {
    3 * |s.tasks| + if s.worker.Writing? then 2 else if s.worker.Replying? then 1 else 0
  }

  function Work(s: State): nat {
    Sum(s.calls, CallRank) + WorkerWork(s)
  }

  /** Every internal step uses up some of a finite amount of work. */
  lemma EveryStepUsesUpWork(s: State, a: Action)
    requires Enabled(s, a) && Internal(a)
    ensures Work(Apply(s, a)) < Work(s)
  {
    if a.Enqueue? || a.ReplyDirect? || a.Receive? || a.ReceiveClosed? {
      SumUpdate(s.calls, CallRank, a.c, Apply(s, a).calls[a.c]);
    }
  }

  /** So without new calls every run is bounded by that work, and when it can go no further every call is
      answered, or panicked because it was sent after Close. */
  lemma {:induction false} RunsEndSettled(s: State, acts: seq<Action>, t: State)
    requires Reachable(s) && Run(NextInternal, s, acts, t)
    ensures |acts| + Work(t) <= Work(s)
    ensures (forall a :: !CanTake(t, a)) ==> forall c :: 0 <= c < |t.calls| ==> Settled(t.calls[c].pc)
    decreases |acts|
  {
    if acts == [] {
      forall c | 0 <= c < |t.calls| && !Settled(t.calls[c].pc) ensures exists a :: CanTake(t, a) {
        NeverDeadlocked(t, c);
      }
    } else {
      var m :| NextInternal(s, acts[0], m) && Run(NextInternal, m, acts[1..], t);
      EveryStepUsesUpWork(s, acts[0]);
      ReachableStep(s, acts[0], m);
      RunsEndSettled(m, acts[1..], t);
    }
  }

  /** When the worker has nothing left, closed adapter or not, every task that entered the queue was executed. */
  lemma NothingQueuedIsLost(s: State)
    requires Reachable(s) && (s.worker.Exited? || (s.worker.Idle? && s.tasks == []))
    ensures CallsOf(s.log) == s.enqueued
    ensures forall c :: 0 <= c < |s.calls| && s.calls[c].pc.Done? ==> c in CallsOf(s.log)
  {
    ReachableInv(s);
  }

  // Two writes at once on one TCP connection ///////////////////////////////////////////////////////

  /** A reply lies in the channel of `b`, or can still get there. */
  predicate MayAnswer(s: State, b: nat)
    requires IsWaiting(s, b)
  {
    ChanOf(s, b).closed ==> ChanOf(s, b).buf != []
  }

  /** Let the worker run until the reply of `b` lies in its connection's channel and the queue has room. */
  lemma {:induction false} Drain(s: State, b: nat) returns (acts: seq<Action>, t: State)
    requires Inv(s) && IsWaiting(s, b) && ChanOf(s, b).buffered && MayAnswer(s, b)
    ensures Run(NextOneEach, s, acts, t) && Inv(t)
    ensures IsWaiting(t, b) && t.calls[b].chan == s.calls[b].chan && ChanOf(t, b).buf != [] &&
      ChanOf(t, b).buf[0].call == b
    ensures |t.calls| == |s.calls| && t.shut == s.shut && |t.tasks| < BUFFER_DEPTH
    ensures forall c :: 0 <= c < |s.calls| && s.calls[c].pc.Sending? ==> t.calls[c] == s.calls[c]
    decreases WorkerWork(s)
  {
    if ChanOf(s, b).buf != [] && |s.tasks| < BUFFER_DEPTH {
      assert BufferOk(s, s.calls[b].chan);
      acts, t := [], s;
    } else {
      assert ServedCall(s, b);
      var a := WorkerStep(s);
      var m := Apply(s, a);
      StepKeepsInv(s, a, m);
      KeepsWaiting(s, a, b);
      var more;
      more, t := Drain(m, b);
      acts := [a] + more;
      RunFirst(NextOneEach, s, a, m, more, t, acts);
    }
  }

  lemma KeepsWaiting(s: State, a: Action, b: nat)
    requires IsWaiting(s, b) && ChanOf(s, b).buffered && MayAnswer(s, b) && Enabled(s, a)
    requires a.Start? || a.Finish? || a.ReplyBuffered? || (a.ReplyDirect? && !s.chans[s.calls[a.c].chan].buffered)
    ensures var m := Apply(s, a);
      && IsWaiting(m, b) && m.calls[b] == s.calls[b] && ChanOf(m, b).buffered && MayAnswer(m, b)
      && |m.calls| == |s.calls| && m.shut == s.shut && WorkerWork(m) < WorkerWork(s)
      && forall c :: 0 <= c < |s.calls| && s.calls[c].pc.Sending? ==> m.calls[c] == s.calls[c]
  {
  }

  lemma {:induction false} RunWithoutDiscipline(s: State, acts: seq<Action>, t: State)
    requires Run(NextOneEach, s, acts, t)
    ensures Run(Next, s, acts, t)
    decreases |acts|
  {
    if acts != [] {
      var m :| NextOneEach(s, acts[0], m) && Run(NextOneEach, m, acts[1..], t);
      RunWithoutDiscipline(m, acts[1..], t);
      RunFirst(Next, s, acts[0], m, acts[1..], t, acts);
    }
  }

  /** A second call is about to be queued while another waits on the same connection: unless that is
      closed with nothing left in its result channel, some run gives it the other's result. */
  lemma SecondWriteCanGetTheOthersResult(s: State, b: nat, c: nat) returns (acts: seq<Action>, t: State)
    requires Reachable(s) && IsWaiting(s, b) && ChanOf(s, b).buffered && MayAnswer(s, b) && !s.shut
    requires c < |s.calls| && s.calls[c].pc.Sending? && s.calls[c].chan == s.calls[b].chan
    ensures Run(Next, s, acts, t)
    ensures GotReplyOf(t, c, b) && b != c
  {
    ReachableInv(s);
    var first, m := Drain(s, b);
    RunWithoutDiscipline(s, first, m);
    t := EnqueueThenReceive(m, b, c);
    acts := first + [Enqueue(c), Receive(c)];
    RunThen(Next, s, first, m, [Enqueue(c), Receive(c)], t);
  }

  predicate GotReplyOf(s: State, c: nat, b: nat) {
    c < |s.calls| && s.calls[c].pc.Done? && s.calls[c].pc.reply.Some? && s.calls[c].pc.reply.value.call == b
  }

  /** Connection `ch` is closed with nothing left, and call `c` on it has no result. */
  predicate NoResultFor(s: State, ch: nat, c: nat) {
    && ch < |s.chans| && s.chans[ch] == Channel(true, [], true)
    && c < |s.calls| && s.calls[c].chan == ch && (s.calls[c].pc.Done? ==> s.calls[c].pc.reply.None?)
  }

  /** On such a connection a call never gets a result, only the error. */
  lemma ClosedGivesErrorsOnly(s: State, ch: nat, c: nat, acts: seq<Action>, t: State)
    requires NoResultFor(s, ch, c) && Run(Next, s, acts, t)
    ensures NoResultFor(t, ch, c)
  {
    var keeps := (x: State) => NoResultFor(x, ch, c);
    forall x, a, y | keeps(x) && Next(x, a, y) ensures keeps(y) {
      NoResultStays(x, a, ch, c);
    }
    RunKeeps(Next, keeps, s, acts, t);
  }

  lemma NoResultStays(s: State, a: Action, ch: nat, c: nat)
    requires NoResultFor(s, ch, c) && Enabled(s, a)
    ensures NoResultFor(Apply(s, a), ch, c)
  {
  }

  /** Closing a connection releases a write that waits on it with nothing in its channel: it can return the
      error at once, and whatever the worker still does it never gets anything else. */
  lemma CloseReleasesWriter(s: State, ch: nat, c: nat, acts: seq<Action>, t: State)
    requires Reachable(s) && Enabled(s, CloseConn(ch)) && IsWaiting(s, c) && s.calls[c].chan == ch
    requires s.chans[ch].buf == [] && Run(Next, Apply(s, CloseConn(ch)), acts, t)
    ensures var m := Apply(s, CloseConn(ch)); Enabled(m, ReceiveClosed(c)) && !Enabled(m, Receive(c))
    ensures c < |t.calls| && (t.calls[c].pc.Done? ==> t.calls[c].pc.reply == None)
  {
    assert NoResultFor(Apply(s, CloseConn(ch)), ch, c);
    ClosedGivesErrorsOnly(Apply(s, CloseConn(ch)), ch, c, acts, t);
  }

  /** So the one-outstanding-call rule is needed exactly as long as a result can still come. */
  lemma SwapPossibleExactly(s: State, b: nat, c: nat)
    requires Reachable(s) && IsWaiting(s, b) && ChanOf(s, b).buffered && !s.shut
    requires c < |s.calls| && s.calls[c].pc.Sending? && s.calls[c].chan == s.calls[b].chan
    ensures (exists t :: Leads(Next, s, t) && GotReplyOf(t, c, b)) <==> MayAnswer(s, b)
  {
    if MayAnswer(s, b) {
      var acts, t := SecondWriteCanGetTheOthersResult(s, b, c);
      assert Leads(Next, s, t);
    } else if t :| Leads(Next, s, t) && GotReplyOf(t, c, b) {
      var acts :| Run(Next, s, acts, t);
      ClosedGivesErrorsOnly(s, s.calls[b].chan, c, acts, t);
      assert false;
    }
  }

  lemma EnqueueThenReceive(s: State, b: nat, c: nat) returns (t: State)
    requires IsWaiting(s, b) && ChanOf(s, b).buf != [] && ChanOf(s, b).buf[0].call == b
    requires c < |s.calls| && s.calls[c].pc.Sending? && s.calls[c].chan == s.calls[b].chan
    requires |s.tasks| < BUFFER_DEPTH && !s.shut
    ensures Run(Next, s, [Enqueue(c), Receive(c)], t)
    ensures c < |t.calls| && t.calls[c].pc.Done? && t.calls[c].pc.reply.Some? &&
      t.calls[c].pc.reply.value.call == b != c
  {
    var n := Apply(s, Enqueue(c));
    t := Apply(n, Receive(c));
    RunFirst(Next, n, Receive(c), t, [], t, [Receive(c)]);
    RunFirst(Next, s, Enqueue(c), n, [Receive(c)], t, [Enqueue(c), Receive(c)]);
  }

  const TWO_WRITES: seq<Action> := [Open, InvokeTcp(0), InvokeTcp(0), Enqueue(0)]

  lemma TwoWrites() returns (s: State)
    ensures Run(NextOneEach, Init(), TWO_WRITES, s)
    ensures |s.calls| == 2 && IsWaiting(s, 0) && s.calls[1].pc.Sending? && s.calls[1].chan == s.calls[0].chan
    ensures ChanOf(s, 0).buffered && !ChanOf(s, 0).closed && !s.shut
  {
    var m := OneWrite();
    var n := m.(calls := [Call(0, Sending, 1, 0), Call(0, Sending, 2, 0)], now := 3);
    s := n.(calls := [Call(0, Waiting, 1, 0), Call(0, Sending, 2, 0)], tasks := [0], enqueued := [0], now := 4);
    assert n.calls[0 := Call(0, Waiting, 1, 0)] == s.calls && [] + [0] == [0];
    var second := TwoSteps(NextOneEach, m, InvokeTcp(0), n, Enqueue(0), s);
    RunThen(NextOneEach, Init(), [Open, InvokeTcp(0)], m, second, s);
    assert [Open, InvokeTcp(0)] + second == TWO_WRITES;
  }

  lemma OneWrite() returns (s: State)
    ensures Run(NextOneEach, Init(), [Open, InvokeTcp(0)], s)
    ensures s == Init().(chans := [Channel(true, [], false)], calls := [Call(0, Sending, 1, 0)], now := 2)
  {
    var m := Init().(chans := [Channel(true, [], false)], now := 1);
    s := m.(calls := [Call(0, Sending, 1, 0)], now := 2);
    assert [] + [Channel(true, [], false)] == m.chans;
    var _ := TwoSteps(NextOneEach, Init(), Open, m, InvokeTcp(0), s);
  }

  /** Such a run from the start: two writes on a new connection, and the second gets the first one's result. */
  lemma SwappedResultExample() returns (acts: seq<Action>, t: State)
    ensures TWO_WRITES <= acts && Run(Next, Init(), acts, t)
    ensures 1 < |t.calls| && t.calls[1].pc.Done? && t.calls[1].pc.reply.Some? && t.calls[1].pc.reply.value.call == 0
  {
    var s := TwoWrites();
    var more;
    more, t := SecondWriteCanGetTheOthersResult(s, 0, 1);
    RunWithoutDiscipline(Init(), TWO_WRITES, s);
    RunThen(Next, Init(), TWO_WRITES, s, more, t);
    acts := TWO_WRITES + more;
  }

  // What a stretch of the worker's loop comes to ////////////////////////////////////////////////////

  /** Between `s` and `t` the worker executed the first `|results|` tasks, in order, with these results;
      each caller that waits on a channel of its own has its result, and nobody else was touched. */
  ghost predicate Executed(s: State, t: State, results: seq<Result>) {
    && |results| <= |s.tasks|
    && t.worker.Idle? && t.tasks == s.tasks[|results|..] && t.shut == s.shut && t.enqueued == s.enqueued
    && |t.calls| == |s.calls| && |t.chans| == |s.chans|
    && |t.log| == |s.log| + |results| && s.log <= t.log
    && (forall k :: |s.log| <= k < |t.log| ==>
          t.log[k].call == s.tasks[k - |s.log|] && t.log[k].result == results[k - |s.log|])
    && (forall i :: 0 <= i < |results| ==> Answered(s, t, s.tasks[i], results[i]))
    && (forall c :: 0 <= c < |s.calls| ==> t.calls[c].chan == s.calls[c].chan)
    && (forall c :: 0 <= c < |s.calls| && c !in s.tasks[..|results|] ==> t.calls[c] == s.calls[c])
    && (forall ch :: 0 <= ch < |s.chans| ==>
          t.chans[ch].buffered == s.chans[ch].buffered && t.chans[ch].closed == s.chans[ch].closed)
  }

  ghost predicate Answered(s: State, t: State, c: nat, r: Result) {
    && c < |s.calls| && c < |t.calls| && s.calls[c].chan < |s.chans|
    && if s.chans[s.calls[c].chan].buffered then t.calls[c] == s.calls[c] else t.calls[c].pc == Done(Some(Reply(c, r)))
  }

  lemma ReachableStep(s: State, a: Action, t: State)
    requires Reachable(s) && NextOneEach(s, a, t)
    ensures Reachable(t)
  {
    var acts :| Run(NextOneEach, Init(), acts, s);
    RunLast(NextOneEach, Init(), acts, s, a, t);
  }

  lemma ReachableRun(s: State, acts: seq<Action>, t: State)
    requires Reachable(s) && Run(NextOneEach, s, acts, t)
    ensures Reachable(t)
  {
    var first :| Run(NextOneEach, Init(), first, s);
    RunThen(NextOneEach, Init(), first, s, acts, t);
  }

  predicate OwnChannel(s: State, c: nat) {
    c < |s.calls| && s.calls[c].chan < |s.chans| && !s.chans[s.calls[c].chan].buffered
  }

  /** How a turn for task `c` hands over the result. */
  function HandOver(s: State, c: nat): Action {
    if OwnChannel(s, c) then ReplyDirect(c) else ReplyBuffered
  }

  /** A turn never blocks on its reply. */
  lemma TurnIsEnabled(s: State, r: Result)
    requires Reachable(s) && s.worker.Idle? && s.tasks != []
    ensures var m := Apply(s, Start); Enabled(Apply(m, Finish(r)), HandOver(s, s.tasks[0]))
    ensures s.tasks[0] < |s.calls| && s.calls[s.tasks[0]].chan < |s.chans|
  {
    var m := Apply(s, Start);
    var n := Apply(m, Finish(r));
    ReachableStep(s, Start, m);
    ReachableStep(m, Finish(r), n);
    TurnReplies(n, s.tasks[0]);
  }

  lemma TurnReplies(n: State, c: nat)
    requires Reachable(n) && n.worker.Replying? && n.worker.reply.call == c
    ensures Enabled(n, HandOver(n, c)) && c < |n.calls| && n.calls[c].chan < |n.chans|
  {
    ReachableInv(n);
  }

  /** What the three steps of one turn come to. */
  lemma TurnLeaves(s: State, m: State, n: State, t: State, r: Result)
    requires s.worker.Idle? && s.tasks != [] && s.tasks[0] < |s.calls| && s.calls[s.tasks[0]].chan < |s.chans|
    requires m == Apply(s, Start) && n == Apply(m, Finish(r))
    requires Enabled(n, HandOver(s, s.tasks[0])) && t == Apply(n, HandOver(s, s.tasks[0]))
    ensures Executed(s, t, [r])
  {
    assert s.tasks[..1] == [s.tasks[0]];
  }

  lemma ExecutedNext(s: State, m: State, t: State, results: seq<Result>, k: nat)
    requires Reachable(s) && k < |results| && Executed(s, m, results[..k]) && Executed(m, t, [results[k]])
    ensures Executed(s, t, results[..k + 1])
  {
    TaskNotBefore(s, k);
    OneMoreExecuted(s, m, t, results[..k], results[k], results[..k + 1]);
  }

  lemma OneMoreExecuted(s: State, m: State, t: State, results: seq<Result>, r: Result, all: seq<Result>)
    requires |results| < |s.tasks| && s.tasks[|results|] !in s.tasks[..|results|] && all == results + [r]
    requires Executed(s, m, results) && Executed(m, t, [r])
    ensures Executed(s, t, all)
  {
    var n := |results|;
    assert m.tasks[0] == s.tasks[n] && m.tasks[1..] == s.tasks[n + 1..];
    assert s.tasks[..n + 1] == s.tasks[..n] + [s.tasks[n]];
    forall i | 0 <= i < n + 1 ensures Answered(s, t, s.tasks[i], all[i]) {
      if i < n {
        assert Answered(s, m, s.tasks[i], results[i]);
        assert s.tasks[..n][i] == s.tasks[i];
      } else {
        assert Answered(m, t, m.tasks[0], [r][0]);
      }
    }
  }

  lemma TaskNotBefore(s: State, n: nat)
    requires Reachable(s) && n < |s.tasks|
    ensures s.tasks[n] !in s.tasks[..n]
  {
    ReachableInv(s);
    OrderedTasksDiffer(s, n);
  }

  lemma OrderedTasksDiffer(s: State, n: nat)
    requires Ordered(s) && n < |s.tasks|
    ensures s.tasks[n] !in s.tasks[..n]
  {
    var first := |CallsOf(s.log)| + |Current(s)|;
    assert forall i :: 0 <= i < |s.tasks| ==> s.enqueued[first + i] == s.tasks[i];
  }

  // The worker and its connections, updated in place //////////////////////////////////////////////

  /** worker, with its queue and the result channels of its connections, and where the callers and the
      worker's goroutine are. */
  class Worker {
    var calls: seq<Call>
    var chans: seq<Channel>
    var tasks: seq<nat>
    var pc: WorkerPc
    var shut: bool
    var now: nat              // history
    var enqueued: seq<nat>    // history
    var log: seq<Exec>        // history

    ghost function View(): State
      reads this
    {
      State(calls, chans, tasks, pc, shut, now, enqueued, log)
    }

    constructor ()
      ensures View() == Init()
    {
      calls, chans, tasks, pc, shut := [], [], [], Idle, false;
      now, enqueued, log := 0, [], [];
    }

    /** The loop over the queue, with the results the underlying writes yield. It never blocks on a
        reply, executes every queued task once and in order, and is a run of the machine. */
    method Work(results: seq<Result>) returns (ghost acts: seq<Action>)
      requires Reachable(View()) && pc.Idle? && |results| == |tasks|
      modifies this
      ensures Run(NextOneEach, old(View()), acts, View()) && Reachable(View())
      ensures Executed(old(View()), View(), results) && tasks == []
    {
      ghost var start := View();
      acts := [];
      for k := 0 to |results|
        invariant Run(NextOneEach, start, acts, View()) && Reachable(View())
        invariant Executed(start, View(), results[..k])
      {
        ghost var before := View();
        ghost var turn := ExecuteOne(results[k]);
        RunThen(NextOneEach, start, acts, before, turn, View());
        ExecutedNext(start, before, View(), results, k);
        acts := acts + turn;
      }
      assert results[..|results|] == results;
    }

    // one turn of the loop: the task, its underlying write, and the hand-over of its result
    method ExecuteOne(result: Result) returns (ghost acts: seq<Action>)
      requires Reachable(View()) && pc.Idle? && tasks != []
      modifies this
      ensures Run(NextOneEach, old(View()), acts, View()) && Reachable(View())
      ensures Executed(old(View()), View(), [result])
    {
      ghost var s := View();
      TurnIsEnabled(s, result);
      var c := tasks[0];
      TakeTask();
      ghost var m := View();
      ReachableStep(s, Start, m);
      EndWrite(result);
      ghost var n := View();
      ReachableStep(m, Finish(result), n);
      if chans[calls[c].chan].buffered {
        BufferReply();
      } else {
        HandReply(c);
      }
      ghost var t := View();
      ReachableStep(n, HandOver(s, c), t);
      TurnLeaves(s, m, n, t, result);
      acts := ThreeSteps(s, Start, m, Finish(result), n, HandOver(s, c), t);
    }

    method TakeTask()
      requires Enabled(View(), Start)
      modifies this`tasks, this`pc, this`now
      ensures View() == Apply(old(View()), Start)
    {
      var c := tasks[0];
      tasks := tasks[1..];
      pc := Writing(c);
      now := now + 1;
    }

    // the underlying write returns
    method EndWrite(result: Result)
      requires Enabled(View(), Finish(result))
      modifies this`log, this`pc, this`now
      ensures View() == Apply(old(View()), Finish(result))
    {
      log := log + [Exec(pc.call, result, now)];
      pc := Replying(Reply(pc.call, result));
      now := now + 1;
    }

    // the reply on an unbuffered channel meets its receiver
    method HandReply(c: nat)
      requires Enabled(View(), ReplyDirect(c))
      modifies this`calls, this`pc, this`now
      ensures View() == Apply(old(View()), ReplyDirect(c))
    {
      calls := calls[c := calls[c].(pc := Done(Some(pc.reply)), respondedAt := now)];
      pc := Idle;
      now := now + 1;
    }

    // the reply goes into the one-slot channel, or is dropped when the connection is closed
    method BufferReply()
      requires Enabled(View(), ReplyBuffered)
      modifies this`chans, this`pc, this`now
      ensures View() == Apply(old(View()), ReplyBuffered)
    {
      var ch := calls[pc.reply.call].chan;
      if !chans[ch].closed {
        chans := chans[ch := chans[ch].(buf := [pc.reply])];
      }
      pc := Idle;
      now := now + 1;
    }

    /** threadLimitingUDPConn.WriteFrom and writerAdapter.Write, behind whatever is queued: the caller
        gets the result of its own write, the last of those the worker makes, or panics when the adapter
        was closed. */
    method WriteFrom(results: seq<Result>) returns (r: Option<Result>)
      requires Reachable(View()) && pc.Idle? && |tasks| < BUFFER_DEPTH && |results| == |tasks| + 1
      modifies this
      ensures Leads(NextOneEach, old(View()), View())
      ensures Reachable(View())
      ensures r == if old(shut) then None else Some(results[|results| - 1])
      ensures !old(shut) ==> tasks == [] && |log| == |old(log)| + |results| && log[|log| - 1].call == |old(calls)|
    {
      ghost var s := View();
      var c := InvokeOnOwnChannel();
      ghost var invoked := View();
      ReachableStep(s, InvokeOwn, invoked);
      var ok := PutTask(c);
      ghost var queued := View();
      OwnChannelIsAlone(s, c);
      ReachableStep(invoked, Enqueue(c), queued);
      ghost var acts := TwoSteps(NextOneEach, s, InvokeOwn, invoked, Enqueue(c), queued);
      if !ok {
        return None;
      }
      ghost var working := Work(results);
      RunThen(NextOneEach, s, acts, queued, working, View());
      assert queued.tasks[|results| - 1] == c;
      assert Answered(queued, View(), queued.tasks[|results| - 1], results[|results| - 1]);
      r := Some(calls[c].pc.reply.value.result);
    }

    /** threadLimitingTCPConn.Write on an open connection with no other write under way, behind whatever
        is queued: the caller gets the result of its own write, the last of those the worker makes. */
    method Write(ch: nat, results: seq<Result>) returns (r: Option<Result>)
      requires Reachable(View()) && pc.Idle? && !shut && |tasks| < BUFFER_DEPTH && |results| == |tasks| + 1
      requires ch < |chans| && chans[ch].buffered && !chans[ch].closed
      requires forall b :: 0 <= b < |calls| && calls[b].pc.Waiting? ==> calls[b].chan != ch
      modifies this
      ensures Leads(NextOneEach, old(View()), View())
      ensures Reachable(View()) && tasks == []
      ensures r == Some(results[|results| - 1])
      ensures |log| == |old(log)| + |results| && log[|log| - 1].call == |old(calls)|
    {
      ghost var s := View();
      var c;
      ghost var acts;
      c, acts := QueueOnConn(ch);
      ghost var queued := View();
      ghost var working := Work(results);
      ghost var worked := View();
      ReplyIsThere(queued, worked, c, results);
      r := AwaitResult(c);
      ReachableStep(worked, Receive(c), View());
      LeadsThen(NextOneEach, s, queued, worked);
      LeadsStep(NextOneEach, s, worked, Receive(c), View());
    }

    method QueueOnConn(ch: nat) returns (c: nat, ghost acts: seq<Action>)
      requires Reachable(View()) && !shut && |tasks| < BUFFER_DEPTH && ch < |chans| && chans[ch].buffered
      requires forall b :: 0 <= b < |calls| && calls[b].pc.Waiting? ==> calls[b].chan != ch
      modifies this`calls, this`tasks, this`enqueued, this`now
      ensures Run(NextOneEach, old(View()), acts, View()) && Reachable(View())
      ensures c == |old(calls)| && tasks == old(tasks) + [c]
      ensures IsWaiting(View(), c) && calls[c].chan == ch
    {
      ghost var s := View();
      c := InvokeOnConn(ch);
      ghost var invoked := View();
      ReachableStep(s, InvokeTcp(ch), invoked);
      var _ := PutTask(c);
      ReachableStep(invoked, Enqueue(c), View());
      acts := TwoSteps(NextOneEach, s, InvokeTcp(ch), invoked, Enqueue(c), View());
    }

    method InvokeOnConn(ch: nat) returns (c: nat)
      requires Enabled(View(), InvokeTcp(ch))
      modifies this`calls, this`now
      ensures View() == Apply(old(View()), InvokeTcp(ch)) && c == |old(calls)|
    {
      c := |calls|;
      calls := calls + [Call(ch, Sending, now, 0)];
      now := now + 1;
    }

    // a fresh unbuffered channel for the call
    method InvokeOnOwnChannel() returns (c: nat)
      modifies this`calls, this`chans, this`now
      ensures View() == Apply(old(View()), InvokeOwn) && c == |old(calls)|
    {
      c := |calls|;
      calls := calls + [Call(|chans|, Sending, now, 0)];
      chans := chans + [Channel(false, [], false)];
      now := now + 1;
    }

    // queues the task; false when the channel is closed, where the caller panics
    method PutTask(c: nat) returns (ok: bool)
      requires Enabled(View(), Enqueue(c))
      modifies this`calls, this`tasks, this`enqueued, this`now
      ensures View() == Apply(old(View()), Enqueue(c)) && ok == !shut
    {
      if shut {
        calls := calls[c := calls[c].(pc := Panicked)];
        ok := false;
      } else {
        tasks := tasks + [c];
        enqueued := enqueued + [c];
        calls := calls[c := calls[c].(pc := Waiting)];
        ok := true;
      }
      now := now + 1;
    }

    // the caller receives, or finds its channel closed
    method AwaitResult(c: nat) returns (result: Option<Result>)
      requires Enabled(View(), Receive(c)) || Enabled(View(), ReceiveClosed(c))
      modifies this`calls, this`chans, this`now
      ensures Enabled(old(View()), Receive(c)) ==>
        View() == Apply(old(View()), Receive(c)) && result == Some(ChanOf(old(View()), c).buf[0].result)
      ensures Enabled(old(View()), ReceiveClosed(c)) ==> View() == Apply(old(View()), ReceiveClosed(c)) && result.None?
    {
      var ch := calls[c].chan;
      if chans[ch].buf != [] {
        var r := chans[ch].buf[0];
        chans := chans[ch := chans[ch].(buf := chans[ch].buf[1..])];
        calls := calls[c := calls[c].(pc := Done(Some(r)), respondedAt := now)];
        result := Some(r.result);
      } else {
        calls := calls[c := calls[c].(pc := Done(None), respondedAt := now)];
        result := None;
      }
      now := now + 1;
    }

    /** Closing the adapter, and what its goroutine still does: every request that was accepted is
        executed and answered, and only then does the goroutine end. */
    method CloseAdapter(results: seq<Result>)
      requires Reachable(View()) && pc.Idle? && |results| == |tasks|
      modifies this
      ensures Leads(NextOneEach, old(View()), View())
      ensures shut && pc.Exited? && CallsOf(log) == enqueued == old(enqueued)
    {
      ghost var s := View();
      Close();
      ghost var closed := View();
      ReachableStep(s, Shut, closed);
      RunFirst(NextOneEach, s, Shut, closed, [], closed, [Shut]);
      ghost var working := Work(results);
      ghost var worked := View();
      RunThen(NextOneEach, s, [Shut], closed, working, worked);
      NothingQueuedIsLost(worked);
      EndLoop();
      RunLast(NextOneEach, s, [Shut] + working, worked, Exit, View());
    }

    // writerAdapter.Close, under closeOnce
    method Close()
      modifies this`shut, this`now
      ensures View() == Apply(old(View()), Shut)
    {
      shut := true;
      now := now + 1;
    }

    method EndLoop()
      requires Enabled(View(), Exit)
      modifies this`pc, this`now
      ensures View() == Apply(old(View()), Exit)
    {
      pc := Exited;
      now := now + 1;
    }
  }

  lemma OwnChannelIsAlone(s: State, c: nat)
    requires Reachable(s) && c == |s.calls|
    ensures Alone(Apply(s, InvokeOwn), c)
  {
    ReachableInv(s);
  }

  /** After the worker's loop the reply of the last task lies in its connection's channel. */
  lemma ReplyIsThere(s: State, t: State, c: nat, results: seq<Result>)
    requires Reachable(t) && Executed(s, t, results) && results != [] && |results| == |s.tasks|
    requires s.tasks[|results| - 1] == c && IsWaiting(s, c) && ChanOf(s, c).buffered && !ChanOf(s, c).closed
    ensures Enabled(t, Receive(c)) && ChanOf(t, c).buf[0] == Reply(c, results[|results| - 1])
  {
    var n := |results| - 1;
    assert Answered(s, t, s.tasks[n], results[n]);
    ReachableInv(t);
    assert ServedCall(t, c);
    var ch := t.calls[c].chan;
    assert BufferOk(t, ch);
    var r := t.chans[ch].buf[0];
    assert r.call == c;
    OneResultEach(t, r, |t.log| - 1);
  }

  lemma OneResultEach(t: State, r: Reply, k: nat)
    requires Ordered(t) && Logged(t, r) && k < |t.log| && t.log[k].call == r.call
    ensures t.log[k].result == r.result
  {
    var i :| 0 <= i < |t.log| && t.log[i].call == r.call && t.log[i].result == r.result;
    assert t.enqueued[i] == t.log[i].call && t.enqueued[k] == t.log[k].call;
  }

  lemma ThreeSteps(s: State, a: Action, m: State, b: Action, n: State, c: Action, t: State) returns (acts: seq<Action>)
    requires NextOneEach(s, a, m) && NextOneEach(m, b, n) && NextOneEach(n, c, t)
    ensures Run(NextOneEach, s, acts, t)
  {
    var first := TwoSteps(NextOneEach, s, a, m, b, n);
    acts := first + [c];
    RunLast(NextOneEach, s, first, n, c, t);
  }
}
