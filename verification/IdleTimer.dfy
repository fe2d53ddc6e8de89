/** The UDP idle timer (internalsdk/ios/udp.go, idleTiming): stop, drain and reset of a Go timer around
    a select loop. Both timer runtimes are covered: the buffered channel of Go before 1.23, where an
    expired timer is for a moment still about to send, and the synchronous channel since then, where
    Stop discards an unreceived tick. */
module IdleTimer {
  import opened Common

  const EVENT_QUEUE: nat := 10

  datatype Runtime = Buffered | Synchronous

  datatype Timer = Armed(deadline: nat) | Firing | Off

  datatype Pc = Selecting | Draining | Returned

  datatype State = State(
    runtime: Runtime, idleTimeout: nat, now: nat,
    timer: Timer, tick: bool,          // tick: a value in t.C
    received: nat, wrote: nat,         // values in the two event channels
    pc: Pc, closes: nat,
    lastEvent: nat)                    // history: the start, or when the last event was consumed

  function Init(runtime: Runtime, idleTimeout: nat, now: nat): State {
    State(runtime, idleTimeout, now, Armed(now + idleTimeout), false, 0, 0, Selecting, 0, now)
  }

  datatype Action =
    | Pass(d: nat) | Expire | Place            // time, and the timer runtime
    | OnReceive | OnWritten                    // callbacks queueing an event
    | TakeReceived | TakeWrote | TakeTick      // the select
    | Drain                                    // the receive that follows a failed Stop

  predicate Enabled(s: State, a: Action) {
    match a
    case Pass(_) => true
    case Expire => s.timer.Armed? && s.timer.deadline <= s.now
    case Place => s.timer.Firing?
    case OnReceive => s.received < EVENT_QUEUE
    case OnWritten => s.wrote < EVENT_QUEUE
    case TakeReceived => s.pc.Selecting? && s.received > 0
    case TakeWrote => s.pc.Selecting? && s.wrote > 0
    case TakeTick => s.pc.Selecting? && s.tick
    case Drain => s.pc.Draining? && s.tick
  }

  /** What t.Stop returns. */
  function Stops(s: State): bool {
    s.timer.Armed? || (s.runtime.Synchronous? && s.tick)
  }

  function Stop(s: State): State {
    s.(timer := if s.timer.Armed? then Off else s.timer, tick := s.tick && s.runtime.Buffered?)
  }

  function Reset(s: State): State {
    s.(timer := Armed(s.now + s.idleTimeout), pc := Selecting)
  }

  /** resetTimer, up to the point where it may block */
  function ResetTimer(s: State): State {
    if Stops(s) then Reset(Stop(s)) else Stop(s).(pc := Draining)
  }

  function Apply(s: State, a: Action): State
    requires Enabled(s, a)
  {
    match a
    case Pass(d) => s.(now := s.now + d)
    case Expire => if s.runtime.Buffered? then s.(timer := Firing) else s.(timer := Off, tick := true)
    case Place => s.(timer := Off, tick := true)
    case OnReceive => s.(received := s.received + 1)
    case OnWritten => s.(wrote := s.wrote + 1)
    case TakeReceived => ResetTimer(s.(received := s.received - 1, lastEvent := s.now))
    case TakeWrote => ResetTimer(s.(wrote := s.wrote - 1, lastEvent := s.now))
    case TakeTick => s.(tick := false, closes := s.closes + 1, pc := Returned)
    case Drain => Reset(s.(tick := false))
  }

  ghost predicate Next(s: State, a: Action, t: State) {
    Enabled(s, a) && t == Apply(s, a)
  }

  ghost predicate Reachable(s: State) {
    exists runtime, idleTimeout, start, acts :: Run(Next, Init(runtime, idleTimeout, start), acts, s)
  }

  ghost predicate Inv(s: State) {
    && s.lastEvent <= s.now
    && (s.timer.Armed? ==> !s.tick && s.lastEvent + s.idleTimeout <= s.timer.deadline)
    && (s.timer.Firing? ==> !s.tick && s.runtime.Buffered?)
    && (s.pc.Selecting? ==> s.timer.Armed? || s.timer.Firing? || s.tick)
    && (s.pc.Selecting? && !s.timer.Armed? ==> s.lastEvent + s.idleTimeout <= s.now)
    && (s.pc.Draining? ==> s.runtime.Buffered? && (s.timer.Firing? || (s.timer.Off? && s.tick)))
    && (s.pc.Returned? ==> s.timer.Off? && !s.tick && s.closes == 1 && s.lastEvent + s.idleTimeout <= s.now)
    && (!s.pc.Returned? ==> s.closes == 0)
  }

  lemma StepKeepsInv(s: State, a: Action)
    requires Inv(s) && Enabled(s, a)
    ensures Inv(Apply(s, a))
  {
  }

  lemma ReachableInv(s: State)
    requires Reachable(s)
    ensures Inv(s)
  {
    var runtime, idleTimeout, start, acts :| Run(Next, Init(runtime, idleTimeout, start), acts, s);
    forall x, a, y | Inv(x) && Next(x, a, y) ensures Inv(y) {
      StepKeepsInv(x, a);
    }
    RunKeeps(Next, Inv, Init(runtime, idleTimeout, start), acts, s);
  }

  /** The drain never blocks for good: its tick is there, or the runtime is about to put it there. */
  lemma DrainNeverBlocks(s: State)
    requires Reachable(s) && s.pc.Draining?
    ensures Enabled(s, Drain) || (Enabled(s, Place) && Enabled(Apply(s, Place), Drain))
  {
    ReachableInv(s);
  }

  /** After consuming an event the timer is armed with no tick in its channel, or is being drained; so
      no tick of an earlier arming can close the connection. */
  lemma NoStaleTick(s: State)
    requires Reachable(s)
    ensures s.timer.Armed? ==> !s.tick
    ensures Enabled(s, Drain) ==> Apply(s, Drain).timer == Armed(s.now + s.idleTimeout) && !Apply(s, Drain).tick
    ensures forall a: Action :: (a.TakeReceived? || a.TakeWrote?) && Enabled(s, a) ==>
      var t := Apply(s, a);
      t.pc.Draining? || (t.timer == Armed(s.now + s.idleTimeout) && !t.tick)
  {
    ReachableInv(s);
  }

  /** The upstream is closed at most once, and only after a full idle timeout without a consumed event. */
  lemma ClosesOnceAndOnlyWhenIdle(s: State)
    requires Reachable(s)
    ensures s.closes <= 1
    ensures s.closes == 1 <==> s.pc.Returned?
    ensures Enabled(s, TakeTick) ==> s.lastEvent + s.idleTimeout <= s.now
  {
    ReachableInv(s);
  }

  /** An idle connection is closed: once its deadline has passed with nothing to consume, the loop gets its tick. */
  lemma IdleGetsClosed(s: State)
    requires Reachable(s) && s.pc.Selecting? && (s.timer.Armed? ==> s.timer.deadline <= s.now)
    ensures exists acts, t :: Run(Next, s, acts, t) && t.closes == 1 && t.pc.Returned? && t.now == s.now
  {
    ReachableInv(s);
    var s1 := if s.timer.Armed? then Apply(s, Expire) else s;
    var s2 := if s1.timer.Firing? then Apply(s1, Place) else s1;
    assert Inv(s1) && Inv(s2) && s2.tick && s2.pc.Selecting?;
    var t := Apply(s2, TakeTick);
    var acts := [TakeTick];
    RunFirst(Next, s2, TakeTick, t, [], t, acts);
    if s1.timer.Firing? {
      RunFirst(Next, s1, Place, s2, acts, t, [Place] + acts);
      acts := [Place] + acts;
    }
    if s.timer.Armed? {
      RunFirst(Next, s, Expire, s1, acts, t, [Expire] + acts);
      acts := [Expire] + acts;
    }
    assert Run(Next, s, acts, t);
  }

  // A whole run of the loop, in one line of time ////////////////////////////////////////////////////////

  datatype Event = Nothing | Datagram | Written

  // `d` passes, then an event may come in; with both ready the select may take the tick or the event
  datatype Wake = Wake(d: nat, event: Event, tickFirst: bool)

  /** Whether the loop closes the connection, when `quiet` has passed since the last event: at a wake-up
      that is a full timeout after the last event before it, if there is no event or it is passed over. */
  function Closes(idleTimeout: nat, quiet: nat, wakes: seq<Wake>): bool
    decreases |wakes|
  {
    if wakes == [] then false
    else
      var w := wakes[0];
      var q := quiet + w.d;
      (q >= idleTimeout && (w.event.Nothing? || w.tickFirst)) ||
      Closes(idleTimeout, if w.event.Nothing? then q else 0, wakes[1..])
  }

  /** Between two wake-ups: the timer runs from the last event on and nothing waits. */
  predicate Resting(s: State) {
    && s.pc.Selecting? && s.timer == Armed(s.lastEvent + s.idleTimeout) && !s.tick
    && s.received == 0 && s.wrote == 0 && s.lastEvent <= s.now && s.closes == 0
  }

  // The callbacks object, updated in place //////////////////////////////////////////////////////////////

  class UdpCallbacks {
    const runtime: Runtime
    const idleTimeout: nat
    var now: nat
    var timer: Timer
    var tick: bool
    var received: nat
    var wrote: nat
    var pc: Pc
    var closes: nat
    var lastEvent: nat    // history

    ghost function View(): State
      reads this
    {
      State(runtime, idleTimeout, now, timer, tick, received, wrote, pc, closes, lastEvent)
    }

    constructor (runtime: Runtime, idleTimeout: nat, now: nat)
      ensures View() == Init(runtime, idleTimeout, now) && Resting(View())
    {
      this.runtime, this.idleTimeout, this.now := runtime, idleTimeout, now;
      timer, tick, received, wrote := Armed(now + idleTimeout), false, 0, 0;
      pc, closes, lastEvent := Selecting, 0, now;
    }

    /** idleTiming, with OnReceive and OnWritten as the events that come in: a run of the machine that
        closes the upstream, and returns, exactly when the time line says so. */
    method IdleTiming(wakes: seq<Wake>) returns (ghost acts: seq<Action>)
      requires Resting(View())
      modifies this
      ensures Run(Next, old(View()), acts, View())
      ensures if Closes(idleTimeout, old(now) - old(lastEvent), wakes) then pc.Returned? && closes == 1
        else Resting(View())
    {
      ghost var s := View();
      acts := [];
      for i := 0 to |wakes|
        invariant Run(Next, s, acts, View()) && Resting(View())
        invariant Closes(idleTimeout, s.now - s.lastEvent, wakes) == Closes(idleTimeout, now - lastEvent, wakes[i..])
      {
        ghost var before := View();
        assert wakes[i..][1..] == wakes[i + 1..];
        ghost var turn := HandleWake(wakes[i]);
        RunThen(Next, s, acts, before, turn, View());
        acts := acts + turn;
        if pc.Returned? {
          return;
        }
      }
    }

    method HandleWake(w: Wake) returns (ghost acts: seq<Action>)
      requires Resting(View())
      modifies this
      ensures Run(Next, old(View()), acts, View())
      ensures var q := old(now) - old(lastEvent) + w.d;
        if q >= idleTimeout && (w.event.Nothing? || w.tickFirst) then pc.Returned? && closes == 1
        else Resting(View()) && now - lastEvent == if w.event.Nothing? then q else 0
    {
      ghost var s := View();
      acts := LetTimePass(w.d);
      ghost var before := View();
      if !w.event.Nothing? {
        var a := QueueEvent(w.event);
        RunLast(Next, s, acts, before, a, View());
        acts := acts + [a];
      }
      ghost var m, rest := View(), [];
      if tick && (w.event.Nothing? || w.tickFirst) {
        rest := Select(TakeTick);
      } else if w.event.Datagram? {
        rest := Select(TakeReceived);
      } else if w.event.Written? {
        rest := Select(TakeWrote);
      } else {
        return;
      }
      RunThen(Next, s, acts, m, rest, View());
      acts := acts + rest;
    }

    // the timer's own work, when it is due
    method LetTimePass(d: nat) returns (ghost acts: seq<Action>)
      requires Resting(View())
      modifies this`now, this`timer, this`tick
      ensures Run(Next, old(View()), acts, View())
      ensures now == old(now) + d
      ensures if lastEvent + idleTimeout <= now then timer.Off? && tick else timer == old(timer) && !tick
    {
      ghost var s := View();
      now := now + d;
      ghost var m := View();
      RunFirst(Next, s, Pass(d), m, [], m, [Pass(d)]);
      acts := [Pass(d)];
      if timer.deadline <= now {
        if runtime.Buffered? {
          timer := Firing;
          RunLast(Next, s, acts, m, Expire, View());
          acts := acts + [Expire];
          m := View();
          timer, tick := Off, true;
          RunLast(Next, s, acts, m, Place, View());
          acts := acts + [Place];
        } else {
          timer, tick := Off, true;
          RunLast(Next, s, acts, m, Expire, View());
          acts := acts + [Expire];
        }
      }
    }

    // OnReceive and OnWritten
    method QueueEvent(event: Event) returns (a: Action)
      requires !event.Nothing? && received < EVENT_QUEUE && wrote < EVENT_QUEUE
      modifies this`received, this`wrote
      ensures a == (if event.Datagram? then OnReceive else OnWritten) && Next(old(View()), a, View())
    {
      if event.Datagram? {
        received := received + 1;
        a := OnReceive;
      } else {
        wrote := wrote + 1;
        a := OnWritten;
      }
    }

    method StopTimer() returns (stopped: bool)
      modifies this`timer, this`tick
      ensures stopped == Stops(old(View())) && View() == Stop(old(View()))
    {
      stopped := timer.Armed?;
      if timer.Armed? {
        timer := Off;
      }
      if runtime.Synchronous? && tick {
        tick := false;
        stopped := true;
      }
    }

    /** resetTimer, up to the point where it may block */
    method ResetIdleTimer()
      modifies this`timer, this`tick, this`pc
      ensures View() == ResetTimer(old(View()))
    {
      var stopped := StopTimer();
      if !stopped {
        pc := Draining;
      } else {
        timer := Armed(now + idleTimeout);
        pc := Selecting;
      }
    }

    /** One turn of the select, taking the ready case `a`, with the drain if the reset needs it: the timer
        is either closed for good or armed for a full timeout, with no tick left. */
    method Select(a: Action) returns (ghost acts: seq<Action>)
      requires Enabled(View(), a) && (a.TakeReceived? || a.TakeWrote? || a.TakeTick?) && !timer.Firing?
      requires a.TakeTick? || (timer.Armed? && !tick) || (timer.Off? && tick)
      modifies this
      ensures Run(Next, old(View()), acts, View()) && now == old(now) && !tick
      ensures if a.TakeTick? then pc.Returned? && closes == old(closes) + 1
        else pc.Selecting? && timer == Armed(now + idleTimeout) && lastEvent == now && closes == old(closes)
      ensures received == old(received) - (if a.TakeReceived? then 1 else 0)
      ensures wrote == old(wrote) - (if a.TakeWrote? then 1 else 0)
    {
      ghost var s := View();
      Take(a);
      ghost var m := View();
      RunFirst(Next, s, a, m, [], m, [a]);
      acts := [a];
      if pc.Draining? {
        FinishDrain();
        RunLast(Next, s, acts, m, Drain, View());
        acts := acts + [Drain];
      }
    }

    method Take(a: Action)
      requires Enabled(View(), a) && (a.TakeReceived? || a.TakeWrote? || a.TakeTick?)
      modifies this
      ensures View() == Apply(old(View()), a)
    {
      match a {
        case TakeReceived =>
          received := received - 1;
          lastEvent := now;
          ResetIdleTimer();
        case TakeWrote =>
          wrote := wrote - 1;
          lastEvent := now;
          ResetIdleTimer();
        case TakeTick =>
          tick := false;
          closes := closes + 1;
          pc := Returned;
      }
    }

    method FinishDrain()
      requires Enabled(View(), Drain)
      modifies this`tick, this`timer, this`pc
      ensures View() == Apply(old(View()), Drain)
    {
      tick := false;
      timer := Armed(now + idleTimeout);
      pc := Selecting;
    }
  }
}
