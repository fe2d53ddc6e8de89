/** GetInt64Eventually against concurrent setVals (desktop/app/settings.go): a waiter registers a
    callback, reads, and only then blocks; a setter writes all its names, saves, and then, name by name,
    calls the listeners and sends the settings to the UI's bounded channel, where it can block. */
module SettingsWaiter {
  import opened Common

  const UI_QUEUE: nat := 1000

  // An int64, an int, or a value of some other type
  datatype Value = Num(n: int) | PlainInt(n: int) | NotInt64

  datatype Answer = Got(n: int) | CastError

  datatype WaiterPc = Starting | Registered | Blocked | Returned(answer: Answer)

  datatype Waiter = Waiter(
    name: string,
    pc: WaiterPc,
    cell: Option<Value>,   // the eventual value its callback sets
    since: nat,            // history: how many writes had happened when it registered
    read: Option<Value>)   // history: what was stored under its name when it read

  datatype SetterPc =
    | Preparing
    | Between(todo: set<string>)                  // has written; these names are still to be notified
    | Calling(name: string, left: seq<nat>, toUi: bool, todo: set<string>)   // in onChange of `name`
    | SendingUi(todo: set<string>)                // at the send to the UI

  datatype Setter = Setter(
    vals: map<string, Value>, pc: SetterPc,
    number: nat,           // history: which write, in order, its own was
    called: set<nat>)      // history: the waiters whose callbacks it called

  datatype State = State(
    m: map<string, Value>,
    notifiers: map<string, seq<nat>>,
    ui: Option<nat>,       // how many messages are in the UI service's Out, once there is one
    waiters: seq<Waiter>, setters: seq<Setter>,
    writes: nat)           // history: writes so far

  function Init(m: map<string, Value>): State {
    State(m, map[], None, [], [], 0)
  }

  datatype Action =
    | Call(name: string) | Register(w: nat) | Read(w: nat) | Wake(w: nat)
    | Set(vals: map<string, Value>) | Write(k: nat)
    | Snapshot(k: nat, name: string) | Notify(k: nat) | EndCalls(k: nat) | SendUi(k: nat)
    | StartUi | ReadSends | UiTake           // StartService; the send in read; the service's own loop

  function AsInt64(v: Option<Value>): int {
    if v.Some? && !v.value.NotInt64? then v.value.n else 0
  }

  function ToAnswer(v: Value): Answer {
    if v.Num? then Got(v.n) else CastError
  }

  function Stored(s: State, name: string): Option<Value> {
    if name in s.m then Some(s.m[name]) else None
  }

  function NotifiersOf(s: State, name: string): seq<nat> {
    if name in s.notifiers then s.notifiers[name] else []
  }

  predicate UiHasRoom(s: State) {
    s.ui.Some? && s.ui.value < UI_QUEUE
  }

  predicate Enabled(s: State, a: Action) {
    match a
    case Call(_) => true
    case Register(w) => w < |s.waiters| && s.waiters[w].pc.Starting?
    case Read(w) => w < |s.waiters| && s.waiters[w].pc.Registered?
    case Wake(w) => w < |s.waiters| && s.waiters[w].pc.Blocked? && s.waiters[w].cell.Some?
    case Set(_) => true
    case Write(k) => k < |s.setters| && s.setters[k].pc.Preparing?
    case Snapshot(k, name) => k < |s.setters| && s.setters[k].pc.Between? && name in s.setters[k].pc.todo
    case Notify(k) =>
      && k < |s.setters| && s.setters[k].pc.Calling? && s.setters[k].pc.left != []
      && s.setters[k].pc.left[0] < |s.waiters| && s.setters[k].pc.name in s.setters[k].vals
    case EndCalls(k) => k < |s.setters| && s.setters[k].pc.Calling? && s.setters[k].pc.left == []
    case SendUi(k) => k < |s.setters| && s.setters[k].pc.SendingUi? && UiHasRoom(s)
    case StartUi => s.ui.None?
    case ReadSends => UiHasRoom(s)
    case UiTake => s.ui.Some? && s.ui.value > 0
  }

  function SetWaiter(s: State, w: nat, x: Waiter): State
    requires w < |s.waiters|
  {
    s.(waiters := s.waiters[w := x])
  }

  function SetSetter(s: State, k: nat, x: Setter): State
    requires k < |s.setters|
  {
    s.(setters := s.setters[k := x])
  }

  function Apply(s: State, a: Action): State
    requires Enabled(s, a)
  {
    match a
    case Call(name) => s.(waiters := s.waiters + [Waiter(name, Starting, None, 0, None)])
    case Register(w) =>
      var name := s.waiters[w].name;
      SetWaiter(s, w, s.waiters[w].(pc := Registered, since := s.writes))
        .(notifiers := s.notifiers[name := NotifiersOf(s, name) + [w]])
    case Read(w) =>
      var val := AsInt64(Stored(s, s.waiters[w].name));
      SetWaiter(s, w, s.waiters[w].(pc := if val > 0 then Returned(Got(val)) else Blocked,
                                    read := Stored(s, s.waiters[w].name)))
    case Wake(w) => SetWaiter(s, w, s.waiters[w].(pc := Returned(ToAnswer(s.waiters[w].cell.value))))
    case Set(vals) => s.(setters := s.setters + [Setter(vals, Preparing, 0, {})])
    case Write(k) =>
      SetSetter(s, k, s.setters[k].(pc := Between(s.setters[k].vals.Keys), number := s.writes))
        .(m := s.m + s.setters[k].vals, writes := s.writes + 1)
    case Snapshot(k, name) =>
      SetSetter(s, k, s.setters[k].(pc := Calling(name, NotifiersOf(s, name), s.ui.Some?,
        s.setters[k].pc.todo - {name})))
    case Notify(k) =>
      var x := s.setters[k];
      var w := x.pc.left[0];
      SetSetter(SetWaiter(s, w, s.waiters[w].(cell := Some(x.vals[x.pc.name]))),
                k, x.(pc := x.pc.(left := x.pc.left[1..]), called := x.called + {w}))
    case EndCalls(k) =>
      var pc := s.setters[k].pc;
      SetSetter(s, k, s.setters[k].(pc := if pc.toUi then SendingUi(pc.todo) else Between(pc.todo)))
    case SendUi(k) =>
      SetSetter(s, k, s.setters[k].(pc := Between(s.setters[k].pc.todo))).(ui := Some(s.ui.value + 1))
    case StartUi => s.(ui := Some(0))
    case ReadSends => s.(ui := Some(s.ui.value + 1))
    case UiTake => s.(ui := Some(s.ui.value - 1))
  }

  ghost predicate Next(s: State, a: Action, t: State) {
    Enabled(s, a) && t == Apply(s, a)
  }

  ghost predicate Reachable(s: State) {
    exists m, acts :: Run(Next, Init(m), acts, s)
  }

  // Invariant ///////////////////////////////////////////////////////////////////////////////////////

  function Todo(x: Setter): set<string> {
    if x.pc.Preparing? then {} else x.pc.todo
  }

  /** Setter `x` has yet to call waiter `w`, who waits for `name`. */
  predicate PendingIn(x: Setter, w: nat, name: string) {
    name in Todo(x) || (x.pc.Calling? && w in x.pc.left)
  }

  predicate Pending(s: State, k: nat, w: nat)
    requires k < |s.setters| && w < |s.waiters|
  {
    PendingIn(s.setters[k], w, s.waiters[w].name)
  }

  /** Setter `k` wrote the name waiter `w` waits for, after `w` registered. */
  predicate WroteSince(s: State, k: nat, w: nat)
    requires k < |s.setters| && w < |s.waiters|
  {
    && s.waiters[w].name in s.setters[k].vals
    && !s.waiters[w].pc.Starting? && !s.setters[k].pc.Preparing? && s.waiters[w].since <= s.setters[k].number
  }

  /** Callbacks are filed under their own names, each once. */
  ghost predicate WaiterOk(s: State, w: nat)
    requires w < |s.waiters|
  {
    && (w in NotifiersOf(s, s.waiters[w].name) <==> !s.waiters[w].pc.Starting?)
    && s.waiters[w].since <= s.writes
  }

  predicate ListOk(s: State, name: string, list: seq<nat>) {
    && (forall i :: 0 <= i < |list| ==> list[i] < |s.waiters| && s.waiters[list[i]].name == name)
    && (forall i, j :: 0 <= i < j < |list| ==> list[i] != list[j])
  }

  ghost predicate SetterOk(s: State, k: nat)
    requires k < |s.setters|
  {
    var x := s.setters[k];
    && (x.pc.Preparing? ==> x.called == {})
    && (!x.pc.Preparing? ==> x.number < s.writes && x.pc.todo <= x.vals.Keys)
    && (x.pc.Calling? ==> x.pc.name in x.vals && x.pc.name !in x.pc.todo && ListOk(s, x.pc.name, x.pc.left))
    && (x.pc.SendingUi? || (x.pc.Calling? && x.pc.toUi) ==> s.ui.Some?)
  }

  ghost predicate Shape(s: State) {
    && (forall w :: 0 <= w < |s.waiters| ==> WaiterOk(s, w))
    && (forall n :: n in s.notifiers ==> ListOk(s, n, s.notifiers[n]))
    && (forall k :: 0 <= k < |s.setters| ==> SetterOk(s, k))
    && (s.ui.Some? ==> s.ui.value <= UI_QUEUE)
  }

  /** What setter `k` did to waiter `w`: a waiter that registered before its write was either called or
      is still to be; no waiter is both. */
  ghost predicate PairOk(s: State, k: nat, w: nat)
    requires k < |s.setters| && w < |s.waiters|
  {
    var called := w in s.setters[k].called;
    && (called ==> s.waiters[w].cell.Some? && !Pending(s, k, w))
    && (WroteSince(s, k, w) && !called ==> Pending(s, k, w))
  }

  ghost predicate Pairs(s: State) {
    forall k, w :: 0 <= k < |s.setters| && 0 <= w < |s.waiters| ==> PairOk(s, k, w)
  }

  ghost predicate CalledExist(s: State) {
    forall k, w :: 0 <= k < |s.setters| && w in s.setters[k].called ==> w < |s.waiters|
  }

  ghost predicate StoredBy(s: State, name: string, v: Value) {
    exists k :: 0 <= k < |s.setters| && !s.setters[k].pc.Preparing? &&
      name in s.setters[k].vals && s.setters[k].vals[name] == v
  }

  ghost predicate CellOk(s: State, w: nat)
    requires w < |s.waiters|
  {
    s.waiters[w].cell.Some? ==> StoredBy(s, s.waiters[w].name, s.waiters[w].cell.value)
  }

  /** A blocked waiter saw no positive value: none is stored, or it was written after the registration. */
  ghost predicate BlockedForCause(s: State, w: nat)
    requires w < |s.waiters|
  {
    s.waiters[w].pc.Blocked? ==>
      AsInt64(Stored(s, s.waiters[w].name)) <= 0 || exists k :: 0 <= k < |s.setters| && WroteSince(s, k, w)
  }

  ghost predicate Waiters(s: State) {
    forall w :: 0 <= w < |s.waiters| ==> CellOk(s, w) && BlockedForCause(s, w)
  }

  ghost predicate Inv(s: State) {
    Shape(s) && CalledExist(s) && Pairs(s) && Waiters(s)
  }

  /** Steps of waiters. */
  predicate ByWaiter(a: Action) {
    a.Call? || a.Register? || a.Read? || a.Wake?
  }

  lemma StepKeepsWaiterOk(s: State, a: Action, w: nat)
    requires Shape(s) && Enabled(s, a) && w < |Apply(s, a).waiters|
    ensures WaiterOk(Apply(s, a), w)
  {
    var t := Apply(s, a);
    if w == |s.waiters| {
      assert a.Call?;
      if t.waiters[w].name in s.notifiers {
        assert ListOk(s, t.waiters[w].name, s.notifiers[t.waiters[w].name]);
      }
    } else {
      assert WaiterOk(s, w);
      if a.Register? {
        assert t.notifiers[s.waiters[a.w].name][|NotifiersOf(s, s.waiters[a.w].name)|] == a.w;
      }
    }
  }

  lemma GrownListOk(s: State, t: State, name: string, list: seq<nat>)
    requires ListOk(s, name, list) && |s.waiters| <= |t.waiters|
    requires forall w :: 0 <= w < |s.waiters| ==> t.waiters[w].name == s.waiters[w].name
    ensures ListOk(t, name, list)
  {
  }

  lemma NamesStay(s: State, a: Action)
    requires Enabled(s, a)
    ensures |s.waiters| <= |Apply(s, a).waiters| && s.writes <= Apply(s, a).writes
    ensures forall w :: 0 <= w < |s.waiters| ==> Apply(s, a).waiters[w].name == s.waiters[w].name
  {
  }

  lemma StepKeepsListOk(s: State, a: Action, n: string)
    requires Shape(s) && Enabled(s, a) && n in Apply(s, a).notifiers
    ensures ListOk(Apply(s, a), n, Apply(s, a).notifiers[n])
  {
    NamesStay(s, a);
    if n in s.notifiers {
      GrownListOk(s, Apply(s, a), n, s.notifiers[n]);
    }
    if a.Register? {
      assert WaiterOk(s, a.w);
    }
  }

  lemma StepKeepsSetterOk(s: State, a: Action, k: nat)
    requires Shape(s) && Enabled(s, a) && k < |Apply(s, a).setters|
    ensures SetterOk(Apply(s, a), k)
  {
    NamesStay(s, a);
    var t := Apply(s, a);
    if k < |s.setters| {
      assert SetterOk(s, k);
      if s.setters[k].pc.Calling? {
        GrownListOk(s, t, s.setters[k].pc.name, s.setters[k].pc.left);
      }
      if a.Snapshot? && a.k == k && a.name in s.notifiers {
        GrownListOk(s, t, a.name, s.notifiers[a.name]);
      }
    }
  }

  lemma StepKeepsShape(s: State, a: Action)
    requires Shape(s) && Enabled(s, a)
    ensures Shape(Apply(s, a))
  {
    var t := Apply(s, a);
    forall w | 0 <= w < |t.waiters| ensures WaiterOk(t, w) { StepKeepsWaiterOk(s, a, w); }
    forall n | n in t.notifiers ensures ListOk(t, n, t.notifiers[n]) { StepKeepsListOk(s, a, n); }
    forall k | 0 <= k < |t.setters| ensures SetterOk(t, k) { StepKeepsSetterOk(s, a, k); }
  }

  lemma StepKeepsCalledExist(s: State, a: Action)
    requires CalledExist(s) && Enabled(s, a)
    ensures CalledExist(Apply(s, a))
  {
  }

  lemma WaiterStepKeepsPair(s: State, a: Action, k: nat, w: nat)
    requires Shape(s) && CalledExist(s) && Pairs(s) && Enabled(s, a) && ByWaiter(a)
    requires k < |s.setters| && w < |Apply(s, a).waiters|
    ensures PairOk(Apply(s, a), k, w)
  {
    assert SetterOk(s, k);
    assert Apply(s, a).setters == s.setters;
    if w < |s.waiters| {
      assert PairOk(s, k, w);
    }
  }

  lemma SetterStepKeepsPair(s: State, a: Action, k: nat, w: nat)
    requires Shape(s) && Pairs(s) && Enabled(s, a) && !ByWaiter(a) && !a.Notify? && !a.Snapshot?
    requires k < |Apply(s, a).setters| && w < |s.waiters|
    ensures PairOk(Apply(s, a), k, w)
  {
    if k < |s.setters| {
      assert PairOk(s, k, w) && SetterOk(s, k);
    }
  }

  lemma SnapshotKeepsPair(s: State, j: nat, name: string, k: nat, w: nat)
    requires Shape(s) && Pairs(s) && Enabled(s, Snapshot(j, name)) && k < |s.setters| && w < |s.waiters|
    ensures PairOk(Apply(s, Snapshot(j, name)), k, w)
  {
    assert PairOk(s, k, w) && SetterOk(s, k) && WaiterOk(s, w);
    assert name in s.notifiers ==> ListOk(s, name, s.notifiers[name]);
  }

  lemma NotifyKeepsPair(s: State, j: nat, k: nat, w: nat)
    requires Shape(s) && Pairs(s) && Enabled(s, Notify(j)) && k < |s.setters| && w < |s.waiters|
    ensures PairOk(Apply(s, Notify(j)), k, w)
  {
    assert PairOk(s, k, w) && SetterOk(s, k);
    if k == j {
      var left := s.setters[j].pc.left;
      assert left == [left[0]] + left[1..];
      assert ListOk(s, s.setters[j].pc.name, left);
    }
  }

  lemma StepKeepsPairs(s: State, a: Action)
    requires Shape(s) && CalledExist(s) && Pairs(s) && Enabled(s, a)
    ensures Pairs(Apply(s, a))
  {
    var t := Apply(s, a);
    forall k, w | 0 <= k < |t.setters| && 0 <= w < |t.waiters| ensures PairOk(t, k, w) {
      if ByWaiter(a) {
        WaiterStepKeepsPair(s, a, k, w);
      } else if a.Notify? {
        NotifyKeepsPair(s, a.k, k, w);
      } else if a.Snapshot? {
        SnapshotKeepsPair(s, a.k, a.name, k, w);
      } else {
        SetterStepKeepsPair(s, a, k, w);
      }
    }
  }

  /** A setter that has written stays one, with its values and its number. */
  lemma WrittenStays(s: State, a: Action, k: nat)
    requires Enabled(s, a) && k < |s.setters| && !s.setters[k].pc.Preparing?
    ensures var t := Apply(s, a);
      && k < |t.setters| && !t.setters[k].pc.Preparing?
      && t.setters[k].vals == s.setters[k].vals && t.setters[k].number == s.setters[k].number
  {
  }

  lemma StoredByStays(s: State, a: Action, name: string, v: Value)
    requires Enabled(s, a) && StoredBy(s, name, v)
    ensures StoredBy(Apply(s, a), name, v)
  {
    var k :| 0 <= k < |s.setters| && !s.setters[k].pc.Preparing? && name in s.setters[k].vals &&
      s.setters[k].vals[name] == v;
    WrittenStays(s, a, k);
  }

  lemma StepKeepsCellOk(s: State, a: Action, w: nat)
    requires Shape(s) && Waiters(s) && Enabled(s, a) && w < |Apply(s, a).waiters|
    ensures CellOk(Apply(s, a), w)
  {
    var t := Apply(s, a);
    if a.Notify? && s.setters[a.k].pc.left[0] == w {
      assert SetterOk(s, a.k);
      assert t.setters[a.k].vals == s.setters[a.k].vals;
      assert StoredBy(t, s.setters[a.k].pc.name, t.waiters[w].cell.value);
    } else if w < |s.waiters| {
      assert CellOk(s, w);
      assert t.waiters[w].cell == s.waiters[w].cell && t.waiters[w].name == s.waiters[w].name;
      if s.waiters[w].cell.Some? {
        StoredByStays(s, a, s.waiters[w].name, s.waiters[w].cell.value);
      }
    }
  }

  lemma StepKeepsForCause(s: State, a: Action, w: nat)
    requires Shape(s) && Waiters(s) && Enabled(s, a) && w < |Apply(s, a).waiters|
    ensures BlockedForCause(Apply(s, a), w)
  {
    var t := Apply(s, a);
    if w < |s.waiters| && s.waiters[w].pc.Blocked? && t.waiters[w].pc.Blocked? {
      assert BlockedForCause(s, w) && WaiterOk(s, w);
      var name := s.waiters[w].name;
      if a.Write? && name in s.setters[a.k].vals {
        assert WroteSince(t, a.k, w);
      } else if AsInt64(Stored(s, name)) > 0 {
        var k :| 0 <= k < |s.setters| && WroteSince(s, k, w);
        WrittenStays(s, a, k);
        assert WroteSince(t, k, w);
      }
    }
  }

  lemma StepKeepsInv(s: State, a: Action)
    requires Inv(s) && Enabled(s, a)
    ensures Inv(Apply(s, a))
  {
    StepKeepsShape(s, a);
    StepKeepsCalledExist(s, a);
    StepKeepsPairs(s, a);
    var t := Apply(s, a);
    forall w | 0 <= w < |t.waiters| ensures CellOk(t, w) && BlockedForCause(t, w) {
      StepKeepsCellOk(s, a, w);
      StepKeepsForCause(s, a, w);
    }
  }

  lemma StepsKeepInv()
    ensures forall x, a, y :: Inv(x) && Next(x, a, y) ==> Inv(y)
  {
    forall x, a, y | Inv(x) && Next(x, a, y) ensures Inv(y) {
      StepKeepsInv(x, a);
    }
  }

  lemma ReachableInv(s: State)
    requires Reachable(s)
    ensures Inv(s)
  {
    var m, acts :| Run(Next, Init(m), acts, s);
    StepsKeepInv();
    RunKeeps(Next, Inv, Init(m), acts, s);
  }

  lemma ReachableStep(s: State, a: Action, t: State)
    requires Reachable(s) && Next(s, a, t)
    ensures Reachable(t)
  {
    var m, acts :| Run(Next, Init(m), acts, s);
    RunLast(Next, Init(m), acts, s, a, t);
  }

  lemma ReachableRun(s: State, acts: seq<Action>, t: State)
    requires Reachable(s) && Run(Next, s, acts, t)
    ensures Reachable(t)
  {
    var m, first :| Run(Next, Init(m), first, s);
    RunThen(Next, Init(m), first, s, acts, t);
  }

  predicate PastRead(s: State, w: nat) {
    w < |s.waiters| && (s.waiters[w].pc.Blocked? || s.waiters[w].pc.Returned?)
  }

  lemma StaysPastRead(s: State, w: nat, acts: seq<Action>, t: State)
    requires PastRead(s, w) && Run(Next, s, acts, t)
    ensures PastRead(t, w)
  {
    RunKeeps(Next, (x: State) => PastRead(x, w), s, acts, t);
  }

  // What holds of every run /////////////////////////////////////////////////////////////////////////

  /** Of the waiters that registered before its write, a setter has called exactly those it no longer
      has to call: those whose name it is done with, and those it is past in the name it is at. */
  lemma CalledExactly(s: State, k: nat, w: nat)
    requires Reachable(s) && k < |s.setters| && w < |s.waiters| && WroteSince(s, k, w)
    ensures w in s.setters[k].called <==> !Pending(s, k, w)
    ensures w in s.setters[k].called ==> s.waiters[w].cell.Some?
  {
    ReachableInv(s);
    assert PairOk(s, k, w);
  }

  /** No lost wake-up: once a setter that wrote after the waiter registered has called it, a blocked
      waiter can return, with a value some setter wrote under that name. */
  lemma NoLostWakeUp(s: State, w: nat, k: nat)
    requires Reachable(s) && w < |s.waiters| && k < |s.setters|
    requires s.waiters[w].pc.Blocked? && WroteSince(s, k, w) && !Pending(s, k, w)
    ensures Enabled(s, Wake(w)) && StoredBy(s, s.waiters[w].name, s.waiters[w].cell.value)
    ensures Apply(s, Wake(w)).waiters[w].pc == Returned(ToAnswer(s.waiters[w].cell.value))
  {
    CalledExactly(s, k, w);
    ReachableInv(s);
    assert CellOk(s, w);
  }

  /** So nobody is left behind: when a positive value is stored and no setter has still to call the
      waiter, it can return, whether that value was written before or after it registered. */
  lemma NobodyLeftBehind(s: State, w: nat)
    requires Reachable(s) && w < |s.waiters| && s.waiters[w].pc.Blocked? && AsInt64(Stored(s, s.waiters[w].name)) > 0
    requires forall k :: 0 <= k < |s.setters| ==> !Pending(s, k, w)
    ensures Enabled(s, Wake(w))
  {
    ReachableInv(s);
    assert BlockedForCause(s, w);
    var k :| 0 <= k < |s.setters| && WroteSince(s, k, w);
    NoLostWakeUp(s, w, k);
  }

  /** In particular, from the read on, over every run: a waiter that blocks is released once a setter
      that wrote after the registration has called it; reading never falls into a gap between the write
      and the notification. */
  lemma ReadNeverFallsInAGap(s: State, w: nat, k: nat, acts: seq<Action>, t: State)
    requires Reachable(s) && w < |s.waiters| && s.waiters[w].pc.Registered? && Run(Next, Apply(s, Read(w)), acts, t)
    requires k < |t.setters| && w < |t.waiters| && WroteSince(t, k, w) && !Pending(t, k, w)
    ensures t.waiters[w].pc.Returned? || Enabled(t, Wake(w))
  {
    ReachableStep(s, Read(w), Apply(s, Read(w)));
    ReachableRun(Apply(s, Read(w)), acts, t);
    StaysPastRead(Apply(s, Read(w)), w, acts, t);
    if t.waiters[w].pc.Blocked? {
      NoLostWakeUp(t, w, k);
    }
  }

  predicate IsInt(v: Option<Value>, n: int) {
    v == Some(Num(n)) || v == Some(PlainInt(n))
  }

  /** What a waiter returned: the positive integer stored when it read, or the int64 that some setter wrote
      under its name, or the error for something else that some setter wrote there. */
  ghost predicate AnswerOk(s: State, w: nat)
    requires w < |s.waiters|
  {
    s.waiters[w].pc.Returned? ==>
      match s.waiters[w].pc.answer
      case Got(n) => StoredBy(s, s.waiters[w].name, Num(n)) || (n > 0 && IsInt(s.waiters[w].read, n))
      case CastError => exists v :: StoredBy(s, s.waiters[w].name, v) && !v.Num?
  }

  ghost predicate Answers(s: State) {
    forall w :: 0 <= w < |s.waiters| ==> AnswerOk(s, w)
  }

  lemma StepKeepsAnswerOk(s: State, a: Action, w: nat)
    requires Inv(s) && Answers(s) && Enabled(s, a) && w < |Apply(s, a).waiters|
    ensures AnswerOk(Apply(s, a), w)
  {
    if w < |s.waiters| {
      assert AnswerOk(s, w) && CellOk(s, w);
      var name := s.waiters[w].name;
      if a == Wake(w) {
        StoredByStays(s, a, name, s.waiters[w].cell.value);
      } else if s.waiters[w].pc.Returned? {
        match s.waiters[w].pc.answer
        case Got(n) =>
          if StoredBy(s, name, Num(n)) {
            StoredByStays(s, a, name, Num(n));
          }
        case CastError =>
          var v :| StoredBy(s, name, v) && !v.Num?;
          StoredByStays(s, a, name, v);
      }
    }
  }

  /** In every reachable state: an answer `n` is an int64 that some setter wrote under the name, or it is
      positive and was the integer stored there when the waiter read; an error means that some setter
      wrote something that is no int64. So if all setters write positive int64s, so is every answer. */
  lemma PositiveUnlessSet(s: State, w: nat)
    requires Reachable(s) && w < |s.waiters| && s.waiters[w].pc.Returned?
    ensures match s.waiters[w].pc.answer
      case Got(n) =>
        || StoredBy(s, s.waiters[w].name, Num(n))
        || (n > 0 && (s.waiters[w].read == Some(Num(n)) || s.waiters[w].read == Some(PlainInt(n))))
      case CastError => exists v :: StoredBy(s, s.waiters[w].name, v) && !v.Num?
  {
    var m, acts :| Run(Next, Init(m), acts, s);
    var keeps := (x: State) => Inv(x) && Answers(x);
    forall x, a, y | keeps(x) && Next(x, a, y) ensures keeps(y) {
      StepKeepsInv(x, a);
      forall v | 0 <= v < |y.waiters| ensures AnswerOk(y, v) {
        StepKeepsAnswerOk(x, a, v);
      }
    }
    RunKeeps(Next, keeps, Init(m), acts, s);
    assert AnswerOk(s, w);
  }

  /** And it can happen for every value, zero included: the waiter blocks, one setter writes `v`. */
  lemma AnyValueCanBeTheAnswer(name: string, v: Value) returns (s: State)
    ensures Reachable(s) && |s.waiters| == 1 && s.waiters[0].name == name && s.waiters[0].pc.Returned?
    ensures v.Num? ==> s.waiters[0].pc.answer == Got(v.n)
    ensures !v.Num? ==> s.waiters[0].pc.answer == CastError
  {
    var m := BlockedAlone(name);
    s := WokenBy(m, name, v);
  }

  lemma BlockedAlone(name: string) returns (s: State)
    ensures Reachable(s)
    ensures s == State(map[], map[name := [0]], None, [Waiter(name, Blocked, None, 0, None)], [], 0)
  {
    var s1 := Init(map[]).(waiters := [Waiter(name, Starting, None, 0, None)]);
    var s2 := s1.(waiters := [Waiter(name, Registered, None, 0, None)], notifiers := map[name := [0]]);
    s := s2.(waiters := [Waiter(name, Blocked, None, 0, None)]);
    assert [] + [0] == [0];
    var acts := TwoSteps(Next, Init(map[]), Call(name), s1, Register(0), s2);
    RunLast(Next, Init(map[]), acts, s2, Read(0), s);
  }

  lemma WokenBy(m: State, name: string, v: Value) returns (s: State)
    requires Reachable(m)
    requires m == State(map[], map[name := [0]], None, [Waiter(name, Blocked, None, 0, None)], [], 0)
    ensures Reachable(s) && |s.waiters| == 1 && s.waiters[0].name == name
    ensures s.waiters[0].pc == Returned(ToAnswer(v))
  {
    var vals := map[name := v];
    var x := Setter(vals, Preparing, 0, {});
    var s1 := m.(setters := [x]);
    assert [] + [x] == [x];
    ReachableStep(m, Set(vals), s1);
    var s2 := Apply(s1, Write(0));
    assert vals.Keys == {name};
    ReachableStep(s1, Write(0), s2);
    var s3 := Apply(s2, Snapshot(0, name));
    ReachableStep(s2, Snapshot(0, name), s3);
    var s4 := Apply(s3, Notify(0));
    ReachableStep(s3, Notify(0), s4);
    s := Apply(s4, Wake(0));
    ReachableStep(s4, Wake(0), s);
  }

  predicate Finished(x: Setter) {
    x.pc == Between({})
  }

  predicate OwnStep(a: Action, k: nat) {
    (a.Write? || a.Snapshot? || a.Notify? || a.EndCalls? || a.SendUi?) && a.k == k
  }

  /** A setter that is not finished can take its next step, unless it is at the send to the UI and that
      channel is full; exactly then it cannot. */
  lemma SetterBlocksExactly(s: State, k: nat)
    requires Reachable(s) && k < |s.setters| && !Finished(s.setters[k])
    ensures (exists a :: OwnStep(a, k) && Enabled(s, a)) <==>
      !(s.setters[k].pc.SendingUi? && s.ui == Some(UI_QUEUE))
  {
    ReachableInv(s);
    assert SetterOk(s, k);
    match s.setters[k].pc
    case Preparing => assert OwnStep(Write(k), k) && Enabled(s, Write(k));
    case Between(todo) =>
      var name :| name in todo;
      assert OwnStep(Snapshot(k, name), k) && Enabled(s, Snapshot(k, name));
    case Calling(name, left, _, _) =>
      if left == [] {
        assert OwnStep(EndCalls(k), k) && Enabled(s, EndCalls(k));
      } else {
        assert OwnStep(Notify(k), k) && Enabled(s, Notify(k));
      }
    case SendingUi(_) =>
      if UiHasRoom(s) {
        assert OwnStep(SendUi(k), k) && Enabled(s, SendUi(k));
      }
  }

  /** What a blocked setter has and has not done: of the waiters that registered before its write, it
      has called exactly those whose name it is done with. */
  lemma CalledWhenBlocked(s: State, k: nat, w: nat)
    requires Reachable(s) && k < |s.setters| && w < |s.waiters| && WroteSince(s, k, w)
    requires s.setters[k].pc.SendingUi?
    ensures w in s.setters[k].called <==> s.waiters[w].name !in s.setters[k].pc.todo
  {
    CalledExactly(s, k, w);
  }

  // A waiter kept waiting by a full UI channel //////////////////////////////////////////////////////////

  lemma {:induction false} FillUi(s: State, n: nat) returns (acts: seq<Action>)
    requires s.ui == Some(n) && n <= UI_QUEUE
    ensures Run(Next, s, acts, s.(ui := Some(UI_QUEUE)))
    decreases UI_QUEUE - n
  {
    if n == UI_QUEUE {
      acts := [];
    } else {
      var m := s.(ui := Some(n + 1));
      var more := FillUi(m, n + 1);
      acts := [ReadSends] + more;
      RunFirst(Next, s, ReadSends, m, more, s.(ui := Some(UI_QUEUE)), acts);
    }
  }

  const ID_AND_TOKEN: map<string, Value> := map["userID" := Num(7), "userToken" := NotInt64]

  // The states of a run in which one setter sets both, and takes the token first
  function KeptWaiting(k: nat): State
    requires k <= 8
  {
    var blocked := Waiter("userID", Blocked, None, 0, None);
    var x := Setter(ID_AND_TOKEN, Between({"userID", "userToken"}), 0, {});
    var s1 := Init(map[]).(waiters := [Waiter("userID", Starting, None, 0, None)]);
    var s2 := s1.(waiters := [Waiter("userID", Registered, None, 0, None)], notifiers := map["userID" := [0]]);
    var s3 := s2.(waiters := [blocked]);
    var s4 := s3.(ui := Some(0));
    var s5 := s4.(setters := [x.(pc := Preparing)]);
    var s6 := s5.(setters := [x], m := ID_AND_TOKEN, writes := 1);
    var s7 := s6.(setters := [x.(pc := Calling("userToken", [], true, {"userID"}))]);
    if k == 0 then Init(map[]) else if k == 1 then s1 else if k == 2 then s2 else if k == 3 then s3
    else if k == 4 then s4 else if k == 5 then s5 else if k == 6 then s6 else if k == 7 then s7
    else s7.(setters := [x.(pc := SendingUi({"userID"}))])
  }

  const KEPT_WAITING: seq<Action> :=
    [Call("userID"), Register(0), Read(0), StartUi, Set(ID_AND_TOKEN), Write(0), Snapshot(0, "userToken"), EndCalls(0)]

  lemma WaiterFirst(k: nat)
    requires k < 4
    ensures Next(KeptWaiting(k), KEPT_WAITING[k], KeptWaiting(k + 1))
  {
    if k == 1 {
      assert [] + [0] == [0];
    }
  }

  lemma SetterThen(k: nat)
    requires 4 <= k < 8
    ensures Next(KeptWaiting(k), KEPT_WAITING[k], KeptWaiting(k + 1))
  {
    var s, t := KeptWaiting(k), KeptWaiting(k + 1);
    if k >= 5 {
      assert s.setters[0 := t.setters[0]] == t.setters;
    }
    if k == 5 {
      assert map[] + ID_AND_TOKEN == ID_AND_TOKEN && ID_AND_TOKEN.Keys == {"userID", "userToken"};
    } else if k == 6 {
      assert "userToken" != "userID" by {
        assert |"userToken"| != |"userID"|;
      }
      assert {"userID", "userToken"} - {"userToken"} == {"userID"};
    }
  }

  lemma KeptWaitingStep(k: nat)
    requires k < 8
    ensures Next(KeptWaiting(k), KEPT_WAITING[k], KeptWaiting(k + 1))
  {
    if k < 4 { WaiterFirst(k); } else { SetterThen(k); }
  }

  lemma {:induction false} KeptWaitingFrom(k: nat)
    requires k <= 8
    ensures Run(Next, KeptWaiting(k), KEPT_WAITING[k..], KeptWaiting(8))
    decreases 8 - k
  {
    if k < 8 {
      KeptWaitingStep(k);
      KeptWaitingFrom(k + 1);
      RunFirst(Next, KeptWaiting(k), KEPT_WAITING[k], KeptWaiting(k + 1), KEPT_WAITING[k + 1..], KeptWaiting(8),
        KEPT_WAITING[k..]);
    }
  }

  /** Such a state: a positive user ID is stored, a waiter for it is blocked and was not called, and the
      setter that stored it cannot go on until the UI takes a message. */
  lemma KeptWaitingExample() returns (s: State)
    ensures Reachable(s) && |s.waiters| == 1 && |s.setters| == 1 && s.ui == Some(UI_QUEUE)
    ensures s.waiters[0].name == "userID" && s.waiters[0].pc.Blocked? && AsInt64(Stored(s, "userID")) == 7
    ensures !Enabled(s, Wake(0)) && WroteSince(s, 0, 0)
    ensures !Finished(s.setters[0]) && forall a :: OwnStep(a, 0) ==> !Enabled(s, a)
  {
    var n := KeptWaitingEnds();
    s := n.(ui := Some(UI_QUEUE));
    var more := FillUi(n, 0);
    RunThen(Next, Init(map[]), KEPT_WAITING, n, more, s);
  }

  lemma KeptWaitingEnds() returns (s: State)
    ensures Run(Next, Init(map[]), KEPT_WAITING, s) && s.ui == Some(0)
    ensures s.m == ID_AND_TOKEN && s.waiters == [Waiter("userID", Blocked, None, 0, None)]
    ensures s.setters == [Setter(ID_AND_TOKEN, SendingUi({"userID"}), 0, {})]
  {
    s := KeptWaiting(8);
    KeptWaitingFrom(0);
    assert KEPT_WAITING[0..] == KEPT_WAITING;
  }

  // The store, updated in place ///////////////////////////////////////////////////////////////////////

  /** The UI's channel after one more message, if there is a channel and the message is sent. */
  function UiAfter(ui: Option<nat>, sent: bool): Option<nat> {
    if ui.Some? && sent then Some(ui.value + 1) else ui
  }

  /** Between `s` and `t` setter `k` went on from `name`, and every listener of `name` was called. */
  ghost predicate Told(s: State, t: State, k: nat, name: string, v: Value) {
    && |t.waiters| == |s.waiters| && |t.setters| == |s.setters| && k < |s.setters|
    && t.m == s.m && t.notifiers == s.notifiers && t.writes == s.writes
    && t.setters[k].vals == s.setters[k].vals && t.setters[k].number == s.setters[k].number
    && forall w :: 0 <= w < |s.waiters| ==>
         && t.waiters[w] == s.waiters[w].(cell := t.waiters[w].cell)
         && t.waiters[w].cell == if w in NotifiersOf(s, name) then Some(v) else s.waiters[w].cell
  }

  lemma SnapshotFacts(s: State, k: nat, name: string)
    requires Reachable(s) && Enabled(s, Snapshot(k, name))
    ensures name in s.setters[k].vals
    ensures forall i :: 0 <= i < |NotifiersOf(s, name)| ==> NotifiersOf(s, name)[i] < |s.waiters|
  {
    ReachableInv(s);
    assert SetterOk(s, k);
    assert name in s.notifiers ==> ListOk(s, name, s.notifiers[name]);
  }

  /** Settings with its map, its listeners and the UI's channel, and where waiters and setters are. */
  class Store {
    var m: map<string, Value>
    var changeNotifiers: map<string, seq<nat>>
    var ui: Option<nat>
    var waiters: seq<Waiter>
    var setters: seq<Setter>
    var writes: nat           // history

    ghost function View(): State
      reads this
    {
      State(m, changeNotifiers, ui, waiters, setters, writes)
    }

    constructor (m: map<string, Value>)
      ensures View() == Init(m)
    {
      this.m := m;
      changeNotifiers, ui, waiters, setters, writes := map[], None, [], [], 0;
    }

    /** setVals: the whole map is written first; then, name by name, every listener is called before the
        UI is told. It is a run of the machine, and stops only at a full channel. */
    method SetVals(vals: map<string, Value>) returns (k: nat, stuck: bool, ghost left: set<string>)
      requires Reachable(View())
      modifies this
      ensures Leads(Next, old(View()), View())
      ensures Reachable(View()) && k == |old(setters)|
      ensures SetSoFar(old(View()), View(), k, vals, left, stuck) && (left == {} || stuck)
      ensures UiCounted(old(ui), ui, vals.Keys, left, stuck)
    {
      ghost var s := View();
      ghost var acts;
      k, acts := WriteAll(vals);
      var todo := vals.Keys;
      stuck := false;
      while todo != {} && !stuck
        invariant Run(Next, s, acts, View()) && Reachable(View())
        invariant todo <= vals.Keys && SetSoFar(s, View(), k, vals, todo, stuck)
        invariant UiCounted(s.ui, ui, vals.Keys, todo, stuck)
        decreases todo
      {
        var name :| name in todo;
        ghost var before := View();
        ghost var steps;
        stuck, steps := OnChange(k, name);
        RunThen(Next, s, acts, before, steps, View());
        SetOneMore(s, before, View(), k, vals, todo, name, stuck);
        UiCountedOneMore(s.ui, before.ui, vals.Keys, todo, name, stuck);
        acts := acts + steps;
        todo := todo - {name};
      }
      left := todo;
    }

    method WriteAll(vals: map<string, Value>) returns (k: nat, ghost acts: seq<Action>)
      requires Reachable(View())
      modifies this`m, this`setters, this`writes
      ensures Run(Next, old(View()), acts, View()) && Reachable(View())
      ensures k == |old(setters)| && SetSoFar(old(View()), View(), k, vals, vals.Keys, false)
    {
      ghost var s := View();
      k := StartSetter(vals);
      ghost var started := View();
      ReachableStep(s, Set(vals), started);
      WriteMap(k);
      ReachableStep(started, Write(k), View());
      acts := TwoSteps(Next, s, Set(vals), started, Write(k), View());
    }

    method StartSetter(vals: map<string, Value>) returns (k: nat)
      modifies this`setters
      ensures View() == Apply(old(View()), Set(vals)) && k == |old(setters)|
    {
      k := |setters|;
      setters := setters + [Setter(vals, Preparing, 0, {})];
    }

    // the map is written, one name after the other, under the lock
    method WriteMap(k: nat)
      requires Enabled(View(), Write(k))
      modifies this`m, this`setters, this`writes
      ensures View() == Apply(old(View()), Write(k))
    {
      var vals := setters[k].vals;
      ghost var was := m;
      var left := vals.Keys;
      while left != {}
        invariant left <= vals.Keys
        invariant m == was + (map n | n in vals && n !in left :: vals[n])
        invariant setters == old(setters) && writes == old(writes)
        decreases left
      {
        var name :| name in left;
        m := m[name := vals[name]];
        left := left - {name};
      }
      assert (map n | n in vals && n !in left :: vals[n]) == vals;
      setters := setters[k := setters[k].(pc := Between(vals.Keys), number := writes)];
      writes := writes + 1;
    }

    /** onChange: every listener of `name` is called with its value, then the UI is told if there is
        room; nobody else is touched. */
    method OnChange(k: nat, name: string) returns (stuck: bool, ghost acts: seq<Action>)
      requires Reachable(View()) && Enabled(View(), Snapshot(k, name))
      modifies this`ui, this`waiters, this`setters
      ensures Run(Next, old(View()), acts, View()) && Reachable(View())
      ensures name in old(setters)[k].vals && Told(old(View()), View(), k, name, old(setters)[k].vals[name])
      ensures ui == UiAfter(old(ui), !stuck)
      ensures var todo := old(setters)[k].pc.todo - {name};
        if stuck then setters[k].pc == SendingUi(todo) && ui == Some(UI_QUEUE) else setters[k].pc == Between(todo)
    {
      ghost var s := View();
      SnapshotFacts(s, k, name);
      acts := CallListeners(k, name);
      ghost var called := View();
      ghost var rest;
      stuck, rest := FinishName(k);
      RunThen(Next, s, acts, called, rest, View());
      ToldEnd(s, called, View(), k, name, s.setters[k].vals[name]);
      acts := acts + rest;
    }

    // what follows the calls: the UI is told if there is one and it has room
    method FinishName(k: nat) returns (stuck: bool, ghost acts: seq<Action>)
      requires Reachable(View()) && Enabled(View(), EndCalls(k))
      modifies this`ui, this`setters
      ensures Run(Next, old(View()), acts, View()) && Reachable(View())
      ensures k < |setters| == |old(setters)|
      ensures setters[k] == old(setters)[k].(pc := setters[k].pc)
      ensures ui == UiAfter(old(ui), old(setters)[k].pc.toUi && !stuck)
      ensures var todo := old(setters)[k].pc.todo;
        if stuck then setters[k].pc == SendingUi(todo) && ui == Some(UI_QUEUE) else setters[k].pc == Between(todo)
    {
      ghost var s := View();
      EndListeners(k);
      ghost var ended := View();
      ReachableStep(s, EndCalls(k), ended);
      RunFirst(Next, s, EndCalls(k), ended, [], ended, [EndCalls(k)]);
      acts := [EndCalls(k)];
      UiBounded(ended);
      stuck := setters[k].pc.SendingUi? && ui == Some(UI_QUEUE);
      if setters[k].pc.SendingUi? && !stuck {
        TellUi(k);
        ReachableStep(ended, SendUi(k), View());
        RunLast(Next, s, acts, ended, SendUi(k), View());
        acts := acts + [SendUi(k)];
      }
    }

    // the listeners are copied, under their lock, and called one after the other
    method CallListeners(k: nat, name: string) returns (ghost acts: seq<Action>)
      requires Reachable(View()) && Enabled(View(), Snapshot(k, name)) && name in setters[k].vals
      requires forall i :: 0 <= i < |NotifiersOf(View(), name)| ==> NotifiersOf(View(), name)[i] < |waiters|
      modifies this`waiters, this`setters
      ensures Run(Next, old(View()), acts, View()) && Reachable(View())
      ensures var list := NotifiersOf(old(View()), name);
        ToldPart(old(View()), View(), k, name, old(setters)[k].vals[name], list, |list|)
    {
      ghost var s := View();
      var value := setters[k].vals[name];
      var notifiers := CopyListeners(k, name);
      RunFirst(Next, s, Snapshot(k, name), View(), [], View(), [Snapshot(k, name)]);
      ReachableStep(s, Snapshot(k, name), View());
      acts := [Snapshot(k, name)];
      ToldBegin(s, k, name, value);
      for i := 0 to |notifiers|
        invariant Run(Next, s, acts, View()) && Reachable(View())
        invariant ToldPart(s, View(), k, name, value, notifiers, i)
      {
        ghost var before := View();
        CallOne(k, notifiers[i], value);
        ReachableStep(before, Notify(k), View());
        RunLast(Next, s, acts, before, Notify(k), View());
        acts := acts + [Notify(k)];
        ToldNext(s, before, View(), k, name, value, notifiers, i);
      }
    }

    method CopyListeners(k: nat, name: string) returns (notifiers: seq<nat>)
      requires Enabled(View(), Snapshot(k, name))
      modifies this`setters
      ensures View() == Apply(old(View()), Snapshot(k, name)) && notifiers == NotifiersOf(View(), name)
    {
      notifiers := if name in changeNotifiers then changeNotifiers[name] else [];
      setters := setters[k := setters[k].(pc := Calling(name, notifiers, ui.Some?, setters[k].pc.todo - {name}))];
    }

    method CallOne(k: nat, w: nat, value: Value)
      requires Enabled(View(), Notify(k)) && setters[k].pc.left[0] == w
      requires setters[k].vals[setters[k].pc.name] == value
      modifies this`waiters, this`setters
      ensures View() == Apply(old(View()), Notify(k))
    {
      waiters := waiters[w := waiters[w].(cell := Some(value))];
      var x := setters[k];
      setters := setters[k := x.(pc := x.pc.(left := x.pc.left[1..]), called := x.called + {w})];
    }

    method EndListeners(k: nat)
      requires Enabled(View(), EndCalls(k))
      modifies this`setters
      ensures View() == Apply(old(View()), EndCalls(k))
    {
      var pc := setters[k].pc;
      setters := setters[k := setters[k].(pc := if pc.toUi then SendingUi(pc.todo) else Between(pc.todo))];
    }

    method TellUi(k: nat)
      requires Enabled(View(), SendUi(k))
      modifies this`setters, this`ui
      ensures View() == Apply(old(View()), SendUi(k))
    {
      ui := Some(ui.value + 1);
      setters := setters[k := setters[k].(pc := Between(setters[k].pc.todo))];
    }

    /** GetInt64Eventually, with one setVals that comes in after the read. A positive value is returned at
        once; otherwise the caller waits, and it returns with the value set exactly when the setter got
        past its name, which only a full channel to the UI can prevent. */
    method GetInt64Eventually(name: string, vals: map<string, Value>)
      returns (answer: Option<Answer>, ghost left: set<string>)
      requires Reachable(View()) && name in vals
      modifies this
      ensures Leads(Next, old(View()), View())
      ensures var was := Stored(old(View()), name);
        if was.Some? && !was.value.NotInt64? && was.value.n > 0 then answer == Some(Got(was.value.n)) && m == old(m)
        else
          && m == old(m) + vals && (left == {} || ui == Some(UI_QUEUE))
          && (name in left ==> answer == None)
          && (name !in left && vals[name].Num? ==> answer == Some(Got(vals[name].n)))
          && (name !in left && !vals[name].Num? ==> answer == Some(CastError))
    {
      ghost var s := View();
      var w, now;
      ghost var acts;
      w, now, acts := RegisterAndRead(name);
      left := {};
      if now > 0 {
        return Some(Got(now)), {};
      }
      ghost var blocked := View();
      var _, _, rest := SetVals(vals);
      left := rest;
      ghost var told := View();
      LeadsThen(Next, s, blocked, told);
      if name in left {
        StillUntold(blocked, w, name, vals, left);
      }
      if waiters[w].cell.None? {
        return None, left;
      }
      var woken := AwaitValue(w);
      answer := Some(woken);
      LeadsStep(Next, s, told, Wake(w), View());
    }

    // the blocked waiter gets its value
    method AwaitValue(w: nat) returns (answer: Answer)
      requires Enabled(View(), Wake(w))
      modifies this`waiters
      ensures View() == Apply(old(View()), Wake(w)) && answer == ToAnswer(old(waiters)[w].cell.value)
    {
      var eid := waiters[w].cell.value;
      answer := if eid.Num? then Got(eid.n) else CastError;
      waiters := waiters[w := waiters[w].(pc := Returned(answer))];
    }

    // the waiter registers its callback, reads, and goes on to block if what it read is not positive
    method RegisterAndRead(name: string) returns (w: nat, val: int, ghost acts: seq<Action>)
      requires Reachable(View())
      modifies this`waiters, this`changeNotifiers
      ensures Run(Next, old(View()), acts, View()) && Reachable(View())
      ensures val == AsInt64(Stored(old(View()), name))
      ensures w == |old(waiters)| && w < |waiters| && w in NotifiersOf(View(), name)
      ensures var pc := if val > 0 then Returned(Got(val)) else Blocked;
        waiters[w] == Waiter(name, pc, None, writes, Stored(old(View()), name))
    {
      ghost var s := View();
      w := |waiters|;
      waiters := waiters + [Waiter(name, Starting, None, 0, None)];
      ghost var called := View();
      ReachableStep(s, Call(name), called);
      OnChangeRegister(w);
      ghost var registered := View();
      ReachableStep(called, Register(w), registered);
      acts := TwoSteps(Next, s, Call(name), called, Register(w), registered);
      val := GetInt64(name);
      waiters := waiters[w := waiters[w].(pc := if val > 0 then Returned(Got(val)) else Blocked,
                                          read := if name in m then Some(m[name]) else None)];
      ReachableStep(registered, Read(w), View());
      RunLast(Next, s, acts, registered, Read(w), View());
      acts := acts + [Read(w)];
      assert changeNotifiers[name][|changeNotifiers[name]| - 1] == w;
    }

    method OnChangeRegister(w: nat)
      requires Enabled(View(), Register(w))
      modifies this`waiters, this`changeNotifiers
      ensures View() == Apply(old(View()), Register(w))
    {
      var name := waiters[w].name;
      var list := if name in changeNotifiers then changeNotifiers[name] else [];
      changeNotifiers := changeNotifiers[name := list + [w]];
      waiters := waiters[w := waiters[w].(pc := Registered, since := writes)];
    }

    method GetInt64(name: string) returns (val: int)
      ensures val == AsInt64(Stored(View(), name))
    {
      val := 0;
      if name in m && !m[name].NotInt64? {
        val := m[name].n;
      }
    }
  }

  lemma UiBounded(s: State)
    requires Reachable(s)
    ensures s.ui.Some? ==> s.ui.value <= UI_QUEUE
    ensures forall k :: 0 <= k < |s.setters| && s.setters[k].pc.SendingUi? ==> s.ui.Some?
  {
    ReachableInv(s);
    forall k | 0 <= k < |s.setters| && s.setters[k].pc.SendingUi? ensures s.ui.Some? {
      assert SetterOk(s, k);
    }
  }

  /** While the first `i` of the copied listeners have been called. */
  ghost predicate ToldPart(s: State, t: State, k: nat, name: string, v: Value, list: seq<nat>, i: nat) {
    && i <= |list| && |t.waiters| == |s.waiters| && |t.setters| == |s.setters| && k < |s.setters| &&
      s.setters[k].pc.Between?
    && t.m == s.m && t.notifiers == s.notifiers && t.writes == s.writes && t.ui == s.ui
    && t.setters[k].vals == s.setters[k].vals && t.setters[k].number == s.setters[k].number
    && t.setters[k].pc == Calling(name, list[i..], s.ui.Some?, s.setters[k].pc.todo - {name})
    && forall w :: 0 <= w < |s.waiters| ==>
         && t.waiters[w] == s.waiters[w].(cell := t.waiters[w].cell)
         && t.waiters[w].cell == if w in list[..i] then Some(v) else s.waiters[w].cell
  }

  lemma ToldEnd(s: State, m: State, t: State, k: nat, name: string, v: Value)
    requires var list := NotifiersOf(s, name); ToldPart(s, m, k, name, v, list, |list|)
    requires t.waiters == m.waiters && t.m == m.m && t.notifiers == m.notifiers && t.writes == m.writes
    requires |t.setters| == |m.setters| && t.setters[k] == m.setters[k].(pc := t.setters[k].pc)
    ensures Told(s, t, k, name, v)
  {
    var list := NotifiersOf(s, name);
    assert list[..|list|] == list;
  }

  lemma ToldBegin(s: State, k: nat, name: string, v: Value)
    requires Enabled(s, Snapshot(k, name))
    ensures ToldPart(s, Apply(s, Snapshot(k, name)), k, name, v, NotifiersOf(s, name), 0)
  {
    var list := NotifiersOf(s, name);
    assert list[0..] == list;
  }

  lemma ToldNext(s: State, m: State, t: State, k: nat, name: string, v: Value, list: seq<nat>, i: nat)
    requires i < |list| && ToldPart(s, m, k, name, v, list, i)
    requires Enabled(m, Notify(k)) && t == Apply(m, Notify(k)) && m.setters[k].vals[name] == v
    ensures ToldPart(s, t, k, name, v, list, i + 1)
  {
    assert list[..i + 1] == list[..i] + [list[i]] && list[i..][0] == list[i] && list[i..][1..] == list[i + 1..];
  }

  /** Every listener of a name that is not left has its value, and nobody else has a new one. */
  ghost predicate ToldSoFar(s: State, t: State, vals: map<string, Value>, left: set<string>) {
    && |t.waiters| == |s.waiters|
    && (forall w :: 0 <= w < |s.waiters| ==> t.waiters[w] == s.waiters[w].(cell := t.waiters[w].cell))
    && (forall name, w :: name in vals && name !in left && w in NotifiersOf(s, name) ==>
          w < |s.waiters| && t.waiters[w] == s.waiters[w].(cell := Some(vals[name])))
    && (forall w :: 0 <= w < |s.waiters| && Untold(s, w, vals, left) ==> t.waiters[w] == s.waiters[w])
  }

  ghost predicate Untold(s: State, w: nat, vals: map<string, Value>, left: set<string>) {
    forall name :: name in vals && name !in left ==> w !in NotifiersOf(s, name)
  }

  lemma StillUntold(s: State, w: nat, name: string, vals: map<string, Value>, left: set<string>)
    requires Reachable(s) && w in NotifiersOf(s, name) && name in left
    ensures Untold(s, w, vals, left)
  {
    ReachableInv(s);
    ListedUnder(s, name, w);
    forall n | n in vals && n !in left ensures w !in NotifiersOf(s, n) {
      if w in NotifiersOf(s, n) {
        ListedUnder(s, n, w);
      }
    }
  }

  lemma ListedUnder(s: State, n: string, w: nat)
    requires Shape(s) && w in NotifiersOf(s, n)
    ensures w < |s.waiters| && s.waiters[w].name == n
  {
    assert ListOk(s, n, s.notifiers[n]);
  }

  /** Between `s` and `t` setter `k` wrote all of `vals`, and called every listener of every name that is
      not `left`; it is stuck at the UI's full channel, or about to go on. */
  ghost predicate SetSoFar(s: State, t: State, k: nat, vals: map<string, Value>, left: set<string>, stuck: bool) {
    && k < |t.setters| && t.m == s.m + vals && t.notifiers == s.notifiers
    && t.setters[k].vals == vals && t.setters[k].number == s.writes
    && (if stuck then t.setters[k].pc == SendingUi(left) && t.ui == Some(UI_QUEUE)
        else t.setters[k].pc == Between(left))
    && ToldSoFar(s, t, vals, left)
  }

  /** And the UI was sent one message for each name that was dealt with and did not get stuck. */
  predicate UiCounted(before: Option<nat>, after: Option<nat>, names: set<string>, left: set<string>, stuck: bool) {
    && |left| + (if stuck then 1 else 0) <= |names|
    && after == if before.None? then None else Some(before.value + |names| - |left| - if stuck then 1 else 0)
  }

  lemma UiCountedOneMore(
    before: Option<nat>, m: Option<nat>, names: set<string>, left: set<string>, name: string, stuck: bool)
    requires UiCounted(before, m, names, left, false) && name in left
    ensures UiCounted(before, UiAfter(m, !stuck), names, left - {name}, stuck)
  {
    assert left == (left - {name}) + {name};
  }

  lemma SetOneMore(s: State, m: State, t: State, k: nat, vals: map<string, Value>, left: set<string>, name: string,
    stuck: bool)
    requires Reachable(s) && SetSoFar(s, m, k, vals, left, false) && name in left && name in vals
    requires Told(m, t, k, name, vals[name])
    requires if stuck then t.setters[k].pc == SendingUi(left - {name}) && t.ui == Some(UI_QUEUE)
      else t.setters[k].pc == Between(left - {name})
    ensures SetSoFar(s, t, k, vals, left - {name}, stuck)
  {
    ToldOneMore(s, m, t, k, vals, left, name);
  }

  lemma ToldOneMore(s: State, m: State, t: State, k: nat, vals: map<string, Value>, left: set<string>, name: string)
    requires Reachable(s) && ToldSoFar(s, m, vals, left) && name in left && name in vals
    requires m.notifiers == s.notifiers && Told(m, t, k, name, vals[name])
    ensures ToldSoFar(s, t, vals, left - {name})
  {
    ReachableInv(s);
    forall n, w | n in vals && n !in left - {name} && w in NotifiersOf(s, n)
      ensures w < |s.waiters| && t.waiters[w] == s.waiters[w].(cell := Some(vals[n]))
    {
      ListedUnder(s, n, w);
      if w in NotifiersOf(s, name) {
        ListedUnder(s, name, w);
      }
    }
    forall w | 0 <= w < |s.waiters| && Untold(s, w, vals, left - {name}) ensures t.waiters[w] == s.waiters[w] {
      assert Untold(s, w, vals, left);
      assert w !in NotifiersOf(s, name);
    }
  }
}
