/** The desktop websocket hub (desktop/ws): services feed one unbuffered channel, one
    broadcaster goroutine fans every message out to all connected clients and removes dead ones.

    A state holds what the goroutines share plus the program counter of each goroutine; an action
    is one step between two blocking points. Fields marked `history` only record what happened. */
module Hub {
  import opened Common

  const CLIENT_QUEUE: nat := 1000
  const REMOVAL_QUEUE: nat := 100
  const SERVICE_QUEUE: nat := 1000

  // A value put in a service's Out either marshals to JSON or it does not.
  datatype Payload = Encodable(body: string) | Unencodable

  // Which put of which service an envelope carries; Direct for SendMessage and hello messages.
  datatype Origin = FromQueue(svc: nat, index: nat) | Direct

  datatype Frame = Frame(origin: Origin, kind: string, body: string)

  // conn.out: a buffered channel that is eventually closed
  datatype Chan = Chan(queue: seq<Frame>, open: bool)

  // history: a frame the broadcaster tried to send to a client, and how many frames were queued then
  datatype Offer = Offer(frame: Frame, held: nat)

  datatype Writer = NotStarted | Selecting | Writing(frame: Frame) | Reporting | Gone

  datatype Conn = Conn(
    id: nat,
    out: Chan,
    connectOut: seq<Frame>,
    writer: Writer,
    taken: seq<Frame>,    // history: frames the writer took from out
    joinAt: nat,          // history: length of the broadcast log when the client joined
    offers: seq<Offer>)   // history

  datatype Loop = Waiting | Offering(frame: Frame) | Stopped

  datatype Service = Service(
    name: string,
    queue: seq<Payload>,
    stops: nat,           // values in stopCh, which has room for one
    loop: Loop,
    puts: seq<Payload>,   // history: everything put in Out
    consumed: nat)        // history: how many of the puts the service loop took

  datatype Broadcaster =
    | Idle
    | Got(frame: Frame)
    | Cloning(frame: Frame)
    | Sending(frame: Frame, left: set<nat>)
    | GotRemoval(conn: nat)
    | Removing(conn: nat)
    | GotClose
    | Closing
    | Done

  datatype Lock = Free | ByBroadcaster | ByJoiner

  datatype State = State(
    nextId: nat,
    conns: map<nat, nat>,          // id to object
    heap: seq<Conn>,               // every wsconn ever allocated
    muConns: Lock,
    bc: Broadcaster,
    connsToRemove: seq<nat>,
    outClosed: bool,
    svcs: seq<Service>,            // every Service ever allocated
    services: map<string, nat>,    // type to object
    direct: seq<Frame>,            // goroutines blocked sending straight to the hub
    log: seq<Frame>,               // history: what the broadcaster fanned out
    panicked: bool)                // a send on, or a close of, a closed conn.out

  function Init(): State {
    State(0, map[], [], Free, Idle, [], false, [], map[], [], [], false)
  }

  datatype Action =
    // an HTTP handler goroutine
    | JoinLock | Join | StartWriter(o: nat)
    // goroutines saying hello, and the writer goroutine of a client
    | SayHello(o: nat, hello: Frame) | TakeHello(o: nat) | TakeOut(o: nat) | SeeClosed(o: nat)
    | WriteOk(o: nat) | WriteFail(o: nat) | Report(o: nat)
    // services
    | Register(name: string) | Unregister(name: string) | Put(v: nat, payload: Payload)
    | ServiceTake(v: nat) | ServiceStop(v: nat) | OfferDirect(frame: Frame)
    // the broadcaster
    | RecvService(v: nat) | RecvDirect(k: nat) | LockClone | Clone | Send(o: nat) | SendsDone
    | RecvRemoval | LockRemove | Remove | RecvClosed | LockClose | CloseAll
    // not done anywhere in the repository; the code is written for it
    | CloseOut

  /** The steps of the one goroutine that runs clientChannels.writeAll. */
  predicate ByBroadcasterLoop(a: Action) {
    a.RecvService? || a.RecvDirect? || a.LockClone? || a.Clone? || a.Send? || a.SendsDone? ||
    a.RecvRemoval? || a.LockRemove? || a.Remove? || a.RecvClosed? || a.LockClose? || a.CloseAll?
  }

  predicate Enabled(s: State, a: Action) {
    !s.panicked &&
    match a
    case JoinLock => s.muConns.Free?
    case Join => s.muConns.ByJoiner?
    case StartWriter(o) => o < |s.heap| && s.heap[o].writer.NotStarted?
    case SayHello(o, f) => o < |s.heap| && |s.heap[o].connectOut| < CLIENT_QUEUE && f.origin.Direct?
    case TakeHello(o) => o < |s.heap| && s.heap[o].writer.Selecting? && s.heap[o].connectOut != []
    case TakeOut(o) => o < |s.heap| && s.heap[o].writer.Selecting? && s.heap[o].out.queue != []
    case SeeClosed(o) =>
      o < |s.heap| && s.heap[o].writer.Selecting? && s.heap[o].out.queue == [] && !s.heap[o].out.open
    case WriteOk(o) => o < |s.heap| && s.heap[o].writer.Writing?
    case WriteFail(o) => o < |s.heap| && s.heap[o].writer.Writing?
    case Report(o) => o < |s.heap| && s.heap[o].writer.Reporting? && |s.connsToRemove| < REMOVAL_QUEUE
    case Register(n) => n !in s.services
    case Unregister(n) =>
      n in s.services ==> s.services[n] < |s.svcs| && s.svcs[s.services[n]].stops < 1
    case Put(v, p) => v < |s.svcs| && |s.svcs[v].queue| < SERVICE_QUEUE
    case ServiceTake(v) => v < |s.svcs| && s.svcs[v].loop.Waiting? && s.svcs[v].queue != []
    case ServiceStop(v) => v < |s.svcs| && s.svcs[v].loop.Waiting? && s.svcs[v].stops > 0
    case OfferDirect(f) => f.origin.Direct?
    case RecvService(v) => s.bc.Idle? && !s.outClosed && v < |s.svcs| && s.svcs[v].loop.Offering?
    case RecvDirect(k) => s.bc.Idle? && !s.outClosed && k < |s.direct|
    case LockClone => s.bc.Got? && s.muConns.Free?
    case Clone => s.bc.Cloning?
    case Send(o) => s.bc.Sending? && o in s.bc.left && o < |s.heap|
    case SendsDone => s.bc.Sending? && s.bc.left == {}
    case RecvRemoval => s.bc.Idle? && s.connsToRemove != []
    case LockRemove => s.bc.GotRemoval? && s.muConns.Free?
    case Remove => s.bc.Removing? && s.bc.conn < |s.heap|
    case RecvClosed => s.bc.Idle? && s.outClosed
    case LockClose => s.bc.GotClose? && s.muConns.Free?
    case CloseAll => s.bc.Closing?
    case CloseOut => !s.outClosed
  }

  // What each select in the source does to one channel. ///////////////////////////////////////

  /** The non-blocking send: queue if there is room, otherwise drop. */
  function TrySend(ch: Chan, f: Frame): Chan {
    if |ch.queue| < CLIENT_QUEUE then ch.(queue := ch.queue + [f]) else ch
  }

  function Offered(c: Conn, f: Frame): Conn {
    c.(out := TrySend(c.out, f), offers := c.offers + [Offer(f, |c.out.queue|)])
  }

  /** wsconn.write takes a hello, or a broadcast, and is about to write it to the websocket. */
  function TookHello(c: Conn): Conn
    requires c.connectOut != []
  {
    c.(connectOut := c.connectOut[1..], writer := Writing(c.connectOut[0]))
  }

  function TookOut(c: Conn): Conn
    requires c.out.queue != []
  {
    c.(out := c.out.(queue := c.out.queue[1..]),
       taken := c.taken + [c.out.queue[0]],
       writer := Writing(c.out.queue[0]))
  }

  /** Service.writeAll takes the next value and marshals it. */
  function TookNext(x: Service, v: nat): Service
    requires x.queue != []
  {
    x.(queue := x.queue[1..], consumed := x.consumed + 1, loop := Envelope(x.name, v, x.consumed, x.queue[0]))
  }

  function Closed(c: Conn): Conn {
    c.(out := c.out.(open := false))
  }

  function NewConn(id: nat, joinAt: nat): Conn {
    Conn(id, Chan([], true), [], NotStarted, [], joinAt, [])
  }

  /** What the service loop holds after it took `p` as the put numbered `index`. */
  function Envelope(name: string, v: nat, index: nat, p: Payload): Loop {
    match p
    case Encodable(body) => Offering(Frame(FromQueue(v, index), name, body))
    case Unencodable => Waiting
  }

  function WithConn(s: State, o: nat, c: Conn): State
    requires o < |s.heap|
  {
    s.(heap := s.heap[o := c])
  }

  function WithService(s: State, v: nat, x: Service): State
    requires v < |s.svcs|
  {
    s.(svcs := s.svcs[v := x])
  }

  /** The set of objects a clone of conns ranges over. */
  function Clients(conns: map<nat, nat>): set<nat> {
    set i | i in conns :: conns[i]
  }

  function RemoveOne(s: State, o: nat): State
    requires o < |s.heap|
  {
    var id := s.heap[o].id;
    if id !in s.conns then s
    else
      var found := s.conns[id];
      if found >= |s.heap| || !s.heap[found].out.open then s.(panicked := true)
      else s.(heap := s.heap[found := Closed(s.heap[found])], conns := s.conns - {id})
  }

  function RemoveAll(s: State): State {
    if exists i :: i in s.conns && (s.conns[i] >= |s.heap| || !s.heap[s.conns[i]].out.open)
    then s.(panicked := true)
    else
      s.(conns := map[],
         heap := seq(|s.heap|, o requires 0 <= o < |s.heap| =>
           if o in Clients(s.conns) then Closed(s.heap[o]) else s.heap[o]))
  }

  function Apply(s: State, a: Action): State
    requires Enabled(s, a)
  {
    match a
    case JoinLock => s.(muConns := ByJoiner)
    case Join =>
      var id := s.nextId + 1;
      s.(nextId := id, heap := s.heap + [NewConn(id, |s.log|)], conns := s.conns[id := |s.heap|], muConns := Free)
    case StartWriter(o) => WithConn(s, o, s.heap[o].(writer := Selecting))
    case SayHello(o, f) => WithConn(s, o, s.heap[o].(connectOut := s.heap[o].connectOut + [f]))
    case TakeHello(o) => WithConn(s, o, TookHello(s.heap[o]))
    case TakeOut(o) => WithConn(s, o, TookOut(s.heap[o]))
    case SeeClosed(o) => WithConn(s, o, s.heap[o].(writer := Gone))
    case WriteOk(o) => WithConn(s, o, s.heap[o].(writer := Selecting))
    case WriteFail(o) => WithConn(s, o, s.heap[o].(writer := Reporting))
    case Report(o) =>
      WithConn(s, o, s.heap[o].(writer := Gone)).(connsToRemove := s.connsToRemove + [o])
    case Register(n) =>
      s.(svcs := s.svcs + [Service(n, [], 0, Waiting, [], 0)], services := s.services[n := |s.svcs|])
    case Unregister(n) =>
      if n !in s.services then s
      else
        var v := s.services[n];
        WithService(s, v, s.svcs[v].(stops := s.svcs[v].stops + 1)).(services := s.services - {n})
    case Put(v, p) =>
      WithService(s, v, s.svcs[v].(queue := s.svcs[v].queue + [p], puts := s.svcs[v].puts + [p]))
    case ServiceTake(v) => WithService(s, v, TookNext(s.svcs[v], v))
    case ServiceStop(v) =>
      WithService(s, v, s.svcs[v].(stops := s.svcs[v].stops - 1, loop := Stopped))
    case OfferDirect(f) => s.(direct := s.direct + [f])
    case RecvService(v) =>
      WithService(s, v, s.svcs[v].(loop := Waiting)).(bc := Got(s.svcs[v].loop.frame))
    case RecvDirect(k) => s.(bc := Got(s.direct[k]), direct := s.direct[..k] + s.direct[k + 1..])
    case LockClone => s.(bc := Cloning(s.bc.frame), muConns := ByBroadcaster)
    case Clone =>
      s.(bc := Sending(s.bc.frame, Clients(s.conns)), muConns := Free, log := s.log + [s.bc.frame])
    case Send(o) =>
      if !s.heap[o].out.open then s.(panicked := true)
      else WithConn(s, o, Offered(s.heap[o], s.bc.frame)).(bc := Sending(s.bc.frame, s.bc.left - {o}))
    case SendsDone => s.(bc := Idle)
    case RecvRemoval => s.(bc := GotRemoval(s.connsToRemove[0]), connsToRemove := s.connsToRemove[1..])
    case LockRemove => s.(bc := Removing(s.bc.conn), muConns := ByBroadcaster)
    case Remove => RemoveOne(s, s.bc.conn).(bc := Idle, muConns := Free)
    case RecvClosed => s.(bc := GotClose)
    case LockClose => s.(bc := Closing, muConns := ByBroadcaster)
    case CloseAll => RemoveAll(s).(bc := Done, muConns := Free)
    case CloseOut => s.(outClosed := true)
  }

  ghost predicate Next(s: State, a: Action, t: State) {
    Enabled(s, a) && t == Apply(s, a)
  }

  ghost predicate Reachable(s: State) {
    exists acts :: Run(Next, Init(), acts, s)
  }

  // Who owns conn.out ///////////////////////////////////////////////////////////////////////

  predicate Registered(s: State, o: nat)
    requires o < |s.heap|
  {
    s.heap[o].id in s.conns && s.conns[s.heap[o].id] == o
  }

  ghost predicate Ownership(s: State) {
    && !s.panicked
    && s.nextId == |s.heap|
    && (s.muConns.ByBroadcaster? <==> s.bc.Cloning? || s.bc.Removing? || s.bc.Closing?)
    && (forall o :: 0 <= o < |s.heap| ==> s.heap[o].id == o + 1)
    && (forall i :: i in s.conns ==> s.conns[i] < |s.heap| && s.heap[s.conns[i]].id == i)
    && (forall o :: 0 <= o < |s.heap| ==> (s.heap[o].out.open <==> Registered(s, o)))
    && (s.bc.Sending? ==> forall o :: o in s.bc.left ==> o < |s.heap| && s.heap[o].out.open)
    && (s.bc.GotRemoval? || s.bc.Removing? ==> s.bc.conn < |s.heap|)
    && (forall k :: 0 <= k < |s.connsToRemove| ==> s.connsToRemove[k] < |s.heap|)
  }

  /** Steps that neither open nor close a channel nor move the broadcaster. */
  predicate Quiet(a: Action) {
    a.StartWriter? || a.SayHello? || a.TakeHello? || a.TakeOut? || a.SeeClosed? || a.WriteOk? ||
    a.WriteFail? || a.Report?
  }

  lemma QuietKeepsOwnership(s: State, a: Action)
    requires Ownership(s) && Enabled(s, a) && Quiet(a)
    ensures Ownership(Apply(s, a))
  {
    var t := Apply(s, a);
    assert t.conns == s.conns && t.bc == s.bc && t.muConns == s.muConns && |t.heap| == |s.heap|;
    assert forall o :: 0 <= o < |s.heap| ==>
      t.heap[o].id == s.heap[o].id && t.heap[o].out.open == s.heap[o].out.open;
    assert forall o :: 0 <= o < |s.heap| ==> Registered(t, o) == Registered(s, o);
  }

  lemma ServicesKeepOwnership(s: State, a: Action)
    requires Ownership(s) && Enabled(s, a)
    requires a.Register? || a.Unregister? || a.Put? || a.ServiceTake? || a.ServiceStop? || a.OfferDirect? ||
             a.RecvService? || a.RecvDirect? || a.CloseOut?
    ensures Ownership(Apply(s, a))
  {
    var t := Apply(s, a);
    assert t.conns == s.conns && t.heap == s.heap && t.muConns == s.muConns;
    assert forall o :: 0 <= o < |s.heap| ==> Registered(t, o) == Registered(s, o);
  }

  lemma JoinKeepsOwnership(s: State)
    requires Ownership(s) && Enabled(s, Join)
    ensures Ownership(Apply(s, Join))
  {
    var t := Apply(s, Join);
    assert forall o :: 0 <= o < |s.heap| ==> Registered(t, o) == Registered(s, o);
  }

  lemma RemoveKeepsOwnership(s: State)
    requires Ownership(s) && Enabled(s, Remove)
    ensures Ownership(Apply(s, Remove))
  {
    var t := Apply(s, Remove);
    var o := s.bc.conn;
    assert s.heap[o].id in s.conns ==> s.conns[s.heap[o].id] == o && s.heap[o].out.open;
    assert forall k :: 0 <= k < |s.heap| && k != o ==> Registered(t, k) == Registered(s, k);
  }

  lemma CloseAllKeepsOwnership(s: State)
    requires Ownership(s) && Enabled(s, CloseAll)
    ensures Ownership(Apply(s, CloseAll))
  {
    var t := Apply(s, CloseAll);
    forall o | 0 <= o < |t.heap| ensures !t.heap[o].out.open {
      assert s.heap[o].out.open ==> s.conns[s.heap[o].id] in Clients(s.conns);
    }
  }

  lemma BroadcasterKeepsOwnership(s: State, a: Action)
    requires Ownership(s) && Enabled(s, a) && ByBroadcasterLoop(a) && !a.Remove? && !a.CloseAll?
    ensures Ownership(Apply(s, a))
  {
    var t := Apply(s, a);
    assert |t.heap| == |s.heap| && t.conns == s.conns;
    assert forall o :: 0 <= o < |s.heap| ==>
      t.heap[o].id == s.heap[o].id && t.heap[o].out.open == s.heap[o].out.open;
    assert forall o :: 0 <= o < |s.heap| ==> Registered(t, o) == Registered(s, o);
  }

  lemma StepKeepsOwnership(s: State, a: Action)
    requires Ownership(s) && Enabled(s, a)
    ensures Ownership(Apply(s, a))
  {
    if a.JoinLock? {
      assert forall o :: 0 <= o < |s.heap| ==> Registered(Apply(s, a), o) == Registered(s, o);
    } else if a.Join? {
      JoinKeepsOwnership(s);
    } else if a.Remove? {
      RemoveKeepsOwnership(s);
    } else if a.CloseAll? {
      CloseAllKeepsOwnership(s);
    } else if ByBroadcasterLoop(a) {
      BroadcasterKeepsOwnership(s, a);
    } else if Quiet(a) {
      QuietKeepsOwnership(s, a);
    } else {
      ServicesKeepOwnership(s, a);
    }
  }
}
