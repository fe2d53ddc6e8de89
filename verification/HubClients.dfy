/** The hub's objects as the source keeps them: clientChannels and wsconn, updated in place.
    Every method is tied to the state machine of module Hub through Models. */
module HubClients {
  import opened Common
  import opened Hub
  import HubDelivery

  class WsConn {
    const id: nat
    var out: seq<Frame>
    var closed: bool
    var connectOut: seq<Frame>
    var writer: Writer

    constructor (id: nat)
      ensures this.id == id && out == [] && !closed && connectOut == [] && writer == NotStarted
    {
      this.id := id;
      out, closed, connectOut, writer := [], false, [], NotStarted;
    }

    /** The object is what the record `c` of the machine says. */
    ghost predicate Is(c: Conn)
      reads this
    {
      id == c.id && Chan(out, !closed) == c.out && connectOut == c.connectOut && writer == c.writer
    }

    /** write, over the turns the select happens to take: an initial part of each channel is taken, in
        order and each frame once, and written until a write fails or the channel is found closed and
        empty. In every state where the client is `c` it is a run of the machine, which touches no other
        client. */
    method Write(turns: seq<WriteTurn>, ghost c: Conn, ghost s: State, ghost o: nat)
      returns (hellos: seq<Frame>, messages: seq<Frame>, ghost d: Conn)
      requires o < |s.heap| && !s.panicked && s.heap[o] == c && Is(c) && c.writer.Selecting?
      modifies this
      ensures Is(d) && Wrote(c, d, hellos, messages) && Leads(Next, s, WithConn(s, o, d))
    {
      hellos, messages, d := [], [], c;
      LeadsStart(Next, s);
      assert WithConn(s, o, c) == s;
      for i := 0 to |turns|
        invariant Is(d) && Wrote(c, d, hellos, messages) && Leads(Next, s, WithConn(s, o, d))
      {
        if !writer.Selecting? {
          return;
        }
        if Ready(turns[i]) {
          TurnRuns(s, o, d, turns[i]);
          TurnWrites(c, d, turns[i], hellos, messages);
          var hello, message := OneTurn(turns[i], d);
          hellos, messages, d := hellos + hello, messages + message, AfterTurn(d, turns[i]);
        }
      }
    }

    predicate Ready(turn: WriteTurn)
      reads this
    {
      if turn.fromOut then out != [] || closed else connectOut != []
    }

    method OneTurn(turn: WriteTurn, ghost c: Conn) returns (hello: seq<Frame>, message: seq<Frame>)
      requires Is(c) && writer.Selecting? && Ready(turn)
      modifies this
      ensures Is(AfterTurn(c, turn)) && hello == HelloOf(c, turn) && message == MessageOf(c, turn)
    {
      hello := if turn.fromOut then [] else [connectOut[0]];
      message := if turn.fromOut && out != [] then [out[0]] else [];
      TakeTurn(turn.fromOut, c);
      if writer.Writing? {
        DoWrite(turn.fails);
      }
    }

    /** One turn of write's select, taking whichever ready case `fromOut` names. */
    method TakeTurn(fromOut: bool, ghost c: Conn)
      requires Is(c) && writer.Selecting?
      requires fromOut ==> out != [] || closed
      requires !fromOut ==> connectOut != []
      modifies this
      ensures Is(if !fromOut then TookHello(c) else if c.out.queue != [] then TookOut(c) else c.(writer := Gone))
    {
      if !fromOut {
        var msg := connectOut[0];
        connectOut := connectOut[1..];
        writer := Writing(msg);
      } else if out != [] {
        var msg := out[0];
        out := out[1..];
        writer := Writing(msg);
      } else {
        writer := Gone;
      }
    }

    // the write to the websocket; a failure is reported next, on connsToRemove
    method DoWrite(fails: bool)
      modifies this`writer
      ensures writer == if fails then Reporting else Selecting
    {
      writer := if fails then Reporting else Selecting;
    }
  }

  // Which ready case the select takes, and whether writing to the websocket then fails
  datatype WriteTurn = WriteTurn(fromOut: bool, fails: bool)

  predicate IsReady(c: Conn, turn: WriteTurn) {
    c.writer.Selecting? && if turn.fromOut then c.out.queue != [] || !c.out.open else c.connectOut != []
  }

  function AfterTurn(c: Conn, turn: WriteTurn): Conn
    requires IsReady(c, turn)
  {
    var next := if turn.fails then Reporting else Selecting;
    if !turn.fromOut then TookHello(c).(writer := next)
    else if c.out.queue != [] then TookOut(c).(writer := next)
    else c.(writer := Gone)
  }

  function HelloOf(c: Conn, turn: WriteTurn): seq<Frame>
    requires IsReady(c, turn)
  {
    if turn.fromOut then [] else [c.connectOut[0]]
  }

  function MessageOf(c: Conn, turn: WriteTurn): seq<Frame>
    requires IsReady(c, turn)
  {
    if turn.fromOut && c.out.queue != [] then [c.out.queue[0]] else []
  }

  /** From `c` to `d` the writer took these frames off the fronts of the two channels. */
  ghost predicate Wrote(c: Conn, d: Conn, hellos: seq<Frame>, messages: seq<Frame>) {
    && c.connectOut == hellos + d.connectOut && c.out.queue == messages + d.out.queue && d.out.open == c.out.open
    && d.taken == c.taken + messages && d.id == c.id && d.offers == c.offers && d.joinAt == c.joinAt
    && (d.writer.Selecting? || d.writer.Reporting? || (d.writer.Gone? && !d.out.open && d.out.queue == []))
  }

  lemma TurnWrites(c: Conn, d: Conn, turn: WriteTurn, hellos: seq<Frame>, messages: seq<Frame>)
    requires Wrote(c, d, hellos, messages) && IsReady(d, turn)
    ensures Wrote(c, AfterTurn(d, turn), hellos + HelloOf(d, turn), messages + MessageOf(d, turn))
  {
  }

  /** A turn of the writer is one or two steps of the machine. */
  lemma TurnRuns(s: State, o: nat, d: Conn, turn: WriteTurn)
    requires o < |s.heap| && !s.panicked && Leads(Next, s, WithConn(s, o, d)) && IsReady(d, turn)
    ensures Leads(Next, s, WithConn(s, o, AfterTurn(d, turn)))
  {
    var m := WithConn(s, o, d);
    if !turn.fromOut {
      TakenThenWritten(s, o, m, TakeHello(o), TookHello(d), turn.fails);
    } else if d.out.queue != [] {
      TakenThenWritten(s, o, m, TakeOut(o), TookOut(d), turn.fails);
    } else {
      assert Apply(m, SeeClosed(o)) == WithConn(s, o, AfterTurn(d, turn));
      LeadsStep(Next, s, m, SeeClosed(o), WithConn(s, o, AfterTurn(d, turn)));
    }
  }

  lemma TakenThenWritten(s: State, o: nat, m: State, a: Action, taken: Conn, fails: bool)
    requires o < |s.heap| && o < |m.heap| && !s.panicked && Leads(Next, s, m) && m == WithConn(s, o, m.heap[o])
    requires (a == TakeHello(o) || a == TakeOut(o)) && Enabled(m, a)
    requires taken == if a.TakeHello? then TookHello(m.heap[o]) else TookOut(m.heap[o])
    ensures Leads(Next, s, WithConn(s, o, taken.(writer := if fails then Reporting else Selecting)))
  {
    var n := WithConn(s, o, taken);
    assert Apply(m, a) == n;
    LeadsStep(Next, s, m, a, n);
    var t := WithConn(s, o, taken.(writer := if fails then Reporting else Selecting));
    var b := if fails then WriteFail(o) else WriteOk(o);
    assert Apply(n, b) == t;
    LeadsStep(Next, s, n, b, t);
  }

  /** The sending half of a Service: its Out channel, its stop channel and its writeAll loop. */
  class Sender {
    const name: string
    const self: nat
    var out: seq<Payload>
    var stops: nat
    var loop: Loop
    var puts: seq<Payload>    // history
    var consumed: nat         // history

    constructor (name: string, self: nat)
      ensures Is(Service(name, [], 0, Waiting, [], 0)) && this.self == self
    {
      this.name, this.self := name, self;
      out, stops, loop, puts, consumed := [], 0, Waiting, [], 0;
    }

    ghost predicate Is(x: Service)
      reads this
    {
      Service(name, out, stops, loop, puts, consumed) == x
    }

    /** writeAll over the next `n` values, and then perhaps a stop: what is handed to the hub is, in
        order and each once, every one of them that marshals, under the name of the service. */
    method WriteAll(n: nat, stop: bool, ghost x: Service) returns (handed: seq<Frame>)
      requires Is(x) && loop.Waiting? && n <= |out| && (stop ==> stops > 0)
      requires x.consumed <= |x.puts| && x.queue == x.puts[x.consumed..]
      modifies this
      ensures var y := ConsumedOn(x, n); Is(if stop then y.(stops := y.stops - 1, loop := Stopped) else y)
      ensures HandedOn(x, self, n, handed)
    {
      handed := [];
      ghost var y := x;
      for k := 0 to n
        invariant y == ConsumedOn(x, k) && Is(y) && HandedOn(x, self, k, handed)
      {
        NextOnQueue(x, k);
        var f := WriteNext(y);
        NextHanded(x, self, k, handed, f);
        handed := if f.Some? then handed + [f.value] else handed;
        y := ConsumedOn(x, k + 1);
      }
      if stop {
        TakeTurn(true, y);
      }
    }

    // one value: the frame it was handed on as, if it marshals
    method WriteNext(ghost y: Service) returns (f: Option<Frame>)
      requires Is(y) && loop.Waiting? && out != []
      modifies this
      ensures Is(y.(queue := y.queue[1..], consumed := y.consumed + 1))
      ensures f == HandedAs(y.name, self, y.consumed, y.queue[0])
    {
      TakeTurn(false, y);
      f := None;
      if loop.Offering? {
        var g := HandOver(TookNext(y, self));
        f := Some(g);
      }
    }

    /** One turn of writeAll's select: a stop, or the next value, which is marshalled and then offered
        to the hub, or logged and skipped when it does not marshal. */
    method TakeTurn(stop: bool, ghost x: Service)
      requires Is(x) && loop.Waiting?
      requires if stop then stops > 0 else out != []
      modifies this
      ensures Is(if stop then x.(stops := x.stops - 1, loop := Stopped) else TookNext(x, self))
    {
      if stop {
        stops := stops - 1;
        loop := Stopped;
        return;
      }
      var msg := out[0];
      out := out[1..];
      if msg.Encodable? {
        loop := Offering(Frame(FromQueue(self, consumed), name, msg.body));
      }
      consumed := consumed + 1;
    }

    // the hub takes what writeMsg offers
    method HandOver(ghost x: Service) returns (f: Frame)
      requires Is(x) && loop.Offering?
      modifies this
      ensures Is(x.(loop := Waiting)) && f == x.loop.frame
    {
      f := loop.frame;
      loop := Waiting;
    }
  }

  function ConsumedOn(x: Service, n: nat): Service
    requires n <= |x.queue|
  {
    x.(queue := x.queue[n..], consumed := x.consumed + n)
  }

  lemma NextOnQueue(x: Service, k: nat)
    requires k < |x.queue| && x.consumed <= |x.puts| && x.queue == x.puts[x.consumed..]
    ensures ConsumedOn(x, k).queue != [] && ConsumedOn(x, k).queue[0] == x.queue[k]
    ensures ConsumedOn(x, k).queue[1..] == ConsumedOn(x, k + 1).queue
  {
  }

  /** What the next `n` puts of `x` amount to on the hub's channel: those that marshal, in order. */
  ghost predicate HandedOn(x: Service, v: nat, n: nat, handed: seq<Frame>) {
    && x.consumed + n <= |x.puts|
    && HubDelivery.Deliverable(x.puts, x.consumed) + HubDelivery.Indices(handed, v) ==
         HubDelivery.Deliverable(x.puts, x.consumed + n)
    && forall k :: 0 <= k < |handed| ==> CarriesPut(x, v, handed[k])
  }

  predicate CarriesPut(x: Service, v: nat, f: Frame) {
    && f.origin.FromQueue? && f.origin.svc == v && f.origin.index < |x.puts|
    && x.puts[f.origin.index] == Encodable(f.body) && f.kind == x.name
  }

  /** The frame a value is handed on as, if it marshals. */
  function HandedAs(name: string, v: nat, index: nat, p: Payload): Option<Frame> {
    var l := Envelope(name, v, index, p);
    if l.Offering? then Some(l.frame) else None
  }

  lemma {:induction false} NextHanded(x: Service, v: nat, n: nat, handed: seq<Frame>, f: Option<Frame>)
    requires HandedOn(x, v, n, handed) && n < |x.queue| && x.queue == x.puts[x.consumed..]
    requires f == HandedAs(x.name, v, x.consumed + n, x.queue[n])
    ensures HandedOn(x, v, n + 1, if f.Some? then handed + [f.value] else handed)
  {
    HandedOneMore(x, v, n, handed);
  }

  lemma {:induction false} HandedOneMore(x: Service, v: nat, n: nat, handed: seq<Frame>)
    requires HandedOn(x, v, n, handed) && x.consumed + n < |x.puts|
    ensures var l := Envelope(x.name, v, x.consumed + n, x.puts[x.consumed + n]);
      HandedOn(x, v, n + 1, if l.Offering? then handed + [l.frame] else handed)
  {
    var l := Envelope(x.name, v, x.consumed + n, x.puts[x.consumed + n]);
    if l.Offering? {
      OneMoreIndex(handed, l.frame, v);
      OneMoreDeliverable(HubDelivery.Deliverable(x.puts, x.consumed), HubDelivery.Indices(handed, v), [x.consumed + n]);
    }
  }

  lemma {:induction false} OneMoreIndex(frames: seq<Frame>, f: Frame, v: nat)
    requires f.origin.FromQueue? && f.origin.svc == v
    ensures HubDelivery.Indices(frames + [f], v) == HubDelivery.Indices(frames, v) + [f.origin.index]
  {
    assert (frames + [f])[..|frames + [f]| - 1] == frames;
  }

  lemma OneMoreDeliverable(a: seq<nat>, b: seq<nat>, c: seq<nat>)
    ensures a + (b + c) == (a + b) + c
  {
  }

  class ClientChannels {
    var nextId: nat
    var conns: map<nat, WsConn>
    ghost var heap: seq<WsConn>     // every connection ever allocated, oldest first

    /** The objects are what state `s` of the machine says they are. */
    ghost predicate Models(s: State)
      reads this, heap
    {
      && nextId == s.nextId
      && |heap| == |s.heap|
      && (forall o :: 0 <= o < |heap| ==>
            heap[o].id == s.heap[o].id && Chan(heap[o].out, !heap[o].closed) == s.heap[o].out)
      && conns.Keys == s.conns.Keys
      && (forall i :: i in conns ==> s.conns[i] < |heap| && conns[i] == heap[s.conns[i]])
      && (forall o, p :: 0 <= o < p < |heap| ==> heap[o] != heap[p])
    }

    constructor ()
      ensures Models(Init())
    {
      nextId := 0;
      conns := map[];
      heap := [];
    }

    // ServeHTTP, under muConns
    method Join(ghost s: State) returns (conn: WsConn)
      requires Models(s) && Enabled(s, Hub.Join)
      modifies this
      ensures Models(Apply(s, Hub.Join))
      ensures fresh(conn) && heap == old(heap) + [conn]
    {
      nextId := nextId + 1;
      conn := new WsConn(nextId);
      conns := conns[conn.id := conn];
      heap := heap + [conn];
    }

    method ClonedConns() returns (clone: map<nat, WsConn>)
      ensures clone == conns
    {
      clone := map[];
      var keys := conns.Keys;
      while keys != {}
        invariant keys <= conns.Keys
        invariant clone.Keys == conns.Keys - keys
        invariant forall i :: i in clone ==> clone[i] == conns[i]
        decreases keys
      {
        var k :| k in keys;
        clone := clone[k := conns[k]];
        keys := keys - {k};
      }
    }

    // writeAll, case msg
    method WriteToAll(msg: Frame, ghost s: State)
      requires Models(s) && Ownership(s)
      modifies heap
      ensures Models(FannedOut(s, msg, Clients(s.conns)))
    {
      FiledUnderOwnId(s);
      RegisteredAreClients(s);
      SendToEach(msg);
    }

    // one non-blocking send to each clone, in any order
    method SendToEach(msg: Frame)
      requires forall i :: i in conns ==> conns[i] in heap && conns[i].id == i
      modifies heap
      ensures forall c :: c in heap ==>
        Chan(c.out, !c.closed) ==
          if c.id in conns && conns[c.id] == c then TrySend(old(Chan(c.out, !c.closed)), msg)
            else old(Chan(c.out, !c.closed))
    {
      var clone := ClonedConns();
      var left := clone.Keys;
      while left != {}
        invariant left <= conns.Keys
        invariant forall c :: c in heap ==>
          Chan(c.out, !c.closed) ==
            if c.id in conns && conns[c.id] == c && c.id !in left then TrySend(old(Chan(c.out, !c.closed)), msg)
            else old(Chan(c.out, !c.closed))
        decreases left
      {
        var i :| i in left;
        Offer(clone[i], msg);
        left := left - {i};
      }
    }

    // the non-blocking send to one client
    method Offer(conn: WsConn, msg: Frame)
      modifies conn`out
      ensures Chan(conn.out, !conn.closed) == TrySend(old(Chan(conn.out, !conn.closed)), msg)
    {
      if |conn.out| < CLIENT_QUEUE {
        conn.out := conn.out + [msg];
      }
    }

    method LockedRemoveConn(conn: WsConn, ghost s: State, ghost o: nat)
      requires Models(s) && Ownership(s) && o < |heap| && conn == heap[o]
      modifies this, heap
      ensures heap == old(heap)
      ensures Models(RemoveOne(s, o))
    {
      if conn.id in conns {
        assert s.conns[conn.id] == o by {
          assert s.heap[s.conns[conn.id]].id == conn.id;
        }
        DoRemoveConn(conns[conn.id]);
      }
    }

    method DoRemoveConn(conn: WsConn)
      requires !conn.closed && conn in heap
      modifies this`conns, conn
      ensures conn.closed && conn.out == old(conn.out)
      ensures conns == old(conns) - {conn.id}
    {
      conn.closed := true;
      conns := conns - {conn.id};
    }

    // the deferred teardown of writeAll: conns shrinks while it is ranged over
    method CloseAll(ghost s: State)
      requires Models(s) && Ownership(s)
      modifies this`conns, heap
      ensures Models(RemoveAll(s))
    {
      FiledUnderOwnId(s);
      CloseEach();
      AllClosed(s);
    }

    method CloseEach()
      requires forall i :: i in conns ==> conns[i] in heap && conns[i].id == i && !conns[i].closed
      requires forall c :: c in heap && !c.closed ==> c.id in conns && conns[c.id] == c
      modifies this`conns, heap
      ensures conns == map[]
      ensures forall c :: c in heap ==> c.closed && c.out == old(c.out)
    {
      while conns != map[]
        invariant forall i :: i in conns ==> conns[i] in heap && conns[i].id == i && !conns[i].closed
        invariant forall c :: c in heap && !c.closed ==> c.id in conns && conns[c.id] == c
        invariant forall c :: c in heap ==> c.out == old(c.out)
        decreases conns.Keys
      {
        var i :| i in conns;
        DoRemoveConn(conns[i]);
      }
    }
  }

  lemma FiledUnderOwnId(s: State)
    requires Ownership(s)
    ensures forall o :: 0 <= o < |s.heap| ==> (s.heap[o].out.open <==> s.heap[o].id in s.conns)
    ensures forall i :: i in s.conns ==> s.conns[i] == i - 1
  {
    forall o | 0 <= o < |s.heap| ensures s.heap[o].out.open <==> s.heap[o].id in s.conns {
      assert s.heap[o].out.open <==> Registered(s, o);
      if s.heap[o].id in s.conns {
        assert s.heap[s.conns[s.heap[o].id]].id == s.heap[o].id;
      }
    }
  }

  /** The teardown never closes twice, empties conns and closes every channel, keeping what is queued. */
  lemma AllClosed(s: State)
    requires Ownership(s)
    ensures var t := RemoveAll(s);
      && !t.panicked && t.conns == map[] && t.nextId == s.nextId && |t.heap| == |s.heap|
      && forall o :: 0 <= o < |s.heap| ==>
           t.heap[o].id == s.heap[o].id && t.heap[o].out == Chan(s.heap[o].out.queue, false)
  {
    RegisteredAreClients(s);
    forall i | i in s.conns ensures s.heap[s.conns[i]].out.open {
      assert Registered(s, s.conns[i]);
    }
  }

  lemma RegisteredAreClients(s: State)
    requires Ownership(s)
    ensures forall o :: 0 <= o < |s.heap| ==> (Registered(s, o) <==> o in Clients(s.conns))
  {
    forall o | 0 <= o < |s.heap| && o in Clients(s.conns) ensures Registered(s, o) {
      var i :| i in s.conns && s.conns[i] == o;
      assert s.heap[s.conns[i]].id == i;
    }
  }

  /** Every object in `to` is sent `msg` without blocking. */
  function FannedOut(s: State, msg: Frame, to: set<nat>): State {
    s.(heap := seq(|s.heap|, o requires 0 <= o < |s.heap| => if o in to then Offered(s.heap[o], msg) else s.heap[o]))
  }

  lemma SendThenRest(s: State, o: nat)
    requires Ownership(s) && Enabled(s, Send(o))
    ensures var m := Apply(s, Send(o));
      && m.bc == Sending(s.bc.frame, s.bc.left - {o})
      && FannedOut(m, s.bc.frame, m.bc.left).heap == FannedOut(s, s.bc.frame, s.bc.left).heap
  {
    assert s.heap[o].out.open;
  }

  predicate AllSends(acts: seq<Action>) {
    acts == [] || (acts[0].Send? && AllSends(acts[1..]))
  }

  /** The machine's sends, one at a time and in whatever order the map is ranged over, come to the same. */
  lemma {:induction false} AnyOrderFansOut(s: State, acts: seq<Action>, t: State)
    requires Ownership(s) && Run(Next, s, acts, t) && AllSends(acts)
    requires s.bc.Sending? && t.bc.Sending? && t.bc.left == {}
    ensures t.heap == FannedOut(s, s.bc.frame, s.bc.left).heap
    decreases |acts|
  {
    if acts != [] {
      var m :| Next(s, acts[0], m) && Run(Next, m, acts[1..], t);
      SendThenRest(s, acts[0].o);
      StepKeepsOwnership(s, acts[0]);
      AnyOrderFansOut(m, acts[1..], t);
    } else {
      assert FannedOut(s, s.bc.frame, {}).heap == s.heap;
    }
  }
}
