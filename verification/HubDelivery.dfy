/** End-to-end delivery through the websocket hub: from a service's Out to each client. */
module HubDelivery {
  import opened Common
  import opened Hub

  // What one client was offered ////////////////////////////////////////////////////////////

  function Frames(offers: seq<Offer>): (r: seq<Frame>)
    ensures |r| == |offers|
  {
    if offers == [] then [] else Frames(offers[..|offers| - 1]) + [offers[|offers| - 1].frame]
  }

  function Accepted(offers: seq<Offer>): seq<Frame> {
    if offers == [] then []
    else
      var last := offers[|offers| - 1];
      Accepted(offers[..|offers| - 1]) + if last.held < CLIENT_QUEUE then [last.frame] else []
  }

  function Dropped(offers: seq<Offer>): seq<Frame> {
    if offers == [] then []
    else
      var last := offers[|offers| - 1];
      Dropped(offers[..|offers| - 1]) + if last.held < CLIENT_QUEUE then [] else [last.frame]
  }

  lemma {:induction false} NothingElseLost(offers: seq<Offer>)
    ensures |Accepted(offers)| + |Dropped(offers)| == |offers|
  {
    if offers != [] {
      NothingElseLost(offers[..|offers| - 1]);
    }
  }

  // Which puts of service `v` a list of frames carries /////////////////////////////////////////

  function OneIndex(f: Frame, v: nat): seq<nat> {
    if f.origin.FromQueue? && f.origin.svc == v then [f.origin.index] else []
  }

  function Indices(frames: seq<Frame>, v: nat): seq<nat> {
    if frames == [] then []
    else Indices(frames[..|frames| - 1], v) + OneIndex(frames[|frames| - 1], v)
  }

  lemma {:induction false} IndicesAppend(a: seq<Frame>, b: seq<Frame>, v: nat)
    ensures Indices(a + b, v) == Indices(a, v) + Indices(b, v)
    decreases |b|
  {
    if b == [] {
      assert a + b == a;
    } else {
      assert (a + b)[..|a + b| - 1] == a + b[..|b| - 1];
      IndicesAppend(a, b[..|b| - 1], v);
    }
  }

  lemma SubsequenceExtend<T>(a: seq<T>, b: seq<T>, x: T)
    requires Subsequence(a, b)
    ensures Subsequence(a, b + [x])
    ensures Subsequence(a + [x], b + [x])
  {
    var at: seq<nat> :| Embeds(a, b, at);
    assert Embeds(a, b + [x], at);
    assert Embeds(a + [x], b + [x], at + [|b|]);
  }

  lemma {:induction false} AcceptedIsSubsequence(offers: seq<Offer>, v: nat)
    ensures Subsequence(Indices(Accepted(offers), v), Indices(Frames(offers), v))
  {
    if offers != [] {
      var init, last := offers[..|offers| - 1], offers[|offers| - 1];
      AcceptedIsSubsequence(init, v);
      var a, b, x := Indices(Accepted(init), v), Indices(Frames(init), v), OneIndex(last.frame, v);
      assert Indices(Frames(offers), v) == b + x by {
        assert Frames(offers)[..|offers| - 1] == Frames(init);
      }
      if last.held < CLIENT_QUEUE {
        assert Accepted(offers)[..|Accepted(offers)| - 1] == Accepted(init);
        assert Indices(Accepted(offers), v) == a + x;
      } else {
        assert Accepted(offers) == Accepted(init);
      }
      if x == [] {
        assert a + x == a && b + x == b;
      } else {
        SubsequenceExtend(a, b, x[0]);
      }
    } else {
      assert Embeds<nat>([], [], []);
    }
  }

  /** The positions below `n` of the puts that marshal. */
  function Deliverable(puts: seq<Payload>, n: nat): seq<nat>
    requires n <= |puts|
  {
    if n == 0 then []
    else Deliverable(puts, n - 1) + if puts[n - 1].Encodable? then [n - 1] else []
  }

  lemma {:induction false} DeliverableGrows(puts: seq<Payload>, longer: seq<Payload>, n: nat, m: nat)
    requires n <= m <= |longer| && n <= |puts| && puts[..n] == longer[..n]
    ensures Deliverable(puts, n) <= Deliverable(longer, m)
    ensures forall k :: |Deliverable(puts, n)| <= k < |Deliverable(longer, m)| ==>
      n <= Deliverable(longer, m)[k] < m
    decreases m
  {
    if m > 0 {
      if n == m {
        assert puts[..n - 1] == puts[..n][..n - 1] == longer[..n][..n - 1] == longer[..n - 1];
        assert puts[n - 1] == puts[..n][n - 1] == longer[..n][n - 1];
        DeliverableGrows(puts, longer, n - 1, m - 1);
        DeliverableSame(puts, longer, n);
      } else {
        DeliverableGrows(puts, longer, n, m - 1);
      }
    }
  }

  lemma {:induction false} DeliverableSame(puts: seq<Payload>, longer: seq<Payload>, n: nat)
    requires n <= |longer| && n <= |puts| && puts[..n] == longer[..n]
    ensures Deliverable(puts, n) == Deliverable(longer, n)
  {
    if n > 0 {
      assert puts[..n - 1] == puts[..n][..n - 1] == longer[..n][..n - 1] == longer[..n - 1];
      assert puts[n - 1] == puts[..n][n - 1] == longer[..n][n - 1];
      DeliverableSame(puts, longer, n - 1);
    }
  }

  lemma {:induction false} DeliverableBelow(puts: seq<Payload>, n: nat)
    requires n <= |puts|
    ensures |Deliverable(puts, n)| <= n
    ensures forall k :: 0 <= k < |Deliverable(puts, n)| ==> Deliverable(puts, n)[k] < n
  {
    if n > 0 {
      DeliverableBelow(puts, n - 1);
    }
  }

  // Invariants /////////////////////////////////////////////////////////////////////////////

  ghost predicate FanoutOf(s: State, o: nat)
    requires o < |s.heap|
  {
    var c := s.heap[o];
    && Accepted(c.offers) == c.taken + c.out.queue
    && c.joinAt + |c.offers| <= |s.log|
    && Frames(c.offers) == s.log[c.joinAt..c.joinAt + |c.offers|]
    && (c.out.open ==>
          c.joinAt + |c.offers| == |s.log| - if s.bc.Sending? && o in s.bc.left then 1 else 0)
    && |c.out.queue| <= CLIENT_QUEUE
    && (forall k :: 0 <= k < |c.offers| ==> c.offers[k].held <= CLIENT_QUEUE)
  }

  ghost predicate Fanout(s: State) {
    && (s.bc.Sending? ==> s.log != [] && s.log[|s.log| - 1] == s.bc.frame)
    && (forall o :: 0 <= o < |s.heap| ==> FanoutOf(s, o))
  }

  /** `f` carries the body and the type of the put it is tagged with. */
  predicate Faithful(svcs: seq<Service>, f: Frame) {
    f.origin.FromQueue? ==>
      && f.origin.svc < |svcs|
      && f.origin.index < |svcs[f.origin.svc].puts|
      && svcs[f.origin.svc].puts[f.origin.index] == Encodable(f.body)
      && f.kind == svcs[f.origin.svc].name
  }

  function OfferedIndex(loop: Loop, v: nat): seq<nat> {
    if loop.Offering? then OneIndex(loop.frame, v) else []
  }

  /** Puts of `v` that left its queue but are not yet in the broadcast log. */
  function InFlight(s: State, v: nat): seq<nat>
    requires v < |s.svcs|
  {
    (if s.bc.Got? || s.bc.Cloning? then OneIndex(s.bc.frame, v) else []) +
    OfferedIndex(s.svcs[v].loop, v)
  }

  ghost predicate PipelineOf(s: State, v: nat)
    requires v < |s.svcs|
  {
    var x := s.svcs[v];
    && x.consumed <= |x.puts|
    && x.queue == x.puts[x.consumed..]
    && |x.queue| <= SERVICE_QUEUE
    && (x.loop.Offering? ==> x.loop.frame.origin.FromQueue? && x.loop.frame.origin.svc == v)
    && Indices(s.log, v) + InFlight(s, v) == Deliverable(x.puts, x.consumed)
  }

  ghost predicate Pipeline(s: State) {
    && (forall v :: 0 <= v < |s.svcs| ==> PipelineOf(s, v))
    && (forall v :: 0 <= v < |s.svcs| && s.svcs[v].loop.Offering? ==> Faithful(s.svcs, s.svcs[v].loop.frame))
    && (s.bc.Got? || s.bc.Cloning? ==> Faithful(s.svcs, s.bc.frame))
    && (forall k :: 0 <= k < |s.log| ==> Faithful(s.svcs, s.log[k]))
    && (forall k :: 0 <= k < |s.direct| ==> s.direct[k].origin.Direct?)
  }

  // Each step keeps the fan-out invariant ///////////////////////////////////////////////////////

  lemma OfferKeeps(s: State, o: nat)
    requires Ownership(s) && Fanout(s) && Enabled(s, Send(o))
    ensures FanoutOf(Apply(s, Send(o)), o)
  {
    assert FanoutOf(s, o);
    var c, f := s.heap[o], s.bc.frame;
    assert o in s.bc.left && c.out.open;
    var d := Apply(s, Send(o)).heap[o];
    assert d.offers[..|d.offers| - 1] == c.offers;
    assert s.log[c.joinAt..] == s.log[c.joinAt..c.joinAt + |c.offers|] + [f];
    assert s.log[c.joinAt..c.joinAt + |d.offers|] == s.log[c.joinAt..];
    assert c.taken + (c.out.queue + [f]) == (c.taken + c.out.queue) + [f];
  }

  lemma UntouchedFanout(s: State, t: State, o: nat)
    requires o < |s.heap| && o < |t.heap| && FanoutOf(s, o)
    requires t.heap[o].offers == s.heap[o].offers && t.heap[o].joinAt == s.heap[o].joinAt
    requires t.heap[o].taken + t.heap[o].out.queue == s.heap[o].taken + s.heap[o].out.queue
    requires |t.heap[o].out.queue| <= |s.heap[o].out.queue|
    requires t.heap[o].out.open ==> s.heap[o].out.open
    requires s.log <= t.log
    requires t.heap[o].out.open ==>
      |t.log| - (if t.bc.Sending? && o in t.bc.left then 1 else 0) ==
      |s.log| - (if s.bc.Sending? && o in s.bc.left then 1 else 0)
    ensures FanoutOf(t, o)
  {
    var c := s.heap[o];
    assert t.log[c.joinAt..c.joinAt + |c.offers|] == s.log[c.joinAt..c.joinAt + |c.offers|];
  }

  lemma ClientStepKeepsFanout(s: State, a: Action, o: nat)
    requires Ownership(s) && Fanout(s) && Enabled(s, a) && Quiet(a) && o < |s.heap|
    ensures FanoutOf(Apply(s, a), o)
  {
    assert FanoutOf(s, o);
    if a.TakeOut? && o == a.o {
      var c := s.heap[o];
      assert c.out.queue == [c.out.queue[0]] + c.out.queue[1..];
      assert c.taken + [c.out.queue[0]] + c.out.queue[1..] == c.taken + c.out.queue;
    }
    UntouchedFanout(s, Apply(s, a), o);
  }

  lemma CloneKeepsFanout(s: State, o: nat)
    requires Ownership(s) && Fanout(s) && Enabled(s, Clone) && o < |s.heap|
    ensures FanoutOf(Apply(s, Clone), o)
  {
    assert FanoutOf(s, o);
    if s.heap[o].out.open {
      assert s.conns[s.heap[o].id] in Clients(s.conns);
    }
    UntouchedFanout(s, Apply(s, Clone), o);
  }

  lemma SendKeepsOthersFanout(s: State, p: nat, o: nat)
    requires Ownership(s) && Fanout(s) && Enabled(s, Send(p)) && o < |s.heap| && p != o
    ensures FanoutOf(Apply(s, Send(p)), o)
  {
    assert s.heap[p].out.open && FanoutOf(s, o);
    UntouchedFanout(s, Apply(s, Send(p)), o);
  }

  lemma RemoveKeepsFanout(s: State, o: nat)
    requires Ownership(s) && Fanout(s) && Enabled(s, Remove) && o < |s.heap|
    ensures FanoutOf(Apply(s, Remove), o)
  {
    assert FanoutOf(s, o);
    UntouchedFanout(s, Apply(s, Remove), o);
  }

  lemma CloseAllKeepsFanout(s: State, o: nat)
    requires Ownership(s) && Fanout(s) && Enabled(s, CloseAll) && o < |s.heap|
    ensures FanoutOf(Apply(s, CloseAll), o)
  {
    assert FanoutOf(s, o);
    UntouchedFanout(s, Apply(s, CloseAll), o);
  }

  lemma BroadcasterKeepsFanout(s: State, a: Action, o: nat)
    requires Fanout(s) && Enabled(s, a) && ByBroadcasterLoop(a) && o < |s.heap|
    requires !a.Clone? && !a.Send? && !a.Remove? && !a.CloseAll?
    ensures FanoutOf(Apply(s, a), o)
  {
    var t := Apply(s, a);
    assert FanoutOf(s, o);
    assert t.heap == s.heap && t.log == s.log;
    UntouchedFanout(s, t, o);
  }

  lemma ServicesKeepFanout(s: State, a: Action, o: nat)
    requires Fanout(s) && Enabled(s, a) && !Quiet(a) && !ByBroadcasterLoop(a) && o < |s.heap|
    ensures FanoutOf(Apply(s, a), o)
  {
    assert FanoutOf(s, o);
    assert Apply(s, a).heap[o] == s.heap[o];
    UntouchedFanout(s, Apply(s, a), o);
  }

  lemma NewcomerFanout(s: State)
    requires Ownership(s) && Enabled(s, Join)
    ensures FanoutOf(Apply(s, Join), |s.heap|)
  {
    assert Apply(s, Join).heap[|s.heap|] == NewConn(s.nextId + 1, |s.log|);
    assert s.bc.Sending? ==> |s.heap| !in s.bc.left;
  }

  lemma StepKeepsFanoutOf(s: State, a: Action, o: nat)
    requires Ownership(s) && Fanout(s) && Enabled(s, a) && o < |Apply(s, a).heap|
    ensures FanoutOf(Apply(s, a), o)
  {
    if o >= |s.heap| {
      assert a.Join?;
      NewcomerFanout(s);
    } else if a == Send(o) {
      OfferKeeps(s, o);
    } else if a.Clone? {
      CloneKeepsFanout(s, o);
    } else if a.Send? {
      SendKeepsOthersFanout(s, a.o, o);
    } else if a.Remove? {
      RemoveKeepsFanout(s, o);
    } else if a.CloseAll? {
      CloseAllKeepsFanout(s, o);
    } else if ByBroadcasterLoop(a) {
      BroadcasterKeepsFanout(s, a, o);
    } else if Quiet(a) {
      ClientStepKeepsFanout(s, a, o);
    } else {
      ServicesKeepFanout(s, a, o);
    }
  }

  lemma StepKeepsFanout(s: State, a: Action)
    requires Ownership(s) && Fanout(s) && Enabled(s, a)
    ensures Fanout(Apply(s, a))
  {
    forall o | 0 <= o < |Apply(s, a).heap| ensures FanoutOf(Apply(s, a), o) {
      StepKeepsFanoutOf(s, a, o);
    }
  }

  // Each step keeps the pipeline invariant //////////////////////////////////////////////////////

  /** Services only grow, so what was faithful stays so. */
  ghost predicate Grown(before: seq<Service>, after: seq<Service>) {
    |before| <= |after| &&
    forall v :: 0 <= v < |before| ==> before[v].name == after[v].name && before[v].puts <= after[v].puts
  }

  lemma StepGrows(s: State, a: Action)
    requires Enabled(s, a)
    ensures Grown(s.svcs, Apply(s, a).svcs) && s.log <= Apply(s, a).log
  {
    var t := Apply(s, a);
    if a.Put? || a.ServiceTake? || a.ServiceStop? || a.Register? || a.Unregister? || a.RecvService? {
      ServiceStepGrows(s, a);
    } else {
      assert t.svcs == s.svcs;
    }
  }

  lemma ServiceStepGrows(s: State, a: Action)
    requires Enabled(s, a)
    requires a.Put? || a.ServiceTake? || a.ServiceStop? || a.Register? || a.Unregister? || a.RecvService?
    ensures Grown(s.svcs, Apply(s, a).svcs) && s.log == Apply(s, a).log
  {
  }

  lemma HeapGrows(s: State, a: Action)
    requires Enabled(s, a)
    ensures |s.heap| <= |Apply(s, a).heap|
    ensures forall o :: 0 <= o < |s.heap| ==> Apply(s, a).heap[o].joinAt == s.heap[o].joinAt
  {
    if Quiet(a) {
      QuietHeapGrows(s, a);
    } else if a.Remove? || a.CloseAll? || a.Send? {
    } else {
      assert s.heap <= Apply(s, a).heap;
    }
  }

  lemma QuietHeapGrows(s: State, a: Action)
    requires Enabled(s, a) && Quiet(a)
    ensures |s.heap| == |Apply(s, a).heap|
    ensures forall o :: 0 <= o < |s.heap| ==> Apply(s, a).heap[o].joinAt == s.heap[o].joinAt
  {
  }

  lemma FaithfulStays(before: seq<Service>, after: seq<Service>, f: Frame)
    requires Grown(before, after) && Faithful(before, f)
    ensures Faithful(after, f)
  {
  }

  lemma {:induction false} PutKeepsPipelineOf(s: State, v: nat, p: Payload)
    requires Pipeline(s) && Enabled(s, Put(v, p))
    ensures PipelineOf(Apply(s, Put(v, p)), v)
  {
    assert PipelineOf(s, v);
    var x := s.svcs[v];
    assert (x.puts + [p])[..x.consumed] == x.puts[..x.consumed];
    DeliverableSame(x.puts, x.puts + [p], x.consumed);
    assert (x.puts + [p])[x.consumed..] == x.puts[x.consumed..] + [p];
  }

  lemma {:induction false} TakeKeepsPipelineOf(s: State, v: nat)
    requires Pipeline(s) && Enabled(s, ServiceTake(v))
    ensures PipelineOf(Apply(s, ServiceTake(v)), v)
  {
    assert PipelineOf(s, v);
    TakeExtends(s.svcs[v], v);
    TakeExtendsInFlight(s, v);
    TakeFits(s, v);
  }

  lemma {:induction false} TakeFits(s: State, v: nat)
    requires Enabled(s, ServiceTake(v)) && |s.svcs[v].queue| <= SERVICE_QUEUE
    requires var x, y := s.svcs[v], TookNext(s.svcs[v], v);
      && x.consumed <= |x.puts| && Indices(s.log, v) + InFlight(s, v) == Deliverable(x.puts, x.consumed)
      && y.consumed <= |y.puts| && y.queue == y.puts[y.consumed..]
      && Deliverable(y.puts, y.consumed) == Deliverable(x.puts, x.consumed) + OfferedIndex(y.loop, v)
      && InFlight(Apply(s, ServiceTake(v)), v) == InFlight(s, v) + OfferedIndex(y.loop, v)
    ensures PipelineOf(Apply(s, ServiceTake(v)), v)
  {
  }

  lemma {:induction false} TakeExtendsInFlight(s: State, v: nat)
    requires Enabled(s, ServiceTake(v))
    ensures var t := Apply(s, ServiceTake(v));
      InFlight(t, v) == InFlight(s, v) + OfferedIndex(TookNext(s.svcs[v], v).loop, v)
  {
    var t := Apply(s, ServiceTake(v));
    assert OfferedIndex(s.svcs[v].loop, v) == [];
    assert t.svcs[v] == TookNext(s.svcs[v], v);
  }

  lemma {:induction false} TakeExtends(x: Service, v: nat)
    requires x.queue != [] && x.consumed <= |x.puts| && x.queue == x.puts[x.consumed..]
    ensures var y := TookNext(x, v);
      && y.consumed <= |y.puts| && y.queue == y.puts[y.consumed..]
      && Deliverable(y.puts, y.consumed) == Deliverable(x.puts, x.consumed) + OfferedIndex(y.loop, v)
  {
    assert x.queue[0] == x.puts[x.consumed];
    assert x.queue[1..] == x.puts[x.consumed + 1..];
  }

  lemma TakeIsFaithful(s: State, v: nat)
    requires v < |s.svcs| && PipelineOf(s, v) && Enabled(s, ServiceTake(v))
    ensures var t := Apply(s, ServiceTake(v)); t.svcs[v].loop.Offering? ==> Faithful(t.svcs, t.svcs[v].loop.frame)
  {
    assert s.svcs[v].queue[0] == s.svcs[v].puts[s.svcs[v].consumed];
  }

  lemma {:induction false} CloneKeepsPipelineOf(s: State, v: nat)
    requires Pipeline(s) && Enabled(s, Clone) && v < |s.svcs|
    ensures PipelineOf(Apply(s, Clone), v)
  {
    assert PipelineOf(s, v);
    var t := Apply(s, Clone);
    assert t.log[..|t.log| - 1] == s.log;
    assert Indices(t.log, v) == Indices(s.log, v) + OneIndex(s.bc.frame, v);
  }

  lemma SamePipelineOf(s: State, t: State, v: nat)
    requires v < |s.svcs| && v < |t.svcs| && PipelineOf(s, v)
    requires t.log == s.log && InFlight(t, v) == InFlight(s, v)
    requires var x, y := s.svcs[v], t.svcs[v];
      && y.puts == x.puts && y.consumed == x.consumed && y.queue == x.queue
      && (y.loop == x.loop || !y.loop.Offering?)
    ensures PipelineOf(t, v)
  {
  }

  lemma {:induction false} HandOverKeepsPipelineOf(s: State, u: nat, v: nat)
    requires Pipeline(s) && Enabled(s, RecvService(u)) && v < |s.svcs|
    ensures PipelineOf(Apply(s, RecvService(u)), v)
  {
    assert PipelineOf(s, v) && PipelineOf(s, u);
    SamePipelineOf(s, Apply(s, RecvService(u)), v);
  }

  lemma {:induction false} ServicesKeepPipelineOf(s: State, a: Action, v: nat)
    requires Pipeline(s) && Enabled(s, a) && v < |s.svcs|
    requires (a.Put? && a.v != v) || (a.ServiceTake? && a.v != v) || a.Register? || a.Unregister? || a.ServiceStop?
    ensures PipelineOf(Apply(s, a), v)
  {
    assert PipelineOf(s, v);
    SamePipelineOf(s, Apply(s, a), v);
  }

  lemma {:induction false} OthersKeepPipelineOf(s: State, a: Action, v: nat)
    requires Pipeline(s) && Enabled(s, a) && v < |s.svcs|
    requires !a.Clone? && !a.Put? && !a.ServiceTake? && !a.Register? && !a.Unregister? && !a.ServiceStop? &&
      !a.RecvService?
    ensures PipelineOf(Apply(s, a), v)
  {
    var t := Apply(s, a);
    assert PipelineOf(s, v);
    assert t.log == s.log && t.svcs == s.svcs;
    if a.RecvDirect? {
      assert s.direct[a.k].origin.Direct?;
    }
    SamePipelineOf(s, t, v);
  }

  lemma StepKeepsPipelineOf(s: State, a: Action, v: nat)
    requires Pipeline(s) && Enabled(s, a) && v < |Apply(s, a).svcs|
    ensures PipelineOf(Apply(s, a), v)
  {
    if v == |s.svcs| {
      assert a.Register?;
      NoneFromUnborn(s, v);
    } else if a.Put? && a.v == v {
      PutKeepsPipelineOf(s, v, a.payload);
    } else if a.ServiceTake? && a.v == v {
      TakeKeepsPipelineOf(s, v);
    } else if a.Clone? {
      CloneKeepsPipelineOf(s, v);
    } else if a.RecvService? {
      HandOverKeepsPipelineOf(s, a.v, v);
    } else if a.Put? || a.ServiceTake? || a.Register? || a.Unregister? || a.ServiceStop? {
      ServicesKeepPipelineOf(s, a, v);
    } else {
      OthersKeepPipelineOf(s, a, v);
    }
  }

  /** A service that is not allocated yet has no frame in the log. */
  lemma NoneFromUnborn(s: State, v: nat)
    requires Pipeline(s) && v == |s.svcs|
    ensures Indices(s.log, v) == []
    ensures (s.bc.Got? || s.bc.Cloning? ==> OneIndex(s.bc.frame, v) == [])
  {
    NoneFromUnbornIn(s, s.log, v);
  }

  lemma {:induction false} NoneFromUnbornIn(s: State, frames: seq<Frame>, v: nat)
    requires v == |s.svcs|
    requires forall k :: 0 <= k < |frames| ==> Faithful(s.svcs, frames[k])
    ensures Indices(frames, v) == []
  {
    if frames != [] {
      NoneFromUnbornIn(s, frames[..|frames| - 1], v);
    }
  }

  lemma LoopsStayFaithful(s: State, a: Action, v: nat)
    requires Pipeline(s) && Enabled(s, a)
    requires v < |Apply(s, a).svcs| && Apply(s, a).svcs[v].loop.Offering?
    ensures Faithful(Apply(s, a).svcs, Apply(s, a).svcs[v].loop.frame)
  {
    var t := Apply(s, a);
    if a.ServiceTake? && a.v == v {
      assert PipelineOf(s, v);
      TakeIsFaithful(s, v);
    } else {
      assert v < |s.svcs| && t.svcs[v].loop == s.svcs[v].loop;
      StepGrows(s, a);
      FaithfulStays(s.svcs, t.svcs, s.svcs[v].loop.frame);
    }
  }

  lemma UnclonedStaysFaithful(s: State, a: Action)
    requires Pipeline(s) && Enabled(s, a)
    requires Apply(s, a).bc.Got? || Apply(s, a).bc.Cloning?
    ensures Faithful(Apply(s, a).svcs, Apply(s, a).bc.frame)
  {
    var t := Apply(s, a);
    StepGrows(s, a);
    if a.RecvDirect? {
      assert s.direct[a.k].origin.Direct?;
    } else if a.RecvService? {
      FaithfulStays(s.svcs, t.svcs, s.svcs[a.v].loop.frame);
    } else {
      assert t.bc.frame == s.bc.frame;
      FaithfulStays(s.svcs, t.svcs, s.bc.frame);
    }
  }

  lemma LogStaysFaithful(s: State, a: Action, k: nat)
    requires Pipeline(s) && Enabled(s, a) && k < |Apply(s, a).log|
    ensures Faithful(Apply(s, a).svcs, Apply(s, a).log[k])
  {
    StepGrows(s, a);
    FaithfulStays(s.svcs, Apply(s, a).svcs, if k < |s.log| then s.log[k] else s.bc.frame);
  }

  lemma StepKeepsPipeline(s: State, a: Action)
    requires Pipeline(s) && Enabled(s, a)
    ensures Pipeline(Apply(s, a))
  {
    var t := Apply(s, a);
    forall v | 0 <= v < |t.svcs| ensures PipelineOf(t, v) {
      StepKeepsPipelineOf(s, a, v);
    }
    forall v | 0 <= v < |t.svcs| && t.svcs[v].loop.Offering? ensures Faithful(t.svcs, t.svcs[v].loop.frame) {
      LoopsStayFaithful(s, a, v);
    }
    forall k | 0 <= k < |t.log| ensures Faithful(t.svcs, t.log[k]) {
      LogStaysFaithful(s, a, k);
    }
    if t.bc.Got? || t.bc.Cloning? {
      UnclonedStaysFaithful(s, a);
    }
    assert forall k :: 0 <= k < |t.direct| ==> t.direct[k].origin.Direct?;
  }

  // Over whole runs //////////////////////////////////////////////////////////////////////////

  ghost predicate Inv(s: State) {
    Ownership(s) && Fanout(s) && Pipeline(s)
  }

  lemma StepKeepsInv(s: State, a: Action)
    requires Inv(s) && Enabled(s, a)
    ensures Inv(Apply(s, a))
  {
    StepKeepsOwnership(s, a);
    StepKeepsFanout(s, a);
    StepKeepsPipeline(s, a);
  }

  lemma ReachableInv(s: State)
    requires Reachable(s)
    ensures Inv(s)
  {
    var acts :| Run(Next, Init(), acts, s);
    forall x, a, y | Inv(x) && Next(x, a, y) ensures Inv(y) {
      StepKeepsInv(x, a);
    }
    RunKeeps(Next, Inv, Init(), acts, s);
  }

  lemma ReachableClient(s: State, o: nat)
    requires Reachable(s) && o < |s.heap|
    ensures FanoutOf(s, o)
    ensures forall k :: 0 <= k < |s.log| ==> Faithful(s.svcs, s.log[k])
  {
    ReachableInv(s);
  }

  /** What a client was offered is a stretch of the log. */
  lemma ReachableStretch(s: State, o: nat)
    requires Reachable(s) && o < |s.heap|
    ensures var c := s.heap[o];
      && c.joinAt + |c.offers| <= |s.log|
      && Frames(c.offers) == s.log[c.joinAt..c.joinAt + |c.offers|]
      && Accepted(c.offers) == c.taken + c.out.queue
  {
    ReachableClient(s, o);
  }

  /** What was broadcast or is in flight of a service are its deliverable puts, as far as consumed. */
  lemma ReachablePipeline(s: State, v: nat)
    requires Reachable(s) && v < |s.svcs|
    ensures var x := s.svcs[v];
      && x.consumed <= |x.puts| && x.queue == x.puts[x.consumed..]
      && Indices(s.log, v) + InFlight(s, v) == Deliverable(x.puts, x.consumed)
      && |InFlight(s, v)| + |x.queue| <= 1002
  {
    ReachableInv(s);
    assert PipelineOf(s, v);
  }

  /** In every reachable state, for every client: what it took plus what is queued for it is what it
      was offered minus what was dropped; an offer counts as dropped only when 1000 frames were
      queued at that send; the offers are the broadcasts since it joined, in order, and as long as
      it stays connected all of them, except the one being sent if the client's turn is still to come. */
  lemma {:induction false} EveryBroadcastAccountedFor(s: State, o: nat)
    requires Reachable(s) && o < |s.heap|
    ensures var c := s.heap[o];
      && c.taken + c.out.queue == Accepted(c.offers)
      && |c.taken| + |c.out.queue| + |Dropped(c.offers)| == |c.offers|
      && (forall k :: 0 <= k < |c.offers| ==> c.offers[k].held <= CLIENT_QUEUE)
      && c.joinAt + |c.offers| <= |s.log|
      && Frames(c.offers) == s.log[c.joinAt..c.joinAt + |c.offers|]
      && (c.out.open ==>
            c.joinAt + |c.offers| == |s.log| - if s.bc.Sending? && o in s.bc.left then 1 else 0)
  {
    ReachableClient(s, o);
    NothingElseLost(s.heap[o].offers);
  }

  /** Every message a client took or has queued carries the type of its service and the body of one put. */
  lemma NothingInvented(s: State, o: nat)
    requires Reachable(s) && o < |s.heap|
    ensures var received := s.heap[o].taken + s.heap[o].out.queue;
      forall k :: 0 <= k < |received| ==> Faithful(s.svcs, received[k])
  {
    ReachableClient(s, o);
    var c := s.heap[o];
    assert forall k :: 0 <= k < |c.offers| ==> Frames(c.offers)[k] == s.log[c.joinAt + k];
    AcceptedFrom(s.svcs, c.offers);
  }

  /** What client `o` took and has queued from service `v`, as positions among its puts. */
  function Received(s: State, o: nat, v: nat): seq<nat>
    requires o < |s.heap|
  {
    Indices(s.heap[o].taken + s.heap[o].out.queue, v)
  }

  lemma ReceivedIsOffered(s: State, o: nat, v: nat)
    requires Reachable(s) && o < |s.heap|
    ensures Subsequence(Received(s, o, v), OfferedTo(s, o, v))
  {
    ReachableStretch(s, o);
    AcceptedIsSubsequence(s.heap[o].offers, v);
  }

  /** Of every service, a client took and has queued, in put order, some of the puts that were not
      yet broadcast when it joined. */
  lemma {:induction false} EndToEnd(s: State, o: nat, v: nat)
    requires Reachable(s) && o < |s.heap| && v < |s.svcs|
    ensures s.heap[o].joinAt <= |s.log| && Broadcasts(s, o, v) <= |AllPuts(s, v)|
    ensures Subsequence(Received(s, o, v), AllPuts(s, v)[Broadcasts(s, o, v)..])
  {
    ReceivedIsOffered(s, o, v);
    OffersInOrder(s, o, v);
    ReceivedInOrder(s, o, v);
  }

  lemma {:induction false} ReceivedInOrder(s: State, o: nat, v: nat)
    requires o < |s.heap| && v < |s.svcs| && s.heap[o].joinAt <= |s.log|
    requires Subsequence(Received(s, o, v), OfferedTo(s, o, v))
    requires var n, m := Broadcasts(s, o, v), |OfferedTo(s, o, v)|;
      n + m <= |AllPuts(s, v)| && OfferedTo(s, o, v) == AllPuts(s, v)[n..n + m]
    ensures Subsequence(Received(s, o, v), AllPuts(s, v)[Broadcasts(s, o, v)..])
  {
    SubsequenceOfSlice(Received(s, o, v), OfferedTo(s, o, v), AllPuts(s, v), Broadcasts(s, o, v));
  }

  lemma SubsequenceOfSlice(a: seq<nat>, part: seq<nat>, all: seq<nat>, before: nat)
    requires Subsequence(a, part)
    requires before + |part| <= |all| && part == all[before..before + |part|]
    ensures Subsequence(a, all[before..])
  {
    var at: seq<nat> :| Embeds(a, part, at);
    assert Embeds(a, all[before..], at);
  }

  /** The positions of everything `v` put in its Out that marshals. */
  function AllPuts(s: State, v: nat): seq<nat>
    requires v < |s.svcs|
  {
    Deliverable(s.svcs[v].puts, |s.svcs[v].puts|)
  }

  /** How many puts of `v` were broadcast before client `o` joined. */
  function Broadcasts(s: State, o: nat, v: nat): nat
    requires o < |s.heap| && s.heap[o].joinAt <= |s.log|
  {
    |Indices(s.log[..s.heap[o].joinAt], v)|
  }

  lemma {:induction false} AcceptedFrom(svcs: seq<Service>, offers: seq<Offer>)
    requires forall k :: 0 <= k < |offers| ==> Faithful(svcs, Frames(offers)[k])
    ensures forall k :: 0 <= k < |Accepted(offers)| ==> Faithful(svcs, Accepted(offers)[k])
  {
    if offers != [] {
      var init := offers[..|offers| - 1];
      assert Frames(offers)[..|offers| - 1] == Frames(init);
      assert forall k :: 0 <= k < |init| ==> Frames(init)[k] == Frames(offers)[k];
      AcceptedFrom(svcs, init);
      assert Frames(offers)[|offers| - 1] == offers[|offers| - 1].frame;
    }
  }

  lemma {:induction false} IndicesOfPart(a: seq<Frame>, b: seq<Frame>, c: seq<Frame>, v: nat, all: seq<nat>)
    requires Indices(a + (b + c), v) <= all
    ensures |Indices(a, v)| + |Indices(b, v)| <= |all|
    ensures Indices(b, v) == all[|Indices(a, v)|..|Indices(a, v)| + |Indices(b, v)|]
  {
    IndicesAppend(a, b + c, v);
    IndicesAppend(b, c, v);
    SliceOfPrefix(Indices(a, v), Indices(b, v), Indices(c, v), all);
  }

  lemma SliceOfPrefix<T>(a: seq<T>, b: seq<T>, c: seq<T>, all: seq<T>)
    requires a + (b + c) <= all
    ensures |a| + |b| <= |all| && b == all[|a|..|a| + |b|]
  {
    var whole := a + (b + c);
    assert b == whole[|a|..|a| + |b|];
  }

  /** The log holds, in order, an initial part of what each service put. */
  lemma {:induction false} LogIsPrefixOfPuts(s: State, v: nat)
    requires Reachable(s) && v < |s.svcs|
    ensures Indices(s.log, v) <= AllPuts(s, v)
  {
    ReachablePipeline(s, v);
    DeliverableGrows(s.svcs[v].puts, s.svcs[v].puts, s.svcs[v].consumed, |s.svcs[v].puts|);
  }

  lemma InThree<T>(s: seq<T>, from: nat, part: seq<T>)
    requires from + |part| <= |s| && part == s[from..from + |part|]
    ensures s[..from] + (part + s[from + |part|..]) == s
  {
  }

  /** A stretch of the log holds consecutive puts. */
  lemma {:induction false} StretchOfLog(log: seq<Frame>, from: nat, part: seq<Frame>, v: nat, all: seq<nat>)
    requires from + |part| <= |log| && part == log[from..from + |part|]
    requires Indices(log, v) <= all
    ensures var n := |Indices(log[..from], v)|; var m := |Indices(part, v)|;
      n + m <= |all| && Indices(part, v) == all[n..n + m]
  {
    InThree(log, from, part);
    IndicesOfPart(log[..from], part, log[from + |part|..], v, all);
  }

  /** The puts of `v` offered to a client are consecutive deliverable puts of `v`. */
  lemma {:induction false} OffersInOrder(s: State, o: nat, v: nat)
    requires Reachable(s) && o < |s.heap| && v < |s.svcs|
    ensures s.heap[o].joinAt <= |s.log|
    ensures var n, m := Broadcasts(s, o, v), |OfferedTo(s, o, v)|;
      n + m <= |AllPuts(s, v)| && OfferedTo(s, o, v) == AllPuts(s, v)[n..n + m]
  {
    LogIsPrefixOfPuts(s, v);
    ReachableStretch(s, o);
    StretchInOrder(s, o, v);
  }

  lemma {:induction false} StretchInOrder(s: State, o: nat, v: nat)
    requires o < |s.heap| && v < |s.svcs| && Indices(s.log, v) <= AllPuts(s, v)
    requires var c := s.heap[o];
      c.joinAt + |c.offers| <= |s.log| && Frames(c.offers) == s.log[c.joinAt..c.joinAt + |c.offers|]
    ensures var n, m := Broadcasts(s, o, v), |OfferedTo(s, o, v)|;
      n + m <= |AllPuts(s, v)| && OfferedTo(s, o, v) == AllPuts(s, v)[n..n + m]
  {
    var part := Frames(s.heap[o].offers);
    assert |part| == |s.heap[o].offers|;
    StretchOfLog(s.log, s.heap[o].joinAt, part, v, AllPuts(s, v));
  }

  /** What `o` was offered from service `v`, as positions among its puts. */
  function OfferedTo(t: State, o: nat, v: nat): seq<nat>
    requires o < |t.heap|
  {
    Indices(Frames(t.heap[o].offers), v)
  }

  // Messages put before a client joined //////////////////////////////////////////////////////////

  /** Nothing put by `v` so far can still reach a client that joins now. */
  predicate Drained(s: State, v: nat)
    requires v < |s.svcs|
  {
    && InFlight(s, v) == []
    && forall k :: 0 <= k < |s.svcs[v].queue| ==> s.svcs[v].queue[k].Unencodable?
  }

  ghost predicate Later(s: State, t: State) {
    && Grown(s.svcs, t.svcs) && s.log <= t.log && |s.heap| <= |t.heap|
    && forall o :: 0 <= o < |s.heap| ==> t.heap[o].joinAt == s.heap[o].joinAt
  }

  lemma RunIsLater(s: State, acts: seq<Action>, t: State)
    requires Inv(s) && Run(Next, s, acts, t)
    ensures Inv(t) && Later(s, t)
  {
    var keeps := x => Inv(x) && Later(s, x);
    forall x, a, y | keeps(x) && Next(x, a, y) ensures keeps(y) {
      StepKeepsInv(x, a);
      StepGrows(x, a);
      HeapGrows(x, a);
    }
    RunKeeps(Next, keeps, s, acts, t);
  }

  lemma {:induction false} NothingMoreDeliverable(puts: seq<Payload>, n: nat, m: nat)
    requires n <= m <= |puts|
    ensures |Deliverable(puts, n)| <= |Deliverable(puts, m)| <= |Deliverable(puts, n)| + m - n
    ensures |Deliverable(puts, n)| == |Deliverable(puts, m)| <==> forall k :: n <= k < m ==> puts[k].Unencodable?
    decreases m
  {
    if n < m {
      NothingMoreDeliverable(puts, n, m - 1);
    }
  }

  /** The arithmetic of a join: `mine` puts at the join, `logged` of them broadcast, `flying` on
      their way; `offered` is what follows the logged ones among the puts of a later time. */
  lemma AfterJoin(mine: seq<Payload>, later: seq<Payload>, consumed: nat,
                  logged: seq<nat>, flying: seq<nat>, offered: seq<nat>)
    requires consumed <= |mine| && mine <= later && logged + flying == Deliverable(mine, consumed)
    requires |logged| + |offered| <= |Deliverable(later, |later|)|
    requires offered == Deliverable(later, |later|)[|logged|..|logged| + |offered|]
    requires offered != []
    ensures var drained := flying == [] && forall k :: consumed <= k < |mine| ==> mine[k].Unencodable?;
      && (drained ==> forall k :: 0 <= k < |offered| ==> |mine| <= offered[k])
      && (!drained ==> offered[0] < |mine|)
    ensures forall k :: |flying| + |mine| - consumed <= k < |offered| ==> |mine| <= offered[k]
  {
    assert later[..|mine|] == mine == mine[..|mine|];
    DeliverableGrows(mine, later, |mine|, |later|);
    DeliverableGrows(mine, mine, consumed, |mine|);
    DeliverableBelow(mine, |mine|);
    NothingMoreDeliverable(mine, consumed, |mine|);
  }

  lemma DrainedMeans(s: State, v: nat)
    requires v < |s.svcs|
    requires s.svcs[v].consumed <= |s.svcs[v].puts| && s.svcs[v].queue == s.svcs[v].puts[s.svcs[v].consumed..]
    ensures var x := s.svcs[v];
      Drained(s, v) <==>
        InFlight(s, v) == [] && forall k :: x.consumed <= k < |x.puts| ==> x.puts[k].Unencodable?
  {
    var x := s.svcs[v];
    assert forall k :: x.consumed <= k < |x.puts| ==> x.puts[k] == x.queue[k - x.consumed];
    assert forall k :: 0 <= k < |x.queue| ==> x.queue[k] == x.puts[k + x.consumed];
  }

  lemma AfterJoinFacts(s: State, acts: seq<Action>, t: State, v: nat)
    requires Reachable(s) && Enabled(s, Join) && Run(Next, Apply(s, Join), acts, t)
    requires v < |s.svcs|
    ensures Reachable(t)
    ensures |s.heap| < |t.heap| && t.heap[|s.heap|].joinAt == |s.log| && s.log <= t.log
    ensures v < |t.svcs| && s.svcs[v].puts <= t.svcs[v].puts
  {
    ReachableInv(s);
    StepKeepsInv(s, Join);
    RunIsLater(Apply(s, Join), acts, t);
    assert Apply(s, Join).heap[|s.heap|].joinAt == |s.log|;
    ReachableLater(s, Join, acts, t);
  }

  lemma ReachableLater(s: State, a: Action, acts: seq<Action>, t: State)
    requires Reachable(s) && Enabled(s, a) && Run(Next, Apply(s, a), acts, t)
    ensures Reachable(t)
  {
    var first :| Run(Next, Init(), first, s);
    RunLast(Next, Init(), first, s, a, Apply(s, a));
    RunThen(Next, Init(), first + [a], Apply(s, a), acts, t);
  }

  lemma BroadcastsAtJoin(s: State, t: State, o: nat, v: nat)
    requires o < |t.heap| && t.heap[o].joinAt == |s.log| && s.log <= t.log
    ensures Broadcasts(t, o, v) == |Indices(s.log, v)|
  {
    assert t.log[..|s.log|] == s.log;
  }

  /** A client joins in state `s`; `t` is any later state. If the client was offered anything from
      service `v`, then it was offered a message put before the join exactly when `v` was not drained,
      and that message came first. At most 1002 such messages can be outstanding. */
  lemma {:induction false} OfferedFromBeforeJoin(s: State, acts: seq<Action>, t: State, v: nat)
    requires Reachable(s) && Enabled(s, Join) && Run(Next, Apply(s, Join), acts, t)
    requires v < |s.svcs|
    ensures |s.heap| < |t.heap|
    ensures var offered := OfferedTo(t, |s.heap|, v);
      offered != [] ==>
        && (Drained(s, v) ==> forall k :: 0 <= k < |offered| ==> |s.svcs[v].puts| <= offered[k])
        && (!Drained(s, v) ==> offered[0] < |s.svcs[v].puts|)
        && (forall k :: 1002 <= k < |offered| ==> |s.svcs[v].puts| <= offered[k])
  {
    AfterJoinFacts(s, acts, t, v);
    var o, x := |s.heap|, s.svcs[v];
    if OfferedTo(t, o, v) != [] {
      OffersInOrder(t, o, v);
      BroadcastsAtJoin(s, t, o, v);
      ReachablePipeline(s, v);
      DrainedMeans(s, v);
      AfterJoin(x.puts, t.svcs[v].puts, x.consumed, Indices(s.log, v), InFlight(s, v), OfferedTo(t, o, v));
    }
  }

  // The states of a short run: a service puts one message, then a client joins, then the message
  // is broadcast.
  function ShortRun(k: nat): State
    requires k <= 9
  {
    var f := Frame(FromQueue(0, 0), "t", "m");
    var born := Service("t", [], 0, Waiting, [], 0);
    var put := Service("t", [Encodable("m")], 0, Waiting, [Encodable("m")], 0);
    var took := Service("t", [], 0, Offering(f), [Encodable("m")], 1);
    var sent := took.(loop := Waiting);
    var one := Init().(svcs := [born], services := map["t" := 0]);
    var joined := one.(svcs := [put], nextId := 1, conns := map[1 := 0], heap := [NewConn(1, 0)]);
    if k == 0 then Init()
    else if k == 1 then one
    else if k == 2 then one.(svcs := [put])
    else if k == 3 then one.(svcs := [put], muConns := ByJoiner)
    else if k == 4 then joined
    else if k == 5 then joined.(svcs := [took])
    else if k == 6 then joined.(svcs := [sent], bc := Got(f))
    else if k == 7 then joined.(svcs := [sent], bc := Cloning(f), muConns := ByBroadcaster)
    else if k == 8 then joined.(svcs := [sent], bc := Sending(f, {0}), log := [f])
    else joined.(svcs := [sent], bc := Sending(f, {}), log := [f], heap := [Offered(NewConn(1, 0), f)])
  }

  const SHORT_RUN: seq<Action> :=
    [Register("t"), Put(0, Encodable("m")), JoinLock, Join, ServiceTake(0), RecvService(0), LockClone, Clone, Send(0)]

  lemma FirstSteps(k: nat)
    requires k < 4
    ensures Next(ShortRun(k), SHORT_RUN[k], ShortRun(k + 1))
  {
    if k == 1 {
      assert [] + [Encodable("m")] == [Encodable("m")];
      assert ShortRun(1).svcs[0 := ShortRun(2).svcs[0]] == ShortRun(2).svcs;
    }
  }

  lemma MiddleSteps(k: nat)
    requires 4 <= k < 6
    ensures Next(ShortRun(k), SHORT_RUN[k], ShortRun(k + 1))
  {
    assert [Encodable("m")][1..] == [];
    assert ShortRun(k).svcs[0 := ShortRun(k + 1).svcs[0]] == ShortRun(k + 1).svcs;
  }

  lemma LastSteps(k: nat)
    requires 6 <= k < 9
    ensures Next(ShortRun(k), SHORT_RUN[k], ShortRun(k + 1))
  {
    var s, t := ShortRun(k), ShortRun(k + 1);
    if k == 7 {
      assert Clients(s.conns) == {0} by {
        assert 1 in s.conns;
      }
    } else if k == 8 {
      assert s.heap[0 := t.heap[0]] == t.heap && s.bc.left - {0} == {};
    }
  }

  lemma {:induction false} ShortRunFrom(k: nat)
    requires k <= 9
    ensures Run(Next, ShortRun(k), SHORT_RUN[k..], ShortRun(9))
    decreases 9 - k
  {
    if k < 9 {
      if k < 4 { FirstSteps(k); } else if k < 6 { MiddleSteps(k); } else { LastSteps(k); }
      ShortRunFrom(k + 1);
      RunFirst(Next, ShortRun(k), SHORT_RUN[k], ShortRun(k + 1), SHORT_RUN[k + 1..], ShortRun(9), SHORT_RUN[k..]);
    }
  }

  /** So "since the client joined" is not what the code guarantees: here the only message is put
      second, the client joins fourth, and the message is queued for it at the end. */
  lemma BeforeJoinExample() returns (s: State)
    ensures |SHORT_RUN| == 9 && SHORT_RUN[1] == Put(0, Encodable("m")) && SHORT_RUN[3] == Join
    ensures Run(Next, Init(), SHORT_RUN, s)
    ensures |s.heap| == 1 && s.heap[0].out.queue == [Frame(FromQueue(0, 0), "t", "m")]
  {
    s := ShortRun(9);
    ShortRunFrom(0);
    ShortRunEnds();
    assert SHORT_RUN[0..] == SHORT_RUN;
  }

  lemma ShortRunEnds()
    ensures ShortRun(0) == Init()
    ensures ShortRun(9).heap == [Offered(NewConn(1, 0), Frame(FromQueue(0, 0), "t", "m"))]
  {
  }
}
