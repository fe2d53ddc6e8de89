/** The service table of the desktop UI channel and the loop that dispatches inbound frames. */
module Services {
  import opened Common

  /** JSON, seen from outside: the type a frame announces, and the message a service of that type
      decodes from it. Either may fail. */
  datatype Codec<!B, M> = Codec(typeOf: B -> Option<string>, decode: (string, B) -> Option<M>)

  /** The service a frame is delivered to, if any: its announced type is registered and it decodes. */
  function Target<B, M>(frame: B, names: set<string>, codec: Codec<B, M>): Option<string> {
    match codec.typeOf(frame)
    case None => None
    case Some(t) => if t in names && codec.decode(t, frame).Some? then Some(t) else None
  }

  /** What service `t` is delivered: its well-formed frames, decoded, in order. */
  function For<B, M>(t: string, frames: seq<B>, names: set<string>, codec: Codec<B, M>): seq<M> {
    if frames == [] then []
    else
      var last := frames[|frames| - 1];
      For(t, frames[..|frames| - 1], names, codec) +
      if Target(last, names, codec) == Some(t) then [codec.decode(t, last).value] else []
  }

  function Rejected<B, M>(frames: seq<B>, names: set<string>, codec: Codec<B, M>): nat {
    if frames == [] then 0
    else
      Rejected(frames[..|frames| - 1], names, codec) +
      if Target(frames[|frames| - 1], names, codec).None? then 1 else 0
  }

  function Marshalled<B>(envelopes: seq<Option<B>>): seq<B> {
    if envelopes == [] then []
    else
      var last := envelopes[|envelopes| - 1];
      Marshalled(envelopes[..|envelopes| - 1]) + if last.Some? then [last.value] else []
  }

  /** `at` are the increasing positions of the envelopes that marshal, and `out` is what they marshal to. */
  ghost predicate MarshalsAt<B(!new)>(envelopes: seq<Option<B>>, out: seq<B>, at: seq<nat>) {
    && |at| == |out|
    && (forall k :: 0 <= k < |at| ==> at[k] < |envelopes| && envelopes[at[k]] == Some(out[k]))
    && (forall j, k :: 0 <= j < k < |at| ==> at[j] < at[k])
    && (forall i :: 0 <= i < |envelopes| && envelopes[i].Some? ==> i in at)
  }

  lemma MarshalsOneMore<B(!new)>(envelopes: seq<Option<B>>, last: Option<B>, out: seq<B>, at: seq<nat>)
    requires MarshalsAt(envelopes, out, at)
    ensures last.None? ==> MarshalsAt(envelopes + [last], out, at)
    ensures last.Some? ==> MarshalsAt(envelopes + [last], out + [last.value], at + [|envelopes|])
  {
    var all := envelopes + [last];
    assert forall i :: 0 <= i < |envelopes| ==> all[i] == envelopes[i];
    if last.Some? {
      var more := at + [|envelopes|];
      assert more[|at|] == |envelopes|;
      forall i | 0 <= i < |all| && all[i].Some? ensures i in more {
        if i < |envelopes| {
          assert i in at;
        }
      }
    }
  }

  /** What is sent are exactly the envelopes that marshal, each once and in order. */
  lemma {:induction false} MarshalledExactly<B(!new)>(envelopes: seq<Option<B>>) returns (at: seq<nat>)
    ensures MarshalsAt(envelopes, Marshalled(envelopes), at)
  {
    at := [];
    if envelopes != [] {
      var init, last := envelopes[..|envelopes| - 1], envelopes[|envelopes| - 1];
      at := MarshalledExactly(init);
      assert init + [last] == envelopes;
      MarshalsOneMore(init, last, Marshalled(init), at);
      if last.Some? {
        at := at + [|init|];
      } else {
        assert Marshalled(envelopes) == Marshalled(init);
      }
    }
  }

  class Service<M> {
    const name: string
    var inbox: seq<M>
    var stops: nat      // values in stopCh, which has room for one

    constructor (name: string)
      ensures this.name == name && inbox == [] && stops == 0
    {
      this.name := name;
      inbox := [];
      stops := 0;
    }
  }

  class UiChannel<B(!new), M(!new)> {
    const codec: Codec<B, M>
    var services: map<string, Service<M>>
    var toClients: seq<B>      // history: envelopes put in the clients' Out by registrations

    /** Every service is filed under its own type and was not told to stop. */
    ghost predicate Valid()
      reads this, services.Values
    {
      forall t :: t in services ==> services[t].name == t && services[t].stops == 0
    }

    constructor (codec: Codec<B, M>)
      ensures Valid() && services == map[] && toClients == [] && this.codec == codec
    {
      this.codec := codec;
      services, toClients := map[], [];
    }

    /** RegisterWithMsgInitializer; None stands for its panic on a duplicate. `hellos` is what the hello
        function writes, None for what does not marshal: it is sent to all clients before the table is
        looked at, so even by a registration that is then refused. */
    method Register(t: string, hellos: seq<Option<B>>) returns (r: Option<Service<M>>)
      requires Valid()
      modifies this
      ensures Valid()
      ensures r.None? <==> t in old(services)
      ensures r.None? ==> services == old(services)
      ensures r.Some? ==> fresh(r.value) && services == old(services)[t := r.value] && r.value.inbox == []
      ensures toClients == old(toClients) + Marshalled(hellos)
    {
      for k := 0 to |hellos|
        invariant Valid() && services == old(services)
        invariant toClients == old(toClients) + Marshalled(hellos[..k])
      {
        assert hellos[..k + 1][..k] == hellos[..k];
        if hellos[k].Some? {
          toClients := toClients + [hellos[k].value];
        }
      }
      assert hellos[..|hellos|] == hellos;
      if t in services {
        return None;
      }
      var s := new Service(t);
      services := services[t := s];
      return Some(s);
    }

    // Unregister: the send on stopCh always finds room, so it never blocks
    method Unregister(t: string)
      requires Valid()
      modifies this, services.Values
      ensures Valid()
      ensures services == old(services) - {t} && toClients == old(toClients)
      ensures t in old(services) ==> old(services)[t].stops == 1
      ensures forall n :: n in services ==> services[n].inbox == old(services[n].inbox)
    {
      if t in services {
        assert services[t].stops < 1;
        services[t].stops := services[t].stops + 1;
        services := services - {t};
      }
    }

    /** Each service gets exactly its own well-formed frames, decoded and in order; everything else
        is counted as rejected and reaches nobody. */
    method ReadLoop(frames: seq<B>) returns (rejected: nat)
      requires Valid()
      modifies services.Values
      ensures Valid() && services == old(services)
      ensures forall t :: t in services ==>
        services[t].inbox == old(services[t].inbox) + For(t, frames, services.Keys, codec)
      ensures rejected == Rejected(frames, services.Keys, codec)
    {
      rejected := 0;
      for k := 0 to |frames|
        invariant Valid()
        invariant forall t :: t in services ==>
          services[t].inbox == old(services[t].inbox) + For(t, frames[..k], services.Keys, codec)
        invariant rejected == Rejected(frames[..k], services.Keys, codec)
      {
        OneMoreFrame(frames, k, services.Keys, codec);
        var delivered := Dispatch(frames[k]);
        if !delivered {
          rejected := rejected + 1;
        }
      }
      assert frames[..|frames|] == frames;
    }

    // one turn of the loop; false for each continue
    method Dispatch(b: B) returns (delivered: bool)
      requires Valid()
      modifies services.Values
      ensures Valid() && delivered == Target(b, services.Keys, codec).Some?
      ensures forall t :: t in services && IsFor(b, t, codec) ==>
        delivered && services[t].inbox == old(services[t].inbox) + [codec.decode(t, b).value]
      ensures forall t :: t in services && !IsFor(b, t, codec) ==> services[t].inbox == old(services[t].inbox)
      ensures (forall t :: t in services ==> !IsFor(b, t, codec)) ==> !delivered
      ensures forall t :: t in services ==>
        services[t].inbox == old(services[t].inbox) +
          if Target(b, services.Keys, codec) == Some(t) then [codec.decode(t, b).value] else []
    {
      var kind := codec.typeOf(b);
      if kind.None? || kind.value !in services {
        return false;
      }
      var service := services[kind.value];
      var message := codec.decode(kind.value, b);
      if message.None? {
        return false;
      }
      assert forall t :: t in services && t != kind.value ==> services[t] != service;
      service.inbox := service.inbox + [message.value];
      return true;
    }
  }

  /** Frame `b` announces type `t` and decodes as a message of it. */
  predicate IsFor<B, M>(b: B, t: string, codec: Codec<B, M>) {
    codec.typeOf(b) == Some(t) && codec.decode(t, b).Some?
  }

  lemma OneMoreFrame<B, M>(frames: seq<B>, k: nat, names: set<string>, codec: Codec<B, M>)
    requires k < |frames|
    ensures forall t ::
      For(t, frames[..k + 1], names, codec) ==
      For(t, frames[..k], names, codec) +
        if Target(frames[k], names, codec) == Some(t) then [codec.decode(t, frames[k]).value] else []
    ensures Rejected(frames[..k + 1], names, codec) ==
      Rejected(frames[..k], names, codec) + if Target(frames[k], names, codec).None? then 1 else 0
  {
    assert frames[..k + 1][..k] == frames[..k];
  }

  // What the dispatch guarantees ///////////////////////////////////////////////////////////////

  /** What a registered service is delivered is said by increasing positions of the log, which are all the
      positions of frames for it: each such frame once, in order, and as its own decoded message. */
  lemma {:induction false} DeliveredExactly<B, M>(t: string, frames: seq<B>, names: set<string>, codec: Codec<B, M>)
    returns (at: seq<nat>)
    requires t in names
    ensures |at| == |For(t, frames, names, codec)|
    ensures forall k :: 0 <= k < |at| ==>
      at[k] < |frames| && IsFor(frames[at[k]], t, codec) &&
      For(t, frames, names, codec)[k] == codec.decode(t, frames[at[k]]).value
    ensures forall j, k :: 0 <= j < k < |at| ==> at[j] < at[k]
    ensures forall i :: 0 <= i < |frames| && IsFor(frames[i], t, codec) ==> i in at
  {
    at := [];
    if frames != [] {
      var n := |frames| - 1;
      var before := DeliveredExactly(t, frames[..n], names, codec);
      at := before;
      if IsFor(frames[n], t, codec) {
        at := before + [n];
        assert at[|before|] == n;
      }
      forall i | 0 <= i < |frames| && IsFor(frames[i], t, codec) ensures i in at {
        if i < n {
          assert IsFor(frames[..n][i], t, codec);
          var k :| 0 <= k < |before| && before[k] == i;
          assert at[k] == i;
        }
      }
    }
  }

  /** A frame is for nobody: it announces nothing, or a type that is not registered, or does not decode. */
  predicate ForNobody<B, M>(b: B, names: set<string>, codec: Codec<B, M>) {
    match codec.typeOf(b)
    case None => true
    case Some(t) => t !in names || codec.decode(t, b).None?
  }

  /** And what is rejected is counted exactly: one for each position of a frame for nobody. */
  lemma {:induction false} RejectedExactly<B, M>(frames: seq<B>, names: set<string>, codec: Codec<B, M>)
    ensures Rejected(frames, names, codec) == |set i | 0 <= i < |frames| && ForNobody(frames[i], names, codec)|
  {
    if frames != [] {
      var n := |frames| - 1;
      RejectedExactly(frames[..n], names, codec);
      var before := set i | 0 <= i < n && ForNobody(frames[..n][i], names, codec);
      var all := set i | 0 <= i < |frames| && ForNobody(frames[i], names, codec);
      assert all == before + if ForNobody(frames[n], names, codec) then {n} else {};
    }
  }

  ghost function Total<B, M>(ts: set<string>, frames: seq<B>, names: set<string>, codec: Codec<B, M>): nat {
    if ts == {} then 0
    else
      var t :| t in ts;
      |For(t, frames, names, codec)| + Total(ts - {t}, frames, names, codec)
  }

  lemma {:induction false} TotalTakesAny<B, M>(ts: set<string>, t: string, frames: seq<B>, names: set<string>,
    codec: Codec<B, M>)
    requires t in ts
    ensures Total(ts, frames, names, codec) == |For(t, frames, names, codec)| + Total(ts - {t}, frames, names, codec)
    decreases ts
  {
    var u :| u in ts && Total(ts, frames, names, codec) ==
      |For(u, frames, names, codec)| + Total(ts - {u}, frames, names, codec);
    if u != t {
      TotalTakesAny(ts - {u}, t, frames, names, codec);
      TotalTakesAny(ts - {t}, u, frames, names, codec);
      assert ts - {u} - {t} == ts - {t} - {u};
    }
  }

  lemma {:induction false} TotalOfNone<B, M>(ts: set<string>, names: set<string>, codec: Codec<B, M>)
    ensures Total(ts, [], names, codec) == 0
  {
    if ts != {} {
      var t :| t in ts;
      TotalTakesAny(ts, t, [], names, codec);
      TotalOfNone(ts - {t}, names, codec);
    }
  }

  lemma {:induction false} TotalOfOneMore<B, M>(ts: set<string>, frames: seq<B>, b: B, names: set<string>,
    codec: Codec<B, M>)
    ensures Total(ts, frames + [b], names, codec) ==
      Total(ts, frames, names, codec) +
      (if Target(b, names, codec).Some? && Target(b, names, codec).value in ts then 1 else 0)
  {
    if ts != {} {
      assert (frames + [b])[..|frames|] == frames;
      var t :| t in ts;
      TotalTakesAny(ts, t, frames, names, codec);
      TotalTakesAny(ts, t, frames + [b], names, codec);
      TotalOfOneMore(ts - {t}, frames, b, names, codec);
    }
  }

  /** Delivered plus rejected is received. */
  lemma {:induction false} NothingLost<B, M>(frames: seq<B>, names: set<string>, codec: Codec<B, M>)
    ensures Total(names, frames, names, codec) + Rejected(frames, names, codec) == |frames|
  {
    if frames == [] {
      TotalOfNone(names, names, codec);
    } else {
      var init, last := frames[..|frames| - 1], frames[|frames| - 1];
      NothingLost(init, names, codec);
      assert init + [last] == frames;
      TotalOfOneMore(names, init, last, names, codec);
    }
  }

  /** A frame that is malformed, unknown or for somebody else changes nothing for service `t`,
      wherever it stands in the log. */
  lemma {:induction false} OthersDoNotInterfere<B, M>(
    t: string, before: seq<B>, b: B, after: seq<B>, names: set<string>, codec: Codec<B, M>)
    requires Target(b, names, codec) != Some(t)
    ensures For(t, before + [b] + after, names, codec) == For(t, before + after, names, codec)
    decreases |after|
  {
    if after == [] {
      assert before + [b] + after == before + [b] && before + after == before;
      assert (before + [b])[..|before|] == before;
    } else {
      var init := after[..|after| - 1];
      assert (before + [b] + after)[..|before| + |after|] == before + [b] + init;
      assert (before + after)[..|before| + |init|] == before + init;
      OthersDoNotInterfere(t, before, b, init, names, codec);
    }
  }
}
