/** Shared vocabulary: optional values, subsequences, and runs of a state machine. */
module Common {

  datatype Option<+T> = None | Some(value: T)

  /** The elements of `a` stand in `b` at the increasing positions `at`. */
  ghost predicate Embeds<T>(a: seq<T>, b: seq<T>, at: seq<nat>) {
    && |at| == |a|
    && (forall i :: 0 <= i < |a| ==> at[i] < |b| && b[at[i]] == a[i])
    && (forall i, j :: 0 <= i < j < |at| ==> at[i] < at[j])
  }

  /** `a` can be obtained from `b` by deleting elements; order is kept. */
  ghost predicate Subsequence<T>(a: seq<T>, b: seq<T>) {
    exists at :: Embeds(a, b, at)
  }

  /** A run: `acts` leads from `s` to `t`, each step allowed by `next`. */
  ghost predicate Run<S(!new), A>(next: (S, A, S) -> bool, s: S, acts: seq<A>, t: S)
    decreases |acts|
  {
    if acts == [] then s == t
    else exists m :: next(s, acts[0], m) && Run(next, m, acts[1..], t)
  }

  /** What holds at the start and is kept by every step holds after every run. */
  lemma {:induction false} RunKeeps<S(!new), A(!new)>(
    next: (S, A, S) -> bool, inv: S -> bool, s: S, acts: seq<A>, t: S)
    requires inv(s)
    requires forall x, a, y :: inv(x) && next(x, a, y) ==> inv(y)
    requires Run(next, s, acts, t)
    ensures inv(t)
    decreases |acts|
  {
    if acts != [] {
      var m :| next(s, acts[0], m) && Run(next, m, acts[1..], t);
      RunKeeps(next, inv, m, acts[1..], t);
    }
  }

  lemma RunFirst<S(!new), A(!new)>(
    next: (S, A, S) -> bool, s: S, a: A, m: S, acts: seq<A>, t: S, all: seq<A>)
    requires next(s, a, m) && Run(next, m, acts, t)
    requires all == [a] + acts
    ensures Run(next, s, all, t)
  {
    assert all[1..] == acts;
  }

  lemma {:induction false} RunThen<S(!new), A(!new)>(
    next: (S, A, S) -> bool, s: S, acts: seq<A>, m: S, more: seq<A>, t: S)
    requires Run(next, s, acts, m) && Run(next, m, more, t)
    ensures Run(next, s, acts + more, t)
    decreases |acts|
  {
    if acts == [] {
      assert acts + more == more;
    } else {
      var x :| next(s, acts[0], x) && Run(next, x, acts[1..], m);
      RunThen(next, x, acts[1..], m, more, t);
      RunFirst(next, s, acts[0], x, acts[1..] + more, t, acts + more);
    }
  }

  lemma RunLast<S(!new), A(!new)>(next: (S, A, S) -> bool, s: S, acts: seq<A>, m: S, a: A, t: S)
    requires Run(next, s, acts, m) && next(m, a, t)
    ensures Run(next, s, acts + [a], t)
  {
    RunFirst(next, m, a, t, [], t, [a]);
    RunThen(next, s, acts, m, [a], t);
  }

  lemma TwoSteps<S(!new), A(!new)>(next: (S, A, S) -> bool, s: S, a: A, m: S, b: A, t: S) returns (acts: seq<A>)
    requires next(s, a, m) && next(m, b, t)
    ensures Run(next, s, acts, t) && acts == [a, b]
  {
    acts := [a, b];
    RunFirst(next, m, b, t, [], t, [b]);
    RunFirst(next, s, a, m, [b], t, acts);
  }

  /** A non-empty run is a run followed by a last step. */
  lemma {:induction false} RunBeforeLast<S(!new), A(!new)>(next: (S, A, S) -> bool, s: S, acts: seq<A>, t: S)
    returns (m: S)
    requires Run(next, s, acts, t) && acts != []
    ensures Run(next, s, acts[..|acts| - 1], m) && next(m, acts[|acts| - 1], t)
    decreases |acts|
  {
    var x :| next(s, acts[0], x) && Run(next, x, acts[1..], t);
    if |acts| == 1 {
      m := s;
    } else {
      m := RunBeforeLast(next, x, acts[1..], t);
      var most := acts[1..][..|acts| - 2];
      RunFirst(next, s, acts[0], x, most, m, acts[..|acts| - 1]);
    }
  }

  /** Some run leads from `s` to `t`. */
  ghost predicate Leads<S(!new), A(!new)>(next: (S, A, S) -> bool, s: S, t: S) {
    exists acts :: Run(next, s, acts, t)
  }

  lemma LeadsStart<S(!new), A(!new)>(next: (S, A, S) -> bool, s: S)
    ensures Leads(next, s, s)
  {
    assert Run(next, s, [], s);
  }

  lemma LeadsStep<S(!new), A(!new)>(next: (S, A, S) -> bool, s: S, m: S, a: A, t: S)
    requires Leads(next, s, m) && next(m, a, t)
    ensures Leads(next, s, t)
  {
    var acts :| Run(next, s, acts, m);
    RunLast(next, s, acts, m, a, t);
  }

  lemma LeadsThen<S(!new), A(!new)>(next: (S, A, S) -> bool, s: S, m: S, t: S)
    requires Leads(next, s, m) && Leads(next, m, t)
    ensures Leads(next, s, t)
  {
    var acts :| Run(next, s, acts, m);
    var more :| Run(next, m, more, t);
    RunThen(next, s, acts, m, more, t);
  }

  // Adding up what the elements of a sequence weigh //////////////////////////////////////////////////

  function Sum<T>(xs: seq<T>, weight: T -> nat): nat {
    if xs == [] then 0 else Sum(xs[..|xs| - 1], weight) + weight(xs[|xs| - 1])
  }

  lemma {:induction false} SumUpdate<T>(xs: seq<T>, weight: T -> nat, i: nat, x: T)
    requires i < |xs|
    ensures Sum(xs[i := x], weight) + weight(xs[i]) == Sum(xs, weight) + weight(x)
    ensures weight(xs[i]) <= Sum(xs, weight)
    decreases |xs|
  {
    var init := xs[..|xs| - 1];
    if i == |xs| - 1 {
      assert xs[i := x][..|xs| - 1] == init;
    } else {
      assert xs[i := x][..|xs| - 1] == init[i := x];
      SumUpdate(init, weight, i, x);
    }
  }
}
