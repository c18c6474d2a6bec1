/** Types shared by every component of the model. */
module Prelude {

  datatype Option<+T> = None | Some(value: T)

  datatype Result<+T, +E> = Ok(value: T) | Err(error: E)

  /** A point in time of the monotonic clock, or a length of time. */
  type Instant = nat

  type Duration = nat

  const U32_MAX: nat := 0xFFFF_FFFF

  const U64_MAX: nat := 0xFFFF_FFFF_FFFF_FFFF

  function Min(a: nat, b: nat): nat {
    if a <= b then a else b
  }
}

/** What has happened so far, newest last: `Then(h, x)` is `h` followed by `x`. */
module Histories {

  datatype History<T> = Start | Then(before: History<T>, last: T)

  predicate Has<T(==)>(h: History<T>, x: T) {
    h.Then? && (h.last == x || Has(h.before, x))
  }

  predicate Prefix<T(==)>(p: History<T>, h: History<T>) {
    p == h || (h.Then? && Prefix(p, h.before))
  }

  lemma {:induction false} PrefixTrans<T>(a: History<T>, b: History<T>, c: History<T>)
    requires Prefix(a, b) && Prefix(b, c)
    ensures Prefix(a, c)
    decreases c
  {
    if b != c { PrefixTrans(a, b, c.before); }
  }

  lemma {:induction false} HasInside<T>(p: History<T>, h: History<T>, x: T)
    requires Prefix(p, h) && Has(p, x)
    ensures Has(h, x)
    decreases h
  {
    if p != h { HasInside(p, h.before, x); }
  }
}

/** Runs of a state machine given by what a step leads to, if it is possible. */
module Machines {
  import opened Prelude
  import opened Histories

  /** `s'` is reached from `s` by the interleaving `steps`. */
  predicate Run<S(==), A>(next: (S, A) -> Option<S>, s: S, steps: seq<A>, s': S)
    decreases |steps|
  {
    if steps == [] then s' == s
    else next(s, steps[0]).Some? && Run(next, next(s, steps[0]).value, steps[1..], s')
  }

  lemma RunFrom<S, A>(next: (S, A) -> Option<S>, s: S, step: A, rest: seq<A>, s': S)
    requires next(s, step).Some? && Run(next, next(s, step).value, rest, s')
    ensures Run(next, s, [step] + rest, s')
  {
    assert ([step] + rest)[1..] == rest;
  }

  /** The state after a schedule of which every step is taken that is possible when its turn comes. */
  function Followed<S, A>(next: (S, A) -> Option<S>, s: S, schedule: seq<A>): S {
    if schedule == [] then s
    else
      var n := |schedule| - 1;
      var s' := Followed(next, s, schedule[..n]);
      if next(s', schedule[n]).Some? then next(s', schedule[n]).value else s'
  }

  lemma {:induction false} RunThenStep<S, A>(next: (S, A) -> Option<S>, s: S, steps: seq<A>, s': S, step: A)
    requires Run(next, s, steps, s') && next(s', step).Some?
    ensures Run(next, s, steps + [step], next(s', step).value)
    decreases |steps|
  {
    if steps == [] {
      assert Run(next, next(s, step).value, [], next(s, step).value);
    } else {
      RunThenStep(next, next(s, steps[0]).value, steps[1..], s', step);
      assert (steps + [step])[1..] == steps[1..] + [step];
    }
  }

  /** What every step keeps, every run keeps. */
  lemma {:induction false} RunKeeps<S(!new), A(!new)>(
    next: (S, A) -> Option<S>, inv: S -> bool, s: S, steps: seq<A>, s': S)
    requires forall x, a :: inv(x) && next(x, a).Some? ==> inv(next(x, a).value)
    requires inv(s) && Run(next, s, steps, s')
    ensures inv(s')
    decreases |steps|
  {
    if steps != [] { RunKeeps(next, inv, next(s, steps[0]).value, steps[1..], s'); }
  }

  /** What the steps taken so far lead to from `s`, if each was possible. */
  function After<S, A>(next: (S, A) -> Option<S>, s: S, h: History<A>): Option<S> {
    if h.Start? then Some(s)
    else
      var before := After(next, s, h.before);
      if before.None? then None else next(before.value, h.last)
  }

  /** A run, taken step after step. */
  lemma {:induction false} RunHasHistory<S, A>(
    next: (S, A) -> Option<S>, s0: S, h: History<A>, s: S, steps: seq<A>, s': S) returns (h': History<A>)
    requires After(next, s0, h) == Some(s) && Run(next, s, steps, s')
    ensures After(next, s0, h') == Some(s')
    decreases |steps|
  {
    if steps == [] {
      h' := h;
    } else {
      h' := RunHasHistory(next, s0, Then(h, steps[0]), next(s, steps[0]).value, steps[1..], s');
    }
  }

  /** A schedule is followed from its first step to its last, each taken if it is possible. */
  lemma FollowedInTurn<S, A>(next: (S, A) -> Option<S>, s: S, schedule: seq<A>, step: A)
    ensures Followed(next, s, []) == s
    ensures var s' := Followed(next, s, schedule);
            Followed(next, s, schedule + [step]) == if next(s', step).Some? then next(s', step).value else s'
  {
    assert (schedule + [step])[..|schedule|] == schedule;
  }
}
