/** A machine that takes events until it chooses none, and what holds of the events it took. */
module Machines {
  import opened Options

  /** The machine after `events`, taken from the front. */
  function Fold<S, E>(step: (S, E) -> S, s: S, events: seq<E>): S
    decreases |events|
  {
    if events == [] then s else Fold(step, step(s, events[0]), events[1..])
  }

  /** Left to itself for at most `limit` events. */
  function Ending<S, E>(step: (S, E) -> S, next: S -> Option<E>, s: S, limit: nat): S {
    if limit == 0 || next(s).None? then s else Ending(step, next, step(s, next(s).value), limit - 1)
  }

  function Taken<S, E>(step: (S, E) -> S, next: S -> Option<E>, s: S, limit: nat): seq<E> {
    if limit == 0 || next(s).None? then []
    else [next(s).value] + Taken(step, next, step(s, next(s).value), limit - 1)
  }

  /** Every event meets `good` in the state it is taken in. */
  predicate Along<S, E>(step: (S, E) -> S, s: S, events: seq<E>, good: (S, E) -> bool)
    decreases |events|
  {
    events != [] ==> good(s, events[0]) && Along(step, step(s, events[0]), events[1..], good)
  }

  lemma {:induction false} TheEndingIsAFold<S, E>(step: (S, E) -> S, next: S -> Option<E>, s: S, limit: nat)
    ensures Ending(step, next, s, limit) == Fold(step, s, Taken(step, next, s, limit))
    decreases limit
  {
    if limit > 0 && next(s).Some? {
      var e := next(s).value;
      TheEndingIsAFold(step, next, step(s, e), limit - 1);
      assert ([e] + Taken(step, next, step(s, e), limit - 1))[1..] == Taken(step, next, step(s, e), limit - 1);
    }
  }

  lemma {:induction false} WhatIsChosenHoldsAlong<S, E>(step: (S, E) -> S, next: S -> Option<E>, s: S, limit: nat, good: (S, E) -> bool)
    requires forall v: S :: next(v).Some? ==> good(v, next(v).value)
    ensures Along(step, s, Taken(step, next, s, limit), good)
    decreases limit
  {
    if limit > 0 && next(s).Some? {
      var e := next(s).value;
      WhatIsChosenHoldsAlong(step, next, step(s, e), limit - 1, good);
      assert ([e] + Taken(step, next, step(s, e), limit - 1))[1..] == Taken(step, next, step(s, e), limit - 1);
    }
  }

  lemma {:induction false} WhatIsChosenIsTaken<S, E>(step: (S, E) -> S, next: S -> Option<E>, s: S, limit: nat, good: E -> bool)
    requires forall v: S :: next(v).Some? ==> good(next(v).value)
    ensures forall e :: e in Taken(step, next, s, limit) ==> good(e)
    decreases limit
  {
    if limit > 0 && next(s).Some? {
      WhatIsChosenIsTaken(step, next, step(s, next(s).value), limit - 1, good);
    }
  }
}
