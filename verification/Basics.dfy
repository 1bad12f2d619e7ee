/** The conventional optional value. */
module Options {
  datatype Option<+T> = None | Some(value: T)
}

/** Settings and claims that fall back on something else when they are empty. */
module Fallback {

  /** The first of two texts that is not empty. */
  function Or(s: string, fallback: string): string {
    if s != "" then s else fallback
  }
}

/** Eight-bit bytes. */
module Octets {
  type Byte = b: int | 0 <= b < 256
}

/** Runs of a step machine: sequences of states in which each follows from the one before. */
module Traces {

  function Last<S>(tr: seq<S>): S
    requires |tr| > 0
  {
    tr[|tr| - 1]
  }

  ghost predicate Chain<S(!new)>(next: (S, S) -> bool, tr: seq<S>) {
    |tr| > 0 && forall i :: 0 <= i < |tr| - 1 ==> next(tr[i], tr[i + 1])
  }

  lemma Extend<S(!new)>(next: (S, S) -> bool, tr: seq<S>, t: S)
    requires Chain(next, tr) && next(Last(tr), t)
    ensures Chain(next, tr + [t]) && (tr + [t])[0] == tr[0] && Last(tr + [t]) == t
  {
    Join(next, tr, [t]);
  }

  lemma Join<S(!new)>(next: (S, S) -> bool, tr: seq<S>, rest: seq<S>)
    requires Chain(next, tr) && Chain(next, rest) && next(Last(tr), rest[0])
    ensures Chain(next, tr + rest) && (tr + rest)[0] == tr[0] && Last(tr + rest) == Last(rest)
  {
    var all := tr + rest;
    forall i | 0 <= i < |all| - 1 ensures next(all[i], all[i + 1]) {
      if i < |tr| - 1 {
        assert next(tr[i], tr[i + 1]);
      } else if i > |tr| - 1 {
        assert next(rest[i - |tr|], rest[i - |tr| + 1]);
      }
    }
  }

  /** The step into state i. */
  lemma StepInto<S(!new)>(next: (S, S) -> bool, tr: seq<S>, i: nat)
    requires Chain(next, tr) && 0 < i < |tr|
    ensures next(tr[i - 1], tr[i])
  {
    assert next(tr[i - 1], tr[i - 1 + 1]);
  }

  /** A run of one kind of step is a run of any more liberal kind. */
  lemma Relax<S(!new)>(next: (S, S) -> bool, liberal: (S, S) -> bool, tr: seq<S>)
    requires Chain(next, tr) && forall s, t :: next(s, t) ==> liberal(s, t)
    ensures Chain(liberal, tr)
  {
    forall i | 0 <= i < |tr| - 1 ensures liberal(tr[i], tr[i + 1]) {
      assert next(tr[i], tr[i + 1]);
    }
  }
}
