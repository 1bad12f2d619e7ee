/**
 Wall-clock time. Instants and durations are integers in nanoseconds; the program
 stores and compares whole Unix seconds, which are the floor of an instant.
 */
module Clock {

  const SECOND: int := 1_000_000_000

  /** The whole second an instant falls in. */
  function Unix(instant: int): int {
    instant / SECOND
  }

  /** Whole seconds never run backwards, and second s is over exactly at instant (s + 1) * SECOND. */
  lemma UnixBounds(t: int, u: int, s: int)
    ensures t <= u ==> Unix(t) <= Unix(u)
    ensures Unix(t) > s <==> t >= (s + 1) * SECOND
  {
  }
}
