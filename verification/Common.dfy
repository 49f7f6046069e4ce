/** What the other modules share: optional values, the states of a fiber, and a law of sequences. */
module Common {
  datatype Option<+T> = None | Some(value: T)

  /** `Fiber::State`. */
  datatype FState = INIT | HOLD | EXEC | TERM | READY | EXCEPT

  predicate Done(st: FState) { st == TERM || st == EXCEPT }

  lemma Associate<T>(a: seq<T>, b: seq<T>, c: seq<T>)
    ensures a + b + c == a + (b + c)
  {
  }
}
