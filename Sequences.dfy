/** Small facts about sequences that the event-log proofs use. */
module Sequences {

  /** Appending is associative; the event logs are built by repeated appends. */
  lemma AppendIsAssociative<T>(a: seq<T>, b: seq<T>, c: seq<T>)
    ensures a + b + c == a + (b + c)
  {
  }
}
