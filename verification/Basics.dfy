/** Shared vocabulary: optional values and byte strings. */
module Basics {

  datatype Option<+T> = None | Some(value: T)

  /** A Go byte slice or byte string, one element for each byte. */
  type Bytes = seq<bv8>

  /** The bytes held by a queue of messages. */
  function Size(queue: seq<Bytes>): (r: nat) {
    if queue == [] then 0 else |queue[0]| + Size(queue[1..])
  }

  /** A queue and its byte counter after every queued message has been given back. */
  function Emptied(queue: seq<Bytes>, counter: int): (rest: (seq<Bytes>, int)) {
    ([], counter - Size(queue))
  }

  lemma {:induction false} SizeAppend(queue: seq<Bytes>, b: Bytes)
    ensures Size(queue + [b]) == Size(queue) + |b|
  {
    if queue == [] {
      assert (queue + [b])[1..] == [];
    } else {
      assert (queue + [b])[1..] == queue[1..] + [b];
      SizeAppend(queue[1..], b);
    }
  }
}
