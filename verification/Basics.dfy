/** Small value types shared by every model. */
module Basics {
  datatype Option<+T> = None | Some(value: T)

  /** 1 when `b` holds, 0 otherwise: lets "exactly one of" be written as a sum. */
  function Count(b: bool): nat { if b then 1 else 0 }

  lemma Associative<T>(a: seq<T>, b: seq<T>, c: seq<T>)
    ensures a + b + c == a + (b + c)
  {
  }

  lemma NothingMore<T>(a: seq<T>)
    ensures a + [] == a && [] + a == a
  {
  }

  const U64_MAX: nat := 0xFFFF_FFFF_FFFF_FFFF

  /** Commands a client connection's queue holds. */
  const CONNECTION_QUEUE: nat := 64
}
