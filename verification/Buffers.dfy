/** The buffered channel through which a subscriber is sent notifications. */
module Buffers {
  const CAPACITY := 16

  // A send that would block is dropped.
  function Push<M>(buffer: seq<M>, m: M): (r: seq<M>)
    ensures |buffer| <= CAPACITY ==> |r| <= CAPACITY
  {
    if |buffer| < CAPACITY then buffer + [m] else buffer
  }
}
