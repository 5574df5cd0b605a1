/** Shared value types and the small arithmetic the timing arguments use. */
module Common {

  datatype Option<+T> = None | Some(value: T)

  /** What the connection did to one command: a client that gets no reply sees an exception. */
  datatype Wire = Answered | RequestLost | ReplyLost

  datatype Reply<+T> = Reply(value: T) | Raised

  function Min(a: int, b: int): int {
    if a < b then a else b
  }

  function Max(a: int, b: int): int {
    if a < b then b else a
  }

  function MinReal(a: real, b: real): real {
    if a < b then a else b
  }

  function MaxReal(a: real, b: real): real {
    if a < b then b else a
  }

  /** The least integer that is not below `x`. */
  function Ceil(x: real): (n: int)
    ensures (n - 1) as real < x <= n as real
  {
    -(-x).Floor
  }

  function Pow2(n: nat): (p: nat)
    ensures p >= 1
  {
    if n == 0 then 1 else 2 * Pow2(n - 1)
  }
}
