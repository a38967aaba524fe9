/** The exponential backoff that the projection outbox and the job queue share. */
module Backoff {
  function Power2(n: nat): nat {
    if n == 0 then 1 else 2 * Power2(n - 1)
  }

  function Min(a: int, b: int): int {
    if a <= b then a else b
  }

  function RetryDelay(attempt: nat): nat {
    var exponent: nat := Min(attempt, 8);
    var seconds := Power2(exponent);
    if seconds <= 300 then seconds else 300
  }
}
