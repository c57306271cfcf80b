/** Option values. */
module Options {
  datatype Option<+T> = None | Some(value: T)
}

/** Bytes, and strings of them. */
module Octets {
  type byte = x: int | 0 <= x < 256

  type bytes = seq<byte>
}

/** Joining sequences. */
module Sequences {
  lemma Regroup<T>(a: seq<T>, b: seq<T>, c: seq<T>)
    ensures (a + b) + c == a + (b + c)
  {}
}

/** Integer division as C has it: the fraction is dropped. */
module Arithmetic {
  function Quotient(a: int, b: int): int
    requires b != 0
  {
    if a >= 0 then a / b else -(-a / b)
  }

  /** A remainder is known by its quotient. */
  lemma OnlyRemainder(x: int, n: nat, q: int, r: int)
    requires x == n * q + r && 0 <= r < n
    ensures x % n == r
  {
    var k, m := x / n, x % n;
    assert x == n * k + m;
    assert n * (q - k) == m - r;
    assert q - k >= 1 ==> n * (q - k) >= n;
    assert q - k <= -1 ==> n * (q - k) + n <= 0;
  }
}
