/** Shared vocabulary of the game: optional values, the completion event a level
    emits, and the integer form of the browser's rounding. */
module Common {

  datatype Option<+T> = None | Some(value: T)

  /** The one message a level sends to the progress aggregator: which level was
      finished and with what score. */
  datatype Completion = Completion(level: int, score: int)

  /** No element occurs twice. */
  predicate Distinct<T(==)>(s: seq<T>) {
    forall i, j :: 0 <= i < j < |s| ==> s[i] != s[j]
  }

  function Max(a: int, b: int): (r: int)
    ensures r >= a && r >= b
    ensures r == a || r == b
  {
    if a >= b then a else b
  }

  function Min(a: int, b: int): (r: int)
    ensures r <= a && r <= b
    ensures r == a || r == b
  {
    if a <= b then a else b
  }

  /** Math.round(n / d) for a positive divisor: the nearest integer to n/d, with
      halves rounded up (towards +infinity, as Math.round does for negatives too). */
  function RoundDiv(n: int, d: int): (r: int)
    requires d > 0
    ensures 2 * d * r <= 2 * n + d < 2 * d * (r + 1)
  {
    (2 * n + d) / (2 * d)
  }

  /** Math.round(n / d * 100): a ratio as a rounded percentage. */
  function Percent(n: int, d: int): (r: int)
    requires d > 0
    ensures 2 * d * r <= 200 * n + d < 2 * d * (r + 1)
  {
    RoundDiv(100 * n, d)
  }

  /** The rounded percentage of a part never exceeds 100 and is 100 for the whole. */
  lemma PercentBounds(n: int, d: int)
    requires d > 0 && 0 <= n
    ensures 0 <= Percent(n, d)
    ensures n <= d ==> Percent(n, d) <= 100
    ensures n == d ==> Percent(n, d) == 100
  {
    var r := Percent(n, d);
    CancelLess(2 * d, -1, r + 1);
    if n <= d {
      CancelLess(2 * d, r, 101);
    }
    if n == d {
      CancelLess(2 * d, 99, r + 1);
    }
  }

  /** Rounding a larger ratio never gives a smaller percentage. */
  lemma PercentMonotone(n: int, m: int, d: int)
    requires d > 0 && n <= m
    ensures Percent(n, d) <= Percent(m, d)
  {
    CancelLess(2 * d, Percent(n, d), Percent(m, d) + 1);
  }

  /** Cancelling a positive factor on both sides of a strict inequality. */
  lemma CancelLess(k: int, x: int, y: int)
    requires k > 0 && k * x < k * y
    ensures x < y
  {
    assert k * y - k * x == k * (y - x);
  }
}
