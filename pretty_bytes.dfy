/** `prettyBytes`: a byte count as text with a binary unit.  Only the integer
    part of the decision is modelled: the `< 1024` branch and the choice of
    unit.  The scaled, three-significant-digit mantissa is floating point and
    is passed in as text. */
module PrettyBytes {
  import opened Js

  const Units: seq<string> := ["B", "KB", "MB", "GB", "TB", "PB", "EB", "ZB", "YB"]

  function Pow1024(e: nat): (p: nat)
    ensures p >= 1
  {
    if e == 0 then 1 else 1024 * Pow1024(e - 1)
  }

  /** `floor(log_1024 n)` for a positive integer, computed over integers. */
  function FloorLog1024(n: nat): (e: nat)
    requires n >= 1
    ensures Pow1024(e) <= n < Pow1024(e + 1)
  {
    if n < 1024 then 0
    else
      var e := FloorLog1024(n / 1024);
      assert Pow1024(e) * 1024 <= n < Pow1024(e + 1) * 1024;
      e + 1
  }

  /** The exponent of the unit: the floor of the logarithm of `n` to base
      1024, capped at the last unit, that is the largest exponent at most 8
      whose power of 1024 does not exceed `n`. */
  function Exponent(n: int): (e: nat)
    requires n >= 1024
    ensures 1 <= e < |Units|
    ensures Pow1024(e) <= n
    ensures e < |Units| - 1 ==> n < Pow1024(e + 1)
  {
    var e := FloorLog1024(n);
    if e < |Units| - 1 then e
    else
      MonotonePow(|Units| - 1, e);
      |Units| - 1
  }

  lemma {:induction false} MonotonePow(a: nat, b: nat)
    requires a <= b
    ensures Pow1024(a) <= Pow1024(b)
  {
    if a < b {
      MonotonePow(a, b - 1);
    }
  }

  /** No larger exponent up to the cap would also fit: `Exponent` is the
      maximum. */
  lemma ExponentIsLargest(n: int, e': nat)
    requires n >= 1024
    requires Exponent(n) < e' < |Units|
    ensures Pow1024(e') > n
  {
    MonotonePow(Exponent(n) + 1, e');
  }

  /** The unit printed for `n`. */
  function UnitFor(n: int): (u: string)
    ensures u in Units
    ensures n < 1024 <==> u == "B"
  {
    if n < 1024 then Units[0] else Units[Exponent(n)]
  }

  /** `prettyBytes(n)`, with `scaled` the text of `n` divided by the unit's
      power of 1024 and rounded to three significant digits. */
  function PrettyBytes(n: int, scaled: string): (r: string)
    ensures n < 1024 ==> r == IntToString(n) + " B"
    ensures n >= 1024 ==> r == scaled + " " + UnitFor(n)
    ensures |r| >= 2 && r[|r| - |UnitFor(n)| - 1..] == " " + UnitFor(n)
  {
    var number := if n < 1024 then IntToString(n) else scaled;
    var r := number + " " + UnitFor(n);
    assert r[|r| - |UnitFor(n)| - 1..] == " " + UnitFor(n);
    r
  }

  /** Below 1024 the number is printed as it is, in bytes; from 1024 on it is
      never shown in bytes and never past yottabytes. */
  lemma UnitBoundaries()
    ensures UnitFor(1023) == "B"
    ensures UnitFor(1024) == "KB"
    ensures UnitFor(1024 * 1024 - 1) == "KB"
    ensures UnitFor(1024 * 1024) == "MB"
  {
    assert Pow1024(2) == 1024 * 1024;
    assert Exponent(1024) == 1;
    assert Exponent(1024 * 1024 - 1) == 1;
    assert Exponent(1024 * 1024) == 2 by {
      assert Pow1024(3) > 1024 * 1024;
    }
  }

  /** Counts beyond 1024^9 are still printed in `YB`. */
  lemma HugeCountsInYottabytes(n: int)
    requires n >= Pow1024(9)
    ensures UnitFor(n) == "YB"
  {
    MonotonePow(8, 9);
  }
}
