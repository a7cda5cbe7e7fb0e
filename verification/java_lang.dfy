/** The few pieces of java.lang the parser relies on: Math.round, the (int)
    narrowing casts and String.trim. Java's integer widths are written out. */
module JavaLang {

  const INT_MIN: int := -0x8000_0000
  const INT_MAX: int := 0x7FFF_FFFF
  const LONG_MIN: int := -0x8000_0000_0000_0000
  const LONG_MAX: int := 0x7FFF_FFFF_FFFF_FFFF

  /** Math.round(double): floor(x + 1/2) saturated to the range of long. */
  function MathRound(x: real): int {
    var f := (x + 0.5).Floor;
    if f < LONG_MIN then LONG_MIN else if f > LONG_MAX then LONG_MAX else f
  }

  /** Math.round gives a long: the closest one to x, a tie going toward positive
      infinity, whenever x is within the range of long. */
  lemma MathRoundSpec(x: real)
    ensures LONG_MIN <= MathRound(x) <= LONG_MAX
    ensures LONG_MIN as real <= x + 0.5 < LONG_MAX as real + 1.0 ==>
              MathRound(x) as real - 0.5 <= x < MathRound(x) as real + 0.5
  {
  }

  /** The narrowing cast (int) from long, in two's complement. */
  function LongToInt(v: int): int {
    (v - INT_MIN) % 0x1_0000_0000 + INT_MIN
  }

  /** (int) keeps the low 32 bits: the result is an int congruent to v modulo
      2^32, and equal to v when v already fits in an int. */
  lemma LongToIntSpec(v: int)
    ensures INT_MIN <= LongToInt(v) <= INT_MAX
    ensures (v - LongToInt(v)) % 0x1_0000_0000 == 0
    ensures INT_MIN <= v <= INT_MAX ==> LongToInt(v) == v
  {
  }

  /** (int) Math.round(x), as the parser rounds a distance. */
  function RoundToInt(x: real): int {
    LongToInt(MathRound(x))
  }

  /** Within the range of int, (int) Math.round(x) is the nearest integer to x,
      a tie going up. */
  lemma RoundToIntIsNearest(x: real)
    requires INT_MIN as real <= x + 0.5 < INT_MAX as real + 1.0
    ensures RoundToInt(x) as real - 0.5 <= x < RoundToInt(x) as real + 0.5
  {
    MathRoundSpec(x);
    LongToIntSpec(MathRound(x));
  }

  /** The cast (int) from double, as Double.intValue does it. */
  function DoubleToInt(x: real): int {
    if x >= INT_MAX as real then INT_MAX
    else if x <= INT_MIN as real then INT_MIN
    else if x >= 0.0 then x.Floor
    else -((-x).Floor)
  }

  /** (int) on a double truncates toward zero and saturates at the bounds of int. */
  lemma DoubleToIntSpec(x: real)
    ensures INT_MIN <= DoubleToInt(x) <= INT_MAX
    ensures INT_MIN as real <= x <= INT_MAX as real ==>
              (0.0 <= x ==> DoubleToInt(x) as real <= x < DoubleToInt(x) as real + 1.0) &&
              (x < 0.0 ==> DoubleToInt(x) as real - 1.0 < x <= DoubleToInt(x) as real)
    ensures x >= INT_MAX as real ==> DoubleToInt(x) == INT_MAX
    ensures x <= INT_MIN as real ==> DoubleToInt(x) == INT_MIN
  {
  }

  /** String.trim treats every character up to U+0020 as removable. */
  predicate IsTrimmable(c: char) {
    c <= ' '
  }

  /** The leading removable characters of s cut off. */
  function TrimStart(s: string): string {
    if |s| > 0 && IsTrimmable(s[0]) then TrimStart(s[1..]) else s
  }

  /** The trailing removable characters of s cut off. */
  function TrimEnd(s: string): string {
    if |s| > 0 && IsTrimmable(s[|s| - 1]) then TrimEnd(s[..|s| - 1]) else s
  }

  /** TrimStart keeps a suffix of s, cuts off only removable characters and
      stops at the first one that is not. */
  lemma {:induction false} TrimStartSpec(s: string)
    ensures var r := TrimStart(s);
            |r| <= |s| && r == s[|s| - |r|..] &&
            (forall k :: 0 <= k < |s| - |r| ==> IsTrimmable(s[k])) &&
            (r == [] || !IsTrimmable(r[0]))
  {
    if |s| > 0 && IsTrimmable(s[0]) {
      TrimStartSpec(s[1..]);
    }
  }

  /** TrimEnd keeps a prefix of s, cuts off only removable characters and
      stops at the last one that is not. */
  lemma {:induction false} TrimEndSpec(s: string)
    ensures var r := TrimEnd(s);
            |r| <= |s| && r == s[..|r|] &&
            (forall k :: |r| <= k < |s| ==> IsTrimmable(s[k])) &&
            (r == [] || !IsTrimmable(r[|r| - 1]))
  {
    if |s| > 0 && IsTrimmable(s[|s| - 1]) {
      TrimEndSpec(s[..|s| - 1]);
    }
  }

  /** String.trim: removable characters cut off at both ends. */
  function Trim(s: string): string {
    TrimEnd(TrimStart(s))
  }

  /** Trim gives the middle slice of s that neither starts nor ends with a
      removable character; what it cuts off on either side is all removable. */
  lemma TrimSpec(s: string)
    ensures var r := Trim(s);
            (r == [] || (!IsTrimmable(r[0]) && !IsTrimmable(r[|r| - 1]))) &&
            exists i, j :: 0 <= i <= j <= |s| && r == s[i..j] &&
                           (forall k :: 0 <= k < i ==> IsTrimmable(s[k])) &&
                           (forall k :: j <= k < |s| ==> IsTrimmable(s[k]))
  {
    var t := TrimStart(s);
    TrimStartSpec(s);
    TrimEndSpec(t);
    var r := TrimEnd(t);
    var i := |s| - |t|;
    assert r == s[i..i + |r|];
    assert forall k :: i + |r| <= k < |s| ==> IsTrimmable(s[k]) by {
      forall k | i + |r| <= k < |s| ensures IsTrimmable(s[k]) { assert s[k] == t[k - i]; }
    }
  }
}
