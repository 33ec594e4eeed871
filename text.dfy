/** The string operations the service relies on: `toLowerCase`, `indexOf`
    and the numeric coercion `+s` of a string. */
module Text {
  import opened Values

  function LowerChar(c: char): char {
    if 'A' <= c <= 'Z' then (c as int + 32) as char else c
  }

  /** `s.toLowerCase()`, character by character. */
  function LowerCase(s: string): (r: string)
    ensures |r| == |s|
    ensures forall i :: 0 <= i < |r| ==> !('A' <= r[i] <= 'Z')
    ensures forall i :: 0 <= i < |s| && !('A' <= s[i] <= 'Z') ==> r[i] == s[i]
    ensures forall i :: 0 <= i < |s| && 'A' <= s[i] <= 'Z' ==> r[i] == (s[i] as int + 32) as char
  {
    seq(|s|, i requires 0 <= i < |s| => LowerChar(s[i]))
  }

  /** Lower-casing commutes with taking a slice. */
  lemma LowerCaseSlice(s: string, i: int, j: int)
    requires 0 <= i <= j <= |s|
    ensures LowerCase(s)[i..j] == LowerCase(s[i..j])
  {
  }

  predicate OccursAt(s: string, sub: string, i: int) {
    0 <= i && i + |sub| <= |s| && s[i..i + |sub|] == sub
  }

  ghost predicate Occurs(s: string, sub: string) {
    exists i :: OccursAt(s, sub, i)
  }

  /** `s.indexOf(sub, from)`: the first position at or after `from` where
      `sub` occurs, or -1. */
  function IndexFrom(s: string, sub: string, from: nat): (r: int)
    ensures r == -1 || (from <= r && OccursAt(s, sub, r))
    ensures r == -1 ==> forall j :: from <= j ==> !OccursAt(s, sub, j)
    ensures r != -1 ==> forall j :: from <= j < r ==> !OccursAt(s, sub, j)
    decreases |s| - from
  {
    if from + |sub| > |s| then -1
    else if s[from..from + |sub|] == sub then from
    else IndexFrom(s, sub, from + 1)
  }

  function IndexOf(s: string, sub: string): (r: int)
    ensures r >= 0 <==> Occurs(s, sub)
    ensures r >= 0 ==> OccursAt(s, sub, r) && forall j :: 0 <= j < r ==> !OccursAt(s, sub, j)
  {
    IndexFrom(s, sub, 0)
  }

  /** `sub` occurs in `s` at `i` when case is ignored. */
  predicate OccursAtIgnoringCase(s: string, sub: string, i: int) {
    0 <= i && i + |sub| <= |s| && LowerCase(s[i..i + |sub|]) == sub
  }

  /** A match anywhere in `s` is reported once `s` is lower-cased, whatever
      the case of the matched characters. */
  lemma LowerCaseFinds(s: string, sub: string, i: int)
    requires OccursAtIgnoringCase(s, sub, i)
    ensures IndexOf(LowerCase(s), sub) >= 0
  {
    LowerCaseSlice(s, i, i + |sub|);
    assert OccursAt(LowerCase(s), sub, i);
  }

  /** Conversely, what `indexOf` finds in the lower-cased string is a match
      of `sub`, ignoring case, at that position of the original. */
  lemma LowerCaseFindsOnly(s: string, sub: string)
    requires IndexOf(LowerCase(s), sub) >= 0
    ensures OccursAtIgnoringCase(s, sub, IndexOf(LowerCase(s), sub))
  {
    var i := IndexOf(LowerCase(s), sub);
    LowerCaseSlice(s, i, i + |sub|);
  }

  predicate IsDigit(c: char) {
    '0' <= c <= '9'
  }

  predicate AllDigits(s: string) {
    forall i :: 0 <= i < |s| ==> IsDigit(s[i])
  }

  function DecimalValue(s: string): nat
    requires AllDigits(s)
  {
    if s == [] then 0 else 10 * DecimalValue(s[..|s| - 1]) + (s[|s| - 1] as int - '0' as int)
  }

  /** `+s` for a string: `''` is 0, a string of decimal digits is its value,
      and every other string reads as NaN. */
  function ToNumber(s: string): (r: Number)
    ensures r.Num? <==> AllDigits(s)
    ensures r.Num? ==> r.value >= 0
  {
    if AllDigits(s) then Num(DecimalValue(s)) else NaN
  }

  /** The decimal rendering of `n`, without leading zeros. */
  function DecimalString(n: nat): (r: string)
    ensures r != [] && AllDigits(r)
  {
    if n < 10 then [('0' as int + n) as char]
    else DecimalString(n / 10) + [('0' as int + n % 10) as char]
  }

  /** Every count of milliseconds written out in decimal reads back as itself. */
  lemma {:induction false} ToNumberDecimalString(n: nat)
    ensures ToNumber(DecimalString(n)) == Num(n)
  {
    var s := DecimalString(n);
    if n >= 10 {
      ToNumberDecimalString(n / 10);
      assert s[..|s| - 1] == DecimalString(n / 10);
      assert DecimalValue(s) == 10 * (n / 10) + n % 10;
    } else {
      assert s[..|s| - 1] == [];
    }
  }
}
