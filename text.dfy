/** Text helpers the record store relies on: Java's `String.equalsIgnoreCase`,
    restricted to ASCII letters, and the decimal rendering Java applies when an
    `int` is concatenated to a string. */
module Text {

  /** Maps an ASCII upper-case letter to its lower-case form; every other
      character is kept as it is. */
  function FoldCase(c: char): (r: char)
    ensures 'A' <= c <= 'Z' ==> r == "abcdefghijklmnopqrstuvwxyz"[c as int - 'A' as int]
    ensures !('A' <= c <= 'Z') ==> r == c
    ensures !('A' <= r <= 'Z')
  {
    if 'A' <= c <= 'Z' then (c as int - 'A' as int + 'a' as int) as char else c
  }

  /** Case-insensitive string equality: same length, and the characters at each
      position agree once folded. */
  predicate EqualsIgnoreCase(a: string, b: string): (r: bool)
    ensures r ==> |a| == |b|
  {
    |a| == |b| && forall i | 0 <= i < |a| :: FoldCase(a[i]) == FoldCase(b[i])
  }

  /** The string with every character folded. */
  function Lowered(s: string): (r: string)
    ensures |r| == |s|
  {
    if s == [] then [] else [FoldCase(s[0])] + Lowered(s[1..])
  }

  lemma {:induction false} LoweredAt(s: string, i: nat)
    requires i < |s|
    ensures Lowered(s)[i] == FoldCase(s[i])
  {
    if i > 0 {
      LoweredAt(s[1..], i - 1);
    }
  }

  /** Every string matches its all-lower-case form, in either order: folding
      only changes the case of ASCII letters. */
  lemma MatchesLoweredForm(a: string)
    ensures EqualsIgnoreCase(a, Lowered(a)) && EqualsIgnoreCase(Lowered(a), a)
  {
    forall i | 0 <= i < |a|
      ensures FoldCase(Lowered(a)[i]) == FoldCase(a[i])
    {
      LoweredAt(a, i);
    }
  }

  /** Two strings are equal ignoring case exactly when their folded forms are
      equal, so the relation is reflexive, symmetric and transitive. */
  lemma EqualsIgnoreCaseIffSameLowered(a: string, b: string)
    ensures EqualsIgnoreCase(a, b) <==> Lowered(a) == Lowered(b)
  {
    if |a| == |b| {
      forall i | 0 <= i < |a|
        ensures Lowered(a)[i] == FoldCase(a[i]) && Lowered(b)[i] == FoldCase(b[i])
      {
        LoweredAt(a, i);
        LoweredAt(b, i);
      }
    }
  }

  /** True when every character is a decimal digit. */
  predicate IsDigits(s: string)
  {
    forall i | 0 <= i < |s| :: '0' <= s[i] <= '9'
  }

  function DigitChar(d: nat): (c: char)
    requires d < 10
    ensures '0' <= c <= '9'
    ensures (c == '0') == (d == 0)
  {
    ('0' as int + d) as char
  }

  /** The decimal text Java produces for a non-negative `int`: at least one
      digit, and a leading zero only for zero itself. */
  function Decimal(n: nat): (r: string)
    ensures |r| >= 1 && IsDigits(r)
    ensures (r[0] == '0') == (n == 0)
    ensures r[0] == '0' ==> r == "0"
    decreases n
  {
    if n < 10 then [DigitChar(n)] else Decimal(n / 10) + [DigitChar(n % 10)]
  }

  /** The number a string of decimal digits denotes. */
  function DecimalValue(s: string): nat
    requires IsDigits(s)
  {
    if s == [] then 0 else 10 * DecimalValue(s[..|s| - 1]) + (s[|s| - 1] as int - '0' as int)
  }

  /** Reading back the rendered digits yields the number: the rendering loses
      nothing. */
  lemma {:induction false} DecimalRoundTrip(n: nat)
    ensures DecimalValue(Decimal(n)) == n
  {
    if n >= 10 {
      DecimalRoundTrip(n / 10);
      var r := Decimal(n);
      assert r[..|r| - 1] == Decimal(n / 10);
    }
  }
}
