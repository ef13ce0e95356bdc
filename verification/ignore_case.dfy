/** The one comparison policy shared by grouping and sorting: ordinal
    comparison after upper-casing every character, as `OrdinalIgnoreCase`
    does. Upper-casing is restricted to ASCII letters. */
module IgnoreCase {

  /** Upper-case one character (ASCII letters only; everything else is kept). */
  function Upper(c: char): char {
    if 'a' <= c <= 'z' then (c as int - 32) as char else c
  }

  /** The case-folded form of a name: the representative of its
      case-insensitive equivalence class. */
  function Fold(s: string): string {
    seq(|s|, i requires 0 <= i < |s| => Upper(s[i]))
  }

  /** Two names denote the same key under the ignore-case comparer. */
  predicate EqualsIgnoreCase(a: string, b: string) {
    Fold(a) == Fold(b)
  }

  /** Lexicographic ordinal comparison of two character sequences: negative,
      zero or positive as `a` sorts before, equal to or after `b`; a proper
      prefix sorts first. */
  function CompareOrdinal(a: seq<char>, b: seq<char>): (r: int)
    ensures -1 <= r <= 1
  {
    if |a| == 0 && |b| == 0 then 0
    else if |a| == 0 then -1
    else if |b| == 0 then 1
    else if a[0] < b[0] then -1
    else if b[0] < a[0] then 1
    else CompareOrdinal(a[1..], b[1..])
  }

  /** The ignore-case comparer. */
  function Compare(a: string, b: string): int {
    CompareOrdinal(Fold(a), Fold(b))
  }

  /** `a` sorts strictly before `b` under the ignore-case comparer. */
  predicate Before(a: string, b: string) {
    Compare(a, b) < 0
  }

  lemma {:induction false} CompareOrdinalZero(a: seq<char>, b: seq<char>)
    ensures CompareOrdinal(a, b) == 0 <==> a == b
  {
    if |a| > 0 && |b| > 0 && a[0] == b[0] {
      CompareOrdinalZero(a[1..], b[1..]);
      if a[1..] == b[1..] {
        assert a == [a[0]] + a[1..] && b == [b[0]] + b[1..];
      }
    }
  }

  lemma {:induction false} CompareOrdinalFlip(a: seq<char>, b: seq<char>)
    ensures CompareOrdinal(b, a) == -CompareOrdinal(a, b)
  {
    if |a| > 0 && |b| > 0 && a[0] == b[0] {
      CompareOrdinalFlip(a[1..], b[1..]);
    }
  }

  lemma {:induction false} CompareOrdinalTransitive(a: seq<char>, b: seq<char>, c: seq<char>)
    requires CompareOrdinal(a, b) < 0 && CompareOrdinal(b, c) < 0
    ensures CompareOrdinal(a, c) < 0
  {
    if |a| > 0 && |b| > 0 && |c| > 0 && a[0] == b[0] && b[0] == c[0] {
      CompareOrdinalTransitive(a[1..], b[1..], c[1..]);
    }
  }

  /** The comparer answers "equal" exactly for names that differ only in case. */
  lemma CompareZeroIffEqualsIgnoreCase(a: string, b: string)
    ensures Compare(a, b) == 0 <==> EqualsIgnoreCase(a, b)
  {
    CompareOrdinalZero(Fold(a), Fold(b));
  }

  /** Any two case-distinct names are ordered one way or the other. */
  lemma BeforeConnected(a: string, b: string)
    requires !EqualsIgnoreCase(a, b)
    ensures Before(a, b) || Before(b, a)
  {
    CompareOrdinalZero(Fold(a), Fold(b));
    CompareOrdinalFlip(Fold(a), Fold(b));
  }

  /** `Before` is asymmetric and never relates names that differ only in case. */
  lemma BeforeAsymmetric(a: string, b: string)
    requires Before(a, b)
    ensures !Before(b, a) && !EqualsIgnoreCase(a, b)
  {
    CompareOrdinalZero(Fold(a), Fold(b));
    CompareOrdinalFlip(Fold(a), Fold(b));
  }

  /** `Before` is transitive. */
  lemma BeforeTransitive(a: string, b: string, c: string)
    requires Before(a, b) && Before(b, c)
    ensures Before(a, c)
  {
    CompareOrdinalTransitive(Fold(a), Fold(b), Fold(c));
  }
}
