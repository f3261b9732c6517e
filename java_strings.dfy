/**
 * The few `java.lang.String` and `java.lang.Long` operations the chat code relies on,
 * each written out with the semantics of the Java library: `startsWith`, `indexOf`,
 * `contains`, `replace` (by the empty string), `compareTo`, `trim`, decimal rendering,
 * truncating division and the `%02d` format.
 */
module JavaStrings {

  /** `s.startsWith(p)`. */
  predicate StartsWith(s: string, p: string) {
    |p| <= |s| && s[..|p|] == p
  }

  /** `p` occurs in `s` starting at position `i`. */
  ghost predicate OccursAt(s: string, p: string, i: int) {
    0 <= i && i + |p| <= |s| && s[i..i + |p|] == p
  }

  lemma OccursAtTail(s: string, p: string, j: int)
    requires |s| > 0 && j >= 1
    ensures OccursAt(s, p, j) == OccursAt(s[1..], p, j - 1)
  {
    if j + |p| <= |s| {
      assert s[1..][j - 1..j - 1 + |p|] == s[j..j + |p|];
    }
  }

  /** `s.indexOf(p)`: the first position at which `p` occurs in `s`, or -1 when it does not occur. */
  function IndexOf(s: string, p: string): (i: int)
    ensures -1 <= i <= |s|
    ensures i >= 0 ==> OccursAt(s, p, i)
    ensures forall j :: 0 <= j && (i < 0 || j < i) ==> !OccursAt(s, p, j)
    decreases |s|
  {
    if |s| < |p| then -1
    else if s[..|p|] == p then 0
    else
      var k := IndexOf(s[1..], p);
      assert forall j :: 1 <= j ==> OccursAt(s, p, j) == OccursAt(s[1..], p, j - 1) by {
        forall j | 1 <= j { OccursAtTail(s, p, j); }
      }
      if k < 0 then -1 else k + 1
  }

  /** `s.contains(p)`. */
  predicate Contains(s: string, p: string) {
    IndexOf(s, p) >= 0
  }

  lemma ContainsOccurrence(s: string, p: string, i: int)
    requires OccursAt(s, p, i)
    ensures Contains(s, p) && IndexOf(s, p) <= i
  {
  }

  /** The first occurrence of `p` in `s` is at `i` when `p` occurs there and nowhere earlier. */
  lemma FirstOccurrence(s: string, p: string, i: int)
    requires OccursAt(s, p, i)
    requires forall j :: 0 <= j < i ==> !OccursAt(s, p, j)
    ensures IndexOf(s, p) == i
  {
  }

  /** `s.replace(t, "")` for a non-empty `t`: every occurrence of `t`, scanning left to right, is removed. */
  function RemoveAll(s: string, t: string): string
    requires |t| > 0
    decreases |s|
  {
    if |s| < |t| then s
    else if s[..|t|] == t then RemoveAll(s[|t|..], t)
    else [s[0]] + RemoveAll(s[1..], t)
  }

  /** Removing `t` changes nothing in a string that does not contain `t`. */
  lemma {:induction false} RemoveAllAbsent(s: string, t: string)
    requires |t| > 0
    requires !Contains(s, t)
    ensures RemoveAll(s, t) == s
    decreases |s|
  {
    if |s| >= |t| {
      assert !OccursAt(s, t, 0);
      assert s[..|t|] != t;
      forall j | 0 <= j ensures !OccursAt(s[1..], t, j) {
        OccursAtTail(s, t, j + 1);
      }
      RemoveAllAbsent(s[1..], t);
    }
  }

  /** A leading `t` is removed and the scan resumes after it. */
  lemma RemoveAllPrefix(s: string, t: string)
    requires |t| > 0
    ensures RemoveAll(t + s, t) == RemoveAll(s, t)
  {
    assert (t + s)[..|t|] == t;
    assert (t + s)[|t|..] == s;
  }

  /**
   * `a.compareTo(b)`: the difference of the first differing characters, or of the lengths
   * when one string is a prefix of the other. Dafny characters are Unicode scalar values,
   * where Java compares UTF-16 code units.
   */
  function CompareTo(a: string, b: string): int
    decreases |a|
  {
    if a == [] || b == [] then |a| - |b|
    else if a[0] != b[0] then a[0] as int - b[0] as int
    else CompareTo(a[1..], b[1..])
  }

  lemma {:induction false} CompareToAntisymmetric(a: string, b: string)
    ensures CompareTo(a, b) == -CompareTo(b, a)
    decreases |a|
  {
    if a != [] && b != [] && a[0] == b[0] {
      CompareToAntisymmetric(a[1..], b[1..]);
    }
  }

  /** `compareTo` is zero exactly on equal strings. */
  lemma {:induction false} CompareToZero(a: string, b: string)
    ensures CompareTo(a, b) == 0 <==> a == b
    decreases |a|
  {
    if a != [] && b != [] && a[0] == b[0] {
      CompareToZero(a[1..], b[1..]);
      assert a == [a[0]] + a[1..] && b == [b[0]] + b[1..];
    }
  }

  /** `s.trim()`: drops leading and trailing characters up to and including the space character. */
  function Trim(s: string): string {
    TrimEnd(TrimStart(s))
  }

  function TrimStart(s: string): string {
    if |s| > 0 && s[0] <= ' ' then TrimStart(s[1..]) else s
  }

  function TrimEnd(s: string): string {
    if |s| > 0 && s[|s| - 1] <= ' ' then TrimEnd(s[..|s| - 1]) else s
  }

  function Digit(d: nat): char
    requires d < 10
  {
    "0123456789"[d]
  }

  /** The decimal rendering of a natural number, as `Long.toString`. */
  function Decimal(n: nat): (s: string)
    ensures |s| >= 1
    ensures n < 10 <==> |s| == 1
  {
    if n < 10 then [Digit(n)] else Decimal(n / 10) + [Digit(n % 10)]
  }

  /** Distinct numbers have distinct renderings. */
  lemma {:induction false} DecimalInjective(m: nat, n: nat)
    requires Decimal(m) == Decimal(n)
    ensures m == n
  {
    if m >= 10 && n >= 10 {
      var dm, dn := Decimal(m), Decimal(n);
      assert dm[..|dm| - 1] == Decimal(m / 10);
      assert dn[..|dn| - 1] == Decimal(n / 10);
      DecimalInjective(m / 10, n / 10);
      assert Digit(m % 10) == dm[|dm| - 1] == dn[|dn| - 1] == Digit(n % 10);
      assert m % 10 == n % 10;
    }
  }

  /** Java's `/` on `long`, which truncates toward zero, for a positive divisor. */
  function JavaDiv(a: int, b: int): int
    requires b > 0
  {
    if a >= 0 then a / b else -((-a) / b)
  }

  /** Java's `%` on `long`: the remainder takes the sign of the dividend. */
  function JavaRem(a: int, b: int): (r: int)
    requires b > 0
    ensures a == b * JavaDiv(a, b) + r
    ensures a >= 0 ==> 0 <= r < b
    ensures a < 0 ==> -b < r <= 0
  {
    a - b * JavaDiv(a, b)
  }

  /** `String.format("%02d", n)`: at least two characters, zero-padded after any sign. */
  function Pad2(n: int): (s: string)
    ensures |s| >= 2
  {
    if n < 0 then "-" + Decimal(-n)
    else if n < 10 then "0" + Decimal(n)
    else Decimal(n)
  }
}
