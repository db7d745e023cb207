/** Small shared vocabulary: optional values, the Java runtime exceptions the
    rewriter can raise, and the few `java.lang.String` operations the source
    relies on (`startsWith`, `contains`, `substring(1)`, `"" + int`). */
module Common {

  datatype Option<+T> = None | Some(value: T)

  /** The unchecked exceptions thrown while a class is being rewritten.  All of
      them are `RuntimeException`s, which `Instrument.transform` catches. */
  datatype JavaException =
    | IndexOutOfBounds              // `List.get` past the end of the analyzer's stack or locals
    | ClassCast                     // a stack entry that is not a `String` cast to `String`
    | IllegalState(msg: string)
    | IllegalArgument(msg: string)
    | Runtime(msg: string)
    | NullPointer                   // a field of a `null` reference read, or a method called on it
  {
    /** `ex.getMessage()`.  The JDK's own messages for index and cast
        failures are not part of this model, so they are given fixed texts; a
        `NullPointerException` raised by the JVM has no message, which string
        concatenation prints as "null". */
    function Message(): string {
      match this
      case IndexOutOfBounds => "index out of bounds"
      case ClassCast => "class cast"
      case IllegalState(m) => m
      case IllegalArgument(m) => m
      case Runtime(m) => m
      case NullPointer => "null"
    }
  }

  /** The outcome of a step that may throw. */
  datatype Result<+T> = Ok(value: T) | Err(error: JavaException)

  // ----- java.lang.String ------------------------------------------------

  /** `s.startsWith(p)`. */
  predicate StartsWith(s: string, p: string) {
    |p| <= |s| && s[..|p|] == p
  }

  /** `sub` occurs in `s` starting at offset `i`. */
  predicate OccursAt(s: string, sub: string, i: int) {
    0 <= i <= |s| - |sub| && s[i..i + |sub|] == sub
  }

  /** `s.contains(sub)`: `sub` occurs in `s` at some offset. */
  predicate Contains(s: string, sub: string) {
    exists i | 0 <= i <= |s| - |sub| :: OccursAt(s, sub, i)
  }

  /** An occurrence of `sub` inside an occurrence of `mid` is an occurrence
      inside the whole string. */
  lemma ContainsTransitive(s: string, mid: string, sub: string)
    requires Contains(s, mid) && Contains(mid, sub)
    ensures Contains(s, sub)
  {
    var i :| OccursAt(s, mid, i);
    assert OccursAt(s, mid, i);
    var j :| OccursAt(mid, sub, j);
    assert OccursAt(mid, sub, j);
    forall k | 0 <= k < |sub| ensures s[i + j + k] == sub[k] {
      assert sub[k] == mid[j + k] == s[i + j + k];
    }
    assert OccursAt(s, sub, i + j);
  }

  /** Every character of an occurring substring is a character of the string. */
  lemma ContainsChar(s: string, sub: string, c: char)
    requires Contains(s, sub) && c in sub
    ensures c in s
  {
    var i :| OccursAt(s, sub, i);
    assert OccursAt(s, sub, i);
    var k :| 0 <= k < |sub| && sub[k] == c;
    assert s[i + k] == c;
  }

  // ----- decimal rendering of ints ("" + i in Java) -----------------------

  function DigitChar(d: nat): (c: char)
    requires d < 10
    ensures '0' <= c <= '9'
  {
    (48 + d) as char
  }

  /** Decimal digits of `n`, most significant first, without leading zeros. */
  function NatToString(n: nat): (r: string)
    ensures |r| >= 1
    ensures forall k | 0 <= k < |r| :: '0' <= r[k] <= '9'
    ensures |r| == 1 <==> n < 10
  {
    if n < 10 then [DigitChar(n)] else NatToString(n / 10) + [DigitChar(n % 10)]
  }

  /** `String.valueOf(i)` for a Java `int` (a leading '-' for negatives). */
  function IntToString(i: int): string {
    if i < 0 then "-" + NatToString(-i) else NatToString(i)
  }

  lemma {:induction false} NatToStringInjective(a: nat, b: nat)
    requires NatToString(a) == NatToString(b)
    ensures a == b
  {
    if a >= 10 && b >= 10 {
      var ra, rb := NatToString(a), NatToString(b);
      assert ra[|ra| - 1] == rb[|rb| - 1];
      assert a % 10 == b % 10;
      assert ra[..|ra| - 1] == NatToString(a / 10);
      assert rb[..|rb| - 1] == NatToString(b / 10);
      NatToStringInjective(a / 10, b / 10);
    }
  }

  /** The rendering starts with '-' exactly for negative numbers. */
  lemma IntToStringSign(i: int)
    ensures |IntToString(i)| >= 1
    ensures IntToString(i)[0] == '-' <==> i < 0
  {
    if i >= 0 {
      assert IntToString(i)[0] == NatToString(i)[0];
    }
  }

  /** Distinct ints print differently. */
  lemma IntToStringInjective(a: int, b: int)
    requires IntToString(a) == IntToString(b)
    ensures a == b
  {
    IntToStringSign(a);
    IntToStringSign(b);
    if a < 0 && b < 0 {
      assert NatToString(-a) == IntToString(a)[1..];
      assert NatToString(-b) == IntToString(b)[1..];
      NatToStringInjective(-a, -b);
    } else if a >= 0 && b >= 0 {
      NatToStringInjective(a, b);
    }
  }
}
