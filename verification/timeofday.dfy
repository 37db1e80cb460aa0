/**
 * "HH:MM" strings compared the way JavaScript compares strings: character
 * by character, a proper prefix ordering first. The auto-watering window
 * uses `now >= start && now <= end` under this order.
 */
module TimeOfDay {

  /**
   * JavaScript `a < b` on strings. Dafny characters are code points while
   * JavaScript compares UTF-16 code units; the two orders differ only
   * between characters above U+FFFF and those in U+E000..U+FFFF, neither of
   * which appears in an "HH:MM" value.
   */
  predicate LexLess(a: string, b: string)
    decreases |a|
  {
    if |a| == 0 then |b| > 0
    else if |b| == 0 then false
    else if a[0] != b[0] then a[0] < b[0]
    else LexLess(a[1..], b[1..])
  }

  /** JavaScript `a <= b` on strings, which is defined as `!(b < a)`. */
  predicate LexLe(a: string, b: string) {
    !LexLess(b, a)
  }

  /** The inclusive window test of the auto-watering check. */
  predicate InWindow(now: string, start: string, end: string) {
    LexLe(start, now) && LexLe(now, end)
  }

  lemma {:induction false} LexLessIrreflexive(a: string)
    ensures !LexLess(a, a)
    decreases |a|
  {
    if |a| > 0 {
      LexLessIrreflexive(a[1..]);
    }
  }

  lemma {:induction false} LexLessTransitive(a: string, b: string, c: string)
    requires LexLess(a, b) && LexLess(b, c)
    ensures LexLess(a, c)
    decreases |a|
  {
    if |a| > 0 && a[0] == b[0] && b[0] == c[0] {
      LexLessTransitive(a[1..], b[1..], c[1..]);
    }
  }

  lemma {:induction false} LexLessTotal(a: string, b: string)
    ensures a == b || LexLess(a, b) || LexLess(b, a)
    decreases |a|
  {
    if |a| > 0 && |b| > 0 && a[0] == b[0] {
      LexLessTotal(a[1..], b[1..]);
      if a[1..] == b[1..] {
        assert a == [a[0]] + a[1..] && b == [b[0]] + b[1..];
      }
    }
  }

  /** `<=` on strings is a total order: reflexive, antisymmetric, transitive and total. */
  lemma LexLeTotalOrder(a: string, b: string, c: string)
    ensures LexLe(a, a)
    ensures LexLe(a, b) && LexLe(b, a) ==> a == b
    ensures LexLe(a, b) && LexLe(b, c) ==> LexLe(a, c)
    ensures LexLe(a, b) || LexLe(b, a)
  {
    LexLessIrreflexive(a);
    LexLessTotal(a, b);
    LexLessTotal(b, c);
    LexLessTotal(a, c);
    if LexLess(a, b) && LexLess(b, a) {
      LexLessTransitive(a, b, a);
      LexLessIrreflexive(a);
    }
    if LexLe(a, b) && LexLe(b, c) && LexLess(c, a) {
      if a == b {
      } else if b == c {
      } else {
        LexLessTransitive(a, b, c);
        LexLessTransitive(a, c, a);
        LexLessIrreflexive(a);
      }
    }
  }

  /** Both ends of the window count: at `start` or `end` it is on, if the window is not empty. */
  lemma WindowInclusive(start: string, end: string)
    requires LexLe(start, end)
    ensures InWindow(start, start, end) && InWindow(end, start, end)
  {
    LexLeTotalOrder(start, end, end);
    LexLeTotalOrder(end, start, start);
  }

  /** There is no wrap past midnight: a window whose start is after its end is never on. */
  lemma ReversedWindowNeverOn(now: string, start: string, end: string)
    requires LexLess(end, start)
    ensures !InWindow(now, start, end)
  {
    LexLeTotalOrder(start, now, end);
  }

  predicate IsDigit(c: char) {
    '0' <= c <= '9'
  }

  function DigitValue(c: char): int {
    c as int - '0' as int
  }

  /**
   * A clock time "HH:MM" as `Date.toTimeString().slice(0, 5)` and a time
   * input produce it: two-digit hours, a colon, two-digit minutes below 60.
   */
  predicate WellFormed(s: string) {
    |s| == 5 && IsDigit(s[0]) && IsDigit(s[1]) && s[2] == ':' &&
    '0' <= s[3] <= '5' && IsDigit(s[4])
  }

  /** Minutes since midnight of a well-formed clock time. */
  function Minutes(s: string): (m: int)
    requires WellFormed(s)
    ensures 0 <= m
  {
    (10 * DigitValue(s[0]) + DigitValue(s[1])) * 60 + 10 * DigitValue(s[3]) + DigitValue(s[4])
  }

  /** On clock times the string order is the order of the times of day. */
  lemma ClockOrder(a: string, b: string)
    requires WellFormed(a) && WellFormed(b)
    ensures LexLess(a, b) <==> Minutes(a) < Minutes(b)
  {
    var a1, b1 := a[1..], b[1..];
    var a2, b2 := a1[1..], b1[1..];
    var a3, b3 := a2[1..], b2[1..];
    var a4, b4 := a3[1..], b3[1..];
    assert a1[0] == a[1] && a2[0] == a[2] && a3[0] == a[3] && a4[0] == a[4];
    assert b1[0] == b[1] && b2[0] == b[2] && b3[0] == b[3] && b4[0] == b[4];
    assert |a4[1..]| == 0 && |b4[1..]| == 0;
    // the comparison runs over the four digits, the colons being equal
    assert LexLess(a4, b4) == (a[4] < b[4]);
    assert LexLess(a3, b3) == (if a[3] != b[3] then a[3] < b[3] else a[4] < b[4]);
    assert LexLess(a2, b2) == LexLess(a3, b3);
    assert LexLess(a1, b1) == (if a[1] != b[1] then a[1] < b[1] else LexLess(a3, b3));
    assert LexLess(a, b) == (if a[0] != b[0] then a[0] < b[0] else LexLess(a1, b1));
    // each digit outweighs everything to its right
    var x0, x1, x3, x4 := DigitValue(a[0]), DigitValue(a[1]), DigitValue(a[3]), DigitValue(a[4]);
    var y0, y1, y3, y4 := DigitValue(b[0]), DigitValue(b[1]), DigitValue(b[3]), DigitValue(b[4]);
    assert Minutes(a) == 600 * x0 + 60 * x1 + 10 * x3 + x4;
    assert Minutes(b) == 600 * y0 + 60 * y1 + 10 * y3 + y4;
  }

  /** For clock times, auto-watering is on exactly when start <= now <= end as times of day. */
  lemma WindowByMinutes(now: string, start: string, end: string)
    requires WellFormed(now) && WellFormed(start) && WellFormed(end)
    ensures InWindow(now, start, end) <==> Minutes(start) <= Minutes(now) <= Minutes(end)
  {
    ClockOrder(now, start);
    ClockOrder(end, now);
  }
}
