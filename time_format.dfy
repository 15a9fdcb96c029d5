/** The elapsed-time text of the recording label: seconds as a Double,
    truncated to a Swift `Int` and written as minute and second digits.
    Swift's integer `/` and `%` truncate toward zero and `Int(_:)` truncates a
    Double toward zero, so all three are written out here; Swift's `Int` is
    taken to be 64 bits wide. */
module TimeFormat {

  /** `Int(x)` stops the program unless `x` lies strictly between
      `Int.min - 1` and `Int.max + 1`. */
  predicate InIntRange(x: real)
  {
    -9223372036854775809.0 < x < 9223372036854775808.0
  }

  /** `Int(x)`: the integer part of `x`, dropping the fraction toward zero. */
  function Trunc(x: real): (n: int)
    ensures 0.0 <= x ==> n as real <= x < n as real + 1.0
    ensures x < 0.0 ==> n as real - 1.0 < x <= n as real
  {
    if x >= 0.0 then x.Floor else -((-x).Floor)
  }

  function Abs(a: int): (m: nat)
  {
    if a < 0 then -a else a
  }

  /** Swift's `a / b` for a positive divisor: the quotient of the magnitudes,
      with the sign of `a` (division truncates toward zero). */
  function Quot(a: int, b: int): (q: int)
    requires b > 0
    ensures Abs(q) == Abs(a) / b
    ensures 0 <= a ==> 0 <= q
    ensures a < 0 ==> q <= 0
  {
    if a >= 0 then a / b else -((-a) / b)
  }

  /** Swift's `a % b` for a positive divisor: the remainder of the
      magnitudes, with the sign of `a`. */
  function Rem(a: int, b: int): (r: int)
    requires b > 0
    ensures Abs(r) == Abs(a) % b && Abs(r) < b
    ensures 0 <= a ==> 0 <= r
    ensures a < 0 ==> r <= 0
  {
    if a >= 0 then a % b else -((-a) % b)
  }

  predicate IsDigit(c: char)
  {
    '0' <= c <= '9'
  }

  function DigitValue(c: char): (d: int)
  {
    c as int - '0' as int
  }

  function DigitChar(d: int): (c: char)
    requires 0 <= d <= 9
    ensures IsDigit(c) && DigitValue(c) == d
  {
    ('0' as int + d) as char
  }

  /** String interpolation `"\(d)"` of a one-digit integer, with its sign. */
  function Decimal(d: int): (s: string)
    requires -9 <= d <= 9
    ensures 0 <= d ==> s == [DigitChar(d)]
    ensures d < 0 ==> s == ['-', DigitChar(-d)]
  {
    if d < 0 then "-" + [DigitChar(-d)] else [DigitChar(d)]
  }

  /** `convertSecToMinSec`: minutes-tens, minutes-ones, a colon,
      seconds-tens, seconds-ones. */
  function ConvertSecToMinSec(sec: real): (r: string)
    requires InIntRange(sec)
    ensures 5 <= |r| <= 9
    ensures 0.0 <= sec ==> |r| == 5 && r[2] == ':'
  {
    var secInt := Trunc(sec);
    var secondsOnesPlace := Rem(secInt, 10);
    var secondsTensPlace := Quot(Rem(secInt, 60), 10);
    var remainingMinutes := Quot(secInt, 60);
    var remainingMinutesOncePlace := Rem(remainingMinutes, 10);
    var remainingMinutesTensPlace := Rem(Quot(remainingMinutes, 10), 10);
    Decimal(remainingMinutesTensPlace) + Decimal(remainingMinutesOncePlace) + ":"
      + Decimal(secondsTensPlace) + Decimal(secondsOnesPlace)
  }

  /** A well-formed `MM:SS` text: four digits around a colon, with a seconds
      tens digit of at most 5. */
  predicate IsMinSec(s: string)
  {
    |s| == 5 && IsDigit(s[0]) && IsDigit(s[1]) && s[2] == ':'
    && '0' <= s[3] <= '5' && IsDigit(s[4])
  }

  /** Reading an `MM:SS` text back as a number of seconds. */
  function ParseMinSec(s: string): (n: int)
    requires IsMinSec(s)
    ensures 0 <= n < 6000
  {
    (10 * DigitValue(s[0]) + DigitValue(s[1])) * 60 + 10 * DigitValue(s[3]) + DigitValue(s[4])
  }

  /** For a whole number of seconds that is not negative, the text is the two
      minute digits (minutes modulo 100), a colon and the two second digits. */
  lemma FormatOfNat(n: nat)
    requires InIntRange(n as real)
    ensures ConvertSecToMinSec(n as real)
              == [DigitChar((n / 60 / 10) % 10), DigitChar((n / 60) % 10), ':',
                  DigitChar((n % 60) / 10), DigitChar(n % 10)]
  {
    assert Trunc(n as real) == n;
  }

  /** Zero seconds shows as `00:00`. */
  lemma FormatZero()
    ensures ConvertSecToMinSec(0.0) == "00:00"
  {
    FormatOfNat(0);
  }

  /** The seconds digits of `n`: tens of the seconds within the minute, and ones. */
  lemma SecondsDigits(n: nat)
    ensures (n % 60) / 10 <= 5
    ensures 10 * ((n % 60) / 10) + n % 10 == n % 60
  {
    var a, r := n / 60, n % 60;
    assert n == 60 * a + r;
    assert n % 10 == r % 10 by {
      assert n == 10 * (6 * a + r / 10) + r % 10;
    }
  }

  /** The minute digits of `m`: its last two decimal digits. */
  lemma MinutesDigits(m: nat)
    ensures 10 * ((m / 10) % 10) + m % 10 == m % 100
  {
    var a, r := m / 100, m % 100;
    assert m == 100 * a + r;
    assert m / 10 == 10 * a + r / 10 by {
      assert m == 10 * (10 * a + r / 10) + r % 10;
    }
    assert (m / 10) % 10 == r / 10;
    assert m % 10 == r % 10 by {
      assert m == 10 * (10 * a + r / 10) + r % 10;
    }
  }

  /** Minutes modulo 100 and seconds within the minute make up `n` modulo 6000. */
  lemma MinutesAndSeconds(n: nat)
    ensures ((n / 60) % 100) * 60 + n % 60 == n % 6000
  {
    var a, r := n / 6000, n % 6000;
    var r1, r0 := r / 60, r % 60;
    assert n == 6000 * a + r && 0 <= r < 6000;
    assert r == 60 * r1 + r0 && 0 <= r0 < 60 && 0 <= r1 < 100;
    assert n == 60 * (100 * a + r1) + r0;
    assert n / 60 == 100 * a + r1;
    assert n % 60 == r0;
    assert (100 * a + r1) % 100 == r1;
  }

  /** Splitting a number spelled by `MM:SS` digits gives the digits back. */
  lemma DigitsOfSpelled(m1: int, m0: int, s1: int, s0: int)
    requires 0 <= m1 <= 9 && 0 <= m0 <= 9 && 0 <= s1 <= 5 && 0 <= s0 <= 9
    ensures var n := (10 * m1 + m0) * 60 + 10 * s1 + s0;
            n % 10 == s0 && (n % 60) / 10 == s1
            && (n / 60 / 10) % 10 == m1 && (n / 60) % 10 == m0
  {
    var n := (10 * m1 + m0) * 60 + 10 * s1 + s0;
    assert n / 60 == 10 * m1 + m0;
    assert n % 60 == 10 * s1 + s0;
    assert n % 10 == s0 by {
      assert n == 10 * ((10 * m1 + m0) * 6 + s1) + s0;
    }
  }

  /** For a time that is not negative, the text is always five characters:
      digits at indices 0, 1, 3 and 4 and a colon at index 2, the seconds tens
      digit being at most 5. The two seconds digits spell the seconds within
      the minute and the two minute digits the minutes modulo 100. */
  lemma FormatShape(sec: real)
    requires InIntRange(sec) && 0.0 <= sec
    ensures var r := ConvertSecToMinSec(sec);
            IsMinSec(r)
            && 10 * DigitValue(r[3]) + DigitValue(r[4]) == Trunc(sec) % 60
            && 10 * DigitValue(r[0]) + DigitValue(r[1]) == (Trunc(sec) / 60) % 100
  {
    var n: nat := Trunc(sec);
    assert InIntRange(n as real);
    FormatOfNat(n);
    assert Trunc(n as real) == n;
    assert ConvertSecToMinSec(sec) == ConvertSecToMinSec(n as real);
    SecondsDigits(n);
    MinutesDigits(n / 60);
  }

  /** Round trip: reading the text back gives the truncated seconds modulo
      100 minutes. */
  lemma ParseFormat(sec: real)
    requires InIntRange(sec) && 0.0 <= sec
    ensures IsMinSec(ConvertSecToMinSec(sec))
    ensures ParseMinSec(ConvertSecToMinSec(sec)) == Trunc(sec) % 6000
  {
    FormatShape(sec);
    MinutesAndSeconds(Trunc(sec));
  }

  /** The other direction: every well-formed `MM:SS` text is what the label
      shows for the number of seconds it spells. */
  lemma FormatParse(s: string)
    requires IsMinSec(s)
    ensures ConvertSecToMinSec(ParseMinSec(s) as real) == s
  {
    var n := ParseMinSec(s);
    assert InIntRange(n as real);
    FormatOfNat(n);
    var m1, m0, s1, s0 := DigitValue(s[0]), DigitValue(s[1]), DigitValue(s[3]), DigitValue(s[4]);
    DigitsOfSpelled(m1, m0, s1, s0);
    assert DigitChar(m1) == s[0] && DigitChar(m0) == s[1];
    assert DigitChar(s1) == s[3] && DigitChar(s0) == s[4];
  }

  /** Only the whole seconds matter: every time in `[n, n + 1)` shows the
      same text as `n`. */
  lemma FormatTruncates(sec: real, n: nat)
    requires InIntRange(sec)
    requires n as real <= sec < n as real + 1.0
    ensures InIntRange(n as real)
    ensures ConvertSecToMinSec(sec) == ConvertSecToMinSec(n as real)
  {
    assert Trunc(sec) == n;
    assert Trunc(n as real) == n;
  }
}
