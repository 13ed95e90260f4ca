// Shared vocabulary of the model: optional values, results of operations that
// can fail with a message, the calendar arithmetic the services use on
// timestamps, and the handful of java.lang.String operations they rely on.
//
// Conventions used by every module:
//   * a LocalDateTime is an integer count of minutes since 1970-01-01T00:00;
//   * a LocalDate is an integer count of days since 1970-01-01;
//   * a thrown RuntimeException is an `Err` carrying the exception message.

module Common {

  datatype Option<T> = None | Some(value: T)
  {
    predicate IsSome() { this.Some? }

    function GetOr(default: T): T
    {
      match this
      case None => default
      case Some(v) => v
    }
  }

  datatype Result<T> = Ok(value: T) | Err(message: string)

  /** Unit value for operations that return nothing but may throw. */
  datatype Unit = Unit

  // ---------------------------------------------------------------------
  // Integer arithmetic as Java performs it

  function Min(a: int, b: int): int { if a <= b then a else b }

  function Max(a: int, b: int): int { if a >= b then a else b }

  function Abs(a: int): nat { if a < 0 then -a else a }

  /** Java's integer `/`, which truncates toward zero (Dafny's `/` is Euclidean). */
  function JavaDiv(a: int, b: int): (q: int)
    requires b != 0
    ensures a >= 0 && b > 0 ==> q == a / b
    ensures a < 0 && b > 0 ==> q == -((-a) / b)
  {
    var m := Abs(a) / Abs(b);
    if (a < 0) == (b < 0) then m else -m
  }

  // ---------------------------------------------------------------------
  // Time

  const MinutesPerHour: int := 60
  const MinutesPerDay: int := 1440

  /** LocalDateTime.toLocalDate: the day that contains minute `t`. */
  function DateOf(t: int): int { t / MinutesPerDay }

  /** Minutes elapsed since midnight of the day that contains `t`. */
  function MinuteOfDay(t: int): int { t % MinutesPerDay }

  /** LocalDateTime.plusDays. */
  function PlusDays(t: int, days: int): (r: int)
    ensures DateOf(r) == DateOf(t) + days && MinuteOfDay(r) == MinuteOfDay(t)
  {
    DayShift(t, days);
    t + days * MinutesPerDay
  }

  /** Adding whole days moves the date and keeps the time of day. */
  lemma DayShift(t: int, days: int)
    ensures (t + days * MinutesPerDay) / MinutesPerDay == t / MinutesPerDay + days
    ensures (t + days * MinutesPerDay) % MinutesPerDay == t % MinutesPerDay
  {
    var q := t / MinutesPerDay;
    var m := t % MinutesPerDay;
    assert t + days * MinutesPerDay == (q + days) * MinutesPerDay + m;
  }

  /** LocalDateTime.plusHours. */
  function PlusHours(t: int, hours: int): int { t + hours * MinutesPerHour }

  /** ISO day of week (Monday 1 .. Sunday 7) of an epoch day; 1970-01-01 was a Thursday. */
  function DayOfWeek(day: int): (dow: int)
    ensures 1 <= dow <= 7
    ensures dow == 4 <==> day % 7 == 0
  {
    (day + 3) % 7 + 1
  }

  datatype CivilDate = CivilDate(year: int, month: int, day: int)

  predicate IsLeapYear(y: int)
  {
    y % 4 == 0 && (y % 100 != 0 || y % 400 == 0)
  }

  function DaysInMonth(y: int, m: int): int
  {
    if m == 2 then (if IsLeapYear(y) then 29 else 28)
    else if m == 4 || m == 6 || m == 9 || m == 11 then 30
    else 31
  }

  /** Proleptic Gregorian date of an epoch day (days-to-civil conversion). */
  function CivilFromDays(z0: int): CivilDate
  {
    var z := z0 + 719468;
    var era := z / 146097;
    var doe := z - era * 146097;
    var yoe := (doe - doe / 1460 + doe / 36524 - doe / 146096) / 365;
    var doy := doe - (365 * yoe + yoe / 4 - yoe / 100);
    var mp := (5 * doy + 2) / 153;
    var d := doy - (153 * mp + 2) / 5 + 1;
    var m := if mp < 10 then mp + 3 else mp - 9;
    var y := yoe + era * 400 + (if m <= 2 then 1 else 0);
    CivilDate(y, m, d)
  }

  /** Epoch day of a proleptic Gregorian date (civil-to-days conversion). */
  function DaysFromCivil(date: CivilDate): int
  {
    var y := date.year - (if date.month <= 2 then 1 else 0);
    var era := y / 400;
    var yoe := y - era * 400;
    var mShift := if date.month > 2 then date.month - 3 else date.month + 9;
    var doy := (153 * mShift + 2) / 5 + date.day - 1;
    var doe := yoe * 365 + yoe / 4 - yoe / 100 + doy;
    era * 146097 + doe - 719468
  }

  /** LocalDate.plusMonths: the day of month is clamped to the target month's length. */
  function PlusMonthsDate(day: int, months: int): int
  {
    var c := CivilFromDays(day);
    var total := c.year * 12 + (c.month - 1) + months;
    var y := total / 12;
    var m := total % 12 + 1;
    var d := if c.day <= DaysInMonth(y, m) then c.day else DaysInMonth(y, m);
    DaysFromCivil(CivilDate(y, m, d))
  }

  /** LocalDateTime.plusMonths: same time of day, date moved by `months`. */
  function PlusMonths(t: int, months: int): (r: int)
    ensures MinuteOfDay(r) == MinuteOfDay(t)
    ensures DateOf(r) == PlusMonthsDate(DateOf(t), months)
  {
    PlusMonthsDate(DateOf(t), months) * MinutesPerDay + MinuteOfDay(t)
  }

  /** LocalDateTime.plusYears, which is plusMonths(12 * years). */
  function PlusYears(t: int, years: int): (r: int)
    ensures MinuteOfDay(r) == MinuteOfDay(t)
    ensures DateOf(r) == PlusMonthsDate(DateOf(t), 12 * years)
  {
    PlusMonths(t, 12 * years)
  }

  // ---------------------------------------------------------------------
  // Strings

  /** An enum constant's name: upper-case letters and underscores. */
  predicate IsConstantName(s: string)
  {
    s != [] && forall c :: c in s ==> 'A' <= c <= 'Z' || c == '_'
  }

  /** A CSS colour `#rrggbb` in lower-case hexadecimal digits. */
  predicate IsHexColor(s: string)
  {
    |s| == 7 && s[0] == '#' && forall i :: 1 <= i < 7 ==> s[i] in "0123456789abcdef"
  }

  /** A display label: starts with a capital letter. */
  predicate IsLabel(s: string)
  {
    s != [] && 'A' <= s[0] <= 'Z'
  }

  /** Character.toLowerCase restricted to ASCII letters. */
  function LowerChar(c: char): char
  {
    if 'A' <= c <= 'Z' then (c as int + 32) as char else c
  }

  /** String.toLowerCase restricted to ASCII letters. */
  function ToLower(s: string): (r: string)
    ensures |r| == |s|
    ensures forall i :: 0 <= i < |s| ==> r[i] == LowerChar(s[i])
  {
    if s == [] then [] else [LowerChar(s[0])] + ToLower(s[1..])
  }

  /** Lower-casing twice is lower-casing once. */
  lemma {:induction false} LowerIsIdempotent(s: string)
    ensures ToLower(ToLower(s)) == ToLower(s)
  {
    var t := ToLower(s);
    assert |ToLower(t)| == |t|;
    forall i | 0 <= i < |t|
      ensures ToLower(t)[i] == t[i]
    {
      assert t[i] == LowerChar(s[i]);
    }
  }

  /** The characters String.trim removes: every code point up to U+0020. */
  predicate IsTrimmed(c: char) { c <= ' ' }

  function TrimStart(s: string): string
  {
    if s != [] && IsTrimmed(s[0]) then TrimStart(s[1..]) else s
  }

  function TrimEnd(s: string): string
  {
    if s != [] && IsTrimmed(s[|s| - 1]) then TrimEnd(s[..|s| - 1]) else s
  }

  /** String.trim: the longest slice without a code point up to U+0020 at
      either end. */
  function Trim(s: string): (r: string)
    ensures exists i, j :: 0 <= i <= j <= |s| && r == s[i..j]
    ensures r != [] ==> !IsTrimmed(r[0]) && !IsTrimmed(r[|r| - 1])
  {
    TrimStartSlice(s);
    var i :| 0 <= i <= |s| && TrimStart(s) == s[i..];
    TrimEndSlice(TrimStart(s));
    var j :| 0 <= j <= |TrimStart(s)| && TrimEnd(TrimStart(s)) == TrimStart(s)[..j];
    assert TrimEnd(TrimStart(s)) == s[i..i + j];
    TrimEnd(TrimStart(s))
  }

  lemma {:induction false} TrimStartSlice(s: string)
    ensures exists i :: 0 <= i <= |s| && TrimStart(s) == s[i..]
    ensures TrimStart(s) != [] ==> !IsTrimmed(TrimStart(s)[0])
  {
    if s != [] && IsTrimmed(s[0]) {
      TrimStartSlice(s[1..]);
      var i :| 0 <= i <= |s[1..]| && TrimStart(s[1..]) == s[1..][i..];
      assert TrimStart(s) == s[i + 1..];
    } else {
      assert TrimStart(s) == s[0..];
    }
  }

  lemma {:induction false} TrimEndSlice(s: string)
    ensures exists j :: 0 <= j <= |s| && TrimEnd(s) == s[..j]
    ensures TrimEnd(s) != [] ==> !IsTrimmed(TrimEnd(s)[|TrimEnd(s)| - 1])
    ensures TrimEnd(s) != [] && s != [] && !IsTrimmed(s[0]) ==> TrimEnd(s)[0] == s[0]
  {
    if s != [] && IsTrimmed(s[|s| - 1]) {
      TrimEndSlice(s[..|s| - 1]);
      var j :| 0 <= j <= |s[..|s| - 1]| && TrimEnd(s[..|s| - 1]) == s[..|s| - 1][..j];
      assert TrimEnd(s) == s[..j];
    } else {
      assert TrimEnd(s) == s[..|s|];
    }
  }

  /** `s == null || s.trim().isEmpty()` for a present string. */
  predicate IsBlank(s: string) { Trim(s) == [] }

  /** A string is blank exactly when every code point of it is one that
      trim removes. */
  lemma BlankIffAllTrimmed(s: string)
    ensures IsBlank(s) <==> forall i :: 0 <= i < |s| ==> IsTrimmed(s[i])
  {
    if forall i :: 0 <= i < |s| ==> IsTrimmed(s[i]) {
      TrimStartOfTrimmed(s);
    } else {
      var i :| 0 <= i < |s| && !IsTrimmed(s[i]);
      TrimStartKeepsVisible(s, i);
      TrimStartSlice(s);
      TrimEndKeepsFirst(TrimStart(s));
    }
  }

  lemma {:induction false} TrimStartOfTrimmed(s: string)
    requires forall i :: 0 <= i < |s| ==> IsTrimmed(s[i])
    ensures TrimStart(s) == []
  {
    if s != [] {
      assert IsTrimmed(s[0]);
      TrimStartOfTrimmed(s[1..]);
    }
  }

  lemma {:induction false} TrimStartKeepsVisible(s: string, i: nat)
    requires i < |s| && !IsTrimmed(s[i])
    ensures TrimStart(s) != []
  {
    if IsTrimmed(s[0]) {
      TrimStartKeepsVisible(s[1..], i - 1);
    }
  }

  lemma {:induction false} TrimEndKeepsFirst(s: string)
    requires s != [] && !IsTrimmed(s[0])
    ensures TrimEnd(s) != []
    decreases |s|
  {
    if IsTrimmed(s[|s| - 1]) {
      TrimEndKeepsFirst(s[..|s| - 1]);
    }
  }

  /** String.contains: `part` is a prefix of some suffix of `s`. */
  predicate Contains(s: string, part: string)
    decreases |s|
  {
    part <= s || (s != [] && Contains(s[1..], part))
  }

  /** String.replace(target, replacement) for a non-empty target: every
      occurrence, scanning left to right without overlap, is replaced. */
  function ReplaceAll(s: string, target: string, replacement: string): (r: string)
    requires target != []
    ensures |s| < |target| ==> r == s
    decreases |s|
  {
    if |s| < |target| then s
    else if s[..|target|] == target then replacement + ReplaceAll(s[|target|..], target, replacement)
    else [s[0]] + ReplaceAll(s[1..], target, replacement)
  }

  /** Text with no occurrence of the target is left as it is. */
  lemma {:induction false} ReplaceAllWithoutOccurrence(s: string, target: string, replacement: string)
    requires target != [] && !Contains(s, target)
    ensures ReplaceAll(s, target, replacement) == s
    decreases |s|
  {
    if |s| >= |target| {
      assert !(target <= s);
      ReplaceAllWithoutOccurrence(s[1..], target, replacement);
      assert [s[0]] + s[1..] == s;
    }
  }

  /** Text that cannot start an occurrence is copied ahead of the rest. */
  lemma {:induction false} ReplaceAllSkips(a: string, b: string, target: string, replacement: string)
    requires target != [] && target[0] !in a
    ensures ReplaceAll(a + b, target, replacement) == a + ReplaceAll(b, target, replacement)
    decreases |a|
  {
    if a != [] {
      var s := a + b;
      assert s[0] == a[0] && s[1..] == a[1..] + b;
      if |s| >= |target| {
        assert s[..|target|][0] != target[0];
        ReplaceAllSkips(a[1..], b, target, replacement);
      } else {
        assert |b| < |target|;
      }
    } else {
      assert a + b == b;
    }
  }

  /** Replacement distributes over an occurrence that no earlier text can
      overlap: `a + target + b` becomes `a + replacement` followed by the
      replaced `b`. */
  lemma {:induction false} ReplaceAllSplices(a: string, b: string, target: string, replacement: string)
    requires target != [] && target[0] !in a
    ensures ReplaceAll(a + target + b, target, replacement)
            == a + replacement + ReplaceAll(b, target, replacement)
  {
    assert a + target + b == a + (target + b);
    ReplaceAllSkips(a, target + b, target, replacement);
    var s := target + b;
    assert s[..|target|] == target && s[|target|..] == b;
  }

  /** String.replace(char, char). */
  function ReplaceChar(s: string, from: char, to: char): (r: string)
    ensures |r| == |s|
    ensures forall i :: 0 <= i < |s| ==> r[i] == (if s[i] == from then to else s[i])
  {
    if s == [] then [] else [if s[0] == from then to else s[0]] + ReplaceChar(s[1..], from, to)
  }

  /** Decimal digits of a natural number, as Integer.toString writes them:
      no leading zero except for zero itself. */
  function NatToString(n: nat): (s: string)
    ensures |s| >= 1
    ensures forall i :: 0 <= i < |s| ==> '0' <= s[i] <= '9'
    ensures s[0] == '0' ==> n == 0
    decreases n
  {
    if n < 10 then [(48 + n) as char]
    else NatToString(n / 10) + [(48 + n % 10) as char]
  }

  /** Integer.toString / `%d`: a minus sign before the digits of a negative value. */
  function IntToString(i: int): string
  {
    if i < 0 then "-" + NatToString(-i) else NatToString(i)
  }

  // ---------------------------------------------------------------------
  // Real arithmetic helpers

  lemma NonNegativeFactor(a: real, c: real)
    requires c > 0.0 && a * c >= 0.0
    ensures a >= 0.0
  {
    assert a < 0.0 ==> a * c < 0.0;
  }

  /** A quotient s / c with lo * c <= s <= hi * c lies in [lo, hi]. */
  lemma QuotientBounds(s: real, c: real, lo: real, hi: real)
    requires c > 0.0 && lo * c <= s <= hi * c
    ensures lo <= s / c <= hi
  {
    var q := s / c;
    assert q * c == s;
    assert (q - lo) * c == s - lo * c;
    assert (hi - q) * c == hi * c - s;
    NonNegativeFactor(q - lo, c);
    NonNegativeFactor(hi - q, c);
  }

  /** A factor q with q * c == s and lo * c <= s <= hi * c lies in [lo, hi]. */
  lemma FactorBounds(q: real, s: real, c: real, lo: real, hi: real)
    requires c > 0.0 && q * c == s && lo * c <= s <= hi * c
    ensures lo <= q <= hi
  {
    assert (q - lo) * c == s - lo * c;
    assert (hi - q) * c == hi * c - s;
    NonNegativeFactor(q - lo, c);
    NonNegativeFactor(hi - q, c);
  }

  /** A product of a number in [0, 1] and a non-negative one lies between
      0 and the latter. */
  lemma FractionOf(x: real, u: real)
    requires 0.0 <= x <= 1.0 && 0.0 <= u
    ensures 0.0 <= x * u <= u
  {
    assert u - x * u == (1.0 - x) * u;
  }

  /** The first `n` elements, or all of them (`Stream.limit`). */
  function Take<T>(s: seq<T>, n: int): (r: seq<T>)
    ensures |r| == if n <= 0 then 0 else Min(n, |s|)
    ensures r <= s
  {
    if n <= 0 then [] else if n >= |s| then s else s[..n]
  }
}
