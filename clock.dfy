/**
 * Wall-clock times as Python's naive `datetime` holds them (proleptic
 * Gregorian calendar, years 1 to 9999, microsecond resolution), their
 * distance in microseconds, and the ISO 8601 text that `datetime.isoformat()`
 * writes and `datetime.fromisoformat()` reads back.
 */
module Clock {
  import opened Wrappers
  import opened Text

  datatype DateTime = DateTime(year: int, month: int, day: int, hour: int, minute: int, second: int, micro: int)

  predicate IsLeap(y: int)
  {
    y % 4 == 0 && (y % 100 != 0 || y % 400 == 0)
  }

  function DaysInMonth(y: int, m: int): int
    requires 1 <= m <= 12
  {
    if m == 2 then (if IsLeap(y) then 29 else 28)
    else if m == 4 || m == 6 || m == 9 || m == 11 then 30
    else 31
  }

  function DaysInYear(y: int): int
  {
    if IsLeap(y) then 366 else 365
  }

  predicate ValidDate(y: int, m: int, d: int)
  {
    1 <= y <= 9999 && 1 <= m <= 12 && 1 <= d <= DaysInMonth(y, m)
  }

  predicate ValidDateTime(t: DateTime)
  {
    && ValidDate(t.year, t.month, t.day)
    && 0 <= t.hour < 24 && 0 <= t.minute < 60 && 0 <= t.second < 60 && 0 <= t.micro < 1000000
  }

  /** A `datetime` value; every field is in range. */
  type Instant = t: DateTime | ValidDateTime(t) witness DateTime(1, 1, 1, 0, 0, 0, 0)

  function DaysBeforeYear(y: int): nat
    requires y >= 1
  {
    if y == 1 then 0 else DaysBeforeYear(y - 1) + DaysInYear(y - 1)
  }

  function DaysBeforeMonth(y: int, m: int): nat
    requires 1 <= m <= 12
  {
    if m == 1 then 0 else DaysBeforeMonth(y, m - 1) + DaysInMonth(y, m - 1)
  }

  /** `date.toordinal()`: 0001-01-01 is day 1. */
  function Ordinal(t: Instant): int
  {
    DaysBeforeYear(t.year) + DaysBeforeMonth(t.year, t.month) + t.day
  }

  /** Microseconds since 0001-01-01 00:00:00 minus one day; differences are `timedelta`s. */
  function Micros(t: Instant): int
  {
    (((Ordinal(t) * 24 + t.hour) * 60 + t.minute) * 60 + t.second) * 1000000 + t.micro
  }

  const MicrosPerSecond: int := 1000000
  const MicrosPerMinute: int := 60000000

  // ---------------------------------------------------------------- ISO text

  function Pow10(w: nat): nat
  {
    if w == 0 then 1 else 10 * Pow10(w - 1)
  }

  /** The `w` last decimal digits of `n`, zero padded (`'%0*d' % (w, n)` for `n < 10^w`). */
  function Digits(n: nat, w: nat): (r: string)
    ensures |r| == w
    ensures forall i :: 0 <= i < |r| ==> IsAsciiDigit(r[i])
  {
    if w == 0 then "" else Digits(n / 10, w - 1) + [DigitChar(n % 10)]
  }

  lemma {:induction false} ParseDigits(n: nat, w: nat)
    requires n < Pow10(w)
    ensures ParseNat(Digits(n, w)) == n
  {
    if w > 0 {
      var r := Digits(n, w);
      assert r[..|r| - 1] == Digits(n / 10, w - 1);
      assert n / 10 < Pow10(w - 1);
      ParseDigits(n / 10, w - 1);
      assert DigitValue(DigitChar(n % 10)) == n % 10;
    }
  }

  predicate AllDigits(s: string)
  {
    forall i :: 0 <= i < |s| ==> IsAsciiDigit(s[i])
  }

  /** The date part of `isoformat()`: `YYYY-MM-DD`. */
  function DateText(t: Instant): (r: string)
    ensures |r| == 10
  {
    Digits(t.year, 4) + "-" + Digits(t.month, 2) + "-" + Digits(t.day, 2)
  }

  /** The time part of `isoformat()`: `HH:MM:SS`, followed by `.ffffff` only when the microseconds are not zero. */
  function TimeText(t: Instant): string
  {
    ClockText(t) + (if t.micro == 0 then "" else "." + Digits(t.micro, 6))
  }

  /** `HH:MM:SS`. */
  function ClockText(t: Instant): (r: string)
    ensures |r| == 8
  {
    Digits(t.hour, 2) + ":" + Digits(t.minute, 2) + ":" + Digits(t.second, 2)
  }

  /** `t.isoformat()`. */
  function IsoFormat(t: Instant): string
  {
    DateText(t) + "T" + TimeText(t)
  }

  function Field(s: string, i: nat, w: nat): Option<nat>
  {
    if i + w <= |s| && AllDigits(s[i..i + w]) then Some(ParseNat(s[i..i + w])) else None
  }

  /** The microseconds of a time part after its seconds: nothing, `.fff` or `.ffffff`. */
  function Fraction(f: string): Option<nat>
  {
    if |f| == 0 then Some(0)
    else if |f| == 4 && f[0] == '.' && AllDigits(f[1..]) then Some(ParseNat(f[1..]) * 1000)
    else if |f| == 7 && f[0] == '.' && AllDigits(f[1..]) then Some(ParseNat(f[1..]))
    else None
  }

  /**
   * The time part of an ISO string: `HH`, `HH:MM`, `HH:MM:SS`, `HH:MM:SS.fff`
   * or `HH:MM:SS.ffffff`, as (hour, minute, second, microsecond).
   */
  function TimePart(t: string): Option<(nat, nat, nat, nat)>
  {
    match Field(t, 0, 2)
    case None => None
    case Some(h) =>
      if |t| == 2 then Some((h, 0, 0, 0))
      else if t[2] != ':' then None
      else match Field(t, 3, 2)
        case None => None
        case Some(m) =>
          if |t| == 5 then Some((h, m, 0, 0))
          else if t[5] != ':' then None
          else match Field(t, 6, 2)
            case None => None
            case Some(sec) =>
              match Fraction(t[8..])
              case None => None
              case Some(us) => Some((h, m, sec, us))
  }

  /**
   * `datetime.fromisoformat(s)` for naive times: `YYYY-MM-DD`, optionally followed
   * by any one separator character and a time part. None where Python raises `ValueError`.
   */
  function ParseIso(s: string): (r: Option<Instant>)
  {
    if |s| < 10 || s[4] != '-' || s[7] != '-' then None
    else match (Field(s, 0, 4), Field(s, 5, 2), Field(s, 8, 2))
      case (Some(y), Some(mo), Some(d)) =>
        var time := if |s| == 10 then Some((0, 0, 0, 0)) else TimePart(s[11..]);
        if time.None? then None
        else
          var dt := DateTime(y, mo, d, time.value.0, time.value.1, time.value.2, time.value.3);
          if ValidDateTime(dt) then var i: Instant := dt; Some(i) else None
      case _ => None
  }

  lemma FieldOf(prefix: string, n: nat, w: nat, rest: string)
    requires n < Pow10(w)
    ensures Field(prefix + Digits(n, w) + rest, |prefix|, w) == Some(n)
  {
    var s := prefix + Digits(n, w) + rest;
    assert s[|prefix|..|prefix| + w] == Digits(n, w);
    ParseDigits(n, w);
  }

  lemma FieldOfPrefix(p: string, q: string, i: nat, w: nat)
    requires i + w <= |p|
    ensures Field(p + q, i, w) == Field(p, i, w)
  {
    assert (p + q)[i..i + w] == p[i..i + w];
  }

  lemma DateFields(t: Instant)
    ensures var d := DateText(t);
      d[4] == '-' && d[7] == '-'
      && Field(d, 0, 4) == Some(t.year) && Field(d, 5, 2) == Some(t.month) && Field(d, 8, 2) == Some(t.day)
  {
    assert Pow10(2) == 100 && Pow10(4) == 10000;
    var y, mo, d := Digits(t.year, 4), Digits(t.month, 2), Digits(t.day, 2);
    FieldOf([], t.year, 4, "-" + mo + "-" + d);
    assert [] + y + ("-" + mo + "-" + d) == DateText(t);
    FieldOf(y + "-", t.month, 2, "-" + d);
    assert (y + "-") + mo + ("-" + d) == DateText(t);
    FieldOf(y + "-" + mo + "-", t.day, 2, []);
    assert (y + "-" + mo + "-") + d + [] == DateText(t);
  }

  lemma FractionOf(us: nat)
    requires us < 1000000
    ensures Fraction(if us == 0 then "" else "." + Digits(us, 6)) == Some(us)
  {
    if us != 0 {
      var f := "." + Digits(us, 6);
      assert f[1..] == Digits(us, 6);
      assert Pow10(6) == 1000000;
      ParseDigits(us, 6);
    }
  }

  lemma ClockFields(t: Instant)
    ensures var c := ClockText(t);
      c[2] == ':' && c[5] == ':'
      && Field(c, 0, 2) == Some(t.hour) && Field(c, 3, 2) == Some(t.minute) && Field(c, 6, 2) == Some(t.second)
  {
    assert Pow10(2) == 100;
    var h, mi, se := Digits(t.hour, 2), Digits(t.minute, 2), Digits(t.second, 2);
    FieldOf([], t.hour, 2, ":" + mi + ":" + se);
    assert [] + h + (":" + mi + ":" + se) == ClockText(t);
    FieldOf(h + ":", t.minute, 2, ":" + se);
    assert (h + ":") + mi + (":" + se) == ClockText(t);
    FieldOf(h + ":" + mi + ":", t.second, 2, []);
    assert (h + ":" + mi + ":") + se + [] == ClockText(t);
  }

  lemma TimeFields(t: Instant)
    ensures TimePart(TimeText(t)) == Some((t.hour, t.minute, t.second, t.micro))
  {
    var c := ClockText(t);
    var frac := if t.micro == 0 then "" else "." + Digits(t.micro, 6);
    var time := TimeText(t);
    ClockFields(t);
    FieldOfPrefix(c, frac, 0, 2);
    FieldOfPrefix(c, frac, 3, 2);
    FieldOfPrefix(c, frac, 6, 2);
    assert time[2] == ':' && time[5] == ':';
    assert time[8..] == frac;
    FractionOf(t.micro);
  }

  /** Every `isoformat()` string reads back as the same `datetime`, so stamps survive a save and a load. */
  lemma IsoRoundTrip(t: Instant)
    ensures ParseIso(IsoFormat(t)) == Some(t)
  {
    var d, tt := DateText(t), TimeText(t);
    var s := IsoFormat(t);
    assert s == d + ("T" + tt);
    DateFields(t);
    FieldOfPrefix(d, "T" + tt, 0, 4);
    FieldOfPrefix(d, "T" + tt, 5, 2);
    FieldOfPrefix(d, "T" + tt, 8, 2);
    assert s[4] == '-' && s[7] == '-';
    assert s[11..] == tt;
    TimeFields(t);
  }

  // ---------------------------------------------------------------- date arithmetic

  /** `t - timedelta(days=1)`. */
  function PrevDay(t: Instant): (r: Instant)
    requires Ordinal(t) > 1
    ensures Ordinal(r) == Ordinal(t) - 1
    ensures r.hour == t.hour && r.minute == t.minute && r.second == t.second && r.micro == t.micro
  {
    if t.day > 1 then t.(day := t.day - 1)
    else if t.month > 1 then t.(month := t.month - 1, day := DaysInMonth(t.year, t.month - 1))
    else
      DaysBeforeDecember(t.year - 1);
      t.(year := t.year - 1, month := 12, day := 31)
  }

  lemma {:induction false} DaysBeforeDecember(y: int)
    ensures DaysBeforeMonth(y, 12) + 31 == DaysInYear(y)
  {
    var feb := DaysInMonth(y, 2);
    assert DaysBeforeMonth(y, 2) == 31;
    assert DaysBeforeMonth(y, 3) == 31 + feb;
    assert DaysBeforeMonth(y, 4) == 62 + feb;
    assert DaysBeforeMonth(y, 5) == 92 + feb;
    assert DaysBeforeMonth(y, 6) == 123 + feb;
    assert DaysBeforeMonth(y, 7) == 153 + feb;
    assert DaysBeforeMonth(y, 8) == 184 + feb;
    assert DaysBeforeMonth(y, 9) == 215 + feb;
    assert DaysBeforeMonth(y, 10) == 245 + feb;
    assert DaysBeforeMonth(y, 11) == 276 + feb;
    assert DaysBeforeMonth(y, 12) == 306 + feb;
  }

  /** `t - timedelta(days=k)`. */
  function MinusDays(t: Instant, k: nat): (r: Instant)
    requires Ordinal(t) > k
    ensures Ordinal(r) == Ordinal(t) - k
    ensures r.hour == t.hour && r.minute == t.minute && r.second == t.second && r.micro == t.micro
    decreases k
  {
    if k == 0 then t else MinusDays(PrevDay(t), k - 1)
  }

  /** The three parts of the day used by the hooks: 5-11 morning, 12-16 afternoon, otherwise evening. */
  function DayPeriod(hour: int): (p: string)
    ensures p == "morning" <==> 5 <= hour < 12
    ensures p == "afternoon" <==> 12 <= hour < 17
    ensures p == "evening" <==> !(5 <= hour < 17)
  {
    if 5 <= hour < 12 then "morning" else if 12 <= hour < 17 then "afternoon" else "evening"
  }
}
