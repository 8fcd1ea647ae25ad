/** UTC timestamps and their ISO 8601 text. */
module Time {
  import opened Text

  datatype Instant = Instant(year: nat, month: nat, day: nat, hour: nat, minute: nat, second: nat, micro: nat) {
    predicate Valid() {
      year < 10000 && month < 13 && day < 32 && hour < 24 && minute < 60 && second < 60 && micro < 1000000
    }

    /** Position on the time line; days that no month has leave gaps only. */
    function Rank(): int {
      micro + 1000000 * (second + 60 * (minute + 60 * (hour + 24 * (day + 32 * (month + 13 * year)))))
    }

    /** The microsecond field, left out when it is zero, and the UTC offset. */
    function Fraction(): string {
      (if micro == 0 then "" else "." + Padded(micro, 6)) + "+00:00"
    }

    function Clock(): string {
      Padded(hour, 2) + (":" + (Padded(minute, 2) + (":" + (Padded(second, 2) + Fraction()))))
    }

    function Iso(): string {
      Padded(year, 4) + ("-" + (Padded(month, 2) + ("-" + (Padded(day, 2) + ("T" + Clock())))))
    }
  }

  /** Year first, then month, day, hour, minute, second and microsecond. */
  predicate Earlier(a: Instant, b: Instant) {
    || a.year < b.year
    || (a.year == b.year && a.month < b.month)
    || ((a.year, a.month) == (b.year, b.month) && a.day < b.day)
    || ((a.year, a.month, a.day) == (b.year, b.month, b.day) && a.hour < b.hour)
    || ((a.year, a.month, a.day, a.hour) == (b.year, b.month, b.day, b.hour) && a.minute < b.minute)
    || ((a.year, a.month, a.day, a.hour, a.minute) == (b.year, b.month, b.day, b.hour, b.minute)
        && a.second < b.second)
    || ((a.year, a.month, a.day, a.hour, a.minute, a.second) == (b.year, b.month, b.day, b.hour, b.minute, b.second)
        && a.micro < b.micro)
  }

  lemma Digit(high: int, low: int, high': int, low': int, base: int)
    requires 0 <= low < base && 0 <= low' < base
    ensures low + base * high < low' + base * high' <==> high < high' || (high == high' && low < low')
    ensures low + base * high == low' + base * high' <==> high == high' && low == low'
  {
    if high < high' { Larger(high, high', base); }
    if high' < high { Larger(high', high, base); }
  }

  lemma Larger(x: int, y: int, base: int)
    requires x < y && 0 < base
    ensures base * x + base <= base * y
  {
    assert base * x + base == base * (x + 1);
    assert base * y == base * (x + 1) + base * (y - x - 1);
  }

  function DayNumber(i: Instant): int { i.day + 32 * (i.month + 13 * i.year) }

  lemma RankParts(i: Instant)
    ensures i.Rank() == i.micro + 1000000 * (i.second + 60 * (i.minute + 60 * (i.hour + 24 * DayNumber(i))))
  {
  }

  lemma DaysAreOrdered(a: Instant, b: Instant)
    requires a.Valid() && b.Valid()
    ensures DayNumber(a) == DayNumber(b) <==> (a.year, a.month, a.day) == (b.year, b.month, b.day)
    ensures DayNumber(a) < DayNumber(b) <==>
              || a.year < b.year || (a.year == b.year && a.month < b.month)
              || ((a.year, a.month) == (b.year, b.month) && a.day < b.day)
  {
    Digit(a.year, a.month, b.year, b.month, 13);
    Digit(a.month + 13 * a.year, a.day, b.month + 13 * b.year, b.day, 32);
  }

  /** The rank orders instants by time. */
  lemma RankIsTime(a: Instant, b: Instant)
    requires a.Valid() && b.Valid()
    ensures a.Rank() < b.Rank() <==> Earlier(a, b)
    ensures a.Rank() == b.Rank() <==> a == b
  {
    hide DayNumber, Instant.Rank;
    DaysAreOrdered(a, b);
    RankParts(a);
    RankParts(b);
    var d, d' := DayNumber(a), DayNumber(b);
    var h, h' := a.hour + 24 * d, b.hour + 24 * d';
    var n, n' := a.minute + 60 * h, b.minute + 60 * h';
    var s, s' := a.second + 60 * n, b.second + 60 * n';
    Digit(d, a.hour, d', b.hour, 24);
    Digit(h, a.minute, h', b.minute, 60);
    Digit(n, a.second, n', b.second, 60);
    Digit(s, a.micro, s', b.micro, 1000000);
  }

  lemma Powers()
    ensures Pow10(2) == 100 && Pow10(4) == 10000 && Pow10(6) == 1000000
  {
    assert Pow10(1) == 10;
    assert Pow10(3) == 1000;
    assert Pow10(5) == 100000;
  }

  lemma {:induction false} FieldSplit(n: nat, m: nat, width: nat, c: string, a: string, b: string)
    requires n < Pow10(width) && m < Pow10(width)
    requires Padded(n, width) + (c + a) == Padded(m, width) + (c + b)
    ensures n == m && a == b
  {
    PaddedLength(n, width);
    PaddedLength(m, width);
    SplitAt(Padded(n, width), c + a, Padded(m, width), c + b);
    PaddedInjective(n, m, width);
    SplitAt(c, a, c, b);
  }

  lemma FractionInjective(a: Instant, b: Instant)
    requires a.Valid() && b.Valid() && a.Fraction() == b.Fraction()
    ensures a.micro == b.micro
  {
    PaddedLength(a.micro, 6);
    PaddedLength(b.micro, 6);
    Powers();
    if a.micro != 0 && b.micro != 0 {
      Assoc(".", Padded(a.micro, 6), "+00:00");
      Assoc(".", Padded(b.micro, 6), "+00:00");
      SplitAt(".", Padded(a.micro, 6) + "+00:00", ".", Padded(b.micro, 6) + "+00:00");
      SplitAt(Padded(a.micro, 6), "+00:00", Padded(b.micro, 6), "+00:00");
      PaddedInjective(a.micro, b.micro, 6);
    } else {
      assert |a.Fraction()| == |b.Fraction()|;
    }
  }

  lemma ClockInjective(a: Instant, b: Instant)
    requires a.Valid() && b.Valid() && a.Clock() == b.Clock()
    ensures a.hour == b.hour && a.minute == b.minute && a.second == b.second && a.micro == b.micro
  {
    Powers();
    var s, t := Padded(a.second, 2) + a.Fraction(), Padded(b.second, 2) + b.Fraction();
    FieldSplit(a.hour, b.hour, 2, ":", Padded(a.minute, 2) + (":" + s), Padded(b.minute, 2) + (":" + t));
    FieldSplit(a.minute, b.minute, 2, ":", s, t);
    PaddedLength(a.second, 2);
    PaddedLength(b.second, 2);
    SplitAt(Padded(a.second, 2), a.Fraction(), Padded(b.second, 2), b.Fraction());
    PaddedInjective(a.second, b.second, 2);
    FractionInjective(a, b);
  }

  /** Different instants have different texts. */
  lemma IsoInjective(a: Instant, b: Instant)
    requires a.Valid() && b.Valid() && a.Iso() == b.Iso()
    ensures a == b
  {
    Powers();
    var s, t := Padded(a.day, 2) + ("T" + a.Clock()), Padded(b.day, 2) + ("T" + b.Clock());
    FieldSplit(a.year, b.year, 4, "-", Padded(a.month, 2) + ("-" + s), Padded(b.month, 2) + ("-" + t));
    FieldSplit(a.month, b.month, 2, "-", s, t);
    FieldSplit(a.day, b.day, 2, "T", a.Clock(), b.Clock());
    ClockInjective(a, b);
  }

  // ----- reading the text -----

  /** The text of the time from the seconds on: a fraction of six digits unless it is zero, and UTC. */
  predicate ReadsFraction(t: string, micro: nat) {
    if micro == 0 then t == "+00:00" else |t| == 13 && t[0] == '.' && Spells(t[1..7], 6, micro) && t[7..] == "+00:00"
  }

  /** `YYYY-MM-DDTHH:MM:SS`, the fraction and the offset. */
  predicate ReadsAs(t: string, i: Instant) {
    && |t| >= 19
    && Spells(t[0..4], 4, i.year) && t[4] == '-' && Spells(t[5..7], 2, i.month) && t[7] == '-'
    && Spells(t[8..10], 2, i.day) && t[10] == 'T' && Spells(t[11..13], 2, i.hour) && t[13] == ':'
    && Spells(t[14..16], 2, i.minute) && t[16] == ':' && Spells(t[17..19], 2, i.second)
    && ReadsFraction(t[19..], i.micro)
  }

  lemma FieldReads(field: string, c: char, rest: string)
    ensures var t := field + ([c] + rest);
            t[..|field|] == field && t[|field|] == c && t[|field| + 1..] == rest
  {
  }

  lemma FractionReads(i: Instant)
    requires i.Valid()
    ensures ReadsFraction(i.Fraction(), i.micro)
  {
    hide Padded, NumberOf, AllDigits, Pow10;
    Powers();
    if i.micro != 0 {
      PaddedReadsBack(i.micro, 6);
      var t := i.Fraction();
      assert t == "." + Padded(i.micro, 6) + "+00:00";
      assert t[1..7] == Padded(i.micro, 6) && t[7..] == "+00:00";
    }
  }

  lemma ClockReads(i: Instant)
    requires i.Valid()
    ensures var t := i.Clock();
            && |t| >= 8
            && Spells(t[0..2], 2, i.hour) && t[2] == ':' && Spells(t[3..5], 2, i.minute) && t[5] == ':'
            && Spells(t[6..8], 2, i.second) && ReadsFraction(t[8..], i.micro)
  {
    hide Padded, NumberOf, AllDigits, Pow10, ReadsFraction, Instant.Fraction;
    Powers();
    PaddedReadsBack(i.hour, 2);
    PaddedReadsBack(i.minute, 2);
    PaddedReadsBack(i.second, 2);
    FractionReads(i);
    var t := i.Clock();
    var r := Padded(i.minute, 2) + (":" + (Padded(i.second, 2) + i.Fraction()));
    var q := Padded(i.second, 2) + i.Fraction();
    FieldReads(Padded(i.hour, 2), ':', r);
    FieldReads(Padded(i.minute, 2), ':', q);
    assert t[0..2] == Padded(i.hour, 2) && t[3..] == r;
    assert t[3..5] == r[0..2] == Padded(i.minute, 2) && t[5] == r[2] && t[6..] == r[3..] == q;
    assert t[6..8] == q[..2] == Padded(i.second, 2) && t[8..] == q[2..] == i.Fraction();
  }

  /** The ISO text reads back as the instant, field by field. */
  lemma IsoReads(i: Instant)
    requires i.Valid()
    ensures ReadsAs(i.Iso(), i)
  {
    hide Padded, NumberOf, AllDigits, Pow10, ReadsFraction, Instant.Clock;
    Powers();
    PaddedReadsBack(i.year, 4);
    PaddedReadsBack(i.month, 2);
    PaddedReadsBack(i.day, 2);
    ClockReads(i);
    var t := i.Iso();
    var q := Padded(i.day, 2) + ("T" + i.Clock());
    var r := Padded(i.month, 2) + ("-" + q);
    FieldReads(Padded(i.year, 4), '-', r);
    FieldReads(Padded(i.month, 2), '-', q);
    FieldReads(Padded(i.day, 2), 'T', i.Clock());
    var c := i.Clock();
    assert t[0..4] == Padded(i.year, 4) && t[5..] == r;
    assert t[5..7] == r[0..2] == Padded(i.month, 2) && t[7] == r[2] && t[8..] == r[3..] == q;
    assert t[8..10] == q[..2] == Padded(i.day, 2) && t[10] == q[2] && t[11..] == q[3..] == c;
    assert t[11..13] == c[0..2] && t[13] == c[2] && t[14..16] == c[3..5] && t[16] == c[5];
    assert t[17..19] == c[6..8] && t[19..] == c[8..];
  }
}
