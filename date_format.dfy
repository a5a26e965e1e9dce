/** The launch post's creation time as `D/M/YYYY at H:MM`. */
module DateFormat {
  import opened Wrappers
  import opened Text
  import opened Payload

  /** The minutes with a `0` in front exactly when they are below ten. */
  function PaddedMinutes(minutes: nat): (r: string)
    ensures AllDigits(r) && DigitsToNat(r) == minutes
    ensures minutes < 60 ==> |r| == 2 && (r[0] == '0' <==> minutes < 10)
    ensures MinutesForm(r) && (r[0] == '0' <==> minutes < 10)
  {
    var m := NatToString(minutes);
    if minutes < 10 then
      LeadingZero(m);
      "0" + m
    else
      m
  }

  /** `a`, then the separator, then `b`. */
  function Join(a: string, sep: char, b: string): string
  {
    a + [sep] + b
  }

  /** Day, 1-based month, year and hour unpadded, then the padded minutes: `D/M/YYYY at H:MM`. */
  function FormatDate(d: DateParts): string
  {
    Join(NatToString(d.day), '/',
      Join(NatToString(d.month + 1), '/',
        Join(NatToString(d.year), ' ',
          "at " + Join(NatToString(d.hours), ':', PaddedMinutes(d.minutes)))))
  }

  /**
   * What a `0` in front of the minutes below ten leaves: at least two digits, and a leading `0`
   * only on exactly two.
   */
  predicate MinutesForm(s: string)
  {
    |s| >= 2 && AllDigits(s) && (s[0] == '0' ==> |s| == 2)
  }

  /** A numeral as a template literal prints one (no leading zeros), read as a number. */
  function Number(s: string): Option<nat>
  {
    if Canonical(s) then Some(DigitsToNat(s)) else None
  }

  /** The minutes field, read as a number when it has the padded form. */
  function Minutes(s: string): Option<nat>
  {
    if MinutesForm(s) then Some(DigitsToNat(s)) else None
  }

  /** The five numeric fields, once the separators are gone; the month is written 1-based. */
  function ParseFields(day: string, month: string, year: string, hours: string, minutes: string): Option<DateParts>
  {
    if Number(day).Some? && Number(month).Some? && Number(year).Some? && Number(hours).Some?
       && Minutes(minutes).Some? && Number(month).value >= 1
    then Some(DateParts(Number(day).value, Number(month).value - 1, Number(year).value,
                        Number(hours).value, Minutes(minutes).value))
    else None
  }

  /** Reads `H:MM`. */
  function ParseClock(s: string): Option<(string, string)>
  {
    SplitAt(s, ':')
  }

  /** Reads a string of the shape `FormatDate` writes back into its fields. */
  function ParseDate(s: string): Option<DateParts>
  {
    match SplitAt(s, '/')
    case None => None
    case Some((day, r1)) =>
      match SplitAt(r1, '/')
      case None => None
      case Some((month, r2)) =>
        match SplitAt(r2, ' ')
        case None => None
        case Some((year, r3)) =>
          if !("at " <= r3) then None
          else
            match ParseClock(r3[3..])
            case None => None
            case Some((hours, minutes)) => ParseFields(day, month, year, hours, minutes)
  }

  /** The formatted string loses nothing: parsing it gives back every field. */
  lemma ParseFormatDate(d: DateParts)
    ensures ParseDate(FormatDate(d)) == Some(d)
  {
    ParseLayers(d);
    FieldsOfFormat(d);
  }

  /** The written fields read back as the date's own. */
  lemma FieldsOfFormat(d: DateParts)
    ensures ParseFields(NatToString(d.day), NatToString(d.month + 1), NatToString(d.year),
                        NatToString(d.hours), PaddedMinutes(d.minutes)) == Some(d)
  {
    NumberField(d.day);
    NumberField(d.month + 1);
    NumberField(d.year);
    NumberField(d.hours);
    MinutesField(d.minutes);
  }

  /** An unpadded number reads back as itself and holds none of the separators. */
  lemma NumberField(n: nat)
    ensures Number(NatToString(n)) == Some(n)
    ensures '/' !in NatToString(n) && ' ' !in NatToString(n) && ':' !in NatToString(n)
  {
    var s := NatToString(n);
    assert !IsDigit('/') && !IsDigit(' ') && !IsDigit(':');
  }

  lemma MinutesField(minutes: nat)
    ensures Minutes(PaddedMinutes(minutes)) == Some(minutes)
  {
  }

  /** A minutes field of the padded form is the one `PaddedMinutes` prints for its value. */
  lemma MinutesUnique(s: string)
    requires MinutesForm(s)
    ensures s == PaddedMinutes(DigitsToNat(s))
  {
    if s[0] == '0' {
      assert DigitsToNat(s) == DigitsToNat(s[..1]) * 10 + DigitValue(s[1]);
      assert DigitsToNat(s[..1]) == DigitsToNat([]) * 10 + DigitValue(s[0]);
      assert NatToString(DigitsToNat(s)) == [s[1]];
    } else {
      CanonicalUnique(s);
    }
  }

  /**
   * The formatted string is the only one that parses to its date: unpadded day, month, year and
   * hours, two-digit minutes below ten.
   */
  lemma ParseDateOnlyFormat(s: string, d: DateParts)
    requires ParseDate(s) == Some(d)
    ensures s == FormatDate(d)
  {
    var (day, r1) := SplitAt(s, '/').value;
    var (month, r2) := SplitAt(r1, '/').value;
    var (year, r3) := SplitAt(r2, ' ').value;
    var (hours, minutes) := ParseClock(r3[3..]).value;
    assert r3 == "at " + Join(hours, ':', minutes);
    assert s == Join(day, '/', Join(month, '/', Join(year, ' ', "at " + Join(hours, ':', minutes))));
    FieldsOnlyFormat(day, month, year, hours, minutes, d);
  }

  /** Fields that parse to a date are the ones the formatter prints for it. */
  lemma FieldsOnlyFormat(day: string, month: string, year: string, hours: string, minutes: string, d: DateParts)
    requires ParseFields(day, month, year, hours, minutes) == Some(d)
    ensures && day == NatToString(d.day) && month == NatToString(d.month + 1) && year == NatToString(d.year)
            && hours == NatToString(d.hours) && minutes == PaddedMinutes(d.minutes)
  {
    NumberOnly(day, d.day);
    NumberOnly(month, d.month + 1);
    NumberOnly(year, d.year);
    NumberOnly(hours, d.hours);
    MinutesUnique(minutes);
  }

  /** A field that reads as `n` is `n` printed unpadded. */
  lemma NumberOnly(s: string, n: nat)
    requires Number(s) == Some(n)
    ensures s == NatToString(n)
  {
    CanonicalUnique(s);
  }

  /** Parsing peels the separators off in the order the formatter put them on. */
  lemma ParseLayers(d: DateParts)
    ensures ParseDate(FormatDate(d))
            == ParseFields(NatToString(d.day), NatToString(d.month + 1), NatToString(d.year),
                           NatToString(d.hours), PaddedMinutes(d.minutes))
  {
    var dd, mm, yy, hh, mi := NatToString(d.day), NatToString(d.month + 1), NatToString(d.year),
                             NatToString(d.hours), PaddedMinutes(d.minutes);
    NumberField(d.day);
    NumberField(d.month + 1);
    NumberField(d.year);
    NumberField(d.hours);
    var r4 := Join(hh, ':', mi);
    var r3 := "at " + r4;
    var r2 := Join(yy, ' ', r3);
    var r1 := Join(mm, '/', r2);
    SplitAtJoin(dd, '/', r1);
    SplitAtJoin(mm, '/', r2);
    SplitAtJoin(yy, ' ', r3);
    assert "at " <= r3 && r3[3..] == r4;
    SplitAtJoin(hh, ':', mi);
  }

  /** For a clock minute the string ends in `:` and two digits, the first `0` exactly below ten. */
  lemma MinutesAreTwoDigits(d: DateParts)
    requires d.minutes < 60
    ensures var s := FormatDate(d);
      |s| >= 3 && s[|s| - 3] == ':' && IsDigit(s[|s| - 2]) && IsDigit(s[|s| - 1])
      && (s[|s| - 2] == '0' <==> d.minutes < 10)
  {
    var p := PaddedMinutes(d.minutes);
    assert |p| == 2 && IsDigit(p[0]) && IsDigit(p[1]) && (p[0] == '0' <==> d.minutes < 10);
    var end := [':'] + p;
    var clock := Join(NatToString(d.hours), ':', p);
    var r3 := "at " + clock;
    var r2 := Join(NatToString(d.year), ' ', r3);
    var r1 := Join(NatToString(d.month + 1), '/', r2);
    assert clock == NatToString(d.hours) + end;
    EndsWith(NatToString(d.hours), end);
    EndsWith("at ", clock);
    EndsWith(NatToString(d.year) + [' '], r3);
    EndsWith(NatToString(d.month + 1) + ['/'], r2);
    EndsWith(NatToString(d.day) + ['/'], r1);
    var s := FormatDate(d);
    assert s[|s| - 3..] == end;
    assert s[|s| - 3] == end[0] && s[|s| - 2] == p[0] && s[|s| - 1] == p[1];
  }

  /** The last three characters of `a + b` are those of `b`. */
  lemma EndsWith(a: string, b: string)
    requires |b| >= 3
    ensures (a + b)[|a + b| - 3..] == b[|b| - 3..]
  {
  }

  /** The epoch in UTC: `1/1/1970 at 0:00`. */
  lemma EpochExample()
    ensures FormatDate(DateParts(1, 0, 1970, 0, 0)) == "1/1/1970 at 0:00"
  {
    assert NatToString(1970) == "1970" by {
      assert NatToString(1) == "1";
      assert NatToString(19) == "19";
      assert NatToString(197) == "197";
    }
  }
}
