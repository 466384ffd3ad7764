/** Instants as text in the date-time form of section 5.6 of RFC 3339. */
module TimeText {
  import opened Calendar
  import opened TableNames

  const BILLION := 1_000_000_000

  datatype Instant = Instant(date: Date, hour: int, minute: int, second: int, ns: int)

  /** Euclidean division throughout: times before the epoch round towards the past. */
  function SplitInstant(nanos: int): Instant {
    var secs := nanos / BILLION;
    var time := secs % 86400;
    Instant(CivilDate(secs / 86400), time / 3600, time % 3600 / 60, time % 60, nanos % BILLION)
  }

  function Recompose(i: Instant): int {
    (DayNumber(i.date) * 86400 + i.hour * 3600 + i.minute * 60 + i.second) * BILLION + i.ns
  }

  predicate ValidInstant(i: Instant) {
    ValidDate(i.date) && 0 <= i.hour < 24 && 0 <= i.minute < 60 && 0 <= i.second < 60 && 0 <= i.ns < BILLION
  }

  lemma {:induction false} SplitExact(nanos: int)
    ensures ValidInstant(SplitInstant(nanos)) && Recompose(SplitInstant(nanos)) == nanos
  {
    hide CivilDate, DayNumber, ValidDate;
    var secs := nanos / BILLION;
    CivilDateExact(secs / 86400);
    var time := secs % 86400;
    assert time == time / 3600 * 3600 + time % 3600 / 60 * 60 + time % 60;
  }

  /** Each valid date and time has its own instant. */
  lemma {:induction false} RecomposeExact(i: Instant)
    requires ValidInstant(i)
    ensures SplitInstant(Recompose(i)) == i
  {
    var n := Recompose(i);
    var secs := DayNumber(i.date) * 86400 + i.hour * 3600 + i.minute * 60 + i.second;
    var time := i.hour * 3600 + i.minute * 60 + i.second;
    assert n / BILLION == secs && n % BILLION == i.ns;
    assert secs / 86400 == DayNumber(i.date) && secs % 86400 == time;
    assert time / 3600 == i.hour && time % 3600 == i.minute * 60 + i.second && time % 60 == i.second;
    CivilDateUnique(i.date);
  }

  predicate Signed64(n: int) {
    -0x8000_0000_0000_0000 <= n < 0x8000_0000_0000_0000
  }

  /** Within 64 bits the years have four digits. */
  lemma {:induction false} FourDigitYears(nanos: int)
    requires Signed64(nanos)
    ensures 1677 <= SplitInstant(nanos).date.year <= 2262
  {
    var days := nanos / BILLION / 86400;
    assert -106752 <= days <= 106751;
    CivilDateExact(days);
    var d := CivilDate(days);
    YearSpan(d);
    if d.year < 1677 { LeapDaysGrow(d.year + 1, 1677); LeapDaysStep(d.year); assert false; }
    if d.year > 2262 { LeapDaysGrow(2263, d.year); assert false; }
  }

  // ----- Digits -----

  function Padded(n: int, width: nat): (s: string)
    requires n >= 0
    ensures |s| == width
  {
    if width == 0 then "" else Padded(n / 10, width - 1) + [Digit(n % 10)]
  }

  function DigitValue(c: char): int {
    c as int - '0' as int
  }

  function ValueOf(s: string): int {
    if s == "" then 0 else ValueOf(s[..|s| - 1]) * 10 + DigitValue(s[|s| - 1])
  }

  function Power10(k: nat): nat {
    if k == 0 then 1 else 10 * Power10(k - 1)
  }

  predicate IsDigit(c: char) {
    '0' <= c <= '9'
  }

  lemma {:induction false} DigitMeans(d: nat)
    requires d < 10
    ensures DigitValue(Digit(d)) == d && IsDigit(Digit(d))
  {
    assert "0123456789"[0] == '0' && "0123456789"[1] == '1' && "0123456789"[2] == '2' && "0123456789"[3] == '3';
    assert "0123456789"[4] == '4' && "0123456789"[5] == '5' && "0123456789"[6] == '6' && "0123456789"[7] == '7';
  }

  lemma {:induction false} PaddedMeans(n: int, width: nat)
    requires 0 <= n < Power10(width)
    ensures ValueOf(Padded(n, width)) == n && forall c :: c in Padded(n, width) ==> IsDigit(c)
    decreases width
  {
    if width > 0 {
      PaddedMeans(n / 10, width - 1);
      DigitMeans(n % 10);
      var s := Padded(n, width);
      assert s[..|s| - 1] == Padded(n / 10, width - 1) && s[|s| - 1] == Digit(n % 10);
    }
  }

  /** The string without its trailing zeros. */
  function Trim(s: string): string {
    if s != "" && s[|s| - 1] == '0' then Trim(s[..|s| - 1]) else s
  }

  function Zeros(k: nat): (s: string)
    ensures |s| == k
  {
    if k == 0 then "" else Zeros(k - 1) + "0"
  }

  lemma {:induction false} ZerosAt(k: nat, i: nat)
    requires i < k
    ensures Zeros(k)[i] == '0'
    decreases k
  {
    if i < k - 1 { ZerosAt(k - 1, i); }
  }

  /** Trimming takes zeros off the end, and no more digit is zero there. */
  lemma {:induction false} TrimPrefix(s: string)
    ensures |Trim(s)| <= |s| && Trim(s) == s[..|Trim(s)|]
    ensures forall k :: |Trim(s)| <= k < |s| ==> s[k] == '0'
    ensures Trim(s) != "" ==> Trim(s)[|Trim(s)| - 1] != '0'
    decreases |s|
  {
    if s != "" && s[|s| - 1] == '0' {
      var t := s[..|s| - 1];
      TrimPrefix(t);
      forall k | |Trim(t)| <= k < |s| ensures s[k] == '0' {
        if k < |t| { assert s[k] == t[k]; }
      }
    }
  }

  lemma {:induction false} TrimPads(s: string)
    ensures |Trim(s)| <= |s| && Trim(s) + Zeros(|s| - |Trim(s)|) == s && Trim(s) == s[..|Trim(s)|]
    ensures Trim(s) != "" ==> Trim(s)[|Trim(s)| - 1] != '0'
  {
    hide Trim, Zeros;
    TrimPrefix(s);
    var t := Trim(s);
    var k := |s| - |t|;
    forall i | 0 <= i < k ensures Zeros(k)[i] == s[|t| + i] { ZerosAt(k, i); }
    assert t + Zeros(k) == s;
  }

  // ----- Text -----

  function DateTimeText(i: Instant): (s: string)
    requires ValidInstant(i) && i.date.year >= 0
    ensures |s| == 19
  {
    Padded(i.date.year, 4) + "-" + Padded(i.date.month, 2) + "-" + Padded(i.date.day, 2) + "T" +
    Padded(i.hour, 2) + ":" + Padded(i.minute, 2) + ":" + Padded(i.second, 2)
  }

  function FormatInstant(i: Instant): string
    requires ValidInstant(i) && i.date.year >= 0
  {
    DateTimeText(i) + (if i.ns == 0 then "Z" else "." + Trim(Padded(i.ns, 9)) + "Z")
  }

  /** The date-time form: digits and separators at their places. */
  ghost predicate HasForm(s: string) {
    && |s| >= 20 && s[4] == '-' && s[7] == '-' && s[10] == 'T' && s[13] == ':' && s[16] == ':' && s[|s| - 1] == 'Z'
    && (forall k :: k in [0, 1, 2, 3, 5, 6, 8, 9, 11, 12, 14, 15, 17, 18] ==> IsDigit(s[k]))
    && (|s| > 20 ==> |s| > 21 && s[19] == '.' && s[|s| - 2] != '0' && forall k :: 20 <= k < |s| - 1 ==> IsDigit(s[k]))
  }

  /** The reading of text in that form. */
  function ReadInstant(s: string): Instant
    requires |s| >= 20
  {
    Instant(Date(ValueOf(s[0..4]), ValueOf(s[5..7]), ValueOf(s[8..10])),
            ValueOf(s[11..13]), ValueOf(s[14..16]), ValueOf(s[17..19]),
            if |s| == 20 || |s| > 30 then 0 else ValueOf(s[20..|s| - 1] + Zeros(9 - (|s| - 21))))
  }

  lemma {:induction false} FieldsFit(i: Instant)
    requires ValidInstant(i) && 0 <= i.date.year <= 9999
    ensures ValueOf(Padded(i.date.year, 4)) == i.date.year && ValueOf(Padded(i.date.month, 2)) == i.date.month
    ensures ValueOf(Padded(i.date.day, 2)) == i.date.day && ValueOf(Padded(i.hour, 2)) == i.hour
    ensures ValueOf(Padded(i.minute, 2)) == i.minute && ValueOf(Padded(i.second, 2)) == i.second
    ensures ValueOf(Padded(i.ns, 9)) == i.ns
  {
    assert Power10(2) == 100 && Power10(4) == 10000 by { assert Power10(3) == 1000; }
    assert Power10(9) ==
           BILLION by { assert Power10(5) == 100000 && Power10(6) == 1000000 && Power10(7) == 10000000 &&
                        Power10(8) == 100000000; }
    PaddedMeans(i.date.year, 4);
    PaddedMeans(i.date.month, 2);
    PaddedMeans(i.date.day, 2);
    PaddedMeans(i.hour, 2);
    PaddedMeans(i.minute, 2);
    PaddedMeans(i.second, 2);
    PaddedMeans(i.ns, 9);
  }

  lemma {:induction false} TextFields(i: Instant)
    requires ValidInstant(i) && i.date.year >= 0
    ensures var s := DateTimeText(i);
            && s[0..4] == Padded(i.date.year, 4) && s[5..7] == Padded(i.date.month, 2) &&
               s[8..10] == Padded(i.date.day, 2)
            && s[11..13] == Padded(i.hour, 2) && s[14..16] == Padded(i.minute, 2) && s[17..19] == Padded(i.second, 2)
            && s[4] == '-' && s[7] == '-' && s[10] == 'T' && s[13] == ':' && s[16] == ':'
  {
  }

  /** Reading the text of an instant gives it back. */
  lemma {:induction false} ReadFormat(i: Instant)
    requires ValidInstant(i) && 0 <= i.date.year <= 9999
    ensures |FormatInstant(i)| >= 20 && ReadInstant(FormatInstant(i)) == i
  {
    hide DateTimeText, Padded, ValueOf, Trim, Zeros;
    var head, s := DateTimeText(i), FormatInstant(i);
    FieldsFit(i);
    TextFields(i);
    var tail := if i.ns == 0 then "Z" else "." + Trim(Padded(i.ns, 9)) + "Z";
    assert s == head + tail;
    HeadFields(head, tail);
    FractionRead(i);
  }

  lemma {:induction false} HeadFields(head: string, tail: string)
    requires |head| == 19
    ensures var s := head + tail;
            && s[0..4] == head[0..4] && s[5..7] == head[5..7] && s[8..10] == head[8..10]
            && s[11..13] == head[11..13] && s[14..16] == head[14..16] && s[17..19] == head[17..19]
  {
  }

  lemma {:induction false} FractionRead(i: Instant)
    requires ValidInstant(i) && 0 <= i.date.year <= 9999
    ensures |FormatInstant(i)| >= 20 && ReadInstant(FormatInstant(i)).ns == i.ns
  {
    hide DateTimeText, Padded, ValueOf, Trim, Zeros;
    var s, digits := FormatInstant(i), Padded(i.ns, 9);
    FieldsFit(i);
    if i.ns != 0 {
      TrimPads(digits);
      TrimNonzero(i.ns);
      assert s[20..|s| - 1] == Trim(digits);
    }
  }

  lemma {:induction false} ZerosValue(k: nat)
    ensures ValueOf(Zeros(k)) == 0
  {
    if k > 0 {
      ZerosValue(k - 1);
      assert Zeros(k)[..k - 1] == Zeros(k - 1) && Zeros(k)[k - 1] == '0';
    }
  }

  lemma {:induction false} TrimNonzero(ns: int)
    requires 0 < ns < BILLION
    ensures 1 <= |Trim(Padded(ns, 9))| <= 9
  {
    var digits := Padded(ns, 9);
    TrimPads(digits);
    assert Power10(9) == BILLION by {
      assert Power10(2) == 100 && Power10(3) == 1000 && Power10(4) == 10000 && Power10(5) == 100000 &&
             Power10(6) == 1000000;
      assert Power10(7) == 10000000 && Power10(8) == 100000000;
    }
    PaddedMeans(ns, 9);
    if Trim(digits) == "" {
      assert "" + Zeros(9) == Zeros(9);
      ZerosValue(9);
      assert false;
    }
  }

  lemma {:induction false} DigitFields(i: Instant)
    requires ValidInstant(i) && 0 <= i.date.year <= 9999
    ensures forall c ::
            c in Padded(i.date.year, 4) || c in Padded(i.date.month, 2) || c in Padded(i.date.day, 2) ==> IsDigit(c)
    ensures forall c ::
            c in Padded(i.hour, 2) || c in Padded(i.minute, 2) || c in Padded(i.second, 2) || c in Padded(i.ns, 9) ==>
            IsDigit(c)
  {
    assert Power10(2) == 100 && Power10(3) == 1000 && Power10(4) == 10000 && Power10(5) == 100000 &&
           Power10(6) == 1000000;
    assert Power10(7) == 10000000 && Power10(8) == 100000000 && Power10(9) == BILLION;
    PaddedMeans(i.date.year, 4);
    PaddedMeans(i.date.month, 2);
    PaddedMeans(i.date.day, 2);
    PaddedMeans(i.hour, 2);
    PaddedMeans(i.minute, 2);
    PaddedMeans(i.second, 2);
    PaddedMeans(i.ns, 9);
  }

  lemma {:induction false} SliceDigits(s: string, a: nat, b: nat, field: string)
    requires a <= b <= |s| && s[a..b] == field && forall c :: c in field ==> IsDigit(c)
    ensures forall k :: a <= k < b ==> IsDigit(s[k])
  {
    forall k | a <= k < b ensures IsDigit(s[k]) { assert s[k] == field[k - a]; }
  }

  /** The text has the date-time form. */
  lemma {:induction false} FormatHasForm(i: Instant)
    requires ValidInstant(i) && 0 <= i.date.year <= 9999
    ensures HasForm(FormatInstant(i))
  {
    hide DateTimeText, Padded, Trim, Zeros, Power10;
    var head, s, digits := DateTimeText(i), FormatInstant(i), Padded(i.ns, 9);
    DigitFields(i);
    TextFields(i);
    SliceDigits(head, 0, 4, Padded(i.date.year, 4));
    SliceDigits(head, 5, 7, Padded(i.date.month, 2));
    SliceDigits(head, 8, 10, Padded(i.date.day, 2));
    SliceDigits(head, 11, 13, Padded(i.hour, 2));
    SliceDigits(head, 14, 16, Padded(i.minute, 2));
    SliceDigits(head, 17, 19, Padded(i.second, 2));
    assert forall k :: 0 <= k < 19 ==> s[k] == head[k];
    if i.ns != 0 {
      TrimPads(digits);
      NanosTrim(i);
      var frac := Trim(digits);
      assert forall k :: 20 <= k < |s| - 1 ==> s[k] == frac[k - 20];
      forall k | 20 <= k < |s| - 1 ensures IsDigit(s[k]) { assert frac[k - 20] == digits[k - 20]; }
      assert s[|s| - 2] == frac[|frac| - 1];
    }
  }

  lemma {:induction false} NanosTrim(i: Instant)
    requires ValidInstant(i) && i.ns != 0
    ensures 1 <= |Trim(Padded(i.ns, 9))| <= 9
  {
    TrimNonzero(i.ns);
  }

  /** The text of a 64-bit instant has the form, and determines the instant. */
  lemma {:induction false} TextRoundTrip(nanos: int)
    requires Signed64(nanos)
    ensures ValidInstant(SplitInstant(nanos)) && SplitInstant(nanos).date.year >= 0
    ensures var s := FormatInstant(SplitInstant(nanos));
            HasForm(s) && Recompose(ReadInstant(s)) == nanos
  {
    SplitExact(nanos);
    FourDigitYears(nanos);
    ReadFormat(SplitInstant(nanos));
    FormatHasForm(SplitInstant(nanos));
  }

  /** Every date and time within 64 bits is printed for its own instant, and reads back. */
  lemma {:induction false} EveryTimePrinted(i: Instant)
    requires ValidInstant(i) && Signed64(Recompose(i))
    ensures SplitInstant(Recompose(i)) == i && 1677 <= i.date.year <= 2262 && HasForm(FormatInstant(i)) &&
            ReadInstant(FormatInstant(i)) == i
  {
    RecomposeExact(i);
    FourDigitYears(Recompose(i));
    ReadFormat(i);
    FormatHasForm(i);
  }
}
