/**
 * `get_local_intent_reply`: answer time and date questions locally, from a
 * clock reading given by the caller, without asking the remote model.
 */
module Intent {
  import opened Wrappers
  import opened Text
  import opened Settings

  /** A local clock reading; `weekday` counts from Monday = 0, as `datetime.weekday()`. */
  datatype DateTime = DateTime(year: nat, month: nat, day: nat, hour: nat, minute: nat, weekday: nat)

  /** The ranges a `datetime` guarantees for its fields. */
  predicate ValidDateTime(d: DateTime) {
    && 1 <= d.year <= 9999 && 1 <= d.month <= 12 && 1 <= d.day <= 31
    && d.hour < 24 && d.minute < 60 && d.weekday < 7
  }

  /** Phrases that ask for the time. */
  const TimeKeywords: seq<string> := ["mấy giờ", "giờ mấy", "bây giờ là mấy giờ", "hiện tại mấy giờ", "giờ hiện tại"]

  /** Phrases that ask for the day or the date. */
  const DayKeywords: seq<string> := ["thứ mấy", "hôm nay là thứ", "nay là thứ", "hôm nay ngày", "ngày mấy", "ngày bao nhiêu"]

  /** `any(keyword in s for keyword in keywords)` */
  predicate AnyKeyword(s: string, keywords: seq<string>) {
    exists k :: k in keywords && Contains(s, k)
  }

  /** A two-digit, zero-padded field, as `strftime` prints `%H`, `%M`, `%d` and `%m`. */
  function Pad2(n: nat): (r: string)
    ensures n < 100 ==> |r| == 2 && AllDigits(r) && DigitsValue(r) == n
  {
    if n < 10 then
      assert DigitsValue(['0']) == 0;
      assert (['0'] + NatToString(n))[..1] == ['0'];
      ['0'] + NatToString(n)
    else
      DigitsRoundTrip(n);
      NatToString(n)
  }

  /** `strftime('%d/%m/%Y')` (the year printed without padding). */
  function DateText(d: DateTime): string {
    Pad2(d.day) + "/" + Pad2(d.month) + "/" + NatToString(d.year)
  }

  /** The answer to a time question: "Bây giờ là HH:MM (ngày DD/MM/YYYY)." */
  function TimeAnswer(d: DateTime): string {
    "Bây giờ là " + Pad2(d.hour) + ":" + Pad2(d.minute) + " (ngày " + DateText(d) + ")."
  }

  /** The answer to a day question: "Hôm nay <weekday name>, ngày DD/MM/YYYY". */
  function DayAnswer(d: DateTime): string
    requires d.weekday < 7
  {
    "Hôm nay " + ViDayNames[d.weekday] + ", ngày " + DateText(d)
  }

  /**
   * `get_local_intent_reply(text)`: None for the empty text; a time question
   * (checked first) gets the time answer, otherwise a day question gets the
   * day answer, otherwise None.
   */
  function LocalIntentReply(text: string, now: DateTime): (r: Option<string>)
    requires ValidDateTime(now)
    ensures text == [] ==> r == None
    ensures r.Some? <==> text != [] && (AnyKeyword(Lower(text), TimeKeywords) || AnyKeyword(Lower(text), DayKeywords))
    ensures r.Some? && AnyKeyword(Lower(text), TimeKeywords) ==> r.value == TimeAnswer(now)
    ensures r.Some? && !AnyKeyword(Lower(text), TimeKeywords) ==> r.value == DayAnswer(now)
    ensures r.Some? ==> r.value != []
  {
    if text == [] then None
    else
      var normalized := Lower(text);
      if AnyKeyword(normalized, TimeKeywords) then Some(TimeAnswer(now))
      else if AnyKeyword(normalized, DayKeywords) then Some(DayAnswer(now))
      else None
  }

  /** The date text spells out the day, the month and the year it was made from. */
  lemma DateTextReadsBack(d: DateTime)
    requires ValidDateTime(d)
    ensures var t := DateText(d);
      && |t| > 6 && t[2] == '/' && t[5] == '/'
      && AllDigits(t[..2]) && DigitsValue(t[..2]) == d.day
      && AllDigits(t[3..5]) && DigitsValue(t[3..5]) == d.month
      && AllDigits(t[6..]) && DigitsValue(t[6..]) == d.year
  {
    var t := DateText(d);
    assert t[..2] == Pad2(d.day);
    assert t[3..5] == Pad2(d.month);
    assert t[6..] == NatToString(d.year);
    DigitsRoundTrip(d.year);
  }

  /** The time answer shows the hour and the minute of the clock reading. */
  lemma TimeAnswerReadsBack(d: DateTime)
    requires ValidDateTime(d)
    ensures var t := TimeAnswer(d);
      && |t| > 16 && t[13] == ':'
      && AllDigits(t[11..13]) && DigitsValue(t[11..13]) == d.hour
      && AllDigits(t[14..16]) && DigitsValue(t[14..16]) == d.minute
  {
    var t := TimeAnswer(d);
    assert |"Bây giờ là "| == 11;
    assert t[11..13] == Pad2(d.hour);
    assert t[14..16] == Pad2(d.minute);
  }

  /** The day answer names the weekday of the clock reading. */
  lemma DayAnswerNamesWeekday(d: DateTime)
    requires ValidDateTime(d)
    ensures var t := DayAnswer(d); var name := ViDayNames[d.weekday];
      |t| > 8 + |name| && t[8..8 + |name|] == name
  {
    var t := DayAnswer(d);
    assert |"Hôm nay "| == 8;
    assert t[8..8 + |ViDayNames[d.weekday]|] == ViDayNames[d.weekday];
  }
}
