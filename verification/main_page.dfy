/** main.py: the styled "Daily Delight" email. Its day counts come from
    Python's `datetime` arithmetic, which is modelled on the proleptic
    Gregorian calendar Python uses; the clock reading is a parameter. */
module MainPage {
  import opened Wrappers
  import opened Strings
  import opened Numerals
  import opened Quotes
  import opened DailyDelight

  // ---------------------------------------------------------------- calendar

  predicate IsLeap(year: int)
  {
    year % 4 == 0 && (year % 100 != 0 || year % 400 == 0)
  }

  function DaysInMonth(year: int, month: int): (n: int)
    requires 1 <= month <= 12
    ensures 28 <= n <= 31
  {
    if month == 2 then (if IsLeap(year) then 29 else 28)
    else if month == 4 || month == 6 || month == 9 || month == 11 then 30
    else 31
  }

  /** Days in the year before the first of `month`: Python's
      `_DAYS_BEFORE_MONTH` table, plus one after February in a leap year. */
  function DaysBeforeMonth(year: int, month: int): int
    requires 1 <= month <= 12
  {
    var table := [0, 31, 59, 90, 120, 151, 181, 212, 243, 273, 304, 334];
    table[month - 1] + (if month > 2 && IsLeap(year) then 1 else 0)
  }

  /** Days before January 1 of `year`, counted from January 1 of year 1. */
  function DaysBeforeYear(year: int): int
    requires year >= 1
  {
    var y := year - 1;
    y * 365 + y / 4 - y / 100 + y / 400
  }

  /** The dates `datetime` accepts. */
  predicate ValidDate(year: int, month: int, day: int)
  {
    1 <= year <= 9999 && 1 <= month <= 12 && 1 <= day <= DaysInMonth(year, month)
  }

  /** `date.toordinal()`: January 1 of year 1 is day 1. */
  function Ordinal(year: int, month: int, day: int): int
    requires ValidDate(year, month, day)
  {
    DaysBeforeYear(year) + DaysBeforeMonth(year, month) + day
  }

  /** The month table agrees with the month lengths: each month starts
      where the one before ends. */
  lemma MonthStep(year: int, month: int)
    requires 1 <= month < 12
    ensures DaysBeforeMonth(year, month + 1) == DaysBeforeMonth(year, month) + DaysInMonth(year, month)
  {
  }

  /** Every later month starts after the whole of an earlier one. */
  lemma {:induction false} MonthsApart(year: int, m1: int, m2: int)
    requires 1 <= m1 < m2 <= 12
    ensures DaysBeforeMonth(year, m1) + DaysInMonth(year, m1) <= DaysBeforeMonth(year, m2)
    decreases m2 - m1
  {
    MonthStep(year, m1);
    if m1 + 1 < m2 {
      MonthsApart(year, m1 + 1, m2);
    }
  }

  /** Within a year, ordinals follow the calendar order of (month, day):
      one date has the smaller ordinal exactly when it comes first. */
  lemma OrdinalOrder(year: int, m1: int, d1: int, m2: int, d2: int)
    requires ValidDate(year, m1, d1) && ValidDate(year, m2, d2)
    ensures Ordinal(year, m1, d1) < Ordinal(year, m2, d2) <==> m1 < m2 || (m1 == m2 && d1 < d2)
  {
    if m1 < m2 {
      MonthsApart(year, m1, m2);
    } else if m2 < m1 {
      MonthsApart(year, m2, m1);
    }
  }

  // -------------------------------------------------------------- datetimes

  /** Microseconds in a day. */
  const DayMicros := 86_400_000_000

  /** A `datetime`: its date and the microseconds since midnight. */
  datatype Moment = Moment(year: int, month: int, day: int, micros: int)
  {
    predicate Valid()
    {
      ValidDate(year, month, day) && 0 <= micros < DayMicros
    }

    /** Microseconds since the start of the calendar. */
    function Stamp(): int
      requires Valid()
    {
      Ordinal(year, month, day) * DayMicros + micros
    }

    function DayNumber(): int
      requires Valid()
    {
      Ordinal(year, month, day)
    }
  }

  /** `(later - earlier).days`: a `timedelta` keeps whole days and a
      non-negative remainder, so its `days` is the floor of the difference. */
  function DaysBetween(later: Moment, earlier: Moment): int
    requires later.Valid() && earlier.Valid()
  {
    (later.Stamp() - earlier.Stamp()) / DayMicros
  }

  /** The floor counts calendar days, one fewer when the later moment is
      earlier in its day than the earlier one in its own. */
  lemma FloorDays(later: Moment, earlier: Moment)
    requires later.Valid() && earlier.Valid()
    ensures DaysBetween(later, earlier) ==
      later.DayNumber() - earlier.DayNumber() - (if later.micros < earlier.micros then 1 else 0)
  {
    var gap := later.DayNumber() - earlier.DayNumber();
    var r := later.micros - earlier.micros;
    assert later.Stamp() - earlier.Stamp() == gap * DayMicros + r;
  }

  /** `start_date` (main.py:12). */
  const StartDate := Moment(2021, 11, 2, 0)

  /** `anniversary` (main.py:13): midnight of November 2 in the current
      year. */
  function Anniversary(year: int): (a: Moment)
    requires 1 <= year <= 9999
    ensures a.Valid()
  {
    Moment(year, 11, 2, 0)
  }

  /** `days_together` (main.py:554). */
  function DaysTogether(now: Moment): int
    requires now.Valid()
  {
    DaysBetween(now, StartDate)
  }

  /** The days together are the calendar days since November 2, 2021,
      whatever the time of day: the start is at midnight. */
  lemma DaysTogetherCounts(now: Moment)
    requires now.Valid()
    ensures DaysTogether(now) == now.DayNumber() - Ordinal(2021, 11, 2)
    ensures DaysTogether(now) >= 0 <==> now.DayNumber() >= Ordinal(2021, 11, 2)
  {
    FloorDays(now, StartDate);
  }

  function Max(a: int, b: int): int
  {
    if a >= b then a else b
  }

  /** `days_until` as main.py:555 writes it: the floor of the time from
      now to midnight of the anniversary, never below zero. */
  function DaysUntilAsWritten(now: Moment): int
    requires now.Valid()
  {
    Max(DaysBetween(Anniversary(now.year), now), 0)
  }

  /** `days_until` counted in calendar days, as the message means it. */
  function DaysUntil(now: Moment): int
    requires now.Valid()
  {
    Max(Anniversary(now.year).DayNumber() - now.DayNumber(), 0)
  }

  /** The corrected count is never negative; it is positive exactly
      before November 2 of the year, and then it is the number of
      calendar days left. */
  lemma DaysUntilCounts(now: Moment)
    requires now.Valid()
    ensures DaysUntil(now) >= 0
    ensures DaysUntil(now) > 0 <==> now.month < 11 || (now.month == 11 && now.day < 2)
    ensures DaysUntil(now) > 0 ==> DaysUntil(now) == Ordinal(now.year, 11, 2) - now.DayNumber()
  {
    OrdinalOrder(now.year, now.month, now.day, 11, 2);
  }

  /** The written count is the calendar count only at midnight; at any
      other time of day it is one fewer, so from the morning of
      November 1 it is already zero. */
  lemma DaysUntilAsWrittenLags(now: Moment)
    requires now.Valid()
    ensures DaysUntilAsWritten(now) >= 0
    ensures now.micros == 0 ==> DaysUntilAsWritten(now) == DaysUntil(now)
    ensures now.micros > 0 ==> DaysUntilAsWritten(now) == Max(DaysUntil(now) - 1, 0)
  {
    FloorDays(Anniversary(now.year), now);
  }

  /** Noon on November 1, 2025: one calendar day is left, but the written
      count is zero and the email already wishes a happy anniversary. */
  lemma AnniversaryEve()
    ensures var eve := Moment(2025, 11, 1, DayMicros / 2);
      && eve.Valid()
      && DaysUntilAsWritten(eve) == 0
      && DaysUntil(eve) == 1
      && LoveMessage(DaysUntilAsWritten(eve)) == HappyAnniversary
  {
    var eve := Moment(2025, 11, 1, DayMicros / 2);
    DaysUntilAsWrittenLags(eve);
    assert DaysUntil(eve) == 1;
  }

  // ---------------------------------------------------------------- message

  const OnlyPrefix := "Only "
  const UntilSuffix := " days until our anniversary! \U{1F389}"
  const HappyAnniversary := "\U{1F496} Happy Anniversary! \U{1F38A}"

  /** The second line of the love journey (main.py:578). */
  function LoveMessage(daysUntil: int): string
  {
    if daysUntil > 0 then OnlyPrefix + IntToString(daysUntil) + UntilSuffix else HappyAnniversary
  }

  /** The message counts down exactly while days are left, showing the
      number in decimal, and wishes a happy anniversary otherwise. */
  lemma LoveMessageShows(daysUntil: int)
    ensures StartsWith(LoveMessage(daysUntil), OnlyPrefix) <==> daysUntil > 0
    ensures daysUntil > 0 ==>
      var digits := NatToString(daysUntil);
      Occurs(LoveMessage(daysUntil), digits, |OnlyPrefix|) && ParseNat(digits) == daysUntil
    ensures daysUntil <= 0 ==> LoveMessage(daysUntil) == HappyAnniversary
  {
    if daysUntil > 0 {
      StartsWithConcat(OnlyPrefix, IntToString(daysUntil) + UntilSuffix);
      assert OnlyPrefix + IntToString(daysUntil) + UntilSuffix == OnlyPrefix + (IntToString(daysUntil) + UntilSuffix);
      OccursBetween(OnlyPrefix, NatToString(daysUntil), UntilSuffix);
      ParseNatToString(daysUntil);
    } else {
      assert HappyAnniversary[0] != OnlyPrefix[0];
    }
  }

  // ------------------------------------------------------------------ quote

  const MainQuoteOpen := "\n        <div class=\"section-card quote-section\">\n            <h2 class=\"section-title\">\U{1F4AC} Quote of the Day</h2>\n            <div class=\"quote-container\">\n                <p class=\"quote-text\">\""
  const MainQuoteClose := "\"</p>\n                <div class=\"quote-decoration\">\U{2727}\U{FF65}\U{FF9F}: *\U{2727}\U{FF65}\U{FF9F}:*</div>\n            </div>\n        </div>\n        "
  const MainNoQuotes := "<div class=\"section-card quote-section\">\n                <h2 class=\"section-title\">\U{1F4AC} Quote</h2>\n                <p class=\"quote-text\">No more quotes left in quotes.txt.</p>\n            </div>"
  const MainQuoteErrorOpen := "<div class=\"section-card error-section\">\n            <h2 class=\"section-title\">\U{1F4AC} Quote</h2>\n            <p class=\"error-text\">Failed to fetch quote: "
  const MainQuoteErrorClose := "</p>\n        </div>"

  /** What `fetch_quote` (main.py:40-65) returns for the file `lines`, or
      for a read or write that raised `readError`: the first line,
      stripped, between quotation marks. */
  function MainQuoteSection(lines: seq<string>, readError: Option<string>): string
  {
    match readError
    case Some(e) => MainQuoteErrorOpen + e + MainQuoteErrorClose
    case None =>
      match Head(lines)
      case None => MainNoQuotes
      case Some(q) => MainQuoteOpen + Strip(q) + MainQuoteClose
  }

  /** The section shows the first line with the whitespace around it
      removed, the error text when the file could not be handled, and the
      "no more quotes" card otherwise. */
  lemma MainQuoteShows(lines: seq<string>, readError: Option<string>)
    ensures readError.None? && lines != [] ==>
      var shown := Strip(lines[0]);
      && |TrimStart(lines[0])| <= |lines[0]|
      && Occurs(MainQuoteSection(lines, readError), shown, |MainQuoteOpen|)
      && Occurs(lines[0], shown, |lines[0]| - |TrimStart(lines[0])|)
      && (shown != [] ==> !IsSpace(shown[0]) && !IsSpace(shown[|shown| - 1]))
    ensures readError.None? && lines == [] ==> MainQuoteSection(lines, readError) == MainNoQuotes
    ensures readError.Some? ==> Occurs(MainQuoteSection(lines, readError), readError.value, |MainQuoteErrorOpen|)
  {
    if readError.Some? {
      OccursBetween(MainQuoteErrorOpen, readError.value, MainQuoteErrorClose);
    } else if lines != [] {
      OccursBetween(MainQuoteOpen, Strip(lines[0]), MainQuoteClose);
      StripShape(lines[0]);
    }
  }

  /** A stored quote comes back exactly as written: `strip()` removes the
      line ending `readlines()` keeps, and nothing of the quote itself. */
  lemma StripLine(quote: string)
    requires quote == [] || (!IsSpace(quote[0]) && !IsSpace(quote[|quote| - 1]))
    ensures Strip(quote + "\n") == quote
  {
    var line := quote + "\n";
    if quote == [] {
      assert TrimStart(line) == TrimStart(line[1..]);
      assert line[1..] == [];
    } else {
      assert TrimStart(line) == line;
      assert line[..|line| - 1] == quote;
      assert TrimEnd(line) == TrimEnd(quote);
    }
  }

  /** `fetch_quote`: the file loses its first line exactly when a line was
      served. */
  method FetchQuote(file: QuoteFile, readError: Option<string>) returns (html: string)
    modifies file
    ensures html == MainQuoteSection(old(file.lines), readError)
    ensures file.lines == if readError.None? then Popped(old(file.lines)) else old(file.lines)
  {
    if readError.Some? {
      return MainQuoteErrorOpen + readError.value + MainQuoteErrorClose;
    }
    var first := file.Pop();
    match first
    case None => html := MainNoQuotes;
    case Some(q) => html := MainQuoteOpen + Strip(q) + MainQuoteClose;
  }

  // --------------------------------------------------------------- document

  /** The fixed text of the document `run` returns, piece by piece: before
      the styles, after them, after the affirmation, after the day count,
      after the message, between two sections, and the end. */
  datatype MainTemplate = MainTemplate(top: string, afterStyles: string, afterAffirmation: string,
                                       afterTogether: string, afterMessage: string, between: string,
                                       bottom: string)

  /** The text of main.py:557-590. */
  const MainText := MainTemplate(
    "\n    <!DOCTYPE html>\n    <html lang=\"en\">\n    <head>\n        <meta charset=\"UTF-8\">\n        <meta name=\"viewport\" content=\"width=device-width, initial-scale=1.0\">\n        <title>Daily Delight</title>\n        ",
    "\n    </head>\n    <body>\n        <div class=\"main-container\">\n            <h1 class=\"main-title\">\U{1F31F} Daily Delight \U{1F31F}</h1>\n            \n            <div class=\"affirmation-section\">\n                <h2 class=\"affirmation-text\">\U{1F308} ",
    "</h2>\n            </div>\n            \n            <div class=\"love-journey\">\n                <h2>\U{1F495} Our Love Journey</h2>\n                <div class=\"love-stats\">\n                    <p>We've been together for <strong>",
    " days</strong> \U{2728}</p>\n                    <p>",
    "</p>\n                </div>\n            </div>\n            \n            ",
    "\n            ",
    "\n        </div>\n    </body>\n    </html>\n    ")

  /** Everything before the first section: the styles, the affirmation,
      then the love journey's day count and message. */
  function MainHead(t: MainTemplate, styles: string, affirmation: string, together: string, message: string): string
  {
    t.top + styles + t.afterStyles + affirmation + t.afterAffirmation + together + t.afterTogether + message
    + t.afterMessage
  }

  /** The document (main.py:552-590): the head, then the cat fact, tarot
      card, joke, fun fact and quote, one after the other. */
  function MainDoc(t: MainTemplate, styles: string, affirmation: string, together: string, message: string,
                   cat: string, tarot: string, joke: string, funFact: string, quote: string): string
  {
    Separated(MainHead(t, styles, affirmation, together, message), [cat, tarot, joke, funFact, quote], t.between,
              t.bottom)
  }

  /** The head holds the styles, the affirmation, the day count and the
      message in this order, each right after its fixed text. */
  lemma MainHeadOrder(t: MainTemplate, styles: string, affirmation: string, together: string, message: string)
    ensures var head, a1 := MainHead(t, styles, affirmation, together, message), |t.top| + |styles| + |t.afterStyles|;
      var a2 := a1 + |affirmation| + |t.afterAffirmation|;
      var a3 := a2 + |together| + |t.afterTogether|;
      && Occurs(head, styles, |t.top|)
      && Occurs(head, affirmation, a1)
      && Occurs(head, together, a2)
      && Occurs(head, message, a3)
  {
    var p1 := t.top + styles + t.afterStyles;
    var p2 := p1 + affirmation + t.afterAffirmation;
    var p3 := p2 + together + t.afterTogether;
    OccursBetween(t.top, styles, t.afterStyles);
    OccursExtend(p1, affirmation, styles, |t.top|);
    OccursExtend(p1 + affirmation, t.afterAffirmation, styles, |t.top|);
    ExtendTwice(p2, together, t.afterTogether, styles, |t.top|);
    ExtendTwice(p3, message, t.afterMessage, styles, |t.top|);
    OccursBetween(p1, affirmation, t.afterAffirmation);
    ExtendTwice(p2, together, t.afterTogether, affirmation, |p1|);
    ExtendTwice(p3, message, t.afterMessage, affirmation, |p1|);
    OccursBetween(p2, together, t.afterTogether);
    ExtendTwice(p3, message, t.afterMessage, together, |p2|);
    OccursBetween(p3, message, t.afterMessage);
  }

  lemma ExtendTwice(doc: string, x: string, y: string, frag: string, at: nat)
    requires Occurs(doc, frag, at)
    ensures Occurs(doc + x + y, frag, at)
  {
    OccursExtend(doc, x, frag, at);
    OccursExtend(doc + x, y, frag, at);
  }

  /** After the head come the cat fact, tarot card, joke, fun fact and
      quote, in this order, each a separator's length after the end of the
      one before. */
  lemma MainSectionOrder(head: string, between: string, bottom: string, cat: string, tarot: string, joke: string,
                         funFact: string, quote: string)
    ensures var doc, at := Separated(head, [cat, tarot, joke, funFact, quote], between, bottom), |head|;
      && Occurs(doc, cat, at)
      && Occurs(doc, tarot, at + |cat| + |between|)
      && Occurs(doc, joke, at + |cat| + |tarot| + 2 * |between|)
      && Occurs(doc, funFact, at + |cat| + |tarot| + |joke| + 3 * |between|)
      && Occurs(doc, quote, at + |cat| + |tarot| + |joke| + |funFact| + 4 * |between|)
  {
    var parts := [cat, tarot, joke, funFact, quote];
    FiveOffsets(cat, tarot, joke, funFact, quote);
    SeparatedAt(head, parts, between, bottom, 0);
    SeparatedAt(head, parts, between, bottom, 1);
    SeparatedAt(head, parts, between, bottom, 2);
    SeparatedAt(head, parts, between, bottom, 3);
    SeparatedAt(head, parts, between, bottom, 4);
  }

  /** In the main document the affirmation, the day count and the
      message stay where the head puts them. */
  lemma MainHeadKept(t: MainTemplate, styles: string, affirmation: string, together: string, message: string,
                     cat: string, tarot: string, joke: string, funFact: string, quote: string)
    ensures var doc := MainDoc(t, styles, affirmation, together, message, cat, tarot, joke, funFact, quote);
      var a1 := |t.top| + |styles| + |t.afterStyles|;
      var a2 := a1 + |affirmation| + |t.afterAffirmation|;
      && Occurs(doc, affirmation, a1)
      && Occurs(doc, together, a2)
      && Occurs(doc, message, a2 + |together| + |t.afterTogether|)
  {
    var head := MainHead(t, styles, affirmation, together, message);
    var parts := [cat, tarot, joke, funFact, quote];
    var a1 := |t.top| + |styles| + |t.afterStyles|;
    var a2 := a1 + |affirmation| + |t.afterAffirmation|;
    MainHeadOrder(t, styles, affirmation, together, message);
    SeparatedKeepsHead(head, parts, t.between, t.bottom, affirmation, a1);
    SeparatedKeepsHead(head, parts, t.between, t.bottom, together, a2);
    SeparatedKeepsHead(head, parts, t.between, t.bottom, message, a2 + |together| + |t.afterTogether|);
  }

  /** Right after the head of the main document come the cat fact, tarot
      card, joke, fun fact and quote, in this order. */
  lemma MainSections(t: MainTemplate, styles: string, affirmation: string, together: string, message: string,
                     cat: string, tarot: string, joke: string, funFact: string, quote: string)
    ensures var doc, at := MainDoc(t, styles, affirmation, together, message, cat, tarot, joke, funFact, quote),
                           |MainHead(t, styles, affirmation, together, message)|;
      && Occurs(doc, cat, at)
      && Occurs(doc, tarot, at + |cat| + |t.between|)
      && Occurs(doc, joke, at + |cat| + |tarot| + 2 * |t.between|)
      && Occurs(doc, funFact, at + |cat| + |tarot| + |joke| + 3 * |t.between|)
      && Occurs(doc, quote, at + |cat| + |tarot| + |joke| + |funFact| + 4 * |t.between|)
  {
    MainSectionOrder(MainHead(t, styles, affirmation, together, message), t.between, t.bottom, cat, tarot, joke,
                     funFact, quote);
  }

  /** `run` (main.py:552-590) with the calendar count of days left: the
      styles, affirmation and love journey first, then the sections in
      document order; only the quote section changes state. */
  method Run(file: QuoteFile, now: Moment, styles: string, affirmationReply: Fetched<Option<string>>,
             cat: string, tarot: string, joke: string, funFact: string, readError: Option<string>)
    returns (content: string)
    requires now.Valid()
    modifies file
    ensures content == MainDoc(MainText, styles, Affirmation(affirmationReply), IntToString(DaysTogether(now)),
                               LoveMessage(DaysUntil(now)), cat, tarot, joke, funFact,
                               MainQuoteSection(old(file.lines), readError))
    ensures file.lines == if readError.None? then Popped(old(file.lines)) else old(file.lines)
  {
    var daysTogether := DaysTogether(now);
    var daysUntil := DaysUntil(now);
    var affirmation := Affirmation(affirmationReply);
    var quoteHtml := FetchQuote(file, readError);
    content := MainDoc(MainText, styles, affirmation, IntToString(daysTogether), LoveMessage(daysUntil), cat, tarot,
                       joke, funFact, quoteHtml);
  }
}
