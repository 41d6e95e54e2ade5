/** daily_delight.py: the plain "Daily Delight" email. Every section is an
    f-string with its own fallback; the HTTP replies are parameters (a
    reply that raised, on the request, the JSON decode or a missing key, is
    `Raised` with the exception's text). */
module DailyDelight {
  import opened Wrappers
  import opened Strings
  import opened Quotes

  const DefaultAffirmation := "You are amazing and capable!"

  /** `get_affirmation` (daily_delight.py:7-12), also `fetch_affirmation`
      (main.py:67-72): the reply's `affirmation` field (`Got(None)` when the
      JSON has none), or the default when the key is missing or the call
      raised. */
  function Affirmation(reply: Fetched<Option<string>>): (r: string)
    ensures reply.Got? && reply.value.Some? ==> r == reply.value.value
    ensures reply.Raised? || reply.value.None? ==> r == DefaultAffirmation
  {
    match reply
    case Got(Some(a)) => a
    case Got(None) => DefaultAffirmation
    case Raised(_) => DefaultAffirmation
  }

  const FunFactHeading := "<h2>\U{1F9E0} Fun Fact</h2>"
  const FunFactFailure := "<p>\U{1F63F} Failed to fetch a fun fact. Error: "

  /** `get_fun_fact` (daily_delight.py:15-20): the heading, then the fact
      or the error. */
  function FunFact(reply: Fetched<string>): string
  {
    FunFactHeading + FunFactBody(reply)
  }

  function FunFactBody(reply: Fetched<string>): string
  {
    match reply
    case Got(text) => "<p>" + text + "</p>"
    case Raised(e) => FunFactFailure + e + "</p>"
  }

  /** The fun fact section opens with its heading whatever the reply, and
      its body shows the fact, or the error. */
  lemma FunFactShows(reply: Fetched<string>)
    ensures StartsWith(FunFact(reply), FunFactHeading)
    ensures reply.Got? ==> Occurs(FunFactBody(reply), reply.value, 3)
    ensures reply.Raised? ==> Occurs(FunFactBody(reply), reply.message, |FunFactFailure|)
  {
    StartsWithConcat(FunFactHeading, FunFactBody(reply));
    match reply
    case Got(text) => OccursBetween("<p>", text, "</p>");
    case Raised(e) => OccursBetween(FunFactFailure, e, "</p>");
  }

  /** The JSON of the joke service: `joke['setup']` and `joke['punchline']`. */
  datatype Joke = Joke(setup: string, punchline: string)

  const JokeHeading := "<h2>\U{1F0CF} Joke of the Day</h2>"
  const JokeFailure := "<p><i>Failed to fetch joke: "

  /** `get_joke` (daily_delight.py:23-29): the heading, then the joke or the
      error. */
  function JokeSection(reply: Fetched<Joke>): string
  {
    JokeHeading + JokeBody(reply)
  }

  function JokeBody(reply: Fetched<Joke>): string
  {
    match reply
    case Got(j) => "<p>" + j.setup + "<br><b>" + j.punchline + "</b></p>"
    case Raised(e) => JokeFailure + e + "</i></p>"
  }

  /** The joke section opens with its heading whatever the reply; a joke
      shows its setup, then its punchline in bold; a failure shows the
      error. */
  lemma JokeShows(reply: Fetched<Joke>)
    ensures StartsWith(JokeSection(reply), JokeHeading)
    ensures reply.Got? ==>
      Precedes(JokeBody(reply), reply.value.setup, 3, reply.value.punchline, 3 + |reply.value.setup| + 7)
    ensures reply.Raised? ==> Occurs(JokeBody(reply), reply.message, |JokeFailure|)
  {
    StartsWithConcat(JokeHeading, JokeBody(reply));
    match reply
    case Got(j) => PrecedesBetween("<p>", j.setup, "<br><b>", j.punchline, "</b></p>");
    case Raised(e) => OccursBetween(JokeFailure, e, "</i></p>");
  }

  /** The replies of the two cat services: the fact and the image address. */
  datatype CatReply = CatReply(fact: string, imageUrl: string)

  const CatHeading := "<h2>\U{1F431} Cat Fact</h2>"
  const CatIndent := "\n            "
  const CatImageOpen := "</p>\n            <div style=\"text-align: center;\">\n                <img src=\""
  const CatImageClose := "\" alt=\"Cat Image\" width=\"400\"/>\n            </div>\n        "
  const CatFailure := "<p><i>Failed to fetch cat fact or image: "

  /** `get_cat_fact` (daily_delight.py:31-47): the success text starts with
      a line break and indentation before the heading, the fallback with
      the heading. */
  function CatSection(reply: Fetched<CatReply>): string
  {
    match reply
    case Got(_) => CatIndent + CatHeading + CatBody(reply)
    case Raised(_) => CatHeading + CatBody(reply)
  }

  function CatBody(reply: Fetched<CatReply>): string
  {
    match reply
    case Got(c) => CatIndent + "<p>" + c.fact + CatImageOpen + c.imageUrl + CatImageClose
    case Raised(e) => CatFailure + e + "</i></p>"
  }

  /** The cat section carries its heading on both paths, followed by its
      body; a success shows the fact, then the image; a failure shows the
      error. */
  lemma CatShows(reply: Fetched<CatReply>)
    ensures var at := if reply.Got? then |CatIndent| else 0;
      Occurs(CatSection(reply), CatHeading, at)
      && CatSection(reply)[at + |CatHeading|..] == CatBody(reply)
    ensures reply.Got? ==>
      var at := |CatIndent| + 3;
      Precedes(CatBody(reply), reply.value.fact, at, reply.value.imageUrl, at + |reply.value.fact| + |CatImageOpen|)
    ensures reply.Raised? ==> Occurs(CatBody(reply), reply.message, |CatFailure|)
  {
    match reply
    case Got(c) =>
      OccursBetween(CatIndent, CatHeading, CatBody(reply));
      PrecedesBetween(CatIndent + "<p>", c.fact, CatImageOpen, c.imageUrl, CatImageClose);
    case Raised(e) =>
      StartsWithConcat(CatHeading, CatBody(reply));
      OccursBetween(CatFailure, e, "</i></p>");
  }

  const QuoteHeading := "<h2>\U{1F4AC} Quote of the Day</h2>"
  const QuoteFallbackHeading := "<h2>\U{1F4AC} Quote</h2>"
  const NoQuotes := QuoteFallbackHeading + "<p><i>No more quotes left in quotes.txt.</i></p>"
  const QuoteFailure := "<p><i>Failed to fetch quote: "

  /** What `get_quote` (daily_delight.py:49-60) returns for the file
      `lines`, or for a read that raised `readError`: the first line as read,
      line ending included (no `strip()`, unlike main.py:56). */
  function QuoteSection(lines: seq<string>, readError: Option<string>): string
  {
    match readError
    case Some(e) => QuoteFallbackHeading + QuoteFailure + e + "</i></p>"
    case None =>
      match Head(lines)
      case None => NoQuotes
      case Some(q) => QuoteHeading + "<p>" + q + "</p>"
  }

  /** The quote section shows the first line exactly as stored; with no
      line, or a failed read, it carries the plain "Quote" heading. */
  lemma QuoteShows(lines: seq<string>, readError: Option<string>)
    ensures readError.None? && lines != [] ==>
      StartsWith(QuoteSection(lines, readError), QuoteHeading)
      && Occurs(QuoteSection(lines, readError), lines[0], |QuoteHeading| + 3)
    ensures readError.Some? || lines == [] ==>
      StartsWith(QuoteSection(lines, readError), QuoteFallbackHeading)
    ensures readError.Some? ==>
      Occurs(QuoteSection(lines, readError), readError.value, |QuoteFallbackHeading| + |QuoteFailure|)
  {
    if readError.Some? {
      OccursBetween(QuoteFallbackHeading + QuoteFailure, readError.value, "</i></p>");
    } else if lines != [] {
      OccursBetween(QuoteHeading + "<p>", lines[0], "</p>");
    }
  }

  /** `get_quote`: the file loses its first line exactly when a line was
      served. */
  method GetQuote(file: QuoteFile, readError: Option<string>) returns (html: string)
    modifies file
    ensures html == QuoteSection(old(file.lines), readError)
    ensures file.lines == if readError.None? then Popped(old(file.lines)) else old(file.lines)
  {
    if readError.Some? {
      return QuoteFallbackHeading + QuoteFailure + readError.value + "</i></p>";
    }
    var first := file.Pop();
    match first
    case None => html := NoQuotes;
    case Some(q) => html := QuoteHeading + "<p>" + q + "</p>";
  }

  /** The fixed text of the document `run` returns: before the
      affirmation, after it, the rule between two sections, and the end. */
  datatype DelightTemplate = DelightTemplate(top: string, afterAffirmation: string, rule: string, bottom: string)

  /** The text of daily_delight.py:83-100. */
  const DelightText := DelightTemplate(
    "\n    <html>\n    <body>\n        <div style=\"font-family:Arial,sans-serif;padding:20px;max-width:600px;margin:auto;\">\n            <h1 style=\"text-align:center;\">\U{1F31F} Daily Delight \U{1F31F}</h1>\n            <h2 style=\"text-align:center; font-size:1.2em;\">\U{1F308} ",
    "</h2>\n            <hr>\n            ",
    "\n            <hr>\n            ",
    "\n        </div>\n    </body>\n    </html>\n    ")

  /** The rules after the affirmation and between sections are `<hr>`s. */
  lemma DelightRules()
    ensures Occurs(DelightText.afterAffirmation, "<hr>", 18)
    ensures Occurs(DelightText.rule, "<hr>", 13)
  {
  }

  /** The document: the affirmation, then the cat fact, joke, quote and
      fun fact separated by rules (daily_delight.py:81-100). */
  function DelightDoc(t: DelightTemplate, affirmation: string, cat: string, joke: string, quote: string,
                      funFact: string): string
  {
    Separated(DelightHead(t, affirmation), [cat, joke, quote, funFact], t.rule, t.bottom)
  }

  function DelightHead(t: DelightTemplate, affirmation: string): string
  {
    t.top + affirmation + t.afterAffirmation
  }

  /** The affirmation comes first; then the cat fact, joke, quote and fun
      fact, in this order, each a rule's length after the end of the one
      before. */
  lemma DelightOrder(t: DelightTemplate, affirmation: string, cat: string, joke: string, quote: string,
                     funFact: string)
    ensures var doc, at := DelightDoc(t, affirmation, cat, joke, quote, funFact),
                           |t.top| + |affirmation| + |t.afterAffirmation|;
      && Occurs(doc, affirmation, |t.top|)
      && Occurs(doc, cat, at)
      && Occurs(doc, joke, at + |cat| + |t.rule|)
      && Occurs(doc, quote, at + |cat| + |joke| + 2 * |t.rule|)
      && Occurs(doc, funFact, at + |cat| + |joke| + |quote| + 3 * |t.rule|)
  {
    var head := DelightHead(t, affirmation);
    var body := Join([cat, joke, quote, funFact], t.rule);
    SeparatedFour(head, t.rule, t.bottom, cat, joke, quote, funFact);
    OccursBetween(t.top, affirmation, t.afterAffirmation);
    OccursExtend(head, body, affirmation, |t.top|);
    OccursExtend(head + body, t.bottom, affirmation, |t.top|);
  }

  /** `run` (daily_delight.py:81-100): the affirmation first, then the
      sections in document order; only the quote section changes state. */
  method Run(file: QuoteFile, affirmationReply: Fetched<Option<string>>, cat: Fetched<CatReply>,
             joke: Fetched<Joke>, funFact: Fetched<string>, readError: Option<string>)
    returns (content: string)
    modifies file
    ensures content == DelightDoc(DelightText, Affirmation(affirmationReply), CatSection(cat), JokeSection(joke),
                                  QuoteSection(old(file.lines), readError), FunFact(funFact))
    ensures file.lines == if readError.None? then Popped(old(file.lines)) else old(file.lines)
  {
    var affirmation := Affirmation(affirmationReply);
    var catHtml := CatSection(cat);
    var jokeHtml := JokeSection(joke);
    var quoteHtml := GetQuote(file, readError);
    var funHtml := FunFact(funFact);
    content := DelightDoc(DelightText, affirmation, catHtml, jokeHtml, quoteHtml, funHtml);
  }
}
