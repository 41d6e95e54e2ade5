# daily-email, modelled in Dafny

This project models the core of *daily-email*: small Python programs that
build HTML emails, and the script of the page that shows them.

- **Hugging Face papers** (`scraper.py`): four worker threads read the
  daily, weekly, monthly and trending listings. They share one table of
  papers keyed by title. A title seen by several workers becomes one record
  carrying every listing's tag. The table is then rendered as one card per
  paper.
- **The daily digest** (`daily_digest.py`): four fetchers write their HTML
  fragments into a shared `results` dict. These are the Astronomy Picture
  of the Day, the Earth Observatory image, the Hacker News top ten and the
  Papers with Code list. Each fetcher writes a fallback when it fails.
  `run` joins the threads and lays the fragments out in a fixed order.
- **The daily delight emails** (`daily_delight.py`, `main.py`): the
  affirmation with its default, the cat fact, joke, fun fact and tarot
  sections, and a quote of the day taken off the front of `quotes.txt`.
  `main.py` adds the days spent together and the days left until the
  anniversary, counted with Python's `datetime`.
- **The page script** (`static/script.js`):
  - the tag filter and its buttons;
  - the one-time newest-first sort of the paper cards;
  - the three-card carousel and its next and previous buttons.

Network replies, parsed pages, the clock and the date parsers are
parameters. An exception is a `None` or a `Raised(message)` value.
Threads are modelled as the orders in which they can finish.

Files:
- `wrappers.dfy`: `Option` and `Fetched`.
- `strings.dfy`: `split`, `join`, `replace`, `strip`, and where fragments
  occur in a text.
- `numerals.dfy`: `str()` of integers.
- `quotes.dfy`: the quote file.
- `hf_table.dfy`: the shared table of papers.
- `hf_scraper.dfy`: the Hugging Face worker and the card rendering.
- `digest.dfy`: `daily_digest.py`.
- `daily_delight.dfy`: `daily_delight.py`.
- `main_page.dfy`: `main.py`.
- `page_script.dfy`: `static/script.js`.

## Model

| member | source | states |
|---|---|---|
| Wrappers.AllSomeSpec | daily_digest.py:81-96 | A loop that gives up at the first failing step fails exactly when one step fails. Otherwise it yields every step's value, in order. |
| Numerals.NatToString | main.py:578 | `str(n)` of a natural number is a non-empty string of decimal digits. |
| Numerals.ParseNatToString | main.py:578 | Reading the decimal text of a number gives the number back. |
| Numerals.FourDigitYear | scraper.py:238-242 | A year from 1000 to 9999 is written with exactly four digits. |
| Numerals.IntToString | main.py:577 | `str(i)` is non-empty and begins with a minus sign exactly when `i` is negative. Everything after the sign is digits. |
| Strings.SplitOn | static/script.js:12 | `split` on a non-empty separator always yields at least one piece. |
| Strings.JoinSplitOn | daily_digest.py:25 | Joining the pieces of a split with the same separator gives back the original string. |
| Strings.SplitOnPiecesFree | daily_digest.py:25 | No piece of a split contains the separator, so `split(p)[0]` is the text before the first `p`. |
| Strings.SplitOnJoin | scraper.py:315 | Splitting on a character undoes joining with it when no part contains that character. |
| Strings.ReplaceIsJoinOfSplit | daily_digest.py:25 | `s.replace(p, n)` equals `n.join(s.split(p))`. |
| Strings.ReplaceAbsent | daily_digest.py:25 | Replacing a pattern that does not occur changes nothing. |
| Strings.StripShape | daily_digest.py:25 | `strip` removes only whitespace at the two ends. What it keeps is a middle slice of the string whose first and last characters are not whitespace. |
| Strings.StripIdempotent | main.py:56 | Stripping twice is the same as stripping once. |
| Strings.StrLessIrreflexive | scraper.py:310 | No string sorts before itself in Python's string order. |
| Strings.AppendAll | scraper.py:308-339 | A loop of `html += part` yields the prefix followed by every part in order. |
| Quotes.PopSplits | main.py:43-51 | A pop neither loses nor invents a line: the served line followed by the rest is the old file. An empty file is left as it is. |
| Quotes.AfterDaysIsSuffix | main.py:50-51 | After `d` daily runs the file holds the lines from index `d` on. |
| Quotes.ServedInOrder | main.py:40-65 | Run `d` serves line `d`. Once the file has run out, every run serves nothing. |
| Quotes.QuoteFile.constructor | main.py:42-43 | The file starts with the given lines. |
| Quotes.QuoteFile.Pop | main.py:42-51 | Returns the first line when there is one and rewrites the file without it. An empty file is not rewritten. |
| HfTable.Placeholder | scraper.py:216-225 | The first sighting of a paper inserts a record holding only the sighting listing's tag, with every detail missing. |
| HfTable.AddTag | scraper.py:211-213 | A tag is appended only when it is not already present, so the tags stay free of duplicates. |
| HfTable.Sighting | scraper.py:209-225 | A known title gains the listing's tag. A new title is appended with a placeholder, and only a new title is reported as new. |
| HfTable.WithDetails | scraper.py:261-269 | The six detail fields are set and the title and tags are kept. |
| HfTable.Filling | scraper.py:261-269 | Filling in details changes only that title's details. The keys and the tags stay as they were. |
| HfTable.RunAppend | scraper.py:209-269 | Running two lists of lock sections one after the other is the same as running their concatenation. |
| HfTable.RunTitles | scraper.py:209-225 | Titles are only appended, at most one per sighting. A fill never adds a title. |
| HfTable.StepsKeepWellFormed | scraper.py:209-269 | Under any interleaving of the workers' lock sections the table keeps exactly one record per title, with tag lists that are non-empty and free of duplicates. |
| HfTable.SightTracks | scraper.py:209-225 | A sighting keeps the table in step with the sightings made so far. |
| HfTable.FillTracks | scraper.py:261-269 | A detail fill keeps the table in step with the sightings made so far. |
| HfTable.ApplyTracks | scraper.py:209-269 | Any lock section keeps the table in step with the sightings made so far. |
| HfTable.RunFromEmpty | scraper.py:284-287 | From an empty table, under any interleaving, the titles are exactly the sighted titles. Each record's tags are exactly the listings that sighted it. |
| HfTable.OneRecordPerSightedTitle | scraper.py:209-225 | No insert is lost and none is duplicated: the table holds as many records as distinct titles were sighted. |
| HfTable.DailyAndTrendingMerge | scraper.py:209-215 | A title listed both as daily and as trending ends up as one record tagged with both listings. |
| HfTable.PaperTable.constructor | scraper.py:284 | `visited_links = {}`: the table starts empty. |
| HfTable.PaperTable.Sight | scraper.py:209-225 | The table becomes the sighting's table, and the method reports whether the title was new. |
| HfTable.PaperTable.FillDetails | scraper.py:261-269 | The table becomes the one with that paper's details filled in. |
| HfScraper.SegmentTag | scraper.py:182-194 | `date`, `week`, `month` and `trending` name their listings. Any other segment names none, and the worker then fails. |
| HfScraper.ListingUrlTagged | scraper.py:182-194 | The URL of a listing is read back as that listing, whatever the formatted date. |
| HfScraper.ListingUrlsTagged | scraper.py:277-282 | Each of the four URLs of `fetch_hf` is read back as its own listing. |
| HfScraper.PdfLinkOfPaper | scraper.py:256 | For a paper `href` of the form `/papers/<id>`, the PDF link is the arXiv host, a double slash, `pdf/` and the id. The double slash comes from the leading slash, which is kept. |
| HfScraper.DateQueryEndsInYear | scraper.py:238-242 | For a four-digit year, the parser always gets a text ending in a year. The raw date is kept as its beginning, and an appended year reads back as the current year. |
| HfScraper.PageDetailsSpec | scraper.py:234-259 | The detail scrape fails exactly when one of its lookups raises. Otherwise each of the six fields comes from its own lookup. |
| HfScraper.EntrySightings | scraper.py:205-225 | Each article is sighted at most once, under the worker's own listing. |
| HfScraper.CrawlSightings | scraper.py:205-269 | A worker sights each article it reads at most once, and every sighting carries its own listing. |
| HfScraper.WorkerAddsAtMost15 | scraper.py:205-208 | One worker inserts at most 15 papers, never removes one, and tags its sightings with the listing its URL names. |
| HfScraper.CrawlFirst | scraper.py:205-269 | The loop's effect is its first pass followed, unless the worker stops, by the rest of the loop. |
| HfScraper.VisitEntry | scraper.py:205-269 | One pass of the loop: the table after it is the table after that pass's lock sections, and `stop` says whether the worker ends. |
| HfScraper.CrawlListing | scraper.py:205-269 | The loop over a listing's articles leaves the table as the whole crawl's lock sections would, and counts the papers it inserted. |
| HfScraper.FetchHfPapers | scraper.py:177-273 | Leaves the table unchanged when the URL names no listing or the listing cannot be fetched. Otherwise it crawls the first 15 articles. |
| HfScraper.WorkersStepsNext | scraper.py:286-287 | Running `i + 1` workers is running `i` workers, then worker `i` on the table they left. |
| HfScraper.WorkersAddAtMost | scraper.py:284-287 | Together the workers insert at most 15 papers each. |
| HfScraper.RankIsNameOrder | scraper.py:310 | The order used to sort tags is Python's string order on the tag names. |
| HfScraper.InsertTagMultiset | scraper.py:310 | An insertion adds the tag once and nothing else. |
| HfScraper.InsertTagOrdered | scraper.py:310 | Inserting into a sorted list keeps it sorted. |
| HfScraper.SortTagsSpec | scraper.py:310 | `sorted(tags)` is a permutation of the tags and is in ascending order. |
| HfScraper.SortTagsByName | scraper.py:309-312 | A card's tag spans are the record's tags, each as often as in the record, in ascending order of their names. |
| HfScraper.Names | scraper.py:315 | There is one tag name per tag, in the record's order. |
| HfScraper.DataTagsSplit | scraper.py:315 | Splitting `data-tags` on a space gives back the tag names in insertion order. |
| HfScraper.DataTagsEmpty | scraper.py:315 | `data-tags` is empty exactly when the record has no tags. |
| HfScraper.GithubHtml | scraper.py:313 | The GitHub span is empty when `github_link` is falsy. Otherwise it holds the link. |
| HfScraper.StarHtml | scraper.py:331 | The star span is empty when `star_cnt` is falsy. Otherwise it holds the count. |
| HfScraper.CardFields | scraper.py:315-337 | A card shows exactly eleven values. |
| HfScraper.CardParts | scraper.py:316-338 | A card has 23 pieces: fixed text alternating with the eleven field values, so piece `2k + 1` is field `k`. |
| HfScraper.CardShows | scraper.py:317-318 | A card holds its `data-tags`, then its paper link, then its title, each at the place of its field. |
| HfScraper.Cards | scraper.py:308 | There is one card per title in the table. |
| HfScraper.HfCardsInOrder | scraper.py:289-339 | The cards follow the header one after another, in first-insertion order. |
| HfScraper.RenderHf | scraper.py:308-339 | The rendering loop yields the header, every card in order, then the closing tag. |
| HfScraper.RunHfWorkers | scraper.py:284-287 | After the four workers, the table is what their lock sections produce in one interleaving the lock admits. |
| HfScraper.FetchHf | scraper.py:275-341 | `results["hf"]` becomes the rendering of the table the four workers filled, which is well-formed and holds at most 60 papers. No other key changes. |
| Digest.Results.constructor | daily_digest.py:170 | `results` starts empty. |
| Digest.Results.Put | daily_digest.py:31 | Writing a key changes that key and no other. |
| Digest.HeadingsDiffer | daily_digest.py:30-35 | Headings with different emoji differ, so a fragment can never be taken for a fallback. |
| Digest.ApodExplanationShape | daily_digest.py:24-25 | The explanation is cut from the part of the raw text before the first "Tomorrow's picture:" and has no whitespace at either end. A text with neither marker is only stripped. |
| Digest.CutShape | scraper.py:38 | The same cut holds for any end marker and any removed text. |
| Digest.ApodHtmlShows | daily_digest.py:30 | The APOD fragment shows the title, then the image, then the explanation. |
| Digest.ApodFallback | daily_digest.py:33-35 | The APOD fallback is written exactly when a lookup raises. |
| Digest.FetchApod | daily_digest.py:12-35 | `results["apod"]` becomes the APOD fragment or its fallback, and nothing else changes. |
| Digest.EoHtmlShows | daily_digest.py:61-66 | The EO fragment shows the title, then the caption, then the "Read more" link. |
| Digest.EoFallback | daily_digest.py:70-72 | The EO fallback is written exactly when the card is missing. |
| Digest.FetchEo | daily_digest.py:38-72 | `results["eo"]` becomes the EO fragment or its fallback, and nothing else changes. |
| Digest.HnItemShows | daily_digest.py:88 | An item links `url` and shows `title` after it. |
| Digest.TopTen | daily_digest.py:79 | `ids[:10]` is a prefix of at most ten ids, and exactly ten when there are that many. |
| Digest.HnFragmentSpec | daily_digest.py:75-96 | The fallback is written exactly when the top stories or one of the first ten stories cannot be fetched. Otherwise there is one item per story, in order. |
| Digest.HnList | daily_digest.py:81-91 | The loop fails exactly when a story fetch fails. Otherwise it yields the list opening followed by every item in order. |
| Digest.FetchHackerNews | scraper.py:153-175 | `results["hn"]` becomes the Hacker News fragment, and nothing else changes. The same code appears at daily_digest.py:75-96. |
| Digest.PwcGithubShows | daily_digest.py:119-130 | The GitHub link is shown exactly when a non-empty `href` was found, and it points there. |
| Digest.PwcItemShows | daily_digest.py:127-133 | An item shows the paper link, then the title, then the GitHub link (empty without one), then the abstract. |
| Digest.PwcFallback | daily_digest.py:101-111 | The fallback is written exactly when the request raised or a block has no heading. An empty page gives "No papers found". |
| Digest.PwcFragmentLists | daily_digest.py:112-138 | A page whose blocks all have a heading lists one item per paper, in page order. |
| Digest.PwcList | daily_digest.py:112-137 | The loop fails exactly when a block fails. Otherwise it yields the list opening followed by every item in order. |
| Digest.FetchPapersWithCode | daily_digest.py:99-142 | `results["pwc"]` becomes the Papers with Code fragment, and nothing else changes. |
| Digest.WrittenLookup | daily_digest.py:185-192 | Each key holds its fetcher's fragment once that fetcher has run, and `""` before, whatever the order the others finished in. |
| Digest.PageOrder | daily_digest.py:185-192 | The page shows APOD, EO, Hacker News and Papers with Code in this order, each after a `<hr>`. |
| Digest.AllDonePage | daily_digest.py:180-192 | Once all four threads are joined, the page shows every fragment in its fixed place, whatever order the threads finished in. |
| Digest.RunFetcher | daily_digest.py:173-178 | One fetcher thread writes its own key and no other. |
| Digest.Run | daily_digest.py:169-193 | With each of the four threads finishing once, in any order, the content is the page assembled from the results they wrote, and that is the digest of the four fragments in their fixed order. |
| DailyDelight.Affirmation | daily_delight.py:7-12 | The reply's `affirmation` when present. Otherwise, or when the call raised, the default text. The same code appears at main.py:67-72. |
| DailyDelight.FunFactShows | daily_delight.py:15-20 | The section opens with its heading on both paths and shows the fact, or the error. |
| DailyDelight.JokeShows | daily_delight.py:23-29 | The section opens with its heading. A joke shows its setup, then its punchline. A failure shows the error. |
| DailyDelight.CatShows | daily_delight.py:31-47 | The heading appears on both paths, followed by the body. A success shows the fact, then the image. A failure shows the error. |
| DailyDelight.QuoteShows | daily_delight.py:49-60 | The first line appears exactly as stored. With no line, or a failed read, the section has the plain "Quote" heading and shows the error. |
| DailyDelight.GetQuote | daily_delight.py:49-60 | Returns the quote section of the old file. The file loses its first line exactly when the read succeeded. |
| DailyDelight.DelightRules | daily_delight.py:89-97 | The text after the affirmation and between sections is an `<hr>`. |
| DailyDelight.DelightOrder | daily_delight.py:83-100 | The affirmation comes first. Then come the cat fact, joke, quote and fun fact in this order, each one rule after the one before. |
| DailyDelight.Run | daily_delight.py:81-100 | The content is the document with each section's result, and only the quote file changes. |
| MainPage.DaysInMonth | main.py:554-555 | Every month has 28 to 31 days. |
| MainPage.MonthStep | main.py:554-555 | Each month starts where the one before it ends. |
| MainPage.MonthsApart | main.py:554-555 | A later month starts after the whole of an earlier one. |
| MainPage.OrdinalOrder | main.py:555 | Within a year, a date has the smaller ordinal exactly when it comes first in (month, day) order. |
| MainPage.FloorDays | main.py:554-555 | `.days` of a difference counts calendar days, one fewer when the later moment is earlier in its day than the earlier one. |
| MainPage.Anniversary | main.py:13 | November 2 of the current year, at midnight, is a valid moment. |
| MainPage.DaysTogetherCounts | main.py:554 | The days together are the calendar days since November 2, 2021, whatever the time of day. The count is negative only before that date. |
| MainPage.DaysUntilCounts | main.py:555 | The corrected count is never negative. It is positive exactly before November 2, and then it is the number of calendar days left. |
| MainPage.DaysUntilAsWrittenLags | main.py:555 | The count as written equals the calendar count only at midnight. At any other time it is one less, floored at zero. |
| MainPage.AnniversaryEve | main.py:555 | At noon on November 1, 2025 the count as written is 0 and the email wishes a happy anniversary, though one calendar day is left. |
| MainPage.LoveMessageShows | main.py:578 | The message counts down exactly while days are left, showing the number in decimal. Otherwise it wishes a happy anniversary. |
| MainPage.MainQuoteShows | main.py:40-65 | Shows the first line stripped, the error text when the file could not be handled, and the "no more quotes" card for an empty file. |
| MainPage.StripLine | main.py:43-56 | A stored quote comes back exactly as written: `strip()` removes only the line ending that `readlines()` keeps. |
| MainPage.FetchQuote | main.py:40-65 | Returns the quote section of the old file. The file loses its first line exactly when the read succeeded. |
| MainPage.MainHeadOrder | main.py:557-580 | The head holds the styles, the affirmation, the days together and the message in this order, each right after its fixed text. |
| MainPage.MainSectionOrder | main.py:581-590 | After the head come the cat fact, tarot card, joke, fun fact and quote, in this order. |
| MainPage.MainHeadKept | main.py:557-590 | In the whole document, the affirmation, the day count and the message stay where the head puts them. |
| MainPage.MainSections | main.py:582-586 | Right after the head come the five sections in order, each one separator after the one before. |
| MainPage.Run | main.py:552-590 | The content is the document with the affirmation, the days together, the message for the calendar count of days left and the five sections. Only the quote file changes. |
| PageScript.UntaggedOnlyUnderAll | static/script.js:12-13 | A card without tags is visible only under "ALL", and "ALL" shows every card. |
| PageScript.Filtered | static/script.js:11-15 | Filtering keeps the number of cards and changes only their display. |
| PageScript.FilterLast | static/script.js:8-18 | Only the last filter counts, so filtering twice with the same tag is filtering once. Every card keeps its tags and date. |
| PageScript.ScrapedCardShown | static/script.js:12-13 | A card written for a paper with tags `tags` is visible under `tag` exactly when `tag` is "ALL" or the name of one of those tags. |
| PageScript.Styled | static/script.js:21-23 | Restyling keeps the number of buttons and changes only which ones are active. |
| PageScript.StyledActive | static/script.js:22 | Exactly the buttons whose `data-tag` is the current filter are active. A button without `data-tag` never is. |
| PageScript.JsRem | static/script.js:82-88 | JavaScript's `%` with a positive divisor `b` lies strictly between `-b` and `b`. For a non-negative dividend it is the ordinary remainder. |
| PageScript.CarouselSteps | static/script.js:80-90 | From an index in [0, 3) both buttons lead to an index in [0, 3). Next and previous undo each other, and three steps forward go round once. |
| PageScript.Shown | static/script.js:49-78 | `showCard` keeps the number of cards. |
| PageScript.ShownSingle | static/script.js:55-75 | After `showCard(index)` only the card at `index`, if there is one, is active and in front. Every other card is at rest. |
| PageScript.SortNewestFirst | static/script.js:34-38 | Sorting leaves the cards newest first and is a permutation of them. |
| PageScript.InsertNewest | static/script.js:34-38 | One insertion step leaves the prefix up to `i` newest first and permutes the cards. |
| PageScript.SwapStep | static/script.js:34-38 | Moving a card past an older one keeps the insertion in progress. |
| PageScript.InsertDone | static/script.js:34-38 | Once the card meets a card at least as new, or reaches the front, the prefix is newest first. |
| PageScript.SetDisplays | static/script.js:11-15 | The loop over the cards sets each card's display for the tag, leaving the cards as filtering describes. |
| PageScript.ToggleActive | static/script.js:21-23 | The loop over the buttons toggles each one's `active` class by the comparison. |
| PageScript.Activate | static/script.js:55-75 | Every card is put to rest, then the card at `index`, if any, is brought to the front. |
| PageScript.Page.constructor | static/script.js:2-47 | The page starts with the filter "ALL" and card 0. |
| PageScript.Page.FilterPapers | static/script.js:8-18 | Records the filter, filters the cards by it and restyles the buttons. |
| PageScript.Page.UpdateFilterButtonStyles | static/script.js:20-24 | A button is active exactly when its `data-tag` is the current filter. |
| PageScript.Page.SortPapersByDateOnce | static/script.js:26-43 | Does nothing without the grid or without cards. Otherwise it puts the same cards back newest first. |
| PageScript.Page.ShowCard | static/script.js:49-78 | Shows the card at `index` and records the index, even when there is no card there. |
| PageScript.Page.NextCard | static/script.js:80-84 | Moves to the next index modulo 3 and shows it. From an index in [0, 3), the new index is in [0, 3). |
| PageScript.Page.PrevCard | static/script.js:86-90 | Moves to the previous index modulo 3 and shows it. From an index in [0, 3), the new index is in [0, 3). |

## Left out

- The APOD and Earth Observatory fetchers of `scraper.py`, and its LLM summary (`fetch_llm_summary`), are not modelled. The model covers their `daily_digest.py` counterparts, the Hacker News fetcher and the APOD explanation trim.
- Logging is not modelled. It has no effect on the results.
- Threads are modelled as orders of completion. The digest fetchers write to different keys, so every order is covered. The Hugging Face workers are run one after another, which is one interleaving their lock admits. The table lemmas hold for any interleaving of the lock sections.
- HTTP requests, HTML parsing (BeautifulSoup), JSON decoding, `dateutil` parsing and `datetime.now()` are parameters. An exception is modelled as a `None` or a `Raised` value.
- `get_styles` in `main.py` is a parameter of `MainPage.Run`. The other section fetchers of `main.py` (cat fact, tarot card, joke, fun fact) are passed in as finished HTML, and the random tarot pick is not modelled.
- Sending the emails (SMTP and environment variables) is not modelled.
- A failure to open or write `quotes.txt` is a single `readError` parameter. A write that fails after a successful read is not told apart from a failed read.
- `main.py` computes `anniversary` once, when it is imported. The model uses the year of the reading passed to `run`, which is the same unless the program runs across New Year.
- After November 2 the count is zero and the email keeps wishing a happy anniversary until the end of the year. That is what the code does, and it is modelled as such.
- Dates are the years 1 to 9999 that `datetime` allows. Time zones and leap seconds are not modelled.
- The text of `main.py` is mis-encoded: where an emoji is meant (🌟 at main.py:568, for instance) the file holds the characters that come from reading the emoji's UTF-8 bytes as Mac Roman (U+F8FF, ü, å, ü), and those are what Python sends. The model writes the intended emoji, not the characters in the file.
- The `new Date(...)` reading in `static/script.js` is a parameter `stamp` from date text to a number. Invalid dates (`NaN`) and the stability of `Array.prototype.sort` are not modelled; `PageScript.SortNewestFirst` states the result order and the permutation but not which of two equally dated cards comes first.
- Re-appending the sorted cards to the grid is modelled as the page's card list taking the sorted order.
- Not modelled in `static/script.js`:
  - the `DOMContentLoaded` wiring and the mobile layout;
  - flipping cards, fullscreen and smooth scrolling;
  - console output and the forced reflow.

  Only the functions named in the table are modelled.
- MainPage.Run: renders the message for the corrected calendar count `DaysUntil` (see Findings), not for the floored count that main.py:555 computes (`DaysUntilAsWritten`). The two agree at midnight; at any other time of day the floored count is one less, stopping at zero (`MainPage.DaysUntilAsWrittenLags`). So from the morning of November 1 the program already wishes a happy anniversary where the model counts one day down (`MainPage.AnniversaryEve`).
- HfScraper.DateQuery: treats only the ASCII digits `0`-`9` as digits. The test at scraper.py:239 is `re.search(r'\d{4}$', ...)` on a `str`, where `\d` matches every Unicode decimal digit, so a raw date ending in four such digits from another script (Arabic-Indic, for instance) is passed on unchanged by the program but gets ", <year>" appended in the model.
- `PageScript.Page.ShowCard`: a non-integer or out-of-range index activates no card, as `cards[index]` is then undefined. The model takes integer indices only.

## Findings

| source | as written | input that shows it | evidently intended | confidence | as-written member | corrected member |
|---|---|---|---|---|---|---|
| main.py:555 | `(anniversary - today).days` floors a difference that includes today's time of day, so after midnight it counts one day fewer than the calendar days left | `today` = 2025-11-01 12:00: the difference is 12 hours, `.days` is 0, and the email says "Happy Anniversary" a day early | the number of calendar days until November 2 ("Only 1 days until our anniversary") | not executed | MainPage.AnniversaryEve | MainPage.DaysUntilCounts |
