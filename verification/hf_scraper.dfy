/** The Hugging Face part of scraper.py: reading a listing URL, one listing
    worker (`fetch_hf_papers`, scraper.py:177-273) with the detail scrape of
    each new paper, the four workers of `fetch_hf`, and the rendering of the
    merged table (scraper.py:289-339). Pages, the date parser and the
    current year are parameters; an `Option` that is `None` stands for a
    request or an element lookup that raised. */
module HfScraper {
  import opened Wrappers
  import opened Strings
  import opened Numerals
  import opened HfTable
  import Digest

  // ----- Listing URLs -----

  /** The path segment that names a listing. */
  function Segment(tag: Tag): string
  {
    match tag
    case Daily => "date"
    case Weekly => "week"
    case Monthly => "month"
    case Trending => "trending"
  }

  /** The `match url_type` of scraper.py:182-194. Any other segment leaves
      `papers_type` unbound, and the worker fails before touching the table. */
  function SegmentTag(seg: string): (r: Option<Tag>)
    ensures forall tag :: r == Some(tag) <==> seg == Segment(tag)
  {
    if seg == "date" then Some(Daily)
    else if seg == "week" then Some(Weekly)
    else if seg == "month" then Some(Monthly)
    else if seg == "trending" then Some(Trending)
    else None
  }

  /** `url.split("/")[4]` read as a listing; `None` also when the URL has
      fewer than five parts (an IndexError). */
  function UrlTag(url: string): Option<Tag>
  {
    var parts := SplitOn(url, "/");
    if |parts| < 5 then None else SegmentTag(parts[4])
  }

  const PapersRoot := "https://huggingface.co/papers/"

  /** The URL of one listing: the root, the listing's segment, and the
      formatted date after a slash (scraper.py:277-282). The trending
      listing has no date. */
  function ListingUrl(tag: Tag, date: string): string
  {
    if tag == Trending then PapersRoot + Segment(tag) else PapersRoot + Segment(tag) + "/" + date
  }

  /** The four URLs of `fetch_hf`; `day`, `week` and `month` are the current
      date formatted as `%Y-%m-%d`, `%G-W%V` and `%Y-%m`. */
  function ListingUrls(day: string, week: string, month: string): seq<string>
  {
    [ListingUrl(Daily, day), ListingUrl(Weekly, week), ListingUrl(Monthly, month), ListingUrl(Trending, "")]
  }

  /** The root is four slash-free segments, each followed by a slash. */
  lemma PapersRootSegments(x: string)
    ensures PapersRoot + x == "https:" + ['/'] + ("" + ['/'] + ("huggingface.co" + ['/'] + ("papers" + ['/'] + x)))
  {
  }

  /** The root splits into four parts before whatever follows it. */
  lemma PapersRootParts(x: string)
    ensures var parts := SplitOn(PapersRoot + x, "/");
      |parts| == 4 + |SplitOn(x, "/")| && parts[4..] == SplitOn(x, "/")
  {
    var d := "papers" + ['/'] + x;
    var c := "huggingface.co" + ['/'] + d;
    var b := "" + ['/'] + c;
    PapersRootSegments(x);
    SplitOnAfterFree("https:", '/', b);
    SplitOnAfterFree("", '/', c);
    SplitOnAfterFree("huggingface.co", '/', d);
    SplitOnAfterFree("papers", '/', x);
  }

  lemma SegmentThenRest(seg: string, rest: string)
    requires '/' !in seg
    ensures UrlTag(PapersRoot + seg + "/" + rest) == SegmentTag(seg)
  {
    assert PapersRoot + seg + "/" + rest == PapersRoot + (seg + ['/'] + rest);
    PapersRootParts(seg + ['/'] + rest);
    SplitOnAfterFree(seg, '/', rest);
  }

  /** A listing's URL is read back as that listing, whatever the date. */
  lemma ListingUrlTagged(tag: Tag, date: string)
    ensures UrlTag(ListingUrl(tag, date)) == Some(tag)
  {
    var seg := Segment(tag);
    if tag == Trending {
      PapersRootParts(seg);
      if Contains(seg, "/") {
        ContainsChar(seg, '/');
      }
      SplitOnAbsent(seg, "/");
    } else {
      assert '/' !in seg;
      SegmentThenRest(seg, date);
    }
  }

  /** Each of the four URLs is read back as its own listing, whatever the
      formatted dates are. */
  lemma ListingUrlsTagged(day: string, week: string, month: string)
    ensures var urls := ListingUrls(day, week, month);
      && UrlTag(urls[0]) == Some(Daily) && UrlTag(urls[1]) == Some(Weekly)
      && UrlTag(urls[2]) == Some(Monthly) && UrlTag(urls[3]) == Some(Trending)
  {
    ListingUrlTagged(Daily, day);
    ListingUrlTagged(Weekly, week);
    ListingUrlTagged(Monthly, month);
    ListingUrlTagged(Trending, "");
  }

  // ----- Detail scrape of one paper page -----

  /** `"https://arxiv.org/" + href.replace("papers/", "pdf/")` (scraper.py:256). */
  function PdfLink(href: string): string
  {
    "https://arxiv.org/" + Replace(href, "papers/", "pdf/")
  }

  /** A paper's `href` has the form `/papers/<id>`; its leading slash is
      kept, so the PDF link carries a double slash after the host. */
  lemma PdfLinkOfPaper(id: string)
    requires !Contains(id, "papers/")
    ensures PdfLink("/papers/" + id) == "https://arxiv.org//pdf/" + id
  {
    var href := "/papers/" + id;
    var tail := href[1..];
    assert href[0] == '/' && "papers/"[0] == 'p';
    assert href[..7] != "papers/";
    assert tail == "papers/" + id;
    assert tail[..7] == "papers/" && tail[7..] == id;
    ReplaceAbsent(id, "papers/", "pdf/");
    assert Replace(tail, "papers/", "pdf/") == "pdf/" + id;
    assert Replace(href, "papers/", "pdf/") == "/" + "pdf/" + id;
  }

  /** `re.search(r'\d{4}$', s)`: the string ends in four ASCII digits. */
  predicate EndsWithFourDigits(s: string)
  {
    |s| >= 4 && AllDigits(s[|s| - 4..])
  }

  /** The text handed to the date parser (scraper.py:238-242): the raw date
      as it is when it ends in a year, otherwise with the current year
      appended. */
  function DateQuery(raw: string, year: nat): string
  {
    if EndsWithFourDigits(raw) then raw else raw + ", " + NatToString(year)
  }

  /** For a four-digit year the parser is always given a text that ends in a
      year; the raw date is kept as its beginning, and a year that was
      appended reads back as the current year. */
  lemma DateQueryEndsInYear(raw: string, year: nat)
    requires 1000 <= year < 10000
    ensures EndsWithFourDigits(DateQuery(raw, year))
    ensures raw <= DateQuery(raw, year)
    ensures !EndsWithFourDigits(raw) ==>
      var q := DateQuery(raw, year); ParseNat(q[|q| - 4..]) == year
  {
    if !EndsWithFourDigits(raw) {
      var y := NatToString(year);
      var q := raw + ", " + y;
      FourDigitYear(year);
      assert q[|q| - 4..] == y;
      ParseNatToString(year);
    }
  }

  /** The GitHub button of a paper page: its `href`, and the text of its
      `<span>` (`None` when the span is missing). */
  datatype GithubAnchor = GithubAnchor(href: string, starText: Option<string>)

  /** What the detail scrape reads from a paper page. `dateBlock` is the
      date `<div>`: missing, present without an inner `<div>`, or present
      with that inner div's text. `upvoteText` is `None` when the upvote
      box or its count is missing. */
  datatype PaperPage = PaperPage(
    dateBlock: Option<Option<string>>,
    github: Option<GithubAnchor>,
    upvoteText: Option<string>,
    abstractText: Option<string>)

  /** The lookups of the detail scrape that raise: the date block without
      its inner div, a missing upvote count, a GitHub button (with a
      non-empty link) without its star count. */
  predicate PageRaises(page: PaperPage)
  {
    || page.dateBlock == Some(None)
    || page.upvoteText.None?
    || (page.github.Some? && page.github.value.href != [] && page.github.value.starText.None?)
  }

  /** `published_date_raw` (scraper.py:235); `None` when it raises. */
  function RawDate(block: Option<Option<string>>): Option<string>
  {
    match block
    case None => Some("Unknown date")
    case Some(None) => None
    case Some(Some(text)) => Some(Replace(Strip(text), "Published on ", ""))
  }

  /** The six fields the detail scrape computes (scraper.py:234-259); `None`
      when one of its lookups raises, which ends the worker. `parse` is
      `parser.parse(…).strftime("%Y-%m-%d")`, `None` where it raises. */
  function PageDetails(href: string, page: PaperPage, year: nat, parse: string -> Option<string>): Option<Details>
  {
    if PageRaises(page) then None
    else
      var raw := RawDate(page.dateBlock).value;
      var published := parse(DateQuery(raw, year)).GetOr("Unknown date");
      var githubLink := if page.github.Some? then Some(page.github.value.href) else None;
      var star := if page.github.Some? && page.github.value.href != []
                  then Strip(page.github.value.starText.value) else "";
      var abstractText := if page.abstractText.Some? then Strip(page.abstractText.value)
                          else "(No abstract available)";
      Some(Details(PdfLink(href), abstractText, githubLink, published, Strip(page.upvoteText.value), star))
  }

  /** The scrape fails exactly when one of its lookups raises; otherwise the
      PDF link comes from the `href`, the GitHub link is the button's link
      when there is a button, there is no star count without a GitHub link,
      and the date is the parser's reading of the query or "Unknown date". */
  lemma PageDetailsSpec(href: string, page: PaperPage, year: nat, parse: string -> Option<string>)
    ensures var r := PageDetails(href, page, year, parse);
      && (r.None? <==> PageRaises(page))
      && (r.Some? ==> r.value.pdfLink == PdfLink(href))
      && (r.Some? ==> r.value.githubLink == (if page.github.Some? then Some(page.github.value.href) else None))
      && (r.Some? && r.value.githubLink.None? ==> r.value.starCnt == "")
      && (r.Some? ==> r.value.publishedDate == "Unknown date"
                      || parse(DateQuery(RawDate(page.dateBlock).value, year)) == Some(r.value.publishedDate))
  {
  }

  // ----- One listing worker -----

  /** The `<a>` inside an article's `<h3>`. */
  datatype Anchor = Anchor(text: string, href: string)

  /** One `<article>` of a listing page: without an `<h3>` (looking up its
      link raises), or with an `<h3>` whose `<a>` may be missing. */
  datatype Entry = NoHeading | Heading(anchor: Option<Anchor>)

  function EntryTitle(a: Option<Anchor>): string
  {
    if a.Some? then Strip(a.value.text) else "Untitled"
  }

  function EntryLink(a: Option<Anchor>): string
  {
    if a.Some? then "https://huggingface.co" + a.value.href else "#"
  }

  function Min(a: nat, b: nat): nat
  {
    if a <= b then a else b
  }

  /** The lock sections of one pass of the loop at scraper.py:205-269 over
      the article `e`, when the table holds the titles `known`, and whether
      the worker goes on to the next article. A paper seen before only
      gains the tag; a new paper is inserted as a placeholder and then
      filled in from its page; a failure after the insertion ends the
      worker with the placeholder left in the table. */
  function EntrySteps(known: set<string>, tag: Tag, e: Entry, page: string -> Option<PaperPage>,
                      year: nat, parse: string -> Option<string>): (seq<Step>, bool)
  {
    if e.NoHeading? then ([], false)
    else
      var a := e.anchor;
      var title, link := EntryTitle(a), EntryLink(a);
      var s1 := Sight(title, link, tag);
      if title in known then ([s1], true)
      else if a.None? || page(link).None? then ([s1], false)
      else match PageDetails(a.value.href, page(link).value, year, parse)
        case None => ([s1], false)
        case Some(d) => ([s1, Fill(title, d)], true)
  }

  /** The titles in the table after the article `e`. */
  function KnownAfter(known: set<string>, e: Entry): set<string>
  {
    if e.NoHeading? then known else known + {EntryTitle(e.anchor)}
  }

  /** The lock sections the whole loop performs over `entries` when no other
      worker runs meanwhile; the worker's effect is `Run(t, CrawlSteps(…))`. */
  function CrawlSteps(known: set<string>, tag: Tag, entries: seq<Entry>, page: string -> Option<PaperPage>,
                      year: nat, parse: string -> Option<string>): seq<Step>
    decreases |entries|
  {
    if entries == [] then []
    else
      var (steps, go) := EntrySteps(known, tag, entries[0], page, year, parse);
      if go then steps + CrawlSteps(KnownAfter(known, entries[0]), tag, entries[1..], page, year, parse)
      else steps
  }

  /** One article is sighted at most once, with the worker's listing. */
  lemma EntrySightings(known: set<string>, tag: Tag, e: Entry, page: string -> Option<PaperPage>,
                       year: nat, parse: string -> Option<string>)
    ensures var steps := EntrySteps(known, tag, e, page, year, parse).0;
      Sightings(steps) <= 1 && SightsTagged(steps, tag)
  {
    var steps := EntrySteps(known, tag, e, page, year, parse).0;
    if e.Heading? {
      var a := e.anchor;
      var title, link := EntryTitle(a), EntryLink(a);
      var s1 := Sight(title, link, tag);
      if title in known || a.None? || page(link).None? || PageDetails(a.value.href, page(link).value, year, parse).None? {
        assert steps == [s1];
        assert Sightings(steps) == 1 + Sightings([]) by { assert steps[1..] == []; }
      } else {
        var s2 := Fill(title, PageDetails(a.value.href, page(link).value, year, parse).value);
        assert steps == [s1, s2];
        assert Sightings([s2]) == 0 by { assert [s2][1..] == []; }
        assert Sightings(steps) == 1 + Sightings([s2]) by { assert steps[1..] == [s2]; }
      }
    }
  }

  lemma RunOne(t: Table, s: Step)
    ensures Run(t, [s]) == Apply(t, s)
  {
    assert [s][..0] == [];
  }

  lemma RunTwo(t: Table, s1: Step, s2: Step)
    ensures Run(t, [s1, s2]) == Apply(Apply(t, s1), s2)
  {
    assert [s1, s2][..1] == [s1];
    RunOne(t, s1);
  }

  /** A worker sights each article it reads at most once, and every
      sighting carries the worker's own listing. */
  lemma {:induction false} CrawlSightings(known: set<string>, tag: Tag, entries: seq<Entry>,
                                          page: string -> Option<PaperPage>, year: nat, parse: string -> Option<string>)
    ensures var steps := CrawlSteps(known, tag, entries, page, year, parse);
      Sightings(steps) <= |entries| && SightsTagged(steps, tag)
    decreases |entries|
  {
    if entries != [] {
      var (first, go) := EntrySteps(known, tag, entries[0], page, year, parse);
      EntrySightings(known, tag, entries[0], page, year, parse);
      if go {
        var rest := CrawlSteps(KnownAfter(known, entries[0]), tag, entries[1..], page, year, parse);
        CrawlSightings(KnownAfter(known, entries[0]), tag, entries[1..], page, year, parse);
        SightingsAppend(first, rest);
        SightsTaggedAppend(first, rest, tag);
      }
    }
  }

  /** The lock sections of `fetch_hf_papers(url, …)` on the table `t`: none
      when the URL names no listing or the listing cannot be fetched,
      otherwise those of the first 15 articles. */
  function WorkerSteps(t: Table, url: string, listing: Option<seq<Entry>>, page: string -> Option<PaperPage>,
                       year: nat, parse: string -> Option<string>): seq<Step>
  {
    if UrlTag(url).None? || listing.None? then []
    else CrawlSteps(t.records.Keys, UrlTag(url).value, listing.value[..Min(15, |listing.value|)], page, year, parse)
  }

  /** One worker inserts at most 15 papers, never removes one, and tags
      what it sights with the listing its URL names. */
  lemma WorkerAddsAtMost15(t: Table, url: string, listing: Option<seq<Entry>>, page: string -> Option<PaperPage>,
                           year: nat, parse: string -> Option<string>)
    ensures var steps := WorkerSteps(t, url, listing, page, year, parse);
      var r := Run(t, steps);
      && t.titles <= r.titles && |r.titles| <= |t.titles| + 15
      && forall i :: 0 <= i < |steps| && steps[i].Sight? ==> Some(steps[i].tag) == UrlTag(url)
  {
    var steps := WorkerSteps(t, url, listing, page, year, parse);
    RunTitles(t, steps);
    if UrlTag(url).Some? && listing.Some? {
      CrawlSightings(t.records.Keys, UrlTag(url).value, listing.value[..Min(15, |listing.value|)], page, year, parse);
    }
  }

  /** The effect of the loop is that of its first pass, followed, when the
      worker goes on, by that of the rest of the loop. */
  lemma CrawlFirst(t: Table, tag: Tag, entries: seq<Entry>, page: string -> Option<PaperPage>,
                   year: nat, parse: string -> Option<string>)
    requires entries != []
    ensures var (steps, go) := EntrySteps(t.records.Keys, tag, entries[0], page, year, parse);
      Run(t, CrawlSteps(t.records.Keys, tag, entries, page, year, parse))
      == if go then Run(Run(t, steps), CrawlSteps(KnownAfter(t.records.Keys, entries[0]), tag, entries[1..], page, year, parse))
         else Run(t, steps)
  {
    var (steps, go) := EntrySteps(t.records.Keys, tag, entries[0], page, year, parse);
    if go {
      RunAppend(t, steps, CrawlSteps(KnownAfter(t.records.Keys, entries[0]), tag, entries[1..], page, year, parse));
    }
  }

  /** One pass of the loop at scraper.py:205-269 on the shared table: the
      sighting, and for a new paper the detail scrape and the update.
      `stop` tells that the worker ends here (the article has no heading,
      or a failure after the insertion). */
  method VisitEntry(table: PaperTable, tag: Tag, e: Entry,
                    page: string -> Option<PaperPage>, year: nat, parse: string -> Option<string>)
    returns (inserted: bool, stop: bool)
    requires table.Valid()
    modifies table
    ensures table.Valid()
    ensures old(table.titles) <= table.titles
    ensures |table.titles| == |old(table.titles)| + (if inserted then 1 else 0)
    ensures var (steps, go) := EntrySteps(old(table.records.Keys), tag, e, page, year, parse);
      table.Value() == Run(old(table.Value()), steps) && stop == !go
    ensures table.records.Keys == KnownAfter(old(table.records.Keys), e)
  {
    ghost var t0 := table.Value();
    inserted, stop := false, true;
    if e.NoHeading? {
      return;
    }
    var a := e.anchor;
    var title, link := EntryTitle(a), EntryLink(a);
    inserted := table.Sight(title, link, tag);
    ghost var s1 := Sight(title, link, tag);
    RunOne(t0, s1);
    if !inserted {
      stop := false;
      return;
    }
    if a.None? {
      return;
    }
    var p := page(link);
    if p.None? {
      return;
    }
    var d := PageDetails(a.value.href, p.value, year, parse);
    if d.None? {
      return;
    }
    table.FillDetails(title, d.value);
    RunTwo(t0, s1, Fill(title, d.value));
    stop := false;
  }

  /** The loop of scraper.py:205-269 over the articles `entries` of a
      listing with tag `tag`. `total` counts the papers it inserted. */
  method CrawlListing(table: PaperTable, tag: Tag, entries: seq<Entry>,
                      page: string -> Option<PaperPage>, year: nat, parse: string -> Option<string>)
    returns (total: nat)
    requires table.Valid()
    modifies table
    ensures table.Valid()
    ensures table.Value() == Run(old(table.Value()), CrawlSteps(old(table.records.Keys), tag, entries, page, year, parse))
    ensures old(table.titles) <= table.titles && total == |table.titles| - |old(table.titles)|
  {
    total := 0;
    ghost var t0 := table.Value();
    var i := 0;
    while i < |entries|
      invariant 0 <= i <= |entries|
      invariant table.Valid()
      invariant old(table.titles) <= table.titles && total == |table.titles| - |old(table.titles)|
      invariant Run(t0, CrawlSteps(t0.records.Keys, tag, entries, page, year, parse))
             == Run(table.Value(), CrawlSteps(table.records.Keys, tag, entries[i..], page, year, parse))
      decreases |entries| - i
    {
      assert entries[i..][0] == entries[i] && entries[i..][1..] == entries[i + 1..];
      CrawlFirst(table.Value(), tag, entries[i..], page, year, parse);
      var inserted, stop := VisitEntry(table, tag, entries[i], page, year, parse);
      if inserted {
        total := total + 1;
      }
      if stop {
        return;
      }
      i := i + 1;
    }
    assert entries[i..] == [];
  }

  /** `fetch_hf_papers` on the shared table: nothing when the URL names no
      listing or the listing cannot be fetched, otherwise the loop over its
      first 15 articles. `total` is `total_papers`, the number of papers
      this worker inserted. */
  method FetchHfPapers(table: PaperTable, url: string, listing: Option<seq<Entry>>,
                       page: string -> Option<PaperPage>, year: nat, parse: string -> Option<string>)
    returns (total: nat)
    requires table.Valid()
    modifies table
    ensures table.Valid()
    ensures table.Value() == Run(old(table.Value()), WorkerSteps(old(table.Value()), url, listing, page, year, parse))
    ensures old(table.titles) <= table.titles && total == |table.titles| - |old(table.titles)|
  {
    var found := UrlTag(url);
    if found.None? || listing.None? {
      assert WorkerSteps(table.Value(), url, listing, page, year, parse) == [];
      return 0;
    }
    total := CrawlListing(table, found.value, listing.value[..Min(15, |listing.value|)], page, year, parse);
  }

  /** The lock sections of the four workers run one after another over
      `urls`, each starting from the table the previous ones left. */
  function WorkersSteps(t: Table, urls: seq<string>, listings: seq<Option<seq<Entry>>>,
                        page: string -> Option<PaperPage>, year: nat, parse: string -> Option<string>): seq<Step>
    requires |urls| == |listings|
    decreases |urls|
  {
    if urls == [] then []
    else
      var n := |urls| - 1;
      var before := WorkersSteps(t, urls[..n], listings[..n], page, year, parse);
      before + WorkerSteps(Run(t, before), urls[n], listings[n], page, year, parse)
  }

  /** Running the first `i + 1` workers is running the first `i`, then
      worker `i` on the table they left. */
  lemma WorkersStepsNext(t: Table, urls: seq<string>, listings: seq<Option<seq<Entry>>>,
                         page: string -> Option<PaperPage>, year: nat, parse: string -> Option<string>, i: nat)
    requires |urls| == |listings| && i < |urls|
    ensures var before := Run(t, WorkersSteps(t, urls[..i], listings[..i], page, year, parse));
      Run(t, WorkersSteps(t, urls[..i + 1], listings[..i + 1], page, year, parse))
        == Run(before, WorkerSteps(before, urls[i], listings[i], page, year, parse))
  {
    var before := WorkersSteps(t, urls[..i], listings[..i], page, year, parse);
    assert urls[..i + 1][..i] == urls[..i];
    assert listings[..i + 1][..i] == listings[..i];
    RunAppend(t, before, WorkerSteps(Run(t, before), urls[i], listings[i], page, year, parse));
  }

  /** The workers together insert at most 15 papers each. */
  lemma {:induction false} WorkersAddAtMost(t: Table, urls: seq<string>, listings: seq<Option<seq<Entry>>>,
                                            page: string -> Option<PaperPage>, year: nat, parse: string -> Option<string>)
    requires |urls| == |listings|
    ensures var r := Run(t, WorkersSteps(t, urls, listings, page, year, parse));
      t.titles <= r.titles && |r.titles| <= |t.titles| + 15 * |urls|
    decreases |urls|
  {
    if urls != [] {
      var n := |urls| - 1;
      var before := WorkersSteps(t, urls[..n], listings[..n], page, year, parse);
      var last := WorkerSteps(Run(t, before), urls[n], listings[n], page, year, parse);
      WorkersAddAtMost(t, urls[..n], listings[..n], page, year, parse);
      WorkerAddsAtMost15(Run(t, before), urls[n], listings[n], page, year, parse);
      RunAppend(t, before, last);
    }
  }

  // ----- Rendering -----

  /** `sorted` on tag names: DAILY < MONTHLY < TRENDING < WEEKLY. */
  function Rank(tag: Tag): nat
  {
    match tag
    case Daily => 0
    case Monthly => 1
    case Trending => 2
    case Weekly => 3
  }

  /** The rank order is Python's string order on the tag names. */
  lemma RankIsNameOrder(a: Tag, b: Tag)
    ensures Rank(a) < Rank(b) <==> StrLess(a.Name(), b.Name())
  {
    if a == b {
      StrLessIrreflexive(a.Name());
    }
  }

  predicate RankOrdered(s: seq<Tag>)
  {
    forall i, j :: 0 <= i < j < |s| ==> Rank(s[i]) <= Rank(s[j])
  }

  /** One step of an insertion sort by rank. */
  function InsertTag(x: Tag, s: seq<Tag>): seq<Tag>
  {
    if s == [] then [x]
    else if Rank(x) <= Rank(s[0]) then [x] + s
    else [s[0]] + InsertTag(x, s[1..])
  }

  /** Inserting adds `x` once and nothing else. */
  lemma {:induction false} InsertTagMultiset(x: Tag, s: seq<Tag>)
    ensures multiset(InsertTag(x, s)) == multiset(s) + multiset{x}
  {
    if s != [] && Rank(x) > Rank(s[0]) {
      assert s == [s[0]] + s[1..];
      InsertTagMultiset(x, s[1..]);
    }
  }

  /** Inserting into a ranked sequence keeps it ranked; the result starts
      with `x` or with the old first element. */
  lemma {:induction false} InsertTagOrdered(x: Tag, s: seq<Tag>)
    requires RankOrdered(s)
    ensures var r := InsertTag(x, s);
      && |r| == |s| + 1 && RankOrdered(r)
      && (r[0] == x || (s != [] && r[0] == s[0]))
  {
    if s != [] && Rank(x) > Rank(s[0]) {
      var rest := InsertTag(x, s[1..]);
      InsertTagOrdered(x, s[1..]);
      var r := [s[0]] + rest;
      assert r == InsertTag(x, s);
      forall i, j | 0 <= i < j < |r|
        ensures Rank(r[i]) <= Rank(r[j])
      {
        if i > 0 {
          assert r[i] == rest[i - 1] && r[j] == rest[j - 1];
        } else {
          assert Rank(s[0]) <= Rank(rest[0]);
          assert r[j] == rest[j - 1];
        }
      }
    }
  }

  /** `sorted(tags)` (scraper.py:310), as an insertion sort by rank. */
  function SortTags(tags: seq<Tag>): seq<Tag>
  {
    if tags == [] then [] else InsertTag(tags[0], SortTags(tags[1..]))
  }

  /** Sorting keeps every tag as often as it occurs and ranks the result. */
  lemma {:induction false} SortTagsSpec(tags: seq<Tag>)
    ensures multiset(SortTags(tags)) == multiset(tags)
    ensures RankOrdered(SortTags(tags))
  {
    if tags != [] {
      assert tags == [tags[0]] + tags[1..];
      SortTagsSpec(tags[1..]);
      InsertTagMultiset(tags[0], SortTags(tags[1..]));
      InsertTagOrdered(tags[0], SortTags(tags[1..]));
    }
  }

  /** The tags on a card are the record's tags, each as often as there, in
      ascending string order of their names. */
  lemma SortTagsByName(tags: seq<Tag>)
    ensures multiset(SortTags(tags)) == multiset(tags)
    ensures var s := SortTags(tags);
      forall i, j :: 0 <= i < j < |s| ==> !StrLess(s[j].Name(), s[i].Name())
  {
    SortTagsSpec(tags);
    var s := SortTags(tags);
    forall i, j | 0 <= i < j < |s|
      ensures !StrLess(s[j].Name(), s[i].Name())
    {
      RankIsNameOrder(s[j], s[i]);
    }
  }

  function Names(tags: seq<Tag>): (r: seq<string>)
    ensures |r| == |tags|
    ensures forall i :: 0 <= i < |tags| ==> r[i] == tags[i].Name()
  {
    seq(|tags|, i requires 0 <= i < |tags| => tags[i].Name())
  }

  /** `" ".join(info["tags"])`, the card's `data-tags` attribute. */
  function DataTags(tags: seq<Tag>): string
  {
    Join(Names(tags), " ")
  }

  /** Splitting `data-tags` on a space gives back the tag names in insertion
      order, because no tag name contains a space. */
  lemma DataTagsSplit(tags: seq<Tag>)
    requires tags != []
    ensures SplitOn(DataTags(tags), " ") == Names(tags)
  {
    var names := Names(tags);
    forall i | 0 <= i < |names|
      ensures ' ' !in names[i]
    {
      assert names[i] == tags[i].Name();
    }
    SplitOnJoin(names, ' ');
  }

  /** `data-tags` is empty exactly when the record has no tags. */
  lemma DataTagsEmpty(tags: seq<Tag>)
    ensures DataTags(tags) == "" <==> tags == []
  {
    if tags != [] {
      var names := Names(tags);
      assert names[0] == tags[0].Name();
      if |names| > 1 {
        assert |Join(names, " ")| >= |names[0]|;
      }
    }
  }

  /** An f-string field: `None` renders as "None". */
  function PyStr(s: Option<string>): string
  {
    if s.Some? then s.value else "None"
  }

  /** Python truthiness of an optional string. */
  predicate Truthy(s: Option<string>)
  {
    s.Some? && s.value != []
  }

  /** The fixed text of the Hugging Face fragment: the header, the card
      text between the card's fields, the small spans inside a card, and
      the closing tag. The rendering functions take it as a parameter, so
      that what is proved about the layout does not depend on the text;
      `HfText` is the text scraper.py:289-339 writes. */
  datatype HfTemplate = HfTemplate(
    header: string,
    beforeTags: string, beforeDate: string, beforeLink: string, beforeTitle: string,
    beforePublished: string, beforeTagList: string, beforePdf: string, beforeUpvote: string,
    beforeGithub: string, beforeStar: string, beforeAbstract: string, cardEnd: string,
    tagOpen: string, tagClose: string, githubOpen: string, githubClose: string,
    starOpen: string, starClose: string, publishedOpen: string, publishedClose: string,
    footer: string)

  function HfText(): HfTemplate
  {
    HfTemplate(
      // header
      "\n"
      + "        <h2>\U{1F4DA} Hugging Face Papers</h2>\n"
      + "        <div id=\"hf-filters\" style=\"text-align:center;"
      + " margin-bottom: 20px;\">\n"
      + "            <button data-tag=\"ALL\""
      + " onclick=\"filterPapers('ALL')\">All</button>\n"
      + "            <button data-tag=\"DAILY\""
      + " onclick=\"filterPapers('DAILY')\">Daily</button>\n"
      + "            <button data-tag=\"WEEKLY\""
      + " onclick=\"filterPapers('WEEKLY')\">Weekly</button>\n"
      + "            <button data-tag=\"MONTHLY\""
      + " onclick=\"filterPapers('MONTHLY')\">Monthly</button>\n"
      + "            <button data-tag=\"TRENDING\""
      + " onclick=\"filterPapers('TRENDING')\">Trending</button>\n"
      + "        </div>\n"
      + "\n"
      + "\n"
      + "        <div id=\"hf-grid\" style=\"\n"
      + "            display: grid;\n"
      + "            grid-template-columns: repeat(auto-fit,"
      + " minmax(300px, 1fr));\n"
      + "            gap: 16px;\n"
      + "            margin-top: 20px;\n"
      + "        \">\n"
      + "        ",
      // beforeTags
      "\n"
      + "        <div class=\"hf-card\" data-tags=\"",
      // beforeDate
      "\" data-date=\"",
      // beforeLink
      "\" style=\"padding: 12px; border: 1px solid #ccc;"
      + " border-radius: 8px; background: #fff;\">\n"
      + "            <h3><a href=\"",
      // beforeTitle
      "\" target=\"_blank\">",
      // beforePublished
      "</a></h3>\n"
      + "            ",
      // beforeTagList
      "\n"
      + "            <div class=\"tags\">",
      // beforePdf
      "</div>\n"
      + "            <div style=\"display: flex; flex-direction:"
      + " column; gap: 6px; margin: 6px 0;\">\n"
      + "            <!-- First row -->\n"
      + "            <div style=\"display: flex; justify-content:"
      + " space-between; align-items: center;\">\n"
      + "                <span>\U{1F4C4}<a href=\"",
      // beforeUpvote
      "\" target=\"_blank\">PDF</a></span>\n"
      + "                <span style=\"color: #ff6b35;\">\U{1F525}",
      // beforeGithub
      " Upvote</span>\n"
      + "            </div>\n"
      + "            \n"
      + "            <!-- Second row -->\n"
      + "            <div style=\"display: flex; justify-content:"
      + " space-between; align-items: center;\">\n"
      + "                <div>",
      // beforeStar
      "</div>\n"
      + "                ",
      // beforeAbstract
      "\n"
      + "            </div>\n"
      + "            </div>\n"
      + "            <div class=\"abstract\">\n"
      + "                ",
      // cardEnd
      "\n"
      + "            </div>\n"
      + "        </div>\n"
      + "        ",
      // tagOpen
      "<span class=\"tag\">",
      // tagClose
      "</span>",
      // githubOpen
      "<span>\U{1F419}<a href=\"",
      // githubClose
      "\" target=\"_blank\" style=\"color: #28a745;\">GitHub</a></span>",
      // starOpen
      "<span style=\"color: #ffd700;\">\U{2B50}",
      // starClose
      " Star</span>",
      // publishedOpen
      "<div style=\"font-size: 12px; color: #999;\">Published on:",
      // publishedClose
      "</div>",
      // footer
      "</div>"
    )
  }

  /** One `<span class="tag">` per tag. */
  function TagSpans(tpl: HfTemplate, tags: seq<Tag>): seq<string>
  {
    seq(|tags|, i requires 0 <= i < |tags| => tpl.tagOpen + tags[i].Name() + tpl.tagClose)
  }

  /** `tags_html` (scraper.py:309-312). */
  function TagsHtml(tpl: HfTemplate, tags: seq<Tag>): string
  {
    Concat(TagSpans(tpl, SortTags(tags)))
  }

  /** `github_html` (scraper.py:313): a link only when `github_link` is truthy. */
  function GithubHtml(tpl: HfTemplate, link: Option<string>): (r: string)
    ensures !Truthy(link) ==> r == ""
    ensures Truthy(link) ==> Occurs(r, link.value, |tpl.githubOpen|)
  {
    if Truthy(link) then tpl.githubOpen + link.value + tpl.githubClose else ""
  }

  /** The star count span (scraper.py:331): only when `star_cnt` is truthy. */
  function StarHtml(tpl: HfTemplate, star: Option<string>): (r: string)
    ensures !Truthy(star) ==> r == ""
    ensures Truthy(star) ==> Occurs(r, star.value, |tpl.starOpen|)
  {
    if Truthy(star) then tpl.starOpen + star.value + tpl.starClose else ""
  }

  /** `published_html` (scraper.py:314). */
  function PublishedHtml(tpl: HfTemplate, date: Option<string>): string
  {
    tpl.publishedOpen + PyStr(date) + tpl.publishedClose
  }

  /** The eleven values a card shows (scraper.py:315-337), in the order
      they appear in it. */
  function CardFields(tpl: HfTemplate, title: string, rec: PaperRecord): (f: seq<string>)
    ensures |f| == 11
  {
    [ DataTags(rec.tags), PyStr(rec.publishedDate), rec.paperLink, title,
      PublishedHtml(tpl, rec.publishedDate), TagsHtml(tpl, rec.tags),
      PyStr(rec.pdfLink), PyStr(rec.upvoteCnt), GithubHtml(tpl, rec.githubLink),
      StarHtml(tpl, rec.starCnt), PyStr(rec.abstractText) ]
  }

  /** The pieces of one card: template text and field values alternating. */
  function CardParts(tpl: HfTemplate, f: seq<string>): (parts: seq<string>)
    requires |f| == 11
    ensures |parts| == 23
    ensures forall k :: 0 <= k < 11 ==> parts[2 * k + 1] == f[k]
  {
    [ tpl.beforeTags, f[0], tpl.beforeDate, f[1], tpl.beforeLink, f[2],
      tpl.beforeTitle, f[3], tpl.beforePublished, f[4], tpl.beforeTagList, f[5],
      tpl.beforePdf, f[6], tpl.beforeUpvote, f[7], tpl.beforeGithub, f[8],
      tpl.beforeStar, f[9], tpl.beforeAbstract, f[10], tpl.cardEnd ]
  }

  /** One card of the Hugging Face fragment. */
  function Card(tpl: HfTemplate, title: string, rec: PaperRecord): string
  {
    Concat(CardParts(tpl, CardFields(tpl, title, rec)))
  }

  /** A card carries its `data-tags`, its paper link and its title at the
      places of their fields, one after the other. */
  lemma CardShows(tpl: HfTemplate, title: string, rec: PaperRecord)
    ensures var card, parts := Card(tpl, title, rec), CardParts(tpl, CardFields(tpl, title, rec));
      && Occurs(card, DataTags(rec.tags), Offset(parts, 1))
      && Occurs(card, rec.paperLink, Offset(parts, 5))
      && Occurs(card, title, Offset(parts, 7))
      && Offset(parts, 1) + |DataTags(rec.tags)| <= Offset(parts, 5)
      && Offset(parts, 5) + |rec.paperLink| <= Offset(parts, 7)
  {
    var f := CardFields(tpl, title, rec);
    assert f[0] == DataTags(rec.tags) && f[2] == rec.paperLink && f[3] == title;
    var parts := CardParts(tpl, f);
    assert parts[2 * 0 + 1] == f[0] && parts[2 * 2 + 1] == f[2] && parts[2 * 3 + 1] == f[3];
    ConcatOrder(parts, 1, 5);
    ConcatOrder(parts, 5, 7);
  }

  /** One card per record, in the order the titles were first inserted. */
  function Cards(tpl: HfTemplate, t: Table): (r: seq<string>)
    requires WellFormed(t)
    ensures |r| == |t.titles|
  {
    seq(|t.titles|, i requires 0 <= i < |t.titles| && WellFormed(t) => Card(tpl, t.titles[i], t.records[t.titles[i]]))
  }

  /** The Hugging Face fragment (scraper.py:289-339). */
  function HfHtml(tpl: HfTemplate, t: Table): string
    requires WellFormed(t)
  {
    tpl.header + Concat(Cards(tpl, t)) + tpl.footer
  }

  /** The cards follow the header one after another, in the order their
      titles were first inserted. */
  lemma HfCardsInOrder(tpl: HfTemplate, t: Table, i: nat)
    requires WellFormed(t) && i < |t.titles|
    ensures var cards := Cards(tpl, t);
      && Occurs(HfHtml(tpl, t), cards[i], |tpl.header| + Offset(cards, i))
      && Offset(cards, i + 1) == Offset(cards, i) + |cards[i]|
  {
    FramedPlaces(tpl.header, Cards(tpl, t), tpl.footer, i);
  }

  /** The rendering loop of scraper.py:308-339: the header, then each card
      appended in turn, then the closing tag. */
  method RenderHf(tpl: HfTemplate, t: Table) returns (html: string)
    requires WellFormed(t)
    ensures html == HfHtml(tpl, t)
  {
    var cards := Cards(tpl, t);
    html := AppendAll(tpl.header, cards);
    html := html + tpl.footer;
  }

  /** The four workers of `fetch_hf` (scraper.py:284-287) run one after
      another on a shared table, one of the interleavings the lock admits. */
  method RunHfWorkers(urls: seq<string>, listings: seq<Option<seq<Entry>>>,
                      page: string -> Option<PaperPage>, year: nat, parse: string -> Option<string>)
    returns (table: PaperTable)
    requires |urls| == |listings|
    ensures fresh(table) && table.Valid()
    ensures table.Value() == Run(Empty, WorkersSteps(Empty, urls, listings, page, year, parse))
  {
    table := new PaperTable();
    var i := 0;
    while i < |urls|
      invariant 0 <= i <= |urls|
      invariant fresh(table) && table.Valid()
      invariant table.Value() == Run(Empty, WorkersSteps(Empty, urls[..i], listings[..i], page, year, parse))
    {
      var _ := FetchHfPapers(table, urls[i], listings[i], page, year, parse);
      WorkersStepsNext(Empty, urls, listings, page, year, parse, i);
      i := i + 1;
    }
    assert urls[..i] == urls && listings[..i] == listings;
  }

  const HfKey := "hf"

  /** `fetch_hf` (scraper.py:275-341): the four listings scraped into one
      table, the table rendered with the template `tpl` (`HfText()` in the
      program), and the rendering stored under "hf" in the shared
      `results` dictionary, whose other keys stay as they were. */
  method FetchHf(results: Digest.Results, day: string, week: string, month: string,
                 listings: seq<Option<seq<Entry>>>, page: string -> Option<PaperPage>, year: nat,
                 parse: string -> Option<string>, tpl: HfTemplate)
    requires |listings| == 4
    modifies results
    ensures var t := Run(Empty, WorkersSteps(Empty, ListingUrls(day, week, month), listings, page, year, parse));
      WellFormed(t) && |t.titles| <= 60 && results.entries == old(results.entries)[HfKey := HfHtml(tpl, t)]
  {
    var urls := ListingUrls(day, week, month);
    var table := RunHfWorkers(urls, listings, page, year, parse);
    WorkersAddAtMost(Empty, urls, listings, page, year, parse);
    var html := RenderHf(tpl, table.Value());
    results.Put(HfKey, html);
  }
}
