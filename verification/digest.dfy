/** daily_digest.py: the four fetchers, each writing one key of the shared
    `results` dictionary, and `run`, which assembles the digest once all of
    them are done. The Hacker News fetcher of scraper.py:153-175 and the
    APOD explanation trim of scraper.py:38 are the same code and share this
    model. Pages and JSON answers are parameters; `None` stands for a
    request, a lookup or a decode that raised. */
module Digest {
  import opened Wrappers
  import opened Strings
  import opened Numerals

  // ----- The shared results dictionary -----

  const ApodKey := "apod"
  const EoKey := "eo"
  const HnKey := "hn"
  const PwcKey := "pwc"

  /** `results.get(key, "")`. */
  function Lookup(m: map<string, string>, key: string): string
  {
    if key in m then m[key] else ""
  }

  /** The dictionary the fetcher threads share. */
  class Results {
    var entries: map<string, string>

    /** `results = {}` (daily_digest.py:170). */
    constructor ()
      ensures entries == map[]
    {
      entries := map[];
    }

    /** `results[key] = value`: that key and no other changes. */
    method Put(key: string, value: string)
      modifies this
      ensures entries == old(entries)[key := value]
    {
      entries := entries[key := value];
    }
  }

  /** A section heading: an emoji, a space and a title, as `<h2>`. */
  function Heading(icon: char, title: string): string
  {
    "<h2>" + [icon] + " " + title + "</h2>"
  }

  const NoEntrySign := '\U{1F6AB}'

  /** The fragment a fetcher writes when its request or a lookup raised. */
  function Failed(what: string): string
  {
    Heading(NoEntrySign, "Failed to load " + what)
  }

  /** Headings with different emoji differ, whatever follows them. */
  lemma HeadingsDiffer(icon: char, title: string, rest: string, other: char, otherTitle: string)
    requires icon != other
    ensures Heading(icon, title) + rest != Heading(other, otherTitle)
  {
    assert (Heading(icon, title) + rest)[4] == icon;
    assert Heading(other, otherTitle)[4] == other;
  }

  /** The same page element as `<a>` text and `href`. */
  datatype Link = Link(text: string, href: string)

  // ----- APOD -----

  const ExplanationEnd := "Tomorrow's picture:"
  const ExplanationMarker := "<p> <center>\n<b>"

  /** The explanation of daily_digest.py:25 (and scraper.py:38): the text
      before the first "Tomorrow's picture:", with the marker removed, then
      stripped. */
  function ApodExplanation(raw: string): string
  {
    Strip(Replace(SplitOn(raw, ExplanationEnd)[0], ExplanationMarker, ""))
  }

  /** The explanation is cut from a prefix of the raw text that holds no
      "Tomorrow's picture:"; it has no surrounding white space; and a text
      with neither the cut nor the marker is only stripped. */
  lemma ApodExplanationShape(raw: string)
    ensures var head := SplitOn(raw, ExplanationEnd)[0];
      head <= raw && !Contains(head, ExplanationEnd)
    ensures var e := ApodExplanation(raw); e != [] ==> !IsSpace(e[0]) && !IsSpace(e[|e| - 1])
    ensures !Contains(raw, ExplanationEnd) && !Contains(raw, ExplanationMarker) ==>
      ApodExplanation(raw) == Strip(raw)
  {
    CutShape(raw, ExplanationEnd, ExplanationMarker);
  }

  /** `ApodExplanationShape` for any cut and marker, so that the proof does
      not carry their literal text. */
  lemma CutShape(raw: string, end: string, marker: string)
    requires end != [] && marker != []
    ensures var head := SplitOn(raw, end)[0];
      head <= raw && !Contains(head, end)
    ensures var e := Strip(Replace(SplitOn(raw, end)[0], marker, ""));
      e != [] ==> !IsSpace(e[0]) && !IsSpace(e[|e| - 1])
    ensures !Contains(raw, end) && !Contains(raw, marker) ==>
      Strip(Replace(SplitOn(raw, end)[0], marker, "")) == Strip(raw)
  {
    SplitOnHeadIsPrefix(raw, end);
    SplitOnPiecesFree(raw, end);
    StripShape(Replace(SplitOn(raw, end)[0], marker, ""));
    if !Contains(raw, end) && !Contains(raw, marker) {
      SplitOnAbsent(raw, end);
      ReplaceAbsent(raw, marker, "");
    }
  }

  /** What the APOD fetcher reads from the page: the `<b>` of the second
      `<center>` (`None` when there are fewer than two, which raises;
      `Some(None)` when it has no `<b>`), the `src` of the first `<img>`,
      and the inner HTML of the third `<p>` (`None` when there are fewer
      than three, which raises). */
  datatype ApodPage = ApodPage(secondCenterBold: Option<Option<string>>, imageSrc: Option<string>,
                               thirdParagraph: Option<string>)

  const ApodFailed := Failed("APOD")
  const ApodOpen := Heading('\U{2728}', "Astronomy Picture of the Day") + "<center><b>"

  /** The pieces between the heading and the closing `</p>` of the APOD
      fragment (daily_digest.py:30). */
  function ApodParts(title: string, image: string, explanation: string): seq<string>
  {
    [title, "</b><br><img src='", image, "' width='500'></center><br>", explanation]
  }

  function ApodHtml(title: string, image: string, explanation: string): string
  {
    ApodOpen + Concat(ApodParts(title, image, explanation)) + "</p>"
  }

  /** The APOD fragment shows the title, then the image, then the
      explanation. */
  lemma ApodHtmlShows(title: string, image: string, explanation: string)
    ensures var parts, doc := ApodParts(title, image, explanation), ApodHtml(title, image, explanation);
      && Precedes(doc, title, |ApodOpen| + Offset(parts, 0), image, |ApodOpen| + Offset(parts, 2))
      && Precedes(doc, image, |ApodOpen| + Offset(parts, 2), explanation, |ApodOpen| + Offset(parts, 4))
  {
    var parts := ApodParts(title, image, explanation);
    FramedPrecedes(ApodOpen, parts, "</p>", 0, title, 2, image);
    FramedPrecedes(ApodOpen, parts, "</p>", 2, image, 4, explanation);
  }

  predicate ApodRaises(page: Option<ApodPage>)
  {
    page.None? || page.value.secondCenterBold.None? || page.value.thirdParagraph.None?
  }

  function ApodTitle(bold: Option<string>): string
  {
    if bold.Some? then Strip(bold.value) else "No Title Found"
  }

  function ApodImage(src: Option<string>): string
  {
    if src.Some? then "https://apod.nasa.gov/apod/" + src.value else ""
  }

  /** What `fetch_apod` writes under "apod" (daily_digest.py:15-35). */
  function ApodFragment(page: Option<ApodPage>): string
  {
    if ApodRaises(page) then ApodFailed
    else
      var p := page.value;
      ApodHtml(ApodTitle(p.secondCenterBold.value), ApodImage(p.imageSrc), ApodExplanation(p.thirdParagraph.value))
  }

  /** The fallback is written exactly when a lookup raises. */
  lemma ApodFallback(page: Option<ApodPage>)
    ensures ApodFragment(page) == ApodFailed <==> ApodRaises(page)
  {
    if !ApodRaises(page) {
      var p := page.value;
      var parts := ApodParts(ApodTitle(p.secondCenterBold.value), ApodImage(p.imageSrc),
                             ApodExplanation(p.thirdParagraph.value));
      HeadingsDiffer('\U{2728}', "Astronomy Picture of the Day", "<center><b>" + Concat(parts) + "</p>",
                     NoEntrySign, "Failed to load APOD");
    }
  }

  method FetchApod(results: Results, page: Option<ApodPage>)
    modifies results
    ensures results.entries == old(results.entries)[ApodKey := ApodFragment(page)]
  {
    results.Put(ApodKey, ApodFragment(page));
  }

  // ----- Earth Observatory -----

  /** The first landing card: its `h4 a` link, the `src` of its thumbnail
      and the text of its caption paragraph. */
  datatype EoCard = EoCard(title: Option<Link>, imageSrc: Option<string>, caption: Option<string>)

  const EoFailed := Failed("EO Image of the Day")
  const EoOpen := Heading('\U{1F30D}', "NASA Earth Observatory - Image of the Day") + "<center><b>"
  const EoClose := "' target='_blank'>[Read more]</a></p>"

  /** The pieces between the heading and the end of the EO fragment
      (daily_digest.py:61-66). */
  function EoParts(title: string, image: string, caption: string, link: string): seq<string>
  {
    [title, "</b><br><img src='", image, "' width='500'></center><br>", caption, "<a href='", link]
  }

  function EoHtml(title: string, image: string, caption: string, link: string): string
  {
    EoOpen + Concat(EoParts(title, image, caption, link)) + EoClose
  }

  /** The EO fragment shows the title, then the caption, then the "Read
      more" link. */
  lemma EoHtmlShows(title: string, image: string, caption: string, link: string)
    ensures var parts, doc := EoParts(title, image, caption, link), EoHtml(title, image, caption, link);
      && Precedes(doc, title, |EoOpen| + Offset(parts, 0), caption, |EoOpen| + Offset(parts, 4))
      && Precedes(doc, caption, |EoOpen| + Offset(parts, 4), link, |EoOpen| + Offset(parts, 6))
  {
    var parts := EoParts(title, image, caption, link);
    FramedPrecedes(EoOpen, parts, EoClose, 0, title, 4, caption);
    FramedPrecedes(EoOpen, parts, EoClose, 4, caption, 6, link);
  }

  /** The "Read more" target: the site's address followed by the title's
      `href`, or "#" without a title. */
  function EoLink(title: Option<Link>): string
  {
    if title.Some? then "https://earthobservatory.nasa.gov" + title.value.href else "#"
  }

  /** What `fetch_eo` writes under "eo" (daily_digest.py:41-72); `None` is
      a failed request or a page without a landing card. */
  function EoFragment(card: Option<EoCard>): string
  {
    if card.None? then EoFailed
    else
      var c := card.value;
      EoHtml(if c.title.Some? then Strip(c.title.value.text) else "No Title Found", c.imageSrc.GetOr(""),
             if c.caption.Some? then Strip(c.caption.value) else "No Summary Found", EoLink(c.title))
  }

  /** The fallback is written exactly when the card is missing. */
  lemma EoFallback(card: Option<EoCard>)
    ensures EoFragment(card) == EoFailed <==> card.None?
  {
    if card.Some? {
      var c := card.value;
      var parts := EoParts(if c.title.Some? then Strip(c.title.value.text) else "No Title Found", c.imageSrc.GetOr(""),
                           if c.caption.Some? then Strip(c.caption.value) else "No Summary Found", EoLink(c.title));
      HeadingsDiffer('\U{1F30D}', "NASA Earth Observatory - Image of the Day", "<center><b>" + Concat(parts) + EoClose,
                     NoEntrySign, "Failed to load EO Image of the Day");
    }
  }

  method FetchEo(results: Results, card: Option<EoCard>)
    modifies results
    ensures results.entries == old(results.entries)[EoKey := EoFragment(card)]
  {
    results.Put(EoKey, EoFragment(card));
  }

  // ----- Hacker News -----

  /** The "title" and "url" keys of a story's JSON, when present. */
  datatype Story = Story(title: Option<string>, url: Option<string>)

  const HnFailed := Failed("Hacker News")
  const HnOpen := Heading('\U{1F525}', "Hacker News Top 10") + "<ol>"
  const HnItemPage := "https://news.ycombinator.com/item?id="
  const HnItemOpen := "<li><a href='"

  /** One `<li>` of the list (daily_digest.py:88). */
  function HnItem(url: string, title: string): string
  {
    HnItemOpen + url + "'>" + title + "</a></li>"
  }

  /** The item links `url` and shows `title` after it. */
  lemma HnItemShows(url: string, title: string)
    ensures Occurs(HnItem(url, title), url, |HnItemOpen|)
    ensures Occurs(HnItem(url, title), title, |HnItemOpen| + |url| + 2)
  {
    OccursBetween(HnItemOpen, url, "'>" + title + "</a></li>");
    OccursBetween(HnItemOpen + url + "'>", title, "</a></li>");
    assert HnItem(url, title) == HnItemOpen + url + ("'>" + title + "</a></li>");
  }

  /** `story.get("url", f"…item?id={sid}")`. */
  function StoryUrl(sid: int, s: Story): string
  {
    s.url.GetOr(HnItemPage + IntToString(sid))
  }

  /** `story.get("title", "(no title)")`. */
  function StoryTitle(s: Story): string
  {
    s.title.GetOr("(no title)")
  }

  /** The item for story `sid`, or `None` when fetching it raised. */
  function HnEntry(sid: int, s: Option<Story>): Option<string>
  {
    if s.None? then None else Some(HnItem(StoryUrl(sid, s.value), StoryTitle(s.value)))
  }

  /** The items for the stories `ids`, in order, fetched one by one. */
  function HnEntries(ids: seq<int>, story: int -> Option<Story>): seq<Option<string>>
  {
    seq(|ids|, i requires 0 <= i < |ids| => HnEntry(ids[i], story(ids[i])))
  }

  /** `ids[:10]`. */
  function TopTen(ids: seq<int>): (r: seq<int>)
    ensures |r| <= 10 && r <= ids && (|ids| >= 10 ==> |r| == 10)
  {
    if |ids| <= 10 then ids else ids[..10]
  }

  /** What `fetch_hackernews` writes under "hn" (daily_digest.py:77-96):
      the first ten top stories as a list, or the fallback when the top
      stories or one of the ten stories cannot be fetched. */
  function HnFragment(top: Option<seq<int>>, story: int -> Option<Story>): string
  {
    if top.None? then HnFailed
    else match AllSome(HnEntries(TopTen(top.value), story))
      case None => HnFailed
      case Some(items) => HnOpen + Concat(items) + "</ol>"
  }

  /** The fallback is written exactly when the top stories or one of the
      first ten stories cannot be fetched; otherwise the list holds one
      item per story, at most ten, the first top stories in order, each
      with its url (or its discussion page) and its title (or "(no title)"). */
  lemma HnFragmentSpec(top: Option<seq<int>>, story: int -> Option<Story>)
    ensures HnFragment(top, story) == HnFailed <==>
      top.None? || exists i :: 0 <= i < |TopTen(top.value)| && story(top.value[i]).None?
    ensures top.Some? && HnFragment(top, story) != HnFailed ==>
      var items := AllSome(HnEntries(TopTen(top.value), story)).value;
      && |items| == |TopTen(top.value)| <= 10
      && HnFragment(top, story) == HnOpen + Concat(items) + "</ol>"
      && forall i :: 0 <= i < |items| ==>
           var s := story(top.value[i]).value;
           items[i] == HnItem(s.url.GetOr(HnItemPage + IntToString(top.value[i])), s.title.GetOr("(no title)"))
  {
    if top.Some? {
      var ids := TopTen(top.value);
      var entries := HnEntries(ids, story);
      AllSomeSpec(entries);
      if AllSome(entries).Some? {
        HeadingsDiffer('\U{1F525}', "Hacker News Top 10", "<ol>" + Concat(AllSome(entries).value) + "</ol>",
                       NoEntrySign, "Failed to load Hacker News");
      }
      if exists i :: 0 <= i < |ids| && story(top.value[i]).None? {
        var i :| 0 <= i < |ids| && story(top.value[i]).None?;
        assert entries[i].None?;
      }
    }
  }

  /** The loop of `fetch_hackernews` (daily_digest.py:81-89): each story
      fetched in turn and its item appended; `None` once a fetch raises. */
  method HnList(ids: seq<int>, story: int -> Option<Story>) returns (html: Option<string>)
    ensures html.None? <==> AllSome(HnEntries(ids, story)).None?
    ensures html.Some? ==> html.value == HnOpen + Concat(AllSome(HnEntries(ids, story)).value)
  {
    ghost var entries := HnEntries(ids, story);
    var list := HnOpen;
    var i := 0;
    while i < |ids|
      invariant 0 <= i <= |ids|
      invariant AllSome(entries[..i]).Some?
      invariant list == HnOpen + Concat(AllSome(entries[..i]).value)
    {
      var s := story(ids[i]);
      AllSomeStep(entries, i);
      if s.None? {
        AllSomeSpec(entries);
        assert entries[i].None?;
        return None;
      }
      var item := HnItem(StoryUrl(ids[i], s.value), StoryTitle(s.value));
      ghost var before := AllSome(entries[..i]).value;
      assert entries[i] == Some(item);
      assert AllSome(entries[..i + 1]) == Some(before + [item]);
      AppendPart(HnOpen, before, item);
      list := list + item;
      i := i + 1;
    }
    assert entries[..i] == entries;
    return Some(list);
  }

  /** `fetch_hackernews` (daily_digest.py:75-96, and scraper.py:153-175). */
  method FetchHackerNews(results: Results, top: Option<seq<int>>, story: int -> Option<Story>)
    modifies results
    ensures results.entries == old(results.entries)[HnKey := HnFragment(top, story)]
  {
    if top.None? {
      results.Put(HnKey, HnFailed);
      return;
    }
    var list := HnList(TopTen(top.value), story);
    if list.None? {
      results.Put(HnKey, HnFailed);
    } else {
      results.Put(HnKey, list.value + "</ol>");
    }
  }

  // ----- Papers with Code -----

  /** One `col-lg-9 item-content` block: whether it has an `<h1>`, the
      `<a>` inside it, the `href` of the GitHub link, and the abstract. */
  datatype PwcPaper = PwcPaper(hasHeading: bool, title: Option<Link>, github: Option<string>,
                               abstractText: Option<string>)

  const PwcFailed := Failed("Papers With Code")
  const PwcNone := Heading(NoEntrySign, "No papers found")
  const PwcOpen := Heading('\U{1F4DA}', "Daily Papers With Code Trending") + "<ul>"
  const PwcGithubOpen := " &nbsp; <a href='"

  /** The GitHub link after the title, only when a non-empty `href` was
      found (`if github_link:`). */
  function PwcGithub(github: Option<string>): string
  {
    if github.Some? && github.value != "" then
      PwcGithubOpen + github.value + "' target='_blank'>[GitHub]</a>"
    else ""
  }

  /** The link is shown exactly when a non-empty `href` was found, and it
      points there. */
  lemma PwcGithubShows(github: Option<string>)
    ensures PwcGithub(github) == "" <==> github.None? || github.value == ""
    ensures github.Some? && github.value != "" ==> Occurs(PwcGithub(github), github.value, |PwcGithubOpen|)
  {
    if github.Some? && github.value != "" {
      OccursBetween(PwcGithubOpen, github.value, "' target='_blank'>[GitHub]</a>");
    }
  }

  const PwcItemOpen := "<li style='margin-bottom: 1em;'>"

  /** The pieces of one `<li>` between its opening tag and `</li>`
      (daily_digest.py:127-133). */
  function PwcParts(link: string, title: string, github: string, abstractText: string): seq<string>
  {
    ["<b><a href='", link, "' target='_blank'>", title, "</a>", github, "</b><br><p style='margin: 0.2em 0;'>",
     abstractText, "</p>"]
  }

  function PwcItem(link: string, title: string, github: string, abstractText: string): string
  {
    PwcItemOpen + Concat(PwcParts(link, title, github, abstractText)) + "</li>"
  }

  /** An item links the paper page, then shows the title, then the GitHub
      link (empty without one), then the abstract. */
  lemma PwcItemShows(link: string, title: string, github: string, abstractText: string)
    ensures var parts, item := PwcParts(link, title, github, abstractText), PwcItem(link, title, github, abstractText);
      && Precedes(item, link, |PwcItemOpen| + Offset(parts, 1), title, |PwcItemOpen| + Offset(parts, 3))
      && Precedes(item, title, |PwcItemOpen| + Offset(parts, 3), github, |PwcItemOpen| + Offset(parts, 5))
      && Precedes(item, github, |PwcItemOpen| + Offset(parts, 5), abstractText, |PwcItemOpen| + Offset(parts, 7))
  {
    var parts := PwcParts(link, title, github, abstractText);
    FramedPrecedes(PwcItemOpen, parts, "</li>", 1, link, 3, title);
    FramedPrecedes(PwcItemOpen, parts, "</li>", 3, title, 5, github);
    FramedPrecedes(PwcItemOpen, parts, "</li>", 5, github, 7, abstractText);
  }

  /** The item for one block, or `None` when it has no `<h1>`
      (`None.find` raises). */
  function PwcEntry(p: PwcPaper): Option<string>
  {
    if !p.hasHeading then None
    else
      Some(PwcItem(if p.title.Some? then "https://paperswithcode.com" + p.title.value.href else "#",
                   if p.title.Some? then Strip(p.title.value.text) else "Untitled",
                   PwcGithub(p.github),
                   if p.abstractText.Some? then Strip(p.abstractText.value) else "(No abstract available)"))
  }

  function PwcEntries(papers: seq<PwcPaper>): seq<Option<string>>
  {
    seq(|papers|, i requires 0 <= i < |papers| => PwcEntry(papers[i]))
  }

  /** What `fetch_paperswithcode` writes under "pwc" (daily_digest.py:101-142):
      "No papers found" for an empty page, the list of all papers, or the
      fallback when the request or a lookup raises. */
  function PwcFragment(papers: Option<seq<PwcPaper>>): string
  {
    if papers.None? then PwcFailed
    else if papers.value == [] then PwcNone
    else match AllSome(PwcEntries(papers.value))
      case None => PwcFailed
      case Some(items) => PwcOpen + Concat(items) + "</ul>"
  }

  /** The fallback is written exactly when the request raised or a block
      has no heading; an empty page gives "No papers found". */
  lemma PwcFallback(papers: Option<seq<PwcPaper>>)
    ensures PwcFragment(papers) == PwcFailed <==>
      papers.None? || exists i :: 0 <= i < |papers.value| && !papers.value[i].hasHeading
    ensures papers == Some([]) ==> PwcFragment(papers) == PwcNone
  {
    assert |PwcNone| != |PwcFailed|;
    if papers.Some? {
      var entries := PwcEntries(papers.value);
      AllSomeSpec(entries);
      if exists i :: 0 <= i < |papers.value| && !papers.value[i].hasHeading {
        var i :| 0 <= i < |papers.value| && !papers.value[i].hasHeading;
        assert entries[i].None?;
      }
      if papers.value != [] && AllSome(entries).Some? {
        HeadingsDiffer('\U{1F4DA}', "Daily Papers With Code Trending", "<ul>" + Concat(AllSome(entries).value) + "</ul>",
                       NoEntrySign, "Failed to load Papers With Code");
      }
    }
  }

  /** A page whose blocks all have a heading lists one item per paper, in
      page order. */
  lemma PwcFragmentLists(papers: seq<PwcPaper>)
    requires papers != [] && forall i :: 0 <= i < |papers| ==> papers[i].hasHeading
    ensures AllSome(PwcEntries(papers)).Some?
    ensures var items := AllSome(PwcEntries(papers)).value;
      && |items| == |papers|
      && PwcFragment(Some(papers)) == PwcOpen + Concat(items) + "</ul>"
      && forall i :: 0 <= i < |papers| ==> Some(items[i]) == PwcEntry(papers[i])
  {
    var entries := PwcEntries(papers);
    forall i | 0 <= i < |entries|
      ensures entries[i].Some?
    {
      assert papers[i].hasHeading;
    }
    AllSomeSpec(entries);
  }

  /** The loop of `fetch_paperswithcode` (daily_digest.py:112-135): each
      block's item appended in turn; `None` once a block raises. */
  method PwcList(papers: seq<PwcPaper>) returns (html: Option<string>)
    ensures html.None? <==> AllSome(PwcEntries(papers)).None?
    ensures html.Some? ==> html.value == PwcOpen + Concat(AllSome(PwcEntries(papers)).value)
  {
    ghost var entries := PwcEntries(papers);
    var list := PwcOpen;
    var i := 0;
    while i < |papers|
      invariant 0 <= i <= |papers|
      invariant AllSome(entries[..i]).Some?
      invariant list == PwcOpen + Concat(AllSome(entries[..i]).value)
    {
      AllSomeStep(entries, i);
      if !papers[i].hasHeading {
        AllSomeSpec(entries);
        assert entries[i].None?;
        return None;
      }
      var item := PwcEntry(papers[i]).value;
      ghost var before := AllSome(entries[..i]).value;
      assert entries[i] == Some(item);
      assert AllSome(entries[..i + 1]) == Some(before + [item]);
      AppendPart(PwcOpen, before, item);
      list := list + item;
      i := i + 1;
    }
    assert entries[..i] == entries;
    return Some(list);
  }

  /** `fetch_paperswithcode` (daily_digest.py:99-142). */
  method FetchPapersWithCode(results: Results, papers: Option<seq<PwcPaper>>)
    modifies results
    ensures results.entries == old(results.entries)[PwcKey := PwcFragment(papers)]
  {
    if papers.None? {
      results.Put(PwcKey, PwcFailed);
    } else if papers.value == [] {
      results.Put(PwcKey, PwcNone);
    } else {
      var list := PwcList(papers.value);
      if list.None? {
        results.Put(PwcKey, PwcFailed);
      } else {
        results.Put(PwcKey, list.value + "</ul>");
      }
    }
  }

  // ----- run -----

  /** The four fetcher threads of `run` (daily_digest.py:173-178). */
  datatype Source = Apod | HackerNews | PapersWithCode | EarthObservatory

  /** Everything the fetchers read from the network. */
  datatype Inputs = Inputs(apod: Option<ApodPage>, eo: Option<EoCard>, top: Option<seq<int>>,
                           story: int -> Option<Story>, papers: Option<seq<PwcPaper>>)

  function KeyOf(s: Source): string
  {
    match s
    case Apod => ApodKey
    case HackerNews => HnKey
    case PapersWithCode => PwcKey
    case EarthObservatory => EoKey
  }

  /** The fragment each fetcher writes. */
  datatype Fragments = Fragments(apod: string, eo: string, hn: string, pwc: string)
  {
    function Of(s: Source): string
    {
      match s
      case Apod => apod
      case HackerNews => hn
      case PapersWithCode => pwc
      case EarthObservatory => eo
    }
  }

  function FragmentsOf(inputs: Inputs): Fragments
  {
    Fragments(ApodFragment(inputs.apod), EoFragment(inputs.eo), HnFragment(inputs.top, inputs.story),
              PwcFragment(inputs.papers))
  }

  /** The results dictionary after the fetchers `done` have finished, in
      that order. */
  function Written(done: seq<Source>, f: Fragments): map<string, string>
    decreases |done|
  {
    if done == [] then map[]
    else
      var n := |done| - 1;
      Written(done[..n], f)[KeyOf(done[n]) := f.Of(done[n])]
  }

  /** Each fetcher's key holds its own fragment once it has run, and is
      missing before; the order in which they finished does not matter. */
  lemma {:induction false} WrittenLookup(done: seq<Source>, f: Fragments, s: Source)
    ensures Lookup(Written(done, f), KeyOf(s)) == if s in done then f.Of(s) else ""
    decreases |done|
  {
    if done != [] {
      var n := |done| - 1;
      WrittenLookup(done[..n], f, s);
      assert done == done[..n] + [done[n]];
      assert s in done <==> s in done[..n] || s == done[n];
    }
  }

  /** The digest page around the four fragments (daily_digest.py:185-192). */
  const DigestHead := "<html><body style=\"font-family:Arial,sans-serif;max-width:600px;margin:auto;padding:20px\">     <h1 style=\"text-align:center\">\U{1F4F0} Daily Digest</h1>     <hr>"
  const DigestFoot := "</body></html>"

  /** The page for the four fragments, in the order of daily_digest.py:186-191. */
  function Page(apod: string, eo: string, hn: string, pwc: string): string
  {
    Separated(DigestHead, [apod, eo, hn, pwc], "<hr>", DigestFoot)
  }

  /** The page shows APOD, EO, Hacker News and Papers with Code, in this
      order, each after a `<hr>`. */
  lemma PageOrder(apod: string, eo: string, hn: string, pwc: string)
    ensures var doc := Page(apod, eo, hn, pwc);
      && Occurs(doc, apod, |DigestHead|)
      && Occurs(doc, eo, |DigestHead| + |apod| + 4)
      && Occurs(doc, hn, |DigestHead| + |apod| + |eo| + 8)
      && Occurs(doc, pwc, |DigestHead| + |apod| + |eo| + |hn| + 12)
  {
    SeparatedFour(DigestHead, "<hr>", DigestFoot, apod, eo, hn, pwc);
  }

  /** `content` as `run` builds it from the dictionary: a missing key
      contributes "". */
  function Assemble(m: map<string, string>): string
  {
    Page(Lookup(m, ApodKey), Lookup(m, EoKey), Lookup(m, HnKey), Lookup(m, PwcKey))
  }

  /** The digest when every fetcher has finished. */
  function Digest(inputs: Inputs): string
  {
    var f := FragmentsOf(inputs);
    Page(f.apod, f.eo, f.hn, f.pwc)
  }

  /** Once all four threads are joined, the page shows every fragment in
      its fixed place, whatever order the threads finished in. */
  lemma AllDonePage(done: seq<Source>, f: Fragments)
    requires Apod in done && HackerNews in done && PapersWithCode in done && EarthObservatory in done
    ensures Assemble(Written(done, f)) == Page(f.apod, f.eo, f.hn, f.pwc)
  {
    WrittenLookup(done, f, Apod);
    WrittenLookup(done, f, HackerNews);
    WrittenLookup(done, f, PapersWithCode);
    WrittenLookup(done, f, EarthObservatory);
  }

  /** One fetcher thread. */
  method RunFetcher(results: Results, s: Source, inputs: Inputs)
    modifies results
    ensures results.entries == old(results.entries)[KeyOf(s) := FragmentsOf(inputs).Of(s)]
  {
    match s
    case Apod => FetchApod(results, inputs.apod);
    case HackerNews => FetchHackerNews(results, inputs.top, inputs.story);
    case PapersWithCode => FetchPapersWithCode(results, inputs.papers);
    case EarthObservatory => FetchEo(results, inputs.eo);
  }

  /** `run` (daily_digest.py:169-193): the four threads finish in the
      order `done`, each exactly once (all of them are joined before the
      page is assembled), then the page is built from the dictionary: it is
      the digest, whatever that order was. */
  method Run(inputs: Inputs, done: seq<Source>) returns (content: string)
    requires multiset(done) == multiset{Apod, HackerNews, PapersWithCode, EarthObservatory}
    ensures content == Assemble(Written(done, FragmentsOf(inputs)))
    ensures content == Digest(inputs)
  {
    var results := new Results();
    var i := 0;
    while i < |done|
      invariant 0 <= i <= |done|
      invariant results.entries == Written(done[..i], FragmentsOf(inputs))
    {
      RunFetcher(results, done[i], inputs);
      assert done[..i + 1][..i] == done[..i];
      i := i + 1;
    }
    assert done[..i] == done;
    content := Assemble(results.entries);
    assert Apod in multiset(done) && HackerNews in multiset(done);
    assert PapersWithCode in multiset(done) && EarthObservatory in multiset(done);
    AllDonePage(done, FragmentsOf(inputs));
  }
}
