/** The Hugging Face merge table of scraper.py: `visited_links`, the dict
    from paper title to record that the four listing workers share. Each
    worker touches it only inside two lock sections, so every change to the
    table is one of two atomic steps: a sighting (scraper.py:209-225) or a
    detail update (scraper.py:261-269). The steps are given here as
    functions on a table value, with the invariants they keep over any
    interleaving, and as methods of the class `PaperTable`, which owns the
    dict and is updated in place. */
module HfTable {
  import opened Wrappers

  /** The four listings a paper can be sighted in. */
  datatype Tag = Daily | Weekly | Monthly | Trending {

    /** The tag string stored in `tags` and rendered on the card. */
    function Name(): string
    {
      match this
      case Daily => "DAILY"
      case Weekly => "WEEKLY"
      case Monthly => "MONTHLY"
      case Trending => "TRENDING"
    }
  }

  /** One value of `visited_links`. Every field but `paper_link` and `tags`
      is `None` in a placeholder; `github_link` may stay `None` after the
      details are filled in. */
  datatype PaperRecord = PaperRecord(
    paperLink: string,
    pdfLink: Option<string>,
    abstractText: Option<string>,
    tags: seq<Tag>,
    githubLink: Option<string>,
    publishedDate: Option<string>,
    starCnt: Option<string>,
    upvoteCnt: Option<string>)

  /** The six fields the detail update writes. */
  datatype Details = Details(
    pdfLink: string,
    abstractText: string,
    githubLink: Option<string>,
    publishedDate: string,
    upvoteCnt: string,
    starCnt: string)

  /** `visited_links` as a value. A Python dict remembers the order in which
      its keys were first inserted; `titles` is that order. */
  datatype Table = Table(titles: seq<string>, records: map<string, PaperRecord>)

  const Empty := Table([], map[])

  predicate NoDuplicates<T(==)>(s: seq<T>)
  {
    forall i, j :: 0 <= i < j < |s| ==> s[i] != s[j]
  }

  function TagSet(tags: seq<Tag>): set<Tag>
  {
    set x | x in tags
  }

  /** One record per title, titles listed once each in insertion order, and
      every record carrying a non-empty list of distinct tags. */
  predicate WellFormed(t: Table)
  {
    && NoDuplicates(t.titles)
    && (forall k :: k in t.records ==> k in t.titles)
    && (forall k :: k in t.titles ==> k in t.records)
    && (forall k :: k in t.records ==> t.records[k].tags != [] && NoDuplicates(t.records[k].tags))
  }

  /** The record inserted on a first sighting (scraper.py:216-225). */
  function Placeholder(link: string, tag: Tag): (r: PaperRecord)
    ensures r.tags == [tag] && r.paperLink == link
    ensures r.pdfLink == None && r.abstractText == None && r.githubLink == None
    ensures r.publishedDate == None && r.starCnt == None && r.upvoteCnt == None
  {
    PaperRecord(link, None, None, [tag], None, None, None, None)
  }

  /** `if tag not in tags: tags.append(tag)`. */
  function AddTag(tags: seq<Tag>, tag: Tag): (r: seq<Tag>)
    ensures tag in r && TagSet(r) == TagSet(tags) + {tag}
    ensures tags <= r && |r| <= |tags| + 1
    ensures NoDuplicates(tags) ==> NoDuplicates(r)
  {
    if tag in tags then tags else tags + [tag]
  }

  /** The first lock section (scraper.py:209-225): the table after a worker
      with listing `tag` sees the paper `title`, and whether the title was
      new (only a new title goes on to have its details fetched). */
  function Sighting(t: Table, title: string, link: string, tag: Tag): (r: (Table, bool))
    ensures r.1 <==> title !in t.records
    ensures r.0.records.Keys == t.records.Keys + {title}
    ensures forall k :: k in t.records && k != title ==> r.0.records[k] == t.records[k]
    ensures tag in r.0.records[title].tags
    ensures r.1 ==> r.0.titles == t.titles + [title] && r.0.records[title] == Placeholder(link, tag)
    ensures !r.1 ==> (r.0.titles == t.titles
      && r.0.records[title] == t.records[title].(tags := r.0.records[title].tags)
      && TagSet(r.0.records[title].tags) == TagSet(t.records[title].tags) + {tag})
  {
    if title in t.records then
      var rec := t.records[title];
      (t.(records := t.records[title := rec.(tags := AddTag(rec.tags, tag))]), false)
    else
      (Table(t.titles + [title], t.records[title := Placeholder(link, tag)]), true)
  }

  /** `record.update({...})` with the six detail fields. */
  function WithDetails(rec: PaperRecord, d: Details): (r: PaperRecord)
    ensures r.paperLink == rec.paperLink && r.tags == rec.tags
    ensures r.pdfLink == Some(d.pdfLink) && r.abstractText == Some(d.abstractText)
    ensures r.githubLink == d.githubLink && r.publishedDate == Some(d.publishedDate)
    ensures r.upvoteCnt == Some(d.upvoteCnt) && r.starCnt == Some(d.starCnt)
  {
    rec.(pdfLink := Some(d.pdfLink), abstractText := Some(d.abstractText), githubLink := d.githubLink,
         publishedDate := Some(d.publishedDate), upvoteCnt := Some(d.upvoteCnt), starCnt := Some(d.starCnt))
  }

  /** The second lock section (scraper.py:261-269). The source raises
      `KeyError` for a title that is not in the table; no worker asks for
      one, since only the worker that inserted a title fills it in and
      nothing is ever removed. A step for a missing title is taken to
      leave the table as it is. */
  function Filling(t: Table, title: string, d: Details): (r: Table)
    ensures r.titles == t.titles && r.records.Keys == t.records.Keys
    ensures forall k :: k in t.records && k != title ==> r.records[k] == t.records[k]
    ensures title in t.records ==> r.records[title] == WithDetails(t.records[title], d)
  {
    if title in t.records then t.(records := t.records[title := WithDetails(t.records[title], d)]) else t
  }

  /** One atomic step of some worker: a lock section. */
  datatype Step =
    | Sight(title: string, link: string, tag: Tag)
    | Fill(title: string, details: Details)

  function Apply(t: Table, s: Step): Table
  {
    match s
    case Sight(title, link, tag) => Sighting(t, title, link, tag).0
    case Fill(title, d) => Filling(t, title, d)
  }

  /** The table after the lock sections `steps`, in the order the lock
      admitted them: any interleaving of the four workers is one such list. */
  function Run(t: Table, steps: seq<Step>): Table
    decreases |steps|
  {
    if steps == [] then t else Apply(Run(t, steps[..|steps| - 1]), steps[|steps| - 1])
  }

  /** Running two lists of lock sections one after the other is running
      their concatenation. */
  lemma {:induction false} RunAppend(t: Table, a: seq<Step>, b: seq<Step>)
    ensures Run(t, a + b) == Run(Run(t, a), b)
    decreases |b|
  {
    if b == [] {
      assert a + b == a;
    } else {
      var n := |b| - 1;
      assert (a + b)[..|a + b| - 1] == a + b[..n];
      assert (a + b)[|a + b| - 1] == b[n];
      RunAppend(t, a, b[..n]);
    }
  }

  /** The number of sighting sections in `steps`. */
  function Sightings(steps: seq<Step>): nat
    decreases |steps|
  {
    if steps == [] then 0 else (if steps[0].Sight? then 1 else 0) + Sightings(steps[1..])
  }

  lemma {:induction false} SightingsAppend(a: seq<Step>, b: seq<Step>)
    ensures Sightings(a + b) == Sightings(a) + Sightings(b)
    decreases |a|
  {
    if a == [] {
      assert a + b == b;
    } else {
      assert (a + b)[1..] == a[1..] + b;
      SightingsAppend(a[1..], b);
    }
  }

  /** Every sighting section in `steps` carries the listing `tag`. */
  predicate SightsTagged(steps: seq<Step>, tag: Tag)
  {
    forall i :: 0 <= i < |steps| && steps[i].Sight? ==> steps[i].tag == tag
  }

  lemma SightsTaggedAppend(a: seq<Step>, b: seq<Step>, tag: Tag)
    requires SightsTagged(a, tag) && SightsTagged(b, tag)
    ensures SightsTagged(a + b, tag)
  {
    forall i | 0 <= i < |a + b| && (a + b)[i].Sight?
      ensures (a + b)[i].tag == tag
    {
      if i >= |a| {
        assert (a + b)[i] == b[i - |a|];
      }
    }
  }

  /** Titles are only ever appended, at most one per sighting section: a
      fill never adds a title, and a sighting adds one only for a new paper. */
  lemma {:induction false} RunTitles(t: Table, steps: seq<Step>)
    ensures t.titles <= Run(t, steps).titles
    ensures |Run(t, steps).titles| <= |t.titles| + Sightings(steps)
    decreases |steps|
  {
    if steps != [] {
      var n := |steps| - 1;
      RunTitles(t, steps[..n]);
      assert steps == steps[..n] + [steps[n]];
      SightingsAppend(steps[..n], [steps[n]]);
    }
  }

  lemma SightingKeepsWellFormed(t: Table, title: string, link: string, tag: Tag)
    requires WellFormed(t)
    ensures WellFormed(Sighting(t, title, link, tag).0)
  {
    var r := Sighting(t, title, link, tag).0;
    if title !in t.records {
      assert title !in t.titles;
      forall i, j | 0 <= i < j < |r.titles|
        ensures r.titles[i] != r.titles[j]
      {
        if j == |t.titles| {
          assert r.titles[i] == t.titles[i];
        }
      }
    }
  }

  lemma FillingKeepsWellFormed(t: Table, title: string, d: Details)
    requires WellFormed(t)
    ensures WellFormed(Filling(t, title, d))
  {
  }

  /** However the lock sections of the workers interleave, the table keeps
      one record per title and duplicate-free, non-empty tag lists. */
  lemma {:induction false} StepsKeepWellFormed(t: Table, steps: seq<Step>)
    requires WellFormed(t)
    ensures WellFormed(Run(t, steps))
    decreases |steps|
  {
    if steps != [] {
      var last := steps[|steps| - 1];
      var before := Run(t, steps[..|steps| - 1]);
      StepsKeepWellFormed(t, steps[..|steps| - 1]);
      match last
      case Sight(title, link, tag) => SightingKeepsWellFormed(before, title, link, tag);
      case Fill(title, d) => FillingKeepsWellFormed(before, title, d);
    }
  }

  /** The titles sighted by any step of the list. */
  function SightedTitles(steps: seq<Step>): set<string>
    decreases |steps|
  {
    if steps == [] then {}
    else
      var last := steps[|steps| - 1];
      SightedTitles(steps[..|steps| - 1]) + (if last.Sight? then {last.title} else {})
  }

  /** The listings in which `title` was sighted. */
  function SightedTags(steps: seq<Step>, title: string): set<Tag>
    decreases |steps|
  {
    if steps == [] then {}
    else
      var last := steps[|steps| - 1];
      SightedTags(steps[..|steps| - 1], title)
        + (if last.Sight? && last.title == title then {last.tag} else {})
  }

  /** The page link of the first sighting of `title`, if any. */
  function FirstLink(steps: seq<Step>, title: string): Option<string>
    decreases |steps|
  {
    if steps == [] then None
    else
      var last := steps[|steps| - 1];
      var earlier := FirstLink(steps[..|steps| - 1], title);
      if earlier.Some? then earlier
      else if last.Sight? && last.title == title then Some(last.link)
      else None
  }

  /** The table `t` records exactly what the lock sections `steps` sighted:
      their titles, the listings of each, and the link of its first sighting. */
  predicate Tracks(t: Table, steps: seq<Step>)
  {
    && t.records.Keys == SightedTitles(steps)
    && (forall k :: k in t.records ==> TagSet(t.records[k].tags) == SightedTags(steps, k))
    && (forall k :: k in t.records ==> FirstLink(steps, k) == Some(t.records[k].paperLink))
  }

  /** A sighting keeps the table tracking the sections run. */
  lemma SightTracks(t: Table, init: seq<Step>, title: string, link: string, tag: Tag)
    requires Tracks(t, init)
    ensures Tracks(Sighting(t, title, link, tag).0, init + [Sight(title, link, tag)])
  {
    var steps := init + [Sight(title, link, tag)];
    assert steps[..|steps| - 1] == init && steps[|steps| - 1] == Sight(title, link, tag);
    var after := Sighting(t, title, link, tag).0;
    assert after.records.Keys == SightedTitles(steps);
    forall k | k in after.records
      ensures TagSet(after.records[k].tags) == SightedTags(steps, k)
    {
      SightTags(t, init, title, link, tag, k);
    }
    forall k | k in after.records
      ensures FirstLink(steps, k) == Some(after.records[k].paperLink)
    {
      SightLink(t, init, title, link, tag, k);
    }
  }

  lemma SightTags(t: Table, init: seq<Step>, title: string, link: string, tag: Tag, k: string)
    requires t.records.Keys == SightedTitles(init)
    requires k in t.records ==> TagSet(t.records[k].tags) == SightedTags(init, k)
    requires k in Sighting(t, title, link, tag).0.records
    ensures TagSet(Sighting(t, title, link, tag).0.records[k].tags) == SightedTags(init + [Sight(title, link, tag)], k)
  {
    var steps := init + [Sight(title, link, tag)];
    assert steps[..|steps| - 1] == init;
    if k == title && title !in t.records {
      assert TagSet([tag]) == {tag};
      if SightedTags(init, k) != {} {
        NoTitleNoTags(init, k);
      }
    }
  }

  lemma SightLink(t: Table, init: seq<Step>, title: string, link: string, tag: Tag, k: string)
    requires t.records.Keys == SightedTitles(init)
    requires k in t.records ==> FirstLink(init, k) == Some(t.records[k].paperLink)
    requires k in Sighting(t, title, link, tag).0.records
    ensures FirstLink(init + [Sight(title, link, tag)], k) == Some(Sighting(t, title, link, tag).0.records[k].paperLink)
  {
    var steps := init + [Sight(title, link, tag)];
    assert steps[..|steps| - 1] == init;
    if k == title && title !in t.records {
      if FirstLink(init, k) != None {
        NoTitleNoLink(init, k);
      }
    }
  }

  /** Filling in details keeps the table tracking the sections run. */
  lemma FillTracks(t: Table, init: seq<Step>, title: string, d: Details)
    requires Tracks(t, init)
    ensures Tracks(Filling(t, title, d), init + [Fill(title, d)])
  {
    var steps := init + [Fill(title, d)];
    assert steps[..|steps| - 1] == init && steps[|steps| - 1] == Fill(title, d);
  }

  /** One more lock section keeps the table tracking the sections run. */
  lemma ApplyTracks(t: Table, init: seq<Step>, s: Step)
    requires Tracks(t, init)
    ensures Tracks(Apply(t, s), init + [s])
  {
    match s
    case Sight(title, link, tag) => SightTracks(t, init, title, link, tag);
    case Fill(title, d) => FillTracks(t, init, title, d);
  }

  /** Starting from an empty table, after any interleaving of lock
      sections: the titles in the table are exactly the titles sighted;
      each record's tags are exactly the listings it was sighted in; and
      its page link is the one from its first sighting (a later sighting
      never re-inserts or overwrites it). */
  lemma {:induction false} RunFromEmpty(steps: seq<Step>)
    ensures WellFormed(Run(Empty, steps))
    ensures Tracks(Run(Empty, steps), steps)
    decreases |steps|
  {
    StepsKeepWellFormed(Empty, steps);
    if steps != [] {
      var init := steps[..|steps| - 1];
      RunFromEmpty(init);
      assert steps == init + [steps[|steps| - 1]];
      ApplyTracks(Run(Empty, init), init, steps[|steps| - 1]);
    }
  }

  lemma {:induction false} NoTitleNoTags(steps: seq<Step>, k: string)
    requires SightedTags(steps, k) != {}
    ensures k in SightedTitles(steps)
    decreases |steps|
  {
    var init := steps[..|steps| - 1];
    if SightedTags(init, k) != {} {
      NoTitleNoTags(init, k);
    }
  }

  lemma {:induction false} NoTitleNoLink(steps: seq<Step>, k: string)
    requires FirstLink(steps, k) != None
    ensures k in SightedTitles(steps)
    decreases |steps|
  {
    var init := steps[..|steps| - 1];
    if FirstLink(init, k) != None {
      NoTitleNoLink(init, k);
    }
  }

  lemma {:induction false} DistinctCount<T>(s: seq<T>)
    requires NoDuplicates(s)
    ensures |set x | x in s| == |s|
    decreases |s|
  {
    if s != [] {
      var init := s[..|s| - 1];
      DistinctCount(init);
      assert (set x | x in s) == (set x | x in init) + {s[|s| - 1]};
      assert s[|s| - 1] !in init;
    }
  }

  /** No lost and no duplicate insert: whatever the interleaving, the table
      holds exactly as many records as distinct titles were sighted. In
      particular N workers racing to insert the same new title leave
      exactly one record. */
  lemma OneRecordPerSightedTitle(steps: seq<Step>)
    ensures |Run(Empty, steps).titles| == |SightedTitles(steps)|
  {
    var t := Run(Empty, steps);
    RunFromEmpty(steps);
    var listed := set x | x in t.titles;
    assert listed == t.records.Keys by {
      assert WellFormed(t);
      forall x | x in t.records ensures x in listed { assert x in t.titles; }
    }
    DistinctCount(t.titles);
  }

  /** A title listed both as daily and as trending ends up as one record
      tagged with both listings. */
  lemma DailyAndTrendingMerge(title: string, daily: string, trending: string)
    ensures var t := Run(Empty, [Sight(title, daily, Daily), Sight(title, trending, Trending)]);
      t.titles == [title] && t.records.Keys == {title}
      && t.records[title].tags == [Daily, Trending] && t.records[title].paperLink == daily
  {
    var first, second := Sight(title, daily, Daily), Sight(title, trending, Trending);
    var steps := [first, second];
    assert steps[..1] == [first];
    assert [first][..0] == [];
    var t1 := Sighting(Empty, title, daily, Daily).0;
    assert Run(Empty, [first]) == t1;
    assert Run(Empty, steps) == Sighting(t1, title, trending, Trending).0;
  }

  /** The shared dict itself, updated in place by the two lock sections. */
  class PaperTable {
    var titles: seq<string>
    var records: map<string, PaperRecord>

    function Value(): Table
      reads this
    {
      Table(titles, records)
    }

    predicate Valid()
      reads this
    {
      WellFormed(Value())
    }

    /** `visited_links = {}` (scraper.py:284). */
    constructor ()
      ensures Valid() && Value() == Empty
    {
      titles := [];
      records := map[];
    }

    /** The first lock section (scraper.py:209-225). */
    method Sight(title: string, link: string, tag: Tag) returns (isNew: bool)
      requires Valid()
      modifies this
      ensures Valid()
      ensures (Value(), isNew) == Sighting(old(Value()), title, link, tag)
    {
      SightingKeepsWellFormed(Value(), title, link, tag);
      if title in records {
        var rec := records[title];
        if tag !in rec.tags {
          rec := rec.(tags := rec.tags + [tag]);
        }
        records := records[title := rec];
        isNew := false;
      } else {
        records := records[title := Placeholder(link, tag)];
        titles := titles + [title];
        isNew := true;
      }
    }

    /** The second lock section (scraper.py:261-269). */
    method FillDetails(title: string, d: Details)
      requires Valid() && title in records
      modifies this
      ensures Valid()
      ensures Value() == Filling(old(Value()), title, d)
    {
      records := records[title := WithDetails(records[title], d)];
    }
  }
}
