/** static/script.js: the browser script of the digest page. The page's
    elements are the state of one `Page` object: the paper cards of the
    Hugging Face grid in document order, the filter buttons, the three
    column cards of the carousel, and the script's two module variables.
    `new Date(...)` is a parameter `stamp` giving a date text's time. */
module PageScript {
  import opened Wrappers
  import opened Strings
  import opened HfTable
  import opened HfScraper

  /** An `.hf-card`: its `data-tags` and `data-date` attributes, when
      present, and whether its `display` is `block` (else `none`). */
  datatype PaperCard = PaperCard(tags: Option<string>, date: Option<string>, shown: bool)

  /** A `.filter-btn`: its `data-tag`, when present, and whether it carries
      the `active` class. */
  datatype FilterButton = FilterButton(tag: Option<string>, active: bool)

  /** The inline style `showCard` writes on a column card. */
  datatype CardStyle = CardStyle(opacity: string, transform: string, pointerEvents: string, zIndex: string)

  /** A `.three-column .card`: whether it carries the `active` class, and
      its inline style. */
  datatype ColumnCard = ColumnCard(active: bool, style: CardStyle)

  const RestStyle := CardStyle("0", "translateX(100px)", "none", "1")
  const FrontStyle := CardStyle("1", "translateX(0)", "all", "10")

  /** The carousel counts three cards, whatever the page holds. */
  const TotalCards := 3

  // ---------------------------------------------------------------- filter

  /** The card's tag list: `data-tags` split on spaces, or none when the
      attribute is missing or empty. */
  function CardTags(tags: Option<string>): seq<string>
  {
    if tags.None? || tags.value == "" then [] else SplitOn(tags.value, " ")
  }

  /** Whether a card stays visible under the filter `tag`. */
  predicate ShouldShow(tags: Option<string>, tag: string)
  {
    tag == "ALL" || tag in CardTags(tags)
  }

  /** A card without tags is visible only under "ALL"; "ALL" shows every
      card. */
  lemma UntaggedOnlyUnderAll(tags: Option<string>, tag: string)
    ensures tags.None? || tags == Some("") ==> (ShouldShow(tags, tag) <==> tag == "ALL")
    ensures ShouldShow(tags, "ALL")
  {
  }

  /** The cards as `filterPapers(tag)` leaves them: only their display
      changes. */
  function Filtered(cards: seq<PaperCard>, tag: string): (r: seq<PaperCard>)
    ensures |r| == |cards|
  {
    seq(|cards|, i requires 0 <= i < |cards| => cards[i].(shown := ShouldShow(cards[i].tags, tag)))
  }

  /** Filtering keeps every card and its attributes, and only the last
      filter counts: applying a second one undoes the first, and applying
      the same one again changes nothing. */
  lemma FilterLast(cards: seq<PaperCard>, first: string, second: string)
    ensures Filtered(Filtered(cards, first), second) == Filtered(cards, second)
    ensures Filtered(Filtered(cards, first), first) == Filtered(cards, first)
    ensures forall i :: 0 <= i < |cards| ==>
      Filtered(cards, first)[i].tags == cards[i].tags && Filtered(cards, first)[i].date == cards[i].date
  {
    assert forall i :: 0 <= i < |cards| ==> Filtered(Filtered(cards, first), second)[i] == Filtered(cards, second)[i];
  }

  /** A card the scraper writes for a paper with tags `tags` is visible
      under `tag` exactly when `tag` is "ALL" or the name of one of those
      tags. */
  lemma ScrapedCardShown(tags: seq<Tag>, tag: string)
    ensures ShouldShow(Some(DataTags(tags)), tag) <==>
      tag == "ALL" || exists k :: 0 <= k < |tags| && tags[k].Name() == tag
  {
    DataTagsEmpty(tags);
    if tags != [] {
      DataTagsSplit(tags);
      var names := Names(tags);
      if tag in names {
        var k :| 0 <= k < |names| && names[k] == tag;
        assert tags[k].Name() == tag;
      }
      if exists k :: 0 <= k < |tags| && tags[k].Name() == tag {
        var k :| 0 <= k < |tags| && tags[k].Name() == tag;
        assert names[k] == tag;
      }
    }
  }

  /** The buttons as `updateFilterButtonStyles` leaves them for the filter
      `current`. */
  function Styled(buttons: seq<FilterButton>, current: string): (r: seq<FilterButton>)
    ensures |r| == |buttons|
  {
    seq(|buttons|, i requires 0 <= i < |buttons| => buttons[i].(active := buttons[i].tag == Some(current)))
  }

  /** Exactly the buttons whose `data-tag` is the current filter are
      active; a button without `data-tag` never is. */
  lemma StyledActive(buttons: seq<FilterButton>, current: string, i: int)
    requires 0 <= i < |buttons|
    ensures Styled(buttons, current)[i].active <==> buttons[i].tag == Some(current)
    ensures buttons[i].tag.None? ==> !Styled(buttons, current)[i].active
    ensures Styled(buttons, current)[i].tag == buttons[i].tag
  {
  }

  // -------------------------------------------------------------- carousel

  /** JavaScript's `%` for a positive divisor: the remainder takes the sign
      of the dividend. */
  function JsRem(a: int, b: int): (r: int)
    requires b > 0
    ensures -b < r < b
    ensures a >= 0 ==> r == a % b
  {
    if a >= 0 then a % b else -((-a) % b)
  }

  function NextIndex(index: int): int
  {
    JsRem(index + 1, TotalCards)
  }

  function PrevIndex(index: int): int
  {
    JsRem(index - 1 + TotalCards, TotalCards)
  }

  /** From any index in [0, 3) both buttons lead to an index in [0, 3);
      one step forward and one back return to the start, and three steps
      forward go round once. */
  lemma CarouselSteps(index: int)
    requires 0 <= index < TotalCards
    ensures 0 <= NextIndex(index) < TotalCards && 0 <= PrevIndex(index) < TotalCards
    ensures PrevIndex(NextIndex(index)) == index && NextIndex(PrevIndex(index)) == index
    ensures NextIndex(NextIndex(NextIndex(index))) == index
  {
  }

  /** The column cards as `showCard(index)` leaves them. */
  function Shown(count: nat, index: int): (r: seq<ColumnCard>)
    ensures |r| == count
  {
    seq(count, i requires 0 <= i < count => if i == index then ColumnCard(true, FrontStyle) else ColumnCard(false, RestStyle))
  }

  /** After `showCard(index)` at most one card is active: the one at
      `index`, when the page has one there; every other card is at rest. */
  lemma ShownSingle(count: nat, index: int)
    ensures forall i :: 0 <= i < count && Shown(count, index)[i].active ==> i == index
    ensures 0 <= index < count ==> Shown(count, index)[index] == ColumnCard(true, FrontStyle)
    ensures forall i :: 0 <= i < count && i != index ==> Shown(count, index)[i] == ColumnCard(false, RestStyle)
  {
  }

  // ---------------------------------------------------------------- sorting

  /** The time a card sorts by: its date, or the epoch when it has none. */
  function Key(card: PaperCard, stamp: string -> int): int
  {
    stamp(if card.date.None? || card.date.value == "" then "1970-01-01" else card.date.value)
  }

  /** Newest first. */
  predicate NewestFirst(cards: seq<PaperCard>, stamp: string -> int)
  {
    forall i, j :: 0 <= i < j < |cards| ==> Key(cards[j], stamp) <= Key(cards[i], stamp)
  }

  /** `cards.sort(...)` with the comparator `dateB - dateA`: an insertion
      sort that moves each card left past the older ones. */
  method SortNewestFirst(a: array<PaperCard>, stamp: string -> int)
    modifies a
    ensures NewestFirst(a[..], stamp)
    ensures multiset(a[..]) == multiset(old(a[..]))
  {
    var i := 0;
    while i < a.Length
      invariant 0 <= i <= a.Length
      invariant NewestFirst(a[..i], stamp)
      invariant multiset(a[..]) == multiset(old(a[..]))
    {
      InsertNewest(a, i, stamp);
      i := i + 1;
    }
    assert a[..] == a[..a.Length];
  }

  /** One insertion: the card at `i` swaps places with each older card
      before it, and the cards up to `i` are then newest first. */
  method InsertNewest(a: array<PaperCard>, i: int, stamp: string -> int)
    requires 0 <= i < a.Length && NewestFirst(a[..i], stamp)
    modifies a
    ensures NewestFirst(a[..i + 1], stamp)
    ensures multiset(a[..]) == multiset(old(a[..]))
  {
    var j := i;
    InsertStart(a[..], i, stamp);
    while j > 0 && Key(a[j - 1], stamp) < Key(a[j], stamp)
      invariant 0 <= j <= i
      invariant Inserting(a[..], i, j, stamp)
      invariant multiset(a[..]) == multiset(old(a[..]))
    {
      ghost var s := a[..];
      SwapStep(s, i, j, stamp);
      SwapMultiset(s, j);
      a[j - 1], a[j] := a[j], a[j - 1];
      assert a[..] == s[j - 1 := s[j]][j := s[j - 1]];
      j := j - 1;
    }
    InsertDone(a[..], i, j, stamp);
  }

  /** Midway through inserting the card at `i`: it has reached `j`, the
      other cards up to `i` are newest first, and it is newer than every
      card it has passed. */
  predicate Inserting(s: seq<PaperCard>, i: nat, j: nat, stamp: string -> int)
    requires j <= i < |s|
  {
    && (forall p, q :: 0 <= p < q <= i && p != j && q != j ==> Key(s[q], stamp) <= Key(s[p], stamp))
    && (forall q :: j < q <= i ==> Key(s[q], stamp) < Key(s[j], stamp))
    && (0 < j < i ==> Key(s[j + 1], stamp) <= Key(s[j - 1], stamp))
  }

  lemma InsertStart(s: seq<PaperCard>, i: nat, stamp: string -> int)
    requires i < |s| && NewestFirst(s[..i], stamp)
    ensures Inserting(s, i, i, stamp)
  {
    forall p, q | 0 <= p < q < i
      ensures Key(s[q], stamp) <= Key(s[p], stamp)
    {
      assert s[..i][p] == s[p] && s[..i][q] == s[q];
    }
  }

  /** Passing one older card keeps the insertion state. */
  lemma SwapStep(s: seq<PaperCard>, i: nat, j: nat, stamp: string -> int)
    requires 0 < j <= i < |s| && Inserting(s, i, j, stamp)
    requires Key(s[j - 1], stamp) < Key(s[j], stamp)
    ensures Inserting(s[j - 1 := s[j]][j := s[j - 1]], i, j - 1, stamp)
  {
  }

  lemma SwapMultiset<T>(s: seq<T>, j: nat)
    requires 0 < j < |s|
    ensures multiset(s[j - 1 := s[j]][j := s[j - 1]]) == multiset(s)
  {
  }

  /** Once the card meets a card at least as new, or the front, the prefix
      is newest first. */
  lemma InsertDone(s: seq<PaperCard>, i: nat, j: nat, stamp: string -> int)
    requires j <= i < |s| && Inserting(s, i, j, stamp)
    requires j == 0 || Key(s[j], stamp) <= Key(s[j - 1], stamp)
    ensures NewestFirst(s[..i + 1], stamp)
  {
  }

  // ------------------------------------------------------------ DOM loops

  /** The `forEach` of `filterPapers`: each card's display set for `tag`. */
  method SetDisplays(cards: seq<PaperCard>, tag: string) returns (r: seq<PaperCard>)
    ensures r == Filtered(cards, tag)
  {
    r := cards;
    var i := 0;
    while i < |r|
      invariant 0 <= i <= |r| == |cards|
      invariant forall k :: 0 <= k < i ==> r[k] == cards[k].(shown := ShouldShow(cards[k].tags, tag))
      invariant forall k :: i <= k < |r| ==> r[k] == cards[k]
    {
      var card := r[i];
      r := r[i := card.(shown := ShouldShow(card.tags, tag))];
      i := i + 1;
    }
  }

  /** The `forEach` of `updateFilterButtonStyles`: `classList.toggle`
      with the comparison as its switch. */
  method ToggleActive(buttons: seq<FilterButton>, current: string) returns (r: seq<FilterButton>)
    ensures r == Styled(buttons, current)
  {
    r := buttons;
    var i := 0;
    while i < |r|
      invariant 0 <= i <= |r| == |buttons|
      invariant forall k :: 0 <= k < i ==> r[k] == buttons[k].(active := buttons[k].tag == Some(current))
      invariant forall k :: i <= k < |r| ==> r[k] == buttons[k]
    {
      var button := r[i];
      r := r[i := button.(active := button.tag == Some(current))];
      i := i + 1;
    }
  }

  /** The body of `showCard`: every card to rest, then the card at `index`,
      if there is one, to the front. */
  method Activate(cards: seq<ColumnCard>, index: int) returns (r: seq<ColumnCard>)
    ensures r == Shown(|cards|, index)
  {
    r := cards;
    var i := 0;
    while i < |r|
      invariant 0 <= i <= |r| == |cards|
      invariant forall k :: 0 <= k < i ==> r[k] == ColumnCard(false, RestStyle)
    {
      r := r[i := ColumnCard(false, RestStyle)];
      i := i + 1;
    }
    if 0 <= index < |r| {
      r := r[index := ColumnCard(true, FrontStyle)];
    }
    assert r == Shown(|cards|, index);
  }

  // ------------------------------------------------------------------ page

  class Page {
    var currentFilterTag: string
    var paperCards: seq<PaperCard>
    var buttons: seq<FilterButton>
    /** Whether the page has the `#hf-grid` container. */
    var hasGrid: bool
    var columnCards: seq<ColumnCard>
    var currentCardIndex: int

    /** The script's starting values: filter "ALL", card 0. */
    constructor(paperCards: seq<PaperCard>, buttons: seq<FilterButton>, hasGrid: bool, columnCards: seq<ColumnCard>)
      ensures this.paperCards == paperCards && this.buttons == buttons && this.hasGrid == hasGrid
      ensures this.columnCards == columnCards
      ensures currentFilterTag == "ALL" && currentCardIndex == 0
    {
      this.paperCards := paperCards;
      this.buttons := buttons;
      this.hasGrid := hasGrid;
      this.columnCards := columnCards;
      currentFilterTag := "ALL";
      currentCardIndex := 0;
    }

    /** `filterPapers(tag)`: record the filter, set each card's display,
        then restyle the buttons. */
    method FilterPapers(tag: string)
      modifies this
      ensures currentFilterTag == tag
      ensures paperCards == Filtered(old(paperCards), tag)
      ensures buttons == Styled(old(buttons), tag)
      ensures hasGrid == old(hasGrid) && columnCards == old(columnCards) && currentCardIndex == old(currentCardIndex)
    {
      currentFilterTag := tag;
      paperCards := SetDisplays(paperCards, tag);
      UpdateFilterButtonStyles();
    }

    /** `updateFilterButtonStyles()`: a button is active exactly when its
        `data-tag` is the current filter. */
    method UpdateFilterButtonStyles()
      modifies this
      ensures buttons == Styled(old(buttons), currentFilterTag)
      ensures currentFilterTag == old(currentFilterTag) && paperCards == old(paperCards)
      ensures hasGrid == old(hasGrid) && columnCards == old(columnCards) && currentCardIndex == old(currentCardIndex)
    {
      buttons := ToggleActive(buttons, currentFilterTag);
    }

    /** `sortPapersByDateOnce()`: without the grid or without cards nothing
        happens; otherwise the same cards come back newest first. */
    method SortPapersByDateOnce(stamp: string -> int)
      modifies this
      ensures !hasGrid || old(paperCards) == [] ==> paperCards == old(paperCards)
      ensures hasGrid && old(paperCards) != [] ==> NewestFirst(paperCards, stamp)
      ensures multiset(paperCards) == multiset(old(paperCards))
      ensures currentFilterTag == old(currentFilterTag) && buttons == old(buttons) && hasGrid == old(hasGrid)
      ensures columnCards == old(columnCards) && currentCardIndex == old(currentCardIndex)
    {
      if !hasGrid {
        return;
      }
      var cards := paperCards;
      if |cards| == 0 {
        return;
      }
      var a := new PaperCard[|cards|](i requires 0 <= i < |cards| => cards[i]);
      assert a[..] == cards;
      SortNewestFirst(a, stamp);
      paperCards := a[..];
    }

    /** `showCard(index)`: every card to rest, then the one at `index`, if
        any, to the front; the index is recorded even when no card is
        there. */
    method ShowCard(index: int)
      modifies this
      ensures columnCards == Shown(|old(columnCards)|, index)
      ensures currentCardIndex == index
      ensures currentFilterTag == old(currentFilterTag) && paperCards == old(paperCards)
      ensures buttons == old(buttons) && hasGrid == old(hasGrid)
    {
      columnCards := Activate(columnCards, index);
      currentCardIndex := index;
    }

    /** `nextCard()`. */
    method NextCard()
      modifies this
      ensures currentCardIndex == NextIndex(old(currentCardIndex))
      ensures 0 <= old(currentCardIndex) < TotalCards ==> 0 <= currentCardIndex < TotalCards
      ensures columnCards == Shown(|old(columnCards)|, currentCardIndex)
      ensures currentFilterTag == old(currentFilterTag) && paperCards == old(paperCards)
      ensures buttons == old(buttons) && hasGrid == old(hasGrid)
    {
      ShowCard(NextIndex(currentCardIndex));
    }

    /** `prevCard()`. */
    method PrevCard()
      modifies this
      ensures currentCardIndex == PrevIndex(old(currentCardIndex))
      ensures 0 <= old(currentCardIndex) < TotalCards ==> 0 <= currentCardIndex < TotalCards
      ensures columnCards == Shown(|old(columnCards)|, currentCardIndex)
      ensures currentFilterTag == old(currentFilterTag) && paperCards == old(paperCards)
      ensures buttons == old(buttons) && hasGrid == old(hasGrid)
    {
      ShowCard(PrevIndex(currentCardIndex));
    }
  }
}
