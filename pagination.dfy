/**
 * The pagination loop of `generar_catalogo`: rows are placed three to a row of cards,
 * nine cards on the first page and twelve on every later one, with a page break (and, in
 * main.py, a footer before it) as soon as a page's quota is reached.
 *
 * The drawing calls the loop makes are recorded as an event log. `Log` says in closed
 * form what the log holds after `n` rows; the `Paginator` class is the loop's state and is
 * proved to produce exactly that log.
 */
module Pagination {
  import opened Units
  import Card

  const XPositions: seq<real> := [1.5 * Cm, 8.0 * Cm, 14.5 * Cm]
  const RowStep: real := 6.5 * Cm
  // the quotas appear as literals in the closed form below, where the solver needs them literal
  const FirstPageLimit: nat := 9
  const OtherPagesLimit: nat := 12

  /**
   * The vertical layout of one variant of the program: the heights its header functions
   * return, the margin between header and first card origin, and whether it draws footers.
   */
  datatype Layout = Layout(firstHeaderHeight: real, nextHeaderHeight: real,
                           firstMargin: real, nextMargin: real, footer: bool)

  /** CATALOGOS.py: its own headers, 7.3 cm and 2.5 cm tall, and no footer. */
  const CatalogosLayout: Layout := Layout(7.3 * Cm, 2.5 * Cm, 6.0 * Cm, 6.4 * Cm, false)

  /** main.py: the headers of encabezados.py, 7.3 cm + 1 cm and 2 cm tall, and footer.py's footer. */
  const MainLayout: Layout := Layout(7.3 * Cm + 1.0 * Cm, 2.0 * Cm, 6.0 * Cm, 6.4 * Cm, true)

  /** The footer band of footer.py: 13 cm by 2 cm in the page's lower-left corner. */
  const FooterBand: Rect := Rect(0.0, 0.0, 13.0 * Cm, 2.0 * Cm)

  // ---------------------------------------------------------------------------
  // Where each card goes, in closed form (cards and pages counted from 0)
  // ---------------------------------------------------------------------------

  function PageLimit(page: nat): nat {
    if page == 0 then 9 else 12
  }

  /** The literal quotas of the closed form are the class's `first_page_limit` and `other_pages_limit`. */
  lemma QuotasAgree()
    ensures PageLimit(0) == FirstPageLimit && PageStart(1) == FirstPageLimit
    ensures forall p: nat :: p >= 1 ==> PageLimit(p) == OtherPagesLimit
  {
  }

  /** The index of the first card of a page. */
  function PageStart(page: nat): nat {
    if page == 0 then 0 else 9 + (page - 1) * 12
  }

  /** The page card `k` lands on. */
  function PageOf(k: nat): nat {
    if k < 9 then 0 else 1 + (k - 9) / 12
  }

  /** The position of card `k` among the cards of its page. */
  function SlotOf(k: nat): nat {
    if k < 9 then k else (k - 9) % 12
  }

  function HeaderHeight(layout: Layout, page: nat): real {
    if page == 0 then layout.firstHeaderHeight else layout.nextHeaderHeight
  }

  /** The y of the first row of cards on a page: below the header and its margin. */
  function StartY(layout: Layout, page: nat): real {
    PageHeight - HeaderHeight(layout, page) - (if page == 0 then layout.firstMargin else layout.nextMargin)
  }

  /** Card `k` goes in column `slot mod 3` ... */
  function CardX(k: nat): real {
    XPositions[SlotOf(k) % 3]
  }

  /** How far row `r` of a page sits below its first row: `r` steps of 6.5 cm. */
  function RowOffset(r: nat): real {
    if r == 0 then 0.0 else RowOffset(r - 1) + RowStep
  }

  /** ... and row `slot div 3` of its page. */
  function CardY(layout: Layout, k: nat): real {
    StartY(layout, PageOf(k)) - RowOffset(SlotOf(k) / 3)
  }

  function CardRect(layout: Layout, k: nat): Rect {
    Rect(CardX(k), CardY(layout, k), Card.CardSize, Card.CardSize)
  }

  /** A page break follows the `n`-th card (counted from 1): the 9th, then every 12th. */
  predicate BreakAfter(n: nat) {
    n == 9 || (n > 9 && (n - 9) % 12 == 0)
  }

  // ---------------------------------------------------------------------------
  // The event log
  // ---------------------------------------------------------------------------

  /** The drawing calls the loop makes, at the level of pages and cards. */
  datatype Event =
    | FirstHeader                      // draw_first_page_header / draw_header_page1
    | PlaceCard(row: nat, x: real, y: real)  // draw_product_card(c, x, y, row)
    | Footer                           // draw_footer
    | ShowPage                         // c.showPage()
    | NextHeader                       // draw_next_page_header / draw_header_pageN
    | Save                             // c.save()

  function BreakEvents(layout: Layout): seq<Event> {
    (if layout.footer then [Footer] else []) + [ShowPage, NextHeader]
  }

  function CardEvent(layout: Layout, k: nat): Event {
    PlaceCard(k, CardX(k), CardY(layout, k))
  }

  /** What follows the `n`-th card: a page break, or nothing. */
  function BreakTail(layout: Layout, n: nat): seq<Event> {
    if BreakAfter(n) then BreakEvents(layout) else []
  }

  /** The events drawn after the first header and `n` rows. */
  function Log(layout: Layout, n: nat): seq<Event>
    decreases n
  {
    if n == 0 then [FirstHeader]
    else Log(layout, n - 1) + [CardEvent(layout, n - 1)] + BreakTail(layout, n)
  }

  /** The log of one more row: the card, then the page break if the card fills its page. */
  lemma LogStep(layout: Layout, k: nat)
    ensures Log(layout, k + 1) == Log(layout, k) + [CardEvent(layout, k)] + BreakTail(layout, k + 1)
  {
  }

  /** The number of occurrences of `e` in `events`. */
  function Count(events: seq<Event>, e: Event): nat {
    if events == [] then 0
    else Count(events[..|events| - 1], e) + (if events[|events| - 1] == e then 1 else 0)
  }

  lemma {:induction false} CountAppend(a: seq<Event>, b: seq<Event>, e: Event)
    ensures Count(a + b, e) == Count(a, e) + Count(b, e)
    decreases |b|
  {
    if b == [] {
      assert a + b == a;
    } else {
      var init := b[..|b| - 1];
      assert (a + b)[..|a + b| - 1] == a + init;
      assert (a + b)[|a + b| - 1] == b[|b| - 1];
      CountAppend(a, init, e);
    }
  }

  lemma CountSingle(x: Event, e: Event)
    ensures Count([x], e) == if x == e then 1 else 0
  {
    assert [x][..0] == [];
  }

  /** A page break holds one `showPage`, and one footer exactly in the variant that draws footers. */
  lemma BreakCounts(layout: Layout)
    ensures Count(BreakEvents(layout), ShowPage) == 1
    ensures Count(BreakEvents(layout), Footer) == if layout.footer then 1 else 0
  {
    var f: seq<Event> := if layout.footer then [Footer] else [];
    assert BreakEvents(layout) == f + [ShowPage] + [NextHeader];
    CountAppend(f + [ShowPage], [NextHeader], ShowPage);
    CountAppend(f, [ShowPage], ShowPage);
    CountAppend(f + [ShowPage], [NextHeader], Footer);
    CountAppend(f, [ShowPage], Footer);
    CountSingle(ShowPage, ShowPage);
    CountSingle(ShowPage, Footer);
    CountSingle(NextHeader, ShowPage);
    CountSingle(NextHeader, Footer);
    if layout.footer {
      CountSingle(Footer, ShowPage);
      CountSingle(Footer, Footer);
    }
  }

  /** What one card and the break after it add to the counts. */
  lemma StepCounts(layout: Layout, n: nat, e: Event)
    requires n > 0 && (e == ShowPage || e == Footer)
    ensures Count(Log(layout, n), e) == Count(Log(layout, n - 1), e) + Count(BreakTail(layout, n), e)
  {
    var prev, card, tail := Log(layout, n - 1), [CardEvent(layout, n - 1)], BreakTail(layout, n);
    assert Log(layout, n) == (prev + card) + tail;
    CountAppend(prev + card, tail, e);
    CountAppend(prev, card, e);
    CountSingle(CardEvent(layout, n - 1), e);
  }

  // ---------------------------------------------------------------------------
  // Properties of the closed form
  // ---------------------------------------------------------------------------

  /** How the position of the next card follows from the position of the last one. */
  lemma Advance(k: nat)
    ensures SlotOf(k) < PageLimit(PageOf(k))
    ensures BreakAfter(k + 1) <==> SlotOf(k) + 1 == PageLimit(PageOf(k))
    ensures BreakAfter(k + 1) ==> SlotOf(k + 1) == 0 && PageOf(k + 1) == PageOf(k) + 1
    ensures !BreakAfter(k + 1) ==> SlotOf(k + 1) == SlotOf(k) + 1 && PageOf(k + 1) == PageOf(k)
  {
    if k >= 9 {
      var j := k - 9;
      var q, r := j / 12, j % 12;
      assert j == 12 * q + r && 0 <= r < 12;
      if r == 11 {
        assert j + 1 == 12 * (q + 1) + 0;
      } else {
        assert j + 1 == 12 * q + (r + 1);
      }
    }
  }

  /** Cards `PageStart(p)` up to `PageStart(p) + PageLimit(p)` are page `p`: nine on the first, twelve on each later one. */
  lemma PageQuota(k: nat, p: nat)
    ensures PageOf(k) == p <==> PageStart(p) <= k < PageStart(p) + PageLimit(p)
    ensures SlotOf(k) == k - PageStart(PageOf(k))
  {
    if k >= 9 {
      var j := k - 9;
      assert j == 12 * (j / 12) + j % 12;
      if p >= 1 {
        var lo := (p - 1) * 12;
        if j / 12 < p - 1 {
          assert j < 12 * (j / 12) + 12 <= lo;
        } else if j / 12 > p - 1 {
          assert j >= 12 * (j / 12) >= lo + 12;
        }
      }
    }
  }

  /** At every page break the column counter has already wrapped: the quotas are multiples of three. */
  lemma ColumnWrappedAtBreak(n: nat)
    requires n > 0 && BreakAfter(n)
    ensures (SlotOf(n - 1) + 1) % 3 == 0
  {
    Advance(n - 1);
  }

  lemma {:induction false} LogPrefix(layout: Layout, m: nat, n: nat)
    requires m <= n
    ensures Log(layout, m) <= Log(layout, n)
    decreases n
  {
    if m < n {
      LogPrefix(layout, m, n - 1);
    }
  }

  /** Each page break moves the page of the next card on by one. */
  lemma PageOfStep(n: nat)
    requires n > 0
    ensures PageOf(n) == PageOf(n - 1) + (if BreakAfter(n) then 1 else 0)
  {
    Advance(n - 1);
  }

  /** For `N` rows there are no page breaks below nine rows and `1 + (N - 9) div 12` from nine on. */
  lemma {:induction false} ShowPageCount(layout: Layout, n: nat)
    ensures Count(Log(layout, n), ShowPage) == PageOf(n)
    decreases n
  {
    if n > 0 {
      ShowPageCount(layout, n - 1);
      PageOfStep(n);
      StepCounts(layout, n, ShowPage);
      BreakCounts(layout);
    }
  }

  /** main.py draws one footer per page break; CATALOGOS.py draws none. */
  lemma {:induction false} FooterCount(layout: Layout, n: nat)
    ensures Count(Log(layout, n), Footer) == if layout.footer then PageOf(n) else 0
    decreases n
  {
    if n > 0 {
      FooterCount(layout, n - 1);
      PageOfStep(n);
      StepCounts(layout, n, Footer);
      BreakCounts(layout);
    }
  }

  /**
   * Every page break is footer-then-showPage-then-header: each footer is immediately
   * followed by a page break (so the final page, which ends the log, gets none), each page
   * break is immediately preceded by the footer when the variant draws one and is
   * immediately followed by the next page's header.
   */
  ghost predicate BreakOrdered(log: seq<Event>, footer: bool) {
    Followed(log, Footer, ShowPage) && Followed(log, ShowPage, NextHeader) && (footer ==> Preceded(log, ShowPage, Footer))
  }

  /** Every `a` in `log` is immediately followed by `b`. */
  ghost predicate Followed(log: seq<Event>, a: Event, b: Event) {
    && (forall i :: 0 <= i < |log| && log[i] == a ==> i + 1 < |log|)
    && (forall i, j :: 0 <= i && j == i + 1 && j < |log| && log[i] == a ==> log[j] == b)
  }

  /** Every `b` in `log` is immediately preceded by `a`. */
  ghost predicate Preceded(log: seq<Event>, b: Event, a: Event) {
    && (forall i :: 0 <= i < |log| && log[i] == b ==> 0 < i)
    && (forall i, j :: 0 <= i && j == i + 1 && j < |log| && log[j] == b ==> log[i] == a)
  }

  lemma FollowedAppend(u: seq<Event>, v: seq<Event>, a: Event, b: Event)
    requires Followed(u, a, b) && Followed(v, a, b)
    ensures Followed(u + v, a, b)
  {
    var w := u + v;
    forall i | 0 <= i < |w| && w[i] == a
      ensures i + 1 < |w|
    {
      if i < |u| {
        assert u[i] == a;
      } else {
        assert v[i - |u|] == a;
      }
    }
    forall i, j | 0 <= i && j == i + 1 && j < |w| && w[i] == a
      ensures w[j] == b
    {
      if i < |u| {
        assert u[i] == a;
        assert j < |u| && w[j] == u[j];
      } else {
        assert v[i - |u|] == a && w[j] == v[j - |u|];
      }
    }
  }

  lemma PrecededAppend(u: seq<Event>, v: seq<Event>, b: Event, a: Event)
    requires Preceded(u, b, a) && Preceded(v, b, a)
    ensures Preceded(u + v, b, a)
  {
    var w := u + v;
    forall i | 0 <= i < |w| && w[i] == b
      ensures 0 < i
    {
      if i < |u| {
        assert u[i] == b;
      } else {
        assert v[i - |u|] == b;
      }
    }
    forall i, j | 0 <= i && j == i + 1 && j < |w| && w[j] == b
      ensures w[i] == a
    {
      if j < |u| {
        assert u[j] == b && w[i] == u[i];
      } else {
        assert v[j - |u|] == b;
        assert i >= |u| && w[i] == v[i - |u|];
      }
    }
  }

  /** A row's drawing is ordered on its own: the card, then possibly footer, `showPage` and header. */
  lemma RowTailOrdered(layout: Layout, k: nat)
    ensures BreakOrdered([CardEvent(layout, k)] + BreakTail(layout, k + 1), layout.footer)
  {
    var tail := [CardEvent(layout, k)] + BreakTail(layout, k + 1);
    if !BreakAfter(k + 1) {
      assert tail == [CardEvent(layout, k)];
    } else if layout.footer {
      assert tail == [CardEvent(layout, k), Footer, ShowPage, NextHeader];
    } else {
      assert tail == [CardEvent(layout, k), ShowPage, NextHeader];
    }
  }

  /** What row `k` adds to the log, as a value the order proofs can treat as a whole. */
  lemma RowDrawing(layout: Layout, k: nat) returns (tail: seq<Event>)
    ensures Log(layout, k + 1) == Log(layout, k) + tail
    ensures BreakOrdered(tail, layout.footer)
  {
    tail := [CardEvent(layout, k)] + BreakTail(layout, k + 1);
    LogStep(layout, k);
    RowTailOrdered(layout, k);
  }

  lemma {:induction false} LogFollowed(layout: Layout, n: nat, a: Event, b: Event)
    requires (a == Footer && b == ShowPage) || (a == ShowPage && b == NextHeader)
    ensures Followed(Log(layout, n), a, b)
    decreases n
  {
    if n > 0 {
      LogFollowed(layout, n - 1, a, b);
      var tail := RowDrawing(layout, n - 1);
      FollowedAppend(Log(layout, n - 1), tail, a, b);
    }
  }

  lemma {:induction false} LogPreceded(layout: Layout, n: nat)
    requires layout.footer
    ensures Preceded(Log(layout, n), ShowPage, Footer)
    decreases n
  {
    if n > 0 {
      LogPreceded(layout, n - 1);
      var tail := RowDrawing(layout, n - 1);
      PrecededAppend(Log(layout, n - 1), tail, ShowPage, Footer);
    }
  }

  lemma BreakOrder(layout: Layout, n: nat)
    ensures BreakOrdered(Log(layout, n), layout.footer)
  {
    LogFollowed(layout, n, Footer, ShowPage);
    LogFollowed(layout, n, ShowPage, NextHeader);
    if layout.footer {
      LogPreceded(layout, n);
    }
  }

  /**
   * Card `r` is drawn right after the drawing of the rows before it, at column `slot mod 3` and row `slot div 3`
   * of page `PageOf(r)`, and exactly `PageOf(r)` page breaks come before it.
   */
  lemma CardPlacement(layout: Layout, n: nat, r: nat)
    requires r < n
    ensures Log(layout, r) < Log(layout, n)
    ensures Log(layout, n)[|Log(layout, r)|] == PlaceCard(r, XPositions[SlotOf(r) % 3], CardY(layout, r))
    ensures Count(Log(layout, r), ShowPage) == PageOf(r)
  {
    LogPrefix(layout, r + 1, n);
    ShowPageCount(layout, r);
    assert Log(layout, r + 1)[|Log(layout, r)|] == PlaceCard(r, CardX(r), CardY(layout, r));
  }

  /** Where the card after card `k` goes: the next slot of the page, or the first slot of the next page. */
  lemma NextPosition(layout: Layout, k: nat)
    ensures BreakAfter(k + 1) ==> SlotOf(k) % 3 == 2 && SlotOf(k + 1) == 0 && PageOf(k + 1) == PageOf(k) + 1
                                  && PageLimit(PageOf(k + 1)) == 12 && CardY(layout, k + 1) == StartY(layout, PageOf(k + 1))
    ensures !BreakAfter(k + 1) ==> SlotOf(k + 1) == SlotOf(k) + 1 && PageOf(k + 1) == PageOf(k)
                                   && SlotOf(k + 1) % 3 == (if SlotOf(k) % 3 == 2 then 0 else SlotOf(k) % 3 + 1)
                                   && CardY(layout, k + 1) == CardY(layout, k) - (if SlotOf(k) % 3 == 2 then RowStep else 0.0)
  {
    Advance(k);
    var s := SlotOf(k);
    if !BreakAfter(k + 1) {
      if s % 3 == 2 {
        assert (s + 1) / 3 == s / 3 + 1;
      } else {
        assert (s + 1) / 3 == s / 3;
      }
    }
  }

  /**
   * One pass of the row loop on the counters of card `k`: the column wraps after the third
   * card, and the page breaks exactly when the closed form says so, leaving the counters of
   * card `k + 1`.
   */
  lemma RowAdvance(layout: Layout, k: nat, col: nat, y: real, onPage: nat, limit: nat)
    requires onPage == SlotOf(k) && col == SlotOf(k) % 3 && y == CardY(layout, k) && limit == PageLimit(PageOf(k))
    ensures onPage + 1 >= limit <==> BreakAfter(k + 1)
    ensures BreakAfter(k + 1) ==> col == 2 && SlotOf(k + 1) == 0 && PageOf(k + 1) == PageOf(k) + 1
                                  && PageLimit(PageOf(k + 1)) == 12 && CardY(layout, k + 1) == StartY(layout, 1)
    ensures !BreakAfter(k + 1) ==> onPage + 1 == SlotOf(k + 1) && PageOf(k + 1) == PageOf(k)
                                   && (if col + 1 == 3 then 0 else col + 1) == SlotOf(k + 1) % 3
                                   && (if col + 1 == 3 then y - RowStep else y) == CardY(layout, k + 1)
  {
    NextPosition(layout, k);
    Advance(k);
  }

  /** The four rows a page can hold sit 0, 6.5, 13 and 19.5 cm below its first row. */
  lemma RowOffsets()
    ensures RowOffset(0) == 0.0 && RowOffset(1) == RowStep
    ensures RowOffset(2) == 2.0 * RowStep && RowOffset(3) == 3.0 * RowStep
  {
    assert RowOffset(1) == RowOffset(0) + RowStep;
    assert RowOffset(2) == RowOffset(1) + RowStep;
    assert RowOffset(3) == RowOffset(2) + RowStep;
  }

  lemma {:induction false} RowOffsetGap(a: nat, b: nat)
    requires a < b
    ensures RowOffset(b) >= RowOffset(a) + RowStep
    decreases b
  {
    if a < b - 1 {
      RowOffsetGap(a, b - 1);
    }
  }

  lemma {:induction false} RowOffsetIsMultiple(r: nat)
    ensures RowOffset(r) == r as real * RowStep
    decreases r
  {
    if r > 0 {
      RowOffsetIsMultiple(r - 1);
      assert (r - 1) as real * RowStep + RowStep == r as real * RowStep;
    }
  }

  /** The source's own formula: the k-th card of a page at `x_positions[k mod 3]`, `start_y - (k div 3) * row_step`. */
  lemma CardPosition(layout: Layout, k: nat)
    ensures SlotOf(k) % 3 < |XPositions| && CardX(k) == XPositions[SlotOf(k) % 3]
    ensures CardY(layout, k) == StartY(layout, PageOf(k)) - (SlotOf(k) / 3) as real * RowStep
  {
    RowOffsetIsMultiple(SlotOf(k) / 3);
  }

  /** The log ends with a next-page header, i.e. the last page holds no card, exactly when the row count hits a quota. */
  lemma TrailingHeaderOnlyPage(layout: Layout, n: nat)
    requires n > 0
    ensures var log := Log(layout, n); log[|log| - 1] == NextHeader <==> BreakAfter(n)
  {
    var log := Log(layout, n);
    assert log == Log(layout, n - 1) + [CardEvent(layout, n - 1)] + BreakTail(layout, n);
  }

  /** The row of a card: at most three rows on the first page, four on the others. */
  lemma RowBound(k: nat)
    ensures SlotOf(k) / 3 <= (if PageOf(k) == 0 then 2 else 3)
  {
    Advance(k);
  }

  /** In both variants every card lies on the page and below that page's header. */
  lemma CardsInsidePage(layout: Layout, k: nat)
    requires layout == CatalogosLayout || layout == MainLayout
    ensures var c := CardRect(layout, k);
      0.0 <= c.x && c.Right() <= PageWidth
      && 0.0 <= c.y && c.Top() <= PageHeight - HeaderHeight(layout, PageOf(k))
  {
    RowBound(k);
    RowOffsets();
    var row := SlotOf(k) / 3;
    assert SlotOf(k) % 3 < 3;
    if PageOf(k) == 0 {
      assert StartY(layout, PageOf(k)) == PageHeight - layout.firstHeaderHeight - 6.0 * Cm;
    } else {
      assert StartY(layout, PageOf(k)) == PageHeight - layout.nextHeaderHeight - 6.4 * Cm;
    }
    assert 0 <= row <= 3;
    assert RowOffset(row) <= 3.0 * RowStep by {
      if row < 3 {
        RowOffsetGap(row, 3);
      }
    }
    if PageOf(k) == 0 {
      assert RowOffset(row) <= 2.0 * RowStep by {
        if row < 2 {
          RowOffsetGap(row, 2);
        }
      }
    }
  }

  /** Two cards of the same page never overlap: columns are 6.5 cm apart, rows 6.5 cm apart, cards 6 cm wide. */
  lemma CardsDisjoint(layout: Layout, k1: nat, k2: nat)
    requires k1 != k2 && PageOf(k1) == PageOf(k2)
    ensures !CardRect(layout, k1).Overlaps(CardRect(layout, k2))
  {
    PageQuota(k1, PageOf(k1));
    PageQuota(k2, PageOf(k2));
    var s1, s2 := SlotOf(k1), SlotOf(k2);
    assert s1 != s2;
    if s1 % 3 == s2 % 3 {
      assert s1 / 3 != s2 / 3;
      if s1 / 3 < s2 / 3 {
        RowOffsetGap(s1 / 3, s2 / 3);
      } else {
        RowOffsetGap(s2 / 3, s1 / 3);
      }
    }
  }

  /**
   * In main.py the first page's cards clear the footer band, but on every later page the
   * bottom row reaches 0.2 cm into it in the two columns the band spans.
   */
  lemma FooterBandCollision(k: nat)
    ensures PageOf(k) == 0 ==> !CardRect(MainLayout, k).Overlaps(FooterBand)
    ensures PageOf(k) > 0 && SlotOf(k) >= 9 && SlotOf(k) % 3 < 2 ==> CardRect(MainLayout, k).Overlaps(FooterBand)
    ensures PageOf(k) > 0 && SlotOf(k) < 9 ==> !CardRect(MainLayout, k).Overlaps(FooterBand)
  {
    RowBound(k);
    RowOffsets();
    var row := SlotOf(k) / 3;
    if PageOf(k) == 0 {
      assert RowOffset(row) <= 2.0 * RowStep by {
        if row < 2 {
          RowOffsetGap(row, 2);
        }
      }
    } else if SlotOf(k) < 9 {
      assert RowOffset(row) <= 2.0 * RowStep by {
        if row < 2 {
          RowOffsetGap(row, 2);
        }
      }
    } else {
      assert row == 3;
    }
  }

  // ---------------------------------------------------------------------------
  // The loop's state
  // ---------------------------------------------------------------------------

  /** The local variables of `generar_catalogo` that the row loop updates, and the drawing so far. */
  class Paginator {
    const layout: Layout
    var col: nat
    var y: real
    var productsOnPage: nat
    var pageLimit: nat
    var pageNumber: nat
    var events: seq<Event>
    var placed: nat  // the index iterrows() hands to the loop

    /** After `placed` rows the counters say where card number `placed` will go. */
    ghost predicate Valid()
      reads this
    {
      && productsOnPage == SlotOf(placed)
      && col == SlotOf(placed) % 3
      && y == CardY(layout, placed)
      && pageLimit == PageLimit(PageOf(placed))
      && pageNumber == PageOf(placed) + 1
      && events == Log(layout, placed)
    }

    /** The first header, then the counters of page 1. */
    constructor (layout: Layout)
      ensures Valid() && this.layout == layout && placed == 0
      ensures events == [FirstHeader] && y == StartY(layout, 0)
      ensures col == 0 && productsOnPage == 0 && pageLimit == FirstPageLimit && pageNumber == 1
    {
      this.layout := layout;
      events := [FirstHeader];
      y := StartY(layout, 0);
      col, productsOnPage, pageLimit, pageNumber := 0, 0, FirstPageLimit, 1;
      placed := 0;
    }

    /** The page break: footer (main.py only), `showPage`, the next page's header, and fresh counters. */
    method TurnPage()
      modifies this
      ensures events == old(events) + BreakEvents(layout)
      ensures pageNumber == old(pageNumber) + 1 && y == StartY(layout, 1)
      ensures col == 0 && productsOnPage == 0 && pageLimit == OtherPagesLimit && placed == old(placed)
    {
      if layout.footer {
        events := events + [Footer];
      }
      events := events + [ShowPage];
      pageNumber := pageNumber + 1;
      events := events + [NextHeader];
      y := StartY(layout, 1);
      col := 0;
      productsOnPage := 0;
      pageLimit := OtherPagesLimit;
    }

    /** One iteration of the row loop. */
    method PlaceRow() returns (pageBreak: bool)
      requires Valid()
      modifies this
      ensures Valid() && placed == old(placed) + 1
      ensures old(col) < 3
      ensures events == old(events) + [PlaceCard(old(placed), XPositions[old(col)], old(y))]
                        + (if pageBreak then BreakEvents(layout) else [])
      ensures pageBreak <==> BreakAfter(placed)
      ensures pageNumber == old(pageNumber) + (if pageBreak then 1 else 0)
      ensures pageBreak ==> productsOnPage == 0 && col == 0 && pageLimit == OtherPagesLimit
      ensures !pageBreak ==> productsOnPage == old(productsOnPage) + 1 && pageLimit == old(pageLimit)
      ensures old(pageLimit) == OtherPagesLimit ==> pageLimit == OtherPagesLimit
    {
      RowAdvance(layout, placed, col, y, productsOnPage, pageLimit);
      LogStep(layout, placed);
      ghost var before := events;
      ghost var k := placed;
      assert PlaceCard(placed, XPositions[col], y) == CardEvent(layout, k);
      events := events + [PlaceCard(placed, XPositions[col], y)];
      col := col + 1;
      productsOnPage := productsOnPage + 1;
      if col == 3 {
        col := 0;
        y := y - RowStep;
      }
      pageBreak := productsOnPage >= pageLimit;
      if pageBreak {
        // the quotas are multiples of three, so the column has already wrapped
        assert col == 0;
        TurnPage();
        assert events == before + [CardEvent(layout, k)] + BreakTail(layout, k + 1);
      } else {
        assert events == before + [CardEvent(layout, k)] + [];
      }
      placed := placed + 1;
    }
  }

  /** `generar_catalogo` from the first header to `c.save()`, for the rows read from the sheet. */
  method Generate(layout: Layout, rows: seq<Card.ProductRecord>) returns (log: seq<Event>)
    ensures log == Log(layout, |rows|) + [Save]
  {
    var p := new Paginator(layout);
    for i := 0 to |rows|
      invariant p.Valid() && p.layout == layout && p.placed == i
    {
      var _ := p.PlaceRow();
    }
    log := p.events + [Save];
  }
}
