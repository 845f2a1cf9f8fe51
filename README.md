# Product catalogue generator: a verified model of its layout logic

The catalogue generator reads a spreadsheet of products and draws an A4 PDF catalogue. Each
product becomes one 6 cm by 6 cm card. Cards are laid out three to a row, nine on the first
page (under a tall header) and twelve on every later page (under a short header). The
generator exists in two variants: `CATALOGOS.py`, and `main.py`, which uses `encabezados.py`
and `footer.py` (main.py:13-20) and defines its own wrapper and card (main.py:34-105).
`productos.py` holds a third copy of the wrapper and the card template; neither variant
imports it. This project models the layout logic the variants share, and it proves what
that logic promises:

- **Greedy word wrap** (`dividir_texto_en_lineas`, three copies), in `textfit.dfy` on top of
  a model of Python's `str.split()` and `str.strip()`, and of lines built from words
  separated by single spaces, in `words.dfy`. The text
  width measure is a parameter `width: string -> real`. The spec function `Lines` is the wrap
  in closed form. `BuildLines` is the Python loop, proved equal to `Lines`. Two finishers
  follow it: the `CATALOGOS.py` one with its ellipsis block, and the slicing one of `main.py`
  and `productos.py`. `PlaceLines`/`DrawWrapped` is `dibujar_texto_con_saltos`.
- **Card layout** (`card.dfy`): the fixed template geometry of `draw_product_card` in
  `productos.py`, and its description block. It also covers the unit table that
  `CATALOGOS.py`'s `draw_product_card` selects and centres, and the image path each row
  gets.
- **Pagination** (`pagination.dfy`): the row loop of `generar_catalogo` in both variants.
  - `Paginator` holds the loop's variables (`col`, `y`, `products_on_page`, `page_limit`,
    `page_number`) and the drawing so far, as an event log. `PlaceRow` is one iteration;
    `Generate` is the whole loop.
  - `Log` is a closed-form statement of what the log holds after `n` rows. The class is
    proved to produce it, and the page counts, footer placement and card positions are
    proved about it.
  - The two variants differ only in header heights and in the footer, captured by `Layout`:
    - `CatalogosLayout`: headers of 7.3 cm / 2.5 cm, no footer.
    - `MainLayout`: headers of 8.3 cm / 2 cm from `encabezados.py`, and the footer of
      `footer.py`.
- **Launch form rules** (`hexcolor.dfy`): the colour entry's `^#?[0-9A-Fa-f]{6}$` check and
  `#` normalisation, and `main.py`'s title and colour defaults.

Lengths are exact reals in PostScript points, `Cm = 72 / 2.54`, and the page is 21 cm by
29.7 cm. The drawing calls, and the other parts listed under "Left out", are not modelled.

## Model

| member | source | states |
|---|---|---|
| Words.Strip | CATALOGOS.py:431 | the result is the input with its leading and trailing whitespace removed; it is empty exactly for whitespace-only input, and otherwise starts and ends with a non-space |
| Words.StripIdempotent | main.py:190-191 | stripping a stripped entry changes nothing |
| Words.Split | CATALOGOS.py:67 | `str.split()`: skip a whitespace character, otherwise take the maximal non-whitespace run as the next word; the properties are `SplitGivesWords`, `SplitEmptyIffBlank`, `SplitAtSpace` and `SplitJoinSpace` |
| Words.SplitGivesWords | CATALOGOS.py:67 | every word `split()` returns is non-empty and holds no whitespace |
| Words.SplitEmptyIffBlank | CATALOGOS.py:67 | `split()` returns no words exactly when the text is whitespace only |
| Words.SplitAtSpace | CATALOGOS.py:72 | a whitespace character separates: splitting `a + c + b` gives the words of `a` followed by those of `b` |
| Words.JoinSpace | CATALOGOS.py:72 | the words separated by single spaces, as the loop builds a line with `linea_actual + " " + palabra`; `SplitJoinSpace` shows that splitting it gives the words back |
| Words.SplitJoinSpace | CATALOGOS.py:72 | joining words with single spaces and splitting again gives back exactly those words |
| TextFit.Trial | CATALOGOS.py:72 | the candidate line: the current line, a space and the word, or the word alone when the current line is empty; `TrialFacts` shows its words are those of the current line plus the word |
| TextFit.Fill | CATALOGOS.py:71-82 | the loop in closed form, from a state `(lineas, linea_actual)` over the remaining words, stopping at the `break`; its contract states that the lines already built are kept as a prefix |
| TextFit.Flush | CATALOGOS.py:84-85 | the final append: the current line is added only when it is non-empty and fewer than `max_lineas` lines exist |
| TextFit.Lines | CATALOGOS.py:67-85 | the wrap as a whole: `split()`, the loop from `([], "")`, then the final append; its properties are `LinesFacts`, and `BuildLines` computes it |
| TextFit.FillStep | CATALOGOS.py:71-82 | one pass on a word: a word that fits joins the current line; one that does not flushes the current line and starts a new one, and the loop stops there exactly when the flush used up the line budget; either way the invariant of the loop is kept and the word is accounted for |
| TextFit.FillFacts | CATALOGOS.py:71-82 | the shape of the loop's result: every built line, and the line in progress if there is one, is non-empty and single-spaced; a multi-word line fits the width; no more than the line budget is built; the built lines and the line in progress read back as an in-order prefix of the words seen, all of them unless the line budget was used up |
| TextFit.LinesFacts | CATALOGOS.py:67-85 | the wrapped lines: at most `max(max_lineas, 1)`; each non-empty and single-spaced; a line of two or more words is at most `ancho_max` wide; read back into words they form an in-order prefix of `str(texto).split()`, the whole of it when the budget is not used up |
| TextFit.EllipsisBlockUnreachable | CATALOGOS.py:86-92 | with `max_lineas >= 1` the loop builds at most `max_lineas` lines, so the truncation block never runs |
| TextFit.BlankTextGivesNoLines | productos.py:16-30 | with room for a line, the wrap returns `[]` exactly for whitespace-only text |
| TextFit.OverwideWordStandsAlone | productos.py:19-25 | when widening text never makes it narrower, a word wider than the limit forms a line on its own |
| TextFit.BuildLines | CATALOGOS.py:66-85 | the append loop with its early `break`, and the final append, compute exactly `Lines` |
| TextFit.PyPrefix | productos.py:30 | Python's `s[:m]`: a prefix of `s` whose length is `m` clamped to `[0, len(s)]`, counted from the end for negative `m` |
| TextFit.WrapWithEllipsis | CATALOGOS.py:66-94 | the `CATALOGOS.py` copy returns `Lines`; it fails (IndexError at `lineas[-1]`) exactly when `max_lineas < 0`, or when `max_lineas == 0` and the loop built a line |
| TextFit.WrapSliced | main.py:34-50 | the `main.py` and `productos.py` copy (the two are identical) returns `Lines` for `max_lineas >= 1` and `[]` for `max_lineas <= 0` |
| TextFit.PlaceLines | productos.py:36-38 | one run per line, in order, line `i` centred on `x` at `y - i * 0.9 * size` |
| TextFit.DrawWrapped | productos.py:33-38 | `dibujar_texto_con_saltos` draws `Lines`, at most `max_lineas` of them, line `i` at `(x, y - i * 0.9 * size)` |
| Card.ImagePath | CATALOGOS.py:365-369 | the image path is empty exactly for a blank cell; otherwise it is the stripped cell name itself when that name is absolute (starts with `/`), and `imagenes/` plus the name otherwise |
| Card.ProductCard | productos.py:66-115 | `draw_product_card`'s template. The code strip lies in the card, flush with its top-left corner. The code is centred across the strip, its baseline inside it. The image box lies in the card, clear of the strip, with the placeholder text centred in it. The description is anchored at `(x + 3 cm, y + 1.4 cm)`, centred on the card, above the bottom edge and below the image box, has 0.6 cm margins and at most 3 lines. The triangle's right angle is the card's bottom-right corner and all three vertices lie in the card |
| Card.DrawDescription | productos.py:100-112 | the description is drawn as the wrap of the text at width `w - 1.2 cm`, at most 3 lines; line `i` is centred on the card at baseline `y + 1.4 cm - i * 0.9 * 9`, inside the card; a multi-word line keeps 0.6 cm clear of both sides |
| Card.ShownIffStripNonEmpty | CATALOGOS.py:310 | a unit column is shown exactly when its cell is present and `str(v).strip()` is non-empty |
| Card.AddColumn | CATALOGOS.py:310-318 | each `if` step keeps the table exactly the shown columns so far, in column order, with their values |
| Card.BuildUnitTable | CATALOGOS.py:308-318 | `headers` and `values` have equal length at most 3; a column is present exactly when its cell is shown; columns keep the order UND, BULTO, UND.VENTA; each value is the cell of its column |
| Card.ColumnCentre | CATALOGOS.py:321-325 | the centre `x + (w / n)(i + 1/2)` of column `i` of `n`; `ColumnCentres` and `ColumnCentreInside` state where it lies |
| Card.ColumnCentres | CATALOGOS.py:321-325 | for 2 or 3 columns the centres `x + (w/n)(i + 1/2)` increase strictly from left to right and lie strictly inside the card |
| Card.ColumnCentreInside | CATALOGOS.py:321-328 | every column centre lies strictly inside `(x, x + w)` |
| Card.DrawRow | CATALOGOS.py:324-325 | one run per text, in order, text `i` centred on column `i` at the given baseline |
| Card.DrawUnitTable | CATALOGOS.py:320-328 | nothing is drawn when no column is shown; otherwise each header is drawn over its column 0.5 cm above the card's bottom, then each value verbatim 0.4 cm lower in the same column, all inside the card's width |
| Pagination.Log | CATALOGOS.py:355-398 | the drawing after `n` rows in closed form: the first header, then for each row its card and, when the card fills its page, the break; the class is proved to build it, and `CardPlacement`, `ShowPageCount`, `FooterCount` and `BreakOrder` state its content |
| Pagination.Advance | CATALOGOS.py:383-398 | before each placement the page position is below the page's quota. A break follows a card exactly when it fills the quota, and then the next card is slot 0 of the next page. Otherwise it is the next slot of the same page |
| Pagination.QuotasAgree | CATALOGOS.py:352-353 | the quotas written as literals in the closed form are `first_page_limit = 9` and `other_pages_limit = 12`, the values the loop uses |
| Pagination.PageQuota | CATALOGOS.py:352-353 | the first page holds cards 0 to 8 and page `p >= 1` holds the 12 cards from `9 + 12(p-1)`; a card's slot is its offset from its page's first card |
| Pagination.ColumnWrappedAtBreak | CATALOGOS.py:385-397 | at every page break the column counter has already wrapped to 0 |
| Pagination.RowAdvance | CATALOGOS.py:384-398 | one pass of the row loop on the counters of card `k`: `products_on_page + 1 >= page_limit` holds exactly at the closed-form breaks, and the updated `col`, `y` and `products_on_page` are those of card `k + 1` (after a break, the column was at 2 and the next card starts the next page) |
| Pagination.NextPosition | CATALOGOS.py:382-398 | after a card, `col` advances modulo 3 and `y` drops by `row_step` when it wraps; after a break the next card is at slot 0 of the next page, at its start `y`, with quota 12 |
| Pagination.CardPosition | CATALOGOS.py:380-387 | the card in slot `k` of a page lands at `x_positions[k mod 3]`, `start_y - (k div 3) * row_step`, and `k mod 3` indexes `x_positions` |
| Pagination.ShowPageCount | main.py:144-151 | for `N` rows `showPage` is called 0 times if `N < 9`, else `1 + (N - 9) div 12` times |
| Pagination.FooterCount | main.py:144-146 | for `N` rows `main.py` draws as many footers as it calls `showPage`, `PageOf(N)`; `CATALOGOS.py` draws none |
| Pagination.BreakOrder | main.py:144-148 | every footer is immediately followed by `showPage` (so the final page, ended by `save`, gets none); every `showPage` is immediately followed by the next header and, in `main.py`, immediately preceded by a footer |
| Pagination.TrailingHeaderOnlyPage | main.py:144-151 | the drawing ends with a next-page header, leaving the last page with only a header, exactly when the row count hits a quota (9, 21, 33, ...) |
| Pagination.CardPlacement | CATALOGOS.py:364-387 | the drawing of rows `0..r-1` is a proper prefix of the whole drawing and card `r` is the event right after it, at `x_positions[slot mod 3]` and its row's `y`, with exactly `PageOf(r)` page breaks before it |
| Pagination.CardsInsidePage | main.py:122-148 | in both variants every card lies on the page and below its page's header |
| Pagination.CardsDisjoint | CATALOGOS.py:350-351 | two different cards on the same page never overlap |
| Pagination.FooterBandCollision | main.py:144-148 | in `main.py` the first page's cards clear the 13 cm by 2 cm footer band; on later pages the bottom row's first two cards overlap it and the upper rows clear it |
| Pagination.Paginator.constructor | CATALOGOS.py:355-362 | the first header is drawn; `y` is `PAGE_HEIGHT - h1 - 6 cm`; `col` and `products_on_page` are 0, the quota is 9 and the page number 1 |
| Pagination.Paginator.TurnPage | CATALOGOS.py:389-398 | a break draws the footer (`main.py` only), `showPage` and the next header; it sets `y` to `PAGE_HEIGHT - hN - 6.4 cm`, resets the counters, sets the quota to 12 and adds one to the page number |
| Pagination.Paginator.PlaceRow | CATALOGOS.py:380-398 | `col` is in 0..2 before the placement; the card is drawn at `(x_positions[col], y)`; a break happens exactly after the 9th card and every 12th card after it; at a break the counters reset, the page number grows by 1 and the quota becomes 12 and stays 12; the loop invariant `Valid` is kept |
| Pagination.Generate | CATALOGOS.py:355-400 | the whole drawing for the spreadsheet's rows is the first header, `Log` of the row count, then `save` |
| HexColor.DollarIrrelevantAfterStrip | CATALOGOS.py:431-432 | on a stripped entry the pattern's `$` cannot match before a final newline, so the match is the plain pattern |
| HexColor.RegexMatches | CATALOGOS.py:432 | `re.match(r"^#?[0-9A-Fa-f]{6}$", s)`: an optional `#` then six hex digits, where `$` also matches before one final newline; `AcceptedIffRegex` ties the accepted entries to it |
| HexColor.NormalizeHex | CATALOGOS.py:430-436 | an entry is accepted exactly when, stripped, it is six hex digits with or without a leading `#`; the accepted colour is `#` plus those six digits, unchanged in case |
| HexColor.AcceptedIffRegex | CATALOGOS.py:432 | the accepted entries are exactly those whose stripped text matches `^#?[0-9A-Fa-f]{6}$` |
| HexColor.NormalizeKeepsColour | CATALOGOS.py:435-436 | a colour already of the form `#` plus six hex digits is accepted unchanged |
| HexColor.NormalizeIdempotent | CATALOGOS.py:432-436 | normalising an accepted colour again gives the same colour |
| HexColor.StartGeneration | main.py:189-200 | generation starts exactly when the colour entry is blank or accepted; the title is the stripped title, or `CATALOGO` when blank; a blank colour entry keeps the picked colour; otherwise the colour is the normalised entry |
| HexColor.TitleIsClean | main.py:190 | the title handed on is never empty and neither starts nor ends with whitespace |
| HexColor.DefaultColourAccepted | main.py:186 | the initial colour entry `#63B7FF` passes the check unchanged |

## Left out

- Drawing and PDF output (`rect`, `drawPath`, `drawImage`, `drawCentredString`, `showPage`, `save`, colours, fonts) are foreign calls. They are modelled only as the placed text runs, template rectangles and pagination events; the content of a card is not part of a `PlaceCard` event.
- `stringWidth` is the parameter `width`; nothing is assumed about it except, in `OverwideWordStandsAlone`, that widening text never makes it narrower. Font registration and `get_font_name` are not modelled.
- Reading the spreadsheet (`read_excel`, `iterrows`) is left out. A row is a `ProductRecord`, with `None` for a cell `pd.notna` rejects and `Some(str(v))` otherwise; the text pandas gives a value (`"nan"`, `"12.0"`) is library behaviour.
- Image loading and fitting (`ImageReader`, `preserveAspectRatio`, `imagenes.py`) is left out. Which of the image and the placeholder is drawn depends on the file system, so the template carries both boxes.
- The headers and the footer are decorative drawing. Only the heights the header functions return and the footer band's 13 cm by 2 cm size are used.
- The Tk windows, the colour picker dialog and the message boxes are left out. The picked colour is the `chosen` parameter of `StartGeneration`.
- Converting the colour with `colors.HexColor`, and `CATALOGOS.py`'s fallback to `#63B7FF` when the conversion raises, are left out; the colour stays the normalised string.
- Only the `productos.py` card template is modelled. The inline cards of `CATALOGOS.py` and `main.py` use other offsets (image at 1.4 cm, 5 cm by 2.5 cm; the description at the top, in both `CATALOGOS.py` and `main.py` (main.py:91)) and are not part of this model; the `CATALOGOS.py` unit table is.
- `draw_code_background` in `CATALOGOS.py` (its own strip and the code anchor it returns) is not part of this model.
- The ellipsis trim loop of `CATALOGOS.py` (lines 90-92) is not modelled as a loop: `WrapWithEllipsis` proves that the block either is never entered or fails at `lineas[-1]` before the loop starts.
- The `page_number` counter exists only in `CATALOGOS.py`; `Paginator` keeps it for both variants, and it has no other effect.
- `ImagePath` follows POSIX `os.path.join`; Windows drive letters and backslashes are not modelled.
- ImagePath: the path is computed from the raw image cell `ProductRecord.image`, but nothing passes it on; no event carries it, because loading the image is left out.
- The last page gets no footer (main.py:144-151). When the row count is 9 + 12m, the log ends with a page holding only the next header. Unit values are drawn as `str(v)` (CATALOGOS.py:328), with no number formatting. `CATALOGOS.py` draws no footer at all.
