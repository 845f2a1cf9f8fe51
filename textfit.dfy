/**
 * Greedy word wrapping of a product description (`dividir_texto_en_lineas`) and the
 * placement of the wrapped lines (`dibujar_texto_con_saltos`).
 *
 * The measuring function `stringWidth(text, font, size)` of reportlab is taken as an
 * arbitrary `width: string -> real` with the font and the size already fixed.
 *
 * The loop that builds the lines is the same in all three copies of the wrapper; the
 * copies differ only in how they finish: CATALOGOS.py runs an ellipsis-truncation block,
 * main.py and productos.py take the slice `lineas[:max_lineas]`.
 */
module TextFit {
  import opened Words
  import opened Outcomes

  // ---------------------------------------------------------------------------
  // Specification of the loop
  // ---------------------------------------------------------------------------

  /** The candidate line: the current line, a space and the next word, or the word alone. */
  function Trial(cur: string, w: string): string {
    if cur != "" then cur + " " + w else w
  }

  /**
   * What the loop leaves in `(lineas, linea_actual)` after it has seen `words`, starting
   * from `(lines, cur)`. The loop stops early once a flush brings the number of lines to
   * `maxLines`; the word that caused the flush is then the current line.
   */
  function Fill(words: seq<string>, limit: real, width: string -> real, maxLines: int,
                lines: seq<string>, cur: string): (r: (seq<string>, string))
    ensures lines <= r.0
    decreases |words|
  {
    if words == [] then (lines, cur)
    else
      var trial := Trial(cur, words[0]);
      if width(trial) <= limit then
        Fill(words[1..], limit, width, maxLines, lines, trial)
      else
        var flushed := if cur != "" then lines + [cur] else lines;
        if |flushed| >= maxLines then (flushed, words[0])
        else Fill(words[1..], limit, width, maxLines, flushed, words[0])
  }

  /** The final append after the loop: the current line is kept only while there is room. */
  function Flush(state: (seq<string>, string), maxLines: int): seq<string> {
    if state.1 != "" && |state.0| < maxLines then state.0 + [state.1] else state.0
  }

  /** The lines the shared loop builds from `text`. */
  function Lines(text: string, limit: real, width: string -> real, maxLines: int): seq<string> {
    Flush(Fill(Split(text), limit, width, maxLines, [], ""), maxLines)
  }

  /** The most lines the loop can build: `maxLines`, or one when `maxLines` is not positive. */
  function Cap(maxLines: int): nat {
    if maxLines >= 1 then maxLines else 1
  }

  /** A line is non-empty, is its own words joined by single spaces, and fits unless it is one word. */
  predicate GoodLine(line: string, limit: real, width: string -> real) {
    line != "" && line == JoinSpace(Split(line)) && (|Split(line)| >= 2 ==> width(line) <= limit)
  }

  predicate GoodState(lines: seq<string>, cur: string, limit: real, width: string -> real) {
    (forall i {:trigger GoodLine(lines[i], limit, width)} :: 0 <= i < |lines| ==> GoodLine(lines[i], limit, width))
    && (cur == "" || GoodLine(cur, limit, width))
  }

  /** Reportlab's string width grows when text is added on either side of a space. */
  ghost predicate Monotone(width: string -> real) {
    forall a: string, b: string :: width(a) <= width(a + " " + b) && width(b) <= width(a + " " + b)
  }

  // ---------------------------------------------------------------------------
  // Properties of the specification
  // ---------------------------------------------------------------------------

  lemma WordsOfSnoc(lines: seq<string>, line: string)
    ensures WordsOf(lines + [line]) == WordsOf(lines) + Split(line)
  {
    assert (lines + [line])[..|lines|] == lines;
  }

  lemma SplitEmpty()
    ensures Split("") == []
  {
  }

  lemma TrialFacts(cur: string, w: string, limit: real, width: string -> real)
    requires IsWord(w)
    requires cur == "" || GoodLine(cur, limit, width)
    ensures Trial(cur, w) != ""
    ensures Split(Trial(cur, w)) == Split(cur) + [w]
    ensures Trial(cur, w) == JoinSpace(Split(Trial(cur, w)))
  {
    SplitWord(w);
    SplitEmpty();
    if cur != "" {
      SplitAtSpace(cur, ' ', w);
      assert cur + " " + w == cur + [' '] + w;
      assert Split(cur) != [];
      JoinSpaceSnoc(Split(cur), w);
    }
  }

  /** What holds of a result `r` of `Fill` started from `(lines, cur)` on `words`. */
  ghost predicate FillPost(words: seq<string>, limit: real, width: string -> real, maxLines: int,
                           lines: seq<string>, cur: string, r: (seq<string>, string))
  {
    && GoodState(r.0, r.1, limit, width)
    && |r.0| <= Cap(maxLines)
    && WordsOf(r.0) + Split(r.1) <= WordsOf(lines) + Split(cur) + words
    && (|r.0| < maxLines ==> WordsOf(r.0) + Split(r.1) == WordsOf(lines) + Split(cur) + words)
  }

  /** A flush adds the current line, if there is one, to the finished lines. */
  lemma FlushStep(lines: seq<string>, cur: string, w: string, limit: real, width: string -> real)
    requires GoodState(lines, cur, limit, width)
    requires IsWord(w)
    ensures var flushed := if cur != "" then lines + [cur] else lines;
      && GoodState(flushed, w, limit, width)
      && WordsOf(flushed) == WordsOf(lines) + Split(cur)
      && |flushed| <= |lines| + 1
  {
    WordsOfSnoc(lines, cur);
    SplitEmpty();
    SplitWord(w);
    assert GoodLine(w, limit, width);
  }

  lemma ShiftWord(done: seq<string>, done': seq<string>, words: seq<string>)
    requires words != [] && done' == done + [words[0]]
    ensures done' + words[1..] == done + words
  {
    assert words == [words[0]] + words[1..];
  }

  /** A result for the words after `words[0]`, from a state that has taken `words[0]` in, is a result for `words`. */
  lemma FillPostShift(words: seq<string>, limit: real, width: string -> real, maxLines: int,
                      lines: seq<string>, cur: string, lines': seq<string>, cur': string, r: (seq<string>, string))
    requires words != []
    requires WordsOf(lines') + Split(cur') == WordsOf(lines) + Split(cur) + [words[0]]
    requires FillPost(words[1..], limit, width, maxLines, lines', cur', r)
    ensures FillPost(words, limit, width, maxLines, lines, cur, r)
  {
    ShiftWord(WordsOf(lines) + Split(cur), WordsOf(lines') + Split(cur'), words);
  }

  /** A word that fits joins the current line, which stays a good line. */
  lemma FitStep(lines: seq<string>, cur: string, w: string, limit: real, width: string -> real)
    requires GoodState(lines, cur, limit, width)
    requires IsWord(w) && width(Trial(cur, w)) <= limit
    ensures GoodState(lines, Trial(cur, w), limit, width)
    ensures WordsOf(lines) + Split(Trial(cur, w)) == WordsOf(lines) + Split(cur) + [w]
  {
    TrialFacts(cur, w, limit, width);
    assert GoodLine(Trial(cur, w), limit, width);
  }

  /** A word that does not fit, once the flush has used up the line budget, ends the loop. */
  lemma StopStep(words: seq<string>, limit: real, width: string -> real, maxLines: int,
                 lines: seq<string>, cur: string)
    requires words != [] && IsWord(words[0])
    requires GoodState(lines, cur, limit, width)
    requires |lines| < Cap(maxLines)
    requires width(Trial(cur, words[0])) > limit
    requires |if cur != "" then lines + [cur] else lines| >= maxLines
    ensures FillPost(words, limit, width, maxLines, lines, cur, Fill(words, limit, width, maxLines, lines, cur))
  {
    var w := words[0];
    var flushed := if cur != "" then lines + [cur] else lines;
    FlushStep(lines, cur, w, limit, width);
    SplitWord(w);
    assert Fill(words, limit, width, maxLines, lines, cur) == (flushed, w);
    assert [w] <= words;
  }

  /**
   * One pass of the loop on the word `words[0]`: either it stops there with the invariant
   * holding of its result, or it goes on from a state that keeps the invariant and has taken
   * the word in.
   */
  lemma FillStep(words: seq<string>, limit: real, width: string -> real, maxLines: int,
                 lines: seq<string>, cur: string) returns (lines': seq<string>, cur': string, stop: bool)
    requires words != [] && IsWord(words[0])
    requires GoodState(lines, cur, limit, width)
    requires |lines| < Cap(maxLines)
    // a word that fits joins the current line; one that does not flushes it and starts the next
    ensures width(Trial(cur, words[0])) <= limit ==> lines' == lines && cur' == Trial(cur, words[0])
    ensures width(Trial(cur, words[0])) > limit ==> lines' == (if cur != "" then lines + [cur] else lines) && cur' == words[0]
    // the loop breaks exactly when such a flush uses up the line budget
    ensures stop <==> width(Trial(cur, words[0])) > limit && |if cur != "" then lines + [cur] else lines| >= maxLines
    ensures stop ==> FillPost(words, limit, width, maxLines, lines, cur, Fill(words, limit, width, maxLines, lines, cur))
    ensures !stop ==> && Fill(words, limit, width, maxLines, lines, cur) == Fill(words[1..], limit, width, maxLines, lines', cur')
                      && GoodState(lines', cur', limit, width) && |lines'| < Cap(maxLines)
                      && WordsOf(lines') + Split(cur') == WordsOf(lines) + Split(cur) + [words[0]]
  {
    var w := words[0];
    if width(Trial(cur, w)) <= limit {
      FitStep(lines, cur, w, limit, width);
      lines', cur', stop := lines, Trial(cur, w), false;
    } else {
      lines', cur' := if cur != "" then lines + [cur] else lines, w;
      stop := |lines'| >= maxLines;
      if stop {
        StopStep(words, limit, width, maxLines, lines, cur);
      } else {
        FlushStep(lines, cur, w, limit, width);
        SplitWord(w);
      }
    }
  }

  /** The loop's invariant, carried through the whole recursion. */
  lemma {:induction false} FillFacts(words: seq<string>, limit: real, width: string -> real, maxLines: int,
                                     lines: seq<string>, cur: string)
    requires forall i :: 0 <= i < |words| ==> IsWord(words[i])
    requires GoodState(lines, cur, limit, width)
    requires |lines| < Cap(maxLines)
    ensures FillPost(words, limit, width, maxLines, lines, cur, Fill(words, limit, width, maxLines, lines, cur))
    decreases |words|
  {
    if words != [] {
      var lines', cur', stop := FillStep(words, limit, width, maxLines, lines, cur);
      if !stop {
        FillFacts(words[1..], limit, width, maxLines, lines', cur');
        FillPostShift(words, limit, width, maxLines, lines, cur, lines', cur', Fill(words, limit, width, maxLines, lines, cur));
      }
    }
  }

  /**
   * Everything the wrapper promises about its lines: how many there are, that each is
   * non-empty and single-spaced, that read back they are an in-order prefix of the
   * words of `text` (all of them unless the line budget is used up), and that only a
   * single-word line may exceed the width limit.
   */
  lemma LinesFacts(text: string, limit: real, width: string -> real, maxLines: int)
    ensures var ls := Lines(text, limit, width, maxLines);
      && |ls| <= Cap(maxLines)
      && (forall i :: 0 <= i < |ls| ==> GoodLine(ls[i], limit, width))
      && WordsOf(ls) <= Split(text)
      && (|ls| < maxLines ==> WordsOf(ls) == Split(text))
  {
    var words := Split(text);
    SplitEmpty();
    SplitGivesWords(text);
    FillFacts(words, limit, width, maxLines, [], "");
    var r := Fill(words, limit, width, maxLines, [], "");
    assert FillPost(words, limit, width, maxLines, [], "", r);
    assert WordsOf([]) + Split("") + words == words;
    if r.1 != "" && |r.0| < maxLines {
      WordsOfSnoc(r.0, r.1);
    } else {
      assert WordsOf(r.0) <= WordsOf(r.0) + Split(r.1);
    }
  }

  /** With at least one line allowed, the loop never builds more: the block at CATALOGOS.py:87 never runs. */
  lemma EllipsisBlockUnreachable(text: string, limit: real, width: string -> real, maxLines: int)
    requires maxLines >= 1
    ensures |Lines(text, limit, width, maxLines)| <= maxLines
  {
    LinesFacts(text, limit, width, maxLines);
  }

  /** Whitespace-only text gives no lines; with room for a line, other text gives at least one. */
  lemma BlankTextGivesNoLines(text: string, limit: real, width: string -> real, maxLines: int)
    requires maxLines >= 1
    ensures Lines(text, limit, width, maxLines) == [] <==> Blank(text)
  {
    LinesFacts(text, limit, width, maxLines);
    SplitEmptyIffBlank(text);
    SplitEmpty();
  }

  lemma {:induction false} WordsWithinJoin(ws: seq<string>, width: string -> real, k: nat)
    requires Monotone(width)
    requires k < |ws|
    ensures width(ws[k]) <= width(JoinSpace(ws))
    decreases |ws|
  {
    if |ws| > 1 {
      var init := ws[..|ws| - 1];
      assert JoinSpace(ws) == JoinSpace(init) + " " + ws[|ws| - 1];
      assert width(JoinSpace(init)) <= width(JoinSpace(ws));
      assert width(ws[|ws| - 1]) <= width(JoinSpace(ws));
      if k < |ws| - 1 {
        WordsWithinJoin(init, width, k);
      }
    }
  }

  /**
   * When adding text never makes it narrower, as for reportlab's width, a word wider than
   * the limit is a line of its own.
   */
  lemma OverwideWordStandsAlone(text: string, limit: real, width: string -> real, maxLines: int, i: nat, k: nat)
    requires Monotone(width)
    requires i < |Lines(text, limit, width, maxLines)|
    requires k < |Split(Lines(text, limit, width, maxLines)[i])|
    requires width(Split(Lines(text, limit, width, maxLines)[i])[k]) > limit
    ensures Lines(text, limit, width, maxLines)[i] == Split(Lines(text, limit, width, maxLines)[i])[k]
  {
    LinesFacts(text, limit, width, maxLines);
    var line := Lines(text, limit, width, maxLines)[i];
    var ws := Split(line);
    if |ws| >= 2 {
      WordsWithinJoin(ws, width, k);
      assert false;
    }
  }

  // ---------------------------------------------------------------------------
  // The three copies of `dividir_texto_en_lineas`
  // ---------------------------------------------------------------------------

  /** The loop and the final append shared by all three copies. */
  method BuildLines(text: string, limit: real, width: string -> real, maxLines: int)
    returns (lines: seq<string>)
    ensures lines == Lines(text, limit, width, maxLines)
  {
    var words := Split(text);
    lines := [];
    var cur := "";
    var i := 0;
    while i < |words|
      invariant 0 <= i <= |words|
      invariant Fill(words[i..], limit, width, maxLines, lines, cur)
             == Fill(words, limit, width, maxLines, [], "")
    {
      var w := words[i];
      assert words[i..][1..] == words[i + 1..];
      var trial := if cur != "" then cur + " " + w else w;
      if width(trial) <= limit {
        cur := trial;
      } else {
        if cur != "" {
          lines := lines + [cur];
        }
        cur := w;
        if |lines| >= maxLines {
          assert (lines, cur) == Fill(words, limit, width, maxLines, [], "");
          break;
        }
      }
      i := i + 1;
    }
    assert (lines, cur) == Fill(words, limit, width, maxLines, [], "");
    if cur != "" && |lines| < maxLines {
      lines := lines + [cur];
    }
  }

  datatype WrapError = IndexError

  /** Python's `s[:m]`: a negative `m` counts from the end. */
  function PyPrefix<T>(s: seq<T>, m: int): (r: seq<T>)
    ensures r <= s
    ensures |r| == if m >= 0 then (if m < |s| then m else |s|) else (if |s| + m > 0 then |s| + m else 0)
  {
    if m >= 0 then (if m < |s| then s[..m] else s)
    else if |s| + m > 0 then s[..|s| + m] else []
  }

  /**
   * The CATALOGOS.py copy. Its truncation block runs only when the loop built more lines
   * than `max_lineas`; that happens only for `max_lineas <= 0`, and then the kept prefix
   * is empty, so `lineas[-1]` raises IndexError before the ellipsis loop starts.
   */
  method WrapWithEllipsis(text: string, limit: real, width: string -> real, maxLines: int)
    returns (r: Result<seq<string>, WrapError>)
    ensures r.Success? ==> r.value == Lines(text, limit, width, maxLines)
    ensures r.Failure? <==> maxLines < 0 || (maxLines == 0 && Lines(text, limit, width, maxLines) != [])
  {
    var lines := BuildLines(text, limit, width, maxLines);
    LinesFacts(text, limit, width, maxLines);
    if |lines| > maxLines {
      var kept := PyPrefix(lines, maxLines);
      // `kept[-1]` has nothing to index
      assert kept == [];
      r := Failure(IndexError);
    } else {
      r := Success(lines);
    }
  }

  /** The main.py and productos.py copy, which ends with `lineas[:max_lineas]`. */
  method WrapSliced(text: string, limit: real, width: string -> real, maxLines: int)
    returns (lines: seq<string>)
    ensures maxLines >= 1 ==> lines == Lines(text, limit, width, maxLines)
    ensures maxLines <= 0 ==> lines == []
  {
    var built := BuildLines(text, limit, width, maxLines);
    LinesFacts(text, limit, width, maxLines);
    lines := PyPrefix(built, maxLines);
  }

  // ---------------------------------------------------------------------------
  // `dibujar_texto_con_saltos`
  // ---------------------------------------------------------------------------

  /** One `drawCentredString(x, y, text)` call. */
  datatype TextRun = TextRun(x: real, y: real, text: string)

  /** The distance between the baselines of consecutive lines: 0.9 times the font size. */
  function LineSpacing(fontSize: real): real {
    fontSize * 0.9
  }

  /** Line i is centred on `x`, `i` line spacings below `y`, one run per line in order. */
  method PlaceLines(x: real, y: real, lines: seq<string>, fontSize: real) returns (runs: seq<TextRun>)
    ensures |runs| == |lines|
    ensures forall i :: 0 <= i < |runs| ==>
      runs[i] == TextRun(x, y - i as real * LineSpacing(fontSize), lines[i])
  {
    var spacing := LineSpacing(fontSize);
    runs := [];
    for i := 0 to |lines|
      invariant |runs| == i
      invariant forall k :: 0 <= k < i ==> runs[k] == TextRun(x, y - k as real * spacing, lines[k])
    {
      runs := runs + [TextRun(x, y - i as real * spacing, lines[i])];
    }
  }

  /** Wrap `text` as main.py and productos.py do, then place its lines. */
  method DrawWrapped(x: real, y: real, text: string, limit: real, width: string -> real,
                     fontSize: real, maxLines: int) returns (runs: seq<TextRun>)
    ensures maxLines <= 0 ==> runs == []
    ensures maxLines >= 1 ==> |runs| == |Lines(text, limit, width, maxLines)| <= maxLines
    ensures forall i :: 0 <= i < |runs| ==>
      runs[i] == TextRun(x, y - i as real * LineSpacing(fontSize), Lines(text, limit, width, maxLines)[i])
  {
    var lines := WrapSliced(text, limit, width, maxLines);
    if maxLines >= 1 {
      EllipsisBlockUnreachable(text, limit, width, maxLines);
    }
    runs := PlaceLines(x, y, lines, fontSize);
  }
}
