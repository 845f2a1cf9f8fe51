/**
 * The colour check of the two launch forms: the entry is stripped, must match
 * `^#?[0-9A-Fa-f]{6}$`, and gets a `#` in front when it has none. main.py's form also
 * defaults the catalogue title and falls back to the colour picked with the picker.
 */
module HexColor {
  import opened Words
  import opened Outcomes

  /** The colour both forms start from. */
  const DefaultColour: string := "#63B7FF"

  /** The title main.py uses when the title entry is left blank. */
  const DefaultTitle: string := "CATALOGO"

  predicate IsHexDigit(c: char) {
    '0' <= c <= '9' || 'A' <= c <= 'F' || 'a' <= c <= 'f'
  }

  /** Exactly six hexadecimal digits. */
  predicate SixHexDigits(s: string) {
    |s| == 6 && forall i :: 0 <= i < 6 ==> IsHexDigit(s[i])
  }

  /** The body of the pattern: an optional `#`, then six hexadecimal digits. */
  predicate PatternBody(s: string) {
    SixHexDigits(s) || (s != [] && s[0] == '#' && SixHexDigits(s[1..]))
  }

  /** `re.match` with the pattern anchored by `^` and `$`; Python's `$` also matches before one final newline. */
  predicate RegexMatches(s: string) {
    PatternBody(s) || (s != [] && s[|s| - 1] == '\n' && PatternBody(s[..|s| - 1]))
  }

  /** A colour as the forms hand it on: `#` and six hexadecimal digits. */
  predicate IsHexColour(s: string) {
    |s| == 7 && s[0] == '#' && SixHexDigits(s[1..])
  }

  /** The entry the forms accept: once stripped, a colour with or without its `#`. */
  predicate Accepted(entry: string) {
    var s := Strip(entry);
    IsHexColour(s) || IsHexColour("#" + s)
  }

  /** The stripped entry never ends in a newline, so the `$` subtlety never comes into play. */
  lemma DollarIrrelevantAfterStrip(entry: string)
    ensures RegexMatches(Strip(entry)) <==> PatternBody(Strip(entry))
  {
    var s := Strip(entry);
    if s != [] {
      assert IsSpace('\n');
      assert s[|s| - 1] != '\n';
    }
  }

  /** `start` in CATALOGOS.py, and the typed-colour branch of main.py: the colour used, or `None` when the error box is shown. */
  function NormalizeHex(entry: string): (r: Option<string>)
    ensures r.Some? <==> Accepted(entry)
    ensures r.Some? ==> IsHexColour(r.value)
    ensures r.Some? ==> r.value[1..] == Strip(entry)[|Strip(entry)| - 6..]
  {
    var s := Strip(entry);
    DollarIrrelevantAfterStrip(entry);
    assert "#" + s == ['#'] + s && ("#" + s)[1..] == s;
    if !RegexMatches(s) then None
    else if s[0] == '#' then Some(s)
    else Some("#" + s)
  }

  /** The accepted entries are exactly those whose stripped text `re.match` accepts. */
  lemma AcceptedIffRegex(entry: string)
    ensures Accepted(entry) <==> RegexMatches(Strip(entry))
  {
    var r := NormalizeHex(entry);
  }

  /** A colour that is already normalised is accepted unchanged. */
  lemma NormalizeKeepsColour(h: string)
    requires IsHexColour(h)
    ensures NormalizeHex(h) == Some(h)
  {
    assert forall i :: 0 <= i < |h| ==> !IsSpace(h[i]) by {
      forall i | 0 <= i < |h|
        ensures !IsSpace(h[i])
      {
        if i > 0 {
          assert IsHexDigit(h[1..][i - 1]);
        }
      }
    }
    assert LeadingSpaces(h) == 0;
    assert TrailingSpaces(h) == 0;
    assert Strip(h) == h;
  }

  /** Normalising twice is normalising once. */
  lemma NormalizeIdempotent(entry: string)
    requires NormalizeHex(entry).Some?
    ensures NormalizeHex(NormalizeHex(entry).value) == NormalizeHex(entry)
  {
    NormalizeKeepsColour(NormalizeHex(entry).value);
  }

  /** What main.py's form hands to `generar_catalogo`. */
  datatype Settings = Settings(title: string, colour: string)

  /**
   * `start_generation` in main.py. `chosen` is the colour last picked with the picker (the
   * default colour if none was). A blank colour entry keeps it; a typed one must pass the
   * check, and generation does not start when it does not.
   */
  function StartGeneration(titleEntry: string, colourEntry: string, chosen: string): (r: Option<Settings>)
    ensures r.Some? <==> Blank(colourEntry) || Accepted(colourEntry)
    ensures r.Some? ==> r.value.title == (if Blank(titleEntry) then DefaultTitle else Strip(titleEntry))
    ensures r.Some? && Blank(colourEntry) ==> r.value.colour == chosen
    ensures r.Some? && !Blank(colourEntry) ==> IsHexColour(r.value.colour) && NormalizeHex(colourEntry) == Some(r.value.colour)
  {
    var title := if Strip(titleEntry) == "" then DefaultTitle else Strip(titleEntry);
    var manual := Strip(colourEntry);
    if manual == "" then Some(Settings(title, chosen))
    else match NormalizeHex(colourEntry)
      case None => None
      case Some(h) => Some(Settings(title, h))
  }

  /** The default title, and any stripped entry that is not blank, neither is empty nor starts or ends with whitespace. */
  lemma TitleChoiceIsClean(titleEntry: string)
    ensures var t := if Blank(titleEntry) then DefaultTitle else Strip(titleEntry);
      t != [] && !IsSpace(t[0]) && !IsSpace(t[|t| - 1])
  {
    if Blank(titleEntry) {
      assert DefaultTitle[0] == 'C' && DefaultTitle[|DefaultTitle| - 1] == 'O';
      assert 'C' !in SpaceChars && 'O' !in SpaceChars;
    }
  }

  /** The title handed on is never empty and never starts or ends with whitespace. */
  lemma TitleIsClean(titleEntry: string, colourEntry: string, chosen: string)
    requires StartGeneration(titleEntry, colourEntry, chosen).Some?
    ensures var t := StartGeneration(titleEntry, colourEntry, chosen).value.title;
      t != [] && !IsSpace(t[0]) && !IsSpace(t[|t| - 1])
  {
    TitleChoiceIsClean(titleEntry);
  }

  /** The forms' initial colour entry passes the check as it stands. */
  lemma DefaultColourAccepted()
    ensures IsHexColour(DefaultColour)
    ensures NormalizeHex(DefaultColour) == Some(DefaultColour)
  {
    assert DefaultColour[1..] == "63B7FF";
    NormalizeKeepsColour(DefaultColour);
  }
}
