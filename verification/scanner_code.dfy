/** The "encoded" placeholder text of the card stream: `generateCode` fills a
    `width * height` run of characters drawn at random from a fixed alphabet and
    cuts it into `height` lines of `width` characters, each ended by a newline.
    The random numbers are an input: one draw in [0, 1) per character. */
module ScannerCode {

  /** The alphabet the placeholder text is drawn from. */
  const AsciiChars: string :=
    "abcdefghijklmnopqrstuvwxyzABCDEFGHIJKLMNOPQRSTUVWXYZ0123456789(){}[]<>;:,._-+=!@#$%^&*|\\/\"'`~?"

  /** The grid a card's placeholder uses: `floor(384 / 7)` columns by `floor(220 / 14)` rows. */
  const CodeColumns: nat := 54
  const CodeRows: nat := 15

  /** A value `Math.random()` can return. */
  predicate IsDraw(r: real) { 0.0 <= r < 1.0 }

  predicate AllDraws(draws: seq<real>) { forall k :: 0 <= k < |draws| ==> IsDraw(draws[k]) }

  /** `ASCII_CHARS[Math.floor(r * ASCII_CHARS.length)]`. */
  function Glyph(r: real): (c: char)
    requires IsDraw(r)
    ensures c in AsciiChars
  {
    var k := (r * |AsciiChars| as real).Floor;
    assert 0 <= k < |AsciiChars|;
    AsciiChars[k]
  }

  /** One glyph per draw, in order. */
  function Glyphs(draws: seq<real>): (text: string)
    requires AllDraws(draws)
    ensures |text| == |draws|
    ensures forall k :: 0 <= k < |text| ==> text[k] == Glyph(draws[k])
  {
    seq(|draws|, k requires 0 <= k < |draws| => Glyph(draws[k]))
  }

  /** `w * h`, counted row by row, so that row offsets are sums rather than
      products. */
  function Area(w: nat, h: nat): nat
  {
    if h == 0 then 0 else Area(w, h - 1) + w
  }

  lemma {:induction false} AreaIsProduct(w: nat, h: nat)
    ensures Area(w, h) == w * h
  {
    if h > 0 {
      AreaIsProduct(w, h - 1);
      assert w * h == w * (h - 1) + w;
    }
  }

  /** The first `h` rows of `text`, `w` characters each, every row ended by "\n". */
  function Lines(text: string, w: nat, h: nat): (out: string)
    requires Area(w, h) <= |text|
    ensures |out| == Area(w + 1, h)
  {
    if h == 0 then ""
    else Lines(text, w, h - 1) + (text[Area(w, h - 1) .. Area(w, h)] + "\n")
  }

  /** `h` rows of `w` characters and a newline make `h * (w + 1)` characters. */
  lemma LinesLength(text: string, w: nat, h: nat)
    requires Area(w, h) <= |text|
    ensures |Lines(text, w, h)| == h * (w + 1)
  {
    AreaIsProduct(w + 1, h);
  }

  /** A row of placeholder text: `w` characters of `alphabet`, then a newline. */
  predicate IsCodeRow(row: string, w: nat, alphabet: string)
  {
    |row| == w + 1 && row[w] == '\n' && forall j :: 0 <= j < w ==> row[j] in alphabet
  }

  /** `h` rows of placeholder text, one after the other: the last `w + 1`
      characters are a row and what precedes them is a grid of `h - 1` rows. */
  predicate IsCodeGrid(code: string, w: nat, h: nat, alphabet: string)
    decreases h
  {
    if h == 0 then code == ""
    else
      |code| >= w + 1
      && IsCodeRow(code[|code| - (w + 1)..], w, alphabet)
      && IsCodeGrid(code[..|code| - (w + 1)], w, h - 1, alphabet)
  }

  /** Fewer rows take no more characters. */
  lemma {:induction false} AreaMono(w: nat, k: nat, h: nat)
    requires k <= h
    ensures Area(w, k) <= Area(w, h)
  {
    if k < h {
      AreaMono(w, k, h - 1);
    }
  }

  /** Row `i` of a `w`-wide text starts at `i * w` and ends at `(i + 1) * w`,
      inside the `h` rows. */
  lemma RowOffsets(w: nat, h: nat, i: nat)
    requires i < h
    ensures Area(w, i) == i * w && Area(w, i + 1) == (i + 1) * w
    ensures Area(w, i + 1) <= Area(w, h)
  {
    AreaIsProduct(w, i);
    AreaIsProduct(w, i + 1);
    AreaMono(w, i + 1, h);
  }

  /** A grid of `h - 1` rows followed by one more row is a grid of `h` rows. */
  lemma GridAppend(prev: string, row: string, w: nat, h: nat, alphabet: string)
    requires h > 0 && IsCodeGrid(prev, w, h - 1, alphabet) && IsCodeRow(row, w, alphabet)
    ensures IsCodeGrid(prev + row, w, h, alphabet)
  {
    var code := prev + row;
    assert code[..|code| - (w + 1)] == prev;
    assert code[|code| - (w + 1)..] == row;
  }

  /** `w` characters of an alphabet and a newline make a row. */
  lemma RunIsRow(text: string, start: nat, w: nat, alphabet: string)
    requires start + w <= |text|
    requires forall k :: 0 <= k < |text| ==> text[k] in alphabet
    ensures IsCodeRow(text[start .. start + w] + "\n", w, alphabet)
  {
    var row := text[start .. start + w] + "\n";
    assert forall j :: 0 <= j < w ==> row[j] == text[start + j];
  }

  /** The text `Lines` builds from characters of an alphabet is a grid of `h`
      rows of `w` of those characters, each followed by a newline. */
  lemma {:induction false} LinesOfGlyphs(text: string, w: nat, h: nat, alphabet: string)
    requires Area(w, h) <= |text|
    requires forall k :: 0 <= k < |text| ==> text[k] in alphabet
    ensures IsCodeGrid(Lines(text, w, h), w, h, alphabet)
  {
    if h > 0 {
      LinesOfGlyphs(text, w, h - 1, alphabet);
      RunIsRow(text, Area(w, h - 1), w, alphabet);
      GridAppend(Lines(text, w, h - 1), text[Area(w, h - 1) .. Area(w, h)] + "\n", w, h, alphabet);
    }
  }

  /** The code block drawn from the first `w * h` draws: their glyphs, cut
      into `h` lines of `w`. */
  function Code(draws: seq<real>, w: nat, h: nat): (c: string)
    requires w * h <= |draws| && AllDraws(draws)
    ensures IsCodeGrid(c, w, h, AsciiChars)
  {
    AreaIsProduct(w, h);
    var text := Glyphs(draws[..w * h]);
    LinesOfGlyphs(text, w, h, AsciiChars);
    Lines(text, w, h)
  }

  /** The first loop of `generateCode`: `n` characters, one per draw. */
  method DrawGlyphs(n: nat, draws: seq<real>) returns (text: string)
    requires n <= |draws| && AllDraws(draws)
    ensures text == Glyphs(draws[..n])
    ensures forall k :: 0 <= k < |text| ==> text[k] in AsciiChars
  {
    text := "";
    for i := 0 to n
      invariant |text| == i
      invariant forall k :: 0 <= k < i ==> text[k] == Glyph(draws[k])
    {
      text := text + [Glyph(draws[i])];
    }
  }

  /** `generateCode(width, height)`: a first loop draws `width * height`
      characters, a second cuts them into `height` rows of `width`
      characters, each ended by a newline. */
  method GenerateCode(width: nat, height: nat, draws: seq<real>) returns (code: string)
    requires width * height <= |draws| && AllDraws(draws)
    ensures |code| == height * (width + 1)
    ensures IsCodeGrid(code, width, height, AsciiChars)
    ensures code == Code(draws, width, height)
  {
    var text := DrawGlyphs(width * height, draws);
    AreaIsProduct(width, height);
    var out := "";
    for i := 0 to height
      invariant Area(width, i) <= |text|
      invariant out == Lines(text, width, i)
    {
      RowOffsets(width, height, i);
      out := out + (text[i * width .. (i + 1) * width] + "\n");
    }
    code := out;
    LinesOfGlyphs(text, width, height, AsciiChars);
    LinesLength(text, width, height);
  }
}
