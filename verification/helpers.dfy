/** Pure text helpers of the user interface: the repeating motif of a binder
    card, its centred label, the card's line layout, and the message shown
    for an error chain. Lengths are counted in characters. */
module Helpers {
  import opened Outcomes
  import opened Text

  /** `row` written `k` times in a row (`str::repeat`). */
  function RepeatText(row: string, k: nat): (r: string)
    ensures |r| == k * |row|
  {
    if k == 0 then [] else row + RepeatText(row, k - 1)
  }

  /** Shifting by one motif length inside the repetition lands on the same
      character. */
  lemma {:induction false} RepeatTextShift(row: string, k: nat, i: nat)
    requires i + |row| < k * |row|
    ensures RepeatText(row, k)[i + |row|] == RepeatText(row, k)[i]
    decreases k
  {
    var n := |row|;
    assert k * n == n + (k - 1) * n;
    var rest := RepeatText(row, k - 1);
    assert RepeatText(row, k)[i + n] == rest[i];
    if i < n {
      assert (k - 1) * n > 0;
      assert k - 1 >= 1;
      assert (k - 1) * n == n + (k - 2) * n;
      assert rest[i] == row[i];
    } else {
      RepeatTextShift(row, k - 1, i - n);
    }
  }

  /** `repeat_pattern_row`: the motif repeated `width / |row| + 2` times and
      cut to `width`; blanks for an empty motif. */
  function RepeatPatternRow(row: string, width: nat): (r: string)
    ensures |r| == width
    ensures |row| == 0 ==> r == Repeat(' ', width)
  {
    if width == 0 then ""
    else if |row| == 0 then Repeat(' ', width)
    else
      var repeated := RepeatText(row, width / |row| + 2);
      assert (width / |row| + 2) * |row| >= width;
      repeated[..width]
  }

  /** The card's motif is periodic: the row starts with the motif and every
      later column repeats the column one motif length to its left. */
  lemma PatternRowPeriodic(row: string, width: nat)
    requires |row| > 0
    ensures var r := RepeatPatternRow(row, width);
      && (forall i | 0 <= i < width && i < |row| :: r[i] == row[i])
      && (forall i | |row| <= i < width :: r[i] == r[i - |row|])
  {
    var n := |row|;
    var k := width / n + 2;
    assert k * n == width / n * n + 2 * n;
    assert width / n * n + n > width;
    forall i | |row| <= i < width
      ensures RepeatPatternRow(row, width)[i] == RepeatPatternRow(row, width)[i - n]
    {
      RepeatTextShift(row, k, i - n);
    }
    forall i | 0 <= i < width && i < n
      ensures RepeatPatternRow(row, width)[i] == row[i]
    {
      assert k * n == n + (k - 1) * n;
    }
  }

  /** Column `i` of a tiled row shows motif character `i mod |row|`. */
  lemma {:induction false} PatternRowTiles(row: string, width: nat, i: nat)
    requires |row| > 0 && i < width
    ensures RepeatPatternRow(row, width)[i] == row[i % |row|]
    decreases i
  {
    var n := |row|;
    var r := RepeatPatternRow(row, width);
    PatternRowPeriodic(row, width);
    if i >= n {
      PatternRowTiles(row, width, i - n);
      ModShift(i, n);
      assert r[i] == r[i - n];
    } else {
      ModUnique(i, n, 0, i);
      assert r[i] == row[i];
    }
  }

  lemma MulNonneg(x: int, n: int)
    ensures x >= 0 && n >= 0 ==> x * n >= 0
  {
  }

  lemma SmallMultiple(d: int, n: int)
    requires n > 0 && -n < d * n < n
    ensures d == 0
  {
    MulNonneg(d - 1, n);
    MulNonneg(-d - 1, n);
    assert d * n == (d - 1) * n + n;
    assert -d * n == (-d - 1) * n + n;
  }

  lemma ModUnique(a: int, n: int, q: int, r: int)
    requires n > 0 && a == q * n + r && 0 <= r < n
    ensures a % n == r
  {
    assert a == a / n * n + a % n;
    assert (q - a / n) * n == a % n - r;
    SmallMultiple(q - a / n, n);
  }

  lemma ModShift(i: int, n: int)
    requires 0 < n <= i
    ensures (i - n) % n == i % n
  {
    assert i == i / n * n + i % n;
    assert i - n == (i / n - 1) * n + i % n;
    ModUnique(i - n, n, i / n - 1, i % n);
  }

  /** `"[ label ]"` around the trimmed label. */
  function Decorate(trimmed: string): (r: string)
    ensures |r| == |trimmed| + 4
  {
    "[ " + trimmed + " ]"
  }

  /** `binder_label_line`: the trimmed label in brackets, cut to `width`
      when longer, centred with the odd blank on the right; blanks when the
      label is blank. The closing pad-or-cut step is kept as written. */
  function BinderLabelLine(labelText: string, width: nat): (r: string)
    ensures |r| == width
    ensures IsBlank(labelText) ==> r == Repeat(' ', width)
    ensures !IsBlank(labelText) ==>
      r == Centre(Shown(labelText, width), width)
  {
    if width == 0 then ""
    else
      var trimmed := Trim(labelText);
      if trimmed == [] then Repeat(' ', width)
      else
        var line := Centre(Shown(labelText, width), width);
        FitTo(line, width)
  }

  /** The part of the decorated label that fits in `width`. */
  function Shown(labelText: string, width: nat): (r: string)
    ensures |r| <= width
  {
    var d := Decorate(Trim(labelText));
    if |d| > width then d[..width] else d
  }

  /** `shown` between blank margins whose sizes differ by at most one, the
      extra blank going right. */
  function Centre(shown: string, width: nat): (r: string)
    requires |shown| <= width
    ensures |r| == width
    ensures var left := (width - |shown|) / 2;
      && r[..left] == Repeat(' ', left)
      && r[left..left + |shown|] == shown
      && r[left + |shown|..] == Repeat(' ', width - |shown| - left)
      && (width - |shown| - left == left || width - |shown| - left == left + 1)
  {
    var left := (width - |shown|) / 2;
    Repeat(' ', left) + shown + Repeat(' ', width - |shown| - left)
  }

  /** The closing step of `binder_label_line`: pads with blanks or cuts so
      the line is exactly `width` long. */
  function FitTo(line: string, width: nat): (r: string)
    ensures |r| == width
    ensures |line| >= width ==> r == line[..width]
    ensures |line| < width ==> r == line + Repeat(' ', width - |line|)
  {
    if |line| < width then line + Repeat(' ', width - |line|)
    else if |line| > width then line[..width]
    else line
  }

  /** A label that fits appears whole, brackets included. */
  lemma LabelFitsWhole(labelText: string, width: nat)
    requires !IsBlank(labelText)
    requires |Trim(labelText)| + 4 <= width
    ensures var d := Decorate(Trim(labelText));
      var left := (width - |d|) / 2;
      BinderLabelLine(labelText, width)[left..left + |d|] == d
  {
    assert Shown(labelText, width) == Decorate(Trim(labelText));
  }

  /** The pattern part of a card: `count` rows cycling through `pattern`,
      blanks when there is no pattern. */
  function PatternRows(pattern: seq<string>, width: nat, count: nat): (r: seq<string>)
    ensures |r| == count
    ensures forall i | 0 <= i < count :: |r[i]| == width
    ensures |pattern| == 0 ==> forall i | 0 <= i < count :: r[i] == Repeat(' ', width)
    ensures |pattern| > 0 ==>
      forall i | 0 <= i < count :: r[i] == RepeatPatternRow(pattern[i % |pattern|], width)
  {
    seq(count, i requires 0 <= i < count => PatternRow(pattern, width, i))
  }

  function PatternRow(pattern: seq<string>, width: nat, i: nat): (r: string)
    ensures |r| == width
  {
    if |pattern| == 0 then Repeat(' ', width)
    else RepeatPatternRow(pattern[i % |pattern|], width)
  }

  /** `build_binder_cover_lines` (text only): a single empty line for an
      empty card; otherwise pattern rows, a blank spacer when there is room,
      the label line, then blank padding up to the height. */
  function CoverLines(labelText: string, pattern: seq<string>, width: nat, height: nat): (r: seq<string>)
    ensures width == 0 || height == 0 ==> r == [""]
    ensures width > 0 && height > 0 ==>
      && |r| == height
      && (forall i | 0 <= i < height :: |r[i]| == width)
      && r[height - 1] == BinderLabelLine(labelText, width)
  {
    if width == 0 || height == 0 then [""]
    else
      var labelLines := if height >= 2 then 2 else 1;
      var patternHeight := if height >= labelLines then height - labelLines else 0;
      var rows := PatternRows(pattern, width, patternHeight);
      var spacer := if height >= 2 then [Repeat(' ', width)] else [];
      var lines := Stack(rows, spacer, BinderLabelLine(labelText, width), width);
      PadLines(lines, height, Repeat(' ', width))
  }

  /** Pattern rows, then the spacer, then the label line, all `width` wide. */
  function Stack(rows: seq<string>, spacer: seq<string>, last: string, width: nat): (r: seq<string>)
    requires forall i | 0 <= i < |rows| :: |rows[i]| == width
    requires forall i | 0 <= i < |spacer| :: |spacer[i]| == width
    requires |last| == width
    ensures |r| == |rows| + |spacer| + 1
    ensures r[..|rows|] == rows && r[|rows|..|rows| + |spacer|] == spacer && r[|r| - 1] == last
    ensures forall i | 0 <= i < |r| :: |r[i]| == width
  {
    var r := rows + spacer + [last];
    assert r[..|rows|] == rows;
    assert r[|rows|..|rows| + |spacer|] == spacer;
    forall i | 0 <= i < |r| ensures |r[i]| == width {
      if i < |rows| {
        assert r[i] == rows[i];
      } else if i < |rows| + |spacer| {
        assert r[i] == spacer[i - |rows|];
      }
    }
    r
  }

  /** The closing loop of `build_binder_cover_lines`: appends `blank` until
      there are `height` lines. */
  function PadLines(lines: seq<string>, height: nat, blank: string): (r: seq<string>)
    ensures |r| == if |lines| < height then height else |lines|
    ensures r[..|lines|] == lines
    ensures forall i | |lines| <= i < |r| :: r[i] == blank
  {
    if |lines| < height then lines + seq(height - |lines|, _ => blank) else lines
  }

  /** A card of height two or more shows its pattern rows first and a blank
      spacer right above the label. */
  lemma CoverLayout(labelText: string, pattern: seq<string>, width: nat, height: nat)
    requires width > 0 && height >= 2
    ensures var r := CoverLines(labelText, pattern, width, height);
      && r[..height - 2] == PatternRows(pattern, width, height - 2)
      && r[height - 2] == Repeat(' ', width)
  {
  }

  /** `surface_error`: the innermost cause of the chain. */
  function SurfaceError(e: Error): (m: string)
    ensures m in e.chain
  {
    e.chain[|e.chain| - 1]
  }

  /** Adding context never changes what the user is shown. */
  lemma SurfaceErrorIgnoresContext(e: Error, message: string)
    ensures SurfaceError(Context(e, message)) == SurfaceError(e)
  {
  }

  /** A single-message error shows exactly that message. */
  lemma SurfaceErrorOfFail(message: string)
    ensures SurfaceError(Fail(message)) == message
  {
  }
}
