/**
 * stack_images_with_margin and create_combined_image (visualization.py):
 * the combined album canvas. Track strips are stacked top to bottom, each
 * centred horizontally, below an optional title band, inside a border, on a
 * background colour. Text rendering is represented by the layout decision
 * (which text, which font size, where); the glyphs themselves are not drawn.
 */
module AlbumLayout {
  import opened Wrappers
  import opened Colors
  import opened Text
  import Config
  import DominantColor
  import opened Arith

  /** A track strip as read back from disk: its pixel rows and the pixel list of its 50x50 thumbnail. */
  datatype TrackImage = TrackImage(width: nat, height: nat, pixels: seq<seq<Rgb>>, thumbnail: seq<DominantColor.Pixel>)

  predicate ValidImage(img: TrackImage) {
    |img.pixels| == img.height && forall y :: 0 <= y < img.height ==> |img.pixels[y]| == img.width
  }

  predicate AllValid(images: seq<TrackImage>) {
    forall k :: 0 <= k < |images| ==> ValidImage(images[k])
  }

  // ---------------------------------------------------------------------
  // Canvas dimensions
  // ---------------------------------------------------------------------

  /** `max(img.width for img in images)` */
  function MaxWidth(images: seq<TrackImage>): (w: nat)
    requires images != []
    ensures forall k :: 0 <= k < |images| ==> images[k].width <= w
    ensures exists k :: 0 <= k < |images| && images[k].width == w
  {
    if |images| == 1 then images[0].width
    else
      var rest := MaxWidth(images[..|images| - 1]);
      var last := images[|images| - 1].width;
      assert forall k :: 0 <= k < |images| - 1 ==> images[..|images| - 1][k] == images[k];
      if last > rest then last else rest
  }

  /** `sum(img.height for img in images)` */
  function SumHeights(images: seq<TrackImage>): nat {
    if images == [] then 0 else SumHeights(images[..|images| - 1]) + images[|images| - 1].height
  }

  /** `total_height`: the strips plus one margin between each neighbouring pair. */
  function StackHeight(images: seq<TrackImage>, margin: nat): nat
    requires images != []
  {
    SumHeights(images) + margin * (|images| - 1)
  }

  /** Python's `album_title` used as a condition: neither None nor empty. */
  predicate HasTitle(albumTitle: Option<string>) {
    albumTitle.Some? && albumTitle.value != []
  }

  /** `title_length_factor = min(1.5, max(0.8, len(album_title) / 30))` */
  function LengthFactor(length: nat): (f: real)
    ensures 0.8 <= f <= 1.5
    ensures length <= 24 ==> f == 0.8
    ensures 24 <= length <= 45 ==> f == length as real / 30.0
    ensures length >= 45 ==> f == 1.5
  {
    var raw := length as real / 30.0;
    if raw < 0.8 then 0.8 else if raw > 1.5 then 1.5 else raw
  }

  /**
   * Height of the title band. `sqrtArea` stands for `(width * total_height) ** 0.5`;
   * the bounds below hold whatever non-negative value it has.
   */
  function TitleHeight(albumTitle: Option<string>, sqrtArea: real): (th: nat)
    requires sqrtArea >= 0.0
    ensures !HasTitle(albumTitle) <==> th == 0
    ensures HasTitle(albumTitle) ==> 60 <= th <= 150
  {
    if !HasTitle(albumTitle) then 0
    else ClampTitle(IdealTitleHeight(|albumTitle.value|, sqrtArea)).Floor
  }

  /** `sqrt_area * 0.1 * title_length_factor`, before the limits are applied. */
  function IdealTitleHeight(length: nat, sqrtArea: real): real {
    sqrtArea * 0.1 * LengthFactor(length)
  }

  /** `min(max_title_height, max(min_title_height, ideal))` with the limits 60 and 150. */
  function ClampTitle(ideal: real): (c: real)
    ensures 60.0 <= c <= 150.0
    ensures 60.0 <= ideal <= 150.0 ==> c == ideal
    ensures ideal < 60.0 ==> c == 60.0
    ensures ideal > 150.0 ==> c == 150.0
  {
    if ideal < 60.0 then 60.0 else if ideal > 150.0 then 150.0 else ideal
  }

  /** A larger image area never gives a smaller title band. */
  lemma TitleHeightMonotone(albumTitle: Option<string>, a1: real, a2: real)
    requires 0.0 <= a1 <= a2
    ensures TitleHeight(albumTitle, a1) <= TitleHeight(albumTitle, a2)
  {
    if HasTitle(albumTitle) {
      var n := |albumTitle.value|;
      MulMonoReal(a1 * 0.1, a2 * 0.1, LengthFactor(n));
      var i1, i2 := IdealTitleHeight(n, a1), IdealTitleHeight(n, a2);
      assert i1 <= i2;
      ClampTitleMono(i1, i2);
      FloorMono(ClampTitle(i1), ClampTitle(i2));
    }
  }

  /** A longer title never gets a smaller factor. */
  lemma LengthFactorMono(n1: nat, n2: nat)
    requires n1 <= n2
    ensures LengthFactor(n1) <= LengthFactor(n2)
  {
    assert n1 as real / 30.0 <= n2 as real / 30.0;
  }

  /** Longer titles need more space: for the same image area, a longer title never gets a smaller band. */
  lemma TitleHeightGrowsWithLength(t1: string, t2: string, sqrtArea: real)
    requires t1 != [] && |t1| <= |t2| && sqrtArea >= 0.0
    ensures TitleHeight(Some(t1), sqrtArea) <= TitleHeight(Some(t2), sqrtArea)
  {
    var f1, f2 := LengthFactor(|t1|), LengthFactor(|t2|);
    LengthFactorMono(|t1|, |t2|);
    var a := sqrtArea * 0.1;
    MulMonoReal(f1, f2, a);
    assert a * f1 == f1 * a && a * f2 == f2 * a;
    var i1, i2 := IdealTitleHeight(|t1|, sqrtArea), IdealTitleHeight(|t2|, sqrtArea);
    assert i1 <= i2;
    ClampTitleMono(i1, i2);
    FloorMono(ClampTitle(i1), ClampTitle(i2));
  }

  lemma ClampTitleMono(x: real, y: real)
    requires x <= y
    ensures ClampTitle(x) <= ClampTitle(y)
  {
  }

  lemma FloorMono(x: real, y: real)
    requires x <= y
    ensures x.Floor <= y.Floor
  {
  }

  // ---------------------------------------------------------------------
  // Title text
  // ---------------------------------------------------------------------

  /** The displayed title: the text before the first " [", else before the first " {", else all of it. */
  function DisplayTitle(title: string): (d: string)
    ensures d <= title
    ensures Contains(title, " [") ==> OccursAt(title, " [", |d|) && !Contains(d, " [")
    ensures !Contains(title, " [") && Contains(title, " {") ==> OccursAt(title, " {", |d|) && !Contains(d, " {")
    ensures !Contains(title, " [") && !Contains(title, " {") ==> d == title
  {
    if Contains(title, " [") then
      var d := BeforeFirst(title, " [");
      NoEarlierOccurrence(title, d, " [");
      d
    else if Contains(title, " {") then
      var d := BeforeFirst(title, " {");
      NoEarlierOccurrence(title, d, " {");
      d
    else title
  }

  /** A prefix of `s` that ends where `sep` first occurs does not itself contain `sep`. */
  lemma NoEarlierOccurrence(s: string, d: string, sep: string)
    requires d <= s && sep != []
    requires forall j :: 0 <= j < |d| ==> !OccursAt(s, sep, j)
    ensures !Contains(d, sep)
  {
    ContainsIff(d, sep);
    if Contains(d, sep) {
      var i :| OccursAt(d, sep, i);
      assert d[i..i + |sep|] == s[i..i + |sep|];
      assert OccursAt(s, sep, i);
      assert false;
    }
  }

  lemma DisplayTitleExample()
    ensures DisplayTitle("My Album [Remastered]") == "My Album"
  {
    var t := "My Album [Remastered]";
    assert OccursAt(t, " [", 8);
    assert forall j :: 0 <= j < 9 ==> t[j] != '[';
    forall j | 0 <= j < 8
      ensures !OccursAt(t, " [", j)
    {
      assert t[j..j + 2][1] == t[j + 1] != '[';
    }
    assert FindFrom(t, " [", 0) == Some(8);
  }

  /** A font size the search loop tries: `range(maxSize, 19, -2)`. */
  predicate Candidate(maxSize: int, size: int) {
    20 <= size <= maxSize && (maxSize - size) % 2 == 0
  }

  /** The first size in `from, from - 2, ...` (down to 20) whose rendered text fits in `width`. */
  function LargestFit(text: string, width: nat, from: int, textWidth: (string, int) -> int): (r: Option<int>)
    decreases from
    ensures r.Some? ==> 20 <= r.value <= from && (from - r.value) % 2 == 0 && textWidth(text, r.value) <= width
    ensures r.Some? ==> forall s :: Candidate(from, s) && s > r.value ==> textWidth(text, s) > width
    ensures r.None? ==> forall s :: Candidate(from, s) ==> textWidth(text, s) > width
  {
    if from < 20 then None
    else if textWidth(text, from) <= width then Some(from)
    else
      var r := LargestFit(text, width, from - 2, textWidth);
      assert forall s :: Candidate(from, s) && s != from ==> Candidate(from - 2, s);
      r
  }

  /** The descending font-size loop with its `break`. */
  method FitOneLine(text: string, width: nat, maxSize: int, textWidth: (string, int) -> int)
    returns (fit: Option<int>)
    ensures fit == LargestFit(text, width, maxSize, textWidth)
  {
    var size := maxSize;
    while size >= 20
      invariant size <= maxSize && (maxSize - size) % 2 == 0
      invariant LargestFit(text, width, maxSize, textWidth) == LargestFit(text, width, size, textWidth)
      decreases size
    {
      if textWidth(text, size) <= width {
        return Some(size);
      }
      size := size - 2;
    }
    return None;
  }

  /** The two-line fallback: the first half of the words (rounded down) and the rest. */
  function SplitInTwo(display: string): (lines: (string, string))
    ensures var ws := Words(display);
      && Words(lines.0) == ws[..|ws| / 2]
      && Words(lines.1) == ws[|ws| / 2..]
      && Words(lines.0) + Words(lines.1) == ws
      && lines == (Join(ws[..|ws| / 2]), Join(ws[|ws| / 2..]))
  {
    var ws := Words(display);
    var mid := |ws| / 2;
    WordsOfJoin(ws[..mid]);
    WordsOfJoin(ws[mid..]);
    assert ws[..mid] + ws[mid..] == ws;
    (Join(ws[..mid]), Join(ws[mid..]))
  }

  /** `int(title_height * 0.7)` evaluated in binary floating point: 90 * 0.7 is 62.99999999999999. */
  function SevenTenths(th: nat): (r: nat)
    requires 60 <= th <= 150
    ensures r <= th * 7 / 10 && th * 7 / 10 - r <= 1
  {
    if th == 90 then 62 else th * 7 / 10
  }

  /** The colour the outline is drawn in: the opposite of the text colour. */
  function OutlineColor(text: Rgb): Rgb {
    if text == White then Black else White
  }

  /** What is drawn in the title band. */
  datatype TitleLayout =
    | NoTitle
      /** The font could not be loaded; the exception is caught and no title is drawn. */
    | TitleFailed
    | OneLine(text: string, fontSize: int, x: int, y: int, outlineSize: int, fill: Rgb, outline: Rgb)
    | TwoLines(line1: string, line2: string, fontSize: int, x: int, y1: int, y2: int, fill: Rgb, outline: Rgb)

  /**
   * The title decision of stack_images_with_margin, given the title band height `th`.
   * In binary floating point `int(th * 0.3)`, `int(th * 0.35)` and `int(size * 0.05)`
   * equal the integer forms used here for every band height 60..150 and font size
   * 20..105; `int(th * 0.7)` does not, see SevenTenths.
   */
  function TitleFor(albumTitle: Option<string>, th: nat, width: nat, border: nat, bg: Rgb,
                    fontLoads: bool, textWidth: (string, int) -> int): (t: TitleLayout)
    requires th == 0 || 60 <= th <= 150
    ensures !HasTitle(albumTitle) || th == 0 ==> t == NoTitle
    ensures HasTitle(albumTitle) && th > 0 ==> (t == TitleFailed <==> !fontLoads)
    ensures HasTitle(albumTitle) && th > 0 && fontLoads ==>
      && (t.OneLine? || t.TwoLines?)
      && (t.OneLine? <==> LargestFit(DisplayTitle(albumTitle.value), width, SevenTenths(th), textWidth).Some?)
    ensures t.OneLine? ==>
      && HasTitle(albumTitle) && t.text == DisplayTitle(albumTitle.value)
      && Candidate(SevenTenths(th), t.fontSize) && textWidth(t.text, t.fontSize) <= width
      && (forall s :: Candidate(SevenTenths(th), s) && s > t.fontSize ==> textWidth(t.text, s) > width)
      && t.x == (width + 2 * border) / 2 && t.y == th / 2
      && t.outlineSize == Max(2, t.fontSize * 5 / 100)
    ensures t.TwoLines? ==>
      && HasTitle(albumTitle)
      && (forall s :: Candidate(SevenTenths(th), s) ==> textWidth(DisplayTitle(albumTitle.value), s) > width)
      && Words(t.line1) + Words(t.line2) == Words(DisplayTitle(albumTitle.value))
      && |Words(t.line1)| == |Words(DisplayTitle(albumTitle.value))| / 2
      && t.x == (width + 2 * border) / 2
      && t.y1 == th * 3 / 10 && t.y2 == SevenTenths(th) && 0 < t.y1 < t.y2 < th
      && t.fontSize == Max(20, th * 35 / 100)
    ensures t.OneLine? || t.TwoLines? ==> t.fill == Config.GetTextColor(bg) && t.outline != t.fill
    ensures t.OneLine? || t.TwoLines? ==>
      (t.fill == White ==> t.outline == Black) && (t.fill == Black ==> t.outline == White)
  {
    if !(HasTitle(albumTitle) && th > 0) then NoTitle
    else if !fontLoads then TitleFailed
    else
      var display := DisplayTitle(albumTitle.value);
      var fill := Config.GetTextColor(bg);
      var x := (width + 2 * border) / 2;
      match LargestFit(display, width, SevenTenths(th), textWidth)
      case Some(size) =>
        OneLine(display, size, x, th / 2, Max(2, size * 5 / 100), fill, OutlineColor(fill))
      case None =>
        var (line1, line2) := SplitInTwo(display);
        TwoLines(line1, line2, Max(20, th * 35 / 100), x, th * 3 / 10, SevenTenths(th), fill, OutlineColor(fill))
  }

  function Max(a: int, b: int): int {
    if a > b then a else b
  }

  // ---------------------------------------------------------------------
  // Placement of the strips and the composed canvas
  // ---------------------------------------------------------------------

  /** The numbers that fix where strips go: margin, border, the widest strip and the title band. */
  datatype Geometry = Geometry(margin: nat, border: nat, width: nat, titleHeight: nat)

  /** Offset of strip k below the top of the stack: the heights of the strips above it plus one margin each. */
  function StackOffset(images: seq<TrackImage>, k: nat, margin: nat): nat
    requires k <= |images|
  {
    SumHeights(images[..k]) + k * margin
  }

  /** Column at which strip k is pasted. */
  function PasteX(images: seq<TrackImage>, k: nat, g: Geometry): int
    requires k < |images|
  {
    g.border + (g.width - images[k].width) / 2
  }

  /** Row at which strip k is pasted. */
  function PasteY(images: seq<TrackImage>, k: nat, g: Geometry): int
    requires k < |images|
  {
    g.border + g.titleHeight + StackOffset(images, k, g.margin)
  }

  predicate InStrip(images: seq<TrackImage>, k: nat, g: Geometry, r: int, c: int)
    requires k < |images|
  {
    && PasteY(images, k, g) <= r < PasteY(images, k, g) + images[k].height
    && PasteX(images, k, g) <= c < PasteX(images, k, g) + images[k].width
  }

  /** The canvas pixel at (r, c) once the first k strips have been pasted, in order, onto `bg`. */
  function Composite(images: seq<TrackImage>, k: nat, g: Geometry, bg: Rgb, r: int, c: int): Rgb
    requires k <= |images| && AllValid(images)
  {
    if k == 0 then bg
    else if InStrip(images, k - 1, g, r, c) then
      images[k - 1].pixels[r - PasteY(images, k - 1, g)][c - PasteX(images, k - 1, g)]
    else Composite(images, k - 1, g, bg, r, c)
  }

  lemma StackOffsetStep(images: seq<TrackImage>, k: nat, margin: nat)
    requires k < |images|
    ensures StackOffset(images, k + 1, margin) == StackOffset(images, k, margin) + images[k].height + margin
  {
    assert images[..k + 1][..k] == images[..k];
  }

  /** A later strip starts below the end of an earlier one plus the margin. */
  lemma {:induction false} LaterStripsBelow(images: seq<TrackImage>, i: nat, j: nat, margin: nat)
    requires i < j <= |images|
    ensures StackOffset(images, j, margin) >= StackOffset(images, i, margin) + images[i].height + margin
    decreases j - i
  {
    StackOffsetStep(images, i, margin);
    if j > i + 1 {
      LaterStripsBelow(images, i + 1, j, margin);
      StackOffsetStep(images, i + 1, margin);
    }
  }

  /** The last strip ends exactly at the bottom of the stack. */
  lemma StackOffsetEnd(images: seq<TrackImage>, margin: nat)
    requires images != []
    ensures StackOffset(images, |images| - 1, margin) + images[|images| - 1].height == StackHeight(images, margin)
  {
    assert images[..|images|] == images;
    StackOffsetStep(images, |images| - 1, margin);
  }

  /** Every strip lies inside the canvas, inset by the border and below the title band. */
  lemma StripInCanvas(images: seq<TrackImage>, k: nat, g: Geometry)
    requires k < |images|
    requires g.width == MaxWidth(images)
    ensures g.border <= PasteX(images, k, g)
    ensures PasteX(images, k, g) + images[k].width <= g.width + g.border
    ensures g.border + g.titleHeight <= PasteY(images, k, g)
    ensures PasteY(images, k, g) + images[k].height <= g.border + g.titleHeight + StackHeight(images, g.margin)
  {
    var d := g.width - images[k].width;
    assert 0 <= d && 0 <= d / 2 && 2 * (d / 2) <= d;
    StackOffsetEnd(images, g.margin);
    if k < |images| - 1 {
      LaterStripsBelow(images, k, |images| - 1, g.margin);
    }
  }

  /** Once strips 0..k-1 are pasted, a pixel inside strip i < k shows strip i: no later strip covers it. */
  lemma {:induction false} CompositeShowsStrip(images: seq<TrackImage>, k: nat, i: nat, g: Geometry, bg: Rgb, r: int, c: int)
    requires AllValid(images) && i < k <= |images|
    requires InStrip(images, i, g, r, c)
    ensures Composite(images, k, g, bg, r, c) == images[i].pixels[r - PasteY(images, i, g)][c - PasteX(images, i, g)]
    decreases k
  {
    if k - 1 != i {
      LaterStripsBelow(images, i, k - 1, g.margin);
      assert !InStrip(images, k - 1, g, r, c);
      CompositeShowsStrip(images, k - 1, i, g, bg, r, c);
    }
  }

  /** A pixel outside every pasted strip keeps the background colour. */
  lemma {:induction false} CompositeBackground(images: seq<TrackImage>, k: nat, g: Geometry, bg: Rgb, r: int, c: int)
    requires AllValid(images) && k <= |images|
    requires forall i :: 0 <= i < k ==> !InStrip(images, i, g, r, c)
    ensures Composite(images, k, g, bg, r, c) == bg
  {
    if k > 0 {
      CompositeBackground(images, k - 1, g, bg, r, c);
    }
  }

  /** `combined.paste(img, (x, y))` for a strip that lies wholly inside the canvas. */
  method PasteImage(canvas: array2<Rgb>, img: TrackImage, x: nat, y: nat)
    requires ValidImage(img)
    requires y + img.height <= canvas.Length0 && x + img.width <= canvas.Length1
    modifies canvas
    ensures forall r, c :: 0 <= r < canvas.Length0 && 0 <= c < canvas.Length1 ==>
      canvas[r, c] == if y <= r < y + img.height && x <= c < x + img.width
                      then img.pixels[r - y][c - x] else old(canvas[r, c])
  {
    var dy := 0;
    while dy < img.height
      invariant 0 <= dy <= img.height
      invariant forall r, c :: 0 <= r < canvas.Length0 && 0 <= c < canvas.Length1 ==>
        canvas[r, c] == if y <= r < y + dy && x <= c < x + img.width
                        then img.pixels[r - y][c - x] else old(canvas[r, c])
    {
      var dx := 0;
      while dx < img.width
        invariant 0 <= dx <= img.width
        invariant forall r, c :: 0 <= r < canvas.Length0 && 0 <= c < canvas.Length1 ==>
          canvas[r, c] == if (y <= r < y + dy && x <= c < x + img.width) || (r == y + dy && x <= c < x + dx)
                          then img.pixels[r - y][c - x] else old(canvas[r, c])
      {
        canvas[y + dy, x + dx] := img.pixels[dy][dx];
        dx := dx + 1;
      }
      dy := dy + 1;
    }
  }

  /** The background: the given colour, or else the dominant colour of the strips' thumbnails. */
  function Background(bgColor: Option<Rgb>, images: seq<TrackImage>): Rgb {
    if bgColor.Some? then bgColor.value else DominantColor.DominantColorOf(Thumbnails(images))
  }

  function Thumbnails(images: seq<TrackImage>): (ts: seq<seq<DominantColor.Pixel>>)
    ensures |ts| == |images| && forall k :: 0 <= k < |images| ==> ts[k] == images[k].thumbnail
  {
    seq(|images|, k requires 0 <= k < |images| => images[k].thumbnail)
  }

  /** The title-drawing part of stack_images_with_margin, with its descending font-size search. */
  method ChooseTitle(albumTitle: Option<string>, th: nat, width: nat, border: nat, bg: Rgb,
                     fontLoads: bool, textWidth: (string, int) -> int)
    returns (title: TitleLayout)
    requires th == 0 || 60 <= th <= 150
    ensures title == TitleFor(albumTitle, th, width, border, bg, fontLoads, textWidth)
  {
    if !(HasTitle(albumTitle) && th > 0) {
      return NoTitle;
    }
    if !fontLoads {
      return TitleFailed;
    }
    var display := DisplayTitle(albumTitle.value);
    var fill := Config.GetTextColor(bg);
    var x := (width + 2 * border) / 2;
    var maxFontSize := SevenTenths(th);
    var fit := FitOneLine(display, width, maxFontSize, textWidth);
    if fit.None? {
      var (line1, line2) := SplitInTwo(display);
      return TwoLines(line1, line2, Max(20, th * 35 / 100), x, th * 3 / 10, SevenTenths(th), fill, OutlineColor(fill));
    }
    var size := fit.value;
    return OneLine(display, size, x, th / 2, Max(2, size * 5 / 100), fill, OutlineColor(fill));
  }

  /** The paste loop: strip k goes to (PasteX k, PasteY k), advancing `y_offset` by height plus margin. */
  method PasteAll(canvas: array2<Rgb>, images: seq<TrackImage>, g: Geometry, bg: Rgb)
    requires AllValid(images) && images != [] && g.width == MaxWidth(images)
    requires canvas.Length0 == StackHeight(images, g.margin) + 2 * g.border + g.titleHeight
    requires canvas.Length1 == g.width + 2 * g.border
    requires forall r, c :: 0 <= r < canvas.Length0 && 0 <= c < canvas.Length1 ==> canvas[r, c] == bg
    modifies canvas
    ensures forall r, c :: 0 <= r < canvas.Length0 && 0 <= c < canvas.Length1 ==>
      canvas[r, c] == Composite(images, |images|, g, bg, r, c)
  {
    var yOffset := g.border + g.titleHeight;
    var k := 0;
    while k < |images|
      invariant 0 <= k <= |images|
      invariant yOffset == g.border + g.titleHeight + StackOffset(images, k, g.margin)
      invariant forall r, c :: 0 <= r < canvas.Length0 && 0 <= c < canvas.Length1 ==>
        canvas[r, c] == Composite(images, k, g, bg, r, c)
    {
      var img := images[k];
      var xOffset := g.border + (g.width - img.width) / 2;
      StripInCanvas(images, k, g);
      PasteImage(canvas, img, xOffset, yOffset);
      StackOffsetStep(images, k, g.margin);
      yOffset := yOffset + img.height + g.margin;
      k := k + 1;
    }
  }

  /**
   * stack_images_with_margin. `sqrtArea` is the square root of the stack's
   * area, `fontLoads` says whether the title font can be opened, and
   * `textWidth(text, size)` is the rendered width of `text` at `size` points.
   * The two-line title branch returns before the paste loop, so its canvas
   * holds no strips.
   */
  method StackImagesWithMargin(images: seq<TrackImage>, margin: nat, border: nat, bgColor: Option<Rgb>,
                               albumTitle: Option<string>, sqrtArea: real, fontLoads: bool,
                               textWidth: (string, int) -> int)
    returns (combined: Option<array2<Rgb>>, title: TitleLayout)
    requires AllValid(images) && sqrtArea >= 0.0
    ensures images == [] <==> combined.None?
    ensures images == [] ==> title == NoTitle
    ensures combined.Some? ==> fresh(combined.value)
    ensures images != [] ==>
      var g := Geometry(margin, border, MaxWidth(images), TitleHeight(albumTitle, sqrtArea));
      var bg := Background(bgColor, images);
      && title == TitleFor(albumTitle, g.titleHeight, g.width, border, bg, fontLoads, textWidth)
      && combined.value.Length1 == g.width + 2 * border
      && combined.value.Length0 == StackHeight(images, margin) + 2 * border + g.titleHeight
      && forall r, c :: 0 <= r < combined.value.Length0 && 0 <= c < combined.value.Length1 ==>
           combined.value[r, c] == if title.TwoLines? then bg else Composite(images, |images|, g, bg, r, c)
  {
    if images == [] {
      return None, NoTitle;
    }
    var bg: Rgb;
    if bgColor.None? {
      bg := DominantColor.GetDominantColor(Thumbnails(images));
    } else {
      bg := bgColor.value;
    }
    var width := MaxWidth(images);
    var totalHeight := StackHeight(images, margin);
    var th := TitleHeight(albumTitle, sqrtArea);
    var canvas := new Rgb[totalHeight + 2 * border + th, width + 2 * border]((r, c) => bg);
    title := ChooseTitle(albumTitle, th, width, border, bg, fontLoads, textWidth);
    if title.TwoLines? {
      return Some(canvas), title;
    }
    PasteAll(canvas, images, Geometry(margin, border, width, th), bg);
    return Some(canvas), title;
  }

  /**
   * create_combined_image: stacks with margin 5 and border 30 and names the
   * file after the sanitised album title. With no strips the stacking gives
   * None and the following `save` raises, which the model reports as `Err`.
   */
  method CreateCombinedImage(images: seq<TrackImage>, albumTitle: string, bgColor: Option<Rgb>,
                             sqrtArea: real, fontLoads: bool, textWidth: (string, int) -> int)
    returns (result: Result<(array2<Rgb>, string), string>)
    requires AllValid(images) && sqrtArea >= 0.0
    ensures images == [] <==> result.Err?
    ensures result.Ok? ==>
      && result.value.1 == Config.SanitizeFilename(albumTitle) + "_combined.png"
      && result.value.0.Length1 == MaxWidth(images) + 60
      && result.value.0.Length0 == StackHeight(images, 5) + 60 + TitleHeight(Some(albumTitle), sqrtArea)
    ensures result.Ok? ==> fresh(result.value.0)
    ensures result.Ok? ==>
      var th := TitleHeight(Some(albumTitle), sqrtArea);
      var bg := Background(bgColor, images);
      var twoLines := TitleFor(Some(albumTitle), th, MaxWidth(images), 30, bg, fontLoads, textWidth).TwoLines?;
      forall r, c :: 0 <= r < result.value.0.Length0 && 0 <= c < result.value.0.Length1 ==>
        result.value.0[r, c] == if twoLines then bg else Composite(images, |images|, Geometry(5, 30, MaxWidth(images), th), bg, r, c)
  {
    var combined, _ := StackImagesWithMargin(images, 5, 30, bgColor, Some(albumTitle), sqrtArea, fontLoads, textWidth);
    if combined.None? {
      return Err("'NoneType' object has no attribute 'save'");
    }
    return Ok((combined.value, Config.SanitizeFilename(albumTitle) + "_combined.png"));
  }
}
