/** The label layout engine (src/label/creator.py): text is fitted to the label width
    by stepping its font size, images are scaled to the label width, and a label
    stacks its objects top to bottom on a canvas of the printer's width.

    Font measurement, line wrapping and rasterisation belong to the imaging library
    and enter the model as the function values of a `Fonts` record. Pixel sizes are
    integers; text advance widths and label widths are exact reals. */
module LabelCreator {
  import opened Wrappers

  /** The width text is fitted to, in pixels. */
  const CANVAS_WIDTH: int := 569
  /** floor(58 mm * 300 / 25.4 pixels per mm), the printable width of the 62 mm roll. */
  const IMG_WIDTH: int := 58 * 3000 / 254
  const ITEM_MARGIN: int := 48
  const MULTILINE_STRING_LIMIT: int := 40
  const PRINTER_HEIGHT_MARGIN_MM: int := 3
  /** (IMG_WIDTH - CANVAS_WIDTH) / 2, the gap beside left- and right-aligned text. */
  const SIDE_GAP: real := (IMG_WIDTH - CANVAS_WIDTH) as real / 2.0

  lemma PrinterWidths()
    ensures IMG_WIDTH == 685 && SIDE_GAP == 58.0
  {
  }

  /** A bounding box (left, top, right, bottom) in pixels. */
  datatype Box = Box(left: int, top: int, right: int, bottom: int)

  /** The imaging library, as far as the layout uses it:
      `length(text, size)`   ImageFont.truetype(font, size).getlength(text)
      `bbox(text, size)`     the same font's getbbox(text)
      `drawBbox(text, size)` ImageDraw.textbbox((0, 0), text, font), which lays out several lines
      `fill(text, replace)`  textwrap.fill(text, 40, ..., replace_whitespace=replace) */
  datatype Fonts = Fonts(
    length: (string, int) -> real,
    bbox: (string, int) -> Box,
    drawBbox: (string, int) -> Box,
    fill: (string, bool) -> string)

  datatype Align = Left | Center | Right

  /** A fitted text or a scaled image, with its size and optional margins. `offsetTop`
      is the top of the text's bounding box at its font size. */
  datatype LabelObject =
    | LabelString(text: string, multiline: bool, fontSize: int, align: Align,
                  width: int, height: int, offsetTop: int,
                  marginTop: Option<int>, marginBottom: Option<int>)
    | LabelImage(width: int, height: int, marginTop: Option<int>, marginBottom: Option<int>)

  /** The exceptions object construction raises: the font library refuses a point size
      below 1; the image resize divides by the image width and Pillow refuses a target
      size with a zero side. */
  datatype LayoutError = InvalidFontSize(size: int) | ZeroWidthImage | EmptyResize(width: int, height: int)

  function DrawWidth(fonts: Fonts, text: string, size: int): real
  {
    var b := fonts.drawBbox(text, size);
    (b.right - b.left) as real
  }

  // ---------------------------------------------------------------- size estimate

  /** The lookup table of starting font sizes by string length. */
  function TableEntry(n: int): Option<int>
  {
    match n
    case 2 => Some(728)  case 3 => Some(511)  case 4 => Some(372)  case 5 => Some(300)
    case 6 => Some(249)  case 7 => Some(213)  case 8 => Some(184)  case 9 => Some(165)
    case 10 => Some(148) case 11 => Some(135) case 12 => Some(124) case 13 => Some(115)
    case 14 => Some(106) case 15 => Some(98)  case 16 => Some(92)  case 17 => Some(87)
    case 18 => Some(83)  case 19 => Some(77)  case 20 => Some(73)  case 21 => Some(70)
    case 22 => Some(67)  case 23 => Some(64)  case 24 => Some(61)  case 25 => Some(59)
    case 26 => Some(56)  case 27 => Some(54)  case 28 => Some(52)  case 29 => Some(50)
    case 30 => Some(48)  case 31 => Some(47)  case 32 => Some(45)  case 33 => Some(44)
    case 34 => Some(43)  case 35 => Some(42)  case 36 => Some(40)  case 37 => Some(39)
    case 38 => Some(38)  case 39 => Some(37)  case 40 => Some(36)  case 41 => Some(35)
    case 42 => Some(34)  case 43 => Some(33)  case 44 => Some(32)  case 45 => Some(31)
    case 46 => Some(30)  case 47 => Some(29)  case 48 => Some(28)  case 49 => Some(28)
    case 50 => Some(28)
    case _ => None
  }

  /** The table has 49 entries, for the keys 2 to 50. */
  const TABLE_SIZE: int := 49

  /** get_font_size_estimation_from_lookup_table with the default 20 % offset. A missing
      key gives 25 above the table's size and 728 otherwise. The offset is
      floor(0.2 * s); since the double nearest 0.2 lies just above it and s <= 728, the
      product never reaches the next integer, so the floor is s / 5. */
  function Estimate(n: int): (s: int)
    ensures n >= 51 ==> s == 30
    ensures n <= 1 ==> s == 873
    ensures 30 <= s <= 873
  {
    var base := match TableEntry(n)
      case Some(v) => v
      case None => if n > TABLE_SIZE then 25 else 728;
    base + base / 5
  }

  lemma EstimateStep(n: int)
    requires n >= 2
    ensures Estimate(n + 1) <= Estimate(n)
  {
  }

  /** Longer strings never start at a larger size (from length 2 on). */
  lemma {:induction false} EstimateNonIncreasing(a: int, b: int)
    requires 2 <= a <= b
    ensures Estimate(b) <= Estimate(a)
    decreases b - a
  {
    if a < b {
      EstimateStep(a);
      EstimateNonIncreasing(a + 1, b);
    }
  }

  /** The size fitting starts from: max_font_size when given; otherwise the estimate for
      the text's length, capped at the length-40 entry for multi-line text. */
  function StartSize(text: string, multiline: bool, maxFontSize: Option<int>): (s: int)
    ensures maxFontSize.None? ==> s == Estimate(if multiline && |text| > MULTILINE_STRING_LIMIT then MULTILINE_STRING_LIMIT else |text|)
    ensures maxFontSize.Some? ==> s == maxFontSize.value
  {
    if maxFontSize.Some? then maxFontSize.value
    else if !multiline then Estimate(|text|)
    else if |text| > MULTILINE_STRING_LIMIT then Estimate(MULTILINE_STRING_LIMIT)
    else Estimate(|text|)
  }

  /** Multi-line text never starts below the length-40 entry. */
  lemma MultiLineStartSize(text: string)
    ensures Estimate(MULTILINE_STRING_LIMIT) <= StartSize(text, true, None)
  {
    if 2 <= |text| <= MULTILINE_STRING_LIMIT {
      EstimateNonIncreasing(|text|, MULTILINE_STRING_LIMIT);
    }
  }

  // ---------------------------------------------------------------- text fitting

  /** Single-line fitting ends at the largest size from `start` down that fits. */
  ghost predicate SingleLineFit(fonts: Fonts, text: string, labelWidth: real, start: int, size: int)
  {
    1 <= size <= start && fonts.length(text, size) <= labelWidth &&
    forall k | size < k <= start :: fonts.length(text, k) > labelWidth
  }

  /** The largest fitting size is unique. */
  lemma SingleLineFitUnique(fonts: Fonts, text: string, labelWidth: real, start: int, s1: int, s2: int)
    requires SingleLineFit(fonts, text, labelWidth, start, s1)
    requires SingleLineFit(fonts, text, labelWidth, start, s2)
    ensures s1 == s2
  {
  }

  /** The single-line loop of LabelString.__init__: shrink one step at a time while the
      advance width exceeds the label width. */
  method FitSingleLine(fonts: Fonts, text: string, labelWidth: real, start: int) returns (r: Result<int, LayoutError>)
    ensures r.Ok? ==> SingleLineFit(fonts, text, labelWidth, start, r.value)
    ensures r.Err? ==> forall k | 1 <= k <= start :: fonts.length(text, k) > labelWidth
  {
    var size := start;
    if size < 1 {
      return Err(InvalidFontSize(size));
    }
    while fonts.length(text, size) > labelWidth
      invariant 1 <= size <= start
      invariant forall k | size < k <= start :: fonts.length(text, k) > labelWidth
      decreases size
    {
      size := size - 1;
      if size < 1 {
        return Err(InvalidFontSize(size));
      }
    }
    return Ok(size);
  }

  /** get_font_size: the same shrinking search against the full canvas width. */
  method GetFontSize(fonts: Fonts, estimatedSize: int, text: string) returns (r: Result<int, LayoutError>)
    ensures r.Ok? ==> SingleLineFit(fonts, text, CANVAS_WIDTH as real, estimatedSize, r.value)
    ensures r.Err? ==> forall k | 1 <= k <= estimatedSize :: fonts.length(text, k) > CANVAS_WIDTH as real
  {
    r := FitSingleLine(fonts, text, CANVAS_WIDTH as real, estimatedSize);
  }

  /** The grow loop of multi-line fitting stops: some size from `start` up is at least
      as wide as the label. Text that never gets that wide (the empty text, for one)
      makes the source loop forever. */
  ghost predicate GrowStops(fonts: Fonts, text: string, labelWidth: real, start: int)
  {
    start >= 1 ==> exists k :: k >= start && DrawWidth(fonts, text, k) >= labelWidth
  }

  /** Multi-line fitting ends strictly narrower than the label, one size below a size
      that is not. */
  predicate MultiLineFit(fonts: Fonts, text: string, labelWidth: real, size: int)
  {
    1 <= size && DrawWidth(fonts, text, size) < labelWidth && DrawWidth(fonts, text, size + 1) >= labelWidth
  }

  /** The grow loop of multi-line fitting: step up while narrower than the label. */
  method GrowWhileNarrow(fonts: Fonts, text: string, labelWidth: real, start: int) returns (size: int)
    requires start >= 1 && GrowStops(fonts, text, labelWidth, start)
    ensures start <= size && DrawWidth(fonts, text, size) >= labelWidth
    ensures forall k | start <= k < size :: DrawWidth(fonts, text, k) < labelWidth
  {
    size := start;
    ghost var bound :| bound >= start && DrawWidth(fonts, text, bound) >= labelWidth;
    while DrawWidth(fonts, text, size) < labelWidth
      invariant start <= size <= bound
      invariant forall k | start <= k < size :: DrawWidth(fonts, text, k) < labelWidth
      decreases bound - size
    {
      size := size + 1;
    }
  }

  /** The shrink loop of multi-line fitting: step down while at least as wide as the
      label; the font library refuses the step below 1. */
  method ShrinkWhileWide(fonts: Fonts, text: string, labelWidth: real, peak: int) returns (r: Result<int, LayoutError>)
    requires peak >= 1 && DrawWidth(fonts, text, peak) >= labelWidth
    ensures r.Ok? ==> MultiLineFit(fonts, text, labelWidth, r.value) && r.value < peak
    ensures r.Ok? ==> forall k | r.value < k <= peak :: DrawWidth(fonts, text, k) >= labelWidth
    ensures r.Err? ==> forall k | 1 <= k <= peak :: DrawWidth(fonts, text, k) >= labelWidth
  {
    var size := peak;
    while DrawWidth(fonts, text, size) >= labelWidth
      invariant 1 <= size <= peak
      invariant forall k | size < k <= peak :: DrawWidth(fonts, text, k) >= labelWidth
      decreases size
    {
      size := size - 1;
      if size < 1 {
        return Err(InvalidFontSize(size));
      }
    }
    return Ok(size);
  }

  /** The multi-line loops of LabelString.__init__: grow while narrower than the label,
      then shrink while at least as wide. `peak` is where growing stopped. */
  method FitMultiLine(fonts: Fonts, text: string, labelWidth: real, start: int)
    returns (r: Result<int, LayoutError>, ghost peak: int)
    requires GrowStops(fonts, text, labelWidth, start)
    ensures r.Ok? ==> MultiLineFit(fonts, text, labelWidth, r.value)
    ensures start >= 1 ==> start <= peak && DrawWidth(fonts, text, peak) >= labelWidth
    ensures start >= 1 ==> forall k | start <= k < peak :: DrawWidth(fonts, text, k) < labelWidth
    ensures r.Ok? ==> r.value < peak && forall k | r.value < k <= peak :: DrawWidth(fonts, text, k) >= labelWidth
    ensures r.Err? ==> start < 1 || forall k | 1 <= k <= peak :: DrawWidth(fonts, text, k) >= labelWidth
    ensures start < 1 ==> r.Err?
  {
    if start < 1 {
      return Err(InvalidFontSize(start)), start;
    }
    var top := GrowWhileNarrow(fonts, text, labelWidth, start);
    peak := top;
    r := ShrinkWhileWide(fonts, text, labelWidth, top);
  }

  /** No size from the starting size down to 1 fits, so the fitting loop asks the font
      library for a size below 1. */
  ghost predicate StringFails(fonts: Fonts, text: string, multiline: bool, labelWidth: real,
                              replaceWhitespace: bool, maxFontSize: Option<int>)
  {
    var start := StartSize(text, multiline, maxFontSize);
    if multiline then forall k | 1 <= k <= start :: DrawWidth(fonts, fonts.fill(text, replaceWhitespace), k) >= labelWidth
    else forall k | 1 <= k <= start :: fonts.length(text, k) > labelWidth
  }

  /** LabelString.__init__: pick the starting size, fit, and take the object's size from
      the bounding box at the final size (getbbox for one line, textbbox for several).
      Multi-line text is first wrapped at 40 columns. */
  method MakeLabelString(fonts: Fonts, text: string, multiline: bool, labelWidth: real,
                         replaceWhitespace: bool, maxFontSize: Option<int>, align: Align,
                         marginTop: Option<int>, marginBottom: Option<int>)
    returns (r: Result<LabelObject, LayoutError>)
    requires multiline ==> GrowStops(fonts, fonts.fill(text, replaceWhitespace), labelWidth, StartSize(text, multiline, maxFontSize))
    ensures r.Ok? ==> r.value.LabelString? && r.value.multiline == multiline && r.value.align == align
    ensures r.Ok? ==> r.value.marginTop == marginTop && r.value.marginBottom == marginBottom
    ensures r.Ok? && !multiline ==>
      var o := r.value;
      o.text == text &&
      SingleLineFit(fonts, text, labelWidth, StartSize(text, false, maxFontSize), o.fontSize) &&
      o.width == fonts.bbox(text, o.fontSize).right - fonts.bbox(text, o.fontSize).left &&
      o.height == fonts.bbox(text, o.fontSize).bottom - fonts.bbox(text, o.fontSize).top
    ensures r.Ok? && multiline ==>
      var o := r.value;
      o.text == fonts.fill(text, replaceWhitespace) &&
      MultiLineFit(fonts, o.text, labelWidth, o.fontSize) &&
      o.width as real == DrawWidth(fonts, o.text, o.fontSize) &&
      o.height == fonts.drawBbox(o.text, o.fontSize).bottom - fonts.drawBbox(o.text, o.fontSize).top
    ensures r.Ok? ==> r.value.offsetTop == fonts.bbox(r.value.text, r.value.fontSize).top
    ensures r.Err? <==> StringFails(fonts, text, multiline, labelWidth, replaceWhitespace, maxFontSize)
  {
    var start := StartSize(text, multiline, maxFontSize);
    if !multiline {
      var fit := FitSingleLine(fonts, text, labelWidth, start);
      if fit.Err? {
        return Err(fit.error);
      }
      var size := fit.value;
      assert fonts.length(text, size) <= labelWidth;
      var b := fonts.bbox(text, size);
      r := Ok(LabelString(text, false, size, align, b.right - b.left, b.bottom - b.top, b.top, marginTop, marginBottom));
    } else {
      var wrapped := fonts.fill(text, replaceWhitespace);
      var fit;
      ghost var peak;
      fit, peak := FitMultiLine(fonts, wrapped, labelWidth, start);
      if fit.Err? {
        return Err(fit.error);
      }
      var size := fit.value;
      // a narrow size at or below the start: the start itself when growing took a step
      if start < peak {
        assert DrawWidth(fonts, wrapped, start) < labelWidth;
      } else {
        assert MultiLineFit(fonts, wrapped, labelWidth, size) && size <= start;
      }
      var b := fonts.drawBbox(wrapped, size);
      r := Ok(LabelString(wrapped, true, size, align, b.right - b.left, b.bottom - b.top,
                          fonts.bbox(wrapped, size).top, marginTop, marginBottom));
    }
  }

  // ---------------------------------------------------------------- images

  /** The resize of LabelImage.__init__ fails: the width division raises for a zero-width
      image, and Pillow refuses a target with a zero side unless the image already has
      the target size (it then copies the image without resampling). */
  predicate ImageFails(imageWidth: nat, imageHeight: nat, labelWidth: nat)
  {
    imageWidth == 0 || (imageWidth != labelWidth && (labelWidth == 0 || labelWidth * imageHeight < imageWidth))
  }

  /** Floor division by a positive number brackets the dividend. */
  lemma FloorDivBounds(a: nat, b: nat)
    requires b > 0
    ensures (a / b) * b <= a < (a / b + 1) * b
    ensures a / b == 0 <==> a < b
  {
    var q, m := a / b, a % b;
    assert a == q * b + m && 0 <= m < b;
    assert (q + 1) * b == q * b + b;
    if q >= 1 {
      assert q * b >= b by { assert q * b == (q - 1) * b + b; }
    }
  }

  /** LabelImage.__init__: the image is resized to the label width, keeping its aspect
      ratio with the new height truncated to whole pixels. Pillow returns a copy when the
      size does not change, and otherwise refuses a target with a zero side. */
  function MakeLabelImage(imageWidth: nat, imageHeight: nat, labelWidth: nat,
                          marginTop: Option<int>, marginBottom: Option<int>): (r: Result<LabelObject, LayoutError>)
    ensures r.Err? <==> ImageFails(imageWidth, imageHeight, labelWidth)
    ensures r.Ok? ==> r.value.LabelImage? && r.value.width == labelWidth
    ensures r.Ok? ==> r.value.height * imageWidth <= labelWidth * imageHeight < (r.value.height + 1) * imageWidth
    ensures r.Ok? ==> r.value.marginTop == marginTop && r.value.marginBottom == marginBottom
  {
    if imageWidth == 0 then Err(ZeroWidthImage)
    else
      var newHeight := labelWidth * imageHeight / imageWidth;
      FloorDivBounds(labelWidth * imageHeight, imageWidth);
      if imageWidth != labelWidth && (labelWidth == 0 || newHeight == 0) then Err(EmptyResize(labelWidth, newHeight))
      else Ok(LabelImage(labelWidth, newHeight, marginTop, marginBottom))
  }

  // ---------------------------------------------------------------- vertical layout

  function Top(o: LabelObject): int { o.marginTop.GetOr(0) }

  function Bottom(o: LabelObject, margin: int): int { o.marginBottom.GetOr(margin) }

  /** How far one object advances the cursor: its top margin, height and bottom margin. */
  function Step(o: LabelObject, margin: int): int { Top(o) + o.height + Bottom(o, margin) }

  /** The total advance of a sequence of objects. */
  function Extent(objects: seq<LabelObject>, margin: int): int
  {
    if objects == [] then 0
    else Extent(objects[..|objects| - 1], margin) + Step(objects[|objects| - 1], margin)
  }

  /** get_canvas_height's value: the objects' heights alone. */
  function ContentHeight(objects: seq<LabelObject>): int
  {
    if objects == [] then 0
    else ContentHeight(objects[..|objects| - 1]) + objects[|objects| - 1].height
  }

  /** get_label_height_in_px: the label length minus the printer's margins at both ends,
      at 300 / 25.4 pixels per millimetre, rounded down. */
  function HeightInPx(heightMm: real): int
  {
    ((heightMm - 2.0 * PRINTER_HEIGHT_MARGIN_MM as real) * 3000.0 / 254.0).Floor
  }

  lemma HeightOf25mm()
    ensures HeightInPx(25.0) == 224
  {
  }

  /** Where the top of object i lands: the cursor starts at the margin and object i
      starts after the advance of the objects before it and its own top margin. */
  function YOf(objects: seq<LabelObject>, margin: int, i: nat): int
    requires i < |objects|
  {
    margin + Extent(objects[..i], margin) + Top(objects[i])
  }

  /** The horizontal position of an object: centred, or 58 pixels from the left or
      right edge. Images are always centred. */
  function XOf(o: LabelObject): real
  {
    var align := if o.LabelString? then o.align else Center;
    match align
    case Center => 0.5 * (IMG_WIDTH - o.width) as real
    case Left => SIDE_GAP
    case Right => IMG_WIDTH as real - SIDE_GAP - o.width as real
  }

  lemma HorizontalPlacement(o: LabelObject)
    ensures (o.LabelImage? || o.align == Center) ==> XOf(o) == IMG_WIDTH as real - (XOf(o) + o.width as real)
    ensures o.LabelString? && o.align == Left ==> XOf(o) == 58.0
    ensures o.LabelString? && o.align == Right ==> XOf(o) + o.width as real == (IMG_WIDTH - 58) as real
  {
  }

  /** Python's round() of a float: to the nearest integer, ties to the even one. */
  function RoundHalfEven(x: real): (n: int)
    ensures x - 0.5 <= n as real <= x + 0.5
    ensures n as real - x == 0.5 || x - n as real == 0.5 ==> n % 2 == 0
  {
    var f := x.Floor;
    var d := x - f as real;
    if d < 0.5 then f
    else if d > 0.5 then f + 1
    else if f % 2 == 0 then f else f + 1
  }

  /** What generate_label draws: text at its position (shifted up by the box top so the
      ink starts at the cursor), or an image pasted at its rounded position. */
  datatype Drawn =
    | Text(x: real, y: int, text: string, fontSize: int, multiline: bool)
    | Paste(px: int, py: int, width: int, height: int)

  datatype Canvas = Canvas(width: int, height: int, items: seq<Drawn>)

  function Draw(o: LabelObject, y: int): Drawn
  {
    match o
    case LabelString(text, multiline, size, _, _, _, offsetTop, _, _) => Text(XOf(o), y - offsetTop, text, size, multiline)
    case LabelImage(w, h, _, _) => Paste(RoundHalfEven(XOf(o)), y, w, h)
  }

  /** The drawing of every object, in order. */
  function Placements(objects: seq<LabelObject>, margin: int): seq<Drawn>
  {
    if objects == [] then []
    else
      var n := |objects| - 1;
      Placements(objects[..n], margin) + [Draw(objects[n], margin + Extent(objects[..n], margin) + Top(objects[n]))]
  }

  lemma {:induction false} PlacementAt(objects: seq<LabelObject>, margin: int, i: nat)
    requires i < |objects|
    ensures |Placements(objects, margin)| == |objects|
    ensures Placements(objects, margin)[i] == Draw(objects[i], YOf(objects, margin, i))
  {
    var n := |objects| - 1;
    var front := objects[..n];
    var last := Draw(objects[n], margin + Extent(front, margin) + Top(objects[n]));
    assert Placements(objects, margin) == Placements(front, margin) + [last];
    if i < n {
      PlacementAt(front, margin, i);
      assert front[..i] == objects[..i];
      assert front[i] == objects[i];
      assert YOf(front, margin, i) == YOf(objects, margin, i);
    } else {
      if n > 0 {
        PlacementAt(front, margin, n - 1);
      }
      assert YOf(objects, margin, n) == margin + Extent(front, margin) + Top(objects[n]);
    }
  }

  lemma {:induction false} ExtentSplit(objects: seq<LabelObject>, margin: int, i: nat)
    requires i <= |objects|
    ensures Extent(objects, margin) == Extent(objects[..i], margin) + Extent(objects[i..], margin)
    decreases |objects|
  {
    if i < |objects| {
      var n := |objects| - 1;
      ExtentSplit(objects[..n], margin, i);
      assert objects[..n][..i] == objects[..i];
      assert objects[i..][..|objects[i..]| - 1] == objects[..n][i..];
    } else {
      assert objects[..i] == objects;
      assert objects[i..] == [];
    }
  }

  lemma {:induction false} ExtentNonNegative(objects: seq<LabelObject>, margin: int)
    requires margin >= 0
    requires forall o | o in objects :: Top(o) >= 0 && o.height >= 0 && Bottom(o, margin) >= 0
    ensures Extent(objects, margin) >= 0
  {
    if objects != [] {
      var n := |objects| - 1;
      assert objects[n] in objects;
      ExtentNonNegative(objects[..n], margin);
    }
  }

  /** With non-negative sizes and margins, objects are stacked in order: each one ends
      (bottom margin included) before the next one begins. */
  lemma NoOverlap(objects: seq<LabelObject>, margin: int, i: nat, j: nat)
    requires i < j < |objects|
    requires margin >= 0
    requires forall o | o in objects :: Top(o) >= 0 && o.height >= 0 && Bottom(o, margin) >= 0
    ensures YOf(objects, margin, i) + objects[i].height + Bottom(objects[i], margin) <= YOf(objects, margin, j)
  {
    var prefix := objects[..j];
    ExtentSplit(prefix, margin, i + 1);
    assert prefix[..i + 1] == objects[..i + 1];
    assert objects[..i + 1][..i] == objects[..i];
    ExtentNonNegative(prefix[i + 1..], margin);
  }

  /** A label of objects without explicit margins: the content, and margin-sized gaps
      before, between and after the objects. */
  lemma {:induction false} ExtentWithoutMargins(objects: seq<LabelObject>, margin: int)
    requires forall o | o in objects :: o.marginTop.None? && o.marginBottom.None?
    ensures Extent(objects, margin) == ContentHeight(objects) + |objects| * margin
  {
    if objects != [] {
      var n := |objects| - 1;
      assert objects[n] in objects;
      ExtentWithoutMargins(objects[..n], margin);
    }
  }

  /** The millimetre case: the margin is floor((height - content) / (N + 1)), so the
      content and N + 1 gaps fit the label height, with less than N + 1 pixels left over. */
  lemma MarginFitsHeight(labelHeight: int, content: int, n: nat)
    ensures var margin := (labelHeight - content) / (n + 1);
            content + (n + 1) * margin <= labelHeight < content + (n + 1) * (margin + 1)
  {
  }

  class Label {
    const objects: seq<LabelObject>
    var labelWidth: int
    var labelHeight: int
    var labelMargin: int
    var image: Canvas
    /** Where generate_label's cursor stops after the last object. */
    ghost var cursorEnd: int

    /** Label.__init__: the height is summed from the objects (margin 48, a missing
        top margin counting 0 and a missing bottom margin counting 48) or derived from
        a length in millimetres, with the leftover split into N + 1 equal gaps. */
    constructor (objects: seq<LabelObject>, heightMm: Option<real>)
      ensures this.objects == objects && labelWidth == IMG_WIDTH
      ensures heightMm.None? ==>
        labelMargin == ITEM_MARGIN && labelHeight == ITEM_MARGIN + Extent(objects, ITEM_MARGIN)
      ensures heightMm.Some? ==>
        labelHeight == HeightInPx(heightMm.value) &&
        labelMargin == (labelHeight - ContentHeight(objects)) / (|objects| + 1)
      ensures image == Canvas(IMG_WIDTH, labelHeight, Placements(objects, labelMargin))
      ensures cursorEnd == labelMargin + Extent(objects, labelMargin)
      ensures heightMm.None? ==> cursorEnd == labelHeight
    {
      this.objects := objects;
      labelWidth := CANVAS_WIDTH;
      if heightMm.None? {
        var margin := ITEM_MARGIN;
        var h := margin;
        var i := 0;
        while i < |objects|
          invariant 0 <= i <= |objects|
          invariant h == margin + Extent(objects[..i], margin)
        {
          assert objects[..i + 1][..i] == objects[..i];
          h := h + objects[i].height;
          h := h + Top(objects[i]);
          h := h + Bottom(objects[i], margin);
          i := i + 1;
        }
        assert objects[..|objects|] == objects;
        labelMargin := margin;
        labelHeight := h;
      } else {
        var height := HeightInPx(heightMm.value);
        var content := CanvasHeight(objects);
        labelHeight := height;
        labelMargin := (height - content) / (|objects| + 1);
      }
      labelWidth := IMG_WIDTH;
      image := Canvas(0, 0, []);
      cursorEnd := 0;
      new;
      var drawn;
      drawn, cursorEnd := GenerateLabel();
      image := drawn;
    }

    /** generate_label: walk the cursor down from the margin, placing each object. */
    method GenerateLabel() returns (c: Canvas, ghost cursor: int)
      ensures c == Canvas(labelWidth, labelHeight, Placements(objects, labelMargin))
      ensures cursor == labelMargin + Extent(objects, labelMargin)
    {
      var y := labelMargin;
      var items: seq<Drawn> := [];
      var i := 0;
      while i < |objects|
        invariant 0 <= i <= |objects|
        invariant y == labelMargin + Extent(objects[..i], labelMargin)
        invariant items == Placements(objects[..i], labelMargin)
      {
        assert objects[..i + 1][..i] == objects[..i];
        var o := objects[i];
        y := y + Top(o);
        items := items + [Draw(o, y)];
        y := y + o.height;
        y := y + Bottom(o, labelMargin);
        i := i + 1;
      }
      assert objects[..|objects|] == objects;
      c := Canvas(labelWidth, labelHeight, items);
      cursor := y;
    }
  }

  /** Label.get_canvas_height: the sum of the objects' heights. */
  method CanvasHeight(objects: seq<LabelObject>) returns (h: int)
    ensures h == ContentHeight(objects)
  {
    h := 0;
    var i := 0;
    while i < |objects|
      invariant 0 <= i <= |objects|
      invariant h == ContentHeight(objects[..i])
    {
      assert objects[..i + 1][..i] == objects[..i];
      h := h + objects[i].height;
      i := i + 1;
    }
    assert objects[..|objects|] == objects;
  }

  /** In a label sized by summing (no millimetre length) whose sizes and margins are
      non-negative, every object lies inside the canvas. */
  lemma InsideCanvas(objects: seq<LabelObject>, i: nat)
    requires i < |objects|
    requires forall o | o in objects :: Top(o) >= 0 && o.height >= 0 && Bottom(o, ITEM_MARGIN) >= 0
    ensures 0 <= YOf(objects, ITEM_MARGIN, i)
    ensures YOf(objects, ITEM_MARGIN, i) + objects[i].height <= ITEM_MARGIN + Extent(objects, ITEM_MARGIN)
  {
    ExtentSplit(objects, ITEM_MARGIN, i + 1);
    assert objects[..i + 1][..i] == objects[..i];
    ExtentNonNegative(objects[..i], ITEM_MARGIN);
    ExtentNonNegative(objects[i + 1..], ITEM_MARGIN);
    assert objects[i] in objects;
  }
}
