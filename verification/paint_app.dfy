/**
 * The stand-alone paint app: the image is fitted into an 800-pixel box, ten
 * random colours and fifty numbered segments are made up, and the preview
 * lays the segments out as a grid of numbered discs. `Math.random()` is the
 * parameter `rand`, where `rand(k)` is the k-th value drawn; the canvas and
 * preview surfaces are lists of drawing commands.
 */
module PaintApp {
  import opened PaintTypes
  import opened Numerals

  /** A value `Math.random()` can return. */
  type Unit = r: real | 0.0 <= r < 1.0 witness 0.0

  const MaxSize: real := 800.0
  const SegmentCount := 50
  const ColorCount := 10
  const SegmentSize := 40

  /**
   * The size `processImage` gives the canvas: a side over 800 is brought down
   * to 800 and the other scaled with it; the wider side decides, a tie goes
   * to height.
   */
  function FitSize(naturalWidth: real, naturalHeight: real): (size: (real, real))
    requires naturalWidth >= 0.0 && naturalHeight >= 0.0
    ensures 0.0 <= size.0 <= MaxSize && 0.0 <= size.1 <= MaxSize
    ensures naturalWidth <= MaxSize && naturalHeight <= MaxSize ==> size == (naturalWidth, naturalHeight)
    ensures naturalWidth > MaxSize || naturalHeight > MaxSize ==>
      size.0 * naturalHeight == size.1 * naturalWidth
    ensures naturalWidth > naturalHeight && naturalWidth > MaxSize ==> size.0 == MaxSize
    ensures naturalWidth <= naturalHeight && naturalHeight > MaxSize ==> size.1 == MaxSize
  {
    if naturalWidth > naturalHeight && naturalWidth > MaxSize then
      ScaledSide(naturalHeight, naturalWidth);
      (MaxSize, (naturalHeight / naturalWidth) * MaxSize)
    else if naturalWidth <= naturalHeight && naturalHeight > MaxSize then
      ScaledSide(naturalWidth, naturalHeight);
      ((naturalWidth / naturalHeight) * MaxSize, MaxSize)
    else
      (naturalWidth, naturalHeight)
  }

  /** The sizing step of `processImage`, updating the two sides in place. */
  method FitPreview(naturalWidth: real, naturalHeight: real) returns (width: real, height: real)
    requires naturalWidth >= 0.0 && naturalHeight >= 0.0
    ensures 0.0 <= width <= MaxSize && 0.0 <= height <= MaxSize
    ensures naturalWidth <= MaxSize && naturalHeight <= MaxSize ==>
      width == naturalWidth && height == naturalHeight
    ensures naturalWidth > MaxSize || naturalHeight > MaxSize ==>
      width * naturalHeight == height * naturalWidth
    ensures naturalWidth > naturalHeight && naturalWidth > MaxSize ==> width == MaxSize
    ensures naturalWidth <= naturalHeight && naturalHeight > MaxSize ==> height == MaxSize
    ensures width == FitSize(naturalWidth, naturalHeight).0 && height == FitSize(naturalWidth, naturalHeight).1
  {
    width := naturalWidth;
    height := naturalHeight;
    if width > height {
      if width > MaxSize {
        height := (height / width) * MaxSize;
        width := MaxSize;
        ScaledSide(naturalHeight, naturalWidth);
      }
    } else {
      if height > MaxSize {
        width := (width / height) * MaxSize;
        height := MaxSize;
        ScaledSide(naturalWidth, naturalHeight);
      }
    }
  }

  /** The shorter side `a` of a box with longer side `b > 800`, scaled so `b` becomes 800. */
  lemma ScaledSide(a: real, b: real)
    requires 0.0 <= a <= b && b > MaxSize
    ensures 0.0 <= (a / b) * MaxSize <= MaxSize
    ensures MaxSize * a == ((a / b) * MaxSize) * b
  {
    var q := a / b;
    assert q * b == a;
    assert 0.0 <= q <= 1.0;
  }

  /** `Math.floor(u * n)` for a random `u`: an index below `n`. */
  lemma FloorBelow(u: Unit, n: nat)
    requires n > 0
    ensures 0 <= (u * n as real).Floor < n
  {
    assert u * n as real < n as real by {
      assert (1.0 - u) * n as real > 0.0;
    }
  }

  /** Truncating a size in 0..800 to whole pixels stays in 0..800. */
  lemma FloorWithin(w: real)
    requires 0.0 <= w <= MaxSize
    ensures 0 <= w.Floor <= 800
  {
  }

  /** `hsl(${hue}, 70%, 70%)`. */
  function Hsl(hue: nat): string {
    "hsl(" + Decimal(hue) + ", 70%, 70%)"
  }

  /** The hue of the i-th colour: `Math.floor(Math.random() * 360)`. */
  function Hue(rand: nat -> Unit, i: nat): (h: nat)
    ensures h < 360
  {
    FloorBelow(rand(i), 360);
    (rand(i) * 360.0).Floor
  }

  /** The colour loop of `processImage`: ten colours drawn from the first ten random values. */
  method NewColors(rand: nat -> Unit) returns (colors: seq<string>)
    ensures |colors| == ColorCount
    ensures forall i :: 0 <= i < |colors| ==> colors[i] == Hsl(Hue(rand, i)) && Hue(rand, i) < 360
  {
    colors := [];
    for i := 0 to ColorCount
      invariant |colors| == i
      invariant forall k :: 0 <= k < i ==> colors[k] == Hsl(Hue(rand, k))
    {
      colors := colors + [Hsl(Hue(rand, i))];
    }
  }

  datatype Segment = Segment(id: int, color: string, number: int)

  /** `Math.floor(Math.random() * newColors.length)` for segment `i`, drawn after the colours. */
  function ColorIndex(rand: nat -> Unit, i: nat, n: nat): (k: nat)
    requires n > 0
    ensures k < n
  {
    FloorBelow(rand(ColorCount + i), n);
    (rand(ColorCount + i) * n as real).Floor
  }

  /** The segment loop of `processImage`: segment i has id i, number i + 1 and a drawn colour. */
  method NewSegments(colors: seq<string>, rand: nat -> Unit) returns (segments: seq<Segment>)
    requires |colors| > 0
    ensures |segments| == SegmentCount
    ensures forall i :: 0 <= i < |segments| ==>
      segments[i].id == i && segments[i].number == i + 1 && segments[i].color in colors
    ensures forall i :: 0 <= i < |segments| ==> segments[i].color == colors[ColorIndex(rand, i, |colors|)]
  {
    segments := [];
    for i := 0 to SegmentCount
      invariant |segments| == i
      invariant forall k :: 0 <= k < i ==>
        segments[k] == Segment(k, colors[ColorIndex(rand, k, |colors|)], k + 1)
    {
      var colorIndex := ColorIndex(rand, i, |colors|);
      segments := segments + [Segment(i, colors[colorIndex], i + 1)];
    }
  }

  /** The body of the `setTimeout` in `processImage`: ten colours, then fifty segments coloured from them. */
  method MakeSegments(rand: nat -> Unit) returns (colors: seq<string>, segments: seq<Segment>)
    ensures |colors| == ColorCount && |segments| == SegmentCount
    ensures forall i :: 0 <= i < |colors| ==> colors[i] == Hsl(Hue(rand, i))
    ensures forall i :: 0 <= i < |segments| ==>
      segments[i].id == i && segments[i].number == i + 1 && segments[i].color in colors
    ensures forall i :: 0 <= i < |segments| ==> segments[i].color == colors[ColorIndex(rand, i, |colors|)]
  {
    colors := NewColors(rand);
    segments := NewSegments(colors, rand);
  }

  /** `Math.ceil(canvas.width / 40)`: the number of grid columns. */
  function Columns(canvasWidth: nat): (cols: nat)
    ensures cols * SegmentSize >= canvasWidth
    ensures cols > 0 ==> (cols - 1) * SegmentSize < canvasWidth
    ensures cols == 0 <==> canvasWidth == 0
  {
    (canvasWidth + SegmentSize - 1) / SegmentSize
  }

  /** A grid cell; its disc and number are centred at (col * 40 + 20, row * 40 + 20). */
  datatype Cell = Cell(row: nat, col: nat)

  /**
   * Where segment `index` goes: row `index / cols`, column `index % cols`.
   * With a zero-width canvas `cols` is 0, the division gives NaN and nothing
   * lands anywhere (`None`).
   */
  function Place(index: nat, cols: nat): (c: Option<Cell>)
    ensures c.None? <==> cols == 0
    ensures c.Some? ==> c.value.col < cols && c.value.row * cols + c.value.col == index
  {
    if cols == 0 then None else Some(Cell(index / cols, index % cols))
  }

  /** Distinct segments get distinct cells. */
  lemma PlaceInjective(i: nat, j: nat, cols: nat)
    requires cols > 0 && i != j
    ensures Place(i, cols) != Place(j, cols)
  {
  }

  /** What the preview canvas receives. */
  datatype PreviewCmd =
    | ClearRect(width: int, height: int)
    | GrayImage(width: int, height: int)
    | Disc(cell: Cell, fill: string)             // radius 18, colour with alpha '40', black border
    | Number(number: int, cell: Cell)            // black 12px, centred
    | Spot(x: real, y: real, color: string)      // radius 15

  function SegmentsCommands(segments: seq<Segment>, cols: nat, showNumbers: bool, from: nat): (cmds: seq<PreviewCmd>)
    ensures cols == 0 ==> cmds == []
    ensures !showNumbers ==> forall k :: 0 <= k < |cmds| ==> !cmds[k].Number?
    ensures cols > 0 && showNumbers ==>
      forall i :: 0 <= i < |segments| ==> Number(segments[i].number, Place(from + i, cols).value) in cmds
    ensures cols > 0 ==>
      forall i :: 0 <= i < |segments| ==> Disc(Place(from + i, cols).value, segments[i].color + "40") in cmds
    decreases |segments|
  {
    if segments == [] || cols == 0 then []
    else
      var cell := Place(from, cols).value;
      var disc := [Disc(cell, segments[0].color + "40")];
      var tag := if showNumbers then [Number(segments[0].number, cell)] else [];
      var rest := SegmentsCommands(segments[1..], cols, showNumbers, from + 1);
      assert forall i :: 1 <= i < |segments| ==> segments[i] == segments[1..][i - 1] && from + i == (from + 1) + (i - 1);
      disc + tag + rest
  }

  /** `drawPreview()` for a canvas of the given size. */
  function Preview(segments: seq<Segment>, width: nat, height: nat, showNumbers: bool): seq<PreviewCmd> {
    [ClearRect(width, height), GrayImage(width, height)] + SegmentsCommands(segments, Columns(width), showNumbers, 0)
  }

  class App {
    var colors: seq<string>
    var segments: seq<Segment>
    var selectedColor: Option<string>
    var showNumbers: bool
    var isProcessing: bool
    var width: nat       // canvas.width, after the browser truncates
    var height: nat
    var preview: seq<PreviewCmd>

    constructor()
      ensures colors == [] && segments == [] && selectedColor == None
      ensures showNumbers && !isProcessing && preview == []
    {
      colors := [];
      segments := [];
      selectedColor := None;
      showNumbers := true;
      isProcessing := false;
      width, height := 0, 0;
      preview := [];
    }

    /**
     * `processImage` for an image of the given natural size, followed by the
     * redraw the new segments trigger: the canvas is sized to fit 800x800,
     * ten colours and fifty segments are made, the first colour is selected.
     */
    method ProcessImage(naturalWidth: real, naturalHeight: real, rand: nat -> Unit)
      requires naturalWidth >= 0.0 && naturalHeight >= 0.0
      modifies this
      ensures width <= 800 && height <= 800
      ensures naturalWidth <= MaxSize && naturalHeight <= MaxSize ==>
        width == naturalWidth.Floor && height == naturalHeight.Floor
      ensures width == FitSize(naturalWidth, naturalHeight).0.Floor
      ensures height == FitSize(naturalWidth, naturalHeight).1.Floor
      ensures |colors| == ColorCount && |segments| == SegmentCount
      ensures forall i :: 0 <= i < |colors| ==> colors[i] == Hsl(Hue(rand, i))
      ensures forall i :: 0 <= i < |segments| ==> segments[i].color == colors[ColorIndex(rand, i, |colors|)]
      ensures forall i :: 0 <= i < |segments| ==>
        segments[i].id == i && segments[i].number == i + 1 && segments[i].color in colors
      ensures selectedColor == Some(colors[0])
      ensures showNumbers == old(showNumbers) && !isProcessing
      ensures preview == Preview(segments, width, height, showNumbers)
    {
      isProcessing := true;
      var w, h := FitPreview(naturalWidth, naturalHeight);
      FloorWithin(w);
      FloorWithin(h);
      width, height := w.Floor, h.Floor;
      var newColors, newSegments := MakeSegments(rand);
      colors := newColors;
      segments := newSegments;
      selectedColor := Some(newColors[0]);
      preview := Preview(segments, width, height, showNumbers);
      isProcessing := false;
    }

    /** The "Show/Hide Numbers" button; the preview is redrawn when there are segments. */
    method ToggleNumbers()
      modifies this`showNumbers, this`preview
      ensures showNumbers == !old(showNumbers)
      ensures |segments| > 0 ==> preview == Preview(segments, width, height, showNumbers)
      ensures |segments| == 0 ==> preview == old(preview)
    {
      showNumbers := !showNumbers;
      if |segments| > 0 {
        preview := Preview(segments, width, height, showNumbers);
      }
    }

    /** `handleCanvasClick`: with no colour selected nothing is drawn, else a spot of that colour. */
    method CanvasClick(x: real, y: real)
      modifies this`preview
      ensures selectedColor.None? ==> preview == old(preview)
      ensures selectedColor.Some? ==> preview == old(preview) + [Spot(x, y, selectedColor.value)]
    {
      if selectedColor.None? {
        return;
      }
      preview := preview + [Spot(x, y, selectedColor.value)];
    }
  }
}
