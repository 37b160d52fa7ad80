/**
 * The painting canvas: the region list it paints in place, the hit-test that
 * picks the first region containing the pointer, the paint / wrong-colour /
 * brush decision, the mouse state machine, and what a redraw puts on the canvas.
 *
 * The browser's `isPointInPath` is a parameter `inPath(path, x, y)`; the canvas
 * surface is the list of drawing commands issued since it was last cleared.
 */
module PaintCanvas {
  import opened PaintTypes
  import opened PathBounds
  import opened Seqs
  import Completion

  /** Where a region's label goes: the centre of its path bounds, per axis (`None` is NaN). */
  datatype Anchor = Anchor(cx: Option<real>, cy: Option<real>)

  /** The drawing operations the canvas issues. */
  datatype DrawCmd =
    | Clear(width: int, height: int)
    | Background(width: int, height: int)
    | Stroke(path: string)                          // '#333', line width 2
    | Fill(path: string, hex: string)
    | Plate(at: Anchor)                              // 24x16 white plate centred on the anchor
    | Label(number: int, at: Anchor)                 // the colour number, bold 12px, centred
    | Dab(x: real, y: real, radius: real, color: string)

  /** `colors.find(c => c.number === n)`. */
  function FindColor(colors: seq<Color>, n: int): (c: Option<Color>)
    ensures c.Some? ==> c.value in colors && c.value.number == n
    ensures c.None? <==> forall i :: 0 <= i < |colors| ==> colors[i].number != n
    ensures c.Some? ==> exists i :: 0 <= i < |colors| && colors[i] == c.value &&
                                  forall j :: 0 <= j < i ==> colors[j].number != n
  {
    if colors == [] then None
    else if colors[0].number == n then Some(colors[0])
    else
      var rest := FindColor(colors[1..], n);
      assert forall i :: 1 <= i < |colors| ==> colors[i] == colors[1..][i - 1];
      rest
  }

  function Centre(e: Option<Extent>): Option<real> {
    if e.None? then None else Some(e.value.lo + e.value.size / 2.0)
  }

  /** `bounds.x + bounds.width / 2`, `bounds.y + bounds.height / 2`. */
  function LabelAnchor(path: string): Anchor {
    var b := GetPathBounds(path);
    Anchor(Centre(b.x), Centre(b.y))
  }

  /** Each label coordinate is NaN iff its axis of the bounds is, and otherwise lies inside that axis. */
  lemma LabelInsideBounds(path: string)
    ensures var a, b := LabelAnchor(path), GetPathBounds(path);
      && (a.cx.None? <==> b.x.None?) && (a.cy.None? <==> b.y.None?)
      && (a.cx.Some? ==> Within(b.x.value, a.cx.value))
      && (a.cy.Some? ==> Within(b.y.value, a.cy.value))
  {
  }

  /** The commands `drawRegionsAndNumbers` issues for one region. */
  function RegionCommands(r: Region, colors: seq<Color>, showNumbers: bool): (cmds: seq<DrawCmd>)
    ensures FindColor(colors, r.colorNumber).None? ==> cmds == []
    ensures FindColor(colors, r.colorNumber).Some? ==> cmds != [] && cmds[0] == Stroke(r.path)
    ensures (exists h :: Fill(r.path, h) in cmds) <==> FindColor(colors, r.colorNumber).Some? && IsPainted(r)
    ensures FindColor(colors, r.colorNumber).Some? && IsPainted(r) ==>
      cmds == [Stroke(r.path), Fill(r.path, FindColor(colors, r.colorNumber).value.hex)]
    ensures FindColor(colors, r.colorNumber).Some? && !IsPainted(r) && showNumbers ==>
      cmds == [Stroke(r.path), Plate(LabelAnchor(r.path)), Label(r.colorNumber, LabelAnchor(r.path))]
    ensures FindColor(colors, r.colorNumber).Some? && !IsPainted(r) && !showNumbers ==> cmds == [Stroke(r.path)]
    ensures (Label(r.colorNumber, LabelAnchor(r.path)) in cmds) <==>
      FindColor(colors, r.colorNumber).Some? && showNumbers && !IsPainted(r)
  {
    match FindColor(colors, r.colorNumber)
    case None => []
    case Some(c) =>
      var fill := if IsPainted(r) then [Fill(r.path, c.hex)] else [];
      var tag := if showNumbers && !IsPainted(r)
                   then [Plate(LabelAnchor(r.path)), Label(r.colorNumber, LabelAnchor(r.path))]
                   else [];
      [Stroke(r.path)] + fill + tag
  }

  /** The per-region drawing step of `drawRegionsAndNumbers`. */
  function RegionDrawer(colors: seq<Color>, showNumbers: bool): Region -> seq<DrawCmd> {
    r => RegionCommands(r, colors, showNumbers)
  }

  /** `regions.forEach(...)` of `drawRegionsAndNumbers`, in declaration order. */
  function RegionsCommands(rs: seq<Region>, colors: seq<Color>, showNumbers: bool): (cmds: seq<DrawCmd>)
    ensures forall i :: 0 <= i < |rs| && FindColor(colors, rs[i].colorNumber).Some? ==> Stroke(rs[i].path) in cmds
    ensures (forall i :: 0 <= i < |rs| ==> FindColor(colors, rs[i].colorNumber).None?) ==> cmds == []
  {
    var f := RegionDrawer(colors, showNumbers);
    assert forall i :: 0 <= i < |rs| && FindColor(colors, rs[i].colorNumber).Some? ==> Stroke(rs[i].path) in FlatMap(rs, f) by {
      forall i | 0 <= i < |rs| && FindColor(colors, rs[i].colorNumber).Some?
        ensures Stroke(rs[i].path) in FlatMap(rs, f)
      {
        assert Stroke(rs[i].path) in f(rs[i]);
        FlatMapMember(rs, f, Stroke(rs[i].path));
      }
    }
    assert (forall i :: 0 <= i < |rs| ==> FindColor(colors, rs[i].colorNumber).None?) ==> FlatMap(rs, f) == [] by {
      if forall i :: 0 <= i < |rs| ==> FindColor(colors, rs[i].colorNumber).None? {
        assert forall i :: 0 <= i < |rs| ==> f(rs[i]) == [];
        FlatMapEmpty(rs, f);
      }
    }
    FlatMap(rs, f)
  }

  /** A full redraw (`drawPaintByNumbers` once the background has loaded). */
  function Frame(dims: Dimensions, rs: seq<Region>, colors: seq<Color>, showNumbers: bool): (f: seq<DrawCmd>)
    ensures |f| >= 2 && f[..2] == [Clear(dims.width, dims.height), Background(dims.width, dims.height)]
    ensures forall i :: 0 <= i < |rs| && FindColor(colors, rs[i].colorNumber).Some? ==> Stroke(rs[i].path) in f
  {
    [Clear(dims.width, dims.height), Background(dims.width, dims.height)] + RegionsCommands(rs, colors, showNumbers)
  }

  /**
   * A redraw draws the regions in declaration order: region `i`'s commands
   * form one block, after those of the regions before it and before those
   * of the regions after it.
   */
  lemma FrameBlock(dims: Dimensions, rs: seq<Region>, colors: seq<Color>, showNumbers: bool, i: nat)
    requires i < |rs|
    ensures Frame(dims, rs, colors, showNumbers) ==
      [Clear(dims.width, dims.height), Background(dims.width, dims.height)] +
      RegionsCommands(rs[..i], colors, showNumbers) + RegionCommands(rs[i], colors, showNumbers) +
      RegionsCommands(rs[i + 1..], colors, showNumbers)
  {
    var f := RegionDrawer(colors, showNumbers);
    var head := [Clear(dims.width, dims.height), Background(dims.width, dims.height)];
    var before, here, after := FlatMap(rs[..i], f), f(rs[i]), FlatMap(rs[i + 1..], f);
    FlatMapBlock(rs, f, i);
    assert Frame(dims, rs, colors, showNumbers) == head + (before + here + after);
    ConcatAssoc(head, before + here, after);
    ConcatAssoc(head, before, here);
  }

  lemma ConcatAssoc<T>(a: seq<T>, b: seq<T>, c: seq<T>)
    ensures a + (b + c) == (a + b) + c
  {
  }

  /** One region's commands fill a path with a colour iff the region is painted, has that path and that palette colour. */
  lemma FillOfRegion(r: Region, colors: seq<Color>, showNumbers: bool, p: string, h: string)
    ensures Fill(p, h) in RegionCommands(r, colors, showNumbers) <==>
      r.path == p && IsPainted(r) && FindColor(colors, r.colorNumber).Some? && FindColor(colors, r.colorNumber).value.hex == h
  {
    var cmds := RegionCommands(r, colors, showNumbers);
    if FindColor(colors, r.colorNumber).Some? && !IsPainted(r) && showNumbers {
      assert cmds == [Stroke(r.path), Plate(LabelAnchor(r.path)), Label(r.colorNumber, LabelAnchor(r.path))];
    } else if FindColor(colors, r.colorNumber).Some? && IsPainted(r) {
      assert cmds == [Stroke(r.path), Fill(r.path, FindColor(colors, r.colorNumber).value.hex)];
    }
  }

  /** One region's commands label a position with a number iff they are that region's own label. */
  lemma LabelOfRegion(r: Region, colors: seq<Color>, showNumbers: bool, n: int, a: Anchor)
    ensures Label(n, a) in RegionCommands(r, colors, showNumbers) <==>
      showNumbers && r.colorNumber == n && LabelAnchor(r.path) == a && !IsPainted(r) && FindColor(colors, n).Some?
  {
    var cmds := RegionCommands(r, colors, showNumbers);
    if FindColor(colors, r.colorNumber).Some? && !IsPainted(r) && showNumbers {
      assert cmds == [Stroke(r.path), Plate(LabelAnchor(r.path)), Label(r.colorNumber, LabelAnchor(r.path))];
    } else if FindColor(colors, r.colorNumber).Some? && IsPainted(r) {
      assert cmds == [Stroke(r.path), Fill(r.path, FindColor(colors, r.colorNumber).value.hex)];
    }
  }

  /** A redraw fills a path with a colour iff a painted region with that path has that palette colour. */
  lemma RegionsFills(rs: seq<Region>, colors: seq<Color>, showNumbers: bool, p: string, h: string)
    ensures Fill(p, h) in RegionsCommands(rs, colors, showNumbers) <==>
      exists i :: 0 <= i < |rs| && rs[i].path == p && IsPainted(rs[i]) &&
                  FindColor(colors, rs[i].colorNumber).Some? && FindColor(colors, rs[i].colorNumber).value.hex == h
  {
    var f := RegionDrawer(colors, showNumbers);
    FlatMapMember(rs, f, Fill(p, h));
    forall i | 0 <= i < |rs|
      ensures Fill(p, h) in f(rs[i]) <==>
        (rs[i].path == p && IsPainted(rs[i]) &&
         FindColor(colors, rs[i].colorNumber).Some? && FindColor(colors, rs[i].colorNumber).value.hex == h)
    {
      FillOfRegion(rs[i], colors, showNumbers, p, h);
    }
  }

  /**
   * A redraw labels a position with a number iff numbers are shown and an
   * unpainted region with a palette entry has that number and label anchor.
   */
  lemma RegionsLabels(rs: seq<Region>, colors: seq<Color>, showNumbers: bool, n: int, a: Anchor)
    ensures Label(n, a) in RegionsCommands(rs, colors, showNumbers) <==>
      showNumbers && exists i :: 0 <= i < |rs| && rs[i].colorNumber == n && LabelAnchor(rs[i].path) == a &&
                                 !IsPainted(rs[i]) && FindColor(colors, n).Some?
  {
    var f := RegionDrawer(colors, showNumbers);
    FlatMapMember(rs, f, Label(n, a));
    forall i | 0 <= i < |rs|
      ensures Label(n, a) in f(rs[i]) <==>
        (showNumbers && rs[i].colorNumber == n &&
         LabelAnchor(rs[i].path) == a && !IsPainted(rs[i]) && FindColor(colors, n).Some?)
    {
      LabelOfRegion(rs[i], colors, showNumbers, n, a);
    }
  }

  /** The fills and labels of a full redraw: painted regions are filled in their colour, unpainted ones labelled. */
  lemma FrameContents(dims: Dimensions, rs: seq<Region>, colors: seq<Color>, showNumbers: bool)
    ensures forall i :: 0 <= i < |rs| && FindColor(colors, rs[i].colorNumber).Some? && IsPainted(rs[i]) ==>
      Fill(rs[i].path, FindColor(colors, rs[i].colorNumber).value.hex) in Frame(dims, rs, colors, showNumbers)
    ensures forall i :: 0 <= i < |rs| && FindColor(colors, rs[i].colorNumber).Some? && !IsPainted(rs[i]) && showNumbers ==>
      Label(rs[i].colorNumber, LabelAnchor(rs[i].path)) in Frame(dims, rs, colors, showNumbers)
    ensures forall p, h :: Fill(p, h) in Frame(dims, rs, colors, showNumbers) ==>
      exists i :: 0 <= i < |rs| && rs[i].path == p && IsPainted(rs[i]) &&
                  FindColor(colors, rs[i].colorNumber).Some? && FindColor(colors, rs[i].colorNumber).value.hex == h
    ensures forall n, a :: Label(n, a) in Frame(dims, rs, colors, showNumbers) ==>
      showNumbers && exists i :: 0 <= i < |rs| && rs[i].colorNumber == n && LabelAnchor(rs[i].path) == a &&
                                 !IsPainted(rs[i]) && FindColor(colors, n).Some?
  {
    var head := [Clear(dims.width, dims.height), Background(dims.width, dims.height)];
    var body := RegionsCommands(rs, colors, showNumbers);
    assert Frame(dims, rs, colors, showNumbers) == head + body;
    forall i | 0 <= i < |rs| && FindColor(colors, rs[i].colorNumber).Some? && IsPainted(rs[i])
      ensures Fill(rs[i].path, FindColor(colors, rs[i].colorNumber).value.hex) in head + body
    {
      RegionsFills(rs, colors, showNumbers, rs[i].path, FindColor(colors, rs[i].colorNumber).value.hex);
    }
    forall i | 0 <= i < |rs| && FindColor(colors, rs[i].colorNumber).Some? && !IsPainted(rs[i]) && showNumbers
      ensures Label(rs[i].colorNumber, LabelAnchor(rs[i].path)) in head + body
    {
      RegionsLabels(rs, colors, showNumbers, rs[i].colorNumber, LabelAnchor(rs[i].path));
    }
    forall p, h | Fill(p, h) in head + body
      ensures exists i :: 0 <= i < |rs| && rs[i].path == p && IsPainted(rs[i]) &&
                          FindColor(colors, rs[i].colorNumber).Some? && FindColor(colors, rs[i].colorNumber).value.hex == h
    {
      assert Fill(p, h) in body;
      RegionsFills(rs, colors, showNumbers, p, h);
    }
    forall n, a | Label(n, a) in head + body
      ensures showNumbers && exists i :: 0 <= i < |rs| && rs[i].colorNumber == n && LabelAnchor(rs[i].path) == a &&
                                         !IsPainted(rs[i]) && FindColor(colors, n).Some?
    {
      assert Label(n, a) in body;
      RegionsLabels(rs, colors, showNumbers, n, a);
    }
  }

  /** Every command of a redraw belongs to one region; none belongs to a region without a palette entry. */
  lemma RegionsCommandsFrom(rs: seq<Region>, colors: seq<Color>, showNumbers: bool, cmd: DrawCmd)
    requires cmd in RegionsCommands(rs, colors, showNumbers)
    ensures exists i :: 0 <= i < |rs| && cmd in RegionCommands(rs[i], colors, showNumbers) &&
                        FindColor(colors, rs[i].colorNumber).Some?
  {
    var f := RegionDrawer(colors, showNumbers);
    FlatMapMember(rs, f, cmd);
    var i :| 0 <= i < |rs| && cmd in f(rs[i]);
    assert cmd in RegionCommands(rs[i], colors, showNumbers);
  }

  /** The first region, in declaration order, whose path contains the point (`regions.find`). */
  function FirstHit(rs: seq<Region>, inPath: (string, real, real) -> bool, x: real, y: real): (k: Option<nat>)
    ensures k.Some? ==> k.value < |rs| && inPath(rs[k.value].path, x, y)
    ensures k.Some? ==> forall j :: 0 <= j < k.value ==> !inPath(rs[j].path, x, y)
    ensures k.None? <==> forall j :: 0 <= j < |rs| ==> !inPath(rs[j].path, x, y)
  {
    if rs == [] then None
    else if inPath(rs[0].path, x, y) then Some(0)
    else
      var rest := FirstHit(rs[1..], inPath, x, y);
      assert forall j :: 1 <= j < |rs| ==> rs[j] == rs[1..][j - 1];
      if rest.None? then None else Some(rest.value + 1)
  }

  /** The outcome of one paint attempt. */
  datatype PaintOutcome =
    | NoData                          // no paint-by-numbers data loaded
    | Painted(index: nat)             // the hit region had the selected number and is now painted
    | WrongColor(needed: int)         // the hit region needs another number; only logged
    | Brushed                         // nothing hit: a free-hand dab was drawn

  /** What the parent component passes in: the selected colour, its number and the brush size. */
  datatype Selection = Selection(color: string, colorNumber: int, brushSize: real)

  class Canvas {
    var loaded: bool                 // paintByNumbersData !== null
    var regions: array<Region>
    var colors: seq<Color>
    var dimensions: Dimensions
    var isPainting: bool
    var showNumbers: bool
    var surface: seq<DrawCmd>        // what has been drawn since the last clear

    /** The canvas after mounting; a redraw happens at once when data is present. */
    constructor (data: Option<PaintData>)
      ensures loaded == data.Some? && !isPainting && showNumbers
      ensures data.Some? ==> regions[..] == data.value.regions && colors == data.value.colors &&
                             dimensions == data.value.dimensions
      ensures data.Some? ==> surface == Frame(dimensions, regions[..], colors, showNumbers)
      ensures data.None? ==> surface == [] && regions.Length == 0
      ensures fresh(regions)
    {
      loaded := data.Some?;
      isPainting := false;
      showNumbers := true;
      if data.Some? {
        var rs := data.value.regions;
        var copy := new Region[|rs|](i requires 0 <= i < |rs| => rs[i]);
        assert copy[..] == rs;
        regions := copy;
        colors := data.value.colors;
        dimensions := data.value.dimensions;
        surface := Frame(data.value.dimensions, rs, data.value.colors, true);
      } else {
        regions := new Region[0];
        colors := [];
        dimensions := Dimensions(0, 0);
        surface := [];
      }
    }

    /** `drawPaintByNumbers`: clear, background, then every region. */
    method Redraw()
      requires loaded
      modifies this`surface
      ensures surface == Frame(dimensions, regions[..], colors, showNumbers)
    {
      surface := Frame(dimensions, regions[..], colors, showNumbers);
    }

    /** The "Show Numbers" checkbox; the effect redraws when data is present. */
    method SetShowNumbers(b: bool)
      modifies this`showNumbers, this`surface
      ensures showNumbers == b
      ensures loaded ==> surface == Frame(dimensions, regions[..], colors, b)
      ensures !loaded ==> surface == old(surface)
    {
      showNumbers := b;
      if loaded {
        Redraw();
      }
    }

    /** The hit-test of `paint`: the first region in declaration order containing the point. */
    method FindRegion(inPath: (string, real, real) -> bool, x: real, y: real) returns (k: Option<nat>)
      ensures k == FirstHit(regions[..], inPath, x, y)
      ensures k.Some? ==> k.value < regions.Length && inPath(regions[k.value].path, x, y)
      ensures k.Some? ==> forall j :: 0 <= j < k.value ==> !inPath(regions[j].path, x, y)
      ensures k.None? <==> forall j :: 0 <= j < regions.Length ==> !inPath(regions[j].path, x, y)
    {
      var i := 0;
      while i < regions.Length
        invariant 0 <= i <= regions.Length
        invariant forall j :: 0 <= j < i ==> !inPath(regions[j].path, x, y)
      {
        if inPath(regions[i].path, x, y) {
          k := Some(i);
          FirstHitIs(regions[..], inPath, x, y, i);
          return;
        }
        i := i + 1;
      }
      k := None;
    }

    /**
     * The state one paint attempt at (x, y) leaves, starting from the region
     * list `before` and the surface `drawn`: the first region containing the
     * point is painted and the canvas redrawn when its number is the selected
     * one; a wrong number changes nothing; a miss adds one brush dab.
     */
    predicate PaintedFrom(before: seq<Region>, drawn: seq<DrawCmd>, sel: Selection,
                          inPath: (string, real, real) -> bool, x: real, y: real, outcome: PaintOutcome)
      reads this, regions
    {
      var hit := FirstHit(before, inPath, x, y);
      && (hit.Some? && before[hit.value].colorNumber == sel.colorNumber ==>
            outcome == Painted(hit.value) &&
            regions[..] == before[hit.value := MarkPainted(before[hit.value])] &&
            surface == Frame(dimensions, regions[..], colors, showNumbers))
      && (hit.Some? && before[hit.value].colorNumber != sel.colorNumber ==>
            outcome == WrongColor(before[hit.value].colorNumber) &&
            regions[..] == before && surface == drawn)
      && (hit.None? ==>
            outcome == Brushed && regions[..] == before &&
            surface == drawn + [Dab(x, y, sel.brushSize / 2.0, sel.color)])
    }

    /**
     * `paint`: mark the first containing region painted when its number is the
     * selected one, only report a wrong colour when it is not, and draw a brush
     * dab of radius `brushSize / 2` when no region contains the point.
     */
    method Paint(sel: Selection, inPath: (string, real, real) -> bool, x: real, y: real)
      returns (outcome: PaintOutcome)
      modifies regions, this`surface
      ensures !old(loaded) ==> outcome == NoData && regions[..] == old(regions[..]) && surface == old(surface)
      ensures loaded ==> PaintedFrom(old(regions[..]), old(surface), sel, inPath, x, y, outcome)
    {
      if !loaded {
        return NoData;
      }
      var k := FindRegion(inPath, x, y);
      if k.Some? && regions[k.value].colorNumber == sel.colorNumber {
        regions[k.value] := MarkPainted(regions[k.value]);
        Redraw();
        outcome := Painted(k.value);
      } else if k.Some? {
        outcome := WrongColor(regions[k.value].colorNumber);
      } else {
        surface := surface + [Dab(x, y, sel.brushSize / 2.0, sel.color)];
        outcome := Brushed;
      }
    }

    /** `handleMouseDown`: start painting and paint once, unless no data is loaded. */
    method MouseDown(sel: Selection, inPath: (string, real, real) -> bool, x: real, y: real)
      returns (outcome: PaintOutcome)
      modifies regions, this`surface, this`isPainting
      ensures !loaded ==> outcome == NoData && isPainting == old(isPainting) &&
                          regions[..] == old(regions[..]) && surface == old(surface)
      ensures loaded ==> isPainting && outcome != NoData
      ensures loaded ==> PaintedFrom(old(regions[..]), old(surface), sel, inPath, x, y, outcome)
      ensures Completion.PaintedCount(regions[..]) >= Completion.PaintedCount(old(regions[..]))
    {
      if !loaded {
        return NoData;
      }
      isPainting := true;
      ghost var before := regions[..];
      outcome := Paint(sel, inPath, x, y);
      PaintNeverUnpaints(before, regions[..], FirstHit(before, inPath, x, y), sel.colorNumber);
    }

    /** `handleMouseMove`: paint only while a press is in progress. */
    method MouseMove(sel: Selection, inPath: (string, real, real) -> bool, x: real, y: real)
      returns (outcome: PaintOutcome)
      modifies regions, this`surface
      ensures !(isPainting && loaded) ==> outcome == NoData &&
                                          regions[..] == old(regions[..]) && surface == old(surface)
      ensures isPainting && loaded ==> outcome != NoData
      ensures isPainting && loaded ==> PaintedFrom(old(regions[..]), old(surface), sel, inPath, x, y, outcome)
      ensures Completion.PaintedCount(regions[..]) >= Completion.PaintedCount(old(regions[..]))
    {
      if !isPainting || !loaded {
        return NoData;
      }
      ghost var before := regions[..];
      outcome := Paint(sel, inPath, x, y);
      PaintNeverUnpaints(before, regions[..], FirstHit(before, inPath, x, y), sel.colorNumber);
    }

    /** `handleMouseUp`, also bound to mouse-leave: stop painting. */
    method MouseUp()
      modifies this`isPainting
      ensures !isPainting
    {
      isPainting := false;
    }
  }

  lemma FirstHitIs(rs: seq<Region>, inPath: (string, real, real) -> bool, x: real, y: real, i: nat)
    requires i < |rs| && inPath(rs[i].path, x, y)
    requires forall j :: 0 <= j < i ==> !inPath(rs[j].path, x, y)
    ensures FirstHit(rs, inPath, x, y) == Some(i)
  {
    var k := FirstHit(rs, inPath, x, y);
    assert k.Some?;
  }

  /** The region list after a paint attempt whose hit is `hit`. */
  function AfterPaint(rs: seq<Region>, hit: Option<nat>, selected: int): (after: seq<Region>)
    requires hit.Some? ==> hit.value < |rs|
    ensures |after| == |rs|
    ensures forall i :: 0 <= i < |rs| && (hit.None? || i != hit.value) ==> after[i] == rs[i]
    ensures hit.Some? ==> (IsPainted(after[hit.value]) <==>
                           IsPainted(rs[hit.value]) || rs[hit.value].colorNumber == selected)
  {
    if hit.Some? && rs[hit.value].colorNumber == selected then rs[hit.value := MarkPainted(rs[hit.value])]
    else rs
  }

  /** Painting never un-paints: the painted count cannot go down. */
  lemma PaintNeverUnpaints(before: seq<Region>, after: seq<Region>, hit: Option<nat>, selected: int)
    requires hit.Some? ==> hit.value < |before|
    requires after == AfterPaint(before, hit, selected)
    ensures Completion.PaintedCount(after) >= Completion.PaintedCount(before)
    ensures forall i :: 0 <= i < |before| && IsPainted(before[i]) ==> IsPainted(after[i])
  {
    if hit.Some? && before[hit.value].colorNumber == selected {
      MarkCount(before, hit.value);
    }
  }

  /** Marking one region adds one to the painted count if it was unpainted, and nothing otherwise. */
  lemma {:induction false} MarkCount(rs: seq<Region>, i: nat)
    requires i < |rs|
    ensures Completion.PaintedCount(rs[i := MarkPainted(rs[i])]) ==
            Completion.PaintedCount(rs) + (if IsPainted(rs[i]) then 0 else 1)
  {
    var rs' := rs[i := MarkPainted(rs[i])];
    if i == 0 {
      assert rs'[1..] == rs[1..];
    } else {
      MarkCount(rs[1..], i - 1);
      assert rs'[1..] == rs[1..][i - 1 := MarkPainted(rs[1..][i - 1])];
    }
  }

  /**
   * A successful paint changes only the hit region, and repeating it changes
   * nothing; a wrong colour and a miss change no region.
   */
  lemma PaintEffect(rs: seq<Region>, inPath: (string, real, real) -> bool, x: real, y: real, selected: int)
    ensures var hit := FirstHit(rs, inPath, x, y);
      var rs' := AfterPaint(rs, hit, selected);
      && |rs'| == |rs|
      && (forall i :: 0 <= i < |rs| && (hit.None? || i != hit.value) ==> rs'[i] == rs[i])
      && (hit.Some? && rs[hit.value].colorNumber == selected ==> IsPainted(rs'[hit.value]))
      && (hit.Some? && rs[hit.value].colorNumber != selected ==> rs' == rs)
      && (hit.None? ==> rs' == rs)
      && AfterPaint(rs', FirstHit(rs', inPath, x, y), selected) == rs'
  {
    var hit := FirstHit(rs, inPath, x, y);
    var rs' := AfterPaint(rs, hit, selected);
    SamePathsSameHit(rs, rs', inPath, x, y);
  }

  /** The hit-test looks only at paths, and painting never changes a path. */
  lemma {:induction false} SamePathsSameHit(rs: seq<Region>, rs': seq<Region>, inPath: (string, real, real) -> bool, x: real, y: real)
    requires |rs| == |rs'|
    requires forall i :: 0 <= i < |rs| ==> rs[i].path == rs'[i].path
    ensures FirstHit(rs, inPath, x, y) == FirstHit(rs', inPath, x, y)
  {
    if rs != [] {
      SamePathsSameHit(rs[1..], rs'[1..], inPath, x, y);
    }
  }
}
