/** The segmentation viewer: the even-odd point-in-polygon test, the hover
    search over the outlined plant parts, and the view controls (zoom, reset,
    drag and the CSS filter text). Coordinates and zoom are exact reals. */
module SegmentViewer {
  import opened Wrappers
  import opened Text

  // ---------------------------------------------------------------------------
  // Point in polygon

  /** The number of vertices of a polygon given as flat `[x0, y0, x1, y1, …]`. */
  function Vertices(points: seq<real>): nat
  {
    |points| / 2
  }

  /** The vertex an edge starts from: the previous vertex, and the last one for
      edge 0 (the loop starts with `j = points.length - 2`). */
  function Prev(m: nat, e: nat): nat
    requires e < m
  {
    if e == 0 then m - 1 else e - 1
  }

  /** The crossing test for the edge from the vertex at flat index `j` to the
      one at `i`: the edge straddles the horizontal line through `y`, and meets
      it to the right of `x`. The division only happens for a straddling edge,
      whose ends have different heights. */
  function Crosses(points: seq<real>, i: nat, j: nat, x: real, y: real): (r: bool)
    requires i + 1 < |points| && j + 1 < |points|
    ensures r ==> points[i + 1] != points[j + 1]
    ensures r ==> (points[i + 1] > y) != (points[j + 1] > y)
  {
    var xi, yi := points[i], points[i + 1];
    var xj, yj := points[j], points[j + 1];
    ((yi > y) != (yj > y)) && x < MeetX(xi, yi, xj, yj, y)
  }

  /** Where the line through two points of different heights meets height `y`. */
  function MeetX(xi: real, yi: real, xj: real, yj: real, y: real): real
    requires yi != yj
  {
    (xj - xi) * (y - yi) / (yj - yi) + xi
  }

  /** How many of the edges ending at vertices `0 .. e-1` pass the test. */
  function CrossCount(points: seq<real>, x: real, y: real, e: nat): nat
    requires |points| % 2 == 0 && e <= Vertices(points)
  {
    if e == 0 then 0
    else
      var i, j := 2 * (e - 1), 2 * Prev(Vertices(points), e - 1);
      CrossCount(points, x, y, e - 1) + (if Crosses(points, i, j, x, y) then 1 else 0)
  }

  /** The even-odd rule: inside when an odd number of edges cross. */
  predicate Inside(points: seq<real>, x: real, y: real)
    requires |points| % 2 == 0
  {
    CrossCount(points, x, y, Vertices(points)) % 2 == 1
  }

  /** `isPointInPolygon(x, y, points)`: `i` walks the vertices two numbers at a
      time and `j` trails one vertex behind, starting at the last vertex. */
  method IsPointInPolygon(x: real, y: real, points: seq<real>) returns (inside: bool)
    requires |points| % 2 == 0
    ensures inside == Inside(points, x, y)
  {
    inside := false;
    var n := |points|;
    ghost var m := Vertices(points);
    assert n == 2 * m;
    var i := 0;
    var j := n - 2;
    ghost var e := 0;
    while i < n
      invariant 0 <= e <= m && i == 2 * e
      invariant e < m ==> j == 2 * Prev(m, e)
      invariant inside == (CrossCount(points, x, y, e) % 2 == 1)
      decreases n - i
    {
      assert CrossCount(points, x, y, e + 1) ==
        CrossCount(points, x, y, e) + (if Crosses(points, i, j, x, y) then 1 else 0);
      if Crosses(points, i, j, x, y) {
        inside := !inside;
      }
      j := i;
      i := i + 2;
      e := e + 1;
    }
  }

  /** The edges form one closed ring: every vertex ends exactly one edge (its
      own) and starts exactly one (the next vertex's), so each side of the
      polygon is tested exactly once. */
  lemma EdgesFormRing(m: nat, v: nat)
    requires v < m
    ensures forall e :: 0 <= e < m ==> (Prev(m, e) == v <==> e == (v + 1) % m)
  {
    forall e | 0 <= e < m
      ensures Prev(m, e) == v <==> e == (v + 1) % m
    {
      if v + 1 < m {
        assert (v + 1) % m == v + 1;
      } else {
        assert (v + 1) % m == 0;
      }
    }
  }

  /** A point on or above every vertex, or below every vertex, meets no
      straddling edge and is outside. */
  lemma {:induction false} OutsideBand(points: seq<real>, x: real, y: real, e: nat)
    requires |points| % 2 == 0 && e <= Vertices(points)
    requires (forall v :: 0 <= v < Vertices(points) ==> points[2 * v + 1] <= y)
          || (forall v :: 0 <= v < Vertices(points) ==> points[2 * v + 1] > y)
    ensures CrossCount(points, x, y, e) == 0
    ensures e == Vertices(points) ==> !Inside(points, x, y)
  {
    if e > 0 {
      OutsideBand(points, x, y, e - 1);
      var v, w := e - 1, Prev(Vertices(points), e - 1);
      assert (points[2 * v + 1] > y) == (points[2 * w + 1] > y);
    }
  }

  // ---------------------------------------------------------------------------
  // The hover search

  /** An outlined plant part. */
  datatype Segment = Segment(id: string, points: seq<real>, health: string)

  /** A segment with the name of its group, `{ ...segment, type }`. */
  datatype Found = Found(segment: Segment, kind: string)

  /** A group of segments of one kind (leaves, stem, roots, corn). */
  datatype Group = Group(kind: string, segments: seq<Segment>)

  /** Every outline is a list of vertex pairs. */
  predicate WellFormed(groups: seq<Group>)
  {
    forall g, s :: 0 <= g < |groups| && 0 <= s < |groups[g].segments| ==> |groups[g].segments[s].points| % 2 == 0
  }

  /** The outlines the viewer draws, by group in iteration order. */
  const SegmentationData: seq<Group> := [
    Group("leaves", [
      Segment("leaf1", [100.0, 80.0, 180.0, 120.0, 160.0, 180.0, 80.0, 160.0], "healthy"),
      Segment("leaf2", [200.0, 60.0, 280.0, 90.0, 270.0, 150.0, 190.0, 140.0], "diseased"),
      Segment("leaf3", [320.0, 100.0, 400.0, 110.0, 390.0, 180.0, 310.0, 170.0], "healthy"),
      Segment("leaf4", [450.0, 70.0, 520.0, 85.0, 510.0, 140.0, 440.0, 130.0], "pest_damage")]),
    Group("stem", [
      Segment("stem1", [250.0, 180.0, 280.0, 180.0, 285.0, 350.0, 245.0, 350.0], "healthy")]),
    Group("roots", [
      Segment("root1", [230.0, 350.0, 300.0, 350.0, 320.0, 400.0, 210.0, 400.0], "healthy"),
      Segment("root2", [180.0, 380.0, 230.0, 375.0, 240.0, 420.0, 170.0, 425.0], "root_rot")]),
    Group("corn", [
      Segment("corn1", [350.0, 200.0, 420.0, 210.0, 410.0, 280.0, 340.0, 270.0], "healthy")])]

  /** Every outline of the viewer is a quadrilateral, so the hover search can
      run on them. */
  lemma SegmentationDataWellFormed()
    ensures WellFormed(SegmentationData)
  {
  }

  /** The middle of the first leaf is inside it. */
  lemma FirstLeafContainsItsMiddle()
    ensures Inside(SegmentationData[0].segments[0].points, 130.0, 130.0)
  {
  }

  /** A group's segments tagged with its kind, in order. */
  function Tag(group: Group, k: nat): (r: seq<Found>)
    requires k <= |group.segments|
    ensures |r| == k
    ensures forall t :: 0 <= t < k ==> r[t] == Found(group.segments[t], group.kind)
  {
    if k == 0 then [] else Tag(group, k - 1) + [Found(group.segments[k - 1], group.kind)]
  }

  /** All segments of the first `g` groups, in iteration order. */
  function Tagged(groups: seq<Group>, g: nat): seq<Found>
    requires g <= |groups|
  {
    if g == 0 then [] else Tagged(groups, g - 1) + Tag(groups[g - 1], |groups[g - 1].segments|)
  }

  /** Every tagged segment comes from a group and has even-length points. */
  lemma {:induction false} TaggedWellFormed(groups: seq<Group>, g: nat)
    requires g <= |groups| && WellFormed(groups)
    ensures forall f :: f in Tagged(groups, g) ==> |f.segment.points| % 2 == 0
  {
    if g > 0 {
      TaggedWellFormed(groups, g - 1);
    }
  }

  /** A segment contains the point. */
  predicate Contains(f: Found, x: real, y: real)
  {
    |f.segment.points| % 2 == 0 && Inside(f.segment.points, x, y)
  }

  /** The last segment, in iteration order, that contains the point. */
  function LastMatch(s: seq<Found>, x: real, y: real): Option<Found>
  {
    if s == [] then None
    else if Contains(s[|s| - 1], x, y) then Some(s[|s| - 1])
    else LastMatch(s[..|s| - 1], x, y)
  }

  /** The search finds nothing exactly when no segment contains the point, and
      what it finds contains the point with no later segment containing it. */
  lemma {:induction false} LastMatchIsLast(s: seq<Found>, x: real, y: real)
    ensures LastMatch(s, x, y).None? <==> forall t :: 0 <= t < |s| ==> !Contains(s[t], x, y)
    ensures LastMatch(s, x, y).Some? ==>
      exists t :: 0 <= t < |s| && s[t] == LastMatch(s, x, y).value && Contains(s[t], x, y) &&
                  forall u :: t < u < |s| ==> !Contains(s[u], x, y)
  {
    if s != [] && !Contains(s[|s| - 1], x, y) {
      LastMatchIsLast(s[..|s| - 1], x, y);
      if LastMatch(s, x, y).Some? {
        var t :| 0 <= t < |s| - 1 && s[..|s| - 1][t] == LastMatch(s, x, y).value && Contains(s[t], x, y) &&
                  forall u :: t < u < |s| - 1 ==> !Contains(s[u], x, y);
        assert s[t] == LastMatch(s, x, y).value;
      }
    } else if s != [] {
      assert Contains(s[|s| - 1], x, y);
    }
  }

  /** Looking at one more segment: it wins if it contains the point. */
  lemma LastMatchSnoc(s: seq<Found>, f: Found, x: real, y: real)
    ensures LastMatch(s + [f], x, y) == if Contains(f, x, y) then Some(f) else LastMatch(s, x, y)
  {
    assert (s + [f])[..|s|] == s;
  }

  /** The inner loop over one group's segments, continuing a search that has
      already looked at `seen`: the latest containing segment wins. */
  method SearchGroup(group: Group, x: real, y: real, ghost seen: seq<Found>, before: Option<Found>)
    returns (found: Option<Found>)
    requires forall s :: 0 <= s < |group.segments| ==> |group.segments[s].points| % 2 == 0
    requires before == LastMatch(seen, x, y)
    ensures found == LastMatch(seen + Tag(group, |group.segments|), x, y)
  {
    found := before;
    var k := 0;
    assert seen + Tag(group, 0) == seen;
    while k < |group.segments|
      invariant 0 <= k <= |group.segments|
      invariant found == LastMatch(seen + Tag(group, k), x, y)
    {
      var segment := group.segments[k];
      var hit := IsPointInPolygon(x, y, segment.points);
      LastMatchSnoc(seen + Tag(group, k), Found(segment, group.kind), x, y);
      assert seen + Tag(group, k + 1) == (seen + Tag(group, k)) + [Found(segment, group.kind)];
      if hit {
        found := Some(Found(segment, group.kind));
      }
      k := k + 1;
    }
  }

  /** The hover search of `handleMouseMove`: every group, every segment, and
      the last one containing the point is kept. */
  method HoverSearch(groups: seq<Group>, x: real, y: real) returns (found: Option<Found>)
    requires WellFormed(groups)
    ensures found == LastMatch(Tagged(groups, |groups|), x, y)
  {
    found := None;
    var g := 0;
    while g < |groups|
      invariant 0 <= g <= |groups|
      invariant found == LastMatch(Tagged(groups, g), x, y)
    {
      ghost var seen := Tagged(groups, g);
      found := SearchGroup(groups[g], x, y, seen, found);
      assert Tagged(groups, g + 1) == seen + Tag(groups[g], |groups[g].segments|);
      g := g + 1;
    }
  }

  // ---------------------------------------------------------------------------
  // View controls

  /** The colour maps and the CSS filter each adds. */
  const ColorMaps: map<string, string> := map[
    "default" := "",
    "thermal" := "hue-rotate(60deg) saturate(1.5)",
    "infrared" := "hue-rotate(270deg) saturate(1.8)",
    "vegetation" := "hue-rotate(120deg) saturate(1.3)",
    "grayscale" := "grayscale(1)"]

  const MinZoom: real := 0.1
  const MaxZoom: real := 3.0
  const ZoomStep: real := 0.1

  /** `Math.max(0.1, zoom - 0.1)`. */
  function ZoomOut(zoom: real): (r: real)
    ensures r >= MinZoom
    ensures r <= zoom || r == MinZoom
    ensures zoom - ZoomStep >= MinZoom ==> r == zoom - ZoomStep
    ensures zoom - ZoomStep < MinZoom ==> r == MinZoom
  {
    if zoom - ZoomStep > MinZoom then zoom - ZoomStep else MinZoom
  }

  /** `Math.min(3, zoom + 0.1)`. */
  function ZoomIn(zoom: real): (r: real)
    ensures r <= MaxZoom
    ensures r >= zoom || r == MaxZoom
    ensures zoom + ZoomStep <= MaxZoom ==> r == zoom + ZoomStep
    ensures zoom + ZoomStep > MaxZoom ==> r == MaxZoom
  {
    if zoom + ZoomStep < MaxZoom then zoom + ZoomStep else MaxZoom
  }

  /** Both buttons keep the zoom within [0.1, 3], and zooming in from inside
      the range and back out returns to where it was. */
  lemma ZoomButtonsStayInRange(zoom: real)
    requires MinZoom <= zoom <= MaxZoom
    ensures MinZoom <= ZoomOut(zoom) <= MaxZoom && MinZoom <= ZoomIn(zoom) <= MaxZoom
    ensures zoom + ZoomStep <= MaxZoom ==> ZoomOut(ZoomIn(zoom)) == zoom
    ensures zoom - ZoomStep >= MinZoom ==> ZoomIn(ZoomOut(zoom)) == zoom
  {
  }

  /** `getImageFilter()`: brightness and contrast as percentages, then the
      colour map's filter when it has one. */
  function ImageFilter(brightness: nat, contrast: nat, colorMap: string): (r: string)
    requires colorMap in ColorMaps
  {
    var base := FilterBase(brightness, contrast);
    if ColorMaps[colorMap] != "" then base + " " + ColorMaps[colorMap] else base
  }

  /** The brightness and contrast part of the filter text. */
  function FilterBase(brightness: nat, contrast: nat): string
  {
    "brightness(" + NatToString(brightness) + "%) contrast(" + NatToString(contrast) + "%)"
  }

  /** The default map adds nothing and every other map adds its filter after
      one space. */
  lemma ImageFilterShape(brightness: nat, contrast: nat, colorMap: string)
    requires colorMap in ColorMaps
    ensures colorMap == "default" ==> ImageFilter(brightness, contrast, colorMap) == FilterBase(brightness, contrast)
    ensures colorMap != "default" ==>
      ImageFilter(brightness, contrast, colorMap) == FilterBase(brightness, contrast) + " " + ColorMaps[colorMap]
  {
  }

  /** The filter text starts with the brightness in decimal, which reads back
      as the brightness. */
  lemma ImageFilterBrightness(brightness: nat, contrast: nat, colorMap: string)
    requires colorMap in ColorMaps
    ensures var digits := ImageFilter(brightness, contrast, colorMap)[11..11 + |NatToString(brightness)|];
      digits == NatToString(brightness) && DigitsValue(digits) == brightness
  {
    NatToStringRoundTrip(brightness);
    FilterStartsWithBrightness(brightness, contrast, colorMap);
    SliceAfterPrefix("brightness(", NatToString(brightness), ImageFilter(brightness, contrast, colorMap));
  }

  /** The part of a longer string that follows a known prefix. */
  lemma SliceAfterPrefix(p: string, x: string, s: string)
    requires p + x <= s
    ensures s[|p|..|p| + |x|] == x
  {
    PrefixSlice(p + x, s, |p|, |p| + |x|);
    assert (p + x)[|p|..|p| + |x|] == x;
  }

  /** The filter text begins with "brightness(" and the brightness digits. */
  lemma FilterStartsWithBrightness(brightness: nat, contrast: nat, colorMap: string)
    requires colorMap in ColorMaps
    ensures "brightness(" + NatToString(brightness) <= ImageFilter(brightness, contrast, colorMap)
  {
    var lead := "brightness(" + NatToString(brightness);
    var withContrast := lead + "%) contrast(" + NatToString(contrast);
    var base := FilterBase(brightness, contrast);
    var f := ImageFilter(brightness, contrast, colorMap);
    PrefixTrans(lead, lead + "%) contrast(", withContrast);
    PrefixTrans(lead, withContrast, base);
    if f != base {
      PrefixTrans(base, base + " ", f);
    }
    PrefixTrans(lead, base, f);
  }

  /** Being a prefix is transitive. */
  lemma PrefixTrans(x: string, y: string, z: string)
    requires x <= y && y <= z
    ensures x <= z
  {
  }

  /** A slice within a prefix is the same slice of the longer string. */
  lemma PrefixSlice(x: string, s: string, i: nat, j: nat)
    requires x <= s && i <= j <= |x|
    ensures s[i..j] == x[i..j]
  {
  }

  /** The viewer's state, updated in place by its controls. */
  class Viewer {
    var uploadedImage: Option<string>
    var hovered: Option<Found>
    var selected: Option<Found>
    var zoom: real
    var rotation: int
    var brightness: nat
    var contrast: nat
    var colorMap: string
    var dragX: real
    var dragY: real
    var isDragging: bool
    var dragStartX: real
    var dragStartY: real

    /** The controls' ranges: zoom in [0.1, 3], a known colour map, and the
      sliders' bounds. */
    ghost predicate Valid()
      reads this
    {
      && MinZoom <= zoom <= MaxZoom
      && colorMap in ColorMaps
      && brightness <= 200 && contrast <= 200
      && -180 <= rotation <= 180
    }

    constructor ()
      ensures Valid()
      ensures zoom == 1.0 && rotation == 0 && brightness == 100 && contrast == 100 && colorMap == "default"
      ensures dragX == 0.0 && dragY == 0.0 && !isDragging && hovered == None && selected == None
      ensures uploadedImage == None
    {
      uploadedImage, hovered, selected := None, None, None;
      zoom, rotation, brightness, contrast, colorMap := 1.0, 0, 100, 100, "default";
      dragX, dragY, isDragging, dragStartX, dragStartY := 0.0, 0.0, false, 0.0, 0.0;
    }

    /** The "-" button. */
    method ZoomOutButton()
      requires Valid()
      modifies this`zoom
      ensures Valid() && zoom == ZoomOut(old(zoom))
    {
      zoom := ZoomOut(zoom);
    }

    /** The "+" button. */
    method ZoomInButton()
      requires Valid()
      modifies this`zoom
      ensures Valid() && zoom == ZoomIn(old(zoom))
    {
      zoom := ZoomIn(zoom);
    }

    /** The zoom slider, whose range input only yields values in [0.1, 3]. */
    method ZoomSlider(value: real)
      requires Valid() && MinZoom <= value <= MaxZoom
      modifies this`zoom
      ensures Valid() && zoom == value
    {
      zoom := value;
    }

    /** `resetView`: the view settings go back to their initial values; the
      image and the hovered and selected segments are untouched. */
    method ResetView()
      requires Valid()
      modifies this`zoom, this`rotation, this`dragX, this`dragY, this`brightness, this`contrast, this`colorMap
      ensures Valid()
      ensures zoom == 1.0 && rotation == 0 && dragX == 0.0 && dragY == 0.0
      ensures brightness == 100 && contrast == 100 && colorMap == "default"
    {
      zoom, rotation := 1.0, 0;
      dragX, dragY := 0.0, 0.0;
      brightness, contrast, colorMap := 100, 100, "default";
    }

    /** The filter text of the displayed image. */
    function GetImageFilter(): string
      reads this
      requires Valid()
    {
      ImageFilter(brightness, contrast, colorMap)
    }

    /** `handleMouseDown`: a drag starts only off the segments. */
    method MouseDown(clientX: real, clientY: real)
      modifies this`isDragging, this`dragStartX, this`dragStartY
      ensures hovered.None? ==> isDragging && dragStartX == clientX - dragX && dragStartY == clientY - dragY
      ensures hovered.Some? ==> isDragging == old(isDragging) && dragStartX == old(dragStartX) && dragStartY == old(dragStartY)
    {
      if hovered.None? {
        isDragging := true;
        dragStartX, dragStartY := clientX - dragX, clientY - dragY;
      }
    }

    /** `handleMouseMoveCanvas`: the hover search at the pointer's position
      in image coordinates, then the drag offset when dragging. `left` and
      `top` are the canvas's position on the page. */
    method MouseMove(groups: seq<Group>, clientX: real, clientY: real, left: real, top: real)
      requires Valid() && WellFormed(groups)
      modifies this`hovered, this`dragX, this`dragY
      ensures hovered == LastMatch(Tagged(groups, |groups|),
                                   (clientX - left - old(dragX)) / zoom, (clientY - top - old(dragY)) / zoom)
      ensures isDragging ==> dragX == clientX - dragStartX && dragY == clientY - dragStartY
      ensures !isDragging ==> dragX == old(dragX) && dragY == old(dragY)
    {
      var x := (clientX - left - dragX) / zoom;
      var y := (clientY - top - dragY) / zoom;
      hovered := HoverSearch(groups, x, y);
      if isDragging {
        dragX, dragY := clientX - dragStartX, clientY - dragStartY;
      }
    }

    /** A press off the segments followed by a move: the image follows the
      pointer, its offset moving by exactly the pointer's movement since the
      press, and the drag goes on. */
    method PressAndMove(groups: seq<Group>, downX: real, downY: real,
                        nowX: real, nowY: real, left: real, top: real)
      requires Valid() && WellFormed(groups) && hovered.None?
      modifies this`isDragging, this`dragStartX, this`dragStartY, this`hovered, this`dragX, this`dragY
      ensures isDragging
      ensures dragX == old(dragX) + (nowX - downX) && dragY == old(dragY) + (nowY - downY)
    {
      MouseDown(downX, downY);
      MouseMove(groups, nowX, nowY, left, top);
    }

    /** `handleMouseUp`, also on leaving the canvas. */
    method MouseUp()
      modifies this`isDragging
      ensures !isDragging
    {
      isDragging := false;
    }

    /** `handleSegmentClick`. */
    method SegmentClick(segment: Found)
      modifies this`selected
      ensures selected == Some(segment)
    {
      selected := Some(segment);
    }
  }
}
