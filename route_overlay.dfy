/**
 * The geometry of the route overlay: the polyline drawn along a route and
 * the arrow symbols placed on it.  Points are opaque (`P`): the overlay only
 * copies and counts them.
 */
module RouteOverlay {
  import opened Wrappers

  // ---------------------------------------------------------------------
  // generatePolyline: `path.map(...)` followed by `.filter(point => point !== null)`
  // ---------------------------------------------------------------------

  /** The `map` step: every point before the last one is kept, the last one becomes `null`. */
  function MarkRetained<P>(path: seq<P>): (marked: seq<Option<P>>)
    ensures |marked| == |path|
  {
    seq(|path|, i requires 0 <= i < |path| => if i < |path| - 1 then Some(path[i]) else None)
  }

  /** The `filter` step: the non-null entries, in their original order. */
  function Present<P>(entries: seq<Option<P>>): (points: seq<P>)
    ensures |points| <= |entries|
  {
    if entries == [] then []
    else (if entries[0].Some? then [entries[0].value] else []) + Present(entries[1..])
  }

  /**
   * The polyline drawn for a route: its overview path without the final
   * point, so that arrows sit along the segments and not at the terminus.
   */
  function Polyline<P>(path: seq<P>): (line: seq<P>)
    ensures |line| == if |path| == 0 then 0 else |path| - 1
    ensures forall i :: 0 <= i < |line| ==> line[i] == path[i]
    ensures |path| <= 1 ==> line == []
  {
    PolylineIsPrefix(path);
    Present(MarkRetained(path))
  }

  /** Mapping then filtering keeps exactly the path minus its last point. */
  lemma {:induction false} PolylineIsPrefix<P>(path: seq<P>)
    ensures Present(MarkRetained(path)) == if |path| == 0 then [] else path[..|path| - 1]
  {
    var marked := MarkRetained(path);
    if |path| == 0 {
    } else if |path| == 1 {
      assert marked == [None];
      assert Present(marked) == Present(marked[1..]);
    } else {
      assert marked[1..] == MarkRetained(path[1..]);
      PolylineIsPrefix(path[1..]);
      assert Present(marked) == [path[0]] + path[1..][..|path| - 2];
      assert [path[0]] + path[1..][..|path| - 2] == path[..|path| - 1];
    }
  }

  /** The polyline loses nothing but the final point: appending it gives the path back. */
  lemma PolylineRestoresPath<P>(path: seq<P>)
    requires |path| > 0
    ensures Polyline(path) + [path[|path| - 1]] == path
  {
  }

  // ---------------------------------------------------------------------
  // renderArrowSymbols
  // ---------------------------------------------------------------------

  /** `scale`, `strokeColor`, `strokeOpacity` and `strokeWeight` of every arrow. */
  const ArrowScale: nat := 3
  const ArrowStrokeColor: string := "#FF0000"
  const ArrowStrokeOpacity: real := 1.0
  const ArrowStrokeWeight: nat := 2

  /**
   * One forward-closed arrow icon of the polyline.  `offsetPercent` is the
   * number written before the `%` of the icon's offset, kept exact.
   */
  datatype ArrowSymbol = ArrowSymbol(
    offsetPercent: real,
    scale: nat,
    strokeColor: string,
    strokeOpacity: real,
    strokeWeight: nat)

  /** Arrow `index` of `count` sits at `index / count * 100` percent of the line. */
  function ArrowOffset(index: nat, count: nat): (percent: real)
    requires index < count
    ensures 0.0 <= percent < 100.0
    ensures index == 0 ==> percent == 0.0
  {
    (index as real) / (count as real) * 100.0
  }

  /** One arrow per polyline point; no arrows when there is no polyline. */
  function ArrowSymbols<P>(polyline: Option<seq<P>>): (arrows: seq<ArrowSymbol>)
    ensures polyline.None? ==> arrows == []
    ensures polyline.Some? ==> |arrows| == |polyline.value|
    ensures forall i :: 0 <= i < |arrows| ==>
      && arrows[i].offsetPercent == ArrowOffset(i, |arrows|)
      && arrows[i].scale == ArrowScale
      && arrows[i].strokeColor == ArrowStrokeColor
      && arrows[i].strokeOpacity == ArrowStrokeOpacity
      && arrows[i].strokeWeight == ArrowStrokeWeight
  {
    match polyline
    case None => []
    case Some(points) =>
      seq(|points|, i requires 0 <= i < |points| =>
        ArrowSymbol(ArrowOffset(i, |points|), ArrowScale, ArrowStrokeColor, ArrowStrokeOpacity, ArrowStrokeWeight))
  }

  /** The offsets start at 0, stay below 100 and strictly increase along the line. */
  lemma ArrowOffsetsIncrease<P>(polyline: Option<seq<P>>, i: nat, j: nat)
    requires i < j < |ArrowSymbols(polyline)|
    ensures ArrowSymbols(polyline)[0].offsetPercent == 0.0
    ensures 0.0 <= ArrowSymbols(polyline)[i].offsetPercent < ArrowSymbols(polyline)[j].offsetPercent < 100.0
  {
    var n := |ArrowSymbols(polyline)|;
    assert (j as real) - (i as real) >= 1.0;
    assert ArrowOffset(j, n) - ArrowOffset(i, n) == ((j as real) - (i as real)) / (n as real) * 100.0;
  }

  /** Consecutive arrows are `100 / count` percent apart: spacing is by index, not by arc length. */
  lemma ArrowsEvenlySpaced<P>(polyline: Option<seq<P>>, i: nat)
    requires i + 1 < |ArrowSymbols(polyline)|
    ensures ArrowSymbols(polyline)[i + 1].offsetPercent - ArrowSymbols(polyline)[i].offsetPercent
         == 100.0 / (|ArrowSymbols(polyline)| as real)
  {
  }

  /** A route with a path of `N` points is drawn with `max(N - 1, 0)` arrows. */
  lemma RouteArrowCount<P>(path: seq<P>)
    ensures |ArrowSymbols(Some(Polyline(path)))| == if |path| == 0 then 0 else |path| - 1
  {
  }

  /** The worked example: a five-point path gives four arrows at 0, 25, 50 and 75 percent. */
  lemma FivePointRoute<P>(a: P, b: P, c: P, d: P, e: P)
    ensures var arrows := ArrowSymbols(Some(Polyline([a, b, c, d, e])));
      |arrows| == 4 &&
      arrows[0].offsetPercent == 0.0 && arrows[1].offsetPercent == 25.0 &&
      arrows[2].offsetPercent == 50.0 && arrows[3].offsetPercent == 75.0
  {
  }
}
