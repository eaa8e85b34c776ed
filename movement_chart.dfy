/** `ItemMovementChart`: the bar-and-line chart of an item's latest
    movements. The points are the first seven movements (newest first, as
    the API lists them) in reverse, each with its quantity adjusted by the
    movement's direction; the y axis runs from 0 to the largest quantity, or
    to 1 when none is positive. The hovered bar is highlighted. */
module MovementChart {
  import opened Wrappers
  import opened Domain

  const MaxPoints := 7

  /** One `ChartDataPoint`; the two date labels are left as the raw timestamp. */
  datatype ChartPoint = ChartPoint(qty: int, createdAt: string, index: int)

  function Min(a: int, b: int): int {
    if a <= b then a else b
  }

  /** The quantity a point shows: `current_qty - qty` for an outbound
      movement, `current_qty + qty` for any other. */
  function PointQty(m: Movement): (q: int)
    ensures m.activityType == Outbound ==> q == m.currentQty - m.qty
    ensures m.activityType != Outbound ==> q == m.currentQty + m.qty
  {
    if m.activityType == Outbound then m.currentQty - m.qty else m.currentQty + m.qty
  }

  /** `chartData`: `movements.slice(0, 7).reverse().map(...)`. */
  function ChartData(movements: seq<Movement>): (points: seq<ChartPoint>)
    ensures |points| == Min(MaxPoints, |movements|)
    ensures forall i :: 0 <= i < |points| ==>
      var m := movements[|points| - 1 - i];
      points[i] == ChartPoint(PointQty(m), m.createdAt, i)
  {
    var n := Min(MaxPoints, |movements|);
    seq(n, i requires 0 <= i < n =>
      var m := movements[n - 1 - i];
      ChartPoint(PointQty(m), m.createdAt, i))
  }

  /** The newest movement is drawn last, and the oldest of the seven first. */
  lemma NewestIsLast(movements: seq<Movement>)
    requires |movements| > 0
    ensures var points := ChartData(movements);
      points[|points| - 1].qty == PointQty(movements[0])
      && points[0].qty == PointQty(movements[Min(MaxPoints, |movements|) - 1])
  {
  }

  /** `Math.max(...qtys, 0)`. */
  function MaxQty(points: seq<ChartPoint>): (m: int)
    ensures m >= 0
    ensures forall i :: 0 <= i < |points| ==> points[i].qty <= m
    ensures m == 0 || exists i :: 0 <= i < |points| && points[i].qty == m
  {
    if points == [] then 0
    else
      var rest := MaxQty(points[1..]);
      if points[0].qty > rest then points[0].qty
      else
        assert forall i :: 1 <= i < |points| ==> points[i].qty == points[1..][i - 1].qty;
        rest
  }

  /** The upper end of `yAxisDomain`: `maxQty || 1`. */
  function YAxisMax(points: seq<ChartPoint>): (top: int)
    ensures top >= 1
    ensures forall i :: 0 <= i < |points| ==> points[i].qty <= top
    ensures top == 1 || exists i :: 0 <= i < |points| && points[i].qty == top
  {
    var m := MaxQty(points);
    if m == 0 then 1 else m
  }

  /** The domain is tight: with a positive quantity the axis ends exactly at
      the largest one. */
  lemma YAxisTight(points: seq<ChartPoint>, k: int)
    requires 0 <= k < |points| && points[k].qty > 0
    ensures YAxisMax(points) == MaxQty(points)
    ensures exists i :: 0 <= i < |points| && points[i].qty == YAxisMax(points)
  {
  }

  /** What recharts passes to `onMouseMove`: no state, or a state whose
      `activeTooltipIndex` is absent, a number or a string. */
  datatype TooltipIndex = NoIndex | NumberIndex(n: int) | StringIndex(s: string)
  datatype MouseState = NullState | ChartState(activeTooltipIndex: TooltipIndex)

  /** The new `activeIndex` after a mouse move, or `None` when it is left as it was. */
  function MouseMoveUpdate(state: MouseState): (r: Option<Option<int>>)
    ensures r.None? <==> state.NullState? || state.activeTooltipIndex.NoIndex?
    ensures r.Some? && state.activeTooltipIndex.NumberIndex? ==> r.value == Some(state.activeTooltipIndex.n)
    ensures r.Some? && state.activeTooltipIndex.StringIndex? ==> r.value == None
  {
    match state
    case NullState => None
    case ChartState(NoIndex) => None
    case ChartState(NumberIndex(n)) => Some(Some(n))
    case ChartState(StringIndex(_)) => Some(None)
  }

  /** A bar is highlighted iff `activeIndex === index`. */
  predicate Highlighted(activeIndex: Option<int>, index: int) {
    activeIndex == Some(index)
  }

  /** At most one bar is highlighted, and none when nothing is hovered or the
      index is past the last bar. */
  lemma AtMostOneHighlighted(movements: seq<Movement>, activeIndex: Option<int>)
    ensures var points := ChartData(movements);
      forall i, j ::
        (0 <= i < |points| && 0 <= j < |points|
         && Highlighted(activeIndex, points[i].index) && Highlighted(activeIndex, points[j].index))
        ==> i == j
    ensures var points := ChartData(movements);
      (activeIndex.None? || activeIndex.value >= |points|) ==>
        forall i :: 0 <= i < |points| ==> !Highlighted(activeIndex, points[i].index)
  {
  }

  class ChartHover {
    var activeIndex: Option<int>

    constructor ()
      ensures activeIndex == None
    {
      activeIndex := None;
    }

    /** `handleMouseMove`. */
    method HandleMouseMove(state: MouseState)
      modifies this
      ensures MouseMoveUpdate(state).None? ==> activeIndex == old(activeIndex)
      ensures MouseMoveUpdate(state).Some? ==> activeIndex == MouseMoveUpdate(state).value
    {
      if state.ChartState? && !state.activeTooltipIndex.NoIndex? {
        if state.activeTooltipIndex.NumberIndex? {
          activeIndex := Some(state.activeTooltipIndex.n);
        } else {
          activeIndex := None;
        }
      }
    }

    /** `onMouseLeave`. */
    method HandleMouseLeave()
      modifies this
      ensures activeIndex == None
    {
      activeIndex := None;
    }
  }
}
