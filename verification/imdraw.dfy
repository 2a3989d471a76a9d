/** BaseImDraw: the drawing commands of the adapter object, over a renderer
    reduced to its current draw colour and the log of draw calls issued to it.
    Every command returns the object itself, so calls chain. */
module ImDraw {
  import opened Geometry
  import opened Blend
  import Midpoint
  import Zingl
  import FastAA

  datatype Option<T> = None | Some(value: T)

  /** A rectangle as (x, y, width, height). */
  datatype Rect = Rect(x: int, y: int, w: int, h: int)

  /** The colour a draw_point call is made with: the colour argument as given
      (None leaves the renderer's current colour in force), or aacolor of a
      base colour with an alpha scaled by a blend value the model leaves out. */
  datatype Paint = Given(color: Option<Color>) | Blended(base: Color)

  /** One call into the renderer. */
  datatype Command =
    | DrawLine(points: seq<Point>, color: Option<Color>)
    | DrawPoints(points: seq<Point>, paint: Paint)
    | DrawRects(rects: seq<Rect>, color: Option<Color>)
    | FillRects(rects: seq<Rect>, color: Option<Color>)

  /** The renderer: its current draw colour and every command issued so far. */
  datatype Renderer = Renderer(color: Color, log: seq<Command>)

  /** The drawing object: a renderer and the canvas size. */
  datatype Canvas = Canvas(renderer: Renderer, width: int, height: int)

  /** The error circle raises for an unknown anti-aliasing mode. */
  datatype Error = ValueError(message: string)

  const ModeError: string := "anti-aliasing mode can only be set 'no', 'fast' or 'fancy'."

  /** The canvas with cmds issued to its renderer. */
  function Issue(d: Canvas, cmds: seq<Command>): Canvas {
    d.(renderer := d.renderer.(log := d.renderer.log + cmds))
  }

  /** e is d, the same object, with only its renderer's log extended by cmds. */
  ghost predicate Issued(d: Canvas, e: Canvas, cmds: seq<Command>) {
    && e.width == d.width
    && e.height == d.height
    && e.renderer.color == d.renderer.color
    && e.renderer.log == d.renderer.log + cmds
  }

  /** The whole canvas, drawn or filled when no rectangle is given. */
  function WholeCanvas(d: Canvas): Rect {
    Rect(0, 0, d.width, d.height)
  }

  /** setcolor: the renderer's colour becomes color; nothing is drawn and the
      canvas is otherwise unchanged. */
  function SetColor(d: Canvas, color: Color): (e: Canvas)
    ensures e.renderer.color == color
    ensures e.renderer.log == d.renderer.log
    ensures e.width == d.width && e.height == d.height
  {
    d.(renderer := d.renderer.(color := color))
  }

  /** line: one draw_line call with the points as given, or no call at all
      when there are no points. */
  function Line(d: Canvas, points: seq<Point>, color: Option<Color>): (e: Canvas)
    ensures |points| == 0 ==> e == d
    ensures |points| > 0 ==> Issued(d, e, [DrawLine(points, color)])
  {
    if |points| > 0 then Issue(d, [DrawLine(points, color)]) else d
  }

  /** point: one draw_point call with the points as given, or no call at all
      when there are no points. */
  function Points(d: Canvas, points: seq<Point>, color: Option<Color>): (e: Canvas)
    ensures |points| == 0 ==> e == d
    ensures |points| > 0 ==> Issued(d, e, [DrawPoints(points, Given(color))])
  {
    if |points| > 0 then Issue(d, [DrawPoints(points, Given(color))]) else d
  }

  /** rect: exactly one draw_rect call, with the rectangles as given, or with
      the single rectangle covering the canvas when none are given. */
  function Rects(d: Canvas, rects: seq<Rect>, color: Option<Color>): (e: Canvas)
    ensures |rects| > 0 ==> Issued(d, e, [DrawRects(rects, color)])
    ensures |rects| == 0 ==> Issued(d, e, [DrawRects([Rect(0, 0, d.width, d.height)], color)])
  {
    var given := if |rects| == 0 then [WholeCanvas(d)] else rects;
    Issue(d, [DrawRects(given, color)])
  }

  /** fill: exactly one fill call, with the rectangles as given, or with the
      single rectangle covering the canvas when none are given. */
  function Fill(d: Canvas, rects: seq<Rect>, color: Option<Color>): (e: Canvas)
    ensures |rects| > 0 ==> Issued(d, e, [FillRects(rects, color)])
    ensures |rects| == 0 ==> Issued(d, e, [FillRects([Rect(0, 0, d.width, d.height)], color)])
  {
    var given := if |rects| == 0 then [WholeCanvas(d)] else rects;
    Issue(d, [FillRects(given, color)])
  }

  /** One draw_point call per batch, all with the same paint. */
  function Strokes(batches: seq<seq<Point>>, paint: Paint): (cmds: seq<Command>)
    ensures |cmds| == |batches|
    ensures forall k :: 0 <= k < |batches| ==> cmds[k] == DrawPoints(batches[k], paint)
  {
    if |batches| == 0 then [] else [DrawPoints(batches[0], paint)] + Strokes(batches[1..], paint)
  }

  /** The colour the anti-aliased rasterizers blend: the colour argument when
      there is one, else the renderer's current colour. */
  function BaseColor(d: Canvas, color: Option<Color>): (base: Color)
    ensures color.Some? ==> base == color.value
    ensures color.None? ==> base == d.renderer.color
  {
    if color.Some? then color.value else d.renderer.color
  }

  /** The anti-aliasing modes circle accepts. */
  predicate KnownMode(aa: string) {
    aa == "no" || aa == "fast" || aa == "fancy"
  }

  /** circle: "no" draws the midpoint circle in the colour as given, "fast"
      and "fancy" draw the two anti-aliased circles blended from the base
      colour; any other mode raises ValueError and draws nothing. The "fancy"
      rasterizer does not terminate for a negative radius, hence its
      precondition. */
  method Circle(d: Canvas, center: Point, r: int, color: Option<Color>, aa: string, gate: Gate)
    returns (e: Canvas, raised: Option<Error>)
    requires aa == "fancy" ==> r >= 0
    ensures raised.Some? <==> !KnownMode(aa)
    ensures raised.Some? ==> e == d && raised.value == ValueError(ModeError)
    ensures aa == "no" ==> Issued(d, e, Strokes(Midpoint.Batches(center, r), Given(color)))
    ensures aa == "no" && r <= 0 ==> e == d
    ensures aa == "fast" ==> Issued(d, e, Strokes(FastAA.Batches(center, r, gate), Blended(BaseColor(d, color))))
    ensures aa == "fancy" ==> Issued(d, e, Strokes(Zingl.Batches(center, r, gate), Blended(BaseColor(d, color))))
  {
    if aa == "no" {
      var batches, _ := Midpoint.RenderCircle(center, r);
      e, raised := Issue(d, Strokes(batches, Given(color))), None;
      if r <= 0 {
        PlainCircleOfNonPositiveRadius(center, r, color);
        assert d.renderer.log + [] == d.renderer.log;
      }
    } else if aa == "fast" {
      var batches, _ := FastAA.RenderCircleAAFast(center, r, gate);
      e, raised := Issue(d, Strokes(batches, Blended(BaseColor(d, color)))), None;
    } else if aa == "fancy" {
      var batches, _ := Zingl.RenderCircleAA(center, r, gate);
      e, raised := Issue(d, Strokes(batches, Blended(BaseColor(d, color)))), None;
    } else {
      e, raised := d, Some(ValueError(ModeError));
    }
  }

  /** The midpoint circle of a non-positive radius issues no command,
      whatever the colour. */
  lemma PlainCircleOfNonPositiveRadius(center: Point, r: int, color: Option<Color>)
    requires r <= 0
    ensures Strokes(Midpoint.Batches(center, r), Given(color)) == []
  {
    Midpoint.Arc(r);
  }

  /** A call of one of the non-circle drawing commands. */
  datatype Call =
    | SetColorCall(color: Color)
    | LineCall(points: seq<Point>, lineColor: Option<Color>)
    | PointsCall(points: seq<Point>, pointColor: Option<Color>)
    | RectsCall(rects: seq<Rect>, rectColor: Option<Color>)
    | FillCall(rects: seq<Rect>, fillColor: Option<Color>)

  function Apply(d: Canvas, call: Call): Canvas {
    match call
    case SetColorCall(color) => SetColor(d, color)
    case LineCall(points, color) => Line(d, points, color)
    case PointsCall(points, color) => Points(d, points, color)
    case RectsCall(rects, color) => Rects(d, rects, color)
    case FillCall(rects, color) => Fill(d, rects, color)
  }

  /** A chain of calls, each made on the object the previous one returned. */
  function Chain(d: Canvas, calls: seq<Call>): Canvas
    decreases |calls|
  {
    if |calls| == 0 then d else Chain(Apply(d, calls[0]), calls[1..])
  }

  /** The renderer commands a call issues on a width x height canvas, written
      as a table from the call alone. */
  function Emitted(call: Call, width: int, height: int): (cmds: seq<Command>)
    ensures |cmds| <= 1
  {
    match call
    case SetColorCall(_) => []
    case LineCall(points, color) => if points == [] then [] else [DrawLine(points, color)]
    case PointsCall(points, color) => if points == [] then [] else [DrawPoints(points, Given(color))]
    case RectsCall(rects, color) => [DrawRects(if rects == [] then [Rect(0, 0, width, height)] else rects, color)]
    case FillCall(rects, color) => [FillRects(if rects == [] then [Rect(0, 0, width, height)] else rects, color)]
  }

  /** The commands a chain of calls issues, in call order. */
  function EmittedAll(calls: seq<Call>, width: int, height: int): seq<Command>
    decreases |calls|
  {
    if |calls| == 0 then [] else Emitted(calls[0], width, height) + EmittedAll(calls[1..], width, height)
  }

  /** The colour in force after a chain of calls: that of the last setcolor,
      or the starting colour when there is none. */
  function FinalColor(calls: seq<Call>, start: Color): Color
    decreases |calls|
  {
    if |calls| == 0 then start
    else if calls[|calls| - 1].SetColorCall? then calls[|calls| - 1].color
    else FinalColor(calls[..|calls| - 1], start)
  }

  /** Every call returns the same object with at most one command appended:
      exactly the commands of the table, and the colour changed only by
      setcolor. */
  lemma ApplyEmits(d: Canvas, call: Call)
    ensures Apply(d, call).width == d.width && Apply(d, call).height == d.height
    ensures Apply(d, call).renderer.log == d.renderer.log + Emitted(call, d.width, d.height)
    ensures Apply(d, call).renderer.color == if call.SetColorCall? then call.color else d.renderer.color
  {
  }

  /** A chain of calls issues the commands of every call in call order, keeps
      the canvas size, and leaves the colour of its last setcolor. */
  lemma {:induction false} ChainEmits(d: Canvas, calls: seq<Call>)
    ensures Chain(d, calls).width == d.width && Chain(d, calls).height == d.height
    ensures Chain(d, calls).renderer.log == d.renderer.log + EmittedAll(calls, d.width, d.height)
    ensures Chain(d, calls).renderer.color == FinalColor(calls, d.renderer.color)
    decreases |calls|
  {
    if |calls| > 0 {
      var next := Apply(d, calls[0]);
      ApplyEmits(d, calls[0]);
      ChainEmits(next, calls[1..]);
      FinalColorHead(calls, d.renderer.color);
    }
  }

  /** Folding the colour from the front agrees with reading the last setcolor. */
  lemma {:induction false} FinalColorHead(calls: seq<Call>, start: Color)
    requires |calls| > 0
    ensures FinalColor(calls[1..], if calls[0].SetColorCall? then calls[0].color else start)
         == FinalColor(calls, start)
    decreases |calls|
  {
    if |calls| > 1 {
      var last := calls[|calls| - 1];
      assert calls[1..][..|calls[1..]| - 1] == calls[..|calls| - 1][1..];
      if !last.SetColorCall? {
        FinalColorHead(calls[..|calls| - 1], start);
      }
    }
  }
}
