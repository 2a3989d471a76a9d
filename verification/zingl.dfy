/** render_circle_aa: Alois Zingl's anti-aliased Bresenham circle. It walks
    one quadrant from (r, 0) to (0, -r), draws the four quarter-turn images
    of every offset, and around each step may add the pixel just outside or
    just inside the arc. */
module Zingl {
  import opened Geometry
  import opened Blend
  import opened Sequences

  /** The loop variables at the head of the loop. */
  datatype State = State(x: int, y: int, err: int)

  /** The state before the first pass (sdlext.py:84-86). */
  function Start(r: int): State {
    State(r, 0, 2 - 2 * r)
  }

  /** The pass steps x (towards the y axis) when the error exceeds y. */
  predicate XStep(s: State) {
    s.err > s.y
  }

  /** The pass steps y (away from the x axis) when the error, as it was
      before any x step, is at most x - 1. */
  predicate YStep(s: State) {
    s.err <= s.x - 1
  }

  /** The integer updates of one pass (sdlext.py:101-130). Neither x nor y
      ever grows, each moves by at most one, and as long as x - 1 >= y at
      least one of them moves. */
  function Step(s: State): (t: State)
    ensures s.x - 1 <= t.x <= s.x && s.y - 1 <= t.y <= s.y
    ensures s.x - 1 >= s.y ==> t.x + t.y < s.x + s.y
  {
    var a := if XStep(s) then State(s.x - 1, s.y, s.err - (2 * (s.x - 1) - 1)) else s;
    if YStep(s) then State(a.x, s.y - 1, a.err - (2 * (s.y - 1) - 1)) else a
  }

  /** The error is the squared distance of (x - 1, y - 1) from the centre
      minus r squared. */
  ghost predicate Tracks(s: State, r: int) {
    s.err == (s.x - 1) * (s.x - 1) + (s.y - 1) * (s.y - 1) - r * r
  }

  /** The offset is at or right of the y axis and at or below the x axis:
      the loop runs to x == 0 from any such state. */
  predicate Quadrant(s: State) {
    0 <= s.x && s.y <= 0
  }

  /** The error is bounded: err >= 2 - 2x always, and err <= 2 - 2y while
      x > 0. */
  predicate ErrorBand(s: State) {
    && Quadrant(s)
    && 2 - 2 * s.x <= s.err
    && (s.x >= 1 ==> s.err <= 2 - 2 * s.y)
  }

  /** The error band, inside the quadrant 0 <= x <= r, -r <= y <= 0. */
  predicate InQuadrant(s: State, r: int) {
    ErrorBand(s) && s.x <= r && -r <= s.y
  }

  /** The error bounds in geometric terms: the pixel one further from the x
      axis, (x, y - 1), lies strictly outside the circle, and while x > 0 the
      pixel one nearer the y axis, (x - 1, y), lies within distance squared
      r * r + 1 of the centre. */
  lemma StraddlesCircle(s: State, r: int)
    requires Tracks(s, r) && ErrorBand(s)
    ensures s.x * s.x + (s.y - 1) * (s.y - 1) > r * r
    ensures s.x >= 1 ==> (s.x - 1) * (s.x - 1) + s.y * s.y <= r * r + 1
  {
    assert s.x * s.x == (s.x - 1) * (s.x - 1) + 2 * s.x - 1;
    assert s.y * s.y == (s.y - 1) * (s.y - 1) + 2 * s.y - 1;
  }

  lemma StartInQuadrant(r: int)
    requires r >= 0
    ensures Tracks(Start(r), r) && InQuadrant(Start(r), r)
  {
    assert (r - 1) * (r - 1) == r * r - 2 * r + 1;
  }

  lemma SquareAtLeast(a: int)
    requires a >= 0
    ensures a * a >= a
  {
    if a > 0 {
      assert a * a == a * (a - 1) + a;
      assert a * (a - 1) >= 0;
    }
  }

  lemma SquareMonotone(a: int, b: int)
    requires 0 <= a <= b
    ensures a * a <= b * b
  {
    assert b * b - a * a == (b - a) * (b + a);
    assert (b - a) * (b + a) >= 0;
  }

  /** A pass from a state with x > 0 in the error band lands in the band
      again, and takes at least one step. */
  lemma StepErrorBand(s: State)
    requires ErrorBand(s) && s.x != 0
    ensures ErrorBand(Step(s))
    ensures Step(s).x + Step(s).y < s.x + s.y
  {
  }

  /** One pass keeps the error formula. */
  lemma StepTracks(s: State, r: int)
    requires Tracks(s, r)
    ensures Tracks(Step(s), r)
  {
    assert (s.x - 2) * (s.x - 2) == (s.x - 1) * (s.x - 1) - 2 * s.x + 3;
    assert (s.y - 2) * (s.y - 2) == (s.y - 1) * (s.y - 1) - 2 * s.y + 3;
  }

  /** A pass from a state with x > 0 keeps the error formula and the
      quadrant bounds. */
  lemma StepInQuadrant(s: State, r: int)
    requires Tracks(s, r) && InQuadrant(s, r) && s.x != 0
    ensures Tracks(Step(s), r) && InQuadrant(Step(s), r)
  {
    StepTracks(s, r);
    StepErrorBand(s);
    if s.y == -r {
      NoYStepAtBottom(s, r);
    }
  }

  /** On the bottom row y == -r the error exceeds x - 1, so y steps no further. */
  lemma NoYStepAtBottom(s: State, r: int)
    requires Tracks(s, r) && s.y == -r && s.x >= 1 && r >= 0
    ensures !YStep(s)
  {
    var b := r + 1;
    assert s.y - 1 == -b;
    assert (s.y - 1) * (s.y - 1) == b * b;
    assert b * b == r * r + 2 * r + 1;
    SquareAtLeast(s.x - 1);
  }

  /** A pass with x > 0 always steps: an error at most y is at most x - 1,
      so when x does not step, y does. */
  lemma PassSteps(s: State)
    requires Quadrant(s) && s.x > 0
    ensures XStep(s) || YStep(s)
    ensures Step(s) != s
  {
  }

  /** The loop-head states of every pass, from s up to and including the
      one with x == 0, whose batch is drawn before the loop exits. Every
      pass with x > 0 steps x, or else steps y and raises the error, which
      stays at most x - 1; so the loop reaches x == 0. */
  function Run(s: State): (trace: seq<State>)
    requires Quadrant(s)
    ensures |trace| >= 1 && trace[0] == s
    decreases s.x, s.x - s.err
  {
    if s.x == 0 then [s] else [s] + Run(Step(s))
  }

  /** At x == 0 the lower error bound forces y == -r. */
  lemma EndsOnAxis(s: State, r: int)
    requires Tracks(s, r) && InQuadrant(s, r) && s.x == 0
    ensures s.y == -r
  {
    assert (s.y - 1) * (s.y - 1) == (1 - s.y) * (1 - s.y);
    if 1 - s.y <= r {
      SquareMonotone(1 - s.y, r);
    }
  }

  /** Every pass of a run but the last has x > 0 and moves to a different
      8-neighbour (Step never lets x or y grow). */
  lemma {:induction false} RunSteps(s: State)
    requires Quadrant(s)
    ensures forall k :: 0 <= k < |Run(s)| - 1 ==>
      Run(s)[k].x > 0 && Run(s)[k + 1] == Step(Run(s)[k]) && Run(s)[k + 1] != Run(s)[k]
    decreases s.x, s.x - s.err
  {
    if s.x != 0 {
      var t := Step(s);
      RunSteps(t);
      var rest := Run(t);
      assert Run(s) == [s] + rest;
      assert t != s;
      forall k | 1 <= k < |Run(s)|
        ensures Run(s)[k] == rest[k - 1]
      {
      }
    }
  }

  /** A run ends at x == 0, after at least x + 1 passes and at most one
      pass per unit of x + y it descends. */
  lemma {:induction false} RunLength(s: State)
    requires Quadrant(s)
    ensures Run(s)[|Run(s)| - 1].x == 0
    ensures s.x + 1 <= |Run(s)| <= s.x + s.y - Run(s)[|Run(s)| - 1].y + 1
    decreases s.x, s.x - s.err
  {
    if s.x != 0 {
      var t := Step(s);
      RunLength(t);
      assert Run(s) == [s] + Run(t);
    }
  }

  /** Every loop-head state of a run from a state in the quadrant keeps the
      quadrant bounds, and the last one is on the bottom row y == -r. */
  lemma {:induction false} RunInQuadrant(s: State, r: int)
    requires Tracks(s, r) && InQuadrant(s, r)
    ensures forall k :: 0 <= k < |Run(s)| ==> InQuadrant(Run(s)[k], r)
    ensures Run(s)[|Run(s)| - 1].y == -r
    decreases s.x, s.x - s.err
  {
    if s.x == 0 {
      EndsOnAxis(s, r);
    } else {
      StepInQuadrant(s, r);
      RunInQuadrant(Step(s), r);
      assert Run(s) == [s] + Run(Step(s));
    }
  }

  /** Every loop-head state of a run keeps the error formula. */
  lemma {:induction false} RunTracks(s: State, r: int)
    requires Quadrant(s) && Tracks(s, r)
    ensures forall k :: 0 <= k < |Run(s)| ==> Tracks(Run(s)[k], r)
    decreases s.x, s.x - s.err
  {
    if s.x != 0 {
      StepTracks(s, r);
      RunTracks(Step(s), r);
      assert Run(s) == [s] + Run(Step(s));
    }
  }

  /** The whole arc render_circle_aa walks for r >= 0: from (r, 0) to
      (0, -r) through the quadrant, between r + 1 and 2 r + 1 passes. */
  lemma Arc(r: int)
    requires r >= 0
    ensures Run(Start(r))[0] == State(r, 0, 2 - 2 * r)
    ensures var last := Run(Start(r))[|Run(Start(r))| - 1]; last.x == 0 && last.y == -r
    ensures r + 1 <= |Run(Start(r))| <= 2 * r + 1
    ensures forall k :: 0 <= k < |Run(Start(r))| ==>
      0 <= Run(Start(r))[k].x <= r && -r <= Run(Start(r))[k].y <= 0
  {
    RunLength(Start(r));
    StartRunInQuadrant(r);
  }

  /** The run from Start(r) keeps the quadrant bounds and ends on y == -r. */
  lemma StartRunInQuadrant(r: int)
    requires r >= 0
    ensures forall k :: 0 <= k < |Run(Start(r))| ==> InQuadrant(Run(Start(r))[k], r)
    ensures Run(Start(r))[|Run(Start(r))| - 1].y == -r
  {
    StartInQuadrant(r);
    RunInQuadrant(Start(r), r);
  }

  /** Every offset on the arc straddles the circle: (x, y - 1) lies outside
      it and, but for the last pass, (x - 1, y) lies at most one unit of
      squared distance beyond it. */
  lemma ArcStraddles(r: int)
    requires r >= 0
    ensures forall k :: 0 <= k < |Run(Start(r))| ==>
      var s := Run(Start(r))[k];
      s.x * s.x + (s.y - 1) * (s.y - 1) > r * r
      && (s.x >= 1 ==> (s.x - 1) * (s.x - 1) + s.y * s.y <= r * r + 1)
  {
    StartInQuadrant(r);
    RunInQuadrant(Start(r), r);
    RunTracks(Start(r), r);
    var trace := Run(Start(r));
    forall k | 0 <= k < |trace|
      ensures trace[k].x * trace[k].x + (trace[k].y - 1) * (trace[k].y - 1) > r * r
      ensures trace[k].x >= 1 ==> (trace[k].x - 1) * (trace[k].x - 1) + trace[k].y * trace[k].y <= r * r + 1
    {
      StraddlesCircle(trace[k], r);
    }
  }

  /** The blend divisor res = 1 - err, fixed before the first pass, is 2 r - 1. */
  lemma DivisorIsBlendDivisor(r: int)
    ensures 1 - Start(r).err == BlendDivisor(r)
  {
  }

  /** The repeated pass without the x == 0 exit. */
  function Iterate(s: State, n: nat): State
    decreases n
  {
    if n == 0 then s else Iterate(Step(s), n - 1)
  }

  /** x never grows, so a negative radius, which starts x below zero, never
      reaches the x == 0 exit: the loop runs for ever. */
  lemma {:induction false} NeverReachesAxis(s: State, n: nat)
    requires s.x < 0
    ensures Iterate(s, n).x < 0
    decreases n
  {
    if n > 0 {
      NeverReachesAxis(Step(s), n - 1);
    }
  }

  /** The batches drawn during the pass that starts at s: the quarter-turn
      orbit of (x, -y) always; then, unless this is the last pass, the orbit
      of the outward pixel (x, 1 - y) before an x step and the orbit of the
      inward pixel (x - 1, -y) before a y step, each when the gate admits it. */
  function PassBatches(c: Point, s: State, gate: Gate): (batches: seq<seq<Point>>)
    ensures 1 <= |batches| <= 3 && batches[0] == Orbit(c, s.x, -s.y)
    ensures s.x == 0 ==> |batches| == 1
  {
    var outward := if XStep(s) && gate(Outward, s.x, s.y, s.err) then [Orbit(c, s.x, 1 - s.y)] else [];
    var inward := if YStep(s) && gate(Inward, s.x, s.y, s.err) then [Orbit(c, s.x - 1, -s.y)] else [];
    [Orbit(c, s.x, -s.y)] + (if s.x == 0 then [] else outward + inward)
  }

  /** After the main orbit a pass draws only the outward orbit of (x, 1 - y),
      exactly when x steps and the gate admits it, and the inward orbit of
      (x - 1, -y), exactly when y steps and the gate admits it, in that
      order; the last pass (x == 0) draws neither. */
  lemma PassBatchesShape(c: Point, s: State, gate: Gate)
    ensures forall k :: 1 <= k < |PassBatches(c, s, gate)| ==>
      PassBatches(c, s, gate)[k] == Orbit(c, s.x, 1 - s.y) || PassBatches(c, s, gate)[k] == Orbit(c, s.x - 1, -s.y)
    ensures Orbit(c, s.x, 1 - s.y) in PassBatches(c, s, gate)[1..]
      <==> s.x != 0 && XStep(s) && gate(Outward, s.x, s.y, s.err)
    ensures Orbit(c, s.x - 1, -s.y) in PassBatches(c, s, gate)[1..]
      <==> s.x != 0 && YStep(s) && gate(Inward, s.x, s.y, s.err)
    ensures |PassBatches(c, s, gate)| == 3 ==>
      PassBatches(c, s, gate)[1] == Orbit(c, s.x, 1 - s.y) && PassBatches(c, s, gate)[2] == Orbit(c, s.x - 1, -s.y)
  {
  }

  /** The batches drawn for all the passes of trace, in order. */
  function Draws(c: Point, trace: seq<State>, gate: Gate): (batches: seq<seq<Point>>)
    ensures |trace| <= |batches| <= 3 * |trace|
  {
    if |trace| == 0 then [] else PassBatches(c, trace[0], gate) + Draws(c, trace[1..], gate)
  }

  /** Drawing one more pass appends that pass's batches. This is the same
      law as FastAA.DrawsAppend, stated for this module's own State and
      PassBatches, which differ from those of render_circle_aa_fast. */
  lemma {:induction false} DrawsAppend(c: Point, trace: seq<State>, s: State, gate: Gate)
    ensures Draws(c, trace + [s], gate) == Draws(c, trace, gate) + PassBatches(c, s, gate)
    decreases |trace|
  {
    if |trace| == 0 {
      assert Draws(c, [s], gate) == PassBatches(c, s, gate) + Draws(c, [], gate);
    } else {
      assert (trace + [s])[1..] == trace[1..] + [s];
      DrawsAppend(c, trace[1..], s, gate);
    }
  }

  /** Everything render_circle_aa draws for centre c and radius r >= 0. */
  function Batches(c: Point, r: int, gate: Gate): seq<seq<Point>>
    requires r >= 0
  {
    Draws(c, Run(Start(r)), gate)
  }

  /** One pass of the render_circle_aa loop as written (sdlext.py:89-130):
      the batches it draws and the loop variables it leaves, which are those
      of Step; at x == 0 it draws the orbit of (0, -y) and steps nowhere. */
  method Pass(c: Point, x: int, y: int, err: int, gate: Gate) returns (pass: seq<seq<Point>>, x': int, y': int, err': int)
    ensures pass == PassBatches(c, State(x, y, err), gate)
    ensures x != 0 ==> State(x', y', err') == Step(State(x, y, err))
  {
    pass := [Orbit(c, x, -y)];
    x', y', err' := x, y, err;
    if x == 0 {
      return;
    }
    var e2, x2 := err, x;
    if err' > y' {
      if gate(Outward, x', y', err') {
        pass := pass + [Orbit(c, x', -y' + 1)];
      }
      x' := x' - 1;
      err' := err' - (x' * 2 - 1);
    }
    x2 := x2 - 1;
    if e2 <= x2 {
      if gate(Inward, x, y', e2) {
        pass := pass + [Orbit(c, x2, -y')];
      }
      y' := y' - 1;
      err' := err' - (y' * 2 - 1);
    }
  }

  /** A pass with x > 0 hands one loop-head state from the run ahead to the
      trace behind, stays in the quadrant, and lowers x, or else keeps x and
      raises an error that was at most x - 1. */
  lemma RunUnfolds(trace: seq<State>, head: State)
    requires Quadrant(head) && head.x != 0
    ensures Quadrant(Step(head))
    ensures trace + Run(head) == (trace + [head]) + Run(Step(head))
    ensures Step(head).x < head.x || (Step(head).x == head.x && Step(head).err > head.err && head.x - head.err >= 0)
  {
    assert Run(head) == [head] + Run(Step(head));
    AppendHead(trace, head, Run(Step(head)));
  }

  /** render_circle_aa as written, for a radius it terminates on: the
      batches it hands to draw_point and the loop-head states they were
      drawn from. */
  method RenderCircleAA(c: Point, r: int, gate: Gate) returns (batches: seq<seq<Point>>, trace: seq<State>)
    requires r >= 0
    ensures trace == Run(Start(r))
    ensures batches == Batches(c, r, gate)
  {
    var x, y := r, 0;
    var err := 2 - 2 * r;
    batches, trace := [], [];
    assert trace + Run(State(x, y, err)) == Run(Start(r));
    while true
      invariant Quadrant(State(x, y, err))
      invariant trace + Run(State(x, y, err)) == Run(Start(r))
      invariant batches == Draws(c, trace, gate)
      decreases x, x - err
    {
      var head := State(x, y, err);
      var pass, x', y', err' := Pass(c, x, y, err, gate);
      DrawsAppend(c, trace, head, gate);
      if x == 0 {
        assert Run(head) == [head];
        batches, trace := batches + pass, trace + [head];
        break;
      }
      RunUnfolds(trace, head);
      batches, trace := batches + pass, trace + [head];
      x, y, err := x', y', err';
    }
  }
}
