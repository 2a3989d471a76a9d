/** render_circle: the midpoint circle rasterizer. It walks the octant from
    (r - 1, 0) towards the diagonal and draws the eight symmetric images of
    every offset it visits. */
module Midpoint {
  import opened Geometry
  import opened Sequences

  /** The loop variables at the head of the loop: the offset (x, y), the odd
      increments tx and ty, and the error term. */
  datatype State = State(x: int, y: int, tx: int, ty: int, err: int)

  /** The state before the first pass (sdlext.py:37-41). */
  function Start(r: int): State {
    State(r - 1, 0, 1, 1, 1 - 2 * r)
  }

  /** The loop condition. */
  predicate Guard(s: State) {
    s.x >= s.y
  }

  /** The integer updates of one pass, after its batch is drawn: a y step
      when the error is not positive, then an x step when the error (as the
      y step left it) is positive. Every pass takes at least one step, so
      x - y strictly falls, by one or two. */
  function Step(s: State, r: int): (t: State)
    ensures s.y <= t.y <= s.y + 1
    ensures s.x - 1 <= t.x <= s.x
    ensures t.x - t.y < s.x - s.y
  {
    var a := if s.err <= 0 then s.(y := s.y + 1, err := s.err + s.ty, ty := s.ty + 2) else s;
    if a.err > 0 then a.(x := a.x - 1, tx := a.tx + 2, err := a.err + (a.tx + 2 - 2 * r)) else a
  }

  /** The loop-head states of every pass, from s until the loop condition fails. */
  function Run(s: State, r: int): (trace: seq<State>)
    ensures |trace| == 0 <==> !Guard(s)
    ensures forall k :: 0 <= k < |trace| ==> Guard(trace[k])
    decreases s.x - s.y + 2
  {
    if Guard(s) then [s] + Run(Step(s, r), r) else []
  }

  /** The point batches drawn for the loop-head states in trace, in order. */
  function OctantBatches(c: Point, trace: seq<State>): (batches: seq<seq<Point>>)
    ensures |batches| == |trace|
    ensures forall k :: 0 <= k < |trace| ==> batches[k] == Octants(c, trace[k].x, trace[k].y)
  {
    if |trace| == 0 then [] else [Octants(c, trace[0].x, trace[0].y)] + OctantBatches(c, trace[1..])
  }

  /** Everything render_circle draws for centre c and radius r. */
  function Batches(c: Point, r: int): seq<seq<Point>> {
    OctantBatches(c, Run(Start(r), r))
  }

  /** The increments track the offset: ty is 2 y + 1 and tx is 2 (r - x) - 1. */
  predicate Increments(s: State, r: int) {
    s.ty == 2 * s.y + 1 && s.tx == 2 * r - 2 * s.x - 1
  }

  /** The error is the offset's squared distance from the centre minus r squared. */
  ghost predicate Tracks(s: State, r: int) {
    s.err == s.x * s.x + s.y * s.y - r * r
  }

  /** The offset is in the first octant and the error lies in
      [-2 x - 1, 0]. */
  predicate ErrorBand(s: State) {
    0 <= s.y <= s.x && -2 * s.x - 1 <= s.err <= 0
  }

  /** The offset lies in the first octant, on or inside the circle of radius
      r, and one pixel further out along x it is on or outside that circle. */
  ghost predicate InBand(s: State, r: int) {
    && 0 <= s.y <= s.x
    && s.x * s.x + s.y * s.y <= r * r <= (s.x + 1) * (s.x + 1) + s.y * s.y
  }

  lemma StartInBand(r: int)
    ensures Increments(Start(r), r)
    ensures Guard(Start(r)) ==> ErrorBand(Start(r))
  {
  }

  lemma StartTracks(r: int)
    ensures Tracks(Start(r), r)
  {
    assert (r - 1) * (r - 1) == r * r - 2 * r + 1;
  }

  /** One pass keeps the increments and the error in step with the offset. */
  lemma StepTracks(s: State, r: int)
    requires Increments(s, r) && Tracks(s, r)
    ensures Increments(Step(s, r), r) && Tracks(Step(s, r), r)
  {
    var a := if s.err <= 0 then s.(y := s.y + 1, err := s.err + s.ty, ty := s.ty + 2) else s;
    assert (s.y + 1) * (s.y + 1) == s.y * s.y + 2 * s.y + 1;
    assert Tracks(a, r);
    assert (a.x - 1) * (a.x - 1) == a.x * a.x - 2 * a.x + 1;
  }

  /** While the error is in its band, it is never positive at the head of
      the loop, so every pass raises y by one, and the band is kept for as
      long as the loop runs. */
  lemma StepInBand(s: State, r: int)
    requires Increments(s, r) && ErrorBand(s)
    ensures Increments(Step(s, r), r)
    ensures Step(s, r).y == s.y + 1
    ensures Guard(Step(s, r)) ==> ErrorBand(Step(s, r))
  {
  }

  /** With the error formula, the error band is the geometric band. */
  lemma BandGeometry(s: State, r: int)
    requires Tracks(s, r) && ErrorBand(s)
    ensures InBand(s, r)
  {
    assert (s.x + 1) * (s.x + 1) == s.x * s.x + 2 * s.x + 1;
  }

  /** Every loop-head state of a run keeps the increments and the error
      formula. */
  lemma {:induction false} RunTracks(s: State, r: int)
    requires Increments(s, r) && Tracks(s, r)
    ensures forall k :: 0 <= k < |Run(s, r)| ==> Increments(Run(s, r)[k], r) && Tracks(Run(s, r)[k], r)
    decreases s.x - s.y + 2
  {
    if Guard(s) {
      StepTracks(s, r);
      RunTracks(Step(s, r), r);
      assert Run(s, r) == [s] + Run(Step(s, r), r);
    }
  }

  /** Every loop-head state of a run from a state in the error band is in
      the band, and y rises by exactly one per pass. */
  lemma {:induction false} RunInBand(s: State, r: int)
    requires Increments(s, r)
    requires Guard(s) ==> ErrorBand(s)
    ensures forall k :: 0 <= k < |Run(s, r)| ==> ErrorBand(Run(s, r)[k]) && Run(s, r)[k].y == s.y + k
    decreases s.x - s.y + 2
  {
    if Guard(s) {
      var t := Step(s, r);
      StepInBand(s, r);
      RunInBand(t, r);
      var rest := Run(t, r);
      assert Run(s, r) == [s] + rest;
      forall k | 1 <= k < |Run(s, r)|
        ensures Run(s, r)[k] == rest[k - 1]
      {
      }
    }
  }

  /** In a run from a state in the error band, x falls by at most one per
      pass. */
  lemma {:induction false} RunShape(s: State, r: int)
    requires Increments(s, r)
    requires Guard(s) ==> ErrorBand(s)
    ensures forall k :: 0 <= k < |Run(s, r)| ==> s.x - k <= Run(s, r)[k].x <= s.x
    ensures forall k :: 0 <= k < |Run(s, r)| - 1 ==>
      Run(s, r)[k].x - 1 <= Run(s, r)[k + 1].x <= Run(s, r)[k].x
    decreases s.x - s.y + 2
  {
    if Guard(s) {
      var t := Step(s, r);
      StepInBand(s, r);
      RunShape(t, r);
      var rest := Run(t, r);
      assert Run(s, r) == [s] + rest;
      forall k | 1 <= k < |Run(s, r)|
        ensures Run(s, r)[k] == rest[k - 1]
      {
      }
      if |rest| > 0 {
        assert rest[0] == t;
      }
    }
  }

  /** In a run from a state in the error band, the last offset is on or
      next to the diagonal. */
  lemma {:induction false} RunEnd(s: State, r: int)
    requires Increments(s, r)
    requires Guard(s) ==> ErrorBand(s)
    ensures |Run(s, r)| > 0 ==> Run(s, r)[|Run(s, r)| - 1].x - Run(s, r)[|Run(s, r)| - 1].y <= 1
    decreases s.x - s.y + 2
  {
    if Guard(s) {
      var t := Step(s, r);
      StepInBand(s, r);
      RunEnd(t, r);
      assert Run(s, r) == [s] + Run(t, r);
    }
  }

  /** At the head of every pass of render_circle, ty == 2 y + 1,
      tx == 2 r - 2 x - 1 and err == x * x + y * y - r * r. */
  lemma ArcTracks(r: int)
    ensures forall k :: 0 <= k < |Run(Start(r), r)| ==>
      var s := Run(Start(r), r)[k];
      s.ty == 2 * s.y + 1 && s.tx == 2 * r - 2 * s.x - 1 && s.err == s.x * s.x + s.y * s.y - r * r
  {
    StartInBand(r);
    StartTracks(r);
    RunTracks(Start(r), r);
  }

  /** The whole arc render_circle walks: nothing for r <= 0; otherwise at
      most r passes starting at (r - 1, 0), visiting y = 0, 1, 2, ... with
      every offset in the band, moving by one pixel (straight or diagonal)
      between passes, and stopping on or next to the diagonal. */
  lemma Arc(r: int)
    ensures r <= 0 ==> Run(Start(r), r) == []
    ensures r > 0 ==> |Run(Start(r), r)| > 0 && Run(Start(r), r)[0] == Start(r)
    ensures |Run(Start(r), r)| <= if r > 0 then r else 0
    ensures forall k :: 0 <= k < |Run(Start(r), r)| ==>
      InBand(Run(Start(r), r)[k], r) && Run(Start(r), r)[k].y == k
    ensures forall k :: 0 <= k < |Run(Start(r), r)| - 1 ==>
      Run(Start(r), r)[k].x - 1 <= Run(Start(r), r)[k + 1].x <= Run(Start(r), r)[k].x
    ensures |Run(Start(r), r)| > 0 ==>
      Run(Start(r), r)[|Run(Start(r), r)| - 1].x - Run(Start(r), r)[|Run(Start(r), r)| - 1].y <= 1
  {
    var s := Start(r);
    StartInBand(r);
    StartTracks(r);
    RunInBand(s, r);
    RunShape(s, r);
    RunEnd(s, r);
    RunTracks(s, r);
    var trace := Run(s, r);
    forall k | 0 <= k < |trace|
      ensures InBand(trace[k], r)
    {
      BandGeometry(trace[k], r);
    }
    if |trace| > 0 {
      var last := trace[|trace| - 1];
      assert last.y == |trace| - 1 && last.y <= last.x <= r - 1;
    }
  }

  /** render_circle draws at most max(r, 0) batches, and batch k is the
      eight images of an offset (x, k) with x >= k >= 0. */
  lemma BatchesAreOctants(c: Point, r: int)
    ensures |Batches(c, r)| <= if r > 0 then r else 0
    ensures forall k :: 0 <= k < |Batches(c, r)| ==>
      k <= Run(Start(r), r)[k].x && Batches(c, r)[k] == Octants(c, Run(Start(r), r)[k].x, k)
  {
    StartInBand(r);
    RunInBand(Start(r), r);
    RunShape(Start(r), r);
    var trace := Run(Start(r), r);
    if |trace| > 0 {
      var last := trace[|trace| - 1];
      assert last.y == |trace| - 1 && last.y <= last.x <= r - 1;
    }
  }

  lemma OctantBatchesAppend(c: Point, trace: seq<State>, s: State)
    ensures OctantBatches(c, trace + [s]) == OctantBatches(c, trace) + [Octants(c, s.x, s.y)]
  {
    var whole := OctantBatches(c, trace + [s]);
    assert forall k :: 0 <= k < |trace| ==> whole[k] == OctantBatches(c, trace)[k];
  }

  /** A pass hands one loop-head state from the run ahead to the trace behind. */
  lemma RunUnfolds(trace: seq<State>, head: State, r: int)
    requires Guard(head)
    ensures trace + Run(head, r) == (trace + [head]) + Run(Step(head, r), r)
  {
    assert Run(head, r) == [head] + Run(Step(head, r), r);
    AppendHead(trace, head, Run(Step(head, r), r));
  }

  /** render_circle as written: the batches it hands to draw_point, and the
      loop-head states they were drawn from. */
  method RenderCircle(c: Point, r: int) returns (batches: seq<seq<Point>>, trace: seq<State>)
    ensures trace == Run(Start(r), r)
    ensures batches == Batches(c, r)
  {
    var d := 2 * r;
    var x, y := r - 1, 0;
    var tx, ty := 1, 1;
    var err := tx - d;
    batches, trace := [], [];
    assert State(x, y, tx, ty, err) == Start(r);
    assert trace + Run(State(x, y, tx, ty, err), r) == Run(Start(r), r);
    while x >= y
      invariant trace + Run(State(x, y, tx, ty, err), r) == Run(Start(r), r)
      invariant batches == OctantBatches(c, trace)
      decreases x - y + 2
    {
      var head := State(x, y, tx, ty, err);
      RunUnfolds(trace, head, r);
      OctantBatchesAppend(c, trace, head);
      var points := Octants(c, x, y);
      batches, trace := batches + [points], trace + [head];

      if err <= 0 {
        y := y + 1;
        err := err + ty;
        ty := ty + 2;
      }

      if err > 0 {
        x := x - 1;
        tx := tx + 2;
        err := err + (tx - d);
      }
      assert State(x, y, tx, ty, err) == Step(head, r);
    }
  }
}
