/** render_circle_aa_fast: a midpoint variant of the anti-aliased circle. It
    walks the octant from (r - 1, 0) to the diagonal taking exactly one step
    per pass, and draws (when the gates admit them) the eight symmetric
    images of the offset and of its inward or outward neighbour. */
module FastAA {
  import opened Geometry
  import opened Blend
  import opened Sequences

  /** The loop variables at the head of the loop. */
  datatype State = State(x: int, y: int, err: int)

  /** The state before the first pass (sdlext.py:139-143). */
  function Start(r: int): State {
    State(r - 1, 0, 2 - 2 * r)
  }

  /** The loop condition. */
  predicate Guard(s: State) {
    s.x >= s.y
  }

  /** The integer updates of one pass (sdlext.py:163-206). Both branches are
      decided on the error as it was at the head of the loop, so exactly one
      of them fires: a y step when it is not positive, an x step when it is,
      and x - y falls by exactly one. */
  function Step(s: State): (t: State)
    ensures (t.x == s.x && t.y == s.y + 1) || (t.x == s.x - 1 && t.y == s.y)
    ensures t.y == s.y + 1 <==> s.err <= 0
    ensures t.x - t.y == s.x - s.y - 1
  {
    var a := if s.err <= 0 then State(s.x, s.y + 1, s.err + ((s.y + 1) * 2 - 1)) else s;
    if s.err > 0 then State(a.x - 1, a.y, a.err - ((a.x - 1) * 2 - 1)) else a
  }

  /** The loop-head states of every pass, from s until the loop condition fails. */
  function Run(s: State): (trace: seq<State>)
    ensures |trace| == 0 <==> !Guard(s)
    ensures forall k :: 0 <= k < |trace| ==> Guard(trace[k])
    decreases s.x - s.y + 1
  {
    if Guard(s) then [s] + Run(Step(s)) else []
  }

  /** The loop runs once for every unit of x - y + 1 it starts with. */
  lemma {:induction false} RunLength(s: State)
    ensures |Run(s)| == if s.x >= s.y then s.x - s.y + 1 else 0
    decreases s.x - s.y + 1
  {
    if Guard(s) {
      RunLength(Step(s));
    }
  }

  /** render_circle_aa_fast makes exactly max(r, 0) passes. */
  lemma PassCount(r: int)
    ensures |Run(Start(r))| == if r > 0 then r else 0
  {
    RunLength(Start(r));
  }

  /** The error in terms of the offset: the squared distance of (x - 1, y)
      minus (r - 1) squared, minus one. */
  ghost predicate Tracks(s: State, r: int) {
    s.err == (s.x - 1) * (s.x - 1) + s.y * s.y - (r - 1) * (r - 1) - 1
  }

  /** The offset is in the first octant, on or outside the circle of radius
      r - 1, and the pixel diagonally inward from it, (x - 1, y - 1), is
      within distance squared (r - 1) * (r - 1) + 2 of the centre. */
  ghost predicate InBand(s: State, r: int) {
    && 0 <= s.y <= s.x
    && s.x * s.x + s.y * s.y >= (r - 1) * (r - 1)
    && (s.x - 1) * (s.x - 1) + (s.y - 1) * (s.y - 1) <= (r - 1) * (r - 1) + 2
  }

  lemma StartTracks(r: int)
    ensures Tracks(Start(r), r)
  {
    assert (r - 2) * (r - 2) == (r - 1) * (r - 1) - 2 * r + 3;
  }

  /** One pass keeps the error formula. */
  lemma StepTracks(s: State, r: int)
    requires Tracks(s, r)
    ensures Tracks(Step(s), r)
  {
    assert (s.y + 1) * (s.y + 1) == s.y * s.y + 2 * s.y + 1;
    assert (s.x - 2) * (s.x - 2) == (s.x - 1) * (s.x - 1) - 2 * s.x + 3;
  }

  /** In the error's own terms the band reads -2x <= err <= 2y. */
  lemma BandIsErrorBound(s: State, r: int)
    requires Tracks(s, r)
    ensures InBand(s, r) <==> 0 <= s.y <= s.x && -2 * s.x <= s.err <= 2 * s.y
  {
    assert s.x * s.x == (s.x - 1) * (s.x - 1) + 2 * s.x - 1;
    assert (s.y - 1) * (s.y - 1) == s.y * s.y - 2 * s.y + 1;
  }

  /** One pass from an in-band state lands in the band again whenever the
      loop goes on. */
  lemma StepInBand(s: State, r: int)
    requires Tracks(s, r) && InBand(s, r)
    ensures Guard(Step(s)) ==> InBand(Step(s), r)
  {
    StepTracks(s, r);
    BandIsErrorBound(s, r);
    BandIsErrorBound(Step(s), r);
  }

  /** Every run from an in-band state: all loop-head states keep the error
      formula and lie in the band, and pass k has x - y exactly k below the
      start. */
  lemma {:induction false} RunInBand(s: State, r: int)
    requires Tracks(s, r)
    requires Guard(s) ==> InBand(s, r)
    ensures forall k :: 0 <= k < |Run(s)| ==> Tracks(Run(s)[k], r) && InBand(Run(s)[k], r)
    ensures forall k :: 0 <= k < |Run(s)| ==> Run(s)[k].x - Run(s)[k].y == s.x - s.y - k
    decreases s.x - s.y + 1
  {
    if Guard(s) {
      StepTracks(s, r);
      StepInBand(s, r);
      RunInBand(Step(s), r);
      var rest := Run(Step(s));
      assert Run(s) == [s] + rest;
      forall k | 1 <= k < |Run(s)|
        ensures Run(s)[k] == rest[k - 1]
      {
      }
    }
  }

  /** The arc render_circle_aa_fast walks: r passes from (r - 1, 0) for
      r > 0, none otherwise, every offset in the band, and each pass one unit
      step, straight along y or straight along x. */
  lemma Arc(r: int)
    ensures |Run(Start(r))| == if r > 0 then r else 0
    ensures r > 0 ==> Run(Start(r))[0] == Start(r)
    ensures forall k :: 0 <= k < |Run(Start(r))| ==> InBand(Run(Start(r))[k], r)
    ensures forall k :: 0 <= k < |Run(Start(r))| - 1 ==> Run(Start(r))[k + 1] == Step(Run(Start(r))[k])
  {
    PassCount(r);
    StartTracks(r);
    var s := Start(r);
    if Guard(s) {
      BandIsErrorBound(s, r);
    }
    RunInBand(s, r);
    RunSteps(s);
  }

  /** Consecutive loop-head states of a run are one pass apart. */
  lemma {:induction false} RunSteps(s: State)
    ensures forall k :: 0 <= k < |Run(s)| - 1 ==> Run(s)[k + 1] == Step(Run(s)[k])
    decreases s.x - s.y + 1
  {
    if Guard(s) {
      RunSteps(Step(s));
      var rest := Run(Step(s));
      assert Run(s) == [s] + rest;
      if |rest| > 0 {
        assert rest[0] == Step(s);
      }
    }
  }

  /** The batches drawn during the pass that starts at s, each when its gate
      admits it: the octants of (x, y); then either the octants of the inward
      pixel (x - 1, y) before a y step or those of the outward pixel
      (x, y - 1) before an x step, never both. */
  function PassBatches(c: Point, s: State, gate: Gate): (batches: seq<seq<Point>>)
    ensures |batches| <= 2
    ensures forall k :: 0 <= k < |batches| ==>
      batches[k] in {Octants(c, s.x, s.y), Octants(c, s.x - 1, s.y), Octants(c, s.x, s.y - 1)}
  {
    var onArc := if gate(OnArc, s.x, s.y, s.err) then [Octants(c, s.x, s.y)] else [];
    var inward := if s.err <= 0 && gate(Inward, s.x, s.y, s.err) then [Octants(c, s.x - 1, s.y)] else [];
    var outward := if s.err > 0 && gate(Outward, s.x, s.y, s.err) then [Octants(c, s.x, s.y - 1)] else [];
    onArc + inward + outward
  }

  /** Which batches a pass draws: the octants of (x, y) exactly when their
      gate admits them, and then first; those of the inward pixel exactly
      when the head error is not positive and their gate admits them; those
      of the outward pixel exactly when the head error is positive and their
      gate admits them. */
  lemma PassBatchesShape(c: Point, s: State, gate: Gate)
    ensures Octants(c, s.x, s.y) in PassBatches(c, s, gate) <==> gate(OnArc, s.x, s.y, s.err)
    ensures Octants(c, s.x, s.y) in PassBatches(c, s, gate) ==> PassBatches(c, s, gate)[0] == Octants(c, s.x, s.y)
    ensures Octants(c, s.x - 1, s.y) in PassBatches(c, s, gate) <==> s.err <= 0 && gate(Inward, s.x, s.y, s.err)
    ensures Octants(c, s.x, s.y - 1) in PassBatches(c, s, gate) <==> s.err > 0 && gate(Outward, s.x, s.y, s.err)
  {
  }

  /** The batches drawn for all the passes of trace, in order. */
  function Draws(c: Point, trace: seq<State>, gate: Gate): (batches: seq<seq<Point>>)
    ensures |batches| <= 2 * |trace|
  {
    if |trace| == 0 then [] else PassBatches(c, trace[0], gate) + Draws(c, trace[1..], gate)
  }

  /** Drawing one more pass appends that pass's batches. */
  lemma {:induction false} DrawsAppend(c: Point, trace: seq<State>, s: State, gate: Gate)
    ensures Draws(c, trace + [s], gate) == Draws(c, trace, gate) + PassBatches(c, s, gate)
    decreases |trace|
  {
    if |trace| == 0 {
      assert Draws(c, [s], gate) == PassBatches(c, s, gate) + Draws(c, [], gate);
    } else {
      assert (trace + [s])[1..] == trace[1..] + [s];
      DrawsAppend(c, trace[1..], s, gate);
    }
  }

  /** Everything render_circle_aa_fast draws for centre c and radius r. */
  function Batches(c: Point, r: int, gate: Gate): seq<seq<Point>> {
    Draws(c, Run(Start(r)), gate)
  }

  /** One pass of the render_circle_aa_fast loop as written
      (sdlext.py:146-206): the batches it draws and the loop variables it
      leaves, which are those of Step. */
  method Pass(c: Point, x: int, y: int, err: int, gate: Gate) returns (pass: seq<seq<Point>>, x': int, y': int, err': int)
    ensures pass == PassBatches(c, State(x, y, err), gate)
    ensures State(x', y', err') == Step(State(x, y, err))
  {
    pass := [];
    x', y', err' := x, y, err;
    if gate(OnArc, x, y, err) {
      pass := pass + [Octants(c, x, y)];
    }
    var e2, y2 := err', y';
    if err' <= 0 {
      var inX := x' - 1;
      if gate(Inward, x, y, err) {
        pass := pass + [Octants(c, inX, y')];
      }
      y' := y' + 1;
      err' := err' + (y' * 2 - 1);
    }
    if e2 > 0 {
      var outY := y2 - 1;
      if gate(Outward, x, y, err) {
        pass := pass + [Octants(c, x', outY)];
      }
      x' := x' - 1;
      err' := err' - (x' * 2 - 1);
    }
  }

  /** render_circle_aa_fast as written: the batches it hands to draw_point
      and the loop-head states they were drawn from. */
  method RenderCircleAAFast(c: Point, r: int, gate: Gate) returns (batches: seq<seq<Point>>, trace: seq<State>)
    ensures trace == Run(Start(r))
    ensures batches == Batches(c, r, gate)
  {
    var d := 2 * r;
    var x, y := r - 1, 0;
    var err := 2 - d;
    batches, trace := [], [];
    while x >= y
      invariant trace + Run(State(x, y, err)) == Run(Start(r))
      invariant batches == Draws(c, trace, gate)
      decreases x - y + 1
    {
      var head := State(x, y, err);
      var pass, x', y', err' := Pass(c, x, y, err, gate);
      DrawsAppend(c, trace, head, gate);
      assert Run(head) == [head] + Run(Step(head));
      AppendHead(trace, head, Run(Step(head)));
      batches, trace := batches + pass, trace + [head];
      x, y, err := x', y', err';
    }
  }
}
