/**
  The animation synthesizer (`_generate_video`): hold frames of the
  overlapping render, eased transition frames in which every shape moves
  from its scene position to its layout slot, then twice as many hold frames
  of the separated render. Progress is a `real`; the source's floating
  point rounding is not modelled.
 */
module Animation {
  import opened Shapes
  import opened Drawing
  import opened Ordering
  import opened Layout
  import opened SceneGenerator

  /** Frames showing the initial image; the final image is held twice as long. */
  const HoldFrames := 5

  /** Number of transition frames. */
  const AnimationFrames := 25

  /** Linear progress `k / (A - 1)` of transition frame `k`. */
  function Progress(k: int): real
  {
    k as real / (AnimationFrames - 1) as real
  }

  /** The ease-out curve `1 - (1 - p) ** 2`. */
  function EaseOut(p: real): real
  {
    1.0 - (1.0 - p) * (1.0 - p)
  }

  /** Python's `int()` on a number: truncation toward zero. */
  function Trunc(r: real): int
  {
    if r >= 0.0 then r.Floor else -((-r).Floor)
  }

  /** `Trunc` drops the fractional part: it rounds down positive numbers and up negative ones. */
  lemma TruncTowardZero(r: real)
    ensures r >= 0.0 ==> 0 <= Trunc(r) && Trunc(r) as real <= r < Trunc(r) as real + 1.0
    ensures r < 0.0 ==> Trunc(r) <= 0 && Trunc(r) as real - 1.0 < r <= Trunc(r) as real
  {
  }

  /** `start + (end - start) * t`. */
  function Lerp(start: int, end: int, t: real): real
  {
    start as real + (end - start) as real * t
  }

  /** Shape `s` drawn at fraction `t` of the way to `(endX, endY)`, coordinates truncated. */
  function Interpolated(s: Shape, endX: int, endY: int, t: real): Shape
  {
    MoveTo(s, Trunc(Lerp(s.x, endX, t)), Trunc(Lerp(s.y, endY, t)))
  }

  /** The shapes of one transition frame, front to back, each heading for its layout slot. */
  function TransitionShapes(cfg: Config, ordered: seq<Shape>, t: real): (r: seq<Shape>)
    ensures |r| == |ordered|
  {
    seq(|ordered|, i requires 0 <= i < |ordered| =>
      Interpolated(ordered[i], SlotX(cfg.width, |ordered|, i), SlotY(cfg.height), t))
  }

  /** Transition frame `k`: a fresh composite of the interpolated shapes in front-to-back order. */
  function TransitionFrame(cfg: Config, shapes: seq<Shape>, k: int): Image
  {
    var ordered := SortByLayer(shapes, true);
    Image(cfg.width, cfg.height, cfg.bgColor, Pastes(TransitionShapes(cfg, ordered, EaseOut(Progress(k)))))
  }

  /**
    One pass of the transition loop: a fresh canvas, each shape drawn
    `progress` of the way from its scene position to its final position,
    then flattened.
   */
  method RenderTransitionFrame(cfg: Config, shapes: seq<Shape>, finalPositions: seq<(int, int)>, progress: real)
    returns (frame: Image)
    requires |finalPositions| == |shapes|
    requires forall j :: 0 <= j < |shapes| ==> finalPositions[j] == (SlotX(cfg.width, |shapes|, j), SlotY(cfg.height))
    ensures frame == Image(cfg.width, cfg.height, cfg.bgColor, Pastes(TransitionShapes(cfg, shapes, progress)))
  {
    ghost var moved := TransitionShapes(cfg, shapes, progress);
    var canvas := new Canvas(cfg.width, cfg.height, cfg.bgColor);
    for i := 0 to |shapes|
      invariant |canvas.commands| == i
      invariant forall j :: 0 <= j < i ==> canvas.commands[j] == PasteCommand(moved[j], 0, 0)
    {
      var startX, startY := shapes[i].x, shapes[i].y;
      var (endX, endY) := finalPositions[i];
      var currX := startX as real + (endX - startX) as real * progress;
      var currY := startY as real + (endY - startY) as real * progress;
      var tempShape := MoveTo(shapes[i], Trunc(currX), Trunc(currY));
      assert tempShape == moved[i];
      canvas.DrawShape(tempShape, 0, 0);
    }
    frame := canvas.Flatten();
    assert frame.commands == Pastes(moved);
  }

  /**
    `_generate_video` up to the encoder call: the frame list it builds from
    the two static renders and the scene. The layout targets are computed
    inline again, independently of the separated render.
   */
  method GenerateVideo(cfg: Config, firstImage: Image, finalImage: Image, data: TaskData) returns (frames: seq<Image>)
    ensures |frames| == HoldFrames + AnimationFrames + 2 * HoldFrames == 40
    ensures forall k :: 0 <= k < HoldFrames ==> frames[k] == firstImage
    ensures forall k :: 0 <= k < AnimationFrames ==> frames[HoldFrames + k] == TransitionFrame(cfg, data.shapes, k)
    ensures forall k :: HoldFrames + AnimationFrames <= k < |frames| ==> frames[k] == finalImage
  {
    frames := [];
    var holdFrames := 5;
    var animationFrames := 25;
    var shapes := SortByLayer(data.shapes, true);
    var numShapes := |shapes|;
    var margin := 40;
    var availableWidth := cfg.width - 2 * margin;
    var spacing := availableWidth / (numShapes + 1);

    var finalPositions: seq<(int, int)> := [];
    for i := 0 to numShapes
      invariant |finalPositions| == i
      invariant forall j :: 0 <= j < i ==> finalPositions[j] == (SlotX(cfg.width, numShapes, j), SlotY(cfg.height))
    {
      var finalX := margin + spacing * (i + 1);
      var finalY := cfg.height / 2;
      finalPositions := finalPositions + [(finalX, finalY)];
    }

    for h := 0 to holdFrames
      invariant |frames| == h
      invariant forall k :: 0 <= k < h ==> frames[k] == firstImage
    {
      frames := frames + [firstImage];
    }

    for frameIdx := 0 to animationFrames
      invariant |frames| == holdFrames + frameIdx
      invariant forall k :: 0 <= k < holdFrames ==> frames[k] == firstImage
      invariant forall k :: 0 <= k < frameIdx ==> frames[holdFrames + k] == TransitionFrame(cfg, data.shapes, k)
    {
      var progress := frameIdx as real / (animationFrames - 1) as real;
      progress := 1.0 - (1.0 - progress) * (1.0 - progress);
      assert progress == EaseOut(Progress(frameIdx));
      var frame := RenderTransitionFrame(cfg, shapes, finalPositions, progress);
      frames := frames + [frame];
    }

    for h := 0 to holdFrames * 2
      invariant |frames| == holdFrames + animationFrames + h
      invariant forall k :: 0 <= k < holdFrames ==> frames[k] == firstImage
      invariant forall k :: 0 <= k < animationFrames ==> frames[holdFrames + k] == TransitionFrame(cfg, data.shapes, k)
      invariant forall k :: holdFrames + animationFrames <= k < |frames| ==> frames[k] == finalImage
    {
      frames := frames + [finalImage];
    }
  }

  /** The eased progress is 0 at the first transition frame and 1 at the last. */
  lemma EaseEndpoints()
    ensures EaseOut(Progress(0)) == 0.0
    ensures EaseOut(Progress(AnimationFrames - 1)) == 1.0
  {
  }

  /** Over the transition frames the eased progress stays in `[0, 1]` and strictly increases. */
  lemma EaseIncreasing(j: int, k: int)
    requires 0 <= j < k <= AnimationFrames - 1
    ensures 0.0 <= EaseOut(Progress(j)) < EaseOut(Progress(k)) <= 1.0
  {
    var p, q := Progress(j), Progress(k);
    assert 0.0 <= p < q <= 1.0;
    var gap, room := q - p, 2.0 - p - q;
    assert EaseOut(q) - EaseOut(p) == gap * room;
    PositiveProduct(gap, room);
    assert EaseOut(p) == p * (2.0 - p);
    NonNegativeProduct(p, 2.0 - p);
    NonNegativeProduct(1.0 - q, 1.0 - q);
  }

  lemma PositiveProduct(a: real, b: real)
    requires a > 0.0 && b > 0.0
    ensures a * b > 0.0
  {
  }

  lemma NonNegativeProduct(a: real, b: real)
    requires a >= 0.0 && b >= 0.0
    ensures a * b >= 0.0
  {
  }

  /** The curve decelerates: each step of eased progress is smaller than the one before it. */
  lemma EaseDecelerates(k: int)
    requires 0 <= k && k + 2 <= AnimationFrames - 1
    ensures EaseOut(Progress(k + 2)) - EaseOut(Progress(k + 1)) < EaseOut(Progress(k + 1)) - EaseOut(Progress(k))
  {
    var d := 1.0 / (AnimationFrames - 1) as real;
    var p := Progress(k);
    assert Progress(k + 1) == p + d && Progress(k + 2) == p + 2.0 * d;
    assert EaseOut(p + d) - EaseOut(p) == d * (2.0 - 2.0 * p - d);
    assert EaseOut(p + 2.0 * d) - EaseOut(p + d) == d * (2.0 - 2.0 * p - 3.0 * d);
  }

  /** For `t` in `[0, 1]` the interpolated coordinate lies between its start and its end. */
  lemma LerpBetween(start: int, end: int, t: real)
    requires 0.0 <= t <= 1.0
    ensures start <= end ==> start as real <= Lerp(start, end, t) <= end as real
    ensures end <= start ==> end as real <= Lerp(start, end, t) <= start as real
  {
    if start <= end {
      assert (end - start) as real * t <= (end - start) as real;
    } else {
      assert (start - end) as real * t <= (start - end) as real;
    }
  }

  /** Truncating a whole number gives it back. */
  lemma TruncWhole(n: int)
    ensures Trunc(n as real) == n
  {
  }

  /** At progress 0 a shape stays where it is; at progress 1 it is exactly at its target. */
  lemma InterpolatedEnds(s: Shape, endX: int, endY: int)
    ensures Interpolated(s, endX, endY, 0.0) == s
    ensures Interpolated(s, endX, endY, 1.0) == MoveTo(s, endX, endY)
  {
    assert Lerp(s.x, endX, 0.0) == s.x as real && Lerp(s.y, endY, 0.0) == s.y as real;
    assert Lerp(s.x, endX, 1.0) == endX as real && Lerp(s.y, endY, 1.0) == endY as real;
    TruncWhole(s.x);
    TruncWhole(s.y);
    TruncWhole(endX);
    TruncWhole(endY);
  }

  /** In the first transition frame every shape is at its scene position. */
  lemma FirstTransitionFrameAtScenePositions(cfg: Config, shapes: seq<Shape>)
    ensures TransitionFrame(cfg, shapes, 0).commands == Pastes(SortByLayer(shapes, true))
  {
    var ordered := SortByLayer(shapes, true);
    EaseEndpoints();
    var moved := TransitionShapes(cfg, ordered, 0.0);
    forall i | 0 <= i < |ordered| ensures moved[i] == ordered[i] {
      InterpolatedEnds(ordered[i], SlotX(cfg.width, |ordered|, i), SlotY(cfg.height));
    }
    assert moved == ordered;
  }

  /** In the last transition frame every shape is at its layout slot. */
  lemma LastTransitionFrameAtSlots(cfg: Config, shapes: seq<Shape>)
    ensures var ordered := SortByLayer(shapes, true);
            TransitionFrame(cfg, shapes, AnimationFrames - 1).commands
            == Pastes(seq(|ordered|, i requires 0 <= i < |ordered| =>
                 MoveTo(ordered[i], SlotX(cfg.width, |ordered|, i), SlotY(cfg.height))))
  {
    var ordered := SortByLayer(shapes, true);
    EaseEndpoints();
    var moved := TransitionShapes(cfg, ordered, 1.0);
    var slots := seq(|ordered|, i requires 0 <= i < |ordered| =>
                   MoveTo(ordered[i], SlotX(cfg.width, |ordered|, i), SlotY(cfg.height)));
    forall i | 0 <= i < |ordered| ensures moved[i] == slots[i] {
      InterpolatedEnds(ordered[i], SlotX(cfg.width, |ordered|, i), SlotY(cfg.height));
    }
    assert moved == slots;
  }

  /**
    Every transition frame paints front to back: it pastes each shape of
    the descending sort once, in that order, keeping its layer, colour, kind
    and size, so layers never increase along the frame.
   */
  lemma TransitionFrameFrontToBack(cfg: Config, shapes: seq<Shape>, k: int)
    ensures var cs := TransitionFrame(cfg, shapes, k).commands;
            var ordered := SortByLayer(shapes, true);
            && |cs| == |shapes|
            && multiset(ordered) == multiset(shapes)
            && (forall i :: 0 <= i < |cs| ==>
                  && cs[i].Paste?
                  && cs[i].shape.layer == ordered[i].layer
                  && cs[i].shape.color == ordered[i].color
                  && cs[i].shape.kind == ordered[i].kind
                  && cs[i].shape.size == ordered[i].size)
            && (forall i, j :: 0 <= i < j < |cs| ==> cs[i].shape.layer >= cs[j].shape.layer)
  {
    var ordered := SortByLayer(shapes, true);
    SortByLayerSorts(shapes, true);
    var cs := TransitionFrame(cfg, shapes, k).commands;
    forall i, j | 0 <= i < j < |cs| ensures cs[i].shape.layer >= cs[j].shape.layer {
      assert Key(ordered[i], true) <= Key(ordered[j], true);
    }
  }
}
