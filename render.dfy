/**
  The two static renders: the overlapping composite (the puzzle), drawn
  back to front at the scene positions, and the separated composite (the
  answer), drawn front to back at the layout slots with a rank label under
  each shape.
 */
module Render {
  import opened Shapes
  import opened Geometry
  import opened Drawing
  import opened Ordering
  import opened Layout
  import opened SceneGenerator

  /** What `_render_overlapping` produces: every shape pasted at its own position, back to front. */
  function OverlappingImage(cfg: Config, shapes: seq<Shape>): Image
  {
    Image(cfg.width, cfg.height, cfg.bgColor, Pastes(SortByLayer(shapes, false)))
  }

  /** The `i`-th shape of the front-to-back order moved to the `i`-th layout slot. */
  function SlotShape(cfg: Config, ordered: seq<Shape>, i: nat): Shape
    requires i < |ordered|
  {
    MoveTo(ordered[i], SlotX(cfg.width, |ordered|, i), SlotY(cfg.height))
  }

  /** The rank number `i + 1` written under the `i`-th slot shape. */
  function RankLabel(cfg: Config, ordered: seq<Shape>, i: nat): Command
    requires i < |ordered|
  {
    Label(SlotX(cfg.width, |ordered|, i) - 5, SlotY(cfg.height) + ordered[i].size / 2 + 10, i + 1, cfg.labelColor)
  }

  /** The drawing steps for the first `k` shapes of the separated render: a paste, then its label. */
  function SeparatedCommands(cfg: Config, ordered: seq<Shape>, k: nat): (cs: seq<Command>)
    requires k <= |ordered|
    ensures |cs| == 2 * k
  {
    if k == 0 then []
    else SeparatedCommands(cfg, ordered, k - 1) + [PasteCommand(SlotShape(cfg, ordered, k - 1), 0, 0), RankLabel(cfg, ordered, k - 1)]
  }

  /** What `_render_separated` produces (the header text and arrow are not modelled). */
  function SeparatedImage(cfg: Config, shapes: seq<Shape>): Image
  {
    var ordered := SortByLayer(shapes, true);
    Image(cfg.width, cfg.height, cfg.bgColor, SeparatedCommands(cfg, ordered, |ordered|))
  }

  /** Step `2 i` of the separated render pastes slot shape `i`; step `2 i + 1` labels it. */
  lemma {:induction false} SeparatedCommandsAt(cfg: Config, ordered: seq<Shape>, k: nat, i: nat)
    requires i < k <= |ordered|
    ensures SeparatedCommands(cfg, ordered, k)[2 * i] == PasteCommand(SlotShape(cfg, ordered, i), 0, 0)
    ensures SeparatedCommands(cfg, ordered, k)[2 * i + 1] == RankLabel(cfg, ordered, i)
  {
    if i < k - 1 {
      SeparatedCommandsAt(cfg, ordered, k - 1, i);
    }
  }

  /** `_render_overlapping`: draws the shapes sorted by ascending layer on a fresh canvas. */
  method RenderOverlapping(cfg: Config, data: TaskData) returns (img: Image)
    ensures img == OverlappingImage(cfg, data.shapes)
  {
    var canvas := new Canvas(cfg.width, cfg.height, cfg.bgColor);
    var shapes := SortByLayer(data.shapes, false);
    for i := 0 to |shapes|
      invariant |canvas.commands| == i
      invariant forall k :: 0 <= k < i ==> canvas.commands[k] == PasteCommand(shapes[k], 0, 0)
    {
      canvas.DrawShape(shapes[i], 0, 0);
    }
    img := canvas.Flatten();
    assert img.commands == Pastes(shapes);
  }

  /**
    `_render_separated`: sorts the shapes by descending layer, works out the
    spacing inline, and draws each shape at its slot followed by its rank
    label.
   */
  method RenderSeparated(cfg: Config, data: TaskData) returns (img: Image)
    ensures img == SeparatedImage(cfg, data.shapes)
  {
    var canvas := new Canvas(cfg.width, cfg.height, cfg.bgColor);
    var shapes := SortByLayer(data.shapes, true);
    var numShapes := |shapes|;
    var margin := 40;
    var availableWidth := cfg.width - 2 * margin;
    var spacing := availableWidth / (numShapes + 1);
    assert spacing == Spacing(cfg.width, numShapes);
    for i := 0 to numShapes
      invariant canvas.commands == SeparatedCommands(cfg, shapes, i)
    {
      var newX := margin + spacing * (i + 1);
      var newY := cfg.height / 2;
      assert newX == SlotX(cfg.width, numShapes, i) && newY == SlotY(cfg.height);
      var tempShape := MoveTo(shapes[i], newX, newY);
      assert tempShape == SlotShape(cfg, shapes, i);
      canvas.DrawShape(tempShape, 0, 0);
      canvas.DrawLabel(newX - 5, newY + shapes[i].size / 2 + 10, i + 1, cfg.labelColor);
      assert canvas.commands == SeparatedCommands(cfg, shapes, i) + [PasteCommand(SlotShape(cfg, shapes, i), 0, 0), RankLabel(cfg, shapes, i)];
    }
    img := canvas.Flatten();
  }

  /**
    The overlapping render pastes every shape exactly once, unmoved, in
    non-decreasing layer order (back to front).
   */
  lemma OverlappingBackToFront(cfg: Config, shapes: seq<Shape>)
    ensures var cs := OverlappingImage(cfg, shapes).commands;
            && |cs| == |shapes|
            && (forall i :: 0 <= i < |cs| ==> cs[i].Paste? && cs[i].outline == OutlineOf(cs[i].shape, 0, 0))
            && (forall i, j :: 0 <= i < j < |cs| ==> cs[i].shape.layer <= cs[j].shape.layer)
            && multiset(seq(|cs|, i requires 0 <= i < |cs| => cs[i].shape)) == multiset(shapes)
  {
    var ordered := SortByLayer(shapes, false);
    SortByLayerSorts(shapes, false);
    var cs := OverlappingImage(cfg, shapes).commands;
    assert seq(|cs|, i requires 0 <= i < |cs| => cs[i].shape) == ordered;
  }

  /**
    The separated render pastes the shapes in non-increasing layer order
    (front to back), each a copy of a shape of the scene (the sort permutes
    them) moved to slot `i` at mid height and followed by the label `i + 1`.
   */
  lemma SeparatedFrontToBack(cfg: Config, shapes: seq<Shape>)
    ensures var cs := SeparatedImage(cfg, shapes).commands;
            var ordered := SortByLayer(shapes, true);
            var n := |shapes|;
            && |cs| == 2 * n
            && multiset(ordered) == multiset(shapes)
            && (forall i :: 0 <= i < n ==>
                  && cs[2 * i].Paste?
                  && cs[2 * i].shape == MoveTo(ordered[i], SlotX(cfg.width, n, i), cfg.height / 2)
                  && cs[2 * i].outline == OutlineOf(cs[2 * i].shape, 0, 0)
                  && cs[2 * i + 1].Label? && cs[2 * i + 1].rank == i + 1)
            && (forall i, j :: 0 <= i < j < n ==> cs[2 * i].shape.layer >= cs[2 * j].shape.layer)
  {
    var ordered := SortByLayer(shapes, true);
    assert SeparatedImage(cfg, shapes).commands == SeparatedCommands(cfg, ordered, |ordered|);
    SortByLayerSorts(shapes, true);
    SlotsInOrder(cfg, ordered);
  }

  /** `SeparatedFrontToBack` for any front-to-back order. */
  lemma SlotsInOrder(cfg: Config, ordered: seq<Shape>)
    requires SortedBy(ordered, true)
    ensures var cs := SeparatedCommands(cfg, ordered, |ordered|);
            var n := |ordered|;
            && (forall i :: 0 <= i < n ==>
                  && cs[2 * i].Paste?
                  && cs[2 * i].shape == MoveTo(ordered[i], SlotX(cfg.width, n, i), cfg.height / 2)
                  && cs[2 * i].outline == OutlineOf(cs[2 * i].shape, 0, 0)
                  && cs[2 * i + 1].Label? && cs[2 * i + 1].rank == i + 1)
            && (forall i, j :: 0 <= i < j < n ==> cs[2 * i].shape.layer >= cs[2 * j].shape.layer)
  {
    var n := |ordered|;
    var cs := SeparatedCommands(cfg, ordered, n);
    forall i | 0 <= i < n
      ensures cs[2 * i] == PasteCommand(SlotShape(cfg, ordered, i), 0, 0)
      ensures cs[2 * i + 1] == RankLabel(cfg, ordered, i)
    {
      SeparatedCommandsAt(cfg, ordered, n, i);
    }
    forall i, j | 0 <= i < j < n ensures cs[2 * i].shape.layer >= cs[2 * j].shape.layer {
      assert Key(ordered[i], true) <= Key(ordered[j], true);
    }
  }
}
