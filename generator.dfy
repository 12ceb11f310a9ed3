/**
  `generate_task_pair`: the scene, its two static renders and the optional
  transition animation, and the properties that tie the three together.
 */
module TaskGenerator {
  import opened Shapes
  import opened Drawing
  import opened Ordering
  import opened Layout
  import opened SceneGenerator
  import opened Render
  import opened Animation

  /**
    One generated example. `videoFrames` is the frame list handed to the
    video encoder, present when videos are enabled and an encoder exists.
   */
  datatype TaskPair = TaskPair(
    taskId: string,
    domain: string,
    firstImage: Image,
    finalImage: Image,
    videoFrames: Option<seq<Image>>)

  /**
    `generate_task_pair`, given the random choices (`shuffled`, `draws`) and
    whether a video encoder is available. Fails exactly when the scene
    generator does.
   */
  method GenerateTaskPair(cfg: Config, taskId: string, shuffled: seq<Rgba>, draws: seq<ShapeDraw>, encoderAvailable: bool)
    returns (r: Option<TaskPair>)
    requires multiset(shuffled) == multiset(cfg.shapeColors)
    ensures r.None? <==> |draws| > 0 && |cfg.shapeColors| == 0
    ensures r.Some? ==>
      var shapes := Scene(cfg, shuffled, draws);
      var pair := r.value;
      && pair.taskId == taskId && pair.domain == cfg.domain
      && pair.firstImage == OverlappingImage(cfg, shapes)
      && pair.finalImage == SeparatedImage(cfg, shapes)
      && (pair.videoFrames.Some? <==> cfg.generateVideos && encoderAvailable)
      && (pair.videoFrames.Some? ==>
            var frames := pair.videoFrames.value;
            && |frames| == HoldFrames + AnimationFrames + 2 * HoldFrames == 40
            && (forall k :: 0 <= k < HoldFrames ==> frames[k] == pair.firstImage)
            && (forall k :: 0 <= k < AnimationFrames ==> frames[HoldFrames + k] == TransitionFrame(cfg, shapes, k))
            && (forall k :: HoldFrames + AnimationFrames <= k < |frames| ==> frames[k] == pair.finalImage))
  {
    var taskData := GenerateTaskData(cfg, shuffled, draws);
    if taskData.None? {
      return None;
    }
    var data := taskData.value;
    var firstImage := RenderOverlapping(cfg, data);
    var finalImage := RenderSeparated(cfg, data);
    var videoFrames: Option<seq<Image>> := None;
    if cfg.generateVideos && encoderAvailable {
      var frames := GenerateVideo(cfg, firstImage, finalImage, data);
      videoFrames := Some(frames);
    }
    return Some(TaskPair(taskId, cfg.domain, firstImage, finalImage, videoFrames));
  }

  /** The overlapping render of shapes layered by index pastes shape `i`, of layer `i`, as the `i`-th step. */
  lemma OverlappingOfLayered(cfg: Config, shapes: seq<Shape>)
    requires LayeredByIndex(shapes)
    ensures var cs := OverlappingImage(cfg, shapes).commands;
            && |cs| == |shapes|
            && forall i :: 0 <= i < |cs| ==> cs[i] == PasteCommand(shapes[i], 0, 0) && cs[i].shape.layer == i
  {
    SortAscendingKeepsOrder(shapes);
  }

  /**
    The separated render of `n` shapes layered by index puts the shape of
    layer `n - 1 - i` at slot `i`, followed by the label `i + 1`.
   */
  lemma SeparatedOfLayered(cfg: Config, shapes: seq<Shape>)
    requires LayeredByIndex(shapes)
    ensures var cs := SeparatedImage(cfg, shapes).commands;
            var n := |shapes|;
            && |cs| == 2 * n
            && forall i :: 0 <= i < n ==>
                 && cs[2 * i] == PasteCommand(MoveTo(shapes[n - 1 - i], SlotX(cfg.width, n, i), SlotY(cfg.height)), 0, 0)
                 && cs[2 * i].shape.layer == n - 1 - i
                 && cs[2 * i].shape.x == SlotX(cfg.width, n, i)
                 && cs[2 * i + 1].Label? && cs[2 * i + 1].rank == i + 1
  {
    assert IncreasingLayers(shapes);
    DescendingMirrors(shapes);
    MirroredSlots(cfg, shapes, SortByLayer(shapes, true));
  }

  /** `SeparatedOfLayered` for any front-to-back order that mirrors the shapes. */
  lemma MirroredSlots(cfg: Config, shapes: seq<Shape>, ordered: seq<Shape>)
    requires LayeredByIndex(shapes)
    requires |ordered| == |shapes|
    requires forall i :: 0 <= i < |shapes| ==> ordered[i] == shapes[|shapes| - 1 - i]
    ensures var cs := SeparatedCommands(cfg, ordered, |ordered|);
            var n := |shapes|;
            forall i :: 0 <= i < n ==>
              && cs[2 * i] == PasteCommand(MoveTo(shapes[n - 1 - i], SlotX(cfg.width, n, i), SlotY(cfg.height)), 0, 0)
              && cs[2 * i].shape.layer == n - 1 - i
              && cs[2 * i].shape.x == SlotX(cfg.width, n, i)
              && cs[2 * i + 1].Label? && cs[2 * i + 1].rank == i + 1
  {
    var n := |shapes|;
    forall i | 0 <= i < n
      ensures SeparatedCommands(cfg, ordered, n)[2 * i] == PasteCommand(SlotShape(cfg, ordered, i), 0, 0)
      ensures SeparatedCommands(cfg, ordered, n)[2 * i + 1] == RankLabel(cfg, ordered, i)
    {
      SeparatedCommandsAt(cfg, ordered, n, i);
    }
  }

  /**
    With a positive spacing, in the separated render of shapes layered by
    index a shape is further left exactly when it is further front: the
    front-most shape (layer `n - 1`) is leftmost, the back-most (layer 0)
    rightmost.
   */
  lemma SeparatedLeftIsFront(cfg: Config, shapes: seq<Shape>, i: nat, j: nat)
    requires LayeredByIndex(shapes)
    requires Spacing(cfg.width, |shapes|) > 0
    requires i < |shapes| && j < |shapes|
    ensures var cs := SeparatedImage(cfg, shapes).commands;
            && cs[2 * i].Paste? && cs[2 * j].Paste?
            && (cs[2 * i].shape.layer > cs[2 * j].shape.layer <==> cs[2 * i].shape.x < cs[2 * j].shape.x)
  {
    var n := |shapes|;
    SeparatedOfLayered(cfg, shapes);
    if i < j {
      SlotsIncreasing(cfg.width, n, i, j);
    } else if j < i {
      SlotsIncreasing(cfg.width, n, j, i);
    }
  }

  /**
    The last transition frame pastes the same shapes at the same positions
    as the separated render, in the same order: its two copies of the
    layout arithmetic agree. Only the rank labels are missing.
   */
  lemma LastTransitionFrameMatchesSeparated(cfg: Config, shapes: seq<Shape>)
    ensures var last := TransitionFrame(cfg, shapes, AnimationFrames - 1);
            var separated := SeparatedImage(cfg, shapes);
            && last.width == separated.width && last.height == separated.height
            && last.background == separated.background
            && 2 * |last.commands| == |separated.commands|
            && forall i :: 0 <= i < |last.commands| ==> last.commands[i] == separated.commands[2 * i]
  {
    var ordered := SortByLayer(shapes, true);
    LastTransitionFrameAtSlots(cfg, shapes);
    forall i | 0 <= i < |ordered|
      ensures SeparatedImage(cfg, shapes).commands[2 * i] == PasteCommand(SlotShape(cfg, ordered, i), 0, 0)
    {
      SeparatedCommandsAt(cfg, ordered, |ordered|, i);
    }
  }

  /**
    For shapes in increasing layer order (a generated scene) the first
    transition frame pastes the same shapes at the same positions as the
    overlapping render, but in the opposite order: the hold frames paint
    back to front, the transition front to back.
   */
  lemma FirstTransitionFrameReversesOverlapping(cfg: Config, shapes: seq<Shape>)
    requires IncreasingLayers(shapes)
    ensures var first := TransitionFrame(cfg, shapes, 0).commands;
            var overlapping := OverlappingImage(cfg, shapes).commands;
            && |first| == |overlapping|
            && forall i :: 0 <= i < |first| ==> first[i] == overlapping[|first| - 1 - i]
  {
    var first := TransitionFrame(cfg, shapes, 0).commands;
    var overlapping := OverlappingImage(cfg, shapes).commands;
    var down, up := Pastes(SortByLayer(shapes, true)), Pastes(SortByLayer(shapes, false));
    FirstTransitionFrameAtScenePositions(cfg, shapes);
    ReversedOrderPastes(shapes);
    assert first == down;
    assert overlapping == up;
  }

  /** Pasting in descending order is pasting in ascending order backwards, for shapes in increasing layer order. */
  lemma ReversedOrderPastes(shapes: seq<Shape>)
    requires IncreasingLayers(shapes)
    ensures var down := Pastes(SortByLayer(shapes, true));
            var up := Pastes(SortByLayer(shapes, false));
            && |down| == |up|
            && forall i :: 0 <= i < |down| ==> down[i] == up[|down| - 1 - i]
  {
    SortAscendingKeepsOrder(shapes);
    DescendingMirrors(shapes);
    MirroredPastes(SortByLayer(shapes, true), shapes);
  }

  /** Pasting two mirrored sequences gives mirrored pastes. */
  lemma MirroredPastes(down: seq<Shape>, up: seq<Shape>)
    requires |down| == |up|
    requires forall i :: 0 <= i < |up| ==> down[i] == up[|up| - 1 - i]
    ensures forall i :: 0 <= i < |down| ==> Pastes(down)[i] == Pastes(up)[|down| - 1 - i]
  {
    var n := |up|;
    forall i | 0 <= i < n ensures Pastes(down)[i] == Pastes(up)[n - 1 - i] {
      assert down[i] == up[n - 1 - i];
    }
  }

  /**
    Under the default configuration (six distinct colours, at most five
    shapes, a 512 pixel canvas) every scene the random source can produce
    gives each shape its own colour, and the separated layout has a
    positive spacing, so its left-to-right order is the front-to-back order.
   */
  lemma DefaultScenesDistinctAndSpaced(shuffled: seq<Rgba>, draws: seq<ShapeDraw>)
    requires multiset(shuffled) == multiset(DefaultConfig().shapeColors)
    requires DrawsInRange(DefaultConfig(), draws)
    ensures var s := Scene(DefaultConfig(), shuffled, draws);
            && (forall i, j :: 0 <= i < j < |s| ==> s[i].color != s[j].color)
            && Spacing(DefaultConfig().width, |s|) > 0
  {
    var cfg := DefaultConfig();
    DefaultPaletteDistinct();
    ColorsDistinct(cfg, shuffled, draws);
    DefaultSpacingPositive(|draws|);
  }

  /** The six default colours are pairwise different. */
  lemma DefaultPaletteDistinct()
    ensures Distinct(DefaultConfig().shapeColors)
  {
  }

  /** On the default 512 pixel canvas every allowed shape count has a positive spacing. */
  lemma DefaultSpacingPositive(n: nat)
    requires DefaultConfig().minShapes <= n <= DefaultConfig().maxShapes
    ensures Spacing(DefaultConfig().width, n) > 0
  {
    assert Spacing(512, 3) == 108 && Spacing(512, 4) == 86 && Spacing(512, 5) == 72;
  }
}
