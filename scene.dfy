/**
  The scene generator (`_generate_task_data`). The random choices it makes
  are inputs here: the shuffled copy of the palette, and per shape its
  offsets from the canvas centre, its size and its kind; the number of
  shapes is the number of per-shape draws.
 */
module SceneGenerator {
  import opened Shapes

  /** Shapes are placed at most this far from the canvas centre on each axis. */
  const Spread := 60

  /** The random values drawn for one shape. */
  datatype ShapeDraw = ShapeDraw(dx: int, dy: int, size: int, kind: Kind)

  /** What the generator returns: the shapes and their count. */
  datatype TaskData = TaskData(shapes: seq<Shape>, numShapes: int)

  /** The draws the random source can produce under configuration `cfg`. */
  predicate DrawsInRange(cfg: Config, draws: seq<ShapeDraw>)
  {
    && cfg.minShapes <= |draws| <= cfg.maxShapes
    && forall i :: 0 <= i < |draws| ==>
         && -Spread <= draws[i].dx <= Spread
         && -Spread <= draws[i].dy <= Spread
         && cfg.minShapeSize <= draws[i].size <= cfg.maxShapeSize
  }

  /** The `i`-th shape: centre plus offset, colour by cycling the shuffled palette, layer `i`. */
  function SceneShape(cfg: Config, shuffled: seq<Rgba>, d: ShapeDraw, i: nat): Shape
    requires |shuffled| > 0
  {
    Shape(cfg.width / 2 + d.dx, cfg.height / 2 + d.dy, d.size, d.kind, shuffled[i % |shuffled|], i)
  }

  /** The scene built from a given set of draws. */
  function Scene(cfg: Config, shuffled: seq<Rgba>, draws: seq<ShapeDraw>): (s: seq<Shape>)
    requires |shuffled| > 0 || |draws| == 0
    ensures |s| == |draws|
  {
    seq(|draws|, i requires 0 <= i < |draws| => SceneShape(cfg, shuffled, draws[i], i))
  }

  /**
    `_generate_task_data`, given the shuffled palette and the draws. With an
    empty palette the source fails on `i % len(available_colors)` as soon
    as there is a shape to colour; that failure is `None`.
   */
  method GenerateTaskData(cfg: Config, shuffled: seq<Rgba>, draws: seq<ShapeDraw>) returns (r: Option<TaskData>)
    requires multiset(shuffled) == multiset(cfg.shapeColors)
    ensures r.None? <==> |draws| > 0 && |cfg.shapeColors| == 0
    ensures r.Some? ==> (|shuffled| > 0 || |draws| == 0) && r.value.numShapes == |draws| && r.value.shapes == Scene(cfg, shuffled, draws)
  {
    var numShapes := |draws|;
    var centerX := cfg.width / 2;
    var centerY := cfg.height / 2;
    var shapes: seq<Shape> := [];
    var available := shuffled;
    assert |available| == |cfg.shapeColors| by {
      assert |multiset(available)| == |multiset(cfg.shapeColors)|;
    }
    for i := 0 to numShapes
      invariant |shapes| == i
      invariant i > 0 ==> |available| > 0
      invariant forall k :: 0 <= k < i ==> shapes[k] == SceneShape(cfg, available, draws[k], k)
    {
      var x := centerX + draws[i].dx;
      var y := centerY + draws[i].dy;
      var size := draws[i].size;
      var kind := draws[i].kind;
      if |available| == 0 {
        return None;
      }
      var color := available[i % |available|];
      shapes := shapes + [Shape(x, y, size, kind, color, i)];
    }
    return Some(TaskData(shapes, numShapes));
  }

  /** The set of layers used by `shapes`. */
  function Layers(shapes: seq<Shape>): set<int>
  {
    set i | 0 <= i < |shapes| :: shapes[i].layer
  }

  /**
    The layers of a scene are its indices: so they are exactly `0 .. n-1`,
    each held by one shape, increasing from back to front.
   */
  lemma SceneLayers(cfg: Config, shuffled: seq<Rgba>, draws: seq<ShapeDraw>)
    requires |shuffled| > 0 || |draws| == 0
    ensures var s := Scene(cfg, shuffled, draws);
            && LayeredByIndex(s)
            && (forall v :: v in Layers(s) <==> 0 <= v < |draws|)
            && (forall i, j :: 0 <= i < |s| && 0 <= j < |s| && s[i].layer == s[j].layer ==> i == j)
  {
    var s := Scene(cfg, shuffled, draws);
    forall v | 0 <= v < |draws| ensures v in Layers(s) {
      assert s[v].layer == v;
    }
  }

  /** A scene's shapes are in strictly increasing layer order, as the renderers' sort needs. */
  lemma SceneIncreasing(cfg: Config, shuffled: seq<Rgba>, draws: seq<ShapeDraw>)
    requires |shuffled| > 0 || |draws| == 0
    ensures IncreasingLayers(Scene(cfg, shuffled, draws))
  {
  }

  /**
    Each shape takes the palette entry at its index modulo the palette's
    length in the shuffled copy, so every colour used is a palette colour.
   */
  lemma SceneColors(cfg: Config, shuffled: seq<Rgba>, draws: seq<ShapeDraw>)
    requires multiset(shuffled) == multiset(cfg.shapeColors)
    requires |shuffled| > 0 || |draws| == 0
    ensures var s := Scene(cfg, shuffled, draws);
            forall i :: 0 <= i < |s| ==> s[i].color == shuffled[i % |shuffled|] && s[i].color in cfg.shapeColors
  {
    var s := Scene(cfg, shuffled, draws);
    forall i | 0 <= i < |s| ensures s[i].color in cfg.shapeColors {
      assert shuffled[i % |shuffled|] in multiset(shuffled);
    }
  }

  /**
    With draws the random source can produce, the scene has between the
    configured minimum and maximum number of shapes, each within `Spread`
    of the canvas centre on both axes and of a configured size.
   */
  lemma SceneInRange(cfg: Config, shuffled: seq<Rgba>, draws: seq<ShapeDraw>)
    requires |shuffled| > 0 || |draws| == 0
    requires DrawsInRange(cfg, draws)
    ensures var s := Scene(cfg, shuffled, draws);
            && cfg.minShapes <= |s| <= cfg.maxShapes
            && forall i :: 0 <= i < |s| ==>
                 && cfg.width / 2 - Spread <= s[i].x <= cfg.width / 2 + Spread
                 && cfg.height / 2 - Spread <= s[i].y <= cfg.height / 2 + Spread
                 && cfg.minShapeSize <= s[i].size <= cfg.maxShapeSize
  {
  }

  lemma MulMonotone(a: int, b: int, p: int)
    requires a <= b && p >= 0
    ensures a * p <= b * p
  {
    assert b * p - a * p == (b - a) * p;
  }

  /** Adding the modulus does not change the remainder. */
  lemma ModShift(k: nat, p: nat)
    requires p > 0
    ensures (k + p) % p == k % p
  {
    var q, r := k / p, k % p;
    var q2, r2 := (k + p) / p, (k + p) % p;
    assert (q + 1) * p + r == q2 * p + r2;
    if q2 < q + 1 {
      MulMonotone(q2, q, p);
      assert false;
    } else if q2 > q + 1 {
      assert (q + 2) * p == (q + 1) * p + p;
      MulMonotone(q + 2, q2, p);
      assert false;
    }
  }

  /** With more shapes than palette colours, colours repeat: shape `k` and shape `k + len(palette)` match. */
  lemma ColorsRepeat(cfg: Config, shuffled: seq<Rgba>, draws: seq<ShapeDraw>, k: nat)
    requires |shuffled| > 0
    requires k + |shuffled| < |draws|
    ensures Scene(cfg, shuffled, draws)[k].color == Scene(cfg, shuffled, draws)[k + |shuffled|].color
  {
    ModShift(k, |shuffled|);
  }

  predicate Distinct<T(==)>(s: seq<T>)
  {
    forall i, j :: 0 <= i < j < |s| ==> s[i] != s[j]
  }

  /** In a sequence without repeats every value occurs at most once. */
  lemma {:induction false} DistinctCountsAtMostOne<T>(s: seq<T>, v: T)
    requires Distinct(s)
    ensures multiset(s)[v] <= 1
  {
    if s != [] {
      assert s == [s[0]] + s[1..];
      DistinctCountsAtMostOne(s[1..], v);
      if s[0] == v {
        assert v !in s[1..];
      }
    }
  }

  /** A value found at two indices occurs at least twice. */
  lemma TwiceCountsTwo<T>(s: seq<T>, i: nat, j: nat)
    requires i < j < |s| && s[i] == s[j]
    ensures multiset(s)[s[i]] >= 2
  {
    assert s == s[..j] + s[j..];
    assert s[i] in s[..j];
    assert s[j] in s[j..];
  }

  /** A permutation of a sequence without repeats has no repeats either. */
  lemma PermutationDistinct<T>(shuffled: seq<T>, palette: seq<T>)
    requires multiset(shuffled) == multiset(palette)
    requires Distinct(palette)
    ensures Distinct(shuffled)
  {
    forall i, j | 0 <= i < j < |shuffled| ensures shuffled[i] != shuffled[j] {
      if shuffled[i] == shuffled[j] {
        TwiceCountsTwo(shuffled, i, j);
        DistinctCountsAtMostOne(palette, shuffled[i]);
      }
    }
  }

  /**
    With a palette without repeated colours and no more shapes than
    colours, every shape of the scene has its own colour.
   */
  lemma ColorsDistinct(cfg: Config, shuffled: seq<Rgba>, draws: seq<ShapeDraw>)
    requires multiset(shuffled) == multiset(cfg.shapeColors)
    requires Distinct(cfg.shapeColors)
    requires 0 < |draws| <= |cfg.shapeColors|
    ensures var s := Scene(cfg, shuffled, draws);
            forall i, j :: 0 <= i < j < |s| ==> s[i].color != s[j].color
  {
    assert |shuffled| == |cfg.shapeColors| by {
      assert |multiset(shuffled)| == |multiset(cfg.shapeColors)|;
    }
    PermutationDistinct(shuffled, cfg.shapeColors);
    var s := Scene(cfg, shuffled, draws);
    forall i | 0 <= i < |s| ensures s[i].color == shuffled[i] {
      ModSmall(i, |shuffled|);
    }
  }

  lemma ModSmall(k: nat, p: nat)
    requires k < p
    ensures k % p == k
  {
  }
}
