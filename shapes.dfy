/**
  The data model of the layer depth order generator: colours, shape kinds,
  shapes with their depth layer, and the task configuration.
 */
module Shapes {

  /** The conventional optional value, used for the generator's error path. */
  datatype Option<T> = None | Some(value: T)

  /** An opaque colour (background, label colour). */
  datatype Rgb = Rgb(r: int, g: int, b: int)

  /** A colour with an alpha channel; palette colours are semi-transparent. */
  datatype Rgba = Rgba(r: int, g: int, b: int, a: int)

  /** The three shape types the generator chooses from. */
  datatype Kind = Circle | Square | Triangle

  /**
    One shape of a scene. `layer` 0 is the back-most; a higher layer is
    closer to the viewer.
   */
  datatype Shape = Shape(x: int, y: int, size: int, kind: Kind, color: Rgba, layer: int)

  /** A copy of `s` moved to `(x, y)`; every other field is kept. */
  function MoveTo(s: Shape, x: int, y: int): Shape
  {
    s.(x := x, y := y)
  }

  /** Shapes whose layers are their indices, as every generated scene's are. */
  predicate LayeredByIndex(shapes: seq<Shape>)
  {
    forall i :: 0 <= i < |shapes| ==> shapes[i].layer == i
  }

  /** Every layer in `s` is strictly smaller than every layer after it. */
  predicate IncreasingLayers(s: seq<Shape>)
  {
    forall i, j :: 0 <= i < j < |s| ==> s[i].layer < s[j].layer
  }

  /** The task configuration the core reads. */
  datatype Config = Config(
    domain: string,
    width: int,
    height: int,
    generateVideos: bool,
    minShapes: int,
    maxShapes: int,
    minShapeSize: int,
    maxShapeSize: int,
    shapeColors: seq<Rgba>,
    bgColor: Rgb,
    labelColor: Rgb)

  /** The configuration defaults: a 512 by 512 canvas, 3 to 5 shapes of size 80 to 150, six colours. */
  function DefaultConfig(): Config
  {
    Config(
      "layer_depth", 512, 512, true, 3, 5, 80, 150,
      [ Rgba(255, 100, 100, 180), Rgba(100, 255, 100, 180), Rgba(100, 100, 255, 180),
        Rgba(255, 255, 100, 180), Rgba(255, 100, 255, 180), Rgba(100, 255, 255, 180) ],
      Rgb(255, 255, 255),
      Rgb(50, 50, 50))
  }
}
