/**
  Canvases and images, modelled as the ordered list of what was drawn on
  them rather than as pixels. A `Canvas` is the mutable RGBA image the
  renderers draw on; `Flatten` is the conversion to an opaque RGB image,
  which yields an immutable `Image` value.
 */
module Drawing {
  import opened Shapes
  import opened Geometry

  /**
    One drawing step. `Paste` composites one shape, given at the centre it
    was drawn at, with its outline; `Label` writes the rank number `rank`
    at `(x, y)` in colour `fill`.
   */
  datatype Command =
    | Paste(shape: Shape, outline: Outline)
    | Label(x: int, y: int, rank: int, fill: Rgb)

  /** A finished (flattened) image: its size, its opaque background and what was drawn, in order. */
  datatype Image = Image(width: int, height: int, background: Rgb, commands: seq<Command>)

  /** The step `_draw_shape(img, s, offsetX, offsetY)` adds to a canvas. */
  function PasteCommand(s: Shape, offsetX: int, offsetY: int): (c: Command)
    ensures c.Paste? && c.shape.x == s.x + offsetX && c.shape.y == s.y + offsetY
    ensures c.shape == MoveTo(s, c.shape.x, c.shape.y)
    ensures c.outline == OutlineOf(c.shape, 0, 0)
  {
    OffsetTranslates(s, offsetX, offsetY);
    Paste(MoveTo(s, s.x + offsetX, s.y + offsetY), OutlineOf(s, offsetX, offsetY))
  }

  /** The pastes, in order, of drawing every shape of `shapes` in turn at its own position. */
  function Pastes(shapes: seq<Shape>): (cs: seq<Command>)
    ensures |cs| == |shapes|
    ensures forall i :: 0 <= i < |shapes| ==>
              cs[i].Paste? && cs[i].shape == shapes[i] && cs[i].outline == OutlineOf(shapes[i], 0, 0)
  {
    seq(|shapes|, i requires 0 <= i < |shapes| => PasteCommand(shapes[i], 0, 0))
  }

  /** An RGBA canvas of a fixed size filled with an opaque background. */
  class Canvas {
    const width: int
    const height: int
    const background: Rgb
    var commands: seq<Command>

    /** `Image.new('RGBA', (width, height), (*background, 255))`: nothing drawn yet. */
    constructor (width: int, height: int, background: Rgb)
      ensures this.width == width && this.height == height && this.background == background
      ensures commands == []
    {
      this.width := width;
      this.height := height;
      this.background := background;
      commands := [];
    }

    /** `_draw_shape`: composites one semi-transparent shape over what is already drawn. */
    method DrawShape(s: Shape, offsetX: int, offsetY: int)
      modifies this
      ensures commands == old(commands) + [PasteCommand(s, offsetX, offsetY)]
    {
      var x := s.x + offsetX;
      var y := s.y + offsetY;
      commands := commands + [Paste(MoveTo(s, x, y), OutlineOf(s, offsetX, offsetY))];
    }

    /** `draw.text`: writes a rank number over what is already drawn. */
    method DrawLabel(x: int, y: int, rank: int, fill: Rgb)
      modifies this
      ensures commands == old(commands) + [Label(x, y, rank, fill)]
    {
      commands := commands + [Label(x, y, rank, fill)];
    }

    /** `convert('RGB')`: an opaque copy of the canvas as it is now. */
    function Flatten(): Image
      reads this
    {
      Image(width, height, background, commands)
    }
  }
}
