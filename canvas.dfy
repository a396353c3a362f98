/**
 The drawing surface of plot_utils.py: `SimpleChart` and its Tk canvas,
 modelled as the sequence of draw commands issued since the canvas was last
 cleared. Colours, fonts, angles and anchors are attributes of a command.
 */
module Canvas {

  datatype Color = Black | Blue | Red | Gray | LightBlue

  datatype Font = DefaultFont | Arial(size: nat)

  datatype Anchor = Center | West

  /** What a text item shows: a literal string, or a number (the label formats it). */
  datatype TextContent = Caption(text: string) | Number(value: real)

  datatype DrawCommand =
    | Line(x1: real, y1: real, x2: real, y2: real, fill: Color)
    | Oval(x1: real, y1: real, x2: real, y2: real, fill: Color)
    | Rectangle(x1: real, y1: real, x2: real, y2: real, fill: Color, outline: Color)
    | Text(x: real, y: real, content: TextContent, fill: Color, font: Font, angle: int, anchor: Anchor)

  datatype Kind = LineKind | OvalKind | RectangleKind | TextKind

  function KindOf(c: DrawCommand): Kind {
    match c
    case Line(_, _, _, _, _) => LineKind
    case Oval(_, _, _, _, _) => OvalKind
    case Rectangle(_, _, _, _, _, _) => RectangleKind
    case Text(_, _, _, _, _, _, _) => TextKind
  }

  /** Number of commands of one kind. */
  function Count(commands: seq<DrawCommand>, k: Kind): nat {
    if commands == [] then 0
    else (if KindOf(commands[0]) == k then 1 else 0) + Count(commands[1..], k)
  }

  lemma CountCons(c: DrawCommand, rest: seq<DrawCommand>, k: Kind)
    ensures Count([c] + rest, k) == (if KindOf(c) == k then 1 else 0) + Count(rest, k)
  {
    assert ([c] + rest)[1..] == rest;
  }

  lemma {:induction false} CountConcat(a: seq<DrawCommand>, b: seq<DrawCommand>, k: Kind)
    ensures Count(a + b, k) == Count(a, k) + Count(b, k)
  {
    if a != [] {
      assert (a + b)[1..] == a[1..] + b;
      CountConcat(a[1..], b, k);
    } else {
      assert a + b == b;
    }
  }

  /** Width of every chart's canvas, in pixels. */
  const CanvasWidth: int := 600

  /** Height taken from a chart's frame by its title. */
  const TitleHeight: int := 40

  /** A titled chart frame holding a canvas. */
  class SimpleChart {
    const title: string
    const canvasHeight: int
    const canvasWidth: int
    var commands: seq<DrawCommand>

    constructor (title: string, height: int)
      ensures this.title == title
      ensures canvasHeight == height - TitleHeight && canvasWidth == CanvasWidth
      ensures commands == []
    {
      this.title := title;
      canvasHeight := height - TitleHeight;
      canvasWidth := CanvasWidth;
      commands := [];
    }

    /** `clear`: deletes every item on the canvas. */
    method Clear()
      modifies this
      ensures commands == []
    {
      commands := [];
    }

    method CreateLine(x1: real, y1: real, x2: real, y2: real, fill: Color)
      modifies this
      ensures commands == old(commands) + [Line(x1, y1, x2, y2, fill)]
    {
      commands := commands + [Line(x1, y1, x2, y2, fill)];
    }

    method CreateOval(x1: real, y1: real, x2: real, y2: real, fill: Color)
      modifies this
      ensures commands == old(commands) + [Oval(x1, y1, x2, y2, fill)]
    {
      commands := commands + [Oval(x1, y1, x2, y2, fill)];
    }

    method CreateRectangle(x1: real, y1: real, x2: real, y2: real, fill: Color, outline: Color)
      modifies this
      ensures commands == old(commands) + [Rectangle(x1, y1, x2, y2, fill, outline)]
    {
      commands := commands + [Rectangle(x1, y1, x2, y2, fill, outline)];
    }

    method CreateText(x: real, y: real, content: TextContent, fill: Color, font: Font, angle: int, anchor: Anchor)
      modifies this
      ensures commands == old(commands) + [Text(x, y, content, fill, font, angle, anchor)]
    {
      commands := commands + [Text(x, y, content, fill, font, angle, anchor)];
    }
  }
}
