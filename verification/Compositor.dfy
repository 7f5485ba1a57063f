/** Composition of two video frames into one image, and the point maps between them. */
module Compositor {
  import opened Wrappers
  import opened Bytes
  import opened LittleEndian

  const UNSIGNED: nat := 0x1_0000_0000
  const PIXEL: nat := 4

  datatype Mode = Dual | Player1 | Player2
  datatype Layout = LeftRight | TopBottom
  datatype Config = Config(mode: Mode, layout: Layout, swap: bool)

  /** Pixels lie in memory row by row, `pitch` bytes apart. */
  datatype VideoFrame = VideoFrame(bytes: seq<byte>, width: nat, height: nat, pitch: nat)

  datatype Size = Size(width: nat, height: nat)

  /** A pixel of one machine, or of the composite. */
  datatype Source = Source(second: bool, x: nat, y: nat)
  datatype Point = Point(x: nat, y: nat)

  predicate ValidFrame(f: VideoFrame) {
    f.width > 0 && f.height > 0 && f.pitch >= f.width * PIXEL
  }

  /** The dimensions are C unsigned integers. */
  predicate Sized(f: VideoFrame) {
    f.width < UNSIGNED && f.height < UNSIGNED
  }

  /** The sum of two C unsigned integers. */
  function Wrap(sum: nat): nat {
    if sum >= UNSIGNED then sum - UNSIGNED else sum
  }

  /** The memory holds every row. */
  predicate Backed(f: VideoFrame) {
    && Sized(f)
    && forall y: nat :: y < f.height ==> RowStart(f, y) + f.width * PIXEL <= |f.bytes|
  }

  function RowStart(f: VideoFrame, y: nat): nat {
    y * f.pitch
  }

  function Pixel(f: VideoFrame, x: nat, y: nat): nat
    requires Backed(f) && x < f.width && y < f.height
  {
    var at := RowStart(f, y) + x * PIXEL;
    Get(f.bytes[at..at + PIXEL])
  }

  function FrameOf(a: VideoFrame, b: VideoFrame, second: bool): VideoFrame {
    if second then b else a
  }

  /** `dualboy_machine_for_screen` and its inverse, for the two screens. */
  function Exchange(second: bool, swap: bool): bool {
    second != swap
  }

  /** `dualboy_compositor_geometry`; the sums wrap as C unsigned integers do. */
  function Geometry(a: VideoFrame, b: VideoFrame, c: Config): Option<Size> {
    if !ValidFrame(a) || !ValidFrame(b) then None
    else if c.mode != Dual then
      var f := FrameOf(a, b, c.mode == Player2);
      Some(Size(f.width, f.height))
    else if a.width != b.width || a.height != b.height then None
    else if c.layout == TopBottom then Some(Size(a.width, Wrap(a.height + a.height)))
    else Some(Size(Wrap(a.width + a.width), a.height))
  }

  function MapPoint(a: VideoFrame, b: VideoFrame, c: Config, x: nat, y: nat): Option<Source> {
    var g := Geometry(a, b, c);
    if g.None? || x >= g.value.width || y >= g.value.height then None
    else
      var first := FrameOf(a, b, Exchange(false, c.swap));
      var lower := c.mode == Dual && c.layout == TopBottom && y >= first.height;
      var right := c.mode == Dual && c.layout == LeftRight && x >= first.width;
      var machine := if c.mode == Dual then Exchange(lower || right, c.swap) else c.mode == Player2;
      var mx := if right then x - first.width else x;
      var my := if lower then y - first.height else y;
      var f := FrameOf(a, b, machine);
      if mx >= f.width || my >= f.height then None else Some(Source(machine, mx, my))
  }

  function ProjectPoint(a: VideoFrame, b: VideoFrame, c: Config, s: Source): Option<Point> {
    var g := Geometry(a, b, c);
    var f := FrameOf(a, b, s.second);
    if g.None? || (c.mode == Player1 && s.second) || (c.mode == Player2 && !s.second) then None
    else if s.x >= f.width || s.y >= f.height then None
    else
      var first := FrameOf(a, b, Exchange(false, c.swap));
      var moved := c.mode == Dual && Exchange(s.second, c.swap);
      var x := if moved && c.layout == LeftRight then Wrap(s.x + first.width) else s.x;
      var y := if moved && c.layout == TopBottom then Wrap(s.y + first.height) else s.y;
      if x >= g.value.width || y >= g.value.height then None else Some(Point(x, y))
  }

  // ---- The maps are inverse to each other ----

  /** The composite's dimensions fit an unsigned integer. */
  predicate NoOverflow(a: VideoFrame, c: Config) {
    c.mode == Dual ==> if c.layout == TopBottom then 2 * a.height < UNSIGNED else 2 * a.width < UNSIGNED
  }

  predicate Displayed(a: VideoFrame, b: VideoFrame, c: Config, s: Source) {
    && (c.mode == Player1 ==> !s.second) && (c.mode == Player2 ==> s.second)
    && s.x < FrameOf(a, b, s.second).width && s.y < FrameOf(a, b, s.second).height
  }

  /** Every composite pixel names a displayed source pixel, which projects back to it. */
  lemma ProjectMap(a: VideoFrame, b: VideoFrame, c: Config, x: nat, y: nat)
    requires Sized(a) && Sized(b) && Geometry(a, b, c).Some? && NoOverflow(a, c)
    requires x < Geometry(a, b, c).value.width && y < Geometry(a, b, c).value.height
    ensures
      var s := MapPoint(a, b, c, x, y);
      s.Some? && Displayed(a, b, c, s.value) && ProjectPoint(a, b, c, s.value) == Some(Point(x, y))
  {
  }

  /** Every displayed source pixel projects to a composite pixel, which names it. */
  lemma MapProject(a: VideoFrame, b: VideoFrame, c: Config, s: Source)
    requires Sized(a) && Sized(b) && Geometry(a, b, c).Some? && NoOverflow(a, c) && Displayed(a, b, c, s)
    ensures
      var p := ProjectPoint(a, b, c, s);
      p.Some? && MapPoint(a, b, c, p.value.x, p.value.y) == Some(s)
  {
  }

  /** The composite shows everything exactly when its dimensions do not overflow. */
  lemma CompleteIffNoOverflow(a: VideoFrame, b: VideoFrame, c: Config)
    requires Sized(a) && Sized(b) && Geometry(a, b, c).Some?
    ensures NoOverflow(a, c) <==> forall s :: Displayed(a, b, c, s) ==> ProjectPoint(a, b, c, s).Some?
  {
    if NoOverflow(a, c) {
      forall s | Displayed(a, b, c, s)
        ensures ProjectPoint(a, b, c, s).Some?
      {
        MapProject(a, b, c, s);
      }
    } else {
      var corner := Source(Exchange(false, c.swap), a.width - 1, a.height - 1);
      assert Displayed(a, b, c, corner) && ProjectPoint(a, b, c, corner).None?;
    }
  }

  // ---- The composed image ----

  /** The pixel the point map names. */
  function Want(a: VideoFrame, b: VideoFrame, c: Config, x: nat, y: nat): nat
    requires Backed(a) && Backed(b) && MapPoint(a, b, c, x, y).Some?
  {
    var s := MapPoint(a, b, c, x, y).value;
    Pixel(FrameOf(a, b, s.second), s.x, s.y)
  }

  predicate Composable(a: VideoFrame, b: VideoFrame, c: Config) {
    Backed(a) && Backed(b) && Geometry(a, b, c).Some? && NoOverflow(a, c)
  }

  /** One row of the composite, as the point map has it. */
  function MappedRow(a: VideoFrame, b: VideoFrame, c: Config, y: nat): (r: seq<nat>)
    requires Composable(a, b, c) && y < Geometry(a, b, c).value.height
    ensures |r| == Geometry(a, b, c).value.width
  {
    seq(Geometry(a, b, c).value.width,
    x requires 0 <= x < Geometry(a, b, c).value.width => (ProjectMap(a, b, c, x, y); Want(a, b, c, x, y)))
  }

  /** The rows of the composite. */
  function MappedRows(a: VideoFrame, b: VideoFrame, c: Config): (r: seq<seq<nat>>)
    requires Composable(a, b, c)
    ensures |r| == Geometry(a, b, c).value.height
    ensures forall y :: 0 <= y < |r| ==> r[y] == MappedRow(a, b, c, y)
  {
    seq(Geometry(a, b, c).value.height, y requires 0 <= y < Geometry(a, b, c).value.height => MappedRow(a, b, c, y))
  }

  /** Rows laid out one behind the other. */
  function Flatten(rows: seq<seq<nat>>): seq<nat> {
    if rows == [] then [] else Flatten(rows[..|rows| - 1]) + rows[|rows| - 1]
  }

  /** A row of a source frame. */
  function SourceRow(f: VideoFrame, y: nat): (r: seq<nat>)
    requires Backed(f) && y < f.height
    ensures |r| == f.width
  {
    seq(f.width, x requires 0 <= x < f.width => Pixel(f, x, y))
  }

  lemma SingleRow(a: VideoFrame, b: VideoFrame, c: Config, y: nat)
    requires Composable(a, b, c) && c.mode != Dual && y < Geometry(a, b, c).value.height
    ensures MappedRow(a, b, c, y) == SourceRow(FrameOf(a, b, c.mode == Player2), y)
  {
  }

  lemma StackedRow(a: VideoFrame, b: VideoFrame, c: Config, y: nat)
    requires Composable(a, b, c) && c.mode == Dual && c.layout == TopBottom && y < Geometry(a, b, c).value.height
    ensures MappedRow(a, b, c, y)
         == if y < a.height then SourceRow(FrameOf(a, b, c.swap), y)
            else SourceRow(FrameOf(a, b, !c.swap), y - a.height)
  {
    forall x | 0 <= x < a.width
      ensures MappedRow(a, b, c, y)[x]
           == if y < a.height then Pixel(FrameOf(a, b, c.swap), x, y)
              else Pixel(FrameOf(a, b, !c.swap), x, y - a.height)
    {
      StackedPixel(a, b, c, x, y);
    }
  }

  lemma StackedPixel(a: VideoFrame, b: VideoFrame, c: Config, x: nat, y: nat)
    requires Composable(a, b, c) && c.mode == Dual && c.layout == TopBottom && x < a.width && y < 2 * a.height
    ensures MapPoint(a, b, c, x, y).Some?
    ensures Want(a, b, c, x, y)
         == if y < a.height then Pixel(FrameOf(a, b, c.swap), x, y) else Pixel(FrameOf(a, b, !c.swap), x, y - a.height)
  {
  }

  lemma SideBySideRow(a: VideoFrame, b: VideoFrame, c: Config, y: nat)
    requires Composable(a, b, c) && c.mode == Dual && c.layout == LeftRight && y < Geometry(a, b, c).value.height
    ensures MappedRow(a, b, c, y) == SourceRow(FrameOf(a, b, c.swap), y) + SourceRow(FrameOf(a, b, !c.swap), y)
  {
    forall x | 0 <= x < 2 * a.width
      ensures MappedRow(a, b, c, y)[x]
           == if x < a.width then Pixel(FrameOf(a, b, c.swap), x, y) else Pixel(FrameOf(a, b, !c.swap), x - a.width, y)
    {
      SideBySidePixel(a, b, c, x, y);
    }
  }

  lemma SideBySidePixel(a: VideoFrame, b: VideoFrame, c: Config, x: nat, y: nat)
    requires Composable(a, b, c) && c.mode == Dual && c.layout == LeftRight && y < a.height && x < 2 * a.width
    ensures MapPoint(a, b, c, x, y).Some?
    ensures Want(a, b, c, x, y)
         == if x < a.width then Pixel(FrameOf(a, b, c.swap), x, y) else Pixel(FrameOf(a, b, !c.swap), x - a.width, y)
  {
  }

  predicate Wide(rows: seq<seq<nat>>, width: nat) {
    forall y :: 0 <= y < |rows| ==> |rows[y]| == width
  }

  lemma TimesStep(n: nat, width: nat)
    requires n > 0
    ensures n * width == (n - 1) * width + width
  {
  }

  lemma {:induction false} FlattenLength(rows: seq<seq<nat>>, width: nat)
    requires Wide(rows, width)
    ensures |Flatten(rows)| == |rows| * width
  {
    if rows != [] {
      FlattenLength(rows[..|rows| - 1], width);
      TimesStep(|rows|, width);
    }
  }

  lemma {:induction false} FlattenAt(rows: seq<seq<nat>>, width: nat, x: nat, y: nat)
    requires Wide(rows, width) && y < |rows| && x < width
    ensures y * width + x < |Flatten(rows)| && Flatten(rows)[y * width + x] == rows[y][x]
  {
    var front := rows[..|rows| - 1];
    FlattenLength(front, width);
    if y == |rows| - 1 {
      assert Flatten(rows)[|front| * width + x] == rows[y][x];
    } else {
      FlattenAt(front, width, x, y);
      assert front[y] == rows[y];
    }
  }

  /** The pixel at column `x` of row `y` of an image that is `width` pixels wide. */
  predicate PixelIs(image: seq<nat>, width: nat, x: nat, y: nat, pixel: nat) {
    y * width + x < |image| && image[y * width + x] == pixel
  }

  /** The composite's pixels by their coordinates. */
  lemma PixelsMapped(a: VideoFrame, b: VideoFrame, c: Config, x: nat, y: nat)
    requires Composable(a, b, c) && y < Geometry(a, b, c).value.height && x < Geometry(a, b, c).value.width
    ensures MapPoint(a, b, c, x, y).Some?
    ensures PixelIs(Flatten(MappedRows(a, b, c)), Geometry(a, b, c).value.width, x, y, Want(a, b, c, x, y))
  {
    ProjectMap(a, b, c, x, y);
    FlattenAt(MappedRows(a, b, c), Geometry(a, b, c).value.width, x, y);
    assert MappedRow(a, b, c, y)[x] == Want(a, b, c, x, y);
  }

  lemma FlattenNext(rows: seq<seq<nat>>, n: nat)
    requires n < |rows|
    ensures Flatten(rows[..n + 1]) == Flatten(rows[..n]) + rows[n] && |Flatten(rows[..n + 1])| <= |Flatten(rows)|
  {
    assert rows[..n + 1][..n] == rows[..n];
    FlattenPrefix(rows, n + 1);
  }

  lemma {:induction false} FlattenPrefix(rows: seq<seq<nat>>, n: nat)
    requires n <= |rows|
    ensures |Flatten(rows[..n])| <= |Flatten(rows)|
    decreases |rows|
  {
    if n == |rows| {
      assert rows[..n] == rows;
    } else {
      var front := rows[..|rows| - 1];
      assert front[..n] == rows[..n];
      FlattenPrefix(front, n);
    }
  }

  /** One past the last output pixel that the copy loops reach, in wrapping row numbers. */
  function Reach(a: VideoFrame, b: VideoFrame, c: Config): nat
    requires Geometry(a, b, c).Some?
  {
    var g := Geometry(a, b, c).value;
    if c.mode != Dual then g.height * g.width
    else if c.layout == TopBottom then (if 2 * a.height > UNSIGNED then UNSIGNED else 2 * a.height) * g.width
    else (g.height - 1) * g.width + a.width + a.width
  }

  lemma LongerRows(n: nat, m: nat, width: nat)
    requires n < m && width > 0
    ensures n * width < m * width
  {
    assert (m - n) * width > 0;
  }

  /** The copy stays inside every buffer that passes the size test exactly when the composite's
      dimensions do not overflow. */
  lemma CopyFitsIffNoOverflow(a: VideoFrame, b: VideoFrame, c: Config)
    requires Sized(a) && Sized(b) && Geometry(a, b, c).Some?
    ensures
      var g := Geometry(a, b, c).value;
      && (Reach(a, b, c) <= g.height * g.width <==> NoOverflow(a, c))
      && (NoOverflow(a, c) ==> Reach(a, b, c) == g.height * g.width)
  {
    var g := Geometry(a, b, c).value;
    if c.mode == Dual && c.layout == LeftRight {
      TimesStep(g.height, g.width);
    } else if !NoOverflow(a, c) {
      LongerRows(g.height, UNSIGNED, g.width);
    }
  }

  /** `copy_row`: appends one source row to the finished part of the output. */
  method CopyRow(output: array<nat>, at: nat, f: VideoFrame, row: nat)
    requires Backed(f) && row < f.height && at + f.width <= output.Length
    modifies output
    ensures output[..at + f.width] == old(output[..at]) + SourceRow(f, row)
  {
    for x := 0 to f.width
      invariant output[..at + x] == old(output[..at]) + SourceRow(f, row)[..x]
    {
      output[at + x] := Pixel(f, x, row);
      assert SourceRow(f, row)[..x + 1] == SourceRow(f, row)[..x] + [SourceRow(f, row)[x]];
    }
    assert SourceRow(f, row)[..f.width] == SourceRow(f, row);
  }

  /** Rows `from` onwards are those of one frame. */
  ghost predicate Shows(rows: seq<seq<nat>>, from: nat, f: VideoFrame)
    requires Backed(f)
  {
    from + f.height <= |rows| && forall y :: 0 <= y < f.height ==> rows[from + y] == SourceRow(f, y)
  }

  /** The loop over the rows of one frame that fills whole rows of the output. */
  method PaintFrame(output: array<nat>, f: VideoFrame, start: nat, ghost from: nat, ghost rows: seq<seq<nat>>)
    returns (at: nat)
    requires Backed(f) && Shows(rows, from, f) && |Flatten(rows)| <= output.Length
    requires start <= output.Length && output[..start] == Flatten(rows[..from])
    modifies output
    ensures at <= output.Length && output[..at] == Flatten(rows[..from + f.height])
  {
    at := start;
    for row := 0 to f.height
      invariant at <= output.Length && output[..at] == Flatten(rows[..from + row])
    {
      assert rows[from + row] == SourceRow(f, row);
      FlattenNext(rows, from + row);
      CopyRow(output, at, f, row);
      at := at + f.width;
    }
  }

  /** The loop that fills each row of the output from both frames. */
  method PaintBeside(output: array<nat>, first: VideoFrame, second: VideoFrame, ghost rows: seq<seq<nat>>)
    returns (at: nat)
    requires Backed(first) && Backed(second) && first.height == second.height == |rows|
    requires |Flatten(rows)| <= output.Length
    requires forall y :: 0 <= y < |rows| ==> rows[y] == SourceRow(first, y) + SourceRow(second, y)
    modifies output
    ensures at <= output.Length && output[..at] == Flatten(rows)
  {
    at := 0;
    for row := 0 to first.height
      invariant at <= output.Length && output[..at] == Flatten(rows[..row])
    {
      FlattenNext(rows, row);
      PaintPair(output, at, first, second, row);
      at := at + first.width + second.width;
    }
    assert rows[..|rows|] == rows;
  }

  method PaintPair(output: array<nat>, at: nat, first: VideoFrame, second: VideoFrame, row: nat)
    requires Backed(first) && Backed(second) && row < first.height && row < second.height
    requires at + first.width + second.width <= output.Length
    modifies output
    ensures output[..at + first.width + second.width]
         == old(output[..at]) + (SourceRow(first, row) + SourceRow(second, row))
  {
    CopyRow(output, at, first, row);
    CopyRow(output, at + first.width, second, row);
  }

  /** What the composite's rows are made of, by mode and layout. */
  lemma RowsOfSources(a: VideoFrame, b: VideoFrame, c: Config)
    requires Composable(a, b, c)
    ensures
      var rows := MappedRows(a, b, c);
      var first, second := FrameOf(a, b, c.swap), FrameOf(a, b, !c.swap);
      if c.mode != Dual then Shows(rows, 0, FrameOf(a, b, c.mode == Player2))
      else if c.layout == TopBottom then Shows(rows, 0, first) && Shows(rows, a.height, second)
      else forall y :: 0 <= y < |rows| ==> rows[y] == SourceRow(first, y) + SourceRow(second, y)
  {
    var rows := MappedRows(a, b, c);
    forall y | 0 <= y < |rows|
      ensures c.mode != Dual ==> rows[y] == SourceRow(FrameOf(a, b, c.mode == Player2), y)
      ensures c.mode == Dual && c.layout == TopBottom ==>
                rows[y] == if y < a.height then SourceRow(FrameOf(a, b, c.swap), y)
                else SourceRow(FrameOf(a, b, !c.swap), y - a.height)
      ensures c.mode == Dual && c.layout == LeftRight ==>
                rows[y] == SourceRow(FrameOf(a, b, c.swap), y) + SourceRow(FrameOf(a, b, !c.swap), y)
    {
      if c.mode != Dual { SingleRow(a, b, c, y); }
      else if c.layout == TopBottom { StackedRow(a, b, c, y); }
      else { SideBySideRow(a, b, c, y); }
    }
  }

  /** `dualboy_compose_frame`: the output becomes the rows that the point map describes. */
  method ComposeFrame(output: array<nat>, a: VideoFrame, b: VideoFrame, c: Config) returns (r: Option<Size>)
    requires Backed(a) && Backed(b) && NoOverflow(a, c)
    modifies output
    ensures
      var g := Geometry(a, b, c);
      r == if g.Some? && g.value.height * g.value.width <= output.Length then g else None
    ensures r.Some? ==> output[..r.value.height * r.value.width] == Flatten(MappedRows(a, b, c))
    ensures r.None? ==> output[..] == old(output[..])
  {
    r := Geometry(a, b, c);
    if r.None? || output.Length < r.value.height * r.value.width {
      return None;
    }
    RowsOfSources(a, b, c);
    PaintAll(output, c, FrameOf(a, b, c.mode == Player2),
             FrameOf(a, b, Exchange(false, c.swap)), FrameOf(a, b, Exchange(true, c.swap)), MappedRows(a, b, c),
             r.value.width);
  }

  /** The three ways to fill the output. */
  method PaintAll(output: array<nat>, c: Config, single: VideoFrame, first: VideoFrame, second: VideoFrame,
                  ghost rows: seq<seq<nat>>, ghost width: nat)
    requires Backed(single) && Backed(first) && Backed(second) && Wide(rows, width) && |rows| * width <= output.Length
    requires c.mode != Dual ==> |rows| == single.height && width == single.width && Shows(rows, 0, single)
    requires c.mode == Dual && c.layout == TopBottom ==>
               && |rows| == first.height + second.height && width == first.width == second.width
               && Shows(rows, 0, first) && Shows(rows, first.height, second)
    requires c.mode == Dual && c.layout == LeftRight ==>
               && |rows| == first.height == second.height && width == first.width + second.width
               && forall y :: 0 <= y < |rows| ==> rows[y] == SourceRow(first, y) + SourceRow(second, y)
    modifies output
    ensures output[..|rows| * width] == Flatten(rows)
  {
    FlattenLength(rows, width);
    assert rows[..|rows|] == rows;
    var at;
    if c.mode != Dual {
      at := PaintFrame(output, single, 0, 0, rows);
    } else if c.layout == TopBottom {
      at := PaintFrame(output, first, 0, 0, rows);
      at := PaintFrame(output, second, at, first.height, rows);
    } else {
      at := PaintBeside(output, first, second, rows);
    }
    assert at == |Flatten(rows)|;
  }
}
