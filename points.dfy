/** The point-drawing system of src/points.rs: a dotted-line emitter over 3-component
    vertices, and the draw closure `create_draw_system` returns. */
module Points {
  import opened Base
  import opened Vecs
  import opened Geometry
  import opened Drawing

  /** The `i`-th vertex `line` emits: `(start.x + i * normx * radius, start.y + i * normy * radius, 0)`. */
  function LinePoint(start: Vec2, normx: real, normy: real, radius: real, i: nat): Vec3
  {
    Vec3(start.x + i as real * normx * radius, start.y + i as real * normy * radius, 0.0)
  }

  /** The first `n` vertices of a `line`, in order. */
  function LinePoints(start: Vec2, normx: real, normy: real, radius: real, n: nat): (pts: seq<Vec3>)
    ensures |pts| == n
    ensures forall i | 0 <= i < n :: pts[i] == LinePoint(start, normx, normy, radius, i)
  {
    seq(n, i requires 0 <= i < n => LinePoint(start, normx, normy, radius, i))
  }

  lemma LinePointsSnoc(start: Vec2, normx: real, normy: real, radius: real, n: nat)
    ensures LinePoints(start, normx, normy, radius, n + 1)
         == LinePoints(start, normx, normy, radius, n) + [LinePoint(start, normx, normy, radius, n)]
  {
    assert LinePoints(start, normx, normy, radius, n + 1)
        == LinePoints(start, normx, normy, radius, n) + [LinePoint(start, normx, normy, radius, n)];
  }

  /** `line`: pushes `floor(dis / radius)` vertices after the existing ones. The segment
      length `dis` and the unit direction `(normx, normy)` are given. */
  method Line(buffer: Vec<Vec3>, radius: real, start: Vec2, dis: real, normx: real, normy: real)
    requires dis >= 0.0
    modifies buffer
    ensures buffer.elems == old(buffer.elems) + LinePoints(start, normx, normy, radius, NumPoints(dis, radius))
  {
    var num := NumPoints(dis, radius);
    for i := 0 to num
      invariant buffer.elems == old(buffer.elems) + LinePoints(start, normx, normy, radius, i)
    {
      var x := start.x + i as real * normx * radius;
      var y := start.y + i as real * normy * radius;
      assert Vec3(x, y, 0.0) == LinePoint(start, normx, normy, radius, i);
      LinePointsSnoc(start, normx, normy, radius, i);
      buffer.Push(Vec3(x, y, 0.0));
    }
  }

  /** Every vertex of a `line` lies in the plane z = 0, and its x and y are the dotted
      line's point of the same index: the two copies of the emitter agree. */
  lemma {:induction false} LinePointsAreDots(start: Vec2, normx: real, normy: real, radius: real, n: nat)
    ensures forall i | 0 <= i < n :: LinePoints(start, normx, normy, radius, n)[i].z == 0.0
    ensures forall i | 0 <= i < n ::
      var p := LinePoints(start, normx, normy, radius, n)[i];
      Vec2(p.x, p.y) == DotLinePoints(start, Vec2(normx, normy), radius, n)[i]
  {
    forall i | 0 <= i < n
      ensures var p := LinePoints(start, normx, normy, radius, n)[i];
        Vec2(p.x, p.y) == DotLinePoints(start, Vec2(normx, normy), radius, n)[i]
    {
      LinePointIsDot(start, normx, normy, radius, i);
    }
  }

  lemma LinePointIsDot(start: Vec2, normx: real, normy: real, radius: real, i: nat)
    ensures LinePoint(start, normx, normy, radius, i).x == DotPoint(start, Vec2(normx, normy), radius, i).x
    ensures LinePoint(start, normx, normy, radius, i).y == DotPoint(start, Vec2(normx, normy), radius, i).y
  {
    var t := i as real * radius;
    assert DotPoint(start, Vec2(normx, normy), radius, i) == Vec2(start.x + normx * t, start.y + normy * t);
    assert i as real * normx * radius == normx * t;
    assert i as real * normy * radius == normy * t;
  }

  /** The draw closure's state: the vertex buffer it created (the programs are identified by `Program`). */
  datatype DrawSystem = DrawSystem(buffer: nat)

  const BUFFER_ERR: string := "failed to create buffer"

  /** `create_draw_system`: creating the buffer fails with "failed to create buffer",
      then each program's creation error is passed on, circle program first. */
  function CreateDrawSystem(buffer: Option<nat>, circle: Result<(), string>, square: Result<(), string>)
    : (r: Result<DrawSystem, string>)
    ensures r.Ok? <==> buffer.Some? && circle.Ok? && square.Ok?
    ensures buffer.None? ==> r == Err(BUFFER_ERR)
    ensures buffer.Some? && circle.Err? ==> r == Err(circle.error)
    ensures buffer.Some? && circle.Ok? && square.Err? ==> r == Err(square.error)
    ensures r.Ok? ==> r.value.buffer == buffer.value
  {
    if buffer.None? then Err(BUFFER_ERR)
    else if circle.Err? then Err(circle.error)
    else if square.Err? then Err(square.error)
    else Ok(DrawSystem(buffer.value))
  }

  /** The closure's `Args` (its context argument left out). */
  datatype Args = Args(vertices: seq<Vec3>, gameDim: Vec2, asSquare: bool, color: Color,
                       offset: Vec2, pointSize: real)

  /** The program call the closure makes. */
  datatype ProgramDraw = ProgramDraw(program: Program, buffer: nat, offset: Vec2, matrix: seq<real>,
                                     pointSize: real, color: Color, vertices: seq<Vec3>)

  /** One call of the closure: the program call it makes and the value it returns. */
  datatype Drawn = Drawn(call: ProgramDraw, result: Result<(), string>)

  /** The closure: the square program when `as_square`, the circle program otherwise,
      the buffer it created, a matrix mapping `(0, 0)` to clip `(-1, 1)` and `game_dim`
      to clip `(1, -1)`, and always `Ok(())`. */
  function DrawCall(sys: DrawSystem, args: Args): (d: Drawn)
    requires args.gameDim.x != 0.0 && args.gameDim.y != 0.0
    ensures d.result == Ok(())
    ensures d.call.program == SquareProgram <==> args.asSquare
    ensures d.call.buffer == sys.buffer && d.call.offset == args.offset
      && d.call.pointSize == args.pointSize && d.call.color == args.color
      && d.call.vertices == args.vertices
    ensures |d.call.matrix| == 9
      && Transform(d.call.matrix, Vec2(0.0, 0.0)) == Vec3(-1.0, 1.0, 1.0)
      && Transform(d.call.matrix, args.gameDim) == Vec3(1.0, -1.0, 1.0)
  {
    var scalex := 2.0 / args.gameDim.x;
    var scaley := 2.0 / args.gameDim.y;
    var matrix := [scalex, 0.0, 0.0, 0.0, -scaley, 0.0, -1.0, 1.0, 1.0];
    assert matrix == CameraMatrix(args.gameDim);
    CameraCorners(args.gameDim);
    var program := if args.asSquare then SquareProgram else CircleProgram;
    Drawn(ProgramDraw(program, sys.buffer, args.offset, matrix, args.pointSize, args.color, args.vertices), Ok(()))
  }
}
