/** The dot-drawing system of src/dots.rs: shape emitters that push onto a vertex vector
    one vertex at a time, and a camera that draws with an explicit projection matrix. */
module Dots {
  import opened Base
  import opened Vecs
  import opened Geometry
  import opened Drawing

  /** `Shapes::rect` for `Vec<[f32; 2]>`: six pushes, the rectangle's two triangles. */
  method PushRect(buffer: Vec<Vec2>, rect: Rect)
    modifies buffer
    ensures buffer.elems == old(buffer.elems) + RectVertices(rect)
  {
    var start := Vec2(rect.x, rect.y);
    var dim := Vec2(rect.w, rect.h);
    buffer.Push(start);
    buffer.Push(Add(start, Vec2(dim.x, 0.0)));
    buffer.Push(Add(start, Vec2(0.0, dim.y)));
    buffer.Push(Add(start, Vec2(dim.x, 0.0)));
    buffer.Push(Add(start, dim));
    buffer.Push(Add(start, Vec2(0.0, dim.y)));
  }

  /** `Shapes::line` for `Vec<[f32; 2]>`, with `k` the unit normal of the segment: six
      pushes, the two triangles of the quad around the segment. */
  method PushLine(buffer: Vec<Vec2>, radius: real, start: Vec2, end: Vec2, k: Vec2)
    modifies buffer
    ensures buffer.elems == old(buffer.elems) + LineVertices(start, end, k, radius)
  {
    var start1 := Add(start, Scale(k, radius));
    var start2 := Sub(start, Scale(k, radius));
    var end1 := Add(end, Scale(k, radius));
    var end2 := Sub(end, Scale(k, radius));
    buffer.Push(start1);
    buffer.Push(start2);
    buffer.Push(end1);
    buffer.Push(start2);
    buffer.Push(end1);
    buffer.Push(end2);
  }

  /** The arguments of `ShaderSystem::draw`. */
  datatype Args = Args(verts: Buffer, primitive: nat, gameDim: Vec2, asSquare: bool,
                       color: Color, offset: Vec2, pointSize: real)

  /** The program call `ShaderSystem::draw` makes, with its explicit matrix. */
  datatype ProgramDraw = ProgramDraw(program: Program, verts: Buffer, primitive: nat,
                                     offset: Vec2, matrix: seq<real>, pointSize: real, color: Color)

  datatype ShaderSystem = ShaderSystem(ctx: nat)

  /** `ShaderSystem::draw`: `None` when the buffer belongs to another context (the
      `assert_eq!` panics). Otherwise one call on the square program when `as_square`,
      on the circle program when not, passing the other arguments on, with a matrix
      that takes the game's top-left corner to clip `(-1, 1)` and its bottom-right
      corner `game_dim` to clip `(1, -1)`. */
  function Draw(sys: ShaderSystem, args: Args): (r: Option<ProgramDraw>)
    requires args.gameDim.x != 0.0 && args.gameDim.y != 0.0
    ensures r.None? <==> args.verts.ctx != sys.ctx
    ensures r.Some? ==> (r.value.program == SquareProgram <==> args.asSquare)
    ensures r.Some? ==> (r.value.verts == args.verts && r.value.primitive == args.primitive
      && r.value.offset == args.offset && r.value.pointSize == args.pointSize
      && r.value.color == args.color)
    ensures r.Some? ==> (|r.value.matrix| == 9
      && Transform(r.value.matrix, Vec2(0.0, 0.0)) == Vec3(-1.0, 1.0, 1.0)
      && Transform(r.value.matrix, args.gameDim) == Vec3(1.0, -1.0, 1.0))
  {
    if args.verts.ctx != sys.ctx then None
    else
      var scalex := 2.0 / args.gameDim.x;
      var scaley := 2.0 / args.gameDim.y;
      var matrix := [scalex, 0.0, 0.0, 0.0, -scaley, 0.0, -1.0, 1.0, 1.0];
      assert matrix == CameraMatrix(args.gameDim);
      CameraCorners(args.gameDim);
      var program := if args.asSquare then SquareProgram else CircleProgram;
      Some(ProgramDraw(program, args.verts, args.primitive, args.offset, matrix, args.pointSize, args.color))
  }

  /** `ShaderSystem::camera`. */
  datatype Camera = Camera(offset: Vec2, dim: Vec2)

  function DrawSquares(sys: ShaderSystem, c: Camera, verts: Buffer, pointSize: real, color: Color): Option<ProgramDraw>
    requires c.dim.x != 0.0 && c.dim.y != 0.0
  {
    Draw(sys, Args(verts, POINTS, c.dim, true, color, c.offset, pointSize))
  }

  function DrawTriangles(sys: ShaderSystem, c: Camera, verts: Buffer, color: Color): Option<ProgramDraw>
    requires c.dim.x != 0.0 && c.dim.y != 0.0
  {
    Draw(sys, Args(verts, TRIANGLES, c.dim, true, color, c.offset, 0.0))
  }

  function DrawCircles(sys: ShaderSystem, c: Camera, verts: Buffer, pointSize: real, color: Color): Option<ProgramDraw>
    requires c.dim.x != 0.0 && c.dim.y != 0.0
  {
    Draw(sys, Args(verts, POINTS, c.dim, false, color, c.offset, pointSize))
  }

  /** The routing of the three `Camera` draws, as in src/simple2d/mod.rs, with the
      camera matrix of the camera's `dim`. */
  lemma CameraRouting(sys: ShaderSystem, c: Camera, verts: Buffer, pointSize: real, color: Color)
    requires c.dim.x != 0.0 && c.dim.y != 0.0
    requires verts.ctx == sys.ctx
    ensures DrawSquares(sys, c, verts, pointSize, color)
         == Some(ProgramDraw(SquareProgram, verts, POINTS, c.offset, CameraMatrix(c.dim), pointSize, color))
    ensures DrawTriangles(sys, c, verts, color)
         == Some(ProgramDraw(SquareProgram, verts, TRIANGLES, c.offset, CameraMatrix(c.dim), 0.0, color))
    ensures DrawCircles(sys, c, verts, pointSize, color)
         == Some(ProgramDraw(CircleProgram, verts, POINTS, c.offset, CameraMatrix(c.dim), pointSize, color))
  {
  }
}
