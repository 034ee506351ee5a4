/** The simple 2-d drawing system of src/simple2d/mod.rs: a shape builder that appends
    triangle or point vertices to a borrowed vector, buffers that record how many
    vertices they hold, and a view that routes draw calls to the square or the circle
    program. */
module Simple2d {
  import opened Base
  import opened Vecs
  import opened Geometry
  import opened Drawing

  /** `ShapeBuilder`: a mutable borrow of the caller's vertex vector. */
  class ShapeBuilder {
    const inner: Vec<Vec2>

    constructor (inner: Vec<Vec2>)
      ensures this.inner == inner
    {
      this.inner := inner;
    }

    /** `ShapeBuilder::clear`. */
    method Clear()
      modifies inner
      ensures inner.elems == []
    {
      inner.Clear();
    }

    /** `ShapeBuilder::dot_line`, with the segment length and unit direction given. */
    method DotLine(radius: real, start: Vec2, dis: real, norm: Vec2)
      requires dis >= 0.0
      modifies inner
      ensures inner.elems == old(inner.elems) + DotLinePoints(start, norm, radius, NumPoints(dis, radius))
    {
      PushDotLine(inner, radius, start, dis, norm);
    }

    /** `ShapeBuilder::line`, with `k` the unit normal of the segment: extends the vector
        by the two triangles of a quad `2 * radius` wide around the segment. */
    method Line(radius: real, start: Vec2, end: Vec2, k: Vec2)
      modifies inner
      ensures inner.elems == old(inner.elems) + LineVertices(start, end, k, radius)
    {
      var start1 := Add(start, Scale(k, radius));
      var start2 := Sub(start, Scale(k, radius));
      var end1 := Add(end, Scale(k, radius));
      var end2 := Sub(end, Scale(k, radius));
      inner.Extend([start1, start2, end1, start2, end1, end2]);
    }

    /** `ShapeBuilder::rect`: extends the vector by the rectangle's two triangles. */
    method AddRect(rect: Rect)
      modifies inner
      ensures inner.elems == old(inner.elems) + RectVertices(rect)
    {
      var start := Vec2(rect.x, rect.y);
      var dim := Vec2(rect.w, rect.h);
      inner.Extend([
        start,
        Add(start, Vec2(dim.x, 0.0)),
        Add(start, Vec2(0.0, dim.y)),
        Add(start, Vec2(dim.x, 0.0)),
        Add(start, dim),
        Add(start, Vec2(0.0, dim.y))]);
    }
  }

  /** `CtxWrap::buffer_static_clear`: uploads the vector into a new static buffer, then
      empties it. A failure of `Buffer::new` is thrown (`unwrap_throw`) before the
      vector is touched. */
  method BufferStaticClear(ctx: nat, created: Result<nat, string>, a: Vec<Vec2>) returns (r: Result<Buffer, string>)
    modifies a
    ensures r == StaticBufferNew(ctx, created, old(a.elems))
    ensures r.Ok? ==> r.value.numVerts == |old(a.elems)| && a.elems == []
    ensures r.Err? ==> a.elems == old(a.elems)
  {
    r := StaticBufferNew(ctx, created, a.elems);
    if r.Ok? {
      a.Clear();
    }
  }

  /** The arguments of `ShaderSystem::draw`. */
  datatype Args = Args(verts: Buffer, primitive: nat, gameDim: Vec2, asSquare: bool,
                       color: Color, offset: Vec2, pointSize: real)

  /** The program call `ShaderSystem::draw` makes. Its matrix is
      `projection(game_dim, offset)`, computed by a foreign matrix library, so the call
      records the two arguments the matrix is computed from. */
  datatype ProgramDraw = ProgramDraw(program: Program, verts: Buffer, primitive: nat,
                                     projDim: Vec2, projOffset: Vec2, pointSize: real, color: Color)

  /** A `ShaderSystem`: its context (the programs are identified by `Program`). */
  datatype ShaderSystem = ShaderSystem(ctx: nat)

  /** `ShaderSystem::draw`: `None` when the buffer belongs to another context (the
      `assert_eq!` panics); otherwise one call on the square program when `as_square`,
      on the circle program when not, with every other argument passed on unchanged. */
  function Draw(sys: ShaderSystem, args: Args): (r: Option<ProgramDraw>)
    ensures r.None? <==> args.verts.ctx != sys.ctx
    ensures r.Some? ==> (r.value.program == SquareProgram <==> args.asSquare)
    ensures r.Some? ==> (r.value.verts == args.verts && r.value.primitive == args.primitive
      && r.value.projDim == args.gameDim && r.value.projOffset == args.offset
      && r.value.pointSize == args.pointSize && r.value.color == args.color)
  {
    if args.verts.ctx != sys.ctx then None
    else
      var program := if args.asSquare then SquareProgram else CircleProgram;
      Some(ProgramDraw(program, args.verts, args.primitive, args.gameDim, args.offset, args.pointSize, args.color))
  }

  /** `ShaderSystem::view`: top-left maps to `[0, 0]`, bottom-right to `dim`. */
  datatype View = View(offset: Vec2, dim: Vec2)

  function DrawSquares(sys: ShaderSystem, v: View, verts: Buffer, pointSize: real, color: Color): Option<ProgramDraw>
  {
    Draw(sys, Args(verts, POINTS, v.dim, true, color, v.offset, pointSize))
  }

  function DrawTriangles(sys: ShaderSystem, v: View, verts: Buffer, color: Color): Option<ProgramDraw>
  {
    Draw(sys, Args(verts, TRIANGLES, v.dim, true, color, v.offset, 0.0))
  }

  function DrawCircles(sys: ShaderSystem, v: View, verts: Buffer, pointSize: real, color: Color): Option<ProgramDraw>
  {
    Draw(sys, Args(verts, POINTS, v.dim, false, color, v.offset, pointSize))
  }

  /** The routing of the three `View` draws: squares and triangles go to the square
      program, circles to the circle program; squares and circles as points with the
      caller's point size, triangles as triangles with point size 0; every call carries
      the view's `dim` and `offset`, and the caller's buffer and colour. */
  lemma ViewRouting(sys: ShaderSystem, v: View, verts: Buffer, pointSize: real, color: Color)
    requires verts.ctx == sys.ctx
    ensures DrawSquares(sys, v, verts, pointSize, color)
         == Some(ProgramDraw(SquareProgram, verts, POINTS, v.dim, v.offset, pointSize, color))
    ensures DrawTriangles(sys, v, verts, color)
         == Some(ProgramDraw(SquareProgram, verts, TRIANGLES, v.dim, v.offset, 0.0, color))
    ensures DrawCircles(sys, v, verts, pointSize, color)
         == Some(ProgramDraw(CircleProgram, verts, POINTS, v.dim, v.offset, pointSize, color))
  {
  }
}
