/** What the point-drawing modules (src/simple2d/mod.rs and src/dots.rs) share: primitive
    modes, colours, the two shader programs, GPU vertex buffers reduced to the vertex
    count they record, and the dotted-line emitter both copies of `dot_line` implement. */
module Drawing {
  import opened Base
  import opened Vecs
  import opened Geometry

  /** `WebGl2RenderingContext::POINTS` and `TRIANGLES`. */
  const POINTS: nat := 0
  const TRIANGLES: nat := 4

  datatype Color = Color(r: real, g: real, b: real, a: real)

  /** The two programs of a `ShaderSystem`. */
  datatype Program = SquareProgram | CircleProgram

  /** A vertex buffer: the context that owns it, its GPU handle, and `num_verts`. */
  datatype Buffer = Buffer(ctx: nat, handle: nat, numVerts: nat)

  /** `StaticBuffer::new`: `Buffer::new(ctx)?` either yields a handle or fails with a
      message that is passed on; the new buffer records how many vertices were uploaded. */
  function StaticBufferNew(ctx: nat, created: Result<nat, string>, verts: seq<Vec2>): (r: Result<Buffer, string>)
    ensures r.Err? <==> created.Err?
    ensures r.Err? ==> r.error == created.error
    ensures r.Ok? ==> r.value.ctx == ctx && r.value.handle == created.value
    ensures r.Ok? ==> r.value.numVerts == |verts|
  {
    match created
    case Err(e) => Err(e)
    case Ok(h) => Ok(Buffer(ctx, h, |verts|))
  }

  /** `DynamicBuffer`: a buffer whose contents are uploaded again each frame. */
  class DynamicBuffer {
    const ctx: nat
    const handle: nat
    var numVerts: nat

    constructor (ctx: nat, handle: nat)
      ensures this.ctx == ctx && this.handle == handle && numVerts == 0
    {
      this.ctx := ctx;
      this.handle := handle;
      numVerts := 0;
    }

    /** The buffer as a draw call sees it. */
    function AsBuffer(): (b: Buffer)
      reads this
      ensures b.ctx == ctx && b.handle == handle && b.numVerts == numVerts
    {
      Buffer(ctx, handle, numVerts)
    }

    /** `update_no_clear` (and `update` in src/dots.rs): uploads the vertices and records
        their number; the caller's vertices are left as they were. */
    method UpdateNoClear(vertices: seq<Vec2>)
      modifies this
      ensures numVerts == |vertices|
    {
      numVerts := |vertices|;
    }

    /** `update_clear`: uploads and records the count, then empties the caller's vector. */
    method UpdateClear(verts: Vec<Vec2>)
      modifies this, verts
      ensures numVerts == |old(verts.elems)|
      ensures verts.elems == []
    {
      UpdateNoClear(verts.elems);
      verts.Clear();
    }
  }

  /** `dot_line` (src/dots.rs and src/simple2d/mod.rs): pushes `floor(dis / radius)`
      points, the i-th at `start + norm * i * radius`, after the existing ones. The
      segment length `dis` and direction `norm` are given. */
  method PushDotLine(buffer: Vec<Vec2>, radius: real, start: Vec2, dis: real, norm: Vec2)
    requires dis >= 0.0
    modifies buffer
    ensures buffer.elems == old(buffer.elems) + DotLinePoints(start, norm, radius, NumPoints(dis, radius))
  {
    var num := NumPoints(dis, radius);
    for i := 0 to num
      invariant buffer.elems == old(buffer.elems) + DotLinePoints(start, norm, radius, i)
    {
      var pos := Add(start, Scale(Scale(norm, i as real), radius));
      assert pos == DotPoint(start, norm, radius, i);
      DotLinePointsSnoc(start, norm, radius, i);
      buffer.Push(pos);
    }
  }
}
