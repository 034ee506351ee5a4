/** The instanced textured-mesh program of src/simple2d/shader.rs: how `GlProgram::new`
    checks the locations it looks up, how `draw` encodes its flags as integer uniforms,
    and how the per-instance `mat4` attribute is laid out over four consecutive vertex
    attribute locations. WebGL is a log of the calls whose arguments matter here. */
module Shader {
  import opened Base

  /** `WebGl2RenderingContext::FLOAT`, `UNSIGNED_SHORT` and `TRIANGLES`. */
  const FLOAT: nat := 0x1406
  const UNSIGNED_SHORT: nat := 0x1403
  const TRIANGLES: nat := 4

  /** Bytes per `mat4` of `f32`s, and bytes per column of one. */
  const BYTES_PER_MATRIX: nat := 64
  const BYTES_PER_COLUMN: nat := 16

  const UNIFORM_ERR: string := "uniform err"
  const ATTRIBUTE_ERR: string := "attribute err"

  datatype GlCall =
    | UseProgram(program: nat)
    | EnableVertexAttribArray(loc: nat)
    | VertexAttribPointer(loc: nat, size: nat, ty: nat, normalized: bool, stride: int, offset: int)
    | VertexAttribDivisor(loc: nat, divisor: nat)
    | Uniform1i(uniform: nat, ivalue: i32)
    | Uniform1f(uniform: nat, fvalue: real)
    | DrawElementsInstanced(mode: nat, count: i32, ty: nat, first: int, instances: i32)

  /** A WebGL context, reduced to the calls made on it. */
  class Gl {
    var calls: seq<GlCall>

    constructor ()
      ensures calls == []
    {
      calls := [];
    }

    method Call(c: GlCall)
      modifies this
      ensures calls == old(calls) + [c]
    {
      calls := calls + [c];
    }
  }

  /** `GlProgram`: the linked program, its three uniform locations, and its four
      attribute locations as `u32`. */
  datatype GlProgram = GlProgram(program: nat, grayscale: nat, text: nat, pointSize: nat,
                                 mmatrix: nat, position: nat, normal: nat, texcoord: nat)

  /** What the context answers when `GlProgram::new` looks the names up: a uniform
      location or none, and an attribute location, `-1` when the name is unknown. */
  datatype Lookups = Lookups(grayscale: Option<nat>, text: Option<nat>, pointSize: Option<nat>,
                             mmatrix: i32, position: i32, normal: i32, texcoord: i32)

  predicate UniformsFound(l: Lookups)
  {
    l.grayscale.Some? && l.text.Some? && l.pointSize.Some?
  }

  /** `GlProgram::new`, after compiling and linking (whose outcome is `linked`): a
      missing uniform fails with "uniform err", then a negative `mmatrix` location with
      "attribute err"; the other three locations are cast to `u32` unchecked. */
  function NewProgram(linked: Result<nat, string>, l: Lookups): (r: Result<GlProgram, string>)
    ensures r.Ok? <==> linked.Ok? && UniformsFound(l) && l.mmatrix >= 0
    ensures linked.Err? ==> r == Err(linked.error)
    ensures linked.Ok? && !UniformsFound(l) ==> r == Err(UNIFORM_ERR)
    ensures linked.Ok? && UniformsFound(l) && l.mmatrix < 0 ==> r == Err(ATTRIBUTE_ERR)
    ensures r.Ok? ==> (r.value.program == linked.value && r.value.mmatrix == l.mmatrix
      && r.value.grayscale == l.grayscale.value && r.value.text == l.text.value
      && r.value.pointSize == l.pointSize.value)
    ensures r.Ok? ==> (r.value.position == U32FromI32(l.position)
      && r.value.normal == U32FromI32(l.normal) && r.value.texcoord == U32FromI32(l.texcoord))
    ensures r.Ok? ==> r.value.mmatrix + 3 < U32_LIMIT
  {
    if linked.Err? then Err(linked.error)
    else if l.grayscale.None? then Err(UNIFORM_ERR)
    else if l.text.None? then Err(UNIFORM_ERR)
    else if l.pointSize.None? then Err(UNIFORM_ERR)
    else if l.mmatrix < 0 then Err(ATTRIBUTE_ERR)
    else Ok(GlProgram(linked.value, l.grayscale.value, l.text.value, l.pointSize.value,
                      U32FromI32(l.mmatrix), U32FromI32(l.position), U32FromI32(l.normal),
                      U32FromI32(l.texcoord)))
  }

  /** An unknown attribute (location `-1`) is not rejected: it becomes location
      `u32::MAX`. */
  lemma UnknownAttributeWraps(linked: Result<nat, string>, l: Lookups)
    requires linked.Ok? && UniformsFound(l) && l.mmatrix >= 0 && l.position == -1
    ensures NewProgram(linked, l).Ok? && NewProgram(linked, l).value.position == U32_LIMIT - 1
  {
  }

  /** The `grayscale` uniform `draw` sets. */
  function GrayscaleCode(grayscale: bool): (k: i32)
    ensures k == 1 <==> grayscale
    ensures k == 0 <==> !grayscale
  {
    if grayscale then 1 else 0
  }

  /** The `text` uniform `draw` sets: text wins over lighting. */
  function TextCode(text: bool, lighting: bool): (k: i32)
    ensures text ==> k == 1
    ensures !text && !lighting ==> k == 2
    ensures !text && lighting ==> k == 0
  {
    if text then 1 else if !lighting then 2 else 0
  }

  /** The branch the fragment shader takes on its `text` uniform: 1 samples the glyph's
      alpha, 2 keeps the texel, anything else applies the light. */
  datatype Shading = Glyph | Unlit | Lit

  function ShadingOf(text: i32): Shading
  {
    if text == 1 then Glyph else if text == 2 then Unlit else Lit
  }

  /** The fragment shader converts to grey exactly when its `grayscale` uniform is 1. */
  function GrayscaleOf(grayscale: i32): bool
  {
    grayscale == 1
  }

  /** Encoding and decoding agree: the shader takes the branch the flags ask for. */
  lemma UniformRoundTrip(grayscale: bool, text: bool, lighting: bool)
    ensures GrayscaleOf(GrayscaleCode(grayscale)) == grayscale
    ensures ShadingOf(TextCode(text, lighting))
         == if text then Glyph else if lighting then Lit else Unlit
  {
  }

  /** Column `i` of the per-instance matrix: one four-float attribute at location
      `base + i`, at byte offset `16 * i` of a 64-byte stride, advancing once per instance. */
  function ColumnSetup(base: nat, i: nat): seq<GlCall>
  {
    [VertexAttribPointer(base + i, 4, FLOAT, false, BYTES_PER_MATRIX, BYTES_PER_COLUMN * i),
     VertexAttribDivisor(base + i, 1)]
  }

  /** The calls for the first `n` columns, in order. */
  function MatrixSetup(base: nat, n: nat): (cs: seq<GlCall>)
    ensures |cs| == 2 * n
  {
    if n == 0 then [] else MatrixSetup(base, n - 1) + ColumnSetup(base, n - 1)
  }

  /** `Mat4Buffer::setup_attrib_special`: configures the four columns in order. The
      locations `mmatrix .. mmatrix + 3` must fit in `u32`, which `NewProgram` ensures. */
  method SetupAttribSpecial(gl: Gl, program: GlProgram)
    requires program.mmatrix + 3 < U32_LIMIT
    modifies gl
    ensures gl.calls == old(gl.calls) + MatrixSetup(program.mmatrix, 4)
  {
    var matrixLoc := program.mmatrix;
    for i := 0 to 4
      invariant gl.calls == old(gl.calls) + MatrixSetup(matrixLoc, i)
    {
      var loc := matrixLoc + i;
      var offset := i * 16;
      gl.Call(VertexAttribPointer(loc, 4, FLOAT, false, BYTES_PER_MATRIX, offset));
      gl.Call(VertexAttribDivisor(loc, 1));
    }
  }

  /** The locations the column calls configure. */
  function PointerLocs(cs: seq<GlCall>): set<nat>
  {
    set i | 0 <= i < |cs| && cs[i].VertexAttribPointer? :: cs[i].loc
  }

  function EnabledLocs(cs: seq<GlCall>): set<nat>
  {
    set i | 0 <= i < |cs| && cs[i].EnableVertexAttribArray? :: cs[i].loc
  }

  /** The instanced matrix layout: column `i` sits at location `base + i` and byte offset
      `16 * i` with stride 64, four floats, divisor 1. The columns are disjoint, in
      order, and exactly fill the 64-byte stride, so float `c` of column `i` of
      instance `j` is float `16 * j + 4 * i + c` of the flattened matrix slice: column
      `i` of `mmatrix[j]`. */
  lemma {:induction false} MatrixLayout(base: nat)
    ensures var cs := MatrixSetup(base, 4);
      && |cs| == 8
      && (forall i | 0 <= i < 4 ::
            cs[2 * i] == VertexAttribPointer(base + i, 4, FLOAT, false, 64, 16 * i)
            && cs[2 * i + 1] == VertexAttribDivisor(base + i, 1))
      && PointerLocs(cs) == {base, base + 1, base + 2, base + 3}
    ensures var cs := MatrixSetup(base, 4);
      forall i, j | 0 <= i < j < 4 ::
        cs[2 * i].VertexAttribPointer? && cs[2 * j].VertexAttribPointer?
        && cs[2 * i].offset + 4 * cs[2 * i].size <= cs[2 * j].offset
    ensures var cs := MatrixSetup(base, 4);
      && cs[0].VertexAttribPointer? && cs[6].VertexAttribPointer?
      && cs[0].offset == 0
      && cs[6].offset + 4 * cs[6].size == cs[6].stride == BYTES_PER_MATRIX
    ensures forall j: nat, i: nat, c: nat | i < 4 && c < 4 ::
      (BYTES_PER_MATRIX * j + BYTES_PER_COLUMN * i + 4 * c) / 4 == 16 * j + 4 * i + c
  {
    var cs := MatrixSetup(base, 4);
    assert MatrixSetup(base, 1) == ColumnSetup(base, 0) by {
      assert MatrixSetup(base, 0) == [];
    }
    assert MatrixSetup(base, 2) == MatrixSetup(base, 1) + ColumnSetup(base, 1);
    assert MatrixSetup(base, 3) == MatrixSetup(base, 2) + ColumnSetup(base, 2);
    assert cs == MatrixSetup(base, 3) + ColumnSetup(base, 3);
    assert PointerLocs(cs) == {base, base + 1, base + 2, base + 3} by {
      assert cs[0].loc == base && cs[2].loc == base + 1 && cs[4].loc == base + 2 && cs[6].loc == base + 3;
      forall i | 0 <= i < |cs| && cs[i].VertexAttribPointer?
        ensures cs[i].loc in {base, base + 1, base + 2, base + 3}
      {
        assert i == 0 || i == 2 || i == 4 || i == 6;
      }
    }
  }

  /** `VaoResult`: the counts `create_vao2` records. */
  datatype VaoResult = VaoResult(numIndex: nat, numVertex: nat)

  /** The calls `create_vao2` makes: enable the three per-vertex locations and the four
      matrix locations, point the three per-vertex attributes at their tightly packed
      buffers, then lay out the matrix. */
  function VaoCalls(p: GlProgram): seq<GlCall>
  {
    VertexEnables(p) + MatrixEnables(p.mmatrix, 4) + VertexPointers(p) + MatrixSetup(p.mmatrix, 4)
  }

  function VertexEnables(p: GlProgram): seq<GlCall>
  {
    [EnableVertexAttribArray(p.texcoord), EnableVertexAttribArray(p.position),
     EnableVertexAttribArray(p.normal)]
  }

  function VertexPointers(p: GlProgram): seq<GlCall>
  {
    [VertexAttribPointer(p.texcoord, 2, FLOAT, false, 0, 0),
     VertexAttribPointer(p.position, 3, FLOAT, false, 0, 0),
     VertexAttribPointer(p.normal, 3, FLOAT, false, 0, 0)]
  }

  function MatrixEnables(base: nat, n: nat): (cs: seq<GlCall>)
    ensures |cs| == n
    ensures forall i | 0 <= i < n :: cs[i] == EnableVertexAttribArray(base + i)
  {
    if n == 0 then [] else MatrixEnables(base, n - 1) + [EnableVertexAttribArray(base + n - 1)]
  }

  /** `create_vao2`: returns the number of indices and of positions it uploaded. */
  method CreateVao2(gl: Gl, program: GlProgram, texCoords: seq<(real, real)>,
                    positions: seq<(real, real, real)>, normals: seq<(real, real, real)>,
                    indices: seq<nat>)
    returns (res: VaoResult)
    requires program.mmatrix + 3 < U32_LIMIT
    modifies gl
    ensures gl.calls == old(gl.calls) + VaoCalls(program)
    ensures res.numIndex == |indices| && res.numVertex == |positions|
  {
    gl.Call(EnableVertexAttribArray(program.texcoord));
    gl.Call(EnableVertexAttribArray(program.position));
    gl.Call(EnableVertexAttribArray(program.normal));
    ghost var mid := gl.calls;
    for i := 0 to 4
      invariant gl.calls == mid + MatrixEnables(program.mmatrix, i)
    {
      gl.Call(EnableVertexAttribArray(program.mmatrix + i));
    }
    gl.Call(VertexAttribPointer(program.texcoord, 2, FLOAT, false, 0, 0));
    gl.Call(VertexAttribPointer(program.position, 3, FLOAT, false, 0, 0));
    gl.Call(VertexAttribPointer(program.normal, 3, FLOAT, false, 0, 0));
    SetupAttribSpecial(gl, program);
    res := VaoResult(|indices|, |positions|);
  }

  lemma LocsAppend(a: seq<GlCall>, b: seq<GlCall>)
    ensures PointerLocs(a + b) == PointerLocs(a) + PointerLocs(b)
    ensures EnabledLocs(a + b) == EnabledLocs(a) + EnabledLocs(b)
  {
    var ab := a + b;
    forall x | x in PointerLocs(a) ensures x in PointerLocs(ab) {
      var i :| 0 <= i < |a| && a[i].VertexAttribPointer? && a[i].loc == x;
      assert ab[i] == a[i];
    }
    forall x | x in EnabledLocs(a) ensures x in EnabledLocs(ab) {
      var i :| 0 <= i < |a| && a[i].EnableVertexAttribArray? && a[i].loc == x;
      assert ab[i] == a[i];
    }
    forall x | x in PointerLocs(b) ensures x in PointerLocs(ab) {
      var i :| 0 <= i < |b| && b[i].VertexAttribPointer? && b[i].loc == x;
      assert ab[|a| + i] == b[i];
    }
    forall x | x in EnabledLocs(b) ensures x in EnabledLocs(ab) {
      var i :| 0 <= i < |b| && b[i].EnableVertexAttribArray? && b[i].loc == x;
      assert ab[|a| + i] == b[i];
    }
    forall i | 0 <= i < |ab| && ab[i].VertexAttribPointer? ensures ab[i].loc in PointerLocs(a) + PointerLocs(b) {
      if i < |a| { assert ab[i] == a[i]; } else { assert ab[i] == b[i - |a|]; }
    }
    forall i | 0 <= i < |ab| && ab[i].EnableVertexAttribArray? ensures ab[i].loc in EnabledLocs(a) + EnabledLocs(b) {
      if i < |a| { assert ab[i] == a[i]; } else { assert ab[i] == b[i - |a|]; }
    }
  }

  lemma MatrixLocs(base: nat)
    ensures EnabledLocs(MatrixEnables(base, 4)) == {base, base + 1, base + 2, base + 3}
    ensures PointerLocs(MatrixEnables(base, 4)) == {}
    ensures EnabledLocs(MatrixSetup(base, 4)) == {}
    ensures PointerLocs(MatrixSetup(base, 4)) == {base, base + 1, base + 2, base + 3}
  {
    var en := MatrixEnables(base, 4);
    assert EnabledLocs(en) == {base, base + 1, base + 2, base + 3} by {
      assert en[0].loc == base && en[1].loc == base + 1 && en[2].loc == base + 2 && en[3].loc == base + 3;
    }
    assert PointerLocs(en) == {} by {
      forall i | 0 <= i < |en| ensures !en[i].VertexAttribPointer? { }
    }
    MatrixLayout(base);
    var ms := MatrixSetup(base, 4);
    assert EnabledLocs(ms) == {} by {
      forall i | 0 <= i < |ms| ensures !ms[i].EnableVertexAttribArray? {
        var q := i / 2;
        assert i == 2 * q || i == 2 * q + 1;
      }
    }
  }

  lemma VertexLocs(p: GlProgram)
    ensures EnabledLocs(VertexEnables(p)) == {p.texcoord, p.position, p.normal}
    ensures PointerLocs(VertexEnables(p)) == {}
    ensures PointerLocs(VertexPointers(p)) == {p.texcoord, p.position, p.normal}
    ensures EnabledLocs(VertexPointers(p)) == {}
  {
    var a, b := VertexEnables(p), VertexPointers(p);
    assert a[0].loc == p.texcoord && a[1].loc == p.position && a[2].loc == p.normal;
    assert b[0].loc == p.texcoord && b[1].loc == p.position && b[2].loc == p.normal;
  }

  lemma VaoPointerLocs(p: GlProgram)
    ensures PointerLocs(VaoCalls(p))
         == {p.texcoord, p.position, p.normal} + {p.mmatrix, p.mmatrix + 1, p.mmatrix + 2, p.mmatrix + 3}
  {
    var a, en, b, ms := VertexEnables(p), MatrixEnables(p.mmatrix, 4), VertexPointers(p), MatrixSetup(p.mmatrix, 4);
    var s1 := a + en;
    var s2 := s1 + b;
    assert PointerLocs(s1) == {} by {
      VertexLocs(p);
      MatrixLocs(p.mmatrix);
      LocsAppend(a, en);
    }
    assert PointerLocs(s2) == {p.texcoord, p.position, p.normal} by {
      VertexLocs(p);
      LocsAppend(s1, b);
    }
    assert PointerLocs(s2 + ms) == PointerLocs(s2) + {p.mmatrix, p.mmatrix + 1, p.mmatrix + 2, p.mmatrix + 3} by {
      MatrixLocs(p.mmatrix);
      LocsAppend(s2, ms);
    }
  }

  lemma VaoEnabledLocs(p: GlProgram)
    ensures EnabledLocs(VaoCalls(p))
         == {p.texcoord, p.position, p.normal} + {p.mmatrix, p.mmatrix + 1, p.mmatrix + 2, p.mmatrix + 3}
  {
    var a, en, b, ms := VertexEnables(p), MatrixEnables(p.mmatrix, 4), VertexPointers(p), MatrixSetup(p.mmatrix, 4);
    var s1 := a + en;
    var s2 := s1 + b;
    assert EnabledLocs(s1) == {p.texcoord, p.position, p.normal} + {p.mmatrix, p.mmatrix + 1, p.mmatrix + 2, p.mmatrix + 3} by {
      VertexLocs(p);
      MatrixLocs(p.mmatrix);
      LocsAppend(a, en);
    }
    assert EnabledLocs(s2) == EnabledLocs(s1) by {
      VertexLocs(p);
      LocsAppend(s1, b);
    }
    assert EnabledLocs(s2 + ms) == EnabledLocs(s2) by {
      MatrixLocs(p.mmatrix);
      LocsAppend(s2, ms);
    }
  }

  /** Every location `create_vao2` points an attribute at is enabled and vice versa; in
      particular the four matrix locations `mmatrix .. mmatrix + 3` are enabled. */
  lemma VaoEnablesWhatItConfigures(p: GlProgram)
    ensures PointerLocs(VaoCalls(p)) == EnabledLocs(VaoCalls(p))
    ensures {p.mmatrix, p.mmatrix + 1, p.mmatrix + 2, p.mmatrix + 3} <= EnabledLocs(VaoCalls(p))
  {
    VaoPointerLocs(p);
    VaoEnabledLocs(p);
  }

  /** `Argss`: the texture is bound by a foreign helper and not recorded. */
  datatype Argss = Argss(res: VaoResult, primitive: nat, mmatrix: seq<seq<real>>,
                         pointSize: real, grayscale: bool, text: bool, lighting: bool)

  /** The calls `GlProgram::draw` makes. */
  function DrawCalls(p: GlProgram, a: Argss): seq<GlCall>
    requires a.res.numIndex <= USIZE_MAX && |a.mmatrix| <= USIZE_MAX
  {
    [UseProgram(p.program),
     Uniform1i(p.grayscale, GrayscaleCode(a.grayscale)),
     Uniform1i(p.text, TextCode(a.text, a.lighting)),
     Uniform1f(p.pointSize, a.pointSize),
     DrawElementsInstanced(TRIANGLES, I32FromUsize(a.res.numIndex), UNSIGNED_SHORT, 0,
                           I32FromUsize(|a.mmatrix|))]
  }

  /** `GlProgram::draw`. */
  method Draw(gl: Gl, p: GlProgram, a: Argss)
    requires a.res.numIndex <= USIZE_MAX && |a.mmatrix| <= USIZE_MAX
    modifies gl
    ensures gl.calls == old(gl.calls) + DrawCalls(p, a)
  {
    gl.Call(UseProgram(p.program));
    var kk: i32 := if a.grayscale then 1 else 0;
    gl.Call(Uniform1i(p.grayscale, kk));
    kk := if a.text then 1 else if !a.lighting then 2 else 0;
    gl.Call(Uniform1i(p.text, kk));
    gl.Call(Uniform1f(p.pointSize, a.pointSize));
    gl.Call(DrawElementsInstanced(TRIANGLES, I32FromUsize(a.res.numIndex), UNSIGNED_SHORT, 0,
                                  I32FromUsize(|a.mmatrix|)));
  }

  /** `draw` issues exactly one draw, its last call: instanced, as triangles whatever the
      requested primitive, over `num_index` unsigned-short indices and once per matrix
      (counts that fit in `i32`); it sets the program's three uniforms to the values the
      shader decodes back into the requested flags. */
  lemma DrawEffect(p: GlProgram, a: Argss)
    requires a.res.numIndex <= I32_MAX && |a.mmatrix| <= I32_MAX
    ensures var cs := DrawCalls(p, a);
      && (forall i | 0 <= i < |cs| :: cs[i].DrawElementsInstanced? <==> i == |cs| - 1)
      && cs[|cs| - 1] == DrawElementsInstanced(TRIANGLES, a.res.numIndex, UNSIGNED_SHORT, 0, |a.mmatrix|)
      && cs[0] == UseProgram(p.program)
      && GrayscaleOf(cs[1].ivalue) == a.grayscale && cs[1].uniform == p.grayscale
      && ShadingOf(cs[2].ivalue) == (if a.text then Glyph else if a.lighting then Lit else Unlit)
      && cs[2].uniform == p.text
    ensures forall q: nat :: DrawCalls(p, a.(primitive := q)) == DrawCalls(p, a)
  {
    UniformRoundTrip(a.grayscale, a.text, a.lighting);
  }
}
