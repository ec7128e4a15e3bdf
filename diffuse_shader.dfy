/** The one-texture shader: it resolves its two uniforms and two attributes after the
    program is made, and draws a model with an interleaved position/texcoord layout
    or a caller-supplied one. */
module DiffuseShader {
  import opened Wrappers
  import opened Matrix
  import opened GlConst
  import opened Host
  import BaseShader
  import FullModel
  import BaseRenderer

  const CLASS_NAME := "DiffuseShader"
  /** The GLSL text of `fillCode` is not modelled; these stand for the two sources. */
  const VERTEX_CODE := "DiffuseShader.vertexShaderCode"
  const FRAGMENT_CODE := "DiffuseShader.fragmentShaderCode"

  const VIEW_PROJ_MATRIX := "view_proj_matrix"
  const RM_VERTEX := "rm_Vertex"
  const RM_TEXCOORD0 := "rm_TexCoord0"
  const S_TEXTURE := "sTexture"
  const DRAW_OP := "DiffuseShader glDrawElements"

  /** Bytes in one float vertex component. */
  const FLOAT_BYTES := 4

  /** `[size, type, normalized, stride, offset]` of `vertexAttribPointer`. */
  datatype AttributeDescriptor = AttributeDescriptor(size: int, glType: nat, normalized: bool, stride: int, offset: int)

  /** One `vertexAttribPointer` per entry of the override map, in iteration order. */
  function PointerCalls(attribs: seq<(int, AttributeDescriptor)>): (t: seq<Event>)
    ensures |t| == |attribs|
  {
    if attribs == [] then []
    else
      var d := attribs[0].1;
      [VertexAttribPointer(attribs[0].0, d.size, d.glType, d.normalized, d.stride, d.offset)] + PointerCalls(attribs[1..])
  }

  /** The layout used without an override map: 3 position floats then 2 texcoord floats. */
  function DefaultLayout(position: int, texCoord: int): seq<(int, AttributeDescriptor)>
  {
    [(position, AttributeDescriptor(3, FLOAT, false, FLOAT_BYTES * (3 + 2), 0)),
     (texCoord, AttributeDescriptor(2, FLOAT, false, FLOAT_BYTES * (3 + 2), FLOAT_BYTES * 3))]
  }

  /** `drawElements` count for a model with `numIndices` triangles. */
  function DrawCount(numIndices: real): real
  {
    numIndices * 3.0
  }

  function UniformOf(o: Oracle, name: string): Option<Handle>
  {
    if name in o.uniforms then Some(o.uniforms[name]) else None
  }

  function AttribOf(o: Oracle, name: string): int
  {
    if name in o.attribs then o.attribs[name] else -1
  }

  /** The lookups of `fillUniformsAttributes` on program `p`; a missing view matrix
      stops them at the first. */
  function FillTrace(o: Oracle, p: Handle): seq<Event>
  {
    [GetUniformLocation(p, VIEW_PROJ_MATRIX, UniformOf(o, VIEW_PROJ_MATRIX))]
    + if VIEW_PROJ_MATRIX !in o.uniforms then [] else
      [GetAttribLocation(p, RM_VERTEX, AttribOf(o, RM_VERTEX)),
       GetAttribLocation(p, RM_TEXCOORD0, AttribOf(o, RM_TEXCOORD0)),
       GetUniformLocation(p, S_TEXTURE, UniformOf(o, S_TEXTURE))]
  }

  /** How `fillUniformsAttributes` ends on a program. */
  function FillOutcome(o: Oracle): Outcome
  {
    if VIEW_PROJ_MATRIX !in o.uniforms then Fail(Thrown(BaseShader.UniformMissing(VIEW_PROJ_MATRIX)))
    else if S_TEXTURE !in o.uniforms then Fail(Thrown(BaseShader.UniformMissing(S_TEXTURE)))
    else Done
  }

  /** The part of `drawModel` before the MVP upload: buffers, enables and pointers. */
  function AttributeTrace(strides: Option<Handle>, indices: Option<Handle>, position: int, texCoord: int,
                          attribs: Option<seq<(int, AttributeDescriptor)>>): seq<Event>
  {
    [BindBuffer(ARRAY_BUFFER, strides), BindBuffer(ELEMENT_ARRAY_BUFFER, indices),
     EnableVertexAttribArray(position), EnableVertexAttribArray(texCoord)]
    + PointerCalls(if attribs.Some? then attribs.value else DefaultLayout(position, texCoord))
  }

  /** Everything `drawModel` sends once its guard passes. */
  function DrawTrace(strides: Option<Handle>, indices: Option<Handle>, position: int, texCoord: int,
                     attribs: Option<seq<(int, AttributeDescriptor)>>, viewProj: Handle, mvp: Mat, numIndices: real): seq<Event>
  {
    AttributeTrace(strides, indices, position, texCoord, attribs)
    + [UniformMatrix4fv(viewProj, false, mvp), DrawElements(TRIANGLES, DrawCount(numIndices), UNSIGNED_SHORT, 0)]
  }

  class DiffuseShader {
    const shader: BaseShader.BaseShader
    var viewProjMatrix: Option<Handle>
    var sTexture: Option<Handle>
    var rmVertex: Option<int>
    var rmTexCoord0: Option<int>

    /** The base constructor with this shader's code; the lookups follow in `Create`. */
    constructor(gl: Context)
      modifies gl
      ensures shader.gl == gl && shader.className == CLASS_NAME
      ensures shader.vertexShaderCode == VERTEX_CODE && shader.fragmentShaderCode == FRAGMENT_CODE
      ensures shader.program == BaseShader.InitProgram(gl.oracle, old(gl.nextHandle), VERTEX_CODE, FRAGMENT_CODE)
      ensures gl.trace == old(gl.trace) + BaseShader.InitTrace(gl.oracle, old(gl.nextHandle), CLASS_NAME, VERTEX_CODE, FRAGMENT_CODE)
      ensures gl.errors == old(gl.errors) && gl.nextHandle == old(gl.nextHandle) + 3
      ensures fresh(shader)
      ensures viewProjMatrix == sTexture == None && rmVertex == rmTexCoord0 == None
    {
      shader := new BaseShader.BaseShader(gl, CLASS_NAME, VERTEX_CODE, FRAGMENT_CODE);
      viewProjMatrix, sTexture, rmVertex, rmTexCoord0 := None, None, None, None;
    }

    /** `new DiffuseShader(gl)`: throws when a program was made but one of the two
        uniforms has a null location. */
    static method Create(gl: Context) returns (r: Result<DiffuseShader>)
      modifies gl
      ensures var p := BaseShader.InitProgram(gl.oracle, old(gl.nextHandle), VERTEX_CODE, FRAGMENT_CODE);
        gl.trace == old(gl.trace) + BaseShader.InitTrace(gl.oracle, old(gl.nextHandle), CLASS_NAME, VERTEX_CODE, FRAGMENT_CODE)
          + (if p.Some? then FillTrace(gl.oracle, p.value) else [])
        && (r.Err? <==> p.Some? && FillOutcome(gl.oracle).Fail?)
        && (r.Err? ==> r.failure == FillOutcome(gl.oracle).failure)
        && (r.Ok? ==> r.value.shader.program == p && r.value.shader.gl == gl && r.value.shader.className == CLASS_NAME)
        && (r.Ok? && p.None? ==> r.value.viewProjMatrix == r.value.sTexture == None && r.value.rmVertex == r.value.rmTexCoord0 == None)
        && (r.Ok? && p.Some? ==>
            r.value.viewProjMatrix == UniformOf(gl.oracle, VIEW_PROJ_MATRIX)
            && r.value.sTexture == UniformOf(gl.oracle, S_TEXTURE)
            && r.value.rmVertex == Some(AttribOf(gl.oracle, RM_VERTEX))
            && r.value.rmTexCoord0 == Some(AttribOf(gl.oracle, RM_TEXCOORD0)))
      ensures gl.errors == old(gl.errors) && gl.nextHandle == old(gl.nextHandle) + 3
    {
      var d := new DiffuseShader(gl);
      if d.shader.program.Some? {
        var filled := d.FillUniformsAttributes();
        if filled.Fail? {
          return Err(filled.failure);
        }
      }
      return Ok(d);
    }

    /** `fillUniformsAttributes()`: view_proj_matrix, rm_Vertex, rm_TexCoord0, sTexture,
        in that order; a null uniform throws and stops the lookups. */
    method FillUniformsAttributes() returns (r: Outcome)
      requires shader.program.Some?
      modifies this, shader.gl
      ensures r == FillOutcome(shader.gl.oracle)
      ensures shader.gl.trace == old(shader.gl.trace) + FillTrace(shader.gl.oracle, shader.program.value)
      ensures shader.gl.errors == old(shader.gl.errors) && shader.gl.nextHandle == old(shader.gl.nextHandle)
      ensures r.Done? ==>
        viewProjMatrix == UniformOf(shader.gl.oracle, VIEW_PROJ_MATRIX) && sTexture == UniformOf(shader.gl.oracle, S_TEXTURE)
        && rmVertex == Some(AttribOf(shader.gl.oracle, RM_VERTEX)) && rmTexCoord0 == Some(AttribOf(shader.gl.oracle, RM_TEXCOORD0))
    {
      var u := shader.GetUniform(VIEW_PROJ_MATRIX);
      if u.Err? {
        return Fail(u.failure);
      }
      viewProjMatrix := Some(u.value);
      var a := shader.GetAttrib(RM_VERTEX);
      rmVertex := Some(a.value);
      a := shader.GetAttrib(RM_TEXCOORD0);
      rmTexCoord0 := Some(a.value);
      u := shader.GetUniform(S_TEXTURE);
      if u.Err? {
        return Fail(u.failure);
      }
      sTexture := Some(u.value);
      return Done;
    }

    /** The vertexAttribPointer calls for an override map, one per entry in order. */
    static method SetPointers(gl: Context, attribs: seq<(int, AttributeDescriptor)>)
      modifies gl
      ensures gl.trace == old(gl.trace) + PointerCalls(attribs)
      ensures gl.errors == old(gl.errors) && gl.nextHandle == old(gl.nextHandle)
    {
      var i := 0;
      while i < |attribs|
        invariant 0 <= i <= |attribs|
        invariant gl.trace + PointerCalls(attribs[i..]) == old(gl.trace) + PointerCalls(attribs)
        invariant gl.errors == old(gl.errors) && gl.nextHandle == old(gl.nextHandle)
      {
        var (key, d) := attribs[i];
        assert attribs[i..][1..] == attribs[i + 1..];
        gl.Emit(VertexAttribPointer(key, d.size, d.glType, d.normalized, d.stride, d.offset));
        i := i + 1;
      }
    }

    /** `drawModel(renderer, model, t, r, s, attribs)`: nothing at all when a location
        is missing (sTexture is not checked); otherwise buffers, attributes, pointers,
        the MVP matrix, the draw and the error check, in that order. */
    method DrawModel(renderer: BaseRenderer.BaseRenderer, model: FullModel.FullModel,
                     tx: real, ty: real, tz: real, rx: real, ry: real, rz: real, sx: real, sy: real, sz: real,
                     attribs: Option<seq<(int, AttributeDescriptor)>>) returns (r: Outcome)
      requires model.gl == renderer.host
      modifies renderer, renderer.host
      ensures rmVertex.None? || rmTexCoord0.None? || viewProjMatrix.None? ==>
        r == Done && unchanged(renderer) && unchanged(renderer.host)
      ensures rmVertex.Some? && rmTexCoord0.Some? && viewProjMatrix.Some? && renderer.glContext.None? ==>
        r == Fail(Thrown(BaseRenderer.NO_WEBGL_CONTEXT)) && unchanged(renderer) && unchanged(renderer.host)
      ensures rmVertex.Some? && rmTexCoord0.Some? && viewProjMatrix.Some? && renderer.glContext.Some? ==>
        r == Done
        && renderer.mMMatrix == BaseRenderer.ModelMatrix(tx, ty, tz, rx, ry, rz, sx, sy, sz)
        && renderer.mMVPMatrix == Multiply(renderer.mProjMatrix, Multiply(renderer.mVMatrix, renderer.mMMatrix))
        && renderer.host.trace == old(renderer.host.trace)
          + DrawTrace(model.bufferStrides, model.bufferIndices, rmVertex.value, rmTexCoord0.value, attribs,
                      viewProjMatrix.value, renderer.mMVPMatrix, model.numIndices)
          + ErrorDrain(DRAW_OP, old(renderer.host.errors))
        && renderer.host.errors == []
      ensures renderer.host.nextHandle == old(renderer.host.nextHandle)
      ensures renderer.glContext == old(renderer.glContext) && renderer.canvas == old(renderer.canvas)
      ensures renderer.mVMatrix == old(renderer.mVMatrix) && renderer.mProjMatrix == old(renderer.mProjMatrix)
      ensures renderer.matOrtho == old(renderer.matOrtho) && renderer.isWebGL2 == old(renderer.isWebGL2)
      ensures renderer.viewportWidth == old(renderer.viewportWidth) && renderer.viewportHeight == old(renderer.viewportHeight)
    {
      if rmVertex.None? || rmTexCoord0.None? || viewProjMatrix.None? {
        return Done;
      }
      var gl := renderer.Gl();
      if gl.Err? {
        return Fail(gl.failure);
      }
      var host := renderer.host;
      ghost var t0 := host.trace;
      BindAttributes(model, rmVertex.value, rmTexCoord0.value, attribs);
      ghost var t1 := host.trace;
      renderer.CalculateMVPMatrix(tx, ty, tz, rx, ry, rz, sx, sy, sz);
      host.Emit(UniformMatrix4fv(viewProjMatrix.value, false, renderer.GetMVPMatrix()));
      host.Emit(DrawElements(TRIANGLES, model.GetNumIndices() * 3.0, UNSIGNED_SHORT, 0));
      assert host.trace == t1 + [UniformMatrix4fv(viewProjMatrix.value, false, renderer.mMVPMatrix),
                                 DrawElements(TRIANGLES, DrawCount(model.numIndices), UNSIGNED_SHORT, 0)];
      assert host.trace == t0 + DrawTrace(model.bufferStrides, model.bufferIndices, rmVertex.value, rmTexCoord0.value,
                                          attribs, viewProjMatrix.value, renderer.mMVPMatrix, model.numIndices);
      r := renderer.CheckGlError(DRAW_OP);
    }

    /** The model's buffers, the two enables and the pointer calls of `drawModel`. */
    static method BindAttributes(model: FullModel.FullModel, position: int, texCoord: int,
                                 attribs: Option<seq<(int, AttributeDescriptor)>>)
      modifies model.gl
      ensures model.gl.trace == old(model.gl.trace)
        + AttributeTrace(model.bufferStrides, model.bufferIndices, position, texCoord, attribs)
      ensures model.gl.errors == old(model.gl.errors) && model.gl.nextHandle == old(model.gl.nextHandle)
    {
      var host := model.gl;
      ghost var t0 := host.trace;
      model.BindBuffers();
      host.Emit(EnableVertexAttribArray(position));
      host.Emit(EnableVertexAttribArray(texCoord));
      var layout := if attribs.Some? then attribs.value else DefaultLayout(position, texCoord);
      if attribs.Some? {
        SetPointers(host, attribs.value);
      } else {
        host.Emit(VertexAttribPointer(position, 3, FLOAT, false, 4 * (3 + 2), 0));
        host.Emit(VertexAttribPointer(texCoord, 2, FLOAT, false, 4 * (3 + 2), 4 * 3));
        assert PointerCalls(layout[1..]) == [VertexAttribPointer(texCoord, 2, FLOAT, false, 4 * (3 + 2), 4 * 3)];
      }
    }
  }

  /** Entry k of an override map becomes the k-th pointer call, with its key and descriptor. */
  lemma {:induction false} PointerCallsInOrder(attribs: seq<(int, AttributeDescriptor)>, k: nat)
    requires k < |attribs|
    ensures var d := attribs[k].1;
      PointerCalls(attribs)[k] == VertexAttribPointer(attribs[k].0, d.size, d.glType, d.normalized, d.stride, d.offset)
  {
    if k > 0 {
      PointerCallsInOrder(attribs[1..], k - 1);
    }
  }

  /** The default layout is interleaved: texcoord follows the three position floats,
      and the stride covers both attributes. */
  lemma DefaultLayoutInterleaved(position: int, texCoord: int)
    ensures var l := DefaultLayout(position, texCoord);
      var pos := l[0].1; var tex := l[1].1;
      l[0].0 == position && l[1].0 == texCoord
      && pos.offset == 0 && tex.offset == FLOAT_BYTES * pos.size
      && pos.stride == tex.stride == FLOAT_BYTES * (pos.size + tex.size)
      && pos.glType == tex.glType == FLOAT && !pos.normalized && !tex.normalized
  {
  }

  /** Both attributes are enabled before any pointer call, whichever layout is used,
      and the draw is the last call. */
  lemma DrawTraceShape(strides: Option<Handle>, indices: Option<Handle>, position: int, texCoord: int,
                       attribs: Option<seq<(int, AttributeDescriptor)>>, viewProj: Handle, mvp: Mat, numIndices: real)
    ensures var t := DrawTrace(strides, indices, position, texCoord, attribs, viewProj, mvp, numIndices);
      var n := if attribs.Some? then |attribs.value| else 2;
      |t| == 6 + n
      && t[2] == EnableVertexAttribArray(position) && t[3] == EnableVertexAttribArray(texCoord)
      && t[4 + n] == UniformMatrix4fv(viewProj, false, mvp)
      && t[5 + n] == DrawElements(TRIANGLES, DrawCount(numIndices), UNSIGNED_SHORT, 0)
  {
  }

  /** A loaded model is drawn with one index per 16-bit word of its index file. */
  lemma DrawCountIsHalfByteLength(bytes: nat)
    ensures DrawCount(FullModel.IndexCount(bytes)) == bytes as real / 2.0
  {
  }

  /** The lookups happen in the order view_proj_matrix, rm_Vertex, rm_TexCoord0,
      sTexture when the view matrix resolves. */
  lemma FillOrder(o: Oracle, p: Handle)
    requires VIEW_PROJ_MATRIX in o.uniforms
    ensures var t := FillTrace(o, p);
      |t| == 4 && t[0].GetUniformLocation? && t[0].name == VIEW_PROJ_MATRIX
      && t[1].GetAttribLocation? && t[1].name == RM_VERTEX
      && t[2].GetAttribLocation? && t[2].name == RM_TEXCOORD0
      && t[3].GetUniformLocation? && t[3].name == S_TEXTURE
  {
  }

  /** The lookups run only on the kept program, after it was made current. */
  lemma FillAfterUse(o: Oracle, n: Handle)
    requires BaseShader.InitProgram(o, n, VERTEX_CODE, FRAGMENT_CODE).Some?
    ensures var init := BaseShader.InitTrace(o, n, CLASS_NAME, VERTEX_CODE, FRAGMENT_CODE);
      var t := init + FillTrace(o, n + 2);
      t[|init| - 1] == UseProgram(n + 2) && t[|init|] == GetUniformLocation(n + 2, VIEW_PROJ_MATRIX, UniformOf(o, VIEW_PROJ_MATRIX))
  {
    BaseShader.AttachOrder(o, n, CLASS_NAME, VERTEX_CODE, FRAGMENT_CODE);
  }
}
