/** The renderer skeleton: context acquisition on a canvas, the consumer's hooks in a
    fixed order, the per-frame tick, the canvas resize rule and GL error reporting. */
module BaseRenderer {
  import opened Wrappers
  import opened Matrix
  import opened GlConst
  import opened Host

  const NO_WEBGL_CONTEXT := "No WebGL context"
  const NO_CANVAS := "Cannot find canvas element"
  const CANNOT_INIT_WEBGL := "Cannot initialize WebGL context"
  const WEBGL2_FALLBACK := "Could not initialise WebGL 2, falling back to WebGL 1"

  /** A canvas element: its drawing-buffer size, its size on the page and the
      context types it grants. */
  class Canvas {
    var width: int
    var height: int
    var clientWidth: real
    var clientHeight: real
    const contexts: set<GlVersion>

    constructor(width: int, height: int, clientWidth: real, clientHeight: real, contexts: set<GlVersion>)
      ensures this.width == width && this.height == height
      ensures this.clientWidth == clientWidth && this.clientHeight == clientHeight
      ensures this.contexts == contexts
    {
      this.width, this.height := width, height;
      this.clientWidth, this.clientHeight := clientWidth, clientHeight;
      this.contexts := contexts;
    }
  }

  /** The `canvas` field: never assigned, assigned `null` by a failed lookup, or an element. */
  datatype CanvasRef = Undefined | Null | Element(canvas: Canvas)

  /** A context obtained from a canvas. */
  datatype Acquired = Acquired(version: GlVersion, canvas: Canvas)

  function CanvasSet(c: CanvasRef): set<object>
  {
    if c.Element? then {c.canvas} else {}
  }

  /** `window.devicePixelRatio || 1`: a ratio of 0 stands for a missing one. */
  function EffectiveRatio(dpr: real): real
  {
    if dpr == 0.0 then 1.0 else dpr
  }

  /** The drawing-buffer size `resizeCanvas` wants for a page size. */
  function DisplaySize(client: real, dpr: real): int
  {
    (client * EffectiveRatio(dpr)).Floor
  }

  /** What `getContext` answers for the context types asked, in order, and the
      context `init` ends up with. */
  function ContextTrace(requestWebGL2: bool, granted: set<GlVersion>): seq<Event>
  {
    if requestWebGL2 && WebGL2 in granted then [GetContext(WebGL2, true)]
    else
      (if requestWebGL2 then [GetContext(WebGL2, false), Console(Warn, Text(WEBGL2_FALLBACK))] else [])
      + [GetContext(WebGL1, WebGL1 in granted)]
  }

  function ContextChoice(requestWebGL2: bool, granted: set<GlVersion>): Option<GlVersion>
  {
    if requestWebGL2 && WebGL2 in granted then Some(WebGL2)
    else if WebGL1 in granted then Some(WebGL1)
    else None
  }

  /** `drawScene()` on a drawing buffer of `width` x `height`. */
  function DrawSceneTrace(width: int, height: int): seq<Event>
  {
    [Viewport(0, 0, width, height), ClearColor(0.0, 0.0, 0.0, 1.0), Clear(COLOR_AND_DEPTH_BUFFER_BITS)]
  }

  /** One `tick()`: schedule the next frame, resize, draw, animate. */
  function TickTrace(width: int, height: int): seq<Event>
  {
    [RequestAnimationFrame] + DrawSceneTrace(width, height) + [Hook(Animate)]
  }

  /** Everything `init` does once its canvas is found; `width` x `height` is the
      size `resizeCanvas` gives the canvas. */
  function InitTrace(requestWebGL2: bool, granted: set<GlVersion>, width: int, height: int): seq<Event>
  {
    [Hook(OnBeforeInit)] + ContextTrace(requestWebGL2, granted)
    + if ContextChoice(requestWebGL2, granted).None? then []
      else [Hook(OnAfterInit), Hook(InitShaders), Hook(LoadData)] + TickTrace(width, height)
  }

  /** The model matrix `calculateMVPMatrix` builds, transform by transform. */
  function ModelMatrix(tx: real, ty: real, tz: real, rx: real, ry: real, rz: real, sx: real, sy: real, sz: real): Mat
  {
    RotateZ(RotateY(RotateX(Scale(Translate(Rotate(Identity, 0.0, Vec3(1.0, 0.0, 0.0)),
      Vec3(tx, ty, tz)), Vec3(sx, sy, sz)), rx), ry), rz)
  }

  class BaseRenderer {
    /** The WebGL context the page provides; `glContext` says whether it was obtained. */
    const host: Context
    var mMMatrix: Mat
    var mVMatrix: Mat
    var mMVPMatrix: Mat
    var mProjMatrix: Mat
    var matOrtho: Mat
    /** `m_gl` */
    var glContext: Option<Acquired>
    var isWebGL2: bool
    var viewportWidth: int
    var viewportHeight: int
    var canvas: CanvasRef

    constructor(host: Context)
      ensures this.host == host && glContext == None && !isWebGL2 && canvas == Undefined
      ensures viewportWidth == 0 && viewportHeight == 0
      ensures mMMatrix == mVMatrix == mMVPMatrix == mProjMatrix == matOrtho == Identity
    {
      this.host := host;
      mMMatrix, mVMatrix, mMVPMatrix, mProjMatrix, matOrtho := Identity, Identity, Identity, Identity, Identity;
      glContext := None;
      isWebGL2 := false;
      viewportWidth, viewportHeight := 0, 0;
      canvas := Undefined;
    }

    /** The `gl` getter: throws until a context has been stored. */
    function Gl(): (r: Result<Acquired>)
      reads this
      ensures r.Ok? <==> glContext.Some?
      ensures r.Ok? ==> r.value == glContext.value
      ensures r.Err? ==> r.failure == Thrown(NO_WEBGL_CONTEXT)
    {
      if glContext.None? then Err(Thrown(NO_WEBGL_CONTEXT)) else Ok(glContext.value)
    }

    function GetMVPMatrix(): (m: Mat)
      reads this
      ensures m == mMVPMatrix
    {
      mMVPMatrix
    }

    function GetOrthoMatrix(): (m: Mat)
      reads this
      ensures m == matOrtho
    {
      matOrtho
    }

    function GetModelMatrix(): (m: Mat)
      reads this
      ensures m == mMMatrix
    {
      mMMatrix
    }

    function GetViewMatrix(): (m: Mat)
      reads this
      ensures m == mVMatrix
    {
      mVMatrix
    }

    /** `logGLError()`: reads at most one error and warns about it. */
    method LogGLError() returns (r: Outcome)
      modifies host
      ensures glContext.None? ==> r == Fail(Thrown(NO_WEBGL_CONTEXT)) && unchanged(host)
      ensures glContext.Some? && old(host.errors) == [] ==>
        r == Done && host.errors == [] && host.trace == old(host.trace) + [GetError(NO_ERROR)]
      ensures glContext.Some? && old(host.errors) != [] ==>
        r == Done && host.errors == old(host.errors)[1..]
        && host.trace == old(host.trace) + [GetError(old(host.errors)[0]), Console(Warn, GlErrorNumber(old(host.errors)[0]))]
      ensures host.nextHandle == old(host.nextHandle)
    {
      if glContext.None? {
        return Fail(Thrown(NO_WEBGL_CONTEXT));
      }
      var err := host.NextError();
      if err != NO_ERROR {
        host.Emit(Console(Warn, GlErrorNumber(err)));
      }
      return Done;
    }

    /** `setTexture2D(unit, texture, uniform)` */
    method SetTexture2D(textureUnit: int, texture: Handle, uniform: Handle) returns (r: Outcome)
      modifies host
      ensures glContext.None? ==> r == Fail(Thrown(NO_WEBGL_CONTEXT)) && unchanged(host)
      ensures glContext.Some? ==>
        r == Done && host.trace == old(host.trace)
        + [ActiveTexture(TEXTURE0 + textureUnit), BindTexture(TEXTURE_2D, Some(texture)), Uniform1i(uniform, textureUnit)]
      ensures host.errors == old(host.errors) && host.nextHandle == old(host.nextHandle)
    {
      if glContext.None? {
        return Fail(Thrown(NO_WEBGL_CONTEXT));
      }
      host.Emit(ActiveTexture(TEXTURE0 + textureUnit));
      host.Emit(BindTexture(TEXTURE_2D, Some(texture)));
      host.Emit(Uniform1i(uniform, textureUnit));
      return Done;
    }

    /** `setTextureCubemap(unit, texture, uniform)` */
    method SetTextureCubemap(textureUnit: int, texture: Handle, uniform: Handle) returns (r: Outcome)
      modifies host
      ensures glContext.None? ==> r == Fail(Thrown(NO_WEBGL_CONTEXT)) && unchanged(host)
      ensures glContext.Some? ==>
        r == Done && host.trace == old(host.trace)
        + [ActiveTexture(TEXTURE0 + textureUnit), BindTexture(TEXTURE_CUBE_MAP, Some(texture)), Uniform1i(uniform, textureUnit)]
      ensures host.errors == old(host.errors) && host.nextHandle == old(host.nextHandle)
    {
      if glContext.None? {
        return Fail(Thrown(NO_WEBGL_CONTEXT));
      }
      host.Emit(ActiveTexture(TEXTURE0 + textureUnit));
      host.Emit(BindTexture(TEXTURE_CUBE_MAP, Some(texture)));
      host.Emit(Uniform1i(uniform, textureUnit));
      return Done;
    }

    /** `calculateMVPMatrix(...)`: the model matrix, then projection * (view * model). */
    method CalculateMVPMatrix(tx: real, ty: real, tz: real, rx: real, ry: real, rz: real, sx: real, sy: real, sz: real)
      modifies this
      ensures mMMatrix == ModelMatrix(tx, ty, tz, rx, ry, rz, sx, sy, sz)
      ensures mMVPMatrix == Multiply(mProjMatrix, Multiply(mVMatrix, mMMatrix))
      ensures mVMatrix == old(mVMatrix) && mProjMatrix == old(mProjMatrix) && matOrtho == old(matOrtho)
      ensures glContext == old(glContext) && isWebGL2 == old(isWebGL2) && canvas == old(canvas)
      ensures viewportWidth == old(viewportWidth) && viewportHeight == old(viewportHeight)
    {
      var m := Identity;
      m := Rotate(m, 0.0, Vec3(1.0, 0.0, 0.0));
      m := Translate(m, Vec3(tx, ty, tz));
      m := Scale(m, Vec3(sx, sy, sz));
      m := RotateX(m, rx);
      m := RotateY(m, ry);
      m := RotateZ(m, rz);
      mMMatrix := m;
      mMVPMatrix := Multiply(mVMatrix, mMMatrix);
      mMVPMatrix := Multiply(mProjMatrix, mMVPMatrix);
    }

    /** `drawScene()`: viewport over the context's canvas, clear to opaque black. */
    method DrawScene() returns (r: Outcome)
      modifies host
      ensures glContext.None? ==> r == Fail(Thrown(NO_WEBGL_CONTEXT)) && unchanged(host)
      ensures glContext.Some? ==>
        r == Done
        && host.trace == old(host.trace) + DrawSceneTrace(glContext.value.canvas.width, glContext.value.canvas.height)
      ensures host.errors == old(host.errors) && host.nextHandle == old(host.nextHandle)
    {
      if glContext.None? {
        return Fail(Thrown(NO_WEBGL_CONTEXT));
      }
      var c := glContext.value.canvas;
      host.Emit(Viewport(0, 0, c.width, c.height));
      host.Emit(ClearColor(0.0, 0.0, 0.0, 1.0));
      host.Emit(Clear(COLOR_AND_DEPTH_BUFFER_BITS));
      return Done;
    }

    /** `resizeCanvas()`: nothing without a canvas; otherwise the drawing buffer takes
        the page size times the pixel ratio, written only when it differs. The guard
        tests for `undefined` only, so the `null` a failed lookup leaves throws. */
    method ResizeCanvas(dpr: real) returns (r: Outcome)
      modifies CanvasSet(canvas)
      ensures canvas.Undefined? ==> r == Done
      ensures canvas.Null? ==> r == Fail(TypeError)
      ensures canvas.Element? ==>
        r == Done
        && canvas.canvas.width == DisplaySize(canvas.canvas.clientWidth, dpr)
        && canvas.canvas.height == DisplaySize(canvas.canvas.clientHeight, dpr)
      ensures canvas.Element? && old(canvas.canvas.width) == DisplaySize(canvas.canvas.clientWidth, dpr)
              && old(canvas.canvas.height) == DisplaySize(canvas.canvas.clientHeight, dpr)
        ==> unchanged(canvas.canvas)
      ensures canvas.Element? ==>
        canvas.canvas.clientWidth == old(canvas.canvas.clientWidth) && canvas.canvas.clientHeight == old(canvas.canvas.clientHeight)
    {
      match canvas {
        case Undefined => return Done;
        case Null => return Fail(TypeError);
        case Element(c) =>
          var cssToRealPixels := EffectiveRatio(dpr);
          var displayWidth := (c.clientWidth * cssToRealPixels).Floor;
          var displayHeight := (c.clientHeight * cssToRealPixels).Floor;
          if c.width != displayWidth || c.height != displayHeight {
            c.width := displayWidth;
            c.height := displayHeight;
          }
          return Done;
      }
    }

    /** `checkGlError(op)`: one console line per pending error, until the queue is empty. */
    method CheckGlError(op: string) returns (r: Outcome)
      modifies host
      ensures glContext.None? ==> r == Fail(Thrown(NO_WEBGL_CONTEXT)) && unchanged(host)
      ensures glContext.Some? ==>
        r == Done && host.trace == old(host.trace) + ErrorDrain(op, old(host.errors)) && host.errors == []
      ensures host.nextHandle == old(host.nextHandle)
    {
      if glContext.None? {
        return Fail(Thrown(NO_WEBGL_CONTEXT));
      }
      host.DrainErrors(op);
      return Done;
    }

    /** `unbindBuffers()` */
    method UnbindBuffers() returns (r: Outcome)
      modifies host
      ensures glContext.None? ==> r == Fail(Thrown(NO_WEBGL_CONTEXT)) && unchanged(host)
      ensures glContext.Some? ==>
        r == Done && host.trace == old(host.trace) + [BindBuffer(ARRAY_BUFFER, None), BindBuffer(ELEMENT_ARRAY_BUFFER, None)]
      ensures host.errors == old(host.errors) && host.nextHandle == old(host.nextHandle)
    {
      if glContext.None? {
        return Fail(Thrown(NO_WEBGL_CONTEXT));
      }
      host.Emit(BindBuffer(ARRAY_BUFFER, None));
      host.Emit(BindBuffer(ELEMENT_ARRAY_BUFFER, None));
      return Done;
    }

    /** `tick()`: the next frame is requested first, then resize, draw and `animate`. */
    method Tick(dpr: real) returns (r: Outcome)
      requires canvas.Element? && glContext.Some? && glContext.value.canvas == canvas.canvas
      modifies host, CanvasSet(canvas)
      ensures r == Done
      ensures canvas.canvas.width == DisplaySize(canvas.canvas.clientWidth, dpr)
      ensures canvas.canvas.height == DisplaySize(canvas.canvas.clientHeight, dpr)
      ensures host.trace == old(host.trace) + TickTrace(canvas.canvas.width, canvas.canvas.height)
      ensures host.errors == old(host.errors) && host.nextHandle == old(host.nextHandle)
    {
      host.Emit(RequestAnimationFrame);
      var resized := ResizeCanvas(dpr);
      var drawn := DrawScene();
      host.Emit(Hook(Animate));
      return Done;
    }

    /** `initGL(canvas)`: asks for "webgl"; throws when the canvas refuses. Its result
        type admits the null context `init` tests for, which is never returned. */
    method InitGL(c: Canvas) returns (r: Result<Option<Acquired>>)
      modifies host
      ensures WebGL1 in c.contexts <==> r.Ok?
      ensures r.Ok? ==> r.value == Some(Acquired(WebGL1, c))
      ensures r.Err? ==> r.failure == Thrown(CANNOT_INIT_WEBGL)
      ensures host.trace == old(host.trace) + [GetContext(WebGL1, WebGL1 in c.contexts)]
      ensures host.errors == old(host.errors) && host.nextHandle == old(host.nextHandle)
    {
      var granted := WebGL1 in c.contexts;
      host.Emit(GetContext(WebGL1, granted));
      if !granted {
        return Err(Thrown(CANNOT_INIT_WEBGL));
      }
      return Ok(Some(Acquired(WebGL1, c)));
    }

    /** `initGL2(canvas)`: asks for "webgl2", and falls back to `initGL` with a warning. */
    method InitGL2(c: Canvas) returns (r: Result<Option<Acquired>>)
      modifies host
      ensures r == (match ContextChoice(true, c.contexts)
                    case Some(v) => Ok(Some(Acquired(v, c)))
                    case None => Err(Thrown(CANNOT_INIT_WEBGL)))
      ensures host.trace == old(host.trace) + ContextTrace(true, c.contexts)
      ensures host.errors == old(host.errors) && host.nextHandle == old(host.nextHandle)
    {
      var granted := WebGL2 in c.contexts;
      host.Emit(GetContext(WebGL2, granted));
      if !granted {
        host.Emit(Console(Warn, Text(WEBGL2_FALLBACK)));
        r := InitGL(c);
        return;
      }
      return Ok(Some(Acquired(WebGL2, c)));
    }

    /** `init(canvasID, requestWebGL2)`, with the element the id lookup finds
        (`Null` when there is none) and the page's pixel ratio. */
    method Init(found: CanvasRef, dpr: real, requestWebGL2: bool := false) returns (r: Outcome)
      requires !found.Undefined?
      modifies this, host, CanvasSet(found)
      ensures canvas == found
      ensures found.Null? ==>
        r == Fail(Thrown(NO_CANVAS)) && host.trace == old(host.trace) + [Hook(OnBeforeInit)]
        && glContext == old(glContext) && viewportWidth == old(viewportWidth) && viewportHeight == old(viewportHeight)
      ensures found.Element? ==>
        viewportWidth == old(found.canvas.width) && viewportHeight == old(found.canvas.height)
        && (r.Done? <==> ContextChoice(requestWebGL2, found.canvas.contexts).Some?)
      ensures found.Element? && r.Fail? ==>
        r == Fail(Thrown(CANNOT_INIT_WEBGL)) && glContext == old(glContext) && unchanged(found.canvas)
        && host.trace == old(host.trace) + InitTrace(requestWebGL2, found.canvas.contexts, 0, 0)
      ensures found.Element? && r.Done? ==>
        glContext == Some(Acquired(ContextChoice(requestWebGL2, found.canvas.contexts).value, found.canvas))
        && found.canvas.width == DisplaySize(found.canvas.clientWidth, dpr)
        && found.canvas.height == DisplaySize(found.canvas.clientHeight, dpr)
        && host.trace == old(host.trace) + InitTrace(requestWebGL2, found.canvas.contexts, found.canvas.width, found.canvas.height)
      ensures host.errors == old(host.errors) && host.nextHandle == old(host.nextHandle)
      ensures isWebGL2 == old(isWebGL2)
      ensures mMMatrix == old(mMMatrix) && mVMatrix == old(mVMatrix) && mProjMatrix == old(mProjMatrix)
      ensures mMVPMatrix == old(mMVPMatrix) && matOrtho == old(matOrtho)
    {
      host.Emit(Hook(OnBeforeInit));
      canvas := found;
      if canvas.Null? {
        return Fail(Thrown(NO_CANVAS));
      }
      var c := canvas.canvas;
      viewportWidth := c.width;
      viewportHeight := c.height;
      var acquired;
      if requestWebGL2 {
        acquired := InitGL2(c);
      } else {
        acquired := InitGL(c);
      }
      ghost var prefix := old(host.trace) + [Hook(OnBeforeInit)] + ContextTrace(requestWebGL2, c.contexts);
      assert host.trace == prefix;
      if acquired.Err? {
        assert ContextChoice(requestWebGL2, c.contexts).None?;
        assert InitTrace(requestWebGL2, c.contexts, 0, 0) == [Hook(OnBeforeInit)] + ContextTrace(requestWebGL2, c.contexts) + [];
        return Fail(acquired.failure);
      }
      assert acquired.value == Some(Acquired(ContextChoice(requestWebGL2, c.contexts).value, c));
      glContext := acquired.value;
      r := Proceed(dpr);
    }

    /** The test `init` makes of the context it stored: start with one, `onInitError`
        without. */
    method Proceed(dpr: real) returns (r: Outcome)
      requires canvas.Element? && (glContext.Some? ==> glContext.value.canvas == canvas.canvas)
      modifies host, CanvasSet(canvas)
      ensures r == Done
      ensures glContext.None? ==>
        host.trace == old(host.trace) + [Hook(OnInitError)] && unchanged(canvas.canvas)
      ensures glContext.Some? ==>
        && canvas.canvas.width == DisplaySize(canvas.canvas.clientWidth, dpr)
        && canvas.canvas.height == DisplaySize(canvas.canvas.clientHeight, dpr)
        && host.trace == old(host.trace) + [Hook(OnAfterInit), Hook(InitShaders), Hook(LoadData)]
          + TickTrace(canvas.canvas.width, canvas.canvas.height)
      ensures host.errors == old(host.errors) && host.nextHandle == old(host.nextHandle)
    {
      if glContext.Some? {
        r := Start(dpr);
      } else {
        host.Emit(Hook(OnInitError));
        r := Done;
      }
    }

    /** The part of `init` after a context was stored: resize, the three hooks, the first tick. */
    method Start(dpr: real) returns (r: Outcome)
      requires canvas.Element? && glContext.Some? && glContext.value.canvas == canvas.canvas
      modifies host, CanvasSet(canvas)
      ensures r == Done
      ensures canvas.canvas.width == DisplaySize(canvas.canvas.clientWidth, dpr)
      ensures canvas.canvas.height == DisplaySize(canvas.canvas.clientHeight, dpr)
      ensures host.trace == old(host.trace) + [Hook(OnAfterInit), Hook(InitShaders), Hook(LoadData)]
        + TickTrace(canvas.canvas.width, canvas.canvas.height)
      ensures host.errors == old(host.errors) && host.nextHandle == old(host.nextHandle)
    {
      var resized := ResizeCanvas(dpr);
      host.Emit(Hook(OnAfterInit));
      host.Emit(Hook(InitShaders));
      host.Emit(Hook(LoadData));
      r := Tick(dpr);
    }
  }

  /** With `requestWebGL2` false only "webgl" is asked for; with true, "webgl2" first
      and "webgl" only when "webgl2" was refused. */
  lemma ContextRequests(requestWebGL2: bool, granted: set<GlVersion>)
    ensures !requestWebGL2 ==> ContextTrace(requestWebGL2, granted) == [GetContext(WebGL1, WebGL1 in granted)]
    ensures requestWebGL2 ==> ContextTrace(requestWebGL2, granted)[0] == GetContext(WebGL2, WebGL2 in granted)
    ensures GetContext(WebGL1, WebGL1 in granted) in ContextTrace(requestWebGL2, granted)
      <==> !(requestWebGL2 && WebGL2 in granted)
  {
  }

  /** A context is obtained exactly when one of the types asked for is granted, and it
      is WebGL 2 only when asked for. */
  lemma ContextObtained(requestWebGL2: bool, granted: set<GlVersion>)
    ensures ContextChoice(requestWebGL2, granted).Some? <==> WebGL1 in granted || (requestWebGL2 && WebGL2 in granted)
    ensures ContextChoice(requestWebGL2, granted) == Some(WebGL2) ==> requestWebGL2
  {
  }

  /** `onInitError` never runs: `initGL` and `initGL2` throw rather than return a null
      context, so the test `init` makes of the stored context always passes. */
  lemma InitErrorUnreachable(requestWebGL2: bool, granted: set<GlVersion>, width: int, height: int)
    ensures Hook(OnInitError) !in InitTrace(requestWebGL2, granted, width, height)
  {
  }

  /** When `init` returns normally the hooks ran in the order onBeforeInit, onAfterInit,
      initShaders, loadData, animate, with the first frame drawn before animate. */
  lemma HookOrder(requestWebGL2: bool, granted: set<GlVersion>, width: int, height: int)
    requires ContextChoice(requestWebGL2, granted).Some?
    ensures var t := InitTrace(requestWebGL2, granted, width, height);
      var k := 1 + |ContextTrace(requestWebGL2, granted)|;
      |t| == k + 8 && t[0] == Hook(OnBeforeInit)
      && t[k] == Hook(OnAfterInit) && t[k + 1] == Hook(InitShaders) && t[k + 2] == Hook(LoadData)
      && t[k + 3] == RequestAnimationFrame && t[k + 4] == Viewport(0, 0, width, height)
      && t[k + 7] == Hook(Animate)
  {
  }

  /** A missing pixel ratio counts as 1, so the drawing buffer takes the page size. */
  lemma DefaultRatio(client: real)
    ensures DisplaySize(client, 0.0) == DisplaySize(client, 1.0) == client.Floor
  {
  }

  /** The drawing-buffer size is within one pixel below the scaled page size. */
  lemma DisplaySizeBounds(client: real, dpr: real)
    ensures DisplaySize(client, dpr) as real <= client * EffectiveRatio(dpr) < DisplaySize(client, dpr) as real + 1.0
  {
  }
}
