/** The browser as the core sees it: one WebGL context, together with the console,
    `fetch`, the image decoder, `requestAnimationFrame` and the consumer's hooks.
    The model records every action in one trace, in order, and answers every query
    from an oracle fixed when the context is made. */
module Host {
  import opened Wrappers
  import opened Matrix
  import opened GlConst

  newtype byte = x: int | 0 <= x < 256

  /** A WebGL object (shader, program, texture, buffer, ...) or uniform location. */
  type Handle = nat

  /** A pending GL error: any code other than NO_ERROR. */
  type ErrorCode = c: nat | c != NO_ERROR witness 0x0500

  datatype Stage = Vertex | Fragment

  datatype ObjectKind =
    | ShaderObject(stage: Stage)
    | ProgramObject
    | TextureObject
    | BufferObject
    | FramebufferObject
    | RenderbufferObject

  /** The two context types a canvas is asked for: "webgl" and "webgl2". */
  datatype GlVersion = WebGL1 | WebGL2

  /** The hooks a concrete renderer supplies. */
  datatype HookName = OnBeforeInit | OnAfterInit | OnInitError | InitShaders | LoadData | Animate

  /** console.log, console.warn, console.error */
  datatype Level = Log | Warn | Error

  /** What a console line says. */
  datatype Msg =
    | Text(text: string)
    | ShaderInfoLog(shader: Handle)                // the info log of a shader
    | ShaderStatus(className: string, linked: bool) // "<class>: Initialised shader" or "...: Could not initialise shader"
    | GlErrorLine(op: string, code: nat)           // "<op>: glError <code>"
    | GlErrorNumber(code: nat)                     // "WebGL error # + <code>"
    | FramebufferError(status: nat)                // "Error creating framebufer: <status>"
    | LoadedTexture(url: string, width: int, height: int)
    | LoadedImage(url: string)
    | LoadedBytes(url: string, count: nat)

  datatype Event =
    // calls on the WebGL context; a query records what the context answered
    | Create(kind: ObjectKind, result: Option<Handle>)
    | ShaderSource(shader: Handle, code: string)
    | CompileShader(shader: Handle)
    | GetCompileStatus(shader: Handle, ok: bool)
    | GetShaderInfoLog(shader: Handle)
    | AttachShader(program: Handle, shader: Handle)
    | LinkProgram(program: Handle)
    | GetLinkStatus(program: Handle, ok: bool)
    | UseProgram(program: Handle)
    | DeleteProgram(program: Handle)
    | GetUniformLocation(program: Handle, name: string, location: Option<Handle>)
    | GetAttribLocation(program: Handle, name: string, index: int)
    | GetError(error: nat)
    | GetVersion(version: Option<string>)
    | ActiveTexture(textureUnit: int)
    | BindTexture(target: nat, texture: Option<Handle>)
    | TexParameteri(target: nat, pname: nat, param: nat)
    | TexParameterf(target: nat, pname: nat, param: nat)
    | TexImage2DFromImage(target: nat, level: int, internalFormat: nat, format: nat, glType: nat, image: string)
    | TexImage2DEmpty(target: nat, level: int, internalFormat: nat, width: int, height: int, border: int, format: nat, glType: nat)
    | CompressedTexImage2D(target: nat, level: int, internalFormat: nat, width: int, height: int, border: int, data: seq<byte>)
    | Uniform1i(uniform: Handle, unit: int)
    | UniformMatrix4fv(uniform: Handle, transpose: bool, matrix: Mat)
    | BindBuffer(target: nat, buffer: Option<Handle>)
    | BufferData(target: nat, data: seq<byte>, usage: nat)
    | EnableVertexAttribArray(index: int)
    | VertexAttribPointer(index: int, size: int, glType: nat, normalized: bool, stride: int, offset: int)
    | DrawElements(mode: nat, count: real, glType: nat, offset: int)
    | BindFramebuffer(target: nat, framebuffer: Option<Handle>)
    | FramebufferTexture2D(target: nat, attachment: nat, texTarget: nat, texture: Option<Handle>, level: int)
    | BindRenderbuffer(target: nat, renderbuffer: Option<Handle>)
    | RenderbufferStorage(target: nat, internalFormat: nat, width: int, height: int)
    | FramebufferRenderbuffer(target: nat, attachment: nat, rbTarget: nat, renderbuffer: Option<Handle>)
    | CheckFramebufferStatus(target: nat, status: nat)
    | Viewport(x: int, y: int, width: int, height: int)
    | ClearColor(r: real, g: real, b: real, a: real)
    | Clear(mask: nat)
    // the page around the context
    | GetContext(contextType: GlVersion, granted: bool)
    | RequestAnimationFrame
    | Hook(hook: HookName)
    | Fetch(url: string)
    | RequestImage(url: string)
    | Console(severity: Level, msg: Msg)

  /** The answers the context, the network and the image decoder give. */
  datatype Oracle = Oracle(
    nullCreates: set<ObjectKind>,   // create* calls of these kinds return null
    rejectedSources: set<string>,   // shader sources whose COMPILE_STATUS is false
    linkOk: bool,                   // LINK_STATUS of a linked program
    uniforms: map<string, Handle>,  // active uniforms; any other name has location null
    attribs: map<string, int>,      // active attributes; any other name has location -1
    version: Option<string>,        // getParameter(VERSION); None stands for null
    framebufferStatus: nat,         // checkFramebufferStatus(FRAMEBUFFER)
    files: map<string, seq<byte>>,  // what fetch returns; fetching any other URL rejects
    images: set<string>)            // image URLs that load; any other fires onerror

  /** The lines `checkGlError(op)` produces from the pending errors `errs`:
      one query and one console line per error, then the query that answers NO_ERROR. */
  function ErrorDrain(op: string, errs: seq<ErrorCode>): (t: seq<Event>)
    ensures |t| == 2 * |errs| + 1 && t[|t| - 1] == GetError(NO_ERROR)
  {
    if errs == [] then [GetError(NO_ERROR)]
    else [GetError(errs[0]), Console(Error, GlErrorLine(op, errs[0]))] + ErrorDrain(op, errs[1..])
  }

  /** The k-th error of `errs` is reported by the console line at 2k+1 of the drain. */
  lemma {:induction false} ErrorDrainReportsInOrder(op: string, errs: seq<ErrorCode>, k: nat)
    requires k < |errs|
    ensures ErrorDrain(op, errs)[2 * k] == GetError(errs[k])
    ensures ErrorDrain(op, errs)[2 * k + 1] == Console(Error, GlErrorLine(op, errs[k]))
  {
    if k > 0 {
      ErrorDrainReportsInOrder(op, errs[1..], k - 1);
    }
  }

  /** Regrouping of trace pieces. */
  lemma AppendAssociates3(a: seq<Event>, b: seq<Event>, c: seq<Event>)
    ensures a + b + c == a + (b + c)
  {
  }

  lemma AppendAssociates(a: seq<Event>, b: seq<Event>, c: seq<Event>, d: seq<Event>)
    ensures a + b + c + d == a + (b + c + d)
  {
  }

  class Context {
    const oracle: Oracle
    /** Everything done so far, oldest first. */
    var trace: seq<Event>
    /** The GL errors waiting to be read by getError, oldest first. */
    var errors: seq<ErrorCode>
    /** The id the next create* call allocates (a null result still uses one up). */
    var nextHandle: Handle

    constructor(oracle: Oracle, pending: seq<ErrorCode>)
      ensures this.oracle == oracle && trace == [] && errors == pending && nextHandle == 0
    {
      this.oracle := oracle;
      trace := [];
      errors := pending;
      nextHandle := 0;
    }

    /** What the next create* call of this kind returns. */
    function Next(kind: ObjectKind): Option<Handle>
      reads this
    {
      if kind in oracle.nullCreates then None else Some(nextHandle)
    }

    /** Records a call that returns nothing. */
    method Emit(e: Event)
      modifies this
      ensures trace == old(trace) + [e]
      ensures errors == old(errors) && nextHandle == old(nextHandle)
    {
      trace := trace + [e];
    }

    /** createShader, createProgram, createTexture, createBuffer, ... */
    method CreateObject(kind: ObjectKind) returns (h: Option<Handle>)
      modifies this
      ensures h == old(Next(kind))
      ensures trace == old(trace) + [Create(kind, h)]
      ensures errors == old(errors) && nextHandle == old(nextHandle) + 1
    {
      h := Next(kind);
      nextHandle := nextHandle + 1;
      trace := trace + [Create(kind, h)];
    }

    /** getShaderParameter(shader, COMPILE_STATUS) for a shader given `code`. */
    method CompileStatus(shader: Handle, code: string) returns (ok: bool)
      modifies this
      ensures ok <==> code !in oracle.rejectedSources
      ensures trace == old(trace) + [GetCompileStatus(shader, ok)]
      ensures errors == old(errors) && nextHandle == old(nextHandle)
    {
      ok := code !in oracle.rejectedSources;
      trace := trace + [GetCompileStatus(shader, ok)];
    }

    /** getProgramParameter(program, LINK_STATUS) */
    method LinkStatus(program: Handle) returns (ok: bool)
      modifies this
      ensures ok == oracle.linkOk
      ensures trace == old(trace) + [GetLinkStatus(program, ok)]
      ensures errors == old(errors) && nextHandle == old(nextHandle)
    {
      ok := oracle.linkOk;
      trace := trace + [GetLinkStatus(program, ok)];
    }

    /** getUniformLocation: null for a name that is not an active uniform. */
    method UniformLocation(program: Handle, name: string) returns (loc: Option<Handle>)
      modifies this
      ensures loc == if name in oracle.uniforms then Some(oracle.uniforms[name]) else None
      ensures trace == old(trace) + [GetUniformLocation(program, name, loc)]
      ensures errors == old(errors) && nextHandle == old(nextHandle)
    {
      loc := if name in oracle.uniforms then Some(oracle.uniforms[name]) else None;
      trace := trace + [GetUniformLocation(program, name, loc)];
    }

    /** getAttribLocation: -1 for a name that is not an active attribute. */
    method AttribLocation(program: Handle, name: string) returns (index: int)
      modifies this
      ensures index == if name in oracle.attribs then oracle.attribs[name] else -1
      ensures trace == old(trace) + [GetAttribLocation(program, name, index)]
      ensures errors == old(errors) && nextHandle == old(nextHandle)
    {
      index := if name in oracle.attribs then oracle.attribs[name] else -1;
      trace := trace + [GetAttribLocation(program, name, index)];
    }

    /** getError: takes the oldest pending error, or answers NO_ERROR. */
    method NextError() returns (code: nat)
      modifies this
      ensures old(errors) == [] ==> code == NO_ERROR && errors == []
      ensures old(errors) != [] ==> code == old(errors)[0] && errors == old(errors)[1..]
      ensures trace == old(trace) + [GetError(code)] && nextHandle == old(nextHandle)
    {
      if errors == [] {
        code := NO_ERROR;
      } else {
        code := errors[0];
        errors := errors[1..];
      }
      trace := trace + [GetError(code)];
    }

    /** The loop of `checkGlError(op)`: read errors until NO_ERROR, logging each. */
    method DrainErrors(op: string)
      modifies this
      ensures trace == old(trace) + ErrorDrain(op, old(errors))
      ensures errors == [] && nextHandle == old(nextHandle)
    {
      while true
        invariant trace + ErrorDrain(op, errors) == old(trace) + ErrorDrain(op, old(errors))
        invariant nextHandle == old(nextHandle)
        decreases |errors|
      {
        ghost var before := errors;
        var code := NextError();
        if code == NO_ERROR {
          break;
        }
        assert ErrorDrain(op, before) == [GetError(code), Console(Error, GlErrorLine(op, code))] + ErrorDrain(op, errors);
        Emit(Console(Error, GlErrorLine(op, code)));
      }
    }

    /** getParameter(VERSION) */
    method Version() returns (v: Option<string>)
      modifies this
      ensures v == oracle.version
      ensures trace == old(trace) + [GetVersion(v)]
      ensures errors == old(errors) && nextHandle == old(nextHandle)
    {
      v := oracle.version;
      trace := trace + [GetVersion(v)];
    }

    /** checkFramebufferStatus(FRAMEBUFFER) */
    method FramebufferStatus() returns (status: nat)
      modifies this
      ensures status == oracle.framebufferStatus
      ensures trace == old(trace) + [CheckFramebufferStatus(FRAMEBUFFER, status)]
      ensures errors == old(errors) && nextHandle == old(nextHandle)
    {
      status := oracle.framebufferStatus;
      trace := trace + [CheckFramebufferStatus(FRAMEBUFFER, status)];
    }

    /** `fetch(url)` followed by `arrayBuffer()`: None when the fetch rejects. */
    method FetchFile(url: string) returns (data: Option<seq<byte>>)
      modifies this
      ensures data == if url in oracle.files then Some(oracle.files[url]) else None
      ensures trace == old(trace) + [Fetch(url)]
      ensures errors == old(errors) && nextHandle == old(nextHandle)
    {
      data := if url in oracle.files then Some(oracle.files[url]) else None;
      trace := trace + [Fetch(url)];
    }
  }
}
