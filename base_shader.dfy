/** The life of a shader program: both stages are compiled (fragment first), a program
    is created, the stages are attached and linked, and the program is made current
    and kept, all once, at construction. Lookups need the program to exist. */
module BaseShader {
  import opened Wrappers
  import opened GlConst
  import opened Host

  const CREATE_SHADER_ERROR := "Error creating shader."
  const NO_PROGRAM := "No program for shader."

  /** The message `getUniform` throws for a name with a null location. */
  function UniformMissing(name: string): string
  {
    "Cannot get uniform \"" + name + "\"."
  }

  /** Whether `getShader` returns a shader for this stage and code. */
  predicate StageOk(o: Oracle, stage: Stage, code: string)
  {
    ShaderObject(stage) !in o.nullCreates && code !in o.rejectedSources
  }

  /** The calls and console lines of `getShader(stage, code)` when the next handle is `h`. */
  function ShaderTrace(o: Oracle, stage: Stage, h: Handle, code: string): seq<Event>
  {
    if ShaderObject(stage) in o.nullCreates then
      [Create(ShaderObject(stage), None), Console(Warn, Text(CREATE_SHADER_ERROR))]
    else
      [Create(ShaderObject(stage), Some(h)), ShaderSource(h, code), CompileShader(h),
       GetCompileStatus(h, code !in o.rejectedSources)]
      + (if code in o.rejectedSources then [GetShaderInfoLog(h), Console(Warn, ShaderInfoLog(h))] else [])
  }

  /** What `createProgram` answers when the next handle is `h`. */
  function ProgramCreate(o: Oracle, h: Handle): Option<Handle>
  {
    if ProgramObject in o.nullCreates then None else Some(h)
  }

  /** The program `initShader` keeps, starting from handle `n`: fragment is `n`,
      vertex `n + 1`, program `n + 2`. */
  function InitProgram(o: Oracle, n: Handle, vertexCode: string, fragmentCode: string): Option<Handle>
  {
    if StageOk(o, Fragment, fragmentCode) && StageOk(o, Vertex, vertexCode) && ProgramObject !in o.nullCreates
    then Some(n + 2) else None
  }

  /** Attach vertex then fragment, link, report the link status, make the program current. */
  function LinkTrace(o: Oracle, className: string, p: Handle, vertex: Handle, fragment: Handle): seq<Event>
  {
    [AttachShader(p, vertex), AttachShader(p, fragment), LinkProgram(p), GetLinkStatus(p, o.linkOk),
     Console(if o.linkOk then Log else Warn, ShaderStatus(className, o.linkOk)), UseProgram(p)]
  }

  /** Everything `initShader` does, starting from handle `n`. */
  function InitTrace(o: Oracle, n: Handle, className: string, vertexCode: string, fragmentCode: string): seq<Event>
  {
    ShaderTrace(o, Fragment, n, fragmentCode)
    + ShaderTrace(o, Vertex, n + 1, vertexCode)
    + [Create(ProgramObject, ProgramCreate(o, n + 2))]
    + (if InitProgram(o, n, vertexCode, fragmentCode).Some? then LinkTrace(o, className, n + 2, n + 1, n) else [])
  }

  class BaseShader {
    const gl: Context
    /** `this.constructor.name`, used in the status line. */
    const className: string
    const vertexShaderCode: string
    const fragmentShaderCode: string
    var program: Option<Handle>

    /** The constructor: the codes are what `fillCode` supplies; then `initShader`
        runs once. The `fillUniformsAttributes` step of a concrete shader follows it. */
    constructor(gl: Context, className: string, vertexShaderCode: string, fragmentShaderCode: string)
      modifies gl
      ensures this.gl == gl && this.className == className
      ensures this.vertexShaderCode == vertexShaderCode && this.fragmentShaderCode == fragmentShaderCode
      ensures program == InitProgram(gl.oracle, old(gl.nextHandle), vertexShaderCode, fragmentShaderCode)
      ensures gl.trace == old(gl.trace) + InitTrace(gl.oracle, old(gl.nextHandle), className, vertexShaderCode, fragmentShaderCode)
      ensures gl.errors == old(gl.errors) && gl.nextHandle == old(gl.nextHandle) + 3
    {
      this.gl := gl;
      this.className := className;
      this.vertexShaderCode := vertexShaderCode;
      this.fragmentShaderCode := fragmentShaderCode;
      program := None;
      new;
      InitShader();
    }

    /** `getShader(type, code)`: a compiled shader, or None after a warning. */
    method GetShader(stage: Stage, code: string) returns (s: Option<Handle>)
      modifies gl
      ensures s == if StageOk(gl.oracle, stage, code) then Some(old(gl.nextHandle)) else None
      ensures gl.trace == old(gl.trace) + ShaderTrace(gl.oracle, stage, old(gl.nextHandle), code)
      ensures gl.errors == old(gl.errors) && gl.nextHandle == old(gl.nextHandle) + 1
    {
      var shader := gl.CreateObject(ShaderObject(stage));
      if shader.None? {
        gl.Emit(Console(Warn, Text(CREATE_SHADER_ERROR)));
        return None;
      }
      var h := shader.value;
      gl.Emit(ShaderSource(h, code));
      gl.Emit(CompileShader(h));
      var ok := gl.CompileStatus(h, code);
      if !ok {
        gl.Emit(GetShaderInfoLog(h));
        gl.Emit(Console(Warn, ShaderInfoLog(h)));
        return None;
      }
      return Some(h);
    }

    /** `initShader()`: the stored program exists only when both stages compiled and
        a program was created; a failed link still stores it. */
    method InitShader()
      requires program.None?
      modifies this, gl
      ensures program == InitProgram(gl.oracle, old(gl.nextHandle), vertexShaderCode, fragmentShaderCode)
      ensures gl.trace == old(gl.trace) + InitTrace(gl.oracle, old(gl.nextHandle), className, vertexShaderCode, fragmentShaderCode)
      ensures gl.errors == old(gl.errors) && gl.nextHandle == old(gl.nextHandle) + 3
    {
      ghost var n := gl.nextHandle;
      ghost var o := gl.oracle;
      var fragmentShader := GetShader(Fragment, fragmentShaderCode);
      var vertexShader := GetShader(Vertex, vertexShaderCode);
      var shaderProgram := gl.CreateObject(ProgramObject);
      ghost var created := ShaderTrace(o, Fragment, n, fragmentShaderCode)
        + ShaderTrace(o, Vertex, n + 1, vertexShaderCode) + [Create(ProgramObject, ProgramCreate(o, n + 2))];
      assert gl.trace == old(gl.trace) + created;
      if fragmentShader.None? || vertexShader.None? || shaderProgram.None? {
        assert InitProgram(o, n, vertexShaderCode, fragmentShaderCode).None?;
        assert InitTrace(o, n, className, vertexShaderCode, fragmentShaderCode) == created + [];
        return;
      }
      assert InitProgram(o, n, vertexShaderCode, fragmentShaderCode) == Some(n + 2);
      var p := shaderProgram.value;
      gl.Emit(AttachShader(p, vertexShader.value));
      gl.Emit(AttachShader(p, fragmentShader.value));
      gl.Emit(LinkProgram(p));
      var linked := gl.LinkStatus(p);
      gl.Emit(Console(if linked then Log else Warn, ShaderStatus(className, linked)));
      gl.Emit(UseProgram(p));
      program := Some(p);
      assert gl.trace == old(gl.trace) + created + LinkTrace(o, className, n + 2, n + 1, n);
    }

    /** `getUniform(name)`: throws without a program or for a null location. */
    method GetUniform(name: string) returns (r: Result<Handle>)
      modifies gl
      ensures program.None? ==> r == Err(Thrown(NO_PROGRAM)) && gl.trace == old(gl.trace)
      ensures program.Some? && name in gl.oracle.uniforms ==> r == Ok(gl.oracle.uniforms[name])
      ensures program.Some? && name !in gl.oracle.uniforms ==> r == Err(Thrown(UniformMissing(name)))
      ensures program.Some? ==>
        gl.trace == old(gl.trace) + [GetUniformLocation(program.value, name, if r.Ok? then Some(r.value) else None)]
      ensures gl.errors == old(gl.errors) && gl.nextHandle == old(gl.nextHandle)
    {
      if program.None? {
        return Err(Thrown(NO_PROGRAM));
      }
      var loc := gl.UniformLocation(program.value, name);
      if loc.Some? {
        r := Ok(loc.value);
      } else {
        r := Err(Thrown(UniformMissing(name)));
      }
    }

    /** `getAttrib(name)`: throws without a program; otherwise the raw location,
        -1 for a name that is not an active attribute. */
    method GetAttrib(name: string) returns (r: Result<int>)
      modifies gl
      ensures program.None? ==> r == Err(Thrown(NO_PROGRAM)) && gl.trace == old(gl.trace)
      ensures program.Some? ==> r == Ok(if name in gl.oracle.attribs then gl.oracle.attribs[name] else -1)
      ensures program.Some? ==> gl.trace == old(gl.trace) + [GetAttribLocation(program.value, name, r.value)]
      ensures gl.errors == old(gl.errors) && gl.nextHandle == old(gl.nextHandle)
    {
      if program.None? {
        return Err(Thrown(NO_PROGRAM));
      }
      var index := gl.AttribLocation(program.value, name);
      r := Ok(index);
    }

    /** `use()`: makes the program current, if there is one. */
    method Use()
      modifies gl
      ensures gl.trace == old(gl.trace) + (if program.Some? then [UseProgram(program.value)] else [])
      ensures gl.errors == old(gl.errors) && gl.nextHandle == old(gl.nextHandle)
    {
      if program.Some? {
        gl.Emit(UseProgram(program.value));
      }
    }

    /** `deleteProgram()`: deletes the program, if there is one, and keeps the field,
        so a second call deletes it again. */
    method DeleteProgram()
      modifies gl
      ensures gl.trace == old(gl.trace) + (if program.Some? then [Event.DeleteProgram(program.value)] else [])
      ensures gl.errors == old(gl.errors) && gl.nextHandle == old(gl.nextHandle)
    {
      if program.Some? {
        gl.Emit(Event.DeleteProgram(program.value));
      }
    }
  }

  /** The fragment stage is created first, the vertex stage right after its calls. */
  lemma FragmentBeforeVertex(o: Oracle, n: Handle, className: string, v: string, f: string)
    ensures InitTrace(o, n, className, v, f)[0].Create? && InitTrace(o, n, className, v, f)[0].kind == ShaderObject(Fragment)
    ensures var k := |ShaderTrace(o, Fragment, n, f)|;
      InitTrace(o, n, className, v, f)[k].Create? && InitTrace(o, n, className, v, f)[k].kind == ShaderObject(Vertex)
  {
  }

  /** A stage that could not be created or compiled ends its calls with a warning. */
  lemma FailedStageWarns(o: Oracle, stage: Stage, h: Handle, code: string)
    requires !StageOk(o, stage, code)
    ensures var t := ShaderTrace(o, stage, h, code); t[|t| - 1].Console? && t[|t| - 1].severity == Warn
  {
  }

  /** The getShader calls never attach, link or make a program current. */
  lemma ShaderTraceLinksNothing(o: Oracle, stage: Stage, h: Handle, code: string, e: Event)
    requires e in ShaderTrace(o, stage, h, code)
    ensures !e.AttachShader? && !e.LinkProgram? && !e.UseProgram?
  {
  }

  /** A program is kept exactly when it was linked, and it is the linked one. */
  lemma {:induction false} KeptIffLinked(o: Oracle, n: Handle, className: string, v: string, f: string, p: Handle)
    ensures InitProgram(o, n, v, f) == Some(p) <==> LinkProgram(p) in InitTrace(o, n, className, v, f)
  {
    var fs := ShaderTrace(o, Fragment, n, f);
    var vs := ShaderTrace(o, Vertex, n + 1, v);
    var t := InitTrace(o, n, className, v, f);
    if LinkProgram(p) in t {
      var i :| 0 <= i < |t| && t[i] == LinkProgram(p);
      if i < |fs| {
        ShaderTraceLinksNothing(o, Fragment, n, f, fs[i]);
      } else if i < |fs| + |vs| {
        ShaderTraceLinksNothing(o, Vertex, n + 1, v, vs[i - |fs|]);
      }
    }
    if InitProgram(o, n, v, f) == Some(p) {
      assert t[|fs| + |vs| + 3] == LinkProgram(p);
    }
  }

  /** When a program is kept, vertex is attached before fragment, and the program is
      made current last, whether or not it linked. */
  lemma AttachOrder(o: Oracle, n: Handle, className: string, v: string, f: string)
    requires InitProgram(o, n, v, f).Some?
    ensures var t := InitTrace(o, n, className, v, f);
      var k := |ShaderTrace(o, Fragment, n, f)| + |ShaderTrace(o, Vertex, n + 1, v)| + 1;
      t[k] == AttachShader(n + 2, n + 1) && t[k + 1] == AttachShader(n + 2, n)
      && t[|t| - 1] == UseProgram(n + 2)
  {
  }

  /** The link status changes only the console line, never the kept program. */
  lemma LinkStatusOnlyLogs(o: Oracle, n: Handle, className: string, v: string, f: string)
    ensures InitProgram(o.(linkOk := false), n, v, f) == InitProgram(o.(linkOk := true), n, v, f) == InitProgram(o, n, v, f)
    ensures InitProgram(o, n, v, f).Some? && !o.linkOk ==>
      Console(Warn, ShaderStatus(className, false)) in InitTrace(o, n, className, v, f)
  {
    if InitProgram(o, n, v, f).Some? && !o.linkOk {
      var t := InitTrace(o, n, className, v, f);
      assert t[|t| - 2] == Console(Warn, ShaderStatus(className, false));
    }
  }
}
