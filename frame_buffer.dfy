/** An off-screen render target: a framebuffer with a colour texture and either a
    depth texture or a depth renderbuffer. */
module FrameBuffer {
  import opened Wrappers
  import opened GlConst
  import opened Host

  const OP_COLOR := "FB"
  const OP_BIND_RENDERBUFFER := "FB - glBindRenderbuffer"
  const OP_RENDERBUFFER_STORAGE := "FB - glRenderbufferStorage"
  const OP_FRAMEBUFFER_RENDERBUFFER := "FB - glFramebufferRenderbuffer"
  const OP_DEPTH := "FB depth"

  /** What a create* call of `kind` answers when the next handle is `h`. */
  function Created(o: Oracle, kind: ObjectKind, h: Handle): Option<Handle>
  {
    if kind in o.nullCreates then None else Some(h)
  }

  /** The colour attachment, with the error check after it. */
  function ColorTrace(fb: Option<Handle>, texture: Handle, errs: seq<ErrorCode>): seq<Event>
  {
    [Create(FramebufferObject, fb), BindTexture(TEXTURE_2D, Some(texture)), BindFramebuffer(FRAMEBUFFER, fb),
     FramebufferTexture2D(FRAMEBUFFER, COLOR_ATTACHMENT0, TEXTURE_2D, Some(texture), 0)]
    + ErrorDrain(OP_COLOR, errs)
  }

  /** A new DEPTH_COMPONENT16 renderbuffer of `width` x `height` at DEPTH_ATTACHMENT,
      each step followed by an error check. */
  function RenderbufferTrace(rb: Option<Handle>, width: int, height: int): seq<Event>
  {
    [Create(RenderbufferObject, rb), BindRenderbuffer(RENDERBUFFER, rb)]
    + ErrorDrain(OP_BIND_RENDERBUFFER, [])
    + [RenderbufferStorage(RENDERBUFFER, DEPTH_COMPONENT16, width, height)]
    + ErrorDrain(OP_RENDERBUFFER_STORAGE, [])
    + [FramebufferRenderbuffer(FRAMEBUFFER, DEPTH_ATTACHMENT, RENDERBUFFER, rb)]
    + ErrorDrain(OP_FRAMEBUFFER_RENDERBUFFER, [])
  }

  /** The given depth texture at DEPTH_ATTACHMENT. */
  function DepthTextureTrace(fb: Option<Handle>, depthTexture: Handle): seq<Event>
  {
    [BindTexture(TEXTURE_2D, Some(depthTexture)), BindFramebuffer(FRAMEBUFFER, fb),
     FramebufferTexture2D(FRAMEBUFFER, DEPTH_ATTACHMENT, TEXTURE_2D, Some(depthTexture), 0)]
    + ErrorDrain(OP_DEPTH, [])
  }

  /** The status check, its console line when incomplete, and the final unbinding. */
  function StatusTrace(status: nat): seq<Event>
  {
    [CheckFramebufferStatus(FRAMEBUFFER, status)]
    + (if status != FRAMEBUFFER_COMPLETE then [Console(Error, FramebufferError(status))] else [])
    + [BindRenderbuffer(RENDERBUFFER, None), BindFramebuffer(FRAMEBUFFER, None)]
  }

  /** Everything `createGLData` does once its guard passes, starting from handle `n`
      with `errs` pending. */
  function CreateTrace(o: Oracle, n: Handle, texture: Handle, depthTexture: Option<Handle>,
                       width: int, height: int, errs: seq<ErrorCode>): seq<Event>
  {
    var fb := Created(o, FramebufferObject, n);
    ColorTrace(fb, texture, errs)
    + (if depthTexture.None? then RenderbufferTrace(Created(o, RenderbufferObject, n + 1), width, height)
       else DepthTextureTrace(fb, depthTexture.value))
    + StatusTrace(o.framebufferStatus)
  }

  class FrameBuffer {
    const gl: Context
    var textureHandle: Option<Handle>
    var depthTextureHandle: Option<Handle>
    var framebufferHandle: Option<Handle>
    var depthbufferHandle: Option<Handle>
    var width: Option<int>
    var height: Option<int>

    constructor(gl: Context)
      ensures this.gl == gl
      ensures textureHandle == depthTextureHandle == framebufferHandle == depthbufferHandle == None
      ensures width == None && height == None
    {
      this.gl := gl;
      textureHandle, depthTextureHandle, framebufferHandle, depthbufferHandle := None, None, None, None;
      width, height := None, None;
    }

    /** The private `checkGlError(op)` */
    method CheckGlError(op: string)
      modifies gl
      ensures gl.trace == old(gl.trace) + ErrorDrain(op, old(gl.errors))
      ensures gl.errors == [] && gl.nextHandle == old(gl.nextHandle)
    {
      gl.DrainErrors(op);
    }

    /** `createGLData(width, height)`: stores the size; with a colour texture and a
        positive size it builds the framebuffer. */
    method CreateGLData(w: int, h: int)
      modifies this, gl
      ensures width == Some(w) && height == Some(h)
      ensures textureHandle == old(textureHandle) && depthTextureHandle == old(depthTextureHandle)
      ensures !(old(textureHandle).Some? && w > 0 && h > 0) ==>
        unchanged(gl) && framebufferHandle == old(framebufferHandle) && depthbufferHandle == old(depthbufferHandle)
      ensures old(textureHandle).Some? && w > 0 && h > 0 ==>
        gl.trace == old(gl.trace)
          + CreateTrace(gl.oracle, old(gl.nextHandle), textureHandle.value, depthTextureHandle, w, h, old(gl.errors))
        && gl.errors == []
        && framebufferHandle == Created(gl.oracle, FramebufferObject, old(gl.nextHandle))
        && (depthTextureHandle.None? ==>
              depthbufferHandle == Created(gl.oracle, RenderbufferObject, old(gl.nextHandle) + 1)
              && gl.nextHandle == old(gl.nextHandle) + 2)
        && (depthTextureHandle.Some? ==> depthbufferHandle == old(depthbufferHandle) && gl.nextHandle == old(gl.nextHandle) + 1)
    {
      width := Some(w);
      height := Some(h);
      if textureHandle.Some? && w > 0 && h > 0 {
        ghost var t0 := gl.trace;
        ghost var n := gl.nextHandle;
        ghost var errs := gl.errors;
        AttachColor(textureHandle.value);
        ghost var color := ColorTrace(framebufferHandle, textureHandle.value, errs);
        ghost var t1 := gl.trace;
        AttachDepth(w, h);
        ghost var middle := if depthTextureHandle.None? then RenderbufferTrace(depthbufferHandle, w, h)
                            else DepthTextureTrace(framebufferHandle, depthTextureHandle.value);
        ghost var t2 := gl.trace;
        FinishStatus();
        ghost var status := StatusTrace(gl.oracle.framebufferStatus);
        assert CreateTrace(gl.oracle, n, textureHandle.value, depthTextureHandle, w, h, errs) == color + middle + status;
        AppendAssociates(t0, color, middle, status);
      }
    }

    /** A new framebuffer with the colour texture at COLOR_ATTACHMENT0. */
    method AttachColor(texture: Handle)
      modifies this`framebufferHandle, gl
      ensures framebufferHandle == Created(gl.oracle, FramebufferObject, old(gl.nextHandle))
      ensures gl.trace == old(gl.trace) + ColorTrace(framebufferHandle, texture, old(gl.errors))
      ensures gl.errors == [] && gl.nextHandle == old(gl.nextHandle) + 1
    {
      framebufferHandle := gl.CreateObject(FramebufferObject);
      gl.Emit(BindTexture(TEXTURE_2D, Some(texture)));
      gl.Emit(BindFramebuffer(FRAMEBUFFER, framebufferHandle));
      gl.Emit(FramebufferTexture2D(FRAMEBUFFER, COLOR_ATTACHMENT0, TEXTURE_2D, Some(texture), 0));
      CheckGlError(OP_COLOR);
    }

    /** The depth attachment: a new renderbuffer without a depth texture, the depth
        texture otherwise. */
    method AttachDepth(w: int, h: int)
      requires gl.errors == []
      modifies this`depthbufferHandle, gl
      ensures depthTextureHandle.None? ==>
        && depthbufferHandle == Created(gl.oracle, RenderbufferObject, old(gl.nextHandle))
        && gl.nextHandle == old(gl.nextHandle) + 1
        && gl.trace == old(gl.trace) + RenderbufferTrace(depthbufferHandle, w, h)
      ensures depthTextureHandle.Some? ==>
        && depthbufferHandle == old(depthbufferHandle)
        && gl.nextHandle == old(gl.nextHandle)
        && gl.trace == old(gl.trace) + DepthTextureTrace(framebufferHandle, depthTextureHandle.value)
      ensures gl.errors == []
    {
      if depthTextureHandle.None? {
        depthbufferHandle := gl.CreateObject(RenderbufferObject);
        AttachRenderbuffer(w, h);
      } else {
        AttachDepthTexture(depthTextureHandle.value);
      }
    }

    /** The depth renderbuffer steps after the renderbuffer was created, with no error pending. */
    method AttachRenderbuffer(w: int, h: int)
      requires gl.errors == []
      modifies gl
      ensures gl.trace == old(gl.trace) + RenderbufferTrace(depthbufferHandle, w, h)[1..]
      ensures gl.errors == [] && gl.nextHandle == old(gl.nextHandle)
    {
      gl.Emit(BindRenderbuffer(RENDERBUFFER, depthbufferHandle));
      CheckGlError(OP_BIND_RENDERBUFFER);
      gl.Emit(RenderbufferStorage(RENDERBUFFER, DEPTH_COMPONENT16, w, h));
      CheckGlError(OP_RENDERBUFFER_STORAGE);
      gl.Emit(FramebufferRenderbuffer(FRAMEBUFFER, DEPTH_ATTACHMENT, RENDERBUFFER, depthbufferHandle));
      CheckGlError(OP_FRAMEBUFFER_RENDERBUFFER);
    }

    /** The given depth texture at DEPTH_ATTACHMENT, with no error pending. */
    method AttachDepthTexture(depthTexture: Handle)
      requires gl.errors == []
      modifies gl
      ensures gl.trace == old(gl.trace) + DepthTextureTrace(framebufferHandle, depthTexture)
      ensures gl.errors == [] && gl.nextHandle == old(gl.nextHandle)
    {
      gl.Emit(BindTexture(TEXTURE_2D, Some(depthTexture)));
      gl.Emit(BindFramebuffer(FRAMEBUFFER, framebufferHandle));
      gl.Emit(FramebufferTexture2D(FRAMEBUFFER, DEPTH_ATTACHMENT, TEXTURE_2D, Some(depthTexture), 0));
      CheckGlError(OP_DEPTH);
    }

    /** The status check and the final unbinding. */
    method FinishStatus()
      modifies gl
      ensures gl.trace == old(gl.trace) + StatusTrace(gl.oracle.framebufferStatus)
      ensures gl.errors == old(gl.errors) && gl.nextHandle == old(gl.nextHandle)
    {
      var result := gl.FramebufferStatus();
      if result != FRAMEBUFFER_COMPLETE {
        gl.Emit(Console(Error, FramebufferError(result)));
      }
      gl.Emit(BindRenderbuffer(RENDERBUFFER, None));
      gl.Emit(BindFramebuffer(FRAMEBUFFER, None));
    }
  }

  /** An error check only reads errors and reports them. */
  lemma {:induction false} ErrorDrainOnlyReports(op: string, errs: seq<ErrorCode>, e: Event)
    requires e in ErrorDrain(op, errs)
    ensures e.GetError? || (e.Console? && e.severity == Error)
  {
    if errs != [] {
      var rest := ErrorDrain(op, errs[1..]);
      assert ErrorDrain(op, errs) == [GetError(errs[0]), Console(Error, GlErrorLine(op, errs[0]))] + rest;
      if e !in [GetError(errs[0]), Console(Error, GlErrorLine(op, errs[0]))] {
        ErrorDrainOnlyReports(op, errs[1..], e);
      }
    }
  }

  /** A renderbuffer is created exactly when no depth texture was given. */
  lemma RenderbufferIffNoDepthTexture(o: Oracle, n: Handle, texture: Handle, depthTexture: Option<Handle>,
                                      width: int, height: int, errs: seq<ErrorCode>)
    ensures (exists rb :: Create(RenderbufferObject, rb) in CreateTrace(o, n, texture, depthTexture, width, height, errs))
      <==> depthTexture.None?
  {
    var fb := Created(o, FramebufferObject, n);
    var t := CreateTrace(o, n, texture, depthTexture, width, height, errs);
    if depthTexture.None? {
      var rb := Created(o, RenderbufferObject, n + 1);
      assert t[|ColorTrace(fb, texture, errs)|] == Create(RenderbufferObject, rb);
    } else {
      forall rb | Create(RenderbufferObject, rb) in t
        ensures false
      {
        var e := Create(RenderbufferObject, rb);
        var c := ColorTrace(fb, texture, errs);
        var d := DepthTextureTrace(fb, depthTexture.value);
        assert t == c + d + StatusTrace(o.framebufferStatus);
        if e in c {
          assert c == c[..4] + ErrorDrain(OP_COLOR, errs);
          if e !in c[..4] {
            ErrorDrainOnlyReports(OP_COLOR, errs, e);
          }
        }
      }
    }
  }

  /** The renderbuffer gets the stored size. */
  lemma RenderbufferSize(o: Oracle, n: Handle, texture: Handle, width: int, height: int, errs: seq<ErrorCode>)
    ensures RenderbufferStorage(RENDERBUFFER, DEPTH_COMPONENT16, width, height) in CreateTrace(o, n, texture, None, width, height, errs)
  {
    var t := CreateTrace(o, n, texture, None, width, height, errs);
    assert t[|ColorTrace(Created(o, FramebufferObject, n), texture, errs)| + 3] == RenderbufferStorage(RENDERBUFFER, DEPTH_COMPONENT16, width, height);
  }

  /** An incomplete framebuffer is only logged, and the bindings are always reset last. */
  lemma StatusOnlyLogged(o: Oracle, n: Handle, texture: Handle, depthTexture: Option<Handle>,
                         width: int, height: int, errs: seq<ErrorCode>)
    ensures var t := CreateTrace(o, n, texture, depthTexture, width, height, errs);
      t[|t| - 2] == BindRenderbuffer(RENDERBUFFER, None) && t[|t| - 1] == BindFramebuffer(FRAMEBUFFER, None)
      && (o.framebufferStatus != FRAMEBUFFER_COMPLETE <==> t[|t| - 3] == Console(Error, FramebufferError(o.framebufferStatus)))
  {
  }

  /** The colour texture is attached first, at COLOR_ATTACHMENT0 of the new framebuffer. */
  lemma ColorAttachedFirst(o: Oracle, n: Handle, texture: Handle, depthTexture: Option<Handle>,
                           width: int, height: int, errs: seq<ErrorCode>)
    ensures var t := CreateTrace(o, n, texture, depthTexture, width, height, errs);
      t[0] == Create(FramebufferObject, Created(o, FramebufferObject, n))
      && t[3] == FramebufferTexture2D(FRAMEBUFFER, COLOR_ATTACHMENT0, TEXTURE_2D, Some(texture), 0)
  {
  }
}
