/** A model stored as two binary files, `<url>-indices.bin` and `<url>-strides.bin`,
    uploaded to an element-array buffer and an array buffer. */
module FullModel {
  import opened Wrappers
  import opened GlConst
  import opened Host

  const INDICES_SUFFIX := "-indices.bin"
  const STRIDES_SUFFIX := "-strides.bin"

  /** `numIndices` after a load of `bytes` index bytes: 16-bit indices, three per
      triangle (a JavaScript number, so fractional when `bytes` is not a multiple of 6). */
  function IndexCount(bytes: nat): (r: real)
    ensures r * 6.0 == bytes as real
  {
    bytes as real / 2.0 / 3.0
  }

  /** What createBuffer answers when the next handle is `h`. */
  function BufferCreate(o: Oracle, h: Handle): Option<Handle>
  {
    if BufferObject in o.nullCreates then None else Some(h)
  }

  /** `loadBuffer`: bind the buffer to `target` and upload all the bytes once. */
  function UploadTrace(target: nat, buffer: Option<Handle>, data: seq<byte>): seq<Event>
  {
    [BindBuffer(target, buffer), BufferData(target, data, STATIC_DRAW)]
  }

  /** Everything `load(url)` does when the next handle is `n`: the index file is
      fetched, then the strides file; the GL work follows both. */
  function LoadTrace(o: Oracle, n: Handle, url: string): seq<Event>
  {
    var iu := url + INDICES_SUFFIX;
    var su := url + STRIDES_SUFFIX;
    [Fetch(iu)]
    + if iu !in o.files then [] else
      [Fetch(su)]
      + if su !in o.files then [] else
        [Console(Log, LoadedBytes(iu, |o.files[iu]|)), Console(Log, LoadedBytes(su, |o.files[su]|)),
         Create(BufferObject, BufferCreate(o, n))]
        + UploadTrace(ELEMENT_ARRAY_BUFFER, BufferCreate(o, n), o.files[iu])
        + [Create(BufferObject, BufferCreate(o, n + 1))]
        + UploadTrace(ARRAY_BUFFER, BufferCreate(o, n + 1), o.files[su])
  }

  /** Whether both files of `url` can be fetched. */
  predicate Loadable(o: Oracle, url: string)
  {
    url + INDICES_SUFFIX in o.files && url + STRIDES_SUFFIX in o.files
  }

  class FullModel {
    const gl: Context
    var bufferIndices: Option<Handle>
    var bufferStrides: Option<Handle>
    var numIndices: real

    constructor(gl: Context)
      ensures this.gl == gl && bufferIndices == None && bufferStrides == None && numIndices == 0.0
    {
      this.gl := gl;
      bufferIndices, bufferStrides, numIndices := None, None, 0.0;
    }

    /** `getNumIndices()` */
    function GetNumIndices(): (r: real)
      reads this
      ensures r == numIndices
    {
      numIndices
    }

    method LoadBuffer(buffer: Option<Handle>, target: nat, data: seq<byte>)
      modifies gl
      ensures gl.trace == old(gl.trace) + UploadTrace(target, buffer, data)
      ensures gl.errors == old(gl.errors) && gl.nextHandle == old(gl.nextHandle)
    {
      gl.Emit(BindBuffer(target, buffer));
      gl.Emit(BufferData(target, data, STATIC_DRAW));
    }

    /** `load(url)`: a failed fetch rejects before any GL call, leaving the model as it was. */
    method Load(url: string) returns (r: Outcome)
      modifies this, gl
      ensures gl.trace == old(gl.trace) + LoadTrace(gl.oracle, old(gl.nextHandle), url)
      ensures gl.errors == old(gl.errors)
      ensures r.Done? <==> Loadable(gl.oracle, url)
      ensures r.Fail? ==>
        r == Fail(NetworkError) && gl.nextHandle == old(gl.nextHandle)
        && bufferIndices == old(bufferIndices) && bufferStrides == old(bufferStrides) && numIndices == old(numIndices)
      ensures r.Done? ==>
        gl.nextHandle == old(gl.nextHandle) + 2
        && bufferIndices == BufferCreate(gl.oracle, old(gl.nextHandle))
        && bufferStrides == BufferCreate(gl.oracle, old(gl.nextHandle) + 1)
        && numIndices == IndexCount(|gl.oracle.files[url + INDICES_SUFFIX]|)
    {
      var iu := url + INDICES_SUFFIX;
      var su := url + STRIDES_SUFFIX;
      var dataIndices := gl.FetchFile(iu);
      if dataIndices.None? {
        return Fail(NetworkError);
      }
      var dataStrides := gl.FetchFile(su);
      if dataStrides.None? {
        return Fail(NetworkError);
      }
      gl.Emit(Console(Log, LoadedBytes(iu, |dataIndices.value|)));
      gl.Emit(Console(Log, LoadedBytes(su, |dataStrides.value|)));
      bufferIndices := gl.CreateObject(BufferObject);
      LoadBuffer(bufferIndices, ELEMENT_ARRAY_BUFFER, dataIndices.value);
      numIndices := |dataIndices.value| as real / 2.0 / 3.0;
      bufferStrides := gl.CreateObject(BufferObject);
      LoadBuffer(bufferStrides, ARRAY_BUFFER, dataStrides.value);
      return Done;
    }

    /** `bindBuffers()`: strides to ARRAY_BUFFER, then indices to ELEMENT_ARRAY_BUFFER. */
    method BindBuffers()
      modifies gl
      ensures gl.trace == old(gl.trace) + [BindBuffer(ARRAY_BUFFER, bufferStrides), BindBuffer(ELEMENT_ARRAY_BUFFER, bufferIndices)]
      ensures gl.errors == old(gl.errors) && gl.nextHandle == old(gl.nextHandle)
    {
      gl.Emit(BindBuffer(ARRAY_BUFFER, bufferStrides));
      gl.Emit(BindBuffer(ELEMENT_ARRAY_BUFFER, bufferIndices));
    }
  }

  /** The index file is requested first; the strides file only after it arrived. */
  lemma IndicesFetchedFirst(o: Oracle, n: Handle, url: string)
    ensures LoadTrace(o, n, url)[0] == Fetch(url + INDICES_SUFFIX)
    ensures url + INDICES_SUFFIX in o.files <==> |LoadTrace(o, n, url)| > 1
    ensures url + INDICES_SUFFIX in o.files ==> LoadTrace(o, n, url)[1] == Fetch(url + STRIDES_SUFFIX)
  {
  }

  /** A failed fetch leaves nothing but fetches in the trace: no buffer, bind or upload. */
  lemma FailedLoadOnlyFetches(o: Oracle, n: Handle, url: string, e: Event)
    requires !Loadable(o, url) && e in LoadTrace(o, n, url)
    ensures e.Fetch?
  {
  }

  /** A successful load uploads the index bytes to ELEMENT_ARRAY_BUFFER and the stride
      bytes to ARRAY_BUFFER, each whole and with STATIC_DRAW. */
  lemma LoadedUploads(o: Oracle, n: Handle, url: string)
    requires Loadable(o, url)
    ensures BufferData(ELEMENT_ARRAY_BUFFER, o.files[url + INDICES_SUFFIX], STATIC_DRAW) in LoadTrace(o, n, url)
    ensures BufferData(ARRAY_BUFFER, o.files[url + STRIDES_SUFFIX], STATIC_DRAW) in LoadTrace(o, n, url)
  {
    var t := LoadTrace(o, n, url);
    assert t[6] == BufferData(ELEMENT_ARRAY_BUFFER, o.files[url + INDICES_SUFFIX], STATIC_DRAW);
    assert t[9] == BufferData(ARRAY_BUFFER, o.files[url + STRIDES_SUFFIX], STATIC_DRAW);
  }

  /** Twelve index bytes are two triangles. */
  lemma TwelveBytesTwoTriangles()
    ensures IndexCount(12) == 2.0
  {
  }
}
