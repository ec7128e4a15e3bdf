/** Textures decoded by the browser from ordinary image files: a single 2D texture,
    and a cube map assembled from six images named after their faces. */
module UncompressedTextureLoader {
  import opened Wrappers
  import opened GlConst
  import opened Host

  const CREATE_TEXTURE_ERROR := "Error creating WebGL texture"
  const IMAGE_ERROR := "Cannot load image"

  /** The wrap mode for both axes: CLAMP_TO_EDGE when asked to clamp, else REPEAT. */
  function WrapMode(clamp: bool): nat
  {
    if clamp then CLAMP_TO_EDGE else REPEAT
  }

  /** What the image callback of `load` does once `url` has decoded. */
  function ImageLoadedTrace(texture: Handle, url: string, minFilter: nat, magFilter: nat, clamp: bool): seq<Event>
  {
    [ BindTexture(TEXTURE_2D, Some(texture)),
      TexImage2DFromImage(TEXTURE_2D, 0, RGBA, RGBA, UNSIGNED_BYTE, url),
      TexParameteri(TEXTURE_2D, TEXTURE_MIN_FILTER, minFilter),
      TexParameteri(TEXTURE_2D, TEXTURE_MAG_FILTER, magFilter),
      TexParameteri(TEXTURE_2D, TEXTURE_WRAP_S, WrapMode(clamp)),
      TexParameteri(TEXTURE_2D, TEXTURE_WRAP_T, WrapMode(clamp)),
      BindTexture(TEXTURE_2D, None),
      Console(Log, LoadedImage(url)) ]
  }

  /** Everything `load` does when the next handle is `n`. */
  function LoadTrace(o: Oracle, n: Handle, url: string, minFilter: nat, magFilter: nat, clamp: bool): seq<Event>
  {
    if TextureObject in o.nullCreates then [Create(TextureObject, None)]
    else
      [Create(TextureObject, Some(n)), RequestImage(url)]
      + if url in o.images then ImageLoadedTrace(n, url, minFilter, magFilter, clamp) else []
  }

  /** `UncompressedTextureLoader.load(url, gl, minFilter, magFilter, clamp)`: the
      promise rejects before an image is made when there is no texture, and rejects
      without an upload when the image fails; the image callback runs to completion
      before the promise settles. */
  method Load(url: string, gl: Context, minFilter: nat := LINEAR, magFilter: nat := LINEAR, clamp: bool := false)
    returns (r: Result<Handle>)
    modifies gl
    ensures gl.trace == old(gl.trace) + LoadTrace(gl.oracle, old(gl.nextHandle), url, minFilter, magFilter, clamp)
    ensures gl.errors == old(gl.errors) && gl.nextHandle == old(gl.nextHandle) + 1
    ensures TextureObject in gl.oracle.nullCreates ==> r == Err(Rejected(CREATE_TEXTURE_ERROR))
    ensures TextureObject !in gl.oracle.nullCreates && url !in gl.oracle.images ==> r == Err(Rejected(IMAGE_ERROR))
    ensures TextureObject !in gl.oracle.nullCreates && url in gl.oracle.images ==> r == Ok(old(gl.nextHandle))
  {
    var texture := gl.CreateObject(TextureObject);
    if texture.None? {
      return Err(Rejected(CREATE_TEXTURE_ERROR));
    }
    gl.Emit(RequestImage(url));
    if url !in gl.oracle.images {
      return Err(Rejected(IMAGE_ERROR));
    }
    ImageLoaded(gl, texture.value, url, minFilter, magFilter, clamp);
    return Ok(texture.value);
  }

  /** The `onload` callback of `load`. */
  method ImageLoaded(gl: Context, texture: Handle, url: string, minFilter: nat, magFilter: nat, clamp: bool)
    modifies gl
    ensures gl.trace == old(gl.trace) + ImageLoadedTrace(texture, url, minFilter, magFilter, clamp)
    ensures gl.errors == old(gl.errors) && gl.nextHandle == old(gl.nextHandle)
  {
    gl.Emit(BindTexture(TEXTURE_2D, Some(texture)));
    gl.Emit(TexImage2DFromImage(TEXTURE_2D, 0, RGBA, RGBA, UNSIGNED_BYTE, url));
    gl.Emit(TexParameteri(TEXTURE_2D, TEXTURE_MIN_FILTER, minFilter));
    gl.Emit(TexParameteri(TEXTURE_2D, TEXTURE_MAG_FILTER, magFilter));
    if clamp {
      gl.Emit(TexParameteri(TEXTURE_2D, TEXTURE_WRAP_S, CLAMP_TO_EDGE));
      gl.Emit(TexParameteri(TEXTURE_2D, TEXTURE_WRAP_T, CLAMP_TO_EDGE));
    } else {
      gl.Emit(TexParameteri(TEXTURE_2D, TEXTURE_WRAP_S, REPEAT));
      gl.Emit(TexParameteri(TEXTURE_2D, TEXTURE_WRAP_T, REPEAT));
    }
    gl.Emit(BindTexture(TEXTURE_2D, None));
    gl.Emit(Console(Log, LoadedImage(url)));
  }

  /** Without a texture no image is requested; without the image nothing is uploaded
      and no parameter is set. */
  lemma LoadFailureUploadsNothing(o: Oracle, n: Handle, url: string, minFilter: nat, magFilter: nat, clamp: bool, e: Event)
    requires TextureObject in o.nullCreates || url !in o.images
    requires e in LoadTrace(o, n, url, minFilter, magFilter, clamp)
    ensures e.Create? || e.RequestImage?
    ensures TextureObject in o.nullCreates ==> e == Create(TextureObject, None)
  {
  }

  /** Both axes wrap with CLAMP_TO_EDGE exactly when `clamp` is set, and with REPEAT
      exactly when it is not; the filters are the ones given. */
  lemma LoadedWrapMode(o: Oracle, n: Handle, url: string, minFilter: nat, magFilter: nat, clamp: bool)
    requires TextureObject !in o.nullCreates && url in o.images
    ensures var t := LoadTrace(o, n, url, minFilter, magFilter, clamp);
      && (TexParameteri(TEXTURE_2D, TEXTURE_WRAP_S, CLAMP_TO_EDGE) in t <==> clamp)
      && (TexParameteri(TEXTURE_2D, TEXTURE_WRAP_T, CLAMP_TO_EDGE) in t <==> clamp)
      && (TexParameteri(TEXTURE_2D, TEXTURE_WRAP_S, REPEAT) in t <==> !clamp)
      && (TexParameteri(TEXTURE_2D, TEXTURE_WRAP_T, REPEAT) in t <==> !clamp)
      && TexParameteri(TEXTURE_2D, TEXTURE_MIN_FILTER, minFilter) in t
      && TexParameteri(TEXTURE_2D, TEXTURE_MAG_FILTER, magFilter) in t
  {
    var t := LoadTrace(o, n, url, minFilter, magFilter, clamp);
    assert t[6] == TexParameteri(TEXTURE_2D, TEXTURE_WRAP_S, WrapMode(clamp));
    assert t[7] == TexParameteri(TEXTURE_2D, TEXTURE_WRAP_T, WrapMode(clamp));
  }

  /** A loaded texture is uploaded as RGBA before any of its parameters is set, and
      TEXTURE_2D is unbound after the last one. */
  lemma LoadedUploadFirst(o: Oracle, n: Handle, url: string, minFilter: nat, magFilter: nat, clamp: bool, j: nat)
    requires TextureObject !in o.nullCreates && url in o.images
    requires j < |LoadTrace(o, n, url, minFilter, magFilter, clamp)|
    requires LoadTrace(o, n, url, minFilter, magFilter, clamp)[j].TexParameteri?
    ensures var t := LoadTrace(o, n, url, minFilter, magFilter, clamp);
      && t[3] == TexImage2DFromImage(TEXTURE_2D, 0, RGBA, RGBA, UNSIGNED_BYTE, url) && 3 < j
      && j < 8 && t[8] == BindTexture(TEXTURE_2D, None)
  {
  }

  /** One face of a cube map: the target it is uploaded to and its file-name suffix. */
  datatype Face = Face(target: nat, suffix: string)

  /** The face table of `loadCubemap`, in the order the faces are requested. */
  function CubeFaces(ext: string): (faces: seq<Face>)
    ensures |faces| == 6
  {
    [ Face(TEXTURE_CUBE_MAP_POSITIVE_X, "-posx." + ext),
      Face(TEXTURE_CUBE_MAP_NEGATIVE_X, "-negx." + ext),
      Face(TEXTURE_CUBE_MAP_POSITIVE_Y, "-posy." + ext),
      Face(TEXTURE_CUBE_MAP_NEGATIVE_Y, "-negy." + ext),
      Face(TEXTURE_CUBE_MAP_POSITIVE_Z, "-posz." + ext),
      Face(TEXTURE_CUBE_MAP_NEGATIVE_Z, "-negz." + ext) ]
  }

  /** The six per-face names, in the order of the face targets. */
  const FACE_NAMES: seq<string> := ["posx", "negx", "posy", "negy", "posz", "negz"]

  /** The faces are the six cube-map targets in enumerant order, each named
      "-<name>.<ext>", and no two faces share a target or a file. */
  lemma CubeFacesTable(ext: string)
    ensures forall i :: 0 <= i < 6 ==> CubeFaces(ext)[i].target == TEXTURE_CUBE_MAP_POSITIVE_X + i
    ensures forall i :: 0 <= i < 6 ==> CubeFaces(ext)[i].suffix == "-" + FACE_NAMES[i] + "." + ext
    ensures forall i, j :: 0 <= i < j < 6 ==> CubeFaces(ext)[i].suffix != CubeFaces(ext)[j].suffix
  {
    var f := CubeFaces(ext);
    forall i, j | 0 <= i < j < 6
      ensures f[i].suffix != f[j].suffix
    {
      assert f[i].suffix[1..5] == FACE_NAMES[i];
      assert f[j].suffix[1..5] == FACE_NAMES[j];
    }
  }

  /** The image requests of the six faces, in table order. */
  function RequestTrace(url: string, faces: seq<Face>): (t: seq<Event>)
    ensures |t| == |faces|
  {
    if faces == [] then [] else [RequestImage(url + faces[0].suffix)] + RequestTrace(url, faces[1..])
  }

  /** Whether every face image of `url` decodes. */
  predicate AllFacesLoad(o: Oracle, url: string, faces: seq<Face>)
  {
    forall i :: 0 <= i < |faces| ==> url + faces[i].suffix in o.images
  }

  /** What the load callback of one face does: bind the cube map and upload the image. */
  function FaceUpload(o: Oracle, texture: Handle, url: string, face: Face): seq<Event>
  {
    if url + face.suffix in o.images then
      [ BindTexture(TEXTURE_CUBE_MAP, Some(texture)),
        TexImage2DFromImage(face.target, 0, RGB, RGB, UNSIGNED_BYTE, url + face.suffix),
        Console(Log, LoadedImage(url + face.suffix)) ]
    else []
  }

  /** The face callbacks, run in table order. */
  function UploadTrace(o: Oracle, texture: Handle, url: string, faces: seq<Face>): seq<Event>
  {
    if faces == [] then [] else FaceUpload(o, texture, url, faces[0]) + UploadTrace(o, texture, url, faces[1..])
  }

  /** The parameters `loadCubemap` sets before any face is requested. */
  function CubemapSetup(texture: Handle): seq<Event>
  {
    [ BindTexture(TEXTURE_CUBE_MAP, Some(texture)),
      TexParameteri(TEXTURE_CUBE_MAP, TEXTURE_WRAP_S, CLAMP_TO_EDGE),
      TexParameteri(TEXTURE_CUBE_MAP, TEXTURE_WRAP_T, CLAMP_TO_EDGE),
      TexParameteri(TEXTURE_CUBE_MAP, TEXTURE_MAG_FILTER, LINEAR),
      TexParameteri(TEXTURE_CUBE_MAP, TEXTURE_MIN_FILTER, NEAREST) ]
  }

  /** What `loadCubemap` does with the texture between creating it and the join:
      the setup, the requests and the face callbacks. */
  function JoinTrace(o: Oracle, texture: Handle, url: string, faces: seq<Face>): seq<Event>
  {
    CubemapSetup(texture) + RequestTrace(url, faces) + UploadTrace(o, texture, url, faces)
  }

  /** Everything `loadCubemap` does with a texture `texture`. */
  function CubemapTrace(o: Oracle, texture: Handle, url: string, ext: string): seq<Event>
  {
    var faces := CubeFaces(ext);
    [Create(TextureObject, Some(texture))] + JoinTrace(o, texture, url, faces)
    + if AllFacesLoad(o, url, faces) then [BindTexture(TEXTURE_2D, None)] else []
  }

  /** `UncompressedTextureLoader.loadCubemap(url, gl, extension)`. All six images are
      requested before any of them loads; each face that loads is uploaded, and the
      texture is returned only when all six did. */
  method LoadCubemap(url: string, gl: Context, ext: string := "png") returns (r: Result<Handle>)
    modifies gl
    ensures gl.errors == old(gl.errors) && gl.nextHandle == old(gl.nextHandle) + 1
    ensures TextureObject in gl.oracle.nullCreates ==>
      r == Err(Thrown(CREATE_TEXTURE_ERROR)) && gl.trace == old(gl.trace) + [Create(TextureObject, None)]
    ensures TextureObject !in gl.oracle.nullCreates ==>
      && gl.trace == old(gl.trace) + CubemapTrace(gl.oracle, old(gl.nextHandle), url, ext)
      && (r.Ok? <==> AllFacesLoad(gl.oracle, url, CubeFaces(ext)))
      && (r.Ok? ==> r.value == old(gl.nextHandle))
      && (r.Err? ==> r == Err(Rejected(IMAGE_ERROR)))
  {
    var created := gl.CreateObject(TextureObject);
    if created.None? {
      return Err(Thrown(CREATE_TEXTURE_ERROR));
    }
    var texture := created.value;
    var faces := CubeFaces(ext);
    ghost var t0 := gl.trace;
    var allLoaded := LoadFaces(gl, texture, url, faces);
    ghost var join := JoinTrace(gl.oracle, texture, url, faces);
    ghost var tail: seq<Event> := if allLoaded then [BindTexture(TEXTURE_2D, None)] else [];
    AppendAssociates(old(gl.trace), [Create(TextureObject, Some(texture))], join, tail);
    if !allLoaded {
      assert gl.trace == t0 + join + tail;
      return Err(Rejected(IMAGE_ERROR));
    }
    gl.Emit(BindTexture(TEXTURE_2D, None));
    return Ok(texture);
  }

  /** The body of `loadCubemap` between creating the texture and the join. */
  method LoadFaces(gl: Context, texture: Handle, url: string, faces: seq<Face>) returns (allLoaded: bool)
    modifies gl
    ensures allLoaded <==> AllFacesLoad(gl.oracle, url, faces)
    ensures gl.trace == old(gl.trace) + JoinTrace(gl.oracle, texture, url, faces)
    ensures gl.errors == old(gl.errors) && gl.nextHandle == old(gl.nextHandle)
  {
    SetupCubemap(gl, texture);
    RequestFaces(gl, url, faces);
    allLoaded := UploadFaces(gl, texture, url, faces);
    AppendAssociates(old(gl.trace), CubemapSetup(texture), RequestTrace(url, faces), UploadTrace(gl.oracle, texture, url, faces));
  }

  /** Binds the cube map and sets the parameters that do not depend on a face. */
  method SetupCubemap(gl: Context, texture: Handle)
    modifies gl
    ensures gl.trace == old(gl.trace) + CubemapSetup(texture)
    ensures gl.errors == old(gl.errors) && gl.nextHandle == old(gl.nextHandle)
  {
    gl.Emit(BindTexture(TEXTURE_CUBE_MAP, Some(texture)));
    gl.Emit(TexParameteri(TEXTURE_CUBE_MAP, TEXTURE_WRAP_S, CLAMP_TO_EDGE));
    gl.Emit(TexParameteri(TEXTURE_CUBE_MAP, TEXTURE_WRAP_T, CLAMP_TO_EDGE));
    gl.Emit(TexParameteri(TEXTURE_CUBE_MAP, TEXTURE_MAG_FILTER, LINEAR));
    gl.Emit(TexParameteri(TEXTURE_CUBE_MAP, TEXTURE_MIN_FILTER, NEAREST));
  }

  /** Makes one image per face, in table order. */
  method RequestFaces(gl: Context, url: string, faces: seq<Face>)
    modifies gl
    ensures gl.trace == old(gl.trace) + RequestTrace(url, faces)
    ensures gl.errors == old(gl.errors) && gl.nextHandle == old(gl.nextHandle)
  {
    for i := 0 to |faces|
      invariant gl.trace + RequestTrace(url, faces[i..]) == old(gl.trace) + RequestTrace(url, faces)
      invariant gl.errors == old(gl.errors) && gl.nextHandle == old(gl.nextHandle)
    {
      assert faces[i..][1..] == faces[i + 1..];
      gl.Emit(RequestImage(url + faces[i].suffix));
    }
  }

  /** Runs the face callbacks in table order and joins them: the answer says whether
      every face loaded. */
  method UploadFaces(gl: Context, texture: Handle, url: string, faces: seq<Face>) returns (allLoaded: bool)
    modifies gl
    ensures allLoaded <==> AllFacesLoad(gl.oracle, url, faces)
    ensures gl.trace == old(gl.trace) + UploadTrace(gl.oracle, texture, url, faces)
    ensures gl.errors == old(gl.errors) && gl.nextHandle == old(gl.nextHandle)
  {
    allLoaded := true;
    for i := 0 to |faces|
      invariant allLoaded <==> AllFacesLoad(gl.oracle, url, faces[..i])
      invariant gl.trace + UploadTrace(gl.oracle, texture, url, faces[i..]) == old(gl.trace) + UploadTrace(gl.oracle, texture, url, faces)
      invariant gl.errors == old(gl.errors) && gl.nextHandle == old(gl.nextHandle)
    {
      assert UploadTrace(gl.oracle, texture, url, faces[i..])
          == FaceUpload(gl.oracle, texture, url, faces[i]) + UploadTrace(gl.oracle, texture, url, faces[i + 1..]) by {
        assert faces[i..][1..] == faces[i + 1..];
      }
      ghost var before := gl.trace;
      var loaded := UploadFace(gl, texture, url, faces[i]);
      AppendAssociates3(before, FaceUpload(gl.oracle, texture, url, faces[i]), UploadTrace(gl.oracle, texture, url, faces[i + 1..]));
      AllFacesLoadExtend(gl.oracle, url, faces, i);
      allLoaded := allLoaded && loaded;
    }
    assert faces[..|faces|] == faces;
  }

  lemma AllFacesLoadExtend(o: Oracle, url: string, faces: seq<Face>, i: nat)
    requires i < |faces|
    ensures AllFacesLoad(o, url, faces[..i + 1]) <==> AllFacesLoad(o, url, faces[..i]) && url + faces[i].suffix in o.images
  {
    assert faces[..i + 1] == faces[..i] + [faces[i]];
  }

  /** The load callback of one face; the answer says whether its image loaded. */
  method UploadFace(gl: Context, texture: Handle, url: string, face: Face) returns (loaded: bool)
    modifies gl
    ensures loaded <==> url + face.suffix in gl.oracle.images
    ensures gl.trace == old(gl.trace) + FaceUpload(gl.oracle, texture, url, face)
    ensures gl.errors == old(gl.errors) && gl.nextHandle == old(gl.nextHandle)
  {
    var image := url + face.suffix;
    loaded := image in gl.oracle.images;
    if loaded {
      gl.Emit(BindTexture(TEXTURE_CUBE_MAP, Some(texture)));
      gl.Emit(TexImage2DFromImage(face.target, 0, RGB, RGB, UNSIGNED_BYTE, image));
      gl.Emit(Console(Log, LoadedImage(image)));
    }
  }

  /** A face is uploaded, to its own target and as RGB, exactly when its image loads. */
  lemma {:induction false} UploadedIffLoaded(o: Oracle, texture: Handle, url: string, faces: seq<Face>, face: Face)
    requires face in faces
    ensures TexImage2DFromImage(face.target, 0, RGB, RGB, UNSIGNED_BYTE, url + face.suffix) in UploadTrace(o, texture, url, faces)
            <==> url + face.suffix in o.images
  {
    var e := TexImage2DFromImage(face.target, 0, RGB, RGB, UNSIGNED_BYTE, url + face.suffix);
    if face == faces[0] {
      if url + face.suffix in o.images {
        assert UploadTrace(o, texture, url, faces)[1] == e;
      } else if e in UploadTrace(o, texture, url, faces) {
        UploadsOnlyLoaded(o, texture, url, faces, e);
      }
    } else {
      UploadedIffLoaded(o, texture, url, faces[1..], face);
      if url + face.suffix !in o.images && e in UploadTrace(o, texture, url, faces) {
        UploadsOnlyLoaded(o, texture, url, faces, e);
      }
    }
  }

  /** Every upload of the callbacks is the image of a face that loaded, and the
      callbacks never touch TEXTURE_2D. */
  lemma {:induction false} UploadsOnlyLoaded(o: Oracle, texture: Handle, url: string, faces: seq<Face>, e: Event)
    requires e in UploadTrace(o, texture, url, faces)
    ensures e.TexImage2DFromImage? ==> e.image in o.images
    ensures e.BindTexture? ==> e == BindTexture(TEXTURE_CUBE_MAP, Some(texture))
  {
    if e !in FaceUpload(o, texture, url, faces[0]) {
      UploadsOnlyLoaded(o, texture, url, faces[1..], e);
    }
  }

  /** The cube map is complete only if all six faces loaded; a failed face leaves
      its target empty, and only a complete load ends by unbinding TEXTURE_2D, which is
      then the last call (the cube map itself stays bound). */
  lemma CubemapAllOrNothing(o: Oracle, texture: Handle, url: string, ext: string)
    ensures var t := CubemapTrace(o, texture, url, ext);
      forall face | face in CubeFaces(ext) ::
        TexImage2DFromImage(face.target, 0, RGB, RGB, UNSIGNED_BYTE, url + face.suffix) in t
        <==> url + face.suffix in o.images
    ensures var t := CubemapTrace(o, texture, url, ext);
      BindTexture(TEXTURE_2D, None) in t <==> AllFacesLoad(o, url, CubeFaces(ext))
    ensures var t := CubemapTrace(o, texture, url, ext);
      AllFacesLoad(o, url, CubeFaces(ext)) ==> t[|t| - 1] == BindTexture(TEXTURE_2D, None)
  {
    FacesAllOrNothing(o, texture, url, CubeFaces(ext));
  }

  /** `CubemapAllOrNothing` for any list of faces. */
  lemma FacesAllOrNothing(o: Oracle, texture: Handle, url: string, faces: seq<Face>)
    ensures var t := [Create(TextureObject, Some(texture))] + JoinTrace(o, texture, url, faces)
      + if AllFacesLoad(o, url, faces) then [BindTexture(TEXTURE_2D, None)] else [];
      && (forall face | face in faces ::
        TexImage2DFromImage(face.target, 0, RGB, RGB, UNSIGNED_BYTE, url + face.suffix) in t
        <==> url + face.suffix in o.images)
      && (BindTexture(TEXTURE_2D, None) in t <==> AllFacesLoad(o, url, faces))
      && (AllFacesLoad(o, url, faces) ==> t[|t| - 1] == BindTexture(TEXTURE_2D, None))
  {
    var head := [Create(TextureObject, Some(texture))] + CubemapSetup(texture) + RequestTrace(url, faces);
    var up := UploadTrace(o, texture, url, faces);
    var tail: seq<Event> := if AllFacesLoad(o, url, faces) then [BindTexture(TEXTURE_2D, None)] else [];
    var t := [Create(TextureObject, Some(texture))] + JoinTrace(o, texture, url, faces) + tail;
    assert t == head + up + tail;
    forall face | face in faces
      ensures TexImage2DFromImage(face.target, 0, RGB, RGB, UNSIGNED_BYTE, url + face.suffix) in t
              <==> url + face.suffix in o.images
    {
      UploadedIffLoaded(o, texture, url, faces, face);
      RequestsOnly(url, faces, TexImage2DFromImage(face.target, 0, RGB, RGB, UNSIGNED_BYTE, url + face.suffix));
    }
    if BindTexture(TEXTURE_2D, None) in up {
      UploadsOnlyLoaded(o, texture, url, faces, BindTexture(TEXTURE_2D, None));
    }
    if BindTexture(TEXTURE_2D, None) in RequestTrace(url, faces) {
      RequestsOnly(url, faces, BindTexture(TEXTURE_2D, None));
    }
  }

  /** The k-th request is for the k-th face's image, `url` followed by its suffix. */
  lemma {:induction false} RequestsInOrder(url: string, faces: seq<Face>, k: nat)
    requires k < |faces|
    ensures RequestTrace(url, faces)[k] == RequestImage(url + faces[k].suffix)
  {
    if k > 0 {
      RequestsInOrder(url, faces[1..], k - 1);
    }
  }

  /** `loadCubemap` requests "<url>-posx.<ext>", "<url>-negx.<ext>", ... in this order. */
  lemma CubemapRequests(url: string, ext: string, k: nat)
    requires k < 6
    ensures RequestTrace(url, CubeFaces(ext))[k] == RequestImage(url + "-" + FACE_NAMES[k] + "." + ext)
  {
    RequestsInOrder(url, CubeFaces(ext), k);
    CubeFacesTable(ext);
  }

  /** The request phase only makes images. */
  lemma {:induction false} RequestsOnly(url: string, faces: seq<Face>, e: Event)
    ensures e in RequestTrace(url, faces) ==> e.RequestImage?
  {
    if faces != [] && e in RequestTrace(url, faces[1..]) {
      RequestsOnly(url, faces[1..], e);
    }
  }
}
