/** Textures that are rendered into rather than loaded: a non-power-of-two colour
    texture and a depth texture, both allocated without initial data. */
module TextureUtils {
  import opened Wrappers
  import opened GlConst
  import opened Host

  /** `haystack.includes(needle)` */
  function Contains(haystack: string, needle: string): bool
    decreases |haystack|
  {
    if |needle| > |haystack| then false
    else if haystack[..|needle|] == needle then true
    else Contains(haystack[1..], needle)
  }

  /** `needle` occurs in `haystack` starting at index `i`. */
  predicate OccursAt(haystack: string, needle: string, i: int)
  {
    0 <= i <= |haystack| - |needle| && haystack[i..i + |needle|] == needle
  }

  /** `Contains` holds exactly when `needle` occurs at some position of `haystack`. */
  lemma {:induction false} ContainsIffOccurs(haystack: string, needle: string)
    ensures Contains(haystack, needle) <==> exists i :: OccursAt(haystack, needle, i)
    decreases |haystack|
  {
    if |needle| > |haystack| {
    } else if haystack[..|needle|] == needle {
      assert OccursAt(haystack, needle, 0);
    } else {
      var rest := haystack[1..];
      ContainsIffOccurs(rest, needle);
      if Contains(rest, needle) {
        var i :| OccursAt(rest, needle, i);
        assert haystack[i + 1..i + 1 + |needle|] == rest[i..i + |needle|];
        assert OccursAt(haystack, needle, i + 1);
      }
      if i :| OccursAt(haystack, needle, i) {
        assert i != 0;
        assert rest[i - 1..i - 1 + |needle|] == haystack[i..i + |needle|];
        assert OccursAt(rest, needle, i - 1);
      }
    }
  }

  /** The parameters both functions set on the bound texture: minified without
      mipmaps, magnified with `magFilter`, clamped on both axes. */
  function ClampedParameters(magFilter: nat): seq<Event>
  {
    [ TexParameterf(TEXTURE_2D, TEXTURE_MIN_FILTER, NEAREST),
      TexParameterf(TEXTURE_2D, TEXTURE_MAG_FILTER, magFilter),
      TexParameteri(TEXTURE_2D, TEXTURE_WRAP_S, CLAMP_TO_EDGE),
      TexParameteri(TEXTURE_2D, TEXTURE_WRAP_T, CLAMP_TO_EDGE) ]
  }

  /** A texture setup can be sampled as a non-power-of-two texture: its minification
      filter is set, and to a filter without mipmaps, and both axes are set, and only
      to CLAMP_TO_EDGE. */
  predicate NpotSamplable(t: seq<Event>)
  {
    && (exists i :: 0 <= i < |t| && IsParameter(t[i], TEXTURE_MIN_FILTER))
    && (exists i :: 0 <= i < |t| && IsParameter(t[i], TEXTURE_WRAP_S))
    && (exists i :: 0 <= i < |t| && IsParameter(t[i], TEXTURE_WRAP_T))
    && (forall i :: 0 <= i < |t| && IsParameter(t[i], TEXTURE_MIN_FILTER) ==> t[i].param in {NEAREST, LINEAR})
    && (forall i :: 0 <= i < |t| && IsParameter(t[i], TEXTURE_WRAP_S) ==> t[i].param == CLAMP_TO_EDGE)
    && (forall i :: 0 <= i < |t| && IsParameter(t[i], TEXTURE_WRAP_T) ==> t[i].param == CLAMP_TO_EDGE)
  }

  /** Whether `e` sets the texture parameter `pname`, as an integer or a float. */
  predicate IsParameter(e: Event, pname: nat)
  {
    (e.TexParameteri? || e.TexParameterf?) && e.pname == pname
  }

  /** The format of a non-power-of-two texture: RGBA with alpha, RGB without. */
  function NpotFormat(hasAlpha: bool): nat
  {
    if hasAlpha then RGBA else RGB
  }

  /** Everything `createNpotTexture` does with the texture `texture` createTexture gave. */
  function NpotTrace(texture: Option<Handle>, width: int, height: int, hasAlpha: bool): seq<Event>
  {
    [Create(TextureObject, texture), BindTexture(TEXTURE_2D, texture)]
    + ClampedParameters(LINEAR)
    + [TexImage2DEmpty(TEXTURE_2D, 0, NpotFormat(hasAlpha), width, height, 0, NpotFormat(hasAlpha), UNSIGNED_BYTE)]
  }

  /** `TextureUtils.createNpotTexture(gl, texWidth, texHeight, hasAlpha)`. The texture
      is not checked for null. */
  method CreateNpotTexture(gl: Context, width: int, height: int, hasAlpha: bool := false) returns (texture: Option<Handle>)
    modifies gl
    ensures texture == old(gl.Next(TextureObject))
    ensures gl.trace == old(gl.trace) + NpotTrace(texture, width, height, hasAlpha)
    ensures gl.errors == old(gl.errors) && gl.nextHandle == old(gl.nextHandle) + 1
  {
    texture := gl.CreateObject(TextureObject);
    gl.Emit(BindTexture(TEXTURE_2D, texture));
    gl.Emit(TexParameterf(TEXTURE_2D, TEXTURE_MIN_FILTER, NEAREST));
    gl.Emit(TexParameterf(TEXTURE_2D, TEXTURE_MAG_FILTER, LINEAR));
    gl.Emit(TexParameteri(TEXTURE_2D, TEXTURE_WRAP_S, CLAMP_TO_EDGE));
    gl.Emit(TexParameteri(TEXTURE_2D, TEXTURE_WRAP_T, CLAMP_TO_EDGE));
    var glFormat, glInternalFormat;
    if hasAlpha {
      glFormat := RGBA;
      glInternalFormat := RGBA;
    } else {
      glFormat := RGB;
      glInternalFormat := RGB;
    }
    gl.Emit(TexImage2DEmpty(TEXTURE_2D, 0, glInternalFormat, width, height, 0, glFormat, UNSIGNED_BYTE));
  }

  /** The NPOT upload is a level-0, border-0 image of the requested size with no
      data, whose format and internal format agree: RGBA exactly when alpha was
      asked for, RGB exactly when it was not. */
  lemma NpotUpload(texture: Option<Handle>, width: int, height: int, hasAlpha: bool)
    ensures var t := NpotTrace(texture, width, height, hasAlpha);
      var e := t[|t| - 1];
      && e.TexImage2DEmpty? && e.target == TEXTURE_2D && e.level == 0 && e.border == 0
      && e.width == width && e.height == height && e.glType == UNSIGNED_BYTE
      && e.internalFormat == e.format
      && (e.format == RGBA <==> hasAlpha) && (e.format == RGB <==> !hasAlpha)
  {
  }

  /** The depth texture's internal format: DEPTH_COMPONENT16 on a WebGL 2 context,
      otherwise the unsized DEPTH_COMPONENT. */
  function DepthInternalFormat(version: Option<string>): nat
  {
    var text := if version.Some? then version.value else "";
    if Contains(text, "WebGL 2") then DEPTH_COMPONENT16 else DEPTH_COMPONENT
  }

  /** Everything `createDepthTexture` does, given the texture createTexture gave and
      the VERSION string the context reported. */
  function DepthTrace(texture: Option<Handle>, width: int, height: int, version: Option<string>): seq<Event>
  {
    [Create(TextureObject, texture), BindTexture(TEXTURE_2D, texture)]
    + ClampedParameters(NEAREST)
    + [ GetVersion(version),
        TexImage2DEmpty(TEXTURE_2D, 0, DepthInternalFormat(version), width, height, 0, DEPTH_COMPONENT, UNSIGNED_SHORT) ]
  }

  /** `TextureUtils.createDepthTexture(gl, texWidth, texHeight)`. */
  method CreateDepthTexture(gl: Context, width: int, height: int) returns (texture: Option<Handle>)
    modifies gl
    ensures texture == old(gl.Next(TextureObject))
    ensures gl.trace == old(gl.trace) + DepthTrace(texture, width, height, gl.oracle.version)
    ensures gl.errors == old(gl.errors) && gl.nextHandle == old(gl.nextHandle) + 1
  {
    texture := gl.CreateObject(TextureObject);
    gl.Emit(BindTexture(TEXTURE_2D, texture));
    gl.Emit(TexParameterf(TEXTURE_2D, TEXTURE_MIN_FILTER, NEAREST));
    gl.Emit(TexParameterf(TEXTURE_2D, TEXTURE_MAG_FILTER, NEAREST));
    gl.Emit(TexParameteri(TEXTURE_2D, TEXTURE_WRAP_S, CLAMP_TO_EDGE));
    gl.Emit(TexParameteri(TEXTURE_2D, TEXTURE_WRAP_T, CLAMP_TO_EDGE));
    var reported := gl.Version();
    var version := if reported.Some? then reported.value else "";
    var glFormat := DEPTH_COMPONENT;
    var glInternalFormat := if Contains(version, "WebGL 2") then DEPTH_COMPONENT16 else DEPTH_COMPONENT;
    var glType := UNSIGNED_SHORT;
    gl.Emit(TexImage2DEmpty(TEXTURE_2D, 0, glInternalFormat, width, height, 0, glFormat, glType));
  }

  /** The sized format is chosen exactly when "WebGL 2" occurs in the VERSION string;
      a null VERSION counts as the empty string and gives the unsized format. */
  lemma DepthFormatChoice(version: Option<string>)
    ensures DepthInternalFormat(version) == DEPTH_COMPONENT16
            <==> version.Some? && exists i :: OccursAt(version.value, "WebGL 2", i)
    ensures DepthInternalFormat(version) == DEPTH_COMPONENT16 || DepthInternalFormat(version) == DEPTH_COMPONENT
    ensures version.None? ==> DepthInternalFormat(version) == DEPTH_COMPONENT
  {
    if version.Some? {
      ContainsIffOccurs(version.value, "WebGL 2");
    }
  }

  /** The strings browsers report: "WebGL 2.0 ..." gives DEPTH_COMPONENT16 and
      "WebGL 1.0 ..." gives DEPTH_COMPONENT. */
  lemma DepthFormatExamples(rest: string)
    ensures DepthInternalFormat(Some("WebGL 2.0" + rest)) == DEPTH_COMPONENT16
    ensures DepthInternalFormat(Some("WebGL 1.0")) == DEPTH_COMPONENT
  {
    var two := "WebGL 2.0" + rest;
    assert OccursAt(two, "WebGL 2", 0);
    ContainsIffOccurs(two, "WebGL 2");
    var one := "WebGL 1.0";
    ContainsIffOccurs(one, "WebGL 2");
    forall i | 0 <= i <= 2
      ensures !OccursAt(one, "WebGL 2", i)
    {
      assert one[i..i + 7][6 - i] != "WebGL 2"[6 - i];
    }
  }

  /** The depth upload has no data, format DEPTH_COMPONENT and type UNSIGNED_SHORT,
      at level 0 and the requested size, after the VERSION query. */
  lemma DepthUpload(texture: Option<Handle>, width: int, height: int, version: Option<string>)
    ensures var t := DepthTrace(texture, width, height, version);
      var e := t[|t| - 1];
      && e.TexImage2DEmpty? && e.target == TEXTURE_2D && e.level == 0 && e.border == 0
      && e.width == width && e.height == height
      && e.format == DEPTH_COMPONENT && e.glType == UNSIGNED_SHORT
      && e.internalFormat == DepthInternalFormat(version)
      && t[|t| - 2] == GetVersion(version)
  {
  }

  /** Both textures can be sampled as non-power-of-two textures. */
  lemma BothSamplableAsNpot(texture: Option<Handle>, width: int, height: int, hasAlpha: bool, version: Option<string>)
    ensures NpotSamplable(NpotTrace(texture, width, height, hasAlpha))
    ensures NpotSamplable(DepthTrace(texture, width, height, version))
  {
    var n := NpotTrace(texture, width, height, hasAlpha);
    assert IsParameter(n[2], TEXTURE_MIN_FILTER) && IsParameter(n[4], TEXTURE_WRAP_S) && IsParameter(n[5], TEXTURE_WRAP_T);
    var d := DepthTrace(texture, width, height, version);
    assert IsParameter(d[2], TEXTURE_MIN_FILTER) && IsParameter(d[4], TEXTURE_WRAP_S) && IsParameter(d[5], TEXTURE_WRAP_T);
  }
}
