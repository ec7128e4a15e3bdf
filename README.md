# webgl-framework, modelled in Dafny

This project models the core of webgl-framework, a thin TypeScript layer over WebGL. The core is:

- a renderer skeleton (`BaseRenderer`) that acquires a context, runs the consumer's hooks in a fixed order, ticks every frame and reports GL errors;
- a shader program lifecycle (`BaseShader`) and one concrete shader (`DiffuseShader`) with its draw call;
- a model made of two binary buffers (`FullModel`);
- a framebuffer with a colour texture and a depth attachment (`FrameBuffer`);
- three texture sources:
  - a PKM/ETC1 compressed-texture decoder (`CompressedTextureLoader`);
  - image and cube-map loaders (`UncompressedTextureLoader`);
  - empty render-target textures (`TextureUtils`);
- a keyframe segment selector (`CombinedAnimation`).

The GPU, the page and the network are one recorder, `Host.Context`:

- Every WebGL call, console line, hook call, `fetch`, image request and `requestAnimationFrame` is appended to `trace`, in order.
- Every query is answered by an `Oracle` that is fixed when the context is made. It supplies:
  - which `create*` calls return null;
  - which shader sources fail to compile;
  - the link status;
  - the active uniforms and attributes;
  - the VERSION string;
  - the framebuffer status;
  - the files `fetch` can get;
  - the images that decode.
- `errors` is the queue `getError` drains.
- Every `create*` call uses up one handle from `nextHandle`, even when it returns null.

Exceptions and promise rejections are the values of `Wrappers.Failure`. An operation that can fail returns a `Result` or an `Outcome`.

Each stateful operation is a method whose `ensures` gives its new trace as `old(trace) + F(...)`; `F` is a function of the inputs and the oracle. What the library promises is then proved about `F` in lemmas: orders, all-or-nothing joins, which branch makes which call, and round trips.

## Model

| member | source | states |
|---|---|---|
| `Host.ErrorDrain` | src/BaseRenderer.ts:210-215 | draining `errs` reads exactly one more error than there are pending errors, and the last read answers NO_ERROR |
| `Host.ErrorDrainReportsInOrder` | src/BaseRenderer.ts:210-215 | the k-th pending error is read at step 2k and logged, with the operation name, right after it |
| `Host.Context.DrainErrors` | src/BaseRenderer.ts:211-214 | the `getError` loop appends the whole drain of the pending queue and leaves the queue empty |
| `Host.Context.NextError` | src/BaseRenderer.ts:33 | `getError` answers NO_ERROR on an empty queue; otherwise it returns and removes the oldest error |
| `Host.Context.FetchFile` | src/FullModel.ts:27-28 | a fetch is recorded, and it yields the file's bytes or nothing when the URL cannot be fetched |
| `Host.Context.Version` | src/TextureUtils.ts:50 | `getParameter(VERSION)` is recorded and answers the context's version, or null |
| `Host.Context.CreateObject` | src/TextureUtils.ts:12 | a `create*` call is recorded with its answer: null for a kind the context cannot create, otherwise a fresh handle, and every call uses up one handle id |
| `Host.Context.CompileStatus` | src/BaseShader.ts:37 | `getShaderParameter(COMPILE_STATUS)` is recorded and is true exactly when the context accepts the shader's code |
| `Host.Context.LinkStatus` | src/BaseShader.ts:97 | `getProgramParameter(LINK_STATUS)` is recorded and answers the context's link result |
| `Host.Context.UniformLocation` | src/BaseShader.ts:60 | `getUniformLocation` is recorded and answers the uniform's location, or null for a name that is not an active uniform |
| `Host.Context.AttribLocation` | src/BaseShader.ts:78 | `getAttribLocation` is recorded and answers the attribute's index, or −1 for a name that is not an active attribute |
| `Host.Context.FramebufferStatus` | src/FrameBuffer.ts:44 | `checkFramebufferStatus(FRAMEBUFFER)` is recorded and answers the context's completeness status |
| `CompressedTextureLoader.BigEndianBytes` | src/CompressedTextureLoader.ts:25-28 | any 16-bit value is written as two bytes that read back, most significant first, to it |
| `CompressedTextureLoader.DecodeHeader` | src/CompressedTextureLoader.ts:22-29 | empty data is the "No texture data received" error; 1 to 15 bytes are a RangeError; from 16 bytes up, width is b[8]·256+b[9] and height is b[10]·256+b[11], both below 65536, and the payload is the byteLength−16 bytes after the header |
| `CompressedTextureLoader.EncodePkm` | src/CompressedTextureLoader.ts:1-5 | a PKM file is the 16-byte header followed by the payload |
| `CompressedTextureLoader.DivModUnique` | src/CompressedTextureLoader.ts:26 | a value q·256 + r with r < 256 splits back into the high byte q and the low byte r, the step `BigEndianRoundTrip` rests on |
| `CompressedTextureLoader.BigEndianRoundTrip` | src/CompressedTextureLoader.ts:26 | reading two bytes big-endian and writing the value back gives the same two bytes |
| `CompressedTextureLoader.DecodeFindsDimensions` | src/CompressedTextureLoader.ts:25-29 | any buffer of 16 or more bytes that holds w and h big-endian at offsets 8-11 decodes to w, h and the bytes after the header |
| `CompressedTextureLoader.DecodeEncode` | src/CompressedTextureLoader.ts:25-29 | decoding an encoded PKM file gives back its dimensions and payload |
| `CompressedTextureLoader.DecodeReencodes` | src/CompressedTextureLoader.ts:25-29 | writing the decoded dimensions back over bytes 8-11 and the payload after the header rebuilds the original buffer |
| `CompressedTextureLoader.LoadEtc1` | src/CompressedTextureLoader.ts:19-42 | the texture is created before the fetch, on every path. A failed fetch or a bad header gives its error and makes no further call. A good header is bound, uploaded at level 0 with ETC1_RGB8_OES and the decoded size, filtered LINEAR for MAG then MIN, unbound and logged, and the texture is returned |
| `CompressedTextureLoader.HeaderExample` | src/CompressedTextureLoader.ts:25-29 | header bytes 01 00 and 00 02 at offsets 8 and 10 give a 256 × 2 texture |
| `CombinedAnimation.Clamp` | src/CombinedAnimation.ts:24-26 | the result lies in [low, high]: `low` below the range, `high` above it, the input itself inside it |
| `CombinedAnimation.CombinedAnimation.constructor` | src/CombinedAnimation.ts:2-4 | a new selector holds the frame count it was given, with start = end = 0 and coefficient 0 |
| `CombinedAnimation.CombinedAnimation.GetStart` | src/CombinedAnimation.ts:6-8 | answers the current start frame |
| `CombinedAnimation.CombinedAnimation.GetEnd` | src/CombinedAnimation.ts:10-12 | answers the current end frame |
| `CombinedAnimation.CombinedAnimation.GetFramesCount` | src/CombinedAnimation.ts:14-16 | answers the constant frame count, which the constructor sets to its argument |
| `CombinedAnimation.CombinedAnimation.GetCurrentCoeff` | src/CombinedAnimation.ts:18-20 | answers the current blend weight between start and end |
| `CombinedAnimation.CombinedAnimation.Animate` | src/CombinedAnimation.ts:28-36 | start is the truncated clamped·(frames−1), pulled back to frames−2 at the top; end is start+1; the coefficient is clamped·(frames−1)−start; frames does not change |
| `CombinedAnimation.ScaleZero` | src/CombinedAnimation.ts:31 | coefficient 0 is position 0, the bottom of the range |
| `CombinedAnimation.ScaleIsProduct` | src/CombinedAnimation.ts:31 | the repeated sum used for clamped·(frames−1) equals the real product |
| `CombinedAnimation.ScaleBounds` | src/CombinedAnimation.ts:31 | for a coefficient in [0,1], the position lies in [0, frames−1], and strictly below frames−1 when the coefficient is below 1 |
| `CombinedAnimation.ScaleMonotone` | src/CombinedAnimation.ts:31 | the position never decreases as the coefficient grows |
| `CombinedAnimation.ScaleOne` | src/CombinedAnimation.ts:31 | coefficient 1 is position frames−1 |
| `CombinedAnimation.FloorMonotone` | src/CombinedAnimation.ts:31 | floor never decreases |
| `CombinedAnimation.TruncMonotone` | src/CombinedAnimation.ts:31 | `Math.trunc` never decreases |
| `CombinedAnimation.SegmentInRange` | src/CombinedAnimation.ts:31-35 | with two or more frames, every clamped coefficient gives 0 ≤ start ≤ frames−2 and a coefficient in [0,1] |
| `CombinedAnimation.WeightBelowOne` | src/CombinedAnimation.ts:31-35 | with two or more frames, a clamped coefficient below 1 gives a blend weight in [0,1) |
| `CombinedAnimation.TopOfRange` | src/CombinedAnimation.ts:32-35 | coefficient 1 selects the last segment, frames−2, with weight exactly 1 |
| `CombinedAnimation.BottomOfRange` | src/CombinedAnimation.ts:29-35 | coefficient 0 (and so any coefficient ≤ 0) selects start 0 with weight 0 |
| `CombinedAnimation.ChosenStartMonotone` | src/CombinedAnimation.ts:31-33 | truncation followed by the pull-back at the top never decreases in the position |
| `CombinedAnimation.ClampedMonotone` | src/CombinedAnimation.ts:29 | clamping to [0,1] never decreases in the coefficient |
| `CombinedAnimation.StartMonotone` | src/CombinedAnimation.ts:28-36 | the chosen start frame never decreases as the coefficient grows |
| `CombinedAnimation.SingleFrame` | src/CombinedAnimation.ts:31-35 | with one frame there is no guard: start is −1 and the weight 1, whatever the coefficient |
| `BaseShader.BaseShader.constructor` | src/BaseShader.ts:9-12 | construction stores the code the subclass supplies and runs the initialisation once: the program is the one `initShader` keeps, and the trace is exactly its trace |
| `BaseShader.BaseShader.GetShader` | src/BaseShader.ts:26-43 | the shader is returned only when it was created and compiled. Otherwise the trace ends with a warning and nothing is returned |
| `BaseShader.BaseShader.InitShader` | src/BaseShader.ts:84-107 | fragment then vertex shader, then createProgram. The program is kept exactly when both stages and the program exist; the trace is the initialisation trace |
| `BaseShader.BaseShader.GetUniform` | src/BaseShader.ts:56-66 | throws "No program for shader." without a program and `Cannot get uniform "<name>".` for an inactive name; otherwise returns the location |
| `BaseShader.BaseShader.GetAttrib` | src/BaseShader.ts:74-79 | throws without a program; otherwise returns the raw location, −1 for an unknown name |
| `BaseShader.BaseShader.Use` | src/BaseShader.ts:112-116 | issues one useProgram exactly when a program exists |
| `BaseShader.BaseShader.DeleteProgram` | src/BaseShader.ts:121-125 | issues one deleteProgram exactly when a program exists, and leaves the program set, so a second delete repeats the call |
| `BaseShader.FragmentBeforeVertex` | src/BaseShader.ts:85-86 | the first object made is the fragment shader, and the vertex shader is made right after the fragment stage |
| `BaseShader.FailedStageWarns` | src/BaseShader.ts:29-40 | a stage that is not created or does not compile ends with a warning |
| `BaseShader.ShaderTraceLinksNothing` | src/BaseShader.ts:26-43 | compiling a stage never attaches, links or uses a program |
| `BaseShader.KeptIffLinked` | src/BaseShader.ts:89-104 | a program p is kept exactly when p is linked during initialisation |
| `BaseShader.AttachOrder` | src/BaseShader.ts:93-103 | when the program is made, the vertex shader is attached before the fragment shader, the link follows, and the trace ends with useProgram of the new program |
| `BaseShader.LinkStatusOnlyLogs` | src/BaseShader.ts:97-104 | LINK_STATUS changes only the console line: the program is kept either way |
| `FullModel.IndexCount` | src/FullModel.ts:34 | numIndices·6 is the index byte length: 16-bit indices, three per triangle |
| `FullModel.FullModel.constructor` | src/FullModel.ts:5-12 | a new model has no buffers and numIndices 0 |
| `FullModel.FullModel.GetNumIndices` | src/FullModel.ts:53-55 | answers numIndices, which `Load` sets to byteLength/2/3 of the index file |
| `FullModel.FullModel.LoadBuffer` | src/FullModel.ts:14-18 | binds the buffer to the target and uploads all the bytes once with STATIC_DRAW |
| `FullModel.FullModel.Load` | src/FullModel.ts:26-38 | the indices are fetched, then the strides. It succeeds exactly when both files arrive. On failure it rejects, creates no buffer and leaves the model unchanged. On success the two buffers are the next two handles and numIndices is byteLength/2/3 |
| `FullModel.FullModel.BindBuffers` | src/FullModel.ts:43-46 | binds strides to ARRAY_BUFFER, then indices to ELEMENT_ARRAY_BUFFER |
| `FullModel.IndicesFetchedFirst` | src/FullModel.ts:27-28 | the indices file is fetched first, and the strides file is fetched only when the indices arrived |
| `FullModel.FailedLoadOnlyFetches` | src/FullModel.ts:27-37 | when a file is missing, the load's trace holds nothing but fetches |
| `FullModel.LoadedUploads` | src/FullModel.ts:32-37 | a load uploads the index bytes to ELEMENT_ARRAY_BUFFER and the stride bytes to ARRAY_BUFFER, each whole with STATIC_DRAW |
| `FullModel.TwelveBytesTwoTriangles` | src/FullModel.ts:34 | 12 index bytes give numIndices 2 |
| `BaseRenderer.Canvas.constructor` | src/BaseRenderer.ts:19 | a canvas holds its drawing-buffer size, its page size and the context types it grants |
| `BaseRenderer.BaseRenderer.constructor` | src/BaseRenderer.ts:5-21 | a new renderer has no context, no canvas, a 0 × 0 viewport, identity matrices and isWebGL2 false |
| `BaseRenderer.BaseRenderer.Gl` | src/BaseRenderer.ts:24-29 | the getter answers exactly when a context has been stored, and throws "No WebGL context" otherwise |
| `BaseRenderer.BaseRenderer.GetMVPMatrix` | src/BaseRenderer.ts:224-226 | answers the MVP matrix that `CalculateMVPMatrix` last built |
| `BaseRenderer.BaseRenderer.GetOrthoMatrix` | src/BaseRenderer.ts:229-231 | answers the orthographic matrix |
| `BaseRenderer.BaseRenderer.GetModelMatrix` | src/BaseRenderer.ts:234-236 | answers the model matrix |
| `BaseRenderer.BaseRenderer.GetViewMatrix` | src/BaseRenderer.ts:239-241 | answers the view matrix |
| `BaseRenderer.BaseRenderer.LogGLError` | src/BaseRenderer.ts:32-37 | consumes at most one error and warns only about a real one |
| `BaseRenderer.BaseRenderer.SetTexture2D` | src/BaseRenderer.ts:46-50 | activates TEXTURE0+unit, binds the texture to TEXTURE_2D and sets the sampler to the unit |
| `BaseRenderer.BaseRenderer.SetTextureCubemap` | src/BaseRenderer.ts:59-63 | the same, with TEXTURE_CUBE_MAP |
| `BaseRenderer.BaseRenderer.CalculateMVPMatrix` | src/BaseRenderer.ts:83-93 | the model matrix is the transforms applied in the source's order, and MVP = projection · (view · model); nothing else changes |
| `BaseRenderer.BaseRenderer.DrawScene` | src/BaseRenderer.ts:111-115 | sets the viewport to the canvas size, then clears colour and depth to opaque black |
| `BaseRenderer.BaseRenderer.ResizeCanvas` | src/BaseRenderer.ts:190-203 | does nothing without a canvas. Otherwise the canvas ends at floor(client size × ratio), with a missing ratio counting as 1. It is written only when the size differs, so a second call changes nothing |
| `BaseRenderer.BaseRenderer.CheckGlError` | src/BaseRenderer.ts:210-215 | logs every pending error in order and ends with the queue empty |
| `BaseRenderer.BaseRenderer.UnbindBuffers` | src/BaseRenderer.ts:218-221 | unbinds ARRAY_BUFFER, then ELEMENT_ARRAY_BUFFER |
| `BaseRenderer.BaseRenderer.Tick` | src/BaseRenderer.ts:121-126 | schedules the next frame before resizing, drawing and animating, in that order |
| `BaseRenderer.BaseRenderer.InitGL` | src/BaseRenderer.ts:133-141 | asks for "webgl" once and returns it exactly when granted, or throws "Cannot initialize WebGL context" |
| `BaseRenderer.BaseRenderer.InitGL2` | src/BaseRenderer.ts:148-156 | asks for "webgl2". Only when refused does it warn and fall back to "webgl" |
| `BaseRenderer.BaseRenderer.Init` | src/BaseRenderer.ts:164-187 | the order is onBeforeInit, lookup, viewport from the canvas, context, resize, onAfterInit, initShaders, loadData, first tick. A missing canvas throws after onBeforeInit and before anything else. Init returns normally exactly when a context was obtained |
| `BaseRenderer.BaseRenderer.Proceed` | src/BaseRenderer.ts:178-186 | with a stored context: resize, onAfterInit, initShaders, loadData and the first tick; without one: only onInitError. `Init` reaches only the first case, because `InitGL` and `InitGL2` never answer a null context |
| `BaseRenderer.BaseRenderer.Start` | src/BaseRenderer.ts:178-183 | with a context, the canvas is resized, then onAfterInit, initShaders and loadData run, then the first tick |
| `BaseRenderer.ContextRequests` | src/BaseRenderer.ts:148-156 | without requestWebGL2 only "webgl" is asked for. With it, "webgl2" is asked first, and "webgl" exactly when "webgl2" was refused |
| `BaseRenderer.ContextObtained` | src/BaseRenderer.ts:133-156 | a context is obtained exactly when "webgl" is granted, or "webgl2" is both asked for and granted; WebGL 2 only when asked for |
| `BaseRenderer.InitErrorUnreachable` | src/BaseRenderer.ts:178-186 | onInitError is never in the trace `Init` promises. `Init` runs the source's `if (this.m_gl)` test, through `Proceed`, on what `initGL`/`initGL2` answered; they throw instead of answering null, so the else branch is never taken |
| `BaseRenderer.HookOrder` | src/BaseRenderer.ts:176-183 | after the context calls come onAfterInit, initShaders and loadData, then requestAnimationFrame, the viewport, the clear and animate |
| `BaseRenderer.DefaultRatio` | src/BaseRenderer.ts:195 | a missing device pixel ratio behaves as ratio 1 |
| `BaseRenderer.DisplaySizeBounds` | src/BaseRenderer.ts:196-197 | the display size is the largest integer not above client size × ratio |
| `DiffuseShader.PointerCalls` | src/shaders/DiffuseShader.ts:64-67 | one vertexAttribPointer per map entry |
| `DiffuseShader.DiffuseShader.constructor` | src/shaders/DiffuseShader.ts:9-13 | the base shader is built with this class's name and code; the four locations are unset |
| `DiffuseShader.DiffuseShader.Create` | src/BaseShader.ts:9-12 | construction fills the locations exactly when a program was made. A missing uniform makes construction throw that uniform's error |
| `DiffuseShader.DiffuseShader.FillUniformsAttributes` | src/shaders/DiffuseShader.ts:37-42 | looks up view_proj_matrix, rm_Vertex, rm_TexCoord0 and sTexture in that order, throws at the first missing uniform, and otherwise stores all four |
| `DiffuseShader.DiffuseShader.SetPointers` | src/shaders/DiffuseShader.ts:64-67 | the loop over the override map issues exactly the pointer calls of the map, in its order |
| `DiffuseShader.DiffuseShader.DrawModel` | src/shaders/DiffuseShader.ts:45-79 | no GL call and no MVP update unless rm_Vertex, rm_TexCoord0 and view_proj_matrix are set. Otherwise: bind buffers, enable both attributes, pointers, MVP, uniform upload, drawElements, error drain |
| `DiffuseShader.PointerCallsInOrder` | src/shaders/DiffuseShader.ts:64-67 | the k-th pointer call carries the k-th entry's key and descriptor |
| `DiffuseShader.DefaultLayoutInterleaved` | src/shaders/DiffuseShader.ts:69-70 | without a map: 3 position floats at offset 0 and 2 texcoord floats at offset 12, with stride 20 |
| `DiffuseShader.DrawTraceShape` | src/shaders/DiffuseShader.ts:59-78 | both attributes are enabled even with a map. The MVP upload and a TRIANGLES/UNSIGNED_SHORT draw of numIndices·3 follow the pointers |
| `DiffuseShader.DrawCountIsHalfByteLength` | src/shaders/DiffuseShader.ts:76 | with FullModel's numIndices, the draw count is the index byte length / 2 |
| `DiffuseShader.FillOrder` | src/shaders/DiffuseShader.ts:37-42 | the four lookups come in source order |
| `DiffuseShader.FillAfterUse` | src/BaseShader.ts:103-106 | the lookups start only after the program is made current |
| `FrameBuffer.FrameBuffer.constructor` | src/FrameBuffer.ts:2-10 | a new framebuffer holds no handle and no size |
| `FrameBuffer.FrameBuffer.CheckGlError` | src/FrameBuffer.ts:55-60 | drains and logs every pending error |
| `FrameBuffer.FrameBuffer.CreateGLData` | src/FrameBuffer.ts:13-53 | width and height are always stored. Without a colour texture and a positive size nothing else happens. Otherwise a framebuffer is made with the colour texture at COLOR_ATTACHMENT0. Without a depth texture, a renderbuffer is made and kept; with one, the renderbuffer handle is untouched. The bindings end reset |
| `FrameBuffer.ErrorDrainOnlyReports` | src/FrameBuffer.ts:55-60 | an error drain only reads errors and logs them |
| `FrameBuffer.RenderbufferIffNoDepthTexture` | src/FrameBuffer.ts:28-42 | a renderbuffer is made exactly when there is no depth texture |
| `FrameBuffer.RenderbufferSize` | src/FrameBuffer.ts:33 | the renderbuffer is DEPTH_COMPONENT16 of the stored width × height |
| `FrameBuffer.StatusOnlyLogged` | src/FrameBuffer.ts:44-51 | an incomplete status only adds an error line; the renderbuffer and framebuffer bindings are reset to null at the end either way |
| `FrameBuffer.ColorAttachedFirst` | src/FrameBuffer.ts:18-25 | the framebuffer is made first and the colour texture is attached to it at COLOR_ATTACHMENT0 |
| `UncompressedTextureLoader.Load` | src/UncompressedTextureLoader.ts:2-41 | rejects with "Error creating WebGL texture", before any image request, without a texture. Rejects with "Cannot load image" when the image fails. Otherwise resolves with the texture after the upload |
| `UncompressedTextureLoader.ImageLoaded` | src/UncompressedTextureLoader.ts:19-37 | the `onload` callback appends exactly the bind, RGBA upload, filter, wrap, unbind and log events of `ImageLoadedTrace` |
| `UncompressedTextureLoader.LoadFailureUploadsNothing` | src/UncompressedTextureLoader.ts:10-15 | on either failure nothing is bound, uploaded or set; without a texture not even an image is requested |
| `UncompressedTextureLoader.LoadedWrapMode` | src/UncompressedTextureLoader.ts:22-30 | both axes wrap CLAMP_TO_EDGE exactly when clamp is set and REPEAT exactly when not; the filters are the given ones |
| `UncompressedTextureLoader.LoadedUploadFirst` | src/UncompressedTextureLoader.ts:20-31 | the RGBA upload precedes every parameter, and TEXTURE_2D is unbound after the last one |
| `UncompressedTextureLoader.CubeFaces` | src/UncompressedTextureLoader.ts:56-63 | the table has six faces |
| `UncompressedTextureLoader.CubeFacesTable` | src/UncompressedTextureLoader.ts:56-63 | the faces are +X, −X, +Y, −Y, +Z, −Z in enumerant order, named "-posx.<ext>" and so on, and no two faces share a file |
| `UncompressedTextureLoader.RequestTrace` | src/UncompressedTextureLoader.ts:64-66 | one image request per face |
| `UncompressedTextureLoader.LoadCubemap` | src/UncompressedTextureLoader.ts:43-88 | throws without a texture. Otherwise it sets the cube-map parameters, requests all six faces and uploads each face that loads. It resolves with the texture exactly when all six loaded, and otherwise rejects with "Cannot load image" |
| `UncompressedTextureLoader.RequestFaces` | src/UncompressedTextureLoader.ts:63-66 | requests the faces in table order |
| `UncompressedTextureLoader.UploadFaces` | src/UncompressedTextureLoader.ts:68-83 | runs each face callback and answers, as Promise.all does, whether every face loaded |
| `UncompressedTextureLoader.UploadFace` | src/UncompressedTextureLoader.ts:68-79 | a face that loads binds the cube map and uploads RGB to its own target; a failed face uploads nothing |
| `UncompressedTextureLoader.UploadedIffLoaded` | src/UncompressedTextureLoader.ts:68-79 | a face is uploaded to its target exactly when its image loads |
| `UncompressedTextureLoader.UploadsOnlyLoaded` | src/UncompressedTextureLoader.ts:68-79 | every upload is of an image that loaded, and the callbacks bind only the cube map |
| `UncompressedTextureLoader.CubemapAllOrNothing` | src/UncompressedTextureLoader.ts:79-87 | each face is uploaded exactly when it loads. TEXTURE_2D, not the cube map, is unbound exactly when all six loaded, and that unbind is the last call |
| `UncompressedTextureLoader.RequestsOnly` | src/UncompressedTextureLoader.ts:63-66 | the request phase does nothing but request images |
| `UncompressedTextureLoader.RequestsInOrder` | src/UncompressedTextureLoader.ts:63-66 | the k-th request is for the image `url` followed by the k-th face's suffix |
| `UncompressedTextureLoader.CubemapRequests` | src/UncompressedTextureLoader.ts:56-66 | `loadCubemap` requests `<url>-posx.<ext>`, `-negx`, `-posy`, `-negy`, `-posz`, `-negz`, in that order |
| `TextureUtils.ContainsIffOccurs` | src/TextureUtils.ts:53 | `includes` holds exactly when the needle occurs at some position |
| `TextureUtils.CreateNpotTexture` | src/TextureUtils.ts:11-32 | creates, binds, filters and clamps, then uploads an empty image. The texture createTexture gave is returned unchecked |
| `TextureUtils.NpotUpload` | src/TextureUtils.ts:19-29 | the upload is a level-0, border-0, data-less UNSIGNED_BYTE image of the given size. Format and internal format agree: RGBA exactly with alpha, RGB exactly without |
| `TextureUtils.CreateDepthTexture` | src/TextureUtils.ts:41-62 | creates, binds, filters and clamps, reads VERSION, then uploads an empty depth image; returns the texture |
| `TextureUtils.DepthFormatChoice` | src/TextureUtils.ts:50-55 | DEPTH_COMPONENT16 exactly when the VERSION string contains "WebGL 2", otherwise DEPTH_COMPONENT, also for a null VERSION |
| `TextureUtils.DepthFormatExamples` | src/TextureUtils.ts:53-55 | "WebGL 2.0 …" gives DEPTH_COMPONENT16 and "WebGL 1.0" gives DEPTH_COMPONENT |
| `TextureUtils.DepthUpload` | src/TextureUtils.ts:52-59 | the depth upload has format DEPTH_COMPONENT, type UNSIGNED_SHORT, no data, level 0 and the given size, and follows the VERSION query |
| `TextureUtils.BothSamplableAsNpot` | src/TextureUtils.ts:14-17 | both textures get a non-mipmap minification filter and CLAMP_TO_EDGE on both axes, so either can be sampled at a non-power-of-two size |

## Left out

- `setFOV` and the numbers inside `calculateMVPMatrix` (src/BaseRenderer.ts:74-93): matrices are symbolic terms (module `Matrix`) that record only which transforms are applied and in what order; gl-matrix arithmetic and trigonometry are not modelled.
- BinaryDataLoader, image decoding and the DOM lookup: their outcomes come from the oracle (the files `fetch` can get, the images that decode) or are method parameters (the canvas `getElementById` found, the device pixel ratio). Image dimensions are not modelled, so the "Loaded texture" line of the image loaders records only the URL.
- Promise and async scheduling: every loader runs to completion in one call. The cube-map face callbacks run one after another in table order. In a browser they may run in any order, and each face that loads is still uploaded after Promise.all has rejected; the model puts all of those uploads before the result.
- `requestAnimationFrame` only records that a frame was scheduled; the next frame's tick is not modelled.
- The GLSL text of `fillCode` (src/shaders/DiffuseShader.ts:16-34) is an opaque tag; compile success is an oracle answer.
- Console output is structured: the console events carry the values that the source's messages format.
- GL calls never push errors: the error queue is whatever is pending when the context is made.
- The FrameBuffer accessors (src/FrameBuffer.ts:62-101) are plain reads and writes, so they are the class's fields.
- src/utils/FullscreenUtils.ts, src/webgl-framework.ts (re-exports), src/RendererWithExposedMethods.ts and src/DrawableShader.ts (interfaces), and the legacy src/FrameBuffer.js, src/TextureUtils.js and src/UncompressedTextureLoader.js are not part of this model.
- The `abstract` hooks (`onBeforeInit`, `initShaders`, `animate`, ...) are recorded as events only; what a consumer does in them is not modelled.
- Numbers: real JavaScript numbers are `real` (coefficients, client sizes, numIndices) or `int` (sizes, handles); 64-bit floating-point rounding is not modelled.
- `isWebGL2` is never set to true by the source (src/BaseRenderer.ts:14), and the model keeps it false.
- The inheritance DiffuseShader → BaseShader is composition: `DiffuseShader.Create` builds the base shader and, when a program was made, runs `FillUniformsAttributes`, as `initShader` does through the virtual call.
- BaseRenderer.BaseRenderer.Init: requires that the lookup result is not `undefined`, because `getElementById` answers an element or null. After a failed lookup the field holds null, and `resizeCanvas` only checks for `undefined`; the model's `ResizeCanvas` reports the TypeError a call would then throw.
- BaseRenderer.BaseRenderer.Tick: requires a stored context and canvas, the state in which `init` schedules it.
- BaseRenderer.BaseRenderer.Start: requires a stored context and canvas; it models the tail of `init` that runs only then.
- BaseShader.BaseShader.InitShader: requires that no program is set yet; the source calls it only from the constructor.
- DiffuseShader.DiffuseShader.FillUniformsAttributes: requires a program; the source calls it only after `program` is assigned.
- DiffuseShader.DiffuseShader.DrawModel: requires that the model and the renderer share one context, because `FullModel.bindBuffers` uses the model's own context and ignores the argument passed at src/shaders/DiffuseShader.ts:59.
- The attribute map that `drawModel` and `setPointers` take (a JavaScript `Map`) is its insertion-ordered list of entries. The list type also admits a repeated key, which a `Map` never holds; `PointerCalls` and `PointerCallsInOrder` cover those inputs as well.
- CombinedAnimation.Clamp: requires low ≤ high; its only caller passes 0 and 1.
- CombinedAnimation.CombinedAnimation.Animate: the frame count is an integer, and the product clamped·(frames−1) is exact, without floating-point rounding.
