# webgl-toolkit core, modelled in Dafny

This project models the deterministic core of the two helper modules of the
WebGL tutorial repository, `webgl-toolkit.mjs` and `tools.mjs`, and proves
properties of that model. The core covers:

- **Geometry.** `getRectangleCoords` gives the two triangles of a
  rectangle. `getPivotPoints` gives the per-vertex offsets that centre a
  sprite. `getUvFromSpriteData` gives an atlas sprite's texture
  coordinates. `setProjectionMatrix` builds the pixel-to-clip matrix.
  Coordinates are reals.
- **findParams.** The name-keyed tables of a linked program's active
  attributes and uniforms:
  - each name loses one leading `\w_` prefix;
  - a later entry overwrites an earlier one under the same key;
  - a `null` detail or location raises.

  The GL introspection results are inputs.
- **createShader and createProgram.** Compile and link success are inputs
  (`Backend`). The model tracks which GL objects are created, deleted and
  left alive on each error path.
- **newWebGLRenderer (webgl-toolkit.mjs) and initializeOnce (tools.mjs).**
  - How the vertex data is chosen: atlas, then caller data, then defaults.
  - The ordered list of `(buffer, attribute location)` pairs built by
    `push`.
  - The texture set up when an image is given.
  - The per-frame closure.
  - The attribute lookups that raise when the program lacks an attribute.
- **The per-frame closure.** It is a class (`Renderer`) whose `Frame`
  method is one call of the closure. A frame does the following in order:
  1. viewport, clear colour, clear and useProgram;
  2. one enable/bind/pointer triple per buffer, in list order;
  3. the projection uniform (toolkit) or the resolution uniform (tools);
  4. the draw decision.

The WebGL context is the class `Gl.Context`. It records every state-changing
call, in order, as a `Cmd` on `trace`. Object handles come from a counter.
`live` holds the objects created and not deleted. `bufferContents` holds the
data last uploaded into each buffer. Every setup method is proved to issue
exactly a call sequence given by a function: `SetupCalls`, `FrameCalls`,
`ProgramCalls`, and so on. Lemmas about those functions then give order and
counts: one texture, one buffer per plan entry, one draw, and so on. The
outcome of every setup method is stated against the buffer plan function
(`BufferPlan`) and the tables function (`ParamTablesOf`). The error cases of
setup are modelled as `Result` values: a failed compile, a failed link, a
`null` from introspection, or a missing attribute or uniform.

## Model

| member | source | states |
|---|---|---|
| Gl.Context.constructor | webgl-toolkit.mjs:9-10 | A fresh context with the given canvas size. Nothing has been called or created yet, nothing is bound and no buffer holds data. |
| Geometry.RectangleCoords | webgl-toolkit.mjs:22-39 | Twelve numbers, six vertices, in the order (x,y), (x+w,y), (x,y+h), (x,y+h), (x+w,y), (x+w,y+h). The two triangles share the top-right to bottom-left diagonal. |
| Geometry.RectangleIsTwoTriangles | tools.mjs:10-27 | For positive width and height, a point is covered by one of the two triangles exactly when it lies in the closed rectangle [x,x+w]×[y,y+h]. |
| Geometry.PivotPoints | webgl-toolkit.mjs:18-20 | Twelve numbers: six identical pairs (-0.5·w, -0.5·h). |
| Geometry.PivotCentresQuad | webgl-toolkit.mjs:195-197 | A sprite's quad at the origin shifted by its pivot offsets has its top-left corner at (-w/2,-h/2), the mirror image of its bottom-right corner. |
| Geometry.UvFromSpriteData | webgl-toolkit.mjs:158-165 | Twelve numbers. Each UV vertex times the image size is the matching vertex of the sprite's pixel rectangle. |
| Geometry.UvWithinUnitSquare | webgl-toolkit.mjs:158-165 | A sprite lying inside a non-empty image has every UV component in [0,1]. |
| Geometry.AtlasDemoSpriteUv | 06-atlas-transform-matrix/index.mjs:70-74 | Sprite 1 of the demo atlas (450,100 / 160×160) in an 800×600 image has the UVs of getRectangleCoords(450/800, 100/600, 160/800, 160/600), all in [0,1]. |
| Geometry.DefaultUvIsUnitRectangle | webgl-toolkit.mjs:192 | The literal default UV list equals getRectangleCoords(0,0,1,1), with every value in [0,1]. |
| Geometry.FlattenLength | webgl-toolkit.mjs:181 | `.flat()` of chunks that each hold n numbers has n times as many numbers as there are chunks. |
| Geometry.FlattenChunk | webgl-toolkit.mjs:181 | In `.flat()` of n-number chunks, chunk i is exactly the slice [n·i, n·i+n). |
| Geometry.Flatten | webgl-toolkit.mjs:181 | `.flat()` one level deep: the chunks joined in order. |
| Geometry.AtlasPositions | webgl-toolkit.mjs:181 | The atlas positions: each sprite's getRectangleCoords(0, 0, w, h), flattened in atlas order. |
| Geometry.AtlasUvs | webgl-toolkit.mjs:190 | The atlas UVs: each sprite's getUvFromSpriteData against the image, flattened in atlas order. |
| Geometry.AtlasPivots | webgl-toolkit.mjs:196 | The atlas pivots: each sprite's getPivotPoints(w, h), flattened in atlas order. |
| Geometry.AtlasLengths | webgl-toolkit.mjs:180-197 | The atlas positions, UVs and pivots each hold 12 numbers per sprite. |
| Geometry.AtlasSpriteLayout | webgl-toolkit.mjs:181-196 | Sprite i owns the numbers [12i, 12i+12) of each of the three lists. There they are its origin quad, its UV rectangle and its pivot offsets. |
| Geometry.Quotient | webgl-toolkit.mjs:53-54 | A nonzero numerator over a zero size gives an infinity of the numerator's sign. Otherwise the quotient is finite and multiplies back to the numerator. |
| Geometry.ProjectionMatrix | webgl-toolkit.mjs:50-57 | Nine column-major entries. All are finite exactly when both sizes are nonzero; entry 0 depends on the width and entry 4 on the height. |
| Geometry.ProjectionToClip | webgl-toolkit.mjs:50-57 | Applied to (x,y,1), the matrix gives (2x/w-1, 1-2y/h, 1): x is scaled and y is flipped. |
| Geometry.ProjectionCorners | webgl-toolkit.mjs:52-56 | Pixel (0,0) maps to clip (-1,1) and (w,h) maps to (1,-1). |
| Params.StripPrefix | webgl-toolkit.mjs:93 | The key differs from the name exactly when the name starts with a word character and then `_`. In that case the name is those two characters followed by the key. |
| Params.StripPrefixOnce | webgl-toolkit.mjs:93 | Only one prefix is removed, whatever follows it. |
| Params.StripPrefixExamples | tools.mjs:72 | `a_position`→`position`, `u_resolution`→`resolution`, `a_u_x`→`u_x`, `__x`→`x`; `gl_X` and `position` are unchanged. |
| Params.Resolve | tools.mjs:63-77 | A `null` detail raises the details error. Otherwise a `null` location raises the location error. Otherwise the entry is filed under the stripped name with its location and type. The name is stored only in the tools.mjs variant. |
| Params.BuildTable | webgl-toolkit.mjs:83-98 | One pass of findParams: the entries resolved in index order, each filed under its key over any earlier entry with that key, or the error of the first entry that fails. Its properties are the BuildTable lemmas below. |
| Params.ParamTablesOf | webgl-toolkit.mjs:77-100 | The result of findParams: the attribute table of pass 0 and the uniform table of pass 1, or the first error. Uniforms are not looked at after an attribute error. |
| Params.BuildTableSucceeds | webgl-toolkit.mjs:83-98 | A table is built exactly when every entry resolves. |
| Params.BuildTableFirstError | webgl-toolkit.mjs:86-91 | The error raised is the first failing entry's. |
| Params.BuildTablePrefixFails | webgl-toolkit.mjs:83-91 | If every entry before i resolves and entry i does not, the whole pass fails with entry i's error. |
| Params.BuildTableKeys | webgl-toolkit.mjs:93-97 | On success, the keys are exactly the stripped names of the entries. |
| Params.BuildTableLastWins | webgl-toolkit.mjs:94-97 | Under each key is the binding of the last entry with that key. |
| Params.ParamTablesOutcome | webgl-toolkit.mjs:77-100 | findParams succeeds exactly when every attribute and every uniform resolves. An attribute error is raised before any uniform is looked at. |
| Params.TexturedProgramTables | tools.mjs:53-83 | Attributes a_position and a_uv with uniform u_resolution give attribute keys {position, uv} and uniform keys {resolution}. |
| Params.FindParams | webgl-toolkit.mjs:74-103 | The two-pass loop (pass 0: attributes, pass 1: uniforms) returns exactly ParamTablesOf: both tables, or the first error. |
| ProgramBuilder.LinkOutcome | webgl-toolkit.mjs:105-123 | Either stage failing to compile raises the compile error. A failed link raises the link error. Otherwise findParams' tables or error is returned, with the program's handle. |
| ProgramBuilder.ShaderCalls | tools.mjs:38-51 | The calls of createShader: create, source, compile, and a delete of that shader when the compile fails. |
| ProgramBuilder.LinkCalls | webgl-toolkit.mjs:108-118 | The calls after both compiles: create the program, attach the vertex then the fragment shader, link, and delete the program when the link fails. |
| ProgramBuilder.ProgramCalls | webgl-toolkit.mjs:105-118 | The calls of createProgram from handle n: the vertex shader's; then, if it compiled, the fragment shader's; then, if that compiled too, the link calls. A raised error stops the sequence. |
| ProgramBuilder.ProgramObjects | webgl-toolkit.mjs:105-118 | The objects createProgram creates: one when the vertex stage fails, two when the fragment stage fails, and three otherwise. |
| ProgramBuilder.ProgramLive | webgl-toolkit.mjs:105-118 | The objects createProgram leaves alive: none, the vertex shader, both shaders, or both shaders and the program, by where it stopped. |
| ProgramBuilder.ProgramCallsCreateNoObjects | webgl-toolkit.mjs:105-123 | createProgram creates no buffer and no texture. |
| ProgramBuilder.CreateShader | tools.mjs:38-51 | The call sequence is create, source, compile, and then a delete if the compile failed. A failed compile leaves no shader alive and raises. |
| ProgramBuilder.LinkProgramWith | tools.mjs:88-102 | The call sequence is create program, attach both shaders, link. A failed link deletes the program, not the shaders, and raises. Otherwise findParams' result is returned. |
| ProgramBuilder.CreateProgram | webgl-toolkit.mjs:105-123 | The calls are exactly ProgramCalls, and the result is LinkOutcome. What stays alive: nothing after a vertex failure; the vertex shader after a fragment failure; both shaders after a link failure; both shaders and the program otherwise. |
| Provision.Provisioned | webgl-toolkit.mjs:185-200 | The `buffers` list matches a plan: entry i is (first + i, the plan's location), and that buffer is alive and holds the plan's data. |
| Provision.BufferCalls | webgl-toolkit.mjs:125-131 | The calls of createBuffer: create, bind to ARRAY_BUFFER, bufferData with the given usage. |
| Provision.BufferCallsCreateOneBuffer | webgl-toolkit.mjs:125-131 | createBuffer creates exactly one buffer and no texture. |
| Provision.CreateBufferWith | tools.mjs:105-111 | A new live buffer is bound to ARRAY_BUFFER and holds the data. The calls are create, bind, bufferData. |
| Provision.PushBuffer | webgl-toolkit.mjs:199-200 | The buffer is created and filled first. In every outcome the next handle becomes a live buffer, bound to ARRAY_BUFFER and holding the data, and every other buffer keeps its contents. A missing attribute then raises with that buffer left behind. Otherwise the list grows by (buffer, location) and still matches its plan. |
| Provision.SetRectangle | webgl-toolkit.mjs:42-48 | One bufferData call with the rectangle's coordinates, which replace the bound buffer's contents. |
| Provision.TextureCalls | webgl-toolkit.mjs:133-148 | The calls of setupTexture: create, bind, clamp S and T to the edge, nearest min and mag filters, then upload the image. |
| Provision.SetupTexture | webgl-toolkit.mjs:133-148 | One new live texture. The calls are create, bind, clamp S and T, nearest min and mag filters, upload. |
| Provision.TextureCallsCreateOneTexture | tools.mjs:137-150 | Texture setup creates exactly one texture and no buffer. |
| Provision.FramePrologue | webgl-toolkit.mjs:208-215 | The start of a frame: viewport(0, 0, width, height), clearColor(0, 0, 0, 0), clear, useProgram. |
| Provision.BindSteps | webgl-toolkit.mjs:219-225 | One buffer's calls in a frame: enable its location, bind the buffer, two floats per vertex from offset 0. |
| Provision.BindAll | webgl-toolkit.mjs:217-226 | The `buffers.forEach` of a frame: each buffer's BindSteps, in list order. |
| Provision.BindAllLayout | webgl-toolkit.mjs:217-226 | The binding calls for buffer i sit at [3i, 3i+3) and are enable(loc), bind(buffer), pointer(loc, 2, false, 0, 0). |
| Provision.BindAllLength | tools.mjs:164-173 | Three binding calls per buffer. |
| Provision.BindStepsCounts | webgl-toolkit.mjs:219-225 | One buffer's steps hold one enable, one bind and one pointer call, and no clear, useProgram or draw. |
| Provision.BindAllCounts | webgl-toolkit.mjs:217-226 | Exactly one enable, one bind and one pointer call per buffer, and no clear, useProgram or draw. |
| Provision.PrologueCounts | webgl-toolkit.mjs:208-215 | The start of a frame clears once, uses the program once, and binds or draws nothing. |
| Provision.BindEach | tools.mjs:164-173 | The forEach loop issues exactly BindAll of the list and leaves the last buffer bound. |
| Provision.BeginFrame | webgl-toolkit.mjs:205-226 | The canvas takes the window size. Then viewport, clearColor(0,0,0,0), clear, useProgram, then every buffer's triple. The last buffer of the list is left bound to ARRAY_BUFFER; with no buffers the binding is unchanged. |
| ToolkitRenderer.Positions | webgl-toolkit.mjs:180-183 | The positions: the atlas quads with an atlas, else the caller's positions, else the canvas rectangle. |
| ToolkitRenderer.Uvs | webgl-toolkit.mjs:189-192 | The UVs: the atlas UVs with an atlas, else the caller's UVs, else the literal unit rectangle. |
| ToolkitRenderer.Pivots | webgl-toolkit.mjs:195-197 | The pivots: per-sprite offsets with an atlas, else the image's offsets. |
| ToolkitRenderer.ChooseData | webgl-toolkit.mjs:179-197 | The data newWebGLRenderer uploads: the positions, plus the UVs and pivots only when an image is given. |
| ToolkitRenderer.BufferPlan | webgl-toolkit.mjs:185-202 | Succeeds exactly when a position attribute exists, and a uv attribute when an image is given. The list is position, then uv (with an image), then pivot (with an image and a pivot attribute), each at its attribute's location. A missing attribute gives its named error. |
| ToolkitRenderer.PositionPriority | webgl-toolkit.mjs:180-183 | With an atlas, sprite i's quad is numbers [12i, 12i+12). Without one, the caller's positions are used. Without those, there are twelve numbers, and when the canvas width and height are both positive they cover exactly the canvas. |
| ToolkitRenderer.UvPriority | webgl-toolkit.mjs:189-192 | With an atlas, there are 12 UVs per sprite, all in [0,1] when the sprites lie inside the image. Without one, the caller's UVs are used. Without those, the unit rectangle. |
| ToolkitRenderer.RenderPassesCount | webgl-toolkit.mjs:230 | The count handed to the renderer: the number of position coordinates over 2, which may be a half. |
| ToolkitRenderer.DrawCount | webgl-toolkit.mjs:150-156 | The vertex count drawArrays uses for the default renderer: the count truncated to an integer. |
| ToolkitRenderer.RendererCalls | webgl-toolkit.mjs:231 | The renderer call: one default draw from offset 0, or the calls the caller's function makes. |
| ToolkitRenderer.FrameCalls | webgl-toolkit.mjs:204-232 | The calls of one frame: the prologue, every buffer's binding calls, then, when the projection uniform exists, the projection matrix and the renderer's calls. Without that uniform the frame stops after the bindings. |
| ToolkitRenderer.DefaultDrawCount | webgl-toolkit.mjs:150-156 | The default renderer draws half the position count, truncated; it is exact for an even count. |
| ToolkitRenderer.FrameOrder | webgl-toolkit.mjs:204-232 | When the projection uniform exists, the frame is the four prologue calls, then every buffer's binding calls, then the projection uniform at 4+3n, then exactly the renderer's calls. With the default renderer those are a single draw from 0 of half the position count, and nothing follows it. |
| ToolkitRenderer.FrameBindingSlot | webgl-toolkit.mjs:217-226 | In every frame, whatever the uniforms and renderer, buffer i's enable, bind and pointer calls sit at [4+3i, 4+3i+3). |
| ToolkitRenderer.DefaultFrameCounts | webgl-toolkit.mjs:204-232 | With the default renderer and when the projection uniform exists, one clear, one useProgram, one enable, one bind and one pointer per buffer, and one draw. |
| ToolkitRenderer.Renderer.constructor | webgl-toolkit.mjs:204 | The closure captures the context, program, buffer list, both tables, the position count and the render function. |
| ToolkitRenderer.Renderer.Frame | webgl-toolkit.mjs:204-232 | The canvas takes the window size and the calls are exactly FrameCalls. The last buffer is left bound to ARRAY_BUFFER, and no object is created or deleted. A missing projection uniform raises after the buffers are bound. |
| ToolkitRenderer.SetupBufferCalls | webgl-toolkit.mjs:185-200 | The calls of the buffer part: the position buffer always; the uv buffer when the position attribute exists and an image is given; the pivot buffer when the uv and pivot attributes exist as well. |
| ToolkitRenderer.SetupBufferCount | webgl-toolkit.mjs:185-200 | The buffers the buffer part creates, by the same conditions: 1, 2 or 3. |
| ToolkitRenderer.SetupBufferContents | webgl-toolkit.mjs:185-200 | Each buffer the buffer part creates holds its upload, even when the attribute lookup after it raises. Every other buffer keeps its contents. |
| ToolkitRenderer.SetupBufferCallsCounts | webgl-toolkit.mjs:185-200 | One buffer per plan entry on success. Two when the uv attribute is missing, one when position is missing. No texture. |
| ToolkitRenderer.Built | webgl-toolkit.mjs:204 | A renderer captures the context, program, both tables, position count and render function, and its buffers match the plan from `first`. |
| ToolkitRenderer.AssembleOutcome | webgl-toolkit.mjs:185-204 | After a successful createProgram, the result is the plan's error or a renderer built on the plan. |
| ToolkitRenderer.SetupOutcome | webgl-toolkit.mjs:176-204 | The result is createProgram's error, else AssembleOutcome. |
| ToolkitRenderer.AssembleCalls | webgl-toolkit.mjs:185-202 | The calls after createProgram: none when it failed; else the buffer calls, then the texture calls when the plan succeeds and an image is given. |
| ToolkitRenderer.AssembleObjects | webgl-toolkit.mjs:185-202 | The objects created after createProgram: its buffers, plus one texture when the plan succeeds and an image is given. |
| ToolkitRenderer.AssembleBound | webgl-toolkit.mjs:185-201 | The ARRAY_BUFFER binding after setup: the last buffer created, or the old binding when createProgram failed. |
| ToolkitRenderer.AssembleContents | webgl-toolkit.mjs:185-200 | The buffer contents after setup: SetupBufferContents, or unchanged when createProgram failed. |
| ToolkitRenderer.SetupCalls | webgl-toolkit.mjs:176-202 | Every call of setup: createProgram's calls, then the calls after it, from the handle after the program's three. |
| ToolkitRenderer.AssembleCallsCounts | webgl-toolkit.mjs:185-202 | After createProgram: a texture exactly when the program linked, the plan succeeded and an image is given. Buffers are counted as in SetupBufferCallsCounts, and none if createProgram failed. |
| ToolkitRenderer.SetupCallsCounts | webgl-toolkit.mjs:176-202 | The same texture and buffer counts for the whole of setup. |
| ToolkitSetup.ProvisionBuffers | webgl-toolkit.mjs:185-200 | The calls are exactly SetupBufferCalls. In every outcome, SetupBufferCount new buffers are created and left alive, the last one stays bound to ARRAY_BUFFER, and the contents become SetupBufferContents. A failing plan returns its error. A succeeding plan yields buffers numbered from the first new handle, alive and holding the plan's data. |
| ToolkitSetup.Assemble | webgl-toolkit.mjs:185-204 | After createProgram: its error is passed on, or the buffers are created, then the texture when an image is given, then the renderer. The calls are AssembleCalls and the outcome is SetupOutcome. Exactly AssembleObjects new handles are used and all stay alive. The binding and the contents become AssembleBound and AssembleContents, so both are unchanged when createProgram failed. |
| ToolkitSetup.AssembleLinked | webgl-toolkit.mjs:185-204 | After a successful createProgram, the calls are the buffer calls, then the texture calls when the plan succeeds and an image is given. The new handles are the buffers then the texture, all alive. The last buffer stays bound and the contents are SetupBufferContents. The result is AssembleOutcome. |
| ToolkitSetup.Complete | webgl-toolkit.mjs:201-204 | Once the buffers exist, setupTexture runs when an image is given, creating one live texture. The result is a renderer built on the plan, whose buffers stay provisioned. |
| ToolkitSetup.Setup | webgl-toolkit.mjs:176-204 | createProgram then Assemble. The calls are SetupCalls. The result is the program's error, else the plan's error, else a renderer built on the plan, with buffers after the program's three objects. Alive afterwards are ProgramLive's objects plus every object created after createProgram, for example both shaders after a failed link. The handle counter advances by ProgramObjects plus AssembleObjects. The binding and contents are AssembleBound and AssembleContents. |
| ToolkitSetup.NewWebGLRenderer | webgl-toolkit.mjs:166-204 | Setup on ChooseData's vertex data for the canvas size, with the same calls, outcome, live objects, handle counter, binding and contents as Setup. |
| ToolsRenderer.BufferPlan | tools.mjs:123-135 | Succeeds exactly when a position attribute exists. The list is position (the caller's list, or empty), then texCoord exactly when that attribute exists (the caller's list, or the unit rectangle). The image plays no part. |
| ToolsRenderer.SetupBufferCalls | tools.mjs:123-135 | The calls of the buffer part: the position buffer always, then the texCoord buffer when both attributes exist, with DYNAMIC_DRAW. |
| ToolsRenderer.SetupBufferCount | tools.mjs:123-135 | The buffers the buffer part creates: 2 when both attributes exist, else 1. |
| ToolsRenderer.SetupBufferContents | tools.mjs:123-135 | The position buffer holds the caller's positions, or nothing, even when the lookup raises. The texCoord buffer, when created, holds the caller's list or the unit rectangle. Every other buffer keeps its contents. |
| ToolsRenderer.SetupBufferCallsCounts | tools.mjs:123-135 | One buffer per plan entry on success and one on failure. No texture. |
| ToolsRenderer.DrawsHere | tools.mjs:177-179 | The closure draws itself when there is no renderer or the renderer returned a truthy value. |
| ToolsRenderer.FrameCalls | tools.mjs:152-186 | The calls of one frame: the prologue, every buffer's binding calls, then, when the resolution uniform exists, that uniform, the renderer's calls and the closure's own draw when DrawsHere. Without that uniform the frame stops after the bindings. |
| ToolsRenderer.DrawDecision | tools.mjs:177-185 | When the resolution uniform exists, the frame's own draw happens exactly when there is no renderer or it returned a truthy value. That draw is the last call, drawTriangles(0, 6). The frame's draws are the renderer's plus that one. |
| ToolsRenderer.FrameOrder | tools.mjs:155-185 | When the resolution uniform exists, the frame is the four prologue calls, then every buffer's binding calls, then the resolution uniform set to the canvas size at 4+3n, then the renderer's calls and, when DrawsHere, the closure's own draw. |
| ToolsRenderer.FrameBindingSlot | tools.mjs:164-173 | In every frame, whatever the uniforms and renderer, buffer i's enable, bind and pointer calls sit at [4+3i, 4+3i+3). |
| ToolsRenderer.PlainFrameCounts | tools.mjs:152-186 | Without a renderer and when the resolution uniform exists, one clear, one useProgram, one enable, one bind and one pointer per buffer, and exactly one draw. |
| ToolsRenderer.Renderer.constructor | tools.mjs:152 | The closure captures the context, program, buffer list, both tables and whether a renderer was given. |
| ToolsRenderer.Renderer.Frame | tools.mjs:152-186 | The canvas takes the window size and the calls are exactly FrameCalls. The last buffer is left bound to ARRAY_BUFFER, and no object is created or deleted. A missing resolution uniform raises after the buffers are bound. |
| ToolsRenderer.Built | tools.mjs:152 | A closure captures the context, program, both tables and whether a renderer was given, and its buffers match the plan from `first`. |
| ToolsRenderer.AssembleOutcome | tools.mjs:123-152 | After a successful createProgram, the result is the missing position attribute or a closure built on the plan. |
| ToolsRenderer.SetupOutcome | tools.mjs:120-152 | The result is createProgram's error, else AssembleOutcome. |
| ToolsRenderer.AssembleCalls | tools.mjs:123-150 | The calls after createProgram: none when it failed; else the buffer calls, then the texture calls when the plan succeeds and an image is given. |
| ToolsRenderer.AssembleObjects | tools.mjs:123-150 | The objects created after createProgram: its buffers, plus one texture when the plan succeeds and an image is given. |
| ToolsRenderer.AssembleBound | tools.mjs:123-135 | The ARRAY_BUFFER binding after setup: the last buffer created, or the old binding when createProgram failed. |
| ToolsRenderer.AssembleContents | tools.mjs:123-135 | The buffer contents after setup: SetupBufferContents, or unchanged when createProgram failed. |
| ToolsRenderer.SetupCalls | tools.mjs:120-150 | Every call of initializeOnce: createProgram's calls, then the calls after it, from the handle after the program's three. |
| ToolsRenderer.AssembleCallsCounts | tools.mjs:123-150 | After createProgram: a texture exactly when the program linked, the position attribute exists and an image is given. One buffer per plan entry, one if position is missing, none if createProgram failed. |
| ToolsRenderer.SetupCallsCounts | tools.mjs:120-150 | The same texture and buffer counts for the whole of initializeOnce. |
| ToolsSetup.ProvisionBuffers | tools.mjs:123-135 | The calls are exactly SetupBufferCalls, with DYNAMIC_DRAW. In every outcome, SetupBufferCount new buffers are left alive, the last one stays bound to ARRAY_BUFFER, and the contents become SetupBufferContents. A missing position attribute raises with the position buffer left alive. Otherwise the buffers are alive and hold the plan's data. |
| ToolsSetup.Assemble | tools.mjs:123-152 | After createProgram: its error is passed on, or the buffers, then the texture when an image is given, then the closure. The calls are AssembleCalls and the outcome is SetupOutcome. Exactly AssembleObjects new handles are used and all stay alive. The binding and the contents become AssembleBound and AssembleContents, so both are unchanged when createProgram failed. |
| ToolsSetup.AssembleLinked | tools.mjs:123-152 | After a successful createProgram, the calls are the buffer calls, then the texture calls when the plan succeeds and an image is given. The new handles are the buffers then the texture, all alive. The last buffer stays bound and the contents are SetupBufferContents. The result is AssembleOutcome. |
| ToolsSetup.Complete | tools.mjs:137-152 | Once the buffers exist, the texture is set up when an image is given, creating one live texture. The result is a closure built on the plan, whose buffers stay provisioned. |
| ToolsSetup.InitializeOnce | tools.mjs:113-152 | The calls are SetupCalls. The result is the program's error, else the missing position attribute, else a closure whose buffers hold the plan's data. Alive afterwards are ProgramLive's objects plus every object created after createProgram. The handle counter advances by ProgramObjects plus AssembleObjects. The binding and contents are AssembleBound and AssembleContents. |

## Left out

- The canvas, the DOM and the window are modelled only as the canvas size. Of `getWebGLContext`, only the canvas sizing is modelled, as the size a fresh context starts with (Gl.Context.constructor). Not modelled: its canvas lookup and context check, `document.getElementById`, the two context checks at the top of initializeOnce, and `window.innerWidth`/`innerHeight`. The context is a parameter, and the window size is an argument of `Frame`.
- Real GPU behaviour is not modelled. Compile and link success and the introspection results are inputs, GL objects are opaque handles, and a frame is its command trace.
- `Float32Array` conversion and float rounding are not modelled. Coordinates are reals. A division by a zero size is modelled in the projection matrix, as an infinity. In Geometry.UvFromSpriteData it is excluded by a requires instead.
- `console.log` output and the info logs are not modelled, because they have no effect on state.
- Random helpers (`randomInt`, `math.mjs`), image loading, animation loops, event listeners, GLSL sources and the demo drivers are outside the core.
- ToolkitRenderer.Renderer.constructor: the closure reads `positions.length` again on every frame (webgl-toolkit.mjs:230). When the caller passes `buffersData.position`, that array is shared by reference and may change length after setup. The model captures the length once, at setup (`positionsLength`), so it does not capture that aliasing.
- ToolkitRenderer.Renderer.Frame: a caller-supplied render function is modelled only by the calls it makes, given as an argument. Its effects on objects, and the arguments it receives, are not tracked. The same holds for ToolsRenderer.Renderer.Frame and the renderer's return value.
- Geometry.UvFromSpriteData: requires a nonzero image size. The source would produce infinities or NaN for an empty image, and ChooseData's requires carries this over only when an atlas is given.
- ToolsRenderer.BufferPlan: an absent `buffersData.position` is modelled as an empty upload (`new Float32Array(undefined)` is empty). A `buffersData` that is not an object, where the source raises before creating any buffer, is not modelled.
- ToolkitSetup.NewWebGLRenderer: the canvas size is read before createProgram rather than after. createProgram does not change the canvas, so the data chosen is the same.
- Leaks on error paths follow the code. A failed fragment compile leaves the vertex shader alive. A failed link leaves both shaders alive. A missing attribute leaves the buffers created before the lookup alive. A failed compile deletes only the failing shader (tools.mjs:46, webgl-toolkit.mjs:67), and a failed link deletes only the program (tools.mjs:96, webgl-toolkit.mjs:116). Nothing else is released on these paths.
- The attribute location check: `getAttribLocation` returns -1, never `null`, for a name it does not know. A probe of an attribute with an absent location therefore matches no real input, and in practice the location error comes only from `getUniformLocation`. The model keeps the source's check in both passes.
- findParams: a comment in `webgl-toolkit.mjs` (line 76) says pass 0 is for uniforms. The code enumerates attributes in pass 0, and the model follows the code.
