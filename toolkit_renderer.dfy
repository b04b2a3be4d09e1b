/**
 * newWebGLRenderer (webgl-toolkit.mjs): builds the program, chooses the
 * vertex data for each buffer, uploads it, optionally sets up a texture, and
 * returns the per-frame closure, modelled as the class `Renderer` whose
 * `Frame` method is one call of that closure.
 */
module ToolkitRenderer {
  import opened Wrappers
  import opened Errors
  import opened Geometry
  import opened Gl
  import opened Params
  import opened ProgramBuilder
  import opened Provision

  /** The optional `buffersData` argument: explicit positions and UVs. */
  datatype BuffersData = BuffersData(position: Option<seq<real>>, uv: Option<seq<real>>)

  /** The `renderer` argument: the default one, or a caller's function whose calls are given per frame. */
  datatype RenderFn = DefaultRenderer | CustomRenderer

  /** Atlas UVs divide by the image size, so the model needs it nonzero when both are given. */
  predicate AtlasScalable(image: Option<Image>, atlas: Option<seq<Sprite>>) {
    image.Some? && atlas.Some? ==> image.value.width > 0 && image.value.height > 0
  }

  // ---------------------------------------------------------------------------
  // Choosing the data
  // ---------------------------------------------------------------------------

  /** Positions: atlas quads, else the caller's positions, else the whole canvas. */
  function Positions(atlas: Option<seq<Sprite>>, buffersData: Option<BuffersData>, canvasWidth: nat, canvasHeight: nat): seq<real> {
    if atlas.Some? then AtlasPositions(atlas.value)
    else if buffersData.Some? && buffersData.value.position.Some? then buffersData.value.position.value
    else RectangleCoords(0.0, 0.0, canvasWidth as real, canvasHeight as real)
  }

  /** UVs: atlas UVs, else the caller's UVs, else the whole image. */
  function Uvs(atlas: Option<seq<Sprite>>, buffersData: Option<BuffersData>, image: Image): seq<real>
    requires atlas.Some? ==> image.width > 0 && image.height > 0
  {
    if atlas.Some? then AtlasUvs(image, atlas.value)
    else if buffersData.Some? && buffersData.value.uv.Some? then buffersData.value.uv.value
    else DefaultUv
  }

  /** Pivots: per-sprite offsets, else one offset for the whole image. */
  function Pivots(atlas: Option<seq<Sprite>>, image: Image): seq<real> {
    if atlas.Some? then AtlasPivots(atlas.value)
    else PivotPoints(image.width as real, image.height as real)
  }

  /** The extra data uploaded when an image is given. */
  datatype TexturedData = TexturedData(uv: seq<real>, pivot: seq<real>)

  /** What newWebGLRenderer uploads: positions, and uv and pivot data when an image is given. */
  datatype VertexData = VertexData(positions: seq<real>, textured: Option<TexturedData>)

  /** The data chosen for the given arguments and canvas size. */
  function ChooseData(buffersData: Option<BuffersData>, image: Option<Image>, atlas: Option<seq<Sprite>>,
                      canvasWidth: nat, canvasHeight: nat): VertexData
    requires AtlasScalable(image, atlas)
  {
    VertexData(Positions(atlas, buffersData, canvasWidth, canvasHeight),
               if image.None? then None else Some(TexturedData(Uvs(atlas, buffersData, image.value), Pivots(atlas, image.value))))
  }

  /**
   * The `buffers` list newWebGLRenderer builds: position first; with an image,
   * uv next and pivot last when the program has a pivot attribute.  A missing
   * position attribute, or a missing uv attribute when an image is given,
   * raises.
   */
  function BufferPlan(attributes: map<string, Binding>, data: VertexData): (r: Result<seq<BufferSpec>, SetupError>)
    ensures r.Success? <==> "position" in attributes && (data.textured.Some? ==> "uv" in attributes)
    ensures "position" !in attributes ==> r == Failure(MissingAttribute("position"))
    ensures "position" in attributes && data.textured.Some? && "uv" !in attributes ==> r == Failure(MissingAttribute("uv"))
    ensures r.Success? ==>
      |r.value| == (if data.textured.None? then 1 else if "pivot" in attributes then 3 else 2) &&
      r.value[0] == BufferSpec(data.positions, attributes["position"].location) &&
      (data.textured.Some? ==> r.value[1] == BufferSpec(data.textured.value.uv, attributes["uv"].location)) &&
      (|r.value| == 3 ==> r.value[2] == BufferSpec(data.textured.value.pivot, attributes["pivot"].location))
  {
    if "position" !in attributes then Failure(MissingAttribute("position"))
    else
      var position := [BufferSpec(data.positions, attributes["position"].location)];
      if data.textured.None? then Success(position)
      else if "uv" !in attributes then Failure(MissingAttribute("uv"))
      else
        var withUv := position + [BufferSpec(data.textured.value.uv, attributes["uv"].location)];
        if "pivot" in attributes then Success(withUv + [BufferSpec(data.textured.value.pivot, attributes["pivot"].location)])
        else Success(withUv)
  }

  /**
   * Position priority.  With an atlas, sprite i's quad is numbers
   * [12 i, 12 i + 12); without one, the caller's positions; without those,
   * two triangles covering exactly the canvas.
   */
  lemma PositionPriority(atlas: Option<seq<Sprite>>, buffersData: Option<BuffersData>, canvasWidth: nat, canvasHeight: nat)
    ensures var positions := Positions(atlas, buffersData, canvasWidth, canvasHeight);
      (atlas.Some? ==>
         |positions| == 12 * |atlas.value| &&
         (forall i :: 0 <= i < |atlas.value| ==>
            positions[12 * i .. 12 * i + 12] == RectangleCoords(0.0, 0.0, atlas.value[i].size.0, atlas.value[i].size.1))) &&
      (atlas.None? && buffersData.Some? && buffersData.value.position.Some? ==> positions == buffersData.value.position.value) &&
      (atlas.None? && (buffersData.None? || buffersData.value.position.None?) ==>
         |positions| == 12 &&
         (canvasWidth > 0 && canvasHeight > 0 ==>
           forall p: Point {:trigger CoveredByQuad(positions, p)} ::
             CoveredByQuad(positions, p) <==> InRectangle(p, 0.0, 0.0, canvasWidth as real, canvasHeight as real)))
  {
    var positions := Positions(atlas, buffersData, canvasWidth, canvasHeight);
    if atlas.Some? {
      AtlasLengths(Image(1, 1), atlas.value);
      forall i | 0 <= i < |atlas.value|
        ensures positions[12 * i .. 12 * i + 12] == RectangleCoords(0.0, 0.0, atlas.value[i].size.0, atlas.value[i].size.1)
      {
        AtlasSpriteLayout(Image(1, 1), atlas.value, i);
      }
    } else if (buffersData.None? || buffersData.value.position.None?) && canvasWidth > 0 && canvasHeight > 0 {
      forall p: Point
        ensures CoveredByQuad(positions, p) <==> InRectangle(p, 0.0, 0.0, canvasWidth as real, canvasHeight as real)
      {
        RectangleIsTwoTriangles(0.0, 0.0, canvasWidth as real, canvasHeight as real, p);
      }
    }
  }

  /**
   * UV priority.  With an atlas whose sprites lie inside the image, every UV
   * is in [0, 1]; without an atlas, the caller's UVs; without those, the
   * whole image, which is the unit rectangle.
   */
  lemma UvPriority(atlas: Option<seq<Sprite>>, buffersData: Option<BuffersData>, image: Image)
    requires atlas.Some? ==> image.width > 0 && image.height > 0
    ensures var uv := Uvs(atlas, buffersData, image);
      (atlas.Some? ==>
         |uv| == 12 * |atlas.value| &&
         ((forall i :: 0 <= i < |atlas.value| ==> SpriteInside(image, atlas.value[i])) ==>
            (forall j :: 0 <= j < |uv| ==> 0.0 <= uv[j] <= 1.0))) &&
      (atlas.None? && buffersData.Some? && buffersData.value.uv.Some? ==> uv == buffersData.value.uv.value) &&
      (atlas.None? && (buffersData.None? || buffersData.value.uv.None?) ==> uv == RectangleCoords(0.0, 0.0, 1.0, 1.0))
  {
    DefaultUvIsUnitRectangle();
    if atlas.Some? {
      var sprites := atlas.value;
      var uv := AtlasUvs(image, sprites);
      AtlasLengths(image, sprites);
      if forall i :: 0 <= i < |sprites| ==> SpriteInside(image, sprites[i]) {
        forall j | 0 <= j < |uv| ensures 0.0 <= uv[j] <= 1.0 {
          var i := j / 12;
          AtlasSpriteLayout(image, sprites, i);
          UvWithinUnitSquare(image, sprites[i]);
          assert uv[j] == uv[12 * i .. 12 * i + 12][j - 12 * i];
        }
      }
    }
  }

  // ---------------------------------------------------------------------------
  // One frame
  // ---------------------------------------------------------------------------

  /** `Math.round(positions.length) / 2`, the count handed to the renderer. */
  function RenderPassesCount(positionsLength: nat): real {
    positionsLength as real / 2.0
  }

  /** drawArrays converts its count to an integer by truncation. */
  function DrawCount(passesCount: real): int {
    passesCount.Floor
  }

  /** The default renderer draws one vertex per coordinate pair: half the number of coordinates, rounded down. */
  lemma DefaultDrawCount(positionsLength: nat)
    ensures DrawCount(RenderPassesCount(positionsLength)) == positionsLength / 2
    ensures positionsLength % 2 == 0 ==> 2 * DrawCount(RenderPassesCount(positionsLength)) == positionsLength
  {
    var q, r := positionsLength / 2, positionsLength % 2;
    assert positionsLength == 2 * q + r;
    assert RenderPassesCount(positionsLength) == q as real + r as real / 2.0;
  }

  /** What the renderer call issues: the default draw, or whatever the caller's function issued. */
  function RendererCalls(render: RenderFn, positionsLength: nat, customCalls: seq<Cmd>): seq<Cmd> {
    match render
    case DefaultRenderer => [DrawTriangles(0, DrawCount(RenderPassesCount(positionsLength)))]
    case CustomRenderer => customCalls
  }

  /**
   * The calls of one frame.  Reading `uniforms.projection.location` raises
   * when the program has no projection uniform, after the buffers are bound.
   */
  function FrameCalls(width: nat, height: nat, program: Handle, buffers: seq<AttribBuffer>,
                      uniforms: map<string, Binding>, positionsLength: nat, render: RenderFn, customCalls: seq<Cmd>): seq<Cmd> {
    FramePrologue(width, height, program) + BindAll(buffers) +
    (if "projection" !in uniforms then []
     else [UniformMatrix3(uniforms["projection"].location, false, ProjectionMatrix(width as real, height as real))] +
          RendererCalls(render, positionsLength, customCalls))
  }

  /**
   * The order of a frame with a projection uniform: viewport, clear color,
   * clear, useProgram; then the three binding calls of every buffer; then
   * the projection uniform; then the renderer's calls, which with the
   * default renderer are one draw from offset 0 of half the position count,
   * and nothing after it.
   */
  lemma FrameOrder(width: nat, height: nat, program: Handle, buffers: seq<AttribBuffer>,
                   uniforms: map<string, Binding>, positionsLength: nat, render: RenderFn, customCalls: seq<Cmd>)
    requires "projection" in uniforms
    ensures var calls := FrameCalls(width, height, program, buffers, uniforms, positionsLength, render, customCalls);
      var n := |buffers|;
      |calls| > 4 + 3 * n &&
      calls[..4] == [Viewport(0, 0, width, height), ClearColor(0.0, 0.0, 0.0, 0.0), ClearColorBuffer, UseProgram(program)] &&
      calls[4 .. 4 + 3 * n] == BindAll(buffers) &&
      calls[4 + 3 * n] == UniformMatrix3(uniforms["projection"].location, false, ProjectionMatrix(width as real, height as real)) &&
      calls[4 + 3 * n + 1 ..] == RendererCalls(render, positionsLength, customCalls) &&
      (render == DefaultRenderer ==> |calls| == 4 + 3 * n + 2 && calls[4 + 3 * n + 1] == DrawTriangles(0, positionsLength / 2))
  {
    BindAllLength(buffers);
    DefaultDrawCount(positionsLength);
    var calls := FrameCalls(width, height, program, buffers, uniforms, positionsLength, render, customCalls);
    var head := FramePrologue(width, height, program) + BindAll(buffers);
    var uniform := UniformMatrix3(uniforms["projection"].location, false, ProjectionMatrix(width as real, height as real));
    var rendered := RendererCalls(render, positionsLength, customCalls);
    assert calls == head + ([uniform] + rendered);
    assert calls[|head| + 1 ..] == rendered;
  }

  /** Buffer i's enable, bind and pointer calls sit at 4 + 3 i in every frame. */
  lemma FrameBindingSlot(width: nat, height: nat, program: Handle, buffers: seq<AttribBuffer>,
                         uniforms: map<string, Binding>, positionsLength: nat, render: RenderFn, customCalls: seq<Cmd>, i: nat)
    requires i < |buffers|
    ensures var calls := FrameCalls(width, height, program, buffers, uniforms, positionsLength, render, customCalls);
      4 + 3 * i + 3 <= |calls| && calls[4 + 3 * i .. 4 + 3 * i + 3] == BindSteps(buffers[i])
  {
    BindAllLayout(buffers, i);
    var calls := FrameCalls(width, height, program, buffers, uniforms, positionsLength, render, customCalls);
    var bound := BindAll(buffers);
    assert calls[4 + 3 * i .. 4 + 3 * i + 3] == bound[3 * i .. 3 * i + 3];
  }

  /**
   * With the default renderer and a projection uniform, a frame clears once,
   * activates the program once, enables, binds and declares each buffer
   * exactly once, and draws exactly once.
   */
  lemma DefaultFrameCounts(width: nat, height: nat, program: Handle, buffers: seq<AttribBuffer>,
                           uniforms: map<string, Binding>, positionsLength: nat, customCalls: seq<Cmd>)
    requires "projection" in uniforms
    ensures var calls := FrameCalls(width, height, program, buffers, uniforms, positionsLength, DefaultRenderer, customCalls);
      CountWhere(calls, IsClear) == 1 && CountWhere(calls, IsUseProgram) == 1 &&
      CountWhere(calls, IsEnable) == |buffers| && CountWhere(calls, IsBind) == |buffers| &&
      CountWhere(calls, IsPointer) == |buffers| && CountWhere(calls, IsDraw) == 1
  {
    var prologue := FramePrologue(width, height, program);
    var bound := BindAll(buffers);
    var tail := [UniformMatrix3(uniforms["projection"].location, false, ProjectionMatrix(width as real, height as real)),
                 DrawTriangles(0, DrawCount(RenderPassesCount(positionsLength)))];
    assert FrameCalls(width, height, program, buffers, uniforms, positionsLength, DefaultRenderer, customCalls) ==
      prologue + bound + tail;
    PrologueCounts(width, height, program);
    BindAllCounts(buffers);
    CountPair(tail[0], tail[1], IsClear);
    CountPair(tail[0], tail[1], IsUseProgram);
    CountPair(tail[0], tail[1], IsEnable);
    CountPair(tail[0], tail[1], IsBind);
    CountPair(tail[0], tail[1], IsPointer);
    CountPair(tail[0], tail[1], IsDraw);
    CountAppend3(prologue, bound, tail, IsClear);
    CountAppend3(prologue, bound, tail, IsUseProgram);
    CountAppend3(prologue, bound, tail, IsEnable);
    CountAppend3(prologue, bound, tail, IsBind);
    CountAppend3(prologue, bound, tail, IsPointer);
    CountAppend3(prologue, bound, tail, IsDraw);
  }

  /** The per-frame closure newWebGLRenderer returns, with what it captured. */
  class Renderer {
    const gl: Context
    const program: Handle
    const buffers: seq<AttribBuffer>
    const uniforms: map<string, Binding>
    const attributes: map<string, Binding>
    const positionsLength: nat
    const render: RenderFn

    constructor (gl: Context, program: Handle, buffers: seq<AttribBuffer>, uniforms: map<string, Binding>,
                 attributes: map<string, Binding>, positionsLength: nat, render: RenderFn)
      ensures this.gl == gl && this.program == program && this.buffers == buffers
      ensures this.uniforms == uniforms && this.attributes == attributes
      ensures this.positionsLength == positionsLength && this.render == render
    {
      this.gl := gl;
      this.program := program;
      this.buffers := buffers;
      this.uniforms := uniforms;
      this.attributes := attributes;
      this.positionsLength := positionsLength;
      this.render := render;
    }

    /**
     * One frame: resize the canvas to the window, then issue FrameCalls.
     * `customCalls` are the calls a caller's render function makes this frame.
     */
    method Frame(innerWidth: nat, innerHeight: nat, customCalls: seq<Cmd>) returns (r: Outcome<SetupError>)
      modifies gl`trace, gl`arrayBuffer, gl`canvasWidth, gl`canvasHeight
      ensures gl.canvasWidth == innerWidth && gl.canvasHeight == innerHeight
      ensures gl.trace == old(gl.trace) + FrameCalls(innerWidth, innerHeight, program, buffers, uniforms, positionsLength, render, customCalls)
      ensures gl.arrayBuffer == if buffers == [] then old(gl.arrayBuffer) else Some(buffers[|buffers| - 1].buffer)
      ensures r == if "projection" in uniforms then Pass else Fail(MissingUniform("projection"))
    {
      BeginFrame(gl, innerWidth, innerHeight, program, buffers);
      var width, height := gl.canvasWidth, gl.canvasHeight;
      ghost var bound := gl.trace;
      if "projection" !in uniforms {
        assert FrameCalls(width, height, program, buffers, uniforms, positionsLength, render, customCalls)
          == FramePrologue(width, height, program) + BindAll(buffers) + [];
        return Fail(MissingUniform("projection"));
      }
      var projection := UniformMatrix3(uniforms["projection"].location, false, ProjectionMatrix(width as real, height as real));
      gl.Emit(projection);
      var calls := RendererCalls(render, positionsLength, customCalls);
      match render {
        case DefaultRenderer => gl.Emit(DrawTriangles(0, DrawCount(RenderPassesCount(positionsLength))));
        case CustomRenderer => gl.Record(customCalls);
      }
      assert gl.trace == bound + ([projection] + calls);
      assert FrameCalls(width, height, program, buffers, uniforms, positionsLength, render, customCalls)
        == FramePrologue(width, height, program) + BindAll(buffers) + ([projection] + calls);
      return Pass;
    }
  }

  // ---------------------------------------------------------------------------
  // Setup
  // ---------------------------------------------------------------------------

  /**
   * The calls the buffer part of newWebGLRenderer makes, starting from handle
   * n: the position buffer always; the uv buffer when the position attribute
   * exists and an image is given; the pivot buffer when, besides, the uv and
   * pivot attributes exist.
   */
  function SetupBufferCalls(n: Handle, attributes: map<string, Binding>, data: VertexData): seq<Cmd> {
    BufferCalls(n, data.positions, StaticDraw) +
    (if "position" !in attributes || data.textured.None? then []
     else BufferCalls(n + 1, data.textured.value.uv, StaticDraw) +
          (if "uv" in attributes && "pivot" in attributes then BufferCalls(n + 2, data.textured.value.pivot, StaticDraw)
           else []))
  }

  /** How many buffers the buffer part of newWebGLRenderer creates, from the conditions of SetupBufferCalls. */
  function SetupBufferCount(attributes: map<string, Binding>, data: VertexData): nat {
    if "position" !in attributes || data.textured.None? then 1
    else if "uv" in attributes && "pivot" in attributes then 3
    else 2
  }

  /**
   * The buffer contents after the buffer part, from handle n: each buffer it
   * creates holds the data uploaded into it, whether or not an attribute
   * lookup then raises; every other buffer keeps its contents.
   */
  function SetupBufferContents(contents: map<Handle, seq<real>>, n: Handle, attributes: map<string, Binding>,
                               data: VertexData): map<Handle, seq<real>> {
    var withPosition := contents[n := data.positions];
    if "position" !in attributes || data.textured.None? then withPosition
    else
      var withUv := withPosition[n + 1 := data.textured.value.uv];
      if "uv" in attributes && "pivot" in attributes then withUv[n + 2 := data.textured.value.pivot] else withUv
  }

  /**
   * The buffer part of setup creates one buffer per entry of a successful
   * plan, one buffer beyond what the plan reached on failure, and no texture.
   */
  lemma SetupBufferCallsCounts(n: Handle, attributes: map<string, Binding>, data: VertexData)
    ensures var calls := SetupBufferCalls(n, attributes, data);
      var plan := BufferPlan(attributes, data);
      CountWhere(calls, IsCreateTexture) == 0 &&
      CountWhere(calls, IsCreateBuffer) == SetupBufferCount(attributes, data) &&
      (plan.Success? ==> CountWhere(calls, IsCreateBuffer) == |plan.value|) &&
      (plan.Failure? ==> CountWhere(calls, IsCreateBuffer) == if plan.error == MissingAttribute("uv") then 2 else 1)
  {
    var positions := BufferCalls(n, data.positions, StaticDraw);
    BufferCallsCreateOneBuffer(n, data.positions, StaticDraw);
    CountNone([], IsCreateBuffer);
    CountNone([], IsCreateTexture);
    if "position" in attributes && data.textured.Some? {
      var uv := BufferCalls(n + 1, data.textured.value.uv, StaticDraw);
      BufferCallsCreateOneBuffer(n + 1, data.textured.value.uv, StaticDraw);
      var pivot := if "uv" in attributes && "pivot" in attributes then BufferCalls(n + 2, data.textured.value.pivot, StaticDraw) else [];
      BufferCallsCreateOneBuffer(n + 2, data.textured.value.pivot, StaticDraw);
      CountAppend(uv, pivot, IsCreateBuffer);
      CountAppend(uv, pivot, IsCreateTexture);
      CountAppend(positions, uv + pivot, IsCreateBuffer);
      CountAppend(positions, uv + pivot, IsCreateTexture);
    } else {
      assert SetupBufferCalls(n, attributes, data) == positions + [];
      CountAppend(positions, [], IsCreateBuffer);
      CountAppend(positions, [], IsCreateTexture);
    }
  }

  /**
   * A renderer built from a linked program and a plan: it captures the
   * context, the program, both tables, the number of position coordinates
   * and the render function, and its buffers, numbered from `first`, hold the
   * plan's data.
   */
  ghost predicate Built(r: Renderer, gl: Context, linked: Linked, data: VertexData, render: RenderFn,
                        plan: seq<BufferSpec>, first: Handle)
    reads gl
  {
    r.gl == gl && r.program == linked.program &&
    r.uniforms == linked.params.uniforms && r.attributes == linked.params.attributes &&
    r.positionsLength == |data.positions| && r.render == render &&
    Provisioned(gl.live, gl.bufferContents, r.buffers, plan, first)
  }

  /**
   * What the part of newWebGLRenderer after createProgram returns: the buffer
   * plan's error, or a renderer built from the plan with buffers from `first`.
   */
  ghost predicate AssembleOutcome(r: Result<Renderer, SetupError>, gl: Context, linked: Linked, data: VertexData,
                                  render: RenderFn, first: Handle)
    reads gl
  {
    var plan := BufferPlan(linked.params.attributes, data);
    (plan.Failure? ==> r == Failure(plan.error)) &&
    (plan.Success? ==> r.Success? && Built(r.value, gl, linked, data, render, plan.value, first))
  }

  /**
   * What newWebGLRenderer returns, given what createProgram returned: its
   * error, or else the outcome of the rest of setup.
   */
  ghost predicate SetupOutcome(r: Result<Renderer, SetupError>, gl: Context, linked: Result<Linked, SetupError>,
                               data: VertexData, render: RenderFn, first: Handle)
    reads gl
  {
    match linked
    case Failure(e) => r == Failure(e)
    case Success(l) => AssembleOutcome(r, gl, l, data, render, first)
  }

  /**
   * The calls newWebGLRenderer makes after createProgram, from handle m:
   * none when createProgram failed; otherwise the buffer calls, then, when
   * the plan succeeds and an image is given, the texture calls for the next
   * handle.
   */
  function AssembleCalls(m: Handle, linked: Result<Linked, SetupError>, data: VertexData, image: Option<Image>): seq<Cmd> {
    match linked
    case Failure(_) => []
    case Success(l) =>
      var plan := BufferPlan(l.params.attributes, data);
      SetupBufferCalls(m, l.params.attributes, data) +
      (if plan.Success? && image.Some? then TextureCalls(m + |plan.value|, image.value) else [])
  }

  /** How many objects newWebGLRenderer creates after createProgram: its buffers, then the texture. */
  function AssembleObjects(linked: Result<Linked, SetupError>, data: VertexData, image: Option<Image>): nat {
    match linked
    case Failure(_) => 0
    case Success(l) =>
      SetupBufferCount(l.params.attributes, data) +
      (if BufferPlan(l.params.attributes, data).Success? && image.Some? then 1 else 0)
  }

  /** The buffer bound to ARRAY_BUFFER after setup, from handle m: the last buffer created, if any. */
  function AssembleBound(bound: Option<Handle>, m: Handle, linked: Result<Linked, SetupError>, data: VertexData): Option<Handle> {
    match linked
    case Failure(_) => bound
    case Success(l) => Some(m + SetupBufferCount(l.params.attributes, data) - 1)
  }

  /** The buffer contents after setup, from handle m. */
  function AssembleContents(contents: map<Handle, seq<real>>, m: Handle, linked: Result<Linked, SetupError>,
                            data: VertexData): map<Handle, seq<real>> {
    match linked
    case Failure(_) => contents
    case Success(l) => SetupBufferContents(contents, m, l.params.attributes, data)
  }

  /** Every call newWebGLRenderer makes, from handle n: the program's calls, then the rest. */
  function SetupCalls(n: Handle, vertexSource: string, fragmentSource: string, backend: Backend,
                      data: VertexData, image: Option<Image>): seq<Cmd> {
    ProgramCalls(n, vertexSource, fragmentSource, backend) +
    AssembleCalls(n + 3, LinkOutcome(backend, false, n + 2), data, image)
  }

  /**
   * After createProgram, setup creates a texture exactly when the program
   * linked, the buffer plan succeeds and an image is given; it creates one
   * buffer per plan entry on success, none when createProgram failed, and one
   * buffer beyond the point reached when an attribute is missing.
   */
  lemma AssembleCallsCounts(m: Handle, linked: Result<Linked, SetupError>, data: VertexData, image: Option<Image>)
    ensures var calls := AssembleCalls(m, linked, data, image);
      var plan := if linked.Success? then BufferPlan(linked.value.params.attributes, data) else Failure(linked.error);
      CountWhere(calls, IsCreateTexture) == (if plan.Success? && image.Some? then 1 else 0) &&
      CountWhere(calls, IsCreateBuffer) ==
        (if linked.Failure? then 0
         else if plan.Success? then |plan.value|
         else if plan.error == MissingAttribute("uv") then 2 else 1)
    ensures CountWhere(AssembleCalls(m, linked, data, image), IsCreateBuffer) +
            CountWhere(AssembleCalls(m, linked, data, image), IsCreateTexture) == AssembleObjects(linked, data, image)
  {
    if linked.Success? {
      var attributes := linked.value.params.attributes;
      var plan := BufferPlan(attributes, data);
      var buffers := SetupBufferCalls(m, attributes, data);
      var texture := if plan.Success? && image.Some? then TextureCalls(m + |plan.value|, image.value) else [];
      SetupBufferCallsCounts(m, attributes, data);
      if plan.Success? && image.Some? {
        TextureCallsCreateOneTexture(m + |plan.value|, image.value);
      } else {
        CountNone([], IsCreateTexture);
        CountNone([], IsCreateBuffer);
      }
      CountAppend(buffers, texture, IsCreateTexture);
      CountAppend(buffers, texture, IsCreateBuffer);
    }
  }

  /**
   * The same counts for the whole of setup: createProgram adds no buffer and
   * no texture.
   */
  lemma SetupCallsCounts(n: Handle, vertexSource: string, fragmentSource: string, backend: Backend,
                         data: VertexData, image: Option<Image>)
    ensures var calls := SetupCalls(n, vertexSource, fragmentSource, backend, data, image);
      var linked := LinkOutcome(backend, false, n + 2);
      var plan := if linked.Success? then BufferPlan(linked.value.params.attributes, data) else Failure(linked.error);
      CountWhere(calls, IsCreateTexture) == (if plan.Success? && image.Some? then 1 else 0) &&
      CountWhere(calls, IsCreateBuffer) ==
        (if linked.Failure? then 0
         else if plan.Success? then |plan.value|
         else if plan.error == MissingAttribute("uv") then 2 else 1)
  {
    var program := ProgramCalls(n, vertexSource, fragmentSource, backend);
    var rest := AssembleCalls(n + 3, LinkOutcome(backend, false, n + 2), data, image);
    ProgramCallsCreateNoObjects(n, vertexSource, fragmentSource, backend);
    AssembleCallsCounts(n + 3, LinkOutcome(backend, false, n + 2), data, image);
    CountAppend(program, rest, IsCreateTexture);
    CountAppend(program, rest, IsCreateBuffer);
  }
}
