/**
 * initializeOnce (tools.mjs): builds the program, uploads the position buffer
 * and, when the program has a texCoord attribute, a texCoord buffer, sets up a
 * texture when an image is given, and returns the per-frame closure, modelled
 * as the class `Renderer` whose `Frame` method is one call of that closure.
 */
module ToolsRenderer {
  import opened Wrappers
  import opened Errors
  import opened Geometry
  import opened Gl
  import opened Params
  import opened ProgramBuilder
  import opened Provision

  /** The `buffersData` argument: the two optional vertex lists. */
  datatype BuffersData = BuffersData(position: Option<seq<real>>, texCoord: Option<seq<real>>)

  /** What the caller's renderer did during one frame: its calls and whether its return value was truthy. */
  datatype RendererRun = RendererRun(calls: seq<Cmd>, drawHere: bool)

  /** The number of vertices the fallback draw uses: one rectangle's two triangles. */
  const FallbackCount: int := 6

  // ---------------------------------------------------------------------------
  // The buffer plan
  // ---------------------------------------------------------------------------

  /**
   * The buffer list initializeOnce builds: position first, from the caller's
   * positions (an absent list uploads nothing); then, when the program has a
   * texCoord attribute, texCoord, from the caller's list or the whole image.
   * The image plays no part.  A missing position attribute raises.
   */
  function BufferPlan(attributes: map<string, Binding>, buffersData: BuffersData): (r: Result<seq<BufferSpec>, SetupError>)
    ensures r.Success? <==> "position" in attributes
    ensures r.Failure? ==> r.error == MissingAttribute("position")
    ensures r.Success? ==>
      |r.value| == (if "texCoord" in attributes then 2 else 1) &&
      r.value[0].location == attributes["position"].location &&
      (buffersData.position.Some? ==> r.value[0].data == buffersData.position.value) &&
      (buffersData.position.None? ==> r.value[0].data == []) &&
      (|r.value| == 2 ==>
        r.value[1].location == attributes["texCoord"].location &&
        (buffersData.texCoord.Some? ==> r.value[1].data == buffersData.texCoord.value) &&
        (buffersData.texCoord.None? ==> r.value[1].data == RectangleCoords(0.0, 0.0, 1.0, 1.0)))
  {
    DefaultUvIsUnitRectangle();
    if "position" !in attributes then Failure(MissingAttribute("position"))
    else
      var position := [BufferSpec(buffersData.position.GetOr([]), attributes["position"].location)];
      if "texCoord" in attributes then
        Success(position + [BufferSpec(buffersData.texCoord.GetOr(DefaultUv), attributes["texCoord"].location)])
      else Success(position)
  }

  /**
   * The calls the buffer part of initializeOnce makes from handle n: the
   * position buffer always, then the texCoord buffer when both attributes
   * exist.  Both are uploaded with DYNAMIC_DRAW.
   */
  function SetupBufferCalls(n: Handle, attributes: map<string, Binding>, buffersData: BuffersData): seq<Cmd> {
    BufferCalls(n, buffersData.position.GetOr([]), DynamicDraw) +
    (if "position" in attributes && "texCoord" in attributes then BufferCalls(n + 1, buffersData.texCoord.GetOr(DefaultUv), DynamicDraw)
     else [])
  }

  /** How many buffers the buffer part of initializeOnce creates. */
  function SetupBufferCount(attributes: map<string, Binding>): nat {
    if "position" in attributes && "texCoord" in attributes then 2 else 1
  }

  /**
   * The buffer contents after the buffer part, from handle n: the position
   * buffer holds the caller's positions even when the position attribute is
   * missing; the texCoord buffer, when created, holds its list; every other
   * buffer keeps its contents.
   */
  function SetupBufferContents(contents: map<Handle, seq<real>>, n: Handle, attributes: map<string, Binding>,
                               buffersData: BuffersData): map<Handle, seq<real>> {
    var withPosition := contents[n := buffersData.position.GetOr([])];
    if "position" in attributes && "texCoord" in attributes then withPosition[n + 1 := buffersData.texCoord.GetOr(DefaultUv)]
    else withPosition
  }

  /**
   * The buffer part creates one buffer per entry of a successful plan, the
   * position buffer alone when the plan fails, and no texture.
   */
  lemma SetupBufferCallsCounts(n: Handle, attributes: map<string, Binding>, buffersData: BuffersData)
    ensures var calls := SetupBufferCalls(n, attributes, buffersData);
      var plan := BufferPlan(attributes, buffersData);
      CountWhere(calls, IsCreateTexture) == 0 &&
      CountWhere(calls, IsCreateBuffer) == SetupBufferCount(attributes) &&
      CountWhere(calls, IsCreateBuffer) == if plan.Success? then |plan.value| else 1
  {
    var position := BufferCalls(n, buffersData.position.GetOr([]), DynamicDraw);
    var texCoord := if "position" in attributes && "texCoord" in attributes
                    then BufferCalls(n + 1, buffersData.texCoord.GetOr(DefaultUv), DynamicDraw) else [];
    BufferCallsCreateOneBuffer(n, buffersData.position.GetOr([]), DynamicDraw);
    BufferCallsCreateOneBuffer(n + 1, buffersData.texCoord.GetOr(DefaultUv), DynamicDraw);
    CountNone([], IsCreateBuffer);
    CountNone([], IsCreateTexture);
    CountAppend(position, texCoord, IsCreateBuffer);
    CountAppend(position, texCoord, IsCreateTexture);
  }

  // ---------------------------------------------------------------------------
  // One frame
  // ---------------------------------------------------------------------------

  /** The closure draws itself when there is no renderer or the renderer's return value is truthy. */
  predicate DrawsHere(hasRenderer: bool, run: RendererRun) {
    !hasRenderer || run.drawHere
  }

  /**
   * The calls of one frame.  Reading `uniforms.resolution.location` raises
   * when the program has no resolution uniform, after the buffers are bound.
   */
  function FrameCalls(width: nat, height: nat, program: Handle, buffers: seq<AttribBuffer>,
                      uniforms: map<string, Binding>, hasRenderer: bool, run: RendererRun): seq<Cmd> {
    FramePrologue(width, height, program) + BindAll(buffers) +
    (if "resolution" !in uniforms then []
     else [Uniform2(uniforms["resolution"].location, width as real, height as real)] +
          (if hasRenderer then run.calls else []) +
          (if DrawsHere(hasRenderer, run) then [DrawTriangles(0, FallbackCount)] else []))
  }

  /**
   * The draw decision.  The closure's own draw happens exactly when there is
   * no renderer or the renderer returned a truthy value; it is then the last
   * call, from offset 0 with count 6 whatever the buffers hold, and the
   * draws of a frame are the renderer's plus that one.
   */
  lemma DrawDecision(width: nat, height: nat, program: Handle, buffers: seq<AttribBuffer>,
                     uniforms: map<string, Binding>, hasRenderer: bool, run: RendererRun)
    requires "resolution" in uniforms
    ensures var calls := FrameCalls(width, height, program, buffers, uniforms, hasRenderer, run);
      CountWhere(calls, IsDraw) == (if hasRenderer then CountWhere(run.calls, IsDraw) else 0) +
                                   (if DrawsHere(hasRenderer, run) then 1 else 0) &&
      (DrawsHere(hasRenderer, run) ==> calls[|calls| - 1] == DrawTriangles(0, 6))
  {
    var prologue := FramePrologue(width, height, program);
    var bound := BindAll(buffers);
    var resolution := [Uniform2(uniforms["resolution"].location, width as real, height as real)];
    var rendered := if hasRenderer then run.calls else [];
    var draw := if DrawsHere(hasRenderer, run) then [DrawTriangles(0, FallbackCount)] else [];
    PrologueCounts(width, height, program);
    BindAllCounts(buffers);
    CountOne(resolution[0], IsDraw);
    CountNone([], IsDraw);
    if draw != [] {
      CountOne(draw[0], IsDraw);
    }
    CountAppend(prologue, bound, IsDraw);
    CountAppend(resolution, rendered, IsDraw);
    CountAppend(resolution + rendered, draw, IsDraw);
    CountAppend(prologue + bound, resolution + rendered + draw, IsDraw);
    assert FrameCalls(width, height, program, buffers, uniforms, hasRenderer, run) ==
      prologue + bound + (resolution + rendered + draw);
  }

  /**
   * The order of a frame with a resolution uniform: viewport, clear color,
   * clear, useProgram; then the three binding calls of every buffer; then,
   * once every buffer is bound, the resolution uniform set to the canvas
   * size; then the renderer's calls, then the closure's own draw when
   * DrawsHere.
   */
  lemma FrameOrder(width: nat, height: nat, program: Handle, buffers: seq<AttribBuffer>,
                   uniforms: map<string, Binding>, hasRenderer: bool, run: RendererRun)
    requires "resolution" in uniforms
    ensures var calls := FrameCalls(width, height, program, buffers, uniforms, hasRenderer, run);
      var n := |buffers|;
      |calls| > 4 + 3 * n &&
      calls[..4] == [Viewport(0, 0, width, height), ClearColor(0.0, 0.0, 0.0, 0.0), ClearColorBuffer, UseProgram(program)] &&
      calls[4 .. 4 + 3 * n] == BindAll(buffers) &&
      calls[4 + 3 * n] == Uniform2(uniforms["resolution"].location, width as real, height as real) &&
      calls[4 + 3 * n + 1 ..] == (if hasRenderer then run.calls else []) +
                                 (if DrawsHere(hasRenderer, run) then [DrawTriangles(0, FallbackCount)] else [])
  {
    BindAllLength(buffers);
    var calls := FrameCalls(width, height, program, buffers, uniforms, hasRenderer, run);
    var head := FramePrologue(width, height, program) + BindAll(buffers);
    var uniform := Uniform2(uniforms["resolution"].location, width as real, height as real);
    var rest := (if hasRenderer then run.calls else []) +
                (if DrawsHere(hasRenderer, run) then [DrawTriangles(0, FallbackCount)] else []);
    assert calls == head + ([uniform] + rest);
    assert calls[|head| + 1 ..] == rest;
  }

  /** Buffer i's enable, bind and pointer calls sit at 4 + 3 i in every frame. */
  lemma FrameBindingSlot(width: nat, height: nat, program: Handle, buffers: seq<AttribBuffer>,
                         uniforms: map<string, Binding>, hasRenderer: bool, run: RendererRun, i: nat)
    requires i < |buffers|
    ensures var calls := FrameCalls(width, height, program, buffers, uniforms, hasRenderer, run);
      4 + 3 * i + 3 <= |calls| && calls[4 + 3 * i .. 4 + 3 * i + 3] == BindSteps(buffers[i])
  {
    BindAllLayout(buffers, i);
    var calls := FrameCalls(width, height, program, buffers, uniforms, hasRenderer, run);
    var bound := BindAll(buffers);
    assert calls[4 + 3 * i .. 4 + 3 * i + 3] == bound[3 * i .. 3 * i + 3];
  }

  /**
   * Without a renderer a frame clears once, activates the program once,
   * enables, binds and declares each buffer exactly once, and draws exactly
   * once.
   */
  lemma PlainFrameCounts(width: nat, height: nat, program: Handle, buffers: seq<AttribBuffer>,
                         uniforms: map<string, Binding>, run: RendererRun)
    requires "resolution" in uniforms
    ensures var calls := FrameCalls(width, height, program, buffers, uniforms, false, run);
      CountWhere(calls, IsClear) == 1 && CountWhere(calls, IsUseProgram) == 1 &&
      CountWhere(calls, IsEnable) == |buffers| && CountWhere(calls, IsBind) == |buffers| &&
      CountWhere(calls, IsPointer) == |buffers| && CountWhere(calls, IsDraw) == 1
  {
    var prologue := FramePrologue(width, height, program);
    var bound := BindAll(buffers);
    var tail := [Uniform2(uniforms["resolution"].location, width as real, height as real), DrawTriangles(0, FallbackCount)];
    assert FrameCalls(width, height, program, buffers, uniforms, false, run) == prologue + bound + tail;
    PrologueCounts(width, height, program);
    BindAllCounts(buffers);
    CountPair(tail[0], tail[1], IsClear);
    CountPair(tail[0], tail[1], IsUseProgram);
    CountPair(tail[0], tail[1], IsEnable);
    CountPair(tail[0], tail[1], IsBind);
    CountPair(tail[0], tail[1], IsPointer);
    CountPair(tail[0], tail[1], IsDraw);
    CountAppend3(prologue, bound, tail, IsClear);
    CountAppend3(prologue, bound, tail, IsUseProgram);
    CountAppend3(prologue, bound, tail, IsEnable);
    CountAppend3(prologue, bound, tail, IsBind);
    CountAppend3(prologue, bound, tail, IsPointer);
    CountAppend3(prologue, bound, tail, IsDraw);
  }

  /** The per-frame closure initializeOnce returns, with what it captured. */
  class Renderer {
    const gl: Context
    const program: Handle
    const buffers: seq<AttribBuffer>
    const uniforms: map<string, Binding>
    const attributes: map<string, Binding>
    const hasRenderer: bool

    constructor (gl: Context, program: Handle, buffers: seq<AttribBuffer>, uniforms: map<string, Binding>,
                 attributes: map<string, Binding>, hasRenderer: bool)
      ensures this.gl == gl && this.program == program && this.buffers == buffers
      ensures this.uniforms == uniforms && this.attributes == attributes && this.hasRenderer == hasRenderer
    {
      this.gl := gl;
      this.program := program;
      this.buffers := buffers;
      this.uniforms := uniforms;
      this.attributes := attributes;
      this.hasRenderer := hasRenderer;
    }

    /**
     * One frame: resize the canvas to the window, then issue FrameCalls.
     * `run` is what the caller's renderer does this frame, when there is one.
     */
    method Frame(innerWidth: nat, innerHeight: nat, run: RendererRun) returns (r: Outcome<SetupError>)
      modifies gl`trace, gl`arrayBuffer, gl`canvasWidth, gl`canvasHeight
      ensures gl.canvasWidth == innerWidth && gl.canvasHeight == innerHeight
      ensures gl.trace == old(gl.trace) + FrameCalls(innerWidth, innerHeight, program, buffers, uniforms, hasRenderer, run)
      ensures gl.arrayBuffer == if buffers == [] then old(gl.arrayBuffer) else Some(buffers[|buffers| - 1].buffer)
      ensures r == if "resolution" in uniforms then Pass else Fail(MissingUniform("resolution"))
    {
      BeginFrame(gl, innerWidth, innerHeight, program, buffers);
      var width, height := gl.canvasWidth, gl.canvasHeight;
      ghost var bound := gl.trace;
      if "resolution" !in uniforms {
        assert FrameCalls(width, height, program, buffers, uniforms, hasRenderer, run)
          == FramePrologue(width, height, program) + BindAll(buffers) + [];
        return Fail(MissingUniform("resolution"));
      }
      var resolution := Uniform2(uniforms["resolution"].location, width as real, height as real);
      gl.Emit(resolution);
      var drawArraysHere := true;
      if hasRenderer {
        gl.Record(run.calls);
        drawArraysHere := run.drawHere;
      }
      ghost var rendered := gl.trace;
      if drawArraysHere {
        gl.Emit(DrawTriangles(0, FallbackCount));
      }
      ghost var rendererCalls := if hasRenderer then run.calls else [];
      ghost var draw := if DrawsHere(hasRenderer, run) then [DrawTriangles(0, FallbackCount)] else [];
      assert rendered == bound + [resolution] + rendererCalls;
      assert gl.trace == bound + ([resolution] + rendererCalls + draw);
      assert FrameCalls(width, height, program, buffers, uniforms, hasRenderer, run)
        == FramePrologue(width, height, program) + BindAll(buffers) + ([resolution] + rendererCalls + draw);
      return Pass;
    }
  }

  // ---------------------------------------------------------------------------
  // Setup
  // ---------------------------------------------------------------------------

  /**
   * A closure built from a linked program and a plan: it captures the
   * context, the program, both tables and whether a renderer was given, and
   * its buffers, numbered from `first`, hold the plan's data.
   */
  ghost predicate Built(r: Renderer, gl: Context, linked: Linked, hasRenderer: bool, plan: seq<BufferSpec>, first: Handle)
    reads gl
  {
    r.gl == gl && r.program == linked.program &&
    r.uniforms == linked.params.uniforms && r.attributes == linked.params.attributes &&
    r.hasRenderer == hasRenderer &&
    Provisioned(gl.live, gl.bufferContents, r.buffers, plan, first)
  }

  /**
   * What the part of initializeOnce after createProgram returns: the missing
   * position attribute, or a closure built from the plan with buffers from
   * `first`.
   */
  ghost predicate AssembleOutcome(r: Result<Renderer, SetupError>, gl: Context, linked: Linked,
                                  buffersData: BuffersData, hasRenderer: bool, first: Handle)
    reads gl
  {
    var plan := BufferPlan(linked.params.attributes, buffersData);
    (plan.Failure? ==> r == Failure(plan.error)) &&
    (plan.Success? ==> r.Success? && Built(r.value, gl, linked, hasRenderer, plan.value, first))
  }

  /**
   * What initializeOnce returns, given what createProgram returned: its
   * error, or else the outcome of the rest of setup.
   */
  ghost predicate SetupOutcome(r: Result<Renderer, SetupError>, gl: Context, linked: Result<Linked, SetupError>,
                               buffersData: BuffersData, hasRenderer: bool, first: Handle)
    reads gl
  {
    match linked
    case Failure(e) => r == Failure(e)
    case Success(l) => AssembleOutcome(r, gl, l, buffersData, hasRenderer, first)
  }

  /**
   * The calls initializeOnce makes after createProgram, from handle m: none
   * when createProgram failed; otherwise the buffer calls, then, when the
   * position attribute exists and an image is given, the texture calls.
   */
  function AssembleCalls(m: Handle, linked: Result<Linked, SetupError>, buffersData: BuffersData,
                         image: Option<Image>): seq<Cmd> {
    match linked
    case Failure(_) => []
    case Success(l) =>
      var plan := BufferPlan(l.params.attributes, buffersData);
      SetupBufferCalls(m, l.params.attributes, buffersData) +
      (if plan.Success? && image.Some? then TextureCalls(m + |plan.value|, image.value) else [])
  }

  /** How many objects initializeOnce creates after createProgram: its buffers, then the texture. */
  function AssembleObjects(linked: Result<Linked, SetupError>, buffersData: BuffersData, image: Option<Image>): nat {
    match linked
    case Failure(_) => 0
    case Success(l) =>
      SetupBufferCount(l.params.attributes) +
      (if BufferPlan(l.params.attributes, buffersData).Success? && image.Some? then 1 else 0)
  }

  /** The buffer bound to ARRAY_BUFFER after setup, from handle m: the last buffer created, if any. */
  function AssembleBound(bound: Option<Handle>, m: Handle, linked: Result<Linked, SetupError>): Option<Handle> {
    match linked
    case Failure(_) => bound
    case Success(l) => Some(m + SetupBufferCount(l.params.attributes) - 1)
  }

  /** The buffer contents after setup, from handle m. */
  function AssembleContents(contents: map<Handle, seq<real>>, m: Handle, linked: Result<Linked, SetupError>,
                            buffersData: BuffersData): map<Handle, seq<real>> {
    match linked
    case Failure(_) => contents
    case Success(l) => SetupBufferContents(contents, m, l.params.attributes, buffersData)
  }

  /** Every call initializeOnce makes, from handle n: the program's calls, then the rest. */
  function SetupCalls(n: Handle, vertexSource: string, fragmentSource: string, backend: Backend,
                      buffersData: BuffersData, image: Option<Image>): seq<Cmd> {
    ProgramCalls(n, vertexSource, fragmentSource, backend) +
    AssembleCalls(n + 3, LinkOutcome(backend, true, n + 2), buffersData, image)
  }

  /**
   * After createProgram, setup creates a texture exactly when the program
   * linked, the position attribute exists and an image is given; it creates
   * one buffer per plan entry on success, none when createProgram failed,
   * and the position buffer alone when the position attribute is missing.
   */
  lemma AssembleCallsCounts(m: Handle, linked: Result<Linked, SetupError>, buffersData: BuffersData,
                            image: Option<Image>)
    ensures var calls := AssembleCalls(m, linked, buffersData, image);
      var plan := if linked.Success? then BufferPlan(linked.value.params.attributes, buffersData) else Failure(linked.error);
      CountWhere(calls, IsCreateTexture) == (if plan.Success? && image.Some? then 1 else 0) &&
      CountWhere(calls, IsCreateBuffer) == (if linked.Failure? then 0 else if plan.Success? then |plan.value| else 1)
    ensures CountWhere(AssembleCalls(m, linked, buffersData, image), IsCreateBuffer) +
            CountWhere(AssembleCalls(m, linked, buffersData, image), IsCreateTexture) == AssembleObjects(linked, buffersData, image)
  {
    if linked.Success? {
      var attributes := linked.value.params.attributes;
      var plan := BufferPlan(attributes, buffersData);
      var buffers := SetupBufferCalls(m, attributes, buffersData);
      var texture := if plan.Success? && image.Some? then TextureCalls(m + |plan.value|, image.value) else [];
      SetupBufferCallsCounts(m, attributes, buffersData);
      if plan.Success? && image.Some? {
        TextureCallsCreateOneTexture(m + |plan.value|, image.value);
      } else {
        CountNone([], IsCreateTexture);
        CountNone([], IsCreateBuffer);
      }
      CountAppend(buffers, texture, IsCreateTexture);
      CountAppend(buffers, texture, IsCreateBuffer);
    }
  }

  /** The same counts for the whole of setup: createProgram adds no buffer and no texture. */
  lemma SetupCallsCounts(n: Handle, vertexSource: string, fragmentSource: string, backend: Backend,
                         buffersData: BuffersData, image: Option<Image>)
    ensures var calls := SetupCalls(n, vertexSource, fragmentSource, backend, buffersData, image);
      var linked := LinkOutcome(backend, true, n + 2);
      var plan := if linked.Success? then BufferPlan(linked.value.params.attributes, buffersData) else Failure(linked.error);
      CountWhere(calls, IsCreateTexture) == (if plan.Success? && image.Some? then 1 else 0) &&
      CountWhere(calls, IsCreateBuffer) == (if linked.Failure? then 0 else if plan.Success? then |plan.value| else 1)
  {
    var program := ProgramCalls(n, vertexSource, fragmentSource, backend);
    var rest := AssembleCalls(n + 3, LinkOutcome(backend, true, n + 2), buffersData, image);
    ProgramCallsCreateNoObjects(n, vertexSource, fragmentSource, backend);
    AssembleCallsCounts(n + 3, LinkOutcome(backend, true, n + 2), buffersData, image);
    CountAppend(program, rest, IsCreateTexture);
    CountAppend(program, rest, IsCreateBuffer);
  }
}
