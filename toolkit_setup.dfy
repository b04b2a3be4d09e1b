/**
 * The setup half of newWebGLRenderer (webgl-toolkit.mjs): the buffers, the
 * texture and the renderer, proved against the call sequences and outcomes
 * defined in ToolkitRenderer.
 */
module ToolkitSetup {
  import opened Wrappers
  import opened Errors
  import opened Geometry
  import opened Gl
  import opened Params
  import opened ProgramBuilder
  import opened Provision
  import opened ToolkitRenderer

  /**
   * The buffer part of newWebGLRenderer.  The position buffer is created and
   * filled before the position attribute is looked up, the uv buffer likewise
   * before the uv attribute, so a missing attribute leaves its buffer behind;
   * the pivot buffer is created only when the program has a pivot attribute.
   */
  method ProvisionBuffers(gl: Context, attributes: map<string, Binding>, data: VertexData)
    returns (r: Result<seq<AttribBuffer>, SetupError>)
    requires gl.Valid()
    modifies gl`trace, gl`nextHandle, gl`live, gl`arrayBuffer, gl`bufferContents
    ensures gl.Valid()
    ensures var n, count := old(gl.nextHandle), SetupBufferCount(attributes, data);
      gl.nextHandle == n + count && gl.live == old(gl.live) + Handles(n, count) &&
      gl.arrayBuffer == Some(n + count - 1) &&
      gl.bufferContents == SetupBufferContents(old(gl.bufferContents), n, attributes, data)
    ensures gl.trace == old(gl.trace) + SetupBufferCalls(old(gl.nextHandle), attributes, data)
    ensures var plan := BufferPlan(attributes, data);
      (plan.Failure? ==> r == Failure(plan.error)) &&
      (plan.Success? ==> r.Success? && Provisioned(gl.live, gl.bufferContents, r.value, plan.value, old(gl.nextHandle)))
  {
    ghost var first := gl.nextHandle;
    ghost var positionCalls := BufferCalls(first, data.positions, StaticDraw);
    r := PushBuffer(gl, attributes, "position", data.positions, StaticDraw, [], [], first);
    if r.Failure? || data.textured.None? {
      assert SetupBufferCalls(first, attributes, data) == positionCalls + [];
      return;
    }
    ghost var plan := [BufferSpec(data.positions, attributes["position"].location)];
    var textured := data.textured.value;
    ghost var uvCalls := BufferCalls(first + 1, textured.uv, StaticDraw);
    r := PushBuffer(gl, attributes, "uv", textured.uv, StaticDraw, r.value, plan, first);
    AppendAssociative(old(gl.trace), positionCalls, uvCalls);
    if r.Failure? || "pivot" !in attributes {
      assert SetupBufferCalls(first, attributes, data) == positionCalls + (uvCalls + []);
      return;
    }
    plan := plan + [BufferSpec(textured.uv, attributes["uv"].location)];
    ghost var pivotCalls := BufferCalls(first + 2, textured.pivot, StaticDraw);
    r := PushBuffer(gl, attributes, "pivot", textured.pivot, StaticDraw, r.value, plan, first);
    AppendAssociative(old(gl.trace) + positionCalls, uvCalls, pivotCalls);
    AppendAssociative(old(gl.trace), positionCalls, uvCalls + pivotCalls);
    assert SetupBufferCalls(first, attributes, data) == positionCalls + (uvCalls + pivotCalls);
  }

  /**
   * What newWebGLRenderer does after createProgram: pass its error on, or
   * create the buffers, then the texture when an image is given, then the
   * renderer.  `first` is the handle the first buffer gets.
   */
  method Assemble(gl: Context, linked: Result<Linked, SetupError>, data: VertexData, render: RenderFn,
                  image: Option<Image>, ghost first: Handle)
    returns (r: Result<Renderer, SetupError>)
    requires gl.Valid()
    requires data.textured.Some? <==> image.Some?
    requires linked.Success? ==> gl.nextHandle == first
    modifies gl`trace, gl`nextHandle, gl`live, gl`arrayBuffer, gl`bufferContents
    ensures gl.Valid()
    ensures gl.trace == old(gl.trace) + AssembleCalls(first, linked, data, image)
    ensures var count := AssembleObjects(linked, data, image);
      gl.nextHandle == old(gl.nextHandle) + count && gl.live == old(gl.live) + Handles(old(gl.nextHandle), count)
    ensures gl.arrayBuffer == AssembleBound(old(gl.arrayBuffer), first, linked, data)
    ensures gl.bufferContents == AssembleContents(old(gl.bufferContents), first, linked, data)
    ensures SetupOutcome(r, gl, linked, data, render, first)
  {
    if linked.Failure? {
      return Failure(linked.error);
    }
    r := AssembleLinked(gl, linked.value, data, render, image);
  }

  /** Assemble once createProgram has succeeded: the buffers, then, if they all exist, the rest. */
  method AssembleLinked(gl: Context, linked: Linked, data: VertexData, render: RenderFn, image: Option<Image>)
    returns (r: Result<Renderer, SetupError>)
    requires gl.Valid()
    requires data.textured.Some? <==> image.Some?
    modifies gl`trace, gl`nextHandle, gl`live, gl`arrayBuffer, gl`bufferContents
    ensures gl.Valid()
    ensures var n, attributes := old(gl.nextHandle), linked.params.attributes;
      var count, textured := SetupBufferCount(attributes, data), BufferPlan(attributes, data).Success? && image.Some?;
      var objects := count + if textured then 1 else 0;
      gl.trace == old(gl.trace) + SetupBufferCalls(n, attributes, data) + (if textured then TextureCalls(n + count, image.value) else []) &&
      gl.nextHandle == n + objects && gl.live == old(gl.live) + Handles(n, objects) &&
      gl.arrayBuffer == Some(n + count - 1) &&
      gl.bufferContents == SetupBufferContents(old(gl.bufferContents), n, attributes, data)
    ensures AssembleOutcome(r, gl, linked, data, render, old(gl.nextHandle))
  {
    ghost var first := gl.nextHandle;
    var attributes := linked.params.attributes;
    var buffers := ProvisionBuffers(gl, attributes, data);
    if buffers.Failure? {
      return Failure(buffers.error);
    }
    ghost var count := SetupBufferCount(attributes, data);
    r := Complete(gl, linked, buffers.value, BufferPlan(attributes, data).value, data, render, image, first);
    HandlesJoin(first, count, if image.Some? then 1 else 0);
  }

  /**
   * The end of newWebGLRenderer once the buffers are provisioned: the
   * texture when an image is given, then the renderer, which captures the
   * buffer list.
   */
  method Complete(gl: Context, linked: Linked, buffers: seq<AttribBuffer>, ghost plan: seq<BufferSpec>,
                  data: VertexData, render: RenderFn, image: Option<Image>, ghost first: Handle)
    returns (r: Result<Renderer, SetupError>)
    requires gl.Valid()
    requires Provisioned(gl.live, gl.bufferContents, buffers, plan, first)
    modifies gl`trace, gl`nextHandle, gl`live
    ensures gl.Valid()
    ensures var n := old(gl.nextHandle);
      var count := if image.Some? then 1 else 0;
      gl.nextHandle == n + count && gl.live == old(gl.live) + Handles(n, count) &&
      gl.trace == old(gl.trace) + (if image.Some? then TextureCalls(n, image.value) else [])
    ensures r.Success? && Built(r.value, gl, linked, data, render, plan, first)
  {
    if image.Some? {
      ghost var liveBefore := gl.live;
      var texture := SetupTexture(gl, image.value);
      ProvisionedMoreLive(liveBefore, {texture}, gl.bufferContents, buffers, plan, first);
    }
    var renderer := new Renderer(gl, linked.program, buffers, linked.params.uniforms, linked.params.attributes,
                                 |data.positions|, render);
    return Success(renderer);
  }

  /**
   * newWebGLRenderer once the vertex data is chosen: createProgram, then the
   * rest of setup.  The calls made are SetupCalls; the result is the
   * program's error, else the buffer plan's error, else a renderer whose
   * buffers, created after the program's three objects, hold the plan's data
   * at the plan's slots.
   */
  method Setup(gl: Context, vertexSource: string, fragmentSource: string, backend: Backend,
               data: VertexData, render: RenderFn, image: Option<Image>)
    returns (r: Result<Renderer, SetupError>)
    requires gl.Valid()
    requires data.textured.Some? <==> image.Some?
    modifies gl`trace, gl`nextHandle, gl`live, gl`arrayBuffer, gl`bufferContents
    ensures gl.Valid()
    ensures gl.trace == old(gl.trace) + SetupCalls(old(gl.nextHandle), vertexSource, fragmentSource, backend, data, image)
    ensures var n, linked := old(gl.nextHandle), LinkOutcome(backend, false, old(gl.nextHandle) + 2);
      var count := AssembleObjects(linked, data, image);
      gl.nextHandle == n + ProgramObjects(backend) + count &&
      gl.live == old(gl.live) + ProgramLive(n, backend) + Handles(n + 3, count) &&
      gl.arrayBuffer == AssembleBound(old(gl.arrayBuffer), n + 3, linked, data) &&
      gl.bufferContents == AssembleContents(old(gl.bufferContents), n + 3, linked, data)
    ensures SetupOutcome(r, gl, LinkOutcome(backend, false, old(gl.nextHandle) + 2), data, render, old(gl.nextHandle) + 3)
  {
    var linked := ProgramBuilder.CreateProgram(gl, vertexSource, fragmentSource, backend, false);
    r := Assemble(gl, linked, data, render, image, old(gl.nextHandle) + 3);
    AppendAssociative(old(gl.trace), ProgramCalls(old(gl.nextHandle), vertexSource, fragmentSource, backend),
                      AssembleCalls(old(gl.nextHandle) + 3, linked, data, image));
  }

  /**
   * newWebGLRenderer: Setup on the vertex data ChooseData picks for the
   * canvas.  The canvas size is read before createProgram here; createProgram
   * does not change it.
   */
  method NewWebGLRenderer(gl: Context, vertexSource: string, fragmentSource: string, backend: Backend,
                          buffersData: Option<BuffersData>, render: RenderFn, image: Option<Image>,
                          atlas: Option<seq<Sprite>>)
    returns (r: Result<Renderer, SetupError>)
    requires gl.Valid()
    requires AtlasScalable(image, atlas)
    modifies gl`trace, gl`nextHandle, gl`live, gl`arrayBuffer, gl`bufferContents
    ensures gl.Valid()
    ensures var data := ChooseData(buffersData, image, atlas, old(gl.canvasWidth), old(gl.canvasHeight));
      var n, linked := old(gl.nextHandle), LinkOutcome(backend, false, old(gl.nextHandle) + 2);
      var count := AssembleObjects(linked, data, image);
      gl.trace == old(gl.trace) + SetupCalls(n, vertexSource, fragmentSource, backend, data, image) &&
      gl.nextHandle == n + ProgramObjects(backend) + count &&
      gl.live == old(gl.live) + ProgramLive(n, backend) + Handles(n + 3, count) &&
      gl.arrayBuffer == AssembleBound(old(gl.arrayBuffer), n + 3, linked, data) &&
      gl.bufferContents == AssembleContents(old(gl.bufferContents), n + 3, linked, data) &&
      SetupOutcome(r, gl, LinkOutcome(backend, false, old(gl.nextHandle) + 2), data, render, old(gl.nextHandle) + 3)
  {
    var data := ChooseData(buffersData, image, atlas, gl.canvasWidth, gl.canvasHeight);
    r := Setup(gl, vertexSource, fragmentSource, backend, data, render, image);
  }
}
