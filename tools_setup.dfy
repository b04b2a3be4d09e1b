/**
 * The setup half of initializeOnce (tools.mjs): the buffers, the texture and
 * the closure, proved against the call sequences and outcomes defined in
 * ToolsRenderer.
 */
module ToolsSetup {
  import opened Wrappers
  import opened Errors
  import opened Geometry
  import opened Gl
  import opened Params
  import opened ProgramBuilder
  import opened Provision
  import opened ToolsRenderer

  /**
   * The buffer part of initializeOnce.  The position buffer is created and
   * filled before the position attribute is looked up, so a missing attribute
   * leaves it behind; the texCoord buffer is created only when the program
   * has a texCoord attribute.
   */
  method ProvisionBuffers(gl: Context, attributes: map<string, Binding>, buffersData: BuffersData)
    returns (r: Result<seq<AttribBuffer>, SetupError>)
    requires gl.Valid()
    modifies gl`trace, gl`nextHandle, gl`live, gl`arrayBuffer, gl`bufferContents
    ensures gl.Valid()
    ensures var n, count := old(gl.nextHandle), SetupBufferCount(attributes);
      gl.nextHandle == n + count && gl.live == old(gl.live) + Handles(n, count) &&
      gl.arrayBuffer == Some(n + count - 1) &&
      gl.bufferContents == SetupBufferContents(old(gl.bufferContents), n, attributes, buffersData)
    ensures gl.trace == old(gl.trace) + SetupBufferCalls(old(gl.nextHandle), attributes, buffersData)
    ensures var plan := BufferPlan(attributes, buffersData);
      (plan.Failure? ==> r == Failure(plan.error)) &&
      (plan.Success? ==> r.Success? && Provisioned(gl.live, gl.bufferContents, r.value, plan.value, old(gl.nextHandle)))
  {
    ghost var first := gl.nextHandle;
    var position := buffersData.position.GetOr([]);
    ghost var positionCalls := BufferCalls(first, position, DynamicDraw);
    r := PushBuffer(gl, attributes, "position", position, DynamicDraw, [], [], first);
    if r.Failure? || "texCoord" !in attributes {
      assert SetupBufferCalls(first, attributes, buffersData) == positionCalls + [];
      return;
    }
    ghost var plan := [BufferSpec(position, attributes["position"].location)];
    var texCoord := buffersData.texCoord.GetOr(DefaultUv);
    ghost var texCoordCalls := BufferCalls(first + 1, texCoord, DynamicDraw);
    r := PushBuffer(gl, attributes, "texCoord", texCoord, DynamicDraw, r.value, plan, first);
    AppendAssociative(old(gl.trace), positionCalls, texCoordCalls);
  }

  /**
   * What initializeOnce does after createProgram: pass its error on, or
   * create the buffers, then the texture when an image is given, then the
   * closure.  `first` is the handle the first buffer gets.
   */
  method Assemble(gl: Context, linked: Result<Linked, SetupError>, buffersData: BuffersData, hasRenderer: bool,
                  image: Option<Image>, ghost first: Handle)
    returns (r: Result<Renderer, SetupError>)
    requires gl.Valid()
    requires linked.Success? ==> gl.nextHandle == first
    modifies gl`trace, gl`nextHandle, gl`live, gl`arrayBuffer, gl`bufferContents
    ensures gl.Valid()
    ensures gl.trace == old(gl.trace) + AssembleCalls(first, linked, buffersData, image)
    ensures var count := AssembleObjects(linked, buffersData, image);
      gl.nextHandle == old(gl.nextHandle) + count && gl.live == old(gl.live) + Handles(old(gl.nextHandle), count)
    ensures gl.arrayBuffer == AssembleBound(old(gl.arrayBuffer), first, linked)
    ensures gl.bufferContents == AssembleContents(old(gl.bufferContents), first, linked, buffersData)
    ensures SetupOutcome(r, gl, linked, buffersData, hasRenderer, first)
  {
    if linked.Failure? {
      return Failure(linked.error);
    }
    r := AssembleLinked(gl, linked.value, buffersData, hasRenderer, image);
  }

  /** Assemble once createProgram has succeeded: the buffers, then, if they all exist, the rest. */
  method AssembleLinked(gl: Context, linked: Linked, buffersData: BuffersData, hasRenderer: bool, image: Option<Image>)
    returns (r: Result<Renderer, SetupError>)
    requires gl.Valid()
    modifies gl`trace, gl`nextHandle, gl`live, gl`arrayBuffer, gl`bufferContents
    ensures gl.Valid()
    ensures var n, attributes := old(gl.nextHandle), linked.params.attributes;
      var count, textured := SetupBufferCount(attributes), BufferPlan(attributes, buffersData).Success? && image.Some?;
      var objects := count + if textured then 1 else 0;
      gl.trace == old(gl.trace) + SetupBufferCalls(n, attributes, buffersData) +
                  (if textured then TextureCalls(n + count, image.value) else []) &&
      gl.nextHandle == n + objects && gl.live == old(gl.live) + Handles(n, objects) &&
      gl.arrayBuffer == Some(n + count - 1) &&
      gl.bufferContents == SetupBufferContents(old(gl.bufferContents), n, attributes, buffersData)
    ensures AssembleOutcome(r, gl, linked, buffersData, hasRenderer, old(gl.nextHandle))
  {
    ghost var first := gl.nextHandle;
    var attributes := linked.params.attributes;
    var buffers := ProvisionBuffers(gl, attributes, buffersData);
    if buffers.Failure? {
      return Failure(buffers.error);
    }
    ghost var count := SetupBufferCount(attributes);
    r := Complete(gl, linked, buffers.value, BufferPlan(attributes, buffersData).value, hasRenderer, image, first);
    HandlesJoin(first, count, if image.Some? then 1 else 0);
  }

  /**
   * The end of initializeOnce once the buffers are provisioned: the texture
   * when an image is given, then the closure, which captures the buffer list.
   */
  method Complete(gl: Context, linked: Linked, buffers: seq<AttribBuffer>, ghost plan: seq<BufferSpec>,
                  hasRenderer: bool, image: Option<Image>, ghost first: Handle)
    returns (r: Result<Renderer, SetupError>)
    requires gl.Valid()
    requires Provisioned(gl.live, gl.bufferContents, buffers, plan, first)
    modifies gl`trace, gl`nextHandle, gl`live
    ensures gl.Valid()
    ensures var n := old(gl.nextHandle);
      var count := if image.Some? then 1 else 0;
      gl.nextHandle == n + count && gl.live == old(gl.live) + Handles(n, count) &&
      gl.trace == old(gl.trace) + (if image.Some? then TextureCalls(n, image.value) else [])
    ensures r.Success? && Built(r.value, gl, linked, hasRenderer, plan, first)
  {
    if image.Some? {
      ghost var liveBefore := gl.live;
      var texture := SetupTexture(gl, image.value);
      ProvisionedMoreLive(liveBefore, {texture}, gl.bufferContents, buffers, plan, first);
    }
    var renderer := new Renderer(gl, linked.program, buffers, linked.params.uniforms, linked.params.attributes,
                                 hasRenderer);
    return Success(renderer);
  }

  /**
   * initializeOnce.  The calls made are SetupCalls.  The result is the
   * program's error, else the missing position attribute, else a closure
   * whose buffers, created after the program's three objects, hold the plan's
   * data at the plan's slots.
   */
  method InitializeOnce(gl: Context, vertexSource: string, fragmentSource: string, backend: Backend,
                        buffersData: BuffersData, hasRenderer: bool, image: Option<Image>)
    returns (r: Result<Renderer, SetupError>)
    requires gl.Valid()
    modifies gl`trace, gl`nextHandle, gl`live, gl`arrayBuffer, gl`bufferContents
    ensures gl.Valid()
    ensures gl.trace == old(gl.trace) + SetupCalls(old(gl.nextHandle), vertexSource, fragmentSource, backend, buffersData, image)
    ensures var n, linked := old(gl.nextHandle), LinkOutcome(backend, true, old(gl.nextHandle) + 2);
      var count := AssembleObjects(linked, buffersData, image);
      gl.nextHandle == n + ProgramObjects(backend) + count &&
      gl.live == old(gl.live) + ProgramLive(n, backend) + Handles(n + 3, count) &&
      gl.arrayBuffer == AssembleBound(old(gl.arrayBuffer), n + 3, linked) &&
      gl.bufferContents == AssembleContents(old(gl.bufferContents), n + 3, linked, buffersData)
    ensures SetupOutcome(r, gl, LinkOutcome(backend, true, old(gl.nextHandle) + 2), buffersData, hasRenderer,
                         old(gl.nextHandle) + 3)
  {
    var linked := ProgramBuilder.CreateProgram(gl, vertexSource, fragmentSource, backend, true);
    r := Assemble(gl, linked, buffersData, hasRenderer, image, old(gl.nextHandle) + 3);
    AppendAssociative(old(gl.trace), ProgramCalls(old(gl.nextHandle), vertexSource, fragmentSource, backend),
                      AssembleCalls(old(gl.nextHandle) + 3, linked, buffersData, image));
  }
}
