/**
 * The buffer and texture helpers and the per-frame steps that
 * webgl-toolkit.mjs and tools.mjs share: createBuffer, setupTexture (inlined
 * in tools.mjs), setRectangle, and the start of every frame, namely viewport,
 * clear, useProgram, then one enable/bind/pointer triple per buffer.
 */
module Provision {
  import opened Wrappers
  import opened Geometry
  import opened Gl
  import opened Errors
  import opened Params

  /** One entry of the renderer's `buffers` list: a buffer and the attribute slot it feeds. */
  datatype AttribBuffer = AttribBuffer(buffer: Handle, location: Location)

  /** A buffer to be created: its data and the attribute slot it feeds. */
  datatype BufferSpec = BufferSpec(data: seq<real>, location: Location)

  /**
   * The buffers hold the plan's data: entry i is buffer `first + i`, live,
   * filled with entry i's data and paired with entry i's slot.
   */
  ghost predicate Provisioned(live: set<Handle>, contents: map<Handle, seq<real>>, buffers: seq<AttribBuffer>,
                              plan: seq<BufferSpec>, first: Handle)
  {
    |buffers| == |plan| &&
    forall i :: 0 <= i < |plan| ==>
      buffers[i] == AttribBuffer(first + i, plan[i].location) &&
      first + i in live && first + i in contents && contents[first + i] == plan[i].data
  }

  /** Creating the next buffer and filling it with the next entry's data extends a provisioned list by that entry. */
  lemma ProvisionedExtend(live: set<Handle>, contents: map<Handle, seq<real>>, buffers: seq<AttribBuffer>,
                          plan: seq<BufferSpec>, first: Handle, data: seq<real>, location: Location)
    requires Provisioned(live, contents, buffers, plan, first)
    ensures var h := first + |buffers|;
      Provisioned(live + {h}, contents[h := data], buffers + [AttribBuffer(h, location)], plan + [BufferSpec(data, location)], first)
  {
  }

  /** Creating other objects, which only adds to the live set, keeps a list provisioned. */
  lemma ProvisionedMoreLive(live: set<Handle>, more: set<Handle>, contents: map<Handle, seq<real>>,
                            buffers: seq<AttribBuffer>, plan: seq<BufferSpec>, first: Handle)
    requires Provisioned(live, contents, buffers, plan, first)
    ensures Provisioned(live + more, contents, buffers, plan, first)
  {
  }

  /** The calls createBuffer makes for buffer b. */
  function BufferCalls(b: Handle, data: seq<real>, usage: Usage): seq<Cmd> {
    [CreateBuffer(b), BindArrayBuffer(b), BufferData(data, usage)]
  }

  /** Creating a buffer creates exactly one buffer and no texture. */
  lemma BufferCallsCreateOneBuffer(b: Handle, data: seq<real>, usage: Usage)
    ensures CountWhere(BufferCalls(b, data, usage), IsCreateBuffer) == 1
    ensures CountWhere(BufferCalls(b, data, usage), IsCreateTexture) == 0
  {
    CountTriple(CreateBuffer(b), BindArrayBuffer(b), BufferData(data, usage), IsCreateBuffer);
    CountTriple(CreateBuffer(b), BindArrayBuffer(b), BufferData(data, usage), IsCreateTexture);
  }

  /** createBuffer: a new buffer, bound to ARRAY_BUFFER and filled with the data. */
  method CreateBufferWith(gl: Context, data: seq<real>, usage: Usage) returns (b: Handle)
    requires gl.Valid()
    modifies gl`trace, gl`nextHandle, gl`live, gl`arrayBuffer, gl`bufferContents
    ensures gl.Valid()
    ensures b == old(gl.nextHandle) && gl.nextHandle == b + 1
    ensures gl.live == old(gl.live) + {b}
    ensures gl.arrayBuffer == Some(b)
    ensures gl.bufferContents == old(gl.bufferContents)[b := data]
    ensures gl.trace == old(gl.trace) + BufferCalls(b, data, usage)
  {
    b := gl.NewBuffer();
    gl.BindBuffer(b);
    gl.Upload(data, usage);
  }

  /**
   * `buffers.push([createBuffer(gl, data), attributes[name].location])`: the
   * buffer is created and filled first, then the attribute is looked up, so
   * a missing attribute raises with the new buffer left behind.  On success
   * the list, provisioned so far, is provisioned one entry further.
   */
  method PushBuffer(gl: Context, attributes: map<string, Binding>, name: string, data: seq<real>, usage: Usage,
                    buffers: seq<AttribBuffer>, ghost plan: seq<BufferSpec>, ghost first: Handle)
    returns (r: Result<seq<AttribBuffer>, SetupError>)
    requires gl.Valid()
    requires gl.nextHandle == first + |buffers|
    requires Provisioned(gl.live, gl.bufferContents, buffers, plan, first)
    modifies gl`trace, gl`nextHandle, gl`live, gl`arrayBuffer, gl`bufferContents
    ensures gl.Valid()
    ensures gl.nextHandle == old(gl.nextHandle) + 1 && gl.live == old(gl.live) + {old(gl.nextHandle)}
    ensures gl.trace == old(gl.trace) + BufferCalls(old(gl.nextHandle), data, usage)
    ensures gl.arrayBuffer == Some(old(gl.nextHandle))
    ensures gl.bufferContents == old(gl.bufferContents)[old(gl.nextHandle) := data]
    ensures name !in attributes ==> r == Failure(MissingAttribute(name))
    ensures name in attributes ==>
      r == Success(buffers + [AttribBuffer(old(gl.nextHandle), attributes[name].location)]) &&
      Provisioned(gl.live, gl.bufferContents, r.value, plan + [BufferSpec(data, attributes[name].location)], first)
  {
    var buffer := CreateBufferWith(gl, data, usage);
    if name !in attributes {
      return Failure(MissingAttribute(name));
    }
    ProvisionedExtend(old(gl.live), old(gl.bufferContents), buffers, plan, first, data, attributes[name].location);
    return Success(buffers + [AttribBuffer(buffer, attributes[name].location)]);
  }

  /** setRectangle: fills the bound buffer with a rectangle's two triangles. */
  method SetRectangle(gl: Context, x: real, y: real, width: real, height: real)
    requires gl.Valid()
    modifies gl`trace, gl`bufferContents
    ensures gl.Valid()
    ensures var coords := RectangleCoords(x, y, width, height);
      gl.trace == old(gl.trace) + [BufferData(coords, StaticDraw)] &&
      gl.bufferContents == if gl.arrayBuffer.Some? then old(gl.bufferContents)[gl.arrayBuffer.value := coords]
                           else old(gl.bufferContents)
  {
    gl.Upload(RectangleCoords(x, y, width, height), StaticDraw);
  }

  /** The calls that set up a texture: clamp-to-edge on both axes, nearest filtering, then the upload. */
  function TextureCalls(texture: Handle, image: Image): seq<Cmd> {
    [CreateTexture(texture), BindTexture2D(texture),
     TexParameter(WrapS, ClampToEdge), TexParameter(WrapT, ClampToEdge),
     TexParameter(MinFilter, Nearest), TexParameter(MagFilter, Nearest),
     TexImage2D(image)]
  }

  /** setupTexture: one new texture, with fixed sampling parameters, holding the image. */
  method SetupTexture(gl: Context, image: Image) returns (t: Handle)
    requires gl.Valid()
    modifies gl`trace, gl`nextHandle, gl`live
    ensures gl.Valid()
    ensures t == old(gl.nextHandle) && gl.nextHandle == t + 1
    ensures gl.live == old(gl.live) + {t}
    ensures gl.trace == old(gl.trace) + TextureCalls(t, image)
  {
    t := gl.NewTexture();
    gl.Emit(BindTexture2D(t));
    gl.Emit(TexParameter(WrapS, ClampToEdge));
    gl.Emit(TexParameter(WrapT, ClampToEdge));
    gl.Emit(TexParameter(MinFilter, Nearest));
    gl.Emit(TexParameter(MagFilter, Nearest));
    gl.Emit(TexImage2D(image));
  }

  /** Setting up a texture creates exactly one texture and no buffer. */
  lemma TextureCallsCreateOneTexture(texture: Handle, image: Image)
    ensures CountWhere(TextureCalls(texture, image), IsCreateTexture) == 1
    ensures CountWhere(TextureCalls(texture, image), IsCreateBuffer) == 0
  {
    var head := [CreateTexture(texture), BindTexture2D(texture),
                 TexParameter(WrapS, ClampToEdge), TexParameter(WrapT, ClampToEdge)];
    var tail := [TexParameter(MinFilter, Nearest), TexParameter(MagFilter, Nearest), TexImage2D(image)];
    assert TextureCalls(texture, image) == head + tail;
    CountQuad(head[0], head[1], head[2], head[3], IsCreateTexture);
    CountQuad(head[0], head[1], head[2], head[3], IsCreateBuffer);
    CountTriple(tail[0], tail[1], tail[2], IsCreateTexture);
    CountTriple(tail[0], tail[1], tail[2], IsCreateBuffer);
    CountAppend(head, tail, IsCreateTexture);
    CountAppend(head, tail, IsCreateBuffer);
  }

  // ---------------------------------------------------------------------------
  // The shared start of a frame
  // ---------------------------------------------------------------------------

  /** viewport to the canvas, clear to transparent black, activate the program. */
  function FramePrologue(width: nat, height: nat, program: Handle): seq<Cmd> {
    [Viewport(0, 0, width, height), ClearColor(0.0, 0.0, 0.0, 0.0), ClearColorBuffer, UseProgram(program)]
  }

  /** What the frame does for one buffer: enable its slot, bind it, declare two floats per vertex. */
  function BindSteps(entry: AttribBuffer): seq<Cmd> {
    [EnableVertexAttribArray(entry.location), BindArrayBuffer(entry.buffer),
     VertexAttribPointer(entry.location, 2, false, 0, 0)]
  }

  /** The `buffers.forEach(...)` of a frame, in list order. */
  function BindAll(buffers: seq<AttribBuffer>): seq<Cmd> {
    if buffers == [] then []
    else BindAll(buffers[..|buffers| - 1]) + BindSteps(buffers[|buffers| - 1])
  }

  /** Buffer i's three calls occupy [3 i, 3 i + 3) of the binding calls. */
  lemma {:induction false} BindAllLayout(buffers: seq<AttribBuffer>, i: nat)
    requires i < |buffers|
    ensures |BindAll(buffers)| == 3 * |buffers|
    ensures BindAll(buffers)[3 * i .. 3 * i + 3] == BindSteps(buffers[i])
  {
    var init := buffers[..|buffers| - 1];
    BindAllLength(init);
    if i < |buffers| - 1 {
      BindAllLayout(init, i);
      assert BindAll(buffers)[3 * i .. 3 * i + 3] == BindAll(init)[3 * i .. 3 * i + 3];
    }
  }

  lemma {:induction false} BindAllLength(buffers: seq<AttribBuffer>)
    ensures |BindAll(buffers)| == 3 * |buffers|
  {
    if buffers != [] {
      BindAllLength(buffers[..|buffers| - 1]);
    }
  }

  /** One buffer's steps: one enable, one bind, one pointer declaration. */
  lemma BindStepsCounts(entry: AttribBuffer)
    ensures CountWhere(BindSteps(entry), IsEnable) == 1
    ensures CountWhere(BindSteps(entry), IsBind) == 1
    ensures CountWhere(BindSteps(entry), IsPointer) == 1
    ensures CountWhere(BindSteps(entry), IsDraw) == 0
    ensures CountWhere(BindSteps(entry), IsClear) == 0
    ensures CountWhere(BindSteps(entry), IsUseProgram) == 0
  {
    var s := BindSteps(entry);
    CountTriple(s[0], s[1], s[2], IsEnable);
    CountTriple(s[0], s[1], s[2], IsBind);
    CountTriple(s[0], s[1], s[2], IsPointer);
    CountTriple(s[0], s[1], s[2], IsDraw);
    CountTriple(s[0], s[1], s[2], IsClear);
    CountTriple(s[0], s[1], s[2], IsUseProgram);
  }

  /** Exactly one enable, one bind and one pointer declaration per buffer, and nothing else. */
  lemma {:induction false} BindAllCounts(buffers: seq<AttribBuffer>)
    ensures CountWhere(BindAll(buffers), IsEnable) == |buffers|
    ensures CountWhere(BindAll(buffers), IsBind) == |buffers|
    ensures CountWhere(BindAll(buffers), IsPointer) == |buffers|
    ensures CountWhere(BindAll(buffers), IsDraw) == 0
    ensures CountWhere(BindAll(buffers), IsClear) == 0
    ensures CountWhere(BindAll(buffers), IsUseProgram) == 0
  {
    if buffers != [] {
      var init := buffers[..|buffers| - 1];
      var steps := BindSteps(buffers[|buffers| - 1]);
      BindAllCounts(init);
      CountAppend(BindAll(init), steps, IsEnable);
      CountAppend(BindAll(init), steps, IsBind);
      CountAppend(BindAll(init), steps, IsPointer);
      CountAppend(BindAll(init), steps, IsDraw);
      CountAppend(BindAll(init), steps, IsClear);
      CountAppend(BindAll(init), steps, IsUseProgram);
      BindStepsCounts(buffers[|buffers| - 1]);
    }
  }

  /** The prologue clears once, activates the program once and binds nothing. */
  lemma PrologueCounts(width: nat, height: nat, program: Handle)
    ensures var p := FramePrologue(width, height, program);
      CountWhere(p, IsClear) == 1 && CountWhere(p, IsUseProgram) == 1 &&
      CountWhere(p, IsEnable) == 0 && CountWhere(p, IsBind) == 0 &&
      CountWhere(p, IsPointer) == 0 && CountWhere(p, IsDraw) == 0
  {
    var p := FramePrologue(width, height, program);
    CountQuad(p[0], p[1], p[2], p[3], IsClear);
    CountQuad(p[0], p[1], p[2], p[3], IsUseProgram);
    CountQuad(p[0], p[1], p[2], p[3], IsEnable);
    CountQuad(p[0], p[1], p[2], p[3], IsBind);
    CountQuad(p[0], p[1], p[2], p[3], IsPointer);
    CountQuad(p[0], p[1], p[2], p[3], IsDraw);
  }

  /** The `forEach` over the buffers, one triple of calls per entry. */
  method BindEach(gl: Context, buffers: seq<AttribBuffer>)
    modifies gl`trace, gl`arrayBuffer
    ensures gl.trace == old(gl.trace) + BindAll(buffers)
    ensures gl.arrayBuffer == if buffers == [] then old(gl.arrayBuffer) else Some(buffers[|buffers| - 1].buffer)
  {
    var i := 0;
    while i < |buffers|
      invariant 0 <= i <= |buffers|
      invariant gl.trace == old(gl.trace) + BindAll(buffers[..i])
      invariant gl.arrayBuffer == if i == 0 then old(gl.arrayBuffer) else Some(buffers[i - 1].buffer)
    {
      assert buffers[..i + 1][..i] == buffers[..i];
      var entry := buffers[i];
      gl.Emit(EnableVertexAttribArray(entry.location));
      gl.BindBuffer(entry.buffer);
      gl.Emit(VertexAttribPointer(entry.location, 2, false, 0, 0));
      i := i + 1;
    }
    assert buffers[..i] == buffers;
  }

  /**
   * The common start of a frame in both renderers: size the canvas to the
   * window, then the prologue and the bindings of every buffer.
   */
  method BeginFrame(gl: Context, innerWidth: nat, innerHeight: nat, program: Handle, buffers: seq<AttribBuffer>)
    modifies gl`trace, gl`arrayBuffer, gl`canvasWidth, gl`canvasHeight
    ensures gl.canvasWidth == innerWidth && gl.canvasHeight == innerHeight
    ensures gl.trace == old(gl.trace) + (FramePrologue(innerWidth, innerHeight, program) + BindAll(buffers))
    ensures gl.arrayBuffer == if buffers == [] then old(gl.arrayBuffer) else Some(buffers[|buffers| - 1].buffer)
  {
    gl.ResizeCanvas(innerWidth, innerHeight);
    var width, height := gl.canvasWidth, gl.canvasHeight;
    gl.Emit(Viewport(0, 0, width, height));
    gl.Emit(ClearColor(0.0, 0.0, 0.0, 0.0));
    gl.Emit(ClearColorBuffer);
    gl.Emit(UseProgram(program));
    assert gl.trace == old(gl.trace) + FramePrologue(width, height, program);
    BindEach(gl, buffers);
  }
}
