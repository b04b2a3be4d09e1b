/**
 * An abstract WebGL 1 context.  Every call the core makes that changes GPU
 * state is recorded, in order, as a command in `trace`; object handles are
 * allocated from a counter; `live` holds the shaders, programs, buffers and
 * textures created and not yet deleted; `bufferContents` holds what was last
 * uploaded into each buffer.  The canvas size lives here too, since the
 * renderers resize the canvas through the context.
 */
module Gl {
  import opened Wrappers
  import opened Geometry

  /** An opaque GL object: shader, program, buffer or texture. */
  type Handle = nat

  /** An attribute index or a uniform location. */
  type Location = int

  datatype Stage = VertexStage | FragmentStage
  datatype Usage = StaticDraw | DynamicDraw
  datatype TexParam = WrapS | WrapT | MinFilter | MagFilter
  datatype TexValue = ClampToEdge | Nearest

  datatype Cmd =
    | CreateShader(shader: Handle, stage: Stage)
    | ShaderSource(shader: Handle, source: string)
    | CompileShader(shader: Handle)
    | DeleteShader(shader: Handle)
    | CreateProgram(program: Handle)
    | AttachShader(program: Handle, shader: Handle)
    | LinkProgram(program: Handle)
    | DeleteProgram(program: Handle)
    | CreateBuffer(buffer: Handle)
    | BindArrayBuffer(buffer: Handle)
    | BufferData(data: seq<real>, usage: Usage)
    | CreateTexture(texture: Handle)
    | BindTexture2D(texture: Handle)
    | TexParameter(param: TexParam, value: TexValue)
    | TexImage2D(image: Image)
    | Viewport(x: int, y: int, width: int, height: int)
    | ClearColor(red: real, green: real, blue: real, alpha: real)
    | ClearColorBuffer
    | UseProgram(program: Handle)
    | EnableVertexAttribArray(location: Location)
    /** vertexAttribPointer with component type FLOAT. */
    | VertexAttribPointer(location: Location, size: nat, normalized: bool, stride: nat, offset: nat)
    | UniformMatrix3(location: Location, transpose: bool, matrix: seq<Scalar>)
    | Uniform2(location: Location, v0: real, v1: real)
    /** drawArrays with mode TRIANGLES. */
    | DrawTriangles(first: int, count: int)
    /** Anything a caller-supplied render function issues (per-sprite uniforms, say). */
    | Other(call: string)

  /** Commands that only go on the trace: they create, delete or fill no object. */
  predicate TraceOnly(c: Cmd) {
    !(c.CreateShader? || c.DeleteShader? || c.CreateProgram? || c.DeleteProgram? ||
      c.CreateBuffer? || c.BindArrayBuffer? || c.BufferData? || c.CreateTexture?)
  }

  /** How many commands of a trace satisfy p. */
  function CountWhere(trace: seq<Cmd>, p: Cmd -> bool): nat {
    if trace == [] then 0
    else (if p(trace[0]) then 1 else 0) + CountWhere(trace[1..], p)
  }

  lemma {:induction false} CountAppend(a: seq<Cmd>, b: seq<Cmd>, p: Cmd -> bool)
    ensures CountWhere(a + b, p) == CountWhere(a, p) + CountWhere(b, p)
  {
    if a == [] {
      assert a + b == b;
    } else {
      assert (a + b)[1..] == a[1..] + b;
      CountAppend(a[1..], b, p);
    }
  }

  /** A trace with no command satisfying p counts zero. */
  lemma {:induction false} CountNone(trace: seq<Cmd>, p: Cmd -> bool)
    requires forall i :: 0 <= i < |trace| ==> !p(trace[i])
    ensures CountWhere(trace, p) == 0
  {
    if trace != [] {
      CountNone(trace[1..], p);
    }
  }

  /** Counting a trace made of three parts. */
  lemma CountAppend3(a: seq<Cmd>, b: seq<Cmd>, c: seq<Cmd>, p: Cmd -> bool)
    ensures CountWhere(a + b + c, p) == CountWhere(a, p) + CountWhere(b, p) + CountWhere(c, p)
  {
    CountAppend(a, b, p);
    CountAppend(a + b, c, p);
  }

  /** Counting a trace that starts with c. */
  lemma CountFront(c: Cmd, rest: seq<Cmd>, p: Cmd -> bool)
    ensures CountWhere([c] + rest, p) == (if p(c) then 1 else 0) + CountWhere(rest, p)
  {
    assert ([c] + rest)[1..] == rest;
  }

  lemma CountOne(c: Cmd, p: Cmd -> bool)
    ensures CountWhere([c], p) == (if p(c) then 1 else 0)
  {
    assert [c][1..] == [];
  }

  lemma CountPair(c: Cmd, d: Cmd, p: Cmd -> bool)
    ensures CountWhere([c, d], p) == (if p(c) then 1 else 0) + (if p(d) then 1 else 0)
  {
    assert [c, d][1..] == [d];
    CountOne(d, p);
  }

  lemma CountTriple(c: Cmd, d: Cmd, e: Cmd, p: Cmd -> bool)
    ensures CountWhere([c, d, e], p) == (if p(c) then 1 else 0) + (if p(d) then 1 else 0) + (if p(e) then 1 else 0)
  {
    assert [c, d, e][1..] == [d, e];
    CountPair(d, e, p);
  }

  lemma CountQuad(c: Cmd, d: Cmd, e: Cmd, f: Cmd, p: Cmd -> bool)
    ensures CountWhere([c, d, e, f], p) ==
      (if p(c) then 1 else 0) + (if p(d) then 1 else 0) + (if p(e) then 1 else 0) + (if p(f) then 1 else 0)
  {
    assert [c, d, e, f][1..] == [d, e, f];
    CountTriple(d, e, f, p);
  }

  /** Appending to a trace, grouped either way. */
  lemma AppendAssociative(a: seq<Cmd>, b: seq<Cmd>, c: seq<Cmd>)
    ensures (a + b) + c == a + (b + c)
  {
  }

  /** The `count` consecutive handles starting at `from`. */
  function Handles(from: Handle, count: nat): (s: set<Handle>)
    ensures forall h :: h in s <==> from <= h < from + count
  {
    if count == 0 then {} else Handles(from, count - 1) + {from + count - 1}
  }

  /** Consecutive runs of handles join into one run. */
  lemma HandlesJoin(from: Handle, k: nat, c: nat)
    ensures Handles(from, k) + Handles(from + k, c) == Handles(from, k + c)
  {
  }

  predicate IsClear(c: Cmd) { c.ClearColorBuffer? }
  predicate IsUseProgram(c: Cmd) { c.UseProgram? }
  predicate IsEnable(c: Cmd) { c.EnableVertexAttribArray? }
  predicate IsBind(c: Cmd) { c.BindArrayBuffer? }
  predicate IsPointer(c: Cmd) { c.VertexAttribPointer? }
  predicate IsDraw(c: Cmd) { c.DrawTriangles? }
  predicate IsCreateBuffer(c: Cmd) { c.CreateBuffer? }
  predicate IsCreateTexture(c: Cmd) { c.CreateTexture? }

  class Context {
    var trace: seq<Cmd>
    var nextHandle: Handle
    var live: set<Handle>
    /** The buffer bound to ARRAY_BUFFER, if any. */
    var arrayBuffer: Option<Handle>
    var bufferContents: map<Handle, seq<real>>
    var canvasWidth: nat
    var canvasHeight: nat

    /** Every object the context knows of, or has bound, was handed out by the counter. */
    ghost predicate Valid()
      reads this
    {
      (forall h :: h in live ==> h < nextHandle) &&
      (forall h :: h in bufferContents ==> h < nextHandle) &&
      (arrayBuffer.Some? ==> arrayBuffer.value < nextHandle)
    }

    constructor (width: nat, height: nat)
      ensures Valid()
      ensures trace == [] && live == {} && arrayBuffer == None && bufferContents == map[]
      ensures canvasWidth == width && canvasHeight == height
    {
      trace := [];
      nextHandle := 1;
      live := {};
      arrayBuffer := None;
      bufferContents := map[];
      canvasWidth := width;
      canvasHeight := height;
    }

    /** A call that changes no object: it only goes on the trace. */
    method Emit(c: Cmd)
      requires TraceOnly(c)
      modifies this`trace
      ensures trace == old(trace) + [c]
    {
      trace := trace + [c];
    }

    method NewShader(stage: Stage) returns (h: Handle)
      requires Valid()
      modifies this`trace, this`nextHandle, this`live
      ensures Valid()
      ensures h == old(nextHandle) && nextHandle == h + 1
      ensures live == old(live) + {h}
      ensures trace == old(trace) + [CreateShader(h, stage)]
    {
      h := nextHandle;
      nextHandle := nextHandle + 1;
      live := live + {h};
      trace := trace + [CreateShader(h, stage)];
    }

    method DeleteShaderObject(h: Handle)
      requires Valid()
      modifies this`trace, this`live
      ensures Valid()
      ensures live == old(live) - {h}
      ensures trace == old(trace) + [DeleteShader(h)]
    {
      live := live - {h};
      trace := trace + [DeleteShader(h)];
    }

    method NewProgram() returns (h: Handle)
      requires Valid()
      modifies this`trace, this`nextHandle, this`live
      ensures Valid()
      ensures h == old(nextHandle) && nextHandle == h + 1
      ensures live == old(live) + {h}
      ensures trace == old(trace) + [CreateProgram(h)]
    {
      h := nextHandle;
      nextHandle := nextHandle + 1;
      live := live + {h};
      trace := trace + [CreateProgram(h)];
    }

    method DeleteProgramObject(h: Handle)
      requires Valid()
      modifies this`trace, this`live
      ensures Valid()
      ensures live == old(live) - {h}
      ensures trace == old(trace) + [DeleteProgram(h)]
    {
      live := live - {h};
      trace := trace + [DeleteProgram(h)];
    }

    method NewBuffer() returns (h: Handle)
      requires Valid()
      modifies this`trace, this`nextHandle, this`live
      ensures Valid()
      ensures h == old(nextHandle) && nextHandle == h + 1
      ensures live == old(live) + {h}
      ensures trace == old(trace) + [CreateBuffer(h)]
    {
      h := nextHandle;
      nextHandle := nextHandle + 1;
      live := live + {h};
      trace := trace + [CreateBuffer(h)];
    }

    method BindBuffer(h: Handle)
      modifies this`trace, this`arrayBuffer
      ensures arrayBuffer == Some(h)
      ensures trace == old(trace) + [BindArrayBuffer(h)]
    {
      arrayBuffer := Some(h);
      trace := trace + [BindArrayBuffer(h)];
    }

    /** bufferData: replaces the contents of the bound buffer; with none bound, nothing is stored. */
    method Upload(data: seq<real>, usage: Usage)
      requires Valid()
      modifies this`trace, this`bufferContents
      ensures Valid()
      ensures bufferContents == if old(arrayBuffer).Some? then old(bufferContents)[old(arrayBuffer).value := data] else old(bufferContents)
      ensures trace == old(trace) + [BufferData(data, usage)]
    {
      if arrayBuffer.Some? {
        bufferContents := bufferContents[arrayBuffer.value := data];
      }
      trace := trace + [BufferData(data, usage)];
    }

    method NewTexture() returns (h: Handle)
      requires Valid()
      modifies this`trace, this`nextHandle, this`live
      ensures Valid()
      ensures h == old(nextHandle) && nextHandle == h + 1
      ensures live == old(live) + {h}
      ensures trace == old(trace) + [CreateTexture(h)]
    {
      h := nextHandle;
      nextHandle := nextHandle + 1;
      live := live + {h};
      trace := trace + [CreateTexture(h)];
    }

    /** Calls made by code outside the core (a caller's render function); their effect on objects is not tracked. */
    method Record(calls: seq<Cmd>)
      modifies this`trace
      ensures trace == old(trace) + calls
    {
      trace := trace + calls;
    }

    /** `canvas.width = ...; canvas.height = ...` */
    method ResizeCanvas(width: nat, height: nat)
      modifies this`canvasWidth, this`canvasHeight
      ensures canvasWidth == width && canvasHeight == height
    {
      canvasWidth := width;
      canvasHeight := height;
    }
  }
}
