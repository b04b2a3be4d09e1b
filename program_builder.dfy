/**
 * createShader and createProgram (identical in webgl-toolkit.mjs and
 * tools.mjs).  Whether each stage compiles, whether the program links and
 * what introspection reports are decided by the GL implementation; they are
 * inputs here (`Backend`).  The shader sources are opaque strings.
 */
module ProgramBuilder {
  import opened Wrappers
  import opened Errors
  import opened Gl
  import opened Params

  /** What the GL implementation reports for one pair of sources. */
  datatype Backend = Backend(
    vertexCompiles: bool,
    fragmentCompiles: bool,
    links: bool,
    activeAttributes: seq<Probe>,
    activeUniforms: seq<Probe>)

  /** createProgram's result: `{ program, params }`. */
  datatype Linked = Linked(program: Handle, params: ParamTables)

  /**
   * What createProgram returns or raises, given the handle its program gets:
   * a compile error, else a link error, else findParams' tables or error.
   */
  function LinkOutcome(backend: Backend, withName: bool, program: Handle): (r: Result<Linked, SetupError>)
    ensures r.Success? <==> backend.vertexCompiles && backend.fragmentCompiles && backend.links &&
                            ParamTablesOf(backend.activeAttributes, backend.activeUniforms, withName).Success?
    ensures !backend.vertexCompiles || !backend.fragmentCompiles ==> r == Failure(ShaderCompileFailed)
    ensures backend.vertexCompiles && backend.fragmentCompiles && !backend.links ==> r == Failure(ProgramLinkFailed)
    ensures r.Success? ==> r.value.program == program &&
                           r.value.params == ParamTablesOf(backend.activeAttributes, backend.activeUniforms, withName).value
  {
    if !backend.vertexCompiles || !backend.fragmentCompiles then Failure(ShaderCompileFailed)
    else if !backend.links then Failure(ProgramLinkFailed)
    else
      match ParamTablesOf(backend.activeAttributes, backend.activeUniforms, withName)
      case Failure(e) => Failure(e)
      case Success(tables) => Success(Linked(program, tables))
  }

  /** The calls createShader makes for shader handle h; a failed compile deletes the shader. */
  function ShaderCalls(h: Handle, stage: Stage, source: string, compiles: bool): seq<Cmd> {
    [Cmd.CreateShader(h, stage), ShaderSource(h, source), CompileShader(h)] +
    (if compiles then [] else [DeleteShader(h)])
  }

  /** The calls createProgram makes after both compiles; a failed link deletes the program only. */
  function LinkCalls(program: Handle, vertex: Handle, fragment: Handle, links: bool): seq<Cmd> {
    [Cmd.CreateProgram(program), AttachShader(program, vertex), AttachShader(program, fragment), LinkProgram(program)] +
    (if links then [] else [DeleteProgram(program)])
  }

  /**
   * The calls createProgram makes from handle n: the vertex shader's; then,
   * if it compiled, the fragment shader's; then, if that compiled too, the
   * program's.
   */
  function ProgramCalls(n: Handle, vertexSource: string, fragmentSource: string, backend: Backend): seq<Cmd> {
    ShaderCalls(n, VertexStage, vertexSource, backend.vertexCompiles) +
    (if !backend.vertexCompiles then []
     else ShaderCalls(n + 1, FragmentStage, fragmentSource, backend.fragmentCompiles) +
          (if !backend.fragmentCompiles then [] else LinkCalls(n + 2, n, n + 1, backend.links)))
  }

  /** How many objects createProgram creates: one shader, two, or both shaders and the program. */
  function ProgramObjects(backend: Backend): nat {
    if !backend.vertexCompiles then 1 else if !backend.fragmentCompiles then 2 else 3
  }

  /**
   * The objects createProgram leaves alive, from handle n: nothing when the
   * vertex stage fails; the vertex shader when the fragment stage fails; both
   * shaders when linking fails; both shaders and the program otherwise.
   */
  function ProgramLive(n: Handle, backend: Backend): set<Handle> {
    if !backend.vertexCompiles then {}
    else if !backend.fragmentCompiles then {n}
    else if !backend.links then {n, n + 1}
    else {n, n + 1, n + 2}
  }

  /** createProgram creates no buffer and no texture. */
  lemma ProgramCallsCreateNoObjects(n: Handle, vertexSource: string, fragmentSource: string, backend: Backend)
    ensures CountWhere(ProgramCalls(n, vertexSource, fragmentSource, backend), IsCreateTexture) == 0
    ensures CountWhere(ProgramCalls(n, vertexSource, fragmentSource, backend), IsCreateBuffer) == 0
  {
    var calls := ProgramCalls(n, vertexSource, fragmentSource, backend);
    assert forall i :: 0 <= i < |calls| ==> !IsCreateTexture(calls[i]) && !IsCreateBuffer(calls[i]);
    CountNone(calls, IsCreateTexture);
    CountNone(calls, IsCreateBuffer);
  }

  /**
   * createShader: on a failed compile the new shader is deleted before the
   * error is raised, so no shader is left behind.
   */
  method CreateShader(gl: Context, stage: Stage, source: string, compiles: bool)
    returns (r: Result<Handle, SetupError>)
    requires gl.Valid()
    modifies gl`trace, gl`nextHandle, gl`live
    ensures gl.Valid()
    ensures var h := old(gl.nextHandle);
      gl.nextHandle == h + 1 &&
      gl.trace == old(gl.trace) + ShaderCalls(h, stage, source, compiles) &&
      gl.live == (if compiles then old(gl.live) + {h} else old(gl.live)) &&
      r == (if compiles then Success(h) else Failure(ShaderCompileFailed))
  {
    var shader := gl.NewShader(stage);
    gl.Emit(ShaderSource(shader, source));
    gl.Emit(CompileShader(shader));
    if !compiles {
      gl.DeleteShaderObject(shader);
      return Failure(ShaderCompileFailed);
    }
    return Success(shader);
  }

  /**
   * The second half of createProgram, once both shaders compiled: create the
   * program, attach both shaders, link; a failed link deletes the program
   * (not the shaders) and raises; otherwise findParams builds the tables.
   */
  method LinkProgramWith(gl: Context, vertexShader: Handle, fragmentShader: Handle, backend: Backend, withName: bool)
    returns (r: Result<Linked, SetupError>)
    requires gl.Valid()
    modifies gl`trace, gl`nextHandle, gl`live
    ensures gl.Valid()
    ensures var p := old(gl.nextHandle);
      gl.nextHandle == p + 1 &&
      gl.live == (if backend.links then old(gl.live) + {p} else old(gl.live) - {p}) &&
      gl.trace == old(gl.trace) + LinkCalls(p, vertexShader, fragmentShader, backend.links)
    ensures !backend.links ==> r == Failure(ProgramLinkFailed)
    ensures backend.links ==>
      match ParamTablesOf(backend.activeAttributes, backend.activeUniforms, withName)
      case Failure(e) => r == Failure(e)
      case Success(tables) => r == Success(Linked(old(gl.nextHandle), tables))
  {
    var program := gl.NewProgram();
    gl.Emit(AttachShader(program, vertexShader));
    gl.Emit(AttachShader(program, fragmentShader));
    gl.Emit(LinkProgram(program));
    if !backend.links {
      gl.DeleteProgramObject(program);
      return Failure(ProgramLinkFailed);
    }
    var params := FindParams(backend.activeAttributes, backend.activeUniforms, withName);
    if params.Failure? {
      return Failure(params.error);
    }
    return Success(Linked(program, params.value));
  }

  /**
   * createProgram: compile both stages, link, then run findParams.  Of the
   * objects created, what remains live afterwards is: nothing when the vertex
   * stage fails; the vertex shader when the fragment stage fails; both
   * shaders when linking fails (the program itself is deleted); both shaders
   * and the program otherwise, including when findParams raises.
   */
  method CreateProgram(gl: Context, vertexSource: string, fragmentSource: string, backend: Backend, withName: bool)
    returns (r: Result<Linked, SetupError>)
    requires gl.Valid()
    modifies gl`trace, gl`nextHandle, gl`live
    ensures gl.Valid()
    ensures var n := old(gl.nextHandle);
      gl.nextHandle == n + ProgramObjects(backend) &&
      gl.live == old(gl.live) + ProgramLive(n, backend) &&
      gl.trace == old(gl.trace) + ProgramCalls(n, vertexSource, fragmentSource, backend)
    ensures r == LinkOutcome(backend, withName, old(gl.nextHandle) + 2)
  {
    ghost var n := gl.nextHandle;
    ghost var vertexCalls := ShaderCalls(n, VertexStage, vertexSource, backend.vertexCompiles);
    var vertexShader := CreateShader(gl, VertexStage, vertexSource, backend.vertexCompiles);
    if vertexShader.Failure? {
      assert ProgramCalls(n, vertexSource, fragmentSource, backend) == vertexCalls + [];
      return Failure(vertexShader.error);
    }
    ghost var fragmentCalls := ShaderCalls(n + 1, FragmentStage, fragmentSource, backend.fragmentCompiles);
    var fragmentShader := CreateShader(gl, FragmentStage, fragmentSource, backend.fragmentCompiles);
    if fragmentShader.Failure? {
      assert ProgramCalls(n, vertexSource, fragmentSource, backend) == vertexCalls + (fragmentCalls + []);
      return Failure(fragmentShader.error);
    }
    ghost var liveBefore := gl.live;
    r := LinkProgramWith(gl, vertexShader.value, fragmentShader.value, backend, withName);
    assert liveBefore == old(gl.live) + {n, n + 1};
    assert n + 2 !in liveBefore;
    assert ProgramCalls(n, vertexSource, fragmentSource, backend) ==
      vertexCalls + (fragmentCalls + LinkCalls(n + 2, n, n + 1, backend.links));
  }
}
