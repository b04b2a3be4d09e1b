/** Failure-compatible wrappers shared by every module of the model. */
module Wrappers {

  /** A value that may be absent: JavaScript's `undefined`/`null` versus a present value. */
  datatype Option<+T> = None | Some(value: T) {
    function GetOr(default: T): T {
      match this
      case Some(v) => v
      case None => default
    }
  }

  /** The outcome of an operation that either returns a value or throws. */
  datatype Result<+R, +E> = Success(value: R) | Failure(error: E)

  /** The outcome of an operation that returns nothing but may throw. */
  datatype Outcome<+E> = Pass | Fail(error: E)
}

/** The exceptions the setup and frame code can raise. */
module Errors {

  datatype SetupError =
    /** `createShader`: 'Could not create shader' */
    | ShaderCompileFailed
    /** `createProgram`: 'Could not create GLSL program' */
    | ProgramLinkFailed
    /** `findParams`: 'Could not get param details.' */
    | DetailsUnavailable
    /** `findParams`: 'Could not get param location.' */
    | LocationUnavailable
    /** A TypeError from reading `.location` of an attribute the program does not declare. */
    | MissingAttribute(attribute: string)
    /** A TypeError from reading `.location` of a uniform the program does not declare. */
    | MissingUniform(uniform: string)
}
