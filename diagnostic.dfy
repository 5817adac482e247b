/** The diagnostics sink: an append-only list of compiler errors. */
module Diagnostic {
  datatype SourceLocation = SourceLocation(line: nat, col: nat)
  datatype SourcePair = SourcePair(start: SourceLocation, end: SourceLocation)

  /** The message of an error, keeping the names it is built from and
      dropping its text and styling. `Reported` stands for an error reported
      by a child expression, whose checking is not part of this model. */
  datatype Message =
    | UnknownType(objectName: string)
    | IncompatibleWithVariable(valueType: string, variableType: string)
    | IncompatibleWithReturn(valueType: string, returnType: string)
    | NonVoidCannotReturnVoid(returnType: string)
    | Reported(code: nat)

  datatype CompilerError = CompilerError(span: SourcePair, message: Message)

  class Diagnostics {
    var errors: seq<CompilerError>

    constructor ()
      ensures errors == []
    {
      errors := [];
    }

    method ReportCompilerError(start: SourceLocation, end: SourceLocation, message: Message)
      modifies this
      ensures errors == old(errors) + [CompilerError(SourcePair(start, end), message)]
    {
      errors := errors + [CompilerError(SourcePair(start, end), message)];
    }

    /** Appends errors reported elsewhere (by a child expression), in order. */
    method ReportAll(reported: seq<CompilerError>)
      modifies this
      ensures errors == old(errors) + reported
    {
      errors := errors + reported;
    }
  }
}
