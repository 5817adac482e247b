/** `return;` and `return value;`. */
module ReturnStatements {
  import opened Wrappers
  import opened Types
  import opened Diagnostic
  import opened Ast
  import opened Ir
  import opened Symbols

  /** The effect of `typeCheck` on a return statement: the value slot
      afterwards, the errors appended and whether `exit` is raised. */
  datatype ReturnOutcome = ReturnOutcome(value: Option<Expr>, errors: seq<CompilerError>, fatal: bool)

  /** A return agrees with the declared return type: nothing (or a void
      value) from a void function, a value of exactly that type otherwise. */
  predicate Agrees(returnType: Type, value: Option<Expr>) {
    if returnType.IsVoid() then value.None? || TypeOf(value.value).IsVoid()
    else value.Some? && TypeOf(value.value) == returnType
  }

  function Mismatch(e: Expr, returnType: Type): CompilerError {
    CompilerError(SpanOf(e), IncompatibleWithReturn(TypeOf(e).name, returnType.name))
  }

  /** `typeCheck` on a return statement at `span` in a function declared to
      return `returnType`. */
  function CheckReturn(returnType: Type, span: SourcePair, value: Option<Expr>,
                       check: LeafChecker, canCast: CastOracle): (r: ReturnOutcome)
    // no value: nothing is checked; fine in a void function, one error otherwise
    ensures value.None? && returnType.IsVoid() ==> r == ReturnOutcome(None, [], false)
    ensures value.None? && !returnType.IsVoid() ==>
      r == ReturnOutcome(None, [CompilerError(span, NonVoidCannotReturnVoid(returnType.name))], true)
    // a value is checked first, and the rules apply to the checked value
    ensures value.Some? ==>
      var c := CheckExpr(check, value.value);
      var t := TypeOf(c.expr);
      (returnType.IsVoid() && t.IsVoid() ==> r == ReturnOutcome(Some(c.expr), c.errors, c.fatal)) &&
      (returnType.IsVoid() && !t.IsVoid() ==>
        r == ReturnOutcome(Some(c.expr), c.errors + [Mismatch(c.expr, returnType)], true)) &&
      (!returnType.IsVoid() && t == returnType ==> r == ReturnOutcome(Some(c.expr), c.errors, c.fatal)) &&
      (!returnType.IsVoid() && t != returnType && canCast(c.expr, returnType) ==>
        r == ReturnOutcome(Some(Cast(c.expr, returnType)), c.errors, c.fatal)) &&
      (!returnType.IsVoid() && t != returnType && !canCast(c.expr, returnType) ==>
        r == ReturnOutcome(Some(c.expr), c.errors + [Mismatch(c.expr, returnType)], true))
    // a return that disagrees with the declared type never passes silently
    ensures !Agrees(returnType, r.value) ==> r.fatal
    ensures r.value.None? <==> value.None?
  {
    match value
    case None =>
      if returnType.IsVoid() then ReturnOutcome(None, [], false)
      else ReturnOutcome(None, [CompilerError(span, NonVoidCannotReturnVoid(returnType.name))], true)
    case Some(e) =>
      var c := CheckExpr(check, e);
      if returnType.IsVoid() then
        if TypeOf(c.expr).IsVoid() then ReturnOutcome(Some(c.expr), c.errors, c.fatal)
        else ReturnOutcome(Some(c.expr), c.errors + [Mismatch(c.expr, returnType)], true)
      else
        var s := Settle(c.expr, returnType, canCast);
        ReturnOutcome(Some(s.slot), c.errors + (if s.rejected then [Mismatch(c.expr, returnType)] else []),
                      c.fatal || s.rejected)
  }

  /** Checking a return again, once it agrees with the declared type and its
      child is settled, changes nothing and reports nothing. */
  lemma {:induction false} ReturnRecheck(returnType: Type, span: SourcePair, value: Option<Expr>,
                                         check: LeafChecker, canCast: CastOracle)
    requires SlotSettled(check, value)
    requires Agrees(returnType, CheckReturn(returnType, span, value, check, canCast).value)
    ensures var r := CheckReturn(returnType, span, value, check, canCast);
            CheckReturn(returnType, span, r.value, check, canCast) == ReturnOutcome(r.value, [], false)
  {
    if value.Some? {
      CheckExprStable(check, value.value);
      CheckExprStable(check, Cast(value.value, returnType));
    }
  }

  class ReturnStatement {
    const scope: Scope
    const span: SourcePair
    var returnValue: Option<Expr>

    constructor (scope: Scope, returnValue: Option<Expr>, span: SourcePair)
      ensures this.scope == scope && this.returnValue == returnValue && this.span == span
    {
      this.scope := scope;
      this.returnValue := returnValue;
      this.span := span;
    }

    /** `getChildren`: the returned value, if there is one. */
    function Children(): (r: seq<Expr>)
      reads this
      ensures |r| <= 1
      ensures r == [] <==> returnValue.None?
      ensures forall i :: 0 <= i < |r| ==> Some(r[i]) == returnValue
    {
      if returnValue.Some? then [returnValue.value] else []
    }

    method TypeCheck(diag: Diagnostics, exit: bool, check: LeafChecker, canCast: CastOracle) returns (exit': bool)
      modifies this, diag
      ensures var r := CheckReturn(scope.returnType, span, old(returnValue), check, canCast);
              returnValue == r.value && diag.errors == old(diag.errors) + r.errors && exit' == (exit || r.fatal)
      // only appends errors, never lowers `exit`
      ensures old(diag.errors) <= diag.errors
      ensures exit ==> exit'
    {
      exit' := exit;
      if returnValue.Some? {
        var e;
        e, exit' := TypeCheckExpr(returnValue.value, check, diag, exit');
        returnValue := Some(e);
      }
      var returnType := scope.returnType;
      if returnType.IsVoid() {
        if returnValue.Some? && !TypeOf(returnValue.value).IsVoid() {
          var e := returnValue.value;
          diag.ReportCompilerError(SpanOf(e).start, SpanOf(e).end, IncompatibleWithReturn(TypeOf(e).name, returnType.name));
          exit' := true;
        }
      } else {
        if returnValue.None? {
          diag.ReportCompilerError(span.start, span.end, NonVoidCannotReturnVoid(returnType.name));
          exit' := true;
        } else if returnType != TypeOf(returnValue.value) {
          var e := returnValue.value;
          if canCast(e, returnType) {
            returnValue := Some(Cast(e, returnType));
          } else {
            diag.ReportCompilerError(SpanOf(e).start, SpanOf(e).end, IncompatibleWithReturn(TypeOf(e).name, returnType.name));
            exit' := true;
          }
        }
      }
    }

    /** `codegen`: exactly one return operation, carrying the lowered value
        when there is one; the result is that return instruction. */
    method Codegen(builder: IRBuilder, lower: Lowering) returns (v: Value)
      modifies builder
      ensures returnValue.None? ==>
        builder.ops == old(builder.ops) + [Ret(None)] && builder.insertPoint == old(builder.insertPoint)
      ensures returnValue.Some? ==>
        var l := lower(returnValue.value);
        builder.ops == old(builder.ops) + l.ops + [Ret(Some(l.result))] && builder.insertPoint == l.insertPoint
      ensures v == IRBuilder.InstructionValue(|builder.ops| - 1)
    {
      if returnValue.None? {
        v := builder.CreateRet(None);
        return;
      }
      var value := DCodegen(returnValue.value, lower, builder);
      v := builder.CreateRet(Some(value));
    }
  }
}
