/** A local variable declaration: `let name: T = init`, where the type, the
    initializer, or one of them may be missing. */
module VariableDeclarations {
  import opened Wrappers
  import opened Types
  import opened Diagnostic
  import opened Ast
  import opened Ir
  import opened Symbols

  /** The effect of `typeCheck` on a declaration: the node's type and
      initializer afterwards, whether the type was inferred (and so copied
      into the symbol), the errors appended and whether `exit` is raised. */
  datatype DeclOutcome = DeclOutcome(ty: Option<Type>, init: Option<Expr>, inferred: bool,
                                     errors: seq<CompilerError>, fatal: bool)

  /** The initializer, if any, has the variable's type. */
  predicate WellTyped(r: DeclOutcome) {
    r.init.None? || (r.ty.Some? && TypeOf(r.init.value) == r.ty.value)
  }

  /** The comparison of a checked initializer `c` with the variable type `t`,
      after `prior` errors: equal keeps it, castable wraps it, anything else
      reports one mismatch against the initializer's span and raises `exit`. */
  ghost predicate InitializerRule(r: DeclOutcome, t: Type, c: Checked, canCast: CastOracle,
                                  prior: seq<CompilerError>, priorFatal: bool)
  {
    r.ty == Some(t) && r.init.Some? &&
    if TypeOf(c.expr) == t then
      r.init.value == c.expr && r.errors == prior + c.errors && r.fatal == (priorFatal || c.fatal)
    else if canCast(c.expr, t) then
      r.init.value == Cast(c.expr, t) && r.errors == prior + c.errors && r.fatal == (priorFatal || c.fatal)
    else
      r.init.value == c.expr && r.fatal &&
      r.errors == prior + c.errors + [CompilerError(SpanOf(c.expr), IncompatibleWithVariable(TypeOf(c.expr).name, t.name))]
  }

  function Compare(t: Type, c: Checked, canCast: CastOracle, prior: seq<CompilerError>,
                   priorFatal: bool, inferred: bool): DeclOutcome
  {
    var s := Settle(c.expr, t, canCast);
    var own := if s.rejected then [CompilerError(SpanOf(c.expr), IncompatibleWithVariable(TypeOf(c.expr).name, t.name))] else [];
    DeclOutcome(Some(t), Some(s.slot), inferred, prior + c.errors + own, priorFatal || c.fatal || s.rejected)
  }

  /** `typeCheck` on a declaration named `name` at `span`, whose type and
      initializer are `ty` and `init` beforehand. */
  function CheckDeclaration(name: string, span: SourcePair, ty: Option<Type>, init: Option<Expr>,
                            check: LeafChecker, canCast: CastOracle): (r: DeclOutcome)
    // no type and no initializer: one error, `exit`, and the error sentinel
    ensures ty.None? && init.None? ==>
      r == DeclOutcome(Some(ErrorType), None, false, [CompilerError(span, UnknownType(name))], true)
    // a type and no initializer: nothing to do
    ensures ty.Some? && init.None? ==> r == DeclOutcome(ty, None, false, [], false)
    // a type and an initializer: the initializer is checked once, then compared
    ensures ty.Some? && init.Some? ==>
      !r.inferred && InitializerRule(r, ty.value, CheckExpr(check, init.value), canCast, [], false)
    // no type: the type is the initializer's checked type, and the initializer
    // is checked a second time before the comparison
    ensures ty.None? && init.Some? ==>
      var first := CheckExpr(check, init.value);
      r.inferred &&
      InitializerRule(r, TypeOf(first.expr), CheckExpr(check, first.expr), canCast, first.errors, first.fatal)
    // afterwards the node always has a type, and an ill-typed initializer never passes silently
    ensures r.ty.Some?
    ensures !WellTyped(r) ==> r.fatal
  {
    match (ty, init)
    case (None, None) =>
      DeclOutcome(Some(ErrorType), None, false, [CompilerError(span, UnknownType(name))], true)
    case (Some(_), None) =>
      DeclOutcome(ty, None, false, [], false)
    case (Some(t), Some(e)) =>
      Compare(t, CheckExpr(check, e), canCast, [], false, false)
    case (None, Some(e)) =>
      var first := CheckExpr(check, e);
      Compare(TypeOf(first.expr), CheckExpr(check, first.expr), canCast, first.errors, first.fatal, true)
  }

  /** An inferred declaration over a settled child: the initializer takes
      its checked type, gets no cast, and nothing is reported beyond the
      child's own errors of the first check. */
  lemma {:induction false} InferredDeclaration(name: string, span: SourcePair, e: Expr, check: LeafChecker, canCast: CastOracle)
    requires Settled(check, Core(e))
    ensures var first := CheckExpr(check, e);
            CheckDeclaration(name, span, None, Some(e), check, canCast)
              == DeclOutcome(Some(TypeOf(first.expr)), Some(first.expr), true, first.errors, first.fatal)
  {
    CheckExprStable(check, e);
  }

  /** Checking a declaration again, once it is well typed and its child
      is settled, changes nothing and reports nothing. */
  lemma {:induction false} DeclarationRecheck(name: string, span: SourcePair, ty: Option<Type>, init: Option<Expr>,
                                              check: LeafChecker, canCast: CastOracle)
    requires SlotSettled(check, init)
    requires WellTyped(CheckDeclaration(name, span, ty, init, check, canCast))
    ensures var r := CheckDeclaration(name, span, ty, init, check, canCast);
            CheckDeclaration(name, span, r.ty, r.init, check, canCast) == DeclOutcome(r.ty, r.init, false, [], false)
  {
    if init.Some? {
      var e := init.value;
      var first := CheckExpr(check, e);
      CheckExprStable(check, e);
      if ty.Some? {
        CheckExprStable(check, Cast(e, ty.value));
      }
    }
  }

  class VariableDeclaration {
    const scope: Scope
    const name: string
    const span: SourcePair
    const symbol: Symbol
    var ty: Option<Type>
    var initValue: Option<Expr>

    /** Registers the declared name in the enclosing scope at once, with the
        type as given (None while it is still to be inferred). */
    constructor (scope: Scope, name: string, ty: Option<Type>, initValue: Option<Expr>, span: SourcePair)
      modifies scope
      ensures this.scope == scope && this.name == name && this.span == span
      ensures this.ty == ty && this.initValue == initValue
      ensures fresh(symbol) && symbol.name == name && symbol.ty == ty
      ensures symbol.values == [] && symbol.diVariable == None
      ensures scope.symbols == old(scope.symbols) + [symbol]
      ensures scope.symbols[|scope.symbols| - 1] == symbol
    {
      this.scope := scope;
      this.name := name;
      this.span := span;
      this.ty := ty;
      this.initValue := initValue;
      var s := new Symbol(name, ty);
      this.symbol := s;
      new;
      scope.symbols := scope.symbols + [s];
    }

    /** `getChildren`: the initializer, if there is one. */
    function Children(): (r: seq<Expr>)
      reads this
      ensures |r| <= 1
      ensures r == [] <==> initValue.None?
      ensures forall i :: 0 <= i < |r| ==> Some(r[i]) == initValue
    {
      if initValue.Some? then [initValue.value] else []
    }

    method TypeCheck(diag: Diagnostics, exit: bool, check: LeafChecker, canCast: CastOracle) returns (exit': bool)
      modifies this, symbol`ty, diag
      ensures var r := CheckDeclaration(name, span, old(ty), old(initValue), check, canCast);
              ty == r.ty && initValue == r.init &&
              diag.errors == old(diag.errors) + r.errors &&
              exit' == (exit || r.fatal) &&
              symbol.ty == (if r.inferred then r.ty else old(symbol.ty))
      // only appends errors, never lowers `exit`
      ensures old(diag.errors) <= diag.errors
      ensures exit ==> exit'
    {
      exit' := exit;
      if ty.None? {
        if initValue.None? {
          diag.ReportCompilerError(span.start, span.end, UnknownType(name));
          exit' := true;
          ty := Some(ErrorType);
          return;
        }
        var e;
        e, exit' := TypeCheckExpr(initValue.value, check, diag, exit');
        initValue := Some(e);
        ty := Some(TypeOf(e));
        symbol.ty := ty;
      }
      if initValue.Some? {
        var e;
        e, exit' := TypeCheckExpr(initValue.value, check, diag, exit');
        initValue := Some(e);
        if TypeOf(e) != ty.value {
          if canCast(e, ty.value) {
            initValue := Some(Cast(e, ty.value));
          } else {
            diag.ReportCompilerError(SpanOf(e).start, SpanOf(e).end,
                                     IncompatibleWithVariable(TypeOf(e).name, ty.value.name));
            exit' := true;
          }
        }
      }
    }

    /** `codegen`: records the debug variable, then either allocates storage
        (aggregates) or records the initializer's value directly (scalars). */
    method Codegen(builder: IRBuilder, diBuilder: DIBuilder, lower: Lowering)
      requires ty.Some?
      modifies symbol`values, symbol`diVariable, builder, diBuilder
      ensures diBuilder.locals == old(diBuilder.locals) +
                [LocalVariable(name, old(builder.insertPoint).parent, ty.value, span.start.line, span.start.col)]
      ensures symbol.diVariable == Some(DebugVar(|old(diBuilder.locals)|))
      // aggregates: exactly one entry, the allocation, and a store only with an initializer
      ensures ty.value.IsAggregate() ==>
        var alloca := IRBuilder.InstructionValue(|old(builder.ops)|);
        symbol.values == old(symbol.values) + [ValueEntry(old(builder.insertPoint), alloca, None, None)] &&
        if initValue.None? then
          builder.ops == old(builder.ops) + [Alloca(ty.value)] && builder.insertPoint == old(builder.insertPoint)
        else
          var l := lower(initValue.value);
          builder.ops == old(builder.ops) + [Alloca(ty.value)] + l.ops + [Store(alloca, l.result)] &&
          builder.insertPoint == l.insertPoint
      // scalars: nothing allocated; one direct entry with an initializer, none without
      ensures !ty.value.IsAggregate() && initValue.None? ==>
        symbol.values == old(symbol.values) && builder.ops == old(builder.ops) &&
        builder.insertPoint == old(builder.insertPoint)
      ensures !ty.value.IsAggregate() && initValue.Some? ==>
        var q := IRBuilder.InstructionValue(|old(builder.ops)|);
        var l := lower(initValue.value);
        builder.ops == old(builder.ops) + [QueryAddress] + l.ops &&
        builder.insertPoint == l.insertPoint &&
        symbol.values == old(symbol.values) + [ValueEntry(l.insertPoint, l.result, Some(q), l.result.addrDebugVariable)]
    {
      var d := diBuilder.CreateLocalVariable(name, builder.insertPoint.parent, ty.value, span.start.line, span.start.col);
      symbol.diVariable := Some(d);
      if ty.value.IsAggregate() {
        var alloca := builder.CreateAlloca(ty.value);
        symbol.values := symbol.values + [ValueEntry(builder.insertPoint, alloca, None, None)];
        if initValue.Some? {
          var v := DCodegen(initValue.value, lower, builder);
          builder.CreateStore(alloca, v);
        }
        return;
      }
      if initValue.Some? {
        var q := builder.CreateQueryAddress();
        var v := DCodegen(initValue.value, lower, builder);
        var pointer: Option<DebugVar> := None;
        if v.addrDebugVariable.Some? {
          pointer := v.addrDebugVariable;
        }
        symbol.values := symbol.values + [ValueEntry(builder.insertPoint, v, Some(q), pointer)];
      }
    }
  }
}
