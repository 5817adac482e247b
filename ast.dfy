/** Expression slots of the syntax tree, as far as the two statements see
    them: an opaque child expression, or the cast wrapper the statements
    insert around one. */
module Ast {
  import opened Wrappers
  import opened Types
  import opened Diagnostic

  /** `Leaf` is any expression node whose own rules are not modelled: `node`
      names it, `ty` is the type it currently reports, `span` its source pair.
      `Cast(inner, dest)` is a CastExpression owning `inner`; its type is
      `dest`, fixed when it is built. */
  datatype Expr =
    | Leaf(node: nat, ty: Type, span: SourcePair)
    | Cast(inner: Expr, dest: Type)

  /** What `getType()` returns on an expression. */
  function TypeOf(e: Expr): Type {
    match e
    case Leaf(_, t, _) => t
    case Cast(_, d) => d
  }

  /** What `getSourcePair()` returns: a cast reports the span of the
      expression it wraps. */
  function SpanOf(e: Expr): SourcePair {
    match e
    case Leaf(_, _, s) => s
    case Cast(inner, _) => SpanOf(inner)
  }

  /** The destinations of the casts wrapped around an expression, outermost first. */
  function CastChain(e: Expr): seq<Type> {
    match e
    case Leaf(_, _, _) => []
    case Cast(inner, d) => [d] + CastChain(inner)
  }

  /** The expression inside all the casts. */
  function Core(e: Expr): (l: Expr)
    ensures l.Leaf?
  {
    match e
    case Leaf(_, _, _) => e
    case Cast(inner, _) => Core(inner)
  }

  /** The result of an opaque child's `typeCheck`: the type it reports
      afterwards, the errors it appended and whether it set `exit`. A child
      can do nothing else to the shared state: append errors and raise `exit`. */
  datatype LeafOutcome = LeafOutcome(ty: Type, errors: seq<CompilerError>, fatal: bool)
  type LeafChecker = Expr -> LeafOutcome

  /** `canImplicitCast` on an expression and a destination type. */
  type CastOracle = (Expr, Type) -> bool

  /** An opaque leaf after its own check: same node, same span, new type. */
  function CheckLeaf(check: LeafChecker, e: Expr): Expr
    requires e.Leaf?
  {
    Leaf(e.node, check(e).ty, e.span)
  }

  /** Checking a leaf that was already checked changes nothing and reports nothing. */
  ghost predicate Settled(check: LeafChecker, e: Expr)
    requires e.Leaf?
  {
    check(CheckLeaf(check, e)) == LeafOutcome(check(e).ty, [], false)
  }

  /** The child inside an optional slot, if any, is settled by one check:
      the hypothesis under which a second pass over that slot is harmless. */
  ghost predicate SlotSettled(check: LeafChecker, slot: Option<Expr>) {
    slot.Some? ==> Settled(check, Core(slot.value))
  }

  datatype Checked = Checked(expr: Expr, errors: seq<CompilerError>, fatal: bool)

  /** `typeCheck` on an expression slot. A CastExpression checks only the
      expression it wraps; its own type stays its destination. */
  function CheckExpr(check: LeafChecker, e: Expr): (r: Checked)
    ensures CastChain(r.expr) == CastChain(e)
    ensures Core(r.expr) == CheckLeaf(check, Core(e))
    ensures r.errors == check(Core(e)).errors && r.fatal == check(Core(e)).fatal
  {
    match e
    case Leaf(_, _, _) =>
      var o := check(e);
      Checked(CheckLeaf(check, e), o.errors, o.fatal)
    case Cast(inner, d) =>
      var c := CheckExpr(check, inner);
      Checked(Cast(c.expr, d), c.errors, c.fatal)
  }

  /** With a settled child, checking a checked expression again is a no-op. */
  lemma {:induction false} CheckExprStable(check: LeafChecker, e: Expr)
    requires Settled(check, Core(e))
    ensures CheckExpr(check, CheckExpr(check, e).expr) == Checked(CheckExpr(check, e).expr, [], false)
  {
    match e
    case Leaf(_, _, _) =>
    case Cast(inner, _) =>
      CheckExprStable(check, inner);
  }

  /** The pattern both statements share once their slot is checked: keep it
      when its type is the target, wrap it in a cast to the target when the
      cast is legal, reject it otherwise. */
  datatype Settlement = Settlement(slot: Expr, rejected: bool)

  function Settle(e: Expr, target: Type, canCast: CastOracle): (s: Settlement)
    ensures !s.rejected <==> TypeOf(s.slot) == target
    ensures s.slot == e || s.slot == Cast(e, target)
    ensures TypeOf(e) == target ==> s.slot == e
    ensures s.slot != e ==> canCast(e, target)
    ensures s.rejected ==> s.slot == e && !canCast(e, target)
  {
    if TypeOf(e) == target then Settlement(e, false)
    else if canCast(e, target) then Settlement(Cast(e, target), false)
    else Settlement(e, true)
  }

  /** `mValue->typeCheck(diag, exit)` on an owned slot. */
  method TypeCheckExpr(e: Expr, check: LeafChecker, diag: Diagnostics, exit: bool) returns (e': Expr, exit': bool)
    modifies diag
    ensures e' == CheckExpr(check, e).expr
    ensures diag.errors == old(diag.errors) + CheckExpr(check, e).errors
    ensures exit' == (exit || CheckExpr(check, e).fatal)
  {
    var c := CheckExpr(check, e);
    diag.ReportAll(c.errors);
    e' := c.expr;
    exit' := exit || c.fatal;
  }
}
