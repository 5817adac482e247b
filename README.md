# Basilisk statement checking and lowering, modelled in Dafny

This project models two statement nodes of the Basilisk compiler front end:
`VariableDeclaration` and `ReturnStatement`. Both follow one pattern. A node
owns an expression slot and checks it against a target type. Then it does one
of three things:

- it accepts the slot as it is;
- it rewrites the slot in place into a `Cast` wrapper;
- it reports one compiler error and raises the shared `exit` flag.

The model covers each node's construction, `typeCheck`, `codegen` and
`getChildren`.

Modules, one per file:

- `Wrappers`: `Option`, which stands for the source's nullable pointers.
- `Types`: the type registry's entries. Each entry carries a unique id, so `==` on
  entries is the source's pointer comparison. The module also holds the
  `error-type` sentinel.
- `Diagnostic`: source spans, the error messages (kept as the names they are
  built from) and the append-only `Diagnostics` sink.
- `Ast`: the expression slot `Expr = Leaf | Cast`. It holds the check of a slot
  (`CheckExpr`, which passes through casts to the child expression inside) and
  the three-way rule both statements share (`Settle`).
- `Ir`: the IR and debug-info builders, kept as logs of emitted operations
  and local debug variables, plus an insert point.
- `Symbols`: `Symbol` (name, type, value list, debug variable) and `Scope`
  (its symbol list and the current function's return type).
- `VariableDeclarations`, `ReturnStatements`: the two nodes as classes.
  - Each `typeCheck` is a method. Its `ensures` ties the new node state, the errors it
    adds and `exit` to a pure function (`CheckDeclaration`, `CheckReturn`).
    That function's contract states the source's decision table.
  - Lemmas relate several checks: re-checking, and the double check of an inferred
    initializer.

Parameters of the model stand for code outside it:

- Child expressions' own `typeCheck` is a `LeafChecker` function. It gives the
  child's new type, the errors it reports and whether it raises `exit`. A
  child can do nothing else to the shared state.
- `canImplicitCast` is a `CastOracle` function.
- A child's `dcodegen` is a `Lowering` function. It gives the operations it
  emits, the value it yields and where it leaves the insert point.

Two behaviours of the code shape the model:

- A void function returning a non-void value reports the same "value of type …
  is not compatible with return type …" message as an uncastable value
  (ReturnStatement.cpp:47-57). The code has no separate error for this case.
- On a declaration without an explicit type, the initializer is type-checked
  twice: once to infer the type (VariableDeclaration.cpp:81) and again before
  the comparison (VariableDeclaration.cpp:88). `CheckDeclaration` models both
  checks.
  - `CheckDeclaration` states the consequence: on this path the errors are
    the first check's, then the second check's, then any of the node's own.
  - `InferredDeclaration` shows that with a child that a second check leaves
    alone, the double check has no visible effect.

## Model

| member | source | states |
|---|---|---|
| `Ast.CheckExpr` | framework/include/parser/ast/expression/CastExpression.h:12-26 | Checking a slot keeps every cast wrapper and its destination type. It checks only the expression inside the casts. The errors and the `exit` raise are exactly that expression's. |
| `Ast.CheckExprStable` | framework/include/parser/ast/expression/CastExpression.h:21-22 | If the child inside the casts is settled by one check, checking an already-checked slot again returns it unchanged, with no errors and no `exit`. |
| `Ast.Settle` | framework/source/parser/ast/statement/VariableDeclaration.cpp:90-107 | The shared rule: the result has the target type exactly when it is not rejected. A slot that already has the target type is never wrapped. A rewrite only wraps the original in a `Cast` to the target, and only when the cast is legal. A rejected slot is unchanged. |
| `Ast.TypeCheckExpr` | framework/source/parser/ast/statement/VariableDeclaration.cpp:88 | A child's `typeCheck` on the owned slot only appends the child's errors to the sink and can only raise `exit`. |
| `Ir.DCodegen` | framework/source/parser/ast/statement/ReturnStatement.cpp:24 | Lowering a child appends its operations, moves the insert point where it leaves it, and yields its value. |
| `Symbols.Symbol.constructor` | framework/source/parser/ast/statement/VariableDeclaration.cpp:15 | A new symbol has the given name and type (possibly none), an empty value list and no debug variable. |
| `VariableDeclarations.CheckDeclaration` | framework/source/parser/ast/statement/VariableDeclaration.cpp:64-109 | No type and no initializer: exactly one UnknownType error at the node's span, `exit`, the error-type sentinel, and the initializer untouched. A type and an initializer: the initializer is checked once. If equal, it is kept with no error of its own. If castable, it becomes `Cast(checked, type)` with no error. Otherwise exactly one mismatch error naming both types, `exit`, and the slot unchanged. No type but an initializer: the type becomes the checked initializer's type (and is marked for the symbol), then the initializer is checked again and compared by the same rule. Afterwards the node always has a type (given non-null child types, see Left out), and an ill-typed initializer always raises `exit`. |
| `VariableDeclarations.InferredDeclaration` | framework/source/parser/ast/statement/VariableDeclaration.cpp:81-90 | With a settled child, an inferred declaration takes the initializer's checked type and inserts no cast. It reports nothing beyond the child's errors from the first check. |
| `VariableDeclarations.DeclarationRecheck` | framework/source/parser/ast/statement/VariableDeclaration.cpp:86-107 | Take a declaration whose check left it well typed, with a settled child. Checking it again changes neither type nor initializer (no second cast), reports nothing and does not raise `exit`. |
| `VariableDeclarations.VariableDeclaration.constructor` | framework/source/parser/ast/statement/VariableDeclaration.cpp:10-17 | Construction appends exactly one fresh symbol, with the node's name and its possibly-absent type, to the end of the scope's symbol list. Earlier entries are unchanged. The node's symbol is that last element. |
| `VariableDeclarations.VariableDeclaration.Children` | framework/source/parser/ast/statement/VariableDeclaration.cpp:56-62 | The children are the initializer alone when there is one, and none otherwise. |
| `VariableDeclarations.VariableDeclaration.TypeCheck` | framework/source/parser/ast/statement/VariableDeclaration.cpp:64-109 | The node's type and initializer, the appended errors and `exit` are those `CheckDeclaration` gives. The symbol's type is replaced only on the inference path. Existing errors are kept as a prefix, and `exit` is never lowered. |
| `VariableDeclarations.VariableDeclaration.Codegen` | framework/source/parser/ast/statement/VariableDeclaration.cpp:19-54 | One local debug variable is always recorded and linked to the symbol. Aggregates append exactly one value entry: the allocation, at the insert point before lowering. They emit a store of the lowered initializer into it only when there is an initializer. Scalars allocate nothing. With an initializer they emit an address query, lower the initializer, and append one entry carrying the value, the query and the value's address debug variable. Without one they change nothing. |
| `ReturnStatements.CheckReturn` | framework/source/parser/ast/statement/ReturnStatement.cpp:37-91 | The seven-row table, applied to the value after it has been checked. Void with no value, or with a void value: no error of its own. Void with a non-void value: exactly one mismatch error and `exit`, with no cast tried. Non-void with no value: exactly one "cannot return void" error and `exit`. Equal type: the value is kept with no error. Castable: the value becomes `Cast(value, returnType)` with no error. Uncastable: exactly one mismatch error, `exit`, and the slot unchanged. A return that disagrees with the declared type always raises `exit`. |
| `ReturnStatements.ReturnRecheck` | framework/source/parser/ast/statement/ReturnStatement.cpp:72-89 | Take a return whose check left it agreeing with the declared type, with a settled child. Checking it again adds no wrapping, reports nothing and does not raise `exit`. |
| `ReturnStatements.ReturnStatement.constructor` | framework/source/parser/ast/statement/ReturnStatement.cpp:11-15 | The node holds the given scope, value slot and span. |
| `ReturnStatements.ReturnStatement.Children` | framework/source/parser/ast/statement/ReturnStatement.cpp:29-35 | The children are the singleton list of the value when there is one, and the empty list otherwise. |
| `ReturnStatements.ReturnStatement.TypeCheck` | framework/source/parser/ast/statement/ReturnStatement.cpp:37-91 | The value slot, the appended errors and `exit` are those `CheckReturn` gives for the scope's current return type. Existing errors are kept as a prefix, and `exit` is never lowered. |
| `ReturnStatements.ReturnStatement.Codegen` | framework/source/parser/ast/statement/ReturnStatement.cpp:17-27 | Exactly one return operation is emitted, last. It is a void return when there is no value. Otherwise it comes after the value's lowering and carries the lowered (possibly cast-wrapped) value. The result is that return instruction. |

## Left out

- The vipir IR builder, debug-info builder and module are foreign code. They are kept as logs:
  - `CreateAlloca`, `CreateStore`, `CreateQueryAddress` and `CreateRet` append one operation each, and the value of an instruction is its position in the log.
  - `createLocalVariable` appends a record and returns a handle.
  - `getDIType` and `getVipirType` are represented by the type itself.
- The `dynamic_cast` to an address instruction is runtime inspection of a foreign class. It is kept as an optional debug variable attached to each lowered value: present only for an address instruction that has one.
- `canImplicitCast`, `Type::Get` and the type registry have no bodies here. Cast legality is a function parameter and cannot report errors; `error-type` is a fixed constant.
- Error text and styling (`std::format`, `fmt::bold`) are presentation only. An error keeps its span and the names its message is built from.
- The `typeCheck` and `dcodegen` of child expressions belong to node kinds that are not part of this model. They are function parameters:
  - a child's check may only change its own type, append errors and raise `exit`;
  - a child's lowering may only append operations and move the insert point.
- `VariableDeclarations.CheckDeclaration`: a child's type after its own check is assumed never to be null (`LeafOutcome.ty` is a `Type`, not an `Option`). The code relies on this without testing it: it dereferences the checked type at ReturnStatement.cpp:47 and VariableDeclaration.cpp:102. The contract's `r.ty.Some?` rests on this assumption. A run in which a child leaves its type null is not modelled. In that run an inferred declaration would stay untyped and add no error of its own (line 90 compares null with null).
- The checking and lowering of a cast node are given through `CheckExpr` and the lowering parameter. CastExpression.cpp is not part of this model: only its header is.
  - `Ast.CheckExpr` assumes that a cast checks only the expression it wraps, and that the cast's own type stays its destination.
  - A cast reports the span of the expression it wraps. The `Cast` helper's body is not part of this model.
- The model assumes that `Cast(e, T)` always wraps `e` when a statement calls it. The helper's body is not part of this model, and it may consult `triviallyImplicitCast` (CastExpression.h:22) and return `e` unwrapped. Neither call site (VariableDeclaration.cpp:94, ReturnStatement.cpp:76) rules that shortcut out.
- A value-list entry has a fourth field that both value-list pushes in `VariableDeclaration::codegen` (lines 26 and 49) leave null. It is not modelled, because the `Symbol` header is not part of this model.
- `getCurrentReturnType` walks enclosing scopes. That walk is not modelled: a scope stores the answer.
- The return value of `VariableDeclaration::codegen` (always null) is not modelled.
- End-to-end lowering of an inserted narrowing cast is not stated. The conversion operations a cast emits belong to CastExpression.cpp, which is not part of this model.
