/** The intermediate-representation and debug-information builders, reduced
    to the logs of what is emitted into them. */
module Ir {
  import opened Wrappers
  import opened Types
  import opened Ast

  /** A handle to a local debug variable (`vipir::DIVariable*`). */
  datatype DebugVar = DebugVar(id: nat)

  /** A basic block: `parent` is the function it belongs to. */
  datatype BasicBlock = BasicBlock(parent: nat, id: nat)

  /** A lowered value. `addrDebugVariable` is the debug variable of the value
      when it is an address instruction that has one, and None otherwise. */
  datatype Value = Value(id: nat, addrDebugVariable: Option<DebugVar>)

  /** The operations the two statements emit. `Emitted` stands for an
      operation emitted while lowering a child expression. */
  datatype Op =
    | Alloca(allocType: Type)
    | Store(ptr: Value, stored: Value)
    | QueryAddress
    | Ret(returned: Option<Value>)
    | Emitted(code: nat)

  /** What lowering a child expression (`dcodegen`) does to the builder: the
      operations it appends, the value it yields and where it leaves the
      insert point. */
  datatype Lowered = Lowered(ops: seq<Op>, result: Value, insertPoint: BasicBlock)
  type Lowering = Expr -> Lowered

  datatype LocalVariable = LocalVariable(name: string, scopeFunction: nat, diType: Type, line: nat, col: nat)

  class IRBuilder {
    var ops: seq<Op>
    var insertPoint: BasicBlock

    constructor (entry: BasicBlock)
      ensures ops == [] && insertPoint == entry
    {
      ops := [];
      insertPoint := entry;
    }

    /** The value of the instruction at position `index` of the log. */
    static function InstructionValue(index: nat): Value {
      Value(index, None)
    }

    method CreateAlloca(ty: Type) returns (v: Value)
      modifies this`ops
      ensures ops == old(ops) + [Alloca(ty)]
      ensures v == InstructionValue(|old(ops)|)
    {
      v := InstructionValue(|ops|);
      ops := ops + [Alloca(ty)];
    }

    method CreateStore(ptr: Value, stored: Value)
      modifies this`ops
      ensures ops == old(ops) + [Store(ptr, stored)]
    {
      ops := ops + [Store(ptr, stored)];
    }

    method CreateQueryAddress() returns (q: Value)
      modifies this`ops
      ensures ops == old(ops) + [QueryAddress]
      ensures q == InstructionValue(|old(ops)|)
    {
      q := InstructionValue(|ops|);
      ops := ops + [QueryAddress];
    }

    method CreateRet(returned: Option<Value>) returns (v: Value)
      modifies this`ops
      ensures ops == old(ops) + [Ret(returned)]
      ensures v == InstructionValue(|old(ops)|)
    {
      v := InstructionValue(|ops|);
      ops := ops + [Ret(returned)];
    }
  }

  class DIBuilder {
    var locals: seq<LocalVariable>

    constructor ()
      ensures locals == []
    {
      locals := [];
    }

    method CreateLocalVariable(name: string, scopeFunction: nat, diType: Type, line: nat, col: nat) returns (d: DebugVar)
      modifies this
      ensures locals == old(locals) + [LocalVariable(name, scopeFunction, diType, line, col)]
      ensures d == DebugVar(|old(locals)|)
    {
      d := DebugVar(|locals|);
      locals := locals + [LocalVariable(name, scopeFunction, diType, line, col)];
    }
  }

  /** `dcodegen` on a child expression slot. */
  method DCodegen(e: Expr, lower: Lowering, builder: IRBuilder) returns (v: Value)
    modifies builder
    ensures builder.ops == old(builder.ops) + lower(e).ops
    ensures builder.insertPoint == lower(e).insertPoint
    ensures v == lower(e).result
  {
    var l := lower(e);
    builder.ops := builder.ops + l.ops;
    builder.insertPoint := l.insertPoint;
    v := l.result;
  }
}
