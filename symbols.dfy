/** Scopes and the symbols they own. */
module Symbols {
  import opened Wrappers
  import opened Types
  import opened Ir

  /** One entry of a symbol's value list: the insert point it was recorded
      at, the value, the address query issued before the value was lowered,
      and the debug variable of the address the value came from. */
  datatype ValueEntry = ValueEntry(point: BasicBlock, value: Value, query: Option<Value>, pointer: Option<DebugVar>)

  class Symbol {
    const name: string
    var ty: Option<Type>
    var values: seq<ValueEntry>
    var diVariable: Option<DebugVar>

    constructor (name: string, ty: Option<Type>)
      ensures this.name == name && this.ty == ty
      ensures values == [] && diVariable == None
    {
      this.name := name;
      this.ty := ty;
      values := [];
      diVariable := None;
    }
  }

  /** A scope owns its symbols in declaration order. `returnType` is what
      `getCurrentReturnType()` answers: the declared return type of the
      function the scope belongs to. */
  class Scope {
    var symbols: seq<Symbol>
    const returnType: Type

    constructor (returnType: Type)
      ensures symbols == [] && this.returnType == returnType
    {
      symbols := [];
      this.returnType := returnType;
    }
  }
}
