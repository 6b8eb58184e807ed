/**
 * The part of the CIL object model the weaver's emitters touch: type, method and
 * field references, instructions as (opcode, operand) values, a method body
 * that grows by append, and a type definition whose field list grows.
 */
module Cil {

  /** A reference to a type: namespace, name and generic arguments (none for a non-generic reference). */
  datatype TypeRef = TypeRef(ns: string, name: string, genericArgs: seq<TypeRef>)
  {
    predicate IsGenericInstance() { |genericArgs| > 0 }
  }

  datatype MethodRef = MethodRef(declaringType: TypeRef, name: string)

  datatype FieldRef = FieldRef(declaringType: string, name: string)

  /** A local variable of the method being emitted, by slot. */
  datatype VarRef = VarRef(index: nat)

  /**
   * The opcodes the modelled emitters name. Instructions produced by helpers
   * outside the model carry any opcode, written as Other.
   */
  datatype OpCode =
    | Ldarg | Ldarga | Ldarg_0 | Ldc_I4_0
    | Ldfld | Ldflda | Stfld | Ldsfld
    | Stloc | Call
    | Other(mnemonic: string)

  datatype Operand =
    | NoOperand
    | IntArg(n: int)
    | FieldOperand(field: FieldRef)
    | LocalOperand(local: VarRef)
    | MethodOperand(callee: MethodRef)
    | OtherOperand(text: string)

  datatype Instr = Instr(op: OpCode, operand: Operand)

  /** ILProcessor.Create: builds an instruction without touching any body. */
  function Create(op: OpCode, operand: Operand): (i: Instr)
    ensures i.op == op && i.operand == operand
  {
    Instr(op, operand)
  }

  /** A method body under construction. */
  class ILProcessor {
    var body: seq<Instr>

    constructor (initial: seq<Instr>)
      ensures body == initial
    {
      body := initial;
    }

    method Append(i: Instr)
      modifies this
      ensures body == old(body) + [i]
    {
      body := body + [i];
    }

    /** Emit is Append of a freshly created instruction. */
    method Emit(op: OpCode, operand: Operand)
      modifies this
      ensures body == old(body) + [Instr(op, operand)]
    {
      Append(Create(op, operand));
    }
  }

  /** The field list of a type definition being woven. */
  class TypeDefinition {
    const name: string
    var fields: seq<FieldRef>

    constructor (name: string, fields: seq<FieldRef>)
      ensures this.name == name && this.fields == fields
    {
      this.name := name;
      this.fields := fields;
    }

    method AddField(f: FieldRef)
      modifies this
      ensures fields == old(fields) + [f]
    {
      fields := fields + [f];
    }
  }
}
