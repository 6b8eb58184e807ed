/**
 * The marshalling strategy for simple property types: it resolves a marshaller
 * class, binds its ToNative and FromNative methods, and emits the instruction
 * sequences that move a value between a managed value and the native buffer.
 */
module NativeTypes {
  import opened Wrappers
  import opened Cil
  import opened Metadata
  import opened Resolution
  import opened PropertyTypes

  datatype PrepareError =
    | MarshallerNotFound(marshallerName: string)
    | MethodNotFound(methodName: string)

  /** A resolved marshaller: its class reference and the two conversion methods on it. */
  datatype MarshallerBinding = MarshallerBinding(marshallerClass: TypeRef, toNative: MethodRef, fromNative: MethodRef)

  /** The arguments a store hands on to the base class's WriteMarshalToNativeWithCleanup. */
  datatype MarshalToNativeRequest = MarshalToNativeRequest(loadBufferPtr: seq<Instr>, loadArrayIndex: Instr, loadSource: seq<Instr>)

  /** The type parameters a generic marshaller is instantiated with: the C# type itself. */
  function GetTypeParams(csType: TypeRef): (r: seq<TypeRef>)
    ensures |r| == 1 && r[0] == csType
  {
    [csType]
  }

  /** The array-index instruction every simple accessor passes: element 0. */
  const LoadIndexZero: Instr := Instr(Ldc_I4_0, NoOperand)

  function CallTo(m: MethodRef): Instr
  {
    Instr(Call, MethodOperand(m))
  }

  /**
   * What preparing a property binds: the first marshaller definition the lookup
   * plan finds, referenced generically (with the C# type as argument) exactly when
   * the marshaller name is generic, and its ToNative and FromNative methods seen
   * on that same reference.
   */
  function ResolveBinding(marshallerName: string, csType: TypeRef, bindings: Assembly, user: Assembly)
    : (r: Result<MarshallerBinding, PrepareError>)
    ensures r == Failure(MarshallerNotFound(marshallerName))
            <==> ResolveMarshaller(marshallerName, csType.ns, bindings, user).None?
    ensures r.Success? ==>
              var def := ResolveMarshaller(marshallerName, csType.ns, bindings, user).value;
              && "ToNative" in def.methods && "FromNative" in def.methods
              && r.value.marshallerClass.ns == def.ns && r.value.marshallerClass.name == def.name
              && r.value.toNative == MethodRef(r.value.marshallerClass, "ToNative")
              && r.value.fromNative == MethodRef(r.value.marshallerClass, "FromNative")
    ensures r.Success? ==>
              (r.value.marshallerClass.IsGenericInstance() <==> IsGenericName(marshallerName))
              && (IsGenericName(marshallerName) ==> r.value.marshallerClass.genericArgs == [csType])
    ensures r.Success? <==>
              var found := ResolveMarshaller(marshallerName, csType.ns, bindings, user);
              found.Some? && "ToNative" in found.value.methods && "FromNative" in found.value.methods
    ensures r.Failure? && r.error.MethodNotFound? ==>
              var found := ResolveMarshaller(marshallerName, csType.ns, bindings, user);
              found.Some? && ("ToNative" !in found.value.methods || "FromNative" !in found.value.methods)
  {
    match ResolveMarshaller(marshallerName, csType.ns, bindings, user)
    case None => Failure(MarshallerNotFound(marshallerName))
    case Some(def) =>
      var args := if IsGenericName(marshallerName) then GetTypeParams(csType) else [];
      var toNative := FindMethod(def, "ToNative");
      var fromNative := FindMethod(def, "FromNative");
      if toNative.None? then Failure(MethodNotFound("ToNative"))
      else if fromNative.None? then Failure(MethodNotFound("FromNative"))
      else if IsGenericName(marshallerName) then
        Success(MarshallerBinding(Reference(def, args),
                                  MakeMethodDeclaringTypeGeneric(toNative.value, args),
                                  MakeMethodDeclaringTypeGeneric(fromNative.value, args)))
      else
        Success(MarshallerBinding(Reference(def, args), toNative.value, fromNative.value))
  }

  /** The reference a type resolves to and is re-imported as: its open definition. */
  function ResolvedDefinition(t: TypeRef): TypeRef
  {
    TypeRef(t.ns, t.name, [])
  }

  /**
   * The type parameters handed to the fixed-array marshaller delegates: none for a
   * non-generic marshaller, the C# type when it is not a generic instance, and
   * otherwise the definition of its first generic argument only.
   */
  function FixedArrayTypeParams(marshallerName: string, csType: TypeRef): (r: seq<TypeRef>)
    ensures |r| <= 1
    ensures r == [] <==> !IsGenericName(marshallerName)
    ensures IsGenericName(marshallerName) && !csType.IsGenericInstance() ==> r == GetTypeParams(csType)
    ensures IsGenericName(marshallerName) && csType.IsGenericInstance() ==>
              && r[0].ns == csType.genericArgs[0].ns
              && r[0].name == csType.genericArgs[0].name
              && !r[0].IsGenericInstance()
  {
    if !IsGenericName(marshallerName) then []
    else if !csType.IsGenericInstance() then [csType]
    else [ResolvedDefinition(csType.genericArgs[0])]
  }

  /**
   * For a generic marshaller and a C# type that is not itself a generic instance,
   * the fixed-array delegates are instantiated with the same arguments as the
   * marshaller class that preparation binds.
   */
  lemma FixedArrayParamsMatchBinding(marshallerName: string, csType: TypeRef, bindings: Assembly, user: Assembly)
    requires IsGenericName(marshallerName) && !csType.IsGenericInstance()
    requires ResolveBinding(marshallerName, csType, bindings, user).Success?
    ensures ResolveBinding(marshallerName, csType, bindings, user).value.marshallerClass.genericArgs
            == FixedArrayTypeParams(marshallerName, csType)
  {
  }

  class NativeDataSimpleType {
    const CSharpType: TypeRef
    const marshallerName: string
    const propertyType: PropertyType

    var MarshallerClass: Option<TypeRef>
    var ToNative: Option<MethodRef>
    var FromNative: Option<MethodRef>
    var IsReference: bool

    constructor (typeRef: TypeRef, marshallerName: string, propertyType: PropertyType)
      ensures CSharpType == typeRef && this.marshallerName == marshallerName && this.propertyType == propertyType
      ensures MarshallerClass.None? && ToNative.None? && FromNative.None? && !IsReference
    {
      CSharpType := typeRef;
      this.marshallerName := marshallerName;
      this.propertyType := propertyType;
      MarshallerClass, ToNative, FromNative := None, None, None;
      IsReference := false;
    }

    /**
     * Records whether the property is an out-parameter, looks the marshaller up
     * (one generic probe, or up to three probes in order) and binds its
     * conversion methods. A failed lookup leaves the conversion methods as they were.
     */
    method PrepareForRewrite(bindings: Assembly, user: Assembly, isOutParameter: bool)
      returns (outcome: Outcome<PrepareError>)
      modifies this
      ensures IsReference == isOutParameter
      ensures outcome == ResolveBinding(marshallerName, CSharpType, bindings, user).ToOutcome()
      ensures outcome.Pass? ==>
                var b := ResolveBinding(marshallerName, CSharpType, bindings, user).value;
                MarshallerClass == Some(b.marshallerClass) && ToNative == Some(b.toNative) && FromNative == Some(b.fromNative)
      ensures ResolveMarshaller(marshallerName, CSharpType.ns, bindings, user).None? ==>
                MarshallerClass.None? && ToNative == old(ToNative) && FromNative == old(FromNative)
      ensures outcome.Fail? && ResolveMarshaller(marshallerName, CSharpType.ns, bindings, user).Some? ==>
                var def := ResolveMarshaller(marshallerName, CSharpType.ns, bindings, user).value;
                && MarshallerClass == Some(Reference(def, if IsGenericName(marshallerName) then GetTypeParams(CSharpType) else []))
                && ToNative == FindMethod(def, "ToNative")
                && FromNative == FindMethod(def, "FromNative")
    {
      IsReference := isOutParameter;
      var typeParams := GetTypeParams(CSharpType);

      var found: Option<TypeDef>;
      if IsGenericName(marshallerName) {
        found := FindType(bindings, UnrealSharpNamespace, marshallerName);
      } else {
        found := FindType(bindings, UnrealSharpNamespace, marshallerName);
        if found.None? {
          var propertyNamespace := CSharpType.ns;
          found := FindType(bindings, propertyNamespace, marshallerName);
          if found.None? {
            found := FindType(user, propertyNamespace, marshallerName);
          }
        }
      }
      ResolutionOrder(marshallerName, CSharpType.ns, bindings, user);

      if found.None? {
        MarshallerClass := None;
        return Fail(MarshallerNotFound(marshallerName));
      }
      var marshallerTypeDefinition := found.value;
      MarshallerClass := Some(Reference(marshallerTypeDefinition, if IsGenericName(marshallerName) then typeParams else []));
      ToNative := FindMethod(marshallerTypeDefinition, "ToNative");
      FromNative := FindMethod(marshallerTypeDefinition, "FromNative");
      if ToNative.None? {
        return Fail(MethodNotFound("ToNative"));
      }
      if FromNative.None? {
        return Fail(MethodNotFound("FromNative"));
      }

      if IsGenericName(marshallerName) {
        ToNative := Some(MakeMethodDeclaringTypeGeneric(ToNative.value, typeParams));
        FromNative := Some(MakeMethodDeclaringTypeGeneric(FromNative.value, typeParams));
      }
      outcome := Pass;
    }

    /** Appends the buffer address, the array index, the value source and a call to ToNative. */
    method WriteMarshalToNative(processor: ILProcessor, loadBufferPtr: seq<Instr>, loadArrayIndex: Instr, loadSource: seq<Instr>)
      requires ToNative.Some?
      modifies processor
      ensures processor.body == old(processor.body) + loadBufferPtr + [loadArrayIndex] + loadSource + [CallTo(ToNative.value)]
    {
      var k := 0;
      while k < |loadBufferPtr|
        invariant 0 <= k <= |loadBufferPtr|
        invariant processor.body == old(processor.body) + loadBufferPtr[..k]
      {
        processor.Append(loadBufferPtr[k]);
        k := k + 1;
      }
      assert loadBufferPtr[..k] == loadBufferPtr;

      processor.Append(loadArrayIndex);

      var prefix := processor.body;
      k := 0;
      while k < |loadSource|
        invariant 0 <= k <= |loadSource|
        invariant processor.body == prefix + loadSource[..k]
      {
        processor.Append(loadSource[k]);
        k := k + 1;
      }
      assert loadSource[..k] == loadSource;

      processor.Emit(Call, MethodOperand(ToNative.value));
    }

    /** Appends the buffer address, the array index and a call to FromNative. */
    method WriteMarshalFromNative(processor: ILProcessor, loadBufferPtr: seq<Instr>, loadArrayIndex: Instr)
      requires FromNative.Some?
      modifies processor
      ensures processor.body == old(processor.body) + loadBufferPtr + [loadArrayIndex, CallTo(FromNative.value)]
    {
      var k := 0;
      while k < |loadBufferPtr|
        invariant 0 <= k <= |loadBufferPtr|
        invariant processor.body == old(processor.body) + loadBufferPtr[..k]
      {
        processor.Append(loadBufferPtr[k]);
        k := k + 1;
      }
      assert loadBufferPtr[..k] == loadBufferPtr;

      processor.Append(loadArrayIndex);
      processor.Emit(Call, MethodOperand(FromNative.value));
    }

    /**
     * The getter body between BeginSimpleGetter and EndSimpleGetter: the buffer
     * address of the property, index 0, and the call to FromNative.
     */
    method CreateGetter(processor: ILProcessor, loadBufferInstructions: seq<Instr>)
      requires FromNative.Some?
      modifies processor
      ensures processor.body == old(processor.body) + loadBufferInstructions + [LoadIndexZero, CallTo(FromNative.value)]
    {
      WriteMarshalFromNative(processor, loadBufferInstructions, Create(Ldc_I4_0, NoOperand));
    }

    /**
     * The setter body between BeginSimpleSetter and EndSimpleSetter: the buffer
     * address, index 0, the value argument (by address for an out-parameter) and
     * the call to ToNative.
     */
    method CreateSetter(processor: ILProcessor, loadBufferInstructions: seq<Instr>)
      requires ToNative.Some?
      modifies processor
      ensures processor.body == old(processor.body) + loadBufferInstructions
                + [LoadIndexZero, Instr(if IsReference then Ldarga else Ldarg, IntArg(1)), CallTo(ToNative.value)]
    {
      var loadValue := Create(if IsReference then Ldarga else Ldarg, IntArg(1));
      WriteMarshalToNative(processor, loadBufferInstructions, Create(Ldc_I4_0, NoOperand), [loadValue]);
    }

    /** Reads the native value into a local variable. */
    method WriteLoad(processor: ILProcessor, loadBufferInstructions: seq<Instr>, localVar: VarRef)
      requires FromNative.Some?
      modifies processor
      ensures processor.body == old(processor.body) + loadBufferInstructions
                + [LoadIndexZero, CallTo(FromNative.value), Instr(Stloc, LocalOperand(localVar))]
    {
      WriteMarshalFromNative(processor, loadBufferInstructions, Create(Ldc_I4_0, NoOperand));
      processor.Emit(Stloc, LocalOperand(localVar));
    }

    /** Reads the native value into a field of the instance (argument 0). */
    method WriteLoadToField(processor: ILProcessor, loadBufferInstructions: seq<Instr>, destField: FieldRef)
      requires FromNative.Some?
      modifies processor
      ensures processor.body == old(processor.body) + [Instr(Ldarg_0, NoOperand)] + loadBufferInstructions
                + [LoadIndexZero, CallTo(FromNative.value), Instr(Stfld, FieldOperand(destField))]
    {
      processor.Emit(Ldarg_0, NoOperand);
      WriteMarshalFromNative(processor, loadBufferInstructions, Create(Ldc_I4_0, NoOperand));
      processor.Emit(Stfld, FieldOperand(destField));
    }

    /**
     * Stores call argument argIndex into the buffer: the value source loads the
     * argument and, for an out-parameter, dereferences it with loadOutParam.
     */
    method WriteStore(loadBufferInstructions: seq<Instr>, argIndex: int, loadOutParam: Instr)
      returns (request: MarshalToNativeRequest)
      ensures request.loadBufferPtr == loadBufferInstructions
      ensures request.loadArrayIndex == LoadIndexZero
      ensures |request.loadSource| == if IsReference then 2 else 1
      ensures request.loadSource[0] == Instr(Ldarg, IntArg(argIndex))
      ensures IsReference ==> request.loadSource[1] == loadOutParam
    {
      var source := [Create(Ldarg, IntArg(argIndex))];
      if IsReference {
        source := source + [loadOutParam];
      }
      request := MarshalToNativeRequest(loadBufferInstructions, Create(Ldc_I4_0, NoOperand), source);
    }

    /** Stores a field of the instance into the buffer, by address for an out-parameter. */
    method WriteStoreFromField(loadBufferInstructions: seq<Instr>, srcField: FieldRef)
      returns (request: MarshalToNativeRequest)
      ensures request.loadBufferPtr == loadBufferInstructions
      ensures request.loadArrayIndex == LoadIndexZero
      ensures |request.loadSource| == 2
      ensures request.loadSource[0] == Instr(Ldarg_0, NoOperand)
      ensures request.loadSource[1].operand == FieldOperand(srcField)
      ensures request.loadSource[1].op == Ldflda <==> IsReference
      ensures request.loadSource[1].op == Ldfld <==> !IsReference
    {
      var loadField := [Create(Ldarg_0, NoOperand), Create(if IsReference then Ldflda else Ldfld, FieldOperand(srcField))];
      request := MarshalToNativeRequest(loadBufferInstructions, Create(Ldc_I4_0, NoOperand), loadField);
    }
  }
}
