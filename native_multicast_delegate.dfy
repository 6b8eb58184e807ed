/**
 * The multicast inline delegate strategy: a simple-type strategy whose marshaller
 * is always the generic DelegateMarshaller`1, which adds a backing field before
 * preparing, reads through a native property field in its getter, and
 * initialises the delegate after construction unless its signature is empty.
 */
module MulticastDelegate {
  import opened Wrappers
  import opened Cil
  import opened Metadata
  import opened Resolution
  import opened PropertyTypes
  import opened NativeTypes

  const DelegateMarshallerName: string := "DelegateMarshaller`1"

  /** The parameter list of a delegate's invoke signature. */
  datatype DelegateSignature = DelegateSignature(parameters: seq<TypeRef>)

  class NativeDataMulticastDelegate {
    /** The simple-type state this strategy inherits. */
    const simple: NativeDataSimpleType
    var NeedsNativePropertyField: bool

    /** The fixed marshaller name and category this strategy was constructed with. */
    predicate Valid()
    {
      simple.marshallerName == DelegateMarshallerName && simple.propertyType == MulticastInlineDelegate
    }

    constructor (delegateType: TypeRef)
      ensures Valid() && fresh(simple)
      ensures simple.CSharpType == delegateType
      ensures simple.marshallerName == DelegateMarshallerName && IsGenericName(simple.marshallerName)
      ensures simple.propertyType == MulticastInlineDelegate
      ensures simple.ToNative.None? && simple.FromNative.None? && simple.MarshallerClass.None? && !simple.IsReference
      ensures NeedsNativePropertyField
    {
      simple := new NativeDataSimpleType(delegateType, DelegateMarshallerName, MulticastInlineDelegate);
      NeedsNativePropertyField := true;
    }

    /**
     * Adds exactly one backing field to the owning type, then runs the simple-type
     * preparation; the field is added whether or not that preparation succeeds.
     */
    method PrepareForRewrite(typeDefinition: TypeDefinition, backingField: FieldRef,
                             bindings: Assembly, user: Assembly, isOutParameter: bool)
      returns (outcome: Outcome<PrepareError>)
      requires Valid()
      modifies typeDefinition, simple
      ensures typeDefinition.fields == old(typeDefinition.fields) + [backingField]
      ensures simple.IsReference == isOutParameter
      ensures outcome == ResolveBinding(DelegateMarshallerName, simple.CSharpType, bindings, user).ToOutcome()
      ensures ResolveMarshaller(DelegateMarshallerName, simple.CSharpType.ns, bindings, user)
              == FindType(bindings, UnrealSharpNamespace, DelegateMarshallerName)
      ensures outcome.Pass? ==>
                var b := ResolveBinding(DelegateMarshallerName, simple.CSharpType, bindings, user).value;
                && simple.MarshallerClass == Some(b.marshallerClass)
                && simple.ToNative == Some(b.toNative)
                && simple.FromNative == Some(b.fromNative)
                && b.marshallerClass.genericArgs == [simple.CSharpType]
    {
      typeDefinition.AddField(backingField);
      outcome := simple.PrepareForRewrite(bindings, user, isOutParameter);
      GenericResolutionIgnoresUserAssembly(DelegateMarshallerName, simple.CSharpType.ns, simple.CSharpType.ns, bindings, user, user);
    }

    /**
     * After construction, loads the native pointer and calls the delegate type's
     * initialiser, unless the signature is known to take no parameters. The store
     * instruction setNativePointer is never emitted.
     */
    method WritePostInitialization(processor: ILProcessor, signature: Option<DelegateSignature>,
                                   loadNativePointer: Instr, setNativePointer: Instr, initialize: MethodRef)
      modifies processor
      ensures signature.Some? && signature.value.parameters == [] ==> processor.body == old(processor.body)
      ensures signature.None? || signature.value.parameters != [] ==>
                processor.body == old(processor.body) + [loadNativePointer, CallTo(initialize)]
    {
      if signature.Some? && |signature.value.parameters| == 0 {
        return;
      }
      processor.Append(loadNativePointer);
      processor.Emit(Call, MethodOperand(initialize));
    }

    /**
     * The getter body between BeginSimpleGetter and EndSimpleGetter: the buffer
     * address, the static native property field, index 0 and the call to FromNative.
     */
    method CreateGetter(processor: ILProcessor, loadBufferInstructions: seq<Instr>, nativePropertyField: FieldRef)
      requires simple.FromNative.Some?
      modifies processor
      ensures processor.body == old(processor.body) + loadBufferInstructions
                + [Instr(Ldsfld, FieldOperand(nativePropertyField)), LoadIndexZero, CallTo(simple.FromNative.value)]
    {
      var k := 0;
      while k < |loadBufferInstructions|
        invariant 0 <= k <= |loadBufferInstructions|
        invariant processor.body == old(processor.body) + loadBufferInstructions[..k]
      {
        processor.Append(loadBufferInstructions[k]);
        k := k + 1;
      }
      assert loadBufferInstructions[..k] == loadBufferInstructions;

      processor.Emit(Ldsfld, FieldOperand(nativePropertyField));
      processor.Emit(Ldc_I4_0, NoOperand);
      processor.Emit(Call, MethodOperand(simple.FromNative.value));
    }
  }
}
