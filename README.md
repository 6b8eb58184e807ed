# UnrealSharp weaver marshalling and editor hot-reload trigger, in Dafny

This project models three pieces of UnrealSharp.

1. The IL weaver's marshalling strategy for simple property types, `NativeDataSimpleType`. Preparing a property finds its marshaller class by an ordered lookup and binds the class's `ToNative` and `FromNative` methods. A generic marshaller name (one ending in "`1") gets one generic lookup in the bindings assembly. Any other name is tried in the bindings assembly under the `UnrealSharp` namespace, then in the bindings assembly under the property type's namespace, then in the user assembly. Its emitters then append fixed instruction sequences to a method body: getter, setter, argument load and store, and marshal to and from native.
2. Its multicast inline delegate specialisation, `NativeDataMulticastDelegate`. It always uses "DelegateMarshaller`1", adds a backing field before preparing, emits its own getter, and emits a post-initialisation call unless the delegate's signature has no parameters.
3. The editor module's hot-reload trigger. `OnCSharpCodeModified` filters a batch of changed files. `Tick` runs a reload that waits for focus.

How the model is laid out:

- Assemblies are finite maps from (namespace, name) to a type definition. A type definition carries the names of its methods.
- An instruction is an (opcode, operand) value. `ILProcessor` is a class whose `body: seq<Instr>` grows by append.
- Each strategy is a class. Its fields `MarshallerClass`, `ToNative`, `FromNative` and `IsReference` are set by `PrepareForRewrite` and read by the emitters.
- The editor module is a class with `bIsReloading` and a count of hot reloads started.
- The `PropertyType` enumeration (Plugins/UnrealSharp/Managed/UnrealSharpPrograms/UnrealSharpWeaver/PropertyType.cs:3-51) is mirrored case for case as the datatype `PropertyTypes.PropertyType`.
- Resolution is stated twice. The specification is an ordered list of probes, `Resolution.LookupPlan`, where the first probe that finds a type wins. The imperative `PrepareForRewrite` runs the source's nested tests. `Resolution.ResolutionOrder` proves the two agree.

Values the source gets from code outside this model become parameters. These are: the instructions returned by `GetArgumentBufferInstructions`, the instruction from `CreateLoadInstructionOutParam`, the delegate's `Signature`, the field created by `AddBackingField`, the `Initialize` method reference, the `bRequireFocusForHotReload` setting and `FApp::HasFocus()`.

## Model

| member | source | states |
|---|---|---|
| Resolution.GenericNameIsArity1Suffix | Plugins/UnrealSharp/Managed/UnrealSharpPrograms/UnrealSharpWeaver/NativeTypes/NativeDataSimpleType.cs:31 | A name counts as generic exactly when it ends in "`1": every stem followed by "`1" is generic, a generic name is its prefix followed by "`1", and a name whose last character is not '1' is not generic. |
| Resolution.LookupPlan | Plugins/UnrealSharp/Managed/UnrealSharpPrograms/UnrealSharpWeaver/NativeTypes/NativeDataSimpleType.cs:31-53 | A generic name gets exactly one probe: generic, in the bindings assembly, in the UnrealSharp namespace. Any other name gets exactly three non-generic probes: the bindings assembly under UnrealSharp, then the bindings assembly under the property type's namespace, then the user assembly under the property type's namespace. The user assembly is probed only last. |
| Resolution.FirstHitIndex | Plugins/UnrealSharp/Managed/UnrealSharpPrograms/UnrealSharpWeaver/NativeTypes/NativeDataSimpleType.cs:40-53 | The index returned is the first probe that finds a type: it finds one, and every earlier probe finds none. It is -1 exactly when no probe finds a type. |
| Resolution.ResolveMarshaller | Plugins/UnrealSharp/Managed/UnrealSharpPrograms/UnrealSharpWeaver/NativeTypes/NativeDataSimpleType.cs:31-56 | Resolution fails exactly when every probe of the name's plan finds nothing. |
| Resolution.ResolutionOrder | Plugins/UnrealSharp/Managed/UnrealSharpPrograms/UnrealSharpWeaver/NativeTypes/NativeDataSimpleType.cs:31-56 | The plan's first-hit result equals the source's nested tests. A generic name is looked up once in bindings/UnrealSharp. Any other name tries bindings/UnrealSharp, then bindings/type namespace, then user/type namespace, and stops at the first hit. |
| Resolution.GenericResolutionIgnoresUserAssembly | Plugins/UnrealSharp/Managed/UnrealSharpPrograms/UnrealSharpWeaver/NativeTypes/NativeDataSimpleType.cs:31-34 | For a generic name the result does not depend on the property type's namespace or on the user assembly. It is the bindings/UnrealSharp lookup. |
| Resolution.BindingsShadowUserAssembly | Plugins/UnrealSharp/Managed/UnrealSharpPrograms/UnrealSharpWeaver/NativeTypes/NativeDataSimpleType.cs:40-53 | A non-generic marshaller defined in the bindings assembly wins over one of the same name in the user assembly. This holds whether it is defined under UnrealSharp or under the type's namespace, and UnrealSharp is preferred. |
| Resolution.ResolutionFailsOnlyWhenAbsent | Plugins/UnrealSharp/Managed/UnrealSharpPrograms/UnrealSharpWeaver/NativeTypes/NativeDataSimpleType.cs:42-58 | Preparation finds no marshaller exactly when the name is absent from every place its plan probes. |
| Metadata.FindType | Plugins/UnrealSharp/Managed/UnrealSharpPrograms/UnrealSharpWeaver/NativeTypes/NativeDataSimpleType.cs:40 | A type lookup succeeds exactly when the (namespace, name) pair is in the assembly, and returns that entry. |
| Metadata.FindMethod | Plugins/UnrealSharp/Managed/UnrealSharpPrograms/UnrealSharpWeaver/NativeTypes/NativeDataSimpleType.cs:59-60 | A method lookup succeeds exactly when the definition declares the name. The reference is on the open definition. |
| Metadata.MakeMethodDeclaringTypeGeneric | Plugins/UnrealSharp/Managed/UnrealSharpPrograms/UnrealSharpWeaver/NativeTypes/NativeDataSimpleType.cs:64-65 | The method keeps its name and declaring type, and the declaring type takes the given generic arguments. |
| NativeTypes.GetTypeParams | Plugins/UnrealSharp/Managed/UnrealSharpPrograms/UnrealSharpWeaver/NativeTypes/NativeDataSimpleType.cs:19-22 | A generic marshaller is instantiated with exactly one type argument, the C# type itself. |
| NativeTypes.ResolveBinding | Plugins/UnrealSharp/Managed/UnrealSharpPrograms/UnrealSharpWeaver/NativeTypes/NativeDataSimpleType.cs:58-69 | Binding fails with MarshallerNotFound exactly when resolution finds nothing. It succeeds exactly when the found class declares both ToNative and FromNative. On success, ToNative and FromNative are the methods of those names on the marshaller class reference. That class is a generic instance if and only if the name ends in "`1", and its argument is then the C# type. MethodNotFound means the found class lacks one of the two methods. |
| NativeTypes.NativeDataSimpleType.constructor | Plugins/UnrealSharp/Managed/UnrealSharpPrograms/UnrealSharpWeaver/NativeTypes/NativeDataSimpleType.cs:9-15 | The strategy keeps the C# type, marshaller name and property type it is given, and starts with no marshaller class, no conversion methods bound and IsReference false. |
| NativeTypes.NativeDataSimpleType.PrepareForRewrite | Plugins/UnrealSharp/Managed/UnrealSharpPrograms/UnrealSharpWeaver/NativeTypes/NativeDataSimpleType.cs:24-70 | IsReference becomes the out-parameter flag. The outcome is the binding's outcome. On success the three fields hold the binding. When no marshaller is found, MarshallerClass is cleared and the conversion methods are unchanged. |
| NativeTypes.NativeDataSimpleType.WriteMarshalToNative | Plugins/UnrealSharp/Managed/UnrealSharpPrograms/UnrealSharpWeaver/NativeTypes/NativeDataSimpleType.cs:132-147 | The body becomes the old body followed by the buffer instructions in order, the index instruction, the source instructions in order, and one call to ToNative. |
| NativeTypes.NativeDataSimpleType.WriteMarshalFromNative | Plugins/UnrealSharp/Managed/UnrealSharpPrograms/UnrealSharpWeaver/NativeTypes/NativeDataSimpleType.cs:149-159 | The body becomes the old body followed by the buffer instructions, the index instruction, and one call to FromNative. |
| NativeTypes.NativeDataSimpleType.CreateGetter | Plugins/UnrealSharp/Managed/UnrealSharpPrograms/UnrealSharpWeaver/NativeTypes/NativeDataSimpleType.cs:72-78 | Between begin and end, the getter appends the buffer instructions, Ldc_I4_0 and a call to FromNative. |
| NativeTypes.NativeDataSimpleType.CreateSetter | Plugins/UnrealSharp/Managed/UnrealSharpPrograms/UnrealSharpWeaver/NativeTypes/NativeDataSimpleType.cs:80-87 | The setter appends the buffer instructions, Ldc_I4_0, argument 1 loaded with Ldarga if IsReference and with Ldarg otherwise, and a call to ToNative. |
| NativeTypes.NativeDataSimpleType.WriteLoad | Plugins/UnrealSharp/Managed/UnrealSharpPrograms/UnrealSharpWeaver/NativeTypes/NativeDataSimpleType.cs:89-94 | The local-variable load appends the from-native sequence with index Ldc_I4_0 and ends with Stloc of the local. |
| NativeTypes.NativeDataSimpleType.WriteLoadToField | Plugins/UnrealSharp/Managed/UnrealSharpPrograms/UnrealSharpWeaver/NativeTypes/NativeDataSimpleType.cs:96-102 | The field load starts with Ldarg_0, appends the from-native sequence with index Ldc_I4_0, and ends with Stfld of the destination field. |
| NativeTypes.NativeDataSimpleType.WriteStore | Plugins/UnrealSharp/Managed/UnrealSharpPrograms/UnrealSharpWeaver/NativeTypes/NativeDataSimpleType.cs:104-118 | The argument store hands on the buffer instructions and index Ldc_I4_0. Its source starts with Ldarg argIndex and has length 2 if IsReference, the second element being the out-parameter load, and length 1 otherwise. |
| NativeTypes.NativeDataSimpleType.WriteStoreFromField | Plugins/UnrealSharp/Managed/UnrealSharpPrograms/UnrealSharpWeaver/NativeTypes/NativeDataSimpleType.cs:120-130 | The field store hands on the buffer instructions, index Ldc_I4_0 and the source Ldarg_0 followed by a load of the source field. That load is Ldflda if and only if IsReference, and Ldfld otherwise. |
| NativeTypes.FixedArrayTypeParams | Plugins/UnrealSharp/Managed/UnrealSharpPrograms/UnrealSharpWeaver/NativeTypes/NativeDataSimpleType.cs:161-179 | The fixed-array type parameters are empty if and only if the name does not end in "`1". They are the C# type when that type is not a generic instance, and otherwise the definition of its first generic argument only. |
| NativeTypes.FixedArrayParamsMatchBinding | Plugins/UnrealSharp/Managed/UnrealSharpPrograms/UnrealSharpWeaver/NativeTypes/NativeDataSimpleType.cs:161-170 | For a generic marshaller and a non-generic C# type, the fixed-array delegates use the same type arguments as the bound marshaller class. |
| MulticastDelegate.NativeDataMulticastDelegate.constructor | Plugins/UnrealSharp/Managed/UnrealSharpPrograms/UnrealSharpWeaver/NativeTypes/NativeMulticastDelegateType.cs:10-14 | The marshaller name is "DelegateMarshaller`1", so it is generic. The category is MulticastInlineDelegate, NeedsNativePropertyField is set and nothing is bound yet. |
| MulticastDelegate.NativeDataMulticastDelegate.PrepareForRewrite | Plugins/UnrealSharp/Managed/UnrealSharpPrograms/UnrealSharpWeaver/NativeTypes/NativeMulticastDelegateType.cs:16-20 | Exactly one backing field is added, whatever the base preparation's outcome. The base preparation then runs. Its lookup is the single generic bindings/UnrealSharp lookup, and on success the class is instantiated with the delegate type. |
| MulticastDelegate.NativeDataMulticastDelegate.WritePostInitialization | Plugins/UnrealSharp/Managed/UnrealSharpPrograms/UnrealSharpWeaver/NativeTypes/NativeMulticastDelegateType.cs:22-34 | A present signature with an empty parameter list leaves the body unchanged. An absent signature or one with parameters appends exactly loadNativePointer and one call to Initialize. setNativePointer is never emitted. |
| MulticastDelegate.NativeDataMulticastDelegate.CreateGetter | Plugins/UnrealSharp/Managed/UnrealSharpPrograms/UnrealSharpWeaver/NativeTypes/NativeMulticastDelegateType.cs:36-51 | Between begin and end, the getter appends the buffer instructions, Ldsfld of the native property field, Ldc_I4_0 and a call to FromNative. |
| UnrealSharpEditor.LastIndexOfAny | Plugins/UnrealSharp/Source/UnrealSharpEditor/UnrealSharpEditor.cpp:51 | Returns the last position holding one of the given characters: no later position holds one. It returns -1 when there is none. |
| UnrealSharpEditor.GetExtension | Plugins/UnrealSharp/Source/UnrealSharpEditor/UnrealSharpEditor.cpp:51-52 | The extension is the text after the last dot of the file name, the part after the last separator. It holds no dot and no separator. When it is not empty, the path ends in a dot followed by it. |
| UnrealSharpEditor.ExtensionOfNamedFile | Plugins/UnrealSharp/Source/UnrealSharpEditor/UnrealSharpEditor.cpp:50-55 | A path ending in "." and a dot-free, separator-free extension has exactly that extension. |
| UnrealSharpEditor.Qualifies | Plugins/UnrealSharp/Source/UnrealSharpEditor/UnrealSharpEditor.cpp:44-55 | A file whose name contains "Script/bin" or "Script/obj", in any letter case, never qualifies. A qualifying file's name ends in a dot followed by "cs" in any letter case. |
| UnrealSharpEditor.QualifiesIffCsSuffix | Plugins/UnrealSharp/Source/UnrealSharpEditor/UnrealSharpEditor.cpp:44-55 | A changed file passes the filter exactly when it contains neither "Script/bin" nor "Script/obj" and ends in ".cs", in any letter case. |
| UnrealSharpEditor.EditorModule.StartHotReload | Plugins/UnrealSharp/Source/UnrealSharpEditor/UnrealSharpEditor.cpp:72-107 | Starting a hot reload counts one more reload and leaves the pending mark alone. |
| UnrealSharpEditor.EditorModule.OnCSharpCodeModified | Plugins/UnrealSharp/Source/UnrealSharpEditor/UnrealSharpEditor.cpp:34-70 | A batch that arrives while a reload is pending changes nothing, and so does a batch with no qualifying file. Otherwise, with focus required, the mark is set and no reload starts. Without focus required, exactly one reload starts and the mark ends cleared. At most one reload starts per batch. |
| UnrealSharpEditor.EditorModule.Tick | Plugins/UnrealSharp/Source/UnrealSharpEditor/UnrealSharpEditor.cpp:144-155 | Tick starts one reload if and only if focus is required, a reload is pending and the app has focus, and then clears the mark. It always returns true. |

## Left out

- The Mono.Cecil object model and the internals of WeaverHelper are not part of this model. This covers assembly loading, ImportType, ImportMethod, ImportReference and Resolve. Lookups are map queries. ImportType and ImportMethod are the identity. Resolving a generic argument gives its open definition.
- Whether FindGenericTypeInAssembly checks generic arity lies in WeaverHelper, outside this model, so no arity error is modelled. The same goes for the throw-on-error fourth argument of the last FindTypeInAssembly call: every lookup returns "not found" instead of throwing.
- Resolution.IsGenericName tests the "`1" suffix ordinally. C#'s string.EndsWith(string) compares under the current culture, which differs only for names holding ignorable or combining characters.
- NativeTypes.NativeDataSimpleType.PrepareForRewrite: when a marshaller class lacks ToNative or FromNative, the source passes a null reference on to code not part of this model. The model stops with MethodNotFound and leaves the fields as found. The call to base.PrepareForRewrite in the NativeDataType base class is not modelled. CSharpType.Resolve().Namespace is taken to be the C# type reference's namespace.
- GetTypeParams is virtual. Only the base version, which returns the C# type itself, is modelled. Overrides in other strategies are not part of this model.
- The base-class helpers GetArgumentBufferInstructions, BeginSimpleGetter/EndSimpleGetter, BeginSimpleSetter/EndSimpleSetter, WriteMarshalToNativeWithCleanup, EmitSimpleMarshallerDelegates, AddBackingField and Signature are not part of this model. Their results are parameters. The getters and setters model the body between begin and end.
- NativeTypes.NativeDataSimpleType.WriteStore and NativeTypes.NativeDataSimpleType.WriteStoreFromField return the arguments they hand to WriteMarshalToNativeWithCleanup. They do not return that helper's cleanup list. EmitFixedArrayMarshallerDelegates is modelled only as the type-parameter choice it passes to EmitSimpleMarshallerDelegates.
- The TypeDefinition arguments of the emitters, and the constructor's arrayDim, are only passed on to base-class code and are not modelled. The ParameterDefinition of WriteStore is passed to WeaverHelper.CreateLoadInstructionOutParam, whose result is the parameter loadOutParam.
- MulticastDelegate.NativeDataMulticastDelegate.constructor: the class derives from NativeDataBaseDelegateType, which is not part of this model. Its three-argument constructor is taken to pass the delegate type as the C# type and the given marshaller name and category on to NativeDataSimpleType unchanged.
- MulticastDelegate.NativeDataMulticastDelegate.PrepareForRewrite: base.PrepareForRewrite dispatches to NativeDataBaseDelegateType, which is not part of this model. It is taken to be NativeDataSimpleType's preparation with the base GetTypeParams, so the marshaller is instantiated with the delegate type. AddBackingField is an effect outside this model, taken to append exactly the given field to the owning type. "Exactly one backing field" therefore holds by that assumption and is not proved about the helper.
- MulticastDelegate.NativeDataMulticastDelegate.WritePostInitialization takes the Initialize method as a parameter. Resolving the property definition and looking up InitializeUnrealDelegate on its type are not part of this model.
- StartHotReload is abstracted to a counter: building, weaving, unloading and reloading the assembly, reinstancing, and its early exits are all left out. Also left out: StartupModule, ShutdownModule, OnUnrealSharpInitialized, RegisterMenus (its menu button calls StartHotReload directly), the directory watcher and the ticker.
- A change batch is the sequence of changed file names. The change action of each entry is not used by the source and is not modelled. Tick's DeltaTime is unused and omitted.
- The engine's FString::Contains and FString inequality are taken to be case-insensitive, their default. Case folding is ASCII only. FPaths::GetExtension is taken to be the text after the last '.' following the last '/' or '\\'.
- The plugin loader, the array property exporter, the local player subsystem, the default component metadata and the build target are outside the modelled core.
