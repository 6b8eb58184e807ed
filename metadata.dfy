/**
 * Assemblies as finite maps from (namespace, name) to type definitions, and the
 * lookups the weaver makes in them.
 */
module Metadata {
  import opened Wrappers
  import opened Cil

  datatype QualifiedName = QualifiedName(ns: string, name: string)

  /** A type definition: where it lives and the names of the methods it declares. */
  datatype TypeDef = TypeDef(ns: string, name: string, methods: set<string>)

  type Assembly = map<QualifiedName, TypeDef>

  /** The namespace of the bindings assembly's built-in marshallers. */
  const UnrealSharpNamespace: string := "UnrealSharp"

  /** Looks a type up by name in one namespace of one assembly. */
  function FindType(assembly: Assembly, ns: string, name: string): (r: Option<TypeDef>)
    ensures r.Some? <==> QualifiedName(ns, name) in assembly
    ensures r.Some? ==> r.value == assembly[QualifiedName(ns, name)]
  {
    var key := QualifiedName(ns, name);
    if key in assembly then Some(assembly[key]) else None
  }

  /** A reference to a definition, instantiated with the given generic arguments. */
  function Reference(def: TypeDef, args: seq<TypeRef>): (t: TypeRef)
    ensures t.ns == def.ns && t.name == def.name && t.genericArgs == args
  {
    TypeRef(def.ns, def.name, args)
  }

  /** Looks a method up by name on a definition; the reference names the open definition. */
  function FindMethod(def: TypeDef, name: string): (r: Option<MethodRef>)
    ensures r.Some? <==> name in def.methods
    ensures r.Some? ==> r.value.name == name && r.value.declaringType == Reference(def, [])
  {
    if name in def.methods then Some(MethodRef(Reference(def, []), name)) else None
  }

  /** The same method, seen on the declaring type instantiated with the given arguments. */
  function MakeMethodDeclaringTypeGeneric(m: MethodRef, args: seq<TypeRef>): (r: MethodRef)
    ensures r.name == m.name
    ensures r.declaringType.ns == m.declaringType.ns && r.declaringType.name == m.declaringType.name
    ensures r.declaringType.genericArgs == args
  {
    MethodRef(TypeRef(m.declaringType.ns, m.declaringType.name, args), m.name)
  }
}
