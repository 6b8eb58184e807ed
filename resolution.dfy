/**
 * Where a simple property type's marshaller class is looked for. The lookups are
 * an ordered list of (assembly, namespace) probes and the first probe that
 * finds a type wins.
 */
module Resolution {
  import opened Wrappers
  import opened Cil
  import opened Metadata

  /** A marshaller name is generic when it ends in the arity suffix "`1". */
  predicate IsGenericName(name: string) {
    |name| >= 2 && name[|name| - 2..] == "`1"
  }

  /**
   * The suffix test recognises exactly the names of the form stem + "`1": every
   * such name is generic, and a generic name is its prefix followed by "`1".
   */
  lemma GenericNameIsArity1Suffix(stem: string, name: string)
    ensures IsGenericName(stem + "`1")
    ensures IsGenericName(name) ==> name == name[..|name| - 2] + "`1"
    ensures |name| > 0 && name[|name| - 1] != '1' ==> !IsGenericName(name)
  {
    var n := stem + "`1";
    assert n[|n| - 2..] == "`1";
  }

  datatype AssemblyRole = Bindings | User

  /** One probe: an assembly, a namespace, and whether the type is then instantiated generically. */
  datatype Lookup = Lookup(assembly: AssemblyRole, ns: string, generic: bool)

  /**
   * The probes made for a marshaller name, in order: one generic probe of the
   * bindings assembly for a generic name; otherwise the bindings assembly under
   * the UnrealSharp namespace, then under the property type's namespace, then
   * the user assembly under the property type's namespace.
   */
  function LookupPlan(name: string, typeNs: string): (plan: seq<Lookup>)
    ensures 1 <= |plan| <= 3
    ensures plan[0] == Lookup(Bindings, UnrealSharpNamespace, IsGenericName(name))
    ensures forall i | 0 <= i < |plan| :: plan[i].generic == IsGenericName(name)
    ensures |plan| == 1 <==> IsGenericName(name)
    ensures !IsGenericName(name) ==>
              |plan| == 3 && plan[1] == Lookup(Bindings, typeNs, false) && plan[2] == Lookup(User, typeNs, false)
    ensures forall i | 0 <= i < |plan| :: plan[i].assembly == User ==> i == |plan| - 1
  {
    if IsGenericName(name) then
      [Lookup(Bindings, UnrealSharpNamespace, true)]
    else
      [ Lookup(Bindings, UnrealSharpNamespace, false),
        Lookup(Bindings, typeNs, false),
        Lookup(User, typeNs, false) ]
  }

  function Probe(l: Lookup, name: string, bindings: Assembly, user: Assembly): Option<TypeDef>
  {
    FindType(if l.assembly == Bindings then bindings else user, l.ns, name)
  }

  /** The index of the first probe that finds a type, or -1 when none does. */
  function FirstHitIndex(plan: seq<Lookup>, name: string, bindings: Assembly, user: Assembly): (k: int)
    ensures -1 <= k < |plan|
    ensures k >= 0 ==> Probe(plan[k], name, bindings, user).Some?
    ensures forall j | 0 <= j < |plan| && (k < 0 || j < k) :: Probe(plan[j], name, bindings, user).None?
  {
    if plan == [] then -1
    else if Probe(plan[0], name, bindings, user).Some? then 0
    else
      var k := FirstHitIndex(plan[1..], name, bindings, user);
      if k < 0 then -1 else k + 1
  }

  /** The marshaller definition a name resolves to, if any probe of its plan finds one. */
  function ResolveMarshaller(name: string, typeNs: string, bindings: Assembly, user: Assembly): (r: Option<TypeDef>)
    ensures r.None? <==> forall l | l in LookupPlan(name, typeNs) :: Probe(l, name, bindings, user).None?
  {
    var plan := LookupPlan(name, typeNs);
    var k := FirstHitIndex(plan, name, bindings, user);
    if k < 0 then None else Probe(plan[k], name, bindings, user)
  }

  /**
   * Resolution spelled out as the nested tests it amounts to: a generic name is
   * looked up once in the bindings assembly; any other name is looked up in the
   * bindings assembly under UnrealSharp, then under the type's namespace, then in
   * the user assembly, stopping at the first hit.
   */
  lemma {:induction false} ResolutionOrder(name: string, typeNs: string, bindings: Assembly, user: Assembly)
    ensures ResolveMarshaller(name, typeNs, bindings, user) ==
      if IsGenericName(name) then
        FindType(bindings, UnrealSharpNamespace, name)
      else if FindType(bindings, UnrealSharpNamespace, name).Some? then
        FindType(bindings, UnrealSharpNamespace, name)
      else if FindType(bindings, typeNs, name).Some? then
        FindType(bindings, typeNs, name)
      else
        FindType(user, typeNs, name)
  {
    var plan := LookupPlan(name, typeNs);
    var k := FirstHitIndex(plan, name, bindings, user);
    if IsGenericName(name) {
      assert |plan| == 1;
    } else {
      assert |plan| == 3;
      assert Probe(plan[0], name, bindings, user) == FindType(bindings, UnrealSharpNamespace, name);
      assert Probe(plan[1], name, bindings, user) == FindType(bindings, typeNs, name);
      assert Probe(plan[2], name, bindings, user) == FindType(user, typeNs, name);
    }
  }

  /** A generic name's resolution depends neither on the property type's namespace nor on the user assembly. */
  lemma GenericResolutionIgnoresUserAssembly(name: string, typeNs: string, typeNs': string,
                                             bindings: Assembly, user: Assembly, user': Assembly)
    requires IsGenericName(name)
    ensures ResolveMarshaller(name, typeNs, bindings, user) == ResolveMarshaller(name, typeNs', bindings, user')
    ensures ResolveMarshaller(name, typeNs, bindings, user) == FindType(bindings, UnrealSharpNamespace, name)
  {
    ResolutionOrder(name, typeNs, bindings, user);
    ResolutionOrder(name, typeNs', bindings, user');
  }

  /**
   * A non-generic marshaller that the bindings assembly defines, under UnrealSharp
   * or under the property type's namespace, shadows any type of that name in the
   * user assembly.
   */
  lemma BindingsShadowUserAssembly(name: string, typeNs: string, bindings: Assembly, user: Assembly)
    requires !IsGenericName(name)
    requires QualifiedName(UnrealSharpNamespace, name) in bindings || QualifiedName(typeNs, name) in bindings
    ensures ResolveMarshaller(name, typeNs, bindings, user) ==
      if QualifiedName(UnrealSharpNamespace, name) in bindings
      then Some(bindings[QualifiedName(UnrealSharpNamespace, name)])
      else Some(bindings[QualifiedName(typeNs, name)])
  {
    ResolutionOrder(name, typeNs, bindings, user);
  }

  /** Resolution fails exactly when none of the probes the name calls for finds a type. */
  lemma ResolutionFailsOnlyWhenAbsent(name: string, typeNs: string, bindings: Assembly, user: Assembly)
    ensures ResolveMarshaller(name, typeNs, bindings, user).None? <==>
      if IsGenericName(name) then
        QualifiedName(UnrealSharpNamespace, name) !in bindings
      else
        && QualifiedName(UnrealSharpNamespace, name) !in bindings
        && QualifiedName(typeNs, name) !in bindings
        && QualifiedName(typeNs, name) !in user
  {
    ResolutionOrder(name, typeNs, bindings, user);
  }
}
