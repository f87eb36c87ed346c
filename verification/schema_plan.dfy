/** The part of schema derivation that does not look at the cache: unwrapping one Optional,
    substituting a transformer's target type, and classifying the result into an error, one of
    the two shared schemas, or a named schema to build (with the map decision table). */
module SchemaPlan {
  import opened Wrappers
  import opened SchemaTypes

  /** How a named schema is built. */
  datatype Recipe =
    | EnumRecipe(constants: seq<EnumConstant>)
    | BeanRecipe(properties: seq<Property>)
    | MapRecipe(value: TypeDesc)

  /** The outcome of classifying a type. */
  datatype Plan =
    | Reject(error: Unsupported)
    | Shared(schema: Schema)
    | Build(name: string, recipe: Recipe)

  /** A map type, a raw map, or a declared subclass of a map. */
  predicate IsMapLike(u: Universe, t: TypeDesc) {
    || t.MapType?
    || t.RawMap?
    || (t.ClassType? && t.name in u && u[t.name].MapSubclass?)
  }

  /** Strips one level of Optional. What an Optional wraps must be a scalar, an enum or a bean:
      a collection, a map, an unconstrained type or another Optional is rejected. */
  function UnwrapOptional(u: Universe, t: TypeDesc): (r: Result<TypeDesc, Unsupported>)
  {
    match t
    case OptionalType(inner) =>
      if inner.OptionalType? || inner.ArrayType? || inner.AnyType? || inner.TypeVar? || IsMapLike(u, inner)
      then Failure(UnsupportedOptional(t))
      else Success(inner)
    case _ => Success(t)
  }

  /** The type a registered transformer serializes `t` as, or `t` itself. */
  function SchemaType(config: ApiConfig, t: TypeDesc): TypeDesc {
    if t in config.transformers then config.transformers[t] else t
  }

  /** The type whose schema stands for `t`: one Optional removed, then the transformer applied. */
  function Normalize(u: Universe, config: ApiConfig, t: TypeDesc): Result<TypeDesc, Unsupported> {
    match UnwrapOptional(u, t)
    case Failure(e) => Failure(e)
    case Success(t') => Success(SchemaType(config, t'))
  }

  /** Whether a type still mentions an unbound type variable. */
  predicate HasTypeVar(t: TypeDesc)
    decreases t
  {
    match t
    case TypeVar(_) => true
    case ClassType(_, args) => exists i :: 0 <= i < |args| && HasTypeVar(args[i])
    case ArrayType(e) => HasTypeVar(e)
    case MapType(k, v) => HasTypeVar(k) || HasTypeVar(v)
    case OptionalType(i) => HasTypeVar(i)
    case _ => false
  }

  /** A key type that serializes to a string: a scalar or an enum. */
  predicate IsSupportedKey(t: TypeDesc) {
    t.Scalar? || t.EnumType?
  }

  /** A value type whose field would be an array. An Optional is not looked through: its field
      is derived as a property's would be, which rejects an Optional of an array. */
  predicate IsArrayValued(t: TypeDesc) {
    t.ArrayType?
  }

  /** The map decision table. */
  function MapPlan(flags: Flags, k: TypeDesc, v: TypeDesc): Plan {
    if flags.forceJsonMapSchema then Shared(MapSchema)
    else if HasTypeVar(k) || HasTypeVar(v) then Shared(MapSchema)
    else if !IsSupportedKey(k) then
      if flags.ignoreUnsupportedKeyTypes then Shared(MapSchema) else Reject(UnsupportedMapKey(k))
    else if IsArrayValued(v) && !flags.supportArrayValues then Shared(MapSchema)
    else Build(SimpleName(MapType(k, v)), MapRecipe(v))
  }

  /** Binds type parameters to arguments, position by position. */
  function Bindings(params: seq<string>, args: seq<TypeDesc>): map<string, TypeDesc>
    decreases |params|
  {
    if |params| == 0 || |args| == 0 then map[]
    else Bindings(params[1..], args[1..])[params[0] := args[0]]
  }

  /** `t` with its bound type variables replaced. */
  function Substitute(t: TypeDesc, env: map<string, TypeDesc>): TypeDesc
    decreases t
  {
    match t
    case TypeVar(v) => if v in env then env[v] else t
    case ClassType(n, args) => ClassType(n, seq(|args|, i requires 0 <= i < |args| => Substitute(args[i], env)))
    case ArrayType(e) => ArrayType(Substitute(e, env))
    case MapType(k, v) => MapType(Substitute(k, env), Substitute(v, env))
    case OptionalType(i) => OptionalType(Substitute(i, env))
    case _ => t
  }

  /** The properties of a parameterization, in declaration order. */
  function SubstituteProperties(props: seq<Property>, env: map<string, TypeDesc>): (r: seq<Property>)
    ensures |r| == |props|
    ensures forall i :: 0 <= i < |props| ==> r[i] == props[i].(typ := Substitute(props[i].typ, env))
  {
    if |props| == 0 then []
    else [props[0].(typ := Substitute(props[0].typ, env))] + SubstituteProperties(props[1..], env)
  }

  /** The single property a collection's schema has: `items`, the collection itself. */
  function ItemsProperty(t: TypeDesc): Property {
    Property("items", t, Unspecified, false, false)
  }

  /** Classifies a normalized type. */
  function PlanFor(u: Universe, flags: Flags, t: TypeDesc): Plan {
    match t
    case Scalar(_, _) => Reject(PrimitiveRoot(t))
    case OptionalType(_) => Reject(UnsupportedOptional(t))
    case AnyType => Shared(AnySchema)
    case TypeVar(_) => Shared(AnySchema)
    case EnumType(n, constants) => Build(n, EnumRecipe(constants))
    case RawMap => Shared(MapSchema)
    case MapType(k, v) => MapPlan(flags, k, v)
    case ArrayType(_) => Build(SimpleName(t), BeanRecipe([ItemsProperty(t)]))
    case ClassType(n, args) =>
      if n !in u then Reject(UndeclaredClass(n))
      else match u[n]
        case MapSubclass(k, v) => MapPlan(flags, k, v)
        case Bean(params, props) =>
          Build(SimpleName(t), BeanRecipe(SubstituteProperties(props, Bindings(params, args))))
  }

  // ----- Laws of the classification -----

  /** The map decision table, one outcome at a time. Unless the opaque schema is forced or a
      type variable occurs: an error exactly for an unsupported key type without the ignore flag,
      and a typed schema exactly for a string-compatible key with an array value only under array
      support. The opaque map schema in every other case. */
  lemma MapDecisionTable(flags: Flags, k: TypeDesc, v: TypeDesc)
    ensures MapPlan(flags, k, v).Reject? <==>
      !flags.forceJsonMapSchema && !HasTypeVar(k) && !HasTypeVar(v) && !IsSupportedKey(k)
      && !flags.ignoreUnsupportedKeyTypes
    ensures MapPlan(flags, k, v).Reject? ==> MapPlan(flags, k, v).error == UnsupportedMapKey(k)
    ensures MapPlan(flags, k, v).Build? <==>
      !flags.forceJsonMapSchema && !HasTypeVar(k) && !HasTypeVar(v) && IsSupportedKey(k)
      && (!IsArrayValued(v) || flags.supportArrayValues)
    ensures MapPlan(flags, k, v).Build? ==>
      MapPlan(flags, k, v) == Build("Map_" + SimpleName(k) + "_" + SimpleName(v), MapRecipe(v))
    ensures MapPlan(flags, k, v).Shared? ==> MapPlan(flags, k, v).schema == MapSchema
  {
  }

  /** The ignore flag turns every map error into the opaque map schema and changes nothing else;
      the array-values flag turns the opaque schema of an array-valued map into a typed one and
      changes nothing else. */
  lemma MapFlagsOnlyRelax(flags: Flags, k: TypeDesc, v: TypeDesc)
    ensures var relaxed := flags.(ignoreUnsupportedKeyTypes := true);
      MapPlan(relaxed, k, v) == if MapPlan(flags, k, v).Reject? then Shared(MapSchema) else MapPlan(flags, k, v)
    ensures var arrays := flags.(supportArrayValues := true);
      MapPlan(arrays, k, v) != MapPlan(flags, k, v) ==>
        MapPlan(flags, k, v) == Shared(MapSchema) && MapPlan(arrays, k, v).Build? && IsArrayValued(v)
  {
  }

  /** Bound parameters map to their arguments, position by position. */
  lemma {:induction false} BindingsLookup(params: seq<string>, args: seq<TypeDesc>, i: int)
    requires |params| == |args| && 0 <= i < |params|
    requires forall a, b :: 0 <= a < b < |params| ==> params[a] != params[b]
    ensures params[i] in Bindings(params, args) && Bindings(params, args)[params[i]] == args[i]
    decreases |params|
  {
    if i > 0 {
      BindingsLookup(params[1..], args[1..], i - 1);
      assert params[1..][i - 1] == params[i];
      assert params[0] != params[i];
    }
  }

  /** Substitution leaves a type without type variables alone. */
  lemma {:induction false} SubstituteClosed(t: TypeDesc, env: map<string, TypeDesc>)
    requires !HasTypeVar(t)
    ensures Substitute(t, env) == t
    decreases t
  {
    match t
    case ClassType(n, args) =>
      forall i | 0 <= i < |args|
        ensures Substitute(args[i], env) == args[i]
      {
        SubstituteClosed(args[i], env);
      }
      assert seq(|args|, i requires 0 <= i < |args| => Substitute(args[i], env)) == args;
    case ArrayType(e) => SubstituteClosed(e, env);
    case MapType(k, v) =>
      SubstituteClosed(k, env);
      SubstituteClosed(v, env);
    case OptionalType(i) => SubstituteClosed(i, env);
    case _ =>
  }

  /** A single Optional of something with a schema of its own classifies as that thing. */
  lemma OptionalUnwrapsOnce(u: Universe, x: TypeDesc)
    ensures UnwrapOptional(u, OptionalType(x)).Success? <==>
      !x.OptionalType? && !x.ArrayType? && !x.AnyType? && !x.TypeVar? && !IsMapLike(u, x)
    ensures UnwrapOptional(u, OptionalType(x)).Success? ==> UnwrapOptional(u, x) == Success(x)
    ensures UnwrapOptional(u, OptionalType(x)).Failure? ==>
      UnwrapOptional(u, OptionalType(x)).error == UnsupportedOptional(OptionalType(x))
  {
  }
}
