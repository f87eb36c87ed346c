/** What the repository promises across calls: a second `getOrAdd` is a cache hit, `get` finds
    what `getOrAdd` stored and nothing before, other APIs are untouched, an Optional and a
    transformer's source type derive as what they stand for, and a bean's schema has one field
    per property. */
module RepositoryLaws {
  import opened Wrappers
  import opened SchemaTypes
  import opened SchemaPlan
  import opened SchemaRepository

  /** Deriving a type again returns the same schema and leaves the cache as it is, whatever the
      fuel: the second call is a cache hit or a shared schema. */
  lemma GetOrAddIdempotent(env: Env, c: Cache, t: TypeDesc, fuel: nat, fuel': nat)
    requires Valid(c) && GetOrAdd(env, c, t, fuel).Success?
    ensures var (s, c') := GetOrAdd(env, c, t, fuel).value;
      GetOrAdd(env, c', t, fuel') == Success((s, c'))
  {
    var (s, c') := GetOrAdd(env, c, t, fuel).value;
    var n := Normalize(env.u, env.config, t).value;
    assert Derive(env, c, n, fuel) == Success((s, c'));
    var plan := PlanFor(env.u, env.flags, n);
    if plan.Build? {
      var key := Key(env.Api(), plan.name);
      assert c'[key].Done?;
    }
  }

  /** Deriving a type that is already stored changes nothing. */
  lemma GetOrAddOfStoredTypeKeepsCache(env: Env, c: Cache, t: TypeDesc, fuel: nat)
    requires Valid(c) && Get(env, c, t).Some?
    ensures GetOrAdd(env, c, t, fuel) == Success((Get(env, c, t).value, c))
  {
  }

  /** After a successful `getOrAdd` of a type with a named schema, `get` returns that schema. */
  lemma GetFindsWhatGetOrAddStored(env: Env, c: Cache, t: TypeDesc, fuel: nat)
    requires Valid(c) && GetOrAdd(env, c, t, fuel).Success?
    requires PlanFor(env.u, env.flags, Normalize(env.u, env.config, t).value).Build?
    ensures var (s, c') := GetOrAdd(env, c, t, fuel).value;
      Get(env, c', t) == Some(s) && s in AllSchemasFor(c', env.Api())
  {
    var (s, c') := GetOrAdd(env, c, t, fuel).value;
    var n := Normalize(env.u, env.config, t).value;
    var key := Key(env.Api(), PlanFor(env.u, env.flags, n).name);
    assert Derive(env, c, n, fuel) == Success((s, c'));
    assert c'[key].Done?;
  }

  /** `get` never derives: for an API with nothing stored it finds nothing. */
  lemma GetOfUnusedApiIsAbsent(env: Env, c: Cache, t: TypeDesc)
    requires Sound(c)
    requires forall k :: k in c ==> k.api != env.Api()
    ensures Get(env, c, t) == None
  {
  }

  /** Deriving for one API leaves every other API's schemas exactly as they were. */
  lemma GetOrAddLeavesOtherApis(env: Env, c: Cache, t: TypeDesc, fuel: nat, other: ApiKey)
    requires Valid(c) && GetOrAdd(env, c, t, fuel).Success? && other != env.Api()
    ensures AllSchemasFor(GetOrAdd(env, c, t, fuel).value.1, other) == AllSchemasFor(c, other)
  {
    var c' := GetOrAdd(env, c, t, fuel).value.1;
    forall s
      ensures s in AllSchemasFor(c', other) <==> s in AllSchemasFor(c, other)
    {
      if s in AllSchemasFor(c', other) {
        var k :| k in c' && k.api == other && c'[k] == Done(s);
        assert k in c;
      }
      if s in AllSchemasFor(c, other) {
        var k :| k in c && k.api == other && c[k] == Done(s);
        assert k in c';
      }
    }
  }

  /** Everything stored for an API refers only to schemas stored for that API or shared. */
  lemma StoredReferencesResolve(c: Cache, api: ApiKey, s: Schema)
    requires Valid(c) && s in AllSchemasFor(c, api)
    ensures WellShaped(s) && SchemaResolves(s, api, c.Keys)
  {
    var k :| k in c && k.api == api && c[k] == Done(s);
  }

  /** An Optional of a scalar, an enum or a bean derives exactly as the type it wraps. */
  lemma OptionalDerivesAsInner(env: Env, c: Cache, x: TypeDesc, fuel: nat)
    requires Valid(c) && UnwrapOptional(env.u, OptionalType(x)).Success?
    ensures GetOrAdd(env, c, OptionalType(x), fuel) == GetOrAdd(env, c, x, fuel)
  {
    OptionalUnwrapsOnce(env.u, x);
  }

  /** An Optional of a collection, a map, an unconstrained type or another Optional is an error,
      and the error names the Optional. */
  lemma OptionalOfContainerIsRejected(env: Env, c: Cache, x: TypeDesc, fuel: nat)
    requires Valid(c)
    requires x.OptionalType? || x.ArrayType? || x.AnyType? || x.TypeVar? || IsMapLike(env.u, x)
    ensures GetOrAdd(env, c, OptionalType(x), fuel) == Failure(UnsupportedOptional(OptionalType(x)))
  {
    OptionalUnwrapsOnce(env.u, x);
  }

  /** A scalar has no schema of its own: `getOrAdd` of one is an error. */
  lemma ScalarRootIsRejected(env: Env, c: Cache, k: ScalarKind, name: string, fuel: nat)
    requires Valid(c) && Scalar(k, name) !in env.config.transformers
    ensures GetOrAdd(env, c, Scalar(k, name), fuel) == Failure(PrimitiveRoot(Scalar(k, name)))
  {
  }

  /** A type with a transformer derives as the transformer's target type (when the target is
      itself neither an Optional nor transformed again). */
  lemma TransformedTypeDerivesAsTarget(env: Env, c: Cache, t: TypeDesc, fuel: nat)
    requires Valid(c) && !t.OptionalType? && t in env.config.transformers
    requires !env.config.transformers[t].OptionalType?
    requires env.config.transformers[t] !in env.config.transformers
    ensures GetOrAdd(env, c, t, fuel) == GetOrAdd(env, c, env.config.transformers[t], fuel)
  {
  }

  /** A newly derived bean has one field per property of its parameterization, in property order,
      each named after its property, with the property's tri-state `required`, and with the kind
      its (substituted) type calls for. */
  lemma BeanSchemaFollowsProperties(env: Env, c: Cache, name: string, args: seq<TypeDesc>, fuel: nat)
    requires Valid(c)
    requires name in env.u && env.u[name].Bean?
    requires ClassType(name, args) !in env.config.transformers
    requires Key(env.Api(), SimpleName(ClassType(name, args))) !in c
    requires GetOrAdd(env, c, ClassType(name, args), fuel).Success?
    ensures var s := GetOrAdd(env, c, ClassType(name, args), fuel).value.0;
      var decl := env.u[name];
      var props := SubstituteProperties(decl.properties, Bindings(decl.typeParams, args));
      && s.name == SimpleName(ClassType(name, args)) && s.typ == "object"
      && |s.fields| == |props|
      && forall i :: 0 <= i < |props| ==> PropertyField(env, s.fields[i], props[i])
  {
  }

  // ----- One step of derivation -----

  /** A type classified as a shared schema or as an error never touches the cache. */
  lemma GetOrAddOfUnnamedType(env: Env, c: Cache, t: TypeDesc, n: TypeDesc, fuel: nat)
    requires Valid(c) && Normalize(env.u, env.config, t) == Success(n)
    ensures PlanFor(env.u, env.flags, n).Shared? ==>
      GetOrAdd(env, c, t, fuel) == Success((PlanFor(env.u, env.flags, n).schema, c))
    ensures PlanFor(env.u, env.flags, n).Reject? ==>
      GetOrAdd(env, c, t, fuel) == Failure(PlanFor(env.u, env.flags, n).error)
  {
  }

  /** A bean that is not stored yet takes its slot with a placeholder, then its fields are
      derived against that cache, so that a reference back to the bean finds the placeholder
      instead of deriving the bean again. */
  lemma DeriveBeanUnfold(env: Env, c: Cache, t: TypeDesc, key: Key, props: seq<Property>, fuel: nat)
    requires Sound(c)
    requires PlanFor(env.u, env.flags, t) == Build(key.name, BeanRecipe(props))
    requires key == Key(env.Api(), key.name) && key !in c
    ensures Sound(c[key := Pending])
    ensures Derive(env, c, t, fuel + 1) == FinishBean(key, FieldsFor(env, c[key := Pending], props, fuel))
  {
    StoreKeepsSound(c, key, Pending);
  }

  /** An enum that is not stored yet is built at once and stored, whatever the fuel. */
  lemma DeriveEnum(env: Env, c: Cache, t: TypeDesc, key: Key, constants: seq<EnumConstant>, fuel: nat)
    requires Sound(c)
    requires PlanFor(env.u, env.flags, t) == Build(key.name, EnumRecipe(constants))
    requires key == Key(env.Api(), key.name) && key !in c
    ensures var s := EnumSchema(key.name, constants, env.flags);
      Derive(env, c, t, fuel) == Success((s, c[key := Done(s)]))
  {
  }

  /** A typed map that is not stored yet takes its slot with a placeholder, then its value field
      is derived against that cache. */
  lemma DeriveMapUnfold(env: Env, c: Cache, t: TypeDesc, key: Key, value: TypeDesc, fuel: nat)
    requires Sound(c)
    requires PlanFor(env.u, env.flags, t) == Build(key.name, MapRecipe(value))
    requires key == Key(env.Api(), key.name) && key !in c
    ensures Sound(c[key := Pending])
    ensures Derive(env, c, t, fuel + 1) == FinishMap(key, FieldFor(env, c[key := Pending], MapValueName, value, None, fuel))
  {
    StoreKeepsSound(c, key, Pending);
  }

  /** A scalar field is inline: it refers to nothing and adds nothing to the cache. */
  lemma ScalarFieldIsInline(env: Env, c: Cache, name: string, k: ScalarKind, simpleName: string, required: Option<bool>, fuel: nat)
    requires Sound(c) && Scalar(k, simpleName) !in env.config.transformers
    ensures FieldFor(env, c, name, Scalar(k, simpleName), required, fuel) == Success((Field(name, ScalarField(k), required), c))
  {
  }

  /** An array of scalars is an array field whose item field is the scalar, unnamed and without
      `required`; it adds nothing to the cache. */
  lemma ScalarArrayFieldIsInline(env: Env, c: Cache, name: string, k: ScalarKind, simpleName: string, required: Option<bool>, fuel: nat)
    requires Sound(c)
    requires Scalar(k, simpleName) !in env.config.transformers
    requires ArrayType(Scalar(k, simpleName)) !in env.config.transformers
    ensures FieldFor(env, c, name, ArrayType(Scalar(k, simpleName)), required, fuel + 1)
      == Success((Field(name, ArrayField(Field(ArrayItemName, ScalarField(k), None)), required), c))
  {
    ScalarFieldIsInline(env, c, ArrayItemName, k, simpleName, None, fuel);
  }

  /** An array field wraps the field of its element type: that field is named `ArrayItemName`,
      has no `required`, and is derived one level deeper in the same cache; when it cannot be
      derived, neither can the array field. */
  lemma ArrayFieldWrapsItem(env: Env, c: Cache, name: string, t: TypeDesc, e: TypeDesc, required: Option<bool>, fuel: nat)
    requires Sound(c) && Normalize(env.u, env.config, t) == Success(ArrayType(e))
    ensures var item := FieldFor(env, c, ArrayItemName, e, None, fuel);
      FieldFor(env, c, name, t, required, fuel + 1) ==
        if item.Success? then Success((Field(name, ArrayField(item.value.0), required), item.value.1))
        else Failure(item.error)
  {
  }

  /** An enum field refers to the enum's schema in the same API, and stores that schema when it
      is not stored yet. */
  lemma EnumFieldRefersToEnum(env: Env, c: Cache, name: string, n: string, constants: seq<EnumConstant>, required: Option<bool>, fuel: nat)
    requires Sound(c) && EnumType(n, constants) !in env.config.transformers
    ensures FieldFor(env, c, name, EnumType(n, constants), required, fuel).Success?
    ensures var (f, c') := FieldFor(env, c, name, EnumType(n, constants), required, fuel).value;
      && f == Field(name, EnumField(SchemaRef(env.Api(), n)), required)
      && c' == if Key(env.Api(), n) in c then c else c[Key(env.Api(), n) := Done(EnumSchema(n, constants, env.flags))]
  {
  }

  /** A field of a bean or map type refers, by name, to the schema derived for that type; it
      exists exactly when that schema does. */
  lemma ObjectFieldRefersToSchema(env: Env, c: Cache, name: string, t: TypeDesc, required: Option<bool>, fuel: nat)
    requires Sound(c) && Normalize(env.u, env.config, t).Success?
    requires var n := Normalize(env.u, env.config, t).value; !n.Scalar? && !n.ArrayType? && !n.EnumType?
    ensures var n := Normalize(env.u, env.config, t).value;
      FieldFor(env, c, name, t, required, fuel).Success? <==> Derive(env, c, n, fuel).Success?
    ensures var n := Normalize(env.u, env.config, t).value;
      Derive(env, c, n, fuel).Success? ==>
        var (s, c') := Derive(env, c, n, fuel).value;
        FieldFor(env, c, name, t, required, fuel) == Success((Field(name, ObjectField(SchemaRef(env.Api(), s.name)), required), c'))
  {
  }

  /** Prepending a property whose field derives prepends that field. */
  lemma FieldsForCons(env: Env, c: Cache, p: Property, rest: seq<Property>, fuel: nat, f: Field, c1: Cache)
    requires Sound(c)
    requires FieldFor(env, c, p.name, p.typ, RequiredOf(p), fuel) == Success((f, c1))
    ensures FieldsFor(env, c, [p] + rest, fuel) ==
      match FieldsFor(env, c1, rest, fuel)
      case Success((fs, c2)) => Success(([f] + fs, c2))
      case Failure(e) => Failure(e)
  {
    assert ([p] + rest)[0] == p;
    assert ([p] + rest)[1..] == rest;
  }

  /** A single property's field is the bean's only field. */
  lemma FieldsForOne(env: Env, c: Cache, p: Property, fuel: nat, f: Field, c1: Cache)
    requires Sound(c)
    requires FieldFor(env, c, p.name, p.typ, RequiredOf(p), fuel) == Success((f, c1))
    ensures FieldsFor(env, c, [p], fuel) == Success(([f], c1))
  {
    FieldsForCons(env, c, p, [], fuel, f, c1);
    assert [p] + [] == [p];
    assert [f] + [] == [f];
  }

  /** Two properties' fields, each derived in the cache the one before left. */
  lemma FieldsForTwo(env: Env, c: Cache, p: Property, q: Property, fuel: nat, f: Field, g: Field, c1: Cache, c2: Cache)
    requires Sound(c)
    requires FieldFor(env, c, p.name, p.typ, RequiredOf(p), fuel) == Success((f, c1))
    requires FieldFor(env, c1, q.name, q.typ, RequiredOf(q), fuel) == Success((g, c2))
    ensures FieldsFor(env, c, [p, q], fuel) == Success(([f, g], c2))
  {
    FieldsForOne(env, c1, q, fuel, g, c2);
    FieldsForCons(env, c, p, [q], fuel, f, c1);
    assert [p] + [q] == [p, q];
    assert [f] + [g] == [f, g];
  }

  /** Three properties' fields, each derived in the cache the one before left. */
  lemma FieldsForThree(env: Env, c: Cache, p: Property, q: Property, r: Property, fuel: nat,
                       f: Field, g: Field, h: Field, c1: Cache, c2: Cache, c3: Cache)
    requires Sound(c)
    requires FieldFor(env, c, p.name, p.typ, RequiredOf(p), fuel) == Success((f, c1))
    requires FieldFor(env, c1, q.name, q.typ, RequiredOf(q), fuel) == Success((g, c2))
    requires FieldFor(env, c2, r.name, r.typ, RequiredOf(r), fuel) == Success((h, c3))
    ensures FieldsFor(env, c, [p, q, r], fuel) == Success(([f, g, h], c3))
  {
    FieldsForTwo(env, c1, q, r, fuel, g, h, c2, c3);
    FieldsForCons(env, c, p, [q, r], fuel, f, c1);
    assert [p] + [q, r] == [p, q, r];
    assert [f] + [g, h] == [f, g, h];
  }

  /** Untransformed scalar properties. */
  predicate AllInlineScalars(env: Env, props: seq<Property>) {
    forall i :: 0 <= i < |props| ==> props[i].typ.Scalar? && props[i].typ !in env.config.transformers
  }

  /** The field of a scalar property. */
  function InlineField(p: Property): Field
    requires p.typ.Scalar?
  {
    Field(p.name, ScalarField(p.typ.kind), RequiredOf(p))
  }

  /** A bean whose properties are all untransformed scalars gets one inline field per property,
      with the property's name and tri-state `required`, and leaves the cache as it is. */
  lemma {:induction false} InlineScalarFields(env: Env, c: Cache, props: seq<Property>, fuel: nat)
    requires Sound(c) && AllInlineScalars(env, props)
    ensures FieldsFor(env, c, props, fuel).Success?
    ensures FieldsFor(env, c, props, fuel).value.1 == c
    ensures var fs := FieldsFor(env, c, props, fuel).value.0;
      |fs| == |props| && forall i :: 0 <= i < |props| ==> fs[i] == InlineField(props[i])
    decreases |props|
  {
    if |props| > 0 {
      var p := props[0];
      ScalarFieldIsInline(env, c, p.name, p.typ.kind, p.typ.simpleName, RequiredOf(p), fuel);
      assert AllInlineScalars(env, props[1..]) by {
        forall i | 0 <= i < |props[1..]| ensures props[1..][i] == props[i + 1] { }
      }
      InlineScalarFields(env, c, props[1..], fuel);
      assert [p] + props[1..] == props;
      FieldsForCons(env, c, p, props[1..], fuel, InlineField(p), c);
    }
  }
}
