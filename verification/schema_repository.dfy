/** `SchemaRepository`: schemas derived on demand, cached per API under their canonical names,
    with a placeholder entry guarding recursion through self-referencing types.

    The repository's state is a `Cache` passed in and returned. Derivation is a family of four
    mutually recursive functions: `Derive` (a type's schema, from the cache or built; a bean or
    a map first takes its slot with a placeholder), `FieldFor` (one field, deriving the schema it
    references) and `FieldsFor` (a bean's fields in property order); `FinishBean` and
    `FinishMap` store a finished build. */
module SchemaRepository {
  import opened Wrappers
  import opened SchemaTypes
  import opened SchemaPlan

  /** A cache slot: an API and a canonical schema name. */
  datatype Key = Key(api: ApiKey, name: string)

  /** A slot is `Pending` while the schema it names is being built. */
  datatype Entry = Pending | Done(schema: Schema)

  type Cache = map<Key, Entry>

  /** What derivation reads besides the cache: the declared classes, the flags, the API. */
  datatype Env = Env(u: Universe, flags: Flags, config: ApiConfig) {
    function Api(): ApiKey {
      config.apiKey
    }
  }

  const EmptyCache: Cache := map[]

  /** What a lookup of a slot under construction yields: a schema carrying only the name. */
  function Placeholder(name: string): Schema {
    Schema(name, "object", [], [], [], None)
  }

  // ----- Invariants of the cache -----

  /** A reference made from API `api` names one of the shared schemas or a slot of `api`. */
  predicate RefResolves(r: SchemaRef, api: ApiKey, keys: set<Key>) {
    r.api == api && (r.name in SentinelNames || Key(api, r.name) in keys)
  }

  predicate FieldResolves(f: Field, api: ApiKey, keys: set<Key>)
    decreases f
  {
    match f.kind
    case ScalarField(_) => true
    case EnumField(r) => RefResolves(r, api, keys)
    case ObjectField(r) => RefResolves(r, api, keys)
    case ArrayField(item) => FieldResolves(item, api, keys)
  }

  predicate SchemaResolves(s: Schema, api: ApiKey, keys: set<Key>) {
    && (forall i :: 0 <= i < |s.fields| ==> FieldResolves(s.fields[i], api, keys))
    && (s.mapValue.Some? ==> FieldResolves(s.mapValue.value, api, keys))
  }

  /** A finished entry is stored under its own name, has one shape, and refers only to slots of
      its own API (or to the shared schemas). */
  predicate EntrySound(k: Key, s: Schema, keys: set<Key>) {
    s.name == k.name && WellShaped(s) && SchemaResolves(s, k.api, keys)
  }

  ghost predicate Sound(c: Cache) {
    forall k :: k in c && c[k].Done? ==> EntrySound(k, c[k].schema, c.Keys)
  }

  /** Between two calls no slot is left under construction. */
  ghost predicate Valid(c: Cache) {
    Sound(c) && forall k :: k in c ==> c[k].Done?
  }

  /** What deriving for API `api` may do to a cache: add finished entries of `api`, and
      nothing else; existing entries, including placeholders, are never replaced. */
  ghost predicate Grows(api: ApiKey, c: Cache, c': Cache) {
    && (forall k :: k in c ==> k in c' && c'[k] == c[k])
    && (forall k :: k in c' && k !in c ==> k.api == api && c'[k].Done?)
  }

  lemma {:induction false} FieldResolvesGrows(f: Field, api: ApiKey, keys: set<Key>, keys': set<Key>)
    requires keys <= keys' && FieldResolves(f, api, keys)
    ensures FieldResolves(f, api, keys')
    decreases f
  {
    if f.kind.ArrayField? {
      FieldResolvesGrows(f.kind.item, api, keys, keys');
    }
  }

  lemma SchemaResolvesGrows(s: Schema, api: ApiKey, keys: set<Key>, keys': set<Key>)
    requires keys <= keys' && SchemaResolves(s, api, keys)
    ensures SchemaResolves(s, api, keys')
  {
    forall i | 0 <= i < |s.fields| {
      FieldResolvesGrows(s.fields[i], api, keys, keys');
    }
    if s.mapValue.Some? {
      FieldResolvesGrows(s.mapValue.value, api, keys, keys');
    }
  }

  /** Storing an entry keeps the cache sound when the entry itself is. */
  lemma StoreKeepsSound(c: Cache, key: Key, e: Entry)
    requires Sound(c)
    requires e.Done? ==> EntrySound(key, e.schema, c.Keys + {key})
    ensures Sound(c[key := e])
  {
    var c' := c[key := e];
    assert c'.Keys == c.Keys + {key};
    forall k | k in c' && c'[k].Done?
      ensures EntrySound(k, c'[k].schema, c'.Keys)
    {
      if k != key {
        SchemaResolvesGrows(c[k].schema, k.api, c.Keys, c'.Keys);
      }
    }
  }

  lemma EmptyCacheIsValid()
    ensures Valid(EmptyCache)
  {
  }

  // ----- Derivation -----

  /** The schema of a normalized type: a rejection, a shared schema, the cached schema (the
      placeholder while it is under construction), or a newly built one. */
  function Derive(env: Env, c: Cache, t: TypeDesc, fuel: nat): (r: Result<(Schema, Cache), Unsupported>)
    requires Sound(c)
    ensures r.Success? ==> Grows(env.Api(), c, r.value.1) && Sound(r.value.1)
    ensures r.Success? ==> WellShaped(r.value.0)
    ensures r.Success? ==> r.value.0.name in SentinelNames || Key(env.Api(), r.value.0.name) in r.value.1
    ensures PlanFor(env.u, env.flags, t).Reject? ==> r == Failure(PlanFor(env.u, env.flags, t).error)
    ensures PlanFor(env.u, env.flags, t).Shared? ==> r == Success((PlanFor(env.u, env.flags, t).schema, c))
    ensures PlanFor(env.u, env.flags, t).Build? && r.Success? ==>
      var key := Key(env.Api(), PlanFor(env.u, env.flags, t).name);
      && r.value.0.name == key.name
      && key in r.value.1
      && (r.value.1[key].Done? ==> r.value.1[key].schema == r.value.0)
      && (key in c ==> r.value.1 == c)
    ensures PlanFor(env.u, env.flags, t).Build? && Key(env.Api(), PlanFor(env.u, env.flags, t).name) in c ==>
      r.Success?
    decreases fuel, 2
  {
    match PlanFor(env.u, env.flags, t)
    case Reject(e) => Failure(e)
    case Shared(s) => Success((s, c))
    case Build(name, recipe) =>
      var key := Key(env.Api(), name);
      if key in c then
        match c[key]
        case Done(s) => Success((s, c))
        case Pending => Success((Placeholder(name), c))
      else
        match recipe
        case EnumRecipe(constants) => Success(BuildEnum(env, c, name, constants))
        case BeanRecipe(props) =>
          if fuel == 0 then Failure(DepthExhausted)
          else
            StoreKeepsSound(c, key, Pending);
            var built := FieldsFor(env, c[key := Pending], props, fuel - 1);
            FinishBeanKeepsSound(env, c, name, props, built);
            FinishBean(key, built)
        case MapRecipe(value) =>
          if fuel == 0 then Failure(DepthExhausted)
          else
            StoreKeepsSound(c, key, Pending);
            var built := FieldFor(env, c[key := Pending], MapValueName, value, None, fuel - 1);
            FinishMapKeepsSound(env, c, name, value, built);
            FinishMap(key, built)
  }

  /** Stores an enum's schema; an enum refers to nothing, so it needs neither fuel nor a
      placeholder. */
  function BuildEnum(env: Env, c: Cache, name: string, constants: seq<EnumConstant>): (r: (Schema, Cache))
    requires Sound(c) && Key(env.Api(), name) !in c
    ensures r.0 == EnumSchema(name, constants, env.flags)
    ensures Grows(env.Api(), c, r.1) && Sound(r.1)
    ensures r.1 == c[Key(env.Api(), name) := Done(r.0)]
  {
    var s := EnumSchema(name, constants, env.flags);
    StoreKeepsSound(c, Key(env.Api(), name), Done(s));
    (s, c[Key(env.Api(), name) := Done(s)])
  }

  /** Stores a bean's schema once its fields are derived, or passes on why they could not be. */
  function FinishBean(key: Key, built: Result<(seq<Field>, Cache), Unsupported>): (r: Result<(Schema, Cache), Unsupported>)
    ensures r.Success? <==> built.Success?
    ensures r.Failure? ==> r.error == built.error
    ensures r.Success? ==> r.value.0 == Schema(key.name, "object", built.value.0, [], [], None)
    ensures r.Success? ==> r.value.1 == built.value.1[key := Done(r.value.0)]
  {
    match built
    case Failure(e) => Failure(e)
    case Success((fs, c')) =>
      var s := Schema(key.name, "object", fs, [], [], None);
      Success((s, c'[key := Done(s)]))
  }

  /** Stores a map's schema, one map-value field in place of fields, once the value field is
      derived, or passes on why it could not be. */
  function FinishMap(key: Key, built: Result<(Field, Cache), Unsupported>): (r: Result<(Schema, Cache), Unsupported>)
    ensures r.Success? <==> built.Success?
    ensures r.Failure? ==> r.error == built.error
    ensures r.Success? ==> r.value.0 == Schema(key.name, "object", [], [], [], Some(built.value.0))
    ensures r.Success? ==> r.value.1 == built.value.1[key := Done(r.value.0)]
  {
    match built
    case Failure(e) => Failure(e)
    case Success((f, c')) =>
      var s := Schema(key.name, "object", [], [], [], Some(f));
      Success((s, c'[key := Done(s)]))
  }

  /** Storing a bean over its placeholder keeps the cache sound and grows it only for the API. */
  lemma FinishBeanKeepsSound(env: Env, c: Cache, name: string, props: seq<Property>, built: Result<(seq<Field>, Cache), Unsupported>)
    requires Sound(c) && Key(env.Api(), name) !in c
    requires built.Success? ==>
      var (fs, c') := built.value;
      && Grows(env.Api(), c[Key(env.Api(), name) := Pending], c') && Sound(c')
      && |fs| == |props|
      && forall i :: 0 <= i < |props| ==>
        PropertyField(env, fs[i], props[i]) && FieldResolves(fs[i], env.Api(), c'.Keys)
    ensures var r := FinishBean(Key(env.Api(), name), built);
      r.Success? ==>
        var (s, c') := r.value;
        && Grows(env.Api(), c, c') && Sound(c') && WellShaped(s)
        && Key(env.Api(), name) in c' && c'[Key(env.Api(), name)] == Done(s)
  {
    if built.Success? {
      var key := Key(env.Api(), name);
      var (fs, c') := built.value;
      var s := Schema(name, "object", fs, [], [], None);
      assert key in c';
      assert c'.Keys + {key} == c'.Keys;
      StoreKeepsSound(c', key, Done(s));
    }
  }

  /** Storing a map over its placeholder keeps the cache sound and grows it only for the API. */
  lemma FinishMapKeepsSound(env: Env, c: Cache, name: string, value: TypeDesc, built: Result<(Field, Cache), Unsupported>)
    requires Sound(c) && Key(env.Api(), name) !in c
    requires built.Success? ==>
      var (f, c') := built.value;
      && Grows(env.Api(), c[Key(env.Api(), name) := Pending], c') && Sound(c')
      && FieldResolves(f, env.Api(), c'.Keys)
    ensures var r := FinishMap(Key(env.Api(), name), built);
      r.Success? ==>
        var (s, c') := r.value;
        && Grows(env.Api(), c, c') && Sound(c') && WellShaped(s)
        && Key(env.Api(), name) in c' && c'[Key(env.Api(), name)] == Done(s)
  {
    if built.Success? {
      var key := Key(env.Api(), name);
      var (f, c') := built.value;
      var s := Schema(name, "object", [], [], [], Some(f));
      assert key in c';
      assert c'.Keys + {key} == c'.Keys;
      StoreKeepsSound(c', key, Done(s));
    }
  }

  /** How a field's kind follows from its normalized type (`FieldType.fromType`): a scalar is
      inline, an enum refers to the enum's schema, an array or collection describes its items in
      a nested field, and anything else refers to an object schema of the same API. */
  predicate KindFits(env: Env, k: FieldKind, n: TypeDesc)
    decreases k
  {
    match n
    case Scalar(s, _) => k == ScalarField(s)
    case EnumType(e, _) => k == EnumField(SchemaRef(env.Api(), e))
    case ArrayType(e) =>
      k.ArrayField? && k.item.name == ArrayItemName && k.item.required.None? && Describes(env, k.item, e)
    case _ => k.ObjectField? && k.objectRef.api == env.Api()
  }

  /** `f` describes values of type `t`: the type normalizes, and `f` has the kind it calls for,
      down to the items of nested arrays. */
  predicate Describes(env: Env, f: Field, t: TypeDesc)
    decreases f
  {
    Normalize(env.u, env.config, t).Success? && KindFits(env, f.kind, Normalize(env.u, env.config, t).value)
  }

  /** `f` is the field of property `p`: its name, its tri-state `required`, its kind. */
  predicate PropertyField(env: Env, f: Field, p: Property) {
    f.name == p.name && f.required == RequiredOf(p) && Describes(env, f, p.typ)
  }

  /** The field named `name` describing a value of type `t`. */
  function FieldFor(env: Env, c: Cache, name: string, t: TypeDesc, required: Option<bool>, fuel: nat): (r: Result<(Field, Cache), Unsupported>)
    requires Sound(c)
    ensures r.Success? ==>
      var (f, c') := r.value;
      && Grows(env.Api(), c, c') && Sound(c')
      && f.name == name && f.required == required
      && FieldResolves(f, env.Api(), c'.Keys)
      && Describes(env, f, t)
    ensures Normalize(env.u, env.config, t).Failure? ==> r == Failure(Normalize(env.u, env.config, t).error)
    decreases fuel, 3
  {
    var n :- Normalize(env.u, env.config, t);
    if n.Scalar? then Success((Field(name, ScalarField(n.kind), required), c))
    else if n.ArrayType? then
      if fuel == 0 then Failure(DepthExhausted)
      else
        var item :- FieldFor(env, c, ArrayItemName, n.element, None, fuel - 1);
        Success((Field(name, ArrayField(item.0), required), item.1))
    else
      var d :- Derive(env, c, n, fuel);
      var ref := SchemaRef(env.Api(), d.0.name);
      Success((Field(name, if n.EnumType? then EnumField(ref) else ObjectField(ref), required), d.1))
  }

  /** A bean's fields, one per property and in property order, each with the property's
      tri-state `required`. */
  function FieldsFor(env: Env, c: Cache, props: seq<Property>, fuel: nat): (r: Result<(seq<Field>, Cache), Unsupported>)
    requires Sound(c)
    ensures r.Success? ==>
      var (fs, c') := r.value;
      && Grows(env.Api(), c, c') && Sound(c')
      && |fs| == |props|
      && forall i :: 0 <= i < |props| ==>
        PropertyField(env, fs[i], props[i]) && FieldResolves(fs[i], env.Api(), c'.Keys)
    decreases fuel, 4, |props|
  {
    if |props| == 0 then Success(([], c))
    else
      var first :- FieldFor(env, c, props[0].name, props[0].typ, RequiredOf(props[0]), fuel);
      var rest :- FieldsFor(env, first.1, props[1..], fuel);
      FieldResolvesGrows(first.0, env.Api(), first.1.Keys, rest.1.Keys);
      Success(([first.0] + rest.0, rest.1))
  }

  // ----- The repository's operations -----

  /** `getOrAdd`: the schema of `t` in the environment's API, deriving and storing it (and the
      schemas it references) when absent. */
  function GetOrAdd(env: Env, c: Cache, t: TypeDesc, fuel: nat): (r: Result<(Schema, Cache), Unsupported>)
    requires Valid(c)
    ensures r.Success? ==> Grows(env.Api(), c, r.value.1) && Valid(r.value.1) && WellShaped(r.value.0)
    ensures Normalize(env.u, env.config, t).Failure? ==> r == Failure(Normalize(env.u, env.config, t).error)
  {
    var n :- Normalize(env.u, env.config, t);
    Derive(env, c, n, fuel)
  }

  /** `get`: the stored schema of `t` in the environment's API, without deriving anything. */
  function Get(env: Env, c: Cache, t: TypeDesc): (r: Option<Schema>)
    requires Sound(c)
    ensures r.Some? ==> Key(env.Api(), r.value.name) in c && c[Key(env.Api(), r.value.name)] == Done(r.value)
  {
    match Normalize(env.u, env.config, t)
    case Failure(_) => None
    case Success(n) =>
      match PlanFor(env.u, env.flags, n)
      case Build(name, _) =>
        var key := Key(env.Api(), name);
        if key in c && c[key].Done? then Some(c[key].schema) else None
      case _ => None
  }

  /** `getAllSchemaForApi`: every finished schema stored for `api`. */
  function AllSchemasFor(c: Cache, api: ApiKey): (r: set<Schema>)
    ensures forall s :: s in r <==> exists k :: k in c && k.api == api && c[k] == Done(s)
  {
    set k | k in c && k.api == api && c[k].Done? :: c[k].schema
  }
}
