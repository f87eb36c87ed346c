/** The schema repository's test fixtures as type descriptors, and the schemas the repository
    derives for them: enums with and without Jackson wire names, the map decision table on
    concrete maps, the rejected roots and Optionals, generic beans, collections, a transformer,
    a self-referencing bean, the `required` markers, `get` and two APIs sharing a type. */
module SchemaScenarios {
  import opened Wrappers
  import opened SchemaTypes
  import opened SchemaPlan
  import opened SchemaRepository
  import opened RepositoryLaws

  // ----- Fixtures -----

  const IntegerT: TypeDesc := Scalar(Int32, "Integer")
  const ShortT: TypeDesc := Scalar(Int32, "Short")
  const StringT: TypeDesc := Scalar(String, "String")

  /** `TestEnum`: `VALUE1`, and `VALUE2` serialized as `value_2`. */
  const TestEnumT: TypeDesc :=
    EnumType("TestEnum", [EnumConstant("VALUE1", None, None), EnumConstant("VALUE2", Some("value_2"), None)])

  function Parameterized(arg: TypeDesc): TypeDesc {
    ClassType("Parameterized", [arg])
  }

  function CollectionResponse(arg: TypeDesc): TypeDesc {
    ClassType("CollectionResponse", [arg])
  }

  const SelfReferencingT: TypeDesc := ClassType("SelfReferencingObject", [])
  const RequiredPropertiesT: TypeDesc := ClassType("RequiredProperties", [])
  const EnumValueT: TypeDesc := ClassType("EnumValue", [])
  const MyMapT: TypeDesc := ClassType("MyMap", [])
  const MySubMapT: TypeDesc := ClassType("MySubMap", [])

  function Plain(name: string, t: TypeDesc): Property {
    Property(name, t, Unspecified, false, false)
  }

  /** `RequiredProperties`: every combination of the `required` markers, on string properties. */
  const RequiredPropertiesList: seq<Property> := [
    Plain("undefined", StringT),
    Plain("apiResourceProperty_undefined", StringT),
    Property("apiResourceProperty_required", StringT, True, false, false),
    Property("apiResourceProperty_not_required", StringT, False, false, false),
    Property("nullable", StringT, Unspecified, false, true),
    Property("nonnull", StringT, Unspecified, true, false),
    Property("priority1", StringT, True, false, true),
    Property("priority2", StringT, Unspecified, true, true),
    Property("priority3", StringT, False, true, false)
  ]

  const Classes: Universe := map[
    "Parameterized" := Bean(["T"], [
      Plain("foo", TypeVar("T")),
      Plain("next", Parameterized(TypeVar("T"))),
      Plain("testEnum", TestEnumT)]),
    "CollectionResponse" := Bean(["T"], [
      Plain("items", ArrayType(TypeVar("T"))),
      Plain("nextPageToken", StringT)]),
    "MyMap" := MapSubclass(StringT, StringT),
    "MySubMap" := MapSubclass(StringT, StringT),
    "SelfReferencingObject" := Bean([], [Plain("foo", SelfReferencingT)]),
    "RequiredProperties" := Bean([], RequiredPropertiesList),
    "EnumValue" := Bean([], [Plain("value", TestEnumT)])
  ]

  /** The API under test, with its transformer of `Parameterized<Short>` to `Parameterized<String>`. */
  const FooApi: ApiConfig :=
    ApiConfig("foo:v1", map[Parameterized(ShortT) := Parameterized(StringT)])

  /** A second API with no transformers. */
  const EnumApi: ApiConfig := ApiConfig("enum:v1", map[])

  function FooEnv(flags: Flags): Env {
    Env(Classes, flags, FooApi)
  }

  const Foo: Env := FooEnv(DefaultFlags)

  // ----- Expected schemas -----

  function TestEnumSchema(values: seq<string>): Schema {
    Schema("TestEnum", "string", [], values, ["", ""], None)
  }

  function StringField(name: string, required: Option<bool>): Field {
    Field(name, ScalarField(String), required)
  }

  // ----- Enums -----

  /** The values of `TestEnum`: the wire name `value_2` when Jackson annotations are honoured. */
  function TestEnumValues(flags: Flags): seq<string> {
    if flags.useJacksonAnnotations then ["VALUE1", "value_2"] else ["VALUE1", "VALUE2"]
  }

  /** `TestEnum`'s schema: its two values, both undocumented. */
  lemma TestEnumSchemaIs(flags: Flags)
    ensures EnumSchema("TestEnum", TestEnumT.constants, flags) == TestEnumSchema(TestEnumValues(flags))
  {
    var s := EnumSchema("TestEnum", TestEnumT.constants, flags);
    assert s.enumValues == TestEnumValues(flags);
    assert s.enumDescriptions == ["", ""];
  }

  /** An enum's schema lists its wire names: `value_2` for the renamed constant. An enum needs
      no fuel, so this holds for every fuel. */
  lemma EnumSchemaUsesWireNames(fuel: nat)
    ensures GetOrAdd(Foo, EmptyCache, TestEnumT, fuel).Success?
    ensures GetOrAdd(Foo, EmptyCache, TestEnumT, fuel).value.0 == TestEnumSchema(["VALUE1", "value_2"])
  {
    EmptyCacheIsValid();
    DeriveEnum(Foo, EmptyCache, TestEnumT, Key("foo:v1", "TestEnum"), TestEnumT.constants, fuel);
    TestEnumSchemaIs(DefaultFlags);
  }

  /** With Jackson annotations switched off the constants' own names are listed. */
  lemma EnumSchemaWithoutJackson(fuel: nat)
    ensures var env := FooEnv(DefaultFlags.(useJacksonAnnotations := false));
      && GetOrAdd(env, EmptyCache, TestEnumT, fuel).Success?
      && GetOrAdd(env, EmptyCache, TestEnumT, fuel).value.0 == TestEnumSchema(["VALUE1", "VALUE2"])
  {
    var env := FooEnv(DefaultFlags.(useJacksonAnnotations := false));
    EmptyCacheIsValid();
    DeriveEnum(env, EmptyCache, TestEnumT, Key("foo:v1", "TestEnum"), TestEnumT.constants, fuel);
    TestEnumSchemaIs(env.flags);
  }

  /** `Optional<TestEnum>` has the enum's schema. */
  lemma OptionalEnumIsEnum(fuel: nat)
    ensures GetOrAdd(Foo, EmptyCache, OptionalType(TestEnumT), fuel).Success?
    ensures GetOrAdd(Foo, EmptyCache, OptionalType(TestEnumT), fuel).value.0 == TestEnumSchema(["VALUE1", "value_2"])
  {
    EmptyCacheIsValid();
    OptionalDerivesAsInner(Foo, EmptyCache, TestEnumT, fuel);
    EnumSchemaUsesWireNames(fuel);
  }

  /** A field of `TestEnum` values must list enum references as its items: an array of
      booleans does not describe it. */
  lemma BooleanItemsDoNotDescribeEnumArray()
    ensures !Describes(Foo, Field("xs", ArrayField(Field(ArrayItemName, ScalarField(Boolean), None)), None), ArrayType(TestEnumT))
    ensures Describes(Foo, Field("xs", ArrayField(Field(ArrayItemName, EnumField(SchemaRef("foo:v1", "TestEnum")), None)), None), ArrayType(TestEnumT))
  {
  }

  // ----- Rejected roots -----

  /** `int` has no schema of its own. */
  lemma PrimitiveRootIsRejected(fuel: nat)
    ensures GetOrAdd(Foo, EmptyCache, Scalar(Int32, "int"), fuel) == Failure(PrimitiveRoot(Scalar(Int32, "int")))
  {
    EmptyCacheIsValid();
    ScalarRootIsRejected(Foo, EmptyCache, Int32, "int", fuel);
  }

  /** `Optional<List<String>>`, `Optional<Map<String, String>>`, `Optional<Object>` and
      `Optional<Optional<String>>` are rejected. */
  lemma OptionalContainersAreRejected(fuel: nat)
    ensures GetOrAdd(Foo, EmptyCache, OptionalType(ArrayType(StringT)), fuel).Failure?
    ensures GetOrAdd(Foo, EmptyCache, OptionalType(MapType(StringT, StringT)), fuel).Failure?
    ensures GetOrAdd(Foo, EmptyCache, OptionalType(AnyType), fuel).Failure?
    ensures GetOrAdd(Foo, EmptyCache, OptionalType(OptionalType(StringT)), fuel).Failure?
  {
    EmptyCacheIsValid();
    OptionalOfContainerIsRejected(Foo, EmptyCache, ArrayType(StringT), fuel);
    OptionalOfContainerIsRejected(Foo, EmptyCache, MapType(StringT, StringT), fuel);
    OptionalOfContainerIsRejected(Foo, EmptyCache, AnyType, fuel);
    OptionalOfContainerIsRejected(Foo, EmptyCache, OptionalType(StringT), fuel);
  }

  /** `Object` has the shared schema of unconstrained types. */
  lemma ObjectIsAny(fuel: nat)
    ensures GetOrAdd(Foo, EmptyCache, AnyType, fuel) == Success((AnySchema, EmptyCache))
  {
    EmptyCacheIsValid();
  }

  // ----- Maps -----

  const StringEnumMapT: TypeDesc := MapType(StringT, TestEnumT)
  const StringArrayMapT: TypeDesc := MapType(StringT, ArrayType(StringT))
  const ArrayStringMapT: TypeDesc := MapType(ArrayType(StringT), StringT)

  /** With the default flags an array-valued map is opaque. */
  lemma ArrayValuedMapIsOpaque(fuel: nat)
    ensures GetOrAdd(Foo, EmptyCache, StringArrayMapT, fuel) == Success((MapSchema, EmptyCache))
  {
    EmptyCacheIsValid();
    assert Normalize(Classes, FooApi, StringArrayMapT) == Success(StringArrayMapT);
    assert PlanFor(Classes, DefaultFlags, StringArrayMapT) == Shared(MapSchema);
    GetOrAddOfUnnamedType(Foo, EmptyCache, StringArrayMapT, StringArrayMapT, fuel);
  }

  /** With the default flags a map keyed by arrays is an error. */
  lemma ArrayKeyedMapIsRejected(fuel: nat)
    ensures GetOrAdd(Foo, EmptyCache, ArrayStringMapT, fuel) == Failure(UnsupportedMapKey(ArrayType(StringT)))
  {
    EmptyCacheIsValid();
    assert Normalize(Classes, FooApi, ArrayStringMapT) == Success(ArrayStringMapT);
    assert PlanFor(Classes, DefaultFlags, ArrayStringMapT) == Reject(UnsupportedMapKey(ArrayType(StringT)));
    GetOrAddOfUnnamedType(Foo, EmptyCache, ArrayStringMapT, ArrayStringMapT, fuel);
  }

  /** Maps with type variables in their key, their value or both are opaque. */
  lemma ParameterizedMapsAreOpaque(fuel: nat)
    ensures GetOrAdd(Foo, EmptyCache, MapType(TypeVar("K"), TypeVar("V")), fuel) == Success((MapSchema, EmptyCache))
    ensures GetOrAdd(Foo, EmptyCache, MapType(TypeVar("K"), StringT), fuel) == Success((MapSchema, EmptyCache))
    ensures GetOrAdd(Foo, EmptyCache, MapType(StringT, TypeVar("V")), fuel) == Success((MapSchema, EmptyCache))
  {
    EmptyCacheIsValid();
    var kv, k, v := MapType(TypeVar("K"), TypeVar("V")), MapType(TypeVar("K"), StringT), MapType(StringT, TypeVar("V"));
    assert Normalize(Classes, FooApi, kv) == Success(kv);
    assert Normalize(Classes, FooApi, k) == Success(k);
    assert Normalize(Classes, FooApi, v) == Success(v);
    GetOrAddOfUnnamedType(Foo, EmptyCache, kv, kv, fuel);
    GetOrAddOfUnnamedType(Foo, EmptyCache, k, k, fuel);
    GetOrAddOfUnnamedType(Foo, EmptyCache, v, v, fuel);
  }

  /** A raw map is opaque. */
  lemma RawMapIsOpaque(fuel: nat)
    ensures GetOrAdd(Foo, EmptyCache, RawMap, fuel) == Success((MapSchema, EmptyCache))
  {
    EmptyCacheIsValid();
    GetOrAddOfUnnamedType(Foo, EmptyCache, RawMap, RawMap, fuel);
  }

  /** Ignoring unsupported key types makes the array-keyed map opaque instead of an error. */
  lemma IgnoredKeyTypeIsOpaque(fuel: nat)
    ensures var env := FooEnv(DefaultFlags.(ignoreUnsupportedKeyTypes := true));
      GetOrAdd(env, EmptyCache, ArrayStringMapT, fuel) == Success((MapSchema, EmptyCache))
  {
    EmptyCacheIsValid();
    var env := FooEnv(DefaultFlags.(ignoreUnsupportedKeyTypes := true));
    assert Normalize(Classes, FooApi, ArrayStringMapT) == Success(ArrayStringMapT);
    GetOrAddOfUnnamedType(env, EmptyCache, ArrayStringMapT, ArrayStringMapT, fuel);
  }

  /** Forcing the opaque map schema makes every map opaque, even a supported one. */
  lemma ForcedJsonMap(fuel: nat)
    ensures var env := FooEnv(DefaultFlags.(forceJsonMapSchema := true));
      && GetOrAdd(env, EmptyCache, StringEnumMapT, fuel) == Success((MapSchema, EmptyCache))
      && GetOrAdd(env, EmptyCache, StringArrayMapT, fuel) == Success((MapSchema, EmptyCache))
      && GetOrAdd(env, EmptyCache, ArrayStringMapT, fuel) == Success((MapSchema, EmptyCache))
  {
    EmptyCacheIsValid();
    var env := FooEnv(DefaultFlags.(forceJsonMapSchema := true));
    assert Normalize(Classes, FooApi, StringEnumMapT) == Success(StringEnumMapT);
    assert Normalize(Classes, FooApi, StringArrayMapT) == Success(StringArrayMapT);
    assert Normalize(Classes, FooApi, ArrayStringMapT) == Success(ArrayStringMapT);
    GetOrAddOfUnnamedType(env, EmptyCache, StringEnumMapT, StringEnumMapT, fuel);
    GetOrAddOfUnnamedType(env, EmptyCache, StringArrayMapT, StringArrayMapT, fuel);
    GetOrAddOfUnnamedType(env, EmptyCache, ArrayStringMapT, ArrayStringMapT, fuel);
  }

  /** A string-keyed map whose value has no type variable, and is an array only where arrays
      are supported, is a typed map named after its value. */
  lemma StringKeyedMapPlan(flags: Flags, v: TypeDesc)
    requires !flags.forceJsonMapSchema && !HasTypeVar(v) && (!IsArrayValued(v) || flags.supportArrayValues)
    ensures MapPlan(flags, StringT, v) == Build("Map_" + "String" + "_" + SimpleName(v), MapRecipe(v))
  {
    MapDecisionTable(flags, StringT, v);
  }

  /** The typed maps' names, spelled out. */
  lemma MapNames()
    ensures "Map_" + "String" + "_" + "TestEnum" == "Map_String_TestEnum"
    ensures "Map_" + "String" + "_" + "String" == "Map_String_String"
    ensures "Map_" + "String" + "_" + "Map_String_String" == "Map_String_Map_String_String"
    ensures "Map_" + "String" + "_" + "StringCollection" == "Map_String_StringCollection"
  {
  }

  lemma StringEnumMapPlan()
    ensures Normalize(Classes, FooApi, StringEnumMapT) == Success(StringEnumMapT)
    ensures PlanFor(Classes, DefaultFlags, StringEnumMapT) == Build("Map_String_TestEnum", MapRecipe(TestEnumT))
  {
    StringKeyedMapPlan(DefaultFlags, TestEnumT);
    MapNames();
  }

  /** `Map<String, TestEnum>` has a typed map schema whose value refers to the enum (with any
      fuel of at least one, as every derivation below that builds a named schema). */
  lemma StringEnumMapSchema(fuel: nat)
    ensures GetOrAdd(Foo, EmptyCache, StringEnumMapT, fuel + 1).Success?
    ensures GetOrAdd(Foo, EmptyCache, StringEnumMapT, fuel + 1).value.0 ==
      Schema("Map_String_TestEnum", "object", [], [], [], Some(Field(MapValueName, EnumField(SchemaRef("foo:v1", "TestEnum")), None)))
  {
    EmptyCacheIsValid();
    StringEnumMapPlan();
    var key := Key("foo:v1", "Map_String_TestEnum");
    DeriveMapUnfold(Foo, EmptyCache, StringEnumMapT, key, TestEnumT, fuel);
    var c1 := EmptyCache[key := Pending];
    assert key.name[0] == 'M';
    EnumFieldRefersToEnum(Foo, c1, MapValueName, "TestEnum", TestEnumT.constants, None, fuel);
  }

  /** The schema of `Map<String, String>`: a typed map with a string value. */
  const StringMapSchema: Schema :=
    Schema("Map_String_String", "object", [], [], [], Some(StringField(MapValueName, None)))

  /** `MyMap` classifies as its `Map<String, String>` supertype. */
  lemma MyMapPlan()
    ensures Normalize(Classes, FooApi, MyMapT) == Success(MyMapT)
    ensures PlanFor(Classes, DefaultFlags, MyMapT) == Build("Map_String_String", MapRecipe(StringT))
  {
    StringKeyedMapPlan(DefaultFlags, StringT);
    MapNames();
  }

  /** `MySubMap` classifies as the `Map<String, String>` supertype of `MyMap`. */
  lemma MySubMapPlan()
    ensures Normalize(Classes, FooApi, MySubMapT) == Success(MySubMapT)
    ensures PlanFor(Classes, DefaultFlags, MySubMapT) == Build("Map_String_String", MapRecipe(StringT))
  {
    StringKeyedMapPlan(DefaultFlags, StringT);
    MapNames();
  }

  /** A map subclass has the schema of its `Map` supertype. */
  lemma MapSubclassSchema(fuel: nat)
    ensures GetOrAdd(Foo, EmptyCache, MyMapT, fuel + 1).Success?
    ensures GetOrAdd(Foo, EmptyCache, MyMapT, fuel + 1).value.0 == StringMapSchema
  {
    EmptyCacheIsValid();
    MyMapPlan();
    var key := Key("foo:v1", "Map_String_String");
    DeriveMapUnfold(Foo, EmptyCache, MyMapT, key, StringT, fuel);
    ScalarFieldIsInline(Foo, EmptyCache[key := Pending], MapValueName, String, "String", None, fuel);
  }

  /** A subclass of a map subclass has the same schema. */
  lemma MapSubSubclassSchema(fuel: nat)
    ensures GetOrAdd(Foo, EmptyCache, MySubMapT, fuel + 1).Success?
    ensures GetOrAdd(Foo, EmptyCache, MySubMapT, fuel + 1).value.0 == StringMapSchema
  {
    EmptyCacheIsValid();
    MySubMapPlan();
    var key := Key("foo:v1", "Map_String_String");
    DeriveMapUnfold(Foo, EmptyCache, MySubMapT, key, StringT, fuel);
    ScalarFieldIsInline(Foo, EmptyCache[key := Pending], MapValueName, String, "String", None, fuel);
  }

  const NestedMapT: TypeDesc := MapType(StringT, MapType(StringT, StringT))

  /** `Map<String, String>` derived into any cache that does not hold it yet. */
  lemma StringMapDerives(c: Cache, fuel: nat)
    requires Sound(c) && Key("foo:v1", "Map_String_String") !in c
    ensures Derive(Foo, c, MapType(StringT, StringT), fuel + 1).Success?
    ensures Derive(Foo, c, MapType(StringT, StringT), fuel + 1).value.0 == StringMapSchema
  {
    var t := MapType(StringT, StringT);
    assert PlanFor(Classes, DefaultFlags, t) == Build("Map_String_String", MapRecipe(StringT));
    var key := Key("foo:v1", "Map_String_String");
    DeriveMapUnfold(Foo, c, t, key, StringT, fuel);
    ScalarFieldIsInline(Foo, c[key := Pending], MapValueName, String, "String", None, fuel);
  }

  /** The value field of a map of maps refers to the inner map's schema. */
  lemma NestedMapValueField(c: Cache, fuel: nat)
    requires Sound(c) && Key("foo:v1", "Map_String_String") !in c
    ensures FieldFor(Foo, c, MapValueName, MapType(StringT, StringT), None, fuel + 1).Success?
    ensures FieldFor(Foo, c, MapValueName, MapType(StringT, StringT), None, fuel + 1).value.0
      == Field(MapValueName, ObjectField(SchemaRef("foo:v1", "Map_String_String")), None)
  {
    assert Normalize(Classes, FooApi, MapType(StringT, StringT)) == Success(MapType(StringT, StringT));
    StringMapDerives(c, fuel);
    ObjectFieldRefersToSchema(Foo, c, MapValueName, MapType(StringT, StringT), None, fuel + 1);
  }

  lemma NestedMapPlan()
    ensures Normalize(Classes, FooApi, NestedMapT) == Success(NestedMapT)
    ensures PlanFor(Classes, DefaultFlags, NestedMapT) == Build("Map_String_Map_String_String", MapRecipe(MapType(StringT, StringT)))
  {
    var inner := MapType(StringT, StringT);
    assert !HasTypeVar(inner);
    assert SimpleName(inner) == "Map_String_String";
    StringKeyedMapPlan(DefaultFlags, inner);
    MapNames();
  }

  /** A map of maps is a typed map whose value refers to the inner map's schema (with any fuel
      of at least two: one level per named schema). */
  lemma NestedMapSchema(fuel: nat)
    ensures GetOrAdd(Foo, EmptyCache, NestedMapT, fuel + 2).Success?
    ensures GetOrAdd(Foo, EmptyCache, NestedMapT, fuel + 2).value.0 ==
      Schema("Map_String_Map_String_String", "object", [], [], [],
        Some(Field(MapValueName, ObjectField(SchemaRef("foo:v1", "Map_String_String")), None)))
  {
    EmptyCacheIsValid();
    NestedMapPlan();
    var key := Key("foo:v1", "Map_String_Map_String_String");
    DeriveMapUnfold(Foo, EmptyCache, NestedMapT, key, MapType(StringT, StringT), fuel + 1);
    assert key.name[4] == 'S';
    NestedMapValueField(EmptyCache[key := Pending], fuel);
  }

  const ArraysEnv: Env := FooEnv(DefaultFlags.(supportArrayValues := true))

  /** With array values supported, a string-keyed map of arrays is a typed map. */
  lemma ArrayValuedMapPlan()
    ensures Normalize(Classes, FooApi, StringArrayMapT) == Success(StringArrayMapT)
    ensures PlanFor(Classes, ArraysEnv.flags, StringArrayMapT) == Build("Map_String_StringCollection", MapRecipe(ArrayType(StringT)))
  {
    assert SimpleName(ArrayType(StringT)) == "StringCollection";
    StringKeyedMapPlan(ArraysEnv.flags, ArrayType(StringT));
    MapNames();
  }

  /** With array values supported an array-valued map is typed, its value an array field. */
  lemma ArrayValuedMapSchema(fuel: nat)
    ensures GetOrAdd(ArraysEnv, EmptyCache, StringArrayMapT, fuel + 2).Success?
    ensures GetOrAdd(ArraysEnv, EmptyCache, StringArrayMapT, fuel + 2).value.0 ==
      Schema("Map_String_StringCollection", "object", [], [], [],
        Some(Field(MapValueName, ArrayField(StringField(ArrayItemName, None)), None)))
  {
    EmptyCacheIsValid();
    ArrayValuedMapPlan();
    var key := Key("foo:v1", "Map_String_StringCollection");
    DeriveMapUnfold(ArraysEnv, EmptyCache, StringArrayMapT, key, ArrayType(StringT), fuel + 1);
    ScalarArrayFieldIsInline(ArraysEnv, EmptyCache[key := Pending], MapValueName, String, "String", None, fuel);
  }

  const OptionalArrayMapT: TypeDesc := MapType(StringT, OptionalType(ArrayType(StringT)))

  /** A map whose values are Optionals of arrays is an error whether or not array values are
      supported: the value's field is derived as a property's would be, and an Optional of an
      array is rejected there. */
  lemma OptionalArrayValuedMapIsRejected(supportArrays: bool, fuel: nat)
    ensures GetOrAdd(FooEnv(DefaultFlags.(supportArrayValues := supportArrays)), EmptyCache, OptionalArrayMapT, fuel + 1)
      == Failure(UnsupportedOptional(OptionalType(ArrayType(StringT))))
  {
    var env := FooEnv(DefaultFlags.(supportArrayValues := supportArrays));
    var v := OptionalType(ArrayType(StringT));
    EmptyCacheIsValid();
    assert Normalize(Classes, FooApi, OptionalArrayMapT) == Success(OptionalArrayMapT);
    StringKeyedMapPlan(env.flags, v);
    var key := Key("foo:v1", PlanFor(Classes, env.flags, OptionalArrayMapT).name);
    DeriveMapUnfold(env, EmptyCache, OptionalArrayMapT, key, v, fuel);
    assert Normalize(Classes, FooApi, v) == Failure(UnsupportedOptional(v));
  }

  // ----- Generic beans and the transformer -----

  /** The properties of `Parameterized<a>`. */
  function ParameterizedProps(a: TypeDesc): seq<Property> {
    [Plain("foo", a), Plain("next", Parameterized(a)), Plain("testEnum", TestEnumT)]
  }

  /** The schema of `Parameterized<a>` for a scalar `a` named `argName` of kind `k`: the value
      inline, `next` referring back to the same schema, `testEnum` to the enum. */
  function ParameterizedSchema(argName: string, k: ScalarKind): Schema {
    Schema("Parameterized_" + argName, "object", [
      Field("foo", ScalarField(k), None),
      Field("next", ObjectField(SchemaRef("foo:v1", "Parameterized_" + argName)), None),
      Field("testEnum", EnumField(SchemaRef("foo:v1", "TestEnum")), None)], [], [], None)
  }

  /** A property without markers leaves `required` unset. */
  lemma PlainIsUnset(name: string, t: TypeDesc)
    ensures RequiredOf(Plain(name, t)) == None
  {
    RequiredPrecedence(Plain(name, t));
  }

  /** `Parameterized<a>` is untransformed unless `a` is `Short`, and builds from its
      substituted properties under the name `Parameterized_<a>`. */
  lemma ParameterizedPlan(a: TypeDesc)
    requires a.Scalar? && a != ShortT
    ensures Normalize(Classes, FooApi, Parameterized(a)) == Success(Parameterized(a))
    ensures PlanFor(Classes, DefaultFlags, Parameterized(a))
      == Build("Parameterized_" + a.simpleName, BeanRecipe(ParameterizedProps(a)))
  {
    SingleArgumentName("Parameterized", a);
    var env := Bindings(["T"], [a]);
    assert env == map["T" := a];
    assert Substitute(TypeVar("T"), env) == a;
    assert Substitute(Parameterized(TypeVar("T")), env) == Parameterized(a) by {
      assert seq(1, i requires 0 <= i < 1 => Substitute([TypeVar("T")][i], env)) == [a];
    }
    assert Substitute(TestEnumT, env) == TestEnumT;
    var props := Classes["Parameterized"].properties;
    assert SubstituteProperties(props, env) == ParameterizedProps(a);
  }

  /** The value and `next` fields of `Parameterized<a>`: the value inline, `next` referring to
      the slot being built; neither stores anything. */
  lemma ParameterizedOwnFields(a: TypeDesc, c: Cache, fuel: nat)
    requires a.Scalar? && a != ShortT
    requires Sound(c) && Key("foo:v1", "Parameterized_" + a.simpleName) in c
    ensures FieldFor(Foo, c, "foo", a, RequiredOf(Plain("foo", a)), fuel)
      == Success((Field("foo", ScalarField(a.kind), None), c))
    ensures FieldFor(Foo, c, "next", Parameterized(a), RequiredOf(Plain("next", Parameterized(a))), fuel)
      == Success((Field("next", ObjectField(SchemaRef("foo:v1", "Parameterized_" + a.simpleName)), None), c))
  {
    PlainIsUnset("foo", a);
    PlainIsUnset("next", Parameterized(a));
    ParameterizedPlan(a);
    ScalarFieldIsInline(Foo, c, "foo", a.kind, a.simpleName, None, fuel);
    ObjectFieldRefersToSchema(Foo, c, "next", Parameterized(a), None, fuel);
  }

  /** The `testEnum` field refers to `TestEnum` and stores its schema when the slot is free. */
  lemma TestEnumField(c: Cache, fuel: nat)
    requires Sound(c) && Key("foo:v1", "TestEnum") !in c
    ensures FieldFor(Foo, c, "testEnum", TestEnumT, RequiredOf(Plain("testEnum", TestEnumT)), fuel)
      == Success((Field("testEnum", EnumField(SchemaRef("foo:v1", "TestEnum")), None),
                  c[Key("foo:v1", "TestEnum") := Done(TestEnumSchema(["VALUE1", "value_2"]))]))
  {
    PlainIsUnset("testEnum", TestEnumT);
    EnumFieldRefersToEnum(Foo, c, "testEnum", "TestEnum", TestEnumT.constants, None, fuel);
    TestEnumSchemaIs(DefaultFlags);
  }

  /** The fields of `Parameterized<a>`, derived while its own slot is taken and the enum's slot
      is free: `next` finds the slot, `testEnum` stores the enum. */
  lemma ParameterizedFields(a: TypeDesc, c: Cache, fuel: nat)
    requires a.Scalar? && a != ShortT
    requires Sound(c) && Key("foo:v1", "Parameterized_" + a.simpleName) in c && Key("foo:v1", "TestEnum") !in c
    ensures FieldsFor(Foo, c, ParameterizedProps(a), fuel)
      == Success((ParameterizedSchema(a.simpleName, a.kind).fields, c[Key("foo:v1", "TestEnum") := Done(TestEnumSchema(["VALUE1", "value_2"]))]))
  {
    var props := ParameterizedProps(a);
    var fs := ParameterizedSchema(a.simpleName, a.kind).fields;
    var c2 := c[Key("foo:v1", "TestEnum") := Done(TestEnumSchema(["VALUE1", "value_2"]))];
    ParameterizedOwnFields(a, c, fuel);
    TestEnumField(c, fuel);
    FieldsForThree(Foo, c, props[0], props[1], props[2], fuel, fs[0], fs[1], fs[2], c, c, c2);
  }


  /** Deriving `Parameterized<a>` into an empty cache. */
  lemma ParameterizedDerivation(a: TypeDesc, fuel: nat)
    requires a.Scalar? && a != ShortT
    ensures Sound(EmptyCache)
    ensures Derive(Foo, EmptyCache, Parameterized(a), fuel + 1).Success?
    ensures Derive(Foo, EmptyCache, Parameterized(a), fuel + 1).value.0 == ParameterizedSchema(a.simpleName, a.kind)
  {
    EmptyCacheIsValid();
    ParameterizedPlan(a);
    var key := Key("foo:v1", "Parameterized_" + a.simpleName);
    assert key.name[0] == 'P';
    DeriveBeanUnfold(Foo, EmptyCache, Parameterized(a), key, ParameterizedProps(a), fuel);
    ParameterizedFields(a, EmptyCache[key := Pending], fuel);
  }

  /** `Parameterized<a>` for a scalar `a`: a self-referencing generic bean, derived with any
      fuel of at least one. */
  lemma ParameterizedDerives(a: TypeDesc, fuel: nat)
    requires a.Scalar? && a != ShortT
    ensures GetOrAdd(Foo, EmptyCache, Parameterized(a), fuel + 1).Success?
    ensures GetOrAdd(Foo, EmptyCache, Parameterized(a), fuel + 1).value.0 == ParameterizedSchema(a.simpleName, a.kind)
  {
    ParameterizedPlan(a);
    ParameterizedDerivation(a, fuel);
  }

  /** The generic request and return type `Parameterized<Integer>`. */
  lemma GenericBeanSchema(fuel: nat)
    ensures GetOrAdd(Foo, EmptyCache, Parameterized(IntegerT), fuel + 1).Success?
    ensures GetOrAdd(Foo, EmptyCache, Parameterized(IntegerT), fuel + 1).value.0 == ParameterizedSchema("Integer", Int32)
  {
    ParameterizedDerives(IntegerT, fuel);
  }

  /** `Parameterized<Short>` is serialized through its transformer as `Parameterized<String>`. */
  lemma TransformerSchema(fuel: nat)
    ensures GetOrAdd(Foo, EmptyCache, Parameterized(ShortT), fuel + 1).Success?
    ensures GetOrAdd(Foo, EmptyCache, Parameterized(ShortT), fuel + 1).value.0 == ParameterizedSchema("String", String)
  {
    EmptyCacheIsValid();
    ParameterizedPlan(StringT);
    TransformedTypeDerivesAsTarget(Foo, EmptyCache, Parameterized(ShortT), fuel + 1);
    ParameterizedDerives(StringT, fuel);
  }

  /** `get` finds nothing before `getOrAdd` and the derived schema after it. */
  lemma GetBeforeAndAfter(fuel: nat)
    ensures Get(Foo, EmptyCache, Parameterized(IntegerT)) == None
    ensures GetOrAdd(Foo, EmptyCache, Parameterized(IntegerT), fuel + 1).Success?
    ensures var c := GetOrAdd(Foo, EmptyCache, Parameterized(IntegerT), fuel + 1).value.1;
      Get(Foo, c, Parameterized(IntegerT)) == Some(ParameterizedSchema("Integer", Int32))
  {
    EmptyCacheIsValid();
    GetOfUnusedApiIsAbsent(Foo, EmptyCache, Parameterized(IntegerT));
    ParameterizedPlan(IntegerT);
    ParameterizedDerives(IntegerT, fuel);
    GetFindsWhatGetOrAddStored(Foo, EmptyCache, Parameterized(IntegerT), fuel + 1);
  }

  // ----- Collections -----

  /** The field of a collection of scalars: an array field whose items are inline. */
  function ScalarArrayField(name: string, k: ScalarKind): Field {
    Field(name, ArrayField(Field(ArrayItemName, ScalarField(k), None)), None)
  }

  /** `CollectionResponse<Integer>` builds from `items: Integer[]` and `nextPageToken: String`
      under the name `CollectionResponse_Integer`. */
  lemma CollectionResponsePlan()
    ensures Normalize(Classes, FooApi, CollectionResponse(IntegerT)) == Success(CollectionResponse(IntegerT))
    ensures PlanFor(Classes, DefaultFlags, CollectionResponse(IntegerT)) == Build("CollectionResponse_Integer",
      BeanRecipe([Plain("items", ArrayType(IntegerT)), Plain("nextPageToken", StringT)]))
  {
    SingleArgumentName("CollectionResponse", IntegerT);
    var env := Bindings(["T"], [IntegerT]);
    assert env == map["T" := IntegerT];
    assert Substitute(ArrayType(TypeVar("T")), env) == ArrayType(IntegerT);
    assert Substitute(StringT, env) == StringT;
    var props := Classes["CollectionResponse"].properties;
    assert SubstituteProperties(props, env) == [Plain("items", ArrayType(IntegerT)), Plain("nextPageToken", StringT)];
  }

  /** The properties of `CollectionResponse<Integer>` give an inline integer array and a string,
      and store nothing. */
  lemma CollectionResponseFields(c: Cache, fuel: nat)
    requires Sound(c)
    ensures FieldsFor(Foo, c, [Plain("items", ArrayType(IntegerT)), Plain("nextPageToken", StringT)], fuel + 1)
      == Success(([ScalarArrayField("items", Int32), StringField("nextPageToken", None)], c))
  {
    var items, token := Plain("items", ArrayType(IntegerT)), Plain("nextPageToken", StringT);
    PlainIsUnset("items", ArrayType(IntegerT));
    PlainIsUnset("nextPageToken", StringT);
    ScalarArrayFieldIsInline(Foo, c, "items", Int32, "Integer", None, fuel);
    ScalarFieldIsInline(Foo, c, "nextPageToken", String, "String", None, fuel + 1);
    FieldsForTwo(Foo, c, items, token, fuel + 1,
      ScalarArrayField("items", Int32), StringField("nextPageToken", None), c, c);
  }

  /** The paged collection of integers: an `items` array of inline integers, then the page token. */
  lemma CollectionResponseSchema(fuel: nat)
    ensures GetOrAdd(Foo, EmptyCache, CollectionResponse(IntegerT), fuel + 2).Success?
    ensures GetOrAdd(Foo, EmptyCache, CollectionResponse(IntegerT), fuel + 2).value.0 ==
      Schema("CollectionResponse_Integer", "object",
        [ScalarArrayField("items", Int32), StringField("nextPageToken", None)], [], [], None)
  {
    EmptyCacheIsValid();
    CollectionResponsePlan();
    var key := Key("foo:v1", "CollectionResponse_Integer");
    var props := [Plain("items", ArrayType(IntegerT)), Plain("nextPageToken", StringT)];
    DeriveBeanUnfold(Foo, EmptyCache, CollectionResponse(IntegerT), key, props, fuel + 1);
    CollectionResponseFields(EmptyCache[key := Pending], fuel);
  }

  /** An array of integers is the collection `IntegerCollection` with the single field `items`. */
  lemma IntegerCollectionPlan()
    ensures Normalize(Classes, FooApi, ArrayType(IntegerT)) == Success(ArrayType(IntegerT))
    ensures PlanFor(Classes, DefaultFlags, ArrayType(IntegerT))
      == Build("IntegerCollection", BeanRecipe([ItemsProperty(ArrayType(IntegerT))]))
  {
  }

  /** `int[]`: an `IntegerCollection` whose `items` are inline integers. */
  lemma IntegerCollectionSchema(fuel: nat)
    ensures GetOrAdd(Foo, EmptyCache, ArrayType(IntegerT), fuel + 2).Success?
    ensures GetOrAdd(Foo, EmptyCache, ArrayType(IntegerT), fuel + 2).value.0 ==
      Schema("IntegerCollection", "object", [ScalarArrayField("items", Int32)], [], [], None)
  {
    EmptyCacheIsValid();
    IntegerCollectionPlan();
    var key := Key("foo:v1", "IntegerCollection");
    var items := ItemsProperty(ArrayType(IntegerT));
    DeriveBeanUnfold(Foo, EmptyCache, ArrayType(IntegerT), key, [items], fuel + 1);
    var c1 := EmptyCache[key := Pending];
    PlainIsUnset("items", ArrayType(IntegerT));
    ScalarArrayFieldIsInline(Foo, c1, "items", Int32, "Integer", None, fuel);
    FieldsForOne(Foo, c1, items, fuel + 1, ScalarArrayField("items", Int32), c1);
  }

  // ----- A self-referencing bean -----

  /** `SelfReferencingObject`, whose `foo` refers to its own schema. */
  const SelfReferencingSchema: Schema :=
    Schema("SelfReferencingObject", "object",
      [Field("foo", ObjectField(SchemaRef("foo:v1", "SelfReferencingObject")), None)], [], [], None)

  lemma SelfReferencingPlan()
    ensures Normalize(Classes, FooApi, SelfReferencingT) == Success(SelfReferencingT)
    ensures PlanFor(Classes, DefaultFlags, SelfReferencingT)
      == Build("SelfReferencingObject", BeanRecipe([Plain("foo", SelfReferencingT)]))
  {
    PlainClassName("SelfReferencingObject");
    SubstituteClosed(SelfReferencingT, Bindings([], []));
    var props := SubstituteProperties(Classes["SelfReferencingObject"].properties, Bindings([], []));
    assert props == [Plain("foo", SelfReferencingT)];
  }

  /** A bean that refers to itself derives in one step, its field referring to the slot being
      built; adding it a second time returns the same schema and changes nothing. */
  lemma SelfReferencingTwice(fuel: nat)
    ensures GetOrAdd(Foo, EmptyCache, SelfReferencingT, fuel + 1).Success?
    ensures var (s, c) := GetOrAdd(Foo, EmptyCache, SelfReferencingT, fuel + 1).value;
      && s == SelfReferencingSchema
      && GetOrAdd(Foo, c, SelfReferencingT, fuel + 1) == Success((s, c))
  {
    EmptyCacheIsValid();
    SelfReferencingPlan();
    var key := Key("foo:v1", "SelfReferencingObject");
    var foo := Plain("foo", SelfReferencingT);
    DeriveBeanUnfold(Foo, EmptyCache, SelfReferencingT, key, [foo], fuel);
    var c1 := EmptyCache[key := Pending];
    PlainIsUnset("foo", SelfReferencingT);
    ObjectFieldRefersToSchema(Foo, c1, "foo", SelfReferencingT, None, fuel);
    FieldsForOne(Foo, c1, foo, fuel, SelfReferencingSchema.fields[0], c1);
    GetOrAddIdempotent(Foo, EmptyCache, SelfReferencingT, fuel + 1, fuel + 1);
  }

  // ----- Required markers -----

  /** The fields of `RequiredProperties`: every one a string, `required` as its markers decide. */
  const RequiredPropertiesFields: seq<Field> := [
    StringField("undefined", None),
    StringField("apiResourceProperty_undefined", None),
    StringField("apiResourceProperty_required", Some(true)),
    StringField("apiResourceProperty_not_required", Some(false)),
    StringField("nullable", Some(false)),
    StringField("nonnull", Some(true)),
    StringField("priority1", Some(true)),
    StringField("priority2", Some(true)),
    StringField("priority3", Some(false))
  ]

  /** Every property of `RequiredProperties` is an untransformed string. */
  lemma RequiredPropertiesAreStrings()
    ensures AllInlineScalars(Foo, RequiredPropertiesList)
  {
  }

  /** Each combination of markers resolves by precedence: an override beats `@Nonnull`, which
      beats `@Nullable`. */
  lemma RequiredMarkersResolve()
    ensures |RequiredPropertiesFields| == |RequiredPropertiesList|
    ensures forall i :: 0 <= i < |RequiredPropertiesList| ==>
      InlineField(RequiredPropertiesList[i]) == RequiredPropertiesFields[i]
  {
    RequiredPropertiesAreStrings();
    forall i | 0 <= i < |RequiredPropertiesList|
      ensures InlineField(RequiredPropertiesList[i]) == RequiredPropertiesFields[i]
    {
      RequiredPrecedence(RequiredPropertiesList[i]);
    }
  }

  lemma RequiredPropertiesPlan()
    ensures Normalize(Classes, FooApi, RequiredPropertiesT) == Success(RequiredPropertiesT)
    ensures PlanFor(Classes, DefaultFlags, RequiredPropertiesT)
      == Build("RequiredProperties", BeanRecipe(RequiredPropertiesList))
  {
    PlainClassName("RequiredProperties");
    var props := SubstituteProperties(RequiredPropertiesList, Bindings([], []));
    assert props == RequiredPropertiesList;
  }

  /** The schema of `RequiredProperties`: one string field per property, in order. */
  lemma RequiredPropertiesSchema(fuel: nat)
    ensures GetOrAdd(Foo, EmptyCache, RequiredPropertiesT, fuel + 1).Success?
    ensures GetOrAdd(Foo, EmptyCache, RequiredPropertiesT, fuel + 1).value.0 ==
      Schema("RequiredProperties", "object", RequiredPropertiesFields, [], [], None)
  {
    EmptyCacheIsValid();
    RequiredPropertiesPlan();
    var key := Key("foo:v1", "RequiredProperties");
    DeriveBeanUnfold(Foo, EmptyCache, RequiredPropertiesT, key, RequiredPropertiesList, fuel);
    RequiredPropertiesAreStrings();
    RequiredMarkersResolve();
    InlineScalarFields(Foo, EmptyCache[key := Pending], RequiredPropertiesList, fuel);
  }

  /** `Optional<RequiredProperties>` has the schema of `RequiredProperties`. */
  lemma OptionalBeanIsBean(fuel: nat)
    ensures GetOrAdd(Foo, EmptyCache, OptionalType(RequiredPropertiesT), fuel + 1).Success?
    ensures GetOrAdd(Foo, EmptyCache, OptionalType(RequiredPropertiesT), fuel + 1).value.0 ==
      Schema("RequiredProperties", "object", RequiredPropertiesFields, [], [], None)
  {
    EmptyCacheIsValid();
    OptionalDerivesAsInner(Foo, EmptyCache, RequiredPropertiesT, fuel + 1);
    RequiredPropertiesSchema(fuel);
  }

  // ----- Two APIs -----

  /** The environment of the second API. */
  const EnumEnv: Env := Env(Classes, DefaultFlags, EnumApi)

  /** `EnumValue` as derived for API `api`: its enum field refers to that API's `TestEnum`. */
  function EnumValueSchema(api: ApiKey): Schema {
    Schema("EnumValue", "object", [Field("value", EnumField(SchemaRef(api, "TestEnum")), None)], [], [], None)
  }

  lemma EnumValuePlan()
    ensures PlanFor(Classes, DefaultFlags, EnumValueT) == Build("EnumValue", BeanRecipe([Plain("value", TestEnumT)]))
  {
    PlainClassName("EnumValue");
    var props := SubstituteProperties(Classes["EnumValue"].properties, Bindings([], []));
    assert props == [Plain("value", TestEnumT)];
  }

  /** `EnumValue` derived for an API that has neither it nor `TestEnum` yet stores both. */
  lemma EnumValueDerivation(env: Env, c: Cache, fuel: nat)
    requires env.u == Classes && env.flags == DefaultFlags
    requires TestEnumT !in env.config.transformers
    requires Sound(c) && Key(env.Api(), "EnumValue") !in c && Key(env.Api(), "TestEnum") !in c
    ensures var kV, kE := Key(env.Api(), "EnumValue"), Key(env.Api(), "TestEnum");
      Derive(env, c, EnumValueT, fuel + 1) == Success((EnumValueSchema(env.Api()),
        c[kV := Pending][kE := Done(TestEnumSchema(["VALUE1", "value_2"]))][kV := Done(EnumValueSchema(env.Api()))]))
  {
    EnumValuePlan();
    var kV, kE := Key(env.Api(), "EnumValue"), Key(env.Api(), "TestEnum");
    var value := Plain("value", TestEnumT);
    DeriveBeanUnfold(env, c, EnumValueT, kV, [value], fuel);
    var c1 := c[kV := Pending];
    assert kE != kV by { assert kE.name[0] != kV.name[0]; }
    PlainIsUnset("value", TestEnumT);
    TestEnumSchemaIs(DefaultFlags);
    EnumFieldRefersToEnum(env, c1, "value", "TestEnum", TestEnumT.constants, None, fuel);
    var f := Field("value", EnumField(SchemaRef(env.Api(), "TestEnum")), None);
    var c2 := c1[kE := Done(TestEnumSchema(["VALUE1", "value_2"]))];
    FieldsForOne(env, c1, value, fuel, f, c2);
  }

  /** The schemas of an API that held nothing before two schemas were stored into it. */
  lemma SchemasOfNewApi(c: Cache, api: ApiKey, kV: Key, kE: Key, sV: Schema, sE: Schema)
    requires forall k :: k in c ==> k.api != api
    requires kV.api == api && kE.api == api && kV != kE
    ensures AllSchemasFor(c[kV := Pending][kE := Done(sE)][kV := Done(sV)], api) == {sE, sV}
  {
    var c' := c[kV := Pending][kE := Done(sE)][kV := Done(sV)];
    forall s | s in AllSchemasFor(c', api)
      ensures s == sE || s == sV
    {
      var k :| k in c' && k.api == api && c'[k] == Done(s);
    }
    assert sE in AllSchemasFor(c', api) by { assert c'[kE] == Done(sE); }
    assert sV in AllSchemasFor(c', api) by { assert c'[kV] == Done(sV); }
  }

  /** Adding `EnumValue` to a second API adds the enum it refers to as well: the second API ends
      with exactly `TestEnum` and its own `EnumValue`, whose field refers to its own enum. */
  lemma MultipleApis(fuel: nat)
    ensures GetOrAdd(Foo, EmptyCache, EnumValueT, fuel + 1).Success?
    ensures var c1 := GetOrAdd(Foo, EmptyCache, EnumValueT, fuel + 1).value.1;
      && GetOrAdd(EnumEnv, c1, EnumValueT, fuel + 1).Success?
      && AllSchemasFor(GetOrAdd(EnumEnv, c1, EnumValueT, fuel + 1).value.1, "enum:v1")
        == {TestEnumSchema(["VALUE1", "value_2"]), EnumValueSchema("enum:v1")}
  {
    EmptyCacheIsValid();
    EnumValuePlan();
    assert Normalize(Classes, FooApi, EnumValueT) == Success(EnumValueT);
    assert Normalize(Classes, EnumApi, EnumValueT) == Success(EnumValueT);
    EnumValueDerivation(Foo, EmptyCache, fuel);
    var c1 := GetOrAdd(Foo, EmptyCache, EnumValueT, fuel + 1).value.1;
    assert forall k :: k in c1 ==> k.api == "foo:v1";
    var kV, kE := Key("enum:v1", "EnumValue"), Key("enum:v1", "TestEnum");
    EnumValueDerivation(EnumEnv, c1, fuel);
    assert kE != kV by { assert kE.name[0] != kV.name[0]; }
    SchemasOfNewApi(c1, "enum:v1", kV, kE, EnumValueSchema("enum:v1"), TestEnumSchema(["VALUE1", "value_2"]));
  }
}
