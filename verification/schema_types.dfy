/** The data of schema derivation: abstract type descriptors in place of Java reflection, the
    policy flags in place of system properties, and the Schema / Field output model; with the
    pure naming, `required` and enum-value rules. */
module SchemaTypes {
  import opened Wrappers

  /** The scalar wire kinds a field can have without a schema of its own. */
  datatype ScalarKind = Boolean | Int32 | Int64 | Float | Double | String

  /** `AnnotationBoolean`, the tri-state `required` override of `@ApiResourceProperty`. */
  datatype AnnotationBoolean = True | False | Unspecified

  /** An enum constant: its identifier, its Jackson wire-name override, its description. */
  datatype EnumConstant = EnumConstant(name: string, wireName: Option<string>, description: Option<string>)

  /** A type as the configuration loader hands it over. Arrays and collections are both
      `ArrayType`; a `ClassType` with no arguments is a plain or raw class, and its declaration
      (bean or map subclass) is looked up in the universe. */
  datatype TypeDesc =
    | Scalar(kind: ScalarKind, simpleName: string)
    | EnumType(name: string, constants: seq<EnumConstant>)
    | ClassType(name: string, args: seq<TypeDesc>)
    | TypeVar(varName: string)
    | ArrayType(element: TypeDesc)
    | MapType(key: TypeDesc, value: TypeDesc)
    | RawMap
    | OptionalType(inner: TypeDesc)
    | AnyType

  /** A readable property of a bean, with its nullability markers. */
  datatype Property = Property(
    name: string,
    typ: TypeDesc,
    requiredOverride: AnnotationBoolean,
    nonnull: bool,
    nullable: bool)

  /** A declared class: a bean with type parameters and properties in declaration order, or a
      subclass of a map whose `Map` supertype has the given arguments. */
  datatype ClassDecl =
    | Bean(typeParams: seq<string>, properties: seq<Property>)
    | MapSubclass(key: TypeDesc, value: TypeDesc)

  type Universe = map<string, ClassDecl>

  /** The `EndpointsFlag` switches that affect schemas, read explicitly. */
  datatype Flags = Flags(
    forceJsonMapSchema: bool,
    ignoreUnsupportedKeyTypes: bool,
    supportArrayValues: bool,
    useJacksonAnnotations: bool)

  const DefaultFlags: Flags := Flags(false, false, false, true)

  /** An API's key, without its root. */
  type ApiKey = string

  /** What the repository takes from an API configuration: its key and its transformers, each
      mapping a source type to the type it is serialized as. */
  datatype ApiConfig = ApiConfig(apiKey: ApiKey, transformers: map<TypeDesc, TypeDesc>)

  /** A reference to the schema named `name` in API `api`. */
  datatype SchemaRef = SchemaRef(api: ApiKey, name: string)

  /** A schema field. The field type carries what goes with it: an enum or object field has a
      schema reference, an array field the field describing its items. */
  datatype Field = Field(name: string, kind: FieldKind, required: Option<bool>)

  datatype FieldKind =
    | ScalarField(scalar: ScalarKind)
    | EnumField(enumRef: SchemaRef)
    | ObjectField(objectRef: SchemaRef)
    | ArrayField(item: Field)

  datatype Schema = Schema(
    name: string,
    typ: string,
    fields: seq<Field>,
    enumValues: seq<string>,
    enumDescriptions: seq<string>,
    mapValue: Option<Field>)

  /** Why a type has no schema: the repository's `IllegalArgumentException`, plus two cases of
      the model itself (a class missing from the universe, the depth bound reached). */
  datatype Unsupported =
    | PrimitiveRoot(root: TypeDesc)
    | UnsupportedOptional(optional: TypeDesc)
    | UnsupportedMapKey(mapKey: TypeDesc)
    | UndeclaredClass(className: string)
    | DepthExhausted

  /** The shared schema of unconstrained types. */
  const AnySchema: Schema := Schema("_any", "any", [], [], [], None)
  /** The shared opaque map schema. */
  const MapSchema: Schema := Schema("JsonMap", "object", [], [], [], None)
  const SentinelNames: set<string> := {AnySchema.name, MapSchema.name}

  /** The names of the fields that describe array items and map values. */
  const ArrayItemName: string := "unused for array items"
  const MapValueName: string := "unused for map values"

  /** A schema has at most one shape: object fields, enum values, or a map value; enum values
      come with one description each and make a "string" schema, fields and a map value make an
      "object" schema. */
  predicate WellShaped(s: Schema) {
    && (|s.fields| > 0 ==> s.enumValues == [] && s.mapValue.None?)
    && (|s.enumValues| > 0 ==> s.mapValue.None? && s.typ == "string")
    && |s.enumValues| == |s.enumDescriptions|
    && (|s.fields| > 0 || s.mapValue.Some? ==> s.typ == "object")
  }

  // ----- Naming -----

  function Concat(parts: seq<string>): string {
    if |parts| == 0 then "" else parts[0] + Concat(parts[1..])
  }

  /** `Types.getSimpleName`: a class's simple name followed by `_<argument name>` for each bound
      type argument; an array or collection is its element's name plus "Collection"; an
      unconstrained type is "Object". */
  function SimpleName(t: TypeDesc): string
    decreases t
  {
    match t
    case Scalar(_, n) => n
    case EnumType(n, _) => n
    case ClassType(n, args) =>
      n + Concat(seq(|args|, i requires 0 <= i < |args| => "_" + SimpleName(args[i])))
    case TypeVar(_) => "Object"
    case ArrayType(e) => SimpleName(e) + "Collection"
    case MapType(k, v) => "Map_" + SimpleName(k) + "_" + SimpleName(v)
    case RawMap => "Map"
    case OptionalType(i) => "Optional_" + SimpleName(i)
    case AnyType => "Object"
  }

  /** One argument: `Raw_Arg`. */
  lemma SingleArgumentName(n: string, a: TypeDesc)
    ensures SimpleName(ClassType(n, [a])) == n + "_" + SimpleName(a)
  {
    var parts := seq(1, i requires 0 <= i < 1 => "_" + SimpleName([a][i]));
    assert Concat(parts) == parts[0] + Concat([]);
  }

  /** A class without arguments is named by its simple name alone. */
  lemma PlainClassName(n: string)
    ensures SimpleName(ClassType(n, [])) == n
  {
  }

  /** Two parameterizations of one class with one argument each get distinct canonical names,
      and so distinct cache slots, whenever their arguments' names differ. */
  lemma ParameterizationsHaveDistinctNames(n: string, a: TypeDesc, b: TypeDesc)
    requires SimpleName(a) != SimpleName(b)
    ensures SimpleName(ClassType(n, [a])) != SimpleName(ClassType(n, [b]))
  {
    SingleArgumentName(n, a);
    SingleArgumentName(n, b);
    var x := n + "_" + SimpleName(a);
    var y := n + "_" + SimpleName(b);
    assert x[|n| + 1..] == SimpleName(a);
    assert y[|n| + 1..] == SimpleName(b);
  }

  // ----- Required -----

  /** The first marker that says something, in precedence order. */
  function FirstMarker(markers: seq<Option<bool>>): (r: Option<bool>)
    ensures r.Some? <==> exists i :: 0 <= i < |markers| && markers[i].Some?
    ensures r.Some? ==> exists i ::
      (0 <= i < |markers| && markers[i] == r && forall j :: 0 <= j < i ==> markers[j].None?)
  {
    if |markers| == 0 then None
    else if markers[0].Some? then markers[0]
    else
      var r := FirstMarker(markers[1..]);
      if r.Some? then
        var i :| 0 <= i < |markers[1..]| && markers[1..][i] == r && forall j :: 0 <= j < i ==> markers[1..][j].None?;
        assert markers[i + 1] == r;
        r
      else
        assert forall i :: 1 <= i < |markers| ==> markers[i] == markers[1..][i - 1];
        r
  }

  /** The property's markers, highest precedence first: the explicit override, `@Nonnull`,
      `@Nullable`. */
  function Markers(p: Property): seq<Option<bool>> {
    [
      match p.requiredOverride
      case True => Some(true)
      case False => Some(false)
      case Unspecified => None,
      if p.nonnull then Some(true) else None,
      if p.nullable then Some(false) else None
    ]
  }

  /** A property's tri-state `required`: the value of its highest-precedence marker, unset when
      it has none. */
  function RequiredOf(p: Property): Option<bool> {
    FirstMarker(Markers(p))
  }

  /** The precedence of the `required` markers: an explicit override beats `@Nonnull` (true),
      which beats `@Nullable` (false); with no marker `required` stays unset. */
  lemma RequiredPrecedence(p: Property)
    ensures p.requiredOverride == True ==> RequiredOf(p) == Some(true)
    ensures p.requiredOverride == False ==> RequiredOf(p) == Some(false)
    ensures p.requiredOverride == Unspecified && p.nonnull ==> RequiredOf(p) == Some(true)
    ensures p.requiredOverride == Unspecified && !p.nonnull && p.nullable ==> RequiredOf(p) == Some(false)
    ensures p.requiredOverride == Unspecified && !p.nonnull && !p.nullable ==> RequiredOf(p) == None
  {
    var m := Markers(p);
    assert FirstMarker(m) == if m[0].Some? then m[0] else FirstMarker(m[1..]);
    assert FirstMarker(m[1..]) == if m[1].Some? then m[1] else FirstMarker(m[1..][1..]);
    assert m[1..][1..] == [m[2]];
    assert FirstMarker([m[2]]) == m[2];
  }

  // ----- Enums -----

  /** The wire name of an enum constant: its override when Jackson annotations are honoured and
      it has one, its identifier otherwise. */
  function WireName(c: EnumConstant, useJacksonAnnotations: bool): string {
    if useJacksonAnnotations && c.wireName.Some? then c.wireName.value else c.name
  }

  /** The enum values, in declaration order. */
  function EnumValues(constants: seq<EnumConstant>, useJacksonAnnotations: bool): (values: seq<string>)
    ensures |values| == |constants|
    ensures forall i :: 0 <= i < |constants| ==> values[i] == WireName(constants[i], useJacksonAnnotations)
  {
    if |constants| == 0 then []
    else [WireName(constants[0], useJacksonAnnotations)] + EnumValues(constants[1..], useJacksonAnnotations)
  }

  /** The enum descriptions, parallel to the values; an undocumented constant has "". */
  function EnumDescriptions(constants: seq<EnumConstant>): (descriptions: seq<string>)
    ensures |descriptions| == |constants|
    ensures forall i :: 0 <= i < |constants| ==> descriptions[i] == constants[i].description.GetOr("")
  {
    if |constants| == 0 then []
    else [constants[0].description.GetOr("")] + EnumDescriptions(constants[1..])
  }

  /** An enum's schema: a "string" schema listing its values and their descriptions. */
  function EnumSchema(name: string, constants: seq<EnumConstant>, flags: Flags): (s: Schema)
    ensures s.name == name && s.typ == "string" && WellShaped(s)
    ensures s.fields == [] && s.mapValue.None?
    ensures |s.enumValues| == |s.enumDescriptions| == |constants|
    ensures forall i :: 0 <= i < |constants| ==>
      s.enumValues[i] == WireName(constants[i], flags.useJacksonAnnotations)
      && s.enumDescriptions[i] == constants[i].description.GetOr("")
  {
    Schema(name, "string", [], EnumValues(constants, flags.useJacksonAnnotations), EnumDescriptions(constants), None)
  }
}
