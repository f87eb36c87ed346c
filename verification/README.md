# Endpoints Framework: servlet parameters and schema derivation, in Dafny

A verified functional model of two pieces of the Cloud Endpoints Java framework.

**Servlet initialization parameters** (`ServletInitializationParameters`): the record of seven
boolean switches, an optional API Explorer URL template and an ordered set of service classes
that configures the Endpoints servlet. The model covers:

- the builder and its documented defaults;
- `addServiceClass` and `addServiceClasses`;
- `fromServletConfig`, which reads the servlet's string init parameters and starts from the
  defaults. It parses booleans strictly but case-insensitively, splits the `services` value as
  CSV, and copies the URL template as is;
- `asMap`, which writes the record back out as a string map.

Files: `servlet_params.dfy` (module `ServletParams`) and `csv.dfy` (module `Csv`, Guava's
`Splitter.on(',').omitEmptyStrings().trimResults()` and `Joiner.on(',')`).

**Schema derivation** (`SchemaRepository.getOrAdd` / `get` / `getAllSchemaForApi`), the
repository that turns Java types into API schemas. SchemaRepository.java is not part of this
model. The derivation is modelled from the behaviour SchemaRepositoryTest.java asserts, over:

- an abstract type descriptor in place of reflection;
- an explicit `Flags` record in place of the `EndpointsFlag` system properties;
- a cache keyed by (API key, canonical name) and threaded through the derivation.

The files:

- `schema_types.dfy` (`SchemaTypes`): the type descriptors and the `Schema`/`Field` output.
  It also holds canonical naming (`Parameterized_Integer`, `IntegerCollection`,
  `Map_String_Map_String_String`), the precedence of the tri-state `required` markers, and enum
  values and descriptions.
- `schema_plan.dfy` (`SchemaPlan`): the part that does not look at the cache. This is
  unwrapping one `Optional`, applying a transformer, substituting generic arguments, and
  classifying a type. A type is classified as an error, one of the two shared schemas (`ANY`,
  the opaque JSON map), or a named schema to build. This includes the map decision table under
  the three map flags.
- `schema_repository.dfy` (`SchemaRepository`): derivation against the cache. A bean or map
  being built holds its slot with a placeholder, so a self-referencing type terminates. It also
  defines the cache invariants (`Sound`, `Valid`, `Grows`) that every derivation preserves.
- `repository_laws.dfy` (`RepositoryLaws`): laws across calls.
  - A second `getOrAdd` is a cache hit.
  - `get` finds exactly what `getOrAdd` stored.
  - Other APIs are untouched.
  - An `Optional` or a transformed type derives as what it stands for.
  - A bean gets one field per property, in order.
- `schema_scenarios.dfy` (`SchemaScenarios`): the test's fixtures as descriptors, and the
  schema derived for each case the test exercises.
- `wrappers.dfy` (`Wrappers`): `Option` and `Result`.

Derivation takes a `fuel` argument that bounds recursion depth. Every scenario that derives a
schema is proved for all fuel above the depth it needs (any `fuel` for an enum, `fuel + 1` or
`fuel + 2` otherwise).

## Model

Source paths:

- `S` = `endpoints-framework/src/main/java/com/google/api/server/spi/ServletInitializationParameters.java`.
- `T` = `endpoints-framework/src/test/java/com/google/api/server/spi/config/model/SchemaRepositoryTest.java`.

The table spells both out in full.

| member | source | states |
|---|---|---|
| ServletParams.SetBool | endpoints-framework/src/main/java/com/google/api/server/spi/ServletInitializationParameters.java:145-188 | A builder setter sets its own boolean. It leaves the other six booleans, the services and the URL template unchanged. |
| ServletParams.AddServiceClass | endpoints-framework/src/main/java/com/google/api/server/spi/ServletInitializationParameters.java:122-130 | Adding a class to the ordered set keeps it duplicate-free. It then holds exactly the old names plus the new one. Existing names keep their positions, and no other field changes. |
| ServletParams.FirstOccurrences | endpoints-framework/src/main/java/com/google/api/server/spi/ServletInitializationParameters.java:132-138 | What an insertion-ordered set holding `present` gains from `names`. Position `i` is kept exactly when `names[i]` is neither present nor earlier in `names`. The result is duplicate-free, and a name is in it exactly when it is in `names` and not in `present`. |
| ServletParams.AddServiceClassesKeepsFirstOccurrences | endpoints-framework/src/main/java/com/google/api/server/spi/ServletInitializationParameters.java:132-138 | Adding several classes gives the classes already there, followed by the first occurrence of each added class not yet present, in iteration order. So duplicates collapse and first-come order is kept. |
| ServletParams.AddServiceClassesKeepsPrefix | endpoints-framework/src/main/java/com/google/api/server/spi/ServletInitializationParameters.java:122-138 | Adding classes never moves or drops a class already present: the old set is a prefix of the new one. |
| ServletParams.AddNewServiceClasses | endpoints-framework/src/main/java/com/google/api/server/spi/ServletInitializationParameters.java:132-138 | Distinct names that are not yet present are appended, in iteration order. |
| ServletParams.ParseBoolean | endpoints-framework/src/main/java/com/google/api/server/spi/ServletInitializationParameters.java:248-257 | Gives true exactly when the string equals "true" ignoring case, and false exactly when it equals "false" ignoring case. Every other string is an error carrying the parameter name and the offending value. |
| ServletParams.ParseBooleanIgnoresCase | endpoints-framework/src/main/java/com/google/api/server/spi/ServletInitializationParameters.java:248-253 | Every mix of upper- and lower-case ASCII letters spelling "true" parses as true, and likewise for "false". |
| ServletParams.LongSIsAcceptedAsFalse | endpoints-framework/src/main/java/com/google/api/server/spi/ServletInitializationParameters.java:251-252 | Java's case-insensitive comparison makes "falſe" (long s) parse as false. |
| ServletParams.PaddedBooleanIsRejected | endpoints-framework/src/main/java/com/google/api/server/spi/ServletInitializationParameters.java:248-257 | Boolean values are not trimmed: " true" is the error naming the parameter and " true". |
| ServletParams.ParseBooleanRoundTrip | endpoints-framework/src/main/java/com/google/api/server/spi/ServletInitializationParameters.java:248-253 | `Boolean.toString(b)` parses back to `b`. |
| ServletParams.ApplyBooleans | endpoints-framework/src/main/java/com/google/api/server/spi/ServletInitializationParameters.java:210-242 | Reads the boolean parameters in order. It succeeds exactly when none present is malformed. A present parameter sets its field to its parsed value and an absent one leaves it. On failure the error names the first malformed parameter in reading order. Services and the URL template are untouched. |
| ServletParams.FromServletConfig | endpoints-framework/src/main/java/com/google/api/server/spi/ServletInitializationParameters.java:200-246 | A null config gives the builder defaults. Otherwise it succeeds exactly when no boolean parameter is malformed, and each boolean is its parsed value if present and its default if absent. The URL template is copied from the config, null when absent. The services are the first occurrences, in order, of the names in the CSV `services` value, and none when it is absent. Any error names the first malformed boolean parameter. |
| ServletParams.NullConfigGivesDefaults | endpoints-framework/src/main/java/com/google/api/server/spi/ServletInitializationParameters.java:105-115 | A null config yields exactly these defaults: whitelist on, illegal-argument-as-backend-error off, exception compatibility on, pretty print on, content length off, parameter validation on, content-type validation off, no template, no services. |
| ServletParams.EmptyConfigGivesDefaults | endpoints-framework/src/main/java/com/google/api/server/spi/ServletInitializationParameters.java:200-246 | A config with no parameters yields the same record as `builder()`. |
| ServletParams.PresentParameterReplacesOnlyItsField | endpoints-framework/src/main/java/com/google/api/server/spi/ServletInitializationParameters.java:210-242 | Setting one boolean parameter to a well-formed value changes that field and nothing else in the result. |
| ServletParams.AbsentParameterKeepsDefault | endpoints-framework/src/main/java/com/google/api/server/spi/ServletInitializationParameters.java:210-242 | Removing a boolean parameter puts its field back to the builder default and changes nothing else. |
| ServletParams.BooleanKeyLeavesOthers | endpoints-framework/src/main/java/com/google/api/server/spi/ServletInitializationParameters.java:204-243 | Configs that differ only in one boolean parameter list the same services and the same URL template. |
| ServletParams.AsMap | endpoints-framework/src/main/java/com/google/api/server/spi/ServletInitializationParameters.java:271-283 | The map has exactly the nine parameter keys. Services are joined with ','. Each boolean is "true" or "false". The template is its value or null. |
| ServletParams.AsMapBooleansParse | endpoints-framework/src/main/java/com/google/api/server/spi/ServletInitializationParameters.java:274-280 | Every boolean that `asMap` writes is present and parses back to its field. |
| ServletParams.AsMapRoundTrip | endpoints-framework/src/main/java/com/google/api/server/spi/ServletInitializationParameters.java:271-283 | Reading `asMap(p)` back through `fromServletConfig` succeeds. It gives the same seven booleans and the same URL template as `p`. |
| ServletParams.AsMapRoundTripExact | endpoints-framework/src/main/java/com/google/api/server/spi/ServletInitializationParameters.java:48-49 | With distinct service names that are non-empty, comma-free and unpadded, reading `asMap(p)` back gives `p` itself, services included. |
| Csv.TrimStart | endpoints-framework/src/main/java/com/google/api/server/spi/ServletInitializationParameters.java:48 | The result is a suffix of the input, everything removed is whitespace, and the result does not start with whitespace. |
| Csv.TrimEnd | endpoints-framework/src/main/java/com/google/api/server/spi/ServletInitializationParameters.java:48 | The result is a prefix of the input, everything removed is whitespace, and the result does not end with whitespace. |
| Csv.TrimIsTrimmed | endpoints-framework/src/main/java/com/google/api/server/spi/ServletInitializationParameters.java:48 | A trimmed piece has whitespace at neither end. |
| Csv.TrimmedIsFixedPoint | endpoints-framework/src/main/java/com/google/api/server/spi/ServletInitializationParameters.java:48 | Trimming leaves a string with no whitespace at either end unchanged, so trimming twice is trimming once. |
| Csv.TrimAvoids | endpoints-framework/src/main/java/com/google/api/server/spi/ServletInitializationParameters.java:48 | Trimming introduces no character the input did not have. |
| Csv.SplitOn | endpoints-framework/src/main/java/com/google/api/server/spi/ServletInitializationParameters.java:48 | Splitting gives at least one piece. No piece contains the separator, and joining the pieces with it gives back the input. |
| Csv.SplitPiece | endpoints-framework/src/main/java/com/google/api/server/spi/ServletInitializationParameters.java:48 | A value without a comma holds its trimmed self, or nothing when it trims to nothing. |
| Csv.SplitConcat | endpoints-framework/src/main/java/com/google/api/server/spi/ServletInitializationParameters.java:48 | The names of `x,y` are the names of `x` followed by the names of `y`. With `SplitPiece` this determines the splitter's output on every input. |
| Csv.SplitKeepsNonBlankPieces | endpoints-framework/src/main/java/com/google/api/server/spi/ServletInitializationParameters.java:48 | Both directions: every comma-separated piece that trims to something is among the names, trimmed, and every name is such a trimmed piece. |
| Csv.SplitDropsBlankPieces | endpoints-framework/src/main/java/com/google/api/server/spi/ServletInitializationParameters.java:48 | `a, ,b ` (blank piece, trailing padding) holds exactly `a` then `b`, for any clean names and any run of whitespace. |
| Csv.KeepTrimmedNonEmptyAppend | endpoints-framework/src/main/java/com/google/api/server/spi/ServletInitializationParameters.java:48 | Trimming and dropping empties distributes over concatenation, so names keep the order of their pieces. |
| Csv.KeepTrimmedNonEmptyMembers | endpoints-framework/src/main/java/com/google/api/server/spi/ServletInitializationParameters.java:48 | The names kept are exactly the pieces that trim to something, trimmed. |
| Csv.SplitOnConcat | endpoints-framework/src/main/java/com/google/api/server/spi/ServletInitializationParameters.java:48 | Splitting on the separator at a join point gives the left part's pieces followed by the right part's. |
| Csv.EmptySplitsToNothing | endpoints-framework/src/main/java/com/google/api/server/spi/ServletInitializationParameters.java:48 | An empty `services` value lists no names. |
| Csv.SplitOnJoinWith | endpoints-framework/src/main/java/com/google/api/server/spi/ServletInitializationParameters.java:48-49 | Splitting undoes joining when no part contains the separator. |
| Csv.KeepCleanNames | endpoints-framework/src/main/java/com/google/api/server/spi/ServletInitializationParameters.java:48 | Trimming and dropping empties leaves a list of clean names unchanged. |
| Csv.SplitJoin | endpoints-framework/src/main/java/com/google/api/server/spi/ServletInitializationParameters.java:48-49 | The CSV splitter undoes the CSV joiner on clean names, order included. |
| Csv.SplitJoinSplit | endpoints-framework/src/main/java/com/google/api/server/spi/ServletInitializationParameters.java:48-49 | Whatever the input, joining the splitter's names and splitting again gives the same names. |
| SchemaTypes.SingleArgumentName | endpoints-framework/src/test/java/com/google/api/server/spi/config/model/SchemaRepositoryTest.java:514-516 | A class with one type argument is named `<Raw>_<argument's simple name>`. |
| SchemaTypes.PlainClassName | endpoints-framework/src/test/java/com/google/api/server/spi/config/model/SchemaRepositoryTest.java:303-304 | A class without arguments is named by its simple name. |
| SchemaTypes.ParameterizationsHaveDistinctNames | endpoints-framework/src/test/java/com/google/api/server/spi/config/model/SchemaRepositoryTest.java:514-528 | Two parameterizations of one class whose arguments have different names get different schema names, and so different cache slots. |
| SchemaTypes.FirstMarker | endpoints-framework/src/test/java/com/google/api/server/spi/config/model/SchemaRepositoryTest.java:452-488 | The result is set exactly when some marker is set. It is then the value of the first set marker. |
| SchemaTypes.RequiredPrecedence | endpoints-framework/src/test/java/com/google/api/server/spi/config/model/SchemaRepositoryTest.java:571-620 | `required` follows precedence. An explicit `@ApiResourceProperty(required)` wins, then `@Nonnull` (true), then `@Nullable` (false). With none of them, `required` is unset. |
| SchemaTypes.EnumValues | endpoints-framework/src/test/java/com/google/api/server/spi/config/model/SchemaRepositoryTest.java:225-254 | One value per constant, in declaration order. The value is the Jackson override name when the flag is on and the constant has one, and the identifier otherwise. |
| SchemaTypes.EnumDescriptions | endpoints-framework/src/test/java/com/google/api/server/spi/config/model/SchemaRepositoryTest.java:233-234 | One description per constant, in order; an undocumented constant has "". |
| SchemaTypes.EnumSchema | endpoints-framework/src/test/java/com/google/api/server/spi/config/model/SchemaRepositoryTest.java:225-236 | An enum's schema is a well-shaped "string" schema under the enum's name. Its values and descriptions run parallel to the constants. |
| SchemaPlan.SubstituteProperties | endpoints-framework/src/test/java/com/google/api/server/spi/config/model/SchemaRepositoryTest.java:423-437 | A parameterization keeps the class's properties in order, each with its type's variables bound to the arguments. |
| SchemaPlan.MapDecisionTable | endpoints-framework/src/test/java/com/google/api/server/spi/config/model/SchemaRepositoryTest.java:90-211 | The map decision table, each outcome stated both ways. When the opaque schema is not forced and no type variable occurs, an unsupported key type is an error without the ignore flag. A string-compatible key gives a typed `Map_<K>_<V>` schema, except that an array value needs array support. Every other map gets the opaque map schema. |
| SchemaPlan.MapFlagsOnlyRelax | endpoints-framework/src/test/java/com/google/api/server/spi/config/model/SchemaRepositoryTest.java:133-193 | The ignore flag turns exactly the errors into the opaque schema. The array flag only turns an opaque array-valued map into a typed one. |
| SchemaPlan.BindingsLookup | endpoints-framework/src/test/java/com/google/api/server/spi/config/model/SchemaRepositoryTest.java:423-437 | Each of a class's distinct type parameters is bound to the argument at its position. |
| SchemaPlan.SubstituteClosed | endpoints-framework/src/test/java/com/google/api/server/spi/config/model/SchemaRepositoryTest.java:423-437 | Substitution leaves a type without type variables unchanged. |
| SchemaPlan.OptionalUnwrapsOnce | endpoints-framework/src/test/java/com/google/api/server/spi/config/model/SchemaRepositoryTest.java:256-293 | An `Optional` is unwrapped exactly when it wraps something other than a collection, a map, `Object`, a type variable or another `Optional`. Anything else is an error naming the `Optional`. |
| SchemaRepository.Derive | endpoints-framework/src/test/java/com/google/api/server/spi/config/model/SchemaRepositoryTest.java:295-312 | Derivation only adds finished entries for its own API, and it keeps the cache sound. The result is well-shaped and stored under its name, unless it is a shared schema. A rejection or shared schema is returned without touching the cache. A type already in the cache is always found. |
| SchemaRepository.FieldFor | endpoints-framework/src/test/java/com/google/api/server/spi/config/model/SchemaRepositoryTest.java:514-535 | A field carries its name and tri-state `required`. Its kind follows its type: inline scalar, enum reference, object reference, or an array whose unnamed item field in turn describes the element type. Every reference resolves in its API, and the cache only grows. |
| SchemaRepository.FieldsFor | endpoints-framework/src/test/java/com/google/api/server/spi/config/model/SchemaRepositoryTest.java:514-535 | A bean has one field per property, in property order, each the field of that property: its name, its `required`, and a kind that follows its type down to the items of nested arrays. |
| SchemaRepository.BuildEnum | endpoints-framework/src/test/java/com/google/api/server/spi/config/model/SchemaRepositoryTest.java:225-237 | An enum is stored at once as its enum schema, and the cache stays sound. |
| SchemaRepository.FinishBeanKeepsSound | endpoints-framework/src/test/java/com/google/api/server/spi/config/model/SchemaRepositoryTest.java:303-311 | Storing a bean's "object" schema over its placeholder keeps the cache sound. The cache grows only for the API. The stored schema is well-shaped and is the entry under the bean's name. |
| SchemaRepository.FinishMapKeepsSound | endpoints-framework/src/test/java/com/google/api/server/spi/config/model/SchemaRepositoryTest.java:119-126 | Storing a map's "object" schema over its placeholder keeps the cache sound. The cache grows only for the API. The stored schema is well-shaped and is the entry under the map's name. |
| SchemaRepository.GetOrAdd | endpoints-framework/src/test/java/com/google/api/server/spi/config/model/SchemaRepositoryTest.java:57-88 | The cache stays valid and only grows for the environment's API. The schema is well-shaped. A type that does not normalize is that error. |
| SchemaRepository.Get | endpoints-framework/src/test/java/com/google/api/server/spi/config/model/SchemaRepositoryTest.java:322-328 | `get` returns only schemas finished and stored under their own name for the API. |
| SchemaRepository.StoreKeepsSound | endpoints-framework/src/test/java/com/google/api/server/spi/config/model/SchemaRepositoryTest.java:295-312 | Storing a sound entry keeps the whole cache sound. |
| RepositoryLaws.GetOrAddIdempotent | endpoints-framework/src/test/java/com/google/api/server/spi/config/model/SchemaRepositoryTest.java:295-312 | A second `getOrAdd` of the same type, with any fuel, returns the same schema and leaves the cache unchanged. |
| RepositoryLaws.GetOrAddOfStoredTypeKeepsCache | endpoints-framework/src/test/java/com/google/api/server/spi/config/model/SchemaRepositoryTest.java:301-302 | `getOrAdd` of a type that `get` finds returns that schema and changes nothing. |
| RepositoryLaws.GetFindsWhatGetOrAddStored | endpoints-framework/src/test/java/com/google/api/server/spi/config/model/SchemaRepositoryTest.java:322-328 | After `getOrAdd` of a type with a named schema, `get` returns that schema, and it is among the API's schemas. |
| RepositoryLaws.GetOfUnusedApiIsAbsent | endpoints-framework/src/test/java/com/google/api/server/spi/config/model/SchemaRepositoryTest.java:324-325 | `get` never derives: it finds nothing for an API with nothing stored. |
| RepositoryLaws.GetOrAddLeavesOtherApis | endpoints-framework/src/test/java/com/google/api/server/spi/config/model/SchemaRepositoryTest.java:330-354 | Deriving for one API leaves every other API's schemas exactly as they were. |
| RepositoryLaws.StoredReferencesResolve | endpoints-framework/src/test/java/com/google/api/server/spi/config/model/SchemaRepositoryTest.java:345-353 | Every schema stored for an API is well-shaped. It refers only to schemas of that same API or to the shared ones. |
| RepositoryLaws.OptionalDerivesAsInner | endpoints-framework/src/test/java/com/google/api/server/spi/config/model/SchemaRepositoryTest.java:256-272 | An `Optional` of a scalar, an enum or a bean derives exactly as the wrapped type, cache included. |
| RepositoryLaws.OptionalOfContainerIsRejected | endpoints-framework/src/test/java/com/google/api/server/spi/config/model/SchemaRepositoryTest.java:274-293 | An `Optional` of a collection, a map, `Object` or another `Optional` is an error naming the `Optional`. |
| RepositoryLaws.ScalarRootIsRejected | endpoints-framework/src/test/java/com/google/api/server/spi/config/model/SchemaRepositoryTest.java:220-223 | An untransformed scalar root type is an error. |
| RepositoryLaws.TransformedTypeDerivesAsTarget | endpoints-framework/src/test/java/com/google/api/server/spi/config/model/SchemaRepositoryTest.java:213-218 | A type with a transformer derives exactly as the transformer's target type. |
| RepositoryLaws.BeanSchemaFollowsProperties | endpoints-framework/src/test/java/com/google/api/server/spi/config/model/SchemaRepositoryTest.java:514-535 | A newly derived bean is an "object" schema under its canonical name. It has one field per substituted property, in order, each with the property's name, `required` and kind, array items included. |
| RepositoryLaws.GetOrAddOfUnnamedType | endpoints-framework/src/test/java/com/google/api/server/spi/config/model/SchemaRepositoryTest.java:207-211 | A type classified as a shared schema returns it, and one classified as an error returns the error; the cache is untouched either way. |
| RepositoryLaws.DeriveBeanUnfold | endpoints-framework/src/test/java/com/google/api/server/spi/config/model/SchemaRepositoryTest.java:295-312 | A bean not yet stored takes its slot with a placeholder before its fields are derived. |
| RepositoryLaws.DeriveEnum | endpoints-framework/src/test/java/com/google/api/server/spi/config/model/SchemaRepositoryTest.java:225-237 | An enum not yet stored is stored as its enum schema, whatever the fuel. |
| RepositoryLaws.DeriveMapUnfold | endpoints-framework/src/test/java/com/google/api/server/spi/config/model/SchemaRepositoryTest.java:117-131 | A typed map not yet stored takes its slot with a placeholder before its value field is derived. |
| RepositoryLaws.ScalarFieldIsInline | endpoints-framework/src/test/java/com/google/api/server/spi/config/model/SchemaRepositoryTest.java:549-552 | A scalar field is inline and stores nothing. |
| RepositoryLaws.ScalarArrayFieldIsInline | endpoints-framework/src/test/java/com/google/api/server/spi/config/model/SchemaRepositoryTest.java:541-548 | An array of scalars is an array field whose unnamed item field is the scalar, and it stores nothing. |
| RepositoryLaws.ArrayFieldWrapsItem | endpoints-framework/src/test/java/com/google/api/server/spi/config/model/SchemaRepositoryTest.java:541-548 | An array field wraps the field of its element type: the item is named as array items are, has no `required`, and is derived one level deeper in the same cache. When the item cannot be derived, neither can the array field, and its error is passed on. |
| RepositoryLaws.EnumFieldRefersToEnum | endpoints-framework/src/test/java/com/google/api/server/spi/config/model/SchemaRepositoryTest.java:529-533 | An enum field refers to the enum's schema in the same API, and stores that schema if it is missing. |
| RepositoryLaws.ObjectFieldRefersToSchema | endpoints-framework/src/test/java/com/google/api/server/spi/config/model/SchemaRepositoryTest.java:522-528 | A bean or map field exists exactly when its type's schema does. It refers to that schema by name in the same API. |
| RepositoryLaws.FieldsForCons | endpoints-framework/src/test/java/com/google/api/server/spi/config/model/SchemaRepositoryTest.java:514-535 | A bean's fields are its first property's field followed by the rest, each derived in the cache left by the one before. |
| RepositoryLaws.InlineScalarFields | endpoints-framework/src/test/java/com/google/api/server/spi/config/model/SchemaRepositoryTest.java:571-620 | A bean of untransformed scalar properties gets one inline field per property, with its name and `required`, and stores nothing. |
| SchemaScenarios.TestEnumSchemaIs | endpoints-framework/src/test/java/com/google/api/server/spi/config/model/SchemaRepositoryTest.java:225-254 | `TestEnum` lists `VALUE1` and `value_2` with Jackson annotations and `VALUE1` and `VALUE2` without; both descriptions are "". |
| SchemaScenarios.EnumSchemaUsesWireNames | endpoints-framework/src/test/java/com/google/api/server/spi/config/model/SchemaRepositoryTest.java:225-236 | `getOrAdd(TestEnum)` is the "string" schema with values `VALUE1` and `value_2`. |
| SchemaScenarios.EnumSchemaWithoutJackson | endpoints-framework/src/test/java/com/google/api/server/spi/config/model/SchemaRepositoryTest.java:238-254 | With Jackson annotations off, the values are `VALUE1` and `VALUE2`. |
| SchemaScenarios.OptionalEnumIsEnum | endpoints-framework/src/test/java/com/google/api/server/spi/config/model/SchemaRepositoryTest.java:261-272 | `Optional<TestEnum>` has the enum's schema. |
| SchemaScenarios.PrimitiveRootIsRejected | endpoints-framework/src/test/java/com/google/api/server/spi/config/model/SchemaRepositoryTest.java:220-223 | `int` as a root type is an error. |
| SchemaScenarios.OptionalContainersAreRejected | endpoints-framework/src/test/java/com/google/api/server/spi/config/model/SchemaRepositoryTest.java:274-293 | `Optional<List<String>>`, `Optional<Map<String, String>>`, `Optional<Object>` and `Optional<Optional<String>>` are errors. |
| SchemaScenarios.ObjectIsAny | endpoints-framework/src/test/java/com/google/api/server/spi/config/model/SchemaRepositoryTest.java:83-88 | `Object` has the shared `ANY` schema. |
| SchemaScenarios.ArrayValuedMapIsOpaque | endpoints-framework/src/test/java/com/google/api/server/spi/config/model/SchemaRepositoryTest.java:92-93 | `Map<String, String[]>` is the opaque map by default. |
| SchemaScenarios.ArrayKeyedMapIsRejected | endpoints-framework/src/test/java/com/google/api/server/spi/config/model/SchemaRepositoryTest.java:94-100 | `Map<String[], String>` is an unsupported-key error by default. |
| SchemaScenarios.ParameterizedMapsAreOpaque | endpoints-framework/src/test/java/com/google/api/server/spi/config/model/SchemaRepositoryTest.java:160-165 | `Map<K, V>`, `Map<K, String>` and `Map<String, V>` are the opaque map. |
| SchemaScenarios.RawMapIsOpaque | endpoints-framework/src/test/java/com/google/api/server/spi/config/model/SchemaRepositoryTest.java:167-170 | A raw `Map` is the opaque map. |
| SchemaScenarios.IgnoredKeyTypeIsOpaque | endpoints-framework/src/test/java/com/google/api/server/spi/config/model/SchemaRepositoryTest.java:133-141 | With the ignore flag, the array-keyed map is opaque instead of an error. |
| SchemaScenarios.ForcedJsonMap | endpoints-framework/src/test/java/com/google/api/server/spi/config/model/SchemaRepositoryTest.java:195-205 | With the force flag, the enum map, the array-valued map and the array-keyed map are all opaque. |
| SchemaScenarios.StringEnumMapSchema | endpoints-framework/src/test/java/com/google/api/server/spi/config/model/SchemaRepositoryTest.java:101-115 | `Map<String, TestEnum>` is `Map_String_TestEnum`, whose map-value field refers to `TestEnum`. |
| SchemaScenarios.MapSubclassSchema | endpoints-framework/src/test/java/com/google/api/server/spi/config/model/SchemaRepositoryTest.java:117-128 | `MyMap` has the `Map_String_String` schema with a string map value. |
| SchemaScenarios.MapSubSubclassSchema | endpoints-framework/src/test/java/com/google/api/server/spi/config/model/SchemaRepositoryTest.java:129-130 | `MySubMap` has the same `Map_String_String` schema. |
| SchemaScenarios.NestedMapSchema | endpoints-framework/src/test/java/com/google/api/server/spi/config/model/SchemaRepositoryTest.java:143-158 | `Map<String, Map<String, String>>` is `Map_String_Map_String_String`, whose value refers to `Map_String_String`. |
| SchemaScenarios.ArrayValuedMapSchema | endpoints-framework/src/test/java/com/google/api/server/spi/config/model/SchemaRepositoryTest.java:172-193 | With array values supported, `Map<String, String[]>` is `Map_String_StringCollection`. Its map value is an array of strings. |
| SchemaScenarios.ParameterizedDerives | endpoints-framework/src/test/java/com/google/api/server/spi/config/model/SchemaRepositoryTest.java:514-535 | `Parameterized<a>`, for a scalar `a` other than the transformed `Short`, is `Parameterized_<a>`. Its fields are `foo` inline, then `next` referring to the same schema, then `testEnum` referring to the enum. |
| SchemaScenarios.GenericBeanSchema | endpoints-framework/src/test/java/com/google/api/server/spi/config/model/SchemaRepositoryTest.java:57-69 | `Parameterized<Integer>` is `Parameterized_Integer` with those three fields. |
| SchemaScenarios.TransformerSchema | endpoints-framework/src/test/java/com/google/api/server/spi/config/model/SchemaRepositoryTest.java:213-218 | `Parameterized<Short>`, through its transformer, is `Parameterized_String`. |
| SchemaScenarios.GetBeforeAndAfter | endpoints-framework/src/test/java/com/google/api/server/spi/config/model/SchemaRepositoryTest.java:322-328 | `get(Parameterized<Integer>)` is absent before `getOrAdd` and the derived schema after. |
| SchemaScenarios.CollectionResponseSchema | endpoints-framework/src/test/java/com/google/api/server/spi/config/model/SchemaRepositoryTest.java:537-554 | `CollectionResponse<Integer>` is `CollectionResponse_Integer` with `items` (an array of inline INT32) followed by `nextPageToken` (a string). |
| SchemaScenarios.IntegerCollectionSchema | endpoints-framework/src/test/java/com/google/api/server/spi/config/model/SchemaRepositoryTest.java:556-569 | `int[]` is `IntegerCollection` with the single field `items`, an array of inline INT32. |
| SchemaScenarios.SelfReferencingTwice | endpoints-framework/src/test/java/com/google/api/server/spi/config/model/SchemaRepositoryTest.java:295-312 | `SelfReferencingObject` derives, with `foo` referring to its own schema. Adding it a second time returns the same schema and changes nothing. |
| SchemaScenarios.RequiredMarkersResolve | endpoints-framework/src/test/java/com/google/api/server/spi/config/model/SchemaRepositoryTest.java:452-488 | Each of the nine marker combinations of `RequiredProperties` gets the `required` value the test expects. |
| SchemaScenarios.RequiredPropertiesSchema | endpoints-framework/src/test/java/com/google/api/server/spi/config/model/SchemaRepositoryTest.java:571-620 | `RequiredProperties` has nine string fields in order, with `required` unset, unset, true, false, false, true, true, true, false. |
| SchemaScenarios.OptionalBeanIsBean | endpoints-framework/src/test/java/com/google/api/server/spi/config/model/SchemaRepositoryTest.java:256-259 | `Optional<RequiredProperties>` has the schema of `RequiredProperties`. |
| SchemaScenarios.EnumValueDerivation | endpoints-framework/src/test/java/com/google/api/server/spi/config/model/SchemaRepositoryTest.java:334-335 | Deriving `EnumValue` for an API holding neither it nor `TestEnum` stores both. Its field refers to that API's enum. |
| SchemaScenarios.MultipleApis | endpoints-framework/src/test/java/com/google/api/server/spi/config/model/SchemaRepositoryTest.java:330-354 | After `EnumValue` is added to one API and then to a second, the second API holds exactly `TestEnum` and its own `EnumValue`. |

## Left out

- Class loading: service classes are modelled by their names. `Class.forName` and the
  `ServletException` for a class that cannot be found are not modelled. In the source, that
  exception comes before any boolean error.
- Reading the servlet's `ServletConfig`: it is a finite map in which an absent key stands for
  a null parameter.
- The `restricted` parameter name is declared by the servlet but never read or written, so it
  has no effect here.
- The text of the `IllegalArgumentException` message: the error carries the parameter name and
  the value only.
- ServletParams.FoldCase: `String.equalsIgnoreCase` is modelled for ASCII letters and for the
  four non-ASCII characters Java equates with an ASCII letter (U+017F, U+0131, U+0130, U+212A).
  Other case pairs are compared as they are. This is exact for comparisons against "true" and
  "false", the only use here.
- Csv.IsWhitespace: Guava's `CharMatcher.whitespace()` is taken to be the Unicode White_Space
  set. The Guava version is not pinned by the source.
- SchemaRepository.java is not part of this model. The derivation rules are those that
  SchemaRepositoryTest.java asserts, and where the test leaves a rule open, the model picks
  one plausible rule:
  - the names of the two shared schemas (`_any`, `JsonMap`) and the text of `MAP_UNUSED_MSG`
    are placeholders;
  - scalar roots, boxed or primitive, are errors;
  - a transformer is applied once, after at most one `Optional` is unwrapped;
  - a primitive `int[]` element is described by its boxed name, which gives `IntegerCollection`.
- Map descriptions ("A collection of name / X pairs"): the test attaches them to some map
  schemas and not others, and the rule is not visible.
- Java reflection, `TypeToken`, annotation reading and the configuration loader: they are
  replaced by the `TypeDesc` datatype and a universe of declared classes.
- Lazy `SchemaReference` resolution: a reference is an (API key, name) pair.
- System properties: replaced by an explicit `Flags` value.
- Concurrency and locking around the cache.
- SchemaRepository.GetOrAdd: derivation is bounded by `fuel` and can fail with the model-only
  error `DepthExhausted`. The source has no depth bound. Every scenario that derives a schema
  is proved for all fuel above the depth it needs. Monotonicity in fuel (more fuel never changes a successful result)
  is not proved.
- SchemaRepository.GetOrAdd: a class missing from the universe is the model-only error
  `UndeclaredClass`; the source's reflection always finds the class.
- SchemaPlan.MapPlan: a map with both an unsupported key type and an array value is an
  unsupported-key error without the ignore flag, because the key is checked before the value.
  The test varies one side at a time, so the order of the two checks is a choice here, and the
  opaque map is an equally plausible outcome.
- SchemaPlan.IsArrayValued: an `Optional` map value is not looked through. Its field is derived
  as a property's would be, which rejects an `Optional` of an array. So
  `Map<String, Optional<List<String>>>` is an error under either setting of the array-values
  flag (`SchemaScenarios.OptionalArrayValuedMapIsRejected`). The test has no such map.
- SchemaRepository.GetOrAdd: a failed derivation returns no cache. Placeholders and enum
  schemas stored before the error are discarded with it; a cache mutated in place would keep
  them.
- SchemaRepository.AllSchemasFor: an API's schemas are a set, so the insertion order of the
  listing is not modelled.
- SchemaRepository.Get: returns nothing for the shared schemas, which are never stored in the
  cache.
- SchemaScenarios.MultipleApis: the scenarios state the returned schema, and for the two-API
  case the second API's schema set. They do not spell out the whole cache after each call.
