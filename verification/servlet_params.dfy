/** The initialization parameters of the Endpoints servlet: a record of seven booleans, an optional
    API Explorer URL template and an ordered set of service class names; how it is read from the
    servlet's string-keyed init parameters and written back out as a map. */
module ServletParams {
  import opened Wrappers
  import Csv

  // Init parameter names.
  const Services: string := "services"
  /** Declared by the servlet but never read or written by it. */
  const Restricted: string := "restricted"
  const ClientIdWhitelistEnabled: string := "clientIdWhitelistEnabled"
  const IllegalArgumentBackendError: string := "illegalArgumentIsBackendError"
  const ExceptionCompatibility: string := "enableExceptionCompatibility"
  const PrettyPrint: string := "prettyPrint"
  const AddContentLength: string := "addContentLength"
  const ApiExplorerUrlTemplate: string := "apiExplorerUrlTemplate"
  const ParameterValidation: string := "enableValidation"
  const ContentTypeValidation: string := "enableContentTypeValidation"

  /** The boolean parameters, in the order the config is consulted for them. */
  const BooleanKeys: seq<string> := [
    ClientIdWhitelistEnabled, IllegalArgumentBackendError, ExceptionCompatibility, PrettyPrint,
    AddContentLength, ParameterValidation, ContentTypeValidation
  ]

  /** The nine parameters the record is written out as. */
  const ParameterNames: set<string> := {
    Services, ClientIdWhitelistEnabled, IllegalArgumentBackendError, ExceptionCompatibility,
    PrettyPrint, AddContentLength, ParameterValidation, ContentTypeValidation, ApiExplorerUrlTemplate
  }

  /** A servlet's init parameters: a missing key is a parameter whose value is null. */
  type Config = map<string, string>

  /** The parameter record. `serviceClasses` is an insertion-ordered set of class names. */
  datatype Params = Params(
    serviceClasses: seq<string>,
    clientIdWhitelistEnabled: bool,
    illegalArgumentBackendError: bool,
    exceptionCompatibilityEnabled: bool,
    prettyPrintEnabled: bool,
    addContentLength: bool,
    parameterValidationEnabled: bool,
    contentTypeValidationEnabled: bool,
    apiExplorerUrlTemplate: Option<string>)

  /** The error raised for a boolean parameter that is neither "true" nor "false". */
  datatype ParamError = InvalidBoolean(parameter: string, value: string)

  predicate NoDuplicates<T(==)>(s: seq<T>) {
    forall i, j :: 0 <= i < j < |s| ==> s[i] != s[j]
  }

  /** A fresh builder: the documented defaults and no service classes. */
  function Builder(): Params {
    Params([], true, false, true, true, false, true, false, None)
  }

  /** The boolean field a parameter name sets. */
  function BoolField(p: Params, key: string): bool
    requires key in BooleanKeys
  {
    if key == ClientIdWhitelistEnabled then p.clientIdWhitelistEnabled
    else if key == IllegalArgumentBackendError then p.illegalArgumentBackendError
    else if key == ExceptionCompatibility then p.exceptionCompatibilityEnabled
    else if key == PrettyPrint then p.prettyPrintEnabled
    else if key == AddContentLength then p.addContentLength
    else if key == ParameterValidation then p.parameterValidationEnabled
    else p.contentTypeValidationEnabled
  }

  /** The builder setter for the boolean field named `key`. */
  function SetBool(p: Params, key: string, b: bool): (q: Params)
    requires key in BooleanKeys
    ensures BoolField(q, key) == b
    ensures forall k :: k in BooleanKeys && k != key ==> BoolField(q, k) == BoolField(p, k)
    ensures q.serviceClasses == p.serviceClasses
    ensures q.apiExplorerUrlTemplate == p.apiExplorerUrlTemplate
  {
    if key == ClientIdWhitelistEnabled then p.(clientIdWhitelistEnabled := b)
    else if key == IllegalArgumentBackendError then p.(illegalArgumentBackendError := b)
    else if key == ExceptionCompatibility then p.(exceptionCompatibilityEnabled := b)
    else if key == PrettyPrint then p.(prettyPrintEnabled := b)
    else if key == AddContentLength then p.(addContentLength := b)
    else if key == ParameterValidation then p.(parameterValidationEnabled := b)
    else p.(contentTypeValidationEnabled := b)
  }

  /** `Builder.addServiceClass`: adds a name to the ordered set; a name already present is kept
      where it was. */
  function AddServiceClass(p: Params, name: string): (q: Params)
    requires NoDuplicates(p.serviceClasses)
    ensures NoDuplicates(q.serviceClasses)
    ensures forall n :: n in q.serviceClasses <==> n in p.serviceClasses || n == name
    ensures |p.serviceClasses| <= |q.serviceClasses|
    ensures q.serviceClasses[..|p.serviceClasses|] == p.serviceClasses
    ensures q == p.(serviceClasses := q.serviceClasses)
  {
    if name in p.serviceClasses then p
    else
      var names := p.serviceClasses + [name];
      assert names[..|p.serviceClasses|] == p.serviceClasses;
      assert forall i :: 0 <= i < |p.serviceClasses| ==> names[i] == p.serviceClasses[i];
      p.(serviceClasses := names)
  }

  /** `Builder.addServiceClasses`: adds the names one after another. */
  function AddServiceClasses(p: Params, names: seq<string>): (q: Params)
    requires NoDuplicates(p.serviceClasses)
    ensures NoDuplicates(q.serviceClasses)
    ensures forall n :: n in q.serviceClasses <==> n in p.serviceClasses || n in names
    ensures q == p.(serviceClasses := q.serviceClasses)
    decreases |names|
  {
    if |names| == 0 then p
    else AddServiceClasses(AddServiceClass(p, names[0]), names[1..])
  }

  /** The names of `names` that an insertion-ordered set already holding `present` gains: position
      `i` is kept exactly when `names[i]` is neither in `present` nor earlier in `names`. */
  function FirstOccurrences(names: seq<string>, present: seq<string>): (r: seq<string>)
    ensures forall n :: n in r <==> n in names && n !in present
    ensures NoDuplicates(r)
    decreases |names|
  {
    if |names| == 0 then []
    else
      var init := names[..|names| - 1];
      var last := names[|names| - 1];
      assert names == init + [last];
      var rest := FirstOccurrences(init, present);
      if last in present || last in init then rest
      else
        assert forall i :: 0 <= i < |rest| ==> (rest + [last])[i] == rest[i] != last;
        rest + [last]
  }

  /** Adding a name at the end of a batch is adding it after the batch. */
  lemma {:induction false} AddServiceClassesSnoc(p: Params, names: seq<string>, name: string)
    requires NoDuplicates(p.serviceClasses)
    ensures AddServiceClasses(p, names + [name]) == AddServiceClass(AddServiceClasses(p, names), name)
    decreases |names|
  {
    if |names| == 0 {
      assert names + [name] == [name];
      assert [name][1..] == [];
    } else {
      assert (names + [name])[0] == names[0];
      assert (names + [name])[1..] == names[1..] + [name];
      AddServiceClassesSnoc(AddServiceClass(p, names[0]), names[1..], name);
    }
  }

  /** `addServiceClasses` into an `ImmutableSet` builder: the classes already there, followed by the
      first occurrence of each added class not yet present, in iteration order. */
  lemma {:induction false} AddServiceClassesKeepsFirstOccurrences(p: Params, names: seq<string>)
    requires NoDuplicates(p.serviceClasses)
    ensures AddServiceClasses(p, names).serviceClasses == p.serviceClasses + FirstOccurrences(names, p.serviceClasses)
    decreases |names|
  {
    if |names| > 0 {
      var init := names[..|names| - 1];
      var last := names[|names| - 1];
      var q := AddServiceClasses(p, init);
      assert AddServiceClasses(p, names) == AddServiceClass(q, last) by {
        assert names == init + [last];
        AddServiceClassesSnoc(p, init, last);
      }
      var fo := FirstOccurrences(init, p.serviceClasses);
      assert q.serviceClasses == p.serviceClasses + fo by {
        AddServiceClassesKeepsFirstOccurrences(p, init);
      }
      AppendIfAbsent(p.serviceClasses, fo, last, init);
    }
  }

  /** The arithmetic of one more name: appended after the first occurrences exactly when it is
      neither present nor earlier in the batch. */
  lemma AppendIfAbsent(present: seq<string>, fo: seq<string>, last: string, init: seq<string>)
    requires forall n :: n in fo <==> n in init && n !in present
    ensures (if last in present + fo then present + fo else present + fo + [last])
      == present + (if last in present || last in init then fo else fo + [last])
  {
  }

  /** The services a config lists are the first occurrences of its CSV names. */
  lemma ServiceNamesAreFirstOccurrences(c: Config)
    ensures ServiceNames(c) == if Services in c then FirstOccurrences(Csv.Split(c[Services]), []) else []
  {
    if Services in c {
      AddServiceClassesKeepsFirstOccurrences(Builder(), Csv.Split(c[Services]));
    }
  }

  /** Adding names never moves or drops a name already present. */
  lemma {:induction false} AddServiceClassesKeepsPrefix(p: Params, names: seq<string>)
    requires NoDuplicates(p.serviceClasses)
    ensures |p.serviceClasses| <= |AddServiceClasses(p, names).serviceClasses|
    ensures AddServiceClasses(p, names).serviceClasses[..|p.serviceClasses|] == p.serviceClasses
    decreases |names|
  {
    if |names| > 0 {
      var p' := AddServiceClass(p, names[0]);
      AddServiceClassesKeepsPrefix(p', names[1..]);
      var q := AddServiceClasses(p', names[1..]).serviceClasses;
      assert q[..|p.serviceClasses|] == q[..|p'.serviceClasses|][..|p.serviceClasses|];
    }
  }

  /** The case mapping `String.equalsIgnoreCase` applies, for the ASCII letters and for the four
      other characters Java's case rules equate with an ASCII letter. */
  function FoldCase(c: char): char {
    if 'A' <= c <= 'Z' then (c as int + 32) as char
    else if c == '\U{017F}' then 's'
    else if c == '\U{0131}' || c == '\U{0130}' then 'i'
    else if c == '\U{212A}' then 'k'
    else c
  }

  predicate EqualsIgnoreCase(a: string, b: string) {
    |a| == |b| && forall i :: 0 <= i < |a| ==> FoldCase(a[i]) == FoldCase(b[i])
  }

  /** `Boolean.toString`. */
  function BoolToString(b: bool): string {
    if b then "true" else "false"
  }

  /** The servlet's strict boolean parser: "true" or "false" in any case, anything else is an
      error naming the parameter and the offending value. */
  function ParseBoolean(s: string, parameter: string): (r: Result<bool, ParamError>)
    ensures r == Success(true) <==> EqualsIgnoreCase(s, "true")
    ensures r == Success(false) <==> EqualsIgnoreCase(s, "false")
    ensures r.Failure? <==> !EqualsIgnoreCase(s, "true") && !EqualsIgnoreCase(s, "false")
    ensures r.Failure? ==> r.error == InvalidBoolean(parameter, s)
    ensures r.Success? ==> |s| == |BoolToString(r.value)|
  {
    if EqualsIgnoreCase(s, "true") then Success(true)
    else if EqualsIgnoreCase(s, "false") then Success(false)
    else Failure(InvalidBoolean(parameter, s))
  }

  /** A boolean parameter present in the config whose value does not parse. */
  predicate IsBad(config: Config, key: string) {
    key in config && ParseBoolean(config[key], key).Failure?
  }

  /** `keys[j]` is the first of `keys` that is present and malformed. */
  predicate FirstBadAt(config: Config, keys: seq<string>, j: int) {
    0 <= j < |keys| && IsBad(config, keys[j]) && forall i :: 0 <= i < j ==> !IsBad(config, keys[i])
  }

  /** The value a present, well-formed boolean parameter sets. */
  function ParsedValue(config: Config, key: string): bool
    requires key in config && !IsBad(config, key)
  {
    ParseBoolean(config[key], key).value
  }

  /** Reads the boolean parameters `keys`, in order, into `p`: a present one replaces its field,
      an absent one leaves it, and the first malformed one is the error. */
  function ApplyBooleans(p: Params, config: Config, keys: seq<string>): (r: Result<Params, ParamError>)
    requires forall i :: 0 <= i < |keys| ==> keys[i] in BooleanKeys
    ensures r.Success? <==> forall i :: 0 <= i < |keys| ==> !IsBad(config, keys[i])
    ensures r.Success? ==> r.value.serviceClasses == p.serviceClasses
    ensures r.Success? ==> r.value.apiExplorerUrlTemplate == p.apiExplorerUrlTemplate
    ensures r.Success? ==> forall k :: k in BooleanKeys ==>
      BoolField(r.value, k) == if k in keys && k in config then ParsedValue(config, k) else BoolField(p, k)
    ensures r.Failure? ==> exists j :: FirstBadAt(config, keys, j) && r.error == InvalidBoolean(keys[j], config[keys[j]])
    decreases |keys|
  {
    if |keys| == 0 then Success(p)
    else
      var key := keys[0];
      if key in config then
        match ParseBoolean(config[key], key)
        case Failure(e) => Failure(e)
        case Success(b) =>
          var r := ApplyBooleans(SetBool(p, key, b), config, keys[1..]);
          if r.Failure? then
            var j :| FirstBadAt(config, keys[1..], j) && r.error == InvalidBoolean(keys[1..][j], config[keys[1..][j]]);
            assert FirstBadAt(config, keys, j + 1);
            r
          else
            r
      else
        var r := ApplyBooleans(p, config, keys[1..]);
        if r.Failure? then
          var j :| FirstBadAt(config, keys[1..], j) && r.error == InvalidBoolean(keys[1..][j], config[keys[1..][j]]);
          assert FirstBadAt(config, keys, j + 1);
          r
        else
          r
  }

  /** The service class names a config lists: the `services` value split as CSV, duplicates
      collapsed, first occurrence first. */
  function ServiceNames(config: Config): seq<string> {
    if Services in config then AddServiceClasses(Builder(), Csv.Split(config[Services])).serviceClasses
    else []
  }

  /** `fromServletConfig`: starts from the builder defaults; a null config gives exactly them.
      Otherwise services are added from the CSV value, each boolean parameter present replaces
      its default, and the URL template is copied as is (absent means null). */
  function FromServletConfig(config: Option<Config>): (r: Result<Params, ParamError>)
    ensures config.None? ==> r == Success(Builder())
    ensures config.Some? ==> (r.Success? <==> forall k :: k in BooleanKeys ==> !IsBad(config.value, k))
    ensures config.Some? && r.Success? ==> forall k :: k in BooleanKeys ==>
      BoolField(r.value, k) == if k in config.value then ParsedValue(config.value, k) else BoolField(Builder(), k)
    ensures config.Some? && r.Success? ==>
      r.value.apiExplorerUrlTemplate == if ApiExplorerUrlTemplate in config.value
        then Some(config.value[ApiExplorerUrlTemplate]) else None
    ensures config.Some? && r.Success? ==>
      r.value.serviceClasses == if Services in config.value then FirstOccurrences(Csv.Split(config.value[Services]), []) else []
    ensures config.Some? && r.Success? ==> NoDuplicates(r.value.serviceClasses)
    ensures config.Some? && r.Success? ==> forall n :: n in r.value.serviceClasses <==>
      Services in config.value && n in Csv.Split(config.value[Services])
    ensures config.Some? && r.Failure? ==> exists j ::
      (FirstBadAt(config.value, BooleanKeys, j) && r.error == InvalidBoolean(BooleanKeys[j], config.value[BooleanKeys[j]]))
  {
    if config.None? then Success(Builder())
    else
      var c := config.value;
      ServiceNamesAreFirstOccurrences(c);
      var withServices := Builder().(serviceClasses := ServiceNames(c));
      var withBooleans :- ApplyBooleans(withServices, c, BooleanKeys);
      var template := if ApiExplorerUrlTemplate in c then Some(c[ApiExplorerUrlTemplate]) else None;
      Success(withBooleans.(apiExplorerUrlTemplate := template))
  }

  /** The string `asMap` writes for parameter `key`. */
  function Rendered(p: Params, key: string): Option<string>
    requires key in ParameterNames
  {
    if key == Services then Some(Csv.Join(p.serviceClasses))
    else if key == ApiExplorerUrlTemplate then p.apiExplorerUrlTemplate
    else Some(BoolToString(BoolField(p, key)))
  }

  /** `asMap`: the nine parameters as strings; the URL template value is null when unset. */
  function AsMap(p: Params): (m: map<string, Option<string>>)
    ensures m.Keys == ParameterNames
    ensures m[Services] == Some(Csv.Join(p.serviceClasses))
    ensures forall k :: k in BooleanKeys ==> m[k] == Some(BoolToString(BoolField(p, k)))
    ensures m[ApiExplorerUrlTemplate] == p.apiExplorerUrlTemplate
  {
    map key | key in ParameterNames :: Rendered(p, key)
  }

  /** What a servlet sees when given `m` as its init parameters: a null value reads as absent. */
  function ToConfig(m: map<string, Option<string>>): (c: Config)
    ensures forall k :: k in c <==> k in m && m[k].Some?
    ensures forall k :: k in c ==> Some(c[k]) == m[k]
  {
    map k | k in m && m[k].Some? :: m[k].value
  }

  /** Each boolean parameter names its own field. */
  lemma BoolFieldsByName(p: Params)
    ensures BoolField(p, ClientIdWhitelistEnabled) == p.clientIdWhitelistEnabled
    ensures BoolField(p, IllegalArgumentBackendError) == p.illegalArgumentBackendError
    ensures BoolField(p, ExceptionCompatibility) == p.exceptionCompatibilityEnabled
    ensures BoolField(p, PrettyPrint) == p.prettyPrintEnabled
    ensures BoolField(p, AddContentLength) == p.addContentLength
    ensures BoolField(p, ParameterValidation) == p.parameterValidationEnabled
    ensures BoolField(p, ContentTypeValidation) == p.contentTypeValidationEnabled
  {
  }

  /** Two records agreeing on services, URL template and every boolean parameter are equal. */
  lemma ParamsExtensionality(p: Params, q: Params)
    requires p.serviceClasses == q.serviceClasses
    requires p.apiExplorerUrlTemplate == q.apiExplorerUrlTemplate
    requires forall k :: k in BooleanKeys ==> BoolField(p, k) == BoolField(q, k)
    ensures p == q
  {
    BoolFieldsByName(p);
    BoolFieldsByName(q);
    assert BooleanKeys[0] == ClientIdWhitelistEnabled && BooleanKeys[1] == IllegalArgumentBackendError;
    assert BooleanKeys[2] == ExceptionCompatibility && BooleanKeys[3] == PrettyPrint;
    assert BooleanKeys[4] == AddContentLength && BooleanKeys[5] == ParameterValidation;
    assert BooleanKeys[6] == ContentTypeValidation;
  }

  /** A null config yields exactly the builder defaults: client ID whitelist on, illegal argument
      as backend error off, exception compatibility on, pretty printing on, content length off,
      parameter validation on, content type validation off, no URL template, no services. */
  lemma NullConfigGivesDefaults()
    ensures FromServletConfig(None) == Success(Params([], true, false, true, true, false, true, false, None))
  {
  }

  /** A config with no parameters set also yields the defaults. */
  lemma EmptyConfigGivesDefaults()
    ensures FromServletConfig(Some(map[])) == Success(Builder())
  {
    var r := FromServletConfig(Some(map[]));
    assert r.Success?;
    ParamsExtensionality(r.value, Builder());
  }

  /** `word` with each of its (lower-case ASCII) letters possibly upper-cased. */
  predicate IsAsciiCaseVariant(s: string, word: string) {
    |s| == |word| && forall i :: 0 <= i < |s| ==>
      s[i] == word[i] || ('a' <= word[i] <= 'z' && s[i] as int == word[i] as int - 32)
  }

  /** Every ASCII spelling of "true" in any mix of cases parses as true, and likewise "false". */
  lemma ParseBooleanIgnoresCase(s: string, parameter: string)
    ensures IsAsciiCaseVariant(s, "true") ==> ParseBoolean(s, parameter) == Success(true)
    ensures IsAsciiCaseVariant(s, "false") ==> ParseBoolean(s, parameter) == Success(false)
  {
    if IsAsciiCaseVariant(s, "true") {
      assert forall i :: 0 <= i < |s| ==> FoldCase(s[i]) == FoldCase("true"[i]);
    }
    if IsAsciiCaseVariant(s, "false") {
      assert forall i :: 0 <= i < |s| ==> FoldCase(s[i]) == FoldCase("false"[i]);
    }
  }

  /** Java's case-insensitive comparison equates the long s (U+017F) with 's', so "falſe" is
      accepted as false. */
  lemma LongSIsAcceptedAsFalse(parameter: string)
    ensures ParseBoolean("fal\U{017F}e", parameter) == Success(false)
  {
    assert EqualsIgnoreCase("fal\U{017F}e", "false");
  }

  /** Whitespace is not trimmed from boolean values: " true" is an error. */
  lemma PaddedBooleanIsRejected(parameter: string)
    ensures ParseBoolean(" true", parameter) == Failure(InvalidBoolean(parameter, " true"))
  {
    assert !EqualsIgnoreCase(" true", "true");
    assert FoldCase(" true"[0]) != FoldCase("false"[0]);
  }

  /** The strings `Boolean.toString` produces parse back to the same boolean. */
  lemma ParseBooleanRoundTrip(b: bool, parameter: string)
    ensures ParseBoolean(BoolToString(b), parameter) == Success(b)
  {
    if b {
      assert EqualsIgnoreCase("true", "true");
    } else {
      assert EqualsIgnoreCase("false", "false");
    }
  }

  /** The boolean parameters are neither the services list nor the URL template. */
  lemma BooleanKeysAreDistinct(key: string)
    requires key in BooleanKeys
    ensures key != Services && key != ApiExplorerUrlTemplate
  {
  }

  /** Changing or removing a boolean parameter leaves the services and the URL template alone. */
  lemma BooleanKeyLeavesOthers(c: Config, c': Config, key: string)
    requires key in BooleanKeys
    requires forall k :: k != key ==> (k in c' <==> k in c)
    requires forall k :: k != key && k in c ==> c'[k] == c[k]
    ensures ServiceNames(c') == ServiceNames(c)
    ensures (ApiExplorerUrlTemplate in c') == (ApiExplorerUrlTemplate in c)
    ensures ApiExplorerUrlTemplate in c ==> c'[ApiExplorerUrlTemplate] == c[ApiExplorerUrlTemplate]
  {
    BooleanKeysAreDistinct(key);
  }

  /** Setting a boolean parameter to a well-formed value changes that field and nothing else. */
  lemma PresentParameterReplacesOnlyItsField(c: Config, key: string, v: string, b: bool)
    requires FromServletConfig(Some(c)).Success?
    requires key in BooleanKeys
    requires ParseBoolean(v, key) == Success(b)
    ensures FromServletConfig(Some(c[key := v])) == Success(SetBool(FromServletConfig(Some(c)).value, key, b))
  {
    var c' := c[key := v];
    var p := FromServletConfig(Some(c)).value;
    forall k | k in BooleanKeys
      ensures !IsBad(c', k)
    {
      assert !IsBad(c, k);
    }
    var r := FromServletConfig(Some(c'));
    assert r.Success?;
    var q := SetBool(p, key, b);
    forall k | k in BooleanKeys
      ensures BoolField(r.value, k) == BoolField(q, k)
    {
      if k == key {
        assert ParsedValue(c', k) == b;
      }
    }
    BooleanKeyLeavesOthers(c, c', key);
    ParamsExtensionality(r.value, q);
  }

  /** Removing a boolean parameter puts its field back to the default and changes nothing else. */
  lemma AbsentParameterKeepsDefault(c: Config, key: string)
    requires FromServletConfig(Some(c)).Success?
    requires key in BooleanKeys
    ensures FromServletConfig(Some(c - {key}))
      == Success(SetBool(FromServletConfig(Some(c)).value, key, BoolField(Builder(), key)))
  {
    var c' := c - {key};
    var p := FromServletConfig(Some(c)).value;
    forall k | k in BooleanKeys
      ensures !IsBad(c', k)
    {
      assert !IsBad(c, k);
    }
    var r := FromServletConfig(Some(c'));
    assert r.Success?;
    var q := SetBool(p, key, BoolField(Builder(), key));
    forall k | k in BooleanKeys
      ensures BoolField(r.value, k) == BoolField(q, k)
    {
      if k != key {
        assert (k in c') == (k in c);
        if k in c {
          assert c'[k] == c[k];
          assert ParsedValue(c', k) == ParsedValue(c, k);
        }
      }
    }
    BooleanKeyLeavesOthers(c, c', key);
    ParamsExtensionality(r.value, q);
  }

  lemma NoDuplicatesTail<T>(s: seq<T>)
    requires |s| > 0 && NoDuplicates(s)
    ensures NoDuplicates(s[1..]) && s[0] !in s[1..]
  {
    forall i, j | 0 <= i < j < |s| - 1
      ensures s[1..][i] != s[1..][j]
    {
      assert s[1..][i] == s[i + 1] && s[1..][j] == s[j + 1];
    }
  }

  lemma TailIsNew(present: seq<string>, names: seq<string>)
    requires |names| > 0 && names[0] !in names[1..]
    requires forall i :: 0 <= i < |names| ==> names[i] !in present
    ensures forall i :: 0 <= i < |names| - 1 ==> names[1..][i] !in present + [names[0]]
  {
    forall i | 0 <= i < |names| - 1
      ensures names[1..][i] !in present + [names[0]]
    {
      assert names[1..][i] == names[i + 1];
      assert names[1..][i] in names[1..];
    }
  }

  /** Adding a new name first appends it, then adds the rest. */
  lemma AddServiceClassesStep(p: Params, names: seq<string>)
    requires NoDuplicates(p.serviceClasses) && |names| > 0 && names[0] !in p.serviceClasses
    ensures NoDuplicates(p.serviceClasses + [names[0]])
    ensures AddServiceClasses(p, names)
      == AddServiceClasses(p.(serviceClasses := p.serviceClasses + [names[0]]), names[1..])
  {
  }

  /** Adding names that are distinct and new appends them in order. */
  lemma {:induction false} AddNewServiceClasses(p: Params, names: seq<string>)
    requires NoDuplicates(p.serviceClasses)
    requires NoDuplicates(names)
    requires forall i :: 0 <= i < |names| ==> names[i] !in p.serviceClasses
    ensures AddServiceClasses(p, names).serviceClasses == p.serviceClasses + names
    decreases |names|
  {
    if |names| > 0 {
      var rest := names[1..];
      var p' := p.(serviceClasses := p.serviceClasses + [names[0]]);
      assert NoDuplicates(p'.serviceClasses) && AddServiceClasses(p, names) == AddServiceClasses(p', rest) by {
        AddServiceClassesStep(p, names);
      }
      assert AddServiceClasses(p', rest).serviceClasses == p'.serviceClasses + rest by {
        NoDuplicatesTail(names);
        TailIsNew(p.serviceClasses, names);
        AddNewServiceClasses(p', rest);
      }
      AppendHead(p.serviceClasses, names);
    }
  }

  /** Appending the head and then the tail appends the whole sequence. */
  lemma AppendHead<T>(a: seq<T>, s: seq<T>)
    requires |s| > 0
    ensures (a + [s[0]]) + s[1..] == a + s
  {
    assert [s[0]] + s[1..] == s;
  }

  /** Writing the record out with `asMap` and reading it back gives the same seven booleans and
      the same URL template. */
  lemma AsMapRoundTrip(p: Params)
    ensures FromServletConfig(Some(ToConfig(AsMap(p)))).Success?
    ensures forall k :: k in BooleanKeys ==> BoolField(FromServletConfig(Some(ToConfig(AsMap(p)))).value, k) == BoolField(p, k)
    ensures FromServletConfig(Some(ToConfig(AsMap(p)))).value.apiExplorerUrlTemplate == p.apiExplorerUrlTemplate
  {
    AsMapBooleansParse(p);
  }

  /** Every boolean parameter `asMap` writes is present and parses back to its field. */
  lemma AsMapBooleansParse(p: Params)
    ensures forall k :: k in BooleanKeys ==>
      var c := ToConfig(AsMap(p));
      k in c && !IsBad(c, k) && ParsedValue(c, k) == BoolField(p, k)
  {
    var c := ToConfig(AsMap(p));
    forall k | k in BooleanKeys
      ensures k in c && c[k] == BoolToString(BoolField(p, k)) && !IsBad(c, k)
      ensures ParsedValue(c, k) == BoolField(p, k)
    {
      ParseBooleanRoundTrip(BoolField(p, k), k);
    }
  }

  /** The full round trip: when the service names are distinct, non-empty, comma-free and not
      padded with whitespace, reading back `asMap(p)` gives `p` itself. */
  lemma AsMapRoundTripExact(p: Params)
    requires NoDuplicates(p.serviceClasses)
    requires forall i :: 0 <= i < |p.serviceClasses| ==> Csv.IsCleanName(p.serviceClasses[i])
    ensures FromServletConfig(Some(ToConfig(AsMap(p)))) == Success(p)
  {
    var c := ToConfig(AsMap(p));
    AsMapRoundTrip(p);
    var r := FromServletConfig(Some(c));
    Csv.SplitJoin(p.serviceClasses);
    AddNewServiceClasses(Builder(), p.serviceClasses);
    assert ServiceNames(c) == p.serviceClasses;
    ParamsExtensionality(r.value, p);
  }
}
