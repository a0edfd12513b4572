/**
 * Configuration resolution and the format result contract of `EclipseFormatter`.
 *
 * `readConfig` picks a reader by the kind of the configuration file, lays the file's settings over
 * a fixed baseline and wraps every failure into `CannotLoadConfigurationException`. `format` runs
 * the (foreign) Eclipse code formatter and reports "no change" as `None`.
 */
module EclipseFormatter {
  import opened Wrappers
  import opened Preferences
  import opened Strings

  /** A profile of an Eclipse formatter XML file; duplicate keys are already resolved by the reader. */
  datatype Profile = Profile(name: string, settings: map<string, string>)

  /**
   * What the readers obtain from one configuration file on storage: `properties` is the outcome of
   * `Properties.load`, `profiles` that of `ConfigReader.read`, in document order (a `None` element is
   * a `null` entry). `None` for either means that read throws.
   */
  datatype ConfigFile = ConfigFile(
    properties: Option<map<string, string>>,
    profiles: Option<seq<Option<Profile>>>)

  /** The exception a reader throws, before `readConfig` wraps it. */
  datatype ReadFailure = ReadError | ProfileNotFound(message: string)

  /** `CannotLoadConfigurationException` and the exception it wraps. */
  datatype CannotLoadConfiguration = CannotLoadConfiguration(cause: ReadFailure)

  /**
   * What a formatter runs against: the kind tests, the Eclipse Java-conventions settings
   * (`DefaultCodeFormatterConstants.getJavaConventionsSettings`) and the files on storage.
   */
  datatype Environment = Environment(
    classifier: Classifier,
    javaConventions: map<string, string>,
    storage: string -> ConfigFile)

  /** An `EclipseFormatter` holds only the file and the profile name it was constructed with. */
  datatype Formatter = EclipseFormatter(formatterFile: string, formatterProfile: string)

  // ---------------------------------------------------------------------------------------------
  // The baseline

  const CompilerCompliance := "org.eclipse.jdt.core.compiler.compliance"
  const CompilerCodegenTargetPlatform := "org.eclipse.jdt.core.compiler.codegen.targetPlatform"
  const CompilerSource := "org.eclipse.jdt.core.compiler.source"
  const Version16 := "1.6"

  predicate IsPinned(key: string) {
    key == CompilerCompliance || key == CompilerCodegenTargetPlatform || key == CompilerSource
  }

  /** The Java conventions with compliance, code generation target and source pinned to 1.6. */
  function GetFormattingOptions(javaConventions: map<string, string>): (options: map<string, string>)
    ensures options.Keys == javaConventions.Keys + {CompilerCompliance, CompilerCodegenTargetPlatform, CompilerSource}
    ensures options[CompilerCompliance] == Version16
    ensures options[CompilerCodegenTargetPlatform] == Version16
    ensures options[CompilerSource] == Version16
    ensures forall k :: k in javaConventions && !IsPinned(k) ==> options[k] == javaConventions[k]
  {
    javaConventions[CompilerCompliance := Version16]
                   [CompilerCodegenTargetPlatform := Version16]
                   [CompilerSource := Version16]
  }

  /** `putAll` of the baseline, then `putAll` of the file's settings. */
  function Merge(baseline: map<string, string>, overrides: map<string, string>): (r: map<string, string>)
    ensures r.Keys == baseline.Keys + overrides.Keys
    ensures forall k :: k in overrides ==> r[k] == overrides[k]
    ensures forall k :: k in baseline && k !in overrides ==> r[k] == baseline[k]
  {
    baseline + overrides
  }

  // ---------------------------------------------------------------------------------------------
  // Profiles of an XML file

  predicate Matches(entry: Option<Profile>, name: string) {
    entry.Some? && entry.value.name == name
  }

  /**
   * The first non-null profile, in list order, whose name equals `name`; `None` when `name` is
   * null or nothing matches.
   */
  function GetProfileByName(profiles: seq<Option<Profile>>, name: Option<string>): (r: Option<Profile>)
    ensures name.None? ==> r.None?
    ensures r.None? <==> name.None? || forall i :: 0 <= i < |profiles| ==> !Matches(profiles[i], name.value)
    ensures r.Some? ==>
      exists i :: 0 <= i < |profiles| && profiles[i] == r && Matches(profiles[i], name.value) &&
        forall j :: 0 <= j < i ==> !Matches(profiles[j], name.value)
  {
    if name.None? || |profiles| == 0 then None
    else if Matches(profiles[0], name.value) then profiles[0]
    else
      var r := GetProfileByName(profiles[1..], name);
      assert forall j :: 1 <= j < |profiles| ==> profiles[j] == profiles[1..][j - 1];
      r
  }

  /** `readConfigFromFormatterXmlFile`: the settings of the requested profile. */
  function ReadConfigFromFormatterXmlFile(f: Formatter, file: ConfigFile): (r: Result<map<string, string>, ReadFailure>)
    ensures file.profiles.None? ==> r == Failure(ReadError)
    ensures file.profiles == Some([]) ==> r == Failure(ProfileNotFound("No profiles found in " + f.formatterFile))
    ensures file.profiles.Some? && |file.profiles.value| > 0 &&
            (forall i :: 0 <= i < |file.profiles.value| ==> !Matches(file.profiles.value[i], f.formatterProfile)) ==>
              r == Failure(ProfileNotFound("profile " + f.formatterProfile + " not found in " + f.formatterFile))
    ensures file.profiles.Some? &&
            (exists i :: 0 <= i < |file.profiles.value| && Matches(file.profiles.value[i], f.formatterProfile)) ==>
              r.Success?
    ensures r.Success? ==>
      var ps := file.profiles.value;
      file.profiles.Some? &&
      exists i :: 0 <= i < |ps| && Matches(ps[i], f.formatterProfile) && ps[i].value.settings == r.value &&
        forall j :: 0 <= j < i ==> !Matches(ps[j], f.formatterProfile)
  {
    match file.profiles
    case None => Failure(ReadError)
    case Some(profiles) =>
      if |profiles| == 0 then
        Failure(ProfileNotFound("No profiles found in " + f.formatterFile))
      else
        match GetProfileByName(profiles, Some(f.formatterProfile))
        case None => Failure(ProfileNotFound("profile " + f.formatterProfile + " not found in " + f.formatterFile))
        case Some(profile) => Success(profile.settings)
  }

  // ---------------------------------------------------------------------------------------------
  // The two property-file readers

  const WorkspaceMechanicPrefix := "/instance/org.eclipse.jdt.core/"

  /**
   * The settings a workspace-mechanic file contributes: the keys under the JDT core namespace with
   * the namespace prefix removed, values unchanged.
   */
  function WorkspaceMechanicSettings(properties: map<string, string>): (m: map<string, string>)
    ensures forall s :: s in m <==> WorkspaceMechanicPrefix + s in properties
    ensures forall s :: s in m ==> m[s] == properties[WorkspaceMechanicPrefix + s]
  {
    var p := WorkspaceMechanicPrefix;
    forall k1, k2 | k1 in properties && StartsWith(k1, p) && k2 in properties && StartsWith(k2, p) &&
                    k1[|p|..] == k2[|p|..]
      ensures k1 == k2
    {
      PrefixSplit(k1, p);
      PrefixSplit(k2, p);
    }
    var m := map k | k in properties && StartsWith(k, p) :: k[|p|..] := properties[k];
    forall s ensures s in m <==> p + s in properties {
      PrefixJoin(p, s);
      if s in m {
        var k :| k in properties && StartsWith(k, p) && k[|p|..] == s;
        PrefixSplit(k, p);
      }
    }
    forall s | s in m ensures m[s] == properties[p + s] {
      PrefixJoin(p, s);
    }
    m
  }

  function WorkspaceMechanicResult(file: ConfigFile): Result<map<string, string>, ReadFailure> {
    match file.properties
    case None => Failure(ReadError)
    case Some(properties) => Success(WorkspaceMechanicSettings(properties))
  }

  function ProjectSettingsResult(file: ConfigFile): Result<map<string, string>, ReadFailure> {
    match file.properties
    case None => Failure(ReadError)
    case Some(properties) => Success(properties)
  }

  /**
   * `readConfigFromWorkspaceMechanicFile`: walks the loaded key set in an unspecified order and
   * puts every key under the JDT core namespace, prefix stripped, into the result.
   */
  method ReadConfigFromWorkspaceMechanicFile(file: ConfigFile) returns (r: Result<map<string, string>, ReadFailure>)
    ensures file.properties.None? ==> r == Failure(ReadError)
    ensures file.properties.Some? ==> (
      r.Success? &&
      (forall s :: s in r.value <==> WorkspaceMechanicPrefix + s in file.properties.value) &&
      (forall s :: s in r.value ==> r.value[s] == file.properties.value[WorkspaceMechanicPrefix + s]))
    ensures r == WorkspaceMechanicResult(file)
  {
    if file.properties.None? {
      return Failure(ReadError);
    }
    var properties := file.properties.value;
    var prefix := WorkspaceMechanicPrefix;
    var result: map<string, string> := map[];
    var keys := properties.Keys;
    ghost var visited: set<string> := {};
    while keys != {}
      invariant keys + visited == properties.Keys && keys !! visited
      invariant forall s :: s in result <==> prefix + s in visited
      invariant forall s :: s in result ==> result[s] == properties[prefix + s]
      decreases keys
    {
      var key :| key in keys;
      if StartsWith(key, prefix) {
        var value := properties[key];
        PrefixSplit(key, prefix);
        forall s ensures prefix + s == key <==> s == key[|prefix|..] {
          PrefixJoin(prefix, s);
        }
        result := result[key[|prefix|..] := value];
      } else {
        forall s ensures prefix + s != key {
          PrefixJoin(prefix, s);
        }
      }
      keys := keys - {key};
      visited := visited + {key};
    }
    var expected := WorkspaceMechanicSettings(properties);
    assert result.Keys == expected.Keys;
    assert forall s :: s in result ==> result[s] == expected[s];
    assert result == expected;
    return Success(result);
  }

  /** `readConfigFromProjectSettings`: copies every loaded key and value, no filtering. */
  method ReadConfigFromProjectSettings(file: ConfigFile) returns (r: Result<map<string, string>, ReadFailure>)
    ensures file.properties.None? ==> r == Failure(ReadError)
    ensures file.properties.Some? ==> r == Success(file.properties.value)
    ensures r == ProjectSettingsResult(file)
  {
    if file.properties.None? {
      return Failure(ReadError);
    }
    var properties := file.properties.value;
    var result: map<string, string> := map[];
    var keys := properties.Keys;
    while keys != {}
      invariant keys <= properties.Keys
      invariant result.Keys == properties.Keys - keys
      invariant forall k :: k in result ==> result[k] == properties[k]
      decreases keys
    {
      var key :| key in keys;
      result := result[key := properties[key]];
      keys := keys - {key};
    }
    assert result.Keys == properties.Keys;
    assert result == properties;
    return Success(result);
  }

  // ---------------------------------------------------------------------------------------------
  // readConfig

  /** The settings the file contributes, by the reader its name selects. */
  function ConfigFromFile(env: Environment, f: Formatter): Result<map<string, string>, ReadFailure> {
    var file := env.storage(f.formatterFile);
    match KindOf(env.classifier, f.formatterFile)
    case WorkspaceMechanic => WorkspaceMechanicResult(file)
    case Xml => ReadConfigFromFormatterXmlFile(f, file)
    case ProjectSettings => ProjectSettingsResult(file)
    case Unrecognised => Success(map[])
  }

  /** The tail of `readConfig`: a reader's failure is wrapped, its settings are overlaid on the baseline. */
  function Overlay(baseline: map<string, string>, read: Result<map<string, string>, ReadFailure>): Result<map<string, string>, CannotLoadConfiguration> {
    match read
    case Failure(cause) => Failure(CannotLoadConfiguration(cause))
    case Success(fromFile) => Success(Merge(baseline, fromFile))
  }

  /** What `readConfig` returns or throws. */
  function ReadConfigResult(env: Environment, f: Formatter): Result<map<string, string>, CannotLoadConfiguration> {
    Overlay(GetFormattingOptions(env.javaConventions), ConfigFromFile(env, f))
  }

  /** `putAll` into a fresh map copies the map. */
  lemma PutAllIntoEmpty(m: map<string, string>)
    ensures map[] + m == m
  {
  }

  /** The dispatch inside `readConfig`'s `try`: the reader the file's name selects, or nothing. */
  method ReadConfigFromFile(env: Environment, f: Formatter) returns (read: Result<map<string, string>, ReadFailure>)
    ensures read == ConfigFromFile(env, f)
  {
    var file := env.storage(f.formatterFile);
    if env.classifier.isWorkspaceMechanicFile(f.formatterFile) {
      read := ReadConfigFromWorkspaceMechanicFile(file);
    } else if env.classifier.isXMLConfigurationFile(f.formatterFile) {
      read := ReadConfigFromFormatterXmlFile(f, file);
    } else if env.classifier.isProjectSetting(f.formatterFile) {
      read := ReadConfigFromProjectSettings(file);
    } else {
      read := Success(map[]);
    }
  }

  /** `readConfig`: reads the file's settings, then overlays them on the baseline; failures are wrapped. */
  method ReadConfig(env: Environment, f: Formatter) returns (r: Result<map<string, string>, CannotLoadConfiguration>)
    ensures r == ReadConfigResult(env, f)
  {
    var configFromStatic := GetFormattingOptions(env.javaConventions);
    var read := ReadConfigFromFile(env, f);
    if read.Failure? {
      return Failure(CannotLoadConfiguration(read.error));
    }
    var configFromFile: map<string, string> := map[];
    configFromFile := configFromFile + read.value;
    var allConfig: map<string, string> := map[];
    allConfig := allConfig + configFromStatic;
    allConfig := allConfig + configFromFile;
    PutAllIntoEmpty(read.value);
    PutAllIntoEmpty(configFromStatic);
    r := Success(allConfig);
  }

  // ---------------------------------------------------------------------------------------------
  // Properties of readConfig

  /** A successful read holds the file's value for every key the file has, else the baseline's. */
  lemma ReadConfigPrecedence(env: Environment, f: Formatter)
    requires ReadConfigResult(env, f).Success?
    ensures ConfigFromFile(env, f).Success?
    ensures var all := ReadConfigResult(env, f).value;
            var fromFile := ConfigFromFile(env, f).value;
            var baseline := GetFormattingOptions(env.javaConventions);
            all.Keys == baseline.Keys + fromFile.Keys &&
            (forall k :: k in fromFile ==> all[k] == fromFile[k]) &&
            (forall k :: k in baseline && k !in fromFile ==> all[k] == baseline[k])
  {
  }

  /** The three pinned keys hold 1.6 unless the file itself sets them, in which case the file wins. */
  lemma PinnedVersions(env: Environment, f: Formatter, key: string)
    requires ReadConfigResult(env, f).Success? && IsPinned(key)
    ensures ConfigFromFile(env, f).Success?
    ensures key in ReadConfigResult(env, f).value
    ensures var fromFile := ConfigFromFile(env, f).value;
            ReadConfigResult(env, f).value[key] == if key in fromFile then fromFile[key] else Version16
  {
  }

  /** An unrecognised name reads nothing and yields exactly the baseline, whatever is on storage. */
  lemma UnrecognisedYieldsBaseline(env: Environment, f: Formatter)
    requires KindOf(env.classifier, f.formatterFile) == Unrecognised
    ensures ReadConfigResult(env, f) == Success(GetFormattingOptions(env.javaConventions))
  {
    var baseline := GetFormattingOptions(env.javaConventions);
    assert Merge(baseline, map[]) == baseline;
  }

  /** The reader is chosen by name only: workspace-mechanic first, then XML, then project settings. */
  lemma KindDispatch(env: Environment, f: Formatter)
    ensures var file := env.storage(f.formatterFile);
            var c := env.classifier;
            var name := f.formatterFile;
            (c.isWorkspaceMechanicFile(name) ==> ConfigFromFile(env, f) == WorkspaceMechanicResult(file)) &&
            (!c.isWorkspaceMechanicFile(name) && c.isXMLConfigurationFile(name) ==>
               ConfigFromFile(env, f) == ReadConfigFromFormatterXmlFile(f, file)) &&
            (!c.isWorkspaceMechanicFile(name) && !c.isXMLConfigurationFile(name) && c.isProjectSetting(name) ==>
               ConfigFromFile(env, f) == ProjectSettingsResult(file))
  {
  }

  /** Every failure inside reading, a missing profile included, leaves `readConfig` wrapped. */
  lemma EveryFailureIsCannotLoad(env: Environment, f: Formatter)
    ensures ReadConfigResult(env, f).Failure? <==> ConfigFromFile(env, f).Failure?
    ensures ReadConfigResult(env, f).Failure? ==>
      ReadConfigResult(env, f) == Failure(CannotLoadConfiguration(ConfigFromFile(env, f).error))
  {
  }

  /** An XML configuration with a profile list but no profile of the requested name cannot be loaded. */
  lemma MissingProfileIsWrapped(env: Environment, f: Formatter)
    requires KindOf(env.classifier, f.formatterFile) == Xml
    requires env.storage(f.formatterFile).profiles.Some?
    requires var ps := env.storage(f.formatterFile).profiles.value;
             forall i :: 0 <= i < |ps| ==> !Matches(ps[i], f.formatterProfile)
    ensures ReadConfigResult(env, f).Failure?
    ensures ReadConfigResult(env, f).error.cause.ProfileNotFound?
  {
  }

  /** An XML configuration whose requested profile exists yields the first such profile's settings. */
  lemma XmlYieldsFirstMatchingProfile(env: Environment, f: Formatter, i: nat)
    requires KindOf(env.classifier, f.formatterFile) == Xml
    requires env.storage(f.formatterFile).profiles.Some?
    requires var ps := env.storage(f.formatterFile).profiles.value;
             i < |ps| && Matches(ps[i], f.formatterProfile) &&
             forall j :: 0 <= j < i ==> !Matches(ps[j], f.formatterProfile)
    ensures ConfigFromFile(env, f) == Success(env.storage(f.formatterFile).profiles.value[i].value.settings)
  {
    var ps := env.storage(f.formatterFile).profiles.value;
    var r := GetProfileByName(ps, Some(f.formatterProfile));
    var k :| 0 <= k < |ps| && ps[k] == r && Matches(ps[k], f.formatterProfile) &&
             forall j :: 0 <= j < k ==> !Matches(ps[j], f.formatterProfile);
    assert !(k < i);
    assert !(i < k);
  }

  /** Of two profiles with one name, the earlier one is returned. */
  lemma FirstProfileWins(first: Profile, other: Profile, again: Profile)
    requires again.name == first.name && other.name != first.name
    ensures GetProfileByName([Some(first), Some(other), Some(again)], Some(first.name)) == Some(first)
  {
  }

  /** A namespaced key survives with its prefix stripped; a key outside the namespace is dropped. */
  lemma WorkspaceMechanicFilter(rest: string, other: string, v1: string, v2: string)
    requires !StartsWith(other, WorkspaceMechanicPrefix)
    ensures WorkspaceMechanicSettings(map[WorkspaceMechanicPrefix + rest := v1, other := v2]) == map[rest := v1]
  {
    var key := WorkspaceMechanicPrefix + rest;
    var props := map[key := v1, other := v2];
    var m := WorkspaceMechanicSettings(props);
    PrefixJoin(WorkspaceMechanicPrefix, rest);
    assert key != other;
    assert rest in m && m[rest] == v1;
    forall s | s in m ensures s == rest {
      PrefixJoin(WorkspaceMechanicPrefix, s);
      assert WorkspaceMechanicPrefix + s == key;
    }
    assert m.Keys == {rest};
  }

  /** The example of a workspace-mechanic file with one JDT core key and one foreign key. */
  lemma WorkspaceMechanicFilterExample()
    ensures WorkspaceMechanicSettings(map["/instance/org.eclipse.jdt.core/foo" := "1", "/other/bar" := "2"])
            == map["foo" := "1"]
  {
    assert WorkspaceMechanicPrefix + "foo" == "/instance/org.eclipse.jdt.core/foo";
    assert !StartsWith("/other/bar", WorkspaceMechanicPrefix) by {
      assert "/other/bar"[1] != WorkspaceMechanicPrefix[1];
    }
    WorkspaceMechanicFilter("foo", "/other/bar", "1", "2");
  }

  /** A project-settings file sets keys the baseline lacks. */
  lemma ProjectSettingsScenario(env: Environment, f: Formatter)
    requires KindOf(env.classifier, f.formatterFile) == ProjectSettings
    requires env.storage(f.formatterFile).properties == Some(map["tabulation.size" := "4", "indentation.size" := "4"])
    ensures ReadConfigResult(env, f).Success?
    ensures var all := ReadConfigResult(env, f).value;
            "tabulation.size" in all && all["tabulation.size"] == "4" &&
            "indentation.size" in all && all["indentation.size"] == "4"
  {
  }

  // ---------------------------------------------------------------------------------------------
  // Resolution that keeps a missing profile apart from an unreadable file

  datatype ResolveError = ConfigNotReadable | ProfileMissing(message: string)

  /**
   * `readConfig` as its callers evidently expect it: a missing profile surfaces as its own error
   * instead of being wrapped into the load failure. Otherwise it agrees with `ReadConfigResult`.
   */
  function ResolveConfig(env: Environment, f: Formatter): (r: Result<map<string, string>, ResolveError>)
    ensures r.Success? <==> ReadConfigResult(env, f).Success?
    ensures r.Success? ==> r.value == ReadConfigResult(env, f).value
    ensures r.Failure? ==> (r.error.ProfileMissing? <==> ConfigFromFile(env, f).error.ProfileNotFound?)
  {
    match ConfigFromFile(env, f)
    case Failure(ReadError) => Failure(ConfigNotReadable)
    case Failure(ProfileNotFound(message)) => Failure(ProfileMissing(message))
    case Success(fromFile) => Success(Merge(GetFormattingOptions(env.javaConventions), fromFile))
  }

  /** With a profile list that lacks the requested name, the resolution reports the missing profile. */
  lemma ResolveReportsMissingProfile(env: Environment, f: Formatter)
    requires KindOf(env.classifier, f.formatterFile) == Xml
    requires env.storage(f.formatterFile).profiles.Some?
    requires var ps := env.storage(f.formatterFile).profiles.value;
             forall i :: 0 <= i < |ps| ==> !Matches(ps[i], f.formatterProfile)
    ensures ResolveConfig(env, f).Failure? && ResolveConfig(env, f).error.ProfileMissing?
  {
  }

  // ---------------------------------------------------------------------------------------------
  // format and forCode

  /** The edit tree the Eclipse code formatter returns; its children are opaque here. */
  datatype TextEdit<E> = TextEdit(children: seq<E>)

  const KCompilationUnit := 0x08
  const FIncludeComments := 0x1000

  /** The arguments of one `CodeFormatter.format` call (the line separator is always `null`). */
  datatype FormatterCall = FormatterCall(
    options: map<string, string>, kind: int, source: string, offset: int, length: int, indentationLevel: int)

  /**
   * The foreign formatting engine: the code formatter (`None` is a `null` edit) and the application
   * of an edit to a document holding the given text (`None` when `apply` throws).
   */
  datatype Engine<!E> = Engine(
    format: FormatterCall -> Option<TextEdit<E>>,
    apply: (TextEdit<E>, string) -> Option<string>)

  function CallFor(options: map<string, string>, code: string, startOffset: int, endOffset: int): FormatterCall {
    FormatterCall(options, KCompilationUnit + FIncludeComments, code, startOffset, endOffset - startOffset, 0)
  }

  /**
   * `format`: `Some` edited text, or `None` for "no change" (no edit, an edit without children, or
   * an edit that could not be applied). A configuration that cannot be loaded propagates.
   */
  function Format<E>(env: Environment, f: Formatter, engine: Engine<E>, code: string, startOffset: int, endOffset: int)
    : (r: Result<Option<string>, CannotLoadConfiguration>)
    ensures ReadConfigResult(env, f).Failure? ==> r == Failure(ReadConfigResult(env, f).error)
    ensures ReadConfigResult(env, f).Success? ==>
      var te := engine.format(CallFor(ReadConfigResult(env, f).value, code, startOffset, endOffset));
      r.Success? &&
      (r.value.None? <==> te.None? || |te.value.children| == 0 || engine.apply(te.value, code).None?) &&
      (r.value.Some? ==> engine.apply(te.value, code) == r.value)
  {
    match ReadConfigResult(env, f)
    case Failure(e) => Failure(e)
    case Success(allConfig) =>
      var te := engine.format(CallFor(allConfig, code, startOffset, endOffset));
      if te.Some? && |te.value.children| > 0 then
        match engine.apply(te.value, code)
        case None => Success(None)
        case Some(formattedCode) => Success(Some(formattedCode))
      else
        Success(None)
  }

  /** `forCode`: `null` code gives "no change" without reading the configuration or formatting. */
  function ForCode<E>(env: Environment, f: Formatter, engine: Engine<E>, code: Option<string>, startOffset: int, endOffset: int)
    : (r: Result<Option<string>, CannotLoadConfiguration>)
    ensures code.None? ==> r == Success(None)
    ensures code.Some? ==> r == Format(env, f, engine, code.value, startOffset, endOffset)
  {
    match code
    case None => Success(None)
    case Some(c) => Format(env, f, engine, c, startOffset, endOffset)
  }

  /** The formatter is asked for the whole compilation unit, comments included, over [start, end). */
  lemma FormatterCallArguments(options: map<string, string>, code: string, startOffset: int, endOffset: int)
    ensures var call := CallFor(options, code, startOffset, endOffset);
            call.source == code && call.offset == startOffset &&
            call.offset + call.length == endOffset && call.indentationLevel == 0 &&
            call.kind == 0x1008
  {
  }
}
