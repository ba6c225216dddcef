/**
 * Choosing the reader for a configuration file (pulsar/client/config_util.py).
 *
 * A format is resolved from an explicit hint, else from the first registered
 * extension that ends the path, else from a default; the file is then handed
 * to the reader registered for that format. Parsing itself (JSON, YAML, INI)
 * is library code and is not modelled: a successful read is represented by
 * the reader it was dispatched to.
 */
module ConfigUtil {
  import opened Wrappers

  const ConfigTypeJson: string := "json"
  const ConfigTypeYaml: string := "yaml"
  const ConfigTypeIni: string := "ini"

  const DefaultConfigType: string := ConfigTypeYaml

  const JsonExts: seq<string> := [".json"]
  const YamlExts: seq<string> := [".yaml", ".yml"]
  const IniExts: seq<string> := [".ini"]

  /** The extension table, in the insertion (and so iteration) order of the dict. */
  const ExtMap: seq<(string, seq<string>)> :=
    [(ConfigTypeJson, JsonExts), (ConfigTypeYaml, YamlExts), (ConfigTypeIni, IniExts)]

  /** The readers registered in EXT_READERS. */
  datatype Reader = JsonReader | YamlReader | IniReader

  /** A successful dispatch: the file at `path` is parsed by `reader`. */
  datatype Load = Load(reader: Reader, path: string)

  datatype ConfigError =
    | ValueError(message: string)     // no path supplied
    | KeyError(key: string)           // resolved type has no registered reader
    | ImportError(message: string)    // YAML support is unavailable

  /** Python's `s.endswith(suffix)`. */
  predicate EndsWith(s: string, suffix: string) {
    |suffix| <= |s| && s[|s| - |suffix|..] == suffix
  }

  /** Some extension in `exts` ends `path` (the inner loop of the search). */
  predicate MatchesAny(path: string, exts: seq<string>) {
    exists e :: e in exts && EndsWith(path, e)
  }

  /**
   * The first entry of `table` one of whose extensions ends `path`: the
   * config type of that entry, or None when no entry matches.
   */
  function FirstMatch(table: seq<(string, seq<string>)>, path: string): (r: Option<string>)
    ensures r.None? <==> forall i :: 0 <= i < |table| ==> !MatchesAny(path, table[i].1)
    ensures r.Some? ==> exists i :: 0 <= i < |table| && table[i].0 == r.value && MatchesAny(path, table[i].1)
    ensures r.Some? ==>
      exists i :: 0 <= i < |table| && table[i].0 == r.value && MatchesAny(path, table[i].1) &&
        forall j :: 0 <= j < i ==> !MatchesAny(path, table[j].1)
  {
    if table == [] then None
    else if MatchesAny(path, table[0].1) then Some(table[0].0)
    else
      var r := FirstMatch(table[1..], path);
      assert forall i :: 1 <= i < |table| ==> table[i] == table[1..][i - 1];
      r
  }

  /** `__find_type`: explicit hint, else first matching extension, else the default. */
  function FindType(path: string, explicitType: Option<string>, defaultType: string): (r: string)
    ensures Truthy(explicitType) ==> r == explicitType.value
    ensures !Truthy(explicitType) && FirstMatch(ExtMap, path).None? ==> r == defaultType
  {
    if Truthy(explicitType) then explicitType.value
    else match FirstMatch(ExtMap, path)
      case Some(t) => t
      case None => defaultType
  }

  /** The EXT_READERS lookup; a type with no entry raises KeyError. */
  function ReaderFor(configType: string): (r: Option<Reader>)
    ensures r.Some? <==> configType in {ConfigTypeJson, ConfigTypeYaml, ConfigTypeIni}
    ensures r == Some(JsonReader) <==> configType == ConfigTypeJson
    ensures r == Some(YamlReader) <==> configType == ConfigTypeYaml
    ensures r == Some(IniReader) <==> configType == ConfigTypeIni
  {
    if configType == ConfigTypeJson then Some(JsonReader)
    else if configType == ConfigTypeYaml then Some(YamlReader)
    else if configType == ConfigTypeIni then Some(IniReader)
    else None
  }

  /**
   * `read_file`: reject a missing path, resolve the type, dispatch to its
   * reader. `yamlAvailable` stands for the optional PyYAML import, which the
   * YAML reader checks when it is called.
   */
  function ReadFile(path: Option<string>, explicitType: Option<string>, defaultType: string,
                    yamlAvailable: bool): (r: Result<Load, ConfigError>)
    ensures r.Failure? && r.error.ValueError? <==> path.None?
    ensures path.Some? ==>
      (var t := FindType(path.value, explicitType, defaultType);
       && (r.Success? <==> ReaderFor(t).Some? && !(t == ConfigTypeYaml && !yamlAvailable))
       && (r.Failure? && r.error.KeyError? <==> ReaderFor(t).None?)
       && (r.Failure? && r.error.ImportError? <==> t == ConfigTypeYaml && !yamlAvailable)
       && (r.Success? ==> r.value == Load(ReaderFor(t).value, path.value)))
  {
    match path
    case None => Failure(ValueError("Undefined path supplied."))
    case Some(p) =>
      var t := FindType(p, explicitType, defaultType);
      match ReaderFor(t)
      case None => Failure(KeyError(t))
      case Some(reader) =>
        if reader == YamlReader && !yamlAvailable then
          Failure(ImportError("Attempting to read YAML configuration file - but PyYAML dependency unavailable."))
        else
          Success(Load(reader, p))
  }

  /** `read_file` with `default_type` left at its default. */
  function ReadFileDefault(path: Option<string>, explicitType: Option<string>,
                           yamlAvailable: bool): (r: Result<Load, ConfigError>)
    ensures path.Some? && !Truthy(explicitType) && FirstMatch(ExtMap, path.value).None? ==>
      r == (if yamlAvailable then Success(Load(YamlReader, path.value))
            else Failure(ImportError("Attempting to read YAML configuration file - but PyYAML dependency unavailable.")))
  {
    ReadFile(path, explicitType, DefaultConfigType, yamlAvailable)
  }

  // ---------------------------------------------------------------------------
  // Properties of the extension table
  // ---------------------------------------------------------------------------

  /** Two suffixes of the same string: the shorter is a suffix of the longer. */
  lemma SuffixOfSuffix(s: string, a: string, b: string)
    requires EndsWith(s, a) && EndsWith(s, b) && |a| <= |b|
    ensures EndsWith(b, a)
  {
    assert s[|s| - |b|..][|b| - |a|..] == s[|s| - |a|..];
  }

  /** Every extension registered in the table. */
  const AllExts: seq<string> := JsonExts + YamlExts + IniExts

  /** No registered extension is a suffix of a different registered extension. */
  lemma ExtensionsSuffixFree(a: string, b: string)
    requires a in AllExts && b in AllExts && a != b
    ensures !EndsWith(b, a)
  {
    assert AllExts == [".json", ".yaml", ".yml", ".ini"];
    if |a| < |b| {
      // `a` is a four-character extension starting with '.', `b` a five-character one
      assert |a| == 4 && |b| == 5 && a[0] == '.';
      assert b[1] == 'j' || b[1] == 'y';
      assert b[|b| - |a|..][0] != a[0];
    } else if |a| == |b| {
      assert b[|b| - |a|..] == b;
    }
  }

  /** A path that ends with two registered extensions ends with the same one twice. */
  lemma AtMostOneExtension(path: string, a: string, b: string)
    requires a in AllExts && b in AllExts
    requires EndsWith(path, a) && EndsWith(path, b)
    ensures a == b
  {
    if a != b {
      if |a| <= |b| {
        SuffixOfSuffix(path, a, b);
        ExtensionsSuffixFree(a, b);
      } else {
        SuffixOfSuffix(path, b, a);
        ExtensionsSuffixFree(b, a);
      }
    }
  }

  /** For `path`, all entries of `table` that match it name the same type. */
  ghost predicate Unambiguous(table: seq<(string, seq<string>)>, path: string) {
    forall i, j ::
      (0 <= i < |table| && 0 <= j < |table| && MatchesAny(path, table[i].1) && MatchesAny(path, table[j].1))
      ==> table[i].0 == table[j].0
  }

  /** At most one format of EXT_MAP matches any path. */
  lemma ExtMapUnambiguous(path: string)
    ensures Unambiguous(ExtMap, path)
  {
    forall i, j | 0 <= i < |ExtMap| && 0 <= j < |ExtMap| &&
      MatchesAny(path, ExtMap[i].1) && MatchesAny(path, ExtMap[j].1)
      ensures ExtMap[i].0 == ExtMap[j].0
    {
      var a :| a in ExtMap[i].1 && EndsWith(path, a);
      var b :| b in ExtMap[j].1 && EndsWith(path, b);
      AtMostOneExtension(path, a, b);
      assert ExtMap[0].1 == [".json"] && ExtMap[1].1 == [".yaml", ".yml"] && ExtMap[2].1 == [".ini"];
    }
  }

  /** When every matching entry names the type of entry `i`, that type is the first match. */
  lemma FirstMatchIs(table: seq<(string, seq<string>)>, path: string, i: nat)
    requires i < |table| && MatchesAny(path, table[i].1)
    requires forall j :: 0 <= j < |table| && MatchesAny(path, table[j].1) ==> table[j].0 == table[i].0
    ensures FirstMatch(table, path) == Some(table[i].0)
  {
  }

  /**
   * When at most one type matches, the first match is the same for any table
   * holding the same entries, whatever their order.
   */
  lemma FirstMatchOrderIrrelevant(t1: seq<(string, seq<string>)>, t2: seq<(string, seq<string>)>, path: string)
    requires forall e :: e in t1 <==> e in t2
    requires Unambiguous(t1, path)
    ensures FirstMatch(t1, path) == FirstMatch(t2, path)
  {
    if i :| 0 <= i < |t1| && MatchesAny(path, t1[i].1) {
      assert t1[i] in t2;
      var k :| 0 <= k < |t2| && t2[k] == t1[i];
      forall j | 0 <= j < |t2| && MatchesAny(path, t2[j].1)
        ensures t2[j].0 == t2[k].0
      {
        assert t2[j] in t1;
        var m :| 0 <= m < |t1| && t1[m] == t2[j];
      }
      FirstMatchIs(t1, path, i);
      FirstMatchIs(t2, path, k);
    } else {
      forall j | 0 <= j < |t2|
        ensures !MatchesAny(path, t2[j].1)
      {
        assert t2[j] in t1;
      }
    }
  }

  /** The iteration order of EXT_MAP does not affect the resolved type. */
  lemma ExtMapOrderIrrelevant(reordered: seq<(string, seq<string>)>, path: string)
    requires forall e :: e in reordered <==> e in ExtMap
    ensures FirstMatch(reordered, path) == FirstMatch(ExtMap, path)
  {
    ExtMapUnambiguous(path);
    FirstMatchOrderIrrelevant(ExtMap, reordered, path);
  }

  // ---------------------------------------------------------------------------
  // Format resolution
  // ---------------------------------------------------------------------------

  /** A truthy explicit type is returned unchanged, whatever the path. */
  lemma ExplicitTypeWins(path: string, explicitType: string, defaultType: string)
    requires explicitType != ""
    ensures FindType(path, Some(explicitType), defaultType) == explicitType
  {
  }

  /** With no truthy hint, the type is the one whose extension ends the path. */
  lemma ResolvesByExtension(path: string, explicitType: Option<string>, defaultType: string,
                               i: nat, ext: string)
    requires !Truthy(explicitType)
    requires i < |ExtMap| && ext in ExtMap[i].1 && EndsWith(path, ext)
    ensures FindType(path, explicitType, defaultType) == ExtMap[i].0
  {
    ExtMapUnambiguous(path);
    assert MatchesAny(path, ExtMap[i].1);
  }

  lemma JsonSuffix(path: string, explicitType: Option<string>, defaultType: string)
    requires !Truthy(explicitType) && EndsWith(path, ".json")
    ensures FindType(path, explicitType, defaultType) == "json"
  {
    ResolvesByExtension(path, explicitType, defaultType, 0, ".json");
  }

  lemma YamlSuffix(path: string, explicitType: Option<string>, defaultType: string)
    requires !Truthy(explicitType) && (EndsWith(path, ".yaml") || EndsWith(path, ".yml"))
    ensures FindType(path, explicitType, defaultType) == "yaml"
  {
    if EndsWith(path, ".yaml") {
      ResolvesByExtension(path, explicitType, defaultType, 1, ".yaml");
    } else {
      ResolvesByExtension(path, explicitType, defaultType, 1, ".yml");
    }
  }

  lemma IniSuffix(path: string, explicitType: Option<string>, defaultType: string)
    requires !Truthy(explicitType) && EndsWith(path, ".ini")
    ensures FindType(path, explicitType, defaultType) == "ini"
  {
    ResolvesByExtension(path, explicitType, defaultType, 2, ".ini");
  }

  /** A path ending in no registered extension falls back to the default type. */
  lemma UnmatchedUsesDefault(path: string, explicitType: Option<string>, defaultType: string)
    requires !Truthy(explicitType)
    requires forall e :: e in AllExts ==> !EndsWith(path, e)
    ensures FindType(path, explicitType, defaultType) == defaultType
  {
    forall i | 0 <= i < |ExtMap| ensures !MatchesAny(path, ExtMap[i].1) {
      forall e | e in ExtMap[i].1 ensures !EndsWith(path, e) {
        assert e in AllExts;
      }
    }
  }

  /** With the default `default_type`, an unmatched path without hint is read as YAML. */
  lemma DefaultIsYaml(path: string, yamlAvailable: bool)
    requires forall e :: e in AllExts ==> !EndsWith(path, e)
    ensures ReadFileDefault(Some(path), None, yamlAvailable) ==
      (if yamlAvailable then Success(Load(YamlReader, path))
       else Failure(ImportError("Attempting to read YAML configuration file - but PyYAML dependency unavailable.")))
  {
    UnmatchedUsesDefault(path, None, DefaultConfigType);
  }

  /** A missing path is rejected whatever the hint, default or YAML support. */
  lemma NoneRejectedFirst(explicitType: Option<string>, defaultType: string, yamlAvailable: bool)
    ensures ReadFile(None, explicitType, defaultType, yamlAvailable) == Failure(ValueError("Undefined path supplied."))
  {
  }

  /** YAML support is checked only when the resolved type is YAML. */
  lemma YamlCapabilityOnlyForYaml(path: string, explicitType: Option<string>, defaultType: string)
    requires FindType(path, explicitType, defaultType) != ConfigTypeYaml
    ensures ReadFile(Some(path), explicitType, defaultType, false) ==
            ReadFile(Some(path), explicitType, defaultType, true)
  {
  }
}
