/**
 * Configuration resolution (shardctl/config.py): the conventional file
 * locations under a root directory, the compose-file set of a profile,
 * the recursive dict merge and the fold that loads the compose documents,
 * and the reads of services.yml.
 */
module Config {
  import opened Wrappers
  import opened Yaml
  import opened Host

  /** The Python exceptions that can escape a configuration read. */
  datatype Exception =
    | YamlError(path: Path)       // yaml.safe_load rejects the text
    | OSError(path: Path)         // open() of a path that is a directory
    | AttributeError(what: string) // a dict method called on a non-dict value
    | TypeError(what: string)      // a value of the wrong type, such as iterating over a number

  /** The Config object: every path is fixed by the root directory. */
  datatype Config = Config(rootDir: Path) {
    function ServicesDir(): Path { Join(rootDir, "services") }
    function ComposeFile(): Path { Join(rootDir, "docker-compose.yml") }
    function ComposeDevFile(): Path { Join(rootDir, "docker-compose.dev.yml") }
    function ServicesFile(): Path { Join(rootDir, "services.yml") }
  }

  /** `[f for f in paths if f.exists()]`. */
  function Existing(paths: seq<Path>, fs: FileSystem): (r: seq<Path>)
    ensures forall p :: p in r <==> p in paths && fs.Exists(p)
    ensures |r| <= |paths|
  {
    if paths == [] then []
    else (if fs.Exists(paths[0]) then [paths[0]] else []) + Existing(paths[1..], fs)
  }

  /** The compose files of a profile: the base file, then the dev overlay for "dev", existing ones only. */
  function ComposeFilesForProfile(cfg: Config, profile: Option<string>, fs: FileSystem): (files: seq<Path>)
    ensures forall i :: 0 <= i < |files| ==> fs.Exists(files[i])
    ensures cfg.ComposeFile() in files <==> fs.Exists(cfg.ComposeFile())
    ensures cfg.ComposeDevFile() in files <==> profile == Some("dev") && fs.Exists(cfg.ComposeDevFile())
    ensures forall i :: 0 <= i < |files| ==> files[i] == cfg.ComposeFile() || files[i] == cfg.ComposeDevFile()
    ensures |files| <= 2
    ensures fs.Exists(cfg.ComposeFile()) ==> files[0] == cfg.ComposeFile()
    ensures |files| == 2 ==> files == [cfg.ComposeFile(), cfg.ComposeDevFile()]
  {
    JoinInjective(cfg.rootDir, "docker-compose.yml", "docker-compose.dev.yml");
    var dev := cfg.ComposeDevFile();
    var candidates := [cfg.ComposeFile()] + (if profile == Some("dev") && fs.Exists(dev) then [dev] else []);
    Existing(candidates, fs)
  }

  /** The value `result[key]` takes when `incoming` is merged over `current`. */
  function MergeValue(current: Option<Value>, incoming: Value): Value
    decreases incoming, 2
  {
    if current.Some? && current.value.Map? && incoming.Map?
    then Map(Merge(current.value.entries, incoming.entries))
    else incoming
  }

  /** `_merge_configs(base, override)`: the override's entries applied in order to a copy of base. */
  function Merge(base: Entries, override: Entries): Entries
    decreases Map(override), 1
  {
    MergePrefix(base, override, |override|)
  }

  /** The copy of base after the first n entries of the override were applied. */
  function MergePrefix(base: Entries, override: Entries, n: nat): Entries
    requires n <= |override|
    decreases Map(override), 0, n
  {
    if n == 0 then base
    else
      var acc := MergePrefix(base, override, n - 1);
      var k := override[n - 1].0;
      assert override[n - 1] in override;
      Put(acc, k, MergeValue(Get(acc, k), override[n - 1].1))
  }

  /** `_merge_configs`: copies base, then assigns each override key, recursing where both sides hold a dict. */
  method MergeConfigs(base: Entries, override: Entries) returns (result: Entries)
    ensures result == Merge(base, override)
    decreases Map(override), 1
  {
    result := base;
    var i := 0;
    while i < |override|
      invariant 0 <= i <= |override|
      invariant result == MergePrefix(base, override, i)
    {
      var key := override[i].0;
      var value := override[i].1;
      assert value < override[i] < Map(override);
      var merged := MergedValue(Get(result, key), value);
      MergeStep(base, override, i + 1, result, key, value);
      result := Put(result, key, merged);
      i := i + 1;
    }
  }

  /** The value one key of the override leaves in the result: the recursive merge of two dicts, else the override's value. */
  method MergedValue(current: Option<Value>, value: Value) returns (merged: Value)
    ensures merged == MergeValue(current, value)
    decreases value, 2
  {
    if current.Some? && current.value.Map? && value.Map? {
      var sub := MergeConfigs(current.value.entries, value.entries);
      merged := Map(sub);
    } else {
      merged := value;
    }
  }

  /** Adding an entry at the end: what Get sees. */
  lemma {:induction false} GetAppend(es: Entries, e: (string, Value), k: string)
    ensures Get(es + [e], k) == if k in Keys(es) then Get(es, k) else if e.0 == k then Some(e.1) else None
  {
    if es != [] {
      assert (es + [e])[1..] == es[1..] + [e];
      GetAppend(es[1..], e, k);
      assert Keys(es) == [es[0].0] + Keys(es[1..]);
    }
  }

  /** Keys in a prefix of a dict with unique keys exclude the key at the next position. */
  lemma PrefixLacksNext(es: Entries, n: nat)
    requires UniqueKeys(es) && 0 < n <= |es|
    ensures es[n - 1].0 !in Keys(es[..n - 1])
    ensures Keys(es[..n]) == Keys(es[..n - 1]) + [es[n - 1].0]
    ensures es[..n] == es[..n - 1] + [es[n - 1]]
  {
    assert es[..n] == es[..n - 1] + [es[n - 1]];
    var ks := Keys(es[..n - 1]);
    forall j | 0 <= j < |ks| ensures ks[j] != es[n - 1].0 {
      assert ks[j] == es[j].0;
    }
  }

  /** What a key holds after the first n override entries were applied. */
  lemma {:induction false} MergePrefixLookup(base: Entries, override: Entries, n: nat, k: string)
    requires UniqueKeys(override) && n <= |override|
    ensures Get(MergePrefix(base, override, n), k) ==
      match Get(override[..n], k)
      case None => Get(base, k)
      case Some(v) => Some(MergeValue(Get(base, k), v))
  {
    if n > 0 {
      var acc := MergePrefix(base, override, n - 1);
      var kn := override[n - 1].0;
      MergePrefixLookup(base, override, n - 1, k);
      MergePrefixLookup(base, override, n - 1, kn);
      PrefixLacksNext(override, n);
      GetAppend(override[..n - 1], override[n - 1], k);
      GetAppend(override[..n - 1], override[n - 1], kn);
      PutGet(acc, kn, MergeValue(Get(acc, kn), override[n - 1].1), k);
    } else {
      assert override[..0] == [];
    }
  }

  /**
   * A key of the override gets the recursive merge when both sides hold a dict
   * and the override's value otherwise; any other key keeps its base value.
   */
  lemma MergeLookup(base: Entries, override: Entries, k: string)
    requires UniqueKeys(override)
    ensures Get(Merge(base, override), k) ==
      match Get(override, k)
      case None => Get(base, k)
      case Some(v) => Some(MergeValue(Get(base, k), v))
  {
    MergePrefixLookup(base, override, |override|, k);
    assert override[..|override|] == override;
  }

  /** The keys of `ks2` that are not already in `ks`, in their order. */
  function NewKeys(ks: seq<string>, ks2: seq<string>): (r: seq<string>)
    ensures forall x :: x in r <==> x in ks2 && x !in ks
  {
    if ks2 == [] then []
    else NewKeys(ks, ks2[..|ks2| - 1]) + (if ks2[|ks2| - 1] in ks then [] else [ks2[|ks2| - 1]])
  }

  /** One step of the key order: a key new to the prefix is appended exactly when the base lacks it. */
  lemma NewKeysStep(baseKeys: seq<string>, prev: seq<string>, kn: string)
    requires kn !in prev
    ensures (var accKeys := baseKeys + NewKeys(baseKeys, prev);
             (if kn in accKeys then accKeys else accKeys + [kn]) == baseKeys + NewKeys(baseKeys, prev + [kn]))
  {
    assert (prev + [kn])[..|prev + [kn]| - 1] == prev;
  }

  lemma {:induction false} MergePrefixKeys(base: Entries, override: Entries, n: nat)
    requires UniqueKeys(override) && n <= |override|
    ensures Keys(MergePrefix(base, override, n)) == Keys(base) + NewKeys(Keys(base), Keys(override[..n]))
  {
    if n == 0 {
      assert override[..0] == [];
    } else {
      MergePrefixKeys(base, override, n - 1);
      PrefixLacksNext(override, n);
      var acc := MergePrefix(base, override, n - 1);
      var kn := override[n - 1].0;
      var prev := Keys(override[..n - 1]);
      MergePrefixStep(base, override, n);
      PutKeys(acc, kn, MergeValue(Get(acc, kn), override[n - 1].1));
      NewKeysStep(Keys(base), prev, kn);
      assert Keys(acc) == Keys(base) + NewKeys(Keys(base), prev);
      assert Keys(override[..n]) == prev + [kn];
    }
  }

  /** The merge keeps the base's keys in their order and appends the override's new keys in theirs. */
  lemma MergeKeys(base: Entries, override: Entries)
    requires UniqueKeys(override)
    ensures Keys(Merge(base, override)) == Keys(base) + NewKeys(Keys(base), Keys(override))
    ensures forall k :: k in Keys(Merge(base, override)) <==> k in Keys(base) || k in Keys(override)
  {
    MergePrefixKeys(base, override, |override|);
    assert override[..|override|] == override;
  }

  /** Put of a key not present appends the entry. */
  lemma {:induction false} PutNew(es: Entries, k: string, v: Value)
    requires k !in Keys(es)
    ensures Put(es, k, v) == es + [(k, v)]
  {
    if es != [] {
      assert Keys(es) == [es[0].0] + Keys(es[1..]);
      PutNew(es[1..], k, v);
    }
  }

  lemma {:induction false} MergePrefixIntoEmpty(override: Entries, n: nat)
    requires UniqueKeys(override) && n <= |override|
    ensures MergePrefix([], override, n) == override[..n]
  {
    if n > 0 {
      MergePrefixIntoEmpty(override, n - 1);
      PrefixLacksNext(override, n);
      PutNew(override[..n - 1], override[n - 1].0, override[n - 1].1);
    }
  }

  /** Merging into an empty dict gives the override itself: the first loaded compose file is kept as is. */
  lemma MergeIntoEmpty(override: Entries)
    requires UniqueKeys(override)
    ensures Merge([], override) == override
  {
    MergePrefixIntoEmpty(override, |override|);
    assert override[..|override|] == override;
  }

  /** Merging with an empty override gives back the base. */
  lemma MergeEmptyOverride(base: Entries)
    ensures Merge(base, []) == base
  {
  }

  /** Merging a well-formed dict with itself gives that dict. */
  lemma {:induction false} MergeSelf(es: Entries)
    requires WellFormed(Map(es))
    ensures Merge(es, es) == es
    decreases Map(es), 1
  {
    MergePrefixSelf(es, |es|);
  }

  lemma {:induction false} MergePrefixSelf(es: Entries, n: nat)
    requires WellFormed(Map(es)) && n <= |es|
    ensures MergePrefix(es, es, n) == es
    decreases Map(es), 0, n
  {
    if n > 0 {
      var k := es[n - 1].0;
      var v := es[n - 1].1;
      assert MergePrefix(es, es, n) == Put(es, k, MergeValue(Get(es, k), v)) by {
        MergePrefixSelf(es, n - 1);
        MergeStep(es, es, n, es, k, v);
      }
      assert Put(es, k, MergeValue(Get(es, k), v)) == es by {
        assert es[n - 1] in es;
        EntryWellFormed(es, n - 1);
        MergeValueSelf(v);
        SelfStep(es, n - 1);
      }
    }
  }

  /** The entries of a well-formed dict are well-formed and its keys unique. */
  lemma EntryWellFormed(es: Entries, i: nat)
    requires WellFormed(Map(es)) && i < |es|
    ensures UniqueKeys(es) && WellFormed(es[i].1)
  {
  }

  /** Re-applying an entry of a dict whose merged value is itself leaves the dict unchanged. */
  lemma SelfStep(es: Entries, i: nat)
    requires UniqueKeys(es) && i < |es|
    requires MergeValue(Some(es[i].1), es[i].1) == es[i].1
    ensures Put(es, es[i].0, MergeValue(Get(es, es[i].0), es[i].1)) == es
  {
    GetAt(es, i);
    PutExisting(es, i);
  }

  /** One more entry of the override, given the dict so far. */
  lemma MergeStep(base: Entries, override: Entries, n: nat, acc: Entries, k: string, v: Value)
    requires 0 < n <= |override| && acc == MergePrefix(base, override, n - 1)
    requires override[n - 1] == (k, v)
    ensures MergePrefix(base, override, n) == Put(acc, k, MergeValue(Get(acc, k), v))
  {
    MergePrefixStep(base, override, n);
  }

  /** One more entry of the override, spelled out. */
  lemma {:induction false} MergePrefixStep(base: Entries, override: Entries, n: nat)
    requires 0 < n <= |override|
    ensures var acc := MergePrefix(base, override, n - 1);
      var k := override[n - 1].0;
      MergePrefix(base, override, n) == Put(acc, k, MergeValue(Get(acc, k), override[n - 1].1))
  {
  }

  /** A well-formed value merged over itself is itself. */
  lemma {:induction false} MergeValueSelf(v: Value)
    requires WellFormed(v)
    ensures MergeValue(Some(v), v) == v
    decreases v, 2
  {
    if v.Map? {
      MergeSelf(v.entries);
    }
  }

  /** `load_compose_config`'s loop from the given files on, with `config` so far. */
  function LoadFold(fs: FileSystem, files: seq<Path>, config: Entries): Result<Entries, Exception>
    decreases |files|
  {
    if files == [] then Success(config)
    else
      var f := files[0];
      if f !in fs.docs then Failure(OSError(f))
      else match fs.docs[f]
        case SyntaxError => Failure(YamlError(f))
        case Parsed(v) =>
          if !Truthy(v) then LoadFold(fs, files[1..], config)
          else if v.Map? then LoadFold(fs, files[1..], Merge(config, v.entries))
          else Failure(AttributeError("items"))
  }

  /** `load_compose_config(profile)`: folds `_merge_configs` over the profile's files, starting from {}. */
  method LoadComposeConfig(cfg: Config, profile: Option<string>, fs: FileSystem) returns (r: Result<Entries, Exception>)
    ensures r == LoadFold(fs, ComposeFilesForProfile(cfg, profile, fs), [])
  {
    var files := ComposeFilesForProfile(cfg, profile, fs);
    var config: Entries := [];
    var i := 0;
    while i < |files|
      invariant 0 <= i <= |files|
      invariant LoadFold(fs, files, []) == LoadFold(fs, files[i..], config)
    {
      var f := files[i];
      assert files[i..][1..] == files[i + 1..];
      if f !in fs.docs {
        return Failure(OSError(f));
      }
      match fs.docs[f]
      case SyntaxError =>
        return Failure(YamlError(f));
      case Parsed(v) =>
        if Truthy(v) {
          if !v.Map? {
            return Failure(AttributeError("items"));
          }
          config := MergeConfigs(config, v.entries);
        }
      i := i + 1;
    }
    assert files[i..] == [];
    r := Success(config);
  }

  /**
   * With a dict in the base file and one in the dev file, the "dev" profile
   * loads the dev file merged over the base file, and any other profile the base file.
   */
  lemma LoadComposeLayers(cfg: Config, profile: Option<string>, fs: FileSystem, base: Entries, dev: Entries)
    requires cfg.ComposeFile() in fs.docs && fs.docs[cfg.ComposeFile()] == Parsed(Map(base))
    requires cfg.ComposeDevFile() in fs.docs && fs.docs[cfg.ComposeDevFile()] == Parsed(Map(dev))
    requires UniqueKeys(base)
    ensures LoadFold(fs, ComposeFilesForProfile(cfg, profile, fs), []) ==
      Success(if profile == Some("dev") then Merge(base, dev) else base)
  {
    var files := ComposeFilesForProfile(cfg, profile, fs);
    var b := cfg.ComposeFile();
    var d := cfg.ComposeDevFile();
    MergeIntoEmpty(base);
    assert LoadFold(fs, [b], []) == Success(base);
    if profile == Some("dev") {
      assert files == [b, d];
      assert files[1..] == [d];
      assert LoadFold(fs, files, []) == LoadFold(fs, [d], base);
      MergeEmptyOverride(base);
      assert LoadFold(fs, [d], base) == LoadFold(fs, [], Merge(base, dev));
    } else {
      assert files == [b];
    }
  }

  /** `get_service_names(profile)`: the keys of the merged `services` dict. */
  method GetServiceNames(cfg: Config, profile: Option<string>, fs: FileSystem) returns (r: Result<seq<string>, Exception>)
    ensures LoadFold(fs, ComposeFilesForProfile(cfg, profile, fs), []).Failure? ==>
      r == Failure(LoadFold(fs, ComposeFilesForProfile(cfg, profile, fs), []).error)
    ensures LoadFold(fs, ComposeFilesForProfile(cfg, profile, fs), []).Success? ==>
      var services := GetOr(LoadFold(fs, ComposeFilesForProfile(cfg, profile, fs), []).value, "services", Map([]));
      r == if services.Map? then Success(Keys(services.entries)) else Failure(AttributeError("keys"))
  {
    var loaded := LoadComposeConfig(cfg, profile, fs);
    if loaded.Failure? {
      return Failure(loaded.error);
    }
    var services := GetOr(loaded.value, "services", Map([]));
    if !services.Map? {
      return Failure(AttributeError("keys"));
    }
    r := Success(Keys(services.entries));
  }

  /** The top-level dict of services.yml: None when the file is missing. */
  function ServicesDocument(cfg: Config, fs: FileSystem): Result<Option<Entries>, Exception> {
    var p := cfg.ServicesFile();
    if !fs.Exists(p) then Success(None)
    else if p !in fs.docs then Failure(OSError(p))
    else match fs.docs[p]
      case SyntaxError => Failure(YamlError(p))
      case Parsed(v) => if v.Map? then Success(Some(v.entries)) else Failure(AttributeError("get"))
  }

  /** A legacy bare URL string becomes `{'url': s, 'branch': None}`; anything else passes through. */
  function NormalizeRepo(v: Value): Value {
    if v.Str? then Map([("url", v), ("branch", Null)]) else v
  }

  /** `normalized` after the loop of `get_service_repos` has seen the first n repositories. */
  function NormalizePrefix(repos: Entries, n: nat): Entries
    requires n <= |repos|
  {
    if n == 0 then []
    else Put(NormalizePrefix(repos, n - 1), repos[n - 1].0, NormalizeRepo(repos[n - 1].1))
  }

  /** Normalisation keeps exactly the repositories' keys, in order, each with its normalised value. */
  lemma {:induction false} NormalizeEntrywise(repos: Entries, n: nat)
    requires UniqueKeys(repos) && n <= |repos|
    ensures |NormalizePrefix(repos, n)| == n
    ensures forall i :: 0 <= i < n ==> NormalizePrefix(repos, n)[i] == (repos[i].0, NormalizeRepo(repos[i].1))
  {
    if n > 0 {
      NormalizeEntrywise(repos, n - 1);
      var acc := NormalizePrefix(repos, n - 1);
      var k := repos[n - 1].0;
      var v := NormalizeRepo(repos[n - 1].1);
      FreshKey(repos, n, acc);
      PutNew(acc, k, v);
      var r := NormalizePrefix(repos, n);
      NormalizeStep(repos, n);
      SnocEntrywise(repos, n, acc, r);
    }
  }

  /** Appending the n-th repository, normalised, to the first n - 1 keeps the entrywise form. */
  lemma SnocEntrywise(repos: Entries, n: nat, acc: Entries, r: Entries)
    requires 0 < n <= |repos| && |acc| == n - 1
    requires forall i :: 0 <= i < n - 1 ==> acc[i] == (repos[i].0, NormalizeRepo(repos[i].1))
    requires r == acc + [(repos[n - 1].0, NormalizeRepo(repos[n - 1].1))]
    ensures |r| == n && forall i :: 0 <= i < n ==> r[i] == (repos[i].0, NormalizeRepo(repos[i].1))
  {
  }

  /** One more repository, spelled out. */
  lemma {:induction false} NormalizeStep(repos: Entries, n: nat)
    requires 0 < n <= |repos|
    ensures NormalizePrefix(repos, n) == Put(NormalizePrefix(repos, n - 1), repos[n - 1].0, NormalizeRepo(repos[n - 1].1))
  {
  }

  /** A dict whose keys are the first n - 1 keys of a dict with unique keys lacks the n-th key. */
  lemma FreshKey(repos: Entries, n: nat, acc: Entries)
    requires UniqueKeys(repos) && 0 < n <= |repos|
    requires |acc| == n - 1 && forall i :: 0 <= i < n - 1 ==> acc[i].0 == repos[i].0
    ensures repos[n - 1].0 !in Keys(acc)
  {
    forall j | 0 <= j < |acc| ensures Keys(acc)[j] != repos[n - 1].0 {
      assert Keys(acc)[j] == acc[j].0 == repos[j].0;
    }
  }

  /** `get_service_repos()`: {} without services.yml, else the `repositories` dict normalised. */
  method GetServiceRepos(cfg: Config, fs: FileSystem) returns (r: Result<Entries, Exception>)
    ensures ServicesDocument(cfg, fs) == Success(None) ==> r == Success([])
    ensures ServicesDocument(cfg, fs).Failure? ==> r == Failure(ServicesDocument(cfg, fs).error)
    ensures ServicesDocument(cfg, fs).Success? && ServicesDocument(cfg, fs).value.Some? ==>
      var repos := GetOr(ServicesDocument(cfg, fs).value.value, "repositories", Map([]));
      r == if repos.Map? then Success(NormalizePrefix(repos.entries, |repos.entries|)) else Failure(AttributeError("items"))
  {
    var doc := ServicesDocument(cfg, fs);
    if doc.Failure? {
      return Failure(doc.error);
    }
    if doc.value.None? {
      return Success([]);
    }
    var repos := GetOr(doc.value.value, "repositories", Map([]));
    if !repos.Map? {
      return Failure(AttributeError("items"));
    }
    var normalized: Entries := [];
    var i := 0;
    while i < |repos.entries|
      invariant 0 <= i <= |repos.entries|
      invariant normalized == NormalizePrefix(repos.entries, i)
    {
      var name := repos.entries[i].0;
      var config := repos.entries[i].1;
      assert NormalizePrefix(repos.entries, i + 1) == Put(normalized, name, NormalizeRepo(config));
      if config.Str? {
        normalized := Put(normalized, name, Map([("url", config), ("branch", Null)]));
      } else {
        normalized := Put(normalized, name, config);
      }
      i := i + 1;
    }
    r := Success(normalized);
  }

  /** `get_service_build_config(name)`: `builds.get(name)`, None when services.yml is missing. */
  function GetServiceBuildConfig(cfg: Config, fs: FileSystem, name: string): (r: Result<Value, Exception>)
    ensures !fs.Exists(cfg.ServicesFile()) ==> r == Success(Null)
    ensures ServicesDocument(cfg, fs).Failure? ==> r.Failure?
    ensures ServicesDocument(cfg, fs).Success? && ServicesDocument(cfg, fs).value.Some? ==>
      var sc := ServicesDocument(cfg, fs).value.value;
      && (Get(sc, "builds") == None ==> r == Success(Null))
      && (Get(sc, "builds").Some? && Get(sc, "builds").value.Map? ==>
            var builds := Get(sc, "builds").value.entries;
            && (Get(builds, name) == None ==> r == Success(Null))
            && (Get(builds, name).Some? ==> r == Success(Get(builds, name).value)))
      && (Get(sc, "builds").Some? && !Get(sc, "builds").value.Map? ==> r.Failure?)
  {
    match ServicesDocument(cfg, fs)
    case Failure(e) => Failure(e)
    case Success(None) => Success(Null)
    case Success(Some(sc)) =>
      var builds := GetOr(sc, "builds", Map([]));
      if builds.Map? then Success(GetOr(builds.entries, name, Null)) else Failure(AttributeError("get"))
  }

  /** `get_all_build_configs()`: the `builds` value as it stands, {} when services.yml is missing. */
  function GetAllBuildConfigs(cfg: Config, fs: FileSystem): (r: Result<Value, Exception>)
    ensures !fs.Exists(cfg.ServicesFile()) ==> r == Success(Map([]))
    ensures r.Failure? <==> ServicesDocument(cfg, fs).Failure?
    ensures ServicesDocument(cfg, fs).Success? && ServicesDocument(cfg, fs).value.Some? ==>
      var sc := ServicesDocument(cfg, fs).value.value;
      && (Get(sc, "builds") == None ==> r == Success(Map([])))
      && (Get(sc, "builds").Some? ==> r == Success(Get(sc, "builds").value))
  {
    match ServicesDocument(cfg, fs)
    case Failure(e) => Failure(e)
    case Success(None) => Success(Map([]))
    case Success(Some(sc)) => Success(GetOr(sc, "builds", Map([])))
  }

  /**
   * When the builds section is a dict, looking up one service finds its entry
   * of that dict, and None for a name it lacks.
   */
  lemma BuildConfigLookup(cfg: Config, fs: FileSystem, name: string)
    ensures GetAllBuildConfigs(cfg, fs).Success? && GetAllBuildConfigs(cfg, fs).value.Map? ==>
      GetServiceBuildConfig(cfg, fs, name) == Success(GetOr(GetAllBuildConfigs(cfg, fs).value.entries, name, Null))
    ensures GetAllBuildConfigs(cfg, fs).Failure? ==> GetServiceBuildConfig(cfg, fs, name).Failure?
    ensures !fs.Exists(cfg.ServicesFile()) ==>
      GetServiceBuildConfig(cfg, fs, name) == Success(Null) && GetAllBuildConfigs(cfg, fs) == Success(Map([]))
  {
  }
}
