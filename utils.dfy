/**
 * The helpers of shardctl/utils.py: cloning the service repositories,
 * the environment probe, the status formatting and building one service
 * from its manifest entry. Processes are the `Runner` oracle, and the
 * outcome of `shutil.rmtree` is an oracle per path.
 */
module Utils {
  import opened Wrappers
  import opened Yaml
  import opened Text
  import opened Host
  import opened Config

  // ---------------------------------------------------------------- clone_services

  /** The URL and branch an entry of the repository mapping names: a dict's `url` (the dict itself when absent) and `branch`. */
  function CloneTarget(v: Value): (Value, Value) {
    if v.Map? then (GetOr(v.entries, "url", v), GetOr(v.entries, "branch", Null)) else (v, Null)
  }

  /** The legacy bare-URL form and its normalised dict clone the same repository on the same branch. */
  lemma CloneTargetNormalized(v: Value)
    ensures CloneTarget(NormalizeRepo(v)) == CloneTarget(v)
  {
    if v.Str? {
      var es := [("url", v), ("branch", Null)];
      assert "url" != "branch";
      assert es[1..] == [("branch", Null)];
      assert Get(es, "url") == Some(v);
      assert Get(es, "branch") == Some(Null);
    }
  }

  /**
   * `["git", "clone"] + ["-b", branch] + [url, path]`. The process runner
   * accepts only strings, so a vector holding anything else raises
   * `TypeError` instead of starting a process: None here.
   */
  function CloneVector(url: Value, branch: Value, path: Path): (argv: Option<seq<string>>)
    ensures argv.Some? <==> url.Str? && (!Truthy(branch) || branch.Str?)
    ensures argv.Some? ==>
      var a := argv.value;
      |a| == (if Truthy(branch) then 6 else 4) && a[..2] == ["git", "clone"] && a[|a| - 2..] == [url.s, path] &&
      (Truthy(branch) ==> a[2..4] == ["-b", branch.s])
  {
    if !url.Str? || (Truthy(branch) && !branch.Str?) then None
    else if Truthy(branch) then Some(["git", "clone", "-b", branch.s, url.s, path])
    else Some(["git", "clone", url.s, path])
  }

  /** What happened to one entry of the mapping. */
  datatype CloneOutcome =
    | Skipped                           // the path exists and force is off
    | RemovalFailed                     // shutil.rmtree raised
    | Cloned(argv: seq<string>, ok: bool) // git clone ran; ok when it exited with 0
    | BadArgument                       // the clone vector held a non-string

  /**
   * One iteration of the loop of `clone_services`, with `present` the paths
   * that exist: it returns the outcome and the paths that exist afterwards.
   */
  function CloneStep(name: string, v: Value, servicesDir: Path, force: bool, present: set<Path>,
                     remove: Path -> bool, run: Runner): (step: (CloneOutcome, set<Path>))
    ensures var path := Join(servicesDir, name);
      && (step.0 == Skipped <==> path in present && !force)
      && (step.0 == RemovalFailed <==> path in present && force && !remove(path))
      && (step.0.Cloned? ==> CloneVector(CloneTarget(v).0, CloneTarget(v).1, path) == Some(step.0.argv)
                             && (step.0.ok <==> run(Argv(step.0.argv)) == 0))
      && (step.0 == BadArgument <==>
            (path !in present || (force && remove(path))) && CloneVector(CloneTarget(v).0, CloneTarget(v).1, path).None?)
      && step.1 - {path} == present - {path}
  {
    var path := Join(servicesDir, name);
    if path in present && !force then (Skipped, present)
    else if path in present && !remove(path) then (RemovalFailed, present)
    else
      var left := present - {path};
      var target := CloneTarget(v);
      match CloneVector(target.0, target.1, path)
      case None => (BadArgument, left)
      case Some(argv) =>
        var ok := run(Argv(argv)) == 0;
        (Cloned(argv, ok), if ok then left + {path} else left)
  }

  /** The outcomes of the first n entries, in order, and the paths that exist after them. */
  function CloneRun(repos: Entries, n: nat, servicesDir: Path, force: bool, present: set<Path>,
                    remove: Path -> bool, run: Runner): (r: (seq<(string, CloneOutcome)>, set<Path>))
    requires n <= |repos|
    ensures |r.0| == n
    ensures forall i :: 0 <= i < n ==> r.0[i].0 == repos[i].0
  {
    if n == 0 then ([], present)
    else
      var before := CloneRun(repos, n - 1, servicesDir, force, present, remove, run);
      var step := CloneStep(repos[n - 1].0, repos[n - 1].1, servicesDir, force, before.1, remove, run);
      (before.0 + [(repos[n - 1].0, step.0)], step.1)
  }

  /**
   * `clone_services(service_repos, services_dir, force)`: every entry is
   * visited in order whatever happened to the previous ones, and an empty
   * mapping does nothing.
   */
  method CloneServices(repos: Entries, servicesDir: Path, force: bool, present: set<Path>,
                       remove: Path -> bool, run: Runner)
    returns (outcomes: seq<(string, CloneOutcome)>, after: set<Path>)
    ensures (outcomes, after) == CloneRun(repos, |repos|, servicesDir, force, present, remove, run)
  {
    if repos == [] {
      return [], present;
    }
    outcomes := [];
    after := present;
    for i := 0 to |repos|
      invariant (outcomes, after) == CloneRun(repos, i, servicesDir, force, present, remove, run)
    {
      var name := repos[i].0;
      var config := repos[i].1;
      var path := Join(servicesDir, name);
      var target := CloneTarget(config);
      ghost var step := CloneStep(name, config, servicesDir, force, after, remove, run);
      assert CloneRun(repos, i + 1, servicesDir, force, present, remove, run) == (outcomes + [(name, step.0)], step.1);
      if path in after {
        if force {
          if !remove(path) {
            assert step == (RemovalFailed, after);
            outcomes := outcomes + [(name, RemovalFailed)];
            continue;
          }
          after := after - {path};
        } else {
          assert step == (Skipped, after);
          outcomes := outcomes + [(name, Skipped)];
          continue;
        }
      } else {
        assert after - {path} == after;
      }
      var argv := CloneVector(target.0, target.1, path);
      if argv.None? {
        assert step == (BadArgument, after);
        outcomes := outcomes + [(name, BadArgument)];
        continue;
      }
      var ok := run(Argv(argv.value)) == 0;
      assert step == (Cloned(argv.value, ok), if ok then after + {path} else after);
      if ok {
        after := after + {path};
      }
      outcomes := outcomes + [(name, Cloned(argv.value, ok))];
    }
  }

  /** The entries land on pairwise distinct paths. */
  predicate DistinctPaths(repos: Entries, servicesDir: Path) {
    forall i, j :: 0 <= i < j < |repos| ==> Join(servicesDir, repos[i].0) != Join(servicesDir, repos[j].0)
  }

  /** Distinct relative service names give distinct paths. */
  lemma RelativeNamesDistinct(repos: Entries, servicesDir: Path)
    requires UniqueKeys(repos)
    requires forall i :: 0 <= i < |repos| ==> repos[i].0 == [] || repos[i].0[0] != '/'
    ensures DistinctPaths(repos, servicesDir)
  {
    forall i, j | 0 <= i < j < |repos| ensures Join(servicesDir, repos[i].0) != Join(servicesDir, repos[j].0) {
      JoinInjective(servicesDir, repos[i].0, repos[j].0);
    }
  }

  lemma {:induction false} CloneRunKeepsLaterPaths(repos: Entries, n: nat, servicesDir: Path, force: bool,
                                                   present: set<Path>, remove: Path -> bool, run: Runner)
    requires n <= |repos| && DistinctPaths(repos, servicesDir)
    ensures forall j :: n <= j < |repos| ==>
      (Join(servicesDir, repos[j].0) in CloneRun(repos, n, servicesDir, force, present, remove, run).1
       <==> Join(servicesDir, repos[j].0) in present)
  {
    if n > 0 {
      CloneRunKeepsLaterPaths(repos, n - 1, servicesDir, force, present, remove, run);
      var before := CloneRun(repos, n - 1, servicesDir, force, present, remove, run);
      var step := CloneStep(repos[n - 1].0, repos[n - 1].1, servicesDir, force, before.1, remove, run);
      forall j | n <= j < |repos|
        ensures Join(servicesDir, repos[j].0) in step.1 <==> Join(servicesDir, repos[j].0) in present
      {
        var p := Join(servicesDir, repos[j].0);
        assert p != Join(servicesDir, repos[n - 1].0);
        assert p in step.1 <==> p in step.1 - {Join(servicesDir, repos[n - 1].0)};
        assert p in before.1 <==> p in before.1 - {Join(servicesDir, repos[n - 1].0)};
      }
    }
  }

  /** A step's outcome only looks at whether its own path exists. */
  lemma CloneStepOwnPath(name: string, v: Value, servicesDir: Path, force: bool, p1: set<Path>, p2: set<Path>,
                         remove: Path -> bool, run: Runner)
    requires Join(servicesDir, name) in p1 <==> Join(servicesDir, name) in p2
    ensures CloneStep(name, v, servicesDir, force, p1, remove, run).0 == CloneStep(name, v, servicesDir, force, p2, remove, run).0
  {
  }

  /**
   * When the entries land on distinct paths, each entry is decided against
   * the filesystem as it was before the run: an existing path without force
   * is skipped, a failed removal skips only its own entry, and every other
   * entry issues its clone vector.
   */
  lemma {:induction false} CloneDecisionsIndependent(repos: Entries, servicesDir: Path, force: bool,
                                                     present: set<Path>, remove: Path -> bool, run: Runner)
    requires DistinctPaths(repos, servicesDir)
    ensures forall i :: 0 <= i < |repos| ==>
      CloneRun(repos, |repos|, servicesDir, force, present, remove, run).0[i].1 ==
      CloneStep(repos[i].0, repos[i].1, servicesDir, force, present, remove, run).0
  {
    CloneRunPrefixOutcomes(repos, |repos|, servicesDir, force, present, remove, run);
  }

  lemma {:induction false} CloneRunPrefixOutcomes(repos: Entries, n: nat, servicesDir: Path, force: bool,
                                                  present: set<Path>, remove: Path -> bool, run: Runner)
    requires n <= |repos| && DistinctPaths(repos, servicesDir)
    ensures forall i :: 0 <= i < n ==>
      CloneRun(repos, n, servicesDir, force, present, remove, run).0[i].1 ==
      CloneStep(repos[i].0, repos[i].1, servicesDir, force, present, remove, run).0
  {
    if n > 0 {
      CloneRunPrefixOutcomes(repos, n - 1, servicesDir, force, present, remove, run);
      CloneRunKeepsLaterPaths(repos, n - 1, servicesDir, force, present, remove, run);
      var before := CloneRun(repos, n - 1, servicesDir, force, present, remove, run);
      CloneStepOwnPath(repos[n - 1].0, repos[n - 1].1, servicesDir, force, before.1, present, remove, run);
      var r := CloneRun(repos, n, servicesDir, force, present, remove, run);
      assert r.0 == before.0 + [(repos[n - 1].0, CloneStep(repos[n - 1].0, repos[n - 1].1, servicesDir, force, before.1, remove, run).0)];
    }
  }

  // ---------------------------------------------------------------- validate_environment

  const DockerProbe: Command := Argv(["docker", "compose", "version"])
  const GitProbe: Command := Argv(["git", "--version"])

  /** `validate_environment()`: both probes run, and only the docker compose probe decides. */
  method ValidateEnvironment(run: Runner) returns (valid: bool, probes: seq<Command>)
    ensures valid <==> run(DockerProbe) == 0
    ensures probes == [DockerProbe, GitProbe]
  {
    valid := true;
    probes := [DockerProbe];
    if run(DockerProbe) != 0 {
      valid := false;
    }
    // a missing git only prints a warning
    probes := probes + [GitProbe];
  }

  // ---------------------------------------------------------------- format_ports / format_service_status

  /** `str(v)` as an f-string renders it; `repr` stands for the rendering of lists and dicts. */
  function Render(v: Value, repr: Value -> string): string {
    match v
    case Null => "None"
    case Bool(b) => if b then "True" else "False"
    case Int(i) => IntToDecimal(i)
    case Str(s) => s
    case Other(text, _) => text
    case List(_) => repr(v)
    case Map(_) => repr(v)
  }

  const Arrow: char := '\U{2192}'

  /** A publisher entry is shown when both its published and its target port are truthy. */
  predicate Shown(pub: Entries) {
    Truthy(GetOr(pub, "PublishedPort", Str(""))) && Truthy(GetOr(pub, "TargetPort", Str("")))
  }

  function PortText(pub: Entries, repr: Value -> string): (t: string)
    ensures Arrow in t
  {
    var published := Render(GetOr(pub, "PublishedPort", Str("")), repr);
    var t := published + [Arrow] + Render(GetOr(pub, "TargetPort", Str("")), repr);
    assert t[|published|] == Arrow;
    t
  }

  /**
   * `port_strs` after the loop has seen the given entries: one "p→t" per
   * shown entry, in order; the first entry that is not a dict raises.
   */
  function PortStrs(items: seq<Value>, repr: Value -> string): (r: Result<seq<string>, Exception>)
    ensures r.Success? ==> forall j :: 0 <= j < |r.value| ==> Arrow in r.value[j]
    ensures r.Failure? ==> r.error == AttributeError("get")
  {
    if items == [] then Success([])
    else
      var pub := items[|items| - 1];
      match PortStrs(items[..|items| - 1], repr)
      case Failure(e) => Failure(e)
      case Success(ps) =>
        if !pub.Map? then Failure(AttributeError("get"))
        else if Shown(pub.entries) then Success(ps + [PortText(pub.entries, repr)])
        else Success(ps)
  }

  /** The loop gets through the list exactly when every entry is a dict. */
  lemma {:induction false} PortStrsSucceeds(items: seq<Value>, repr: Value -> string)
    ensures PortStrs(items, repr).Success? <==> forall i :: 0 <= i < |items| ==> items[i].Map?
  {
    if items != [] {
      var front := items[..|items| - 1];
      PortStrsSucceeds(front, repr);
      if forall i :: 0 <= i < |items| ==> items[i].Map? {
        assert forall i :: 0 <= i < |front| ==> front[i].Map? by {
          forall i | 0 <= i < |front| ensures front[i].Map? {
            assert front[i] == items[i];
          }
        }
      } else {
        var i :| 0 <= i < |items| && !items[i].Map?;
        if i < |front| {
          assert front[i] == items[i];
        }
      }
    }
  }

  /** The last entry, a dict, adds its text exactly when it is shown. */
  lemma PortStrsLast(items: seq<Value>, repr: Value -> string)
    requires items != [] && PortStrs(items[..|items| - 1], repr).Success? && items[|items| - 1].Map?
    ensures var ps := PortStrs(items[..|items| - 1], repr).value;
      var pub := items[|items| - 1].entries;
      PortStrs(items, repr) == Success(if Shown(pub) then ps + [PortText(pub, repr)] else ps)
  {
  }

  /** When it gets through, it collects nothing exactly when no entry is shown. */
  lemma PortStrsEmpty(items: seq<Value>, repr: Value -> string)
    requires forall i :: 0 <= i < |items| ==> items[i].Map?
    ensures PortStrs(items, repr).Success?
    ensures PortStrs(items, repr).value == [] <==> forall i :: 0 <= i < |items| ==> !Shown(items[i].entries)
  {
    PortStrsNoneShown(items, repr);
    AnyOfIff(items, ShownEntry);
    assert forall i :: 0 <= i < |items| ==> (ShownEntry(items[i]) <==> Shown(items[i].entries));
  }

  /** An entry of the publishers list that is a dict showing both ports. */
  predicate ShownEntry(v: Value) {
    v.Map? && Shown(v.entries)
  }

  /** Whether some entry of the list satisfies `p`, read from the last entry back. */
  predicate AnyOf(items: seq<Value>, p: Value -> bool) {
    items != [] && (AnyOf(items[..|items| - 1], p) || p(items[|items| - 1]))
  }

  lemma {:induction false} PortStrsNoneShown(items: seq<Value>, repr: Value -> string)
    requires forall i :: 0 <= i < |items| ==> items[i].Map?
    ensures PortStrs(items, repr).Success?
    ensures PortStrs(items, repr).value == [] <==> !AnyOf(items, ShownEntry)
  {
    if items != [] {
      var front := items[..|items| - 1];
      var pub := items[|items| - 1];
      assert forall i :: 0 <= i < |front| ==> front[i] == items[i];
      PortStrsNoneShown(front, repr);
      PortStrsLast(items, repr);
      assert AnyOf(items, ShownEntry) <==> AnyOf(front, ShownEntry) || Shown(pub.entries);
    }
  }

  lemma {:induction false} AnyOfIff(items: seq<Value>, p: Value -> bool)
    ensures AnyOf(items, p) <==> exists i :: 0 <= i < |items| && p(items[i])
  {
    if items != [] {
      var n := |items| - 1;
      var front := items[..n];
      AnyOfIff(front, p);
      if AnyOf(front, p) {
        var i :| 0 <= i < |front| && p(front[i]);
        assert front[i] == items[i];
      }
      if exists i :: 0 <= i < |items| && p(items[i]) {
        var i :| 0 <= i < |items| && p(items[i]);
        if i < n {
          assert front[i] == items[i];
        }
      }
    }
  }

  /** `format_ports(publishers)`. */
  function PortsText(publishers: Value, repr: Value -> string): Result<string, Exception> {
    if !Truthy(publishers) then Success("N/A")
    else match publishers
      case List(items) =>
        (match PortStrs(items, repr)
         case Failure(e) => Failure(e)
         case Success(ps) => Success(if ps == [] then "N/A" else JoinWith(", ", ps)))
      case Map(_) => Failure(AttributeError("get"))   // iterating a dict yields its string keys
      case Str(_) => Failure(AttributeError("get"))   // iterating a string yields characters
      case _ => Failure(TypeError("not iterable"))
  }

  /** `format_ports`: collects the shown entries of the list in a loop. */
  method FormatPorts(publishers: Value, repr: Value -> string) returns (r: Result<string, Exception>)
    ensures r == PortsText(publishers, repr)
  {
    if !Truthy(publishers) {
      return Success("N/A");
    }
    if publishers.Map? || publishers.Str? {
      return Failure(AttributeError("get"));
    }
    if !publishers.List? {
      return Failure(TypeError("not iterable"));
    }
    var items := publishers.items;
    var portStrs: seq<string> := [];
    for i := 0 to |items|
      invariant PortStrs(items[..i], repr) == Success(portStrs)
    {
      assert items[..i + 1][..i] == items[..i];
      var pub := items[i];
      if !pub.Map? {
        PortStrsSucceeds(items, repr);
        return Failure(AttributeError("get"));
      }
      if Shown(pub.entries) {
        portStrs := portStrs + [PortText(pub.entries, repr)];
      }
    }
    assert items[..|items|] == items;
    r := Success(if portStrs == [] then "N/A" else JoinWith(", ", portStrs));
  }

  lemma {:induction false} JoinContains(sep: string, parts: seq<string>, c: char)
    requires |parts| > 0 && c in parts[0]
    ensures c in JoinWith(sep, parts)
  {
    if |parts| > 1 {
      var j := JoinWith(sep, parts);
      assert j == parts[0] + sep + JoinWith(sep, parts[1..]);
      assert j[..|parts[0]|] == parts[0];
    }
  }

  /**
   * For a list of publisher dicts the text is "N/A" exactly when no entry
   * has both ports set; for an empty or missing list it is "N/A" too.
   */
  lemma PortsNotAvailable(items: seq<Value>, repr: Value -> string)
    requires forall i :: 0 <= i < |items| ==> items[i].Map?
    ensures PortsText(List(items), repr).Success?
    ensures PortsText(List(items), repr) == Success("N/A") <==> forall i :: 0 <= i < |items| ==> !Shown(items[i].entries)
  {
    PortStrsEmpty(items, repr);
    var r := PortStrs(items, repr);
    if r.value != [] {
      JoinContains(", ", r.value, Arrow);
      assert Arrow !in "N/A";
    }
  }

  /** The four plain fields of a status row. */
  const StatusFields: seq<string> := ["Name", "Service", "State", "Status"]

  /** `format_service_status(service_info)`: the four fields with "N/A" defaults, then the formatted ports. */
  function FormatServiceStatus(info: Value, repr: Value -> string): (r: Result<Entries, Exception>)
    ensures r.Success? <==> info.Map? && PortsText(GetOr(info.entries, "Publishers", List([])), repr).Success?
    ensures r.Success? ==> Keys(r.value) == StatusFields + ["Ports"]
    ensures r.Success? ==> forall i :: 0 <= i < |StatusFields| ==>
      r.value[i].1 == GetOr(info.entries, StatusFields[i], Str("N/A"))
    ensures r.Success? ==> r.value[4].1 == Str(PortsText(GetOr(info.entries, "Publishers", List([])), repr).value)
  {
    if !info.Map? then Failure(AttributeError("get"))
    else
      var es := info.entries;
      match PortsText(GetOr(es, "Publishers", List([])), repr)
      case Failure(e) => Failure(e)
      case Success(ports) =>
        Success([("Name", GetOr(es, "Name", Str("N/A"))),
                 ("Service", GetOr(es, "Service", Str("N/A"))),
                 ("State", GetOr(es, "State", Str("N/A"))),
                 ("Status", GetOr(es, "Status", Str("N/A"))),
                 ("Ports", Str(ports))])
  }

  // ---------------------------------------------------------------- build_service

  /** A command field: absent or falsy, or a string. */
  predicate CommandOk(v: Value) {
    !Truthy(v) || v.Str?
  }

  /** A steps field: absent or falsy, or a list of strings. */
  predicate StepsOk(v: Value) {
    !Truthy(v) || (v.List? && forall i :: 0 <= i < |v.items| ==> v.items[i].Str?)
  }

  /** The shapes of a build entry of services.yml that the build code relies on. */
  predicate BuildConfigOk(c: Value) {
    && c.Map?
    && CommandOk(GetOr(c.entries, "build_command", Null))
    && CommandOk(GetOr(c.entries, "docker_build_command", Null))
    && CommandOk(GetOr(c.entries, "working_directory", Null))
    && StepsOk(GetOr(c.entries, "pre_build_steps", List([])))
    && StepsOk(GetOr(c.entries, "docker_pre_build_steps", List([])))
  }

  function CommandKey(docker: bool): string {
    if docker then "docker_build_command" else "build_command"
  }

  function StepsKey(docker: bool): string {
    if docker then "docker_pre_build_steps" else "pre_build_steps"
  }

  const NixProbe: Command := Argv(["nix", "--version"])

  /** The `nix develop` wrapper, as plain string concatenation. */
  function NixWrap(c: string): string {
    "nix develop --command bash -c \"" + c + "\""
  }

  /**
   * Whether the source phase survives reading `binary_path` after its main
   * command succeeded: `service_path / binary_path` raises TypeError for a
   * truthy value that is not a string, and the build reports failure.
   */
  predicate BinaryPathUsable(es: Entries, docker: bool) {
    var binaryPath := GetOr(es, "binary_path", Null);
    docker || !Truthy(binaryPath) || binaryPath.Str?
  }

  function Wrap(useNix: bool, c: string): string {
    if useNix then NixWrap(c) else c
  }

  /** What one build phase did: whether it succeeded, and the commands it started, in order. */
  datatype BuildRun = BuildRun(ok: bool, trace: seq<Command>)

  function StepCommand(step: string, useNix: bool, path: Path): Command {
    Shell(Wrap(useNix, step), path)
  }

  /** What a run of the pre-build steps promises: see `RunSteps`. */
  predicate StepsRan(steps: seq<string>, useNix: bool, path: Path, run: Runner, r: BuildRun) {
    && |r.trace| <= |steps|
    && (forall j :: 0 <= j < |r.trace| ==> r.trace[j] == StepCommand(steps[j], useNix, path))
    && (r.ok <==> forall j :: 0 <= j < |steps| ==> run(StepCommand(steps[j], useNix, path)) == 0)
    && (r.ok ==> |r.trace| == |steps|)
    && (!r.ok ==> (|r.trace| > 0 && run(r.trace[|r.trace| - 1]) != 0 &&
                   forall j :: 0 <= j < |r.trace| - 1 ==> run(r.trace[j]) == 0))
  }

  /**
   * The pre-build steps from the first on: each runs in the service
   * directory, and the first that fails stops the phase.
   */
  function RunSteps(steps: seq<string>, useNix: bool, path: Path, run: Runner): (r: BuildRun)
    ensures |r.trace| <= |steps|
    ensures forall j :: 0 <= j < |r.trace| ==> r.trace[j] == StepCommand(steps[j], useNix, path)
    ensures r.ok <==> forall j :: 0 <= j < |steps| ==> run(StepCommand(steps[j], useNix, path)) == 0
    ensures r.ok ==> |r.trace| == |steps|
    ensures !r.ok ==> (|r.trace| > 0 && run(r.trace[|r.trace| - 1]) != 0 &&
                       forall j :: 0 <= j < |r.trace| - 1 ==> run(r.trace[j]) == 0)
  {
    if steps == [] then BuildRun(true, [])
    else
      var c := StepCommand(steps[0], useNix, path);
      if run(c) != 0 then BuildRun(false, [c])
      else
        var rest := RunSteps(steps[1..], useNix, path, run);
        StepsRanCons(steps, useNix, path, run, rest);
        BuildRun(rest.ok, [c] + rest.trace)
  }

  /** A first step that succeeds, followed by a run of the others, is a run of all of them. */
  lemma StepsRanCons(steps: seq<string>, useNix: bool, path: Path, run: Runner, rest: BuildRun)
    requires |steps| > 0 && run(StepCommand(steps[0], useNix, path)) == 0
    requires StepsRan(steps[1..], useNix, path, run, rest)
    ensures StepsRan(steps, useNix, path, run, BuildRun(rest.ok, [StepCommand(steps[0], useNix, path)] + rest.trace))
  {
    var tail := steps[1..];
    var r := BuildRun(rest.ok, [StepCommand(steps[0], useNix, path)] + rest.trace);
    forall j | 0 <= j < |r.trace| ensures r.trace[j] == StepCommand(steps[j], useNix, path) {
      if j > 0 {
        assert r.trace[j] == rest.trace[j - 1] && tail[j - 1] == steps[j];
      }
    }
    if rest.ok {
      forall j | 0 <= j < |steps| ensures run(StepCommand(steps[j], useNix, path)) == 0 {
        if j > 0 {
          assert tail[j - 1] == steps[j];
        }
      }
    } else {
      var k :| 0 <= k < |tail| && run(StepCommand(tail[k], useNix, path)) != 0;
      assert tail[k] == steps[k + 1];
      forall j | 0 <= j < |r.trace| - 1 ensures run(r.trace[j]) == 0 {
        if j > 0 {
          assert r.trace[j] == rest.trace[j - 1];
        }
      }
    }
  }

  /** The pre-build steps of a phase: the steps field when truthy, else none. */
  function PhaseSteps(es: Entries, docker: bool): seq<string>
    requires StepsOk(GetOr(es, StepsKey(docker), List([])))
  {
    var v := GetOr(es, StepsKey(docker), List([]));
    if Truthy(v) then seq(|v.items|, i requires 0 <= i < |v.items| => v.items[i].s) else []
  }

  /** Whether the entry asks for the nix environment. */
  predicate WantsNix(es: Entries) {
    GetOr(es, "environment", Null) == Str("nix")
  }

  /**
   * `build_service(service_name, service_path, build_config, docker)`. The
   * existence check also passes for a regular file; no process can then be
   * started in it, so the phase ends after the nix probe, which does not run
   * in the service directory (see `BuildRaises` for how it ends).
   */
  function BuildSpec(path: Path, config: Value, docker: bool, fs: FileSystem, run: Runner): BuildRun
    requires BuildConfigOk(config)
  {
    var es := config.entries;
    var command := GetOr(es, CommandKey(docker), Null);
    if !fs.Exists(path) || !Truthy(command) then BuildRun(false, [])
    else
      var probe := if WantsNix(es) then [NixProbe] else [];
      var useNix := WantsNix(es) && run(NixProbe) == 0;
      if path !in fs.dirs then BuildRun(false, probe)
      else
        var pre := RunSteps(PhaseSteps(es, docker), useNix, path, run);
        if !pre.ok then BuildRun(false, probe + pre.trace)
        else
          var main := Shell(Wrap(useNix, command.s), path);
          BuildRun(run(main) == 0 && BinaryPathUsable(es, docker), probe + pre.trace + [main])
  }

  /** The pre-build loop of `build_service`: runs the steps in order and returns at the first failure. */
  method RunPreBuildSteps(steps: seq<string>, useNix: bool, path: Path, run: Runner) returns (r: BuildRun)
    ensures r == RunSteps(steps, useNix, path, run)
  {
    var trace: seq<Command> := [];
    for i := 0 to |steps|
      invariant |trace| == i
      invariant forall j :: 0 <= j < i ==> trace[j] == StepCommand(steps[j], useNix, path)
      invariant forall j :: 0 <= j < i ==> run(trace[j]) == 0
    {
      var stepCmd := if useNix then NixWrap(steps[i]) else steps[i];
      var c := Shell(stepCmd, path);
      assert c == StepCommand(steps[i], useNix, path);
      if run(c) != 0 {
        StepsTraceFailed(steps, useNix, path, run, trace, c);
        return BuildRun(false, trace + [c]);
      }
      trace := trace + [c];
    }
    StepsTraceSucceeded(steps, useNix, path, run, trace);
    r := BuildRun(true, trace);
  }

  /** Steps that succeeded, then one that failed: the run is exactly those steps. */
  lemma StepsTraceFailed(steps: seq<string>, useNix: bool, path: Path, run: Runner, done: seq<Command>, c: Command)
    requires |done| < |steps|
    requires forall j :: 0 <= j < |done| ==> done[j] == StepCommand(steps[j], useNix, path)
    requires forall j :: 0 <= j < |done| ==> run(done[j]) == 0
    requires c == StepCommand(steps[|done|], useNix, path) && run(c) != 0
    ensures RunSteps(steps, useNix, path, run) == BuildRun(false, done + [c])
  {
    var r := RunSteps(steps, useNix, path, run);
    assert !r.ok;
    assert |r.trace| == |done| + 1;
    assert forall j :: 0 <= j < |done| ==> r.trace[j] == done[j];
    assert r.trace == done + [c];
  }

  /** A run that started every step, each of which succeeded, is exactly that trace. */
  lemma StepsTraceSucceeded(steps: seq<string>, useNix: bool, path: Path, run: Runner, trace: seq<Command>)
    requires |trace| == |steps|
    requires forall j :: 0 <= j < |trace| ==> trace[j] == StepCommand(steps[j], useNix, path)
    requires forall j :: 0 <= j < |trace| ==> run(trace[j]) == 0
    ensures RunSteps(steps, useNix, path, run) == BuildRun(true, trace)
  {
    StepsAllSucceed(steps, useNix, path, run);
    assert trace == seq(|steps|, j requires 0 <= j < |steps| => StepCommand(steps[j], useNix, path));
  }

  /** When every step succeeds, all of them run, in order. */
  lemma StepsAllSucceed(steps: seq<string>, useNix: bool, path: Path, run: Runner)
    requires forall j :: 0 <= j < |steps| ==> run(StepCommand(steps[j], useNix, path)) == 0
    ensures RunSteps(steps, useNix, path, run) ==
      BuildRun(true, seq(|steps|, j requires 0 <= j < |steps| => StepCommand(steps[j], useNix, path)))
  {
    var r := RunSteps(steps, useNix, path, run);
    assert r.ok && |r.trace| == |steps|;
  }

  /**
   * Whether a phase raises out of `build_service`: its service path is a
   * regular file and it has pre-build steps, so starting the first step
   * raises NotADirectoryError, which the handler around the steps (only
   * CalledProcessError) lets through. Without steps the same error from the
   * main command is caught by `except Exception` and the phase just fails.
   */
  predicate BuildRaises(path: Path, config: Value, docker: bool, fs: FileSystem)
    requires BuildConfigOk(config)
  {
    && fs.Exists(path) && path !in fs.dirs
    && Truthy(GetOr(config.entries, CommandKey(docker), Null))
    && PhaseSteps(config.entries, docker) != []
  }

  /**
   * `build_service`: checks, the optional nix probe, the pre-build steps in
   * order, then the main command; `raised` reports the exception that
   * escapes when the service path is a regular file.
   */
  method BuildService(path: Path, config: Value, docker: bool, fs: FileSystem, run: Runner)
    returns (r: BuildRun, raised: bool)
    requires BuildConfigOk(config)
    ensures r == BuildSpec(path, config, docker, fs, run)
    ensures raised == BuildRaises(path, config, docker, fs)
  {
    if !fs.Exists(path) {
      return BuildRun(false, []), false;
    }
    var es := config.entries;
    var buildCommand := GetOr(es, CommandKey(docker), Null);
    if !Truthy(buildCommand) {
      return BuildRun(false, []), false;
    }
    var probe: seq<Command> := [];
    var useNix := false;
    if GetOr(es, "environment", Null) == Str("nix") {
      probe := [NixProbe];
      if run(NixProbe) == 0 {
        useNix := true;
      }
    }
    assert probe == (if WantsNix(es) then [NixProbe] else []);
    assert useNix == (WantsNix(es) && run(NixProbe) == 0);
    var steps := PhaseSteps(es, docker);
    if path !in fs.dirs {
      // NotADirectoryError: from the first step it escapes; from the main command it is caught
      return BuildRun(false, probe), steps != [];
    }
    var pre := RunPreBuildSteps(steps, useNix, path, run);
    if !pre.ok {
      return BuildRun(false, probe + pre.trace), false;
    }
    if useNix {
      buildCommand := Str(NixWrap(buildCommand.s));
    }
    var main := Shell(buildCommand.s, path);
    assert main == Shell(Wrap(useNix, GetOr(es, CommandKey(docker), Null).s), path);
    var ok := run(main) == 0;
    if ok && !docker {
      var binaryPath := GetOr(es, "binary_path", Null);
      if Truthy(binaryPath) && !binaryPath.Str? {
        ok := false;
      }
    }
    assert ok == (run(main) == 0 && BinaryPathUsable(es, docker));
    r := BuildRun(ok, probe + pre.trace + [main]);
    raised := false;
  }

  /** A missing service directory or a missing command fails the phase before any process starts. */
  lemma BuildFailsFast(path: Path, config: Value, docker: bool, fs: FileSystem, run: Runner)
    requires BuildConfigOk(config)
    requires !fs.Exists(path) || !Truthy(GetOr(config.entries, CommandKey(docker), Null))
    ensures BuildSpec(path, config, docker, fs, run) == BuildRun(false, [])
  {
  }

  /**
   * A phase whose path exists and whose command is set succeeds exactly
   * when the path is a directory, every pre-build step and then the main
   * command exit with 0 and, in the source phase, `binary_path` is absent,
   * falsy or a string.
   */
  lemma BuildOkIff(path: Path, config: Value, docker: bool, fs: FileSystem, run: Runner)
    requires BuildConfigOk(config)
    requires fs.Exists(path) && Truthy(GetOr(config.entries, CommandKey(docker), Null))
    ensures var es := config.entries;
      var useNix := WantsNix(es) && run(NixProbe) == 0;
      var steps := PhaseSteps(es, docker);
      var main := Shell(Wrap(useNix, GetOr(es, CommandKey(docker), Null).s), path);
      BuildSpec(path, config, docker, fs, run).ok <==>
        && path in fs.dirs
        && (forall j :: 0 <= j < |steps| ==> run(StepCommand(steps[j], useNix, path)) == 0)
        && run(main) == 0
        && (docker || !Truthy(GetOr(es, "binary_path", Null)) || GetOr(es, "binary_path", Null).Str?)
  {
  }

  /**
   * A source build whose every command succeeds still fails when
   * `binary_path` is truthy and not a string: the main command ran, and the
   * TypeError of the path join is caught as a build error.
   */
  lemma BinaryPathTypeError(path: Path, config: Value, fs: FileSystem, run: Runner)
    requires BuildConfigOk(config)
    requires fs.Exists(path) && Truthy(GetOr(config.entries, "build_command", Null))
    requires Truthy(GetOr(config.entries, "binary_path", Null)) && !GetOr(config.entries, "binary_path", Null).Str?
    ensures var r := BuildSpec(path, config, false, fs, run);
      var useNix := WantsNix(config.entries) && run(NixProbe) == 0;
      var main := Shell(Wrap(useNix, GetOr(config.entries, "build_command", Null).s), path);
      && !r.ok
      && (path in fs.dirs && RunSteps(PhaseSteps(config.entries, false), useNix, path, run).ok ==>
            |r.trace| > 0 && r.trace[|r.trace| - 1] == main)
  {
  }

  /** The nix probe opens the trace exactly when the entry asks for nix. */
  lemma BuildProbesNix(path: Path, config: Value, docker: bool, fs: FileSystem, run: Runner)
    requires BuildConfigOk(config)
    requires fs.Exists(path) && Truthy(GetOr(config.entries, CommandKey(docker), Null))
    ensures var r := BuildSpec(path, config, docker, fs, run);
      |r.trace| > 0 && r.trace[0] == NixProbe <==> WantsNix(config.entries)
  {
    BuildWrapsCommands(path, config, docker, fs, run);
    var r := BuildSpec(path, config, docker, fs, run);
    if !WantsNix(config.entries) && |r.trace| > 0 {
      assert r.trace[0].Shell?;
    }
  }

  /**
   * Every shell command of a phase runs in the service directory, and is
   * wrapped in `nix develop` exactly when the entry asks for nix and the
   * probe succeeded: the steps in their order, then the main command. When
   * the service path is a regular file, only the probe runs.
   */
  lemma BuildWrapsCommands(path: Path, config: Value, docker: bool, fs: FileSystem, run: Runner)
    requires BuildConfigOk(config)
    requires fs.Exists(path) && Truthy(GetOr(config.entries, CommandKey(docker), Null))
    ensures var es := config.entries;
      var useNix := WantsNix(es) && run(NixProbe) == 0;
      var probe := if WantsNix(es) then [NixProbe] else [];
      var steps := PhaseSteps(es, docker);
      var pre := RunSteps(steps, useNix, path, run);
      var main := Shell(Wrap(useNix, GetOr(es, CommandKey(docker), Null).s), path);
      && (path in fs.dirs ==>
            BuildSpec(path, config, docker, fs, run).trace == probe + pre.trace + (if pre.ok then [main] else []))
      && (path !in fs.dirs ==> BuildSpec(path, config, docker, fs, run).trace == probe)
      && (forall j :: 0 <= j < |pre.trace| ==> pre.trace[j] == StepCommand(steps[j], useNix, path))
  {
    var es := config.entries;
    var useNix := WantsNix(es) && run(NixProbe) == 0;
    var probe := if WantsNix(es) then [NixProbe] else [];
    var pre := RunSteps(PhaseSteps(es, docker), useNix, path, run);
    if path in fs.dirs && !pre.ok {
      assert probe + pre.trace + [] == probe + pre.trace;
    }
  }

  /**
   * The first failing pre-build step ends the phase: the steps before it and
   * the failing step ran, nothing after it, and the main command did not run.
   */
  lemma StepsStopAtFirstFailure(steps: seq<string>, useNix: bool, path: Path, run: Runner, k: nat)
    requires k < |steps|
    requires forall j :: 0 <= j < k ==> run(StepCommand(steps[j], useNix, path)) == 0
    requires run(StepCommand(steps[k], useNix, path)) != 0
    ensures RunSteps(steps, useNix, path, run) ==
      BuildRun(false, seq(k + 1, j requires 0 <= j <= k => StepCommand(steps[j], useNix, path)))
  {
    var r := RunSteps(steps, useNix, path, run);
    assert !r.ok;
    assert |r.trace| == k + 1;
  }

  /**
   * The two phases read disjoint fields: entries that agree on a phase's
   * command, its steps, the environment and, for the source phase,
   * `binary_path` build the same way in that phase.
   */
  lemma PhaseReadsOwnFields(path: Path, c1: Value, c2: Value, docker: bool, fs: FileSystem, run: Runner)
    requires BuildConfigOk(c1) && BuildConfigOk(c2)
    requires GetOr(c1.entries, CommandKey(docker), Null) == GetOr(c2.entries, CommandKey(docker), Null)
    requires GetOr(c1.entries, StepsKey(docker), List([])) == GetOr(c2.entries, StepsKey(docker), List([]))
    requires GetOr(c1.entries, "environment", Null) == GetOr(c2.entries, "environment", Null)
    requires !docker ==> GetOr(c1.entries, "binary_path", Null) == GetOr(c2.entries, "binary_path", Null)
    ensures BuildSpec(path, c1, docker, fs, run) == BuildSpec(path, c2, docker, fs, run)
  {
  }
}
