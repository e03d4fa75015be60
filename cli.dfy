/**
 * The command-line layer (shardctl/cli.py): how each compose command turns
 * its options into the parameters of the compose layer, the early returns
 * of `clone` and `setup`, and the orchestration of `build-service`. An exit
 * status is 1 for `typer.Exit(1)` and for an exception that escapes the
 * command, and 0 when the command returns.
 */
module Cli {
  import opened Wrappers
  import opened Yaml
  import opened Host
  import opened Config
  import opened Compose
  import opened Utils

  // ---------------------------------------------------------------- compose commands

  /** The compose commands with their options as the user gives them. */
  datatype ComposeCommand =
    | UpCmd(services: Option<seq<string>>, foreground: bool, build: bool)
    | DownCmd(volumes: bool, keepOrphans: bool)
    | PsCmd(services: Option<seq<string>>)
    | LogsCmd(services: Option<seq<string>>, follow: bool, tail: Option<int>)
    | RestartCmd(services: Option<seq<string>>)
    | BuildCmd(services: Option<seq<string>>, noCache: bool)
    | PullCmd(services: Option<seq<string>>)
    | ExecCmd(service: string, command: seq<string>, noTty: bool)
    | ShellCmd(service: string, shellCmd: string)
    | CustomCmd(args: seq<string>)

  /** The tokens the compose layer appends to the base command for a command line. */
  function CliTokens(c: ComposeCommand): seq<string> {
    match c
    case UpCmd(services, foreground, build) => Tokens(Request.Up(Listed(services), !foreground, build))
    case DownCmd(volumes, keepOrphans) => Tokens(Request.Down(volumes, !keepOrphans))
    case PsCmd(services) => Tokens(Request.Ps(Listed(services)))
    case LogsCmd(services, follow, tail) => Tokens(Request.Logs(Listed(services), follow, tail))
    case RestartCmd(services) => Tokens(Request.Restart(Listed(services)))
    case BuildCmd(services, noCache) => Tokens(Request.Build(Listed(services), noCache))
    case PullCmd(services) => Tokens(Request.Pull(Listed(services)))
    case ExecCmd(service, command, noTty) => Tokens(Request.Exec(service, command, !noTty))
    case ShellCmd(service, shellCmd) => Tokens(Request.Exec(service, [shellCmd], true))
    case CustomCmd(args) => args
  }

  /**
   * A compose command: the environment check comes first and ends the
   * command with status 1 before any compose process when docker compose is
   * missing; otherwise the one compose command runs, and a non-zero status
   * escapes as `CalledProcessError`.
   */
  method RunComposeCommand(c: ComposeCommand, cfg: Config, profile: Option<string>, fs: FileSystem, run: Runner)
    returns (exit: int, trace: seq<Command>)
    ensures run(DockerProbe) != 0 ==> exit == 1 && trace == [DockerProbe, GitProbe]
    ensures run(DockerProbe) == 0 ==>
      var issued := Argv(BaseArgs(ComposeFilesForProfile(cfg, profile, fs), profile) + CliTokens(c));
      trace == [DockerProbe, GitProbe, issued] && (exit == 0 <==> run(issued) == 0) && (exit == 0 || exit == 1)
  {
    var valid, probes := ValidateEnvironment(run);
    if !valid {
      return 1, probes;
    }
    var manager := new Manager(cfg, profile);
    var issued: seq<string>;
    var ok: bool;
    match c {
      case UpCmd(services, foreground, build) =>
        issued, ok := manager.Up(fs, run, services, !foreground, build);
      case DownCmd(volumes, keepOrphans) =>
        issued, ok := manager.Down(fs, run, volumes, !keepOrphans);
      case PsCmd(services) =>
        issued, ok := manager.Ps(fs, run, services);
      case LogsCmd(services, follow, tail) =>
        issued, ok := manager.Logs(fs, run, services, follow, tail);
      case RestartCmd(services) =>
        issued, ok := manager.Restart(fs, run, services);
      case BuildCmd(services, noCache) =>
        issued, ok := manager.Build(fs, run, services, noCache);
      case PullCmd(services) =>
        issued, ok := manager.Pull(fs, run, services);
      case ExecCmd(service, command, noTty) =>
        issued, ok := manager.Exec(fs, run, service, command, !noTty);
      case ShellCmd(service, shellCmd) =>
        issued, ok := manager.Shell(fs, run, service, shellCmd);
      case CustomCmd(args) =>
        issued, ok := manager.RunCustomCommand(fs, run, args);
    }
    trace := probes + [Argv(issued)];
    exit := if ok then 0 else 1;
  }

  /**
   * The three negative options reach docker compose inverted: reading the
   * issued tokens back gives `detached = not foreground`,
   * `remove_orphans = not keep_orphans` and `interactive = not no_tty`.
   */
  lemma FlagInversions(services: Option<seq<string>>, foreground: bool, build: bool,
                       volumes: bool, keepOrphans: bool,
                       service: string, command: seq<string>, noTty: bool)
    requires Listed(services) == [] || NotOption(Listed(services)[0])
    requires NotOption(service)
    ensures ParseTokens(CliTokens(UpCmd(services, foreground, build))) == Some(Request.Up(Listed(services), !foreground, build))
    ensures ParseTokens(CliTokens(DownCmd(volumes, keepOrphans))) == Some(Request.Down(volumes, !keepOrphans))
    ensures ParseTokens(CliTokens(ExecCmd(service, command, noTty))) == Some(Request.Exec(service, command, !noTty))
  {
    assert CliTokens(UpCmd(services, foreground, build)) == Tokens(Request.Up(Listed(services), !foreground, build));
    UpRoundTrip(Listed(services), !foreground, build);
    assert CliTokens(DownCmd(volumes, keepOrphans)) == Tokens(Request.Down(volumes, !keepOrphans));
    DownRoundTrip(volumes, !keepOrphans);
    assert CliTokens(ExecCmd(service, command, noTty)) == Tokens(Request.Exec(service, command, !noTty));
    ExecRoundTrip(service, command, !noTty);
  }

  // ---------------------------------------------------------------- clone / setup

  /**
   * `clone`: the mapping is the filtered repository lookup the caller made.
   * A lookup that raised ends the command with status 1; an empty mapping
   * returns before any clone; otherwise `clone_services` runs over it and
   * the command succeeds whatever happened to the clones.
   */
  method CloneCommand(cfg: Config, force: bool, repos: Result<Entries, Exception>, present: set<Path>,
                      remove: Path -> bool, run: Runner)
    returns (exit: int, outcomes: seq<(string, CloneOutcome)>, after: set<Path>)
    ensures repos.Failure? ==> exit == 1 && outcomes == [] && after == present
    ensures repos == Success([]) ==> exit == 0 && outcomes == [] && after == present
    ensures repos.Success? ==>
      exit == 0 && (outcomes, after) == CloneRun(repos.value, |repos.value|, cfg.ServicesDir(), force, present, remove, run)
  {
    if repos.Failure? {
      return 1, [], present;
    }
    if repos.value == [] {
      return 0, [], present;
    }
    outcomes, after := CloneServices(repos.value, cfg.ServicesDir(), force, present, remove, run);
    exit := 0;
  }

  /** What `setup --create-config` does with the example file. */
  datatype Example = NotAsked | Kept | Written

  /**
   * `setup`: with `--create-config` it writes the example services.yml
   * unless one exists and `--force` is off, and clones nothing; otherwise
   * it is `clone`.
   */
  method SetupCommand(cfg: Config, force: bool, createConfig: bool, fs: FileSystem,
                      repos: Result<Entries, Exception>, remove: Path -> bool, run: Runner)
    returns (exit: int, example: Example, outcomes: seq<(string, CloneOutcome)>)
    ensures createConfig ==> outcomes == [] && exit == 0
    ensures createConfig ==> (example == Kept <==> fs.Exists(cfg.ServicesFile()) && !force)
    ensures createConfig ==> (example == Written <==> !fs.Exists(cfg.ServicesFile()) || force)
    ensures !createConfig ==> example == NotAsked
    ensures !createConfig && repos.Failure? ==> exit == 1 && outcomes == []
    ensures !createConfig && repos.Success? ==>
      exit == 0 && outcomes == CloneRun(repos.value, |repos.value|, cfg.ServicesDir(), force, fs.Present(), remove, run).0
  {
    if createConfig {
      var servicesConfigFile := Join(cfg.rootDir, "services.yml");
      if fs.Exists(servicesConfigFile) && !force {
        example := Kept;
      } else {
        example := Written;
      }
      return 0, example, [];
    }
    example := NotAsked;
    var after;
    exit, outcomes, after := CloneCommand(cfg, force, repos, fs.Present(), remove, run);
  }

  // ---------------------------------------------------------------- build-service

  /** The service directory: `services_dir / working_directory` when that is set, else `services_dir / name`. */
  function ServicePath(cfg: Config, name: string, bc: Value): (p: Path)
    requires BuildConfigOk(bc)
    ensures var wd := GetOr(bc.entries, "working_directory", Null);
      var leaf := if Truthy(wd) then wd.s else name;
      var dir := cfg.ServicesDir();
      && |leaf| <= |p| && p[|p| - |leaf|..] == leaf
      && ((|leaf| == 0 || leaf[0] != '/') ==> |p| == |dir| + 1 + |leaf| && p[..|dir| + 1] == dir + "/")
      && (|leaf| > 0 && leaf[0] == '/' ==> p == leaf)
  {
    var wd := GetOr(bc.entries, "working_directory", Null);
    if Truthy(wd) then Join(cfg.ServicesDir(), wd.s) else Join(cfg.ServicesDir(), name)
  }

  /**
   * Entries that set the same working directory build in the same
   * directory whatever their names; entries without one, under distinct
   * relative names, build in distinct directories.
   */
  lemma ServicePathChoice(cfg: Config, n1: string, b1: Value, n2: string, b2: Value)
    requires BuildConfigOk(b1) && BuildConfigOk(b2)
    ensures Truthy(GetOr(b1.entries, "working_directory", Null)) &&
            GetOr(b1.entries, "working_directory", Null) == GetOr(b2.entries, "working_directory", Null) ==>
            ServicePath(cfg, n1, b1) == ServicePath(cfg, n2, b2)
    ensures !Truthy(GetOr(b1.entries, "working_directory", Null)) && !Truthy(GetOr(b2.entries, "working_directory", Null)) &&
            n1 != n2 && (n1 == [] || n1[0] != '/') && (n2 == [] || n2[0] != '/') ==>
            ServicePath(cfg, n1, b1) != ServicePath(cfg, n2, b2)
  {
    if !Truthy(GetOr(b1.entries, "working_directory", Null)) && !Truthy(GetOr(b2.entries, "working_directory", Null)) &&
       n1 != n2 && (n1 == [] || n1[0] != '/') && (n2 == [] || n2[0] != '/') {
      JoinInjective(cfg.ServicesDir(), n1, n2);
    }
  }

  /** Whether the Docker phase of an entry is attempted once its source build succeeded. */
  predicate DockerWanted(bc: Value, noDocker: bool)
    requires bc.Map?
  {
    !noDocker && Truthy(GetOr(bc.entries, "docker_build_command", Null))
  }

  /**
   * What one entry of the batch loop contributes: the names it adds to
   * `failed_services` and the commands it starts, or, when it raises, the
   * commands started before the exception ended the command.
   */
  datatype Outcome = Built(failed: seq<string>, trace: seq<Command>) | Raised(trace: seq<Command>)

  /**
   * One iteration of the batch loop. A source build that raises ends the
   * loop; one that fails lists the name. A Docker build is only attempted
   * after a successful source build, whose service path is then a directory,
   * so it cannot raise (`DockerNeverRaises`).
   */
  function BatchEntry(cfg: Config, name: string, bc: Value, noDocker: bool, fs: FileSystem, run: Runner): Outcome
    requires BuildConfigOk(bc)
  {
    var path := ServicePath(cfg, name, bc);
    var src := BuildSpec(path, bc, false, fs, run);
    if BuildRaises(path, bc, false, fs) then Raised(src.trace)
    else if !src.ok then Built([name], src.trace)
    else if DockerWanted(bc, noDocker) then
      var docker := BuildSpec(path, bc, true, fs, run);
      Built(if docker.ok then [] else [name + " (Docker)"], src.trace + docker.trace)
    else Built([], src.trace)
  }

  /** A phase that succeeded ran in a directory, so the other phase in the same place cannot raise. */
  lemma DockerNeverRaises(path: Path, bc: Value, fs: FileSystem, run: Runner)
    requires BuildConfigOk(bc)
    requires BuildSpec(path, bc, false, fs, run).ok
    ensures path in fs.dirs && !BuildRaises(path, bc, true, fs)
  {
  }

  /**
   * A source build that raises ends the loop after its own commands; a
   * failed one lists the name and skips the Docker phase; the Docker phase
   * runs only when wanted, and its failure lists "name (Docker)"; a missing
   * Docker command is no failure.
   */
  lemma BatchEntryOutcome(cfg: Config, name: string, bc: Value, noDocker: bool, fs: FileSystem, run: Runner)
    requires BuildConfigOk(bc)
    ensures var r := BatchEntry(cfg, name, bc, noDocker, fs, run);
      var path := ServicePath(cfg, name, bc);
      var src := BuildSpec(path, bc, false, fs, run);
      && (r.Raised? <==> EntryRaises(cfg, name, bc, fs))
      && (r.Built? ==>
            && (r.failed == [name] <==> !src.ok)
            && (r.failed == [name + " (Docker)"] <==> src.ok && DockerWanted(bc, noDocker) && !BuildSpec(path, bc, true, fs, run).ok)
            && (r.failed == [] <==> !EntryFails(cfg, name, bc, noDocker, fs, run)))
      && r.trace == src.trace + (if src.ok && DockerWanted(bc, noDocker) then BuildSpec(path, bc, true, fs, run).trace else [])
  {
    assert |name + " (Docker)"| != |name|;
  }

  /** Every dict entry of a build mapping has the shapes the build code relies on. */
  predicate EntriesOk(es: Entries) {
    forall i :: 0 <= i < |es| ==> es[i].1.Map? ==> BuildConfigOk(es[i].1)
  }

  /** The contribution of every entry of the mapping, in mapping order: one that is not a dict raises at `build_config.get`. */
  function EntryOutcomes(cfg: Config, es: Entries, noDocker: bool, fs: FileSystem, run: Runner): seq<Outcome>
    requires EntriesOk(es)
  {
    seq(|es|, i requires 0 <= i < |es| =>
      if es[i].1.Map? then BatchEntry(cfg, es[i].0, es[i].1, noDocker, fs, run) else Raised([]))
  }

  /**
   * The batch loop after the first n entries: the failed names in order, the
   * commands started, and whether an exception ended the loop.
   */
  datatype Batch = Batch(failed: seq<string>, trace: seq<Command>, crashed: bool)

  function BatchFold(outs: seq<Outcome>, n: nat): Batch
    requires n <= |outs|
  {
    if n == 0 then Batch([], [], false)
    else
      var before := BatchFold(outs, n - 1);
      if before.crashed then before
      else match outs[n - 1]
        case Raised(t) => Batch(before.failed, before.trace + t, true)
        case Built(f, t) => Batch(before.failed + f, before.trace + t, false)
  }

  /** The loop ends early exactly when some entry raises. */
  lemma {:induction false} BatchCrashIff(outs: seq<Outcome>, n: nat)
    requires n <= |outs|
    ensures BatchFold(outs, n).crashed <==> exists i :: 0 <= i < n && outs[i].Raised?
  {
    if n > 0 {
      BatchCrashIff(outs, n - 1);
      if exists i :: 0 <= i < n - 1 && outs[i].Raised? {
        var i :| 0 <= i < n - 1 && outs[i].Raised?;
        assert 0 <= i < n;
      }
    }
  }

  /** One more entry of the loop, from a state that has not crashed. */
  lemma BatchFoldStep(outs: seq<Outcome>, i: nat, failed: seq<string>, trace: seq<Command>)
    requires i < |outs| && BatchFold(outs, i) == Batch(failed, trace, false)
    ensures BatchFold(outs, i + 1) ==
      match outs[i]
      case Raised(t) => Batch(failed, trace + t, true)
      case Built(f, t) => Batch(failed + f, trace + t, false)
  {
  }

  /** Once an entry has raised, later entries change nothing. */
  lemma {:induction false} BatchCrashSticks(outs: seq<Outcome>, k: nat, n: nat)
    requires k <= n <= |outs|
    requires BatchFold(outs, k).crashed
    ensures BatchFold(outs, n) == BatchFold(outs, k)
  {
    if n > k {
      BatchCrashSticks(outs, k, n - 1);
    }
  }

  /** Without a crash, the failed list is non-empty exactly when some entry contributed a name. */
  lemma {:induction false} BatchFoldFails(outs: seq<Outcome>, n: nat)
    requires n <= |outs|
    requires forall i :: 0 <= i < n ==> outs[i].Built?
    ensures BatchFold(outs, n).failed != [] <==> exists i :: 0 <= i < n && outs[i].failed != []
  {
    if n > 0 {
      BatchFoldFails(outs, n - 1);
      BatchCrashIff(outs, n - 1);
      var before := BatchFold(outs, n - 1);
      assert !before.crashed;
      assert BatchFold(outs, n).failed == before.failed + outs[n - 1].failed;
      assert |before.failed + outs[n - 1].failed| == |before.failed| + |outs[n - 1].failed|;
      if exists i :: 0 <= i < n - 1 && outs[i].failed != [] {
        var i :| 0 <= i < n - 1 && outs[i].failed != [];
        assert 0 <= i < n;
      }
    }
  }

  /** An entry whose source build raises: its service path is a regular file and it has pre-build steps. */
  predicate EntryRaises(cfg: Config, name: string, bc: Value, fs: FileSystem)
    requires BuildConfigOk(bc)
  {
    BuildRaises(ServicePath(cfg, name, bc), bc, false, fs)
  }

  /** An entry whose source build fails, or whose wanted Docker build fails. */
  predicate EntryFails(cfg: Config, name: string, bc: Value, noDocker: bool, fs: FileSystem, run: Runner)
    requires BuildConfigOk(bc)
  {
    var path := ServicePath(cfg, name, bc);
    !BuildSpec(path, bc, false, fs, run).ok ||
      (DockerWanted(bc, noDocker) && !BuildSpec(path, bc, true, fs, run).ok)
  }

  /**
   * Over a mapping of dicts, the loop ends early exactly when some entry's
   * source build raises; otherwise every entry is visited and
   * `failed_services` ends non-empty exactly when some entry fails.
   */
  lemma BatchFailsIff(cfg: Config, es: Entries, noDocker: bool, fs: FileSystem, run: Runner)
    requires EntriesOk(es)
    requires forall i :: 0 <= i < |es| ==> es[i].1.Map?
    ensures var b := BatchFold(EntryOutcomes(cfg, es, noDocker, fs, run), |es|);
      && (b.crashed <==> exists i :: 0 <= i < |es| && EntryRaises(cfg, es[i].0, es[i].1, fs))
      && (!b.crashed ==> (b.failed != [] <==> exists i :: 0 <= i < |es| && EntryFails(cfg, es[i].0, es[i].1, noDocker, fs, run)))
  {
    BatchCrashesAt(cfg, es, noDocker, fs, run);
    BatchFailsAt(cfg, es, noDocker, fs, run);
  }

  /** The crash half of `BatchFailsIff`. */
  lemma BatchCrashesAt(cfg: Config, es: Entries, noDocker: bool, fs: FileSystem, run: Runner)
    requires EntriesOk(es)
    requires forall i :: 0 <= i < |es| ==> es[i].1.Map?
    ensures BatchFold(EntryOutcomes(cfg, es, noDocker, fs, run), |es|).crashed <==>
      exists i :: 0 <= i < |es| && EntryRaises(cfg, es[i].0, es[i].1, fs)
  {
    var outs := EntryOutcomes(cfg, es, noDocker, fs, run);
    forall i | 0 <= i < |es|
      ensures outs[i].Raised? <==> EntryRaises(cfg, es[i].0, es[i].1, fs)
    {
      EntryOutcomeAt(cfg, es, noDocker, fs, run, i);
    }
    BatchCrashIff(outs, |es|);
  }

  /** The failure half of `BatchFailsIff`: once no entry raised, every outcome is a build. */
  lemma BatchFailsAt(cfg: Config, es: Entries, noDocker: bool, fs: FileSystem, run: Runner)
    requires EntriesOk(es)
    requires forall i :: 0 <= i < |es| ==> es[i].1.Map?
    ensures var b := BatchFold(EntryOutcomes(cfg, es, noDocker, fs, run), |es|);
      !b.crashed ==> (b.failed != [] <==> exists i :: 0 <= i < |es| && EntryFails(cfg, es[i].0, es[i].1, noDocker, fs, run))
  {
    var outs := EntryOutcomes(cfg, es, noDocker, fs, run);
    if !BatchFold(outs, |es|).crashed {
      BatchCrashIff(outs, |es|);
      forall i | 0 <= i < |es|
        ensures outs[i].Built? && (outs[i].failed != [] <==> EntryFails(cfg, es[i].0, es[i].1, noDocker, fs, run))
      {
        EntryOutcomeAt(cfg, es, noDocker, fs, run, i);
      }
      BatchFoldFails(outs, |es|);
    }
  }

  /** What the i-th outcome of a mapping of dicts says about its entry. */
  lemma EntryOutcomeAt(cfg: Config, es: Entries, noDocker: bool, fs: FileSystem, run: Runner, i: nat)
    requires EntriesOk(es) && i < |es| && es[i].1.Map?
    ensures var o := EntryOutcomes(cfg, es, noDocker, fs, run)[i];
      && (o.Raised? <==> EntryRaises(cfg, es[i].0, es[i].1, fs))
      && (o.Built? ==> (o.failed != [] <==> EntryFails(cfg, es[i].0, es[i].1, noDocker, fs, run)))
  {
    BatchEntryOutcome(cfg, es[i].0, es[i].1, noDocker, fs, run);
  }

  /** The exit status of the batch path once the loop is over. */
  function BatchExit(b: Batch): int {
    if b.crashed || b.failed != [] then 1 else 0
  }

  /** One iteration of the batch loop of `build_service_cmd`: source first, then Docker when wanted. */
  method BuildEntry(cfg: Config, name: string, buildConfig: Value, noDocker: bool, fs: FileSystem, run: Runner)
    returns (outcome: Outcome)
    requires BuildConfigOk(buildConfig)
    ensures outcome == BatchEntry(cfg, name, buildConfig, noDocker, fs, run)
  {
    var workingDir := GetOr(buildConfig.entries, "working_directory", Null);
    var servicePath := if Truthy(workingDir) then Join(cfg.ServicesDir(), workingDir.s) else Join(cfg.ServicesDir(), name);
    assert servicePath == ServicePath(cfg, name, buildConfig);
    var success, raised := BuildService(servicePath, buildConfig, false, fs, run);
    if raised {
      return Raised(success.trace);
    }
    if !success.ok {
      return Built([name], success.trace);
    }
    var failed := [];
    var trace := success.trace;
    if !noDocker {
      if Truthy(GetOr(buildConfig.entries, "docker_build_command", Null)) {
        var successDocker, _ := BuildService(servicePath, buildConfig, true, fs, run);
        trace := trace + successDocker.trace;
        if !successDocker.ok {
          failed := [name + " (Docker)"];
        }
      }
    }
    outcome := Built(failed, trace);
  }

  /**
   * The batch path of `build-service -a`: every entry is built in mapping
   * order, and a failed build never stops the loop; only an entry that
   * raises (one that is not a dict, or whose source build raises) ends it.
   */
  method BuildAll(cfg: Config, es: Entries, noDocker: bool, fs: FileSystem, run: Runner) returns (b: Batch)
    requires EntriesOk(es)
    ensures b == BatchFold(EntryOutcomes(cfg, es, noDocker, fs, run), |es|)
  {
    ghost var outs := EntryOutcomes(cfg, es, noDocker, fs, run);
    var failed: seq<string> := [];
    var trace: seq<Command> := [];
    for i := 0 to |es|
      invariant BatchFold(outs, i) == Batch(failed, trace, false)
    {
      var outcome: Outcome;
      if es[i].1.Map? {
        outcome := BuildEntry(cfg, es[i].0, es[i].1, noDocker, fs, run);
      } else {
        outcome := Raised([]);  // `build_config.get` raises AttributeError
      }
      assert outcome == outs[i];
      BatchFoldStep(outs, i, failed, trace);
      if outcome.Raised? {
        BatchCrashSticks(outs, i + 1, |es|);
        return Batch(failed, trace + outcome.trace, true);
      }
      failed := failed + outcome.failed;
      trace := trace + outcome.trace;
    }
    b := Batch(failed, trace, false);
  }

  /** A service argument that is set and not empty (`if not service` is false). */
  predicate Given(service: Option<string>) {
    service.Some? && service.value != ""
  }

  /** The build entry of the named service has the shapes the build code relies on, when it is a dict. */
  predicate SingleOk(cfg: Config, fs: FileSystem, service: Option<string>) {
    Given(service) ==>
      var bc := GetServiceBuildConfig(cfg, fs, service.value);
      bc.Success? && bc.value.Map? ==> BuildConfigOk(bc.value)
  }

  /**
   * The single-service path: status 1 without a service argument, without
   * a build entry for it (absent, falsy, not a dict or unreadable), or when the source
   * build fails, in which case no Docker build is attempted; then the
   * Docker build decides when a Docker command is set, and its absence is
   * only a notice.
   */
  function SingleBuild(cfg: Config, service: Option<string>, noDocker: bool, fs: FileSystem, run: Runner)
    : (r: (int, seq<Command>))
    requires SingleOk(cfg, fs, service)
    ensures !Given(service) ==> r == (1, [])
    ensures Given(service) && GetServiceBuildConfig(cfg, fs, service.value).Failure? ==> r == (1, [])
    ensures Given(service) && GetServiceBuildConfig(cfg, fs, service.value).Success? &&
            !(Truthy(GetServiceBuildConfig(cfg, fs, service.value).value) &&
              GetServiceBuildConfig(cfg, fs, service.value).value.Map?) ==>
      r == (1, [])
    ensures r.0 == 0 || r.0 == 1
    ensures Given(service) && GetServiceBuildConfig(cfg, fs, service.value).Success? &&
            GetServiceBuildConfig(cfg, fs, service.value).value.Map? &&
            Truthy(GetServiceBuildConfig(cfg, fs, service.value).value) ==>
      var bc := GetServiceBuildConfig(cfg, fs, service.value).value;
      var path := ServicePath(cfg, service.value, bc);
      var src := BuildSpec(path, bc, false, fs, run);
      var docker := BuildSpec(path, bc, true, fs, run);
      && (r.0 == 0 <==> src.ok && (DockerWanted(bc, noDocker) ==> docker.ok))
      && r.1 == src.trace + (if src.ok && DockerWanted(bc, noDocker) then docker.trace else [])
  {
    if !Given(service) then (1, [])
    else
      var lookup := GetServiceBuildConfig(cfg, fs, service.value);
      if lookup.Failure? || !Truthy(lookup.value) || !lookup.value.Map? then (1, [])
      else
        var bc := lookup.value;
        var path := ServicePath(cfg, service.value, bc);
        var src := BuildSpec(path, bc, false, fs, run);
        if !src.ok then (1, src.trace)
        else if DockerWanted(bc, noDocker) then
          var docker := BuildSpec(path, bc, true, fs, run);
          (if docker.ok then 0 else 1, src.trace + docker.trace)
        else (0, src.trace)
  }

  /**
   * The list path, whose table is left to the renderer: a lookup that
   * raised, a truthy value that is not a dict or an entry that is not a dict
   * makes it fail; it starts no process.
   */
  function ListExit(configs: Result<Value, Exception>): (exit: int)
    ensures exit == 0 <==>
      (configs.Success? &&
       (!Truthy(configs.value) || (configs.value.Map? && forall i :: 0 <= i < |configs.value.entries| ==> configs.value.entries[i].1.Map?)))
  {
    match configs
    case Failure(_) => 1
    case Success(v) =>
      if !Truthy(v) then 0
      else if !v.Map? then 1
      else if exists i :: 0 <= i < |v.entries| && !v.entries[i].1.Map? then 1
      else 0
  }

  /** Whether `build-service` builds every entry: `--all` without a service argument. */
  predicate BatchMode(all: bool, service: Option<string>) {
    all && !Given(service)
  }

  /**
   * `build-service`: `configs` is the filtered build-config lookup the
   * caller made for `--list` or `--all`. The list path starts nothing; the
   * batch path builds every entry and fails when any build failed; an empty
   * lookup builds nothing and succeeds; otherwise the named service is
   * built.
   */
  method BuildServiceCommand(cfg: Config, service: Option<string>, noDocker: bool, listServices: bool, all: bool,
                             configs: Result<Value, Exception>, fs: FileSystem, run: Runner)
    returns (exit: int, trace: seq<Command>)
    requires !listServices && BatchMode(all, service) && configs.Success? && configs.value.Map? ==>
             EntriesOk(configs.value.entries)
    requires !listServices && !BatchMode(all, service) ==> SingleOk(cfg, fs, service)
    ensures listServices ==> exit == ListExit(configs) && trace == []
    ensures !listServices && BatchMode(all, service) ==>
      match configs
      case Failure(_) => exit == 1 && trace == []
      case Success(v) =>
        if !Truthy(v) then exit == 0 && trace == []
        else if !v.Map? then exit == 1 && trace == []
        else
          var b := BatchFold(EntryOutcomes(cfg, v.entries, noDocker, fs, run), |v.entries|);
          exit == BatchExit(b) && trace == b.trace
    ensures !listServices && !BatchMode(all, service) ==> (exit, trace) == SingleBuild(cfg, service, noDocker, fs, run)
  {
    if listServices {
      return ListExit(configs), [];
    }
    if all && !Given(service) {
      if configs.Failure? {
        return 1, [];
      }
      var buildConfigs := configs.value;
      if !Truthy(buildConfigs) {
        return 0, [];
      }
      if !buildConfigs.Map? {
        return 1, [];
      }
      var b := BuildAll(cfg, buildConfigs.entries, noDocker, fs, run);
      exit := if b.crashed || b.failed != [] then 1 else 0;
      return exit, b.trace;
    }
    if !Given(service) {
      return 1, [];
    }
    var buildConfig := GetServiceBuildConfig(cfg, fs, service.value);
    if buildConfig.Failure? || !Truthy(buildConfig.value) || !buildConfig.value.Map? {
      return 1, [];
    }
    var bc := buildConfig.value;
    var workingDir := GetOr(bc.entries, "working_directory", Null);
    var servicePath := if Truthy(workingDir) then Join(cfg.ServicesDir(), workingDir.s) else Join(cfg.ServicesDir(), service.value);
    // a build that raises has not succeeded, and the uncaught error also exits with 1
    var success, _ := BuildService(servicePath, bc, false, fs, run);
    if !success.ok {
      return 1, success.trace;
    }
    trace := success.trace;
    exit := 0;
    if !noDocker {
      if Truthy(GetOr(bc.entries, "docker_build_command", Null)) {
        var successDocker, _ := BuildService(servicePath, bc, true, fs, run);
        trace := trace + successDocker.trace;
        if !successDocker.ok {
          exit := 1;
        }
      }
    }
  }
}
