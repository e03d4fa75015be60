# shardctl: command composition and build orchestration

shardctl is a thin command-line wrapper over `docker compose`, `git` and
`nix`. This project models the deterministic logic that sits in front of
those tools and proves properties of it:

- **Configuration resolution** (`shardctl/config.py`), module `Config`:
  - which compose files a profile uses;
  - the recursive dict merge `_merge_configs` and the fold that loads the
    compose documents;
  - the reads of `services.yml`, including the normalisation of legacy
    bare-URL repository entries.
- **Compose argument vectors** (`shardctl/compose.py`), module `Compose`:
  - the base command `docker compose -f … --profile …`;
  - the token list of every operation, each with a parser that reads the
    tokens back, proving that every option lands on the command line exactly
    when it is set;
  - the decoding of `docker compose ps --format json` output.
- **Cloning and building** (`shardctl/utils.py`), module `Utils`:
  - the per-entry skip, force-remove and clone decisions of `clone_services`
    and its `git clone` vector;
  - the environment probe and the status and port formatting;
  - `build_service`: its fail-fast checks, the optional `nix develop`
    wrapping and the pre-build steps that stop at the first failure.
- **The command layer** (`shardctl/cli.py`), module `Cli`:
  - how the compose commands translate their options (three of them
    inverted);
  - the early returns of `clone` and `setup`;
  - the single-service and batch paths of `build-service`, with the
    `failed_services` aggregation and the exit status.

Supporting modules:
- `Yaml` holds parsed YAML/JSON values. A dict is an association list
  because Python dicts keep insertion order.
- `Host` holds the oracles for the outside world:
  - a `FileSystem` value for the paths that exist and what each YAML file
    parses to;
  - a `Runner` for the exit status of each command;
  - a `Capture` for a command whose output is read;
  - a removal oracle for `shutil.rmtree`.
- `Text` holds the few Python string operations used (`str(int)`, `strip`,
  `split`, `join`).
- `Wrappers` holds `Option` and `Result`.

An exception that escapes a Python call is a `Failure` value, or exit
status 1 at the command layer. Every operation that starts processes returns
the argument vectors or shell lines it would start, in order.

Behaviour of the code that the model keeps as written:
- `clone` and `setup` end with status 0 even when clones fail.
- A failing compose command ends with status 1 through the uncaught
  `CalledProcessError`. The tool's own exit code is not passed through.
- A repository given as `{url: u}` passes through unchanged. Only a bare
  string gains `branch: None`. `Utils.CloneTargetNormalized` proves that the
  two forms clone the same URL on the same branch.
- Nothing in `shardctl/config.py` reads an `enabled` field, and
  `get_service_repos`/`get_all_build_configs` take no `only_enabled`
  parameter. `shardctl/cli.py` passes that keyword anyway. The command-layer
  members therefore take the filtered mapping as an input from their caller,
  and the model gives it no enabled-filtering meaning.

## Model

| member | source | states |
|---|---|---|
| `Config.Existing` | shardctl/config.py:46 | keeps exactly the given paths that exist, never more of them |
| `Config.ComposeFilesForProfile` | shardctl/config.py:32-46 | only existing files; base present iff it exists, and then first; dev overlay present iff profile is "dev" and it exists; at most [base, dev] in that order |
| `Config.MergeConfigs` | shardctl/config.py:67-85 | the loop that copies base and assigns each override key (recursing where both sides hold a dict) computes `Merge`, the in-order fold of the override over base |
| `Config.MergedValue` | shardctl/config.py:80-83 | the value one override key leaves in the result: the recursive merge when both sides hold a dict, else the override value |
| `Config.MergeLookup` | shardctl/config.py:77-83 | a key only in base keeps its base value; an override key gets the recursive merge when both values are dicts, else the override value wholesale (dict over scalar and scalar over dict included) |
| `Config.MergeKeys` | shardctl/config.py:77-79 | the result's keys are the union of base and override keys: base keys in their order, then new override keys in theirs |
| `Config.MergeIntoEmpty` | shardctl/config.py:57-63 | merging a dict into {} gives that dict, so the first loaded document is kept as is |
| `Config.MergeEmptyOverride` | shardctl/config.py:77-85 | merging with an empty override gives base back |
| `Config.MergeSelf` | shardctl/config.py:77-85 | merging a well-formed dict with itself gives that dict, at every depth |
| `Config.LoadComposeConfig` | shardctl/config.py:48-65 | a left fold of the merge over the profile's files in order from {}: falsy documents skipped, unreadable or non-dict documents raise |
| `Config.LoadComposeLayers` | shardctl/config.py:41-65 | with dicts in both files, "dev" loads the dev file merged over the base file and every other profile the base file alone |
| `Config.GetServiceNames` | shardctl/config.py:87-98 | the keys of the merged `services` dict in order, {} when absent; load errors propagate |
| `Config.NormalizeEntrywise` | shardctl/config.py:115-125 | normalisation keeps exactly the repository keys in order; a string becomes {url: s, branch: None}, any other value passes through |
| `Config.GetServiceRepos` | shardctl/config.py:100-127 | {} without services.yml; otherwise the normalised `repositories` dict; read errors and a non-dict section raise |
| `Config.GetServiceBuildConfig` | shardctl/config.py:129-146 | None without services.yml; read errors raise; None when `builds` or the name is absent; otherwise the entry stored under the name; a non-dict `builds` raises |
| `Config.GetAllBuildConfigs` | shardctl/config.py:148-161 | {} without services.yml; fails exactly when reading services.yml fails; {} when `builds` is absent; otherwise the `builds` value unchanged |
| `Config.BuildConfigLookup` | shardctl/config.py:129-161 | looking up one service gives its entry of the `builds` dict, or None when absent; without services.yml both reads give None and {} |
| `Text.DecimalRoundTrip` | shardctl/compose.py:151-152 | `str(tail)` reads back as the same integer, negative or zero included |
| `Compose.BaseRoundTrip` | shardctl/compose.py:28-45 | the base command is `docker compose`, then one `-f path` per resolved file in order, then `--profile p` exactly when the profile is non-empty |
| `Compose.CommandRoundTrip` | shardctl/compose.py:63 | every issued command is the base command followed by the operation's tokens, and both parts read back unchanged |
| `Compose.TokensRoundTrip` | shardctl/compose.py:82-227 | every operation's token list reads back into the request that produced it, with no option lost or invented |
| `Compose.UpRoundTrip` | shardctl/compose.py:90-101 | "up", then "-d" iff detached, then "--build" iff build, then the services |
| `Compose.DownRoundTrip` | shardctl/compose.py:110-118 | "down", then "--volumes" iff volumes, then "--remove-orphans" iff remove_orphans |
| `Compose.ListRoundTrip` | shardctl/compose.py:120-227 | ps, restart and pull: the operation token followed by the services verbatim |
| `Compose.LogsRoundTrip` | shardctl/compose.py:146-157 | "logs", "-f" iff follow, "--tail n" iff a tail is given (0 included), then the services |
| `Compose.BuildRoundTrip` | shardctl/compose.py:179-187 | "build", "--no-cache" iff no_cache, then the services |
| `Compose.ExecRoundTrip` | shardctl/compose.py:197-205 | "exec", "-it" iff interactive, the service, then the command tokens verbatim |
| `Compose.DecodeLines` | shardctl/compose.py:255-261 | every record comes from a non-empty line that decodes to it; never more records than lines |
| `Compose.DecodeSnoc` | shardctl/compose.py:255-261 | a further line adds exactly its own record, or none when it is empty or does not decode |
| `Compose.DecodeAppend` | shardctl/compose.py:255-261 | decoding the concatenation of two outputs gives the two record lists, concatenated |
| `Compose.DecodeSkips` | shardctl/compose.py:257-261 | an empty or undecodable line is dropped without disturbing the records before and after it |
| `Compose.DecodeKeeps` | shardctl/compose.py:257-261 | a non-empty decodable line contributes its record in its place |
| `Compose.StatusReadsBack` | shardctl/compose.py:243-263 | one decodable JSON object per line with a trailing newline reads back as exactly those objects in order |
| `Compose.StatusEmpty` | shardctl/compose.py:243-267 | a failing `ps` or empty output gives no records |
| `Compose.Manager.constructor` | shardctl/compose.py:18-26 | the manager keeps the configuration and the profile it was given |
| `Compose.Manager.BuildBaseCommand` | shardctl/compose.py:28-45 | the loop over the resolved files builds the base command |
| `Compose.Manager.RunCommand` | shardctl/compose.py:47-80 | the issued vector is the base command plus the given tokens; ok iff it exits 0 |
| `Compose.Manager.Up` | shardctl/compose.py:82-101 | issues the base command plus the `up` tokens; None and [] services add nothing |
| `Compose.Manager.Down` | shardctl/compose.py:103-118 | issues the base command plus the `down` tokens |
| `Compose.Manager.Ps` | shardctl/compose.py:120-131 | issues the base command plus "ps" and the services |
| `Compose.Manager.Logs` | shardctl/compose.py:133-157 | issues the base command plus the `logs` tokens |
| `Compose.Manager.Restart` | shardctl/compose.py:159-170 | issues the base command plus "restart" and the services |
| `Compose.Manager.Build` | shardctl/compose.py:172-187 | issues the base command plus the `build` tokens |
| `Compose.Manager.Exec` | shardctl/compose.py:189-205 | issues the base command plus the `exec` tokens |
| `Compose.Manager.Shell` | shardctl/compose.py:207-214 | issues exactly what an interactive exec of the one-token command `[shell_cmd]` issues |
| `Compose.Manager.Pull` | shardctl/compose.py:216-227 | issues the base command plus "pull" and the services |
| `Compose.Manager.RunCustomCommand` | shardctl/compose.py:229-235 | issues the base command followed by the arguments unchanged |
| `Compose.Manager.GetStatus` | shardctl/compose.py:237-270 | the decoded objects of the non-empty lines of the stripped output of `ps --format json`, in order; [] when the process fails |
| `Utils.CloneTargetNormalized` | shardctl/utils.py:43-45 | a bare URL string and its normalised dict clone the same URL on the same branch; a dict gives `get('url', dict)` and `get('branch')` |
| `Utils.CloneVector` | shardctl/utils.py:76-80 | `git clone`, then `-b branch` iff the branch is truthy, then url and path; no vector when a part is not a string |
| `Utils.CloneStep` | shardctl/utils.py:40-101 | an existing path without force is skipped; with force, a failed removal skips this entry only; otherwise the clone vector runs |
| `Utils.CloneRun` | shardctl/utils.py:40 | one outcome per entry, in mapping order |
| `Utils.CloneServices` | shardctl/utils.py:13-101 | the loop visits every entry whatever happened before; an empty mapping does nothing |
| `Utils.RelativeNamesDistinct` | shardctl/utils.py:41 | distinct relative service names land on distinct paths |
| `Utils.CloneRunKeepsLaterPaths` | shardctl/utils.py:48-101 | processing an entry leaves the existence of later entries' paths unchanged |
| `Utils.CloneDecisionsIndependent` | shardctl/utils.py:40-67 | with distinct paths, each entry is decided against the filesystem as it was before the run |
| `Utils.ValidateEnvironment` | shardctl/utils.py:140-160 | false iff the docker compose probe fails; both probes run, and a missing git only warns |
| `Utils.PortText` | shardctl/utils.py:198 | a shown port always carries the arrow |
| `Utils.PortStrs` | shardctl/utils.py:193-198 | each collected text carries the arrow; a non-dict entry raises |
| `Utils.PortStrsSucceeds` | shardctl/utils.py:194-198 | the loop gets through iff every entry is a dict |
| `Utils.PortStrsEmpty` | shardctl/utils.py:193-200 | nothing is collected iff no entry has both ports truthy |
| `Utils.FormatPorts` | shardctl/utils.py:181-200 | the loop computes the port text: "N/A" for an empty list, else the shown entries joined by ", " |
| `Utils.PortsNotAvailable` | shardctl/utils.py:190-200 | for a list of dicts the text is "N/A" iff no entry has both ports truthy |
| `Utils.FormatServiceStatus` | shardctl/utils.py:163-178 | Name, Service, State and Status default to "N/A" and are followed by the formatted Publishers |
| `Utils.RunSteps` | shardctl/utils.py:272-291 | steps run in order in the service directory; ok iff all exit 0; on failure the last started step is the first one that failed |
| `Utils.RunPreBuildSteps` | shardctl/utils.py:272-291 | the loop starts the steps in order and returns at the first failure |
| `Utils.StepsAllSucceed` | shardctl/utils.py:274-288 | when every step succeeds, all of them run, in order |
| `Utils.StepsStopAtFirstFailure` | shardctl/utils.py:282-291 | the steps up to the first failing one run, nothing after it |
| `Utils.BuildService` | shardctl/utils.py:203-330 | the checks, the optional nix probe, the phase's pre-build steps in order, then the main command; a source build whose `binary_path` is truthy and not a string fails after the main command; a service path that exists but is a regular file starts no process, and the phase raises iff it has pre-build steps (NotADirectoryError escapes the step handler) and otherwise fails |
| `Utils.BuildFailsFast` | shardctl/utils.py:220-243 | a missing service directory or a missing phase command fails with no process started |
| `Utils.BuildOkIff` | shardctl/utils.py:264-330 | with the path existing and the command set, success iff the path is a directory, every pre-build step and then the main command exit 0 and, in the source phase, `binary_path` is absent, falsy or a string |
| `Utils.BinaryPathTypeError` | shardctl/utils.py:313-330 | a source build with a truthy non-string `binary_path` fails even though every command exited 0, and, in a directory, the main command was the last one started |
| `Utils.BuildProbesNix` | shardctl/utils.py:246-262 | the nix probe runs iff the environment is "nix" |
| `Utils.BuildWrapsCommands` | shardctl/utils.py:276-305 | every step and the main command are wrapped in `nix develop --command bash -c "…"` iff nix is asked for and probed OK; the main command runs only after all steps passed; in a regular file nothing after the probe starts |
| `Utils.PhaseReadsOwnFields` | shardctl/utils.py:228-321 | a phase depends only on its own command, its own steps list, the environment and, for the source phase, `binary_path` |
| `Cli.RunComposeCommand` | shardctl/cli.py:101-235 | the environment check comes first and exits 1 before any compose process; then exactly one command, the base command plus the translated tokens, and exit 0 iff it succeeds |
| `Cli.FlagInversions` | shardctl/cli.py:114-220 | `detached = not foreground`, `remove_orphans = not keep_orphans`, `interactive = not no_tty` on the issued tokens |
| `Cli.CloneCommand` | shardctl/cli.py:71-98 | an empty repository mapping returns before any clone; otherwise every entry is processed and the command exits 0 |
| `Cli.SetupCommand` | shardctl/cli.py:312-351 | `--create-config` writes the example unless it exists and force is off, and clones nothing; otherwise it behaves as `clone` |
| `Cli.ServicePath` | shardctl/cli.py:439-444 | the path ends with `working_directory` when that is truthy, else with the service name; a relative one sits directly under `services_dir`, an absolute one replaces it |
| `Cli.ServicePathChoice` | shardctl/cli.py:439-444 | entries sharing a truthy `working_directory` build in the same directory whatever their names; entries without one, under distinct relative names, build in distinct directories |
| `Cli.BatchEntryOutcome` | shardctl/cli.py:446-461 | the entry raises iff its source build raises; otherwise a failed source build lists the name and skips Docker; Docker runs only when not `no_docker` and its command is set; its failure lists "name (Docker)"; a missing Docker command is no failure |
| `Cli.BatchCrashIff` | shardctl/cli.py:436-447 | the batch loop stops early iff some visited entry raises (it is not a dict, or its source build raises) |
| `Cli.DockerNeverRaises` | shardctl/cli.py:447-457 | the Docker build runs only after a successful source build, so its path is a directory and it cannot raise |
| `Cli.BatchFailsIff` | shardctl/cli.py:435-470 | over a mapping of dicts the loop crashes iff some entry's source build raises; otherwise `failed_services` ends non-empty iff some entry's source or wanted Docker build fails |
| `Cli.BuildEntry` | shardctl/cli.py:436-463 | one iteration of the batch loop: source build first, then Docker when wanted; a raising source build ends the entry |
| `Cli.BuildAll` | shardctl/cli.py:435-463 | the loop builds the entries in mapping order, never stops at a failed build, and stops at the first entry that raises |
| `Cli.SingleBuild` | shardctl/cli.py:472-509 | exit 1 without a service argument, when the lookup raises, when the entry is falsy or not a dict, or when the source build fails (no Docker attempt then); a failing wanted Docker build exits 1; an absent Docker command is no error |
| `Cli.ListExit` | shardctl/cli.py:394-421 | the list path fails iff the lookup raised, the mapping is truthy but not a dict, or an entry is not a dict |
| `Cli.BuildServiceCommand` | shardctl/cli.py:354-509 | the list path starts nothing; the batch path exits 1 iff the loop crashed or some build failed; otherwise the single-service path decides |

## Left out

- Process execution (`subprocess.run`), the git/docker/nix probes and
  `shutil.rmtree` are not modelled. They are oracles: an exit status per
  command and a success flag per removal. A program that cannot be found
  reads as a non-zero status. A service path that is a regular file is
  modelled: no process starts in it (`Utils.BuildRaises`).
- `yaml.safe_load` and `json.loads` are not modelled. A file's parsed value
  is an input, and JSON decoding is an abstract partial function per line.
- Filesystem effects are not modelled: `mkdir`, `ensure_services_dir` and its
  `.gitkeep`, and the write of the example `services.yml`. `setup` only
  reports whether it would write that file.
- Path normalisation by pathlib is not modelled. `dir / name` is string
  concatenation with "/", or `name` itself when it is absolute.
- Console output is not modelled: rich messages, progress spinners, table
  building and state colour-coding.
- Typer argument parsing and the `main` callback are not modelled.
- The `status` command's table is not modelled. Its parts are
  `Compose.Manager.GetStatus` and `Utils.FormatServiceStatus`.
- `Cli.ListExit`: the rendering of table cells is not modelled, so a
  non-string cell that rich would refuse does not make the list path fail.
- Enabled/disabled filtering of repositories and build configurations is not
  modelled. The source as shown does not implement it.
- `Config.Config.compose_files` is a property with no caller in the core, so
  it is not modelled.
- Shell interpretation of the `nix develop` wrapper line is not modelled.
  The model keeps only the string concatenation.
- `Utils.BuildService` and the build paths of `Cli` (not the list path)
  only accept build entries whose commands and `working_directory` are
  absent, falsy or strings and whose step lists hold strings (the
  `services.yml` schema). This does not model how Python formats other
  values into a shell line, nor the uncaught TypeError that a truthy
  non-string `working_directory` raises at `shardctl/cli.py:442` and
  `shardctl/cli.py:491`.
- `Utils.FormatServiceStatus`: lists and dicts inside a port entry are
  rendered through an abstract `repr` parameter, not Python's exact
  `repr`.
- `Cli.RunComposeCommand`: every non-zero exit of the compose process
  becomes status 1, and the model does not say what traceback the uncaught
  `CalledProcessError` prints.
- `_merge_configs` never changes `base`. This holds because the model works
  on immutable values, so there is no separate proof of it.
