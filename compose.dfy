/**
 * The docker compose wrapper (shardctl/compose.py): the base command that
 * names the compose files and the profile, the token list of every
 * operation, and the reading of `docker compose ps --format json`.
 * Each operation returns the argument vector it hands to the process
 * runner and whether that process exited with status 0; a non-zero status
 * is where the source raises `CalledProcessError`.
 */
module Compose {
  import opened Wrappers
  import opened Yaml
  import opened Text
  import opened Host
  import opened Config

  /** `json.loads` on one line: None where it raises `JSONDecodeError`. */
  type Decoder = string -> Option<Value>

  /** A service list argument: `if services:` adds nothing for None and for []. */
  function Listed(services: Option<seq<string>>): seq<string> {
    if services.Some? then services.value else []
  }

  /** The token a boolean option contributes. */
  function Flag(on: bool, token: string): seq<string> {
    if on then [token] else []
  }

  /** One `-f path` pair per compose file, in order. */
  function FileFlags(files: seq<Path>): seq<string> {
    if files == [] then [] else ["-f", files[0]] + FileFlags(files[1..])
  }

  /** The profile that reaches the command line: only a non-empty one (`if self.profile:`). */
  function ActiveProfile(profile: Option<string>): Option<string> {
    if profile.Some? && profile.value != "" then profile else None
  }

  function ProfileFlags(profile: Option<string>): seq<string> {
    if ActiveProfile(profile).Some? then ["--profile", profile.value] else []
  }

  /** `docker compose`, the file flags, then the profile flag. */
  function BaseArgs(files: seq<Path>, profile: Option<string>): seq<string> {
    ["docker", "compose"] + FileFlags(files) + ProfileFlags(profile)
  }

  lemma {:induction false} FileFlagsSnoc(files: seq<Path>, f: Path)
    ensures FileFlags(files + [f]) == FileFlags(files) + ["-f", f]
  {
    if files != [] {
      assert (files + [f])[1..] == files[1..] + [f];
      FileFlagsSnoc(files[1..], f);
    }
  }

  /** The compose operations with their parameters, as the builders receive them. */
  datatype Request =
    | Up(services: seq<string>, detached: bool, build: bool)
    | Down(volumes: bool, removeOrphans: bool)
    | Ps(services: seq<string>)
    | Logs(services: seq<string>, follow: bool, tail: Option<int>)
    | Restart(services: seq<string>)
    | Build(services: seq<string>, noCache: bool)
    | Exec(service: string, command: seq<string>, interactive: bool)
    | Pull(services: seq<string>)

  /** The token list each operation appends to the base command. */
  function Tokens(r: Request): seq<string> {
    match r
    case Up(services, detached, build) => ["up"] + Flag(detached, "-d") + Flag(build, "--build") + services
    case Down(volumes, removeOrphans) => ["down"] + Flag(volumes, "--volumes") + Flag(removeOrphans, "--remove-orphans")
    case Ps(services) => ["ps"] + services
    case Logs(services, follow, tail) =>
      ["logs"] + Flag(follow, "-f") + (if tail.Some? then ["--tail", IntToDecimal(tail.value)] else []) + services
    case Restart(services) => ["restart"] + services
    case Build(services, noCache) => ["build"] + Flag(noCache, "--no-cache") + services
    case Exec(service, command, interactive) => ["exec"] + Flag(interactive, "-it") + [service] + command
    case Pull(services) => ["pull"] + services
  }

  /** A token docker compose would not mistake for an option. */
  predicate NotOption(s: string) {
    s == [] || s[0] != '-'
  }

  /** The first positional argument of the request cannot be read as one of its options. */
  predicate Unambiguous(r: Request) {
    match r
    case Up(services, _, _) => services == [] || NotOption(services[0])
    case Down(_, _) => true
    case Ps(services) => services == [] || NotOption(services[0])
    case Logs(services, _, _) => services == [] || NotOption(services[0])
    case Restart(services) => services == [] || NotOption(services[0])
    case Build(services, _) => services == [] || NotOption(services[0])
    case Exec(service, _, _) => NotOption(service)
    case Pull(services) => services == [] || NotOption(services[0])
  }

  /** Consumes an optional flag at the head of the tokens. */
  function TakeFlag(flag: string, ts: seq<string>): (bool, seq<string>) {
    if |ts| > 0 && ts[0] == flag then (true, ts[1..]) else (false, ts)
  }

  function ParseUp(rest: seq<string>): Option<Request> {
    var (d, r1) := TakeFlag("-d", rest);
    var (b, r2) := TakeFlag("--build", r1);
    Some(Up(r2, d, b))
  }

  function ParseDown(rest: seq<string>): Option<Request> {
    var (v, r1) := TakeFlag("--volumes", rest);
    var (o, r2) := TakeFlag("--remove-orphans", r1);
    if r2 == [] then Some(Down(v, o)) else None
  }

  function ParseLogs(rest: seq<string>): Option<Request> {
    var (f, r1) := TakeFlag("-f", rest);
    if |r1| >= 2 && r1[0] == "--tail" then
      match ParseDecimal(r1[1])
      case None => None
      case Some(n) => Some(Logs(r1[2..], f, Some(n)))
    else Some(Logs(r1, f, None))
  }

  function ParseBuild(rest: seq<string>): Option<Request> {
    var (c, r1) := TakeFlag("--no-cache", rest);
    Some(Build(r1, c))
  }

  function ParseExec(rest: seq<string>): Option<Request> {
    var (i, r1) := TakeFlag("-it", rest);
    if r1 == [] then None else Some(Exec(r1[0], r1[1..], i))
  }

  /** Reads an operation's token list back into the request that produced it. */
  function ParseTokens(ts: seq<string>): Option<Request> {
    if ts == [] then None
    else
      var op := ts[0];
      var rest := ts[1..];
      if op == "up" then ParseUp(rest)
      else if op == "down" then ParseDown(rest)
      else if op == "ps" then Some(Ps(rest))
      else if op == "logs" then ParseLogs(rest)
      else if op == "restart" then Some(Restart(rest))
      else if op == "build" then ParseBuild(rest)
      else if op == "exec" then ParseExec(rest)
      else if op == "pull" then Some(Pull(rest))
      else None
  }

  /**
   * Every option of an operation lands in its token list and can be read
   * back: each flag is present exactly when its parameter is set, `--tail`
   * is present exactly when a tail is given (0 included), and the services,
   * the exec service and its command come through verbatim and in order.
   */
  lemma TokensRoundTrip(r: Request)
    requires Unambiguous(r)
    ensures ParseTokens(Tokens(r)) == Some(r)
  {
    match r
    case Up(services, detached, build) => UpRoundTrip(services, detached, build);
    case Down(volumes, removeOrphans) => DownRoundTrip(volumes, removeOrphans);
    case Ps(services) => ListRoundTrip(r);
    case Logs(services, follow, tail) => LogsRoundTrip(services, follow, tail);
    case Restart(services) => ListRoundTrip(r);
    case Build(services, noCache) => BuildRoundTrip(services, noCache);
    case Exec(service, command, interactive) => ExecRoundTrip(service, command, interactive);
    case Pull(services) => ListRoundTrip(r);
  }

  /** The operations that take nothing but a service list. */
  lemma ListRoundTrip(r: Request)
    requires r.Ps? || r.Restart? || r.Pull?
    ensures ParseTokens(Tokens(r)) == Some(r)
  {
    var ts := Tokens(r);
    assert ts[1..] == r.services;
    if r.Ps? {
      assert ts[0] == "ps";
      assert "ps" != "up" && "ps" != "down";
    } else if r.Restart? {
      assert ts[0] == "restart";
      assert "restart" != "up" && "restart" != "down" && "restart" != "ps" && "restart" != "logs";
    } else {
      assert ts[0] == "pull";
      assert "pull" != "up" && "pull" != "down" && "pull" != "ps" && "pull" != "logs" && "pull" != "restart";
      assert "pull" != "build" && "pull" != "exec";
    }
  }

  /** An optional flag is consumed exactly when it is present. */
  lemma TakeFlagPresent(on: bool, flag: string, ts: seq<string>)
    requires |flag| > 0 && flag[0] == '-'
    requires ts == [] || ts[0] != flag
    ensures TakeFlag(flag, Flag(on, flag) + ts) == (on, ts)
  {
    if on {
      assert ([flag] + ts)[1..] == ts;
    } else {
      assert Flag(on, flag) + ts == ts;
    }
  }

  /** A positional argument that is not an option is never taken for a flag. */
  lemma NotOptionIsNotFlag(ts: seq<string>, flag: string)
    requires ts == [] || NotOption(ts[0])
    requires |flag| > 0 && flag[0] == '-'
    ensures ts == [] || ts[0] != flag
  {
  }

  lemma UpRoundTrip(services: seq<string>, detached: bool, build: bool)
    requires services == [] || NotOption(services[0])
    ensures ParseTokens(Tokens(Up(services, detached, build))) == Some(Up(services, detached, build))
  {
    var ts := Tokens(Up(services, detached, build));
    assert ts[0] == "up" && ts[1..] == Flag(detached, "-d") + Flag(build, "--build") + services;
    var t := Flag(build, "--build") + services;
    NotOptionIsNotFlag(services, "-d");
    NotOptionIsNotFlag(services, "--build");
    assert t == [] || t[0] != "-d" by {
      if build {
        assert t[0] == "--build";
      }
    }
    TakeFlagPresent(detached, "-d", t);
    TakeFlagPresent(build, "--build", services);
    assert Flag(detached, "-d") + Flag(build, "--build") + services == Flag(detached, "-d") + t;
  }

  lemma DownRoundTrip(volumes: bool, removeOrphans: bool)
    ensures ParseTokens(Tokens(Down(volumes, removeOrphans))) == Some(Down(volumes, removeOrphans))
  {
    var ts := Tokens(Down(volumes, removeOrphans));
    assert ts[0] == "down" && ts[1..] == Flag(volumes, "--volumes") + Flag(removeOrphans, "--remove-orphans");
    assert "down" != "up";
    var t := Flag(removeOrphans, "--remove-orphans");
    assert t == [] || t[0] != "--volumes" by {
      if removeOrphans {
        assert t[0] == "--remove-orphans";
      }
    }
    TakeFlagPresent(volumes, "--volumes", t);
    TakeFlagPresent(removeOrphans, "--remove-orphans", []);
    assert t + [] == t;
  }

  lemma LogsRoundTrip(services: seq<string>, follow: bool, tail: Option<int>)
    requires services == [] || NotOption(services[0])
    ensures ParseTokens(Tokens(Logs(services, follow, tail))) == Some(Logs(services, follow, tail))
  {
    var t := if tail.Some? then ["--tail", IntToDecimal(tail.value)] else [];
    var ts := Tokens(Logs(services, follow, tail));
    assert ts[0] == "logs" && ts[1..] == Flag(follow, "-f") + (t + services);
    assert "logs" != "up" && "logs" != "down" && "logs" != "ps";
    LogsOptionsRoundTrip(services, follow, tail);
  }

  /** The options of `logs` read back from the tokens after the operation. */
  lemma LogsOptionsRoundTrip(services: seq<string>, follow: bool, tail: Option<int>)
    requires services == [] || NotOption(services[0])
    ensures var t := if tail.Some? then ["--tail", IntToDecimal(tail.value)] else [];
      ParseLogs(Flag(follow, "-f") + (t + services)) == Some(Logs(services, follow, tail))
  {
    var t := if tail.Some? then ["--tail", IntToDecimal(tail.value)] else [];
    var r1 := t + services;
    NotOptionIsNotFlag(services, "-f");
    NotOptionIsNotFlag(services, "--tail");
    assert r1 == [] || r1[0] != "-f" by {
      if tail.Some? {
        assert r1[0] == "--tail";
      }
    }
    TakeFlagPresent(follow, "-f", r1);
    if tail.Some? {
      DecimalRoundTrip(tail.value);
      assert r1[0] == "--tail" && r1[1] == IntToDecimal(tail.value);
      assert r1[2..] == services;
    } else {
      assert r1 == services;
    }
  }

  lemma BuildRoundTrip(services: seq<string>, noCache: bool)
    requires services == [] || NotOption(services[0])
    ensures ParseTokens(Tokens(Build(services, noCache))) == Some(Build(services, noCache))
  {
    var ts := Tokens(Build(services, noCache));
    assert ts[0] == "build" && ts[1..] == Flag(noCache, "--no-cache") + services;
    assert "build" != "up" && "build" != "down" && "build" != "ps" && "build" != "logs" && "build" != "restart";
    NotOptionIsNotFlag(services, "--no-cache");
    TakeFlagPresent(noCache, "--no-cache", services);
  }

  lemma ExecRoundTrip(service: string, command: seq<string>, interactive: bool)
    requires NotOption(service)
    ensures ParseTokens(Tokens(Exec(service, command, interactive))) == Some(Exec(service, command, interactive))
  {
    var ts := Tokens(Exec(service, command, interactive));
    assert ts[0] == "exec" && ts[1..] == Flag(interactive, "-it") + [service] + command;
    assert "exec" != "up" && "exec" != "down" && "exec" != "ps" && "exec" != "logs" && "exec" != "restart";
    assert "exec" != "build";
    var t := [service] + command;
    NotOptionIsNotFlag(t, "-it");
    TakeFlagPresent(interactive, "-it", t);
    assert Flag(interactive, "-it") + [service] + command == Flag(interactive, "-it") + t;
    assert t[0] == service && t[1..] == command;
  }

  /** Consumes the leading `-f path` pairs. */
  function ParseFiles(ts: seq<string>): (seq<Path>, seq<string>)
    decreases |ts|
  {
    if |ts| >= 2 && ts[0] == "-f" then
      var tail := ParseFiles(ts[2..]);
      ([ts[1]] + tail.0, tail.1)
    else ([], ts)
  }

  /** Reads a full command back into its compose files, its profile and the operation's tokens. */
  function ParseBase(argv: seq<string>): Option<(seq<Path>, Option<string>, seq<string>)> {
    if |argv| < 2 || argv[..2] != ["docker", "compose"] then None
    else
      var files := ParseFiles(argv[2..]).0;
      var r1 := ParseFiles(argv[2..]).1;
      if |r1| >= 2 && r1[0] == "--profile" then Some((files, Some(r1[1]), r1[2..]))
      else Some((files, None, r1))
  }

  lemma {:induction false} FileFlagsRoundTrip(files: seq<Path>, rest: seq<string>)
    requires rest == [] || rest[0] != "-f"
    ensures ParseFiles(FileFlags(files) + rest) == (files, rest)
  {
    if files == [] {
      assert FileFlags(files) + rest == rest;
    } else {
      var ts := FileFlags(files) + rest;
      assert ts == ["-f", files[0]] + (FileFlags(files[1..]) + rest);
      assert ts[0] == "-f" && ts[1] == files[0];
      assert ts[2..] == FileFlags(files[1..]) + rest;
      FileFlagsRoundTrip(files[1..], rest);
      assert [files[0]] + files[1..] == files;
    }
  }

  /**
   * The base command names every compose file once, in order, each after
   * its own `-f`, and then the profile exactly when it is non-empty; the
   * operation's tokens follow unchanged.
   */
  lemma BaseRoundTrip(files: seq<Path>, profile: Option<string>, tail: seq<string>)
    requires tail == [] || (tail[0] != "-f" && tail[0] != "--profile")
    ensures ParseBase(BaseArgs(files, profile) + tail) == Some((files, ActiveProfile(profile), tail))
  {
    var argv := BaseArgs(files, profile) + tail;
    var rest := ProfileFlags(profile) + tail;
    assert argv[..2] == ["docker", "compose"];
    assert argv[2..] == FileFlags(files) + rest;
    FileFlagsRoundTrip(files, rest);
    assert ParseFiles(argv[2..]) == (files, rest);
    if ActiveProfile(profile).Some? {
      assert rest == ["--profile", profile.value] + tail;
      assert rest[0] == "--profile" && rest[1] == profile.value && rest[2..] == tail;
    } else {
      assert rest == tail;
    }
  }

  /** Any command the manager issues reads back into its files, its profile and its request. */
  lemma CommandRoundTrip(files: seq<Path>, profile: Option<string>, r: Request)
    requires Unambiguous(r)
    ensures ParseBase(BaseArgs(files, profile) + Tokens(r)) == Some((files, ActiveProfile(profile), Tokens(r)))
    ensures ParseTokens(Tokens(r)) == Some(r)
  {
    BaseRoundTrip(files, profile, Tokens(r));
    TokensRoundTrip(r);
  }

  /** The records decoded from the output lines, in order: empty and undecodable lines are dropped. */
  function DecodeLines(lines: seq<string>, decode: Decoder): (records: seq<Value>)
    ensures |records| <= |lines|
    ensures forall v :: v in records ==> exists l :: l in lines && l != "" && decode(l) == Some(v)
  {
    if lines == [] then []
    else
      var last := lines[|lines| - 1];
      var front := DecodeLines(lines[..|lines| - 1], decode);
      assert forall l :: l in lines[..|lines| - 1] ==> l in lines;
      if last != "" && decode(last).Some? then front + [decode(last).value] else front
  }

  /** The records one line contributes: its value when it is non-empty and decodes, else none. */
  function DecodeOne(l: string, decode: Decoder): seq<Value> {
    if l != "" && decode(l).Some? then [decode(l).value] else []
  }

  /** Appending a line appends what that line alone decodes to. */
  lemma DecodeSnoc(lines: seq<string>, l: string, decode: Decoder)
    ensures DecodeLines(lines + [l], decode) == DecodeLines(lines, decode) + DecodeOne(l, decode)
  {
    assert (lines + [l])[..|lines|] == lines;
  }

  /** Decoding distributes over concatenation: each line is decoded on its own. */
  lemma {:induction false} DecodeAppend(a: seq<string>, b: seq<string>, decode: Decoder)
    ensures DecodeLines(a + b, decode) == DecodeLines(a, decode) + DecodeLines(b, decode)
    decreases |b|
  {
    if b == [] {
      assert a + b == a;
    } else {
      var front := b[..|b| - 1];
      var last := b[|b| - 1];
      assert b == front + [last];
      assert a + b == (a + front) + [last];
      DecodeAppend(a, front, decode);
      DecodeSnoc(a + front, last, decode);
      DecodeSnoc(front, last, decode);
    }
  }

  /**
   * A line that is empty or does not decode is skipped without disturbing
   * the records before or after it.
   */
  lemma DecodeSkips(a: seq<string>, l: string, b: seq<string>, decode: Decoder)
    requires l == "" || decode(l).None?
    ensures DecodeLines(a + [l] + b, decode) == DecodeLines(a, decode) + DecodeLines(b, decode)
  {
    DecodeAppend(a + [l], b, decode);
    DecodeAppend(a, [l], decode);
    assert DecodeLines([l], decode) == [];
  }

  /** A non-empty line that decodes contributes its record, in its place. */
  lemma DecodeKeeps(a: seq<string>, l: string, b: seq<string>, v: Value, decode: Decoder)
    requires l != "" && decode(l) == Some(v)
    ensures DecodeLines(a + [l] + b, decode) == DecodeLines(a, decode) + [v] + DecodeLines(b, decode)
  {
    DecodeAppend(a + [l], b, decode);
    DecodeAppend(a, [l], decode);
    assert DecodeLines([l], decode) == [v];
  }

  /** `get_status`: nothing when `ps` fails, else one record per decodable non-empty line of the stripped output. */
  function StatusRecords(c: Completed, decode: Decoder): seq<Value> {
    if c.status != 0 then [] else DecodeLines(Split(Strip(c.stdout), '\n'), decode)
  }

  /** The status command's tokens. */
  const PsJson: seq<string> := ["ps", "--format", "json"]

  /**
   * One JSON object per line, each decodable, with a trailing newline,
   * reads back as exactly those objects in that order.
   */
  lemma StatusReadsBack(lines: seq<string>, records: seq<Value>, decode: Decoder)
    requires |lines| >= 1 && |lines| == |records|
    requires forall i :: 0 <= i < |lines| ==> lines[i] != [] && '\n' !in lines[i]
    requires forall i :: 0 <= i < |lines| ==> !IsSpace(lines[i][0]) && !IsSpace(lines[i][|lines[i]| - 1])
    requires forall i :: 0 <= i < |lines| ==> decode(lines[i]) == Some(records[i])
    ensures StatusRecords(Completed(0, JoinWith("\n", lines) + "\n"), decode) == records
  {
    var text := JoinWith("\n", lines);
    JoinEnds("\n", lines);
    StripTrailingNewline(text);
    assert "\n" == ['\n'];
    JoinSplit(lines, '\n');
    DecodeAll(lines, records, decode);
  }

  lemma {:induction false} DecodeAll(lines: seq<string>, records: seq<Value>, decode: Decoder)
    requires |lines| == |records|
    requires forall i :: 0 <= i < |lines| ==> lines[i] != [] && decode(lines[i]) == Some(records[i])
    ensures DecodeLines(lines, decode) == records
  {
    if lines != [] {
      var n := |lines| - 1;
      DecodeAll(lines[..n], records[..n], decode);
      assert records == records[..n] + [records[n]];
    }
  }

  /** No output, or a failing `ps`, gives no records. */
  lemma StatusEmpty(c: Completed, decode: Decoder)
    requires c.status != 0 || c.stdout == ""
    ensures StatusRecords(c, decode) == []
  {
    if c.status == 0 {
      assert StripLeft("") == "" && StripRight("") == "";
      assert Split("", '\n') == [""];
      assert [""][..0] == [];
      assert DecodeLines([""], decode) == DecodeLines([], decode);
    }
  }

  /** `ComposeManager`: a configuration and a profile, fixed at construction. */
  class Manager {
    const config: Config
    const profile: Option<string>

    constructor(config: Config, profile: Option<string>)
      ensures this.config == config && this.profile == profile
    {
      this.config := config;
      this.profile := profile;
    }

    /** The compose files the current filesystem resolves for this profile. */
    function Files(fs: FileSystem): seq<Path> {
      ComposeFilesForProfile(config, profile, fs)
    }

    /** `_build_base_command`. */
    method BuildBaseCommand(fs: FileSystem) returns (cmd: seq<string>)
      ensures cmd == BaseArgs(Files(fs), profile)
    {
      cmd := ["docker", "compose"];
      var files := ComposeFilesForProfile(config, profile, fs);
      for i := 0 to |files|
        invariant cmd == ["docker", "compose"] + FileFlags(files[..i])
      {
        FileFlagsSnoc(files[..i], files[i]);
        assert files[..i + 1] == files[..i] + [files[i]];
        cmd := cmd + ["-f", files[i]];
      }
      assert files[..|files|] == files;
      if profile.Some? && profile.value != "" {
        cmd := cmd + ["--profile", profile.value];
      }
    }

    /** `_run_command`: the base command followed by the operation's tokens, run with `check=True`. */
    method RunCommand(fs: FileSystem, run: Runner, command: seq<string>) returns (issued: seq<string>, ok: bool)
      ensures issued == BaseArgs(Files(fs), profile) + command
      ensures ok <==> run(Argv(issued)) == 0
    {
      var base := BuildBaseCommand(fs);
      issued := base + command;
      ok := run(Argv(issued)) == 0;
    }

    method Up(fs: FileSystem, run: Runner, services: Option<seq<string>>, detached: bool, build: bool)
      returns (issued: seq<string>, ok: bool)
      ensures issued == BaseArgs(Files(fs), profile) + Tokens(Request.Up(Listed(services), detached, build))
      ensures ok <==> run(Argv(issued)) == 0
    {
      var cmd := ["up"];
      if detached {
        cmd := cmd + ["-d"];
      }
      assert cmd == ["up"] + Flag(detached, "-d");
      if build {
        cmd := cmd + ["--build"];
      }
      assert cmd == ["up"] + Flag(detached, "-d") + Flag(build, "--build");
      if services.Some? && services.value != [] {
        cmd := cmd + services.value;
      }
      assert cmd == Tokens(Request.Up(Listed(services), detached, build));
      issued, ok := RunCommand(fs, run, cmd);
    }

    method Down(fs: FileSystem, run: Runner, volumes: bool, removeOrphans: bool) returns (issued: seq<string>, ok: bool)
      ensures issued == BaseArgs(Files(fs), profile) + Tokens(Request.Down(volumes, removeOrphans))
      ensures ok <==> run(Argv(issued)) == 0
    {
      var cmd := ["down"];
      if volumes {
        cmd := cmd + ["--volumes"];
      }
      if removeOrphans {
        cmd := cmd + ["--remove-orphans"];
      }
      issued, ok := RunCommand(fs, run, cmd);
    }

    method Ps(fs: FileSystem, run: Runner, services: Option<seq<string>>) returns (issued: seq<string>, ok: bool)
      ensures issued == BaseArgs(Files(fs), profile) + Tokens(Request.Ps(Listed(services)))
      ensures ok <==> run(Argv(issued)) == 0
    {
      var cmd := ["ps"];
      if services.Some? && services.value != [] {
        cmd := cmd + services.value;
      }
      issued, ok := RunCommand(fs, run, cmd);
    }

    method Logs(fs: FileSystem, run: Runner, services: Option<seq<string>>, follow: bool, tail: Option<int>)
      returns (issued: seq<string>, ok: bool)
      ensures issued == BaseArgs(Files(fs), profile) + Tokens(Request.Logs(Listed(services), follow, tail))
      ensures ok <==> run(Argv(issued)) == 0
    {
      var cmd := ["logs"];
      if follow {
        cmd := cmd + ["-f"];
      }
      assert cmd == ["logs"] + Flag(follow, "-f");
      if tail.Some? {
        cmd := cmd + ["--tail", IntToDecimal(tail.value)];
      }
      assert cmd == ["logs"] + Flag(follow, "-f") + (if tail.Some? then ["--tail", IntToDecimal(tail.value)] else []);
      if services.Some? && services.value != [] {
        cmd := cmd + services.value;
      }
      assert cmd == Tokens(Request.Logs(Listed(services), follow, tail));
      issued, ok := RunCommand(fs, run, cmd);
    }

    method Restart(fs: FileSystem, run: Runner, services: Option<seq<string>>) returns (issued: seq<string>, ok: bool)
      ensures issued == BaseArgs(Files(fs), profile) + Tokens(Request.Restart(Listed(services)))
      ensures ok <==> run(Argv(issued)) == 0
    {
      var cmd := ["restart"];
      if services.Some? && services.value != [] {
        cmd := cmd + services.value;
      }
      issued, ok := RunCommand(fs, run, cmd);
    }

    method Build(fs: FileSystem, run: Runner, services: Option<seq<string>>, noCache: bool)
      returns (issued: seq<string>, ok: bool)
      ensures issued == BaseArgs(Files(fs), profile) + Tokens(Request.Build(Listed(services), noCache))
      ensures ok <==> run(Argv(issued)) == 0
    {
      var cmd := ["build"];
      if noCache {
        cmd := cmd + ["--no-cache"];
      }
      assert cmd == ["build"] + Flag(noCache, "--no-cache");
      if services.Some? && services.value != [] {
        cmd := cmd + services.value;
      }
      assert cmd == Tokens(Request.Build(Listed(services), noCache));
      issued, ok := RunCommand(fs, run, cmd);
    }

    method Exec(fs: FileSystem, run: Runner, service: string, command: seq<string>, interactive: bool)
      returns (issued: seq<string>, ok: bool)
      ensures issued == BaseArgs(Files(fs), profile) + Tokens(Request.Exec(service, command, interactive))
      ensures ok <==> run(Argv(issued)) == 0
    {
      var cmd := ["exec"];
      if interactive {
        cmd := cmd + ["-it"];
      }
      assert cmd == ["exec"] + Flag(interactive, "-it");
      cmd := cmd + [service];
      cmd := cmd + command;
      assert cmd == Tokens(Request.Exec(service, command, interactive));
      issued, ok := RunCommand(fs, run, cmd);
    }

    /** `shell(service, shell_cmd)`: an interactive exec of the one-token command. */
    method Shell(fs: FileSystem, run: Runner, service: string, shellCmd: string) returns (issued: seq<string>, ok: bool)
      ensures issued == BaseArgs(Files(fs), profile) + Tokens(Request.Exec(service, [shellCmd], true))
      ensures ok <==> run(Argv(issued)) == 0
    {
      issued, ok := Exec(fs, run, service, [shellCmd], true);
    }

    method Pull(fs: FileSystem, run: Runner, services: Option<seq<string>>) returns (issued: seq<string>, ok: bool)
      ensures issued == BaseArgs(Files(fs), profile) + Tokens(Request.Pull(Listed(services)))
      ensures ok <==> run(Argv(issued)) == 0
    {
      var cmd := ["pull"];
      if services.Some? && services.value != [] {
        cmd := cmd + services.value;
      }
      issued, ok := RunCommand(fs, run, cmd);
    }

    /** `run_custom_command(args)`: the arguments follow the base command unchanged. */
    method RunCustomCommand(fs: FileSystem, run: Runner, args: seq<string>) returns (issued: seq<string>, ok: bool)
      ensures issued == BaseArgs(Files(fs), profile) + args
      ensures ok <==> run(Argv(issued)) == 0
    {
      issued, ok := RunCommand(fs, run, args);
    }

    /** `get_status`: runs `ps --format json` with captured output and decodes it line by line. */
    method GetStatus(fs: FileSystem, capture: Capture, decode: Decoder) returns (services: seq<Value>)
      ensures services == StatusRecords(capture(BaseArgs(Files(fs), profile) + PsJson), decode)
    {
      var base := BuildBaseCommand(fs);
      var result := capture(base + PsJson);
      if result.status != 0 {
        return [];
      }
      var lines := Split(Strip(result.stdout), '\n');
      services := [];
      for i := 0 to |lines|
        invariant services == DecodeLines(lines[..i], decode)
      {
        var line := lines[i];
        assert lines[..i + 1][..i] == lines[..i] && lines[..i + 1][i] == line;
        assert DecodeLines(lines[..i + 1], decode) ==
          if line != "" && decode(line).Some? then services + [decode(line).value] else services;
        if line != "" {
          var info := decode(line);
          if info.Some? {
            services := services + [info.value];
          }
        }
      }
      assert lines[..|lines|] == lines;
    }
  }
}
