/** Recognising the commands of a loaded service as a printed managed unit. */
module Recogniser {
  import opened Modes
  import opened Names
  import opened PathWalk
  import opened UnitText
  import opened Units
  import opened Review

  /** One command as the service manager reports it. */
  datatype Command = Command(path: string, argv: seq<string>, flags: seq<string>)

  datatype Commands = Commands(signature: string, data: seq<Command>)

  const SIGNATURE := "a(sasasttttuii)"

  function Drain(argv: seq<string>, i: nat, j: nat): seq<string>
    requires i <= j <= |argv|
  {
    argv[..i] + argv[j..]
  }

  predicate WaitMatches(wait: Command) {
    && wait.path == "/usr/bin/sh" && wait.flags == []
    && wait.argv == ["/usr/bin/sh", "-c", Dollars(WAIT_SCRIPT), "--", "${MAINPID}"]
  }

  const START_ARGUMENTS: seq<string> := ["--service-invocation", "${INVOCATION_ID}"]
  const STOP_ARGUMENTS: seq<string> := ["stop-service", "--invocation-id", "${INVOCATION_ID}"]

  /** The guarded start and stop commands of one box. */
  predicate PairMatches(start: Command, stop: Command)
  {
    && |start.argv| >= 7 && |stop.argv| >= 7
    && ValidBoxName(start.argv[4]) && start.flags == [] && stop.flags == []
    && IsAbsolute(start.argv[2]) && FileName(start.argv[2]) == Some("distrobox-enter")
    && start.path == "/usr/bin/env" && stop.path == start.path
    && start.argv[0] == start.path && stop.argv[0] == start.argv[0]
    && start.argv[1] == "--unset=INVOCATION_ID" && stop.argv[1] == start.argv[1]
    && start.argv[2] == stop.argv[2] && start.argv[3] == "--name" && stop.argv[3] == start.argv[3]
    && start.argv[4] == stop.argv[4] && start.argv[5] == "--" && stop.argv[5] == start.argv[5]
    && IsAbsolute(start.argv[6]) && IsAbsolute(stop.argv[6]) && Parent(start.argv[6]) == Parent(stop.argv[6])
    && FileName(start.argv[6]) == Some("lianli-daemon") && FileName(stop.argv[6]) == Some("lianli-control")
    && start.argv[7..] == START_ARGUMENTS && stop.argv[7..] == STOP_ARGUMENTS
  }

  function MatchCommands(start: Commands, stop: Commands): Result<Option<string>> {
    if start.signature != SIGNATURE || stop.signature != start.signature then Err
    else if |start.data| != 1 || |stop.data| != 2 || !WaitMatches(stop.data[1]) then Ok(None)
    else if PairMatches(start.data[0], stop.data[0]) then Ok(Some(start.data[0].argv[4]))
    else Ok(None)
  }

  function MatchSystem(start: Commands, stop: Commands): Result<Option<string>> {
    if |start.data| != 1 || |stop.data| != 2 then Ok(None) else
    var started, stopped := start.data[0], stop.data[0];
    if |started.argv| < 10 || started.argv[7] != "--system" || started.argv[8] != "--config" || !IsAbsolute(started.argv[9])
       || |stopped.argv| < 10 || stopped.argv[8..10] != ["--scope", "system"] then Ok(None)
    else
      MatchCommands(start.(data := [started.(argv := Drain(started.argv, 7, 10))]),
                    stop.(data := [stopped.(argv := Drain(stopped.argv, 8, 10)), stop.data[1]]))
  }

  const CHDIR := "--chdir="

  /** The arguments without the working directory and, in user mode, the configuration of a managed
      command; a command that does not change directory is left as it is. */
  function Unmanaged(scope: Scope, argv: seq<string>): Option<seq<string>> {
    if |argv| <= 6 || argv[6] != "/usr/bin/env" then Some(argv)
    else if |argv| <= 7 || !(CHDIR <= argv[7]) || !AbsolutePath(argv[7][|CHDIR|..]) then None
    else
      var rest := Drain(argv, 6, 8);
      if scope.System? then Some(rest)
      else if |rest| < 9 || rest[7] != "--config" || !ValidConfig(rest[8]) then None
      else Some(Drain(rest, 7, 9))
  }

  function MatchScoped(scope: Scope, start: Commands, stop: Commands): Result<Option<string>> {
    if |start.data| != 1 then Ok(None) else
    match Unmanaged(scope, start.data[0].argv)
    case None => Ok(None)
    case Some(argv) =>
      var plain := start.(data := [start.data[0].(argv := argv)]);
      if scope.User? then MatchCommands(plain, stop) else MatchSystem(plain, stop)
  }

  function ConfigIndex(scope: Scope): nat {
    if scope.System? then 11 else 10
  }

  predicate HasPath(argv: seq<string>, i: nat, path: string) {
    i < |argv| && SamePath(argv[i], path)
  }

  /** The loaded commands are those of the managed deployment. */
  predicate VerifyManaged(scope: Scope, route: Route, start: Commands, stop: Commands) {
    && |start.data| > 0 && |stop.data| > 0
    && var argv := start.data[0].argv;
    && HasPath(argv, 2, route.launch.hostEnter)
    && |argv| > 7 && argv[7] == CHDIR + Working(route, scope)
    && HasPath(argv, 8, Daemon(route.launch.binaries))
    && HasPath(argv, ConfigIndex(scope), Config(route, scope))
    && HasPath(stop.data[0].argv, 6, Control(route.launch.binaries))
    && MatchScoped(scope, start, stop) == Ok(Some(route.launch.name))
  }

  // What a printed unit reports.

  function Reported(items: seq<Item>): Command
    requires items != []
  {
    Command(Argument(items[0]), ArgumentsOf(items), [])
  }

  function StartCommands(u: Unit): Commands
    requires u.start != []
  {
    Commands(SIGNATURE, [Reported(u.start)])
  }

  function StopCommands(u: Unit): Commands
    requires u.stop != []
  {
    Commands(SIGNATURE, [Reported(u.stop), Reported(WAIT)])
  }

  // Dollar signs in paths.

  function AllDollars(parts: seq<string>): (r: seq<string>)
    ensures |r| == |parts| && forall i | 0 <= i < |parts| :: r[i] == Dollars(parts[i])
  {
    seq(|parts|, i requires 0 <= i < |parts| => Dollars(parts[i]))
  }

  lemma {:induction false} DollarsKeep(value: string, c: char)
    requires c != '$'
    ensures c in Dollars(value) <==> c in value
  {
    if value != [] {
      DollarsKeep(value[1..], c);
      assert value == [value[0]] + value[1..];
    }
  }

  lemma SlashAt(a: string, b: string)
    requires '/' !in a && (b == [] || b[0] == '/')
    ensures Slash(a + b) == |a|
  {
    var s := a + b;
    assert forall i | 0 <= i < |a| :: s[i] == a[i] != '/';
    assert b != [] ==> s[|a|] == '/';
  }

  lemma DollarsDot(value: string)
    ensures Dollars(value) == "" <==> value == ""
    ensures Dollars(value) == "." <==> value == "."
    ensures Dollars(value) == ".." <==> value == ".."
  {
    DoubledHas(value, '$');
    if value != [] {
      assert Dollars(value)[0] == value[0];
      DoubledHas(value[1..], '$');
    }
    if |value| == 1 { assert value == [value[0]]; assert value[1..] == []; }
    if |value| == 2 { assert value[1..] == [value[1]]; assert value[1..][1..] == []; assert value == [value[0], value[1]]; }
    if |value| > 2 { DoubledHas(value, '$'); }
  }

  lemma DollarsSplit(path: string, k: nat)
    requires k <= |path| && (k < |path| ==> path[k] == '/')
    ensures Dollars(path) == Dollars(path[..k]) + Dollars(path[k..])
    ensures k < |path| ==> Dollars(path[k..]) == ['/'] + Dollars(path[k + 1..])
    ensures k == |path| ==> Dollars(path[k..]) == []
  {
    assert path == path[..k] + path[k..];
    ReplaceAppend(path[..k], path[k..], '$', "$$");
    if k < |path| { assert path[k..][1..] == path[k + 1..]; }
  }

  lemma AllDollarsFirst(first: string, more: seq<string>)
    ensures AllDollars([first] + more) == [Dollars(first)] + AllDollars(more)
  {
  }

  /** Doubling the dollar signs of a path doubles those of its components. */
  lemma {:induction false} DollarComponents(path: string)
    ensures Components(Dollars(path)) == AllDollars(Components(path))
    decreases |path|
  {
    if path == [] {
      assert Dollars(path) == [];
    } else {
      hide Components, Doubled, AllDollars;
      var k := Slash(path);
      var first, rest := path[..k], path[k..];
      assert path == first + rest;
      DollarsSplit(path, k);
      DollarsKeep(first, '/');
      DollarsDot(first);
      DoubledHas(path, '$');
      SplitComponents(Dollars(first), Dollars(rest));
      SplitComponents(first, rest);
      if rest == [] {
        AllDollarsFirst(first, []);
        NoDollars();
      } else {
        assert rest[1..] == path[k + 1..] && Dollars(rest)[1..] == Dollars(path[k + 1..]);
        DollarComponents(path[k + 1..]);
        AllDollarsFirst(first, Components(path[k + 1..]));
      }
    }
  }

  lemma NoDollars()
    ensures AllDollars([]) == [] && forall first: string :: [first] + [] == [first]
  {
  }

  lemma DollarsAbsolute(path: string)
    ensures IsAbsolute(Dollars(path)) <==> IsAbsolute(path)
  {
    DoubledHas(path, '$');
    if path != [] {
      assert Dollars(path)[0] == path[0];
    }
  }

  /** The components of a first name and the rest after its slash. */
  lemma SplitComponents(first: string, rest: string)
    requires first + rest != [] && '/' !in first && (rest == [] || rest[0] == '/')
    ensures var more := if rest == [] then [] else Components(rest[1..]);
            Components(first + rest) == if first == "" || first == "." then more else [first] + more
  {
    SlashAt(first, rest);
    var path := first + rest;
    assert path[..|first|] == first;
    if rest != [] { assert path[|first| + 1..] == rest[1..]; }
  }

  ghost predicate HasDollar(parts: seq<string>) {
    exists i :: 0 <= i < |parts| && '$' in parts[i]
  }

  lemma FirstHasDollar(first: string, more: seq<string>)
    requires '$' in first
    ensures HasDollar(if first == "" || first == "." then more else [first] + more)
  {
    assert ([first] + more)[0] == first;
  }

  lemma RestHasDollar(first: string, more: seq<string>)
    requires HasDollar(more)
    ensures HasDollar(if first == "" || first == "." then more else [first] + more)
  {
    var i :| 0 <= i < |more| && '$' in more[i];
    assert ([first] + more)[i + 1] == more[i];
  }

  lemma {:induction false} ComponentHasDollar(path: string)
    requires '$' in path
    ensures HasDollar(Components(path))
    decreases |path|
  {
    hide HasDollar, Components;
    var k := Slash(path);
    var first, rest := path[..k], path[k..];
    assert path == first + rest;
    SplitComponents(first, rest);
    if '$' in first {
      FirstHasDollar(first, if rest == [] then [] else Components(rest[1..]));
    } else {
      assert rest != [] && '$' in rest[1..];
      ComponentHasDollar(rest[1..]);
      RestHasDollar(first, Components(rest[1..]));
    }
  }

  /** A path survives reporting exactly when it has no dollar sign. */
  lemma ReportedPath(path: string)
    ensures SamePath(Dollars(path), path) <==> '$' !in path
    ensures Dollars(path) == path <==> '$' !in path
  {
    DoubledHas(path, '$');
    DollarComponents(path);
    DollarsAbsolute(path);
    hide Components, Doubled;
    if '$' in path {
      ComponentHasDollar(path);
      var i :| 0 <= i < |Components(path)| && '$' in Components(path)[i];
      DoubledHas(Components(path)[i], '$');
    }
  }

  // Joined paths.

  predicate PlainName(name: string) {
    name != "" && name != "." && name != ".." && '/' !in name && '$' !in name
  }

  function WithFirst(first: string, more: seq<string>): seq<string> {
    if first == "" || first == "." then more else [first] + more
  }

  lemma WithFirstSnoc(first: string, more: seq<string>, name: string)
    ensures WithFirst(first, more + [name]) == WithFirst(first, more) + [name]
  {
  }

  /** The components after the first slash of a path that has one. */
  lemma RestComponents(first: string, rest: string)
    requires '/' !in first && rest != [] && rest[0] == '/'
    ensures Components(first + rest) == WithFirst(first, Components(rest[1..]))
  {
    SplitComponents(first, rest);
    hide Components;
  }

  lemma CutPath(path: string, tail: string) returns (first: string, rest: string)
    ensures path == first + rest && path + tail == first + (rest + tail) && '/' !in first
    ensures rest != [] ==> rest[0] == '/' && |rest[1..]| < |path| && (rest + tail)[1..] == rest[1..] + tail
  {
    var k := Slash(path);
    first, rest := path[..k], path[k..];
  }

  /** A name after a slash is one more component. */
  lemma {:induction false} SlashComponents(path: string, tail: string, name: string)
    requires PlainName(name) && tail != [] && tail[0] == '/' && tail[1..] == name
    ensures Components(path + tail) == Components(path) + [name]
    decreases |path|
  {
    hide *;
    NameComponents(name);
    var first, rest := CutPath(path, tail);
    if rest == [] {
      RestComponents(first, tail);
      LastComponent(first);
      WithFirstSnoc(first, [], name);
      NothingAdded(first, tail, name);
    } else {
      RestComponents(first, rest);
      RestComponents(first, rest + tail);
      SlashComponents(rest[1..], tail, name);
      WithFirstSnoc(first, Components(rest[1..]), name);
    }
  }

  lemma NothingAdded(first: string, tail: string, name: string)
    ensures first + [] == first && [] + tail == tail
    ensures var none: seq<string> := []; none + [name] == [name]
  {
  }

  lemma LastComponent(first: string)
    requires '/' !in first
    ensures Components(first) == WithFirst(first, [])
  {
    if first != [] {
      assert first + "" == first;
      SplitComponents(first, "");
    }
  }

  /** A trailing slash makes no difference. */
  lemma JoinComponents(path: string, name: string)
    requires PlainName(name)
    ensures Components(Join(path, name)) == Components(path) + [name]
  {
    if path != [] && path[|path| - 1] == '/' {
      var front := path[..|path| - 1];
      assert path == front + "/";
      assert Join(path, name) == front + ("/" + name);
      SlashComponents(front, "/" + name, name);
      TrailingSlash(front);
    } else {
      assert Join(path, name) == path + ("/" + name);
      SlashComponents(path, "/" + name, name);
    }
  }

  lemma {:induction false} TrailingSlash(path: string)
    ensures Components(path + "/") == Components(path)
    decreases |path|
  {
    hide *;
    var first, rest := CutPath(path, "/");
    EmptyComponents();
    if rest == [] {
      OnlySlash();
      NothingAdded(first, "/", "");
      RestComponents(first, "/");
      LastComponent(first);
    } else {
      RestComponents(first, rest);
      RestComponents(first, rest + "/");
      TrailingSlash(rest[1..]);
    }
  }

  lemma OnlySlash()
    ensures |"/"| == 1 && "/"[0] == '/' && "/"[1..] == ""
  {
  }

  lemma EmptyComponents()
    ensures Components("") == []
  {
  }

  lemma NameComponents(name: string)
    requires PlainName(name)
    ensures Components(name) == [name] && Components("") == []
  {
    assert name + "" == name;
    SplitComponents(name, "");
  }

  lemma JoinKeeps(path: string, name: string)
    requires PlainName(name) && IsAbsolute(path)
    ensures IsAbsolute(Join(path, name)) && ('$' in Join(path, name) <==> '$' in path)
  {
    var joined := Join(path, name);
    assert joined == path + name || joined == path + "/" + name;
  }

  /** What the recogniser sees of a joined path. */
  lemma JoinedPath(path: string, name: string)
    requires PlainName(name) && IsAbsolute(path)
    ensures var reported := Dollars(Join(path, name));
            && IsAbsolute(reported) && FileName(reported) == Some(name)
            && Parent(reported) == AllDollars(Components(path))
            && (SamePath(reported, Join(path, name)) <==> '$' !in path)
  {
    hide Components, Doubled, Join;
    var joined := Join(path, name);
    JoinKeeps(path, name);
    JoinComponents(path, name);
    DollarComponents(joined);
    DollarsAbsolute(joined);
    DoubledHas(name, '$');
    var parts := AllDollars(Components(joined));
    assert parts == AllDollars(Components(path)) + [Dollars(name)];
    ReportedPath(joined);
  }

  // Printed managed units are recognised.

  function Host(name: string, enter: string): seq<string> {
    ["/usr/bin/env", "--unset=INVOCATION_ID", enter, "--name", name, "--"]
  }

  function StartOptions(scope: Scope, config: string): seq<string> {
    (if scope.System? then ["--system"] else []) + ["--config", config]
  }

  function StopOptions(scope: Scope): seq<string> {
    if scope.System? then ["--scope", "system"] else []
  }

  /** The arguments of a managed start command with these paths. */
  function StartVector(scope: Scope, name: string, enter: string, working: string, daemon: string, config: string): seq<string> {
    Host(name, enter) + ["/usr/bin/env", CHDIR + working, daemon] + StartOptions(scope, config) + START_ARGUMENTS
  }

  function StopVector(scope: Scope, name: string, enter: string, control: string): seq<string> {
    Host(name, enter) + [control, "stop-service"] + StopOptions(scope) + ["--invocation-id", "${INVOCATION_ID}"]
  }

  lemma ArgumentsAppend(a: seq<Item>, b: seq<Item>)
    ensures ArgumentsOf(a + b) == ArgumentsOf(a) + ArgumentsOf(b)
  {
  }

  lemma HostArguments(name: string, enter: string)
    requires '$' !in name && '$' !in enter
    ensures ArgumentsOf(Prefix(name, enter)) == Host(name, enter)
  {
    DoubledHas(name, '$');
    DoubledHas(enter, '$');
    hide Doubled;
    var items := Prefix(name, enter);
    assert Argument(items[2]) == enter && Argument(items[4]) == name;
  }

  lemma BoxNameHasNoDollar(name: string)
    requires ValidBoxName(name)
    ensures '$' !in name
  {
    assert forall i | 0 <= i < |name| :: IsNameChar(name[i]) && name[i] != '$';
  }

  lemma DollarsAppend(a: string, b: string)
    requires '$' !in a
    ensures Dollars(a + b) == a + Dollars(b)
  {
    ReplaceAppend(a, b, '$', "$$");
    DoubledHas(a, '$');
  }

  lemma OptionArguments(route: Route, scope: Scope)
    ensures ArgumentsOf(ManagedOptions(route, scope)) == StartOptions(scope, Dollars(Config(route, scope)))
    ensures ArgumentsOf(StopScope(scope)) == StopOptions(scope)
  {
    hide Doubled;
  }

  lemma GuestArguments(route: Route, scope: Scope)
    requires '$' !in route.launch.name && '$' !in route.launch.hostEnter
    ensures ArgumentsOf(Prefix(route.launch.name, route.launch.hostEnter) + [Bare("/usr/bin/env"), Quoted(ChangeDirectory(route, scope))])
            == Host(route.launch.name, route.launch.hostEnter) + ["/usr/bin/env", CHDIR + Dollars(Working(route, scope))]
  {
    var launch := route.launch;
    HostArguments(launch.name, launch.hostEnter);
    DollarsAppend(CHDIR, Working(route, scope));
    hide Doubled, Prefix, Host, Working;
    var guest := [Bare("/usr/bin/env"), Quoted(ChangeDirectory(route, scope))];
    ArgumentsAppend(Prefix(launch.name, launch.hostEnter), guest);
    assert ArgumentsOf(guest) == ["/usr/bin/env", CHDIR + Dollars(Working(route, scope))];
  }

  lemma DaemonArguments(route: Route, scope: Scope)
    ensures ArgumentsOf(DaemonStart(route.launch.binaries, ManagedOptions(route, scope)))
            == [Dollars(Daemon(route.launch.binaries))] + StartOptions(scope, Dollars(Config(route, scope))) + START_ARGUMENTS
  {
    OptionArguments(route, scope);
    hide Doubled, ManagedOptions, StartOptions, Daemon;
    var daemon, last := [Quoted(Daemon(route.launch.binaries))], [Bare("--service-invocation"), INVOCATION];
    ArgumentsAppend(daemon + ManagedOptions(route, scope), last);
    ArgumentsAppend(daemon, ManagedOptions(route, scope));
    assert ArgumentsOf(daemon) == [Dollars(Daemon(route.launch.binaries))] && ArgumentsOf(last) == START_ARGUMENTS;
  }

  lemma StartArguments(route: Route, scope: Scope)
    requires '$' !in route.launch.name && '$' !in route.launch.hostEnter
    ensures ArgumentsOf(ManagedStart(route, scope)) ==
            StartVector(scope, route.launch.name, route.launch.hostEnter, Dollars(Working(route, scope)),
                        Dollars(Daemon(route.launch.binaries)), Dollars(Config(route, scope)))
  {
    GuestArguments(route, scope);
    DaemonArguments(route, scope);
    hide Doubled, Prefix, Host, ManagedOptions, StartOptions, Daemon, Working, DaemonStart, ChangeDirectory, Config;
    ArgumentsAppend(Prefix(route.launch.name, route.launch.hostEnter) + [Bare("/usr/bin/env"), Quoted(ChangeDirectory(route, scope))],
                    DaemonStart(route.launch.binaries, ManagedOptions(route, scope)));
    Regroup(Host(route.launch.name, route.launch.hostEnter), "/usr/bin/env", CHDIR + Dollars(Working(route, scope)),
            Dollars(Daemon(route.launch.binaries)), StartOptions(scope, Dollars(Config(route, scope))), START_ARGUMENTS);
  }

  lemma Regroup(a: seq<string>, x: string, y: string, z: string, b: seq<string>, c: seq<string>)
    ensures (a + [x, y]) + ([z] + b + c) == a + [x, y, z] + b + c
  {
  }

  lemma StopArguments(route: Route, scope: Scope)
    requires '$' !in route.launch.name && '$' !in route.launch.hostEnter
    ensures ArgumentsOf(ManagedStop(route, scope)) ==
            StopVector(scope, route.launch.name, route.launch.hostEnter, Dollars(Control(route.launch.binaries)))
  {
    var launch := route.launch;
    HostArguments(launch.name, launch.hostEnter);
    OptionArguments(route, scope);
    hide Doubled, Prefix, Host, StopScope, StopOptions, Control;
    var prefix := Prefix(launch.name, launch.hostEnter);
    var control := [Quoted(Control(launch.binaries)), Bare("stop-service")];
    var last := [Bare("--invocation-id"), INVOCATION];
    ArgumentsAppend(prefix, DaemonStop(launch.binaries, StopScope(scope)));
    ArgumentsAppend(control + StopScope(scope), last);
    ArgumentsAppend(control, StopScope(scope));
    assert ArgumentsOf(control) == [Dollars(Control(launch.binaries)), "stop-service"];
    assert ArgumentsOf(last) == ["--invocation-id", "${INVOCATION_ID}"];
  }

  /** What the service manager reports for a managed unit: the printed vectors, with the dollar signs of
      the guest's paths doubled. */
  lemma ManagedArguments(route: Route, scope: Scope)
    requires '$' !in route.launch.name && '$' !in route.launch.hostEnter
    ensures ArgumentsOf(ManagedStart(route, scope)) ==
            StartVector(scope, route.launch.name, route.launch.hostEnter, Dollars(Working(route, scope)),
                        Dollars(Daemon(route.launch.binaries)), Dollars(Config(route, scope)))
    ensures ArgumentsOf(ManagedStop(route, scope)) ==
            StopVector(scope, route.launch.name, route.launch.hostEnter, Dollars(Control(route.launch.binaries)))
  {
    hide *;
    StartArguments(route, scope);
    StopArguments(route, scope);
  }

  /** Taking the managed parts out of a start vector leaves the plain one. */
  lemma UnmanagedUser(name: string, enter: string, working: string, daemon: string, config: string)
    ensures Unmanaged(User, StartVector(User, name, enter, working, daemon, config)) ==
            if AbsolutePath(working) && ValidConfig(config) then Some(Host(name, enter) + [daemon] + START_ARGUMENTS) else None
  {
    hide AbsolutePath, ValidConfig;
    var argv := StartVector(User, name, enter, working, daemon, config);
    assert |argv| == 13 && argv[7] == CHDIR + working && argv[7][|CHDIR|..] == working;
    var rest := Drain(argv, 6, 8);
    assert rest == Host(name, enter) + [daemon, "--config", config] + START_ARGUMENTS;
    assert rest[8] == config;
    assert Drain(rest, 7, 9) == Host(name, enter) + [daemon] + START_ARGUMENTS;
  }

  lemma UnmanagedSystem(name: string, enter: string, working: string, daemon: string, config: string)
    ensures Unmanaged(System, StartVector(System, name, enter, working, daemon, config)) ==
            if AbsolutePath(working) then Some(Host(name, enter) + [daemon, "--system", "--config", config] + START_ARGUMENTS) else None
  {
    hide AbsolutePath;
    var argv := StartVector(System, name, enter, working, daemon, config);
    assert |argv| == 14 && argv[7] == CHDIR + working && argv[7][|CHDIR|..] == working;
    assert Drain(argv, 6, 8) == Host(name, enter) + [daemon, "--system", "--config", config] + START_ARGUMENTS;
  }

  /** The plain pair of commands of one box. */
  ghost predicate PlainPair(name: string, enter: string, daemon: string, control: string) {
    && ValidBoxName(name) && IsAbsolute(enter) && FileName(enter) == Some("distrobox-enter")
    && IsAbsolute(daemon) && IsAbsolute(control) && Parent(daemon) == Parent(control)
    && FileName(daemon) == Some("lianli-daemon") && FileName(control) == Some("lianli-control")
  }

  function Plain(argv: seq<string>): Command {
    Command("/usr/bin/env", argv, [])
  }

  lemma PlainPairMatches(name: string, enter: string, daemon: string, control: string)
    ensures PairMatches(Plain(Host(name, enter) + [daemon] + START_ARGUMENTS), Plain(Host(name, enter) + [control] + STOP_ARGUMENTS))
            <==> PlainPair(name, enter, daemon, control)
  {
    hide ValidBoxName, FileName, Parent, IsAbsolute;
    var start, stop := Host(name, enter) + [daemon] + START_ARGUMENTS, Host(name, enter) + [control] + STOP_ARGUMENTS;
    assert start[7..] == START_ARGUMENTS && stop[7..] == STOP_ARGUMENTS;
  }

  function WaitCommand(): Command {
    Command("/usr/bin/sh", ["/usr/bin/sh", "-c", Dollars(WAIT_SCRIPT), "--", "${MAINPID}"], [])
  }

  lemma WaitIsReported()
    ensures Reported(WAIT) == WaitCommand() && WaitMatches(WaitCommand())
  {
    hide Doubled;
    assert "${" + "MAINPID" + "}" == "${MAINPID}";
    assert ArgumentsOf(WAIT) == WaitCommand().argv;
  }

  /** A managed pair of vectors is matched exactly when the paths in it are acceptable. */
  lemma VectorsMatch(scope: Scope, name: string, enter: string, working: string, daemon: string, control: string, config: string)
    requires PlainPair(name, enter, daemon, control) && IsAbsolute(config)
    ensures MatchScoped(scope, Commands(SIGNATURE, [Plain(StartVector(scope, name, enter, working, daemon, config))]),
                        Commands(SIGNATURE, [Plain(StopVector(scope, name, enter, control)), WaitCommand()]))
            == if AbsolutePath(working) && (scope.User? ==> ValidConfig(config)) then Ok(Some(name)) else Ok(None)
  {
    WaitIsReported();
    PlainPairMatches(name, enter, daemon, control);
    hide PairMatches, WaitMatches, WaitCommand, AbsolutePath, ValidConfig, Unmanaged, StartVector, PlainPair;
    var plain := Host(name, enter) + [daemon] + START_ARGUMENTS;
    var stopped := Host(name, enter) + [control] + STOP_ARGUMENTS;
    assert plain[4] == name;
    if scope.User? {
      UnmanagedUser(name, enter, working, daemon, config);
      assert StopVector(User, name, enter, control) == stopped;
    } else {
      UnmanagedSystem(name, enter, working, daemon, config);
      SystemDrains(name, enter, daemon, control, config);
    }
  }

  lemma SystemDrains(name: string, enter: string, daemon: string, control: string, config: string)
    ensures var argv := Host(name, enter) + [daemon, "--system", "--config", config] + START_ARGUMENTS;
            && |argv| >= 10 && argv[7] == "--system" && argv[8] == "--config" && argv[9] == config
            && Drain(argv, 7, 10) == Host(name, enter) + [daemon] + START_ARGUMENTS
    ensures var argv := StopVector(System, name, enter, control);
            && |argv| >= 10 && argv[8..10] == ["--scope", "system"]
            && Drain(argv, 8, 10) == Host(name, enter) + [control] + STOP_ARGUMENTS
  {
  }

  lemma RoutePair(route: Route)
    requires ValidRoute(route)
    ensures PlainPair(route.launch.name, route.launch.hostEnter, Dollars(Daemon(route.launch.binaries)), Dollars(Control(route.launch.binaries)))
  {
    JoinedPath(route.launch.binaries, "lianli-daemon");
    JoinedPath(route.launch.binaries, "lianli-control");
    hide Doubled, FileName, Parent, ValidConfig;
  }

  lemma ManagedCommands(route: Route, scope: Scope)
    requires '$' !in route.launch.name && '$' !in route.launch.hostEnter
    ensures ManagedStart(route, scope) != [] && ManagedStop(route, scope) != []
    ensures Reported(ManagedStart(route, scope)) ==
            Plain(StartVector(scope, route.launch.name, route.launch.hostEnter, Dollars(Working(route, scope)),
                              Dollars(Daemon(route.launch.binaries)), Dollars(Config(route, scope))))
    ensures Reported(ManagedStop(route, scope)) ==
            Plain(StopVector(scope, route.launch.name, route.launch.hostEnter, Dollars(Control(route.launch.binaries))))
  {
    ManagedArguments(route, scope);
    hide Doubled, StartVector, StopVector;
    assert ManagedStart(route, scope)[0] == Bare("/usr/bin/env") && ManagedStop(route, scope)[0] == Bare("/usr/bin/env");
  }

  /** Every printed managed unit is recognised as its box, in both modes, unless doubling the dollar
      signs of its working directory or configuration made that path unacceptable. */
  lemma ManagedUnitIsRecognised(route: Route, scope: Scope, uid: nat)
    requires GenerateManaged(route, scope, uid).Some?
    ensures var u := GenerateManaged(route, scope, uid).value;
            && u.start != [] && u.stop != []
            && MatchScoped(scope, StartCommands(u), StopCommands(u))
               == if AbsolutePath(Dollars(Working(route, scope))) && (scope.User? ==> ValidConfig(Dollars(Config(route, scope))))
                  then Ok(Some(route.launch.name)) else Ok(None)
  {
    var launch := route.launch;
    BoxNameHasNoDollar(launch.name);
    assert ValidConfig(Config(route, scope)) && IsAbsolute(Config(route, scope));
    DollarsAbsolute(Config(route, scope));
    RoutePair(route);
    ManagedCommands(route, scope);
    WaitIsReported();
    hide Doubled, StartVector, StopVector, Reported, MatchScoped, PlainPair, ValidRoute, ValidConfig, AbsolutePath, WaitCommand, ManagedStart, ManagedStop;
    VectorsMatch(scope, launch.name, launch.hostEnter, Dollars(Working(route, scope)), Dollars(Daemon(launch.binaries)),
                 Dollars(Control(launch.binaries)), Dollars(Config(route, scope)));
  }

  // The other printed units.

  lemma NoEnv(path: string, name: string)
    requires PlainName(name) && IsAbsolute(path) && name != "env"
    ensures Dollars(Join(path, name)) != "/usr/bin/env"
  {
    JoinedPath(path, name);
    hide Doubled, Components, FileName;
    assert Join("/usr/bin", "env") == "/usr/bin/env";
    EnvName();
  }

  lemma EnvName()
    ensures FileName(Join("/usr/bin", "env")) == Some("env")
  {
    assert PlainName("env");
    JoinComponents("/usr/bin", "env");
    hide Components, Join;
  }

  lemma BinaryArguments(binary: string)
    ensures ArgumentsOf([Quoted(binary)]) == [Dollars(binary)]
    ensures ArgumentsOf([Quoted(binary), Bare("stop-service")]) == [Dollars(binary), "stop-service"]
  {
    hide Doubled;
  }

  lemma ThreeArguments(binary: string, options: seq<Item>, last: seq<Item>)
    ensures ArgumentsOf([Quoted(binary)] + options + last) == [Dollars(binary)] + ArgumentsOf(options) + ArgumentsOf(last)
  {
    hide *;
    BinaryArguments(binary);
    ArgumentsAppend([Quoted(binary)] + options, last);
    ArgumentsAppend([Quoted(binary)], options);
  }

  lemma FourArguments(binary: string, options: seq<Item>, last: seq<Item>)
    ensures ArgumentsOf([Quoted(binary), Bare("stop-service")] + options + last)
            == [Dollars(binary), "stop-service"] + ArgumentsOf(options) + ArgumentsOf(last)
  {
    hide *;
    BinaryArguments(binary);
    ArgumentsAppend([Quoted(binary), Bare("stop-service")] + options, last);
    ArgumentsAppend([Quoted(binary), Bare("stop-service")], options);
  }

  /** What the service manager reports for the commands of the other units. */
  lemma GuestCommands(name: string, enter: string, binaries: string, start: seq<Item>, stop: seq<Item>)
    requires '$' !in name && '$' !in enter
    ensures Reported(Prefix(name, enter) + DaemonStart(binaries, start)) ==
            Plain(Host(name, enter) + [Dollars(Join(binaries, "lianli-daemon"))] + ArgumentsOf(start) + START_ARGUMENTS)
    ensures Reported(Prefix(name, enter) + DaemonStop(binaries, stop)) ==
            Plain(Host(name, enter) + [Dollars(Join(binaries, "lianli-control")), "stop-service"] + ArgumentsOf(stop)
                  + ["--invocation-id", "${INVOCATION_ID}"])
  {
    HostArguments(name, enter);
    ArgumentsAppend(Prefix(name, enter), DaemonStart(binaries, start));
    ArgumentsAppend(Prefix(name, enter), DaemonStop(binaries, stop));
    var last, end := [Bare("--service-invocation"), INVOCATION], [Bare("--invocation-id"), INVOCATION];
    ThreeArguments(Daemon(binaries), start, last);
    FourArguments(Control(binaries), stop, end);
    hide Doubled, Join, Host;
    assert ArgumentsOf(last) == START_ARGUMENTS && ArgumentsOf(end) == ["--invocation-id", "${INVOCATION_ID}"];
    Regrouped(Host(name, enter), [Dollars(Daemon(binaries))], ArgumentsOf(start), START_ARGUMENTS);
    Regrouped(Host(name, enter), [Dollars(Control(binaries)), "stop-service"], ArgumentsOf(stop), ["--invocation-id", "${INVOCATION_ID}"]);
  }

  lemma Regrouped(a: seq<string>, b: seq<string>, c: seq<string>, d: seq<string>)
    ensures a + (b + c + d) == a + b + c + d
  {
  }

  lemma GuestPair(name: string, enter: string, binaries: string)
    requires ValidPrefix(name, enter, binaries)
    ensures PlainPair(name, enter, Dollars(Join(binaries, "lianli-daemon")), Dollars(Join(binaries, "lianli-control")))
    ensures Dollars(Join(binaries, "lianli-daemon")) != "/usr/bin/env"
  {
    JoinedNames();
    JoinedPath(binaries, "lianli-daemon");
    JoinedPath(binaries, "lianli-control");
    NoEnv(binaries, "lianli-daemon");
    hide Doubled, FileName, Parent, Join;
  }

  lemma PlainMatch(name: string, enter: string, daemon: string, control: string)
    requires PlainPair(name, enter, daemon, control) && daemon != "/usr/bin/env"
    ensures MatchScoped(User, Commands(SIGNATURE, [Plain(Host(name, enter) + [daemon] + START_ARGUMENTS)]),
                        Commands(SIGNATURE, [Plain(Host(name, enter) + [control] + STOP_ARGUMENTS), WaitCommand()])) == Ok(Some(name))
  {
    WaitIsReported();
    PlainPairMatches(name, enter, daemon, control);
    hide PairMatches, WaitMatches, WaitCommand, PlainPair;
    var start := Host(name, enter) + [daemon] + START_ARGUMENTS;
    assert start[4] == name && start[6] == daemon;
  }

  lemma SystemMatches(name: string, enter: string, daemon: string, control: string, config: string)
    requires PlainPair(name, enter, daemon, control) && daemon != "/usr/bin/env" && IsAbsolute(config)
    ensures MatchScoped(System, Commands(SIGNATURE, [Plain(Host(name, enter) + [daemon, "--system", "--config", config] + START_ARGUMENTS)]),
                        Commands(SIGNATURE, [Plain(StopVector(System, name, enter, control)), WaitCommand()])) == Ok(Some(name))
  {
    WaitIsReported();
    PlainPairMatches(name, enter, daemon, control);
    SystemDrains(name, enter, daemon, control, config);
    hide PairMatches, WaitMatches, WaitCommand, PlainPair, StopVector;
    var start := Host(name, enter) + [daemon, "--system", "--config", config] + START_ARGUMENTS;
    assert start[6] == daemon;
    assert (Host(name, enter) + [daemon] + START_ARGUMENTS)[4] == name;
  }

  lemma PlainVectors(name: string, enter: string, daemon: string, control: string)
    ensures Host(name, enter) + [daemon] + [] + START_ARGUMENTS == Host(name, enter) + [daemon] + START_ARGUMENTS
            == ["/usr/bin/env", "--unset=INVOCATION_ID", enter, "--name", name, "--", daemon, "--service-invocation", "${INVOCATION_ID}"]
    ensures Host(name, enter) + [control, "stop-service"] + [] + ["--invocation-id", "${INVOCATION_ID}"]
            == Host(name, enter) + [control] + STOP_ARGUMENTS
            == ["/usr/bin/env", "--unset=INVOCATION_ID", enter, "--name", name, "--", control, "stop-service", "--invocation-id", "${INVOCATION_ID}"]
  {
  }

  lemma SystemVector(name: string, enter: string, daemon: string, control: string, config: string)
    ensures Host(name, enter) + [daemon] + ["--system", "--config", config] + START_ARGUMENTS
            == Host(name, enter) + [daemon, "--system", "--config", config] + START_ARGUMENTS
            == ["/usr/bin/env", "--unset=INVOCATION_ID", enter, "--name", name, "--",
                daemon, "--system", "--config", config, "--service-invocation", "${INVOCATION_ID}"]
    ensures Host(name, enter) + [control, "stop-service"] + ["--scope", "system"] + ["--invocation-id", "${INVOCATION_ID}"]
            == StopVector(System, name, enter, control)
            == ["/usr/bin/env", "--unset=INVOCATION_ID", enter, "--name", name, "--",
                control, "stop-service", "--scope", "system", "--invocation-id", "${INVOCATION_ID}"]
  {
  }

  lemma NoOptions(config: string)
    ensures ArgumentsOf([]) == []
    ensures ArgumentsOf(SystemStart(config)) == ["--system", "--config", Dollars(config)]
    ensures ArgumentsOf(StopScope(System)) == ["--scope", "system"]
  {
    hide Doubled;
  }

  /** The unit of the user's session runs the daemon and stops it with the control program, inside the box
      and under its own invocation, and is recognised as its box. */
  lemma GeneratedCommands(name: string, enter: string, binaries: string)
    requires Generate(name, enter, binaries).Some?
    ensures var u := Generate(name, enter, binaries).value;
            var daemon, control := Dollars(Join(binaries, "lianli-daemon")), Dollars(Join(binaries, "lianli-control"));
            && u.start != [] && u.stop != []
            && StartCommands(u) == Commands("a(sasasttttuii)", [Command("/usr/bin/env",
                 ["/usr/bin/env", "--unset=INVOCATION_ID", enter, "--name", name, "--",
                  daemon, "--service-invocation", "${INVOCATION_ID}"], [])])
            && StopCommands(u) == Commands("a(sasasttttuii)", [Command("/usr/bin/env",
                 ["/usr/bin/env", "--unset=INVOCATION_ID", enter, "--name", name, "--",
                  control, "stop-service", "--invocation-id", "${INVOCATION_ID}"], []), WaitCommand()])
            && MatchScoped(User, StartCommands(u), StopCommands(u)) == Ok(Some(name))
  {
    BoxNameHasNoDollar(name);
    GuestPair(name, enter, binaries);
    assert '$' !in enter;
    var u := Generate(name, enter, binaries).value;
    assert u.start == Prefix(name, enter) + DaemonStart(binaries, []) && u.stop == Prefix(name, enter) + DaemonStop(binaries, []);
    hide Generate, ValidPrefix, Quotable, Doubled, Join, PlainPair, WaitCommand, MatchScoped, Host, Reported, Prefix, DaemonStart, DaemonStop, ArgumentsOf;
    GuestCommands(name, enter, binaries, [], []);
    WaitIsReported();
    NoOptions("");
    NotEmpty(name, enter, DaemonStart(binaries, []), DaemonStop(binaries, []));
    var daemon, control := Dollars(Join(binaries, "lianli-daemon")), Dollars(Join(binaries, "lianli-control"));
    PlainMatch(name, enter, daemon, control);
    PlainVectors(name, enter, daemon, control);
  }

  lemma NotEmpty(name: string, enter: string, start: seq<Item>, stop: seq<Item>)
    ensures Prefix(name, enter) + start != [] && Prefix(name, enter) + stop != []
  {
    assert (Prefix(name, enter) + start)[0] == (Prefix(name, enter) + stop)[0] == Bare("/usr/bin/env");
  }

  /** The system unit with an explicit configuration: the same with the options of system mode. */
  lemma SystemCommands(name: string, enter: string, binaries: string, uid: nat, config: string)
    requires GenerateSystem(name, enter, binaries, uid, config).Some?
    ensures var u := GenerateSystem(name, enter, binaries, uid, config).value;
            var daemon, control := Dollars(Join(binaries, "lianli-daemon")), Dollars(Join(binaries, "lianli-control"));
            && u.start != [] && u.stop != []
            && StartCommands(u) == Commands("a(sasasttttuii)", [Command("/usr/bin/env",
                 ["/usr/bin/env", "--unset=INVOCATION_ID", enter, "--name", name, "--",
                  daemon, "--system", "--config", Dollars(config), "--service-invocation", "${INVOCATION_ID}"], [])])
            && StopCommands(u) == Commands("a(sasasttttuii)", [Command("/usr/bin/env",
                 ["/usr/bin/env", "--unset=INVOCATION_ID", enter, "--name", name, "--",
                  control, "stop-service", "--scope", "system", "--invocation-id", "${INVOCATION_ID}"], []), WaitCommand()])
            && MatchScoped(System, StartCommands(u), StopCommands(u)) == Ok(Some(name))
  {
    BoxNameHasNoDollar(name);
    GuestPair(name, enter, binaries);
    DollarsAbsolute(config);
    assert '$' !in enter;
    var u := GenerateSystem(name, enter, binaries, uid, config).value;
    assert u.start == Prefix(name, enter) + DaemonStart(binaries, SystemStart(config))
           && u.stop == Prefix(name, enter) + DaemonStop(binaries, StopScope(System));
    hide GenerateSystem, ValidPrefix, Quotable, Doubled, Join, PlainPair, WaitCommand, MatchScoped, Host, Reported, Prefix, DaemonStart, DaemonStop,
         ArgumentsOf, SystemStart, StopVector, StopScope, IsAbsolute;
    GuestCommands(name, enter, binaries, SystemStart(config), StopScope(System));
    WaitIsReported();
    NoOptions(config);
    NotEmpty(name, enter, DaemonStart(binaries, SystemStart(config)), DaemonStop(binaries, StopScope(System)));
    var daemon, control := Dollars(Join(binaries, "lianli-daemon")), Dollars(Join(binaries, "lianli-control"));
    SystemMatches(name, enter, daemon, control, Dollars(config));
    SystemVector(name, enter, daemon, control, Dollars(config));
  }

  lemma VectorPaths(scope: Scope, name: string, enter: string, working: string, daemon: string, control: string, config: string)
    ensures var argv := StartVector(scope, name, enter, working, daemon, config);
            && |argv| == ConfigIndex(scope) + 3 && argv[2] == enter && argv[7] == CHDIR + working && argv[8] == daemon
            && argv[ConfigIndex(scope)] == config
    ensures |StopVector(scope, name, enter, control)| > 6 && StopVector(scope, name, enter, control)[6] == control
  {
  }

  /** What the verification compares in a pair of managed vectors. */
  lemma VerifyVectors(scope: Scope, route: Route, enter: string, working: string, daemon: string, control: string, config: string)
    ensures var start := Commands(SIGNATURE, [Plain(StartVector(scope, route.launch.name, enter, working, daemon, config))]);
            var stop := Commands(SIGNATURE, [Plain(StopVector(scope, route.launch.name, enter, control)), WaitCommand()]);
            VerifyManaged(scope, route, start, stop) <==>
              && SamePath(enter, route.launch.hostEnter) && working == Working(route, scope)
              && SamePath(daemon, Daemon(route.launch.binaries)) && SamePath(config, Config(route, scope))
              && SamePath(control, Control(route.launch.binaries))
              && MatchScoped(scope, start, stop) == Ok(Some(route.launch.name))
  {
    VectorPaths(scope, route.launch.name, enter, working, daemon, control, config);
    ChangesTo(working, Working(route, scope));
    hide SamePath, MatchScoped, StartVector, StopVector, WaitCommand, Daemon, Control, Config, Working;
  }

  /** The loaded managed unit is accepted as the deployment it was printed for, in both modes, exactly
      when neither its working directory, nor its binary directory, nor its configuration has a dollar
      sign: those are reported doubled and compared as they are written in the deployment. */
  lemma PrintedUnitIsVerified(route: Route, scope: Scope, uid: nat)
    requires GenerateManaged(route, scope, uid).Some?
    ensures var u := GenerateManaged(route, scope, uid).value;
            && u.start != [] && u.stop != []
            && (VerifyManaged(scope, route, StartCommands(u), StopCommands(u)) <==>
                  '$' !in Working(route, scope) && '$' !in route.launch.binaries && '$' !in Config(route, scope))
  {
    GeneratedFacts(route, scope, uid);
    var launch := route.launch;
    var working, daemon, control, config :=
      Dollars(Working(route, scope)), Dollars(Daemon(launch.binaries)), Dollars(Control(launch.binaries)), Dollars(Config(route, scope));
    hide *;
    BoxNameHasNoDollar(launch.name);
    ReportedPath(Working(route, scope));
    ReportedPath(Config(route, scope));
    JoinedNames();
    JoinedSame(launch.binaries);
    SameItself(launch.hostEnter);
    ManagedUnitIsRecognised(route, scope, uid);
    ManagedPair(route, scope, uid);
    VerifyVectors(scope, route, launch.hostEnter, working, daemon, control, config);
  }

  lemma SameItself(path: string)
    ensures SamePath(path, path)
  {
  }

  lemma JoinedNames()
    ensures PlainName("lianli-daemon") && PlainName("lianli-control")
  {
  }

  lemma JoinedSame(path: string)
    requires IsAbsolute(path)
    ensures SamePath(Dollars(Daemon(path)), Daemon(path)) <==> '$' !in path
    ensures SamePath(Dollars(Control(path)), Control(path)) <==> '$' !in path
  {
    JoinedPath(path, "lianli-daemon");
    JoinedPath(path, "lianli-control");
    hide Doubled, Join, SamePath, FileName, Parent;
  }

  lemma GeneratedFacts(route: Route, scope: Scope, uid: nat)
    requires GenerateManaged(route, scope, uid).Some?
    ensures ValidBoxName(route.launch.name) && '$' !in route.launch.hostEnter && IsAbsolute(route.launch.binaries)
    ensures AbsolutePath(Working(route, scope)) && ValidConfig(Config(route, scope))
    ensures Dollars(Working(route, scope)) == Working(route, scope) ==> AbsolutePath(Dollars(Working(route, scope)))
    ensures Dollars(Config(route, scope)) == Config(route, scope) ==> ValidConfig(Dollars(Config(route, scope)))
  {
    hide Doubled, FileName, ValidConfigName;
  }

  lemma ManagedPair(route: Route, scope: Scope, uid: nat)
    requires GenerateManaged(route, scope, uid).Some? && '$' !in route.launch.name && '$' !in route.launch.hostEnter
    ensures var u := GenerateManaged(route, scope, uid).value;
            && u.start != [] && u.stop != []
            && StartCommands(u) == Commands(SIGNATURE, [Plain(StartVector(scope, route.launch.name, route.launch.hostEnter,
                                     Dollars(Working(route, scope)), Dollars(Daemon(route.launch.binaries)), Dollars(Config(route, scope))))])
            && StopCommands(u) == Commands(SIGNATURE, [Plain(StopVector(scope, route.launch.name, route.launch.hostEnter,
                                    Dollars(Control(route.launch.binaries)))), WaitCommand()])
  {
    ManagedCommands(route, scope);
    WaitIsReported();
    hide Doubled, StartVector, StopVector, Reported, WaitCommand, ValidRoute, ManagedStart, ManagedStop, Quotable;
  }

  lemma ChangesTo(a: string, b: string)
    ensures CHDIR + a == CHDIR + b <==> a == b
  {
    assert (CHDIR + a)[|CHDIR|..] == a && (CHDIR + b)[|CHDIR|..] == b;
  }

  // What is accepted was printed.

  /** A start vector that `Unmanaged` changed is a managed one. */
  lemma UnmanagedShape(scope: Scope, argv: seq<string>)
    requires |argv| > 6 && argv[6] == "/usr/bin/env" && Unmanaged(scope, argv).Some?
    ensures |argv| > 7 && CHDIR <= argv[7] && AbsolutePath(argv[7][|CHDIR|..])
    ensures scope.User? ==> |argv| >= 11 && argv[9] == "--config" && ValidConfig(argv[10])
                            && Unmanaged(scope, argv).value == argv[..6] + argv[8..9] + argv[11..]
    ensures scope.System? ==> Unmanaged(scope, argv).value == argv[..6] + argv[8..]
  {
    hide AbsolutePath, ValidConfig;
    var rest := Drain(argv, 6, 8);
    if scope.User? {
      assert rest[7] == argv[9] && rest[8] == argv[10];
      assert Drain(rest, 7, 9) == argv[..6] + argv[8..9] + argv[11..];
    }
  }

  lemma PairShape(start: Command, stop: Command)
    requires PairMatches(start, stop)
    ensures start == Plain(Host(start.argv[4], start.argv[2]) + [start.argv[6]] + START_ARGUMENTS)
    ensures stop == Plain(Host(start.argv[4], start.argv[2]) + [stop.argv[6]] + STOP_ARGUMENTS)
  {
    assert start.argv == start.argv[..7] + start.argv[7..] && stop.argv == stop.argv[..7] + stop.argv[7..];
    assert start.argv[..7] == Host(start.argv[4], start.argv[2]) + [start.argv[6]];
    assert stop.argv[..7] == Host(start.argv[4], start.argv[2]) + [stop.argv[6]];
  }

  /** Commands with the printed vectors, for paths that are the same as the deployment's up to path
      normalisation. */
  ghost predicate PrintedFor(scope: Scope, route: Route, start: Command, stop: Command) {
    exists enter: string, daemon: string, control: string, config: string :: PrintedWith(scope, route, start, stop, enter, daemon, control, config)
  }

  ghost predicate PrintedWith(scope: Scope, route: Route, start: Command, stop: Command,
                              enter: string, daemon: string, control: string, config: string) {
    && SamePath(enter, route.launch.hostEnter) && SamePath(daemon, Daemon(route.launch.binaries))
    && SamePath(control, Control(route.launch.binaries)) && SamePath(config, Config(route, scope))
    && start == Plain(StartVector(scope, route.launch.name, enter, Working(route, scope), daemon, config))
    && stop == Plain(StopVector(scope, route.launch.name, enter, control))
  }

  lemma AcceptedUser(route: Route, start: Commands, stop: Commands)
    requires VerifyManaged(User, route, start, stop)
    ensures |start.data| == 1 && |stop.data| == 2 && start.signature == SIGNATURE && WaitMatches(stop.data[1])
    ensures PrintedFor(User, route, start.data[0], stop.data[0])
  {
    var argv := start.data[0].argv;
    hide SamePath, ValidConfig, AbsolutePath, WaitMatches, Daemon, Control;
    var plain := Unmanaged(User, argv).value;
    var pair := start.data[0].(argv := plain);
    assert PairMatches(pair, stop.data[0]);
    PairShape(pair, stop.data[0]);
    NotPlain(argv, Working(route, User), plain);
    UnmanagedShape(User, argv);
    assert plain[6] == argv[8] && plain[7..] == argv[11..];
    assert argv == argv[..6] + [argv[6], argv[7], argv[8], argv[9], argv[10]] + argv[11..];
    assert argv[..6] == plain[..6] == Host(route.launch.name, argv[2]);
    assert argv == StartVector(User, route.launch.name, argv[2], Working(route, User), argv[8], argv[10]);
    assert stop.data[0].argv == StopVector(User, route.launch.name, argv[2], stop.data[0].argv[6]);
    assert PrintedWith(User, route, start.data[0], stop.data[0], argv[2], argv[8], stop.data[0].argv[6], argv[10]);
  }

  lemma DirectoryIsNoOption(working: string)
    ensures CHDIR + working != "--service-invocation" && CHDIR + working != "--system"
  {
    assert (CHDIR + working)[2] == 'c';
    assert "--service-invocation"[2] == 's' && "--system"[2] == 's';
  }

  /** A vector with a working directory is not matched as it is. */
  lemma NotPlain(argv: seq<string>, working: string, plain: seq<string>)
    requires |argv| > 7 && argv[7] == CHDIR + working && Unmanaged(User, argv) == Some(plain)
    requires |plain| >= 7 && plain[7..] == START_ARGUMENTS
    ensures argv[6] == "/usr/bin/env"
  {
    DirectoryIsNoOption(working);
    assert plain[7] == plain[7..][0] == "--service-invocation";
    hide AbsolutePath, ValidConfig;
  }

  /** The start vector that the system recipe takes its options from. */
  lemma SystemStartShape(argv: seq<string>, name: string, enter: string, daemon: string)
    requires |argv| >= 12 && argv[9] == "--system" && argv[10] == "--config"
    requires argv[..6] + [argv[8]] + argv[12..] == Host(name, enter) + [daemon] + START_ARGUMENTS
    ensures argv == Host(name, enter) + [argv[6], argv[7], daemon, "--system", "--config", argv[11]] + START_ARGUMENTS
  {
    var drained := argv[..6] + [argv[8]] + argv[12..];
    assert argv[..6] == drained[..6] == Host(name, enter);
    assert argv[8] == drained[6] == daemon;
    assert argv[12..] == drained[7..] == START_ARGUMENTS;
    assert argv == argv[..6] + [argv[6], argv[7], argv[8], argv[9], argv[10], argv[11]] + argv[12..];
  }

  lemma SystemStopShape(stopped: seq<string>, name: string, enter: string, control: string)
    requires |stopped| >= 10 && stopped[8..10] == ["--scope", "system"]
    requires Drain(stopped, 8, 10) == Host(name, enter) + [control] + STOP_ARGUMENTS
    ensures stopped == StopVector(System, name, enter, control)
  {
    assert Drain(stopped, 8, 10)[..8] == stopped[..8] && Drain(stopped, 8, 10)[8..] == stopped[10..];
    assert stopped == stopped[..8] + stopped[8..10] + stopped[10..];
  }

  lemma SystemMatch(start: Commands, stop: Commands, name: string)
    requires MatchSystem(start, stop) == Ok(Some(name))
    ensures |start.data| == 1 && |stop.data| == 2 && start.signature == SIGNATURE && WaitMatches(stop.data[1])
    ensures |start.data[0].argv| >= 10 && start.data[0].argv[7] == "--system" && start.data[0].argv[8] == "--config"
    ensures |stop.data[0].argv| >= 10 && stop.data[0].argv[8..10] == ["--scope", "system"]
    ensures var first := start.data[0].(argv := Drain(start.data[0].argv, 7, 10));
            var second := stop.data[0].(argv := Drain(stop.data[0].argv, 8, 10));
            PairMatches(first, second) && first.argv[4] == name
  {
    hide PairMatches, WaitMatches;
    var first := start.data[0].(argv := Drain(start.data[0].argv, 7, 10));
    var second := stop.data[0].(argv := Drain(stop.data[0].argv, 8, 10));
    assert MatchCommands(start.(data := [first]), stop.(data := [second, stop.data[1]])) == Ok(Some(name));
    PairLengths(first, second);
  }

  lemma PairLengths(start: Command, stop: Command)
    ensures PairMatches(start, stop) ==> |start.argv| >= 7 && |stop.argv| >= 7
  {
  }

  /** The parts of a verified system pair. */
  lemma VerifiedSystem(route: Route, start: Commands, stop: Commands)
    requires VerifyManaged(System, route, start, stop)
    ensures |start.data| == 1 && |stop.data| > 0 && |start.data[0].argv| > 8
    ensures start.data[0].argv[7] == CHDIR + Working(route, System)
    ensures Unmanaged(System, start.data[0].argv).Some?
    ensures MatchSystem(start.(data := [start.data[0].(argv := Unmanaged(System, start.data[0].argv).value)]), stop) == Ok(Some(route.launch.name))
  {
    hide MatchSystem, SamePath, Unmanaged;
  }

  lemma ManagedSystem(argv: seq<string>, working: string)
    requires |argv| > 8 && argv[7] == CHDIR + working && Unmanaged(System, argv).Some?
    requires |Unmanaged(System, argv).value| > 7 && Unmanaged(System, argv).value[7] == "--system"
    ensures argv[6] == "/usr/bin/env" && Unmanaged(System, argv).value == argv[..6] + argv[8..]
  {
    DirectoryIsNoOption(working);
    hide AbsolutePath;
  }

  lemma DrainedSystem(argv: seq<string>)
    requires |argv| >= 12
    ensures var plain := argv[..6] + argv[8..];
            && Drain(plain, 7, 10) == argv[..6] + [argv[8]] + argv[12..]
            && plain[7] == argv[9] && plain[8] == argv[10]
  {
  }

  lemma AcceptedSystem(route: Route, start: Commands, stop: Commands)
    requires VerifyManaged(System, route, start, stop)
    ensures |start.data| == 1 && |stop.data| == 2 && start.signature == SIGNATURE && WaitMatches(stop.data[1])
    ensures PrintedFor(System, route, start.data[0], stop.data[0])
  {
    VerifiedSystem(route, start, stop);
    var argv := start.data[0].argv;
    var plain := Unmanaged(System, argv).value;
    var plained := start.(data := [start.data[0].(argv := plain)]);
    SystemMatch(plained, stop, route.launch.name);
    ManagedSystem(argv, Working(route, System));
    DrainedSystem(argv);
    var first := start.data[0].(argv := Drain(plain, 7, 10));
    var second := stop.data[0].(argv := Drain(stop.data[0].argv, 8, 10));
    assert plained.data[0].(argv := Drain(plain, 7, 10)) == first;
    SystemVectors(route, start, stop, first, second);
  }

  lemma SystemVectors(route: Route, start: Commands, stop: Commands, first: Command, second: Command)
    requires VerifyManaged(System, route, start, stop) && |start.data| == 1 && |stop.data| == 2
    requires var argv := start.data[0].argv;
             && |argv| >= 12 && argv[6] == "/usr/bin/env" && argv[9] == "--system" && argv[10] == "--config"
             && first == start.data[0].(argv := argv[..6] + [argv[8]] + argv[12..])
    requires |stop.data[0].argv| >= 10 && stop.data[0].argv[8..10] == ["--scope", "system"]
    requires second == stop.data[0].(argv := Drain(stop.data[0].argv, 8, 10))
    requires PairMatches(first, second) && first.argv[4] == route.launch.name
    ensures PrintedFor(System, route, start.data[0], stop.data[0])
  {
    var argv, stopped := start.data[0].argv, stop.data[0].argv;
    PairShape(first, second);
    assert first.argv[2] == argv[2] && first.argv[6] == argv[8] && second.argv[6] == stopped[6];
    assert argv[7] == CHDIR + Working(route, System);
    hide *;
    SystemStartShape(argv, route.launch.name, argv[2], argv[8]);
    SystemStopShape(stopped, route.launch.name, argv[2], stopped[6]);
    SystemStartVector(route.launch.name, argv[2], Working(route, System), argv[8], argv[11]);
    PlainParts(first, second);
    SystemPrinted(route, start, stop, argv[2], argv[8], stopped[6], argv[11]);
  }

  lemma PlainParts(start: Command, stop: Command)
    requires PairMatches(start, stop)
    ensures start.path == "/usr/bin/env" && stop.path == "/usr/bin/env" && start.flags == [] && stop.flags == []
  {
    hide ValidBoxName, FileName, Parent;
  }

  lemma SystemStartVector(name: string, enter: string, working: string, daemon: string, config: string)
    ensures Host(name, enter) + ["/usr/bin/env", CHDIR + working, daemon, "--system", "--config", config] + START_ARGUMENTS
            == StartVector(System, name, enter, working, daemon, config)
  {
  }

  lemma SystemPrinted(route: Route, start: Commands, stop: Commands, enter: string, daemon: string, control: string, config: string)
    requires VerifyManaged(System, route, start, stop) && |start.data| == 1 && |stop.data| == 2
    requires start.data[0].path == "/usr/bin/env" && stop.data[0].path == "/usr/bin/env"
    requires start.data[0].flags == [] && stop.data[0].flags == []
    requires start.data[0].argv == StartVector(System, route.launch.name, enter, Working(route, System), daemon, config)
    requires stop.data[0].argv == StopVector(System, route.launch.name, enter, control)
    ensures PrintedFor(System, route, start.data[0], stop.data[0])
  {
    VectorPaths(System, route.launch.name, enter, Working(route, System), daemon, control, config);
    hide SamePath, MatchScoped, StartVector, StopVector, Daemon, Control;
    assert PrintedWith(System, route, start.data[0], stop.data[0], enter, daemon, control, config);
  }

  /** Whatever is accepted as a managed deployment has exactly the printed vectors, with the same box and
      working directory, and paths that differ from the deployment's at most by normalisation. */
  lemma AcceptedIsPrinted(scope: Scope, route: Route, start: Commands, stop: Commands)
    requires VerifyManaged(scope, route, start, stop)
    ensures |start.data| == 1 && |stop.data| == 2 && start.signature == SIGNATURE && WaitMatches(stop.data[1])
    ensures PrintedFor(scope, route, start.data[0], stop.data[0])
  {
    if scope.User? {
      AcceptedUser(route, start, stop);
    } else {
      AcceptedSystem(route, start, stop);
    }
  }

  // Whatever is recognised was printed.

  lemma WaitIsWait(wait: Command)
    requires WaitMatches(wait)
    ensures wait == WaitCommand()
  {
    hide Doubled;
  }

  /** The vectors of a matched plain pair. */
  lemma PairIsPlain(start: Command, stop: Command, name: string)
    requires PairMatches(start, stop) && start.argv[4] == name
    ensures |start.argv| == 9 && |stop.argv| == 10
    ensures start == Plain(Host(name, start.argv[2]) + [start.argv[6]] + START_ARGUMENTS)
    ensures stop == Plain(Host(name, start.argv[2]) + [stop.argv[6]] + STOP_ARGUMENTS)
    ensures PlainPair(name, start.argv[2], start.argv[6], stop.argv[6])
  {
    PairShape(start, stop);
    PlainPairMatches(name, start.argv[2], start.argv[6], stop.argv[6]);
    hide PairMatches, PlainPair;
    assert |start.argv| == |Host(name, start.argv[2])| + 1 + |START_ARGUMENTS|;
  }

  /** A pair of commands is matched only as the two printed vectors with the wait command, under the
      expected signature. */
  lemma MatchedCommands(start: Commands, stop: Commands)
    ensures MatchCommands(start, stop).Err? <==> start.signature != "a(sasasttttuii)" || stop.signature != "a(sasasttttuii)"
    ensures MatchCommands(start, stop).Ok? && MatchCommands(start, stop).value.Some? ==>
              && |start.data| == 1 && |stop.data| == 2 && stop.data[1] == WaitCommand()
              && PairMatches(start.data[0], stop.data[0]) && start.data[0].argv[4] == MatchCommands(start, stop).value.value
  {
    hide PairMatches, WaitMatches, WaitCommand;
    if |stop.data| == 2 && WaitMatches(stop.data[1]) {
      WaitIsWait(stop.data[1]);
    }
    if |start.data| == 1 && |stop.data| == 2 {
      PairLengths(start.data[0], stop.data[0]);
    }
  }

  /** In user mode, whatever is recognised as a box has exactly the vectors of its session unit, or of a
      managed unit with an acceptable working directory and configuration. */
  lemma RecognisedUser(start: Commands, stop: Commands, name: string)
    requires MatchScoped(User, start, stop) == Ok(Some(name))
    ensures start.signature == "a(sasasttttuii)" && stop.signature == "a(sasasttttuii)"
    ensures |start.data| == 1 && |stop.data| == 2 && stop.data[1] == WaitCommand()
    ensures var argv, stopped := start.data[0].argv, stop.data[0].argv;
            && |argv| >= 9 && |stopped| == 10
            && stop.data[0] == Plain(StopVector(User, name, argv[2], stopped[6]))
            && if argv[6] != "/usr/bin/env" then
                 && start.data[0] == Plain(Host(name, argv[2]) + [argv[6]] + START_ARGUMENTS)
                 && PlainPair(name, argv[2], argv[6], stopped[6])
               else
                 && |argv| == 13 && CHDIR <= argv[7] && AbsolutePath(argv[7][|CHDIR|..]) && ValidConfig(argv[10])
                 && start.data[0] == Plain(StartVector(User, name, argv[2], argv[7][|CHDIR|..], argv[8], argv[10]))
                 && PlainPair(name, argv[2], argv[8], stopped[6])
  {
    var argv := start.data[0].argv;
    hide PairMatches, PlainPair, AbsolutePath, ValidConfig, WaitCommand, MatchCommands;
    var plain := Unmanaged(User, argv).value;
    var pair := start.data[0].(argv := plain);
    MatchedCommands(start.(data := [pair]), stop);
    PairLengths(pair, stop.data[0]);
    PairIsPlain(pair, stop.data[0], name);
    StopIsPlain(name, plain[2], stop.data[0].argv[6]);
    if |argv| > 6 && argv[6] == "/usr/bin/env" {
      UnmanagedShape(User, argv);
      hide Unmanaged;
      UserVector(name, argv, plain);
    }
  }

  lemma StopIsPlain(name: string, enter: string, control: string)
    ensures StopVector(User, name, enter, control) == Host(name, enter) + [control] + STOP_ARGUMENTS
  {
  }

  lemma UserVector(name: string, argv: seq<string>, plain: seq<string>)
    requires |argv| >= 11 && argv[6] == "/usr/bin/env" && CHDIR <= argv[7] && argv[9] == "--config"
    requires plain == argv[..6] + argv[8..9] + argv[11..] && |plain| == 9
    requires plain == Host(name, plain[2]) + [plain[6]] + START_ARGUMENTS
    ensures |argv| == 13 && plain[2] == argv[2] && plain[6] == argv[8]
    ensures argv == StartVector(User, name, argv[2], argv[7][|CHDIR|..], argv[8], argv[10])
  {
    assert plain[..6] == argv[..6] && plain[7..] == argv[11..];
    assert plain[..6] == Host(name, plain[2]) && plain[7..] == START_ARGUMENTS;
    assert argv[7] == CHDIR + argv[7][|CHDIR|..];
    assert argv == argv[..6] + [argv[6], argv[7], argv[8], argv[9], argv[10]] + argv[11..];
  }

  /** In system mode, whatever is recognised as a box has exactly the vectors of its system unit, or of a
      managed unit with an acceptable working directory; the configuration is an absolute path. */
  lemma RecognisedSystem(start: Commands, stop: Commands, name: string)
    requires MatchScoped(System, start, stop) == Ok(Some(name))
    ensures start.signature == "a(sasasttttuii)" && stop.signature == "a(sasasttttuii)"
    ensures |start.data| == 1 && |stop.data| == 2 && stop.data[1] == WaitCommand()
    ensures var argv, stopped := start.data[0].argv, stop.data[0].argv;
            && |argv| >= 12 && |stopped| == 12
            && stop.data[0] == Plain(StopVector(System, name, argv[2], stopped[6]))
            && if argv[6] != "/usr/bin/env" then
                 && IsAbsolute(argv[9]) && PlainPair(name, argv[2], argv[6], stopped[6])
                 && start.data[0] == Plain(Host(name, argv[2]) + [argv[6], "--system", "--config", argv[9]] + START_ARGUMENTS)
               else
                 && |argv| == 14 && CHDIR <= argv[7] && AbsolutePath(argv[7][|CHDIR|..]) && IsAbsolute(argv[11])
                 && PlainPair(name, argv[2], argv[8], stopped[6])
                 && start.data[0] == Plain(StartVector(System, name, argv[2], argv[7][|CHDIR|..], argv[8], argv[11]))
  {
    var argv := start.data[0].argv;
    hide PairMatches, PlainPair, AbsolutePath, WaitCommand, WaitMatches, MatchSystem;
    var plain := Unmanaged(System, argv).value;
    var plained := start.(data := [start.data[0].(argv := plain)]);
    SystemMatch(plained, stop, name);
    SystemConfig(plained, stop, name);
    WaitIsWait(stop.data[1]);
    var first := plained.data[0].(argv := Drain(plain, 7, 10));
    var second := stop.data[0].(argv := Drain(stop.data[0].argv, 8, 10));
    PairIsPlain(first, second, name);
    SystemStopShape(stop.data[0].argv, name, first.argv[2], second.argv[6]);
    SystemPlainShape(plain, name);
    if argv[6] == "/usr/bin/env" {
      UnmanagedShape(System, argv);
      hide Unmanaged;
      SystemArgv(name, argv, plain);
    }
  }

  lemma SystemConfig(start: Commands, stop: Commands, name: string)
    requires MatchSystem(start, stop) == Ok(Some(name))
    ensures |start.data| == 1 && |start.data[0].argv| >= 10 && IsAbsolute(start.data[0].argv[9]) && stop.signature == "a(sasasttttuii)"
  {
    var first := start.data[0].(argv := Drain(start.data[0].argv, 7, 10));
    var second := stop.data[0].(argv := Drain(stop.data[0].argv, 8, 10));
    MatchedCommands(start.(data := [first]), stop.(data := [second, stop.data[1]]));
    hide MatchCommands;
  }

  lemma SystemPlainShape(plain: seq<string>, name: string)
    requires |plain| >= 10 && plain[7] == "--system" && plain[8] == "--config"
    requires var drained := Drain(plain, 7, 10);
             |drained| == 9 && drained == Host(name, drained[2]) + [drained[6]] + START_ARGUMENTS
    ensures |plain| == 12 && Drain(plain, 7, 10)[2] == plain[2] && Drain(plain, 7, 10)[6] == plain[6]
    ensures plain == Host(name, plain[2]) + [plain[6], "--system", "--config", plain[9]] + START_ARGUMENTS
  {
    var drained := Drain(plain, 7, 10);
    assert drained[..7] == plain[..7] && drained[7..] == plain[10..];
    assert drained[..7] == Host(name, drained[2]) + [drained[6]] && drained[7..] == START_ARGUMENTS;
    assert plain == plain[..7] + [plain[7], plain[8], plain[9]] + plain[10..];
  }

  lemma SystemArgv(name: string, argv: seq<string>, plain: seq<string>)
    requires |argv| > 8 && argv[6] == "/usr/bin/env" && CHDIR <= argv[7] && plain == argv[..6] + argv[8..] && |plain| == 12
    requires plain == Host(name, plain[2]) + [plain[6], "--system", "--config", plain[9]] + START_ARGUMENTS
    ensures |argv| == 14 && plain[2] == argv[2] && plain[6] == argv[8] && plain[9] == argv[11]
    ensures argv == StartVector(System, name, argv[2], argv[7][|CHDIR|..], argv[8], argv[11])
  {
    assert plain[..6] == argv[..6] && plain[6..] == argv[8..];
    assert plain[..6] == Host(name, plain[2]) && plain[6..] == [plain[6], "--system", "--config", plain[9]] + START_ARGUMENTS;
    assert argv[7] == CHDIR + argv[7][|CHDIR|..];
    assert argv == argv[..6] + [argv[6], argv[7]] + argv[8..];
    SystemStartVector(name, argv[2], argv[7][|CHDIR|..], argv[8], argv[11]);
  }

  // Which deployments get a unit.

  /** Components are names: not empty, no single dot, and without slashes. */
  lemma {:induction false} ComponentsAreNames(path: string)
    ensures forall i | 0 <= i < |Components(path)| ::
              Components(path)[i] != "" && Components(path)[i] != "." && '/' !in Components(path)[i]
    decreases |path|
  {
    if path != [] {
      var first, rest := CutPath(path, "");
      SplitComponents(first, rest);
      if rest != [] {
        ComponentsAreNames(rest[1..]);
      }
      hide Components;
    }
  }

  lemma NameIsComponent(name: string)
    requires name != "" && name != "." && '/' !in name
    ensures Components(name) == [name]
  {
    assert name + "" == name;
    SplitComponents(name, "");
  }

  /** A configuration is an absolute path of at most 4096 characters without parent components, whose
      last component has at most 255 characters and is none of the names that are reserved beside it. */
  lemma ConfigExactly(path: string)
    ensures ValidConfig(path) <==>
              && "/" <= path && |path| <= 4096 && Components(path) != [] && ".." !in Components(path)
              && var name := Components(path)[|Components(path)| - 1];
              |name| <= 255 && '\0' !in name && name !in {"lcd_templates.json", "rgb_presets.json", "profiles"}
  {
    ComponentsAreNames(path);
    hide Components;
    if Components(path) != [] {
      NameIsComponent(Components(path)[|Components(path)| - 1]);
    }
  }

  lemma BoxNamesAre(name: string)
    ensures ValidBoxName(name) <==>
              && 1 <= |name| <= 255 && IsAlphanumeric(name[0])
              && forall i | 0 <= i < |name| :: IsAlphanumeric(name[i]) || name[i] in {'_', '.', '-', ' '}
  {
  }

  /** Quoted arguments of a deployment. */
  predicate Printable(value: string, room: nat) {
    |value| + room <= 4096 && forall i | 0 <= i < |value| :: value[i] as int >= 32 && (value[i] as int < 127 || value[i] as int > 159)
  }

  lemma PrefixQuotable(prefix: string, value: string)
    requires Quotable(prefix)
    ensures Quotable(prefix + value) <==> Printable(value, |prefix|)
  {
    QuotableExactly(prefix);
    QuotableExactly(prefix + value);
    var whole := prefix + value;
    hide Quotable;
    assert forall i | 0 <= i < |value| :: whole[|prefix| + i] == value[i];
    assert forall i | 0 <= i < |prefix| :: whole[i] == prefix[i];
    assert forall i | |prefix| <= i < |whole| :: whole[i] == value[i - |prefix|];
  }

  lemma JoinQuotable(path: string, name: string)
    requires path != "" && Quotable(name)
    ensures Quotable(Join(path, name)) <==> Printable(path, |Join(path, name)| - |path|)
  {
    var whole := Join(path, name);
    QuotableExactly(name);
    QuotableExactly(whole);
    hide Quotable;
    assert |whole| >= |path| && whole[..|path|] == path;
    var cut := |whole| - |name|;
    assert whole[cut..] == name && (cut == |path| || (cut == |path| + 1 && whole[|path|] == '/'));
    assert forall i | 0 <= i < |path| :: whole[i] == path[i];
    assert forall i | cut <= i < |whole| :: whole[i] == name[i - cut];
    assert forall i | 0 <= i < |whole| :: i < |path| || (i == |path| && whole[i] == '/') || i >= cut;
  }

  lemma BoxNamesArePrintable(name: string)
    requires ValidBoxName(name)
    ensures Quotable(name)
  {
    assert forall i | 0 <= i < |name| :: IsNameChar(name[i]) && !IsControl(name[i]);
  }

  /** The host's executable and the binary directory of the box, as every unit needs them. */
  ghost predicate LaunchPaths(hostEnter: string, binaries: string) {
    && "/" <= hostEnter && '$' !in hostEnter && Printable(hostEnter, 0)
    && Components(hostEnter) != [] && Components(hostEnter)[|Components(hostEnter)| - 1] == "distrobox-enter"
    && "/" <= binaries && Printable(binaries, |Join(binaries, "lianli-control")| - |binaries|)
  }

  lemma PrefixExactly(name: string, hostEnter: string, binaries: string)
    ensures ValidPrefix(name, hostEnter, binaries) && Quotable(Daemon(binaries)) && Quotable(Control(binaries))
            <==> ValidBoxName(name) && LaunchPaths(hostEnter, binaries)
  {
    if ValidBoxName(name) {
      BoxNamesArePrintable(name);
    }
    QuotableExactly(hostEnter);
    BinaryNames();
    hide Quotable, ValidBoxName, Components, IsControl;
    if IsAbsolute(binaries) {
      JoinQuotable(binaries, "lianli-daemon");
      JoinQuotable(binaries, "lianli-control");
      assert |Join(binaries, "lianli-control")| == |Join(binaries, "lianli-daemon")| + 1;
    }
    assert FileName(hostEnter) == Some("distrobox-enter") <==>
      Components(hostEnter) != [] && Components(hostEnter)[|Components(hostEnter)| - 1] == "distrobox-enter" by {
      assert "distrobox-enter"[0] == 'd' && ".."[0] == '.';
    }
  }

  lemma BinaryNames()
    ensures Quotable("lianli-daemon") && Quotable("lianli-control")
    ensures |"lianli-control"| == |"lianli-daemon"| + 1
  {
  }

  /** The units without a route exist exactly for an existing kind of box name, an absolute path to
      distrobox-enter without dollar signs, and absolute paths that can be printed; the system unit needs
      an unprivileged account as well. */
  lemma GeneratedExactly(name: string, hostEnter: string, binaries: string, uid: nat, config: string)
    ensures Generate(name, hostEnter, binaries).Some? <==> ValidBoxName(name) && LaunchPaths(hostEnter, binaries)
    ensures GenerateSystem(name, hostEnter, binaries, uid, config).Some? <==>
              ValidBoxName(name) && LaunchPaths(hostEnter, binaries) && uid > 0 && "/" <= config && Printable(config, 0)
  {
    PrefixExactly(name, hostEnter, binaries);
    QuotableExactly(config);
    hide ValidPrefix, ValidBoxName, LaunchPaths, Quotable, Daemon, Control;
  }

  ghost predicate Plainly(path: string) {
    "/" <= path && |path| <= 4096 && ".." !in Components(path)
  }

  lemma RouteExactly(route: Route)
    ensures ValidRoute(route) <==>
              && ValidBoxName(route.launch.name) && FileName(route.launch.hostEnter) == Some("distrobox-enter")
              && Plainly(route.launch.hostEnter) && Plainly(route.launch.binaries)
              && Plainly(route.userWorking) && Plainly(route.systemWorking)
              && ValidConfig(route.userConfig) && ValidConfig(route.systemConfig)
              && Components(route.userConfig)[..|Components(route.userConfig)| - 1]
                 != Components(route.systemConfig)[..|Components(route.systemConfig)| - 1]
  {
    ConfigExactly(route.userConfig);
    ConfigExactly(route.systemConfig);
    hide ValidBoxName, Components, ValidConfig, FileName;
  }

  /** A managed unit exists exactly for such a box whose paths have no parent components, an unprivileged
      account, two configurations in different directories, and two working directories; those of its own
      mode must be printable. */
  lemma ManagedExactly(route: Route, scope: Scope, uid: nat)
    ensures GenerateManaged(route, scope, uid).Some? <==>
              && uid > 0 && ValidBoxName(route.launch.name) && LaunchPaths(route.launch.hostEnter, route.launch.binaries)
              && Plainly(route.launch.hostEnter) && Plainly(route.launch.binaries)
              && Plainly(route.userWorking) && Plainly(route.systemWorking)
              && ValidConfig(route.userConfig) && ValidConfig(route.systemConfig)
              && Components(route.userConfig)[..|Components(route.userConfig)| - 1]
                 != Components(route.systemConfig)[..|Components(route.systemConfig)| - 1]
              && Printable(if scope.User? then route.userWorking else route.systemWorking, |"--chdir="|)
              && Printable(if scope.User? then route.userConfig else route.systemConfig, 0)
  {
    PrefixExactly(route.launch.name, route.launch.hostEnter, route.launch.binaries);
    ChdirQuotable();
    PrefixQuotable("--chdir=", Working(route, scope));
    QuotableExactly(Config(route, scope));
    ConfigExactly(route.userConfig);
    ConfigExactly(route.systemConfig);
    ConfigNotEmpty(route, scope);
    EnterName(route.launch.hostEnter, route.launch.binaries);
    RouteExactly(route);
    hide ValidPrefix, ValidRoute, ValidBoxName, LaunchPaths, Quotable, Daemon, Control, Components, ValidConfig, Printable, FileName, Plainly,
         ManagedStart, ManagedStop, SystemDependencies, SystemAccount;
  }

  lemma ConfigNotEmpty(route: Route, scope: Scope)
    ensures ValidConfig(Config(route, scope)) ==> (Quotable(Config(route, scope)) <==> Printable(Config(route, scope), 0))
    ensures ValidConfig(route.userConfig) && ValidConfig(route.systemConfig) ==> ValidConfig(Config(route, scope))
  {
    QuotableExactly(Config(route, scope));
    hide FileName, ValidConfigName, Quotable;
  }

  lemma EnterName(hostEnter: string, binaries: string)
    ensures LaunchPaths(hostEnter, binaries) ==> FileName(hostEnter) == Some("distrobox-enter")
  {
    hide Components, Printable;
    assert "distrobox-enter"[0] == 'd' && ".."[0] == '.';
  }

  lemma ChdirQuotable()
    ensures Quotable("--chdir=")
  {
  }

  /** The managed unit of a mode runs the daemon in the working directory and with the configuration of
      that mode, and stops it with the control program, inside the box and under its own invocation. */
  lemma ManagedCommandsAre(route: Route, scope: Scope, uid: nat)
    requires GenerateManaged(route, scope, uid).Some?
    ensures var u := GenerateManaged(route, scope, uid).value;
            var name, enter := route.launch.name, route.launch.hostEnter;
            var daemon, control := Dollars(Join(route.launch.binaries, "lianli-daemon")), Dollars(Join(route.launch.binaries, "lianli-control"));
            && u.start != [] && u.stop != []
            && StartCommands(u) == Commands("a(sasasttttuii)", [Command("/usr/bin/env",
                 if scope.User? then
                   ["/usr/bin/env", "--unset=INVOCATION_ID", enter, "--name", name, "--", "/usr/bin/env", "--chdir=" + Dollars(route.userWorking),
                    daemon, "--config", Dollars(route.userConfig), "--service-invocation", "${INVOCATION_ID}"]
                 else
                   ["/usr/bin/env", "--unset=INVOCATION_ID", enter, "--name", name, "--", "/usr/bin/env", "--chdir=" + Dollars(route.systemWorking),
                    daemon, "--system", "--config", Dollars(route.systemConfig), "--service-invocation", "${INVOCATION_ID}"], [])])
            && StopCommands(u) == Commands("a(sasasttttuii)", [Command("/usr/bin/env",
                 if scope.User? then
                   ["/usr/bin/env", "--unset=INVOCATION_ID", enter, "--name", name, "--",
                    control, "stop-service", "--invocation-id", "${INVOCATION_ID}"]
                 else
                   ["/usr/bin/env", "--unset=INVOCATION_ID", enter, "--name", name, "--",
                    control, "stop-service", "--scope", "system", "--invocation-id", "${INVOCATION_ID}"], []), WaitCommand()])
  {
    GeneratedFacts(route, scope, uid);
    BoxNameHasNoDollar(route.launch.name);
    ManagedPair(route, scope, uid);
    var working, config := Dollars(Working(route, scope)), Dollars(Config(route, scope));
    var daemon, control := Dollars(Daemon(route.launch.binaries)), Dollars(Control(route.launch.binaries));
    hide Doubled, WaitCommand, Reported, GenerateManaged, Join, StartCommands, StopCommands, StartVector, StopVector;
    ManagedVectors(scope, route.launch.name, route.launch.hostEnter, working, daemon, control, config);
  }

  lemma ManagedVectors(scope: Scope, name: string, enter: string, working: string, daemon: string, control: string, config: string)
    ensures StartVector(scope, name, enter, working, daemon, config) ==
            if scope.User? then
              ["/usr/bin/env", "--unset=INVOCATION_ID", enter, "--name", name, "--", "/usr/bin/env", "--chdir=" + working,
               daemon, "--config", config, "--service-invocation", "${INVOCATION_ID}"]
            else
              ["/usr/bin/env", "--unset=INVOCATION_ID", enter, "--name", name, "--", "/usr/bin/env", "--chdir=" + working,
               daemon, "--system", "--config", config, "--service-invocation", "${INVOCATION_ID}"]
    ensures StopVector(scope, name, enter, control) ==
            if scope.User? then
              ["/usr/bin/env", "--unset=INVOCATION_ID", enter, "--name", name, "--",
               control, "stop-service", "--invocation-id", "${INVOCATION_ID}"]
            else
              ["/usr/bin/env", "--unset=INVOCATION_ID", enter, "--name", name, "--",
               control, "stop-service", "--scope", "system", "--invocation-id", "${INVOCATION_ID}"]
  {
  }
}
