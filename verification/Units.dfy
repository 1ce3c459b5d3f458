/** The service units printed for a Distrobox deployment. */
module Units {
  import opened Modes
  import opened Names
  import opened PathWalk
  import opened UnitText

  const WAIT_SCRIPT :=
    "test -z \"$1\" || exec " + "/usr/bin/timeout 5s " + "/usr/bin/tail --pid=\"$1\" " + "--sleep-interval=0.1 " + "-f /dev/null"

  // Paths.

  function FileName(path: string): Option<string> {
    var parts := Components(path);
    if parts == [] || parts[|parts| - 1] == ".." then None else Some(parts[|parts| - 1])
  }

  function Parent(path: string): seq<string> {
    var parts := Components(path);
    if parts == [] then [] else parts[..|parts| - 1]
  }

  /** Two absolute paths are the same when their components are. */
  predicate SamePath(a: string, b: string) {
    IsAbsolute(a) == IsAbsolute(b) && Components(a) == Components(b)
  }

  function Join(path: string, name: string): string {
    if path != [] && path[|path| - 1] == '/' then path + name else path + "/" + name
  }

  /** Absolute, of at most 4096 bytes, and without parent components. */
  predicate AbsolutePath(path: string) {
    IsAbsolute(path) && |path| <= 4096 && ".." !in Components(path)
  }

  predicate ValidConfigName(name: string) {
    && Components(name) == [name] && name != ".." && |name| <= 255 && '\0' !in name
    && name != "lcd_templates.json" && name != "rgb_presets.json" && name != "profiles"
  }

  predicate ValidConfig(path: string) {
    AbsolutePath(path) && FileName(path).Some? && ValidConfigName(FileName(path).value)
  }

  // Inputs.

  predicate IsNameChar(c: char) {
    IsAlphanumeric(c) || c == '_' || c == '.' || c == '-' || c == ' '
  }

  predicate ValidBoxName(name: string) {
    0 < |name| <= 255 && IsAlphanumeric(name[0]) && forall i | 0 <= i < |name| :: IsNameChar(name[i])
  }

  datatype Launch = Launch(name: string, hostEnter: string, binaries: string)

  datatype Route = Route(launch: Launch, userConfig: string, systemConfig: string, userWorking: string, systemWorking: string)

  predicate ValidLaunch(launch: Launch) {
    && ValidBoxName(launch.name) && AbsolutePath(launch.hostEnter) && AbsolutePath(launch.binaries)
    && FileName(launch.hostEnter) == Some("distrobox-enter")
  }

  predicate ValidRoute(route: Route) {
    && ValidLaunch(route.launch) && ValidConfig(route.userConfig) && ValidConfig(route.systemConfig)
    && AbsolutePath(route.userWorking) && AbsolutePath(route.systemWorking)
    && Parent(route.userConfig) != Parent(route.systemConfig)
  }

  function Config(route: Route, scope: Scope): string {
    if scope.User? then route.userConfig else route.systemConfig
  }

  function Working(route: Route, scope: Scope): string {
    if scope.User? then route.userWorking else route.systemWorking
  }

  // Commands.

  const INVOCATION := Bare("${INVOCATION_ID}")

  function Prefix(name: string, hostEnter: string): seq<Item> {
    [Bare("/usr/bin/env"), Bare("--unset=INVOCATION_ID"), Quoted(hostEnter), Bare("--name"), Quoted(name), Bare("--")]
  }

  const WAIT: seq<Item> := [Bare("/usr/bin/sh"), Bare("-c"), Quoted(WAIT_SCRIPT), Bare("--"), Variable("MAINPID")]

  /** What every printed command line demands of the box and the host executable. */
  predicate ValidPrefix(name: string, hostEnter: string, binaries: string) {
    && ValidBoxName(name) && IsAbsolute(hostEnter) && FileName(hostEnter) == Some("distrobox-enter")
    && IsAbsolute(binaries) && '$' !in hostEnter && Quotable(hostEnter) && Quotable(name)
  }

  function Daemon(binaries: string): string {
    Join(binaries, "lianli-daemon")
  }

  function Control(binaries: string): string {
    Join(binaries, "lianli-control")
  }

  function DaemonStart(binaries: string, options: seq<Item>): seq<Item> {
    [Quoted(Daemon(binaries))] + options + [Bare("--service-invocation"), INVOCATION]
  }

  function DaemonStop(binaries: string, options: seq<Item>): seq<Item> {
    [Quoted(Control(binaries)), Bare("stop-service")] + options + [Bare("--invocation-id"), INVOCATION]
  }

  function SystemStart(config: string): seq<Item> {
    [Bare("--system"), Bare("--config"), Quoted(config)]
  }

  function ManagedOptions(route: Route, scope: Scope): seq<Item> {
    (if scope.System? then [Bare("--system")] else []) + [Bare("--config"), Quoted(Config(route, scope))]
  }

  function StopScope(scope: Scope): seq<Item> {
    if scope.System? then [Bare("--scope"), Bare("system")] else []
  }

  function ChangeDirectory(route: Route, scope: Scope): string {
    "--chdir=" + Working(route, scope)
  }

  function ManagedStart(route: Route, scope: Scope): seq<Item> {
    Prefix(route.launch.name, route.launch.hostEnter)
    + [Bare("/usr/bin/env"), Quoted(ChangeDirectory(route, scope))]
    + DaemonStart(route.launch.binaries, ManagedOptions(route, scope))
  }

  function ManagedStop(route: Route, scope: Scope): seq<Item> {
    Prefix(route.launch.name, route.launch.hostEnter) + DaemonStop(route.launch.binaries, StopScope(scope))
  }

  // Units.

  datatype Unit = Unit(
    description: string,
    dependencies: seq<string>,
    account: seq<string>,
    start: seq<Item>,
    stop: seq<Item>,
    restart: string,
    timeout: string,
    target: string)

  function Lines(u: Unit): seq<string> {
    ["[Unit]", "Description=Lian Li Linux " + u.description] + u.dependencies + ["", "[Service]"] + u.account
    + ["ExecStart=" + PrintAll(u.start), "ExecStop=" + PrintAll(u.stop), "ExecStop=" + PrintAll(WAIT)]
    + ["Restart=" + u.restart, "RestartSec=5s", "KillMode=control-group", "SendSIGKILL=no", "TimeoutStopSec=" + u.timeout]
    + ["", "[Install]", "WantedBy=" + u.target]
  }

  function Text(lines: seq<string>): string {
    if lines == [] then [] else lines[0] + "\n" + Text(lines[1..])
  }

  function Digits(n: nat): string {
    (if n < 10 then [] else Digits(n / 10)) + [('0' as int + n % 10) as char]
  }

  function SystemDependencies(uid: nat): seq<string> {
    ["Requires=user@" + Digits(uid) + ".service", "After=user@" + Digits(uid) + ".service"]
  }

  function BusAddress(uid: string): string {
    "Environment=DBUS_SESSION_BUS_ADDRESS=" + "unix:path=/run/user/" + uid + "/bus"
  }

  function SystemAccount(uid: nat): seq<string> {
    ["User=" + Digits(uid), "Environment=XDG_RUNTIME_DIR=/run/user/" + Digits(uid),
     BusAddress(Digits(uid)),
     "RuntimeDirectory=lianli", "RuntimeDirectoryMode=0755"]
  }

  function Generate(name: string, hostEnter: string, binaries: string): Option<Unit> {
    if !ValidPrefix(name, hostEnter, binaries) || !Quotable(Daemon(binaries)) || !Quotable(Control(binaries)) then None
    else Some(Unit("Daemon (Distrobox)", ["After=graphical-session.target"], [],
                   Prefix(name, hostEnter) + DaemonStart(binaries, []), Prefix(name, hostEnter) + DaemonStop(binaries, []),
                   "on-failure", "120s", "default.target"))
  }

  function GenerateManaged(route: Route, scope: Scope, uid: nat): Option<Unit> {
    if !ValidRoute(route) || uid == 0
       || !ValidPrefix(route.launch.name, route.launch.hostEnter, route.launch.binaries)
       || !Quotable(ChangeDirectory(route, scope)) || !Quotable(Daemon(route.launch.binaries))
       || !Quotable(Control(route.launch.binaries)) || !Quotable(Config(route, scope)) then None
    else Some(Unit("Daemon (managed Distrobox)",
                   if scope.User? then ["After=graphical-session.target"] else SystemDependencies(uid),
                   if scope.User? then [] else SystemAccount(uid),
                   ManagedStart(route, scope), ManagedStop(route, scope), "on-failure", "120s",
                   if scope.User? then "default.target" else "multi-user.target"))
  }

  function GenerateSystem(name: string, hostEnter: string, binaries: string, uid: nat, config: string): Option<Unit> {
    if uid == 0 || !IsAbsolute(config) || !Quotable(config) || !ValidPrefix(name, hostEnter, binaries)
       || !Quotable(Daemon(binaries)) || !Quotable(Control(binaries)) then None
    else Some(Unit("Daemon (Distrobox system mode)", SystemDependencies(uid), SystemAccount(uid),
                   Prefix(name, hostEnter) + DaemonStart(binaries, SystemStart(config)),
                   Prefix(name, hostEnter) + DaemonStop(binaries, StopScope(System)),
                   "on-failure", "120s", "multi-user.target"))
  }

  // Every printed command is readable.

  ghost predicate Valid(items: seq<Item>) {
    forall i | 0 <= i < |items| :: ValidItem(items[i])
  }

  lemma ValidAppend(a: seq<Item>, b: seq<Item>)
    requires Valid(a) && Valid(b)
    ensures Valid(a + b)
  {
  }

  lemma PrefixWords()
    ensures PlainWord("/usr/bin/env") && PlainWord("--unset=INVOCATION_ID") && PlainWord("--name") && PlainWord("--")
  {
  }

  lemma OptionWords()
    ensures PlainWord("--service-invocation") && PlainWord("--invocation-id") && PlainWord("stop-service")
    ensures PlainWord("${INVOCATION_ID}")
  {
  }

  lemma ScopeWords()
    ensures PlainWord("--system") && PlainWord("--config") && PlainWord("--scope") && PlainWord("system")
  {
  }

  predicate NoControl(s: string) {
    forall i | 0 <= i < |s| :: !IsControl(s[i])
  }

  lemma WaitIsValid()
    ensures Valid(WAIT)
  {
    assert PlainWord("/usr/bin/sh") && PlainWord("-c") && PlainWord("--") && PlainWord("MAINPID");
    ScriptIsQuotable();
  }

  lemma ScriptIsQuotable()
    ensures Quotable(WAIT_SCRIPT)
  {
    assert NoControl("test -z \"$1\" || exec ");
    assert NoControl("/usr/bin/timeout 5s ");
    assert NoControl("/usr/bin/tail --pid=\"$1\" ");
    assert NoControl("--sleep-interval=0.1 ");
    assert NoControl("-f /dev/null");
  }

  lemma PrefixIsValid(name: string, hostEnter: string, binaries: string)
    requires ValidPrefix(name, hostEnter, binaries)
    ensures Valid(Prefix(name, hostEnter))
  {
    PrefixWords();
    hide PlainWord, Quotable;
  }

  lemma StartIsValid(binaries: string, options: seq<Item>)
    requires Quotable(Daemon(binaries)) && Valid(options)
    ensures Valid(DaemonStart(binaries, options))
  {
    OptionWords();
    hide PlainWord, Quotable;
    ValidAppend([Quoted(Daemon(binaries))], options);
    ValidAppend([Quoted(Daemon(binaries))] + options, [Bare("--service-invocation"), INVOCATION]);
  }

  lemma StopIsValid(binaries: string, options: seq<Item>)
    requires Quotable(Control(binaries)) && Valid(options)
    ensures Valid(DaemonStop(binaries, options))
  {
    OptionWords();
    hide PlainWord, Quotable;
    ValidAppend([Quoted(Control(binaries)), Bare("stop-service")], options);
    ValidAppend([Quoted(Control(binaries)), Bare("stop-service")] + options, [Bare("--invocation-id"), INVOCATION]);
  }

  lemma ScopesAreValid(config: string)
    requires Quotable(config)
    ensures Valid(SystemStart(config)) && Valid(StopScope(System)) && Valid(StopScope(User)) && Valid([])
    ensures Valid([Bare("--config"), Quoted(config)])
  {
    ScopeWords();
    hide PlainWord, Quotable;
  }

  lemma ManagedIsValid(route: Route, scope: Scope, uid: nat)
    requires GenerateManaged(route, scope, uid).Some?
    ensures Valid(ManagedStart(route, scope)) && Valid(ManagedStop(route, scope))
  {
    ScopesAreValid(Config(route, scope));
    PrefixWords();
    hide PlainWord, Quotable, ValidRoute;
    PrefixIsValid(route.launch.name, route.launch.hostEnter, route.launch.binaries);
    assert Valid(ManagedOptions(route, scope)) by {
      if scope.System? { assert ManagedOptions(route, scope) == SystemStart(Config(route, scope)); }
      else { assert ManagedOptions(route, scope) == [Bare("--config"), Quoted(Config(route, scope))]; }
    }
    StartIsValid(route.launch.binaries, ManagedOptions(route, scope));
    StopIsValid(route.launch.binaries, StopScope(scope));
    var prefix := Prefix(route.launch.name, route.launch.hostEnter);
    var guest := [Bare("/usr/bin/env"), Quoted(ChangeDirectory(route, scope))];
    ValidAppend(prefix, guest);
    ValidAppend(prefix + guest, DaemonStart(route.launch.binaries, ManagedOptions(route, scope)));
    ValidAppend(prefix, DaemonStop(route.launch.binaries, StopScope(scope)));
  }

  // Every printed unit has one start line and two stop lines.

  function SplitLines(text: string): seq<string> {
    if text == [] then [] else
    var k := Newline(text);
    if k == |text| then [text] else [text[..k]] + SplitLines(text[k + 1..])
  }

  function Newline(text: string): (k: nat)
    ensures k <= |text| && (k < |text| ==> text[k] == '\n') && forall i | 0 <= i < k :: text[i] != '\n'
  {
    if text == [] || text[0] == '\n' then 0 else 1 + Newline(text[1..])
  }

  ghost predicate OneLine(s: string) {
    '\n' !in s
  }

  lemma FirstLine(line: string, rest: string)
    requires OneLine(line)
    ensures SplitLines(line + "\n" + rest) == [line] + SplitLines(rest)
  {
    var text := line + "\n" + rest;
    assert forall i | 0 <= i < |line| :: text[i] == line[i] != '\n';
    assert text[|line|] == '\n';
    assert Newline(text) == |line|;
    assert text[..|line|] == line && text[|line| + 1..] == rest;
  }

  lemma {:induction false} SplitText(lines: seq<string>)
    requires forall i | 0 <= i < |lines| :: OneLine(lines[i])
    ensures SplitLines(Text(lines)) == lines
  {
    hide OneLine, SplitLines;
    if lines == [] {
      NoLines();
    } else {
      FirstLine(lines[0], Text(lines[1..]));
      SplitText(lines[1..]);
    }
  }

  lemma NoLines()
    ensures SplitLines("") == []
  {
  }

  function CountOf(lines: seq<string>, prefix: string): nat {
    if lines == [] then 0 else (if prefix <= lines[0] then 1 else 0) + CountOf(lines[1..], prefix)
  }

  lemma {:induction false} CountAppend(a: seq<string>, b: seq<string>, prefix: string)
    ensures CountOf(a + b, prefix) == CountOf(a, prefix) + CountOf(b, prefix)
  {
    if a == [] {
      assert a + b == b;
    } else {
      assert (a + b)[1..] == a[1..] + b;
      CountAppend(a[1..], b, prefix);
    }
  }

  lemma {:induction false} EscapeOneLine(value: string)
    requires NoControl(value)
    ensures OneLine(Escape(value))
  {
    if value != [] {
      EscapeOneLine(value[1..]);
    }
  }

  lemma PrintOneLine(item: Item)
    requires ValidItem(item)
    ensures OneLine(Print(item))
  {
    match item
    case Bare(text) =>
    case Quoted(value) =>
      ReplacementsAreEscape(value);
      EscapeOneLine(value);
    case Variable(name) =>
  }

  lemma {:induction false} PrintAllOneLine(items: seq<Item>)
    requires Valid(items)
    ensures OneLine(PrintAll(items))
    decreases |items|
  {
    hide ValidItem, Print;
    if items != [] {
      PrintOneLine(items[0]);
      PrintAllOneLine(items[1..]);
    }
  }

  lemma {:induction false} DigitsOneLine(n: nat)
    ensures OneLine(Digits(n))
  {
    if n >= 10 {
      DigitsOneLine(n / 10);
    }
  }

  lemma AppendOneLine(a: string, b: string)
    requires OneLine(a) && OneLine(b)
    ensures OneLine(a + b)
  {
  }

  /** Lines that are neither a start nor a stop command. */
  ghost predicate Quiet(lines: seq<string>) {
    && (forall i | 0 <= i < |lines| :: OneLine(lines[i]))
    && CountOf(lines, "ExecStart=") == 0 && CountOf(lines, "ExecStop=") == 0
  }

  lemma QuietOne(line: string)
    requires OneLine(line) && (|line| < 2 || line[0] != 'E' || line[1] != 'x')
    ensures Quiet([line])
  {
    assert !("ExecStart=" <= line) && !("ExecStop=" <= line) by {
      assert "ExecStart="[1] == 'x' && "ExecStop="[1] == 'x';
    }
    assert [line][1..] == [];
  }

  lemma QuietAppend(a: seq<string>, b: seq<string>)
    requires Quiet(a) && Quiet(b)
    ensures Quiet(a + b)
  {
    CountAppend(a, b, "ExecStart=");
    CountAppend(a, b, "ExecStop=");
  }

  lemma {:induction false} QuietAll(lines: seq<string>)
    requires forall i | 0 <= i < |lines| :: Quiet([lines[i]])
    ensures Quiet(lines)
    decreases |lines|
  {
    hide Quiet;
    if lines == [] {
      QuietNone();
    } else {
      QuietAll(lines[1..]);
      QuietAppend([lines[0]], lines[1..]);
      assert lines == [lines[0]] + lines[1..];
    }
  }

  lemma QuietNone()
    ensures Quiet([])
  {
  }

  function CommandLines(u: Unit): seq<string> {
    ["ExecStart=" + PrintAll(u.start), "ExecStop=" + PrintAll(u.stop), "ExecStop=" + PrintAll(WAIT)]
  }

  lemma CommandCounts(u: Unit)
    ensures CountOf(CommandLines(u), "ExecStart=") == 1 && CountOf(CommandLines(u), "ExecStop=") == 2
  {
    var lines := CommandLines(u);
    var a, b, c := lines[0], lines[1], lines[2];
    assert lines == [a] + ([b] + [c]);
    CountAppend([a], [b] + [c], "ExecStart=");
    CountAppend([b], [c], "ExecStart=");
    CountAppend([a], [b] + [c], "ExecStop=");
    CountAppend([b], [c], "ExecStop=");
    StartLine(PrintAll(u.start));
    StopLine(PrintAll(u.stop));
    StopLine(PrintAll(WAIT));
  }

  lemma StartLine(command: string)
    ensures CountOf(["ExecStart=" + command], "ExecStart=") == 1 && CountOf(["ExecStart=" + command], "ExecStop=") == 0
  {
    assert ["ExecStart=" + command][1..] == [];
    assert ("ExecStart=" + command)[6] == 'a' && "ExecStop="[6] == 'o';
  }

  lemma StopLine(command: string)
    ensures CountOf(["ExecStop=" + command], "ExecStart=") == 0 && CountOf(["ExecStop=" + command], "ExecStop=") == 1
  {
    assert ["ExecStop=" + command][1..] == [];
    assert ("ExecStop=" + command)[6] == 'o' && "ExecStart="[6] == 'a';
  }

  function Head(u: Unit): seq<string> {
    ["[Unit]", "Description=Lian Li Linux " + u.description] + u.dependencies + ["", "[Service]"] + u.account
  }

  function Tail(u: Unit): seq<string> {
    ["Restart=" + u.restart, "RestartSec=5s", "KillMode=control-group", "SendSIGKILL=no", "TimeoutStopSec=" + u.timeout]
    + ["", "[Install]", "WantedBy=" + u.target]
  }

  lemma LinesSplit(u: Unit)
    ensures Lines(u) == Head(u) + CommandLines(u) + Tail(u)
  {
  }

  lemma HeadIsQuiet(u: Unit)
    requires Quiet(u.dependencies) && Quiet(u.account) && OneLine(u.description)
    ensures Quiet(Head(u))
  {
    AppendOneLine("Description=Lian Li Linux ", u.description);
    QuietOne("[Unit]");
    QuietOne("Description=Lian Li Linux " + u.description);
    QuietOne("");
    QuietOne("[Service]");
    hide Quiet;
    QuietAll(["[Unit]", "Description=Lian Li Linux " + u.description]);
    QuietAll(["", "[Service]"]);
    QuietAppend(["[Unit]", "Description=Lian Li Linux " + u.description], u.dependencies);
    QuietAppend(["[Unit]", "Description=Lian Li Linux " + u.description] + u.dependencies, ["", "[Service]"]);
    QuietAppend(["[Unit]", "Description=Lian Li Linux " + u.description] + u.dependencies + ["", "[Service]"], u.account);
  }

  lemma FixedTail()
    ensures Quiet(["RestartSec=5s"]) && Quiet(["KillMode=control-group"]) && Quiet(["SendSIGKILL=no"])
    ensures Quiet([""]) && Quiet(["[Install]"])
  {
    QuietOne("RestartSec=5s");
    QuietOne("KillMode=control-group");
    QuietOne("SendSIGKILL=no");
    QuietOne("");
    QuietOne("[Install]");
  }

  lemma TailIsQuiet(u: Unit)
    requires OneLine(u.restart) && OneLine(u.timeout) && OneLine(u.target)
    ensures Quiet(Tail(u))
  {
    AppendOneLine("Restart=", u.restart);
    AppendOneLine("TimeoutStopSec=", u.timeout);
    AppendOneLine("WantedBy=", u.target);
    hide OneLine, Quiet;
    QuietOne("Restart=" + u.restart);
    QuietOne("TimeoutStopSec=" + u.timeout);
    QuietOne("WantedBy=" + u.target);
    FixedTail();
    QuietAll(Tail(u));
  }

  /** The text of a unit reads back as its lines, with one start and two stop commands among them. */
  ghost predicate OneStartTwoStops(u: Unit) {
    && SplitLines(Text(Lines(u))) == Lines(u)
    && CountOf(Lines(u), "ExecStart=") == 1 && CountOf(Lines(u), "ExecStop=") == 2
    && "ExecStart=" + PrintAll(u.start) in Lines(u) && "ExecStop=" + PrintAll(u.stop) in Lines(u)
    && Arguments(PrintAll(u.start)) == Some(ArgumentsOf(u.start))
    && Arguments(PrintAll(u.stop)) == Some(ArgumentsOf(u.stop))
    && Arguments(PrintAll(WAIT)) == Some(ArgumentsOf(WAIT))
  }

  lemma LineCounts(u: Unit)
    requires Quiet(Head(u)) && Quiet(Tail(u))
    ensures CountOf(Lines(u), "ExecStart=") == 1 && CountOf(Lines(u), "ExecStop=") == 2
  {
    CommandCounts(u);
    LinesSplit(u);
    hide CommandLines, Head, Tail, Lines, CountOf;
    QuietCounts(Head(u));
    QuietCounts(Tail(u));
    hide Quiet;
    CountAppend(Head(u) + CommandLines(u), Tail(u), "ExecStart=");
    CountAppend(Head(u), CommandLines(u), "ExecStart=");
    CountAppend(Head(u) + CommandLines(u), Tail(u), "ExecStop=");
    CountAppend(Head(u), CommandLines(u), "ExecStop=");
  }

  lemma QuietCounts(lines: seq<string>)
    requires Quiet(lines)
    ensures CountOf(lines, "ExecStart=") == 0 && CountOf(lines, "ExecStop=") == 0
    ensures forall i | 0 <= i < |lines| :: OneLine(lines[i])
  {
  }

  lemma LinesAreWhole(u: Unit)
    requires Valid(u.start) && Valid(u.stop) && Quiet(Head(u)) && Quiet(Tail(u))
    ensures forall i | 0 <= i < |Lines(u)| :: OneLine(Lines(u)[i])
    ensures |Lines(u)| == |Head(u)| + 3 + |Tail(u)|
    ensures Lines(u)[|Head(u)|] == "ExecStart=" + PrintAll(u.start) && Lines(u)[|Head(u)| + 1] == "ExecStop=" + PrintAll(u.stop)
  {
    WaitIsValid();
    PrintAllOneLine(u.start);
    PrintAllOneLine(u.stop);
    PrintAllOneLine(WAIT);
    CommandsOneLine(u);
    LinesSplit(u);
    QuietCounts(Head(u));
    QuietCounts(Tail(u));
    hide OneLine, PrintAll, Head, Tail, Lines, Quiet;
  }

  lemma UnitIsWellFormed(u: Unit)
    requires Valid(u.start) && Valid(u.stop) && Quiet(u.dependencies) && Quiet(u.account)
    requires OneLine(u.description) && OneLine(u.restart) && OneLine(u.timeout) && OneLine(u.target)
    ensures OneStartTwoStops(u)
  {
    hide Quiet, OneLine, PrintAll, Arguments, ArgumentsOf, Text, SplitLines, CountOf, Lines, Head, Tail, ValidItem;
    WaitIsValid();
    PrintedReads(u.start);
    PrintedReads(u.stop);
    PrintedReads(WAIT);
    HeadIsQuiet(u);
    TailIsQuiet(u);
    LineCounts(u);
    LinesAreWhole(u);
    SplitText(Lines(u));
  }

  lemma CommandsOneLine(u: Unit)
    requires OneLine(PrintAll(u.start)) && OneLine(PrintAll(u.stop)) && OneLine(PrintAll(WAIT))
    ensures forall i | 0 <= i < |CommandLines(u)| :: OneLine(CommandLines(u)[i])
  {
    AppendOneLine("ExecStart=", PrintAll(u.start));
    AppendOneLine("ExecStop=", PrintAll(u.stop));
    AppendOneLine("ExecStop=", PrintAll(WAIT));
    hide PrintAll;
  }

  lemma DependenciesAreQuiet(uid: nat)
    ensures Quiet(SystemDependencies(uid))
  {
    DigitsOneLine(uid);
    var d := Digits(uid);
    QuietDigits("Requires=user@", d, ".service");
    QuietDigits("After=user@", d, ".service");
    hide Quiet, Digits;
    QuietAll(SystemDependencies(uid));
  }

  lemma BusIsQuiet(d: string)
    requires OneLine(d)
    ensures Quiet([BusAddress(d)])
  {
    assert OneLine("Environment=DBUS_SESSION_BUS_ADDRESS=") && OneLine("unix:path=/run/user/");
    AppendOneLine("Environment=DBUS_SESSION_BUS_ADDRESS=", "unix:path=/run/user/");
    hide Quiet;
    QuietDigits("Environment=DBUS_SESSION_BUS_ADDRESS=" + "unix:path=/run/user/", d, "/bus");
  }

  lemma RuntimeLines()
    ensures Quiet(["RuntimeDirectory=lianli"]) && Quiet(["RuntimeDirectoryMode=0755"])
  {
    QuietOne("RuntimeDirectory=lianli");
    QuietOne("RuntimeDirectoryMode=0755");
  }

  lemma UserLine(d: string)
    requires OneLine(d)
    ensures Quiet(["User=" + d])
  {
    QuietDigits("User=", d, "");
    assert "User=" + d + "" == "User=" + d;
  }

  lemma RuntimeLine(d: string)
    requires OneLine(d)
    ensures Quiet(["Environment=XDG_RUNTIME_DIR=/run/user/" + d])
  {
    QuietDigits("Environment=XDG_RUNTIME_DIR=/run/user/", d, "");
    assert "Environment=XDG_RUNTIME_DIR=/run/user/" + d + "" == "Environment=XDG_RUNTIME_DIR=/run/user/" + d;
  }

  lemma AccountIsQuiet(uid: nat)
    ensures Quiet(SystemAccount(uid))
  {
    DigitsOneLine(uid);
    hide Quiet, Digits, BusAddress, OneLine;
    BusIsQuiet(Digits(uid));
    UserLine(Digits(uid));
    RuntimeLine(Digits(uid));
    RuntimeLines();
    QuietAll(SystemAccount(uid));
  }

  lemma QuietDigits(before: string, digits: string, after: string)
    requires |before| >= 2 && (before[0] != 'E' || before[1] != 'x') && OneLine(before) && OneLine(digits) && OneLine(after)
    ensures Quiet([before + digits + after])
  {
    AppendOneLine(before, digits);
    AppendOneLine(before + digits, after);
    QuietOne(before + digits + after);
  }

  lemma SessionIsQuiet()
    ensures Quiet(["After=graphical-session.target"]) && Quiet([])
  {
    QuietOne("After=graphical-session.target");
  }

  /** Every printed unit, for all accepted inputs: the daemon unit of the user's session. */
  lemma GeneratedUnit(name: string, hostEnter: string, binaries: string)
    ensures Generate(name, hostEnter, binaries).Some? ==> OneStartTwoStops(Generate(name, hostEnter, binaries).value)
  {
    if Generate(name, hostEnter, binaries).Some? {
      SessionIsQuiet();
      FixedLines();
      hide Quiet, OneLine, OneStartTwoStops, Valid, ValidPrefix, Quotable, Prefix, DaemonStart, DaemonStop;
      PlainIsValid(name, hostEnter, binaries);
      UnitIsWellFormed(Generate(name, hostEnter, binaries).value);
    }
  }

  lemma FixedLines()
    ensures OneLine("Daemon (Distrobox)") && OneLine("Daemon (managed Distrobox)") && OneLine("Daemon (Distrobox system mode)")
    ensures OneLine("on-failure") && OneLine("120s") && OneLine("default.target") && OneLine("multi-user.target")
  {
  }

  /** The managed units of both modes. */
  lemma ManagedUnit(route: Route, scope: Scope, uid: nat)
    ensures GenerateManaged(route, scope, uid).Some? ==> OneStartTwoStops(GenerateManaged(route, scope, uid).value)
  {
    if GenerateManaged(route, scope, uid).Some? {
      SessionIsQuiet();
      FixedLines();
      hide Quiet, OneLine, OneStartTwoStops, Valid, ValidRoute, ValidPrefix, Quotable, ManagedStart, ManagedStop, SystemAccount, SystemDependencies;
      DependenciesAreQuiet(uid);
      AccountIsQuiet(uid);
      ManagedIsValid(route, scope, uid);
      UnitIsWellFormed(GenerateManaged(route, scope, uid).value);
    }
  }

  /** The system unit with an explicit configuration. */
  lemma SystemUnit(name: string, hostEnter: string, binaries: string, uid: nat, config: string)
    ensures GenerateSystem(name, hostEnter, binaries, uid, config).Some? ==>
              OneStartTwoStops(GenerateSystem(name, hostEnter, binaries, uid, config).value)
  {
    if GenerateSystem(name, hostEnter, binaries, uid, config).Some? {
      FixedLines();
      hide Quiet, OneLine, OneStartTwoStops, Valid, ValidPrefix, Quotable, Prefix, DaemonStart, DaemonStop, SystemAccount, SystemDependencies;
      DependenciesAreQuiet(uid);
      AccountIsQuiet(uid);
      SystemIsValid(name, hostEnter, binaries, config);
      UnitIsWellFormed(GenerateSystem(name, hostEnter, binaries, uid, config).value);
    }
  }

  lemma PlainIsValid(name: string, hostEnter: string, binaries: string)
    requires ValidPrefix(name, hostEnter, binaries) && Quotable(Daemon(binaries)) && Quotable(Control(binaries))
    ensures Valid(Prefix(name, hostEnter) + DaemonStart(binaries, []))
    ensures Valid(Prefix(name, hostEnter) + DaemonStop(binaries, []))
  {
    PrefixIsValid(name, hostEnter, binaries);
    StartIsValid(binaries, []);
    StopIsValid(binaries, []);
    hide ValidItem, Prefix, DaemonStart, DaemonStop;
    ValidAppend(Prefix(name, hostEnter), DaemonStart(binaries, []));
    ValidAppend(Prefix(name, hostEnter), DaemonStop(binaries, []));
  }

  lemma SystemIsValid(name: string, hostEnter: string, binaries: string, config: string)
    requires ValidPrefix(name, hostEnter, binaries) && Quotable(Daemon(binaries)) && Quotable(Control(binaries)) && Quotable(config)
    ensures Valid(Prefix(name, hostEnter) + DaemonStart(binaries, SystemStart(config)))
    ensures Valid(Prefix(name, hostEnter) + DaemonStop(binaries, StopScope(System)))
  {
    PrefixIsValid(name, hostEnter, binaries);
    ScopesAreValid(config);
    StartIsValid(binaries, SystemStart(config));
    StopIsValid(binaries, StopScope(System));
    hide ValidItem, Prefix, DaemonStart, DaemonStop;
    ValidAppend(Prefix(name, hostEnter), DaemonStart(binaries, SystemStart(config)));
    ValidAppend(Prefix(name, hostEnter), DaemonStop(binaries, StopScope(System)));
  }

  // What a reader of the text finds besides the commands.

  /** A number in decimal notation. */
  function Decimal(s: string): Option<nat> {
    if s == [] || !('0' <= s[|s| - 1] <= '9') then None else
    var last := s[|s| - 1] as nat - '0' as nat;
    if |s| == 1 then Some(last) else
    match Decimal(s[..|s| - 1])
    case None => None
    case Some(n) => Some(10 * n + last)
  }

  lemma {:induction false} DigitsRead(n: nat)
    ensures Digits(n) != [] && Decimal(Digits(n)) == Some(n)
  {
    var s := Digits(n);
    if n >= 10 {
      DigitsRead(n / 10);
      assert s[..|s| - 1] == Digits(n / 10);
    }
  }

  /** The account that a unit runs under: its first `User=` line. */
  function Account(lines: seq<string>): Option<nat> {
    if lines == [] then None
    else if "User=" <= lines[0] then Decimal(lines[0][5..])
    else Account(lines[1..])
  }

  ghost predicate NoAccount(lines: seq<string>) {
    forall i | 0 <= i < |lines| :: lines[i] == "" || lines[i][0] != 'U'
  }

  lemma {:induction false} AccountAppend(a: seq<string>, b: seq<string>)
    requires NoAccount(a)
    ensures Account(a + b) == Account(b)
  {
    if a == [] {
      assert a + b == b;
    } else {
      assert (a + b)[1..] == a[1..] + b && (a + b)[0] == a[0];
      AccountAppend(a[1..], b);
    }
  }

  lemma AccountRest(u: Unit)
    ensures NoAccount(CommandLines(u) + Tail(u)) && NoAccount(["[Unit]", "Description=Lian Li Linux " + u.description])
    ensures NoAccount(["", "[Service]"])
  {
    hide PrintAll;
  }

  lemma NoAccountAppend(a: seq<string>, b: seq<string>)
    requires NoAccount(a) && NoAccount(b)
    ensures NoAccount(a + b)
  {
  }

  /** The account is the one of the account lines. */
  lemma AccountOf(u: Unit)
    requires NoAccount(u.dependencies)
    ensures Account(Lines(u)) == Account(u.account + (CommandLines(u) + Tail(u)))
  {
    LinesSplit(u);
    AccountRest(u);
    hide CommandLines, Tail, Lines, NoAccount, Account;
    var top := ["[Unit]", "Description=Lian Li Linux " + u.description];
    NoAccountAppend(top, u.dependencies);
    NoAccountAppend(top + u.dependencies, ["", "[Service]"]);
    AccountAppend(top + u.dependencies + ["", "[Service]"], u.account + (CommandLines(u) + Tail(u)));
    assert Head(u) + CommandLines(u) + Tail(u)
           == top + u.dependencies + ["", "[Service]"] + (u.account + (CommandLines(u) + Tail(u)));
  }

  lemma SystemAccountOf(u: Unit, uid: nat)
    requires u.dependencies == SystemDependencies(uid) && u.account == SystemAccount(uid)
    ensures Account(Lines(u)) == Some(uid)
  {
    assert NoAccount(SystemDependencies(uid)) by { hide Digits; }
    AccountOf(u);
    DigitsRead(uid);
    hide Digits, Lines, CommandLines, Tail, Decimal;
    var lines := u.account + (CommandLines(u) + Tail(u));
    assert lines[0] == "User=" + Digits(uid) && lines[0][5..] == Digits(uid);
  }

  lemma UserAccountOf(u: Unit)
    requires u.dependencies == ["After=graphical-session.target"] && u.account == []
    ensures Account(Lines(u)) == None
  {
    AccountOf(u);
    AccountRest(u);
    hide Lines, CommandLines, Tail;
    assert u.account + (CommandLines(u) + Tail(u)) == CommandLines(u) + Tail(u) + [];
    AccountAppend(CommandLines(u) + Tail(u), []);
  }

  /** Settings that every printed unit has: a service that failed is restarted, and a stop ends the whole
      control group without force and within the given time. */
  ghost predicate Guarded(lines: seq<string>, target: string) {
    && "Restart=on-failure" in lines && "RestartSec=5s" in lines && "KillMode=control-group" in lines
    && "SendSIGKILL=no" in lines && "TimeoutStopSec=120s" in lines && "WantedBy=" + target in lines
  }

  lemma SettingTexts()
    ensures "Restart=" + "on-failure" == "Restart=on-failure" && "TimeoutStopSec=" + "120s" == "TimeoutStopSec=120s"
  {
  }

  lemma TailIsGuarded(u: Unit)
    requires u.restart == "on-failure" && u.timeout == "120s"
    ensures Guarded(Lines(u), u.target)
  {
    SettingTexts();
    LinesSplit(u);
    var tail := Tail(u);
    assert tail[0] == "Restart=" + u.restart && tail[1] == "RestartSec=5s" && tail[2] == "KillMode=control-group"
           && tail[3] == "SendSIGKILL=no" && tail[4] == "TimeoutStopSec=" + u.timeout && tail[7] == "WantedBy=" + u.target;
    hide Tail, Head, CommandLines, Lines, Guarded;
    GuardedLast(Head(u) + CommandLines(u), tail, u.target);
  }

  lemma GuardedLast(lines: seq<string>, tail: seq<string>, target: string)
    requires |tail| == 8 && tail[0] == "Restart=on-failure" && tail[1] == "RestartSec=5s" && tail[2] == "KillMode=control-group"
    requires tail[3] == "SendSIGKILL=no" && tail[4] == "TimeoutStopSec=120s" && tail[7] == "WantedBy=" + target
    ensures Guarded(lines + tail, target)
  {
    forall i | 0 <= i < 8 ensures tail[i] in lines + tail {
      assert (lines + tail)[|lines| + i] == tail[i];
    }
  }

  /** Each unit names its account, its target and the same guarded way to stop: the unit of the session
      runs as the user who starts it, the system units as the account they were printed for. */
  lemma UnitSettings(name: string, hostEnter: string, binaries: string, uid: nat, config: string)
    ensures Generate(name, hostEnter, binaries).Some? ==>
              var lines := SplitLines(Text(Lines(Generate(name, hostEnter, binaries).value)));
              Account(lines) == None && Guarded(lines, "default.target")
    ensures GenerateSystem(name, hostEnter, binaries, uid, config).Some? ==>
              var lines := SplitLines(Text(Lines(GenerateSystem(name, hostEnter, binaries, uid, config).value)));
              Account(lines) == Some(uid) && Guarded(lines, "multi-user.target")
  {
    GeneratedUnit(name, hostEnter, binaries);
    SystemUnit(name, hostEnter, binaries, uid, config);
    hide ValidPrefix, Quotable, Lines, Text, SplitLines, Account, Guarded, PrintAll, Arguments, ArgumentsOf, CountOf, SystemAccount, SystemDependencies, Digits;
    if Generate(name, hostEnter, binaries).Some? {
      UserAccountOf(Generate(name, hostEnter, binaries).value);
      TailIsGuarded(Generate(name, hostEnter, binaries).value);
    }
    if GenerateSystem(name, hostEnter, binaries, uid, config).Some? {
      SystemAccountOf(GenerateSystem(name, hostEnter, binaries, uid, config).value, uid);
      TailIsGuarded(GenerateSystem(name, hostEnter, binaries, uid, config).value);
    }
  }

  lemma ManagedSettings(route: Route, scope: Scope, uid: nat)
    ensures GenerateManaged(route, scope, uid).Some? ==>
              var lines := SplitLines(Text(Lines(GenerateManaged(route, scope, uid).value)));
              && Account(lines) == (if scope.System? then Some(uid) else None)
              && Guarded(lines, if scope.System? then "multi-user.target" else "default.target")
  {
    ManagedUnit(route, scope, uid);
    hide ValidPrefix, ValidRoute, Quotable, Lines, Text, SplitLines, Account, Guarded, PrintAll, Arguments, ArgumentsOf, CountOf,
         SystemAccount, SystemDependencies, Digits, ManagedStart, ManagedStop;
    if GenerateManaged(route, scope, uid).Some? {
      var u := GenerateManaged(route, scope, uid).value;
      if scope.System? {
        SystemAccountOf(u, uid);
      } else {
        UserAccountOf(u);
      }
      TailIsGuarded(u);
    }
  }
}
