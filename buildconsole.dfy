/**
 * The IncrediBuild "BuildConsole" build step: the settings of the step and the
 * command line it hands to the build system.
 */
module BuildConsole {
  import opened QtStrings

  /** The executable every BuildConsole step runs. */
  const Program := "BuildConsole.exe"

  /**
   * The options of the two helper-OS selections, in order. The first, empty,
   * option means that no limit is passed.
   */
  const SupportedWindowsVersions: seq<string> := [
    "",
    "Windows 7",
    "Windows 8",
    "Windows 10",
    "Windows Vista",
    "Windows XP",
    "Windows Server 2003",
    "Windows Server 2008",
    "Windows Server 2012"
  ]

  /** The options of the logging-level selection, in order; the empty one passes nothing. */
  const LogLevels: seq<string> := ["", "Minimal", "Extended", "Detailed"]

  /** The range the step's integer aspect allows for the maximum number of CPUs. */
  type CpuCount = n: int | 0 <= n <= 65536

  /** The values of the step's aspects, as the command-line provider reads them. */
  datatype Settings = Settings(
    keepJobNum: bool,
    profileXml: string,
    avoidLocal: bool,
    maxCpu: CpuCount,
    maxWinVer: string,
    minWinVer: string,
    title: string,
    monFile: string,
    suppressStdOut: bool,
    logFile: string,
    showCmd: bool,
    showAgents: bool,
    showTime: bool,
    hideHeader: bool,
    logLevel: string,
    setEnv: string,
    stopOnError: bool,
    additionalArguments: string,
    openMonitor: bool)

  datatype CommandLine = CommandLine(executable: string, arguments: seq<string>)

  /**
   * Turns a Windows version as offered in the selections into BuildConsole's
   * spelling: the words "Windows " and "Server " go, the rest is upper-cased.
   */
  function NormalizeWinVerArgument(winVer: string): (r: string)
    ensures |r| <= |winVer|
  {
    ToUpper(RemoveAll(RemoveAll(winVer, "Windows "), "Server "))
  }

  /** The normalized version holds no lower-case letter. */
  lemma NormalizedIsUpperCase(winVer: string)
    ensures forall i :: 0 <= i < |NormalizeWinVerArgument(winVer)| ==> !IsAsciiLower(NormalizeWinVerArgument(winVer)[i])
  {
    ToUpperChars(RemoveAll(RemoveAll(winVer, "Windows "), "Server "));
  }

  /** BuildConsole's spelling of each supported version, in the same order. */
  const NormalizedVersions: seq<string> := ["", "7", "8", "10", "VISTA", "XP", "2003", "2008", "2012"]

  /** What each supported version becomes on the command line. */
  lemma NormalizedSupportedVersions(i: nat)
    requires i < |SupportedWindowsVersions|
    ensures NormalizeWinVerArgument(SupportedWindowsVersions[i]) == NormalizedVersions[i]
  {
    if i == 0 {
    } else if i < 4 {
      NumberedVersion(i);
    } else if i < 6 {
      NamedVersion(i);
    } else {
      var year := NormalizedVersions[i];
      assert SupportedWindowsVersions[i] == "Windows Server " + year;
      ServerVersion(year);
    }
  }

  lemma NumberedVersion(i: nat)
    requires 1 <= i < 4
    ensures NormalizeWinVerArgument(SupportedWindowsVersions[i]) == NormalizedVersions[i]
  {
    var number := NormalizedVersions[i];
    assert SupportedWindowsVersions[i] == "Windows " + number;
    DesktopVersion(number);
    DigitsUnchangedByToUpper(number);
  }

  lemma NamedVersion(i: nat)
    requires 4 <= i < 6
    ensures NormalizeWinVerArgument(SupportedWindowsVersions[i]) == NormalizedVersions[i]
  {
    var name := if i == 4 then "Vista" else "XP";
    assert SupportedWindowsVersions[i] == "Windows " + name;
    DesktopVersion(name);
    UpperCasedNames();
  }

  lemma UpperCasedNames()
    ensures ToUpper("Vista") == "VISTA" && ToUpper("XP") == "XP"
  {
  }

  /** A desktop version keeps its name, upper-cased. */
  lemma DesktopVersion(name: string)
    requires 'W' !in name && 'S' !in name
    ensures NormalizeWinVerArgument("Windows " + name) == ToUpper(name)
  {
    var s := "Windows " + name;
    assert s[..8] == "Windows " && s[8..] == name;
    RemoveAllWithoutFirstChar(name, "Windows ");
    RemoveAllWithoutFirstChar(name, "Server ");
  }

  /** A "Windows Server" version keeps only its year. */
  lemma ServerVersion(year: string)
    requires |year| == 4 && IsDigits(year)
    ensures NormalizeWinVerArgument("Windows Server " + year) == year
  {
    var s := "Windows Server " + year;
    var rest := "Server " + year;
    assert s[..8] == "Windows " && s[8..] == rest;
    assert RemoveAll(s, "Windows ") == RemoveAll(rest, "Windows ");
    assert 'W' !in rest by {
      assert forall i :: 7 <= i < |rest| ==> rest[i] == year[i - 7];
    }
    RemoveAllWithoutFirstChar(rest, "Windows ");
    assert rest[..7] == "Server " && rest[7..] == year;
    assert RemoveAll(rest, "Server ") == year;
    DigitsUnchangedByToUpper(year);
  }

  lemma DigitsUnchangedByToUpper(s: string)
    requires IsDigits(s)
    ensures ToUpper(s) == s
  {
    ToUpperChars(s);
    assert forall i :: 0 <= i < |s| ==> !IsAsciiLower(s[i]);
  }

  function OnOff(on: bool): string
  {
    if on then "ON" else "OFF"
  }

  /** The one-element list `[arg]` when `c` holds, otherwise nothing. */
  function When(c: bool, arg: string): seq<string>
  {
    if c then [arg] else []
  }

  /**
   * The arguments that say what to build and where: the command, the profile, local
   * execution, the CPU limit and the helper Windows versions.
   */
  function ScheduleArguments(s: Settings, commandFlag: string): seq<string>
  {
    ["/Command= " + commandFlag]
    + When(!IsEmpty(s.profileXml), "/Profile=" + s.profileXml)
    + ["/AvoidLocal=" + OnOff(s.avoidLocal)]
    + When(s.maxCpu > 0, "/MaxCPUs=" + Decimal(s.maxCpu))
    + When(!IsEmpty(s.maxWinVer), "/MaxWinVer=" + NormalizeWinVerArgument(s.maxWinVer))
    + When(!IsEmpty(s.minWinVer), "/MinWinVer=" + NormalizeWinVerArgument(s.minWinVer))
  }

  /**
   * The arguments about the build's title, monitor file, console output and log file.
   */
  function MonitorArguments(s: Settings): seq<string>
  {
    When(!IsEmpty(s.title), "/Title=" + s.title)
    + When(!IsEmpty(s.monFile), "/Mon=" + s.monFile)
    + When(s.suppressStdOut, "/Silent")
    + When(!IsEmpty(s.logFile), "/Log=" + s.logFile)
  }

  /**
   * The arguments about what the build output shows.
   */
  function DisplayArguments(s: Settings): seq<string>
  {
    When(s.showCmd, "/ShowCmd")
    + When(s.showAgents, "/ShowAgent")
    + When(s.showAgents, "/ShowTime")
    + When(s.hideHeader, "/NoLogo")
    + When(!IsEmpty(s.logLevel), "/LogLevel=" + s.logLevel)
  }

  /**
   * The environment, error handling, free additional arguments and the monitor.
   */
  function ControlArguments(s: Settings): seq<string>
  {
    When(!IsEmpty(s.setEnv), "/SetEnv=" + s.setEnv)
    + When(s.stopOnError, "/StopOnErrors")
    + When(!IsEmpty(s.additionalArguments), s.additionalArguments)
    + When(s.openMonitor, "/OpenMonitor")
  }

  /**
   * The arguments of the BuildConsole command line for the given settings and
   * the command builder's full command flag, in the order the provider appends them.
   */
  function Arguments(s: Settings, commandFlag: string): (r: seq<string>)
    ensures |r| >= 2 && r[0] == "/Command= " + commandFlag
  {
    ScheduleArguments(s, commandFlag) + MonitorArguments(s) + DisplayArguments(s) + ControlArguments(s)
  }

  /** 1 when `b` holds, 0 otherwise. */
  function Flag(b: bool): nat
  {
    if b then 1 else 0
  }

  /** The number of arguments: one for each step whose condition holds. */
  lemma ArgumentCount(s: Settings, commandFlag: string)
    ensures |Arguments(s, commandFlag)| ==
      2 + Flag(!IsEmpty(s.profileXml)) + Flag(s.maxCpu > 0) + Flag(!IsEmpty(s.maxWinVer)) + Flag(!IsEmpty(s.minWinVer))
      + Flag(!IsEmpty(s.title)) + Flag(!IsEmpty(s.monFile)) + Flag(s.suppressStdOut) + Flag(!IsEmpty(s.logFile))
      + Flag(s.showCmd) + 2 * Flag(s.showAgents) + Flag(s.hideHeader) + Flag(!IsEmpty(s.logLevel))
      + Flag(!IsEmpty(s.setEnv)) + Flag(s.stopOnError) + Flag(!IsEmpty(s.additionalArguments)) + Flag(s.openMonitor)
  {
    ScheduleLength(s, commandFlag);
    MonitorLength(s);
    DisplayLength(s);
    ControlLength(s);
  }

  lemma ScheduleLength(s: Settings, commandFlag: string)
    ensures |ScheduleArguments(s, commandFlag)| ==
      2 + Flag(!IsEmpty(s.profileXml)) + Flag(s.maxCpu > 0) + Flag(!IsEmpty(s.maxWinVer)) + Flag(!IsEmpty(s.minWinVer))
  {
  }

  lemma MonitorLength(s: Settings)
    ensures |MonitorArguments(s)| ==
      Flag(!IsEmpty(s.title)) + Flag(!IsEmpty(s.monFile)) + Flag(s.suppressStdOut) + Flag(!IsEmpty(s.logFile))
  {
  }

  lemma DisplayLength(s: Settings)
    ensures |DisplayArguments(s)| == Flag(s.showCmd) + 2 * Flag(s.showAgents) + Flag(s.hideHeader) + Flag(!IsEmpty(s.logLevel))
  {
  }

  lemma ControlLength(s: Settings)
    ensures |ControlArguments(s)| ==
      Flag(!IsEmpty(s.setEnv)) + Flag(s.stopOnError) + Flag(!IsEmpty(s.additionalArguments)) + Flag(s.openMonitor)
  {
  }

  /** In `p1 + ... + p6 + rest`, the first three and the first four parts are prefixes. */
  lemma PrefixesOfSix(p1: seq<string>, p2: seq<string>, p3: seq<string>, p4: seq<string>, p5: seq<string>,
                      p6: seq<string>, m: seq<string>, d: seq<string>, c: seq<string>)
    ensures StartsWith(p1 + p2 + p3 + p4 + p5 + p6 + m + d + c, p1 + p2 + p3)
    ensures StartsWith(p1 + p2 + p3 + p4 + p5 + p6 + m + d + c, p1 + p2 + p3 + p4)
  {
    var whole := p1 + p2 + p3 + p4 + p5 + p6 + m + d + c;
    assert whole == (p1 + p2 + p3) + (p4 + (p5 + p6 + m + d + c));
    assert whole == (p1 + p2 + p3 + p4) + (p5 + p6 + m + d + c);
  }

  /** In `y + (q1 + q2 + q3 + q4)`, the last two parts form a suffix. */
  lemma SuffixOfFour(y: seq<string>, q1: seq<string>, q2: seq<string>, q3: seq<string>, q4: seq<string>)
    ensures EndsWith(y + (q1 + q2 + q3 + q4), q3 + q4)
  {
    assert y + (q1 + q2 + q3 + q4) == (y + q1 + q2) + (q3 + q4);
  }

  /**
   * The command line starts with the command flag, then the profile when one
   * is given, then the "avoid local" switch, which is always present.
   */
  lemma ArgumentsHead(s: Settings, commandFlag: string)
    ensures StartsWith(Arguments(s, commandFlag),
      ["/Command= " + commandFlag] + When(!IsEmpty(s.profileXml), "/Profile=" + s.profileXml)
      + ["/AvoidLocal=" + (if s.avoidLocal then "ON" else "OFF")])
  {
    PrefixesOfSix(["/Command= " + commandFlag],
      When(!IsEmpty(s.profileXml), "/Profile=" + s.profileXml),
      ["/AvoidLocal=" + OnOff(s.avoidLocal)],
      When(s.maxCpu > 0, "/MaxCPUs=" + Decimal(s.maxCpu)),
      When(!IsEmpty(s.maxWinVer), "/MaxWinVer=" + NormalizeWinVerArgument(s.maxWinVer)),
      When(!IsEmpty(s.minWinVer), "/MinWinVer=" + NormalizeWinVerArgument(s.minWinVer)),
      MonitorArguments(s), DisplayArguments(s), ControlArguments(s));
  }

  /** A positive CPU limit is passed right after the "avoid local" switch. */
  lemma MaxCpuArgument(s: Settings, commandFlag: string)
    requires s.maxCpu > 0
    ensures StartsWith(Arguments(s, commandFlag),
      ["/Command= " + commandFlag] + When(!IsEmpty(s.profileXml), "/Profile=" + s.profileXml)
      + ["/AvoidLocal=" + OnOff(s.avoidLocal)] + ["/MaxCPUs=" + Decimal(s.maxCpu)])
  {
    PrefixesOfSix(["/Command= " + commandFlag],
      When(!IsEmpty(s.profileXml), "/Profile=" + s.profileXml),
      ["/AvoidLocal=" + OnOff(s.avoidLocal)],
      When(s.maxCpu > 0, "/MaxCPUs=" + Decimal(s.maxCpu)),
      When(!IsEmpty(s.maxWinVer), "/MaxWinVer=" + NormalizeWinVerArgument(s.maxWinVer)),
      When(!IsEmpty(s.minWinVer), "/MinWinVer=" + NormalizeWinVerArgument(s.minWinVer)),
      MonitorArguments(s), DisplayArguments(s), ControlArguments(s));
  }

  /**
   * The command line ends with the additional arguments, passed verbatim as
   * one argument when given, and then the monitor switch when that is set.
   */
  lemma ArgumentsTail(s: Settings, commandFlag: string)
    ensures EndsWith(Arguments(s, commandFlag),
      When(!IsEmpty(s.additionalArguments), s.additionalArguments) + When(s.openMonitor, "/OpenMonitor"))
  {
    SuffixOfFour(ScheduleArguments(s, commandFlag) + MonitorArguments(s) + DisplayArguments(s),
      When(!IsEmpty(s.setEnv), "/SetEnv=" + s.setEnv), When(s.stopOnError, "/StopOnErrors"),
      When(!IsEmpty(s.additionalArguments), s.additionalArguments), When(s.openMonitor, "/OpenMonitor"));
  }

  /** The step's "show time" option is never read: the command line does not depend on it. */
  lemma ShowTimeIgnored(s: Settings, commandFlag: string, showTime: bool)
    ensures Arguments(s.(showTime := showTime), commandFlag) == Arguments(s, commandFlag)
  {
  }

  /**
   * The switch an argument sets: its text up to and including the first `=`,
   * or the whole argument when it has none.
   */
  function SwitchName(arg: string): string
  {
    if arg == [] then []
    else if arg[0] == '=' then ['=']
    else [arg[0]] + SwitchName(arg[1..])
  }

  /** A switch that takes a value: it ends in its only `=`. */
  predicate IsValuedSwitch(h: string)
  {
    |h| > 0 && h[|h| - 1] == '=' && '=' !in h[..|h| - 1]
  }

  /**
   * The switch is a prefix of the argument: either the whole argument, which
   * then has no `=`, or a text that ends in its only `=`.
   */
  lemma {:induction false} SwitchNameShape(arg: string)
    ensures StartsWith(arg, SwitchName(arg))
    ensures '=' !in arg ==> SwitchName(arg) == arg
    ensures '=' in arg ==> IsValuedSwitch(SwitchName(arg))
  {
    if arg != [] && arg[0] != '=' {
      var r := SwitchName(arg[1..]);
      SwitchNameShape(arg[1..]);
      assert SwitchName(arg) == [arg[0]] + r;
      if '=' in arg {
        assert '=' in arg[1..] by {
          var i :| 0 <= i < |arg| && arg[i] == '=';
          assert arg[1..][i - 1] == '=';
        }
        assert ([arg[0]] + r)[..|r|] == [arg[0]] + r[..|r| - 1];
      } else {
        assert '=' !in arg[1..] by {
          forall i | 0 <= i < |arg| - 1 ensures arg[1..][i] != '=' {
            assert arg[i + 1] in arg;
          }
        }
      }
    }
  }

  /** A valued switch followed by any value sets that switch. */
  lemma {:induction false} SwitchNameOfValued(h: string, v: string)
    requires IsValuedSwitch(h)
    ensures SwitchName(h + v) == h
  {
    if |h| == 1 {
      assert (h + v)[0] == '=';
    } else {
      assert h[0] != '=' by {
        assert h[0] == h[..|h| - 1][0];
      }
      assert (h + v)[1..] == h[1..] + v;
      assert h[1..][..|h| - 2] == h[..|h| - 1][1..];
      SwitchNameOfValued(h[1..], v);
    }
  }

  /** An argument without `=` is a switch of its own. */
  lemma {:induction false} SwitchNameOfPlain(h: string)
    requires '=' !in h
    ensures SwitchName(h) == h
  {
    if h != [] {
      assert h[0] in h;
      SwitchNameOfPlain(h[1..]);
    }
  }

  /** How many of `args` set the switch `h`. */
  function CountSwitch(args: seq<string>, h: string): (r: nat)
    ensures r <= |args|
  {
    if args == [] then 0
    else CountSwitch(args[..|args| - 1], h) + Flag(h == SwitchName(args[|args| - 1]))
  }

  /** Counting distributes over concatenation. */
  lemma {:induction false} CountSwitchAppend(a: seq<string>, b: seq<string>, h: string)
    ensures CountSwitch(a + b, h) == CountSwitch(a, h) + CountSwitch(b, h)
    decreases |b|
  {
    if b != [] {
      var last := b[|b| - 1];
      assert (a + b)[..|a + b| - 1] == a + b[..|b| - 1];
      CountSwitchAppend(a, b[..|b| - 1], h);
    } else {
      assert a + b == a;
    }
  }

  /** A conditional argument with switch `switch` counts once for `h` when taken and equal. */
  lemma CountSwitchWhen(c: bool, arg: string, switch: string, h: string)
    requires SwitchName(arg) == switch
    ensures CountSwitch(When(c, arg), h) == Flag(c && h == switch)
  {
    if c {
      assert [arg][..0] == [];
    }
  }

  /** 1 when the additional arguments are given and set the switch `h`. */
  function ExtraCount(s: Settings, h: string): nat
  {
    Flag(!IsEmpty(s.additionalArguments) && h == SwitchName(s.additionalArguments))
  }

  /** The count over 4 consecutive parts is the sum of the parts' counts. */
  lemma CountOfFour(w1: seq<string>, w2: seq<string>, w3: seq<string>, w4: seq<string>, h: string, f1: nat, f2: nat, f3: nat, f4: nat)
    requires CountSwitch(w1, h) == f1 && CountSwitch(w2, h) == f2 && CountSwitch(w3, h) == f3 && CountSwitch(w4, h) == f4
    ensures CountSwitch(w1 + w2 + w3 + w4, h) == f1 + f2 + f3 + f4
  {
    CountSwitchAppend(w1, w2, h);
    CountSwitchAppend(w1 + w2, w3, h);
    CountSwitchAppend(w1 + w2 + w3, w4, h);
  }

  /** The count over 5 consecutive parts is the sum of the parts' counts. */
  lemma CountOfFive(w1: seq<string>, w2: seq<string>, w3: seq<string>, w4: seq<string>, w5: seq<string>, h: string, f1: nat, f2: nat, f3: nat, f4: nat, f5: nat)
    requires CountSwitch(w1, h) == f1 && CountSwitch(w2, h) == f2 && CountSwitch(w3, h) == f3 && CountSwitch(w4, h) == f4 && CountSwitch(w5, h) == f5
    ensures CountSwitch(w1 + w2 + w3 + w4 + w5, h) == f1 + f2 + f3 + f4 + f5
  {
    CountSwitchAppend(w1, w2, h);
    CountSwitchAppend(w1 + w2, w3, h);
    CountSwitchAppend(w1 + w2 + w3, w4, h);
    CountSwitchAppend(w1 + w2 + w3 + w4, w5, h);
  }

  /** The count over 6 consecutive parts is the sum of the parts' counts. */
  lemma CountOfSix(w1: seq<string>, w2: seq<string>, w3: seq<string>, w4: seq<string>, w5: seq<string>, w6: seq<string>, h: string, f1: nat, f2: nat, f3: nat, f4: nat, f5: nat, f6: nat)
    requires CountSwitch(w1, h) == f1 && CountSwitch(w2, h) == f2 && CountSwitch(w3, h) == f3 && CountSwitch(w4, h) == f4 && CountSwitch(w5, h) == f5 && CountSwitch(w6, h) == f6
    ensures CountSwitch(w1 + w2 + w3 + w4 + w5 + w6, h) == f1 + f2 + f3 + f4 + f5 + f6
  {
    CountSwitchAppend(w1, w2, h);
    CountSwitchAppend(w1 + w2, w3, h);
    CountSwitchAppend(w1 + w2 + w3, w4, h);
    CountSwitchAppend(w1 + w2 + w3 + w4, w5, h);
    CountSwitchAppend(w1 + w2 + w3 + w4 + w5, w6, h);
  }

  /** The literal switches are of the two shapes SwitchName recognises. */
  lemma KnownSwitchShapes()
    ensures IsValuedSwitch("/Command=") && IsValuedSwitch("/Profile=") && IsValuedSwitch("/AvoidLocal=")
    ensures IsValuedSwitch("/MaxCPUs=") && IsValuedSwitch("/MaxWinVer=") && IsValuedSwitch("/MinWinVer=")
    ensures IsValuedSwitch("/Title=") && IsValuedSwitch("/Mon=") && IsValuedSwitch("/Log=")
    ensures IsValuedSwitch("/LogLevel=") && IsValuedSwitch("/SetEnv=")
    ensures '=' !in "/Silent" && '=' !in "/ShowCmd" && '=' !in "/ShowAgent" && '=' !in "/ShowTime"
    ensures '=' !in "/NoLogo" && '=' !in "/StopOnErrors" && '=' !in "/OpenMonitor"
  {
  }

  /** The switch each fixed step sets. */
  lemma ArgumentSwitchNames(s: Settings, commandFlag: string)
    ensures SwitchName("/Command= " + commandFlag) == "/Command="
    ensures SwitchName("/Profile=" + s.profileXml) == "/Profile="
    ensures SwitchName("/AvoidLocal=" + OnOff(s.avoidLocal)) == "/AvoidLocal="
    ensures SwitchName("/MaxCPUs=" + Decimal(s.maxCpu)) == "/MaxCPUs="
    ensures SwitchName("/MaxWinVer=" + NormalizeWinVerArgument(s.maxWinVer)) == "/MaxWinVer="
    ensures SwitchName("/MinWinVer=" + NormalizeWinVerArgument(s.minWinVer)) == "/MinWinVer="
    ensures SwitchName("/Title=" + s.title) == "/Title="
    ensures SwitchName("/Mon=" + s.monFile) == "/Mon="
    ensures SwitchName("/Silent") == "/Silent"
    ensures SwitchName("/Log=" + s.logFile) == "/Log="
    ensures SwitchName("/ShowCmd") == "/ShowCmd"
    ensures SwitchName("/ShowAgent") == "/ShowAgent"
    ensures SwitchName("/ShowTime") == "/ShowTime"
    ensures SwitchName("/NoLogo") == "/NoLogo"
    ensures SwitchName("/LogLevel=" + s.logLevel) == "/LogLevel="
    ensures SwitchName("/SetEnv=" + s.setEnv) == "/SetEnv="
    ensures SwitchName("/StopOnErrors") == "/StopOnErrors"
    ensures SwitchName("/OpenMonitor") == "/OpenMonitor"
  {
    KnownSwitchShapes();
    assert "/Command= " + commandFlag == "/Command=" + (" " + commandFlag);
    SwitchNameOfValued("/Command=", " " + commandFlag);
    SwitchNameOfValued("/Profile=", s.profileXml);
    SwitchNameOfValued("/AvoidLocal=", OnOff(s.avoidLocal));
    SwitchNameOfValued("/MaxCPUs=", Decimal(s.maxCpu));
    SwitchNameOfValued("/MaxWinVer=", NormalizeWinVerArgument(s.maxWinVer));
    SwitchNameOfValued("/MinWinVer=", NormalizeWinVerArgument(s.minWinVer));
    SwitchNameOfValued("/Title=", s.title);
    SwitchNameOfValued("/Mon=", s.monFile);
    SwitchNameOfPlain("/Silent");
    SwitchNameOfValued("/Log=", s.logFile);
    SwitchNameOfPlain("/ShowCmd");
    SwitchNameOfPlain("/ShowAgent");
    SwitchNameOfPlain("/ShowTime");
    SwitchNameOfPlain("/NoLogo");
    SwitchNameOfValued("/LogLevel=", s.logLevel);
    SwitchNameOfValued("/SetEnv=", s.setEnv);
    SwitchNameOfPlain("/StopOnErrors");
    SwitchNameOfPlain("/OpenMonitor");
  }

  lemma ScheduleSwitches(s: Settings, commandFlag: string, h: string)
    ensures CountSwitch(ScheduleArguments(s, commandFlag), h) ==
      Flag(h == "/Command=")
      + Flag(!IsEmpty(s.profileXml) && h == "/Profile=")
      + Flag(h == "/AvoidLocal=")
      + Flag(s.maxCpu > 0 && h == "/MaxCPUs=")
      + Flag(!IsEmpty(s.maxWinVer) && h == "/MaxWinVer=")
      + Flag(!IsEmpty(s.minWinVer) && h == "/MinWinVer=")
  {
    ArgumentSwitchNames(s, commandFlag);
    CountSwitchWhen(true, "/Command= " + commandFlag, "/Command=", h);
    CountSwitchWhen(!IsEmpty(s.profileXml), "/Profile=" + s.profileXml, "/Profile=", h);
    CountSwitchWhen(true, "/AvoidLocal=" + OnOff(s.avoidLocal), "/AvoidLocal=", h);
    CountSwitchWhen(s.maxCpu > 0, "/MaxCPUs=" + Decimal(s.maxCpu), "/MaxCPUs=", h);
    CountSwitchWhen(!IsEmpty(s.maxWinVer), "/MaxWinVer=" + NormalizeWinVerArgument(s.maxWinVer), "/MaxWinVer=", h);
    CountSwitchWhen(!IsEmpty(s.minWinVer), "/MinWinVer=" + NormalizeWinVerArgument(s.minWinVer), "/MinWinVer=", h);
    CountOfSix(["/Command= " + commandFlag], When(!IsEmpty(s.profileXml), "/Profile=" + s.profileXml), ["/AvoidLocal=" + OnOff(s.avoidLocal)], When(s.maxCpu > 0, "/MaxCPUs=" + Decimal(s.maxCpu)), When(!IsEmpty(s.maxWinVer), "/MaxWinVer=" + NormalizeWinVerArgument(s.maxWinVer)), When(!IsEmpty(s.minWinVer), "/MinWinVer=" + NormalizeWinVerArgument(s.minWinVer)), h,
      Flag(h == "/Command="), Flag(!IsEmpty(s.profileXml) && h == "/Profile="), Flag(h == "/AvoidLocal="), Flag(s.maxCpu > 0 && h == "/MaxCPUs="), Flag(!IsEmpty(s.maxWinVer) && h == "/MaxWinVer="), Flag(!IsEmpty(s.minWinVer) && h == "/MinWinVer="));
  }

  lemma MonitorSwitches(s: Settings, h: string)
    ensures CountSwitch(MonitorArguments(s), h) ==
      Flag(!IsEmpty(s.title) && h == "/Title=")
      + Flag(!IsEmpty(s.monFile) && h == "/Mon=")
      + Flag(s.suppressStdOut && h == "/Silent")
      + Flag(!IsEmpty(s.logFile) && h == "/Log=")
  {
    ArgumentSwitchNames(s, "");
    CountSwitchWhen(!IsEmpty(s.title), "/Title=" + s.title, "/Title=", h);
    CountSwitchWhen(!IsEmpty(s.monFile), "/Mon=" + s.monFile, "/Mon=", h);
    CountSwitchWhen(s.suppressStdOut, "/Silent", "/Silent", h);
    CountSwitchWhen(!IsEmpty(s.logFile), "/Log=" + s.logFile, "/Log=", h);
    CountOfFour(When(!IsEmpty(s.title), "/Title=" + s.title), When(!IsEmpty(s.monFile), "/Mon=" + s.monFile), When(s.suppressStdOut, "/Silent"), When(!IsEmpty(s.logFile), "/Log=" + s.logFile), h,
      Flag(!IsEmpty(s.title) && h == "/Title="), Flag(!IsEmpty(s.monFile) && h == "/Mon="), Flag(s.suppressStdOut && h == "/Silent"), Flag(!IsEmpty(s.logFile) && h == "/Log="));
  }

  lemma DisplaySwitches(s: Settings, h: string)
    ensures CountSwitch(DisplayArguments(s), h) ==
      Flag(s.showCmd && h == "/ShowCmd")
      + Flag(s.showAgents && h == "/ShowAgent")
      + Flag(s.showAgents && h == "/ShowTime")
      + Flag(s.hideHeader && h == "/NoLogo")
      + Flag(!IsEmpty(s.logLevel) && h == "/LogLevel=")
  {
    ArgumentSwitchNames(s, "");
    CountSwitchWhen(s.showCmd, "/ShowCmd", "/ShowCmd", h);
    CountSwitchWhen(s.showAgents, "/ShowAgent", "/ShowAgent", h);
    CountSwitchWhen(s.showAgents, "/ShowTime", "/ShowTime", h);
    CountSwitchWhen(s.hideHeader, "/NoLogo", "/NoLogo", h);
    CountSwitchWhen(!IsEmpty(s.logLevel), "/LogLevel=" + s.logLevel, "/LogLevel=", h);
    CountOfFive(When(s.showCmd, "/ShowCmd"), When(s.showAgents, "/ShowAgent"), When(s.showAgents, "/ShowTime"), When(s.hideHeader, "/NoLogo"), When(!IsEmpty(s.logLevel), "/LogLevel=" + s.logLevel), h,
      Flag(s.showCmd && h == "/ShowCmd"), Flag(s.showAgents && h == "/ShowAgent"), Flag(s.showAgents && h == "/ShowTime"), Flag(s.hideHeader && h == "/NoLogo"), Flag(!IsEmpty(s.logLevel) && h == "/LogLevel="));
  }

  lemma ControlSwitches(s: Settings, h: string)
    ensures CountSwitch(ControlArguments(s), h) ==
      Flag(!IsEmpty(s.setEnv) && h == "/SetEnv=")
      + Flag(s.stopOnError && h == "/StopOnErrors")
      + ExtraCount(s, h)
      + Flag(s.openMonitor && h == "/OpenMonitor")
  {
    ArgumentSwitchNames(s, "");
    CountSwitchWhen(!IsEmpty(s.setEnv), "/SetEnv=" + s.setEnv, "/SetEnv=", h);
    CountSwitchWhen(s.stopOnError, "/StopOnErrors", "/StopOnErrors", h);
    CountSwitchWhen(!IsEmpty(s.additionalArguments), s.additionalArguments, SwitchName(s.additionalArguments), h);
    CountSwitchWhen(s.openMonitor, "/OpenMonitor", "/OpenMonitor", h);
    CountOfFour(When(!IsEmpty(s.setEnv), "/SetEnv=" + s.setEnv), When(s.stopOnError, "/StopOnErrors"), When(!IsEmpty(s.additionalArguments), s.additionalArguments), When(s.openMonitor, "/OpenMonitor"), h,
      Flag(!IsEmpty(s.setEnv) && h == "/SetEnv="), Flag(s.stopOnError && h == "/StopOnErrors"), ExtraCount(s, h), Flag(s.openMonitor && h == "/OpenMonitor"));
  }

  /**
   * How often the command line sets the switch `h`: once for every taken step
   * whose fixed switch is `h`, plus once when the additional arguments set it.
   */
  lemma ArgumentSwitches(s: Settings, commandFlag: string, h: string)
    ensures CountSwitch(Arguments(s, commandFlag), h) ==
      Flag(h == "/Command=")
      + Flag(!IsEmpty(s.profileXml) && h == "/Profile=")
      + Flag(h == "/AvoidLocal=")
      + Flag(s.maxCpu > 0 && h == "/MaxCPUs=")
      + Flag(!IsEmpty(s.maxWinVer) && h == "/MaxWinVer=")
      + Flag(!IsEmpty(s.minWinVer) && h == "/MinWinVer=")
      + Flag(!IsEmpty(s.title) && h == "/Title=")
      + Flag(!IsEmpty(s.monFile) && h == "/Mon=")
      + Flag(s.suppressStdOut && h == "/Silent")
      + Flag(!IsEmpty(s.logFile) && h == "/Log=")
      + Flag(s.showCmd && h == "/ShowCmd")
      + Flag(s.showAgents && h == "/ShowAgent")
      + Flag(s.showAgents && h == "/ShowTime")
      + Flag(s.hideHeader && h == "/NoLogo")
      + Flag(!IsEmpty(s.logLevel) && h == "/LogLevel=")
      + Flag(!IsEmpty(s.setEnv) && h == "/SetEnv=")
      + Flag(s.stopOnError && h == "/StopOnErrors")
      + ExtraCount(s, h)
      + Flag(s.openMonitor && h == "/OpenMonitor")
  {
    var schedule, monitor, display, control :=
      ScheduleArguments(s, commandFlag), MonitorArguments(s), DisplayArguments(s), ControlArguments(s);
    ScheduleSwitches(s, commandFlag, h);
    MonitorSwitches(s, h);
    DisplaySwitches(s, h);
    ControlSwitches(s, h);
    CountOfFour(schedule, monitor, display, control, h,
      CountSwitch(schedule, h), CountSwitch(monitor, h), CountSwitch(display, h), CountSwitch(control, h));
  }

  /** The command and the "avoid local" switch are always passed exactly once by the step itself. */
  lemma AlwaysPassedSwitches(s: Settings, commandFlag: string)
    ensures CountSwitch(Arguments(s, commandFlag), "/Command=") == 1 + ExtraCount(s, "/Command=")
    ensures CountSwitch(Arguments(s, commandFlag), "/AvoidLocal=") == 1 + ExtraCount(s, "/AvoidLocal=")
  {
    ArgumentSwitches(s, commandFlag, "/Command=");
    ArgumentSwitches(s, commandFlag, "/AvoidLocal=");
  }

  /**
   * The valued switches of the schedule are passed exactly when their setting
   * is non-empty (or the CPU limit positive), and then carry that setting:
   * the profile as it is, the Windows versions normalised.
   */
  lemma ScheduleValuesPassed(s: Settings, commandFlag: string)
    ensures CountSwitch(Arguments(s, commandFlag), "/Profile=") == Flag(!IsEmpty(s.profileXml)) + ExtraCount(s, "/Profile=")
    ensures CountSwitch(Arguments(s, commandFlag), "/MaxCPUs=") == Flag(s.maxCpu > 0) + ExtraCount(s, "/MaxCPUs=")
    ensures CountSwitch(Arguments(s, commandFlag), "/MaxWinVer=") == Flag(!IsEmpty(s.maxWinVer)) + ExtraCount(s, "/MaxWinVer=")
    ensures CountSwitch(Arguments(s, commandFlag), "/MinWinVer=") == Flag(!IsEmpty(s.minWinVer)) + ExtraCount(s, "/MinWinVer=")
    ensures !IsEmpty(s.profileXml) ==> "/Profile=" + s.profileXml in Arguments(s, commandFlag)
    ensures s.maxCpu > 0 ==> "/MaxCPUs=" + Decimal(s.maxCpu) in Arguments(s, commandFlag)
    ensures !IsEmpty(s.maxWinVer) ==> "/MaxWinVer=" + NormalizeWinVerArgument(s.maxWinVer) in Arguments(s, commandFlag)
    ensures !IsEmpty(s.minWinVer) ==> "/MinWinVer=" + NormalizeWinVerArgument(s.minWinVer) in Arguments(s, commandFlag)
  {
    ArgumentSwitches(s, commandFlag, "/Profile=");
    ArgumentSwitches(s, commandFlag, "/MaxCPUs=");
    ArgumentSwitches(s, commandFlag, "/MaxWinVer=");
    ArgumentSwitches(s, commandFlag, "/MinWinVer=");
  }

  /** The title, monitor file and log file are passed exactly when non-empty, and then carry their text. */
  lemma TextValuesPassed(s: Settings, commandFlag: string)
    ensures CountSwitch(Arguments(s, commandFlag), "/Title=") == Flag(!IsEmpty(s.title)) + ExtraCount(s, "/Title=")
    ensures CountSwitch(Arguments(s, commandFlag), "/Mon=") == Flag(!IsEmpty(s.monFile)) + ExtraCount(s, "/Mon=")
    ensures CountSwitch(Arguments(s, commandFlag), "/Log=") == Flag(!IsEmpty(s.logFile)) + ExtraCount(s, "/Log=")
    ensures !IsEmpty(s.title) ==> "/Title=" + s.title in Arguments(s, commandFlag)
    ensures !IsEmpty(s.monFile) ==> "/Mon=" + s.monFile in Arguments(s, commandFlag)
    ensures !IsEmpty(s.logFile) ==> "/Log=" + s.logFile in Arguments(s, commandFlag)
  {
    ArgumentSwitches(s, commandFlag, "/Title=");
    ArgumentSwitches(s, commandFlag, "/Mon=");
    ArgumentSwitches(s, commandFlag, "/Log=");
  }

  /** The log level and the environment variable are passed exactly when non-empty, and then carry their text. */
  lemma LevelAndEnvironmentPassed(s: Settings, commandFlag: string)
    ensures CountSwitch(Arguments(s, commandFlag), "/LogLevel=") == Flag(!IsEmpty(s.logLevel)) + ExtraCount(s, "/LogLevel=")
    ensures CountSwitch(Arguments(s, commandFlag), "/SetEnv=") == Flag(!IsEmpty(s.setEnv)) + ExtraCount(s, "/SetEnv=")
    ensures !IsEmpty(s.logLevel) ==> "/LogLevel=" + s.logLevel in Arguments(s, commandFlag)
    ensures !IsEmpty(s.setEnv) ==> "/SetEnv=" + s.setEnv in Arguments(s, commandFlag)
  {
    ArgumentSwitches(s, commandFlag, "/LogLevel=");
    ArgumentSwitches(s, commandFlag, "/SetEnv=");
  }

  /** Both "/ShowAgent" and "/ShowTime" follow the "show agents" option. */
  lemma ShowSwitchesFollowShowAgents(s: Settings, commandFlag: string)
    ensures CountSwitch(Arguments(s, commandFlag), "/ShowAgent") == Flag(s.showAgents) + ExtraCount(s, "/ShowAgent")
    ensures CountSwitch(Arguments(s, commandFlag), "/ShowTime") == Flag(s.showAgents) + ExtraCount(s, "/ShowTime")
  {
    ArgumentSwitches(s, commandFlag, "/ShowAgent");
    ArgumentSwitches(s, commandFlag, "/ShowTime");
  }

  lemma Regroup4(a: seq<string>, w1: seq<string>, w2: seq<string>, w3: seq<string>, w4: seq<string>)
    ensures a + w1 + w2 + w3 + w4 == a + (w1 + w2 + w3 + w4)
  {
  }

  lemma Regroup5(a: seq<string>, w1: seq<string>, w2: seq<string>, w3: seq<string>, w4: seq<string>, w5: seq<string>)
    ensures a + w1 + w2 + w3 + w4 + w5 == a + (w1 + w2 + w3 + w4 + w5)
  {
  }

  /** `if (c) args.append(arg)`. */
  method AppendIf(args: seq<string>, c: bool, arg: string) returns (r: seq<string>)
    ensures r == args + When(c, arg)
    ensures |r| == |args| + Flag(c)
  {
    r := args;
    if c {
      r := r + [arg];
    }
  }

  /** The provider's first appends: the command, the profile, local execution, CPUs and Windows versions. */
  method StartArguments(s: Settings, commandFlag: string) returns (args: seq<string>)
    ensures args == ScheduleArguments(s, commandFlag)
  {
    args := ["/Command= " + commandFlag];
    args := AppendIf(args, !IsEmpty(s.profileXml), "/Profile=" + s.profileXml);
    args := args + ["/AvoidLocal=" + OnOff(s.avoidLocal)];
    args := AppendIf(args, s.maxCpu > 0, "/MaxCPUs=" + Decimal(s.maxCpu));
    args := AppendIf(args, !IsEmpty(s.maxWinVer), "/MaxWinVer=" + NormalizeWinVerArgument(s.maxWinVer));
    args := AppendIf(args, !IsEmpty(s.minWinVer), "/MinWinVer=" + NormalizeWinVerArgument(s.minWinVer));
  }

  /** The provider's appends for the title, monitor file, silent mode and log file. */
  method AppendMonitorArguments(args: seq<string>, s: Settings) returns (r: seq<string>)
    ensures r == args + MonitorArguments(s)
  {
    r := AppendIf(args, !IsEmpty(s.title), "/Title=" + s.title);
    r := AppendIf(r, !IsEmpty(s.monFile), "/Mon=" + s.monFile);
    r := AppendIf(r, s.suppressStdOut, "/Silent");
    r := AppendIf(r, !IsEmpty(s.logFile), "/Log=" + s.logFile);
    Regroup4(args, When(!IsEmpty(s.title), "/Title=" + s.title), When(!IsEmpty(s.monFile), "/Mon=" + s.monFile),
      When(s.suppressStdOut, "/Silent"), When(!IsEmpty(s.logFile), "/Log=" + s.logFile));
  }

  /** The provider's appends for what the output shows. */
  method AppendDisplayArguments(args: seq<string>, s: Settings) returns (r: seq<string>)
    ensures r == args + DisplayArguments(s)
  {
    r := AppendIf(args, s.showCmd, "/ShowCmd");
    r := AppendIf(r, s.showAgents, "/ShowAgent");
    r := AppendIf(r, s.showAgents, "/ShowTime");
    r := AppendIf(r, s.hideHeader, "/NoLogo");
    r := AppendIf(r, !IsEmpty(s.logLevel), "/LogLevel=" + s.logLevel);
    Regroup5(args, When(s.showCmd, "/ShowCmd"), When(s.showAgents, "/ShowAgent"), When(s.showAgents, "/ShowTime"),
      When(s.hideHeader, "/NoLogo"), When(!IsEmpty(s.logLevel), "/LogLevel=" + s.logLevel));
  }

  /** The provider's last appends: environment, error handling, additional arguments, monitor. */
  method AppendControlArguments(args: seq<string>, s: Settings) returns (r: seq<string>)
    ensures r == args + ControlArguments(s)
  {
    r := AppendIf(args, !IsEmpty(s.setEnv), "/SetEnv=" + s.setEnv);
    r := AppendIf(r, s.stopOnError, "/StopOnErrors");
    r := AppendIf(r, !IsEmpty(s.additionalArguments), s.additionalArguments);
    r := AppendIf(r, s.openMonitor, "/OpenMonitor");
    Regroup4(args, When(!IsEmpty(s.setEnv), "/SetEnv=" + s.setEnv), When(s.stopOnError, "/StopOnErrors"),
      When(!IsEmpty(s.additionalArguments), s.additionalArguments), When(s.openMonitor, "/OpenMonitor"));
  }

  /**
   * The command-line provider of the step. The command builder is a parameter
   * that maps the "keep original jobs number" option to its full command flag.
   */
  method ProvideCommandLine(s: Settings, fullCommandFlag: bool -> string) returns (cl: CommandLine)
    ensures cl.executable == Program
    ensures cl.arguments == Arguments(s, fullCommandFlag(s.keepJobNum))
  {
    var commandFlag := fullCommandFlag(s.keepJobNum);
    var args := StartArguments(s, commandFlag);
    args := AppendMonitorArguments(args, s);
    args := AppendDisplayArguments(args, s);
    args := AppendControlArguments(args, s);
    cl := CommandLine(Program, args);
  }

}
