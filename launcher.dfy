/**
 * The launcher of the `tractor` command (src/tractor.c): it scans the
 * command line into global settings, builds the R call that bootstraps an
 * experiment script, hands that call to R's console reader in chunks, and
 * recognises error messages on R's error stream.
 *
 * The launcher's static variables are the fields of one Launcher object.
 * A `char *` is a CStr: NULL, a pointer that was never initialised, or a C
 * string. argv is an array of argc + 1 entries whose last entry is NULL, as C
 * guarantees; the scan overwrites consumed entries with NULL.
 */
module Launcher {
  import opened Maybe
  import opened CStrings

  /** A `char *` variable: NULL, never initialised, or pointing at a C string. */
  datatype CStr = Null | Uninit | Str(s: string)

  /** The C strings a launcher may hold contain no NUL. */
  predicate Terminated(c: CStr) { c.Str? ==> NoNul(c.s) }

  /** The settings parse_arguments fills in (log_file is kept as the name of the file to open). */
  datatype Settings = Settings(
    scriptFile: CStr, workingDir: CStr, outputLevel: CStr, configFile: CStr,
    logFile: Option<string>, parallelisationFactor: int, profilePerformance: int, useColour: int)

  /** The settings' strings are proper C strings and the factor is in 1..99. */
  predicate SettingsValid(st: Settings)
  {
    && Terminated(st.scriptFile) && Terminated(st.workingDir) && Terminated(st.outputLevel)
    && Terminated(st.configFile) && 1 <= st.parallelisationFactor <= 99
  }

  /** The static initial values. */
  const Initial: Settings := Settings(Null, Null, Null, Null, None, 1, 0, 1)

  /** `(size_t) -1`, the "bootstrap string not built yet" marker of read_console. */
  const SizeMax: int := 0xFFFF_FFFF_FFFF_FFFF

  /** strncmp(a, "-", 1) == 0: the argument begins with a dash. */
  predicate StartsWithDash(a: string) { |a| >= 1 && a[0] == '-' }

  /** strcmp(a, "-c") == 0 for the option letter c. */
  predicate IsFlag(a: string, c: char) { |a| == 2 && a[0] == '-' && a[1] == c }

  /** The options that consume the argument after them whether or not there is one. */
  predicate TakesValue(a: string) { IsFlag(a, 'w') || IsFlag(a, 'l') || IsFlag(a, 'c') || IsFlag(a, 'g') }

  /**
   * allocate_and_copy_string(from): a fresh copy of the C string; given
   * NULL, the local pointer is returned without ever being assigned.
   */
  function AllocateAndCopyString(from: Option<string>): (to: CStr)
    ensures to.Uninit? <==> from.None?
    ensures from.Some? ==> to == Str(from.value)
  {
    if from.Some? then Str(from.value) else Uninit
  }

  /** The factor "-p" sets: atoi's value, or 1 when that is outside 1..99. */
  function Factor(arg: string): (p: int)
    ensures 1 <= p <= 99
    ensures 1 <= Atoi(arg) <= 99 <==> p == Atoi(arg)
    ensures !(1 <= Atoi(arg) <= 99) ==> p == 1
  {
    var p := Atoi(arg);
    if p < 1 || p > 99 then 1 else p
  }

  /** One trip round the option loop: the new settings, to_drop, and whether it left the loop by break. */
  datatype Iteration = Iteration(settings: Settings, toDrop: nat, breaks: bool)

  /**
   * The if-chain of the option loop for argument arg followed by next
   * (next is argv[current_arg + 1], NULL after the last argument).
   */
  function ScanOption(st: Settings, arg: string, next: Option<string>): (r: Iteration)
    ensures r.breaks <==> !StartsWithDash(arg) && st.scriptFile == Null
    ensures r.toDrop <= 2
    ensures r.breaks ==> r.toDrop == 0 && r.settings == st.(scriptFile := Str(arg))
    ensures TakesValue(arg) ==> r.toDrop == 2
    ensures IsFlag(arg, 'p') ==> (r.toDrop == 2 <==> next.Some?)
    ensures IsFlag(arg, 'p') && next.Some? ==> r.settings == st.(parallelisationFactor := Factor(next.value))
    ensures StartsWithDash(arg) && !TakesValue(arg) && !IsFlag(arg, 'p') ==> r.toDrop == 1
    ensures r.toDrop == 0 && !r.breaks ==> r.settings == st
    ensures !r.breaks ==> r.settings.scriptFile == st.scriptFile
    ensures 1 <= st.parallelisationFactor <= 99 ==> 1 <= r.settings.parallelisationFactor <= 99
    ensures SettingsValid(st) && NoNul(arg) && (next.Some? ==> NoNul(next.value)) ==> SettingsValid(r.settings)
  {
    if !StartsWithDash(arg) then
      if st.scriptFile == Null then Iteration(st.(scriptFile := AllocateAndCopyString(Some(arg))), 0, true)
      else Iteration(st, 0, false)
    else if IsFlag(arg, 'w') then Iteration(st.(workingDir := AllocateAndCopyString(next)), 2, false)
    else if IsFlag(arg, 'l') then Iteration(st.(outputLevel := AllocateAndCopyString(next)), 2, false)
    else if IsFlag(arg, 'c') then Iteration(st.(configFile := AllocateAndCopyString(next)), 2, false)
    else if IsFlag(arg, 'g') then Iteration(st.(logFile := next), 2, false)
    else if IsFlag(arg, 'p') then
      if next.Some? then Iteration(st.(parallelisationFactor := Factor(next.value)), 2, false)
      else Iteration(st, 0, false)
    else if IsFlag(arg, 'f') then Iteration(st.(profilePerformance := 1), 1, false)
    else if IsFlag(arg, 'm') then Iteration(st.(useColour := 0), 1, false)
    else Iteration(st, 1, false)
  }

  /**
   * What each option stores: -w, -l and -c a copy of the argument after
   * them, -g that argument as the log file, -f and -m their flag; every
   * other setting is kept, and an unknown option changes nothing.
   */
  lemma OptionSettings(st: Settings, arg: string, next: Option<string>)
    ensures var r := ScanOption(st, arg, next).settings;
      && (IsFlag(arg, 'w') ==> r == st.(workingDir := AllocateAndCopyString(next)))
      && (IsFlag(arg, 'l') ==> r == st.(outputLevel := AllocateAndCopyString(next)))
      && (IsFlag(arg, 'c') ==> r == st.(configFile := AllocateAndCopyString(next)))
      && (IsFlag(arg, 'g') ==> r == st.(logFile := next))
      && (IsFlag(arg, 'f') ==> r == st.(profilePerformance := 1))
      && (IsFlag(arg, 'm') ==> r == st.(useColour := 0))
      && (StartsWithDash(arg) && !TakesValue(arg) && !IsFlag(arg, 'p') && !IsFlag(arg, 'f') && !IsFlag(arg, 'm') ==>
            r == st)
  {
  }

  /** argv from index `from` on: a string at every index below argc, NULL at argc. */
  predicate Args(argv: seq<Option<string>>, from: nat)
  {
    |argv| >= 1 && argv[|argv| - 1].None? && forall i :: from <= i < |argv| - 1 ==> argv[i].Some?
  }

  /** argv with the n entries from `at` on overwritten by NULL. */
  function Drop(argv: seq<Option<string>>, at: nat, n: nat): (r: seq<Option<string>>)
    requires at + n <= |argv|
    ensures |r| == |argv|
    ensures forall i :: 0 <= i < |argv| ==> r[i] == if at <= i < at + n then None else argv[i]
  {
    seq(|argv|, i requires 0 <= i < |argv| => if at <= i < at + n then None else argv[i])
  }

  lemma DropDrop(argv: seq<Option<string>>, at: nat, n: nat, m: nat)
    requires at + n + m <= |argv|
    ensures Drop(Drop(argv, at, n), at + n, m) == Drop(argv, at, n + m)
  {
    var d := Drop(Drop(argv, at, n), at + n, m);
    var e := Drop(argv, at, n + m);
    forall i | 0 <= i < |argv|
      ensures d[i] == e[i]
    {
    }
  }

  /**
   * How the option loop ends: it runs past the last argument, it breaks on
   * the script file, or it makes no progress (to_drop stays 0 without a
   * break), in which case it repeats the same iteration for ever.
   */
  datatype Ending = Exhausted | ScriptFound | Hangs

  /** Where the option loop ends: the settings, the value of current_arg, and how. */
  datatype Scanned = Scanned(settings: Settings, at: nat, ending: Ending)

  /**
   * The first pass of parse_arguments from current_arg = cur. Entries it
   * has overwritten with NULL lie before current_arg and are never read
   * again, so the scan reads argv as it was; Reach says how far it
   * overwrites. It stops at the first argument without a leading dash that
   * it reaches (which becomes the script file), or hangs.
   */
  function Scan(argv: seq<Option<string>>, cur: nat, st: Settings): (r: Scanned)
    requires Args(argv, cur) && 1 <= cur <= |argv|
    ensures cur <= r.at
    ensures r.ending != Exhausted ==> r.at < |argv| - 1
    ensures r.ending == Exhausted ==> r.at <= |argv| && (cur < |argv| ==> |argv| - 1 <= r.at)
    decreases |argv| - cur
  {
    if cur >= |argv| - 1 then Scanned(st, cur, Exhausted)
    else
      var it := ScanOption(st, argv[cur].value, argv[cur + 1]);
      if it.breaks then Scanned(it.settings, cur, ScriptFound)
      else if it.toDrop == 0 then Scanned(st, cur, Hangs)
      else Scan(argv, cur + it.toDrop, it.settings)
  }

  /**
   * The index below which the scan has overwritten argv with NULL: it
   * consumes every argument it passes, the script file included and a
   * hanging option excluded.
   */
  function Reach(r: Scanned): nat
  {
    if r.ending == ScriptFound then r.at + 1 else r.at
  }

  /** One trip round the option loop from cur, as the loop takes it. */
  lemma ScanStep(argv: seq<Option<string>>, cur: nat, st: Settings, it: Iteration)
    requires Args(argv, cur) && 1 <= cur < |argv| - 1
    requires it == ScanOption(st, argv[cur].value, argv[cur + 1])
    ensures it.toDrop <= 2
    ensures it.breaks ==> Scan(argv, cur, st) == Scanned(it.settings, cur, ScriptFound)
    ensures !it.breaks && it.toDrop == 0 ==> Scan(argv, cur, st) == Scanned(st, cur, Hangs)
    ensures !it.breaks && it.toDrop > 0 ==> Scan(argv, cur, st) == Scan(argv, cur + it.toDrop, it.settings)
  {
  }

  /** A scan that breaks has stopped at an argument without a dash and made it the script file. */
  lemma {:induction false} ScanFindsScript(argv: seq<Option<string>>, cur: nat, st: Settings)
    requires Args(argv, cur) && 1 <= cur <= |argv|
    ensures var r := Scan(argv, cur, st);
      r.ending == ScriptFound ==> !StartsWithDash(argv[r.at].value) && r.settings.scriptFile == Str(argv[r.at].value)
    decreases |argv| - cur
  {
    if cur < |argv| - 1 {
      var it := ScanOption(st, argv[cur].value, argv[cur + 1]);
      if !it.breaks && it.toDrop > 0 {
        ScanFindsScript(argv, cur + it.toDrop, it.settings);
      }
    }
  }

  /** A scan hangs on a "-p" that is the last argument, or on a second script name. */
  lemma {:induction false} ScanHangs(argv: seq<Option<string>>, cur: nat, st: Settings)
    requires Args(argv, cur) && 1 <= cur <= |argv|
    ensures var r := Scan(argv, cur, st);
      r.ending == Hangs ==>
        (IsFlag(argv[r.at].value, 'p') && r.at == |argv| - 2)
        || (!StartsWithDash(argv[r.at].value) && r.settings.scriptFile != Null)
    decreases |argv| - cur
  {
    if cur < |argv| - 1 {
      var it := ScanOption(st, argv[cur].value, argv[cur + 1]);
      if !it.breaks && it.toDrop > 0 {
        ScanHangs(argv, cur + it.toDrop, it.settings);
      }
    }
  }

  /** Only the break sets the script file. */
  lemma {:induction false} ScanKeepsScript(argv: seq<Option<string>>, cur: nat, st: Settings)
    requires Args(argv, cur) && 1 <= cur <= |argv|
    ensures var r := Scan(argv, cur, st);
      r.ending != ScriptFound ==> r.settings.scriptFile == st.scriptFile
    decreases |argv| - cur
  {
    if cur < |argv| - 1 {
      var it := ScanOption(st, argv[cur].value, argv[cur + 1]);
      if !it.breaks && it.toDrop > 0 {
        ScanKeepsScript(argv, cur + it.toDrop, it.settings);
      }
    }
  }

  /** The scan keeps the parallelisation factor in 1..99. */
  lemma {:induction false} ScanKeepsFactor(argv: seq<Option<string>>, cur: nat, st: Settings)
    requires Args(argv, cur) && 1 <= cur <= |argv|
    ensures var r := Scan(argv, cur, st);
      1 <= st.parallelisationFactor <= 99 ==> 1 <= r.settings.parallelisationFactor <= 99
    decreases |argv| - cur
  {
    if cur < |argv| - 1 {
      var it := ScanOption(st, argv[cur].value, argv[cur + 1]);
      if !it.breaks && it.toDrop > 0 {
        ScanKeepsFactor(argv, cur + it.toDrop, it.settings);
      }
    }
  }

  /** The strings among xs, in order (the arguments the scan left in argv). */
  function Present(xs: seq<Option<string>>): seq<string>
  {
    if xs == [] then []
    else Present(xs[..|xs| - 1]) + (if xs[|xs| - 1].Some? then [xs[|xs| - 1].value] else [])
  }

  lemma {:induction false} PresentAppend(a: seq<Option<string>>, b: seq<Option<string>>)
    ensures Present(a + b) == Present(a) + Present(b)
    decreases |b|
  {
    if b == [] {
      assert a + b == a;
    } else {
      var b' := b[..|b| - 1];
      assert (a + b)[..|a + b| - 1] == a + b';
      assert (a + b)[|a + b| - 1] == b[|b| - 1];
      PresentAppend(a, b');
    }
  }

  lemma {:induction false} PresentOfNulls(xs: seq<Option<string>>)
    requires forall i :: 0 <= i < |xs| ==> xs[i].None?
    ensures Present(xs) == []
  {
    if xs != [] {
      PresentOfNulls(xs[..|xs| - 1]);
    }
  }

  lemma {:induction false} PresentOfStrings(xs: seq<Option<string>>)
    requires forall i :: 0 <= i < |xs| ==> xs[i].Some?
    ensures |Present(xs)| == |xs| && forall i :: 0 <= i < |xs| ==> Present(xs)[i] == xs[i].value
  {
    if xs != [] {
      PresentOfStrings(xs[..|xs| - 1]);
    }
  }

  /** argv once the first pass from current_arg = 1 has overwritten what it consumed. */
  function AfterScan(argv: seq<Option<string>>, st: Settings): (left: seq<Option<string>>)
    requires Args(argv, 1)
    ensures |left| == |argv|
  {
    Drop(argv, 1, Reach(Scan(argv, 1, st)) - 1)
  }

  /**
   * What a scan leaves for script_args: when it found a script file, every
   * argument after it, dash-prefixed ones included, in order; when it ran
   * out of arguments, none.
   */
  lemma ScriptArgsAreTheRest(argv: seq<Option<string>>, st: Settings)
    requires Args(argv, 1)
    ensures var r := Scan(argv, 1, st);
      r.ending == ScriptFound ==> Present(AfterScan(argv, st)[1..]) == Present(argv[r.at + 1..])
    ensures Scan(argv, 1, st).ending == Exhausted ==> Present(AfterScan(argv, st)[1..]) == []
  {
    var r := Scan(argv, 1, st);
    var left := AfterScan(argv, st);
    if r.ending == ScriptFound {
      var a := left[1..r.at + 1];
      assert left[1..] == a + left[r.at + 1..];
      PresentAppend(a, left[r.at + 1..]);
      PresentOfNulls(a);
      assert left[r.at + 1..] == argv[r.at + 1..];
    } else if r.ending == Exhausted {
      PresentOfNulls(left[1..]);
    }
  }

  /** A fresh scan can only hang on a "-p" that is the last argument. */
  lemma FreshScanHangs(argv: seq<Option<string>>)
    requires Args(argv, 1)
    ensures var r := Scan(argv, 1, Initial);
      r.ending == Hangs ==> IsFlag(argv[r.at].value, 'p') && r.at == |argv| - 2
  {
    ScanHangs(argv, 1, Initial);
    ScanKeepsScript(argv, 1, Initial);
  }

  /** A "-p" reached as the last argument makes the option loop spin: to_drop stays 0 and nothing changes. */
  lemma TrailingFactorHangs(argv: seq<Option<string>>, st: Settings)
    requires |argv| >= 3 && Args(argv, |argv| - 2) && IsFlag(argv[|argv| - 2].value, 'p')
    ensures Scan(argv, |argv| - 2, st) == Scanned(st, |argv| - 2, Hangs)
  {
  }

  /** "-w", "-l" or "-c" as the last argument stores the uninitialised result of allocate_and_copy_string(NULL). */
  lemma TrailingValueUninitialised(argv: seq<Option<string>>, st: Settings)
    requires |argv| >= 3 && Args(argv, |argv| - 2)
    ensures IsFlag(argv[|argv| - 2].value, 'w') ==> Scan(argv, |argv| - 2, st).settings.workingDir == Uninit
    ensures IsFlag(argv[|argv| - 2].value, 'l') ==> Scan(argv, |argv| - 2, st).settings.outputLevel == Uninit
    ensures IsFlag(argv[|argv| - 2].value, 'c') ==> Scan(argv, |argv| - 2, st).settings.configFile == Uninit
  {
  }

  /** The arguments joined in order by single spaces. */
  function Join(ws: seq<string>): string
    requires ws != []
  {
    if |ws| == 1 then ws[0] else Join(ws[..|ws| - 1]) + " " + ws[|ws| - 1]
  }

  /** Each argument followed by a space, as the third pass writes them. */
  function Spaced(ws: seq<string>): string
  {
    if ws == [] then "" else Spaced(ws[..|ws| - 1]) + ws[|ws| - 1] + " "
  }

  /** The bytes the second pass counts: each argument's length plus one for its space. */
  function SpacedLength(ws: seq<string>): (n: nat)
    ensures n == 0 <==> ws == []
  {
    if ws == [] then 0 else SpacedLength(ws[..|ws| - 1]) + |ws[|ws| - 1]| + 1
  }

  /** Writing every argument and a space, then overwriting the last space, leaves the arguments joined by spaces. */
  lemma {:induction false} SpacedIsJoin(ws: seq<string>)
    ensures |Spaced(ws)| == SpacedLength(ws)
    ensures ws != [] ==> Spaced(ws) == Join(ws) + " "
  {
    if ws != [] {
      SpacedIsJoin(ws[..|ws| - 1]);
    }
  }

  lemma {:induction false} SpacedLengthPrefix(xs: seq<Option<string>>, j: nat)
    requires j <= |xs|
    ensures SpacedLength(Present(xs[..j])) <= SpacedLength(Present(xs))
    decreases |xs|
  {
    if j < |xs| {
      var init := xs[..|xs| - 1];
      assert xs[..j] == init[..j];
      SpacedLengthPrefix(init, j);
      var p := Present(init);
      if xs[|xs| - 1].Some? {
        assert (p + [xs[|xs| - 1].value])[..|p|] == p;
      } else {
        assert p + [] == p;
      }
    } else {
      assert xs[..j] == xs;
    }
  }

  /** One more entry of argv: the second pass adds its length and a space, the third writes it and a space. */
  lemma SpacedStep(a: seq<Option<string>>, x: Option<string>)
    ensures |Spaced(Present(a))| == SpacedLength(Present(a))
    ensures Spaced(Present(a + [x])) == Spaced(Present(a)) + (if x.Some? then x.value + " " else "")
    ensures SpacedLength(Present(a + [x])) == SpacedLength(Present(a)) + (if x.Some? then |x.value| + 1 else 0)
  {
    assert (a + [x])[..|a|] == a;
    var p := Present(a);
    SpacedIsJoin(p);
    if x.Some? {
      assert (p + [x.value])[..|p|] == p;
    } else {
      assert p + [] == p;
    }
  }

  lemma NoNulSpaced(ws: seq<string>)
    requires forall i :: 0 <= i < |ws| ==> NoNul(ws[i])
    ensures NoNul(Spaced(ws))
  {
    if ws != [] {
      NoNulSpaced(ws[..|ws| - 1]);
    }
  }

  /** The literal pieces of the R call; none holds a NUL. */
  const FixedPart: string := "library(utils); " + "library(tractor.utils); " + "bootstrapExperiment("
  const WorkingDirName: string := ", workingDirectory="
  const OutputLevelName: string := ", outputLevel=OL$"
  const ConfigFilesName: string := ", configFiles="
  const ConfigTextName: string := ", configText="
  const FactorName: string := ", parallelisationFactor="
  const ProfileFlag: string := ", profile=TRUE"
  const Closing: string := ")\n"

  lemma LiteralsHaveNoNul()
    ensures NoNul(FixedPart) && NoNul(WorkingDirName) && NoNul(OutputLevelName) && NoNul(ConfigFilesName)
    ensures NoNul(ConfigTextName) && NoNul(FactorName) && NoNul(ProfileFlag) && NoNul(Closing) && NoNul("'")
  {
    FixedPartHasNoNul();
  }

  lemma FixedPartHasNoNul()
    ensures NoNul(FixedPart)
  {
  }

  /** One quoted argument of the R call, `name'value'`, or nothing when the variable is NULL. */
  function Quoted(name: string, v: CStr): (r: string)
    requires !v.Uninit?
    ensures |r| == if v.Str? then |name| + |v.s| + 2 else 0
    ensures NoNul(name) && Terminated(v) ==> NoNul(r)
  {
    if v.Str? then name + "'" + v.s + "'" else ""
  }

  /** The outputLevel argument, `, outputLevel=OL$level`, or nothing. */
  function LevelArgument(v: CStr): (r: string)
    requires !v.Uninit?
    ensures |r| == if v.Str? then |OutputLevelName| + |v.s| else 0
    ensures Terminated(v) ==> NoNul(r)
  {
    LiteralsHaveNoNul();
    if v.Str? then OutputLevelName + v.s else ""
  }

  /** The parallelisationFactor argument in decimal, present only for factors above 1. */
  function FactorArgument(p: int): (r: string)
    ensures p <= 1 ==> r == []
    ensures 1 < p ==> |r| == |FactorName| + |Decimal(p)|
    ensures NoNul(r)
  {
    LiteralsHaveNoNul();
    if p > 1 then
      var d := Decimal(p);
      assert NoNul(d) by {
        assert forall i :: 0 <= i < |d| ==> d[i] != NUL;
      }
      FactorName + d
    else ""
  }

  /** The variables the bootstrap call reads hold no uninitialised pointer, and a script file is set. */
  predicate Bootstrappable(st: Settings, scriptArgs: CStr)
  {
    st.scriptFile.Str? && !st.workingDir.Uninit? && !st.outputLevel.Uninit? && !st.configFile.Uninit?
    && !scriptArgs.Uninit?
  }

  /**
   * The R call build_bootstrap_string writes: the fixed prefix, the script
   * name in single quotes, then only the arguments whose variables are set,
   * in the order workingDirectory, outputLevel, configFiles, configText,
   * parallelisationFactor, profile, then ")" and a newline. Nothing is escaped.
   */
  function Bootstrap(st: Settings, scriptArgs: CStr): (call: string)
    requires Bootstrappable(st, scriptArgs)
    ensures |FixedPart| + |Closing| < |call|
    ensures call[..|FixedPart|] == FixedPart && call[|call| - |Closing|..] == Closing
  {
    FixedPart + "'" + st.scriptFile.s + "'"
    + Quoted(WorkingDirName, st.workingDir)
    + LevelArgument(st.outputLevel)
    + Quoted(ConfigFilesName, st.configFile)
    + Quoted(ConfigTextName, scriptArgs)
    + FactorArgument(st.parallelisationFactor)
    + (if st.profilePerformance == 1 then ProfileFlag else "")
    + Closing
  }

  /** What the length computation adds for one quoted argument: value, name and two quotes, or nothing for NULL. */
  function QuotedAllowance(name: string, v: CStr): (n: int)
    ensures !v.Uninit? ==> n == |Quoted(name, v)|
  {
    if v.Str? then |v.s| + |name| + 2 else 0
  }

  /** What the length computation adds for the output level: value and name, or nothing for NULL. */
  function LevelAllowance(v: CStr): (n: int)
    ensures !v.Uninit? ==> n == |LevelArgument(v)|
  {
    if v.Str? then |v.s| + |OutputLevelName| else 0
  }

  /** What the length computation adds for the factor: two digits above 9, one otherwise, and the name. */
  function FactorAllowance(p: int): (n: int)
    ensures p <= 99 ==> n == |FactorArgument(p)|
    ensures p >= 100 ==> n < |FactorArgument(p)|
  {
    FactorArgumentLength(p);
    if p > 1 then (if p > 9 then 2 else 1) + |FactorName| else 0
  }

  /** The `len` build_bootstrap_string computes and allocates before writing. */
  function AllocatedLength(st: Settings, scriptArgs: CStr): int
    requires Bootstrappable(st, scriptArgs)
  {
    |FixedPart| + 3 + |st.scriptFile.s| + 2
    + QuotedAllowance(WorkingDirName, st.workingDir)
    + LevelAllowance(st.outputLevel)
    + QuotedAllowance(ConfigFilesName, st.configFile)
    + QuotedAllowance(ConfigTextName, scriptArgs)
    + FactorAllowance(st.parallelisationFactor)
    + (if st.profilePerformance == 1 then |ProfileFlag| else 0)
  }

  /** The length of the call, piece by piece. */
  lemma BootstrapLength(st: Settings, scriptArgs: CStr)
    requires Bootstrappable(st, scriptArgs)
    ensures |Bootstrap(st, scriptArgs)| ==
      |FixedPart| + |st.scriptFile.s| + 2
      + |Quoted(WorkingDirName, st.workingDir)| + |LevelArgument(st.outputLevel)|
      + |Quoted(ConfigFilesName, st.configFile)| + |Quoted(ConfigTextName, scriptArgs)|
      + |FactorArgument(st.parallelisationFactor)|
      + (if st.profilePerformance == 1 then |ProfileFlag| else 0) + |Closing|
  {
  }

  /** With a factor of at most 99 the allocation is exactly the written call plus its NUL. */
  lemma AllocatedLengthExact(st: Settings, scriptArgs: CStr)
    requires Bootstrappable(st, scriptArgs) && st.parallelisationFactor <= 99
    ensures AllocatedLength(st, scriptArgs) == |Bootstrap(st, scriptArgs)| + 1
  {
    assert |Closing| == 2;
    BootstrapLength(st, scriptArgs);
  }

  /** "%d" of a factor takes one digit below 10, two below 100 and more from 100 on. */
  lemma FactorArgumentLength(p: int)
    ensures p <= 99 ==> |FactorArgument(p)| == if p > 1 then (if p > 9 then 2 else 1) + |FactorName| else 0
    ensures p >= 100 ==> |FactorArgument(p)| > 2 + |FactorName|
  {
    if p > 1 {
      DecimalLength(p);
    }
  }

  /** A factor of 100 or more (which the option scan never leaves) would overrun the allocation. */
  lemma AllocatedLengthShort(st: Settings, scriptArgs: CStr)
    requires Bootstrappable(st, scriptArgs) && st.parallelisationFactor >= 100
    ensures AllocatedLength(st, scriptArgs) < |Bootstrap(st, scriptArgs)| + 1
  {
    assert |Closing| == 2;
    BootstrapLength(st, scriptArgs);
  }

  /** The R call contains no NUL when its strings contain none. */
  lemma NoNulBootstrap(st: Settings, scriptArgs: CStr)
    requires Bootstrappable(st, scriptArgs)
    requires Terminated(st.scriptFile) && Terminated(st.workingDir) && Terminated(st.outputLevel)
    requires Terminated(st.configFile) && Terminated(scriptArgs)
    ensures NoNul(Bootstrap(st, scriptArgs))
  {
    LiteralsHaveNoNul();
  }

  /**
   * The writing half of build_bootstrap_string: malloc(len), then one
   * sprintf per piece of the call, each piece guarded by the test the
   * source makes.
   */
  method WriteBootstrap(st: Settings, scriptArgs: CStr, len: int) returns (b: array<char>)
    requires Bootstrappable(st, scriptArgs) && 1 <= st.parallelisationFactor <= 99
    requires Terminated(st.scriptFile) && Terminated(st.workingDir) && Terminated(st.outputLevel)
    requires Terminated(st.configFile) && Terminated(scriptArgs)
    requires len == AllocatedLength(st, scriptArgs)
    ensures fresh(b) && b.Length == len == |Bootstrap(st, scriptArgs)| + 1
    ensures b[..len - 1] == Bootstrap(st, scriptArgs) && b[len - 1] == NUL
  {
    AllocatedLengthExact(st, scriptArgs);
    LiteralsHaveNoNul();
    var head := FixedPart + "'" + st.scriptFile.s + "'";
    var wd := Quoted(WorkingDirName, st.workingDir);
    var level := LevelArgument(st.outputLevel);
    var files := Quoted(ConfigFilesName, st.configFile);
    var text := Quoted(ConfigTextName, scriptArgs);
    var factor := FactorArgument(st.parallelisationFactor);
    var profile := if st.profilePerformance == 1 then ProfileFlag else "";
    assert Bootstrap(st, scriptArgs) == head + wd + level + files + text + factor + profile + Closing;
    assert len == |head| + |wd| + |level| + |files| + |text| + |factor| + |profile| + |Closing| + 1;
    b := WritePieces(len, head, st.workingDir != Null, wd, st.outputLevel != Null, level,
                     st.configFile != Null, files, scriptArgs != Null, text,
                     st.parallelisationFactor > 1, factor, st.profilePerformance == 1, profile);
  }

  /** The sprintf sequence: the head, each piece whose test holds (the others are empty), then ")\n". */
  method WritePieces(len: int, head: string, hasWd: bool, wd: string, hasLevel: bool, level: string,
                     hasFiles: bool, files: string, hasText: bool, text: string,
                     hasFactor: bool, factor: string, hasProfile: bool, profile: string)
    returns (b: array<char>)
    requires NoNul(head) && NoNul(wd) && NoNul(level) && NoNul(files) && NoNul(text) && NoNul(factor) && NoNul(profile)
    requires (hasWd || wd == "") && (hasLevel || level == "") && (hasFiles || files == "")
    requires (hasText || text == "") && (hasFactor || factor == "") && (hasProfile || profile == "")
    requires len == |head| + |wd| + |level| + |files| + |text| + |factor| + |profile| + |Closing| + 1
    ensures fresh(b) && b.Length == len
    ensures b[..len - 1] == head + wd + level + files + text + factor + profile + Closing && b[len - 1] == NUL
  {
    LiteralsHaveNoNul();
    b := new char[len];
    var offset := Append(b, 0, head);
    offset := AppendIf(b, offset, hasWd, wd);
    assert b[..offset] == head + wd;
    offset := AppendIf(b, offset, hasLevel, level);
    assert b[..offset] == head + wd + level;
    offset := AppendIf(b, offset, hasFiles, files);
    assert b[..offset] == head + wd + level + files;
    offset := AppendIf(b, offset, hasText, text);
    assert b[..offset] == head + wd + level + files + text;
    offset := AppendIf(b, offset, hasFactor, factor);
    assert b[..offset] == head + wd + level + files + text + factor;
    offset := AppendIf(b, offset, hasProfile, profile);
    assert b[..offset] == head + wd + level + files + text + factor + profile;
    offset := Append(b, offset, Closing);
  }

  /** `if (test) offset += sprintf(b + offset, ...)`, where the piece is empty when the test fails. */
  method AppendIf(b: array<char>, offset: nat, test: bool, text: string) returns (offset': nat)
    requires test || text == ""
    requires NoNul(text) && offset + |text| < b.Length
    modifies b
    ensures offset' == offset + |text|
    ensures b[..offset'] == old(b[..offset]) + text
  {
    offset' := offset;
    if test {
      offset' := Append(b, offset, text);
    } else {
      assert b[..offset] + text == b[..offset];
    }
  }

  /** sprintf(b + offset, ...) of one piece: the piece and a NUL after what is already there; returns the new offset. */
  method Append(b: array<char>, offset: nat, text: string) returns (offset': nat)
    requires NoNul(text) && offset + |text| < b.Length
    modifies b
    ensures offset' == offset + |text|
    ensures b[..offset'] == old(b[..offset]) + text && b[offset'] == NUL
  {
    Write(b, offset, text);
    assert b[..offset + |text|] == b[..offset] + b[offset..offset + |text|];
    offset' := offset + |text|;
  }

  /**
   * is_error_string(string): scans the string and its terminating NUL with
   * a count of the letters of "error" matched so far, case-insensitively.
   */
  method IsErrorString(s: string) returns (r: int)
    requires NoNul(s)
    ensures r == 1 <==> ReportsError(s)
    ensures r == 0 <==> !ReportsError(s)
  {
    var t := s + [NUL];
    var len := |s|;
    var errorString := "error";
    var index := 0;
    var loc := 0;
    while loc <= len
      invariant 0 <= index <= 5 && index <= loc <= len + 1
      invariant index == 0 ==> forall i :: 0 <= i < loc && i < |s| ==> IsPadding(s[i])
      invariant index > 0 ==> loc - index == PaddingLength(s) && loc <= len
      invariant forall i :: 0 <= i < index ==> ToLower(s[loc - index + i]) == errorString[i]
    {
      if index == 5 {
        return 1;
      }
      var currentChar := ToLower(t[loc]);
      if currentChar == errorString[index] {
        if index == 0 {
          PaddingLengthAt(s, loc);
        }
        index := index + 1;
      } else if index > 0 {
        return 0;
      } else if currentChar != ' ' && currentChar != '*' {
        if loc < len {
          PaddingLengthAt(s, loc);
        }
        return 0;
      }
      loc := loc + 1;
    }
    return 0;
  }

  /** A space or an asterisk, which is_error_string skips before the word. */
  predicate IsPadding(c: char) { c == ' ' || c == '*' }

  /** The length of the leading run of spaces and asterisks. */
  function PaddingLength(s: string): (n: nat)
    ensures n <= |s|
    ensures forall i :: 0 <= i < n ==> IsPadding(s[i])
    ensures n < |s| ==> !IsPadding(s[n])
  {
    if s == [] || !IsPadding(s[0]) then 0 else 1 + PaddingLength(s[1..])
  }

  /** The run of padding ends at the first index that is not padding. */
  lemma {:induction false} PaddingLengthAt(s: string, k: nat)
    requires k < |s| && !IsPadding(s[k]) && forall i :: 0 <= i < k ==> IsPadding(s[i])
    ensures PaddingLength(s) == k
  {
    if k > 0 {
      PaddingLengthAt(s[1..], k - 1);
    }
  }

  /** A leading run of spaces and asterisks, then "error" in any mix of cases; anything may follow. */
  predicate ReportsError(s: string)
  {
    var k := PaddingLength(s);
    k + 5 <= |s| && forall i :: 0 <= i < 5 ==> ToLower(s[k + i]) == "error"[i]
  }

  class Launcher {
    var scriptFile: CStr
    var workingDir: CStr
    var outputLevel: CStr
    var configFile: CStr
    var logFile: Option<string>
    var parallelisationFactor: int
    var profilePerformance: int
    var useColour: int
    var scriptArgs: CStr
    var bootstrapString: array?<char>
    var remainingLen: int
    var currentOffset: int
    /** The call in bootstrapString, once built. */
    ghost var bootstrap: string
    /** What read_console has handed to R so far. */
    ghost var handedOut: string

    function Options(): Settings
      reads this`scriptFile, this`workingDir, this`outputLevel, this`configFile, this`logFile
      reads this`parallelisationFactor, this`profilePerformance, this`useColour
    {
      Settings(scriptFile, workingDir, outputLevel, configFile, logFile,
               parallelisationFactor, profilePerformance, useColour)
    }

    /** The launcher's strings are proper C strings and the factor is in 1..99. */
    ghost predicate Valid()
      reads this`scriptFile, this`workingDir, this`outputLevel, this`configFile, this`logFile
      reads this`parallelisationFactor, this`profilePerformance, this`useColour, this`scriptArgs
    {
      SettingsValid(Options()) && Terminated(scriptArgs)
    }

    /**
     * The state read_console keeps: before the first call nothing is built
     * or handed out; afterwards bootstrapString holds the call and its NUL,
     * what has been handed out is the call up to current_offset, and all of
     * it once remaining_len is 0.
     */
    ghost predicate ConsoleValid()
      reads this`remainingLen, this`currentOffset, this`handedOut, this`bootstrap, this`bootstrapString, bootstrapString
    {
      if remainingLen == SizeMax then handedOut == [] && currentOffset == 0
      else
        && bootstrapString != null && NoNul(bootstrap) && |bootstrap| < bootstrapString.Length
        && bootstrapString[..|bootstrap|] == bootstrap && bootstrapString[|bootstrap|] == NUL
        && 0 <= remainingLen < SizeMax && 0 <= currentOffset
        && (remainingLen == 0 ==> handedOut == bootstrap)
        && (remainingLen > 0 ==> currentOffset + remainingLen == |bootstrap| && handedOut == bootstrap[..currentOffset])
    }

    /** The launcher's static variables as the program starts. */
    constructor ()
      ensures Options() == Initial && scriptArgs == Null && bootstrapString == null
      ensures remainingLen == SizeMax && currentOffset == 0 && handedOut == []
      ensures Valid() && ConsoleValid()
    {
      scriptFile, workingDir, outputLevel, configFile := Null, Null, Null, Null;
      logFile := None;
      parallelisationFactor, profilePerformance, useColour := 1, 0, 1;
      scriptArgs := Null;
      bootstrapString := null;
      remainingLen, currentOffset := SizeMax, 0;
      bootstrap, handedOut := [], [];
    }

    /**
     * parse_arguments(argc, argv). The first pass is the loop Scan
     * specifies; where it would spin for ever, the method returns with
     * `hangs` set and does nothing more. Otherwise the second pass sums the
     * lengths of the arguments left, and the third writes them, each followed
     * by a space, into a fresh buffer whose last space becomes the NUL;
     * script_args is left as it was when no argument is left.
     */
    method ParseArguments(argv: array<Option<string>>) returns (hangs: bool)
      requires Valid() && Args(argv[..], 1)
      requires forall i :: 0 <= i < argv.Length && argv[i].Some? ==> NoNul(argv[i].value)
      modifies this`scriptFile, this`workingDir, this`outputLevel, this`configFile, this`logFile
      modifies this`parallelisationFactor, this`profilePerformance, this`useColour, this`scriptArgs, argv
      ensures Valid()
      ensures var r := Scan(old(argv[..]), 1, old(Options()));
        && Options() == r.settings && argv[..] == AfterScan(old(argv[..]), old(Options()))
        && (hangs <==> r.ending == Hangs)
      ensures var rest := Present(argv[1..]);
        scriptArgs == if hangs || rest == [] then old(scriptArgs) else Str(Join(rest))
    {
      hangs := RemoveOptions(argv);
      if hangs {
        return;
      }
      var scriptArgsLen := ArgumentsLength(argv[..]);
      if scriptArgsLen > 0 {
        ghost var rest := Present(argv[1..]);
        var buffer, scriptArgsIndex := CopyArguments(argv[..], scriptArgsLen);
        NoNulPresent(argv[1..]);
        Terminate(buffer, scriptArgsIndex, rest);
        scriptArgs := Str(buffer[..scriptArgsIndex - 1]);
      }
    }

    /**
     * The first pass of parse_arguments: the option loop, with every
     * consumed argument overwritten by NULL. It returns `hangs` where the
     * loop would repeat one iteration for ever.
     */
    method RemoveOptions(argv: array<Option<string>>) returns (hangs: bool)
      requires Valid() && Args(argv[..], 1)
      requires forall i :: 0 <= i < argv.Length && argv[i].Some? ==> NoNul(argv[i].value)
      modifies this`scriptFile, this`workingDir, this`outputLevel, this`configFile, this`logFile
      modifies this`parallelisationFactor, this`profilePerformance, this`useColour, argv
      ensures Valid()
      ensures var r := Scan(old(argv[..]), 1, old(Options()));
        && Options() == r.settings && argv[..] == AfterScan(old(argv[..]), old(Options()))
        && (hangs <==> r.ending == Hangs)
    {
      var argc := argv.Length - 1;
      ghost var original := argv[..];
      ghost var goal := Scan(original, 1, Options());
      hangs := false;
      var currentArg := 1;
      while currentArg < argc
        invariant 1 <= currentArg <= argv.Length
        invariant argv[..] == Drop(original, 1, currentArg - 1)
        invariant Scan(original, currentArg, Options()) == goal
        invariant forall i :: 0 <= i < |original| && original[i].Some? ==> NoNul(original[i].value)
        invariant Valid()
        decreases argc - currentArg
      {
        var toDrop, breaks := ConsumeOption(argv, currentArg, original);
        if breaks {
          return;
        }
        if toDrop == 0 {
          // Nothing changed and current_arg does not advance: the loop repeats this iteration for ever.
          hangs := true;
          return;
        }
        currentArg := currentArg + toDrop;
      }
      assert argv[..] == Drop(original, 1, goal.at - 1);
    }

    /**
     * The body of the option loop at current_arg: the if-chain, the NULL
     * written over the script file when it breaks, and the loop that
     * overwrites the to_drop arguments it consumed.
     */
    method ConsumeOption(argv: array<Option<string>>, currentArg: nat, ghost original: seq<Option<string>>)
      returns (toDrop: nat, breaks: bool)
      requires Valid() && Args(original, currentArg) && 1 <= currentArg < |original| - 1 == argv.Length - 1
      requires argv[..] == Drop(original, 1, currentArg - 1)
      requires forall i :: 0 <= i < |original| && original[i].Some? ==> NoNul(original[i].value)
      modifies this`scriptFile, this`workingDir, this`outputLevel, this`configFile, this`logFile
      modifies this`parallelisationFactor, this`profilePerformance, this`useColour, argv
      ensures Valid()
      ensures breaks ==>
        argv[..] == Drop(original, 1, currentArg) && Scan(original, currentArg, old(Options())) == Scanned(Options(), currentArg, ScriptFound)
      ensures !breaks && toDrop == 0 ==>
        argv[..] == old(argv[..]) && Scan(original, currentArg, old(Options())) == Scanned(Options(), currentArg, Hangs)
      ensures !breaks && toDrop > 0 ==>
        && currentArg + toDrop <= argv.Length && argv[..] == Drop(original, 1, currentArg - 1 + toDrop)
        && Scan(original, currentArg, old(Options())) == Scan(original, currentArg + toDrop, Options())
    {
      var arg := argv[currentArg].value;
      var next := argv[currentArg + 1];
      assert Some(arg) == original[currentArg] && next == original[currentArg + 1];
      toDrop, breaks := ApplyOption(arg, next);
      ScanStep(original, currentArg, old(Options()), Iteration(Options(), toDrop, breaks));
      if breaks {
        argv[currentArg] := None;
        assert argv[..] == Drop(original, 1, currentArg);
      } else if toDrop > 0 {
        Overwrite(argv, currentArg, toDrop);
        DropDrop(original, 1, currentArg - 1, toDrop);
      }
    }

    /** The loop that sets argv[current_arg + i] to NULL for each i below to_drop. */
    static method Overwrite(argv: array<Option<string>>, from: nat, n: nat)
      requires from + n <= argv.Length
      modifies argv
      ensures argv[..] == Drop(old(argv[..]), from, n)
    {
      var i := 0;
      while i < n
        invariant 0 <= i <= n
        invariant argv[..] == Drop(old(argv[..]), from, i)
      {
        argv[from + i] := None;
        i := i + 1;
      }
    }

    /**
     * One trip round the option loop's if-chain for argument arg followed
     * by next: the settings it updates, its to_drop, and whether it breaks
     * on the script file.
     */
    method ApplyOption(arg: string, next: Option<string>) returns (toDrop: nat, breaks: bool)
      requires Valid() && NoNul(arg) && (next.Some? ==> NoNul(next.value))
      modifies this`scriptFile, this`workingDir, this`outputLevel, this`configFile, this`logFile
      modifies this`parallelisationFactor, this`profilePerformance, this`useColour
      ensures Iteration(Options(), toDrop, breaks) == ScanOption(old(Options()), arg, next)
      ensures Valid()
    {
      toDrop, breaks := 0, false;
      if !StartsWithDash(arg) {
        if scriptFile == Null {
          scriptFile := AllocateAndCopyString(Some(arg));
          breaks := true;
        }
      } else if IsFlag(arg, 'w') {
        workingDir := AllocateAndCopyString(next);
        toDrop := 2;
      } else if IsFlag(arg, 'l') {
        outputLevel := AllocateAndCopyString(next);
        toDrop := 2;
      } else if IsFlag(arg, 'c') {
        configFile := AllocateAndCopyString(next);
        toDrop := 2;
      } else if IsFlag(arg, 'g') {
        logFile := next;
        toDrop := 2;
      } else if IsFlag(arg, 'p') {
        if next.Some? {
          parallelisationFactor := Atoi(next.value);
          if parallelisationFactor < 1 || parallelisationFactor > 99 {
            parallelisationFactor := 1;
          }
          toDrop := 2;
        }
      } else if IsFlag(arg, 'f') {
        profilePerformance := 1;
        toDrop := 1;
      } else if IsFlag(arg, 'm') {
        useColour := 0;
        toDrop := 1;
      } else {
        toDrop := 1;
      }
    }

    /** The second pass of parse_arguments: each argument left, plus one for its space. */
    static method ArgumentsLength(argv: seq<Option<string>>) returns (scriptArgsLen: nat)
      requires |argv| >= 1 && argv[|argv| - 1].None?
      ensures scriptArgsLen == SpacedLength(Present(argv[1..]))
    {
      var argc := |argv| - 1;
      scriptArgsLen := 0;
      var currentArg := 1;
      while currentArg < argc
        invariant 1 <= currentArg <= argc + 1 && (argc >= 1 ==> currentArg <= argc)
        invariant scriptArgsLen == SpacedLength(Present(argv[1..currentArg]))
      {
        assert argv[1..currentArg + 1] == argv[1..currentArg] + [argv[currentArg]];
        SpacedStep(argv[1..currentArg], argv[currentArg]);
        if argv[currentArg].Some? {
          scriptArgsLen := scriptArgsLen + |argv[currentArg].value| + 1;
        }
        currentArg := currentArg + 1;
      }
      PresentUpToNull(argv, currentArg);
    }

    /**
     * The third pass of parse_arguments: a buffer of scriptArgsLen + 1
     * characters holding each argument left followed by a space; the index
     * it stops at.
     */
    static method CopyArguments(argv: seq<Option<string>>, scriptArgsLen: nat) returns (buffer: array<char>, scriptArgsIndex: nat)
      requires |argv| >= 1 && argv[|argv| - 1].None? && scriptArgsLen == SpacedLength(Present(argv[1..]))
      requires forall i :: 0 <= i < |argv| && argv[i].Some? ==> NoNul(argv[i].value)
      ensures fresh(buffer) && buffer.Length == scriptArgsLen + 1
      ensures scriptArgsIndex == scriptArgsLen && buffer[..scriptArgsIndex] == Spaced(Present(argv[1..]))
    {
      var argc := |argv| - 1;
      buffer := new char[scriptArgsLen + 1];
      scriptArgsIndex := 0;
      var currentArg := 1;
      while currentArg < argc
        invariant 1 <= currentArg <= argc + 1 && (argc >= 1 ==> currentArg <= argc)
        invariant scriptArgsIndex == |Spaced(Present(argv[1..currentArg]))| <= scriptArgsLen
        invariant buffer[..scriptArgsIndex] == Spaced(Present(argv[1..currentArg]))
      {
        CopyStep(argv, currentArg);
        if argv[currentArg].Some? {
          scriptArgsIndex := CopyArgument(buffer, scriptArgsIndex, argv[currentArg].value);
        }
        currentArg := currentArg + 1;
      }
      PresentUpToNull(argv, currentArg);
      SpacedIsJoin(Present(argv[1..]));
    }

    /** Overwrites the space after the last argument with the NUL: the buffer then holds the arguments joined by spaces. */
    static method Terminate(buffer: array<char>, index: nat, ghost ws: seq<string>)
      requires ws != [] && forall i :: 0 <= i < |ws| ==> NoNul(ws[i])
      requires index == |Spaced(ws)| < buffer.Length && buffer[..index] == Spaced(ws)
      modifies buffer
      ensures index >= 1 && buffer[..index - 1] == Join(ws) && buffer[index - 1] == NUL && NoNul(Join(ws))
    {
      SpacedIsJoin(ws);
      assert buffer[..index - 1] == Join(ws);
      buffer[index - 1] := NUL;
      assert buffer[..index - 1] == old(buffer[..index - 1]);
      NoNulJoin(ws);
    }

    /** The strcpy of one argument and then of a space at script_args_index, which moves past both. */
    static method CopyArgument(buffer: array<char>, index: nat, arg: string) returns (index': nat)
      requires NoNul(arg) && index + |arg| + 1 < buffer.Length
      modifies buffer
      ensures index' == index + |arg| + 1
      ensures buffer[..index'] == old(buffer[..index]) + arg + " " && buffer[index'] == NUL
    {
      index' := Append(buffer, index, arg);
      index' := Append(buffer, index', " ");
    }

    /**
     * build_bootstrap_string(): allocates the computed length and writes the
     * R call into it piece by piece, each sprintf returning the length it wrote.
     */
    method BuildBootstrapString()
      requires Valid() && Bootstrappable(Options(), scriptArgs)
      modifies this`bootstrapString, this`bootstrap
      ensures bootstrap == Bootstrap(Options(), scriptArgs) && NoNul(bootstrap) && |bootstrap| > 0
      ensures bootstrapString != null && fresh(bootstrapString)
      ensures bootstrapString.Length == AllocatedLength(Options(), scriptArgs) == |bootstrap| + 1
      ensures bootstrapString[..|bootstrap|] == bootstrap && bootstrapString[|bootstrap|] == NUL
    {
      var len := BootstrapAllocation();
      bootstrapString := WriteBootstrap(Options(), scriptArgs, len);
      bootstrap := Bootstrap(Options(), scriptArgs);
      NoNulBootstrap(Options(), scriptArgs);
    }

    /** The length build_bootstrap_string computes before allocating. */
    method BootstrapAllocation() returns (len: int)
      requires Bootstrappable(Options(), scriptArgs)
      ensures len == AllocatedLength(Options(), scriptArgs)
    {
      len := |FixedPart| + 3 + |scriptFile.s| + 2;
      ghost var base := len;
      if workingDir != Null {
        len := len + |workingDir.s| + |WorkingDirName| + 2;
      }
      assert len == base + QuotedAllowance(WorkingDirName, workingDir);
      base := len;
      if outputLevel != Null {
        len := len + |outputLevel.s| + |OutputLevelName|;
      }
      assert len == base + LevelAllowance(outputLevel);
      base := len;
      if configFile != Null {
        len := len + |configFile.s| + |ConfigFilesName| + 2;
      }
      assert len == base + QuotedAllowance(ConfigFilesName, configFile);
      base := len;
      if scriptArgs != Null {
        len := len + |scriptArgs.s| + |ConfigTextName| + 2;
      }
      assert len == base + QuotedAllowance(ConfigTextName, scriptArgs);
      base := len;
      if parallelisationFactor > 1 {
        len := len + (if parallelisationFactor > 9 then 2 else 1) + |FactorName|;
      }
      assert len == base + FactorAllowance(parallelisationFactor);
      if profilePerformance == 1 {
        len := len + |ProfileFlag|;
      }
    }

    /**
     * read_console(prompt, buffer, buffer_len, add_to_history): on the first
     * call the bootstrap call is built; until it is used up each call copies
     * the next slice of it, at most buffer_len bytes, into buffer and returns
     * 1; after that the call is passed to R's default reader, whose result
     * is `defaultResult`.
     */
    method ReadConsole(buffer: array<char>, bufferLen: int, defaultResult: int)
      returns (returnValue: int, delegated: bool)
      requires Valid() && ConsoleValid() && buffer != bootstrapString
      requires bufferLen >= 1 && buffer.Length == bufferLen
      requires remainingLen == SizeMax ==>
        Bootstrappable(Options(), scriptArgs) && AllocatedLength(Options(), scriptArgs) <= SizeMax
      modifies this`bootstrapString, this`bootstrap, this`remainingLen, this`currentOffset, this`handedOut, buffer
      ensures Valid() && ConsoleValid() && remainingLen != SizeMax
      ensures bootstrap == if old(remainingLen) == SizeMax then Bootstrap(Options(), scriptArgs) else old(bootstrap)
      ensures delegated <==> old(remainingLen) == 0
      ensures delegated ==> returnValue == defaultResult && handedOut == old(handedOut)
      ensures !delegated ==>
        && returnValue == 1 && old(handedOut) < handedOut && remainingLen < |bootstrap| - |old(handedOut)|
        && |handedOut| - |old(handedOut)| <= bufferLen
        && buffer[..|handedOut| - |old(handedOut)|] == handedOut[|old(handedOut)|..]
      ensures !delegated && |handedOut| - |old(handedOut)| < bufferLen ==> buffer[|handedOut| - |old(handedOut)|] == NUL
      ensures !delegated && |handedOut| - |old(handedOut)| == bufferLen ==> NoNul(buffer[..])
    {
      returnValue := 1;
      delegated := false;

      // First time: build bootstrap string
      if remainingLen == SizeMax {
        StartBootstrap();
      }

      if remainingLen != 0 {
        HandOut(buffer, bufferLen);
      } else {
        // Once bootstrap string is written, revert to usual prompt
        returnValue := defaultResult;
        delegated := true;
      }
    }

    /** The first call of read_console: builds the call and sets remaining_len to its strlen. */
    method StartBootstrap()
      requires Valid() && ConsoleValid() && remainingLen == SizeMax
      requires Bootstrappable(Options(), scriptArgs) && AllocatedLength(Options(), scriptArgs) <= SizeMax
      modifies this`bootstrapString, this`bootstrap, this`remainingLen
      ensures ConsoleValid() && bootstrap == Bootstrap(Options(), scriptArgs)
      ensures remainingLen == |bootstrap| > 0 && currentOffset == 0 && handedOut == []
      ensures fresh(bootstrapString)
    {
      BuildBootstrapString();
      remainingLen := CallLength(bootstrapString, bootstrap);
      assert handedOut == bootstrap[..currentOffset];
    }

    /** strlen of a buffer that holds a NUL-free string and a NUL after it. */
    static method CallLength(b: array<char>, ghost s: string) returns (n: nat)
      requires NoNul(s) && |s| < b.Length && b[..|s|] == s && b[|s|] == NUL
      ensures n == |s|
    {
      n := StrLen(b);
      assert b[..|s|][..n] == b[..n];
      NoNulLength(s, b[..], n);
    }

    /**
     * A later call of read_console while part of the call is left: copies
     * the rest when it fits in buffer_len - 1 bytes with its NUL, and
     * otherwise exactly buffer_len bytes of it with no NUL.
     */
    method HandOut(buffer: array<char>, bufferLen: int)
      requires ConsoleValid() && remainingLen != SizeMax && remainingLen != 0
      requires buffer != bootstrapString && bufferLen >= 1 && buffer.Length == bufferLen
      modifies this`remainingLen, this`currentOffset, this`handedOut, buffer
      ensures ConsoleValid() && remainingLen != SizeMax
      ensures old(handedOut) < handedOut && remainingLen < |bootstrap| - |old(handedOut)|
      ensures |handedOut| - |old(handedOut)| <= bufferLen
      ensures buffer[..|handedOut| - |old(handedOut)|] == handedOut[|old(handedOut)|..]
      ensures |handedOut| - |old(handedOut)| < bufferLen ==> buffer[|handedOut| - |old(handedOut)|] == NUL
      ensures |handedOut| - |old(handedOut)| == bufferLen ==> NoNul(buffer[..])
    {
      if remainingLen < bufferLen {
        HandOutRest(buffer);
      } else {
        HandOutSlice(buffer, bufferLen);
      }
    }

    /** strcpy of what is left of the call, which fits in the buffer with its NUL; nothing is left after it. */
    method HandOutRest(buffer: array<char>)
      requires ConsoleValid() && remainingLen != SizeMax && 0 < remainingLen < buffer.Length
      requires buffer != bootstrapString
      modifies this`remainingLen, this`handedOut, buffer
      ensures ConsoleValid() && remainingLen == 0 && handedOut == bootstrap
      ensures handedOut == old(handedOut) + old(bootstrap[currentOffset..])
      ensures buffer[..old(remainingLen)] == old(bootstrap[currentOffset..]) && buffer[old(remainingLen)] == NUL
    {
      ghost var rest := bootstrap[currentOffset..];
      assert handedOut + rest == bootstrap;
      assert bootstrapString[currentOffset..] == rest + [NUL] + bootstrapString[|bootstrap| + 1..];
      CLengthOfTerminated(rest, bootstrapString[|bootstrap| + 1..]);
      StrCpy(buffer, bootstrapString, currentOffset);
      handedOut := handedOut + rest;
      remainingLen := 0;
    }

    /** strncpy of the next buffer_len bytes of the call, with no NUL: part of it is still left. */
    method HandOutSlice(buffer: array<char>, bufferLen: int)
      requires ConsoleValid() && remainingLen != SizeMax && 1 <= bufferLen <= remainingLen
      requires buffer != bootstrapString && buffer.Length == bufferLen
      modifies this`remainingLen, this`currentOffset, this`handedOut, buffer
      ensures ConsoleValid() && remainingLen == old(remainingLen) - bufferLen
      ensures currentOffset == old(currentOffset) + bufferLen
      ensures handedOut == old(handedOut) + buffer[..] && buffer[..] == bootstrap[old(currentOffset)..currentOffset]
      ensures NoNul(buffer[..])
    {
      ghost var rest := bootstrap[currentOffset..];
      assert bootstrapString[currentOffset..] == rest + [NUL] + bootstrapString[|bootstrap| + 1..];
      CLengthOfTerminated(rest, bootstrapString[|bootstrap| + 1..]);
      StrNCpy(buffer, bootstrapString, currentOffset, bufferLen);
      assert buffer[..] == rest[..bufferLen];
      handedOut := handedOut + rest[..bufferLen];
      assert handedOut == bootstrap[..currentOffset + bufferLen];
      remainingLen := remainingLen - bufferLen;
      currentOffset := currentOffset + bufferLen;
    }
  }

  /** The entries of argv from `k` on are all NULL, so what is present after index 0 is what is present before k. */
  /** One more argument for the copy pass: it adds that argument and a space, within the length counted for all of them. */
  lemma CopyStep(argv: seq<Option<string>>, c: nat)
    requires 1 <= c < |argv|
    ensures var before := Spaced(Present(argv[1..c]));
      var after := Spaced(Present(argv[1..c + 1]));
      && |before| == SpacedLength(Present(argv[1..c]))
      && after == before + (if argv[c].Some? then argv[c].value + " " else "")
      && |after| <= SpacedLength(Present(argv[1..]))
  {
    assert argv[1..c + 1] == argv[1..c] + [argv[c]];
    SpacedStep(argv[1..c], argv[c]);
    SpacedStep(argv[1..c + 1], None);
    SpacedLengthPrefix(argv[1..], c);
    assert argv[1..][..c] == argv[1..c + 1];
  }

  lemma PresentUpToNull(argv: seq<Option<string>>, k: nat)
    requires 1 <= k <= |argv| && argv[|argv| - 1].None? && (k >= |argv| - 1) && (|argv| >= 2 ==> k <= |argv| - 1)
    ensures Present(argv[1..]) == Present(argv[1..k])
  {
    if |argv| >= 2 {
      assert argv[1..] == argv[1..k] + argv[k..];
      PresentAppend(argv[1..k], argv[k..]);
      PresentOfNulls(argv[k..]);
      assert Present(argv[1..k]) + [] == Present(argv[1..k]);
    }
  }

  lemma {:induction false} NoNulPresent(xs: seq<Option<string>>)
    requires forall i :: 0 <= i < |xs| && xs[i].Some? ==> NoNul(xs[i].value)
    ensures forall i :: 0 <= i < |Present(xs)| ==> NoNul(Present(xs)[i])
  {
    if xs != [] {
      NoNulPresent(xs[..|xs| - 1]);
    }
  }

  lemma NoNulJoin(ws: seq<string>)
    requires ws != [] && forall i :: 0 <= i < |ws| ==> NoNul(ws[i])
    ensures NoNul(Join(ws))
  {
    if |ws| > 1 {
      NoNulJoin(ws[..|ws| - 1]);
    }
  }

  /** strlen of a buffer holding s and a NUL after it is |s|. */
  lemma NoNulLength(s: string, b: seq<char>, n: nat)
    requires NoNul(s) && |s| < |b| && b[..|s|] == s && b[|s|] == NUL
    requires n < |b| && b[n] == NUL && NoNul(b[..n])
    ensures n == |s|
  {
    assert forall i :: 0 <= i < |s| ==> b[i] == b[..|s|][i];
    assert forall i :: 0 <= i < n ==> b[i] == b[..n][i];
  }
}
