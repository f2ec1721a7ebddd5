/** The 21 settings that reach the command line, the fixed order in which
    the runner emits them, and what each one contributes. */
module Options {
  import opened Wrappers
  import opened Text
  import opened Settings
  import opened Tokens

  /** One emitting setting. `ToolPath` is not one: it only selects the executable. */
  datatype Opt =
    | NoLogo | OutputFile | KeyFile | KeyContainer | Quiet
    | DecodeStackTraceWithPassword | ErrorSandbox | EnsureObfuscated
    | MSBuildProjectPath | MSBuildProjectConfiguration | MSBuildProjectPlatform
    | MSBuildSolutionPath | ProtectProject | UnprotectProject
    | CompatibilityVersion | CheckVersion | ProbingPaths | WarningsAsErrors
    | ConfigurationFile | Statistics | NewlineFlush

  /** How a setting is stored and what it contributes when present:
      a switch adds its flag; the others add their flag and one quoted value. */
  datatype Kind = Switch | FileArg | TextArg | PathListArg

  function KindOf(o: Opt): (r: Kind) {
    match o
    case NoLogo | Quiet | EnsureObfuscated | ProtectProject | UnprotectProject
      | CheckVersion | Statistics | NewlineFlush => Switch
    case OutputFile | KeyFile | MSBuildProjectPath | MSBuildSolutionPath
      | ConfigurationFile => FileArg
    case KeyContainer | DecodeStackTraceWithPassword | ErrorSandbox
      | MSBuildProjectConfiguration | MSBuildProjectPlatform
      | CompatibilityVersion | WarningsAsErrors => TextArg
    case ProbingPaths => PathListArg
  }

  /** The option name the runner appends for a setting. */
  function Flag(o: Opt): (r: string) {
    match o
    case NoLogo => "--nologo"
    case OutputFile => "--output"
    case KeyFile => "--key-file"
    case KeyContainer => "--key-container"
    case Quiet => "--quiet"
    case DecodeStackTraceWithPassword => "--decode-stack-trace-with-password"
    case ErrorSandbox => "--error-sandbox"
    case EnsureObfuscated => "--ensure-obfuscated"
    case MSBuildProjectPath => "--msbuild-project-path"
    case MSBuildProjectConfiguration => "--msbuild-project-configuration"
    case MSBuildProjectPlatform => "--msbuild-project-platform"
    case MSBuildSolutionPath => "--msbuild-solution-path"
    case ProtectProject => "--protect-project"
    case UnprotectProject => "--unprotect-project"
    case CompatibilityVersion => "--compatibility-version"
    case CheckVersion => "--check-version"
    case ProbingPaths => "--probing-paths"
    case WarningsAsErrors => "--warnings-as-errors"
    case ConfigurationFile => "--configuration-file"
    case Statistics => "--statistics"
    case NewlineFlush => "--newline-flush"
  }

  /** The setting an option name stands for, if any: reading a flag back. */
  function OptOfFlag(t: string): (r: Option<Opt>) {
    if t == "--nologo" then Some(NoLogo)
    else if t == "--output" then Some(OutputFile)
    else if t == "--key-file" then Some(KeyFile)
    else if t == "--key-container" then Some(KeyContainer)
    else if t == "--quiet" then Some(Quiet)
    else if t == "--decode-stack-trace-with-password" then Some(DecodeStackTraceWithPassword)
    else if t == "--error-sandbox" then Some(ErrorSandbox)
    else if t == "--ensure-obfuscated" then Some(EnsureObfuscated)
    else if t == "--msbuild-project-path" then Some(MSBuildProjectPath)
    else if t == "--msbuild-project-configuration" then Some(MSBuildProjectConfiguration)
    else if t == "--msbuild-project-platform" then Some(MSBuildProjectPlatform)
    else if t == "--msbuild-solution-path" then Some(MSBuildSolutionPath)
    else if t == "--protect-project" then Some(ProtectProject)
    else if t == "--unprotect-project" then Some(UnprotectProject)
    else if t == "--compatibility-version" then Some(CompatibilityVersion)
    else if t == "--check-version" then Some(CheckVersion)
    else if t == "--probing-paths" then Some(ProbingPaths)
    else if t == "--warnings-as-errors" then Some(WarningsAsErrors)
    else if t == "--configuration-file" then Some(ConfigurationFile)
    else if t == "--statistics" then Some(Statistics)
    else if t == "--newline-flush" then Some(NewlineFlush)
    else None
  }

  /** Every option name reads back as its own setting, so no two settings
      share a name. The 21 cases are split by position in `Order()` into
      the groups `FlagsReadBack0` to `FlagsReadBack8`, which exist only
      to keep each proof small: comparing one name with every other
      string literal at once is more than the verifier handles in one
      step. */
  lemma FlagReadsBack(o: Opt)
    ensures OptOfFlag(Flag(o)) == Some(o)
  {
    var i := Index(o);
    if i < 5 {
      FlagsReadBack0(o);
    } else if i < 9 {
      FlagsReadBack1(o);
    } else if i < 12 {
      FlagsReadBack2(o);
    } else if i < 14 {
      FlagsReadBack3(o);
    } else if i < 16 {
      FlagsReadBack4(o);
    } else if i < 18 {
      FlagsReadBack5(o);
    } else if i < 19 {
      FlagsReadBack6(o);
    } else if i < 20 {
      FlagsReadBack7(o);
    } else {
      FlagsReadBack8(o);
    }
  }

  lemma FlagsReadBack0(o: Opt)
    requires Index(o) < 5
    ensures OptOfFlag(Flag(o)) == Some(o)
  {
  }

  lemma FlagsReadBack1(o: Opt)
    requires 5 <= Index(o) < 9
    ensures OptOfFlag(Flag(o)) == Some(o)
  {
  }

  lemma FlagsReadBack2(o: Opt)
    requires 9 <= Index(o) < 12
    ensures OptOfFlag(Flag(o)) == Some(o)
  {
  }

  lemma FlagsReadBack3(o: Opt)
    requires 12 <= Index(o) < 14
    ensures OptOfFlag(Flag(o)) == Some(o)
  {
  }

  lemma FlagsReadBack4(o: Opt)
    requires 14 <= Index(o) < 16
    ensures OptOfFlag(Flag(o)) == Some(o)
  {
  }

  lemma FlagsReadBack5(o: Opt)
    requires 16 <= Index(o) < 18
    ensures OptOfFlag(Flag(o)) == Some(o)
  {
  }

  lemma FlagsReadBack6(o: Opt)
    requires 18 <= Index(o) < 19
    ensures OptOfFlag(Flag(o)) == Some(o)
  {
  }

  lemma FlagsReadBack7(o: Opt)
    requires 19 <= Index(o) < 20
    ensures OptOfFlag(Flag(o)) == Some(o)
  {
  }

  lemma FlagsReadBack8(o: Opt)
    requires 20 <= Index(o)
    ensures OptOfFlag(Flag(o)) == Some(o)
  {
  }

  lemma FlagInjective(a: Opt, b: Opt)
    ensures Flag(a) == Flag(b) <==> a == b
  {
    FlagReadsBack(a);
    FlagReadsBack(b);
  }

  /** The setting the runner examines at position `i` (from 0); positions
      past the last give the last setting. */
  function OptAt(i: int): (o: Opt) {
    if i == 0 then NoLogo
    else if i == 1 then OutputFile
    else if i == 2 then KeyFile
    else if i == 3 then KeyContainer
    else if i == 4 then Quiet
    else if i == 5 then DecodeStackTraceWithPassword
    else if i == 6 then ErrorSandbox
    else if i == 7 then EnsureObfuscated
    else if i == 8 then MSBuildProjectPath
    else if i == 9 then MSBuildProjectConfiguration
    else if i == 10 then MSBuildProjectPlatform
    else if i == 11 then MSBuildSolutionPath
    else if i == 12 then ProtectProject
    else if i == 13 then UnprotectProject
    else if i == 14 then CompatibilityVersion
    else if i == 15 then CheckVersion
    else if i == 16 then ProbingPaths
    else if i == 17 then WarningsAsErrors
    else if i == 18 then ConfigurationFile
    else if i == 19 then Statistics
    else NewlineFlush
  }

  /** The order in which the runner examines the settings. It is built
      from `OptAt` rather than written as a display so that the verifier
      does not unfold every function applied to it over all 21 settings. */
  function Order(): (os: seq<Opt>) {
    seq(21, OptAt)
  }

  /** The position of a setting in `Order()`: every setting has one. */
  function Index(o: Opt): (i: nat)
    ensures i < |Order()| && Order()[i] == o
  {
    match o
    case NoLogo => 0
    case OutputFile => 1
    case KeyFile => 2
    case KeyContainer => 3
    case Quiet => 4
    case DecodeStackTraceWithPassword => 5
    case ErrorSandbox => 6
    case EnsureObfuscated => 7
    case MSBuildProjectPath => 8
    case MSBuildProjectConfiguration => 9
    case MSBuildProjectPlatform => 10
    case MSBuildSolutionPath => 11
    case ProtectProject => 12
    case UnprotectProject => 13
    case CompatibilityVersion => 14
    case CheckVersion => 15
    case ProbingPaths => 16
    case WarningsAsErrors => 17
    case ConfigurationFile => 18
    case Statistics => 19
    case NewlineFlush => 20
  }

  /** The setting examined after `o`; none after the last. */
  function Next(o: Opt): (r: Option<Opt>) {
    match o
    case NoLogo => Some(OutputFile)
    case OutputFile => Some(KeyFile)
    case KeyFile => Some(KeyContainer)
    case KeyContainer => Some(Quiet)
    case Quiet => Some(DecodeStackTraceWithPassword)
    case DecodeStackTraceWithPassword => Some(ErrorSandbox)
    case ErrorSandbox => Some(EnsureObfuscated)
    case EnsureObfuscated => Some(MSBuildProjectPath)
    case MSBuildProjectPath => Some(MSBuildProjectConfiguration)
    case MSBuildProjectConfiguration => Some(MSBuildProjectPlatform)
    case MSBuildProjectPlatform => Some(MSBuildSolutionPath)
    case MSBuildSolutionPath => Some(ProtectProject)
    case ProtectProject => Some(UnprotectProject)
    case UnprotectProject => Some(CompatibilityVersion)
    case CompatibilityVersion => Some(CheckVersion)
    case CheckVersion => Some(ProbingPaths)
    case ProbingPaths => Some(WarningsAsErrors)
    case WarningsAsErrors => Some(ConfigurationFile)
    case ConfigurationFile => Some(Statistics)
    case Statistics => Some(NewlineFlush)
    case NewlineFlush => None
  }

  /** `Order()` lists every setting exactly once. */
  lemma OrderIsPermutation()
    ensures forall o: Opt :: o in Order()
    ensures forall i, j :: 0 <= i < j < |Order()| ==> Order()[i] != Order()[j]
  {
    forall o: Opt ensures o in Order() {
      var _ := Index(o);
    }
  }

  /** A setting occurs in `Order()` at its own position only. */
  lemma OrderAroundExcludes(o: Opt)
    ensures o !in Order()[..Index(o)]
    ensures o !in Order()[Index(o) + 1..]
  {
    OrderIsPermutation();
  }

  /** `Next` steps through `Order()`: the successor of the setting at
      position `k` is the one at `k + 1`, and the last has none. */
  lemma NextFollowsOrder(k: nat)
    requires k < |Order()|
    ensures k + 1 < |Order()| ==> Next(Order()[k]) == Some(Order()[k + 1])
    ensures k + 1 == |Order()| ==> Next(Order()[k]) == None
  {
    OrderIsPermutation();
    var o := Order()[k];
    assert Index(o) == k;
    NextIndex(o);
  }

  lemma NextIndex(o: Opt)
    ensures Next(o).Some? ==> Index(Next(o).value) == Index(o) + 1
    ensures Next(o).None? <==> Index(o) + 1 == |Order()|
  {
  }

  /** The names of the settings in `os` are pairwise different. */
  ghost predicate DistinctFlags(os: seq<Opt>) {
    forall i, j :: 0 <= i < j < |os| ==> Flag(os[i]) != Flag(os[j])
  }

  lemma OrderHasDistinctFlags()
    ensures DistinctFlags(Order())
  {
    OrderIsPermutation();
    forall i, j | 0 <= i < j < |Order()|
      ensures Flag(Order()[i]) != Flag(Order()[j])
    {
      FlagInjective(Order()[i], Order()[j]);
    }
  }

  /** What one setting amounts to on the command line: absent, a bare
      flag, or a flag with a value. */
  datatype OptionValue = Off | On | Value(text: string)

  /** Switches are on or off; the other kinds are off or carry a value. */
  predicate Fits(o: Opt, v: OptionValue) {
    match v
    case Off => true
    case On => KindOf(o) == Switch
    case Value(_) => KindOf(o) != Switch
  }

  /** The boolean field behind a switch. */
  function SwitchField(o: Opt, s: Settings): (r: bool)
    requires KindOf(o) == Switch
  {
    match o
    case NoLogo => s.noLogo
    case Quiet => s.quiet
    case EnsureObfuscated => s.ensureObfuscated
    case ProtectProject => s.protectProject
    case UnprotectProject => s.unprotectProject
    case CheckVersion => s.checkVersion
    case Statistics => s.statistics
    case NewlineFlush => s.newlineFlush
    case _ => false
  }

  /** The `FilePath` field behind a file option. */
  function PathField(o: Opt, s: Settings): (r: Option<Path>)
    requires KindOf(o) == FileArg
  {
    match o
    case OutputFile => s.outputFile
    case KeyFile => s.keyFile
    case MSBuildProjectPath => s.msBuildProjectPath
    case MSBuildSolutionPath => s.msBuildSolutionPath
    case ConfigurationFile => s.configurationFile
    case _ => None
  }

  /** The `string` field behind a text option. */
  function TextField(o: Opt, s: Settings): (r: Option<string>)
    requires KindOf(o) == TextArg
  {
    match o
    case KeyContainer => s.keyContainer
    case DecodeStackTraceWithPassword => s.decodeStackTraceWithPassword
    case ErrorSandbox => s.errorSandbox
    case MSBuildProjectConfiguration => s.msBuildProjectConfiguration
    case MSBuildProjectPlatform => s.msBuildProjectPlatform
    case CompatibilityVersion => s.compatibilityVersion
    case WarningsAsErrors => s.warningsAsErrors
    case _ => None
  }

  /** `s` with the field behind setting `o` back at its default: false
      or null. */
  function Reset(o: Opt, s: Settings): (r: Settings) {
    Settings(
      noLogo := if o == NoLogo then false else s.noLogo,
      outputFile := if o == OutputFile then None else s.outputFile,
      keyFile := if o == KeyFile then None else s.keyFile,
      keyContainer := if o == KeyContainer then None else s.keyContainer,
      quiet := if o == Quiet then false else s.quiet,
      decodeStackTraceWithPassword := if o == DecodeStackTraceWithPassword then None else s.decodeStackTraceWithPassword,
      errorSandbox := if o == ErrorSandbox then None else s.errorSandbox,
      ensureObfuscated := if o == EnsureObfuscated then false else s.ensureObfuscated,
      msBuildProjectPath := if o == MSBuildProjectPath then None else s.msBuildProjectPath,
      msBuildProjectConfiguration := if o == MSBuildProjectConfiguration then None else s.msBuildProjectConfiguration,
      msBuildProjectPlatform := if o == MSBuildProjectPlatform then None else s.msBuildProjectPlatform,
      msBuildSolutionPath := if o == MSBuildSolutionPath then None else s.msBuildSolutionPath,
      protectProject := if o == ProtectProject then false else s.protectProject,
      unprotectProject := if o == UnprotectProject then false else s.unprotectProject,
      compatibilityVersion := if o == CompatibilityVersion then None else s.compatibilityVersion,
      checkVersion := if o == CheckVersion then false else s.checkVersion,
      probingPaths := if o == ProbingPaths then None else s.probingPaths,
      warningsAsErrors := if o == WarningsAsErrors then None else s.warningsAsErrors,
      configurationFile := if o == ConfigurationFile then None else s.configurationFile,
      statistics := if o == Statistics then false else s.statistics,
      newlineFlush := if o == NewlineFlush then false else s.newlineFlush
    )
  }

  /** Each path made absolute, in the same order. */
  function AbsAll(ps: seq<Path>, abs: Path -> string): (r: seq<string>)
    ensures |r| == |ps|
    ensures forall i :: 0 <= i < |ps| ==> r[i] == abs(ps[i])
  {
    if |ps| == 0 then [] else [abs(ps[0])] + AbsAll(ps[1..], abs)
  }

  /** The value a setting puts on the command line. A switch is present
      when true; a path when non-null, made absolute; a string when it is
      not null or white space only, and then verbatim; the probing paths
      when the list is non-null, made absolute and joined with `;`. */
  function Setting(o: Opt, s: Settings, abs: Path -> string): (v: OptionValue)
    ensures Fits(o, v)
  {
    match KindOf(o)
    case Switch =>
      if SwitchField(o, s) then On else Off
    case FileArg =>
      var p := PathField(o, s);
      if p.Some? then Value(abs(p.value)) else Off
    case TextArg =>
      var t := TextField(o, s);
      if IsNullOrWhiteSpace(t) then Off else Value(t.value)
    case PathListArg =>
      var ps := s.probingPaths;
      if ps.Some? then Value(Join(";", AbsAll(ps.value, abs))) else Off
  }

  /** Every setting has its own field: resetting one makes it absent and
      leaves the value of every other setting as it was. */
  lemma ResetOnlyTouches(o: Opt, o': Opt, s: Settings, abs: Path -> string)
    ensures Setting(o, Reset(o, s), abs) == Off
    ensures o' != o ==> Setting(o', Reset(o, s), abs) == Setting(o', s, abs)
  {
    ResetClears(o, s, abs);
    if o' != o {
      match KindOf(o')
      case Switch => ResetKeepsSwitch(o, o', s);
      case FileArg => ResetKeepsPath(o, o', s);
      case TextArg => ResetKeepsText(o, o', s);
      case PathListArg =>
    }
  }

  lemma ResetClears(o: Opt, s: Settings, abs: Path -> string)
    ensures Setting(o, Reset(o, s), abs) == Off
  {
    match KindOf(o)
    case Switch => ResetClearsSwitch(o, s);
    case FileArg => ResetClearsPath(o, s);
    case TextArg => ResetClearsText(o, s);
    case PathListArg =>
  }

  lemma ResetClearsSwitch(o: Opt, s: Settings)
    requires KindOf(o) == Switch
    ensures !SwitchField(o, Reset(o, s))
  {
  }

  lemma ResetClearsPath(o: Opt, s: Settings)
    requires KindOf(o) == FileArg
    ensures PathField(o, Reset(o, s)) == None
  {
  }

  lemma ResetClearsText(o: Opt, s: Settings)
    requires KindOf(o) == TextArg
    ensures TextField(o, Reset(o, s)) == None
  {
  }

  lemma ResetKeepsSwitch(o: Opt, o': Opt, s: Settings)
    requires o' != o && KindOf(o') == Switch
    ensures SwitchField(o', Reset(o, s)) == SwitchField(o', s)
  {
  }

  lemma ResetKeepsPath(o: Opt, o': Opt, s: Settings)
    requires o' != o && KindOf(o') == FileArg
    ensures PathField(o', Reset(o, s)) == PathField(o', s)
  {
  }

  lemma ResetKeepsText(o: Opt, o': Opt, s: Settings)
    requires o' != o && KindOf(o') == TextArg
    ensures TextField(o', Reset(o, s)) == TextField(o', s)
  {
  }

  /** The tokens of one setting: nothing, the bare flag, or the bare flag
      followed by the quoted value. */
  function Emit(o: Opt, v: OptionValue): (r: seq<Token>) {
    match v
    case Off => []
    case On => [Plain(Flag(o))]
    case Value(t) => [Plain(Flag(o)), Quoted(t)]
  }

  /** The tokens setting `o` adds to the command line. */
  function Contribution(o: Opt, s: Settings, abs: Path -> string): (r: seq<Token>) {
    Emit(o, Setting(o, s, abs))
  }

  /** `Contribution` for fixed settings, as a function of the setting. */
  function ContributionOf(s: Settings, abs: Path -> string): (r: Opt -> seq<Token>) {
    o => Contribution(o, s, abs)
  }

  /** The tokens of the settings `os`, one after the other, where `f`
      gives each setting's tokens. */
  function Flatten(os: seq<Opt>, f: Opt -> seq<Token>): (r: seq<Token>) {
    if |os| == 0 then [] else f(os[0]) + Flatten(os[1..], f)
  }

  /** The values of the settings `os`, in the same order. */
  function Values(os: seq<Opt>, s: Settings, abs: Path -> string): (vs: seq<OptionValue>)
    ensures |vs| == |os|
    ensures forall i :: 0 <= i < |os| ==> vs[i] == Setting(os[i], s, abs)
  {
    if |os| == 0 then [] else [Setting(os[0], s, abs)] + Values(os[1..], s, abs)
  }

  /** The tokens of the settings `os` with values `vs`, one setting after
      the other. */
  function EmitAll(os: seq<Opt>, vs: seq<OptionValue>): (r: seq<Token>)
    requires |os| == |vs|
  {
    if |os| == 0 then [] else Emit(os[0], vs[0]) + EmitAll(os[1..], vs[1..])
  }

  /** The number of tokens a value takes: 0, 1 or 2. */
  function Width(v: OptionValue): (r: nat) {
    match v
    case Off => 0
    case On => 1
    case Value(_) => 2
  }

  function TotalWidth(vs: seq<OptionValue>): (r: nat) {
    if |vs| == 0 then 0 else Width(vs[0]) + TotalWidth(vs[1..])
  }
}
