/** `EazfuscatorNetRunner`: the null checks of `Run` and the argument list
    `GetArguments` builds. Locating and starting the executable belongs to
    Cake's `Tool<T>` base class and is not part of this model; `Run` here
    yields the argument tokens it would hand to the tool. */
module Runner {
  import opened Wrappers
  import opened Text
  import opened Settings
  import opened Tokens
  import opened Options

  /** `GetToolName()`: the prefix of the tool's error messages. */
  const ToolName: string := "Eazfuscator.Net"

  /** `GetToolExecutableNames()`: the file names searched for. */
  const ToolExecutableNames: seq<string> := ["Eazfuscator.Net.exe"]

  /** `ArgumentNullException`, carrying the offending parameter's name. */
  datatype ArgumentError = ArgumentNull(paramName: string)

  /** One quoted token per text, in order. */
  function QuoteAll(xs: seq<string>): (ts: seq<Token>)
    ensures |ts| == |xs|
    ensures forall i :: 0 <= i < |xs| ==> ts[i] == Quoted(xs[i])
  {
    if |xs| == 0 then [] else [Quoted(xs[0])] + QuoteAll(xs[1..])
  }

  /** The input files, each made absolute and quoted, in the caller's order. */
  function InputTokens(inputs: seq<Path>, abs: Path -> string): (r: seq<Token>) {
    QuoteAll(AbsAll(inputs, abs))
  }

  /** The option tokens: the settings taken one by one in `Order()`. */
  function OptionTokens(s: Settings, abs: Path -> string): (r: seq<Token>) {
    Flatten(Order(), ContributionOf(s, abs))
  }

  /** The full argument list: inputs first, then the options. */
  function Arguments(inputs: seq<Path>, s: Settings, abs: Path -> string): (r: seq<Token>) {
    InputTokens(inputs, abs) + OptionTokens(s, abs)
  }

  /** The builder after examining setting `o` and every setting after it
      in `Order()`, starting from `acc`, where `f` gives each setting's tokens. */
  function Walk(acc: seq<Token>, o: Opt, f: Opt -> seq<Token>): (r: seq<Token>)
    decreases |Order()| - Index(o)
  {
    NextIndex(o);
    var acc' := acc + f(o);
    if Next(o).Some? then Walk(acc', Next(o).value, f) else acc'
  }

  /** `os` lists settings each followed by its `Next`, ending with the
      last one. */
  ghost predicate FollowsNext(os: seq<Opt>) {
    && |os| > 0
    && Next(os[|os| - 1]).None?
    && forall i :: 0 <= i < |os| - 1 ==> Next(os[i]) == Some(os[i + 1])
  }

  lemma OrderFollowsNext()
    ensures FollowsNext(Order())
  {
    forall i | 0 <= i < |Order()| - 1
      ensures Next(Order()[i]) == Some(Order()[i + 1])
    {
      NextFollowsOrder(i);
    }
    NextFollowsOrder(|Order()| - 1);
  }

  /** Walking a chain of settings from its first appends exactly their
      tokens, in order. */
  lemma {:induction false} WalkAppendsOptions(acc: seq<Token>, os: seq<Opt>, f: Opt -> seq<Token>)
    requires FollowsNext(os)
    ensures Walk(acc, os[0], f) == acc + Flatten(os, f)
    decreases |os|
  {
    FlattenCons(os, f);
    if |os| == 1 {
      WalkEnd(acc, os[0], f);
      assert os[1..] == [];
    } else {
      WalkStep(acc, os[0], f);
      assert FollowsNext(os[1..]) by {
        forall i | 0 <= i < |os[1..]| - 1
          ensures Next(os[1..][i]) == Some(os[1..][i + 1])
        {
          assert Next(os[i + 1]) == Some(os[i + 2]);
        }
      }
      WalkAppendsOptions(acc + f(os[0]), os[1..], f);
      assert acc + f(os[0]) + Flatten(os[1..], f) == acc + (f(os[0]) + Flatten(os[1..], f));
    }
  }

  lemma FlattenCons(os: seq<Opt>, f: Opt -> seq<Token>)
    requires |os| > 0
    ensures Flatten(os, f) == f(os[0]) + Flatten(os[1..], f)
  {
  }

  /** One step of the walk: the tokens of `o`, then the walk from the
      setting after it. */
  lemma WalkStep(acc: seq<Token>, o: Opt, f: Opt -> seq<Token>)
    requires Next(o).Some?
    ensures Walk(acc, o, f) == Walk(acc + f(o), Next(o).value, f)
  {
  }

  /** The walk ends after a setting with no successor. */
  lemma WalkEnd(acc: seq<Token>, o: Opt, f: Opt -> seq<Token>)
    requires Next(o).None?
    ensures Walk(acc, o, f) == acc + f(o)
  {
  }
  /** Walking the settings `--nologo` to `--ensure-obfuscated` appends their tokens one after the other. */
  lemma WalkGeneralOptions(acc: seq<Token>, f: Opt -> seq<Token>)
    ensures Walk(acc, NoLogo, f) == Walk(acc + f(NoLogo) + f(OutputFile) + f(KeyFile) + f(KeyContainer) + f(Quiet) + f(DecodeStackTraceWithPassword) + f(ErrorSandbox) + f(EnsureObfuscated), MSBuildProjectPath, f)
  {
    WalkStep(acc, NoLogo, f);
    var a1 := acc + f(NoLogo);
    WalkStep(a1, OutputFile, f);
    var a2 := a1 + f(OutputFile);
    WalkStep(a2, KeyFile, f);
    var a3 := a2 + f(KeyFile);
    WalkStep(a3, KeyContainer, f);
    var a4 := a3 + f(KeyContainer);
    WalkStep(a4, Quiet, f);
    var a5 := a4 + f(Quiet);
    WalkStep(a5, DecodeStackTraceWithPassword, f);
    var a6 := a5 + f(DecodeStackTraceWithPassword);
    WalkStep(a6, ErrorSandbox, f);
    var a7 := a6 + f(ErrorSandbox);
    WalkStep(a7, EnsureObfuscated, f);
  }

  /** Walking the settings `--msbuild-project-path` to `--unprotect-project` appends their tokens one after the other. */
  lemma WalkMSBuildOptions(acc: seq<Token>, f: Opt -> seq<Token>)
    ensures Walk(acc, MSBuildProjectPath, f) == Walk(acc + f(MSBuildProjectPath) + f(MSBuildProjectConfiguration) + f(MSBuildProjectPlatform) + f(MSBuildSolutionPath) + f(ProtectProject) + f(UnprotectProject), CompatibilityVersion, f)
  {
    WalkStep(acc, MSBuildProjectPath, f);
    var a1 := acc + f(MSBuildProjectPath);
    WalkStep(a1, MSBuildProjectConfiguration, f);
    var a2 := a1 + f(MSBuildProjectConfiguration);
    WalkStep(a2, MSBuildProjectPlatform, f);
    var a3 := a2 + f(MSBuildProjectPlatform);
    WalkStep(a3, MSBuildSolutionPath, f);
    var a4 := a3 + f(MSBuildSolutionPath);
    WalkStep(a4, ProtectProject, f);
    var a5 := a4 + f(ProtectProject);
    WalkStep(a5, UnprotectProject, f);
  }

  /** Walking the settings `--compatibility-version` to `--probing-paths` appends their tokens one after the other. */
  lemma WalkVersionOptions(acc: seq<Token>, f: Opt -> seq<Token>)
    ensures Walk(acc, CompatibilityVersion, f) == Walk(acc + f(CompatibilityVersion) + f(CheckVersion) + f(ProbingPaths), WarningsAsErrors, f)
  {
    WalkStep(acc, CompatibilityVersion, f);
    var a1 := acc + f(CompatibilityVersion);
    WalkStep(a1, CheckVersion, f);
    var a2 := a1 + f(CheckVersion);
    WalkStep(a2, ProbingPaths, f);
  }

  /** Walking the settings `--warnings-as-errors` to `--newline-flush` appends their tokens one after the other. */
  lemma WalkOutputOptions(acc: seq<Token>, f: Opt -> seq<Token>)
    ensures Walk(acc, WarningsAsErrors, f) == acc + f(WarningsAsErrors) + f(ConfigurationFile) + f(Statistics) + f(NewlineFlush)
  {
    WalkStep(acc, WarningsAsErrors, f);
    var a1 := acc + f(WarningsAsErrors);
    WalkStep(a1, ConfigurationFile, f);
    var a2 := a1 + f(ConfigurationFile);
    WalkStep(a2, Statistics, f);
    var a3 := a2 + f(Statistics);
    WalkEnd(a3, NewlineFlush, f);
  }

  /** Walking from the first setting appends the tokens of all 21
      settings, one after the other. */
  lemma WalkUnrolled(acc: seq<Token>, f: Opt -> seq<Token>)
    ensures Walk(acc, NoLogo, f) == acc
      + f(NoLogo)
      + f(OutputFile)
      + f(KeyFile)
      + f(KeyContainer)
      + f(Quiet)
      + f(DecodeStackTraceWithPassword)
      + f(ErrorSandbox)
      + f(EnsureObfuscated)
      + f(MSBuildProjectPath)
      + f(MSBuildProjectConfiguration)
      + f(MSBuildProjectPlatform)
      + f(MSBuildSolutionPath)
      + f(ProtectProject)
      + f(UnprotectProject)
      + f(CompatibilityVersion)
      + f(CheckVersion)
      + f(ProbingPaths)
      + f(WarningsAsErrors)
      + f(ConfigurationFile)
      + f(Statistics)
      + f(NewlineFlush)
  {
    WalkGeneralOptions(acc, f);
    var acc1 := acc
      + f(NoLogo)
      + f(OutputFile)
      + f(KeyFile)
      + f(KeyContainer)
      + f(Quiet)
      + f(DecodeStackTraceWithPassword)
      + f(ErrorSandbox)
      + f(EnsureObfuscated);
    WalkMSBuildOptions(acc1, f);
    var acc2 := acc1
      + f(MSBuildProjectPath)
      + f(MSBuildProjectConfiguration)
      + f(MSBuildProjectPlatform)
      + f(MSBuildSolutionPath)
      + f(ProtectProject)
      + f(UnprotectProject);
    WalkVersionOptions(acc2, f);
    var acc3 := acc2
      + f(CompatibilityVersion)
      + f(CheckVersion)
      + f(ProbingPaths);
    WalkOutputOptions(acc3, f);
  }

  /** `GetArguments` as the runner writes it: a loop over the inputs, then
      one conditional append per setting, in source order. It produces
      exactly `Arguments`: the inputs, then the settings walked in `Order()`. */
  method GetArguments(inputs: seq<Path>, s: Settings, abs: Path -> string)
    returns (args: seq<Token>)
    ensures args == Arguments(inputs, s, abs)
  {
    var builder: seq<Token> := [];
    for i := 0 to |inputs|
      invariant builder == InputTokens(inputs[..i], abs)
    {
      assert inputs[..i + 1] == inputs[..i] + [inputs[i]];
      AbsQuoteSnoc(inputs[..i], inputs[i], abs);
      builder := builder + [Quoted(abs(inputs[i]))];
    }
    assert inputs[..|inputs|] == inputs;
    ghost var afterInputs := builder;
    ghost var f := ContributionOf(s, abs);
    builder := AppendGeneralOptions(builder, s, abs);
    builder := AppendMSBuildOptions(builder, s, abs);
    builder := AppendVersionOptions(builder, s, abs);
    builder := AppendOutputOptions(builder, s, abs);
    WalkUnrolled(afterInputs, f);
    OrderFollowsNext();
    WalkAppendsOptions(afterInputs, Order(), f);
    args := builder;
  }

  /** The appends for `--nologo` to `--ensure-obfuscated`, in source order. */
  method AppendGeneralOptions(start: seq<Token>, s: Settings, abs: Path -> string)
    returns (builder: seq<Token>)
    ensures builder == start
      + Contribution(NoLogo, s, abs)
      + Contribution(OutputFile, s, abs)
      + Contribution(KeyFile, s, abs)
      + Contribution(KeyContainer, s, abs)
      + Contribution(Quiet, s, abs)
      + Contribution(DecodeStackTraceWithPassword, s, abs)
      + Contribution(ErrorSandbox, s, abs)
      + Contribution(EnsureObfuscated, s, abs)
  {
    builder := start;
    builder := AppendSwitch(builder, NoLogo, s, abs);
    builder := AppendFile(builder, OutputFile, s, abs);
    builder := AppendFile(builder, KeyFile, s, abs);
    builder := AppendText(builder, KeyContainer, s, abs);
    builder := AppendSwitch(builder, Quiet, s, abs);
    builder := AppendText(builder, DecodeStackTraceWithPassword, s, abs);
    builder := AppendText(builder, ErrorSandbox, s, abs);
    builder := AppendSwitch(builder, EnsureObfuscated, s, abs);
  }

  /** The appends for `--msbuild-project-path` to `--unprotect-project`, in source order. */
  method AppendMSBuildOptions(start: seq<Token>, s: Settings, abs: Path -> string)
    returns (builder: seq<Token>)
    ensures builder == start
      + Contribution(MSBuildProjectPath, s, abs)
      + Contribution(MSBuildProjectConfiguration, s, abs)
      + Contribution(MSBuildProjectPlatform, s, abs)
      + Contribution(MSBuildSolutionPath, s, abs)
      + Contribution(ProtectProject, s, abs)
      + Contribution(UnprotectProject, s, abs)
  {
    builder := start;
    builder := AppendFile(builder, MSBuildProjectPath, s, abs);
    builder := AppendText(builder, MSBuildProjectConfiguration, s, abs);
    builder := AppendText(builder, MSBuildProjectPlatform, s, abs);
    builder := AppendFile(builder, MSBuildSolutionPath, s, abs);
    builder := AppendSwitch(builder, ProtectProject, s, abs);
    builder := AppendSwitch(builder, UnprotectProject, s, abs);
  }

  /** The appends for `--compatibility-version` to `--probing-paths`, in source order. */
  method AppendVersionOptions(start: seq<Token>, s: Settings, abs: Path -> string)
    returns (builder: seq<Token>)
    ensures builder == start
      + Contribution(CompatibilityVersion, s, abs)
      + Contribution(CheckVersion, s, abs)
      + Contribution(ProbingPaths, s, abs)
  {
    builder := start;
    builder := AppendText(builder, CompatibilityVersion, s, abs);
    builder := AppendSwitch(builder, CheckVersion, s, abs);
    builder := AppendProbingPaths(builder, s, abs);
  }

  /** The appends for `--warnings-as-errors` to `--newline-flush`, in source order. */
  method AppendOutputOptions(start: seq<Token>, s: Settings, abs: Path -> string)
    returns (builder: seq<Token>)
    ensures builder == start
      + Contribution(WarningsAsErrors, s, abs)
      + Contribution(ConfigurationFile, s, abs)
      + Contribution(Statistics, s, abs)
      + Contribution(NewlineFlush, s, abs)
  {
    builder := start;
    builder := AppendText(builder, WarningsAsErrors, s, abs);
    builder := AppendFile(builder, ConfigurationFile, s, abs);
    builder := AppendSwitch(builder, Statistics, s, abs);
    builder := AppendSwitch(builder, NewlineFlush, s, abs);
  }

  /** `if (settings.X) builder.Append("--x")` */
  method AppendSwitch(builder: seq<Token>, o: Opt, s: Settings, abs: Path -> string)
    returns (b: seq<Token>)
    requires KindOf(o) == Switch
    ensures b == builder + Contribution(o, s, abs)
  {
    b := builder;
    if SwitchField(o, s) {
      b := b + [Plain(Flag(o))];
    }
  }

  /** `if (settings.X != null)`: the flag, then the path made absolute and quoted. */
  method AppendFile(builder: seq<Token>, o: Opt, s: Settings, abs: Path -> string)
    returns (b: seq<Token>)
    requires KindOf(o) == FileArg
    ensures b == builder + Contribution(o, s, abs)
  {
    b := builder;
    var p := PathField(o, s);
    if p.Some? {
      b := b + [Plain(Flag(o))];
      b := b + [Quoted(abs(p.value))];
    }
  }

  /** `if (!string.IsNullOrWhiteSpace(settings.X))`: the flag, then the
      string verbatim and quoted. */
  method AppendText(builder: seq<Token>, o: Opt, s: Settings, abs: Path -> string)
    returns (b: seq<Token>)
    requires KindOf(o) == TextArg
    ensures b == builder + Contribution(o, s, abs)
  {
    b := builder;
    var t := TextField(o, s);
    if !IsNullOrWhiteSpace(t) {
      b := b + [Plain(Flag(o))];
      b := b + [Quoted(t.value)];
    }
  }

  /** `if (settings.ProbingPaths != null)`: the flag, then every path made
      absolute, collected in order, joined with `;` and quoted. */
  method AppendProbingPaths(builder: seq<Token>, s: Settings, abs: Path -> string)
    returns (b: seq<Token>)
    ensures b == builder + Contribution(ProbingPaths, s, abs)
  {
    b := builder;
    if s.probingPaths.Some? {
      b := b + [Plain("--probing-paths")];
      var ps := s.probingPaths.value;
      var fullPaths: seq<string> := [];
      for k := 0 to |ps|
        invariant fullPaths == AbsAll(ps[..k], abs)
      {
        assert ps[..k + 1] == ps[..k] + [ps[k]];
        AbsSnoc(ps[..k], ps[k], abs);
        fullPaths := fullPaths + [abs(ps[k])];
      }
      assert ps[..|ps|] == ps;
      b := b + [Quoted(Join(";", fullPaths))];
    }
  }

  lemma AbsSnoc(ps: seq<Path>, p: Path, abs: Path -> string)
    ensures AbsAll(ps + [p], abs) == AbsAll(ps, abs) + [abs(p)]
  {
  }

  lemma AbsQuoteSnoc(ps: seq<Path>, p: Path, abs: Path -> string)
    ensures InputTokens(ps + [p], abs) == InputTokens(ps, abs) + [Quoted(abs(p))]
  {
    AbsSnoc(ps, p, abs);
  }

  /** `Run(inputFiles, settings)`: a null input list fails naming
      `inputFiles` and is checked first; a null settings record then fails
      naming `settings`; only when both are present are arguments built. */
  method Run(inputFiles: Option<seq<Path>>, settings: Option<Settings>, abs: Path -> string)
    returns (r: Result<seq<Token>, ArgumentError>)
    ensures inputFiles.None? ==> r == Failure(ArgumentNull("inputFiles"))
    ensures inputFiles.Some? && settings.None? ==> r == Failure(ArgumentNull("settings"))
    ensures inputFiles.Some? && settings.Some? ==>
              r == Success(Arguments(inputFiles.value, settings.value, abs))
  {
    if inputFiles.None? {
      return Failure(ArgumentNull("inputFiles"));
    }
    if settings.None? {
      return Failure(ArgumentNull("settings"));
    }
    var args := GetArguments(inputFiles.value, settings.value, abs);
    return Success(args);
  }
}
