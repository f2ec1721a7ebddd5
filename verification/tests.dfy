/** The runner's unit tests, stated as lemmas. The test fixture runs in
    the working directory `/Working` with the single input
    `input/test.dll`; each lemma takes the path resolver `abs` and requires
    only how it resolves the paths the test uses. */
module RunnerTests {
  import opened Wrappers
  import opened Text
  import opened Settings
  import opened Tokens
  import opened Options
  import opened Runner
  import opened ArgumentProperties
  import ExpectedLines

  /** The fixture's input file. */
  const TestInput: Path := Path("input/test.dll")

  // ---------------------------------------------------------------------
  // Helpers: one setting changed from the defaults

  /** A record that differs from the defaults in setting `o` alone has
      every other setting absent. */
  lemma OthersOff(s: Settings, o: Opt, abs: Path -> string)
    requires Reset(o, s) == Default
    ensures forall o': Opt :: o' != o ==> Setting(o', s, abs) == Off
  {
    forall o': Opt | o' != o
      ensures Setting(o', s, abs) == Off
    {
      ResetOnlyTouches(o, o', s, abs);
      DefaultIsAllOff(o', abs);
    }
  }

  /** One input and a single setting present: the input, then that
      setting's tokens. */
  lemma SingleSettingArguments(s: Settings, o: Opt, abs: Path -> string)
    requires forall o': Opt :: o' != o ==> Setting(o', s, abs) == Off
    ensures Arguments([TestInput], s, abs) == [Quoted(abs(TestInput))] + Contribution(o, s, abs)
  {
    OnlyOneSetting([TestInput], s, abs, o);
    assert InputTokens([TestInput], abs) == [Quoted(abs(TestInput))];
  }

  lemma SingleSwitchTokens(s: Settings, o: Opt, abs: Path -> string)
    requires forall o': Opt :: o' != o ==> Setting(o', s, abs) == Off
    requires Setting(o, s, abs) == On
    ensures Arguments([TestInput], s, abs) == [Quoted(abs(TestInput))] + [Plain(Flag(o))]
  {
    SingleSettingArguments(s, o, abs);
    assert Contribution(o, s, abs) == [Plain(Flag(o))];
  }

  lemma SingleValueTokens(s: Settings, o: Opt, v: string, abs: Path -> string)
    requires forall o': Opt :: o' != o ==> Setting(o', s, abs) == Off
    requires Setting(o, s, abs) == Value(v)
    ensures Arguments([TestInput], s, abs) == [Quoted(abs(TestInput))] + [Plain(Flag(o)), Quoted(v)]
  {
    SingleSettingArguments(s, o, abs);
    assert Contribution(o, s, abs) == [Plain(Flag(o)), Quoted(v)];
  }

  // ---------------------------------------------------------------------
  // Helpers: rendering

  lemma RenderTwo(ts: seq<Token>, a: string, b: string)
    requires ts == [Quoted(a)] + [Plain(b)]
    ensures Render(ts) == Show(Quoted(a)) + " " + b
  {
    var shown := ShowAll(ts);
    assert shown == [Show(Quoted(a)), b];
    assert shown[1..] == [b];
    assert Join(" ", shown[1..]) == b;
    assert Render(ts) == Join(" ", shown) == shown[0] + " " + Join(" ", shown[1..]);
  }

  lemma RenderThree(ts: seq<Token>, a: string, b: string, c: string)
    requires ts == [Quoted(a)] + [Plain(b), Quoted(c)]
    ensures Render(ts) == Show(Quoted(a)) + " " + b + " \"" + c + "\""
  {
    var shown := ShowAll(ts);
    assert shown == [Show(Quoted(a)), b, Show(Quoted(c))];
    assert shown[1..] == [b, Show(Quoted(c))];
    assert shown[1..][1..] == [Show(Quoted(c))];
    assert Join(" ", shown[1..]) == b + " " + Show(Quoted(c));
    assert b + " " + Show(Quoted(c)) == b + " \"" + c + "\"";
    assert Render(ts) == Join(" ", shown) == shown[0] + " " + Join(" ", shown[1..]);
  }

  lemma RenderInputPair(ts: seq<Token>, a: string, b: string)
    requires ts == [Quoted(a)] + [Quoted(b)]
    ensures Render(ts) == Show(Quoted(a)) + " " + "\"" + b + "\""
  {
    var shown := ShowAll(ts);
    assert shown == [Show(Quoted(a)), Show(Quoted(b))];
    assert shown[1..] == [Show(Quoted(b))];
    assert Join(" ", shown[1..]) == Show(Quoted(b));
    assert Render(ts) == Join(" ", shown) == shown[0] + " " + Join(" ", shown[1..]);
  }

  /** The rendered command line of the fixture's input with one switch on. */
  lemma SwitchRendered(s: Settings, o: Opt, abs: Path -> string, line: string)
    requires abs(TestInput) == "/Working/input/test.dll"
    requires Reset(o, s) == Default
    requires Setting(o, s, abs) == On
    requires line == "\"" + "/Working/input/test.dll" + "\"" + " " + Flag(o)
    ensures Render(Arguments([TestInput], s, abs)) == line
  {
    OthersOff(s, o, abs);
    SingleSwitchTokens(s, o, abs);
    RenderTwo(Arguments([TestInput], s, abs), abs(TestInput), Flag(o));
  }

  /** The rendered command line of the fixture's input with one setting
      carrying value `v`. */
  lemma ValueRendered(s: Settings, o: Opt, v: string, abs: Path -> string, line: string)
    requires abs(TestInput) == "/Working/input/test.dll"
    requires Reset(o, s) == Default
    requires Setting(o, s, abs) == Value(v)
    requires line == "\"" + "/Working/input/test.dll" + "\"" + " " + Flag(o) + " \"" + v + "\""
    ensures Render(Arguments([TestInput], s, abs)) == line
  {
    OthersOff(s, o, abs);
    SingleValueTokens(s, o, v, abs);
    RenderThree(Arguments([TestInput], s, abs), abs(TestInput), Flag(o), v);
  }

  // ---------------------------------------------------------------------
  // The tests

  /** A null settings record is rejected naming `settings`. */
  method ShouldThrowIfSettingsAreNull(abs: Path -> string)
    returns (r: Result<seq<Token>, ArgumentError>)
    ensures r.Failure? && r.error.paramName == "settings"
  {
    r := Run(Some([TestInput]), None, abs);
  }

  lemma InputPair(inputs: seq<Path>, abs: Path -> string)
    requires |inputs| == 2
    ensures InputTokens(inputs, abs) == [Quoted(abs(inputs[0]))] + [Quoted(abs(inputs[1]))]
  {
    var ts := InputTokens(inputs, abs);
    assert |ts| == 2 && ts[0] == Quoted(abs(inputs[0])) && ts[1] == Quoted(abs(inputs[1]));
  }

  lemma PairTokens(inputs: seq<Path>, abs: Path -> string)
    requires |inputs| == 2
    ensures Arguments(inputs, Default, abs) == [Quoted(abs(inputs[0]))] + [Quoted(abs(inputs[1]))]
  {
    DefaultSettingsOnlyInputs(inputs, abs);
    InputPair(inputs, abs);
  }

  /** The rendered command line of two inputs with default settings. */
  lemma PairRendered(p1: Path, p2: Path, abs: Path -> string, line: string)
    requires line == "\"" + abs(p1) + "\"" + " " + "\"" + abs(p2) + "\""
    ensures Render(Arguments([p1, p2], Default, abs)) == line
  {
    PairTokens([p1, p2], abs);
    RenderInputPair(Arguments([p1, p2], Default, abs), abs(p1), abs(p2));
  }

  /** Two inputs, default settings: both quoted absolute paths, in order. */
  lemma ShouldUseAllInputFiles(abs: Path -> string)
    requires abs(Path("input/test1.dll")) == "/Working/input/test1.dll"
    requires abs(Path("input/test2.dll")) == "/Working/input/test2.dll"
    ensures Render(Arguments([Path("input/test1.dll"), Path("input/test2.dll")], Default, abs))
         == "\"/Working/input/test1.dll\" \"/Working/input/test2.dll\""
  {
    ExpectedLines.TwoInputs();
    PairRendered(Path("input/test1.dll"), Path("input/test2.dll"), abs,
      "\"/Working/input/test1.dll\" \"/Working/input/test2.dll\"");
  }

  lemma ShouldSetNoLogo(abs: Path -> string)
    requires abs(TestInput) == "/Working/input/test.dll"
    ensures Render(Arguments([TestInput], Default.(noLogo := true), abs))
         == "\"/Working/input/test.dll\" --nologo"
  {
    ExpectedLines.NoLogo();
    SwitchRendered(Default.(noLogo := true), NoLogo, abs,
      "\"/Working/input/test.dll\" --nologo");
  }

  lemma ShouldSetOutputFile(abs: Path -> string)
    requires abs(TestInput) == "/Working/input/test.dll"
    requires abs(Path("output/test.dll")) == "/Working/output/test.dll"
    ensures Render(Arguments([TestInput], Default.(outputFile := Some(Path("output/test.dll"))), abs))
         == "\"/Working/input/test.dll\" --output \"/Working/output/test.dll\""
  {
    ExpectedLines.OutputFile();
    ValueRendered(Default.(outputFile := Some(Path("output/test.dll"))), OutputFile, "/Working/output/test.dll", abs,
      "\"/Working/input/test.dll\" --output \"/Working/output/test.dll\"");
  }

  lemma ShouldSetKeyFile(abs: Path -> string)
    requires abs(TestInput) == "/Working/input/test.dll"
    requires abs(Path("input/key.file")) == "/Working/input/key.file"
    ensures Render(Arguments([TestInput], Default.(keyFile := Some(Path("input/key.file"))), abs))
         == "\"/Working/input/test.dll\" --key-file \"/Working/input/key.file\""
  {
    ExpectedLines.KeyFile();
    ValueRendered(Default.(keyFile := Some(Path("input/key.file"))), KeyFile, "/Working/input/key.file", abs,
      "\"/Working/input/test.dll\" --key-file \"/Working/input/key.file\"");
  }

  lemma ShouldSetKeyContainer(abs: Path -> string)
    requires abs(TestInput) == "/Working/input/test.dll"
    ensures Render(Arguments([TestInput], Default.(keyContainer := Some("containerA")), abs))
         == "\"/Working/input/test.dll\" --key-container \"containerA\""
  {
    ExpectedLines.KeyContainer();
    assert !IsWhiteSpace("containerA"[0]);
    ValueRendered(Default.(keyContainer := Some("containerA")), KeyContainer, "containerA", abs,
      "\"/Working/input/test.dll\" --key-container \"containerA\"");
  }

  lemma ShouldSetQuiet(abs: Path -> string)
    requires abs(TestInput) == "/Working/input/test.dll"
    ensures Render(Arguments([TestInput], Default.(quiet := true), abs))
         == "\"/Working/input/test.dll\" --quiet"
  {
    ExpectedLines.Quiet();
    SwitchRendered(Default.(quiet := true), Quiet, abs,
      "\"/Working/input/test.dll\" --quiet");
  }

  lemma ShouldSetDecodeStackTraceWithPassword(abs: Path -> string)
    requires abs(TestInput) == "/Working/input/test.dll"
    ensures Render(Arguments([TestInput], Default.(decodeStackTraceWithPassword := Some("password")), abs))
         == "\"/Working/input/test.dll\" --decode-stack-trace-with-password \"password\""
  {
    ExpectedLines.DecodeStackTraceWithPassword();
    assert !IsWhiteSpace("password"[0]);
    ValueRendered(Default.(decodeStackTraceWithPassword := Some("password")), DecodeStackTraceWithPassword, "password", abs,
      "\"/Working/input/test.dll\" --decode-stack-trace-with-password \"password\"");
  }

  lemma ShouldSetErrorSandbox(abs: Path -> string)
    requires abs(TestInput) == "/Working/input/test.dll"
    ensures Render(Arguments([TestInput], Default.(errorSandbox := Some("sandboxA")), abs))
         == "\"/Working/input/test.dll\" --error-sandbox \"sandboxA\""
  {
    ExpectedLines.ErrorSandbox();
    assert !IsWhiteSpace("sandboxA"[0]);
    ValueRendered(Default.(errorSandbox := Some("sandboxA")), ErrorSandbox, "sandboxA", abs,
      "\"/Working/input/test.dll\" --error-sandbox \"sandboxA\"");
  }

  lemma ShouldSetEnsureObfuscated(abs: Path -> string)
    requires abs(TestInput) == "/Working/input/test.dll"
    ensures Render(Arguments([TestInput], Default.(ensureObfuscated := true), abs))
         == "\"/Working/input/test.dll\" --ensure-obfuscated"
  {
    ExpectedLines.EnsureObfuscated();
    SwitchRendered(Default.(ensureObfuscated := true), EnsureObfuscated, abs,
      "\"/Working/input/test.dll\" --ensure-obfuscated");
  }

  lemma ShouldSetMSBuildProjectPath(abs: Path -> string)
    requires abs(TestInput) == "/Working/input/test.dll"
    requires abs(Path("input/msbuild.proj")) == "/Working/input/msbuild.proj"
    ensures Render(Arguments([TestInput], Default.(msBuildProjectPath := Some(Path("input/msbuild.proj"))), abs))
         == "\"/Working/input/test.dll\" --msbuild-project-path \"/Working/input/msbuild.proj\""
  {
    ExpectedLines.MSBuildProjectPath();
    ValueRendered(Default.(msBuildProjectPath := Some(Path("input/msbuild.proj"))), MSBuildProjectPath, "/Working/input/msbuild.proj", abs,
      "\"/Working/input/test.dll\" --msbuild-project-path \"/Working/input/msbuild.proj\"");
  }

  lemma ShouldSetMSBuildProjectConfiguration(abs: Path -> string)
    requires abs(TestInput) == "/Working/input/test.dll"
    ensures Render(Arguments([TestInput], Default.(msBuildProjectConfiguration := Some("configurationTest")), abs))
         == "\"/Working/input/test.dll\" --msbuild-project-configuration \"configurationTest\""
  {
    ExpectedLines.MSBuildProjectConfiguration();
    assert !IsWhiteSpace("configurationTest"[0]);
    ValueRendered(Default.(msBuildProjectConfiguration := Some("configurationTest")), MSBuildProjectConfiguration, "configurationTest", abs,
      "\"/Working/input/test.dll\" --msbuild-project-configuration \"configurationTest\"");
  }

  lemma ShouldSetMSBuildProjectPlatform(abs: Path -> string)
    requires abs(TestInput) == "/Working/input/test.dll"
    ensures Render(Arguments([TestInput], Default.(msBuildProjectPlatform := Some("platformA")), abs))
         == "\"/Working/input/test.dll\" --msbuild-project-platform \"platformA\""
  {
    ExpectedLines.MSBuildProjectPlatform();
    assert !IsWhiteSpace("platformA"[0]);
    ValueRendered(Default.(msBuildProjectPlatform := Some("platformA")), MSBuildProjectPlatform, "platformA", abs,
      "\"/Working/input/test.dll\" --msbuild-project-platform \"platformA\"");
  }

  lemma ShouldSetMSBuildSolutionPath(abs: Path -> string)
    requires abs(TestInput) == "/Working/input/test.dll"
    requires abs(Path("input/test.sln")) == "/Working/input/test.sln"
    ensures Render(Arguments([TestInput], Default.(msBuildSolutionPath := Some(Path("input/test.sln"))), abs))
         == "\"/Working/input/test.dll\" --msbuild-solution-path \"/Working/input/test.sln\""
  {
    ExpectedLines.MSBuildSolutionPath();
    ValueRendered(Default.(msBuildSolutionPath := Some(Path("input/test.sln"))), MSBuildSolutionPath, "/Working/input/test.sln", abs,
      "\"/Working/input/test.dll\" --msbuild-solution-path \"/Working/input/test.sln\"");
  }

  lemma ShouldSetProtectProject(abs: Path -> string)
    requires abs(TestInput) == "/Working/input/test.dll"
    ensures Render(Arguments([TestInput], Default.(protectProject := true), abs))
         == "\"/Working/input/test.dll\" --protect-project"
  {
    ExpectedLines.ProtectProject();
    SwitchRendered(Default.(protectProject := true), ProtectProject, abs,
      "\"/Working/input/test.dll\" --protect-project");
  }

  lemma ShouldSetUnprotectProject(abs: Path -> string)
    requires abs(TestInput) == "/Working/input/test.dll"
    ensures Render(Arguments([TestInput], Default.(unprotectProject := true), abs))
         == "\"/Working/input/test.dll\" --unprotect-project"
  {
    ExpectedLines.UnprotectProject();
    SwitchRendered(Default.(unprotectProject := true), UnprotectProject, abs,
      "\"/Working/input/test.dll\" --unprotect-project");
  }

  lemma ShouldSetCompatibilityVersion(abs: Path -> string)
    requires abs(TestInput) == "/Working/input/test.dll"
    ensures Render(Arguments([TestInput], Default.(compatibilityVersion := Some("1.1.1")), abs))
         == "\"/Working/input/test.dll\" --compatibility-version \"1.1.1\""
  {
    ExpectedLines.CompatibilityVersion();
    assert !IsWhiteSpace("1.1.1"[0]);
    ValueRendered(Default.(compatibilityVersion := Some("1.1.1")), CompatibilityVersion, "1.1.1", abs,
      "\"/Working/input/test.dll\" --compatibility-version \"1.1.1\"");
  }

  lemma ShouldSetCheckVersion(abs: Path -> string)
    requires abs(TestInput) == "/Working/input/test.dll"
    ensures Render(Arguments([TestInput], Default.(checkVersion := true), abs))
         == "\"/Working/input/test.dll\" --check-version"
  {
    ExpectedLines.CheckVersion();
    SwitchRendered(Default.(checkVersion := true), CheckVersion, abs,
      "\"/Working/input/test.dll\" --check-version");
  }

  lemma ShouldSetWarningsAsErrors(abs: Path -> string)
    requires abs(TestInput) == "/Working/input/test.dll"
    ensures Render(Arguments([TestInput], Default.(warningsAsErrors := Some("EF-4001,EF-4002")), abs))
         == "\"/Working/input/test.dll\" --warnings-as-errors \"EF-4001,EF-4002\""
  {
    ExpectedLines.WarningsAsErrors();
    assert !IsWhiteSpace("EF-4001,EF-4002"[0]);
    ValueRendered(Default.(warningsAsErrors := Some("EF-4001,EF-4002")), WarningsAsErrors, "EF-4001,EF-4002", abs,
      "\"/Working/input/test.dll\" --warnings-as-errors \"EF-4001,EF-4002\"");
  }

  lemma ShouldSetConfigurationFile(abs: Path -> string)
    requires abs(TestInput) == "/Working/input/test.dll"
    requires abs(Path("input/test.config")) == "/Working/input/test.config"
    ensures Render(Arguments([TestInput], Default.(configurationFile := Some(Path("input/test.config"))), abs))
         == "\"/Working/input/test.dll\" --configuration-file \"/Working/input/test.config\""
  {
    ExpectedLines.ConfigurationFile();
    ValueRendered(Default.(configurationFile := Some(Path("input/test.config"))), ConfigurationFile, "/Working/input/test.config", abs,
      "\"/Working/input/test.dll\" --configuration-file \"/Working/input/test.config\"");
  }

  lemma ShouldSetStatistics(abs: Path -> string)
    requires abs(TestInput) == "/Working/input/test.dll"
    ensures Render(Arguments([TestInput], Default.(statistics := true), abs))
         == "\"/Working/input/test.dll\" --statistics"
  {
    ExpectedLines.Statistics();
    SwitchRendered(Default.(statistics := true), Statistics, abs,
      "\"/Working/input/test.dll\" --statistics");
  }

  lemma ShouldSetNewlineFlush(abs: Path -> string)
    requires abs(TestInput) == "/Working/input/test.dll"
    ensures Render(Arguments([TestInput], Default.(newlineFlush := true), abs))
         == "\"/Working/input/test.dll\" --newline-flush"
  {
    ExpectedLines.NewlineFlush();
    SwitchRendered(Default.(newlineFlush := true), NewlineFlush, abs,
      "\"/Working/input/test.dll\" --newline-flush");
  }

  lemma ProbingPathsJoined(abs: Path -> string)
    requires abs(Path(".\\input\\path1")) == "/Working/input/path1"
    requires abs(Path(".\\input\\path2")) == "/Working/input/path2"
    ensures Join(";", AbsAll([Path(".\\input\\path1"), Path(".\\input\\path2")], abs))
         == "/Working/input/path1;/Working/input/path2"
  {
    var joined := AbsAll([Path(".\\input\\path1"), Path(".\\input\\path2")], abs);
    assert joined == ["/Working/input/path1", "/Working/input/path2"];
    assert joined[1..] == ["/Working/input/path2"];
  }

  /** Probing directories written with backslashes resolve, through `abs`,
      to absolute paths joined with `;`. */
  lemma ShouldSetProbingPaths(abs: Path -> string)
    requires abs(TestInput) == "/Working/input/test.dll"
    requires abs(Path(".\\input\\path1")) == "/Working/input/path1"
    requires abs(Path(".\\input\\path2")) == "/Working/input/path2"
    ensures Render(Arguments([TestInput],
                   Default.(probingPaths := Some([Path(".\\input\\path1"), Path(".\\input\\path2")])), abs))
         == "\"/Working/input/test.dll\" --probing-paths \"/Working/input/path1;/Working/input/path2\""
  {
    ExpectedLines.ProbingPaths();
    ProbingPathsJoined(abs);
    ValueRendered(Default.(probingPaths := Some([Path(".\\input\\path1"), Path(".\\input\\path2")])),
      ProbingPaths, "/Working/input/path1;/Working/input/path2", abs,
      "\"/Working/input/test.dll\" --probing-paths \"/Working/input/path1;/Working/input/path2\"");
  }
}

/** The command lines the runner's unit tests expect, each equal to the
    pieces the runner puts together. The verifier's cost of proving an
    equality between string literals grows quickly with their length, so
    each `...Step` lemma appends one short piece (longer pieces are split
    again into `Head` and `Tail`), and the module imports nothing, so
    that no definition of the model is in scope while these equalities are
    checked. The lemma named after a test chains its steps. */
module ExpectedLines {
  lemma AppendAssoc(a: string, b: string, c: string)
    ensures a + (b + c) == a + b + c
  {
  }

  /** The fixture's input, resolved and quoted. */
  lemma QuotedInput()
    ensures "\"" + "/Working/input/test.dll" + "\"" == "\"/Working/input/test.dll\""
  {
    assert "\"" + "/Working/input/test.dll" == "\"/Working/input/test.dll";
  }

  lemma NoLogoStep1()
    ensures "\"/Working/input/test.dll\"" + " " == "\"/Working/input/test.dll\" "
  {
  }

  lemma NoLogoStep2()
    ensures "\"/Working/input/test.dll\" " + "--nologo" == "\"/Working/input/test.dll\" --nologo"
  {
  }

  lemma NoLogo()
    ensures "\"" + "/Working/input/test.dll" + "\"" + " " + "--nologo"
         == "\"/Working/input/test.dll\" --nologo"
  {
    QuotedInput();
    NoLogoStep1();
    NoLogoStep2();
  }

  lemma OutputFileStep1()
    ensures "\"/Working/input/test.dll\"" + " " == "\"/Working/input/test.dll\" "
  {
  }

  lemma OutputFileStep2()
    ensures "\"/Working/input/test.dll\" " + "--output" == "\"/Working/input/test.dll\" --output"
  {
  }

  lemma OutputFileStep3()
    ensures "\"/Working/input/test.dll\" --output" + " \"" == "\"/Working/input/test.dll\" --output \""
  {
  }

  lemma OutputFileStep4()
    ensures "\"/Working/input/test.dll\" --output \"" + "/Working/output/test.dll" == "\"/Working/input/test.dll\" --output \"/Working/output/test.dll"
  {
  }

  lemma OutputFileStep5()
    ensures "\"/Working/input/test.dll\" --output \"/Working/output/test.dll" + "\"" == "\"/Working/input/test.dll\" --output \"/Working/output/test.dll\""
  {
  }

  lemma OutputFile()
    ensures "\"" + "/Working/input/test.dll" + "\"" + " " + "--output" + " \"" + "/Working/output/test.dll" + "\""
         == "\"/Working/input/test.dll\" --output \"/Working/output/test.dll\""
  {
    QuotedInput();
    OutputFileStep1();
    OutputFileStep2();
    OutputFileStep3();
    OutputFileStep4();
    OutputFileStep5();
  }

  lemma KeyFileStep1()
    ensures "\"/Working/input/test.dll\"" + " " == "\"/Working/input/test.dll\" "
  {
  }

  lemma KeyFileStep2()
    ensures "\"/Working/input/test.dll\" " + "--key-file" == "\"/Working/input/test.dll\" --key-file"
  {
  }

  lemma KeyFileStep3()
    ensures "\"/Working/input/test.dll\" --key-file" + " \"" == "\"/Working/input/test.dll\" --key-file \""
  {
  }

  lemma KeyFileStep4()
    ensures "\"/Working/input/test.dll\" --key-file \"" + "/Working/input/key.file" == "\"/Working/input/test.dll\" --key-file \"/Working/input/key.file"
  {
  }

  lemma KeyFileStep5()
    ensures "\"/Working/input/test.dll\" --key-file \"/Working/input/key.file" + "\"" == "\"/Working/input/test.dll\" --key-file \"/Working/input/key.file\""
  {
  }

  lemma KeyFile()
    ensures "\"" + "/Working/input/test.dll" + "\"" + " " + "--key-file" + " \"" + "/Working/input/key.file" + "\""
         == "\"/Working/input/test.dll\" --key-file \"/Working/input/key.file\""
  {
    QuotedInput();
    KeyFileStep1();
    KeyFileStep2();
    KeyFileStep3();
    KeyFileStep4();
    KeyFileStep5();
  }

  lemma KeyContainerStep1()
    ensures "\"/Working/input/test.dll\"" + " " == "\"/Working/input/test.dll\" "
  {
  }

  lemma KeyContainerStep2()
    ensures "\"/Working/input/test.dll\" " + "--key-container" == "\"/Working/input/test.dll\" --key-container"
  {
  }

  lemma KeyContainerStep3()
    ensures "\"/Working/input/test.dll\" --key-container" + " \"" == "\"/Working/input/test.dll\" --key-container \""
  {
  }

  lemma KeyContainerStep4()
    ensures "\"/Working/input/test.dll\" --key-container \"" + "containerA" == "\"/Working/input/test.dll\" --key-container \"containerA"
  {
  }

  lemma KeyContainerStep5()
    ensures "\"/Working/input/test.dll\" --key-container \"containerA" + "\"" == "\"/Working/input/test.dll\" --key-container \"containerA\""
  {
  }

  lemma KeyContainer()
    ensures "\"" + "/Working/input/test.dll" + "\"" + " " + "--key-container" + " \"" + "containerA" + "\""
         == "\"/Working/input/test.dll\" --key-container \"containerA\""
  {
    QuotedInput();
    KeyContainerStep1();
    KeyContainerStep2();
    KeyContainerStep3();
    KeyContainerStep4();
    KeyContainerStep5();
  }

  lemma QuietStep1()
    ensures "\"/Working/input/test.dll\"" + " " == "\"/Working/input/test.dll\" "
  {
  }

  lemma QuietStep2()
    ensures "\"/Working/input/test.dll\" " + "--quiet" == "\"/Working/input/test.dll\" --quiet"
  {
  }

  lemma Quiet()
    ensures "\"" + "/Working/input/test.dll" + "\"" + " " + "--quiet"
         == "\"/Working/input/test.dll\" --quiet"
  {
    QuotedInput();
    QuietStep1();
    QuietStep2();
  }

  lemma DecodeStackTraceWithPasswordStep1()
    ensures "\"/Working/input/test.dll\"" + " " == "\"/Working/input/test.dll\" "
  {
  }

  lemma DecodeStackTraceWithPasswordStep2Head()
    ensures "\"/Working/input/test.dll\" " + "--decode-stack-tr" == "\"/Working/input/test.dll\" --decode-stack-tr"
  {
  }

  lemma DecodeStackTraceWithPasswordStep2Tail()
    ensures "\"/Working/input/test.dll\" --decode-stack-tr" + "ace-with-password" == "\"/Working/input/test.dll\" --decode-stack-trace-with-password"
  {
  }

  lemma DecodeStackTraceWithPasswordStep2Piece()
    ensures "--decode-stack-tr" + "ace-with-password" == "--decode-stack-trace-with-password"
  {
  }

  lemma DecodeStackTraceWithPasswordStep2()
    ensures "\"/Working/input/test.dll\" " + "--decode-stack-trace-with-password" == "\"/Working/input/test.dll\" --decode-stack-trace-with-password"
  {
    DecodeStackTraceWithPasswordStep2Piece();
    DecodeStackTraceWithPasswordStep2Head();
    DecodeStackTraceWithPasswordStep2Tail();
    AppendAssoc("\"/Working/input/test.dll\" ", "--decode-stack-tr", "ace-with-password");
  }

  lemma DecodeStackTraceWithPasswordStep3()
    ensures "\"/Working/input/test.dll\" --decode-stack-trace-with-password" + " \"" == "\"/Working/input/test.dll\" --decode-stack-trace-with-password \""
  {
  }

  lemma DecodeStackTraceWithPasswordStep4()
    ensures "\"/Working/input/test.dll\" --decode-stack-trace-with-password \"" + "password" == "\"/Working/input/test.dll\" --decode-stack-trace-with-password \"password"
  {
  }

  lemma DecodeStackTraceWithPasswordStep5()
    ensures "\"/Working/input/test.dll\" --decode-stack-trace-with-password \"password" + "\"" == "\"/Working/input/test.dll\" --decode-stack-trace-with-password \"password\""
  {
  }

  lemma DecodeStackTraceWithPassword()
    ensures "\"" + "/Working/input/test.dll" + "\"" + " " + "--decode-stack-trace-with-password" + " \"" + "password" + "\""
         == "\"/Working/input/test.dll\" --decode-stack-trace-with-password \"password\""
  {
    QuotedInput();
    DecodeStackTraceWithPasswordStep1();
    DecodeStackTraceWithPasswordStep2();
    DecodeStackTraceWithPasswordStep3();
    DecodeStackTraceWithPasswordStep4();
    DecodeStackTraceWithPasswordStep5();
  }

  lemma ErrorSandboxStep1()
    ensures "\"/Working/input/test.dll\"" + " " == "\"/Working/input/test.dll\" "
  {
  }

  lemma ErrorSandboxStep2()
    ensures "\"/Working/input/test.dll\" " + "--error-sandbox" == "\"/Working/input/test.dll\" --error-sandbox"
  {
  }

  lemma ErrorSandboxStep3()
    ensures "\"/Working/input/test.dll\" --error-sandbox" + " \"" == "\"/Working/input/test.dll\" --error-sandbox \""
  {
  }

  lemma ErrorSandboxStep4()
    ensures "\"/Working/input/test.dll\" --error-sandbox \"" + "sandboxA" == "\"/Working/input/test.dll\" --error-sandbox \"sandboxA"
  {
  }

  lemma ErrorSandboxStep5()
    ensures "\"/Working/input/test.dll\" --error-sandbox \"sandboxA" + "\"" == "\"/Working/input/test.dll\" --error-sandbox \"sandboxA\""
  {
  }

  lemma ErrorSandbox()
    ensures "\"" + "/Working/input/test.dll" + "\"" + " " + "--error-sandbox" + " \"" + "sandboxA" + "\""
         == "\"/Working/input/test.dll\" --error-sandbox \"sandboxA\""
  {
    QuotedInput();
    ErrorSandboxStep1();
    ErrorSandboxStep2();
    ErrorSandboxStep3();
    ErrorSandboxStep4();
    ErrorSandboxStep5();
  }

  lemma EnsureObfuscatedStep1()
    ensures "\"/Working/input/test.dll\"" + " " == "\"/Working/input/test.dll\" "
  {
  }

  lemma EnsureObfuscatedStep2()
    ensures "\"/Working/input/test.dll\" " + "--ensure-obfuscated" == "\"/Working/input/test.dll\" --ensure-obfuscated"
  {
  }

  lemma EnsureObfuscated()
    ensures "\"" + "/Working/input/test.dll" + "\"" + " " + "--ensure-obfuscated"
         == "\"/Working/input/test.dll\" --ensure-obfuscated"
  {
    QuotedInput();
    EnsureObfuscatedStep1();
    EnsureObfuscatedStep2();
  }

  lemma MSBuildProjectPathStep1()
    ensures "\"/Working/input/test.dll\"" + " " == "\"/Working/input/test.dll\" "
  {
  }

  lemma MSBuildProjectPathStep2()
    ensures "\"/Working/input/test.dll\" " + "--msbuild-project-path" == "\"/Working/input/test.dll\" --msbuild-project-path"
  {
  }

  lemma MSBuildProjectPathStep3()
    ensures "\"/Working/input/test.dll\" --msbuild-project-path" + " \"" == "\"/Working/input/test.dll\" --msbuild-project-path \""
  {
  }

  lemma MSBuildProjectPathStep4Head()
    ensures "\"/Working/input/test.dll\" --msbuild-project-path \"" + "/Working/inpu" == "\"/Working/input/test.dll\" --msbuild-project-path \"/Working/inpu"
  {
  }

  lemma MSBuildProjectPathStep4Tail()
    ensures "\"/Working/input/test.dll\" --msbuild-project-path \"/Working/inpu" + "t/msbuild.proj" == "\"/Working/input/test.dll\" --msbuild-project-path \"/Working/input/msbuild.proj"
  {
  }

  lemma MSBuildProjectPathStep4Piece()
    ensures "/Working/inpu" + "t/msbuild.proj" == "/Working/input/msbuild.proj"
  {
  }

  lemma MSBuildProjectPathStep4()
    ensures "\"/Working/input/test.dll\" --msbuild-project-path \"" + "/Working/input/msbuild.proj" == "\"/Working/input/test.dll\" --msbuild-project-path \"/Working/input/msbuild.proj"
  {
    MSBuildProjectPathStep4Piece();
    MSBuildProjectPathStep4Head();
    MSBuildProjectPathStep4Tail();
    AppendAssoc("\"/Working/input/test.dll\" --msbuild-project-path \"", "/Working/inpu", "t/msbuild.proj");
  }

  lemma MSBuildProjectPathStep5()
    ensures "\"/Working/input/test.dll\" --msbuild-project-path \"/Working/input/msbuild.proj" + "\"" == "\"/Working/input/test.dll\" --msbuild-project-path \"/Working/input/msbuild.proj\""
  {
  }

  lemma MSBuildProjectPath()
    ensures "\"" + "/Working/input/test.dll" + "\"" + " " + "--msbuild-project-path" + " \"" + "/Working/input/msbuild.proj" + "\""
         == "\"/Working/input/test.dll\" --msbuild-project-path \"/Working/input/msbuild.proj\""
  {
    QuotedInput();
    MSBuildProjectPathStep1();
    MSBuildProjectPathStep2();
    MSBuildProjectPathStep3();
    MSBuildProjectPathStep4();
    MSBuildProjectPathStep5();
  }

  lemma MSBuildProjectConfigurationStep1()
    ensures "\"/Working/input/test.dll\"" + " " == "\"/Working/input/test.dll\" "
  {
  }

  lemma MSBuildProjectConfigurationStep2Head()
    ensures "\"/Working/input/test.dll\" " + "--msbuild-proje" == "\"/Working/input/test.dll\" --msbuild-proje"
  {
  }

  lemma MSBuildProjectConfigurationStep2Tail()
    ensures "\"/Working/input/test.dll\" --msbuild-proje" + "ct-configuration" == "\"/Working/input/test.dll\" --msbuild-project-configuration"
  {
  }

  lemma MSBuildProjectConfigurationStep2Piece()
    ensures "--msbuild-proje" + "ct-configuration" == "--msbuild-project-configuration"
  {
  }

  lemma MSBuildProjectConfigurationStep2()
    ensures "\"/Working/input/test.dll\" " + "--msbuild-project-configuration" == "\"/Working/input/test.dll\" --msbuild-project-configuration"
  {
    MSBuildProjectConfigurationStep2Piece();
    MSBuildProjectConfigurationStep2Head();
    MSBuildProjectConfigurationStep2Tail();
    AppendAssoc("\"/Working/input/test.dll\" ", "--msbuild-proje", "ct-configuration");
  }

  lemma MSBuildProjectConfigurationStep3()
    ensures "\"/Working/input/test.dll\" --msbuild-project-configuration" + " \"" == "\"/Working/input/test.dll\" --msbuild-project-configuration \""
  {
  }

  lemma MSBuildProjectConfigurationStep4()
    ensures "\"/Working/input/test.dll\" --msbuild-project-configuration \"" + "configurationTest" == "\"/Working/input/test.dll\" --msbuild-project-configuration \"configurationTest"
  {
  }

  lemma MSBuildProjectConfigurationStep5()
    ensures "\"/Working/input/test.dll\" --msbuild-project-configuration \"configurationTest" + "\"" == "\"/Working/input/test.dll\" --msbuild-project-configuration \"configurationTest\""
  {
  }

  lemma MSBuildProjectConfiguration()
    ensures "\"" + "/Working/input/test.dll" + "\"" + " " + "--msbuild-project-configuration" + " \"" + "configurationTest" + "\""
         == "\"/Working/input/test.dll\" --msbuild-project-configuration \"configurationTest\""
  {
    QuotedInput();
    MSBuildProjectConfigurationStep1();
    MSBuildProjectConfigurationStep2();
    MSBuildProjectConfigurationStep3();
    MSBuildProjectConfigurationStep4();
    MSBuildProjectConfigurationStep5();
  }

  lemma MSBuildProjectPlatformStep1()
    ensures "\"/Working/input/test.dll\"" + " " == "\"/Working/input/test.dll\" "
  {
  }

  lemma MSBuildProjectPlatformStep2Head()
    ensures "\"/Working/input/test.dll\" " + "--msbuild-pro" == "\"/Working/input/test.dll\" --msbuild-pro"
  {
  }

  lemma MSBuildProjectPlatformStep2Tail()
    ensures "\"/Working/input/test.dll\" --msbuild-pro" + "ject-platform" == "\"/Working/input/test.dll\" --msbuild-project-platform"
  {
  }

  lemma MSBuildProjectPlatformStep2Piece()
    ensures "--msbuild-pro" + "ject-platform" == "--msbuild-project-platform"
  {
  }

  lemma MSBuildProjectPlatformStep2()
    ensures "\"/Working/input/test.dll\" " + "--msbuild-project-platform" == "\"/Working/input/test.dll\" --msbuild-project-platform"
  {
    MSBuildProjectPlatformStep2Piece();
    MSBuildProjectPlatformStep2Head();
    MSBuildProjectPlatformStep2Tail();
    AppendAssoc("\"/Working/input/test.dll\" ", "--msbuild-pro", "ject-platform");
  }

  lemma MSBuildProjectPlatformStep3()
    ensures "\"/Working/input/test.dll\" --msbuild-project-platform" + " \"" == "\"/Working/input/test.dll\" --msbuild-project-platform \""
  {
  }

  lemma MSBuildProjectPlatformStep4()
    ensures "\"/Working/input/test.dll\" --msbuild-project-platform \"" + "platformA" == "\"/Working/input/test.dll\" --msbuild-project-platform \"platformA"
  {
  }

  lemma MSBuildProjectPlatformStep5()
    ensures "\"/Working/input/test.dll\" --msbuild-project-platform \"platformA" + "\"" == "\"/Working/input/test.dll\" --msbuild-project-platform \"platformA\""
  {
  }

  lemma MSBuildProjectPlatform()
    ensures "\"" + "/Working/input/test.dll" + "\"" + " " + "--msbuild-project-platform" + " \"" + "platformA" + "\""
         == "\"/Working/input/test.dll\" --msbuild-project-platform \"platformA\""
  {
    QuotedInput();
    MSBuildProjectPlatformStep1();
    MSBuildProjectPlatformStep2();
    MSBuildProjectPlatformStep3();
    MSBuildProjectPlatformStep4();
    MSBuildProjectPlatformStep5();
  }

  lemma MSBuildSolutionPathStep1()
    ensures "\"/Working/input/test.dll\"" + " " == "\"/Working/input/test.dll\" "
  {
  }

  lemma MSBuildSolutionPathStep2()
    ensures "\"/Working/input/test.dll\" " + "--msbuild-solution-path" == "\"/Working/input/test.dll\" --msbuild-solution-path"
  {
  }

  lemma MSBuildSolutionPathStep3()
    ensures "\"/Working/input/test.dll\" --msbuild-solution-path" + " \"" == "\"/Working/input/test.dll\" --msbuild-solution-path \""
  {
  }

  lemma MSBuildSolutionPathStep4()
    ensures "\"/Working/input/test.dll\" --msbuild-solution-path \"" + "/Working/input/test.sln" == "\"/Working/input/test.dll\" --msbuild-solution-path \"/Working/input/test.sln"
  {
  }

  lemma MSBuildSolutionPathStep5()
    ensures "\"/Working/input/test.dll\" --msbuild-solution-path \"/Working/input/test.sln" + "\"" == "\"/Working/input/test.dll\" --msbuild-solution-path \"/Working/input/test.sln\""
  {
  }

  lemma MSBuildSolutionPath()
    ensures "\"" + "/Working/input/test.dll" + "\"" + " " + "--msbuild-solution-path" + " \"" + "/Working/input/test.sln" + "\""
         == "\"/Working/input/test.dll\" --msbuild-solution-path \"/Working/input/test.sln\""
  {
    QuotedInput();
    MSBuildSolutionPathStep1();
    MSBuildSolutionPathStep2();
    MSBuildSolutionPathStep3();
    MSBuildSolutionPathStep4();
    MSBuildSolutionPathStep5();
  }

  lemma ProtectProjectStep1()
    ensures "\"/Working/input/test.dll\"" + " " == "\"/Working/input/test.dll\" "
  {
  }

  lemma ProtectProjectStep2()
    ensures "\"/Working/input/test.dll\" " + "--protect-project" == "\"/Working/input/test.dll\" --protect-project"
  {
  }

  lemma ProtectProject()
    ensures "\"" + "/Working/input/test.dll" + "\"" + " " + "--protect-project"
         == "\"/Working/input/test.dll\" --protect-project"
  {
    QuotedInput();
    ProtectProjectStep1();
    ProtectProjectStep2();
  }

  lemma UnprotectProjectStep1()
    ensures "\"/Working/input/test.dll\"" + " " == "\"/Working/input/test.dll\" "
  {
  }

  lemma UnprotectProjectStep2()
    ensures "\"/Working/input/test.dll\" " + "--unprotect-project" == "\"/Working/input/test.dll\" --unprotect-project"
  {
  }

  lemma UnprotectProject()
    ensures "\"" + "/Working/input/test.dll" + "\"" + " " + "--unprotect-project"
         == "\"/Working/input/test.dll\" --unprotect-project"
  {
    QuotedInput();
    UnprotectProjectStep1();
    UnprotectProjectStep2();
  }

  lemma CompatibilityVersionStep1()
    ensures "\"/Working/input/test.dll\"" + " " == "\"/Working/input/test.dll\" "
  {
  }

  lemma CompatibilityVersionStep2()
    ensures "\"/Working/input/test.dll\" " + "--compatibility-version" == "\"/Working/input/test.dll\" --compatibility-version"
  {
  }

  lemma CompatibilityVersionStep3()
    ensures "\"/Working/input/test.dll\" --compatibility-version" + " \"" == "\"/Working/input/test.dll\" --compatibility-version \""
  {
  }

  lemma CompatibilityVersionStep4()
    ensures "\"/Working/input/test.dll\" --compatibility-version \"" + "1.1.1" == "\"/Working/input/test.dll\" --compatibility-version \"1.1.1"
  {
  }

  lemma CompatibilityVersionStep5()
    ensures "\"/Working/input/test.dll\" --compatibility-version \"1.1.1" + "\"" == "\"/Working/input/test.dll\" --compatibility-version \"1.1.1\""
  {
  }

  lemma CompatibilityVersion()
    ensures "\"" + "/Working/input/test.dll" + "\"" + " " + "--compatibility-version" + " \"" + "1.1.1" + "\""
         == "\"/Working/input/test.dll\" --compatibility-version \"1.1.1\""
  {
    QuotedInput();
    CompatibilityVersionStep1();
    CompatibilityVersionStep2();
    CompatibilityVersionStep3();
    CompatibilityVersionStep4();
    CompatibilityVersionStep5();
  }

  lemma CheckVersionStep1()
    ensures "\"/Working/input/test.dll\"" + " " == "\"/Working/input/test.dll\" "
  {
  }

  lemma CheckVersionStep2()
    ensures "\"/Working/input/test.dll\" " + "--check-version" == "\"/Working/input/test.dll\" --check-version"
  {
  }

  lemma CheckVersion()
    ensures "\"" + "/Working/input/test.dll" + "\"" + " " + "--check-version"
         == "\"/Working/input/test.dll\" --check-version"
  {
    QuotedInput();
    CheckVersionStep1();
    CheckVersionStep2();
  }

  lemma WarningsAsErrorsStep1()
    ensures "\"/Working/input/test.dll\"" + " " == "\"/Working/input/test.dll\" "
  {
  }

  lemma WarningsAsErrorsStep2()
    ensures "\"/Working/input/test.dll\" " + "--warnings-as-errors" == "\"/Working/input/test.dll\" --warnings-as-errors"
  {
  }

  lemma WarningsAsErrorsStep3()
    ensures "\"/Working/input/test.dll\" --warnings-as-errors" + " \"" == "\"/Working/input/test.dll\" --warnings-as-errors \""
  {
  }

  lemma WarningsAsErrorsStep4()
    ensures "\"/Working/input/test.dll\" --warnings-as-errors \"" + "EF-4001,EF-4002" == "\"/Working/input/test.dll\" --warnings-as-errors \"EF-4001,EF-4002"
  {
  }

  lemma WarningsAsErrorsStep5()
    ensures "\"/Working/input/test.dll\" --warnings-as-errors \"EF-4001,EF-4002" + "\"" == "\"/Working/input/test.dll\" --warnings-as-errors \"EF-4001,EF-4002\""
  {
  }

  lemma WarningsAsErrors()
    ensures "\"" + "/Working/input/test.dll" + "\"" + " " + "--warnings-as-errors" + " \"" + "EF-4001,EF-4002" + "\""
         == "\"/Working/input/test.dll\" --warnings-as-errors \"EF-4001,EF-4002\""
  {
    QuotedInput();
    WarningsAsErrorsStep1();
    WarningsAsErrorsStep2();
    WarningsAsErrorsStep3();
    WarningsAsErrorsStep4();
    WarningsAsErrorsStep5();
  }

  lemma ConfigurationFileStep1()
    ensures "\"/Working/input/test.dll\"" + " " == "\"/Working/input/test.dll\" "
  {
  }

  lemma ConfigurationFileStep2()
    ensures "\"/Working/input/test.dll\" " + "--configuration-file" == "\"/Working/input/test.dll\" --configuration-file"
  {
  }

  lemma ConfigurationFileStep3()
    ensures "\"/Working/input/test.dll\" --configuration-file" + " \"" == "\"/Working/input/test.dll\" --configuration-file \""
  {
  }

  lemma ConfigurationFileStep4Head()
    ensures "\"/Working/input/test.dll\" --configuration-file \"" + "/Working/inpu" == "\"/Working/input/test.dll\" --configuration-file \"/Working/inpu"
  {
  }

  lemma ConfigurationFileStep4Tail()
    ensures "\"/Working/input/test.dll\" --configuration-file \"/Working/inpu" + "t/test.config" == "\"/Working/input/test.dll\" --configuration-file \"/Working/input/test.config"
  {
  }

  lemma ConfigurationFileStep4Piece()
    ensures "/Working/inpu" + "t/test.config" == "/Working/input/test.config"
  {
  }

  lemma ConfigurationFileStep4()
    ensures "\"/Working/input/test.dll\" --configuration-file \"" + "/Working/input/test.config" == "\"/Working/input/test.dll\" --configuration-file \"/Working/input/test.config"
  {
    ConfigurationFileStep4Piece();
    ConfigurationFileStep4Head();
    ConfigurationFileStep4Tail();
    AppendAssoc("\"/Working/input/test.dll\" --configuration-file \"", "/Working/inpu", "t/test.config");
  }

  lemma ConfigurationFileStep5()
    ensures "\"/Working/input/test.dll\" --configuration-file \"/Working/input/test.config" + "\"" == "\"/Working/input/test.dll\" --configuration-file \"/Working/input/test.config\""
  {
  }

  lemma ConfigurationFile()
    ensures "\"" + "/Working/input/test.dll" + "\"" + " " + "--configuration-file" + " \"" + "/Working/input/test.config" + "\""
         == "\"/Working/input/test.dll\" --configuration-file \"/Working/input/test.config\""
  {
    QuotedInput();
    ConfigurationFileStep1();
    ConfigurationFileStep2();
    ConfigurationFileStep3();
    ConfigurationFileStep4();
    ConfigurationFileStep5();
  }

  lemma StatisticsStep1()
    ensures "\"/Working/input/test.dll\"" + " " == "\"/Working/input/test.dll\" "
  {
  }

  lemma StatisticsStep2()
    ensures "\"/Working/input/test.dll\" " + "--statistics" == "\"/Working/input/test.dll\" --statistics"
  {
  }

  lemma Statistics()
    ensures "\"" + "/Working/input/test.dll" + "\"" + " " + "--statistics"
         == "\"/Working/input/test.dll\" --statistics"
  {
    QuotedInput();
    StatisticsStep1();
    StatisticsStep2();
  }

  lemma NewlineFlushStep1()
    ensures "\"/Working/input/test.dll\"" + " " == "\"/Working/input/test.dll\" "
  {
  }

  lemma NewlineFlushStep2()
    ensures "\"/Working/input/test.dll\" " + "--newline-flush" == "\"/Working/input/test.dll\" --newline-flush"
  {
  }

  lemma NewlineFlush()
    ensures "\"" + "/Working/input/test.dll" + "\"" + " " + "--newline-flush"
         == "\"/Working/input/test.dll\" --newline-flush"
  {
    QuotedInput();
    NewlineFlushStep1();
    NewlineFlushStep2();
  }

  lemma ProbingPathsStep1()
    ensures "\"/Working/input/test.dll\"" + " " == "\"/Working/input/test.dll\" "
  {
  }

  lemma ProbingPathsStep2()
    ensures "\"/Working/input/test.dll\" " + "--probing-paths" == "\"/Working/input/test.dll\" --probing-paths"
  {
  }

  lemma ProbingPathsStep3()
    ensures "\"/Working/input/test.dll\" --probing-paths" + " \"" == "\"/Working/input/test.dll\" --probing-paths \""
  {
  }

  lemma ProbingPathsStep4Head()
    ensures "\"/Working/input/test.dll\" --probing-paths \"" + "/Working/input/path1" == "\"/Working/input/test.dll\" --probing-paths \"/Working/input/path1"
  {
  }

  lemma ProbingPathsStep4Tail()
    ensures "\"/Working/input/test.dll\" --probing-paths \"/Working/input/path1" + ";/Working/input/path2" == "\"/Working/input/test.dll\" --probing-paths \"/Working/input/path1;/Working/input/path2"
  {
  }

  lemma ProbingPathsStep4Piece()
    ensures "/Working/input/path1" + ";/Working/input/path2" == "/Working/input/path1;/Working/input/path2"
  {
  }

  lemma ProbingPathsStep4()
    ensures "\"/Working/input/test.dll\" --probing-paths \"" + "/Working/input/path1;/Working/input/path2" == "\"/Working/input/test.dll\" --probing-paths \"/Working/input/path1;/Working/input/path2"
  {
    ProbingPathsStep4Piece();
    ProbingPathsStep4Head();
    ProbingPathsStep4Tail();
    AppendAssoc("\"/Working/input/test.dll\" --probing-paths \"", "/Working/input/path1", ";/Working/input/path2");
  }

  lemma ProbingPathsStep5()
    ensures "\"/Working/input/test.dll\" --probing-paths \"/Working/input/path1;/Working/input/path2" + "\"" == "\"/Working/input/test.dll\" --probing-paths \"/Working/input/path1;/Working/input/path2\""
  {
  }

  lemma ProbingPaths()
    ensures "\"" + "/Working/input/test.dll" + "\"" + " " + "--probing-paths" + " \"" + "/Working/input/path1;/Working/input/path2" + "\""
         == "\"/Working/input/test.dll\" --probing-paths \"/Working/input/path1;/Working/input/path2\""
  {
    QuotedInput();
    ProbingPathsStep1();
    ProbingPathsStep2();
    ProbingPathsStep3();
    ProbingPathsStep4();
    ProbingPathsStep5();
  }

  lemma TwoInputsStep1()
    ensures "\"" + "/Working/input/test1.dll" == "\"/Working/input/test1.dll"
  {
  }

  lemma TwoInputsStep2()
    ensures "\"/Working/input/test1.dll" + "\"" == "\"/Working/input/test1.dll\""
  {
  }

  lemma TwoInputsStep3()
    ensures "\"/Working/input/test1.dll\"" + " " == "\"/Working/input/test1.dll\" "
  {
  }

  lemma TwoInputsStep4()
    ensures "\"/Working/input/test1.dll\" " + "\"" == "\"/Working/input/test1.dll\" \""
  {
  }

  lemma TwoInputsStep5()
    ensures "\"/Working/input/test1.dll\" \"" + "/Working/input/test2.dll" == "\"/Working/input/test1.dll\" \"/Working/input/test2.dll"
  {
  }

  lemma TwoInputsStep6()
    ensures "\"/Working/input/test1.dll\" \"/Working/input/test2.dll" + "\"" == "\"/Working/input/test1.dll\" \"/Working/input/test2.dll\""
  {
  }

  lemma TwoInputs()
    ensures "\"" + "/Working/input/test1.dll" + "\"" + " " + "\"" + "/Working/input/test2.dll" + "\""
         == "\"/Working/input/test1.dll\" \"/Working/input/test2.dll\""
  {
    TwoInputsStep1();
    TwoInputsStep2();
    TwoInputsStep3();
    TwoInputsStep4();
    TwoInputsStep5();
    TwoInputsStep6();
  }
}
