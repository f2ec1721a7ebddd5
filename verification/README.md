# Cake.Eazfuscator.Net argument builder, in Dafny

Cake.Eazfuscator.Net is a Cake build add-in. It runs the Eazfuscator.NET
obfuscator (`Eazfuscator.Net.exe`) on one or more assemblies.
`EazfuscatorNetRunner.Run` rejects a null list of input files, then a null
settings record. `GetArguments` then turns the inputs and the
`EazfuscatorNetSettings` record into a command line, in this order:

- each input file, made absolute and quoted, in the caller's order;
- one conditional block per setting, always in the same fixed order;
- a boolean switch adds its bare option name when true;
- a path setting adds its name and the quoted absolute path when non-null;
- a string setting adds its name and the quoted string, verbatim, when it is
  neither null nor white space only;
- the probing paths, when the list is non-null, add `--probing-paths` and one
  quoted token: every path made absolute, joined with `;`.

The model is split into modules:

- `Settings`: the settings record (`Option` fields; `None` is null) and the
  freshly constructed record `Default`.
- `Tokens`: the builder's tokens (`Plain` for `Append`, `Quoted` for
  `AppendQuoted`) and `Render`, which writes them out separated by spaces.
- `Text`: .NET's `string.IsNullOrWhiteSpace` and `string.Join`.
- `Options`: the 21 emitting settings, their names, their fixed order
  `Order()`, and what each one contributes.
- `Runner`: the reference definition `Arguments`, the method
  `GetArguments` written as the source writes it, and `Run`.
- `ArgumentProperties` and `Decoding`: the properties of the argument list.
  This includes a decoder that recovers the inputs and every setting's
  value from it.
- `Aliases`: the script aliases.
- `RunnerTests`: the unit tests' expectations, stated as lemmas.
- `ExpectedLines`: string-literal identities those lemmas rely on.

`MakeAbsolute(environment).FullPath` is the parameter `abs: Path -> string`.
Each test lemma states only how `abs` resolves the paths that test uses, in
the fixture's working directory `/Working`.

`Run` checks the input list before the settings record, so with both null
it reports `inputFiles` (`EazfuscatorNetRunner.cs` lines 23-31).

## Model

| member | source | states |
|---|---|---|
| Runner.Run | Source/Cake.Eazfuscator.Net/EazfuscatorNetRunner.cs:21-34 | A null input list fails naming `inputFiles`, even when settings are null too; otherwise a null settings record fails naming `settings`; only with both present is the argument list built, and it is then exactly `Arguments` |
| Runner.GetArguments | Source/Cake.Eazfuscator.Net/EazfuscatorNetRunner.cs:43-179 | The source's straight-line builder (input loop, then 21 conditional appends) produces exactly the reference list: quoted absolute inputs, then each setting's tokens taken in `Order()` |
| Runner.AppendGeneralOptions | Source/Cake.Eazfuscator.Net/EazfuscatorNetRunner.cs:52-95 | The blocks from `--nologo` to `--ensure-obfuscated` append exactly those eight settings' tokens, in that order, after what was already built |
| Runner.AppendMSBuildOptions | Source/Cake.Eazfuscator.Net/EazfuscatorNetRunner.cs:97-129 | The blocks from `--msbuild-project-path` to `--unprotect-project` append exactly those six settings' tokens, in order |
| Runner.AppendVersionOptions | Source/Cake.Eazfuscator.Net/EazfuscatorNetRunner.cs:131-154 | The blocks for `--compatibility-version`, `--check-version` and `--probing-paths` append exactly those settings' tokens, in order |
| Runner.AppendOutputOptions | Source/Cake.Eazfuscator.Net/EazfuscatorNetRunner.cs:156-176 | The blocks from `--warnings-as-errors` to `--newline-flush` append exactly those four settings' tokens, in order |
| Runner.AppendSwitch | Source/Cake.Eazfuscator.Net/EazfuscatorNetRunner.cs:52-55 | A boolean block appends the setting's contribution and keeps everything built before it |
| Runner.AppendFile | Source/Cake.Eazfuscator.Net/EazfuscatorNetRunner.cs:57-67 | A path block appends the setting's contribution (name plus quoted absolute path when non-null) and keeps everything before it |
| Runner.AppendText | Source/Cake.Eazfuscator.Net/EazfuscatorNetRunner.cs:69-73 | A string block appends the setting's contribution (name plus verbatim quoted string unless null or white space) and keeps everything before it |
| Runner.AppendProbingPaths | Source/Cake.Eazfuscator.Net/EazfuscatorNetRunner.cs:142-154 | The loop collecting absolute probing paths and the `;` join append exactly the probing-path contribution |
| Runner.WalkAppendsOptions | Source/Cake.Eazfuscator.Net/EazfuscatorNetRunner.cs:52-176 | Walking the settings one after another from the first appends exactly the tokens of the whole chain, in order |
| Runner.Arguments | Source/Cake.Eazfuscator.Net/EazfuscatorNetRunner.cs:43-179 | The reference definition every property is about: the quoted absolute inputs in caller order, then each setting's contribution taken in `Order()` |
| Settings.DefaultIsFalseAndNull | Source/Cake.Eazfuscator.Net/EazfuscatorNetSettings.cs:21-190 | `new EazfuscatorNetSettings()` (the constant `Settings.Default`): all eight switches false, all five paths, seven strings and the probing-path list null |
| Text.IsWhiteSpace | Source/Cake.Eazfuscator.Net/EazfuscatorNetRunner.cs:69 | .NET's `char.IsWhiteSpace`: U+0009 to U+000D, U+0020, U+0085, U+00A0, U+1680, U+2000 to U+200A, U+2028, U+2029, U+202F, U+205F and U+3000, and no other character |
| Text.IsNullOrWhiteSpace | Source/Cake.Eazfuscator.Net/EazfuscatorNetRunner.cs:69 | The `string.IsNullOrWhiteSpace` guard of the seven string blocks (lines 69, 80, 86, 103, 109, 131, 156): true for null, for the empty string, and for a string of white-space characters only |
| Text.Join | Source/Cake.Eazfuscator.Net/EazfuscatorNetRunner.cs:152 | `string.Join`: empty for no elements, the element itself for one, and otherwise the elements in order with the separator between neighbours; the result starts with the first element |
| Options.Flag | Source/Cake.Eazfuscator.Net/EazfuscatorNetRunner.cs:54-175 | The 21 option names the runner appends, one per setting, from `--nologo` to `--newline-flush`, spelled as in the source |
| Options.KindOf | Source/Cake.Eazfuscator.Net/EazfuscatorNetRunner.cs:52-154 | The block shape of each setting: the eight booleans are bare switches (lines 52-55), the five paths are `--flag "abs"` (57-67), the seven strings are `--flag "text"` behind the white-space guard (69-73), and the probing-path list is the joined block of 142-154 |
| Tokens.Show | Source/Cake.Eazfuscator.Net/EazfuscatorNetRunner.cs:49-54 | How one builder entry is written out: an `Append` text as is, an `AppendQuoted` text between double quotes |
| Tokens.Render | Source/Cake.Eazfuscator.Net.Tests/EazfuscatorNetRunnerTests.cs:134-407 | The rendered command line the runner's tests compare with `result.Args`: the written-out entries joined by single spaces, in builder order |
| Runner.QuoteAll | Source/Cake.Eazfuscator.Net/EazfuscatorNetRunner.cs:47-50 | One quoted token per input text, same count, same order |
| Options.Setting | Source/Cake.Eazfuscator.Net/EazfuscatorNetRunner.cs:52-176 | A setting's value always fits its kind: a switch is on or off; a path, string or probing list is off or carries one value |
| Options.Index | Source/Cake.Eazfuscator.Net/EazfuscatorNetRunner.cs:52-176 | Every setting has a position in the fixed emission order, and that position holds it |
| Options.FlagReadsBack | Source/Cake.Eazfuscator.Net/EazfuscatorNetRunner.cs:52-176 | Every option name the runner appends reads back as its own setting |
| Options.FlagInjective | Source/Cake.Eazfuscator.Net/EazfuscatorNetRunner.cs:52-176 | Two settings have the same option name exactly when they are the same setting |
| Options.OrderIsPermutation | Source/Cake.Eazfuscator.Net/EazfuscatorNetRunner.cs:52-176 | The fixed order lists each of the 21 emitting settings exactly once |
| Options.NextFollowsOrder | Source/Cake.Eazfuscator.Net/EazfuscatorNetRunner.cs:52-176 | The setting examined after the one at position k is the one at k+1; after the last there is none |
| Options.OrderHasDistinctFlags | Source/Cake.Eazfuscator.Net/EazfuscatorNetRunner.cs:52-176 | The option names in emission order are pairwise different |
| Options.ResetOnlyTouches | Source/Cake.Eazfuscator.Net/EazfuscatorNetSettings.cs:16-191 | Each setting has a field of its own: clearing one makes it absent and leaves every other setting's value as it was |
| Options.Values | Source/Cake.Eazfuscator.Net/EazfuscatorNetSettings.cs:16-191 | One value per setting, position by position |
| Options.AbsAll | Source/Cake.Eazfuscator.Net/EazfuscatorNetRunner.cs:145-150 | One absolute path per path, same count, same order |
| ArgumentProperties.InputsComeFirst | Source/Cake.Eazfuscator.Net/EazfuscatorNetRunner.cs:47-50 | The list starts with one quoted absolute path per input, in caller order; the rest depends on the settings alone and, when non-empty, starts with an option name |
| ArgumentProperties.AllOffMeansOnlyInputs | Source/Cake.Eazfuscator.Net/EazfuscatorNetRunner.cs:43-179 | When no setting is present, the arguments are the quoted inputs and nothing else |
| ArgumentProperties.DefaultIsAllOff | Source/Cake.Eazfuscator.Net/EazfuscatorNetSettings.cs:16-191 | A freshly constructed settings record has every setting absent |
| ArgumentProperties.DefaultSettingsOnlyInputs | Source/Cake.Eazfuscator.Net/EazfuscatorNetRunner.cs:43-179 | With default settings the arguments are exactly the quoted inputs, one token per input |
| ArgumentProperties.NoInputsOnlyOptions | Source/Cake.Eazfuscator.Net/EazfuscatorNetRunner.cs:47-50 | An empty input list is accepted and yields only option tokens |
| ArgumentProperties.FlagsInFixedOrder | Source/Cake.Eazfuscator.Net/EazfuscatorNetRunner.cs:52-176 | The bare tokens of the list are exactly the names of the present settings, in the fixed order, whatever the settings |
| ArgumentProperties.FlagsAppearOnce | Source/Cake.Eazfuscator.Net/EazfuscatorNetRunner.cs:52-176 | No option name appears twice on the command line |
| ArgumentProperties.FlagPresentIffSet | Source/Cake.Eazfuscator.Net/EazfuscatorNetRunner.cs:52-176 | A setting's name is on the command line if and only if that setting is present |
| ArgumentProperties.OptionsAround | Source/Cake.Eazfuscator.Net/EazfuscatorNetRunner.cs:52-176 | Each setting's tokens sit after those of every earlier setting in the order and before those of every later one |
| ArgumentProperties.ArgumentsAround | Source/Cake.Eazfuscator.Net/EazfuscatorNetRunner.cs:43-179 | The same split, with all of it after the inputs |
| ArgumentProperties.ValueFollowsFlag | Source/Cake.Eazfuscator.Net/EazfuscatorNetRunner.cs:57-166 | A setting that carries a value puts its name immediately followed by the quoted value |
| ArgumentProperties.SwitchOption | Source/Cake.Eazfuscator.Net/EazfuscatorNetRunner.cs:52-55 | A switch's bare name is on the command line if and only if the switch is true; against the same settings with the switch cleared, a true switch inserts exactly that one token and a false one changes nothing |
| ArgumentProperties.FileOption | Source/Cake.Eazfuscator.Net/EazfuscatorNetRunner.cs:57-67 | A path setting appears if and only if it is non-null, and then its name is followed by the quoted absolute path |
| ArgumentProperties.TextOption | Source/Cake.Eazfuscator.Net/EazfuscatorNetRunner.cs:69-73 | A string setting appears if and only if it is neither null nor white space, and then its name is followed by the string verbatim, not made absolute |
| ArgumentProperties.BlankTextOmitted | Source/Cake.Eazfuscator.Net/EazfuscatorNetRunner.cs:69-73 | An empty or white-space string setting leaves no name on the command line and gives the same arguments as a null one |
| ArgumentProperties.ProbingPathsOption | Source/Cake.Eazfuscator.Net/EazfuscatorNetRunner.cs:142-154 | `--probing-paths` is present if and only if the list is non-null, even when it is empty |
| ArgumentProperties.ProbingPathsValue | Source/Cake.Eazfuscator.Net/EazfuscatorNetRunner.cs:142-154 | A non-null list puts `--probing-paths` followed by one quoted token: the absolute paths joined with `;` in list order |
| ArgumentProperties.EmptyProbingPathsEmitted | Source/Cake.Eazfuscator.Net/EazfuscatorNetRunner.cs:142-154 | An empty, non-null probing-path list still puts `--probing-paths` on the command line, followed by a quoted empty string |
| ArgumentProperties.ProbingPathsRecoverable | Source/Cake.Eazfuscator.Net/EazfuscatorNetRunner.cs:145-153 | For a non-empty list in which no absolute path contains `;`, splitting the joined value at `;` gives back every absolute path in order (an empty list joins to the empty string, which splits into one empty piece) |
| ArgumentProperties.OnlyOneSetting | Source/Cake.Eazfuscator.Net/EazfuscatorNetRunner.cs:43-179 | With a single setting present, the arguments are the inputs followed by that setting's tokens only |
| ArgumentProperties.ChangeIsLocal | Source/Cake.Eazfuscator.Net/EazfuscatorNetRunner.cs:52-176 | Two records that differ in one setting give argument lists that agree on everything outside that setting's own tokens |
| ArgumentProperties.ArgumentCount | Source/Cake.Eazfuscator.Net/EazfuscatorNetRunner.cs:43-179 | The list has one token per input plus 0, 1 or 2 per setting (its width), so at most 42 beyond the inputs |
| ArgumentProperties.KeyFileWithKeyContainerNotRejected | Source/Cake.Eazfuscator.Net/EazfuscatorNetSettings.cs:46-56 | A key container is documented as not usable with a key file, yet both `--key-file` and `--key-container` are emitted |
| ArgumentProperties.OutputWithSeveralInputsNotRejected | Source/Cake.Eazfuscator.Net/EazfuscatorNetSettings.cs:23-32 | An output file is documented as not allowed with several inputs, yet `--output` is emitted after all of them |
| ArgumentProperties.CheckVersionNotExclusive | Source/Cake.Eazfuscator.Net/EazfuscatorNetSettings.cs:139-148 | The version check is documented as not combinable, yet any other present setting is emitted beside `--check-version` |
| ArgumentProperties.ProtectionWithoutProjectPath | Source/Cake.Eazfuscator.Net/EazfuscatorNetSettings.cs:112-131 | Protect and unprotect "should be used with" a project path, yet both are emitted together without `--msbuild-project-path` |
| Decoding.DecodeEmitAll | Source/Cake.Eazfuscator.Net/EazfuscatorNetRunner.cs:52-176 | Decoding the tokens of any values that fit their settings gives those values back |
| Decoding.DecodeOptionsSound | Source/Cake.Eazfuscator.Net/EazfuscatorNetRunner.cs:52-176 | Whatever the decoder accepts is exactly the tokens of the values it returns |
| Decoding.DecodeArguments | Source/Cake.Eazfuscator.Net/EazfuscatorNetRunner.cs:43-179 | Decoding the runner's arguments gives back the absolute inputs in order and every setting's value |
| Decoding.ArgumentsDetermineSettings | Source/Cake.Eazfuscator.Net/EazfuscatorNetRunner.cs:43-179 | Two argument lists are equal if and only if the absolute inputs are equal and every setting has the same value |
| Text.SplitJoin | Source/Cake.Eazfuscator.Net/EazfuscatorNetRunner.cs:152 | Joining a non-empty list with a one-character separator none of its elements contain is undone by splitting at that character |
| Text.JoinSnoc | Source/Cake.Eazfuscator.Net/EazfuscatorNetRunner.cs:152 | Adding an element at the end of the list extends the joined string at its end, after one separator |
| Tokens.PlainIn | Source/Cake.Eazfuscator.Net/EazfuscatorNetRunner.cs:54 | A bare token occurs in a list if and only if its text is among the list's bare texts |
| Tokens.PlainsAppend | Source/Cake.Eazfuscator.Net/EazfuscatorNetRunner.cs:54 | The bare texts of two concatenated lists are the bare texts of the first followed by those of the second |
| Aliases.RunOnFile | Source/Cake.Eazfuscator.Net/EazfuscatorNetAliases.cs:30-33 | One file with default settings runs with that file's quoted absolute path as the whole argument list |
| Aliases.RunOnFiles | Source/Cake.Eazfuscator.Net/EazfuscatorNetAliases.cs:40-43 | Several files with default settings: a null list is still rejected; otherwise the quoted inputs alone, in order |
| Aliases.RunOnFileWith | Source/Cake.Eazfuscator.Net/EazfuscatorNetAliases.cs:52-55 | One file with settings: null settings are rejected; otherwise the file comes first, then the options |
| RunnerTests.ShouldThrowIfSettingsAreNull | Source/Cake.Eazfuscator.Net.Tests/EazfuscatorNetRunnerTests.cs:12-23 | The fixture's run with null settings fails naming `settings` |
| RunnerTests.ShouldUseAllInputFiles | Source/Cake.Eazfuscator.Net.Tests/EazfuscatorNetRunnerTests.cs:124-135 | Two inputs with default settings render as the two quoted absolute paths |
| RunnerTests.ShouldSetNoLogo | Source/Cake.Eazfuscator.Net.Tests/EazfuscatorNetRunnerTests.cs:137-148 | The test's expected command line for `NoLogo = true` |
| RunnerTests.ShouldSetOutputFile | Source/Cake.Eazfuscator.Net.Tests/EazfuscatorNetRunnerTests.cs:150-161 | The test's expected command line for an output file |
| RunnerTests.ShouldSetKeyFile | Source/Cake.Eazfuscator.Net.Tests/EazfuscatorNetRunnerTests.cs:163-174 | The test's expected command line for a key file |
| RunnerTests.ShouldSetKeyContainer | Source/Cake.Eazfuscator.Net.Tests/EazfuscatorNetRunnerTests.cs:176-187 | The test's expected command line for a key container |
| RunnerTests.ShouldSetQuiet | Source/Cake.Eazfuscator.Net.Tests/EazfuscatorNetRunnerTests.cs:189-200 | The test's expected command line for `Quiet = true` |
| RunnerTests.ShouldSetDecodeStackTraceWithPassword | Source/Cake.Eazfuscator.Net.Tests/EazfuscatorNetRunnerTests.cs:202-213 | The test's expected command line for a stack-trace password |
| RunnerTests.ShouldSetErrorSandbox | Source/Cake.Eazfuscator.Net.Tests/EazfuscatorNetRunnerTests.cs:215-226 | The test's expected command line for an error sandbox |
| RunnerTests.ShouldSetEnsureObfuscated | Source/Cake.Eazfuscator.Net.Tests/EazfuscatorNetRunnerTests.cs:228-239 | The test's expected command line for `EnsureObfuscated = true` |
| RunnerTests.ShouldSetMSBuildProjectPath | Source/Cake.Eazfuscator.Net.Tests/EazfuscatorNetRunnerTests.cs:241-252 | The test's expected command line for an MSBuild project path |
| RunnerTests.ShouldSetMSBuildProjectConfiguration | Source/Cake.Eazfuscator.Net.Tests/EazfuscatorNetRunnerTests.cs:254-265 | The test's expected command line for an MSBuild configuration |
| RunnerTests.ShouldSetMSBuildProjectPlatform | Source/Cake.Eazfuscator.Net.Tests/EazfuscatorNetRunnerTests.cs:267-278 | The test's expected command line for an MSBuild platform |
| RunnerTests.ShouldSetMSBuildSolutionPath | Source/Cake.Eazfuscator.Net.Tests/EazfuscatorNetRunnerTests.cs:280-291 | The test's expected command line for an MSBuild solution path |
| RunnerTests.ShouldSetProtectProject | Source/Cake.Eazfuscator.Net.Tests/EazfuscatorNetRunnerTests.cs:293-304 | The test's expected command line for `ProtectProject = true` |
| RunnerTests.ShouldSetUnprotectProject | Source/Cake.Eazfuscator.Net.Tests/EazfuscatorNetRunnerTests.cs:306-317 | The test's expected command line for `UnprotectProject = true` |
| RunnerTests.ShouldSetCompatibilityVersion | Source/Cake.Eazfuscator.Net.Tests/EazfuscatorNetRunnerTests.cs:319-330 | The test's expected command line for a compatibility version |
| RunnerTests.ShouldSetCheckVersion | Source/Cake.Eazfuscator.Net.Tests/EazfuscatorNetRunnerTests.cs:332-343 | The test's expected command line for `CheckVersion = true` |
| RunnerTests.ShouldSetProbingPaths | Source/Cake.Eazfuscator.Net.Tests/EazfuscatorNetRunnerTests.cs:345-356 | The test's expected command line for two probing paths, joined with `;` |
| RunnerTests.ShouldSetWarningsAsErrors | Source/Cake.Eazfuscator.Net.Tests/EazfuscatorNetRunnerTests.cs:358-369 | The test's expected command line for warnings as errors |
| RunnerTests.ShouldSetConfigurationFile | Source/Cake.Eazfuscator.Net.Tests/EazfuscatorNetRunnerTests.cs:371-382 | The test's expected command line for a configuration file |
| RunnerTests.ShouldSetStatistics | Source/Cake.Eazfuscator.Net.Tests/EazfuscatorNetRunnerTests.cs:384-395 | The test's expected command line for `Statistics = true` |
| RunnerTests.ShouldSetNewlineFlush | Source/Cake.Eazfuscator.Net.Tests/EazfuscatorNetRunnerTests.cs:397-408 | The test's expected command line for `NewlineFlush = true` |

`Runner.ToolName` and `Runner.ToolExecutableNames` are the constants of
`EazfuscatorNetRunner.cs` lines 36-41. They carry no contract.

## Left out

- Executing the tool is left out. This covers locating the executable, `ToolPath`, the working directory, starting the process and the exit-code check. They belong to Cake's `Tool<T>` base class, which is not part of this model. `Run` yields the argument list it would pass on.
- Making paths absolute is left out. `MakeAbsolute(environment).FullPath` is the function parameter `abs`, so path normalisation is not modelled.
- Quote escaping inside `ProcessArgumentBuilder.AppendQuoted` is not modelled. `Render` wraps a quoted token's text in double quotes as is, which matches every test value.
- Null elements inside the input list or the probing-path list are not representable. In C# they would fail with a null-reference error while the list is walked.
- The fourth alias (`EazfuscatorNetAliases.cs:64-68`) constructs the runner from the script context and calls `Run`. It is `Runner.Run` itself and has no separate member.
- Wiring the runner to Cake's context and services is left out.
- The tests on executable lookup, tool path, working directory, process start and exit code (`EazfuscatorNetRunnerTests.cs:25-122`) exercise `Tool<T>`, which is left out.
