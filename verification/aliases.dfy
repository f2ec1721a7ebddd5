/** `EazfuscatorNetAliases`: the four script entry points. The single-file
    forms wrap the file in a one-element list, and the forms without
    settings pass a freshly constructed settings record; all of them end in
    the runner's `Run`; the form taking a list and settings is `Run`
    itself. */
module Aliases {
  import opened Wrappers
  import opened Settings
  import opened Tokens
  import opened Options
  import opened Runner
  import opened ArgumentProperties

  /** One file, default settings: the argument list is that file's quoted
      absolute path alone. */
  method RunOnFile(inputFile: Path, abs: Path -> string)
    returns (r: Result<seq<Token>, ArgumentError>)
    ensures r == Success([Quoted(abs(inputFile))])
  {
    r := Run(Some([inputFile]), Some(Default), abs);
    DefaultSettingsOnlyInputs([inputFile], abs);
    assert InputTokens([inputFile], abs) == [Quoted(abs(inputFile))];
  }

  /** Several files, default settings: a null list is still rejected, and
      otherwise only the quoted inputs are passed. */
  method RunOnFiles(inputFiles: Option<seq<Path>>, abs: Path -> string)
    returns (r: Result<seq<Token>, ArgumentError>)
    ensures inputFiles.None? ==> r == Failure(ArgumentNull("inputFiles"))
    ensures inputFiles.Some? ==>
              && r.Success?
              && |r.value| == |inputFiles.value|
              && forall i :: 0 <= i < |inputFiles.value| ==>
                   r.value[i] == Quoted(abs(inputFiles.value[i]))
  {
    r := Run(inputFiles, Some(Default), abs);
    if inputFiles.Some? {
      DefaultSettingsOnlyInputs(inputFiles.value, abs);
    }
  }

  /** One file with settings: a null settings record is rejected; otherwise
      the file's quoted absolute path comes first, then the options. */
  method RunOnFileWith(inputFile: Path, settings: Option<Settings>, abs: Path -> string)
    returns (r: Result<seq<Token>, ArgumentError>)
    ensures settings.None? ==> r == Failure(ArgumentNull("settings"))
    ensures settings.Some? ==>
              r == Success([Quoted(abs(inputFile))] + OptionTokens(settings.value, abs))
  {
    r := Run(Some([inputFile]), settings, abs);
    assert InputTokens([inputFile], abs) == [Quoted(abs(inputFile))];
  }
}
