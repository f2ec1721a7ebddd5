/** The `EazfuscatorNetSettings` record: every field is independently
    optional, and a freshly constructed record has every flag false and
    every reference field null. */
module Settings {
  import opened Wrappers

  /** A Cake `FilePath` or `DirectoryPath`, kept as the text the caller gave.
      Making it absolute is the caller-supplied `abs` function. */
  datatype Path = Path(raw: string)

  /** Eight switches, five file paths, seven strings and one ordered list of
      probing directories. `None` is a null reference. */
  datatype Settings = Settings(
    noLogo: bool,
    outputFile: Option<Path>,
    keyFile: Option<Path>,
    keyContainer: Option<string>,
    quiet: bool,
    decodeStackTraceWithPassword: Option<string>,
    errorSandbox: Option<string>,
    ensureObfuscated: bool,
    msBuildProjectPath: Option<Path>,
    msBuildProjectConfiguration: Option<string>,
    msBuildProjectPlatform: Option<string>,
    msBuildSolutionPath: Option<Path>,
    protectProject: bool,
    unprotectProject: bool,
    compatibilityVersion: Option<string>,
    checkVersion: bool,
    probingPaths: Option<seq<Path>>,
    warningsAsErrors: Option<string>,
    configurationFile: Option<Path>,
    statistics: bool,
    newlineFlush: bool
  )

  /** `new EazfuscatorNetSettings()`: C# defaults, false and null. */
  const Default: Settings := Settings(
    false, None, None, None, false, None, None, false, None, None, None,
    None, false, false, None, false, None, None, None, false, false)

  /** The defaults field by field: every switch false, every path, string
      and the probing-path list null. */
  lemma DefaultIsFalseAndNull()
    ensures var d := Default;
            && !d.noLogo && !d.quiet && !d.ensureObfuscated && !d.protectProject
            && !d.unprotectProject && !d.checkVersion && !d.statistics && !d.newlineFlush
            && d.outputFile.None? && d.keyFile.None? && d.msBuildProjectPath.None?
            && d.msBuildSolutionPath.None? && d.configurationFile.None?
            && d.keyContainer.None? && d.decodeStackTraceWithPassword.None?
            && d.errorSandbox.None? && d.msBuildProjectConfiguration.None?
            && d.msBuildProjectPlatform.None? && d.compatibilityVersion.None?
            && d.warningsAsErrors.None?
            && d.probingPaths.None?
  {
  }
}
