/**
 * The collaborators of the Core Data model build rule, seen only through
 * the values the rule reads from them. Their own behaviour (path layout
 * under buck-out, resolution of source paths, tool discovery, running a
 * step) is not modelled: each is an opaque value or a total function.
 */
module Collaborators {

  /** A filesystem path, as the string `Path.toString()` yields. */
  type Path = string

  datatype Option<+T> = None | Some(value: T)

  /** A build target; its fully qualified name may carry flavors after `#`. */
  datatype BuildTarget = BuildTarget(fullyQualifiedName: string)

  /** A reference to a source file; opaque to the rule. */
  datatype SourcePath = SourcePath(ref: string)

  /**
   * A tool descriptor (here: `momc`). It is compared by value, which is
   * what the rule key sees of it.
   */
  datatype Tool = Tool(name: string, environment: map<string, string>)

  /**
   * The project filesystem: its root, `resolve` (relative path to absolute
   * path) and the generated-files path that `BuildTargets.getGenPath` gives
   * a target with the format "%s".
   */
  datatype ProjectFilesystem = ProjectFilesystem(
    rootPath: Path,
    resolve: Path -> Path,
    genPath: BuildTarget -> Path)

  /**
   * The source-path resolver: `getAbsolutePath`, and the command prefix a
   * tool yields when asked with this resolver (`Tool.getCommandPrefix`).
   */
  datatype SourcePathResolver = SourcePathResolver(
    absolutePath: SourcePath -> Path,
    commandPrefix: Tool -> seq<string>)

  /** What the rule reads from the Apple C/C++ platform it is built for. */
  datatype AppleCxxPlatform = AppleCxxPlatform(
    sdkName: string,
    sdkPath: Path,
    minVersion: string,
    momc: Tool)

  /**
   * A step descriptor. A `MakeCleanDirectoryStep` deletes and recreates
   * `directory`, taken relative to the project root `projectRoot`; a
   * `ShellStep` runs `command` in `workingDirectory` with the extra
   * `environment`. Neither is executed here.
   */
  datatype Step =
    | MakeCleanDirectoryStep(projectRoot: Path, directory: Path)
    | ShellStep(
        workingDirectory: Path,
        command: seq<string>,
        environment: map<string, string>,
        shortName: string)

  /** The sink a rule tells which of its outputs are to be cached. */
  class BuildableContext {
    var artifacts: seq<Path>

    constructor ()
      ensures artifacts == []
    {
      artifacts := [];
    }

    method RecordArtifact(p: Path)
      modifies this
      ensures artifacts == old(artifacts) + [p]
    {
      artifacts := artifacts + [p];
    }
  }
}
