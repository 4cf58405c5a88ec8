/**
 * The `CoreDataModel` build rule: it compiles Core Data model files with the
 * external `momc` compiler into one output directory.
 *
 * The rule's fields are all fixed at construction, so the rule is a value.
 * `GetBuildSteps` builds its step list one step at a time and records the
 * output directory as an artifact in a `BuildableContext`.
 */
module CoreDataModelRule {
  import opened Collaborators

  /** The rule's state, field for field. */
  datatype CoreDataModel = CoreDataModel(
    filesystem: ProjectFilesystem,
    resolver: SourcePathResolver,
    moduleName: string,
    momc: Tool,
    dataModelPaths: seq<SourcePath>,
    sdkName: string,
    minOSVersion: string,
    sdkRoot: Path,
    outputDir: Path)

  /** `dataModelPaths` is a set in iteration order: no element twice. */
  predicate NoDuplicates(s: seq<SourcePath>)
  {
    forall i, j :: 0 <= i < j < |s| ==> s[i] != s[j]
  }

  /** What construction establishes and every later use relies on. */
  predicate Valid(rule: CoreDataModel)
  {
    NoDuplicates(rule.dataModelPaths) && '#' !in rule.outputDir
  }

  // ---------------------------------------------------------------------
  // Output directory
  // ---------------------------------------------------------------------

  /** `String.replace('#', '-')`: `momc` rejects `#` in paths. */
  function ReplaceHash(s: string): (r: string)
    ensures |r| == |s|
    ensures forall i :: 0 <= i < |s| ==> r[i] == (if s[i] == '#' then '-' else s[i])
    ensures '#' !in r
  {
    if s == [] then [] else [if s[0] == '#' then '-' else s[0]] + ReplaceHash(s[1..])
  }

  /** Sanitising a path a second time changes nothing. */
  lemma {:induction false} ReplaceHashIdempotent(s: string)
    ensures ReplaceHash(ReplaceHash(s)) == ReplaceHash(s)
  {
    if s != [] {
      ReplaceHashIdempotent(s[1..]);
    }
  }

  /** A path without `#` is left exactly as it is. */
  lemma {:induction false} ReplaceHashKeepsHashFree(s: string)
    requires '#' !in s
    ensures ReplaceHash(s) == s
  {
    if s != [] {
      ReplaceHashKeepsHashFree(s[1..]);
    }
  }

  /** The two characters sanitising does not tell apart. */
  predicate HashOrDash(c: char)
  {
    c == '#' || c == '-'
  }

  /**
   * Two generated paths lead to the same output directory exactly when they
   * have the same length and differ only where one has `#` and the other `-`
   * (so a flavored target `a#b` and a target named `a-b` share one).
   */
  lemma ReplaceHashCollidesIff(s: string, t: string)
    ensures ReplaceHash(s) == ReplaceHash(t) <==>
      |s| == |t| && forall i :: 0 <= i < |s| ==> s[i] == t[i] || (HashOrDash(s[i]) && HashOrDash(t[i]))
  {
    if ReplaceHash(s) == ReplaceHash(t) {
      ReplaceHashCollisionPointwise(s, t);
    } else if |s| == |t| {
      if forall i :: 0 <= i < |s| ==> s[i] == t[i] || (HashOrDash(s[i]) && HashOrDash(t[i])) {
        ReplaceHashAgreesPointwise(s, t);
      }
    }
  }

  /** The "only if" half of `ReplaceHashCollidesIff`. */
  lemma ReplaceHashCollisionPointwise(s: string, t: string)
    requires ReplaceHash(s) == ReplaceHash(t)
    ensures |s| == |t|
    ensures forall i :: 0 <= i < |s| ==> s[i] == t[i] || (HashOrDash(s[i]) && HashOrDash(t[i]))
  {
  }

  /** The "if" half of `ReplaceHashCollidesIff`. */
  lemma ReplaceHashAgreesPointwise(s: string, t: string)
    requires |s| == |t|
    requires forall i :: 0 <= i < |s| ==> s[i] == t[i] || (HashOrDash(s[i]) && HashOrDash(t[i]))
    ensures ReplaceHash(s) == ReplaceHash(t)
  {
  }

  // ---------------------------------------------------------------------
  // Construction
  // ---------------------------------------------------------------------

  /**
   * The constructor: captures the module name and the inputs, reads the
   * SDK name, SDK root, minimum OS version and `momc` from the platform,
   * and derives the output directory from the target's generated-files path.
   * The inputs come from an `ImmutableSet`, hence duplicate-free.
   */
  function NewCoreDataModel(
    filesystem: ProjectFilesystem,
    target: BuildTarget,
    resolver: SourcePathResolver,
    platform: AppleCxxPlatform,
    moduleName: string,
    dataModelPaths: seq<SourcePath>): (rule: CoreDataModel)
    requires NoDuplicates(dataModelPaths)
    ensures Valid(rule)
    ensures rule.outputDir == ReplaceHash(filesystem.genPath(target))
    ensures rule.filesystem == filesystem && rule.resolver == resolver
    ensures rule.moduleName == moduleName && rule.dataModelPaths == dataModelPaths
    ensures rule.sdkName == platform.sdkName && rule.sdkRoot == platform.sdkPath
    ensures rule.minOSVersion == platform.minVersion && rule.momc == platform.momc
  {
    CoreDataModel(
      filesystem, resolver, moduleName, platform.momc, dataModelPaths,
      platform.sdkName, platform.minVersion, platform.sdkPath,
      ReplaceHash(filesystem.genPath(target)))
  }

  /** `getPathToOutput`: the output directory, never absent. */
  function PathToOutput(rule: CoreDataModel): (p: Option<Path>)
    requires Valid(rule)
    ensures p == Some(rule.outputDir) && '#' !in p.value
  {
    Some(rule.outputDir)
  }

  /** `getOutputDir`: the same directory `getPathToOutput` gives. */
  function OutputDir(rule: CoreDataModel): (p: Path)
    requires Valid(rule)
    ensures p == rule.outputDir && PathToOutput(rule) == Some(p) && '#' !in p
  {
    rule.outputDir
  }

  // ---------------------------------------------------------------------
  // The momc command line
  // ---------------------------------------------------------------------

  /** What one `momc` invocation is told, argument by argument. */
  datatype MomcInvocation = MomcInvocation(
    sdkRoot: Path,
    sdkName: string,
    minOSVersion: string,
    moduleName: string,
    input: Path,
    output: Path)

  const DeploymentTargetSuffix: string := "-deployment-target"

  /** The flag that carries the minimum OS version, `--<sdk>-deployment-target`. */
  function DeploymentTargetFlag(sdkName: string): string
  {
    "--" + sdkName + DeploymentTargetSuffix
  }

  /** The arguments `momc` receives after its command prefix. */
  function MomcArguments(inv: MomcInvocation): (args: seq<string>)
    ensures |args| == 8
  {
    ["--sdkroot", inv.sdkRoot,
     DeploymentTargetFlag(inv.sdkName), inv.minOSVersion,
     "--module", inv.moduleName,
     inv.input,
     inv.output]
  }

  /** The SDK name inside a deployment-target flag, if `flag` is one. */
  function ParseDeploymentTargetFlag(flag: string): Option<string>
  {
    if |flag| >= 2 + |DeploymentTargetSuffix| && flag[..2] == "--"
       && flag[|flag| - |DeploymentTargetSuffix|..] == DeploymentTargetSuffix
    then Some(flag[2..|flag| - |DeploymentTargetSuffix|])
    else None
  }

  /** Reads a `momc` argument list back into the invocation it describes. */
  function ParseMomcArguments(args: seq<string>): Option<MomcInvocation>
  {
    if |args| == 8 && args[0] == "--sdkroot" && args[4] == "--module"
       && ParseDeploymentTargetFlag(args[2]).Some?
    then Some(MomcInvocation(
      args[1], ParseDeploymentTargetFlag(args[2]).value, args[3], args[5], args[6], args[7]))
    else None
  }

  /**
   * The argument layout is unambiguous: parsing gives back the invocation,
   * and every argument list that parses is the layout of what it parses to.
   */
  lemma MomcArgumentsRoundTrip(inv: MomcInvocation, args: seq<string>)
    ensures ParseMomcArguments(MomcArguments(inv)) == Some(inv)
    ensures ParseMomcArguments(args).Some? ==> MomcArguments(ParseMomcArguments(args).value) == args
  {
    var flag := DeploymentTargetFlag(inv.sdkName);
    assert flag[..2] == "--";
    assert flag[|flag| - |DeploymentTargetSuffix|..] == DeploymentTargetSuffix;
    assert flag[2..|flag| - |DeploymentTargetSuffix|] == inv.sdkName;
    if ParseMomcArguments(args).Some? {
      var f := args[2];
      var name := f[2..|f| - |DeploymentTargetSuffix|];
      assert f == f[..2] + name + f[|f| - |DeploymentTargetSuffix|..];
    }
  }

  /** The invocation the rule makes for one data model. */
  function MomcInvocationFor(rule: CoreDataModel, path: SourcePath): MomcInvocation
  {
    MomcInvocation(
      rule.sdkRoot, rule.sdkName, rule.minOSVersion, rule.moduleName,
      rule.resolver.absolutePath(path),
      rule.filesystem.resolve(rule.outputDir))
  }

  /**
   * The shell step compiling one data model: run in the project root,
   * `momc`'s command prefix then its arguments, `momc`'s environment,
   * short name "momc".
   */
  function MomcStep(rule: CoreDataModel, path: SourcePath): (step: Step)
    ensures step.ShellStep? && step.shortName == "momc"
    ensures step.workingDirectory == rule.filesystem.rootPath
    ensures step.environment == rule.momc.environment
    ensures var prefix := rule.resolver.commandPrefix(rule.momc);
      |step.command| == |prefix| + 8 && step.command[..|prefix|] == prefix
      && ParseMomcArguments(step.command[|prefix|..]) == Some(MomcInvocationFor(rule, path))
  {
    var prefix := rule.resolver.commandPrefix(rule.momc);
    var args := MomcArguments(MomcInvocationFor(rule, path));
    MomcArgumentsRoundTrip(MomcInvocationFor(rule, path), args);
    assert (prefix + args)[..|prefix|] == prefix;
    assert (prefix + args)[|prefix|..] == args;
    ShellStep(rule.filesystem.rootPath, prefix + args, rule.momc.environment, "momc")
  }

  // ---------------------------------------------------------------------
  // The step list
  // ---------------------------------------------------------------------

  /** One `momc` step per path, in the given order. */
  function CompileSteps(rule: CoreDataModel, paths: seq<SourcePath>): seq<Step>
  {
    if paths == [] then [] else [MomcStep(rule, paths[0])] + CompileSteps(rule, paths[1..])
  }

  /** The step list `getBuildSteps` returns. */
  function BuildSteps(rule: CoreDataModel): seq<Step>
  {
    [MakeCleanDirectoryStep(rule.filesystem.rootPath, rule.outputDir)] + CompileSteps(rule, rule.dataModelPaths)
  }

  lemma {:induction false} CompileStepsAt(rule: CoreDataModel, paths: seq<SourcePath>, i: nat)
    requires i < |paths|
    ensures |CompileSteps(rule, paths)| == |paths|
    ensures CompileSteps(rule, paths)[i] == MomcStep(rule, paths[i])
  {
    if i == 0 {
      CompileStepsLength(rule, paths[1..]);
    } else {
      CompileStepsAt(rule, paths[1..], i - 1);
    }
  }

  lemma {:induction false} CompileStepsLength(rule: CoreDataModel, paths: seq<SourcePath>)
    ensures |CompileSteps(rule, paths)| == |paths|
  {
    if paths != [] {
      CompileStepsLength(rule, paths[1..]);
    }
  }

  /** Extending the inputs by one path extends the compile steps by its step. */
  lemma {:induction false} CompileStepsSnoc(rule: CoreDataModel, paths: seq<SourcePath>, p: SourcePath)
    ensures CompileSteps(rule, paths + [p]) == CompileSteps(rule, paths) + [MomcStep(rule, p)]
  {
    if paths == [] {
      assert paths + [p] == [p];
    } else {
      assert (paths + [p])[1..] == paths[1..] + [p];
      CompileStepsSnoc(rule, paths[1..], p);
    }
  }

  /**
   * The shape of the step list: `1 + |dataModelPaths|` steps, first the
   * clean-directory step on the output directory, then the `momc` step of
   * each path in iteration order. Nothing is sorted.
   */
  lemma BuildStepsShape(rule: CoreDataModel)
    ensures |BuildSteps(rule)| == 1 + |rule.dataModelPaths|
    ensures BuildSteps(rule)[0] == MakeCleanDirectoryStep(rule.filesystem.rootPath, rule.outputDir)
    ensures forall i :: 0 <= i < |rule.dataModelPaths| ==>
      BuildSteps(rule)[i + 1] == MomcStep(rule, rule.dataModelPaths[i])
  {
    CompileStepsLength(rule, rule.dataModelPaths);
    forall i | 0 <= i < |rule.dataModelPaths|
      ensures BuildSteps(rule)[i + 1] == MomcStep(rule, rule.dataModelPaths[i])
    {
      CompileStepsAt(rule, rule.dataModelPaths, i);
    }
  }

  /** With no data models the rule only cleans its output directory. */
  lemma NoInputsOnlyCleans(rule: CoreDataModel)
    requires rule.dataModelPaths == []
    ensures BuildSteps(rule) == [MakeCleanDirectoryStep(rule.filesystem.rootPath, rule.outputDir)]
  {
  }

  /**
   * The inputs are not sorted: two rules whose data models differ only in
   * iteration order emit their `momc` steps in different orders whenever
   * the first two resolve to different absolute paths.
   */
  lemma StepOrderFollowsIterationOrder(rule: CoreDataModel)
    requires |rule.dataModelPaths| >= 2
    requires rule.resolver.absolutePath(rule.dataModelPaths[0]) != rule.resolver.absolutePath(rule.dataModelPaths[1])
    ensures var ps := rule.dataModelPaths;
      BuildSteps(rule.(dataModelPaths := [ps[1], ps[0]] + ps[2..])) != BuildSteps(rule)
  {
    var ps := rule.dataModelPaths;
    var swapped := rule.(dataModelPaths := [ps[1], ps[0]] + ps[2..]);
    BuildStepsShape(rule);
    BuildStepsShape(swapped);
    var prefix := rule.resolver.commandPrefix(rule.momc);
    var mine, theirs := MomcStep(rule, ps[0]), MomcStep(swapped, ps[1]);
    assert ParseMomcArguments(mine.command[|prefix|..]).value.input == rule.resolver.absolutePath(ps[0]);
    assert ParseMomcArguments(theirs.command[|prefix|..]).value.input == rule.resolver.absolutePath(ps[1]);
    assert BuildSteps(rule)[1] != BuildSteps(swapped)[1];
  }

  /**
   * The only step that touches the output directory destructively is the
   * first: every later step is a `momc` shell step whose output argument is
   * the resolved output directory.
   */
  lemma OnlyFirstStepCleans(rule: CoreDataModel, k: nat)
    requires 0 < k < |BuildSteps(rule)|
    ensures BuildSteps(rule)[k].ShellStep? && BuildSteps(rule)[k].shortName == "momc"
    ensures BuildSteps(rule)[k].workingDirectory == rule.filesystem.rootPath
    ensures var prefix := rule.resolver.commandPrefix(rule.momc);
      |BuildSteps(rule)[k].command| == |prefix| + 8
      && BuildSteps(rule)[k].command[|prefix| + 7] == rule.filesystem.resolve(rule.outputDir)
  {
    BuildStepsShape(rule);
    var step := MomcStep(rule, rule.dataModelPaths[k - 1]);
    var prefix := rule.resolver.commandPrefix(rule.momc);
    var inv := MomcInvocationFor(rule, rule.dataModelPaths[k - 1]);
    MomcArgumentsRoundTrip(inv, step.command[|prefix|..]);
    assert step.command[|prefix| + 7] == step.command[|prefix|..][7];
  }

  /**
   * The directory the getters return is the one the step list works on:
   * the first step cleans it and every `momc` step writes to it, resolved
   * against the project root. All steps work from that one project root.
   */
  lemma GettersNameStepsDirectory(rule: CoreDataModel)
    requires Valid(rule)
    ensures PathToOutput(rule) == Some(OutputDir(rule))
    ensures BuildSteps(rule)[0] == MakeCleanDirectoryStep(rule.filesystem.rootPath, OutputDir(rule))
    ensures forall k :: 0 < k < |BuildSteps(rule)| ==>
      BuildSteps(rule)[k].ShellStep? && |BuildSteps(rule)[k].command| > 0
      && BuildSteps(rule)[k].workingDirectory == rule.filesystem.rootPath
      && BuildSteps(rule)[k].command[|BuildSteps(rule)[k].command| - 1] == rule.filesystem.resolve(OutputDir(rule))
  {
    forall k | 0 < k < |BuildSteps(rule)|
      ensures BuildSteps(rule)[k].ShellStep? && |BuildSteps(rule)[k].command| > 0
        && BuildSteps(rule)[k].workingDirectory == rule.filesystem.rootPath
        && BuildSteps(rule)[k].command[|BuildSteps(rule)[k].command| - 1] == rule.filesystem.resolve(OutputDir(rule))
    {
      OnlyFirstStepCleans(rule, k);
    }
  }

  /**
   * `getBuildSteps`: appends the clean-directory step, then one `momc` step
   * per data model in iteration order, records the output directory as the
   * rule's one artifact before any step has run, and returns the list.
   */
  method GetBuildSteps(rule: CoreDataModel, buildableContext: BuildableContext)
    returns (steps: seq<Step>)
    requires Valid(rule)
    modifies buildableContext
    ensures steps == BuildSteps(rule)
    ensures buildableContext.artifacts == old(buildableContext.artifacts) + [OutputDir(rule)]
  {
    steps := [MakeCleanDirectoryStep(rule.filesystem.rootPath, rule.outputDir)];
    var paths := rule.dataModelPaths;
    for i := 0 to |paths|
      invariant steps == [MakeCleanDirectoryStep(rule.filesystem.rootPath, rule.outputDir)] + CompileSteps(rule, paths[..i])
      invariant buildableContext.artifacts == old(buildableContext.artifacts)
    {
      CompileStepsSnoc(rule, paths[..i], paths[i]);
      assert paths[..i + 1] == paths[..i] + [paths[i]];
      steps := steps + [MomcStep(rule, paths[i])];
    }
    assert paths[..|paths|] == paths;
    buildableContext.RecordArtifact(OutputDir(rule));
  }

  // ---------------------------------------------------------------------
  // Rule key
  // ---------------------------------------------------------------------

  /** The fields annotated `@AddToRuleKey`, in declaration order. */
  datatype RuleKeyFields = RuleKeyFields(
    moduleName: string,
    momc: Tool,
    dataModelPaths: seq<SourcePath>,
    sdkName: string,
    minOSVersion: string)

  function RuleKeyContribution(rule: CoreDataModel): RuleKeyFields
  {
    RuleKeyFields(rule.moduleName, rule.momc, rule.dataModelPaths, rule.sdkName, rule.minOSVersion)
  }

  /** Two rules contribute the same fields exactly when these five agree. */
  lemma RuleKeyExactlyFiveFields(a: CoreDataModel, b: CoreDataModel)
    ensures RuleKeyContribution(a) == RuleKeyContribution(b) <==>
      a.moduleName == b.moduleName && a.momc == b.momc && a.dataModelPaths == b.dataModelPaths
      && a.sdkName == b.sdkName && a.minOSVersion == b.minOSVersion
  {
  }

  /** Neither the SDK root nor the output directory feeds the rule key. */
  lemma RuleKeyIgnoresSdkRootAndOutputDir(rule: CoreDataModel, otherRoot: Path, otherDir: Path)
    ensures RuleKeyContribution(rule.(sdkRoot := otherRoot)) == RuleKeyContribution(rule)
    ensures RuleKeyContribution(rule.(outputDir := otherDir)) == RuleKeyContribution(rule)
  {
  }

  /**
   * The SDK root is left out of the rule key although it is on every
   * `momc` command line: a rule with at least one data model and a
   * different SDK root has the same key and different steps.
   */
  lemma SdkRootChangesStepsNotKey(rule: CoreDataModel, otherRoot: Path)
    requires |rule.dataModelPaths| > 0 && otherRoot != rule.sdkRoot
    ensures RuleKeyContribution(rule.(sdkRoot := otherRoot)) == RuleKeyContribution(rule)
    ensures BuildSteps(rule.(sdkRoot := otherRoot)) != BuildSteps(rule)
  {
    var other := rule.(sdkRoot := otherRoot);
    var p := rule.dataModelPaths[0];
    BuildStepsShape(rule);
    BuildStepsShape(other);
    var prefix := rule.resolver.commandPrefix(rule.momc);
    var mine, theirs := MomcStep(rule, p), MomcStep(other, p);
    assert ParseMomcArguments(mine.command[|prefix|..]).value.sdkRoot == rule.sdkRoot;
    assert ParseMomcArguments(theirs.command[|prefix|..]).value.sdkRoot == otherRoot;
    assert BuildSteps(rule)[1] != BuildSteps(other)[1];
  }
}
