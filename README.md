# Core Data model build rule

A Dafny model of Buck's `CoreDataModel` build rule. The rule compiles the
Core Data model files of an Apple target with Xcode's `momc` compiler into
one output directory. The model covers these parts of the rule:

- The output directory. It is the target's generated-files path with every
  `#` turned into `-`, because `momc` rejects `#` in paths.
- The step list. First a clean-directory step on the output directory, then
  one `momc` shell step per data model, in the iteration order of the input
  set.
- The `momc` command line and environment. The model also has a parser for
  the argument list, proved to be its exact inverse.
- The artifact. The output directory is recorded exactly once per call to
  `getBuildSteps`.
- The rule key. These fields feed it: module name, `momc`, inputs, SDK name
  and minimum OS version.

`collaborators.dfy` holds the classes the rule only calls:

- `ProjectFilesystem`, `SourcePathResolver`, `Tool` and `AppleCxxPlatform`
  are values. Their behaviour is carried by total functions that the model
  leaves uninterpreted.
- The steps are plain descriptors.
- `BuildableContext` is a class whose list of recorded artifacts grows.

`core_data_model.dfy` holds the rule. All fields of the rule are final, so it
is a datatype. `GetBuildSteps` is a method: it builds the list step by step
in a loop and records the artifact in the context. It is proved equal to the
function `BuildSteps`, and the lemmas about the list's shape are stated
about that function.

Three points about the code's behaviour:

- The inputs are not sorted. They are taken in the iteration order of the
  `ImmutableSet`, which is insertion order. `StepOrderFollowsIterationOrder`
  shows this: swapping the first two inputs changes the step list whenever
  they resolve to different absolute paths.
- The artifact is recorded inside `getBuildSteps`, before any step has run.
  It is not recorded after the steps succeed.
- Nothing rejects an empty input path or an unsafe module name.

Sanitising with `#`→`-` is not injective. `ReplaceHashCollidesIff` states
exactly when two generated paths share an output directory, for example a
flavored target `lib#x` and a target named `lib-x` in the same package.

The SDK root appears on every `momc` command line but is not part of the
rule key. `SdkRootChangesStepsNotKey` proves this. The model keeps this
behaviour as the code has it.

## Model

| member | source | states |
|---|---|---|
| `CoreDataModelRule.ReplaceHash` | src/com/facebook/buck/apple/CoreDataModel.java:74-77 | same length; each `#` becomes `-` and every other character is kept; the result has no `#` |
| `CoreDataModelRule.ReplaceHashIdempotent` | src/com/facebook/buck/apple/CoreDataModel.java:75-77 | sanitising twice is the same as sanitising once |
| `CoreDataModelRule.ReplaceHashKeepsHashFree` | src/com/facebook/buck/apple/CoreDataModel.java:75-77 | a path without `#` is left unchanged |
| `CoreDataModelRule.ReplaceHashCollidesIff` | src/com/facebook/buck/apple/CoreDataModel.java:74-78 | two generated paths give the same output directory if and only if they have equal length and differ only at positions holding `#` or `-` |
| `CoreDataModelRule.NewCoreDataModel` | src/com/facebook/buck/apple/CoreDataModel.java:65-83 | the constructed rule is valid: duplicate-free inputs and an output directory without `#`; the output directory is the generated path sanitised by `ReplaceHash` (each `#` becomes `-`, every other character kept); the rule keeps the project filesystem and source-path resolver it was given, which every step then uses; the module name and inputs are captured from the arguments, and the SDK name, SDK root, minimum OS version and `momc` from the platform |
| `CoreDataModelRule.PathToOutput` | src/com/facebook/buck/apple/CoreDataModel.java:123-127 | returns the rule's output directory, always present and free of `#` |
| `CoreDataModelRule.OutputDir` | src/com/facebook/buck/apple/CoreDataModel.java:129-131 | returns the rule's output directory, the same one `getPathToOutput` gives, with no `#` |
| `CoreDataModelRule.MomcArguments` | src/com/facebook/buck/apple/CoreDataModel.java:98-103 | `momc` gets exactly eight arguments after its prefix |
| `CoreDataModelRule.MomcArgumentsRoundTrip` | src/com/facebook/buck/apple/CoreDataModel.java:98-103 | parsing the argument layout gives back the SDK root, SDK name, minimum OS version, module, input and output; every argument list that parses is the layout of its result |
| `CoreDataModelRule.MomcStep` | src/com/facebook/buck/apple/CoreDataModel.java:91-117 | a shell step in the project root, short name `momc`, the tool's environment, a command of `momc`'s prefix followed by eight arguments; those arguments parse to this rule's SDK root, SDK name, minimum OS version, module, the input's absolute path and the resolved output directory |
| `CoreDataModelRule.CompileStepsLength` | src/com/facebook/buck/apple/CoreDataModel.java:90-118 | `CompileSteps`, the steps the loop emits, has exactly one step per input |
| `CoreDataModelRule.CompileStepsAt` | src/com/facebook/buck/apple/CoreDataModel.java:90-118 | the i-th step of `CompileSteps` is the `momc` step of the i-th input |
| `CoreDataModelRule.CompileStepsSnoc` | src/com/facebook/buck/apple/CoreDataModel.java:90-91 | one more loop iteration appends the next input's step to `CompileSteps` and leaves the earlier steps as they were |
| `CoreDataModelRule.BuildStepsShape` | src/com/facebook/buck/apple/CoreDataModel.java:88-120 | `BuildSteps`, the list `getBuildSteps` returns, has `1 + |inputs|` steps; step 0 cleans the output directory under the project root; step i+1 is the `momc` step of the i-th input in iteration order |
| `CoreDataModelRule.NoInputsOnlyCleans` | src/com/facebook/buck/apple/CoreDataModel.java:88-120 | with no inputs, the only step is the clean-directory step |
| `CoreDataModelRule.StepOrderFollowsIterationOrder` | src/com/facebook/buck/apple/CoreDataModel.java:90 | inputs are not sorted: swapping the first two inputs, when their absolute paths differ, changes the step list |
| `CoreDataModelRule.OnlyFirstStepCleans` | src/com/facebook/buck/apple/CoreDataModel.java:89-103 | every step after the first is a `momc` shell step run in the project root, whose last argument is the resolved output directory |
| `CoreDataModelRule.GettersNameStepsDirectory` | src/com/facebook/buck/apple/CoreDataModel.java:89-131 | the directory both getters return is the one step 0 cleans under the project root; every `momc` step runs in that same root, and its last argument is that directory resolved |
| `CoreDataModelRule.GetBuildSteps` | src/com/facebook/buck/apple/CoreDataModel.java:85-121 | the list built in the loop equals `BuildSteps`; exactly one artifact, `getOutputDir()`, is appended to the context, whatever the number of inputs |
| `Collaborators.BuildableContext.RecordArtifact` | src/com/facebook/buck/apple/CoreDataModel.java:119 | recording appends the path to the context's artifacts |
| `CoreDataModelRule.RuleKeyExactlyFiveFields` | src/com/facebook/buck/apple/CoreDataModel.java:47-60 | `RuleKeyContribution`, the `@AddToRuleKey` field set: two rules contribute the same fields if and only if they agree on module name, `momc`, inputs, SDK name and minimum OS version |
| `CoreDataModelRule.RuleKeyIgnoresSdkRootAndOutputDir` | src/com/facebook/buck/apple/CoreDataModel.java:47-63 | for every rule, a different SDK root or output directory leaves the rule-key contribution unchanged |
| `CoreDataModelRule.SdkRootChangesStepsNotKey` | src/com/facebook/buck/apple/CoreDataModel.java:47-103 | with at least one input, a different SDK root keeps the rule-key contribution but changes the steps, because the SDK root is on every `momc` command line |

## Left out

- `FLAVOR`, the static flavor constant: it has no behaviour.
- The effects of running the steps are not modelled. `MakeCleanDirectoryStep` deletes and recreates a directory, and `ShellStep` runs a process. Both are modelled only as step descriptors.
- `BuildTargets.getGenPath`, `ProjectFilesystem.resolve`, `SourcePathResolver.getAbsolutePath`, `Tool.getCommandPrefix` and `Tool.getEnvironment` are foreign code. They are uninterpreted functions or opaque values here.
- `AppleCxxPlatform` SDK discovery is foreign code. The platform is a plain record of the four values the rule reads from it.
- The rule-key hashing algorithm is not modelled. The model keeps only the record of fields that feed it.
- The `BuildContext` argument of `getBuildSteps` is unused by the rule and is not modelled.
- `MomcStep` computes the command line when the step is built. The source computes it lazily, when the step runs. The collaborators are modelled as pure functions, so the two give the same command.
- `AbstractBuildRule` (the superclass: build target, dependencies, filesystem and resolver plumbing) is not part of this model. The rule only keeps the filesystem and resolver it reads.
