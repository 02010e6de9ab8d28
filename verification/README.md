# NUnit engine runner selection, modelled in Dafny

This project models the runner-selection decision of the NUnit console engine:
the `DefaultTestRunnerFactory` service, which decides which runner a test package gets.
The choices are an aggregating runner, a runner that fans the package out over several
test processes, one separate test process, or whatever the in-process base factory builds.
The factory also answers whether an existing runner can be reused for a package, and as an
engine service it reaches the status Started or Error when it starts.

The engine is compiled for three builds. The `#if` split is modelled as an explicit
`BuildTarget` value (`NetFramework`, `NetStandard20`, `NetStandard16`) passed to every decision:

- `process_model.dfy`, module `ProcessModels`: the `ProcessModel` enum
  (`Default`, `InProcess`, `Separate`, `Multiple`) and the parse of a setting string.
  The parse is modelled as a search of the enum's name table. It is exact and case-sensitive.
  A name that matches no member is an error carrying that string.
- `runner_factory.dfy`, module `RunnerFactory`: the test package, modelled as a settings map
  plus a "has multiple assemblies" flag. It also holds the runner kinds, the in-process base
  factory, `GetTargetProcessModel`, `MakeTestRunner`, `CanReuse`, and the factory class with
  its `StartService` method.
- `runner_factory_properties.dfy`, module `RunnerFactoryProperties`: lemmas about the decision
  table, the error path, the differences between builds, and where reuse and construction
  disagree.

The in-process base factory (`InProcessTestRunnerFactory`) is not part of this model.
It is represented by `InProcessFactory`, a pair of arbitrary functions (`make`, `canReuse`)
that the caller supplies, so no property depends on how it behaves. Where a property needs
the base factory to build only in-process runners, the lemma says so with `OnlyInProcess`.
The project-service lookup in `StartService` is an input of type `Option<ServiceStatus>`:
`None` means no service is registered, and `Some(s)` means a service reporting status `s`.

Where the code and the design description of the engine differ, the model follows the code:

- On both .NET Standard builds `CanReuse` is not overridden. Its override and
  `GetTargetProcessModel` sit inside the `#else` branch that ends at line 128, so the model
  returns the base factory's answer there.
- The design description says a package's process-model setting is consumed (removed) by
  `MakeTestRunner`, and the method's doc comment says the same. No code in this file removes
  anything: `GetTargetProcessModel` only reads the setting. The package is a value in the
  model, so `MakeTestRunner` and `CanReuse` leave its settings unchanged.
- The design description expects a runner built for a multi-assembly package with no setting
  not to be reusable for a one-assembly package with no setting. The code accepts any
  `MultipleTestProcessRunner` under `Default`, whatever the assembly count, so the model says
  it is reusable (`ReuseScenario`).

## Model

| member | source | states |
|---|---|---|
| ProcessModels.FindByName | src/NUnitEngine/nunit.engine/Services/DefaultTestRunnerFactory.cs:121-123 | the name-table search finds a member of the table carrying the requested name, and finds none exactly when no member of the table carries it |
| ProcessModels.Parse | src/NUnitEngine/nunit.engine/Services/DefaultTestRunnerFactory.cs:121-123 | a successful parse yields the member whose name is the string; a failure carries the rejected string and happens only when no member has that name |
| ProcessModels.ParseName | src/NUnitEngine/nunit.engine/Services/DefaultTestRunnerFactory.cs:121-123 | round trip: parsing a member's own name gives back that member |
| ProcessModels.ParseSucceedsExactlyOnNames | src/NUnitEngine/nunit.engine/Services/DefaultTestRunnerFactory.cs:121-123 | parsing `s` yields `m` if and only if `s` is the name of `m` |
| RunnerFactory.GetTargetProcessModel | src/NUnitEngine/nunit.engine/Services/DefaultTestRunnerFactory.cs:119-124 | a missing setting gives Default; a present setting gives the model of that name; the result is an error exactly when the setting is present and names no model, and the error carries the setting's value |
| RunnerFactory.MakeTestRunner | src/NUnitEngine/nunit.engine/Services/DefaultTestRunnerFactory.cs:68-98 | never fails on .NET Standard, where several assemblies give an AggregatingTestRunner; fails exactly when the full framework meets an unknown process model; anything other than the base result is a process runner on the full framework and an aggregating runner on .NET Standard |
| RunnerFactory.CanReuse | src/NUnitEngine/nunit.engine/Services/DefaultTestRunnerFactory.cs:101-115 | on .NET Standard it is the base factory's answer; it fails exactly when MakeTestRunner fails for the same package; it accepts a runner the base refuses only if that runner is a process runner |
| RunnerFactory.StartStatus | src/NUnitEngine/nunit.engine/Services/DefaultTestRunnerFactory.cs:43-56 | the started status is Started if and only if the build is .NET Standard 1.6 or the project service is present and Started; otherwise it is Error, never Stopped |
| RunnerFactory.DefaultTestRunnerFactory.constructor | src/NUnitEngine/nunit.engine/Services/DefaultTestRunnerFactory.cs:35-39 | a new factory keeps its build and base factory, has no project service, and is Stopped |
| RunnerFactory.DefaultTestRunnerFactory.StartService | src/NUnitEngine/nunit.engine/Services/DefaultTestRunnerFactory.cs:43-56 | the new status is StartStatus of the build and the lookup; the lookup is stored except on .NET Standard 1.6, which never consults it |
| RunnerFactoryProperties.MissingSettingIsDefault | src/NUnitEngine/nunit.engine/Services/DefaultTestRunnerFactory.cs:119-124 | a package without the setting is built and reuse-checked exactly like one whose setting is "Default" |
| RunnerFactoryProperties.UnknownSettingFails | src/NUnitEngine/nunit.engine/Services/DefaultTestRunnerFactory.cs:119-124 | on the full framework a setting naming no model makes lookup, construction and the reuse check all fail with that value, with no fallback to Default |
| RunnerFactoryProperties.BogusSettingIsRejected | src/NUnitEngine/nunit.engine/Services/DefaultTestRunnerFactory.cs:121-123 | "Bogus" and lower-case "default" are configuration errors |
| RunnerFactoryProperties.DefaultModelFollowsAssemblyCount | src/NUnitEngine/nunit.engine/Services/DefaultTestRunnerFactory.cs:82-87 | under Default, the result is MultipleTestProcessRunner if and only if the package has several assemblies, and ProcessRunner if and only if it has one |
| RunnerFactoryProperties.ExplicitModelsIgnoreAssemblyCount | src/NUnitEngine/nunit.engine/Services/DefaultTestRunnerFactory.cs:89-96 | "Multiple" always gives MultipleTestProcessRunner, "Separate" always ProcessRunner, "InProcess" always the base result |
| RunnerFactoryProperties.NetStandardChoosesAggregatingOrBase | src/NUnitEngine/nunit.engine/Services/DefaultTestRunnerFactory.cs:70-75 | on either .NET Standard build construction never fails; it gives AggregatingTestRunner for several assemblies and the base result otherwise |
| RunnerFactoryProperties.NetStandardNeverStartsProcesses | src/NUnitEngine/nunit.engine/Services/DefaultTestRunnerFactory.cs:70-75 | with an in-process base factory, no .NET Standard build returns ProcessRunner or MultipleTestProcessRunner |
| RunnerFactoryProperties.NetStandardIgnoresSettings | src/NUnitEngine/nunit.engine/Services/DefaultTestRunnerFactory.cs:70-75 | on .NET Standard the settings are never read: packages with equal assembly counts and equal base results get the same runner |
| RunnerFactoryProperties.NetStandardBuildsDifferOnlyInStartService | src/NUnitEngine/nunit.engine/Services/DefaultTestRunnerFactory.cs:45-55 | the two .NET Standard builds build and reuse runners identically, but with no project service only 1.6 starts and 2.0 reaches Error |
| RunnerFactoryProperties.CanReuseTable | src/NUnitEngine/nunit.engine/Services/DefaultTestRunnerFactory.cs:101-115 | full framework: Default and Multiple accept exactly MultipleTestProcessRunner, Separate exactly ProcessRunner, InProcess defers to the base |
| RunnerFactoryProperties.ReuseIgnoresAssemblyCount | src/NUnitEngine/nunit.engine/Services/DefaultTestRunnerFactory.cs:105-111 | outside InProcess the reuse answer does not depend on the assembly count |
| RunnerFactoryProperties.ReuseAfterMake | src/NUnitEngine/nunit.engine/Services/DefaultTestRunnerFactory.cs:83-115 | a freshly built runner is reusable for its package under Multiple, Separate and multi-assembly Default, is not under single-assembly Default, and under InProcess the base decides |
| RunnerFactoryProperties.ReuseMatchesConstruction | src/NUnitEngine/nunit.engine/Services/DefaultTestRunnerFactory.cs:83-111 | outside InProcess, reuse accepts exactly the kind construction would build, if and only if the package is not single-assembly Default |
| RunnerFactoryProperties.DefaultSingleAssemblyNotReusable | src/NUnitEngine/nunit.engine/Services/DefaultTestRunnerFactory.cs:83-109 | a one-assembly package with no setting gets a ProcessRunner that the reuse check then refuses for it |
| RunnerFactoryProperties.ReuseScenario | src/NUnitEngine/nunit.engine/Services/DefaultTestRunnerFactory.cs:83-109 | a multi-assembly package with no setting gets a MultipleTestProcessRunner, reusable for unset packages of two assemblies or of one |

## Left out

- Runner construction and execution: the model returns the kind of runner only.
  `AggregatingTestRunner`, `MultipleTestProcessRunner` and `ProcessRunner` are not part of this
  model, and neither are the service context and package passed to them, loading, or running.
- The in-process base factory (`InProcessTestRunnerFactory.MakeTestRunner` and `CanReuse`) is not
  part of this model. It is an arbitrary pair of functions supplied by the caller.
- The service registry (`ServiceContext.GetService<IProjectService>()`) is not part of this model.
  Its answer is an input of type `Option<ServiceStatus>`.
- `HasMultipleAssemblies()` is not part of this model. It is a boolean field of the package, and
  sub-packages are not modelled.
- `GetSetting`'s typed lookup is not modelled. Settings are strings, so a non-string value stored
  under the setting name, which would fail a cast in the engine, cannot occur.
- Setting removal: nothing in the modelled code removes the process-model setting, so the model
  has no consumption step.
- `Enum.Parse` leniencies are not modelled: surrounding whitespace, numeric strings and
  comma-separated flag lists. A numeric string naming no member would reach the `default:`
  branch at line 82 and behave like Default; the model treats it as an error instead.
- The service status before `StartService` comes from the service base class, which is not
  part of this model. The constructor starts at Stopped.
- Exceptions thrown by a runner's constructor are not modelled. Construction is a pure choice
  of kind.
