/** The engine's runner-selection decision: which kind of test runner a package gets,
    whether an existing runner can be reused for a package, and the factory's own
    service start-up. The build the engine was compiled for is an explicit value. */
module RunnerFactory {
  import opened ProcessModels

  /** The builds the factory is compiled for. The two .NET Standard builds cannot
      start external processes; only .NET Standard 1.6 has no project service. */
  datatype BuildTarget = NetFramework | NetStandard20 | NetStandard16

  /** The status an engine service reports. */
  datatype ServiceStatus = Stopped | Started | Error

  /** The kind of runner a factory returns. `OtherRunner` is a runner of a type this
      factory never constructs itself: whatever the in-process base factory builds. */
  datatype RunnerKind =
    | AggregatingTestRunner
    | MultipleTestProcessRunner
    | ProcessRunner
    | OtherRunner(typeName: string)

  /** A test package: its settings and whether it refers to more than one assembly. */
  datatype TestPackage = TestPackage(settings: map<string, string>, hasMultipleAssemblies: bool)

  /** The in-process base factory, whose code is not part of this model: its two
      decisions are arbitrary functions supplied by the caller. */
  datatype InProcessFactory = InProcessFactory(
    make: TestPackage -> RunnerKind,
    canReuse: (RunnerKind, TestPackage) -> bool)

  /** The name of the package setting that holds the process model. */
  const ProcessModelSetting: string := "ProcessModel"

  /** The runner kinds that run tests in an external process. */
  predicate IsProcessKind(k: RunnerKind)
  {
    k == ProcessRunner || k == MultipleTestProcessRunner
  }

  /** A base factory that only ever builds in-process runners. */
  ghost predicate OnlyInProcess(base: InProcessFactory)
  {
    forall p :: !IsProcessKind(base.make(p))
  }

  /** A package setting, or `default` when the package does not have it. */
  function GetSetting(p: TestPackage, name: string, default: string): string
  {
    if name in p.settings then p.settings[name] else default
  }

  /** The package's process model: "Default" when the setting is missing, otherwise the
      parsed setting, and an error (not a fallback) when the setting names no model. */
  function GetTargetProcessModel(p: TestPackage): (r: Result<ProcessModel>)
    ensures ProcessModelSetting !in p.settings ==> r == Ok(Default)
    ensures ProcessModelSetting in p.settings && r.Ok? ==> Name(r.value) == p.settings[ProcessModelSetting]
    ensures r.Err? <==>
      ProcessModelSetting in p.settings && forall m :: Name(m) != p.settings[ProcessModelSetting]
    ensures r.Err? ==> r.error == UnknownProcessModel(p.settings[ProcessModelSetting])
  {
    ParseName(Default);
    Parse(GetSetting(p, ProcessModelSetting, "Default"))
  }

  /** The runner the factory builds for a package. On the .NET Standard builds the
      process model is never read: a package with several assemblies gets an aggregating
      runner and any other package whatever the base factory builds. On the full
      framework the process model decides, and an unknown one is an error. */
  function MakeTestRunner(target: BuildTarget, base: InProcessFactory, p: TestPackage): (r: Result<RunnerKind>)
    ensures target != NetFramework ==> r.Ok?
    ensures target != NetFramework && p.hasMultipleAssemblies ==> r == Ok(AggregatingTestRunner)
    ensures r.Err? <==> target == NetFramework && GetTargetProcessModel(p).Err?
    ensures r.Err? ==> r.error == UnknownProcessModel(p.settings[ProcessModelSetting])
    ensures r.Ok? && r.value != base.make(p) ==>
      if target == NetFramework then IsProcessKind(r.value) else r.value == AggregatingTestRunner
  {
    if target != NetFramework then
      if p.hasMultipleAssemblies then Ok(AggregatingTestRunner)
      else Ok(base.make(p))
    else
      match GetTargetProcessModel(p)
      case Err(e) => Err(e)
      case Ok(Default) =>
        if p.hasMultipleAssemblies then Ok(MultipleTestProcessRunner) else Ok(ProcessRunner)
      case Ok(Multiple) => Ok(MultipleTestProcessRunner)
      case Ok(Separate) => Ok(ProcessRunner)
      case Ok(InProcess) => Ok(base.make(p))
  }

  /** Whether `runner` may be reused for package `p`. The full-framework build answers
      from the process model alone; the .NET Standard builds do not override the base
      factory's answer. It fails exactly where MakeTestRunner fails. */
  function CanReuse(target: BuildTarget, base: InProcessFactory, runner: RunnerKind, p: TestPackage): (r: Result<bool>)
    ensures target != NetFramework ==> r == Ok(base.canReuse(runner, p))
    ensures r.Err? <==> MakeTestRunner(target, base, p).Err?
    ensures r.Err? ==> r == Err(UnknownProcessModel(p.settings[ProcessModelSetting]))
    ensures r == Ok(true) && !base.canReuse(runner, p) ==> IsProcessKind(runner)
  {
    if target != NetFramework then
      Ok(base.canReuse(runner, p))
    else
      match GetTargetProcessModel(p)
      case Err(e) => Err(e)
      case Ok(Default) => Ok(runner == MultipleTestProcessRunner)
      case Ok(Multiple) => Ok(runner == MultipleTestProcessRunner)
      case Ok(Separate) => Ok(runner == ProcessRunner)
      case Ok(InProcess) => Ok(base.canReuse(runner, p))
  }

  /** The status StartService reaches, given what the project-service lookup returned
      (None when no project service is registered, otherwise that service's status). */
  function StartStatus(target: BuildTarget, projectService: Option<ServiceStatus>): (s: ServiceStatus)
    ensures s != Stopped
    ensures s == Started <==> target == NetStandard16 || projectService == Some(Started)
  {
    if target == NetStandard16 then Started
    else if projectService.Some? && projectService.value == Started then Started
    else Error
  }

  /** The factory as a service: the build it was compiled for, its base factory, the
      project service it looked up and its own status. */
  class DefaultTestRunnerFactory {
    const target: BuildTarget
    const base: InProcessFactory
    var projectService: Option<ServiceStatus>
    var status: ServiceStatus

    constructor (target: BuildTarget, base: InProcessFactory)
      ensures this.target == target && this.base == base
      ensures projectService == None && status == Stopped
    {
      this.target := target;
      this.base := base;
      projectService := None;
      status := Stopped;
    }

    /** Looks up the project service (not on .NET Standard 1.6, which has none) and
        records whether the factory could start. */
    method StartService(lookup: Option<ServiceStatus>)
      modifies this
      ensures status == StartStatus(target, lookup)
      ensures projectService == if target == NetStandard16 then old(projectService) else lookup
    {
      if target != NetStandard16 {
        projectService := lookup;
        status := if projectService.Some? && projectService.value == Started then Started else Error;
      } else {
        status := Started;
      }
    }
  }
}
