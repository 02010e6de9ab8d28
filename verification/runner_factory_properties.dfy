/** What the runner-selection decision promises, stated over all packages, all base
    factories and all three builds, plus the concrete scenarios that pin down where
    construction and reuse disagree. */
module RunnerFactoryProperties {
  import opened ProcessModels
  import opened RunnerFactory

  /** A package that carries `value` as its process-model setting. */
  function WithProcessModel(p: TestPackage, value: string): (q: TestPackage)
    ensures q.hasMultipleAssemblies == p.hasMultipleAssemblies
    ensures ProcessModelSetting in q.settings && q.settings[ProcessModelSetting] == value
  {
    p.(settings := p.settings[ProcessModelSetting := value])
  }

  // ----- Process-model lookup -----

  /** A missing setting behaves exactly like the setting "Default", for construction
      and for reuse alike. */
  lemma MissingSettingIsDefault(target: BuildTarget, base: InProcessFactory, p: TestPackage, runner: RunnerKind)
    requires ProcessModelSetting !in p.settings
    requires base.make(p) == base.make(WithProcessModel(p, "Default"))
    requires base.canReuse(runner, p) == base.canReuse(runner, WithProcessModel(p, "Default"))
    ensures GetTargetProcessModel(p) == Ok(Default)
    ensures MakeTestRunner(target, base, p) == MakeTestRunner(target, base, WithProcessModel(p, "Default"))
    ensures CanReuse(target, base, runner, p) == CanReuse(target, base, runner, WithProcessModel(p, "Default"))
  {
    ParseName(Default);
  }

  /** A setting that names no process model makes both decisions fail on the full
      framework, carrying the rejected string; nothing falls back to Default. */
  lemma UnknownSettingFails(base: InProcessFactory, p: TestPackage, runner: RunnerKind)
    requires ProcessModelSetting in p.settings
    requires forall m :: Name(m) != p.settings[ProcessModelSetting]
    ensures GetTargetProcessModel(p) == Err(UnknownProcessModel(p.settings[ProcessModelSetting]))
    ensures MakeTestRunner(NetFramework, base, p) == Err(UnknownProcessModel(p.settings[ProcessModelSetting]))
    ensures CanReuse(NetFramework, base, runner, p) == Err(UnknownProcessModel(p.settings[ProcessModelSetting]))
  {
  }

  /** "Bogus", and "default" in the wrong case, are configuration errors. */
  lemma BogusSettingIsRejected(base: InProcessFactory, p: TestPackage)
    ensures MakeTestRunner(NetFramework, base, WithProcessModel(p, "Bogus")) == Err(UnknownProcessModel("Bogus"))
    ensures MakeTestRunner(NetFramework, base, WithProcessModel(p, "default")) == Err(UnknownProcessModel("default"))
  {
    forall m ensures Name(m) != "Bogus" && Name(m) != "default" {
      assert Name(m)[0] != 'B' && Name(m)[0] != 'd';
    }
  }

  // ----- Runner choice on the full framework -----

  /** With the Default model (set explicitly or missing), a package with several
      assemblies gets a MultipleTestProcessRunner and any other a ProcessRunner. */
  lemma DefaultModelFollowsAssemblyCount(base: InProcessFactory, p: TestPackage)
    requires ProcessModelSetting !in p.settings || p.settings[ProcessModelSetting] == "Default"
    ensures MakeTestRunner(NetFramework, base, p) == Ok(MultipleTestProcessRunner) <==> p.hasMultipleAssemblies
    ensures MakeTestRunner(NetFramework, base, p) == Ok(ProcessRunner) <==> !p.hasMultipleAssemblies
  {
    ParseName(Default);
  }

  /** The explicit models ignore the assembly count: Multiple always gets a
      MultipleTestProcessRunner, Separate a ProcessRunner, InProcess the base result. */
  lemma ExplicitModelsIgnoreAssemblyCount(base: InProcessFactory, p: TestPackage)
    requires ProcessModelSetting in p.settings
    ensures p.settings[ProcessModelSetting] == "Multiple" ==>
      MakeTestRunner(NetFramework, base, p) == Ok(MultipleTestProcessRunner)
    ensures p.settings[ProcessModelSetting] == "Separate" ==>
      MakeTestRunner(NetFramework, base, p) == Ok(ProcessRunner)
    ensures p.settings[ProcessModelSetting] == "InProcess" ==>
      MakeTestRunner(NetFramework, base, p) == Ok(base.make(p))
  {
    ParseName(Multiple);
    ParseName(Separate);
    ParseName(InProcess);
  }

  // ----- Runner choice on the .NET Standard builds -----

  /** On either .NET Standard build the setting is never parsed: construction cannot
      fail, several assemblies get an AggregatingTestRunner and one gets the base result. */
  lemma NetStandardChoosesAggregatingOrBase(target: BuildTarget, base: InProcessFactory, p: TestPackage)
    requires target != NetFramework
    ensures MakeTestRunner(target, base, p).Ok?
    ensures MakeTestRunner(target, base, p).value ==
      if p.hasMultipleAssemblies then AggregatingTestRunner else base.make(p)
  {
  }

  /** With an in-process base factory, the .NET Standard builds never build a runner that
      starts an external process, whatever the package asks for. */
  lemma NetStandardNeverStartsProcesses(target: BuildTarget, base: InProcessFactory, p: TestPackage)
    requires target != NetFramework
    requires OnlyInProcess(base)
    ensures !IsProcessKind(MakeTestRunner(target, base, p).value)
  {
  }

  /** On the .NET Standard builds the settings play no part: two packages with the same
      assembly count, for which the base factory agrees, get the same runner. */
  lemma NetStandardIgnoresSettings(target: BuildTarget, base: InProcessFactory, p: TestPackage, q: TestPackage)
    requires target != NetFramework
    requires p.hasMultipleAssemblies == q.hasMultipleAssemblies
    requires base.make(p) == base.make(q)
    ensures MakeTestRunner(target, base, p) == MakeTestRunner(target, base, q)
  {
  }

  /** The two .NET Standard builds choose and reuse runners identically; they differ
      only in StartService, which on .NET Standard 2.0 still needs the project service. */
  lemma NetStandardBuildsDifferOnlyInStartService(base: InProcessFactory, p: TestPackage, runner: RunnerKind)
    ensures MakeTestRunner(NetStandard16, base, p) == MakeTestRunner(NetStandard20, base, p)
    ensures CanReuse(NetStandard16, base, runner, p) == CanReuse(NetStandard20, base, runner, p)
    ensures StartStatus(NetStandard16, None) == Started
    ensures StartStatus(NetStandard20, None) == Error
  {
  }

  // ----- Reuse -----

  /** The full-framework reuse table: Default and Multiple accept exactly a
      MultipleTestProcessRunner, Separate exactly a ProcessRunner, InProcess defers to
      the base factory. */
  lemma CanReuseTable(base: InProcessFactory, runner: RunnerKind, p: TestPackage)
    ensures GetTargetProcessModel(p) == Ok(Default) || GetTargetProcessModel(p) == Ok(Multiple) ==>
      CanReuse(NetFramework, base, runner, p) == Ok(runner == MultipleTestProcessRunner)
    ensures GetTargetProcessModel(p) == Ok(Separate) ==>
      CanReuse(NetFramework, base, runner, p) == Ok(runner == ProcessRunner)
    ensures GetTargetProcessModel(p) == Ok(InProcess) ==>
      CanReuse(NetFramework, base, runner, p) == Ok(base.canReuse(runner, p))
  {
  }

  /** Except under InProcess, whether a runner is reusable does not depend on the
      package's assembly count. */
  lemma ReuseIgnoresAssemblyCount(base: InProcessFactory, runner: RunnerKind, p: TestPackage, multiple: bool)
    requires GetTargetProcessModel(p) != Ok(InProcess)
    ensures CanReuse(NetFramework, base, runner, p) ==
            CanReuse(NetFramework, base, runner, p.(hasMultipleAssemblies := multiple))
  {
    assert GetTargetProcessModel(p) == GetTargetProcessModel(p.(hasMultipleAssemblies := multiple));
  }

  /** A runner just built for a package is reusable for it under Multiple, Separate and
      Default with several assemblies, and not under Default with one assembly, where
      a ProcessRunner is built but only a MultipleTestProcessRunner is accepted. */
  lemma ReuseAfterMake(base: InProcessFactory, p: TestPackage)
    requires MakeTestRunner(NetFramework, base, p).Ok?
    ensures var m := GetTargetProcessModel(p).value;
      var built := MakeTestRunner(NetFramework, base, p).value;
      && (m == Multiple || m == Separate || (m == Default && p.hasMultipleAssemblies) ==>
            CanReuse(NetFramework, base, built, p) == Ok(true))
      && (m == Default && !p.hasMultipleAssemblies ==>
            CanReuse(NetFramework, base, built, p) == Ok(false))
      && (m == InProcess ==>
            CanReuse(NetFramework, base, built, p) == Ok(base.canReuse(base.make(p), p)))
  {
  }

  /** Outside InProcess, the reuse check accepts exactly the runner the factory would
      build for the package, unless the package uses Default with one assembly. */
  lemma ReuseMatchesConstruction(base: InProcessFactory, p: TestPackage)
    requires MakeTestRunner(NetFramework, base, p).Ok?
    requires GetTargetProcessModel(p) != Ok(InProcess)
    ensures (forall k :: CanReuse(NetFramework, base, k, p) == Ok(k == MakeTestRunner(NetFramework, base, p).value))
            <==> !(GetTargetProcessModel(p) == Ok(Default) && !p.hasMultipleAssemblies)
  {
    if GetTargetProcessModel(p) == Ok(Default) && !p.hasMultipleAssemblies {
      assert CanReuse(NetFramework, base, ProcessRunner, p) == Ok(false);
    }
  }

  /** A single-assembly package with no setting gets a ProcessRunner, which the reuse
      check then refuses for that same package. */
  lemma DefaultSingleAssemblyNotReusable(base: InProcessFactory)
    ensures var p := TestPackage(map[], false);
      && MakeTestRunner(NetFramework, base, p) == Ok(ProcessRunner)
      && CanReuse(NetFramework, base, ProcessRunner, p) == Ok(false)
  {
  }

  /** A runner built for a three-assembly package with no setting is a
      MultipleTestProcessRunner, and it is reusable for any package with no setting,
      of two assemblies or of one. */
  lemma ReuseScenario(base: InProcessFactory)
    ensures MakeTestRunner(NetFramework, base, TestPackage(map[], true)) == Ok(MultipleTestProcessRunner)
    ensures CanReuse(NetFramework, base, MultipleTestProcessRunner, TestPackage(map[], true)) == Ok(true)
    ensures CanReuse(NetFramework, base, MultipleTestProcessRunner, TestPackage(map[], false)) == Ok(true)
  {
  }

  // ----- Service start-up -----

  /** Starting the factory on each build, with the project service missing, stopped or
      started; the factory never changes its target. */
  method StartServiceScenarios(base: InProcessFactory)
  {
    var full := new DefaultTestRunnerFactory(NetFramework, base);
    full.StartService(None);
    assert full.status == Error && full.projectService == None;
    full.StartService(Some(Stopped));
    assert full.status == Error && full.projectService == Some(Stopped);
    full.StartService(Some(Started));
    assert full.status == Started && full.projectService == Some(Started);

    var standard20 := new DefaultTestRunnerFactory(NetStandard20, base);
    standard20.StartService(None);
    assert standard20.status == Error;

    var standard16 := new DefaultTestRunnerFactory(NetStandard16, base);
    standard16.StartService(None);
    assert standard16.status == Started && standard16.projectService == None;
    standard16.StartService(Some(Error));
    assert standard16.status == Started && standard16.projectService == None;
  }
}
