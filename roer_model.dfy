/** The pipeline-template configuration files the CLI reads (model.go), and
    their conversion into the pipeline config the server stores. */
module RoerModel {
  import opened Common
  import SpinnakerModel

  datatype TemplateSource = TemplateSource(source: string)

  datatype PipelineConfigurationDefinition = PipelineConfigurationDefinition(
    application: string,
    name: string,
    template: TemplateSource,
    pipelineConfigId: string,
    variables: map<string, Value>)

  /** The `configuration` block of a configuration file. A concurrency flag
      that is absent is a key missing from `concurrentExecutions`. */
  datatype PipelineConfig = PipelineConfig(
    inherit: seq<string>,
    concurrentExecutions: map<string, bool>,
    triggers: seq<Value>,
    expectedArtifacts: seq<Value>,
    parameters: seq<Value>,
    notifications: seq<Value>,
    description: string)

  /** A configuration file. Stages, modules and partials are carried as
      uninterpreted JSON values: the conversion passes them through. */
  datatype PipelineConfiguration = PipelineConfiguration(
    schema: string,
    id: string,
    pipeline: PipelineConfigurationDefinition,
    configuration: PipelineConfig,
    stages: seq<Value>,
    modules: seq<Value>,
    partials: seq<Value>)

  /** The flag stored under `key`, or `default` when the key is absent. */
  function FlagOr(flags: map<string, bool>, key: string, default: bool): bool {
    if key in flags then flags[key] else default
  }

  /** `ToClient`: the stored pipeline config of a templated pipeline. It
      runs in parallel and limits concurrency unless told otherwise, does
      not keep waiting pipelines unless told to, and carries the whole
      configuration it came from. */
  function ToClient(c: PipelineConfiguration): (r: SpinnakerModel.PipelineConfig<PipelineConfiguration>)
    ensures r.parallel <==> "parallel" !in c.configuration.concurrentExecutions
                            || c.configuration.concurrentExecutions["parallel"]
    ensures r.limitConcurrent <==> "limitConcurrent" !in c.configuration.concurrentExecutions
                                   || c.configuration.concurrentExecutions["limitConcurrent"]
    ensures r.keepWaitingPipelines <==> "keepWaitingPipelines" in c.configuration.concurrentExecutions
                                        && c.configuration.concurrentExecutions["keepWaitingPipelines"]
    ensures r.kind == "templatedPipeline"
    ensures r.id == c.pipeline.pipelineConfigId && r.name == c.pipeline.name
    ensures r.application == c.pipeline.application && r.description == c.configuration.description
    ensures r.config == c
    ensures r.executionEngine == "" && r.lastModifiedBy == "" && r.updateTs == ""
    ensures r.stages == [] && r.triggers == [] && r.parameters == [] && r.notifications == []
  {
    var flags := c.configuration.concurrentExecutions;
    SpinnakerModel.PipelineConfig(
      id := c.pipeline.pipelineConfigId,
      kind := "templatedPipeline",
      name := c.pipeline.name,
      application := c.pipeline.application,
      description := c.configuration.description,
      executionEngine := "",
      parallel := FlagOr(flags, "parallel", true),
      limitConcurrent := FlagOr(flags, "limitConcurrent", true),
      keepWaitingPipelines := FlagOr(flags, "keepWaitingPipelines", false),
      stages := [],
      triggers := [],
      parameters := [],
      notifications := [],
      lastModifiedBy := "",
      config := c,
      updateTs := "")
  }

  /** With no concurrency flags set: parallel, limited, not waiting. */
  lemma ToClientDefaults(c: PipelineConfiguration)
    requires c.configuration.concurrentExecutions == map[]
    ensures ToClient(c).parallel && ToClient(c).limitConcurrent && !ToClient(c).keepWaitingPipelines
  {
  }

  /** The conversion loses nothing: the configuration is recovered from the result. */
  lemma ToClientInjective(c1: PipelineConfiguration, c2: PipelineConfiguration)
    requires ToClient(c1) == ToClient(c2)
    ensures c1 == c2
  {
    assert c1 == ToClient(c1).config;
  }

  /** Only the three named flags of `concurrentExecutions` matter: two
      configurations that agree on the pipeline's identity, the description
      and those three entries convert to configs that differ at most in the
      embedded configuration. */
  lemma ToClientReadsOnlyNamedFlags(c1: PipelineConfiguration, c2: PipelineConfiguration)
    requires c1.pipeline.pipelineConfigId == c2.pipeline.pipelineConfigId
    requires c1.pipeline.name == c2.pipeline.name && c1.pipeline.application == c2.pipeline.application
    requires c1.configuration.description == c2.configuration.description
    requires forall key :: key in {"parallel", "limitConcurrent", "keepWaitingPipelines"} ==>
      FlagOr(c1.configuration.concurrentExecutions, key, false) == FlagOr(c2.configuration.concurrentExecutions, key, false) &&
      (key in c1.configuration.concurrentExecutions <==> key in c2.configuration.concurrentExecutions)
    ensures ToClient(c1).(config := c2) == ToClient(c2)
  {
    assert "parallel" in {"parallel", "limitConcurrent", "keepWaitingPipelines"};
    assert "limitConcurrent" in {"parallel", "limitConcurrent", "keepWaitingPipelines"};
    assert "keepWaitingPipelines" in {"parallel", "limitConcurrent", "keepWaitingPipelines"};
  }
}
