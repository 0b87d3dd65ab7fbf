/** The parsed pipeline configuration. */
module Config {
  import opened Wrappers

  datatype BuildOutput = BuildOutput(kind: string, path: string, ref: string)
  datatype BuildStep = BuildStep(name: string, run: string, outputs: seq<BuildOutput>)
  datatype TestStep = TestStep(name: string, run: string, parallel: bool)
  datatype DeployConfig = DeployConfig(artifact: string, target: string, namespace: string)

  /** A stage that is None is not configured and is skipped. */
  datatype Config = Config(build: Option<seq<BuildStep>>, test: Option<seq<TestStep>>, deploy: Option<DeployConfig>)
}
