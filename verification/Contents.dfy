/** What a run has to write and submit, column by column and text by text, as its configuration and answers prescribe. */
module Contents {
  import opened Wrappers
  import opened States
  import opened Rows
  import opened Config
  import opened Executor
  import opened Steps
  import opened Pipeline
  import Batching
  import Decimal

  /** The spec runs the step's own shell command in the builder image and announces the step's declared outputs. */
  predicate RunsBuildStep(w: World, i: nat, spec: ExecutionSpec)
    requires i < |BuildSteps(w)|
  {
    var step := BuildSteps(w)[i];
    && spec.image == w.image && spec.command == ["sh", "-c", step.run] && spec.env == map[]
    && |spec.artifacts| == |step.outputs|
    && forall j :: 0 <= j < |step.outputs| ==>
         spec.artifacts[j].kind == step.outputs[j].kind && spec.artifacts[j].path == step.outputs[j].path
  }

  /** The spec runs the step's own shell command in the builder image. */
  predicate RunsTestStep(w: World, i: nat, spec: ExecutionSpec)
    requires i < |TestSteps(w)|
  {
    spec == ExecutionSpec(w.image, ["sh", "-c", TestSteps(w)[i].run], map[], [])
  }

  /** The spec deploys what is stored at the path: with helm if it is a chart, else with kubectl. */
  predicate RunsDeployment(w: World, path: string, spec: ExecutionSpec)
    requires w.cfg.deploy.Some?
  {
    var cfg := w.cfg.deploy.value;
    && spec.image == w.image && spec.env == map[] && spec.artifacts == [] && |spec.command| == 3
    && spec.command[0] == "sh" && spec.command[1] == "-c"
    && (cfg.artifact == "helm_chart" ==>
          spec.command[2] == "helm upgrade --install " + cfg.target + " " + path + " --namespace " + cfg.namespace)
    && (cfg.artifact != "helm_chart" ==>
          spec.command[2] == "kubectl apply -f " + path + " --namespace " + cfg.namespace)
  }

  /** The path is that of the artifact's ID below the base path. */
  predicate LiesUnderBase(w: World, id: Id, path: string) {
    var base := w.basePath;
    && (base == "" || base == "." ==> path == Decimal.Print(id))
    && (base != "" && base != "." && base[|base| - 1] == '/' ==> path == base + Decimal.Print(id))
    && (base != "" && base != "." && base[|base| - 1] != '/' ==> path == base + "/" + Decimal.Print(id))
  }

  /** The row registers output (p, q) of the build. */
  predicate RegistersOutput(w: World, p: nat, q: nat, row: ArtRow)
    requires p < |BuildSteps(w)| && q < |BuildSteps(w)[p].outputs|
  {
    && row.job == w.jobs(Build).id && row.artifactType == BuildSteps(w)[p].outputs[q].kind
    && row.backend == w.backend && row.createdAt == w.artifacts(p, q).create.now
    && LiesUnderBase(w, w.artifacts(p, q).id, row.path)
  }

  /** The step's name as configured; a deploy stage has one step, called `deploy`. */
  predicate NamedAsConfigured(w: World, key: Key, name: string) {
    && (key.stage == Build ==> key.order < |BuildSteps(w)| && name == BuildSteps(w)[key.order].name)
    && (key.stage == Test ==> key.order < |TestSteps(w)| && name == TestSteps(w)[key.order].name)
    && (key.stage == Deploy ==> key.order == 0 && name == "deploy")
  }

  /** Parallel test steps carry the name of the batch, made of the number of its first step; all others carry none. */
  predicate GroupedAsConfigured(w: World, key: Key, group: Option<string>) {
    if key.stage == Test && key.order < |TestSteps(w)| && TestSteps(w)[key.order].parallel
    then group == Some("parallel-" + Decimal.Print(Batching.BatchStart(TestSteps(w), key.order)))
    else group == None
  }

  /** The spec of a build or test step; that of the deploy step depends on the artifact that it finds. */
  ghost predicate RunsAsConfigured(w: World, key: Key, spec: ExecutionSpec) {
    && (key.stage == Build ==> key.order < |BuildSteps(w)| && RunsBuildStep(w, key.order, spec))
    && (key.stage == Test ==> key.order < |TestSteps(w)| && RunsTestStep(w, key.order, spec))
    && (key.stage == Deploy ==> w.cfg.deploy.Some? && exists path :: RunsDeployment(w, path, spec))
  }

  /** The life of a row in this state whose writes were accepted at these times. */
  predicate LivedThrough(life: Life, created: Time, started: Time, finished: Time) {
    && life.createdAt == created
    && life.startedAt == (if life.status == Pending then None else Some(started))
    && life.finishedAt == (if life.status in [Success, Failed, Canceled] then Some(finished) else None)
  }

  // ---------- What the texts tell ----------

  lemma Between(front: string, middle: string, back: string)
    ensures |front + middle + back| == |front| + |middle| + |back|
    ensures (front + middle + back)[|front|..|front| + |middle|] == middle
  {
  }

  /** An artifact's path tells its ID. */
  lemma PathTellsId(w: World, m: Id, n: Id, path: string)
    requires LiesUnderBase(w, m, path) && LiesUnderBase(w, n, path)
    ensures m == n
  {
    var base := w.basePath;
    var front := if base == "" || base == "." then "" else if base[|base| - 1] == '/' then base else base + "/";
    assert path == front + Decimal.Print(m) && path == front + Decimal.Print(n);
    assert path[|front|..] == Decimal.Print(m) && path[|front|..] == Decimal.Print(n);
    Decimal.PrintInjective(m, n);
  }

  /** A deployment's command tells the path it deploys. */
  lemma CommandTellsPath(w: World, spec: ExecutionSpec, p: string, q: string)
    requires w.cfg.deploy.Some? && RunsDeployment(w, p, spec) && RunsDeployment(w, q, spec)
    ensures p == q
  {
    var cfg := w.cfg.deploy.value;
    var front := if cfg.artifact == "helm_chart" then "helm upgrade --install " + cfg.target + " " else "kubectl apply -f ";
    var back := " --namespace " + cfg.namespace;
    Between(front, p, back);
    Between(front, q, back);
    assert spec.command[2] == front + p + back && spec.command[2] == front + q + back;
  }
}
