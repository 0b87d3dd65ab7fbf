/** One pipeline run: its configuration, the environment's answers, and the steps they give rise to. */
module Pipeline {
  import opened Wrappers
  import opened States
  import opened Rows
  import opened Executor
  import opened Config
  import opened Steps
  import Decimal

  /** The environment's answers about one job row. */
  datatype JobScript = JobScript(id: Id, create: Answer, start: Answer, final: Answer)

  /** A pre-allocated artifact ID, and the answer to its registration. */
  datatype ArtScript = ArtScript(id: Id, create: Answer)

  datatype World = World(
    cfg: Config,
    run: Id,
    image: string, backend: string, basePath: string,
    start: Answer, final: Answer,
    jobs: Stage -> JobScript,
    steps: Key -> StepScript,
    artifacts: (nat, nat) -> ArtScript,                // by build step and output
    listOk: bool,
    listing: (map<Id, ArtRow>, Id) -> seq<Id>)         // the rows of a job, in the order the query returns them

  predicate Configured(w: World, st: Stage) {
    match st
    case Build => w.cfg.build.Some?
    case Test => w.cfg.test.Some?
    case Deploy => w.cfg.deploy.Some?
  }

  function BuildSteps(w: World): seq<BuildStep> { if w.cfg.build.Some? then w.cfg.build.value else [] }

  function TestSteps(w: World): seq<TestStep> { if w.cfg.test.Some? then w.cfg.test.value else [] }

  /** The steps a stage starts when nothing stops it. */
  function Planned(w: World, st: Stage): nat {
    match st
    case Build => |BuildSteps(w)|
    case Test => |TestSteps(w)|
    case Deploy => if w.cfg.deploy.Some? then 1 else 0
  }

  function StageName(st: Stage): string {
    match st
    case Build => "build"
    case Test => "test"
    case Deploy => "deploy"
  }

  function JobId(w: World, st: Stage): Id { w.jobs(st).id }

  function NewJobRow(w: World, st: Stage): JobRow {
    Row(JobInfo(w.run, StageName(st), StageName(st)), NewLife(w.jobs(st).create.now))
  }

  function Shell(image: string, command: string, artifacts: seq<ArtifactSpec>): ExecutionSpec {
    ExecutionSpec(image, ["sh", "-c", command], map[], artifacts)
  }

  function OutputSpecs(outputs: seq<BuildOutput>): (specs: seq<ArtifactSpec>)
    ensures |specs| == |outputs|
    ensures forall j :: 0 <= j < |outputs| ==> specs[j] == ArtifactSpec(outputs[j].kind, outputs[j].path)
  {
    seq(|outputs|, j requires 0 <= j < |outputs| => ArtifactSpec(outputs[j].kind, outputs[j].path))
  }

  function MakeTask(w: World, key: Key, name: string, group: Option<string>, spec: ExecutionSpec): Task {
    Task(Invocation(key, name, group, spec), JobId(w, key.stage), w.steps(key))
  }

  function BuildTask(w: World, i: nat): Task
    requires i < |BuildSteps(w)|
  {
    var s := BuildSteps(w)[i];
    MakeTask(w, Key(Build, i), s.name, None, Shell(w.image, s.run, OutputSpecs(s.outputs)))
  }

  function TestTask(w: World, i: nat, group: Option<string>): Task
    requires i < |TestSteps(w)|
  {
    var s := TestSteps(w)[i];
    MakeTask(w, Key(Test, i), s.name, group, Shell(w.image, s.run, []))
  }

  function DeployCommand(cfg: DeployConfig, path: string): string {
    if cfg.artifact == "helm_chart"
    then "helm upgrade --install " + cfg.target + " " + path + " --namespace " + cfg.namespace
    else "kubectl apply -f " + path + " --namespace " + cfg.namespace
  }

  function DeployTask(w: World, cfg: DeployConfig, path: string): Task {
    MakeTask(w, Key(Deploy, 0), "deploy", None, Shell(w.image, DeployCommand(cfg, path), []))
  }

  /** `filepath.Join` of an already clean base path and one further element. */
  function JoinPath(base: string, element: string): string {
    if base == "" || base == "." then element
    else if base[|base| - 1] == '/' then base + element
    else base + "/" + element
  }

  /** Where the executor stores an artifact: below the base path, under the artifact's own ID. */
  function StoragePath(w: World, id: Id): string { JoinPath(w.basePath, Decimal.Print(id)) }

  function NewArtRow(w: World, i: nat, j: nat): ArtRow
    requires i < |BuildSteps(w)| && j < |BuildSteps(w)[i].outputs|
  {
    var a := w.artifacts(i, j);
    ArtRow(JobId(w, Build), BuildSteps(w)[i].outputs[j].kind, w.backend, StoragePath(w, a.id), a.create.now)
  }

  /** Index of the first listed artifact of the type, or |ids|. */
  function FirstOfType(arts: map<Id, ArtRow>, ids: seq<Id>, kind: string): (k: nat)
    ensures k <= |ids|
    ensures k < |ids| ==> ids[k] in arts && arts[ids[k]].artifactType == kind
    ensures forall i :: 0 <= i < k ==> ids[i] !in arts || arts[ids[i]].artifactType != kind
  {
    if ids == [] then 0
    else if ids[0] in arts && arts[ids[0]].artifactType == kind then 0
    else 1 + FirstOfType(arts, ids[1..], kind)
  }

  /** The answer `SELECT ... WHERE job_id = job ORDER BY created_at` may give: ties come in any order. */
  ghost predicate IsListing(arts: map<Id, ArtRow>, job: Id, ids: seq<Id>) {
    && (forall id :: id in ids <==> id in arts && arts[id].job == job)
    && (forall i, j :: 0 <= i < j < |ids| ==> ids[i] != ids[j])
    && (forall i, j :: 0 <= i < j < |ids| && ids[i] in arts && ids[j] in arts
          ==> arts[ids[i]].createdAt <= arts[ids[j]].createdAt)
  }

  /** The database answers every listing query correctly. */
  ghost predicate SoundListing(w: World) {
    forall arts, job :: IsListing(arts, job, w.listing(arts, job))
  }

  /** No two steps draw the same row ID. */
  ghost predicate DistinctStepIds(w: World) {
    && (forall k, l :: w.steps(k).stepId == w.steps(l).stepId ==> k == l)
    && (forall k, l :: w.steps(k).execId == w.steps(l).execId ==> k == l)
  }

  /**
   What UUID generation is relied on for: the IDs this run draws are nonzero, distinct, and absent from the
   tables when the run begins; and the executor's book and the list of started steps of this run are empty.
   */
  ghost predicate FreshIds(w: World, sys: Sys) {
    && (forall st :: JobId(w, st) != ZERO_ID && JobId(w, st) !in sys.jobs)
    && (forall s, t :: JobId(w, s) == JobId(w, t) ==> s == t)
    && (forall k :: w.steps(k).stepId !in sys.steps && w.steps(k).execId !in sys.execs)
    && DistinctStepIds(w)
    && (forall i, j :: w.artifacts(i, j).id != ZERO_ID && w.artifacts(i, j).id !in sys.arts)
    && (forall i, j, p, q :: w.artifacts(i, j).id == w.artifacts(p, q).id ==> i == p && j == q)
    && sys.subs == map[] && sys.starts == []
  }

  /** The schema's constraints on what a table may hold before the run: foreign keys, and no job with the zero ID. */
  predicate SoundTables(sys: Sys) {
    ZERO_ID !in sys.jobs && forall id :: id in sys.arts ==> sys.arts[id].job in sys.jobs
  }
}
