/** Which artifact a deployment uses, and which rows a build leaves. */
module Provenance {
  import opened Wrappers
  import opened States
  import opened Rows
  import opened Config
  import opened Executor
  import opened Steps
  import opened Pipeline
  import opened Interleaving
  import opened Reference
  import opened Engine
  import opened Shape
  import opened StepRows
  import opened Tables
  import opened Hierarchy
  import opened Ledger
  import opened Invariant
  import opened Answers
  import opened Contents
  import Safety

  // ---------- The build ledger ----------

  /** Rows of this run's build job are its own outputs: no older row carries a job ID this run drew. */
  lemma OwnRows(w: World, sys0: Sys, i: nat, j: nat, id: Id)
    requires FreshIds(w, sys0) && SoundTables(sys0) && IsPlace(w, i, j)
    ensures
      var arts := Registered(w, sys0.arts, i, j);
      id in arts && arts[id].job == JobId(w, Build) <==> exists p, q :: OutputBefore(w, p, q, i, j) && id == OutputId(w, p, q)
  {
    RegisteredRows(w, sys0, i, j);
    var arts := Registered(w, sys0.arts, i, j);
    if p, q :| OutputBefore(w, p, q, i, j) && id == OutputId(w, p, q) { assert arts[id] == NewArtRow(w, p, q); }
  }

  /** Registrations happen at times that do not run backwards. */
  ghost predicate SteadyClock(w: World) {
    forall i, j, p, q :: IsOutput(w, i, j) && IsOutput(w, p, q) && Before(i, j, p, q) ==>
      w.artifacts(i, j).create.now <= w.artifacts(p, q).create.now
  }

  /**
   The build ledger, at every moment of every run: the artifact rows of the run's build job are exactly one row
   for each output before the place registration has reached, each with its configured columns and under its own ID
   below the base path. The
   store accepted each of them, and the step that made it had succeeded. If the clock did not run backwards, their
   creation times follow the flattened order.
   */
  lemma BuildLedger(w: World, sys0: Sys, schedule: seq<Action>)
    requires FreshIds(w, sys0) && SoundTables(sys0)
    ensures
      var s := After(w, sys0, schedule);
      var (i, j) := LedgerPlace(w, s.ctl);
      && (forall id :: id in s.sys.arts && s.sys.arts[id].job == JobId(w, Build) <==>
            exists p, q :: OutputBefore(w, p, q, i, j) && id == OutputId(w, p, q))
      && (forall p, q :: OutputBefore(w, p, q, i, j) ==> RegistersOutput(w, p, q, s.sys.arts[OutputId(w, p, q)]))
    ensures
      var arts := After(w, sys0, schedule).sys.arts;
      forall a, b :: a in arts && b in arts && arts[a].job == arts[b].job == JobId(w, Build) && arts[a].path == arts[b].path ==> a == b
    ensures
      var (i, j) := LedgerPlace(w, After(w, sys0, schedule).ctl);
      RegisteredWell(w, i, j)
    ensures
      var arts := After(w, sys0, schedule).sys.arts;
      var (i, j) := LedgerPlace(w, After(w, sys0, schedule).ctl);
      SteadyClock(w) ==>
        forall p, q, p', q' :: OutputBefore(w, p, q, i, j) && OutputBefore(w, p', q', i, j) && Before(p, q, p', q') ==>
          arts[OutputId(w, p, q)].createdAt <= arts[OutputId(w, p', q')].createdAt
    ensures After(w, sys0, schedule).ctl == Halted(None) ==>
      LedgerPlace(w, After(w, sys0, schedule).ctl) == (|BuildSteps(w)|, 0)
  {
    var s := After(w, sys0, schedule);
    var (i, j) := LedgerPlace(w, s.ctl);
    Always(w, sys0, schedule);
    AlwaysAnswered(w, sys0, schedule);
    RegisteredRows(w, sys0, i, j);
    forall p, q | OutputBefore(w, p, q, i, j) ensures RegistersOutput(w, p, q, s.sys.arts[OutputId(w, p, q)]) {
      NewRowRegisters(w, p, q);
    }
    forall id ensures id in s.sys.arts && s.sys.arts[id].job == JobId(w, Build) <==>
        exists p, q :: OutputBefore(w, p, q, i, j) && id == OutputId(w, p, q)
    {
      OwnRows(w, sys0, i, j, id);
    }
    forall a, b | a in s.sys.arts && b in s.sys.arts && s.sys.arts[a].job == s.sys.arts[b].job == JobId(w, Build)
                  && s.sys.arts[a].path == s.sys.arts[b].path
      ensures a == b
    {
      var p, q :| OutputBefore(w, p, q, i, j) && a == OutputId(w, p, q);
      var p', q' :| OutputBefore(w, p', q', i, j) && b == OutputId(w, p', q');
      PathTellsId(w, a, b, s.sys.arts[a].path);
    }
  }

  // ---------- The deployment ----------

  lemma DeployBuildJob(w: World, s: State)
    requires Progress(w, s) && BuildJobOk(w, s) && s.made.deploy > 0
    ensures s.buildJob == if Configured(w, Build) then JobId(w, Build) else ZERO_ID
  {
    match s.ctl
    case JobFinal(st, err) =>
      if err.Some? { var n, lo :| StoppedAt(w, s, st, n, lo, err.value); }
    case _ =>
  }

  /** The job with the zero ID owns no artifact. */
  lemma ZeroOwnsNothing(w: World, sys0: Sys, i: nat, j: nat, id: Id)
    requires FreshIds(w, sys0) && SoundTables(sys0) && IsPlace(w, i, j) && id in Registered(w, sys0.arts, i, j)
    ensures Registered(w, sys0.arts, i, j)[id].job != ZERO_ID
  {
    RegisteredRows(w, sys0, i, j);
    if id !in sys0.arts {
      var p, q :| OutputBefore(w, p, q, i, j) && id == OutputId(w, p, q);
      assert Registered(w, sys0.arts, i, j)[id] == NewArtRow(w, p, q);
    }
  }

  /** Output (p, q) is of the type the deploy stage asks for. */
  predicate Wanted(w: World, p: nat, q: nat) {
    IsOutput(w, p, q) && w.cfg.deploy.Some? && BuildSteps(w)[p].outputs[q].kind == w.cfg.deploy.value.artifact
  }

  /** A deploy call whose command deploys what the row of output (p, q) says is stored below the base path. */
  predicate Deploys(w: World, sys: Sys, spec: ExecutionSpec, p: nat, q: nat) {
    && w.cfg.deploy.Some? && IsOutput(w, p, q) && OutputId(w, p, q) in sys.arts
    && var row := sys.arts[OutputId(w, p, q)];
       RegistersOutput(w, p, q, row) && RunsDeployment(w, row.path, spec)
  }

  lemma NewRowRegisters(w: World, p: nat, q: nat)
    requires IsOutput(w, p, q)
    ensures RegistersOutput(w, p, q, NewArtRow(w, p, q))
  {
  }

  /** The chosen listing entry of a deploy call is a wanted output of this run's own build. */
  lemma ChosenIsOwn(w: World, sys0: Sys, s: State, k: nat) returns (p: nat, q: nat, m: nat)
    requires Inv(w, sys0, s) && FreshIds(w, sys0) && SoundTables(sys0) && SoundListing(w)
    requires k < |s.threads| && s.threads[k].task.inv.key.stage == Deploy
    ensures Configured(w, Build) && s.buildJob == JobId(w, Build)
    ensures Wanted(w, p, q) && Deploys(w, s.sys, s.threads[k].task.inv.spec, p, q)
    ensures var ids := w.listing(s.sys.arts, s.buildJob);
            && m == FirstOfType(s.sys.arts, ids, w.cfg.deploy.value.artifact) && m < |ids| && ids[m] == OutputId(w, p, q)
            && OutputBefore(w, p, q, LedgerPlace(w, s.ctl).0, LedgerPlace(w, s.ctl).1)
  {
    assert s.made.deploy > 0 by { if s.made.deploy == 0 { NoDeployYet(w, s, k); } }
    DeployBuildJob(w, s);
    assert DeployChoice(w, s, s.threads[k].task);
    var (i, j) := LedgerPlace(w, s.ctl);
    var ids := w.listing(s.sys.arts, s.buildJob);
    m := FirstOfType(s.sys.arts, ids, w.cfg.deploy.value.artifact);
    assert IsListing(s.sys.arts, s.buildJob, ids);
    assert ids[m] in ids;
    ZeroOwnsNothing(w, sys0, i, j, ids[m]);
    OwnRows(w, sys0, i, j, ids[m]);
    p, q :| OutputBefore(w, p, q, i, j) && ids[m] == OutputId(w, p, q);
    RegisteredRows(w, sys0, i, j);
    assert s.sys.arts[ids[m]] == NewArtRow(w, p, q);
    NewRowRegisters(w, p, q);
    Safety.DeploysPath(w, s.sys.arts[ids[m]].path);
  }

  /** Once the build is registered, the search finds an artifact iff the run's own build declares one of the type. */
  lemma FoundIsWanted(w: World, sys0: Sys, arts: map<Id, ArtRow>, buildJob: Id)
    requires FreshIds(w, sys0) && SoundTables(sys0) && SoundListing(w) && w.cfg.deploy.Some?
    requires arts == Registered(w, sys0.arts, |BuildSteps(w)|, 0)
    requires buildJob == if Configured(w, Build) then JobId(w, Build) else ZERO_ID
    ensures var ids := w.listing(arts, buildJob);
            FirstOfType(arts, ids, w.cfg.deploy.value.artifact) < |ids| <==> exists p, q :: Wanted(w, p, q)
  {
    hide Registered;
    var n, ids := |BuildSteps(w)|, w.listing(arts, buildJob);
    var k := FirstOfType(arts, ids, w.cfg.deploy.value.artifact);
    assert IsListing(arts, buildJob, ids);
    RegisteredRows(w, sys0, n, 0);
    if k < |ids| {
      assert ids[k] in ids;
      ZeroOwnsNothing(w, sys0, n, 0, ids[k]);
      OwnRows(w, sys0, n, 0, ids[k]);
      var p, q :| OutputBefore(w, p, q, n, 0) && ids[k] == OutputId(w, p, q);
      assert Wanted(w, p, q);
    }
    if p, q :| Wanted(w, p, q) {
      assert OutputBefore(w, p, q, n, 0) && arts[OutputId(w, p, q)] == NewArtRow(w, p, q);
      assert OutputId(w, p, q) in ids;
      var x :| 0 <= x < |ids| && ids[x] == OutputId(w, p, q);
    }
  }

  /**
   Deploy feasibility: in no run, at no moment, is there a deploy call unless a build stage is configured that
   declares an output of the wanted type, and then the call deploys such an output of this very run.
   */
  lemma DeployNeedsOwnBuild(w: World, sys0: Sys, schedule: seq<Action>)
    requires FreshIds(w, sys0) && SoundTables(sys0) && SoundListing(w)
    ensures
      var s := After(w, sys0, schedule);
      && (forall k :: 0 <= k < |s.threads| && s.threads[k].task.inv.key.stage == Deploy ==>
            Configured(w, Build) && exists p, q :: Wanted(w, p, q) && Deploys(w, s.sys, s.threads[k].task.inv.spec, p, q))
      && (Key(Deploy, 0) in s.sys.subs ==> Configured(w, Build) && exists p, q :: Wanted(w, p, q))
      && (s.ctl == Halted(None) && Configured(w, Deploy) ==> Configured(w, Build) && exists p, q :: Wanted(w, p, q))
  {
    var s := After(w, sys0, schedule);
    Always(w, sys0, schedule);
    forall k | 0 <= k < |s.threads| && s.threads[k].task.inv.key.stage == Deploy
      ensures Configured(w, Build) && exists p, q :: Wanted(w, p, q) && Deploys(w, s.sys, s.threads[k].task.inv.spec, p, q)
    {
      var p, q, m := ChosenIsOwn(w, sys0, s, k);
    }
    if s.made.deploy > 0 {
      var last := |s.threads| - 1;
      assert s.threads[last].task.inv.key == KeyAt(s.made, last);
      var p, q, m := ChosenIsOwn(w, sys0, s, last);
    } else {
      assert !IsStarted(s.made, Key(Deploy, 0));
      assert Unused(w, s.sys, Key(Deploy, 0));
    }
  }

  /** Registrations happen at strictly increasing times. */
  ghost predicate StrictClock(w: World) {
    forall i, j, p, q :: IsOutput(w, i, j) && IsOutput(w, p, q) && Before(i, j, p, q) ==>
      w.artifacts(i, j).create.now < w.artifacts(p, q).create.now
  }

  /** Output (p, q) is the first of the wanted type in the flattened list. */
  ghost predicate FirstWanted(w: World, p: nat, q: nat) {
    Wanted(w, p, q) && forall i, j :: Before(i, j, p, q) ==> !Wanted(w, i, j)
  }

  /** Output (p, q) is a wanted one than which none was registered earlier. */
  ghost predicate EarliestWanted(w: World, p: nat, q: nat) {
    Wanted(w, p, q) && forall i, j :: Wanted(w, i, j) ==> w.artifacts(p, q).create.now <= w.artifacts(i, j).create.now
  }

  /** The listing shows no wanted output before one that was registered earlier. */
  lemma ListedNoLater(w: World, sys0: Sys, s: State, p: nat, q: nat, m: nat, i: nat, j: nat)
    requires LedgerOk(w, sys0, s) && FreshIds(w, sys0) && w.cfg.deploy.Some?
    requires var (a, b) := LedgerPlace(w, s.ctl); OutputBefore(w, p, q, a, b) && OutputBefore(w, i, j, a, b)
    requires IsListing(s.sys.arts, JobId(w, Build), w.listing(s.sys.arts, JobId(w, Build)))
    requires var ids := w.listing(s.sys.arts, JobId(w, Build));
             m == FirstOfType(s.sys.arts, ids, w.cfg.deploy.value.artifact) && m < |ids| && ids[m] == OutputId(w, p, q)
    requires Wanted(w, i, j)
    ensures w.artifacts(p, q).create.now <= w.artifacts(i, j).create.now
  {
    hide LedgerPlace, Registered, StoragePath;
    var (a, b) := LedgerPlace(w, s.ctl);
    var ids, id := w.listing(s.sys.arts, JobId(w, Build)), OutputId(w, i, j);
    RegisteredRows(w, sys0, a, b);
    assert s.sys.arts[id] == NewArtRow(w, i, j) && s.sys.arts[ids[m]] == NewArtRow(w, p, q);
    assert id in ids;
    var x :| 0 <= x < |ids| && ids[x] == id;
    assert m <= x;
  }

  /** The listing of the build job shows its outputs in the order of the flattened list, if the clock is strict. */
  lemma LedgerListed(w: World, sys0: Sys, schedule: seq<Action>, x: nat, y: nat)
    requires FreshIds(w, sys0) && SoundTables(sys0) && SoundListing(w) && StrictClock(w)
    requires x < y < |w.listing(After(w, sys0, schedule).sys.arts, JobId(w, Build))|
    ensures
      var ids := w.listing(After(w, sys0, schedule).sys.arts, JobId(w, Build));
      exists p, q, p', q' :: IsOutput(w, p, q) && IsOutput(w, p', q') && Before(p, q, p', q')
                             && ids[x] == OutputId(w, p, q) && ids[y] == OutputId(w, p', q')
  {
    hide Inv, After;
    BuildLedger(w, sys0, schedule);
    var arts := After(w, sys0, schedule).sys.arts;
    var ids := w.listing(arts, JobId(w, Build));
    var (i, j) := LedgerPlace(w, After(w, sys0, schedule).ctl);
    assert IsListing(arts, JobId(w, Build), ids);
    assert ids[x] in ids && ids[y] in ids;
    var p, q :| OutputBefore(w, p, q, i, j) && ids[x] == OutputId(w, p, q);
    var p', q' :| OutputBefore(w, p', q', i, j) && ids[y] == OutputId(w, p', q');
    assert RegistersOutput(w, p, q, arts[ids[x]]) && RegistersOutput(w, p', q', arts[ids[y]]);
    assert Before(p, q, p', q') || Before(p', q', p, q) || (p == p' && q == q');
    assert Before(p, q, p', q');
  }

  /** The one deploy call of a run that ended without error, and the listing entry it chose. */
  lemma EarliestDeployed(w: World, sys0: Sys, s: State) returns (p: nat, q: nat)
    requires Inv(w, sys0, s) && FreshIds(w, sys0) && SoundTables(sys0) && SoundListing(w)
    requires Configured(w, Deploy) && s.ctl == Halted(None)
    ensures EarliestWanted(w, p, q) && DeployedOnce(w, s.sys, p, q)
  {
    var last := |s.threads| - 1;
    assert s.threads[last].task.inv.key == KeyAt(s.made, last);
    var m;
    p, q, m := ChosenIsOwn(w, sys0, s, last);
    assert IsListing(s.sys.arts, JobId(w, Build), w.listing(s.sys.arts, JobId(w, Build)));
    forall i, j | Wanted(w, i, j) ensures w.artifacts(p, q).create.now <= w.artifacts(i, j).create.now {
      assert OutputBefore(w, i, j, |BuildSteps(w)|, 0);
      ListedNoLater(w, sys0, s, p, q, m, i, j);
    }
    assert Succeeds(s.threads[last]);
    SucceededDeployment(w, s.sys, s.threads[last], p, q);
  }

  /**
   Artifact provenance: a run with a build and a deploy stage that ends without error has submitted exactly one
   deployment, whose command names the row registered for an output of the wanted type than which none of this
   run was registered earlier, whatever rows other runs had left in the table. Under a strict clock that is the
   first output of the wanted type in the flattened build configuration.
   */
  lemma ArtifactProvenance(w: World, sys0: Sys, schedule: seq<Action>)
    requires FreshIds(w, sys0) && SoundTables(sys0) && SoundListing(w)
    requires Configured(w, Deploy) && After(w, sys0, schedule).ctl == Halted(None)
    ensures
      var sys := After(w, sys0, schedule).sys;
      exists p, q :: EarliestWanted(w, p, q) && DeployedOnce(w, sys, p, q) && (StrictClock(w) ==> FirstWanted(w, p, q))
  {
    hide Inv, DeployedOnce;
    Always(w, sys0, schedule);
    var p, q := EarliestDeployed(w, sys0, After(w, sys0, schedule));
    assert StrictClock(w) ==> FirstWanted(w, p, q);
  }

  lemma SucceededDeployment(w: World, sys: Sys, th: Thread, p: nat, q: nat)
    requires Slot(sys, th) && Succeeds(th) && Deploys(w, sys, th.task.inv.spec, p, q) && th.task.inv.key == Key(Deploy, 0)
    ensures DeployedOnce(w, sys, p, q)
  {
  }

  /** The executor's book holds the deployment of output (p, q), observed to succeed and not cancelled. */
  predicate DeployedOnce(w: World, sys: Sys, p: nat, q: nat) {
    && Key(Deploy, 0) in sys.subs
    && var b := sys.subs[Key(Deploy, 0)];
       && Deploys(w, sys, b.spec, p, q)
       && b.observed == Some(Succeeded) && b.cancels == 0
  }

  // ---------- Rows of other runs ----------

  /** A run leaves every row it found in the tables as it was, save its own run row. */
  lemma OtherRowsUntouched(w: World, sys0: Sys, schedule: seq<Action>)
    requires FreshIds(w, sys0)
    ensures
      var sys := After(w, sys0, schedule).sys;
      && Keeps(sys0.jobs, sys.jobs) && Keeps(sys0.steps, sys.steps) && Keeps(sys0.execs, sys.execs) && Keeps(sys0.arts, sys.arts)
      && (forall id :: id != w.run ==> Agree(sys0.runs, sys.runs, id))
  {
    var s := After(w, sys0, schedule);
    Always(w, sys0, schedule);
    var (i, j) := LedgerPlace(w, s.ctl);
    RegisteredKeeps(w, sys0, i, j);
  }
}
