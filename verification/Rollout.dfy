/** The rollout of one change (app/modules/change/service.py) over the guarded row updates of
    app/modules/db/change.py.

    One worker performs the commands; a user can ask for a pause, or withdraw that, between any
    two steps. Every call can raise before or after it took effect, and the worker can be killed
    before and after every step. Nobody else edits the managed files, and no other command runs:
    `Operations` has the protocol that sees to this, if every command is enqueued. */
module Rollout {
  import opened Outcomes
  import opened Contents
  import opened RolloutPlan
  import opened RolloutState

  class Worker {
    var desk: Desk
    var nodes: Nodes
    const candidate: Content
    const settings: Settings
    /** Whether every call succeeds and nothing kills the worker. */
    const reliable: bool
    /** Whether that is so during an automatic rollback. */
    const recovers: bool

    constructor (desk: Desk, nodes: Nodes, candidate: Content, settings: Settings, reliable: bool, recovers: bool)
      ensures this.desk == desk && this.nodes == nodes && this.candidate == candidate && this.settings == settings
      ensures this.reliable == reliable && this.recovers == recovers
    {
      this.desk, this.nodes, this.candidate, this.settings := desk, nodes, candidate, settings;
      this.reliable, this.recovers := reliable, recovers;
    }

    // -------------------------------------------------------------------------------------
    // Steps
    // -------------------------------------------------------------------------------------

    /** A call outside the model; the user acts meanwhile. */
    method Call(sure: bool := false) returns (r: Outcome, effect: bool)
      modifies this`desk
      ensures Moved(old(desk), desk) && (r.Done? ==> effect) && !r.RecoveryFailed?
      ensures reliable || sure ==> r.Done?
    {
      var moves: seq<UiMove> := *;
      UiMoves(desk, moves);
      desk := Ui(desk, moves);
      r, effect := Attempt(reliable || sure);
    }

    method Ask(sure: bool := false) returns (r: Outcome)
      modifies this`desk
      ensures Moved(old(desk), desk) && !r.RecoveryFailed?
      ensures reliable || sure ==> r.Done?
    {
      var effect;
      r, effect := Call(sure);
    }

    /** record_event: it does not raise, but takes its time. */
    method Note(sure: bool := false) returns (r: Outcome)
      modifies this`desk
      ensures Moved(old(desk), desk) && (r.Done? || r.Killed?)
      ensures reliable || sure ==> r.Done?
    {
      r := Ask(sure);
      if r.Failed? { r := Done; }
    }

    /** update_target. */
    method Mark(i: nat, s: TargetStatus, sure: bool := false) returns (r: Outcome)
      requires i < |nodes.all|
      modifies this`desk, this`nodes
      ensures Moved(old(desk), desk) && !r.RecoveryFailed?
      ensures nodes == Marked(old(nodes), i, s) || (!r.Done? && nodes == old(nodes))
      ensures reliable || sure ==> r.Done?
    {
      var effect;
      r, effect := Call(sure);
      if effect { nodes := Marked(nodes, i, s); }
    }

    /** Uploading a file to a node and acting on its service, and, for the candidate, the health
        check: a failure leaves the file as it was or as uploaded. */
    method Apply(i: nat, f: Content, sure: bool := false) returns (r: Outcome)
      requires i < |nodes.all|
      modifies this`desk, this`nodes
      ensures Moved(old(desk), desk) && !r.RecoveryFailed?
      ensures nodes == Applied(old(nodes), i, f) || (!r.Done? && nodes == old(nodes))
      ensures reliable || sure ==> r.Done?
    {
      var effect;
      r, effect := Call(sure);
      if effect { nodes := Applied(nodes, i, f); }
    }

    /** update_change with a status; `at` is the row that it was written over, if it was written. */
    method SetStatus(s: ChangeStatus, clear: bool, sure: bool := false) returns (r: Outcome, ghost at: Option<Desk>)
      modifies this`desk
      ensures !r.RecoveryFailed? && (reliable || sure ==> r.Done?)
      ensures at.Some? ==> Moved(old(desk), at.value) && desk == Overwritten(at.value, s, clear)
      ensures at.None? ==> !r.Done? && Moved(old(desk), desk)
    {
      var effect;
      r, effect := Call(sure);
      at := if effect then Some(desk) else None;
      if effect { desk := Overwritten(desk, s, clear); }
    }

    /** transition_change. A conflict is a status that is not in `from`, or a busy database. */
    method Transition(from: set<ChangeStatus>, s: ChangeStatus, clear: bool) returns (r: Outcome, conflict: bool)
      modifies this`desk
      ensures !r.RecoveryFailed? && (conflict ==> r.Failed?)
      ensures exists d :: Moved(old(desk), d)
                       && (|| (!conflict && d.status in from && desk == Claimed(d, s, clear))
                           || (!r.Done? && desk == d))
      ensures reliable ==> !r.Killed? && (r.Failed? ==> conflict && desk.status !in from)
    {
      var effect;
      r, effect := Call();
      ghost var d := desk;
      conflict := *;
      conflict := r.Failed? && conflict;
      if r.Done? && desk.status !in from {
        r, conflict := Failed, true;
      }
      if effect && !conflict && desk.status in from { desk := Claimed(desk, s, clear); }
      assert Moved(old(desk), d);
    }

    // -------------------------------------------------------------------------------------
    // Deploying
    // -------------------------------------------------------------------------------------

    method MarkDeploying(todo: set<nat>, batch: int) returns (r: Outcome)
      requires Truthful(nodes, candidate) && Startable(nodes, todo, batch)
      modifies this`desk, this`nodes
      ensures Moved(old(desk), desk) && !r.RecoveryFailed?
      ensures Only(old(nodes), nodes, todo) &&
                (forall i :: 0 <= i < |nodes.all| ==> nodes.all[i].file == old(nodes).all[i].file) &&
                    Truthful(nodes, candidate)
      ensures forall i :: i in todo ==> !IsDeployed(nodes, i) && (r.Done? ==> nodes.all[i].row.status.Deploying?)
      ensures reliable ==> r.Done?
    {
      hide Shape;
      ghost var was := nodes;
      r := Done;
      for k := 0 to |nodes.all|
        invariant Moved(old(desk), desk) && r.Done?
        invariant Only(was, nodes, todo) && (forall i :: 0 <= i < |nodes.all| ==> nodes.all[i].file == was.all[i].file)
        invariant forall i :: i in todo ==> !IsDeployed(nodes, i) && (i < k ==> nodes.all[i].row.status.Deploying?)
      {
        if k in todo {
          NoJump(was, nodes, todo, batch, k);
          r := Mark(k, TargetStatus.Deploying);
          if !r.Done? { break; }
        }
      }
      StillTruthful(was, nodes, todo, candidate);
    }

    /** Recording the outcome of one node: a raise while the success is written counts as a failure
        of the node. */
    method Record(k: nat, succeeded: bool) returns (r: Outcome, failed: bool)
      requires k < |nodes.all|
      modifies this`desk, this`nodes
      ensures Moved(old(desk), desk) && !r.RecoveryFailed?
      ensures exists s :: nodes == old(nodes).(all := old(nodes).all[k := Status(old(nodes).all[k], s)])
                       && (s in {old(nodes).all[k].row.status, DeploymentFailed} || (succeeded && s.Deployed?))
                       && (r.Done? ==> s == if failed then DeploymentFailed else TargetStatus.Deployed)
      ensures reliable ==> r.Done? && failed == !succeeded
    {
      ghost var was := nodes;
      assert nodes == Marked(nodes, k, nodes.all[k].row.status).(early := nodes.early);
      failed := !succeeded;
      r := Done;
      if succeeded {
        r := Mark(k, TargetStatus.Deployed);
        failed := r.Failed?;
      }
      if failed {
        r := Mark(k, DeploymentFailed);
      }
      assert nodes == was.(all := was.all[k := Status(was.all[k], nodes.all[k].row.status)]);
    }

    /** Deploying one node, and recording how that went. */
    method DeployNode(k: nat) returns (r: Outcome, failed: bool)
      requires k < |nodes.all| && nodes.all[k].row.status.Deploying?
      modifies this`desk, this`nodes
      ensures Moved(old(desk), desk) && !r.RecoveryFailed?
      ensures Only(old(nodes), nodes, {k}) && Attempting(nodes.all[k], candidate)
      ensures r.Done? ==> nodes.all[k].row.status == if failed then DeploymentFailed else TargetStatus.Deployed
      ensures reliable ==> r.Done? && !failed
    {
      failed := true;
      r := Apply(k, candidate);
      if !r.Killed? {
        r, failed := Record(k, r.Done?);
      }
    }

    /** One node at a time, in apply order, up to the first failure. */
    method RunInOrder(todo: set<nat>) returns (r: Outcome, failures: set<nat>, affected: set<nat>)
      requires Truthful(nodes, candidate)
      requires forall i :: i in todo ==> i < |nodes.all| && nodes.all[i].row.status.Deploying?
      modifies this`desk, this`nodes
      ensures Moved(old(desk), desk) && !r.RecoveryFailed?
      ensures Truthful(nodes, candidate) && Running(old(nodes), nodes, todo, candidate)
      ensures r.Done? ==> Ran(old(nodes), nodes, todo, failures, affected)
      ensures forall i, j :: i in affected && j in todo && j < i ==> j in affected && j !in failures
      ensures reliable ==> r.Done? && failures == {}
    {
      hide Topology, Selectable, Truthful, Included;
      ghost var was := nodes;
      r, failures, affected := Done, {}, {};
      for k := 0 to |nodes.all|
        invariant Moved(old(desk), desk) && r.Done? && failures == {}
        invariant Running(was, nodes, todo, candidate)
        invariant affected == set i | i in todo && i < k
        invariant Ran(was, nodes, affected, {}, affected)
      {
        if k in todo {
          assert nodes.all[k] == was.all[k];
          affected := affected + {k};
          var failed;
          r, failed := DeployNode(k);
          if !r.Done? { break; }
          if failed {
            failures := {k};
            break;
          }
        }
      }
      DeployingIncluded(was, todo, candidate);
      StillTruthful(was, nodes, todo, candidate);
    }

    /** Several nodes at once: their deployments end, and are recorded, in any order. */
    method RunAtOnce(todo: set<nat>) returns (r: Outcome, failures: set<nat>)
      requires Truthful(nodes, candidate)
      requires forall i :: i in todo ==> i < |nodes.all| && nodes.all[i].row.status.Deploying?
      modifies this`desk, this`nodes
      ensures Moved(old(desk), desk) && !r.RecoveryFailed?
      ensures Truthful(nodes, candidate) && Running(old(nodes), nodes, todo, candidate)
      ensures r.Done? ==> Ran(old(nodes), nodes, todo, failures, todo)
      ensures reliable ==> r.Done? && failures == {}
    {
      hide Topology, Selectable, Truthful, Included;
      ghost var was := nodes;
      failures := {};
      r := Ask();  // normalising the candidate's line ends
      var pool := Pool(todo, {}, {}, {});
      while r.Done? && pool.waiting + pool.finished != {}
        invariant Moved(old(desk), desk) && !r.RecoveryFailed?
        invariant Running(was, nodes, todo, candidate)
        invariant r.Done? ==> Pooled(was, nodes, todo, pool, candidate)
        invariant reliable ==> r.Done? && pool.failures == {} && pool.finished <= pool.good
        decreases r.Done?, pool.waiting, pool.finished
      {
        r, pool := Advance(was, todo, pool);
      }
      failures := pool.failures;
      DeployingIncluded(was, todo, candidate);
      StillTruthful(was, nodes, todo, candidate);
    }

    /** Some deployment ends, or the end of one is recorded. */
    method Advance(ghost was: Nodes, ghost todo: set<nat>, pool: Pool) returns (r: Outcome, next: Pool)
      requires Pooled(was, nodes, todo, pool, candidate) && pool.waiting + pool.finished != {}
      modifies this`desk, this`nodes
      ensures Moved(old(desk), desk) && !r.RecoveryFailed?
      ensures Running(was, nodes, todo, candidate)
      ensures r.Done? ==> Pooled(was, nodes, todo, next, candidate)
      ensures next.waiting < pool.waiting || (next.waiting == pool.waiting && next.finished < pool.finished)
      ensures reliable ==> r.Done?
      ensures reliable && pool.failures == {} && pool.finished <= pool.good ==>
                next.failures == {} && next.finished <= next.good
    {
      ghost var before := nodes;
      var k :| k in pool.waiting + pool.finished;
      assert k < |nodes.all|;
      hide Pooled, Running, Only, Attempting;
      if k in pool.waiting {
        r := Apply(k, candidate);
        next := pool.(waiting := pool.waiting - {k}, finished := pool.finished + {k},
                      good := if r.Done? then pool.good + {k} else pool.good);
        Landed(was, before, nodes, todo, pool, candidate, k, r.Done?);
        if r.Failed? { r := Done; }
      } else {
        var failed;
        r, failed := Record(k, k in pool.good);
        next := pool.(finished := pool.finished - {k},
                      failures := if failed then pool.failures + {k} else pool.failures);
        Written(was, before, nodes, todo, pool, candidate, k, r.Done?, failed);
        if r.Failed? { r := AwaitOthers(pool.waiting, was, todo); }
      }
    }

    /** Leaving the pool of workers waits for the deployments that are still running. */
    method AwaitOthers(waiting: set<nat>, ghost was: Nodes, ghost todo: set<nat>) returns (r: Outcome)
      requires Running(was, nodes, todo, candidate) && waiting <= todo
      requires forall i :: i in waiting ==> i < |nodes.all| && nodes.all[i].row.status.Deploying?
      modifies this`desk, this`nodes
      ensures Moved(old(desk), desk) && (r.Failed? || r.Killed?)
      ensures Running(was, nodes, todo, candidate)
    {
      var left := waiting;
      while left != {}
        invariant Moved(old(desk), desk)
        invariant Running(was, nodes, todo, candidate) && left <= waiting
        invariant forall i :: i in left ==> i < |nodes.all| && nodes.all[i].row.status.Deploying?
      {
        var k :| k in left;
        r := Apply(k, candidate);
        if r.Killed? { return; }
        left := left - {k};
      }
      r := Failed;
    }

    /** After a failure, the nodes that were not attempted are skipped. */
    method SkipOthers() returns (r: Outcome)
      modifies this`desk, this`nodes
      ensures Moved(old(desk), desk) && !r.RecoveryFailed?
      ensures Skipping(old(nodes), nodes)
    {
      ghost var was := nodes;
      SkippingItself(nodes);
      hide Skipping;
      r := Ask();  // reading the rows
      if !r.Done? { return; }
      for k := 0 to |nodes.all|
        invariant Moved(old(desk), desk) && r.Done?
        invariant Skipping(was, nodes) && |nodes.all| == |was.all|
      {
        if Included(nodes, k) && !nodes.all[k].row.status.DeploymentFailed? && !IsDeployed(nodes, k) {
          SkippingOne(was, nodes, k);
          r := Mark(k, Skipped);
          if !r.Done? { return; }
        }
      }
    }

    /** The nodes of a batch, started and deployed. */
    method RunBatch(todo: set<nat>, batch: int) returns (r: Outcome, failures: set<nat>, affected: set<nat>)
      requires Truthful(nodes, candidate) && Startable(nodes, todo, batch)
      modifies this`desk, this`nodes
      ensures Moved(old(desk), desk) && !r.RecoveryFailed?
      ensures Truthful(nodes, candidate) && Only(old(nodes), nodes, todo)
      ensures forall i :: i in todo ==>
                Attempting(nodes.all[i], candidate) || nodes.all[i].file == old(nodes).all[i].file
      ensures r.Done? ==> Ran(old(nodes), nodes, todo, failures, affected)
      ensures settings.maxParallel <= 1 && r.Done? ==> FirstFailureLast(old(nodes), nodes, todo, failures)
      ensures reliable ==> r.Done? && failures == {}
    {
      hide Truthful, Topology, Selectable;
      failures, affected := {}, {};
      r := MarkDeploying(todo, batch);
      if !r.Done? { return; }
      if settings.maxParallel <= 1 || |todo| == 1 {
        r, failures, affected := RunInOrder(todo);
      } else {
        r, failures := RunAtOnce(todo);
        affected := todo;
      }
    }

    /** _deploy_batch, started only when the included nodes of lower batches are deployed. */
    method DeployBatch(batch: int) returns (r: BatchResult, ghost begun: Option<Desk>)
      requires Truthful(nodes, candidate) && Startable(nodes, ToDeploy(nodes, batch), batch)
      requires desk.status.PauseRequested? ==> desk.since == 0
      modifies this`desk, this`nodes
      ensures Pressed(old(desk), desk) && OneMore(desk)
      ensures Truthful(nodes, candidate) && SamePlan(old(nodes), nodes) && ExcludedKept(old(nodes), nodes)
      ensures TouchedTried(old(nodes), nodes) && (r.BatchFailed? ==> r.affected <= Attempted(nodes))
      ensures settings.maxParallel <= 1 && r.BatchFailed? ==> StoppedAtFailure(old(nodes), nodes, batch)
      ensures r.BatchDone? ==> BatchComplete(old(nodes), nodes, batch)
      ensures Settled(old(nodes)) ==> Covered(r, nodes)
      ensures reliable ==> r.BatchDone?
      // The batch starts at the row as it is now, unless there is nothing to deploy.
      ensures begun == if ToDeploy(old(nodes), batch) == {} then None else Some(old(desk))
      ensures Moved(if begun.Some? then BatchStarted(begun.value) else old(desk), desk)
    {
      hide Truthful, ExcludedKept, Settled, Covered, ToDeploy, Startable, Ran, Only, SamePlan, BatchComplete,
        Attempting, TouchedTried, Attempted, FirstFailureLast, StoppedAtFailure;
      ghost var was := nodes;
      var todo := ToDeploy(nodes, batch);
      begun := None;
      if todo == {} {
        NothingToDo(nodes, batch);
        TouchedItself(nodes);
        r := BatchDone;
        return;
      }
      SamePlanItself(nodes);
      TouchedItself(nodes);
      begun := Some(desk);
      desk := BatchStarted(desk);
      var o := Note();  // the batch has started
      if o.Killed? { r := BatchKilled; return; }
      r := CompleteBatch(todo, batch);
    }

    /** A batch that has started. */
    method CompleteBatch(todo: set<nat>, batch: int) returns (r: BatchResult)
      requires Truthful(nodes, candidate) && todo == ToDeploy(nodes, batch) && Startable(nodes, todo, batch)
      modifies this`desk, this`nodes
      ensures Moved(old(desk), desk)
      ensures Truthful(nodes, candidate) && SamePlan(old(nodes), nodes) && ExcludedKept(old(nodes), nodes)
      ensures TouchedTried(old(nodes), nodes) && (r.BatchFailed? ==> r.affected <= Attempted(nodes))
      ensures settings.maxParallel <= 1 && r.BatchFailed? ==> StoppedAtFailure(old(nodes), nodes, batch)
      ensures r.BatchDone? ==> BatchComplete(old(nodes), nodes, batch)
      ensures Settled(old(nodes)) ==> Covered(r, nodes)
      ensures reliable ==> r.BatchDone?
    {
      hide Truthful, ExcludedKept, Settled, Covered, ToDeploy, Startable, Ran, Only, SamePlan, BatchComplete,
        Attempting, TouchedTried, Attempted, FirstFailureLast, StoppedAtFailure;
      ghost var was := nodes;
      var already := set i: nat | i < |nodes.all| && Included(nodes, i) && IsDeployed(nodes, i);
      var o, failures, affected := RunBatch(todo, batch);
      if o.Done? && failures != {} {
        ghost var ran := nodes;
        o := SkipOthers();
        FailureCovered(was, ran, nodes, batch, already, failures, affected, candidate);
        if settings.maxParallel <= 1 { FailureStopped(was, ran, nodes, batch, failures, affected); }
        return if o.Done? then BatchFailed(already + affected) else if o.Killed? then BatchKilled else BatchRaised;
      }
      RunCovered(was, nodes, batch, o.Done?, affected, candidate);
      if o.Done? { o := Note(); }  // the batch is complete
      r := if o.Done? then BatchDone else if o.Killed? then BatchKilled else BatchRaised;
    }

    /** _refresh_rollout_batches: numbering the nodes anew never refuses the selection it finds. */
    method Refresh() returns (r: Outcome)
      requires Shape(nodes)
      modifies this`desk, this`nodes
      ensures Moved(old(desk), desk) && !r.RecoveryFailed?
      ensures Renumbered(old(nodes), nodes)
      ensures r.Done? ==> Replanned(nodes, settings)
      ensures reliable ==> r.Done?
    {
      hide Topology, Selectable, Numbered, EffectiveSize, BadSelection, Planned, Moved, Renumbered;
      var rows := Rows(nodes);
      var canaries := set i: nat | i < |rows| && rows[i].isCanary :: rows[i].server;
      var excluded := set i: nat | i < |rows| && rows[i].excluded :: rows[i].server;
      SelectionStands(rows, canaries, excluded);
      var p := PreparePlan(rows, settings.rolling, settings.batchSize, canaries, excluded);
      PlanStands(rows, p.targets, canaries, excluded, EffectiveSize(p.targets, settings.rolling, settings.batchSize));
      r := WritePlan(p.targets);
      ghost var written := desk;
      if r.Done? {
        r := Ask();  // reading the rows
        MovedOnce(old(desk), written, desk);
      }
    }

    method WritePlan(plan: seq<Target>) returns (r: Outcome)
      requires |plan| == |nodes.all| && forall i :: 0 <= i < |plan| ==> RenumberedRow(nodes.all[i].row, plan[i])
      modifies this`desk, this`nodes
      ensures Moved(old(desk), desk) && !r.RecoveryFailed?
      ensures Renumbered(old(nodes), nodes) && (r.Done? ==> Rows(nodes) == plan)
      ensures reliable ==> r.Done?
    {
      ghost var was := nodes;
      r := Done;
      for k := 0 to |plan|
        invariant Moved(old(desk), desk) && r.Done?
        invariant |nodes.all| == |was.all| && nodes.early == was.early
        invariant forall i :: 0 <= i < |nodes.all| ==>
                  nodes.all[i] == if i < k then was.all[i].(row := plan[i]) else was.all[i]
      {
        if plan[k] != nodes.all[k].row {
          var effect;
          r, effect := Call();
          if effect { nodes := nodes.(all := nodes.all[k := nodes.all[k].(row := plan[k])]); }
          if !r.Done? { return; }
        }
      }
    }

    /** _finish_pending_pause. */
    method ClaimPause() returns (r: Outcome, paused: bool)
      requires desk.status.PauseRequested?
      modifies this`desk
      ensures !r.RecoveryFailed?
      ensures Moved(old(desk), desk) || PauseClaimed(old(desk), desk)
      ensures r.Done? ==>
                if paused then PauseClaimed(old(desk), desk) else desk.status.Deploying? && Moved(old(desk), desk)
      ensures reliable ==> !r.Killed? && (r.Failed? <==> desk.status.PauseRequested?)
      ensures reliable && r.Failed? ==> AskedAgain(old(desk), desk)
    {
      var conflict;
      r, conflict := Transition({PauseRequested}, Paused, true);
      paused := true;
      if r.Failed? && conflict {
        r := Ask();
        if !r.Done? { return; }
        paused := desk.status.Paused?;
        if !paused && !(desk.status.Deploying? && !desk.flag) { r := Failed; }
      } else if r.Done? {
        r := Note();
      }
    }

    /** Reading the status, and stopping if a pause is requested. */
    method Gate() returns (r: Outcome, paused: bool)
      requires InFlight(desk.status) && OneMore(desk)
      modifies this`desk
      ensures !r.RecoveryFailed?
      ensures r.Done? && !paused ==> Pressed(old(desk), desk) && desk.status.Deploying?
      ensures Stopped(old(desk), desk) && desk.dropped == old(desk).dropped
      ensures r.Done? && paused ==> desk.status.Paused? && !desk.flag && desk.claimed == old(desk).claimed + 1
      ensures reliable ==> r.Done? || (r.Failed? && AskedAgain(old(desk), desk))
    {
      paused := false;
      r := Ask();
      if r.Done? && desk.status.PauseRequested? {
        r, paused := ClaimPause();
      }
    }

    /** The batch of a turn, if no pause is requested; None: some nodes remain. */
    method TryBatch(batch: int) returns (r: Option<RolloutResult>, ghost begun: Option<Desk>)
      requires InFlight(desk.status) && OneMore(desk)
      requires Truthful(nodes, candidate) && Startable(nodes, ToDeploy(nodes, batch), batch)
      modifies this`desk, this`nodes
      ensures Truthful(nodes, candidate) && SamePlan(old(nodes), nodes) && ExcludedKept(old(nodes), nodes)
      ensures TouchedTried(old(nodes), nodes)
      ensures r.Some? && r.value.RolloutFailed? ==> r.value.affected <= Attempted(nodes)
      ensures r.None? || r == Some(Finished(true)) ==> Pressed(old(desk), desk) && OneMore(desk)
      ensures r.None? ==> BatchComplete(old(nodes), nodes, batch)
      ensures r.Some? ==> Stopped(old(desk), desk) && Reported(r.value, desk, nodes)
      ensures Settled(old(nodes)) ==> if r.None? then Settled(nodes) else RolloutCovered(r.value, nodes)
      ensures reliable && r.Some? ==> r.value.Finished? || (r.value.RolloutRaised? && AskedAgain(old(desk), desk))
      ensures desk.dropped == old(desk).dropped
      ensures r == Some(Finished(false)) ==> desk.claimed == old(desk).claimed + 1
      ensures old(desk).status.PauseRequested? && (r.None? || r == Some(Finished(true))) ==>
                old(desk).withdrawn < desk.withdrawn
      // A request that is pending when the batch starts came after the look, and no batch had started since.
      ensures begun.Some? ==> SinceLook(old(desk), begun.value)
      ensures begun.Some? && begun.value.status.PauseRequested? ==> begun.value.since == 0
      ensures begun.Some? && (r.None? || r == Some(Finished(true))) ==> Moved(BatchStarted(begun.value), desk)
      ensures r.None? || (r == Some(Finished(false)) && ToDeploy(old(nodes), batch) != {}) ==> !AllDeployed(nodes)
      ensures r == Some(Finished(false)) ==> !desk.flag && desk.status.Paused?
    {
      hide Truthful, ExcludedKept, Settled, Restorable, Startable, SamePlan, BatchComplete, AllDeployed, ToDeploy,
        Attempted, TouchedTried;
      begun := None;
      var o, paused := Gate();
      ghost var look := desk;
      if o.Done? { o := Ask(); }  // reading the rows
      SamePlanItself(nodes);
      TouchedItself(nodes);
      NotAllDeployed(nodes, batch);
      if !o.Done? || paused { r := Some(StoppedBy(o)); return; }
      assert SinceLook(old(desk), desk) by { assert Pressed(old(desk), look) && Moved(look, desk); }
      r, begun := StartBatch(batch);
    }

    /** The batch of a turn after the look, and what is left. */
    method StartBatch(batch: int) returns (r: Option<RolloutResult>, ghost begun: Option<Desk>)
      requires InFlight(desk.status) && (desk.status.PauseRequested? ==> desk.since == 0)
      requires Truthful(nodes, candidate) && Startable(nodes, ToDeploy(nodes, batch), batch)
      modifies this`desk, this`nodes
      ensures Truthful(nodes, candidate) && SamePlan(old(nodes), nodes) && ExcludedKept(old(nodes), nodes)
      ensures TouchedTried(old(nodes), nodes)
      ensures r.Some? && r.value.RolloutFailed? ==> r.value.affected <= Attempted(nodes)
      ensures Pressed(old(desk), desk) && OneMore(desk)
      ensures r.None? ==> BatchComplete(old(nodes), nodes, batch)
      ensures r.Some? ==> Reported(r.value, desk, nodes) && r != Some(Finished(false))
      ensures Settled(old(nodes)) ==> if r.None? then Settled(nodes) else RolloutCovered(r.value, nodes)
      ensures reliable ==> r.None? || r == Some(Finished(true))
      ensures begun == if ToDeploy(old(nodes), batch) == {} then None else Some(old(desk))
      ensures Moved(if begun.Some? then BatchStarted(begun.value) else old(desk), desk)
      ensures r.None? ==> !AllDeployed(nodes)
    {
      hide Truthful, ExcludedKept, Settled, Restorable, Startable, SamePlan, BatchComplete, AllDeployed, ToDeploy,
        Attempted, TouchedTried;
      var b;
      b, begun := DeployBatch(batch);
      match b {
        case BatchKilled => r := Some(RolloutKilled); return;
        case BatchRaised => r := Some(RolloutRaised); return;
        case BatchFailed(affected) => r := Some(RolloutFailed(affected)); return;
        case BatchDone =>
      }
      SamePlanItself(nodes);
      var o := Ask();  // reading the rows
      r := if !o.Done? then Some(StoppedBy(o)) else if AllDeployed(nodes) then Some(Finished(true)) else None;
    }

    /** The end of a turn: stopping for a pause or for a promotion. */
    method AfterBatch() returns (r: Option<RolloutResult>, ghost promotion: Option<Desk>)
      requires InFlight(desk.status) && OneMore(desk)
      modifies this`desk
      ensures r.None? ==> Pressed(old(desk), desk) && desk.status.Deploying?
      ensures r.Some? ==> Stopped(old(desk), desk) && r != Some(Finished(true)) && !r.value.RolloutFailed?
      ensures r == Some(Finished(false)) ==> desk.status.Paused? || desk.status.AwaitingPromotion?
      ensures reliable && r.Some? ==> r.value.Finished? || (r.value.RolloutRaised? && AskedAgain(old(desk), desk))
      ensures desk.dropped == old(desk).dropped + Lost(promotion)
      ensures promotion.Some? ==> settings.manualPromotion && SinceLook(old(desk), promotion.value)
      ensures promotion.Some? ==> Moved(Overwritten(promotion.value, AwaitingPromotion, false), desk)
      ensures r.None? ==> promotion.None?
      ensures r == Some(Finished(false)) ==> (promotion.None? <==> desk.claimed == old(desk).claimed + 1)
      ensures old(desk).status.PauseRequested? && Lost(promotion) == 1 ==> old(desk).withdrawn < desk.withdrawn
      ensures r == Some(Finished(false)) && promotion.None? ==> !desk.flag && desk.status.Paused?
    {
      promotion := None;
      var o, paused := Gate();
      if !o.Done? || paused { r := Some(StoppedBy(o)); return; }
      r := None;
      if settings.manualPromotion {
        ghost var look := desk;
        o, promotion := SetStatus(AwaitingPromotion, false);
        assert promotion.Some? ==> Moved(look, promotion.value) && Pressed(old(desk), look);
        if o.Done? { o := Note(); }
        r := Some(StoppedBy(o));
      }
    }

    /** One turn of the loop in _deploy_rollout; None: the rollout goes on. */
    method NextBatch(batch: int) returns (r: Option<RolloutResult>, ghost promotion: Option<Desk>)
      requires InFlight(desk.status) && OneMore(desk)
      requires Truthful(nodes, candidate) && Startable(nodes, ToDeploy(nodes, batch), batch)
      modifies this`desk, this`nodes
      ensures Truthful(nodes, candidate) && SamePlan(old(nodes), nodes) && ExcludedKept(old(nodes), nodes)
      ensures TouchedTried(old(nodes), nodes)
      ensures r.Some? && r.value.RolloutFailed? ==> r.value.affected <= Attempted(nodes)
      ensures r.None? ==> Pressed(old(desk), desk) && desk.status.Deploying? && BatchComplete(old(nodes), nodes, batch)
      ensures r.Some? ==> Stopped(old(desk), desk) && Reported(r.value, desk, nodes)
      ensures Settled(old(nodes)) ==> if r.None? then Settled(nodes) else RolloutCovered(r.value, nodes)
      ensures reliable && r.Some? ==> r.value.Finished? || (r.value.RolloutRaised? && AskedAgain(old(desk), desk))
      // Requests are dropped by the write of a promotion only, and only those made after the last look.
      ensures desk.dropped == old(desk).dropped + Lost(promotion)
      ensures promotion.Some? ==> settings.manualPromotion && SinceLook(old(desk), promotion.value)
      ensures promotion.Some? ==> Moved(Overwritten(promotion.value, AwaitingPromotion, false), desk)
      ensures r.None? || r == Some(Finished(true)) ==> promotion.None?
      ensures r == Some(Finished(false)) ==> (promotion.None? <==> desk.claimed == old(desk).claimed + 1)
      ensures old(desk).status.PauseRequested? && (Lost(promotion) == 1 || r == Some(Finished(true))) ==>
                old(desk).withdrawn < desk.withdrawn
      ensures r == Some(Finished(false)) && ToDeploy(old(nodes), batch) != {} ==> !AllDeployed(nodes)
      ensures r == Some(Finished(false)) && promotion.None? ==> !desk.flag && desk.status.Paused?
    {
      hide Truthful, ExcludedKept, Settled, Restorable, Startable, SamePlan, BatchComplete, AllDeployed, ToDeploy,
        Attempted, SinceLook, Covered, TouchedTried;
      promotion := None;
      ghost var begun;
      r, begun := TryBatch(batch);
      if r.None? {
        SamePlanItself(nodes);
        ghost var turn := desk;
        r, promotion := AfterBatch();
        if promotion.Some? { SinceLookFrom(old(desk), turn, promotion.value); }
      }
    }

    /** The start of _deploy_rollout: fresh nodes unless it resumes, numbered; the batches to do. */
    method Prepare(resume: bool) returns (r: Outcome, numbers: set<int>)
      requires Truthful(nodes, candidate)
      modifies this`desk, this`nodes
      ensures Moved(old(desk), desk) && !r.RecoveryFailed?
      ensures Truthful(nodes, candidate) && Renewed(old(nodes), nodes) && ExcludedKept(old(nodes), nodes)
      ensures Queued(nodes, numbers) && FilesKept(old(nodes), nodes, |old(nodes).all|)
      ensures r.Done? && !resume ==> Attempted(nodes) == {}
      ensures Settled(old(nodes)) && (!resume ==> Restored(old(nodes))) ==>
                Settled(nodes) && Restorable(nodes, Attempted(nodes))
      ensures reliable ==> r.Done?
      ensures AllAwaited(nodes, numbers)
    {
      hide Truthful, ExcludedKept, Shape, Settled, Restored, Restorable, Attempted, Numbered, EffectiveSize, Renumbered,
        Renewed, Queued, FilesKept;
      ghost var was := nodes;
      var effect;
      r, effect := Call();  // reading the rows, or resetting them
      if !resume && effect { nodes := Reset(nodes); }
      ghost var reset := nodes;
      ResetFine(was, reset, candidate);
      ghost var count := |was.all|;
      if r.Done? { r := Refresh(); } else { RenumberedItself(nodes); }
      RenumberedFine(was, reset, nodes, candidate);
      RenumberedTried(reset, nodes, candidate);
      FilesKeptOnce(was, reset, nodes, count);
      numbers := set i: nat | i < |nodes.all| && Included(nodes, i) && !IsDeployed(nodes, i) :: nodes.all[i].row.batch;
      AllQueued(nodes, numbers);
      AwaitedFrom(nodes, numbers);
    }

    /** _deploy_rollout: every included node that is not deployed, batch by batch. */
    method DeployRollout(resume: bool) returns (r: RolloutResult, ghost promotion: Option<Desk>)
      requires InFlight(desk.status) && OneMore(desk) && Truthful(nodes, candidate)
      modifies this`desk, this`nodes
      ensures Truthful(nodes, candidate) && Renewed(old(nodes), nodes) && ExcludedKept(old(nodes), nodes)
      // Only nodes whose deployment began were touched, and only such are named for the rollback.
      ensures FilesTried(old(nodes), nodes) && (r.RolloutFailed? ==> r.affected <= Attempted(nodes))
      ensures Stopped(old(desk), desk) && Reported(r, desk, nodes)
      ensures Settled(old(nodes)) && (!resume ==> Restored(old(nodes))) ==> RolloutCovered(r, nodes)
      ensures reliable ==> r.Finished? || (r.RolloutRaised? && AskedAgain(old(desk), desk))
      // A request is dropped if and only if it is pending when a promotion is written: never without
      // promotions, nor when the rollout stops for a claim, and only one made since the last look.
      ensures desk.dropped == old(desk).dropped + Lost(promotion)
      ensures promotion.Some? ==> settings.manualPromotion && SinceLook(old(desk), promotion.value)
      ensures promotion.Some? ==> Moved(Overwritten(promotion.value, AwaitingPromotion, false), desk)
      ensures r == Finished(true) ==> promotion.None?
      ensures r == Finished(false) ==> (promotion.None? <==> desk.claimed == old(desk).claimed + 1)
      // It stops only while some node remains to be deployed, so not for a request during the last batch.
      ensures r == Finished(false) ==> !AllDeployed(nodes)
      ensures r == Finished(false) && promotion.None? ==> !desk.flag && desk.status.Paused?
    {
      hide Truthful, ExcludedKept, Settled, Restored, Restorable, Startable, AllDeployed, ToDeploy, Attempted, SamePlan,
        BatchComplete, Renewed, Queued, SinceLook, TouchedTried, TouchedDeployed, FilesTried, AllAwaited;
      ghost var was := nodes;
      promotion := None;
      var o, numbers := Prepare(resume);
      FilesSame(was, nodes);
      if !o.Done? { r := StoppedBy(o); return; }
      while numbers != {}
        invariant Truthful(nodes, candidate) && Renewed(was, nodes) && ExcludedKept(was, nodes) &&
                  Queued(nodes, numbers)
        invariant TouchedDeployed(was, nodes) && AllAwaited(nodes, numbers)
        invariant Pressed(old(desk), desk) && OneMore(desk) && promotion.None?
        invariant Settled(was) && (!resume ==> Restored(was)) ==> Settled(nodes)
      {
        MinExists(numbers);
        var batch :| batch in numbers && forall m :: m in numbers ==> batch <= m;
        ghost var before, turn := nodes, desk;
        CanStart(nodes, numbers, batch);
        SomeAwaits(nodes, numbers, batch);
        var stop;
        stop, promotion := NextBatch(batch);
        RenewedStill(was, before, nodes);
        ExcludedKeptOnce(was, before, nodes);
        TouchedOnce(was, before, nodes);
        if stop.Some? {
          if promotion.Some? { SinceLookFrom(old(desk), turn, promotion.value); }
          r := stop.value;
          return;
        }
        TouchedComplete(was, before, nodes, batch);
        OthersAwait(before, nodes, numbers, batch);
        Dequeued(before, nodes, numbers, batch);
        numbers := numbers - {batch};
      }
      NobodyQueued(nodes);
      TouchedFiles(was, nodes);
      SamePlanItself(nodes);
      o := Ask();  // reading the rows
      r := if o.Done? then Finished(true) else StoppedBy(o);
    }

    // -------------------------------------------------------------------------------------
    // Rolling back
    // -------------------------------------------------------------------------------------

    /** Uploading the snapshot of a node, and recording that this worked. */
    method RestoreNode(k: nat, sure: bool := false) returns (r: Outcome)
      requires k < |nodes.all| && nodes.all[k].row.status.RollingBack?
      modifies this`desk, this`nodes
      ensures Moved(old(desk), desk) && !r.RecoveryFailed?
      ensures Only(old(nodes), nodes, {k}) && !Tried(nodes.all[k].row.status) && FilesBack(old(nodes), nodes)
      ensures r.Done? ==> AtSnapshot(nodes, k) && nodes.all[k].row.status.RolledBack?
      ensures (reliable || sure) && old(nodes).all[k].snapshot.Some? ==> r.Done?
    {
      r := Failed;
      if nodes.all[k].snapshot.Some? {
        r := Apply(k, nodes.all[k].snapshot.value, sure);
        if r.Done? { r := Mark(k, TargetStatus.RolledBack, sure); }
      }
    }

    /** Restoring one node: r tells how the bookkeeping went, failed how the restoration did. */
    method RollBackNode(k: nat, sure: bool := false) returns (r: Outcome, failed: bool)
      requires k < |nodes.all|
      modifies this`desk, this`nodes
      ensures Moved(old(desk), desk) && !r.RecoveryFailed?
      ensures Only(old(nodes), nodes, {k}) && FilesBack(old(nodes), nodes)
      ensures nodes.all[k] == old(nodes).all[k] || !Tried(nodes.all[k].row.status)
      ensures r.Done? && failed ==> nodes.all[k].row.status.RollbackFailed?
      ensures r.Done? && !failed ==> AtSnapshot(nodes, k) && nodes.all[k].row.status.RolledBack?
      ensures (reliable || sure) && old(nodes).all[k].snapshot.Some? ==> r.Done? && !failed
    {
      failed := true;
      r := Mark(k, TargetStatus.RollingBack, sure);
      if !r.Done? { return; }
      r := RestoreNode(k, sure);
      if r.Killed? { return; }
      failed := r.Failed?;
      if failed { r := Mark(k, TargetStatus.RollbackFailed, sure); }
    }

    /** _rollback_targets: in reverse apply order, going on after a node that fails. */
    method RollBackNodes(ids: set<nat>, sure: bool := false) returns (r: Outcome, failures: set<nat>)
      requires Truthful(nodes, candidate)
      modifies this`desk, this`nodes
      ensures Moved(old(desk), desk) && !r.RecoveryFailed?
      ensures Truthful(nodes, candidate) && Only(old(nodes), nodes, ids) && FilesBack(old(nodes), nodes)
      ensures r.Done? ==> forall i: nat :: i in ids - failures && i < |nodes.all| ==>
                            AtSnapshot(nodes, i) && nodes.all[i].row.status.RolledBack?
      ensures (reliable || sure) && Captured(old(nodes), ids) ==> r.Done? && failures == {}
    {
      hide Truthful, Shape, Only, Captured, Undone;
      ghost var was := nodes;
      failures := {};
      var k: nat := |nodes.all|;
      UndoneNone(nodes, ids);
      r := Ask(sure);  // reading the rows
      while r.Done? && k > 0
        invariant k <= |nodes.all| && Moved(old(desk), desk) && !r.RecoveryFailed?
        invariant Undone(was, nodes, ids, failures, k)
        invariant (reliable || sure) && Captured(was, ids) ==> r.Done? && failures == {}
        decreases r.Done?, k
      {
        var i := k - 1;
        ghost var before, known := nodes, failures;
        if i in ids {
          var failed;
          CapturedAt(was, nodes, ids, failures, i);
          r, failed := RollBackNode(i, sure);
          if failed { failures := failures + {i}; }
        }
        UndoneStep(was, before, nodes, ids, known, failures, i, r.Done?);
        if r.Done? { k := i; }
      }
      if r.Done? { r := Ask(sure); }  // reading the rows
      UndoneFine(was, nodes, ids, failures, k, candidate);
    }

    /** Rolling back the nodes that the failed batch named, or all attempted. */
    method UndoAttempted(named: Option<set<nat>>) returns (r: Outcome, failed: bool)
      requires Truthful(nodes, candidate)
      modifies this`desk, this`nodes
      ensures Moved(old(desk), desk) && !r.RecoveryFailed?
      ensures Truthful(nodes, candidate) && SamePlan(old(nodes), nodes)
      ensures Only(old(nodes), nodes, if named.Some? then named.value else Attempted(old(nodes)))
      ensures FilesBack(old(nodes), nodes)
      ensures var at := if named.Some? then named.value else Attempted(old(nodes));
              r.Done? && !failed && Restorable(old(nodes), at) ==> Restored(nodes)
      ensures var at := if named.Some? then named.value else Attempted(old(nodes));
              (reliable || recovers) && Captured(old(nodes), at) ==> r.Done? && !failed
    {
      hide Truthful, Restored, Restorable, Attempted, Only, SamePlan, Captured, FilesBack;
      ghost var was := nodes;
      failed := true;
      r := Ask(recovers);  // reading the rows
      SamePlanItself(nodes);
      OnlyItself(nodes, if named.Some? then named.value else Attempted(nodes));
      FilesBackItself(nodes);
      if !r.Done? { return; }
      var at := if named.Some? then named.value else Attempted(nodes);
      var failures;
      r, failures := RollBackNodes(at, recovers);
      RollbackRestores(was, nodes, at, failures, r.Done?);
      failed := failures != {};
    }

    /** _rollback_after_failure. */
    method RollBackAfterFailure(named: Option<set<nat>>) returns (r: Outcome, ghost closing: Option<Desk>)
      requires Truthful(nodes, candidate) && OneMore(desk)
      modifies this`desk, this`nodes
      ensures !r.RecoveryFailed? && Accounted(old(desk), desk)
      ensures Truthful(nodes, candidate) && SamePlan(old(nodes), nodes)
      ensures Only(old(nodes), nodes, if named.Some? then named.value else Attempted(old(nodes)))
      ensures FilesBack(old(nodes), nodes)
      ensures r.Done? ==> desk.status.AutoRolledBack? || desk.status.AutoRollbackFailed?
      ensures desk.status.Deployed? ==> old(desk).status.Deployed?
      ensures var at := if named.Some? then named.value else Attempted(old(nodes));
              r.Done? && desk.status.AutoRolledBack? && Restorable(old(nodes), at) ==> Restored(nodes)
      ensures var at := if named.Some? then named.value else Attempted(old(nodes));
              (reliable || recovers) && Captured(old(nodes), at) ==> r.Done? && desk.status.AutoRolledBack?
      ensures desk.dropped == old(desk).dropped + Lost(closing)
      ensures Wrote(old(desk), closing, desk, false) && (closing.Some? ==> !InFlight(desk.status))
    {
      hide Truthful, Restored, Restorable, Attempted, SamePlan, Only, Captured, FilesBack;
      closing := None;
      var failed;
      r, failed := UndoAttempted(named);
      if r.Done? {
        r, closing := SetStatus(if failed then AutoRollbackFailed else AutoRolledBack, false, recovers);
        if r.Done? { r := Note(recovers); }
      }
    }

    /** Rolling out, rolling back after a failure, and the closing status; deploy_change and
        _resume_rollout do this alike after they claimed the change. */
    method Roll(resume: bool)
      returns (r: Report, ghost promotion: Option<Desk>, ghost closing: Option<Desk>, ghost left: Nodes)
      requires InFlight(desk.status) && OneMore(desk) && Truthful(nodes, candidate)
      modifies this`desk, this`nodes
      ensures Truthful(nodes, candidate) && Renewed(old(nodes), nodes)
      ensures Accounted(old(desk), desk) && Closed(r, desk, nodes)
      // The rollout left the nodes as `left`; a rollback touches those of them that it attempted, and no other.
      ensures ExcludedKept(old(nodes), nodes) && FilesTried(old(nodes), left) && Only(left, nodes, Attempted(left))
      ensures Settled(old(nodes)) ==> UndoneOnly(old(nodes), left, nodes)
      ensures Settled(old(nodes)) && (!resume ==> Restored(old(nodes))) && (r.Succeeded? || r.Handled?) ==>
                Calm(desk, nodes)
      ensures reliable ==> r.Succeeded? || old(desk).withdrawn < desk.withdrawn
      // A rollout that failed is rolled back, and if the calls of that succeed, everything is restored.
      ensures recovers && Settled(old(nodes)) && (!resume ==> Restored(old(nodes))) ==>
                match r
                case Handled => desk.status.AutoRolledBack? && Restored(nodes)
                case Broken => AllDeployed(left) || desk.status.Paused? || desk.status.AwaitingPromotion?
                case _ => true
      // A request is dropped if and only if it is pending when a promotion or the closing status is written.
      ensures desk.dropped == old(desk).dropped + Lost(promotion) + Lost(closing)
      ensures Ledger(old(desk)) && old(desk).dropped == 0 ==>
                (AllAnswered(desk) <==> Lost(promotion) == 0 && Lost(closing) == 0)
      ensures promotion.Some? ==> settings.manualPromotion && SinceLook(old(desk), promotion.value)
      ensures promotion.Some? ==> Moved(Overwritten(promotion.value, AwaitingPromotion, false),
                                        if closing.Some? then closing.value else desk)
      ensures closing.Some? ==> desk == Overwritten(closing.value, desk.status, desk.status.Deployed?)
      ensures r.Succeeded? && desk.status.Deployed? ==> promotion.None? && closing.Some?
      ensures r.Succeeded? && !desk.status.Deployed? ==>
                closing.None? && (promotion.None? <==> desk.claimed == old(desk).claimed + 1)
      ensures r.Succeeded? ==> (AllDeployed(nodes) <==> desk.status.Deployed?)
      ensures r.Succeeded? && desk.status.Deployed? ==> !desk.flag
      ensures r.Succeeded? && !old(desk).flag && (desk.status.AwaitingPromotion? ==> Lost(promotion) == 0) ==>
                !desk.flag
    {
      hide Truthful, Settled, Restored, Restorable, Attempted, SamePlan, Renewed, AllDeployed, Calm, Closed, SinceLook,
        RolloutCovered, Reported, FilesTried, Only, ExcludedKept, FilesBack, UndoneOnly;
      ghost var was := nodes;
      var rolled;
      rolled, promotion := RollOut(resume);
      left := nodes;
      if promotion.Some? { SinceLookFlag(old(desk), promotion.value); }
      r, closing := Close(rolled);
      RenewedStill(was, left, nodes);
      AttemptedIncluded(left, nodes, candidate);
      if Settled(was) { UndoneOnlyThose(was, left, nodes, candidate); }
      ExcludedKeptOnce(was, left, nodes);
    }

    /** The rollout, and the new version in the history if it is complete. */
    method RollOut(resume: bool) returns (r: RolloutResult, ghost promotion: Option<Desk>)
      requires InFlight(desk.status) && OneMore(desk) && Truthful(nodes, candidate)
      modifies this`desk, this`nodes
      ensures Truthful(nodes, candidate) && Renewed(old(nodes), nodes) && ExcludedKept(old(nodes), nodes)
      ensures FilesTried(old(nodes), nodes) && (r.RolloutFailed? ==> r.affected <= Attempted(nodes))
      ensures Stopped(old(desk), desk) && Reported(r, desk, nodes)
      ensures Settled(old(nodes)) && (!resume ==> Restored(old(nodes))) ==> RolloutCovered(r, nodes)
      ensures reliable ==> r.Finished? || (r.RolloutRaised? && AskedAgain(old(desk), desk))
      ensures desk.dropped == old(desk).dropped + Lost(promotion)
      ensures promotion.Some? ==> settings.manualPromotion && SinceLook(old(desk), promotion.value)
      ensures promotion.Some? ==> Moved(Overwritten(promotion.value, AwaitingPromotion, false), desk)
      ensures r == Finished(true) ==> promotion.None?
      ensures r == Finished(false) ==> (promotion.None? <==> desk.claimed == old(desk).claimed + 1)
      ensures r == Finished(false) ==> !AllDeployed(nodes)
      ensures r == Finished(false) && promotion.None? ==> !desk.flag && desk.status.Paused?
    {
      hide Truthful, Settled, Restored, Restorable, Attempted, SamePlan, Renewed, AllDeployed, SinceLook;
      r, promotion := DeployRollout(resume);
      if r == Finished(true) {
        var saved := Ask();  // the new version in the history
        if saved.Failed? {
          SamePlanItself(nodes);
          r := RolloutRaised;
        } else if saved.Killed? {
          r := RolloutKilled;
        }
      }
    }

    method Close(rolled: RolloutResult) returns (r: Report, ghost closing: Option<Desk>)
      requires OneMore(desk) && Truthful(nodes, candidate) && Reported(rolled, desk, nodes) && !desk.status.Deployed?
      requires rolled.RolloutFailed? ==> rolled.affected <= Attempted(nodes)
      modifies this`desk, this`nodes
      ensures Only(old(nodes), nodes, Attempted(old(nodes))) && FilesBack(old(nodes), nodes)
      ensures Truthful(nodes, candidate) && SamePlan(old(nodes), nodes)
      ensures Accounted(old(desk), desk) && Closed(r, desk, nodes)
      ensures RolloutCovered(rolled, old(nodes)) && (r.Succeeded? || r.Handled?) ==> Calm(desk, nodes)
      ensures reliable && rolled.Finished? ==> r.Succeeded?
      // What failed is rolled back, and if the calls of that succeed, everything is restored.
      ensures recovers && (rolled.RolloutFailed? || rolled.RolloutRaised?) && RolloutCovered(rolled, old(nodes)) ==>
                r.Handled? && desk.status.AutoRolledBack? && Restored(nodes)
      ensures rolled.Finished? ==>
                !r.Handled? && (AllDeployed(old(nodes)) || desk.status.Paused? || desk.status.AwaitingPromotion?)
      ensures rolled.RolloutKilled? ==> r.Killed?
      ensures desk.dropped == old(desk).dropped + Lost(closing)
      ensures Wrote(old(desk), closing, desk, desk.status.Deployed?) && (closing.Some? ==> rolled != Finished(false))
      ensures r.Succeeded? ==> (rolled == Finished(true) && closing.Some? && desk.status.Deployed?) ||
                               (rolled == Finished(false) && !desk.status.Deployed?)
      ensures r.Succeeded? && rolled == Finished(false) ==> desk.claimed == old(desk).claimed
      ensures rolled == Finished(false) ==> nodes == old(nodes)
      ensures desk.status.Deployed? ==> AllDeployed(nodes)
    {
      hide Truthful, Settled, Restored, Restorable, Attempted, SamePlan, AllDeployed, Only, Captured,
        FilesBack;
      SamePlanItself(nodes);
      AttemptedIdle(nodes);
      FilesBackItself(nodes);
      closing := None;
      ghost var was := nodes;
      var o;
      match rolled {
        case RolloutKilled => r := Report.Killed;
        case Finished(completed) =>
          if completed {
            o, closing := SetStatus(ChangeStatus.Deployed, true);
            if o.Done? { o := Note(); }
          } else {
            o := Ask();  // the output of the nodes
          }
          r := Reports(o, Succeeded);
        case RolloutRaised =>
          CoverCaptured(nodes, Attempted(nodes), candidate);
          o, closing := RollBackAfterFailure(None);
          r := Reports(o, Handled);
        case RolloutFailed(affected) =>
          CoverCaptured(nodes, affected, candidate);
          o, closing := RollBackAfterFailure(Some(affected));
          OnlyMore(was, nodes, affected, Attempted(was));
          r := Reports(o, Handled);
      }
    }

    // -------------------------------------------------------------------------------------
    // Checks before a command claims the change
    // -------------------------------------------------------------------------------------

    /** _ensure_base_unchanged: every included node still holds its snapshot. */
    method CheckBase() returns (r: Outcome)
      requires Truthful(nodes, candidate)
      modifies this`desk, this`nodes
      ensures Moved(old(desk), desk) && !r.RecoveryFailed?
      ensures Truthful(nodes, candidate) && Reconciled(old(nodes), nodes)
      ensures r.Done? ==> Restored(nodes)
      ensures reliable ==> (r.Done? <==> Restored(nodes))
    {
      hide Truthful, Shape, Reconciled;
      r := Load();
      TruthfulShape(nodes, candidate);
      if !r.Done? { return; }
      ghost var loaded := nodes;
      for k := 0 to |nodes.all|
        invariant Moved(old(desk), desk) && r.Done? && nodes == loaded
        invariant forall i: nat :: i < k && Included(nodes, i) ==> AtSnapshot(nodes, i)
      {
        if Included(nodes, k) {
          r := Ask();
          if !r.Done? { return; }
          if nodes.all[k].snapshot != Some(nodes.all[k].file) { return Failed; }
        }
      }
    }

    /** _ensure_rollout_targets, for a rollout whose nodes exist. */
    method Load() returns (r: Outcome)
      requires Truthful(nodes, candidate)
      modifies this`desk, this`nodes
      ensures Moved(old(desk), desk) && !r.RecoveryFailed?
      ensures Truthful(nodes, candidate) && Reconciled(old(nodes), nodes) && Renumbered(old(nodes), nodes)
      ensures reliable ==> r.Done?
    {
      hide Numbered, EffectiveSize, Renumbered, Reconciled, Truthful;
      ghost var was := nodes;
      RenumberedItself(nodes);
      r := Ask();  // the topology is the one of the change
      if r.Done? {
        TruthfulShape(nodes, candidate);
        r := Refresh();
      }
      RenumberedReconciled(was, nodes, candidate);
    }

    /** _reconcile_interrupted_rollout: a node that is not deployed, or not any more, is pending;
        contents that are neither the snapshot nor the candidate are a conflict. */
    method Reconcile() returns (r: Outcome)
      requires Truthful(nodes, candidate)
      modifies this`desk, this`nodes
      ensures Moved(old(desk), desk) && !r.RecoveryFailed?
      ensures Truthful(nodes, candidate) && Reconciled(old(nodes), nodes)
      ensures r.Done? ==> forall i: nat :: i < |nodes.all| && Included(nodes, i) ==> Resolved(nodes.all[i], candidate)
      ensures reliable ==> (r.Done? <==> AllResolvable(old(nodes), candidate))
    {
      hide Truthful, Shape, Reconciled;
      ghost var was := nodes;
      r := Load();
      if !r.Done? { return; }
      ghost var loaded := nodes;
      for k := 0 to |nodes.all|
        invariant Moved(old(desk), desk) && r.Done?
        invariant SomeSet(loaded, nodes, TargetStatus.Pending)
        invariant forall i: nat :: i < |nodes.all| && !Included(loaded, i) ==> nodes.all[i] == loaded.all[i]
        invariant forall i: nat :: i < |nodes.all| && IsDeployed(loaded, i) && nodes.all[i].file == candidate ==>
                  IsDeployed(nodes, i)
        invariant forall i: nat :: i < k && Included(nodes, i) ==> Resolved(nodes.all[i], candidate)
      {
        if Included(nodes, k) {
          r := ReconcileNode(k);
          if !r.Done? { break; }
        }
      }
      if r.Done? { r := Ask(); }  // reading the rows
      RequeuedReconciled(was, loaded, nodes, candidate);
      ResolvableStill(was, nodes, candidate);
    }

    method ReconcileNode(k: nat) returns (r: Outcome)
      requires k < |nodes.all|
      modifies this`desk, this`nodes
      ensures Moved(old(desk), desk) && !r.RecoveryFailed?
      ensures nodes == old(nodes) ||
                nodes == old(nodes).(all := old(nodes).all[k := Status(old(nodes).all[k], TargetStatus.Pending)])
      ensures r.Done? ==> Resolved(nodes.all[k], candidate)
      ensures old(IsDeployed(nodes, k)) && nodes.all[k].file == candidate ==> IsDeployed(nodes, k)
      ensures reliable ==> r.Done? || (r.Failed? && !Resolvable(old(nodes).all[k], candidate))
    {
      r := Ask();  // fetching the file
      if !r.Done? { return; }
      var node := nodes.all[k];
      if node.snapshot.None? { return Failed; }
      if node.file == candidate && IsDeployed(nodes, k) {
        r := Ask();  // checking its health
      } else if node.file == candidate || node.snapshot == Some(node.file) {
        r := Mark(k, TargetStatus.Pending);
      } else {
        r := Failed;
      }
    }

    // -------------------------------------------------------------------------------------
    // Commands
    // -------------------------------------------------------------------------------------

    /** Claiming the change for a command. */
    method Claim(from: set<ChangeStatus>, to: ChangeStatus, clear: bool) returns (r: Report)
      requires OneMore(desk) && !to.PauseRequested?
      modifies this`desk
      ensures Accounted(old(desk), desk) && !r.Handled?
      ensures desk.status == to || (Moved(old(desk), desk) && !r.Succeeded?)
      ensures r.Succeeded? ==> exists d :: Moved(old(desk), d) && d.status in from && desk == Claimed(d, to, clear)
      ensures r.Refused? ==> Moved(old(desk), desk)
      ensures desk.dropped == old(desk).dropped
      ensures reliable ==> r.Succeeded? || (r.Refused? && desk.status !in from)
      ensures reliable && old(desk).status in from && !InFlight(old(desk).status) &&
                !old(desk).status.AwaitingPromotion? ==>
                r.Succeeded?
    {
      var o, conflict := Transition(from, to, clear);
      r := if conflict then Refused else Reports(o, Succeeded);
    }

    /** The closing status of a command. */
    method Conclude(s: ChangeStatus, report: Report) returns (r: Report, ghost closing: Option<Desk>)
      requires OneMore(desk) && !s.PauseRequested?
      modifies this`desk
      ensures Wrote(old(desk), closing, desk, false) && desk.dropped == old(desk).dropped + Lost(closing)
      ensures if closing.Some? then desk.status == s else r.Broken? || r.Killed?
      ensures reliable ==> r == report
      ensures Accounted(old(desk), desk) && (r == report || r.Broken? || r.Killed?)
      ensures r == report && !report.Broken? && !report.Killed? ==> desk.status == s
      ensures desk.status == s || desk.status == old(desk).status || InFlight(desk.status) || desk.status.Paused?
    {
      var o;
      o, closing := SetStatus(s, false);
      r := Reports(o, report);
    }

    /** _ensure_action_ready: for a reload, the services of the nodes are asked for. */
    method ReadyForAction() returns (r: Outcome)
      requires Truthful(nodes, candidate)
      modifies this`desk, this`nodes
      ensures Moved(old(desk), desk) && !r.RecoveryFailed?
      ensures Truthful(nodes, candidate) && Reconciled(old(nodes), nodes)
      ensures AllResolvable(nodes, candidate) <==> AllResolvable(old(nodes), candidate)
      ensures reliable ==> r.Done?
      ensures !settings.reload ==> r.Done? && nodes == old(nodes) && desk == old(desk)
    {
      hide Truthful, Reconciled, AllResolvable, Renumbered;
      ghost var was := nodes;
      ReconciledItself(nodes);
      r := Done;
      if settings.reload {
        r := Load();
        ResolvableStill(was, nodes, candidate);
        if r.Done? { r := Ask(); }  // the services are active
      }
    }

    /** What deploy_change looks at before it claims the change. */
    method CheckDeploy() returns (o: Outcome, resume: bool)
      requires Sound(desk, nodes, candidate)
      modifies this`desk, this`nodes
      ensures Moved(old(desk), desk) && !o.RecoveryFailed?
      ensures Truthful(nodes, candidate) && Renewed(old(nodes), nodes) && (desk.status.Deployed? ==> AllDeployed(nodes))
      ensures ExcludedKept(old(nodes), nodes) && FilesKept(old(nodes), nodes, |old(nodes).all|)
      ensures Reconciled(old(nodes), nodes)
      ensures Settled(old(nodes)) ==> Settled(nodes)
      ensures Restored(old(nodes)) ==> Restored(nodes)
      ensures o.Done? ==> resume == old(desk).status.DeploymentInterrupted?
      ensures o.Done? && !resume ==> Restored(nodes) && Settled(nodes)
      ensures reliable && FreshlyDeployable(old(desk).status) && Restored(old(nodes)) ==>
                o.Done? && desk.status == old(desk).status
      ensures reliable && old(desk).status.DeploymentInterrupted? && AllResolvable(old(nodes), candidate) ==>
                o.Done? && desk.status == old(desk).status
      ensures o.Done? ==>
                old(desk).status in {Ready, AutoRolledBack, AutoRollbackFailed, ChangeStatus.RollbackFailed,
                                     ChangeStatus.DeploymentInterrupted, ScheduleMissed}
    {
      hide ExcludedKept, FilesKept, Truthful, Settled, Restored, Renewed, AllDeployed, Reconciled, AllResolvable;
      ghost var was := nodes;
      ReconciledItself(nodes);
      ReconciledGives(was, nodes);
      o := Ask();
      var status := desk.status;
      resume := status.DeploymentInterrupted?;
      if !o.Done? { return; }
      if !(status.Ready? || status in RETRYABLE) { o := Failed; return; }
      o := CheckNodes(resume);
      ReconciledGives(was, nodes);
      RestoredSettled(nodes);
    }

    /** The nodes and services, before a deployment: nothing was edited, or what was begun can go on. */
    method CheckNodes(resume: bool) returns (o: Outcome)
      requires Truthful(nodes, candidate)
      modifies this`desk, this`nodes
      ensures Moved(old(desk), desk) && !o.RecoveryFailed?
      ensures Truthful(nodes, candidate) && Reconciled(old(nodes), nodes)
      ensures o.Done? && !resume ==> Restored(nodes)
      ensures reliable ==>
                (o.Done? <==> if resume then AllResolvable(old(nodes), candidate) else Restored(old(nodes)))
    {
      hide Truthful, Restored, Reconciled, AllResolvable, Renumbered;
      ghost var was := nodes;
      o := CheckFiles(resume);
      ghost var checked := nodes;
      ReconciledItself(nodes);
      if o.Done? {
        o := ReadyForAction();
        ReconciledGives(checked, nodes);
        ReconciledOnce(was, checked, nodes);
      }
    }

    method CheckFiles(resume: bool) returns (o: Outcome)
      requires Truthful(nodes, candidate)
      modifies this`desk, this`nodes
      ensures Moved(old(desk), desk) && !o.RecoveryFailed?
      ensures Truthful(nodes, candidate) && Reconciled(old(nodes), nodes)
      ensures o.Done? && !resume ==> Restored(nodes)
      ensures reliable ==>
                (o.Done? <==> if resume then AllResolvable(old(nodes), candidate) else Restored(old(nodes)))
    {
      hide Truthful, Restored, Reconciled, AllResolvable, Renumbered, Included;
      ghost var was := nodes;
      o := Load();
      ghost var loaded := nodes;
      if !o.Done? { return; }
      ResolvableStill(was, loaded, candidate);
      if resume { o := Reconcile(); } else { o := CheckBase(); }
      ReconciledOnce(was, loaded, nodes);
      RestoredStill(was, nodes);
    }

    /** deploy_change. */
    method Deploy()
      returns (r: Report, ghost promoted: Option<Desk>, ghost closing: Option<Desk>, ghost left: Nodes)
      requires Sound(desk, nodes, candidate)
      modifies this`desk, this`nodes
      ensures Sound(desk, nodes, candidate) && Renewed(old(nodes), nodes)
      ensures r.Succeeded? ==> desk.status.Deployed? || desk.status.Paused? || desk.status.AwaitingPromotion?
      ensures Calm(old(desk), old(nodes)) && !r.Broken? && !r.Killed? ==> Calm(desk, nodes)
      ensures reliable && FreshlyDeployable(old(desk).status) && Restored(old(nodes)) ==>
                r.Succeeded? || old(desk).withdrawn < desk.withdrawn
      ensures reliable && old(desk).status.DeploymentInterrupted? && AllResolvable(old(nodes), candidate) ==>
                r.Succeeded? || old(desk).withdrawn < desk.withdrawn
      ensures desk.dropped == old(desk).dropped + Lost(promoted) + Lost(closing)
      ensures closing.Some? ==> desk == Overwritten(closing.value, desk.status, desk.status.Deployed?)
      // Nodes that do not take part are left alone, and an automatic rollback touches attempted nodes only.
      ensures ExcludedKept(old(nodes), nodes) && FilesTried(old(nodes), left) && Only(left, nodes, Attempted(left))
      ensures Settled(old(nodes)) ==> UndoneOnly(old(nodes), left, nodes)
      ensures r.Succeeded? && desk.status.Deployed? ==> !desk.flag
    {
      hide UndoneOnly, Reconciled, ExcludedKept, FilesTried, Only, Attempted, FilesKept, Truthful, Settled, Restored,
        Renewed, AllDeployed, SinceLook, Overwritten;
      promoted, closing := None, None;
      ghost var was := nodes;
      var o, resume := CheckDeploy();
      left := nodes;
      LeftItself(was, nodes);
      if !o.Done? { r := Refuses(o); return; }
      r := Claim({Ready} + RETRYABLE, ChangeStatus.Deploying, false);
      if !r.Succeeded? { return; }
      ghost var claimed := nodes;
      r, promoted, closing, left := Roll(resume);
      LeftSince(was, claimed, left);
      if Settled(was) { UndoneOnlySince(was, claimed, left, nodes); }
      ExcludedKeptOnce(was, claimed, nodes);
      RenewedOnce(was, claimed, nodes);
    }

    /** What _resume_rollout looks at before it claims the change. */
    method CheckResume(promotion: bool) returns (o: Outcome, status: ChangeStatus)
      requires Sound(desk, nodes, candidate)
      modifies this`desk, this`nodes
      ensures Moved(old(desk), desk) && !o.RecoveryFailed?
      ensures Truthful(nodes, candidate) && Renewed(old(nodes), nodes) && (desk.status.Deployed? ==> AllDeployed(nodes))
      ensures ExcludedKept(old(nodes), nodes) && FilesKept(old(nodes), nodes, |old(nodes).all|)
      ensures Reconciled(old(nodes), nodes)
      ensures Settled(old(nodes)) ==> Settled(nodes)
      ensures Restored(old(nodes)) ==> Restored(nodes)
      ensures o.Done? ==> status.AwaitingPromotion? || (!promotion && status in RESUMABLE)
      ensures o.Done? ==> status == old(desk).status || (old(desk).status.AwaitingPromotion? && status.Paused?)
      ensures o.Done? && status.Paused? ==> desk.status.Paused?
      ensures reliable && AllResolvable(old(nodes), candidate) ==>
                match old(desk).status
                case Paused => !promotion ==> o.Done?
                case DeploymentInterrupted => !promotion ==> o.Done?
                case AwaitingPromotion => o.Done? || (promotion && desk.status.Paused?)
                case _ => true
      ensures o.Done? ==> old(desk).status in {Paused, AwaitingPromotion, ChangeStatus.DeploymentInterrupted}
    {
      hide ExcludedKept, FilesKept, Truthful, Settled, Restored, Renewed, AllDeployed, Reconciled, AllResolvable;
      ghost var was := nodes;
      ReconciledItself(nodes);
      ReconciledGives(was, nodes);
      o := Ask();
      status := desk.status;
      if !o.Done? { return; }
      if !(status.AwaitingPromotion? || (!promotion && status in RESUMABLE)) { o := Failed; return; }
      o := Reconcile();
      ghost var reconciled := nodes;
      ReconciledItself(nodes);
      if o.Done? { o := ReadyForAction(); }
      ReconciledOnce(was, reconciled, nodes);
      ReconciledGives(was, nodes);
    }

    /** resume_change and promote_change. */
    method Resume(promotion: bool)
      returns (r: Report, ghost promoted: Option<Desk>, ghost closing: Option<Desk>, ghost left: Nodes)
      requires Sound(desk, nodes, candidate)
      modifies this`desk, this`nodes
      ensures Sound(desk, nodes, candidate) && Renewed(old(nodes), nodes)
      ensures r.Succeeded? ==> desk.status.Deployed? || desk.status.Paused? || desk.status.AwaitingPromotion?
      ensures Calm(old(desk), old(nodes)) && !r.Broken? && !r.Killed? ==> Calm(desk, nodes)
      ensures reliable && AllResolvable(old(nodes), candidate) ==>
                match old(desk).status
                case Paused => !promotion ==> r.Succeeded? || old(desk).withdrawn < desk.withdrawn
                case DeploymentInterrupted => !promotion ==> r.Succeeded? || old(desk).withdrawn < desk.withdrawn
                case AwaitingPromotion => r.Succeeded? || old(desk).withdrawn < desk.withdrawn || desk.status.Paused?
                case _ => true
      ensures desk.dropped == old(desk).dropped + Lost(promoted) + Lost(closing)
      ensures closing.Some? ==> desk == Overwritten(closing.value, desk.status, desk.status.Deployed?)
      // Nodes that do not take part are left alone, and an automatic rollback touches attempted nodes only.
      ensures ExcludedKept(old(nodes), nodes) && FilesTried(old(nodes), left) && Only(left, nodes, Attempted(left))
      ensures Settled(old(nodes)) ==> UndoneOnly(old(nodes), left, nodes)
      // The flag of an earlier request is gone; the one of a dropped request stays.
      ensures r.Succeeded? && (desk.status.AwaitingPromotion? ==> Lost(promoted) == 0) ==> !desk.flag
    {
      hide UndoneOnly, Reconciled, ExcludedKept, FilesTried, Only, Attempted, FilesKept, Truthful, Settled, Restored,
        Renewed, AllDeployed, AllResolvable, SinceLook, Overwritten;
      promoted, closing := None, None;
      ghost var was := nodes;
      var o, status := CheckResume(promotion);
      left := nodes;
      LeftItself(was, nodes);
      if !o.Done? { r := Refuses(o); return; }
      r := Claim({status}, ChangeStatus.Deploying, true);
      if !r.Succeeded? { return; }
      ghost var claimed := nodes;
      r, promoted, closing, left := Roll(true);
      LeftSince(was, claimed, left);
      if Settled(was) { UndoneOnlySince(was, claimed, left, nodes); }
      ExcludedKeptOnce(was, claimed, nodes);
      RenewedOnce(was, claimed, nodes);
    }

    /** _target_action_context: the status of the change, then the node's row. */
    method ReadContext() returns (o: Outcome, status: ChangeStatus)
      modifies this`desk
      ensures Moved(old(desk), desk) && !o.RecoveryFailed?
      ensures status.Deployed? <==> old(desk).status.Deployed?
      ensures reliable ==> o.Done?
      ensures o.Done? ==> status in {old(desk).status, Paused, ChangeStatus.Deploying, PauseRequested}
      ensures !InFlight(old(desk).status) && !old(desk).status.AwaitingPromotion? ==> status == old(desk).status
      ensures old(desk).status.AwaitingPromotion? ==> status in {AwaitingPromotion, Paused}
    {
      o := Ask();
      status := desk.status;
      if o.Done? { o := Ask(); }
    }

    /** What retry_target looks at before it claims the change. */
    method CheckRetry(i: nat) returns (o: Outcome, status: ChangeStatus)
      requires Sound(desk, nodes, candidate)
      modifies this`desk, this`nodes
      ensures Moved(old(desk), desk) && !o.RecoveryFailed?
      ensures Sound(desk, nodes, candidate) && FilesKept(old(nodes), nodes, i) && ExcludedKept(old(nodes), nodes)
      ensures o.Done? ==> status in ACTIONABLE && i < |nodes.all| && Included(nodes, i) && !IsDeployed(nodes, i)
      ensures reliable && Retryable(old(desk), old(nodes), i, candidate) ==>
                o.Done? && status == desk.status == old(desk).status
      ensures o.Done? ==>
                status in {Paused, AwaitingPromotion, ChangeStatus.DeploymentInterrupted, AutoRolledBack,
                           AutoRollbackFailed, ChangeStatus.RollbackFailed}
    {
      hide Truthful, AllDeployed, FilesKept, ExcludedKept, AllResolvable, Retryable;
      RetryableMeans(desk, nodes, i, candidate);
      FilesKeptItself(nodes, i);
      ExcludedKeptItself(nodes);
      o, status := ReadContext();
      if !o.Done? { return; }
      if status !in ACTIONABLE || i >= |nodes.all| || nodes.all[i].row.excluded { o := Failed; return; }
      o := ReadyToRetry(i, desk);
    }

    /** Reconciling, and whether the node is still to be deployed; `d` is the row as it was read. */
    method ReadyToRetry(i: nat, ghost d: Desk) returns (o: Outcome)
      requires Truthful(nodes, candidate) && Included(nodes, i)
      modifies this`desk, this`nodes
      ensures Moved(old(desk), desk) && !o.RecoveryFailed?
      ensures Truthful(nodes, candidate) && FilesKept(old(nodes), nodes, i) && ExcludedKept(old(nodes), nodes)
      ensures o.Done? ==> Included(nodes, i) && !IsDeployed(nodes, i)
      ensures reliable && Retryable(d, old(nodes), i, candidate) ==> o.Done?
    {
      hide Truthful, FilesKept, ExcludedKept, Reconciled, AllResolvable, Resolvable, Retryable;
      ghost var was := nodes;
      RetryableMeans(d, nodes, i, candidate);
      o := Reconcile();
      ReconciledFiles(was, nodes, i);
      ReconciledGives(was, nodes);
      if !o.Done? { return; }
      StillToDeploy(d, was, nodes, i, candidate);
      o := Ask();  // reading the node's row again
      if o.Done? && IsDeployed(nodes, i) { o := Failed; }
      if o.Done? { o := Ask(); }  // the service takes a reload
    }

    /** retry_target. */
    method Retry(i: nat) returns (r: Report, ghost closing: Option<Desk>)
      requires Sound(desk, nodes, candidate)
      modifies this`desk, this`nodes
      ensures Sound(desk, nodes, candidate) && FilesKept(old(nodes), nodes, i) && ExcludedKept(old(nodes), nodes)
      ensures r.Succeeded? ==> i < |nodes.all| && IsDeployed(nodes, i)
      ensures r.Succeeded? ==> desk.status.Deployed? || (desk.status.Paused? && !AllDeployed(nodes))
      // A request is dropped if and only if it was made during the retry and is pending when it is closed.
      ensures desk.dropped == old(desk).dropped + Lost(closing)
      ensures closing.Some? ==> InFlight(closing.value.status) && desk == Overwritten(closing.value, desk.status, false)
      ensures closing.Some? ==> desk.status.Deployed? || desk.status.Paused?
      ensures r.Succeeded? || r.Handled? ==> closing.Some?
      ensures Lost(closing) == 1 ==> old(desk).asked < desk.asked
      ensures reliable && Retryable(old(desk), old(nodes), i, candidate) ==> r.Succeeded?
      ensures r.Handled? ==> i < |nodes.all| && nodes.all[i].row.status.DeploymentFailed? && desk.status.Paused?
    {
      hide Truthful, AllDeployed, FilesKept, ExcludedKept, OthersKept;
      closing := None;
      ghost var was := nodes;
      var o, status := CheckRetry(i);
      if !o.Done? { r := Refuses(o); return; }
      r := Claim({status}, ChangeStatus.Deploying, false);
      if !r.Succeeded? { return; }
      ghost var reconciled := nodes;
      r, closing := RetryClaimed(i);
      OthersExcluded(reconciled, nodes, i);
      FilesKeptOnce(was, reconciled, nodes, i);
      ExcludedKeptOnce(was, reconciled, nodes);
    }

    method RetryClaimed(i: nat) returns (r: Report, ghost closing: Option<Desk>)
      requires desk.status.Deploying? && OneMore(desk) && Truthful(nodes, candidate)
      requires i < |nodes.all| && Included(nodes, i) && !IsDeployed(nodes, i)
      modifies this`desk, this`nodes
      ensures Truthful(nodes, candidate) && OthersKept(old(nodes), nodes, i) && i < |nodes.all|
      ensures Accounted(old(desk), desk) && (desk.status.Deployed? ==> AllDeployed(nodes))
      ensures r.Succeeded? ==> IsDeployed(nodes, i)
      ensures r.Succeeded? ==> desk.status.Deployed? || (desk.status.Paused? && !AllDeployed(nodes))
      ensures desk.dropped == old(desk).dropped + Lost(closing) && Wrote(old(desk), closing, desk, false)
      ensures closing.Some? ==> desk.status.Deployed? || desk.status.Paused?
      ensures !r.Refused? && (r.Succeeded? || r.Handled? ==> closing.Some?)
      ensures reliable ==> r.Succeeded?
      ensures r.Handled? ==> nodes.all[i].row.status.DeploymentFailed? && desk.status.Paused?
    {
      hide Truthful, AllDeployed, OthersKept;
      closing := None;
      var o, failed := RetryOnNode(i);
      if !o.Done? { r := Reports(o, Succeeded); return; }
      if failed { r, closing := Conclude(Paused, Handled); } else { r, closing := RetryDone(); }
    }

    method RetryOnNode(i: nat) returns (r: Outcome, failed: bool)
      requires Truthful(nodes, candidate) && i < |nodes.all| && Included(nodes, i) && !IsDeployed(nodes, i)
      modifies this`desk, this`nodes
      ensures Moved(old(desk), desk) && !r.RecoveryFailed?
      ensures Truthful(nodes, candidate) && OthersKept(old(nodes), nodes, i) && i < |nodes.all|
      ensures r.Done? && !failed ==> IsDeployed(nodes, i)
      ensures reliable ==> r.Done? && !failed
      ensures r.Done? && failed ==> nodes.all[i].row.status.DeploymentFailed?
    {
      hide Truthful, Only, OthersKept;
      r := Mark(i, TargetStatus.Deploying);
      MarkedOthers(old(nodes), nodes, i, TargetStatus.Deploying);
      MarkedTruthful(old(nodes), nodes, i, candidate);
      if r.Done? { r := Note(); }
      failed := true;
      if !r.Done? { return; }
      ghost var marked := nodes;
      r, failed := DeployNode(i);
      OthersKeptOnce(old(nodes), marked, nodes, i);
      StillTruthful(marked, nodes, {i}, candidate);
    }

    /** The closing status after one node was deployed. */
    method RetryDone() returns (r: Report, ghost closing: Option<Desk>)
      requires InFlight(desk.status) && OneMore(desk)
      modifies this`desk
      ensures Accounted(old(desk), desk) && (desk.status.Deployed? ==> AllDeployed(nodes)) && !r.Handled? && !r.Refused?
      ensures r.Succeeded? ==> desk.status.Deployed? || (desk.status.Paused? && !AllDeployed(nodes))
      ensures desk.dropped == old(desk).dropped + Lost(closing) && Wrote(old(desk), closing, desk, false)
      ensures closing.Some? ==> desk.status == if AllDeployed(nodes) then ChangeStatus.Deployed else Paused
      ensures reliable ==> r.Succeeded?
      ensures r.Succeeded? ==> closing.Some?
    {
      hide AllDeployed;
      closing := None;
      var o := Ask();  // reading the rows
      if o.Done? && AllDeployed(nodes) { o := Ask(); }  // the new version in the history
      if !o.Done? { r := Reports(o, Succeeded); return; }
      r, closing := Conclude(if AllDeployed(nodes) then ChangeStatus.Deployed else Paused, Succeeded);
    }

    /** rollback_target. */
    method RollbackOne(i: nat) returns (r: Report)
      requires Sound(desk, nodes, candidate)
      modifies this`desk, this`nodes
      ensures Sound(desk, nodes, candidate) && Only(old(nodes), nodes, {i}) && FilesBack(old(nodes), nodes)
      ensures r.Succeeded? ==> i < |nodes.all| && AtSnapshot(nodes, i) && nodes.all[i].row.status.RolledBack?
      ensures r.Succeeded? ==> desk.status == if AnyDeployed(nodes) then Paused else ChangeStatus.RolledBack
      ensures desk.dropped == old(desk).dropped
      ensures reliable && Undoable(old(desk), old(nodes), i) ==> r.Succeeded?
      ensures r.Handled? ==>
                i < |nodes.all| && nodes.all[i].row.status.RollbackFailed? && desk.status == ChangeStatus.RollbackFailed
    {
      hide Truthful, AllDeployed, AnyDeployed;
      var o, status := ReadContext();
      if !o.Done? || !(status in ACTIONABLE || status.Deployed?) || i >= |nodes.all| { return Refuses(o); }
      var row := nodes.all[i].row;
      if row.excluded || row.status !in {TargetStatus.Deployed, DeploymentFailed, TargetStatus.DeploymentInterrupted,
          TargetStatus.RollbackFailed} {
        return Refused;
      }
      r := Claim({status}, ChangeStatus.RollingBack, false);
      if !r.Succeeded? { return; }
      r := RollBackClaimed(i);
    }

    method RollBackClaimed(i: nat) returns (r: Report)
      requires desk.status.RollingBack? && OneMore(desk) && Truthful(nodes, candidate) && i < |nodes.all|
      modifies this`desk, this`nodes
      ensures Truthful(nodes, candidate) && Only(old(nodes), nodes, {i}) && FilesBack(old(nodes), nodes)
      ensures Accounted(old(desk), desk) && !desk.status.Deployed? && desk.dropped == old(desk).dropped
      ensures r.Succeeded? ==> AtSnapshot(nodes, i) && nodes.all[i].row.status.RolledBack?
                               && desk.status == if AnyDeployed(nodes) then Paused else ChangeStatus.RolledBack
      ensures reliable && old(nodes).all[i].snapshot.Some? ==> r.Succeeded?
      ensures r.Handled? ==> nodes.all[i].row.status.RollbackFailed? && desk.status == ChangeStatus.RollbackFailed
    {
      hide Truthful, AnyDeployed;
      var o, failed := RollBackNode(i);
      UndeployedTruthful(old(nodes), nodes, {i}, candidate);
      if !o.Done? { return Reports(o, Succeeded); }
      ghost var closing;
      if failed { r, closing := Conclude(ChangeStatus.RollbackFailed, Handled); return; }
      o := Ask();  // reading the rows
      if !o.Done? { return Reports(o, Succeeded); }
      if i == |nodes.all| - 1 {
        o := Ask();  // the restored version in the history
        if !o.Done? { return Reports(o, Succeeded); }
      }
      r, closing := Conclude(if AnyDeployed(nodes) then Paused else ChangeStatus.RolledBack, Succeeded);
    }

    /** exclude_target. */
    method Exclude(i: nat) returns (r: Report)
      requires Sound(desk, nodes, candidate)
      modifies this`desk, this`nodes
      ensures Sound(desk, nodes, candidate) && FilesKept(old(nodes), nodes, |old(nodes).all|)
      ensures Moved(old(desk), desk)
      ensures r.Succeeded? ==> i < |nodes.all| && !Included(nodes, i) && Replanned(nodes, settings)
      ensures reliable && Editable(old(desk)) && Excludable(old(nodes), i) ==> r.Succeeded?
      ensures r.Succeeded? ==> SelectedOnly(old(nodes), nodes, i, false)
    {
      hide Truthful, Replanned, FilesKept, SelectedOnly;
      FilesKeptItself(nodes, |nodes.all|);
      var o, status := ReadContext();
      if !o.Done? || !(status in ACTIONABLE || status.Draft? || status.ValidationFailed?) { return Refuses(o); }
      if i >= |nodes.all| { return Refuses(o); }
      var row := nodes.all[i].row;
      if !row.role.Slave? || row.status in {TargetStatus.Deployed, TargetStatus.Deploying, TargetStatus.RollingBack} {
        return Refused;
      }
      r := Select(i, false);
    }

    /** Writing that a node is taken out of the plan or put into it, and renumbering. */
    method Select(i: nat, chosen: bool) returns (r: Report)
      requires Truthful(nodes, candidate) && i < |nodes.all|
      requires if chosen then nodes.all[i].row.excluded && nodes.all[i].snapshot.Some? else nodes.all[i].row.role.Slave?
      modifies this`desk, this`nodes
      ensures Truthful(nodes, candidate) && Moved(old(desk), desk) && FilesKept(old(nodes), nodes, |old(nodes).all|)
      ensures r.Succeeded? ==> i < |nodes.all| && Replanned(nodes, settings)
      ensures r.Succeeded? ==> (Included(nodes, i) <==> chosen) && (chosen ==> nodes.all[i].snapshot.Some?)
      ensures reliable ==> r.Succeeded?
      ensures r.Succeeded? ==> SelectedOnly(old(nodes), nodes, i, chosen)
    {
      hide Truthful, Shape, Replanned, Renumbered, FilesKept, Moved, Reconciled, SelectedOnly;
      ghost var was := nodes;
      FilesKeptItself(nodes, |nodes.all|);
      var o, effect := Call();
      if effect { nodes := if chosen then Including(nodes, i) else Excluding(nodes, i); }
      SelectedFine(was, nodes, i, candidate);
      if !o.Done? { return Reports(o, Succeeded); }
      ghost var selected, between := nodes, desk;
      TruthfulShape(nodes, candidate);
      o := Refresh();
      RenumberedReconciled(selected, nodes, candidate);
      ReconciledFiles(selected, nodes, |was.all|);
      FilesKeptOnce(was, selected, nodes, |was.all|);
      RenumberedAt(selected, nodes, i);
      if o.Done? { SelectedOnlyIs(was, selected, nodes, i, chosen); }
      MovedOnce(old(desk), between, desk);
      between := desk;
      MovedItself(desk);
      if o.Done? { o := Ask(); }  // reading the change
      MovedOnce(old(desk), between, desk);
      r := Reports(o, Succeeded);
    }

    /** include_target. */
    method Include(i: nat) returns (r: Report)
      requires Sound(desk, nodes, candidate)
      modifies this`desk, this`nodes
      ensures Sound(desk, nodes, candidate) && FilesKept(old(nodes), nodes, |old(nodes).all|)
      ensures Moved(old(desk), desk)
      ensures r.Succeeded? ==> i < |nodes.all| && Included(nodes, i) && nodes.all[i].snapshot.Some?
      ensures r.Succeeded? ==> Replanned(nodes, settings)
      ensures reliable && Editable(old(desk)) && i < |old(nodes).all| && old(nodes).all[i].row.excluded ==> r.Succeeded?
      ensures r.Succeeded? ==> i < |old(nodes).all| && SelectedOnly(WithSnapshot(old(nodes), i), nodes, i, true)
    {
      hide Truthful, Replanned, FilesKept, SelectedOnly, AllDeployed;
      FilesKeptItself(nodes, |nodes.all|);
      var o, status := ReadContext();
      if !o.Done? || !(status in ACTIONABLE || status.Draft? || status.ValidationFailed?) { return Refuses(o); }
      if i >= |nodes.all| || !nodes.all[i].row.excluded { return Refuses(o); }
      r := TakeIn(i);
    }

    /** Capturing, validating and adding a node. */
    method TakeIn(i: nat) returns (r: Report)
      requires Truthful(nodes, candidate) && i < |nodes.all| && nodes.all[i].row.excluded
      modifies this`desk, this`nodes
      ensures Truthful(nodes, candidate) && Moved(old(desk), desk) && FilesKept(old(nodes), nodes, |old(nodes).all|)
      ensures r.Succeeded? ==> i < |nodes.all| && Included(nodes, i) && nodes.all[i].snapshot.Some?
      ensures r.Succeeded? ==> Replanned(nodes, settings) && SelectedOnly(WithSnapshot(old(nodes), i), nodes, i, true)
      ensures reliable ==> r.Succeeded?
    {
      hide Truthful, Replanned, FilesKept, SelectedOnly;
      ghost var was := nodes;
      var o := Capture(i);
      if o.Done? { o := Ask(); }  // the candidate is valid on this node
      if !o.Done? { return Refuses(o); }
      ghost var captured := nodes;
      r := Select(i, true);
      FilesKeptOnce(was, captured, nodes, |was.all|);
    }

    /** Fetching the snapshot of a node that has none. */
    method Capture(i: nat) returns (r: Outcome)
      requires Truthful(nodes, candidate) && i < |nodes.all|
      modifies this`desk, this`nodes
      ensures Moved(old(desk), desk) && !r.RecoveryFailed?
      ensures Truthful(nodes, candidate) && FilesKept(old(nodes), nodes, |old(nodes).all|)
      ensures |nodes.all| == |old(nodes).all| && nodes.all[i].row == old(nodes).all[i].row
      ensures forall k: nat :: k < |nodes.all| ==> nodes.all[k].row == old(nodes).all[k].row
      ensures r.Done? ==> nodes.all[i].snapshot.Some?
      ensures reliable ==> r.Done?
      ensures r.Done? ==> nodes == WithSnapshot(old(nodes), i)
    {
      ghost var was := nodes;
      r := Done;
      if nodes.all[i].snapshot.None? {
        var effect;
        r, effect := Call();
        if effect { nodes := Capturing(nodes, i); }
      }
      SelectedFine(was, nodes, i, candidate);
    }

    /** rollback_change. */
    method RollbackAll() returns (r: Report)
      requires Sound(desk, nodes, candidate)
      modifies this`desk, this`nodes
      ensures Sound(desk, nodes, candidate) && Renewed(old(nodes), nodes)
      ensures r.Succeeded? ==> desk.status.RolledBack?
      ensures r.Succeeded? && old(desk).status.Deployed? ==> forall i :: 0 <= i < |nodes.all| ==> AtSnapshot(nodes, i)
      ensures r.Succeeded? && Restorable(old(nodes), Changed(old(nodes))) ==> Restored(nodes)
      ensures desk.dropped == old(desk).dropped
      ensures reliable && AllUndoable(old(desk), old(nodes)) ==> r.Succeeded?
      ensures r.Handled? ==> desk.status == ChangeStatus.RollbackFailed
      ensures r.Succeeded? ==>
                forall i: nat :: i < |nodes.all| && Included(old(nodes), i) && Disturbed(old(nodes).all[i]) ==>
                  AtSnapshot(nodes, i)
      ensures Withdrawn(old(nodes), nodes, old(desk).status.Deployed?)
    {
      hide Truthful, Shape, Restored, Restorable, Renewed, AllDeployed, Changed, Everyone, Only, Renumbered, Reconciled,
        Captured, AllUndoable, Withdrawn, FilesBack;
      ghost var was := nodes;
      RenewedItself(nodes);
      RenumberedItself(nodes);
      WithdrawnItself(was, nodes, old(desk).status.Deployed?);
      UndoableStatus(desk, nodes);
      var o := Ask();
      if !o.Done? { return Refuses(o); }
      var previous := desk.status;
      TruthfulShape(nodes, candidate);
      o := Load();
      LoadedFine(was, nodes);
      WithdrawnItself(was, nodes, old(desk).status.Deployed?);
      if !o.Done? { return Refuses(o); }
      var ids := if previous.Deployed? then Everyone(nodes) else Changed(nodes);
      TruthfulShape(nodes, candidate);
      SomethingToUndo(old(desk), was, nodes, ids, previous.Deployed?);
      if ids == {} { return Refused; }
      r := Claim({ChangeStatus.Deployed, ChangeStatus.RollbackFailed, AutoRollbackFailed,
          ChangeStatus.DeploymentInterrupted, Paused, AwaitingPromotion},
                 ChangeStatus.RollingBack, false);
      if !r.Succeeded? { return; }
      ghost var loaded := nodes;
      r := RollAllBack(ids, previous.Deployed? || |nodes.all| - 1 in ids);
      EverythingRestored(was, loaded, nodes, ids, previous.Deployed?, r.Succeeded?);
      WithdrawnThose(was, loaded, nodes, ids, previous.Deployed?);
      if r.Succeeded? { ChangedRestored(was, loaded, nodes, ids, previous.Deployed?); }
    }

    method RollAllBack(ids: set<nat>, primary: bool) returns (r: Report)
      requires desk.status.RollingBack? && OneMore(desk) && Truthful(nodes, candidate)
      modifies this`desk, this`nodes
      ensures Truthful(nodes, candidate) && Only(old(nodes), nodes, ids) && FilesBack(old(nodes), nodes)
      ensures Accounted(old(desk), desk) && !desk.status.Deployed? && !r.Refused? && desk.dropped == old(desk).dropped
      ensures r.Succeeded? ==> desk.status.RolledBack? && forall i: nat :: i in ids && i < |nodes.all| ==>
                AtSnapshot(nodes, i)
      ensures reliable && Captured(old(nodes), ids) ==> r.Succeeded?
      ensures r.Handled? ==> desk.status == ChangeStatus.RollbackFailed
    {
      hide Truthful, Only, FilesBack;
      ghost var closing;
      var o, failures := RollBackNodes(ids);
      if o.Done? && failures == {} && primary {
        o := Ask();  // the restored version in the history
      }
      if o.Killed? { return Report.Killed; }
      if o.Failed? || failures != {} {
        o := Ask();  // reading the rows
        if !o.Done? { return Reports(o, Handled); }
        r, closing := Conclude(ChangeStatus.RollbackFailed, Handled);
      } else {
        r, closing := Conclude(ChangeStatus.RolledBack, Succeeded);
      }
    }

    /** recover_change: after a worker died, its operation is marked interrupted; no file is touched. */
    method Recover() returns (r: Report)
      requires Sound(desk, nodes, candidate)
      modifies this`desk, this`nodes
      ensures Sound(desk, nodes, candidate) && Renewed(old(nodes), nodes) && FilesKept(old(nodes), nodes, |nodes.all|)
      ensures r.Succeeded? ==> desk.status == match old(desk).status
                                              case RollingBack => ChangeStatus.RollbackFailed
                                              case _ => if desk.claimed > old(desk).claimed then Paused
                                                        else ChangeStatus.DeploymentInterrupted
      ensures desk.dropped == old(desk).dropped
      ensures reliable && (InFlight(old(desk).status) || old(desk).status.RollingBack?) ==>
                r.Succeeded? || old(desk).asked < desk.asked || old(desk).withdrawn < desk.withdrawn
      ensures var active := if old(desk).status.RollingBack? then TargetStatus.RollingBack else TargetStatus.Deploying;
              r.Succeeded? ==> NoneIs(nodes, active, |nodes.all|)
    {
      hide Truthful, Renewed, FilesKept, AllDeployed, NoneIs, SamePlan;
      ghost var was := nodes;
      RenewedItself(nodes);
      FilesKeptItself(nodes, |nodes.all|);
      var o := Ask();
      var status := desk.status;
      if !o.Done? || !(InFlight(status) || status.RollingBack?) { return Refuses(o); }
      var active, after := TargetStatus.Deploying, TargetStatus.DeploymentInterrupted;
      if status.RollingBack? { active, after := TargetStatus.RollingBack, TargetStatus.RollbackFailed; }
      o := Release(active, after);
      SamePlanRenewed(was, nodes);
      if !o.Done? { return Reports(o, Succeeded); }
      var to := if status.RollingBack? then ChangeStatus.RollbackFailed
                else if status.PauseRequested? then Paused else ChangeStatus.DeploymentInterrupted;
      r := Claim({status}, to, true);
    }

    method Release(active: TargetStatus, after: TargetStatus) returns (r: Outcome)
      requires Truthful(nodes, candidate) && !Tried(after) && active != after
      modifies this`desk, this`nodes
      ensures Moved(old(desk), desk) && !r.RecoveryFailed?
      ensures Truthful(nodes, candidate) && SamePlan(old(nodes), nodes) && FilesKept(old(nodes), nodes, |nodes.all|)
      ensures r.Done? ==> NoneIs(nodes, active, |nodes.all|)
      ensures reliable ==> r.Done?
    {
      hide Truthful, SamePlan, FilesKept, SomeSet, NoneIs, Marked;
      ghost var was := nodes;
      var k := 0;
      SomeSetNone(was, after, active);
      r := Ask();  // reading the rows
      while r.Done? && k < |nodes.all|
        invariant k <= |nodes.all| && Moved(old(desk), desk) && !r.RecoveryFailed?
        invariant SomeSet(was, nodes, after) && (r.Done? ==> NoneIs(nodes, active, k))
        invariant reliable ==> r.Done?
        decreases r.Done?, |nodes.all| - k
      {
        ghost var before := nodes;
        if nodes.all[k].row.status == active {
          r := Mark(k, after);
        }
        SomeSetStep(was, before, nodes, k, active, after, r.Done?);
        if r.Done? { k := k + 1; }
      }
      SomeSetFine(was, nodes, after, candidate);
    }

    // -------------------------------------------------------------------------------------
    // Runs
    // -------------------------------------------------------------------------------------

    /** `written` are the rows that a rollout or a retry wrote a status over without looking. */
    method Perform(c: Command) returns (r: Report, ghost written: seq<Desk>)
      requires Sound(desk, nodes, candidate)
      modifies this`desk, this`nodes
      ensures Sound(desk, nodes, candidate)
      ensures c.Rolls() && Calm(old(desk), old(nodes)) && !r.Broken? && !r.Killed? ==> Calm(desk, nodes)
      ensures c.Rolls() ==> ExcludedKept(old(nodes), nodes)
      ensures desk.dropped == old(desk).dropped + AllLost(written)
      ensures c.Writes() || written == []
    {
      hide Truthful, Settled, Restored, AllDeployed, Renewed, Overwritten, ExcludedKept, FilesTried, Only, Attempted;
      written := [];
      ghost var promoted, closing: Option<Desk> := None, None;
      ghost var left := nodes;
      ExcludedKeptItself(nodes);
      match c {
        case Deploy => r, promoted, closing, left := Deploy();
        case Resume => r, promoted, closing, left := Resume(false);
        case Promote => r, promoted, closing, left := Resume(true);
        case User =>
          var o := Ask();
          r := Reports(o, Succeeded);
        case RetryNode(i) => r, closing := Retry(i);
        case RollbackNode(i) => r := RollbackOne(i);
        case ExcludeNode(i) => r := Exclude(i);
        case IncludeNode(i) => r := Include(i);
        case Rollback => r := RollbackAll();
        case Recover => r := Recover();
      }
      written := RowOf(promoted) + RowOf(closing);
      RowsLost(promoted, closing);
    }

    /** Over all runs of all commands, crashes and recoveries included: a node marked deployed holds
        the candidate, a change marked deployed has every included node deployed, every accepted
        pause request has one fate, and at most one batch starts while one is pending. Every request
        is claimed, withdrawn or pending if and only if none was pending in a row that a rollout or a
        retry wrote a status over; the other commands drop none. */
    method Run(commands: seq<Command>) returns (ghost written: seq<Desk>)
      requires Sound(desk, nodes, candidate)
      modifies this`desk, this`nodes
      ensures Sound(desk, nodes, candidate)
      ensures desk.dropped == old(desk).dropped + AllLost(written)
      ensures old(desk).dropped == 0 ==>
                (AllAnswered(desk) <==> forall d :: d in written ==> !d.status.PauseRequested?)
      ensures (forall k :: 0 <= k < |commands| ==> !commands[k].Writes()) ==> written == []
    {
      hide Sound, AllLost;
      written := [];
      NoneLost(written);
      for k := 0 to |commands|
        invariant Sound(desk, nodes, candidate)
        invariant desk.dropped == old(desk).dropped + AllLost(written)
        invariant (forall i :: 0 <= i < k ==> !commands[i].Writes()) ==> written == []
      {
        var r;
        ghost var more;
        r, more := Perform(commands[k]);
        AllLostJoined(written, more);
        written := written + more;
      }
      Answered(desk, nodes, candidate);
      NoneLost(written);
    }

    /** Over all runs of rollouts, pauses and promotions that nothing interrupts: a change that was
        rolled back automatically left every included node with its snapshot. */
    method CalmRun(commands: seq<Command>) returns (interrupted: bool)
      requires Sound(desk, nodes, candidate) && Calm(desk, nodes)
      requires forall k :: 0 <= k < |commands| ==> commands[k].Rolls()
      modifies this`desk, this`nodes
      ensures !interrupted && desk.status.AutoRolledBack? ==> Restored(nodes)
      ensures !interrupted && desk.status.Deployed? ==>
                forall i :: 0 <= i < |nodes.all| && Included(nodes, i) ==> nodes.all[i].file == candidate
      ensures ExcludedKept(old(nodes), nodes)
    {
      ghost var was := nodes;
      ExcludedKeptItself(nodes);
      for k := 0 to |commands|
        invariant Sound(desk, nodes, candidate) && Calm(desk, nodes) && ExcludedKept(was, nodes)
      {
        hide *;
        ghost var before := nodes;
        var r, _ := Perform(commands[k]);
        ExcludedKeptOnce(was, before, nodes);
        if r == Broken || r == Report.Killed { return true; }
      }
      interrupted := false;
    }
  }

  datatype Command =
    | Deploy | Resume | Promote | User | RetryNode(i: nat) | RollbackNode(i: nat) | ExcludeNode(i: nat)
    | IncludeNode(i: nat) | Rollback | Recover
  {
    /** The commands that neither recover nor touch single nodes. */
    predicate Rolls() {
      Deploy? || Resume? || Promote? || User?
    }

    /** The commands that write a status without looking at a pause request. */
    predicate Writes() {
      Deploy? || Resume? || Promote? || RetryNode?
    }
  }

  // ---------------------------------------------------------------------------------------
  // The fate of a pause request
  // ---------------------------------------------------------------------------------------

  /** A request made after the worker's last look at the status and before it writes that the rollout
      awaits promotion is dropped: `at` is a row that AfterBatch can return, nobody claims the request,
      and its flag stays set. */
  lemma PauseDropped(a: Desk, look: Desk)
    requires look.status.Deploying? && Pressed(a, look) && Ledger(look) && look.dropped == 0
    ensures var at := Ui(look, [Pause]);
            && SinceLook(a, at) && Lost(Some(at)) == 1
            && var end := Overwritten(at, AwaitingPromotion, false);
               !AllAnswered(end) && end.claimed == look.claimed && end.withdrawn == look.withdrawn && end.flag
  {
    assert Ui(look, [Pause]) == Ui(Press(look, Pause), []);
    UiMoves(look, [Pause]);
  }

  /** So is one made while a single node is deployed again: `at` is a row that RetryClaimed can return
      after it claimed the change. */
  lemma PauseDroppedByRetry(claimed: Desk, end: ChangeStatus)
    requires claimed.status.Deploying? && Ledger(claimed) && claimed.dropped == 0
    requires end in {ChangeStatus.Deployed, Paused}
    ensures var at := Ui(claimed, [Pause]);
            var closed := Overwritten(at, end, false);
            && Wrote(claimed, Some(at), closed, false) && Lost(Some(at)) == 1
            && !AllAnswered(closed) && closed.claimed == claimed.claimed && closed.withdrawn == claimed.withdrawn
  {
    assert Ui(claimed, [Pause]) == Ui(Press(claimed, Pause), []);
    UiMoves(claimed, [Pause]);
  }

  /** A request made after the look and before the batch starts lets exactly one batch start: `at` is a
      row that TryBatch can return as the one at which its batch began. */
  lemma OneBatchStarts(a: Desk, look: Desk)
    requires look.status.Deploying? && Pressed(a, look)
    ensures var at := Ui(look, [Pause]);
            SinceLook(a, at) && at.status.PauseRequested? && at.since == 0 && BatchStarted(at).since == 1
  {
    assert Ui(look, [Pause]) == Ui(Press(look, Pause), []);
    UiMoves(look, [Pause]);
  }

  /** A pause withdrawn before the worker claims it and requested again before it looks makes the
      claim fail with neither a pause nor a withdrawal to be seen, which rolls everything back. */
  lemma PauseAskedAgain(d: Desk)
    requires d.status.PauseRequested?
    ensures var between := Ui(d, [UiMove.Resume]);
            && between.status !in {PauseRequested}
            && var seen := Ui(between, [Pause]);
               !seen.status.Paused? && !(seen.status.Deploying? && !seen.flag) && AskedAgain(d, seen)
  {
    var between := Ui(d, [UiMove.Resume]);
    assert between == Ui(Press(d, UiMove.Resume), []);
    assert Ui(between, [Pause]) == Ui(Press(between, Pause), []);
  }
}
