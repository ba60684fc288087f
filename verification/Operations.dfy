/** Durable commands of one change (app/modules/change/operations.py).

    Tasks are queued, delivered any number of times to any number of workers, and executed under
    the process lock of the change. A method is one atomic step; steps of the workers, the user and
    the queue interleave freely, and a worker can die between any two of its steps.

    The REST API (app/api/routes/change_routes.py) calls the handlers without task, lock or idle
    check. `Core` is what holds all the same; `Inv`, what holds if every event is harmless, which it
    is if every command is enqueued and handlers return at rest. */
module Operations {
  import opened Outcomes

  datatype Status =
    | Draft | ValidationFailed | Validating | PendingApproval | Approved | Validated | Scheduled | ScheduleMissed
    | Deploying | PauseRequested | Paused | AwaitingPromotion | Deployed | DeploymentInterrupted
    | AutoRolledBack | AutoRollbackFailed | RollingBack | RolledBack | RollbackFailed | Cancelled

  predicate InProgress(s: Status) {
    s.Validating? || s.Deploying? || s.PauseRequested? || s.RollingBack?
  }

  datatype Action =
    | Validate | Deploy | Rollback | Resume | Promote | Drift | RetryNode | RollbackNode | IncludeNode

  /** _check_action, but for the state of the single node that an action may name. */
  predicate Allowed(a: Action, s: Status, requiresApproval: bool) {
    match a
    case Validate => s.Draft? || s.ValidationFailed?
    case Deploy =>
      || s == (if requiresApproval then Approved else Validated)
      || s in {AutoRolledBack, AutoRollbackFailed, RollbackFailed, DeploymentInterrupted, ScheduleMissed}
    case Rollback => s in {Deployed, RollbackFailed, AutoRollbackFailed, DeploymentInterrupted, Paused,
        AwaitingPromotion}
    case Resume => s in {Paused, AwaitingPromotion, DeploymentInterrupted}
    case Promote => s.AwaitingPromotion?
    case Drift => s.Deployed?
    case RetryNode => OnNodes(s)
    case RollbackNode => OnNodes(s) || s.Deployed?
    case IncludeNode => OnNodes(s) || s.Draft? || s.ValidationFailed?
  }

  predicate OnNodes(s: Status) {
    s in {Paused, AwaitingPromotion, DeploymentInterrupted, AutoRolledBack, AutoRollbackFailed, RollbackFailed}
  }

  /** Where recover_change leaves an operation that was in progress. */
  function Recovered(s: Status): (r: Status)
    ensures !InProgress(r)
  {
    match s
    case Validating => ValidationFailed
    case Deploying => DeploymentInterrupted
    case PauseRequested => Paused
    case RollingBack => RollbackFailed
    case _ => s
  }

  /** Whatever was interrupted can be taken up again, and is not taken for done. */
  lemma TakenUpAgain(requiresApproval: bool)
    ensures forall s :: InProgress(s) ==> Recovered(s) !in {Validated, Approved, Deployed, RolledBack}
    ensures Allowed(Validate, Recovered(Validating), requiresApproval)
    ensures forall a :: a in {Deploy, Resume, Rollback} ==> Allowed(a, Recovered(Deploying), requiresApproval)
    ensures forall a :: a in {Resume, Rollback} ==> Allowed(a, Recovered(PauseRequested), requiresApproval)
    ensures Allowed(Rollback, Recovered(RollingBack), requiresApproval)
  {
  }

  /** Nothing is deployed before it was validated and, if that is asked for, approved, nor while it is
      deployed or stands in the middle of a rollout. */
  lemma DeployedFrom(s: Status, requiresApproval: bool)
    requires Allowed(Deploy, s, requiresApproval)
    ensures s !in {Draft, ValidationFailed, Validating, PendingApproval, Scheduled, Cancelled} && !InProgress(s)
    ensures requiresApproval ==> !s.Validated?
    ensures s !in {Deployed, Paused, AwaitingPromotion}
  {
  }

  /** What a change offers while it is deployed, or stands in the middle of a rollout, and that every
      change at rest, but for one that waits for a person or is over, offers something. */
  lemma Offers(a: Action, s: Status, requiresApproval: bool)
    ensures Allowed(a, Deployed, requiresApproval) <==> a in {Rollback, Drift, RollbackNode}
    ensures Allowed(a, Paused, requiresApproval) <==> a in {Rollback, Resume, RetryNode, RollbackNode, IncludeNode}
    ensures Allowed(a, AwaitingPromotion, requiresApproval) <==>
              a in {Rollback, Resume, Promote, RetryNode, RollbackNode, IncludeNode}
    ensures InProgress(s) ==> !Allowed(a, s, requiresApproval)
    ensures !InProgress(s) && s !in {PendingApproval, Approved, Validated, Scheduled, Cancelled, RolledBack} ==>
              exists b :: Allowed(b, s, requiresApproval)
  {
    assert Allowed(Validate, s, requiresApproval) || Allowed(Deploy, s, requiresApproval) ||
           Allowed(Rollback, s, requiresApproval) || s !in {Draft, ValidationFailed, AutoRolledBack, AutoRollbackFailed,
                                                            RollbackFailed, DeploymentInterrupted, ScheduleMissed,
                                                            Deployed, Paused, AwaitingPromotion};
  }

  datatype TaskStatus = Created | Published | Running | Completed | Failed
  {
    predicate Open() {
      !Completed? && !Failed?
    }
  }

  /** `launches` counts how often its handler was started. */
  datatype Task = Task(status: TaskStatus, action: Action, started: bool, launches: nat)
  {
    predicate Finished() {
      status.Completed? || status.Failed?
    }
  }

  /** Where a worker is in `execute`. From Locked on, it holds the lock. An exception that meets a
      worker in Interrupting or Recovering is final if `last`; before, it is handled once more. */
  datatype Place =
    | Idle | Reading(t: nat) | Waiting(t: nat)
    | Locked(t: nat) | Checked(t: nat) | Marked(t: nat) | Handling(t: nat)
    | Interrupting(t: nat, last: bool) | Recovering(t: nat, seen: Status, last: bool)
    | Finishing(t: nat, result: TaskStatus)
  {
    predicate InSection() {
      !Idle? && !Reading? && !Waiting?
    }

    predicate Knows(n: nat) {
      Idle? || t < n
    }
  }

  datatype State = State(status: Status, active: Option<nat>, tasks: seq<Task>, places: seq<Place>, lock: Option<nat>)

  // ---------------------------------------------------------------------------------------
  // The invariant
  // ---------------------------------------------------------------------------------------

  /** The unfinished task is the active one; its handler starts once, after the marker. */
  predicate TasksFit(s: State) {
    && (s.active.Some? ==> s.active.value < |s.tasks|)
    && forall t :: 0 <= t < |s.tasks| ==>
         && (s.active == Some(t) <==> !s.tasks[t].Finished())
         && s.tasks[t].launches <= (if s.tasks[t].started then 1 else 0)
  }

  predicate ProgressOwned(s: State) {
    InProgress(s.status) ==> s.active.Some? && s.active.value < |s.tasks| && s.tasks[s.active.value].started
  }

  /** Exactly the holder of the lock is in the critical section. */
  predicate LockFits(s: State) {
    && (forall w :: 0 <= w < |s.places| ==>
         s.places[w].Knows(|s.tasks|) && (s.places[w].InSection() <==> s.lock == Some(w)))
    && (s.lock.Some? ==> s.lock.value < |s.places|)
  }

  predicate HolderFits(s: State, p: Place) {
    match p
    case Checked(t) => s.active == Some(t)
    case Marked(t) => s.active == Some(t) && t < |s.tasks| && s.tasks[t].started && s.tasks[t].launches == 0
    case Handling(t) => s.active == Some(t) && t < |s.tasks| && s.tasks[t].launches == 1
    case Interrupting(t, _) => s.active == Some(t)
    case Recovering(t, seen, _) => s.active == Some(t) && InProgress(seen)
    case Finishing(t, result) => s.active == Some(t) && (result.Completed? || result.Failed?)
    case _ => true
  }

  /** What tasks, reservation, lock and workers keep whatever is done to the status. */
  predicate Core(s: State) {
    && TasksFit(s) && LockFits(s)
    && forall w :: 0 <= w < |s.places| ==> HolderFits(s, s.places[w])
  }

  /** An operation in progress belongs to a started active task, and not to one that finishes. */
  predicate StatusFits(s: State) {
    ProgressOwned(s) && forall w :: 0 <= w < |s.places| && s.places[w].Finishing? ==> !InProgress(s.status)
  }

  predicate Inv(s: State) {
    Core(s) && StatusFits(s)
  }

  /** What the protocol is for, if every command is enqueued ... */
  lemma Safety(s: State)
    requires Inv(s)
    ensures s.active.None? ==> !InProgress(s.status)
    ensures forall w :: 0 <= w < |s.places| && s.places[w].Handling? ==>
              s.active == Some(s.places[w].t) && s.tasks[s.places[w].t].started
  {
    forall w | 0 <= w < |s.places| && s.places[w].Handling?
      ensures s.active == Some(s.places[w].t) && s.tasks[s.places[w].t].started
    {
      assert HolderFits(s, s.places[w]);
    }
  }

  /** ... and what it is for even if handlers are also called without it. */
  lemma CoreSafety(s: State)
    requires Core(s)
    ensures forall t :: 0 <= t < |s.tasks| ==>
              s.tasks[t].launches <= 1 && (s.active == Some(t) ==> !s.tasks[t].Finished())
    ensures forall v, w ::
              0 <= v < |s.places| && 0 <= w < |s.places| && s.places[v].Handling? && s.places[w].Handling? ==> v == w
  {
    forall v, w | 0 <= v < |s.places| && 0 <= w < |s.places| && s.places[v].Handling? && s.places[w].Handling?
      ensures v == w
    {
      assert s.places[v].InSection() && s.places[w].InSection();
    }
  }

  /** A started active task that does not finish at this moment. */
  predicate Owned(s: State) {
    && s.active.Some? && s.active.value < |s.tasks| && s.tasks[s.active.value].started
    && forall w :: 0 <= w < |s.places| ==> !s.places[w].Finishing?
  }

  /** A handler that is called without a task gives a status at rest, or one that a task answers for;
      a handler that returns leaves nothing in progress. */
  predicate Harmless(s: State, e: Event) {
    match e
    case Direct(status) => InProgress(status) ==> Owned(s)
    case Work(w, c) =>
      w < |s.places| && s.places[w].Handling? && c.write.None? && !c.raised ==> !InProgress(s.status)
    case _ => true
  }

  /** A status that is written without a task, at any moment, keeps the whole invariant if and only
      if it is harmless. */
  lemma DirectKeepsIff(s: State, status: Status)
    requires Inv(s)
    ensures Core(s.(status := status))
    ensures Inv(s.(status := status)) <==> Harmless(s, Direct(status))
  {
    var t := s.(status := status);
    forall w | 0 <= w < |t.places| ensures HolderFits(t, t.places[w]) {
      assert HolderFits(s, s.places[w]);
    }
  }

  /** A deployment through the REST API of a change without tasks: it is in progress and unowned. */
  lemma DirectUnowned(s: State)
    requires Inv(s) && s.status.Validated? && s.active.None?
    ensures var t := s.(status := Deploying); Core(t) && t.active.None? && InProgress(t.status) && !Inv(t)
  {
    DirectKeepsIff(s, Deploying);
  }

  /** Another worker cannot be past the lock. */
  lemma Alone(s: State, w: nat)
    requires Core(s) && w < |s.places| && s.places[w].InSection()
    ensures s.lock == Some(w) && forall v :: 0 <= v < |s.places| && v != w ==> !s.places[v].InSection()
  {
  }

  class Center {
    var now: State
    const requiresApproval: bool

    constructor (status: Status, workers: nat, requiresApproval: bool)
      requires !InProgress(status)
      ensures Inv(now) && now.status == status && now.active.None? && |now.places| == workers
      ensures this.requiresApproval == requiresApproval
    {
      now := State(status, None, [], seq(workers, _ => Idle), None);
      this.requiresApproval := requiresApproval;
    }

    // -------------------------------------------------------------------------------------
    // The user and the queue
    // -------------------------------------------------------------------------------------

    /** enqueue, inside locked_change; `fits`: the state of the named node allows the action. */
    method Enqueue(a: Action, fits: bool) returns (ok: bool)
      requires Core(now)
      modifies this
      ensures Core(now) && (Inv(old(now)) ==> Inv(now))
      ensures ok <==> old(now).active.None? && Allowed(a, old(now).status, requiresApproval) && fits
      ensures ok && a.Deploy? && requiresApproval ==> !old(now).status.Validated? && !old(now).status.PendingApproval?
      ensures now == if ok then Queued(old(now), old(now).status, a) else old(now)
    {
      ok := now.active.None? && Allowed(a, now.status, requiresApproval) && fits;
      if ok { now := Queued(now, now.status, a); }
    }

    /** enqueue by the scheduler, of a deployment that is due. */
    method EnqueueScheduled(due: bool, base: Option<Status>) returns (ok: bool)
      requires Core(now)
      modifies this
      ensures Core(now) && (Inv(old(now)) ==> Inv(now))
      ensures var ready := if base.Some? then base.value else if requiresApproval then Approved else Validated;
              && (ok <==> old(now).active.None? && due && old(now).status.Scheduled?
                          && Allowed(Deploy, ready, requiresApproval))
              && now == if ok then Queued(old(now), ready, Deploy) else old(now)
    {
      var ready := if base.Some? then base.value else if requiresApproval then Approved else Validated;
      ok := now.active.None? && due && now.status.Scheduled? && Allowed(Deploy, ready, requiresApproval);
      if ok { now := Queued(now, ready, Deploy); }
    }

    /** The routes that pause, withdraw a pending pause, and edit an idle change. */
    method Press(resume: bool, edit: Option<Status>)
      requires Core(now)
      modifies this
      ensures Core(now) && (Inv(old(now)) ==> Inv(now))
      ensures now == old(now).(status := now.status)
      ensures now.status == Pressed(old(now), resume, edit)
    {
      if edit.Some? {
        if now.active.None? && !InProgress(now.status) && !InProgress(edit.value) { now := now.(status := edit.value); }
      } else if !resume && now.status.AwaitingPromotion? {
        now := now.(status := Paused);
      } else if !resume && now.status.Deploying? {
        now := now.(status := PauseRequested);
      } else if resume && now.status.PauseRequested? {
        now := now.(status := Deploying);
      }
    }

    /** recover_change on request: it wants an idle change, so it finds nothing to recover if every
        command is enqueued. */
    method RecoverOnRequest() returns (ok: bool)
      requires Core(now)
      modifies this
      ensures Core(now) && (Inv(old(now)) ==> !ok && now == old(now))
      ensures ok <==> old(now).active.None? && InProgress(old(now).status)
      ensures now == if ok then old(now).(status := Recovered(old(now).status)) else old(now)
    {
      ok := now.active.None? && InProgress(now.status);
      now := now.(status := if ok then Recovered(now.status) else now.status);
    }

    /** A handler that was called without a task gives the change any status at any moment. */
    method DirectWrites(s: Status)
      requires Core(now)
      modifies this
      ensures Core(now) && now == old(now).(status := s)
    {
      ghost var was := now;
      now := now.(status := s);
      forall w | 0 <= w < |now.places| ensures HolderFits(now, now.places[w]) {
        assert HolderFits(was, was.places[w]);
      }
    }

    /** The outbox publishes, a worker claims, and a lease runs out: only unfinished tasks move. */
    method MoveTask(t: nat, s: TaskStatus)
      requires Core(now)
      modifies this
      ensures Core(now) && (Inv(old(now)) ==> Inv(now))
      ensures now == old(now).(tasks := if t < |old(now).tasks| && !old(now).tasks[t].Finished() && s.Open()
                                        then old(now).tasks[t := old(now).tasks[t].(status := s)]
                                        else old(now).tasks)
    {
      if t < |now.tasks| && !now.tasks[t].Finished() && s.Open() {
        now := now.(tasks := now.tasks[t := now.tasks[t].(status := s)]);
      }
    }

    // -------------------------------------------------------------------------------------
    // A worker in `execute`
    // -------------------------------------------------------------------------------------

    method Goto(w: nat, p: Place)
      requires w < |now.places|
      modifies this
      ensures now == Moved(old(now), w, p)
    {
      now := Moved(now, w, p);
    }

    /** The call returns, raises, or dies with its process: the lock is free again. */
    method Leave(w: nat)
      requires Core(now) && w < |now.places|
      modifies this
      ensures Core(now) && (Inv(old(now)) ==> Inv(now))
      ensures now == Left(old(now), w)
    {
      now := Left(now, w);
    }

    method Deliver(w: nat, t: nat)
      requires Core(now) && w < |now.places| && now.places[w].Idle? && t < |now.tasks|
      modifies this
      ensures Core(now) && (Inv(old(now)) ==> Inv(now))
      ensures now == if old(now).tasks[t].Finished() then old(now) else Moved(old(now), w, Reading(t))
    {
      if !now.tasks[t].Finished() { Goto(w, Reading(t)); }
    }

    /** Looking for the change that it is active for; without one, a delivered task that is still not
        finished fails. That never hits the active task. */
    method LookUp(w: nat)
      requires Core(now) && w < |now.places| && now.places[w].Reading?
      modifies this
      ensures Core(now) && (Inv(old(now)) ==> Inv(now))
      ensures var t := old(now).places[w].t;
                now == Moved(old(now), w, if old(now).active == Some(t) then Waiting(t) else Idle)
    {
      var t := now.places[w].t;
      if now.active == Some(t) {
        Goto(w, Waiting(t));
      } else {
        now := now.(tasks := Orphaned(now.tasks, t));
        Goto(w, Idle);
      }
    }

    method Acquire(w: nat) returns (ok: bool)
      requires Core(now) && w < |now.places| && now.places[w].Waiting?
      modifies this
      ensures Core(now) && (Inv(old(now)) ==> Inv(now))
      ensures (ok <==> old(now).lock.None?)
      ensures var t := old(now).places[w].t;
              now == if ok then Moved(old(now).(lock := Some(w)), w, Locked(t)) else old(now)
    {
      ok := now.lock.None?;
      if ok {
        now := now.(lock := Some(w));
        Goto(w, Locked(now.places[w].t));
      }
    }

    method Recheck(w: nat)
      requires Core(now) && w < |now.places| && now.places[w].Locked?
      modifies this
      ensures Core(now) && (Inv(old(now)) ==> Inv(now))
      ensures var t := old(now).places[w].t;
              now == if old(now).active == Some(t) then Moved(old(now), w, Checked(t)) else Left(old(now), w)
    {
      var t := now.places[w].t;
      if now.tasks[t].Finished() || now.active != Some(t) {
        Leave(w);
      } else {
        Goto(w, Checked(t));
      }
    }

    /** The stored task was not started before: a verdict on it, and the marker, before any remote
        work. It was: a worker died in it, and it is only cleaned up. */
    method Judge(w: nat, v: Verdict)
      requires Core(now) && w < |now.places| && now.places[w].Checked?
      modifies this
      ensures Core(now) && (Inv(old(now)) ==> Inv(now))
      ensures var was, t := old(now), old(now).places[w].t;
              now == if was.tasks[t].started then Moved(was, w, Interrupting(t, false))
                     else if v.Expired? then Moved(was.(status := ScheduleMissed), w, Finishing(t, TaskStatus.Failed))
                     else if v.Fine? && Allowed(was.tasks[t].action, was.status, requiresApproval) then
                       Moved(was.(tasks := was.tasks[t := was.tasks[t].(started := true)]), w, Marked(t))
                     else Moved(was, w, Interrupting(t, true))
    {
      var t := now.places[w].t;
      Alone(now, w);
      if now.tasks[t].started {
        Goto(w, Interrupting(t, false));
      } else if v.Expired? {
        now := now.(status := ScheduleMissed);
        Goto(w, Finishing(t, TaskStatus.Failed));
      } else if v.Fine? && Allowed(now.tasks[t].action, now.status, requiresApproval) {
        now := now.(tasks := now.tasks[t := now.tasks[t].(started := true)]);
        Goto(w, Marked(t));
      } else {
        Goto(w, Interrupting(t, true));
      }
    }

    /** The only step that starts a handler. */
    method Launch(w: nat)
      requires Core(now) && w < |now.places| && now.places[w].Marked?
      modifies this
      ensures Core(now) && (Inv(old(now)) ==> Inv(now))
      ensures var was, t := old(now), old(now).places[w].t;
              && was.tasks[t].launches == 0
              && now == Moved(was.(tasks := was.tasks[t := was.tasks[t].(launches := 1)]), w, Handling(t))
    {
      var t := now.places[w].t;
      Alone(now, w);
      assert HolderFits(now, now.places[w]);
      now := now.(tasks := now.tasks[t := now.tasks[t].(launches := now.tasks[t].launches + 1)]);
      Goto(w, Handling(t));
    }

    /** A handler gives its change any status, any number of times. */
    method HandlerWrites(w: nat, s: Status)
      requires Core(now) && w < |now.places| && now.places[w].Handling?
      modifies this
      ensures Core(now) && (Inv(old(now)) ==> Inv(now))
      ensures now == old(now).(status := s)
    {
      Alone(now, w);
      assert HolderFits(now, now.places[w]);
      now := now.(status := s);
    }

    /** A handler that returns must have left nothing in progress: the commands of a rollout promise
        that. One that raises, like any step of `execute` that does, is interrupted. */
    method HandlerEnds(w: nat, raised: bool, invalid: bool)
      requires Core(now) && w < |now.places| && now.places[w].Handling?
      modifies this
      ensures Core(now) && (Inv(old(now)) ==> (Inv(now) <==> raised || !InProgress(old(now).status)))
      ensures var was, t := old(now), old(now).places[w].t;
              now == Moved(was, w, if raised then Interrupting(t, true)
                                   else Finishing(t, if invalid then TaskStatus.Failed else Completed))
    {
      var t := now.places[w].t;
      Alone(now, w);
      if raised {
        Goto(w, Interrupting(t, true));
      } else {
        Goto(w, Finishing(t, if invalid then TaskStatus.Failed else Completed));
        assert now.places[w].Finishing?;
      }
    }

    /** _interrupt: something is in progress, or there is nothing to do. */
    method Interrupt(w: nat)
      requires Core(now) && w < |now.places| && now.places[w].Interrupting?
      modifies this
      ensures Core(now) && (Inv(old(now)) ==> Inv(now))
      ensures var was, p := old(now), old(now).places[w];
              now == Moved(was, w, if InProgress(was.status) then Recovering(p.t, was.status, p.last)
                                   else Finishing(p.t, TaskStatus.Failed))
    {
      var p := now.places[w];
      Alone(now, w);
      Goto(w, if InProgress(now.status) then Recovering(p.t, now.status, p.last)
              else Finishing(p.t, TaskStatus.Failed));
    }

    /** recover_change: a guarded write, which the user's pause or resume can have overtaken. */
    method Recover(w: nat)
      requires Core(now) && w < |now.places| && now.places[w].Recovering?
      modifies this
      ensures Core(now) && (Inv(old(now)) ==> Inv(now))
      ensures var was, p := old(now), old(now).places[w];
              now == if was.status == p.seen
                     then Moved(was.(status := Recovered(p.seen)), w, Finishing(p.t, TaskStatus.Failed))
                     else if p.last then Left(was, w)
                     else Moved(was, w, Interrupting(p.t, true))
    {
      var p := now.places[w];
      Alone(now, w);
      if now.status == p.seen {
        now := now.(status := Recovered(p.seen));
        Goto(w, Finishing(p.t, TaskStatus.Failed));
      } else if p.last {
        Leave(w);
      } else {
        Goto(w, Interrupting(p.t, true));
      }
    }

    /** _finish: task done and change idle, in one transaction. */
    method Finish(w: nat)
      requires Core(now) && w < |now.places| && now.places[w].Finishing?
      modifies this
      ensures Core(now) && (Inv(old(now)) ==> Inv(now))
      ensures var was, p := old(now), old(now).places[w];
              now == Left(was.(active := None, tasks := was.tasks[p.t := was.tasks[p.t].(status := p.result)]), w)
    {
      var p := now.places[w];
      Alone(now, w);
      assert HolderFits(now, p);
      if now.active == Some(p.t) {
        now := now.(active := None, tasks := now.tasks[p.t := now.tasks[p.t].(status := p.result)]);
      }
      now := Left(now, w);
    }

    // -------------------------------------------------------------------------------------
    // Runs
    // -------------------------------------------------------------------------------------

    /** The next step of a worker, wherever it is. */
    method Step(w: nat, c: Choice)
      requires Core(now) && w < |now.places|
      modifies this
      ensures Core(now) && (Inv(old(now)) ==> (Inv(now) <==> Harmless(old(now), Work(w, c))))
      ensures now == Stepped(old(now), w, c, requiresApproval)
    {
      match now.places[w] {
        case Idle => if c.task < |now.tasks| { Deliver(w, c.task); }
        case Reading(_) => LookUp(w);
        case Waiting(_) => var ok := Acquire(w);
        case Locked(_) => Recheck(w);
        case Checked(_) => Judge(w, c.verdict);
        case Marked(_) => Launch(w);
        case Handling(_) =>
          if c.write.Some? {
            HandlerWrites(w, c.write.value);
          } else {
            HandlerEnds(w, c.raised, c.invalid);
          }
        case Interrupting(_, _) => Interrupt(w);
        case Recovering(_, _, _) => Recover(w);
        case Finishing(_, _) => Finish(w);
      }
    }

    /** Exactly the harmless events keep the invariant. */
    method Perform(e: Event)
      requires Core(now)
      modifies this
      ensures Core(now) && (Inv(old(now)) ==> (Inv(now) <==> Harmless(old(now), e)))
      ensures now == Happened(old(now), e, requiresApproval)
    {
      ghost var was := now;
      match e {
        case Ask(a, fits) => var ok := Enqueue(a, fits);
        case AskScheduled(due, base) => var ok := EnqueueScheduled(due, base);
        case User(resume, edit) => Press(resume, edit);
        case AskRecovery => var ok := RecoverOnRequest();
        case Queue(t, s) => MoveTask(t, s);
        case Work(w, c) => if w < |now.places| { Step(w, c); }
        case Direct(s) =>
          DirectWrites(s);
          if Inv(was) { DirectKeepsIff(was, s); }
        case Die(w) => if w < |now.places| { Leave(w); }
      }
    }

    method PerformTaken(e: Event)
      requires Core(now)
      modifies this
      ensures Core(now) && Taken(old(now), e, now, requiresApproval)
    {
      Perform(e);
    }

    /** Whatever the users, the queue, the workers and the REST API do, and whenever workers die: the
        handler of each task starts at most once, at most one of them runs, and the active task is not
        finished. At every moment an operation in progress belongs to a started, active task that does not
        finish right then, if and only if every event was harmless when it happened: always, if every
        command is enqueued and handlers return at rest. */
    method Run(events: seq<Event>) returns (ghost states: seq<State>)
      requires Core(now)
      modifies this
      ensures Core(now)
      ensures forall t :: 0 <= t < |now.tasks| ==>
                now.tasks[t].launches <= 1 && (now.active == Some(t) ==> !now.tasks[t].Finished())
      ensures forall v, w ::
                0 <= v < |now.places| && 0 <= w < |now.places| && now.places[v].Handling? && now.places[w].Handling? ==>
                  v == w
      ensures |states| == |events| + 1 && states[0] == old(now) && states[|events|] == now
      ensures forall k :: 0 <= k < |events| ==>
                Core(states[k]) && states[k + 1] == Happened(states[k], events[k], requiresApproval)
      ensures Inv(old(now)) ==>
                ((forall k :: 0 <= k < |states| ==> Inv(states[k])) <==>
                 forall k :: 0 <= k < |events| ==> Harmless(states[k], events[k]))
    {
      states := [now];
      for k := 0 to |events|
        invariant Core(now) && |states| == k + 1 && states[0] == old(now) && states[k] == now
        invariant forall i :: 0 <= i < k ==> Taken(states[i], events[i], states[i + 1], requiresApproval)
      {
        hide *;
        PerformTaken(events[k]);
        states := states + [now];
      }
      hide Core, Happened, Taken;
      CoreSafety(now);
      AllTaken(states, events, requiresApproval);
    }

    /** Whatever happened before, one delivery of the active task that nobody disturbs ends it and
        leaves the change idle. */
    method DeliverUndisturbed(w: nat, verdict: Verdict, writes: seq<Status>, raised: bool, invalid: bool)
      requires Core(now) && w < |now.places| && now.places[w].Idle? && now.lock.None? && now.active.Some?
      modifies this
      ensures Core(now) && now.active.None? && now.lock.None? && !InProgress(now.status)
      ensures var t := old(now).active.value; t < |now.tasks| && now.tasks[t].Finished()
      ensures var t := old(now).active.value; t < |old(now).tasks| && old(now).tasks[t].started ==>
                now.tasks[t].status.Failed?
    {
      hide Core, Inv;
      ghost var was := now;
      var t := now.active.value;
      ActiveTask(now);
      Deliver(w, t);
      LookUp(w);
      var ok := Acquire(w);
      Recheck(w);
      Judge(w, verdict);
      if now.places[w].Marked? {
        Launch(w);
        for k := 0 to |writes|
          invariant Core(now) && w < |now.places| && now.places[w] == Handling(t)
          invariant now.lock == Some(w) && now.active == Some(t) && t < |now.tasks| && !was.tasks[t].started
        {
          HandlerWrites(w, writes[k]);
        }
        HandlerEnds(w, raised || InProgress(now.status), invalid);
      }
      CleanUp(w, t);
    }

    /** From an interruption on, or with nothing left but the closing write. */
    method CleanUp(w: nat, t: nat)
      requires Core(now) && w < |now.places| && t < |now.tasks| && now.lock == Some(w)
      requires now.places[w].Interrupting? || (now.places[w].Finishing? && !InProgress(now.status))
      requires now.places[w].t == t
      modifies this
      ensures Core(now) && now.active.None? && now.lock.None? && !InProgress(now.status)
      ensures t < |now.tasks| && now.tasks[t].Finished()
      ensures old(now).places[w].Interrupting? ==> now.tasks[t].status.Failed?
    {
      if now.places[w].Interrupting? {
        Interrupt(w);
        if now.places[w].Recovering? { Recover(w); }
      }
      assert HolderFits(now, now.places[w]);
      Finish(w);
    }
  }

  predicate Kept(s: State, e: Event, t: State) {
    Inv(s) ==> (Inv(t) <==> Harmless(s, e))
  }

  predicate Taken(s: State, e: Event, t: State, requiresApproval: bool) {
    Core(s) && t == Happened(s, e, requiresApproval) && Kept(s, e, t)
  }

  lemma AllTaken(states: seq<State>, events: seq<Event>, requiresApproval: bool)
    requires |states| == |events| + 1
    requires forall k :: 0 <= k < |events| ==> Taken(states[k], events[k], states[k + 1], requiresApproval)
    ensures forall k :: 0 <= k < |events| ==>
              Core(states[k]) && states[k + 1] == Happened(states[k], events[k], requiresApproval)
    ensures Inv(states[0]) ==>
              ((forall k :: 0 <= k < |states| ==> Inv(states[k])) <==>
               forall k :: 0 <= k < |events| ==> Harmless(states[k], events[k]))
  {
    hide Core, Happened, Kept, Inv, Harmless;
    forall k | 0 <= k < |events|
      ensures Core(states[k]) && states[k + 1] == Happened(states[k], events[k], requiresApproval)
      ensures Kept(states[k], events[k], states[k + 1])
    {
      assert Taken(states[k], events[k], states[k + 1], requiresApproval);
    }
    KeptThroughout(states, events);
  }

  lemma KeptThroughout(states: seq<State>, events: seq<Event>)
    requires |states| == |events| + 1 && forall k :: 0 <= k < |events| ==> Kept(states[k], events[k], states[k + 1])
    ensures Inv(states[0]) ==>
              ((forall k :: 0 <= k < |states| ==> Inv(states[k])) <==>
               forall k :: 0 <= k < |events| ==> Harmless(states[k], events[k]))
  {
    hide Inv, Harmless;
    if Inv(states[0]) && forall k :: 0 <= k < |events| ==> Harmless(states[k], events[k]) {
      for k := 0 to |events|
        invariant forall i :: 0 <= i <= k ==> Inv(states[i])
      {
        assert Kept(states[k], events[k], states[k + 1]);
      }
    }
    if forall k :: 0 <= k < |states| ==> Inv(states[k]) {
      forall k | 0 <= k < |events| ensures Harmless(states[k], events[k]) {
        assert Kept(states[k], events[k], states[k + 1]);
      }
    }
  }

  lemma ActiveTask(s: State)
    requires Core(s) && s.active.Some?
    ensures s.active.value < |s.tasks| && !s.tasks[s.active.value].Finished()
  {
  }

  datatype Choice = Choice(task: nat, verdict: Verdict, write: Option<Status>, raised: bool, invalid: bool)

  datatype Event =
    | Ask(a: Action, fits: bool)
    | AskScheduled(due: bool, base: Option<Status>)
    | User(resume: bool, edit: Option<Status>)
    | AskRecovery
    | Direct(s: Status)
    | Queue(task: nat, to: TaskStatus)
    | Work(w: nat, c: Choice)
    | Die(w: nat)

  /** A task whose reservation is gone fails, unless it is finished. */
  function Orphaned(tasks: seq<Task>, t: nat): seq<Task>
    requires t < |tasks|
  {
    if tasks[t].Finished() then tasks else tasks[t := tasks[t].(status := TaskStatus.Failed)]
  }

  datatype Verdict = Fine | Expired | Unfit

  /** What a worker's next step does. */
  function Stepped(s: State, w: nat, c: Choice, requiresApproval: bool): State
    requires Core(s) && w < |s.places|
  {
    match s.places[w]
    case Idle => if c.task < |s.tasks| && !s.tasks[c.task].Finished() then Moved(s, w, Reading(c.task)) else s
    case Reading(t) => Moved(s, w, if s.active == Some(t) then Waiting(t) else Idle)
    case Waiting(t) => if s.lock.None? then Moved(s.(lock := Some(w)), w, Locked(t)) else s
    case Locked(t) => if s.active == Some(t) then Moved(s, w, Checked(t)) else Left(s, w)
    case Checked(t) =>
      if s.tasks[t].started then Moved(s, w, Interrupting(t, false))
      else if c.verdict.Expired? then Moved(s.(status := ScheduleMissed), w, Finishing(t, TaskStatus.Failed))
      else if c.verdict.Fine? && Allowed(s.tasks[t].action, s.status, requiresApproval) then
        Moved(s.(tasks := s.tasks[t := s.tasks[t].(started := true)]), w, Marked(t))
      else Moved(s, w, Interrupting(t, true))
    case Marked(t) => Moved(s.(tasks := s.tasks[t := s.tasks[t].(launches := 1)]), w, Handling(t))
    case Handling(t) =>
      if c.write.Some? then s.(status := c.write.value)
      else if c.raised then Moved(s, w, Interrupting(t, true))
      else Moved(s, w, Finishing(t, if c.invalid then TaskStatus.Failed else Completed))
    case Interrupting(t, last) =>
      Moved(s, w, if InProgress(s.status) then Recovering(t, s.status, last) else Finishing(t, TaskStatus.Failed))
    case Recovering(t, seen, last) =>
      if s.status == seen then Moved(s.(status := Recovered(seen)), w, Finishing(t, TaskStatus.Failed))
      else if last then Left(s, w) else Moved(s, w, Interrupting(t, true))
    case Finishing(t, result) => Left(s.(active := None, tasks := s.tasks[t := s.tasks[t].(status := result)]), w)
  }

  /** What an event does. */
  function Happened(s: State, e: Event, requiresApproval: bool): State
    requires Core(s)
  {
    match e
    case Ask(a, fits) =>
      if s.active.None? && Allowed(a, s.status, requiresApproval) && fits then Queued(s, s.status, a) else s
    case AskScheduled(due, base) =>
      var ready := if base.Some? then base.value else if requiresApproval then Approved else Validated;
      if s.active.None? && due && s.status.Scheduled? && Allowed(Deploy, ready, requiresApproval)
      then Queued(s, ready, Deploy) else s
    case User(resume, edit) => s.(status := Pressed(s, resume, edit))
    case AskRecovery => if s.active.None? && InProgress(s.status) then s.(status := Recovered(s.status)) else s
    case Direct(status) => s.(status := status)
    case Queue(t, to) =>
      if t < |s.tasks| && !s.tasks[t].Finished() && to.Open()
      then s.(tasks := s.tasks[t := s.tasks[t].(status := to)]) else s
    case Work(w, c) => if w < |s.places| then Stepped(s, w, c, requiresApproval) else s
    case Die(w) => if w < |s.places| then Left(s, w) else s
  }

  /** The status after a user's pause, withdrawal or edit. */
  function Pressed(s: State, resume: bool, edit: Option<Status>): Status {
    if edit.Some? then
      if s.active.None? && !InProgress(s.status) && !InProgress(edit.value) then edit.value else s.status
    else match s.status
      case AwaitingPromotion => if resume then AwaitingPromotion else Paused
      case Deploying => if resume then Deploying else PauseRequested
      case PauseRequested => if resume then Deploying else PauseRequested
      case status => status
  }

  function Moved(s: State, w: nat, p: Place): State
    requires w < |s.places|
  {
    s.(places := s.places[w := p])
  }

  function Queued(s: State, status: Status, a: Action): State {
    s.(status := status, active := Some(|s.tasks|), tasks := s.tasks + [Task(Created, a, false, 0)])
  }

  function Left(s: State, w: nat): State
    requires w < |s.places|
  {
    s.(places := s.places[w := Idle], lock := if s.lock == Some(w) then None else s.lock)
  }
}
