/** What the rollout of a change works on: the rows of the change and of its nodes, the managed
    files, and the properties of these that the commands keep (app/modules/change/service.py). */
module RolloutState {
  import opened Outcomes
  import opened Contents
  import opened RolloutPlan

  /** Ready stands for `validated`, or `approved` where an approval is required. */
  datatype ChangeStatus =
    | Draft | ValidationFailed | Ready | ScheduleMissed
    | Deploying | PauseRequested | Paused | AwaitingPromotion | Deployed | DeploymentInterrupted
    | AutoRolledBack | AutoRollbackFailed | RollingBack | RolledBack | RollbackFailed

  /** The row of the change. Of the pause requests, `asked` were accepted; each of them was claimed
      by the worker, withdrawn by a resume, or dropped by a status written over it, or is pending.
      `since` counts the batches that started under the pending request. */
  datatype Desk = Desk(status: ChangeStatus, flag: bool, asked: nat, claimed: nat, withdrawn: nat, dropped: nat,
                       since: nat)

  /** The row of a node, its managed file, and its captured snapshot. */
  datatype Node = Node(row: Target, file: Content, snapshot: Option<Content>)

  /** The nodes in apply order. `early` collects those whose deployment started while an included
      node of a lower batch was not deployed. */
  datatype Nodes = Nodes(all: seq<Node>, early: set<nat>)

  function Rows(n: Nodes): (rows: seq<Target>)
    ensures |rows| == |n.all| && forall i :: 0 <= i < |rows| ==> rows[i] == n.all[i].row
  {
    seq(|n.all|, i requires 0 <= i < |n.all| => n.all[i].row)
  }

  datatype Settings = Settings(rolling: bool, batchSize: nat, maxParallel: nat, manualPromotion: bool, reload: bool)

  datatype BatchResult = BatchDone | BatchFailed(affected: set<nat>) | BatchRaised | BatchKilled

  datatype RolloutResult = Finished(completed: bool) | RolloutFailed(affected: set<nat>) | RolloutRaised | RolloutKilled

  function StoppedBy(o: Outcome): RolloutResult {
    match o
    case Done => Finished(false)
    case Killed => RolloutKilled
    case _ => RolloutRaised
  }

  /** How a command ended: as asked; refused before it claimed the change; failed and dealt with;
      by an exception that can leave the change in progress; or with the worker. */
  datatype Report = Succeeded | Refused | Handled | Broken | Killed

  function Reports(o: Outcome, r: Report): Report {
    match o
    case Done => r
    case Killed => Report.Killed
    case _ => Broken
  }

  function Refuses(o: Outcome): Report {
    if o.Killed? then Report.Killed else Refused
  }

  // ---------------------------------------------------------------------------------------
  // The statuses that the commands start from
  // ---------------------------------------------------------------------------------------

  predicate InFlight(s: ChangeStatus) {
    s.Deploying? || s.PauseRequested?
  }

  const RETRYABLE: set<ChangeStatus> :=
    {AutoRolledBack, AutoRollbackFailed, ChangeStatus.RollbackFailed, ChangeStatus.DeploymentInterrupted,
        ScheduleMissed}

  const RESUMABLE: set<ChangeStatus> := {Paused, AwaitingPromotion, ChangeStatus.DeploymentInterrupted}

  const ACTIONABLE: set<ChangeStatus> :=
    {Paused, AwaitingPromotion, ChangeStatus.DeploymentInterrupted, AutoRolledBack, AutoRollbackFailed,
     ChangeStatus.RollbackFailed}

  /** Deployable, and not after an interruption. */
  predicate FreshlyDeployable(s: ChangeStatus) {
    s.Ready? || (s in RETRYABLE && !s.DeploymentInterrupted?)
  }

  // ---------------------------------------------------------------------------------------
  // The user, and the fate of a pause request
  // ---------------------------------------------------------------------------------------

  datatype UiMove = Pause | Resume

  /** pause_change, and the resume that only withdraws a pending pause. */
  function Press(d: Desk, m: UiMove): Desk {
    match m
    case Pause =>
      if d.status.AwaitingPromotion? then d.(status := Paused, flag := false)
      else if d.status.Deploying? then d.(status := PauseRequested, flag := true, asked := d.asked + 1, since := 0)
      else d
    case Resume =>
      if d.status.PauseRequested? then d.(status := ChangeStatus.Deploying, flag := false, withdrawn := d.withdrawn + 1)
      else d
  }

  function Ui(d: Desk, moves: seq<UiMove>): Desk
    decreases moves
  {
    if moves == [] then d else Ui(Press(d, moves[0]), moves[1..])
  }

  /** The accepted pause requests that are neither withdrawn nor pending. */
  function Taken(d: Desk): int {
    d.asked - d.withdrawn - if d.status.PauseRequested? then 1 else 0
  }

  /** Every pause request has exactly one fate. */
  predicate Ledger(d: Desk) {
    Taken(d) == d.claimed + d.dropped
  }

  /** At most one batch started since a pause that is still pending was requested. */
  predicate OneMore(d: Desk) {
    d.status.PauseRequested? ==> d.since <= 1
  }

  /** What a user can have done to the row between two steps of the worker, batches aside. */
  predicate Pressed(a: Desk, b: Desk) {
    && (b.status == a.status || (InFlight(a.status) && InFlight(b.status)) ||
         (a.status.AwaitingPromotion? && b.status.Paused?))
    && b.claimed == a.claimed && b.dropped == a.dropped && a.asked <= b.asked && a.withdrawn <= b.withdrawn
    && Taken(b) == Taken(a) && (!InFlight(a.status) && !a.status.AwaitingPromotion? ==> b == a)
    && (b.status.Deploying? && (a.status.PauseRequested? || !a.flag) ==> !b.flag)
    && (b.status.AwaitingPromotion? ==> b == a) && (a.status.AwaitingPromotion? && b.status.Paused? ==> !b.flag)
  }

  /** ... and while no batch starts. */
  predicate Moved(a: Desk, b: Desk) {
    && Pressed(a, b)
    && (b.status.PauseRequested? ==> b.since == 0 || (a.status.PauseRequested? && b.since == a.since))
  }

  /** A status written without a guard: it drops a pause request that is pending. */
  function Overwritten(d: Desk, s: ChangeStatus, clear: bool): Desk {
    d.(status := s, flag := d.flag && !clear, dropped := d.dropped + if d.status.PauseRequested? then 1 else 0)
  }

  /** A guarded status change: a pause request that is pending is claimed. */
  function Claimed(d: Desk, s: ChangeStatus, clear: bool): Desk {
    d.(status := s, flag := d.flag && !clear, claimed := d.claimed + if d.status.PauseRequested? then 1 else 0)
  }

  function BatchStarted(d: Desk): Desk {
    if d.status.PauseRequested? then d.(since := d.since + 1) else d
  }

  /** The worker took the pending pause request. */
  predicate PauseClaimed(a: Desk, b: Desk) {
    && b.status.Paused? && !b.flag && b.claimed == a.claimed + 1 && b.dropped == a.dropped
    && a.asked <= b.asked && a.withdrawn <= b.withdrawn && Taken(b) == Taken(a) + 1
  }

  /** How many requests an unguarded status dropped, if it was written over the row `at`. */
  function Lost(at: Option<Desk>): nat {
    if at.Some? && at.value.status.PauseRequested? then 1 else 0
  }

  /** After the user's moves a status was written over the row `at`, if it was written. */
  predicate Wrote(a: Desk, at: Option<Desk>, b: Desk, clear: bool) {
    if at.None? then Moved(a, b) else Moved(a, at.value) && b == Overwritten(at.value, b.status, clear)
  }

  /** How many requests were pending in the rows that statuses were written over. */
  function AllLost(rows: seq<Desk>): nat {
    if rows == [] then 0 else Lost(Some(rows[0])) + AllLost(rows[1..])
  }

  function RowOf(at: Option<Desk>): seq<Desk> {
    if at.Some? then [at.value] else []
  }

  lemma {:induction false} AllLostJoined(a: seq<Desk>, b: seq<Desk>)
    ensures AllLost(a + b) == AllLost(a) + AllLost(b)
  {
    if a == [] {
      assert a + b == b;
    } else {
      assert (a + b)[1..] == a[1..] + b;
      AllLostJoined(a[1..], b);
    }
  }

  lemma RowsLost(a: Option<Desk>, b: Option<Desk>)
    ensures AllLost(RowOf(a) + RowOf(b)) == Lost(a) + Lost(b)
  {
    AllLostJoined(RowOf(a), RowOf(b));
  }

  lemma {:induction false} NoneLost(rows: seq<Desk>)
    ensures AllLost(rows) == 0 <==> forall d :: d in rows ==> !d.status.PauseRequested?
  {
    if rows != [] {
      NoneLost(rows[1..]);
      assert rows == [rows[0]] + rows[1..];
    }
  }

  /** Every accepted request was claimed or withdrawn, or is pending. */
  predicate AllAnswered(d: Desk) {
    d.asked == d.claimed + d.withdrawn + if d.status.PauseRequested? then 1 else 0
  }

  /** The worker found no request when it last looked; what is pending at `at` came later. */
  ghost predicate SinceLook(a: Desk, at: Desk) {
    exists look: Desk :: look.status.Deploying? && Pressed(a, look) && Moved(look, at)
  }

  lemma SinceLookFrom(a: Desk, b: Desk, at: Desk)
    requires Pressed(a, b) && SinceLook(b, at)
    ensures SinceLook(a, at)
  {
    var look: Desk :| look.status.Deploying? && Pressed(b, look) && Moved(look, at);
    assert Pressed(a, look);
  }

  lemma SinceLookFlag(a: Desk, at: Desk)
    requires SinceLook(a, at)
    ensures at.status.Deploying? || at.status.PauseRequested?
    ensures !a.flag && !at.status.PauseRequested? ==> !at.flag
  {
  }

  /** The user withdrew a pause request, and asked for another pause after that. */
  predicate AskedAgain(a: Desk, b: Desk) {
    b.status.PauseRequested? && a.withdrawn < b.withdrawn
  }

  /** The user's moves, and at most one pause request claimed or dropped by the rollout. */
  predicate Stopped(a: Desk, b: Desk) {
    && a.asked <= b.asked && a.withdrawn <= b.withdrawn && a.claimed <= b.claimed && a.dropped <= b.dropped
    && b.claimed + b.dropped <= a.claimed + a.dropped + 1
    && Taken(b) - b.claimed - b.dropped == Taken(a) - a.claimed - a.dropped
    && OneMore(b) && (InFlight(b.status) || b.status.Paused? || b.status.AwaitingPromotion?)
  }

  /** The user's moves, and requests claimed or dropped one for one. */
  predicate Accounted(a: Desk, b: Desk) {
    && a.asked <= b.asked && a.withdrawn <= b.withdrawn && a.claimed <= b.claimed && a.dropped <= b.dropped
    && Taken(b) - b.claimed - b.dropped == Taken(a) - a.claimed - a.dropped
    && OneMore(b)
  }

  lemma {:induction false} UiMoves(d: Desk, moves: seq<UiMove>)
    ensures Moved(d, Ui(d, moves))
    decreases moves
  {
    if moves != [] {
      UiMoves(Press(d, moves[0]), moves[1..]);
    }
  }

  /** A pause of a rollout that waits for a promotion takes effect at once, one of a rollout that runs is
      pending until it is claimed or withdrawn, and in any other status neither button does anything. */
  lemma PressMeans(d: Desk)
    ensures d.status.AwaitingPromotion? ==> Press(d, Pause) == d.(status := Paused, flag := false)
    ensures d.status.Deploying? ==>
              && Press(d, Pause).status.PauseRequested? && Press(d, Pause).flag && Press(d, Pause).asked == d.asked + 1
              && Press(Press(d, Pause), UiMove.Resume).status.Deploying? && !Press(Press(d, Pause), UiMove.Resume).flag
              && Press(Press(d, Pause), UiMove.Resume).withdrawn == d.withdrawn + 1
    ensures !d.status.PauseRequested? ==> Press(d, UiMove.Resume) == d
    ensures !d.status.Deploying? && !d.status.AwaitingPromotion? ==> Press(d, Pause) == d
  {
  }

  lemma MovedItself(d: Desk)
    ensures Moved(d, d)
  {
  }

  lemma MovedOnce(a: Desk, b: Desk, c: Desk)
    requires Moved(a, b) && Moved(b, c)
    ensures Moved(a, c)
  {
  }

  // ---------------------------------------------------------------------------------------
  // What holds of the nodes
  // ---------------------------------------------------------------------------------------

  predicate Shape(n: Nodes) {
    Topology(Rows(n)) && Selectable(Rows(n))
  }

  predicate Included(n: Nodes, i: nat) {
    i < |n.all| && !n.all[i].row.excluded
  }

  predicate IsDeployed(n: Nodes, i: nat)
    requires i < |n.all|
  {
    n.all[i].row.status.Deployed?
  }

  predicate AllDeployed(n: Nodes) {
    forall i: nat :: i < |n.all| && Included(n, i) ==> IsDeployed(n, i)
  }

  predicate AnyDeployed(n: Nodes) {
    exists i: nat :: i < |n.all| && Included(n, i) && IsDeployed(n, i)
  }

  /** What the automatic rollback takes for a deployment that began. */
  predicate Tried(s: TargetStatus) {
    s.Deployed? || s.Deploying? || s.DeploymentFailed?
  }

  /** A node marked deployed holds the candidate, and one that is left out was not deployed to. */
  predicate Truthful(n: Nodes, candidate: Content) {
    && Shape(n)
    && (forall i: nat :: i < |n.all| && Included(n, i) && IsDeployed(n, i) ==> n.all[i].file == candidate)
    && forall i: nat :: i < |n.all| && !Included(n, i) ==> !Tried(n.all[i].row.status)
  }

  /** The invariant of all commands, however they end. */
  predicate Sound(d: Desk, n: Nodes, candidate: Content) {
    Truthful(n, candidate) && (d.status.Deployed? ==> AllDeployed(n)) && Ledger(d) && OneMore(d)
  }

  /** All requests are answered exactly if none was dropped. */
  lemma Answered(d: Desk, n: Nodes, candidate: Content)
    requires Sound(d, n, candidate)
    ensures AllAnswered(d) <==> d.dropped == 0
  {
  }

  predicate AtSnapshot(n: Nodes, i: nat)
    requires i < |n.all|
  {
    n.all[i].snapshot == Some(n.all[i].file)
  }

  /** Rolling back the nodes `at` would restore every included node. */
  predicate Restorable(n: Nodes, at: set<nat>) {
    && Shape(n)
    && forall i: nat :: i < |n.all| && Included(n, i) ==> n.all[i].snapshot.Some? && (i in at || AtSnapshot(n, i))
  }

  /** Every included node holds its snapshot. */
  predicate Restored(n: Nodes) {
    Restorable(n, {})
  }

  function With(n: Nodes, kinds: set<TargetStatus>): (at: set<nat>)
    ensures forall i: nat :: i in at <==> i < |n.all| && n.all[i].row.status in kinds
  {
    set i: nat | i < |n.all| && n.all[i].row.status in kinds
  }

  /** The nodes that the automatic rollback goes by when no batch named them. */
  function Attempted(n: Nodes): set<nat> {
    With(n, {TargetStatus.Deployed, TargetStatus.Deploying, DeploymentFailed})
  }

  /** Between batches: the nodes that are not deployed have not been touched. */
  predicate Settled(n: Nodes) {
    Restorable(n, With(n, {TargetStatus.Deployed}))
  }

  /** The invariant of the runs without crashes and without commands on single nodes. */
  predicate Calm(d: Desk, n: Nodes) {
    && !InFlight(d.status) && !d.status.RollingBack? && !d.status.DeploymentInterrupted?
    && (d.status.Paused? || d.status.AwaitingPromotion? ==> Settled(n))
    && (d.status.AutoRolledBack? ==> Restored(n))
  }

  /** The status after a rollout that was closed as `r` says. */
  predicate Closed(r: Report, d: Desk, n: Nodes) {
    && !r.Refused? && (d.status.Deployed? ==> AllDeployed(n))
    && (r.Succeeded? ==> d.status.Deployed? || d.status.Paused? || d.status.AwaitingPromotion?)
    && (r.Handled? ==> d.status.AutoRolledBack? || d.status.AutoRollbackFailed?)
  }

  predicate Reported(r: RolloutResult, d: Desk, n: Nodes) {
    r.Finished? ==>
      if r.completed then InFlight(d.status) && AllDeployed(n) else d.status.Paused? || d.status.AwaitingPromotion?
  }

  /** What a batch leaves to the automatic rollback, of nodes that had been settled before it. */
  predicate Covered(r: BatchResult, n: Nodes) {
    match r
    case BatchDone => Settled(n)
    case BatchFailed(affected) => Restorable(n, affected)
    case BatchRaised => Restorable(n, Attempted(n))
    case BatchKilled => true
  }

  /** What a rollout of settled nodes leaves to the automatic rollback. */
  predicate RolloutCovered(r: RolloutResult, n: Nodes) {
    match r
    case Finished(_) => Settled(n)
    case RolloutFailed(affected) => Restorable(n, affected)
    case RolloutRaised => Restorable(n, Attempted(n))
    case RolloutKilled => true
  }

  lemma TruthfulShape(n: Nodes, candidate: Content)
    requires Truthful(n, candidate)
    ensures Shape(n)
  {
  }

  lemma RestoredSettled(n: Nodes)
    ensures Restored(n) ==> Settled(n)
  {
  }

  // ---------------------------------------------------------------------------------------
  // Steps on the nodes
  // ---------------------------------------------------------------------------------------

  function Status(node: Node, s: TargetStatus): Node {
    node.(row := node.row.(status := s))
  }

  function Marked(n: Nodes, i: nat, s: TargetStatus): Nodes
    requires i < |n.all|
  {
    Nodes(n.all[i := Status(n.all[i], s)], if s.Deploying? && Jumps(n, i) then n.early + {i} else n.early)
  }

  function Applied(n: Nodes, i: nat, f: Content): Nodes
    requires i < |n.all|
  {
    n.(all := n.all[i := n.all[i].(file := f)])
  }

  /** An included node of a lower batch is not deployed. */
  predicate Jumps(n: Nodes, i: nat)
    requires i < |n.all|
  {
    exists j: nat :: j < |n.all| && Included(n, j) && n.all[j].row.batch < n.all[i].row.batch && !IsDeployed(n, j)
  }

  /** reset_targets. */
  function Reset(n: Nodes): (r: Nodes)
    ensures |r.all| == |n.all| && r.early == n.early
    ensures forall i :: 0 <= i < |n.all| ==>
              r.all[i] == if n.all[i].row.excluded then n.all[i] else Status(n.all[i], TargetStatus.Pending)
  {
    n.(all := seq(|n.all|, i requires 0 <= i < |n.all| =>
                  if n.all[i].row.excluded then n.all[i] else Status(n.all[i], TargetStatus.Pending)))
  }

  function Excluding(n: Nodes, i: nat): Nodes
    requires i < |n.all|
  {
    n.(all := n.all[i := n.all[i].(row := n.all[i].row.(excluded := true, isCanary := false, batch := -1,
        status := Excluded))])
  }

  function Including(n: Nodes, i: nat): Nodes
    requires i < |n.all|
  {
    n.(all := n.all[i := n.all[i].(row := n.all[i].row.(excluded := false, status := TargetStatus.Pending))])
  }

  function Capturing(n: Nodes, i: nat): Nodes
    requires i < |n.all|
  {
    n.(all := n.all[i := n.all[i].(snapshot := Some(n.all[i].file))])
  }

  /** Statuses and files can have changed. */
  predicate SamePlan(a: Nodes, b: Nodes) {
    && |b.all| == |a.all| && b.early == a.early
    && forall i :: 0 <= i < |a.all| ==> Worked(a.all[i], b.all[i])
  }

  predicate Worked(a: Node, b: Node) {
    b == a.(file := b.file, row := a.row.(status := b.row.status))
  }

  /** Statuses and files of the nodes `at` can have changed. */
  predicate Only(a: Nodes, b: Nodes, at: set<nat>) {
    SamePlan(a, b) && forall i :: 0 <= i < |a.all| && i !in at ==> b.all[i] == a.all[i]
  }

  /** The same nodes and selection; statuses, files and batch numbers can have changed. */
  predicate Renewed(a: Nodes, b: Nodes) {
    && |b.all| == |a.all| && b.early == a.early
    && forall i :: 0 <= i < |a.all| ==>
         b.all[i] == a.all[i].(file := b.all[i].file,
                               row := a.all[i].row.(batch := b.all[i].row.batch, status := b.all[i].row.status))
  }

  /** Some nodes got the status s. */
  predicate SomeSet(a: Nodes, b: Nodes, s: TargetStatus) {
    && |b.all| == |a.all| && b.early == a.early
    && forall i :: 0 <= i < |a.all| ==> b.all[i] == a.all[i] || b.all[i] == Status(a.all[i], s)
  }

  /** The nodes that do not take part are as they were, but for numbering them as excluded. */
  predicate ExcludedKept(a: Nodes, b: Nodes) {
    && |b.all| == |a.all|
    && forall i :: 0 <= i < |a.all| && a.all[i].row.excluded ==>
         && b.all[i] == a.all[i].(row := a.all[i].row.(batch := b.all[i].row.batch, status := b.all[i].row.status))
         && b.all[i].row.status in {a.all[i].row.status, Excluded}
  }

  /** A file that changed is that of an included node whose deployment began. */
  predicate FilesTried(a: Nodes, b: Nodes) {
    && |b.all| == |a.all|
    && forall i: nat :: i < |a.all| && b.all[i].file != a.all[i].file ==> Included(b, i) && Tried(b.all[i].row.status)
  }

  /** ... and nothing happened to nodes that were deployed. */
  predicate TouchedTried(a: Nodes, b: Nodes) {
    FilesTried(a, b) && forall i: nat :: i < |a.all| && IsDeployed(a, i) ==> b.all[i] == a.all[i]
  }

  /** ... and the deployment of the node ended well. */
  predicate TouchedDeployed(a: Nodes, b: Nodes) {
    && |b.all| == |a.all|
    && forall i: nat :: i < |a.all| && b.all[i].file != a.all[i].file ==> Included(b, i) && IsDeployed(b, i)
  }

  lemma TouchedItself(n: Nodes)
    ensures TouchedTried(n, n) && TouchedDeployed(n, n) && FilesTried(n, n)
  {
  }

  lemma TouchedOnce(a: Nodes, b: Nodes, c: Nodes)
    requires TouchedDeployed(a, b) && TouchedTried(b, c)
    ensures FilesTried(a, c)
  {
  }

  lemma TouchedComplete(a: Nodes, b: Nodes, c: Nodes, batch: int)
    requires TouchedDeployed(a, b) && BatchComplete(b, c, batch)
    ensures TouchedDeployed(a, c)
  {
    assert forall i :: 0 <= i < |b.all| ==> Worked(b.all[i], c.all[i]);
  }

  lemma TouchedFiles(a: Nodes, b: Nodes)
    requires TouchedDeployed(a, b)
    ensures FilesTried(a, b)
  {
  }

  /** An automatic rollback leaves the nodes alone that do not take part. */
  lemma AttemptedIncluded(a: Nodes, b: Nodes, candidate: Content)
    requires Truthful(a, candidate) && Only(a, b, Attempted(a))
    ensures ExcludedKept(a, b)
  {
  }

  lemma AttemptedIdle(n: Nodes)
    ensures Only(n, n, Attempted(n)) && Only(n, n, {})
  {
  }

  lemma OnlyItself(n: Nodes, at: set<nat>)
    ensures Only(n, n, at)
  {
  }

  lemma FilesSame(a: Nodes, b: Nodes)
    requires FilesKept(a, b, |a.all|)
    ensures TouchedDeployed(a, b) && FilesTried(a, b)
  {
  }

  lemma ExcludedKeptItself(n: Nodes)
    ensures ExcludedKept(n, n)
  {
  }

  /** Before the rollout no file has changed. */
  lemma LeftItself(a: Nodes, b: Nodes)
    requires FilesKept(a, b, |a.all|)
    ensures FilesTried(a, b) && Only(b, b, Attempted(b)) && UndoneOnly(a, b, b)
  {
  }

  lemma LeftSince(a: Nodes, b: Nodes, c: Nodes)
    requires FilesKept(a, b, |a.all|) && FilesTried(b, c)
    ensures FilesTried(a, c)
  {
  }

  lemma OnlyMore(a: Nodes, b: Nodes, at: set<nat>, more: set<nat>)
    requires Only(a, b, at) && at <= more
    ensures Only(a, b, more)
  {
  }

  lemma DeployingIncluded(n: Nodes, todo: set<nat>, candidate: Content)
    requires Truthful(n, candidate) && forall i :: i in todo ==> i < |n.all| && n.all[i].row.status.Deploying?
    ensures forall i :: i in todo ==> Included(n, i)
  {
  }

  lemma ExcludedKeptOnce(a: Nodes, b: Nodes, c: Nodes)
    requires ExcludedKept(a, b) && ExcludedKept(b, c)
    ensures ExcludedKept(a, c)
  {
  }

  /** No file changed but perhaps the one of node i. */
  predicate FilesKept(a: Nodes, b: Nodes, i: nat) {
    && |b.all| == |a.all|
    && forall j :: 0 <= j < |a.all| && j != i ==> b.all[j].file == a.all[j].file
  }

  lemma SameShape(a: Nodes, b: Nodes)
    requires Shape(a) && SamePlan(a, b)
    ensures Shape(b)
  {
    assert forall i :: 0 <= i < |a.all| ==> Worked(a.all[i], b.all[i]);
  }

  lemma RenewedShape(a: Nodes, b: Nodes)
    requires Shape(a) && Renewed(a, b)
    ensures Shape(b)
  {
    assert forall i :: 0 <= i < |a.all| ==>
        Rows(b)[i] == Rows(a)[i].(batch := Rows(b)[i].batch, status := Rows(b)[i].status);
  }

  lemma StillTruthful(a: Nodes, b: Nodes, at: set<nat>, candidate: Content)
    requires Truthful(a, candidate) && Only(a, b, at)
    requires forall i :: i in at && i < |b.all| && IsDeployed(b, i) ==> b.all[i].file == candidate
    requires forall i :: i in at && i < |a.all| ==> Included(a, i)
    ensures Truthful(b, candidate)
  {
    SameShape(a, b);
    forall i: nat | i < |b.all| && Included(b, i) && IsDeployed(b, i) ensures b.all[i].file == candidate {
      if i !in at { assert Included(a, i) && IsDeployed(a, i); }
    }
    forall i: nat | i < |b.all| && !Included(b, i) ensures !Tried(b.all[i].row.status) {
      assert Worked(a.all[i], b.all[i]) && !Included(a, i);
    }
  }

  lemma UndeployedTruthful(a: Nodes, b: Nodes, at: set<nat>, candidate: Content)
    requires Truthful(a, candidate) && Only(a, b, at)
    requires forall i :: i in at && i < |b.all| ==> b.all[i] == a.all[i] || !Tried(b.all[i].row.status)
    ensures Truthful(b, candidate)
  {
    SameShape(a, b);
    forall i: nat | i < |b.all| && Included(b, i) && IsDeployed(b, i) ensures b.all[i].file == candidate {
      assert b.all[i] == a.all[i] && Included(a, i) && IsDeployed(a, i);
    }
    forall i: nat | i < |b.all| && !Included(b, i) ensures !Tried(b.all[i].row.status) {
      assert Worked(a.all[i], b.all[i]) && !Included(a, i);
    }
  }

  lemma MarkedTruthful(a: Nodes, b: Nodes, i: nat, candidate: Content)
    requires Truthful(a, candidate) && i < |a.all| && Included(a, i) && !IsDeployed(a, i)
    requires b == a || b == Marked(a, i, TargetStatus.Deploying)
    ensures Truthful(b, candidate)
  {
    if b != a {
      var c := b.(early := a.early);
      StillTruthful(a, c, {i}, candidate);
      assert Rows(b) == Rows(c);
      assert b.all == c.all && forall j: nat :: j < |b.all| ==> (Included(b, j) <==> Included(c, j));
    }
  }

  lemma SamePlanItself(n: Nodes)
    ensures SamePlan(n, n) && ExcludedKept(n, n) && Covered(BatchKilled, n)
    ensures Settled(n) ==> Restorable(n, Attempted(n))
  {
  }

  lemma SamePlanRenewed(a: Nodes, b: Nodes)
    requires SamePlan(a, b)
    ensures Renewed(a, b)
  {
    assert forall i :: 0 <= i < |a.all| ==> Worked(a.all[i], b.all[i]);
  }

  lemma RenewedItself(n: Nodes)
    ensures Renewed(n, n)
  {
  }

  lemma RenewedOnce(a: Nodes, b: Nodes, c: Nodes)
    requires Renewed(a, b) && Renewed(b, c)
    ensures Renewed(a, c)
  {
  }

  lemma RenewedStill(a: Nodes, b: Nodes, c: Nodes)
    requires Renewed(a, b) && SamePlan(b, c)
    ensures Renewed(a, c)
  {
    assert forall i :: 0 <= i < |b.all| ==> Worked(b.all[i], c.all[i]);
  }

  lemma FilesKeptItself(n: Nodes, i: nat)
    ensures FilesKept(n, n, i)
  {
  }

  lemma FilesKeptOnce(a: Nodes, b: Nodes, c: Nodes, i: nat)
    requires FilesKept(a, b, i) && FilesKept(b, c, i)
    ensures FilesKept(a, c, i)
  {
  }

  /** Nothing changed but perhaps node i. */
  predicate OthersKept(a: Nodes, b: Nodes, i: nat) {
    && |b.all| == |a.all|
    && forall j :: 0 <= j < |a.all| && j != i ==> b.all[j] == a.all[j]
  }

  lemma MarkedOthers(a: Nodes, b: Nodes, i: nat, s: TargetStatus)
    requires i < |a.all| && (b == a || b == Marked(a, i, s))
    ensures OthersKept(a, b, i)
  {
  }

  lemma OthersKeptOnce(a: Nodes, b: Nodes, c: Nodes, i: nat)
    requires OthersKept(a, b, i) && Only(b, c, {i})
    ensures OthersKept(a, c, i)
  {
  }

  lemma OthersExcluded(a: Nodes, b: Nodes, i: nat)
    requires OthersKept(a, b, i) && i < |a.all| && Included(a, i)
    ensures FilesKept(a, b, i) && ExcludedKept(a, b)
  {
  }

  // ---------------------------------------------------------------------------------------
  // A batch
  // ---------------------------------------------------------------------------------------

  /** The nodes of a batch that are still to be deployed. */
  function ToDeploy(n: Nodes, batch: int): (todo: set<nat>)
    ensures forall i: nat :: i in todo <==>
              i < |n.all| && Included(n, i) && n.all[i].row.batch == batch && !IsDeployed(n, i)
  {
    set i: nat | i < |n.all| && Included(n, i) && n.all[i].row.batch == batch && !IsDeployed(n, i)
  }

  /** The nodes `todo` are in one batch, and the included nodes of lower batches are deployed. */
  predicate Startable(n: Nodes, todo: set<nat>, batch: int) {
    && (forall i :: i in todo ==> Included(n, i) && n.all[i].row.batch == batch && !IsDeployed(n, i))
    && forall j: nat :: j < |n.all| && Included(n, j) && n.all[j].row.batch < batch ==> IsDeployed(n, j)
  }

  lemma NoJump(a: Nodes, b: Nodes, todo: set<nat>, batch: int, k: nat)
    requires Startable(a, todo, batch) && Only(a, b, todo) && k in todo
    ensures k < |b.all| && !Jumps(b, k)
  {
    assert b.all[k].row.batch == batch;
    forall j: nat | j < |b.all| && Included(b, j) && b.all[j].row.batch < batch ensures IsDeployed(b, j) {
      assert Included(a, j) && IsDeployed(a, j);
    }
  }

  /** A node whose deployment began; a success means that it holds the candidate. */
  predicate Attempting(node: Node, candidate: Content) {
    var s := node.row.status;
    s.Deploying? || s.DeploymentFailed? || (s.Deployed? && node.file == candidate)
  }

  /** The deployment of `todo` is under way. */
  predicate Running(a: Nodes, b: Nodes, todo: set<nat>, candidate: Content) {
    Only(a, b, todo) && forall i :: i in todo ==> i < |b.all| && Attempting(b.all[i], candidate)
  }

  /** The deployment of `todo` came to its end, after attempting `affected`. */
  predicate Ran(a: Nodes, b: Nodes, todo: set<nat>, failures: set<nat>, affected: set<nat>) {
    && Only(a, b, todo) && failures <= affected <= todo && (failures == {} ==> affected == todo)
    && forall i :: i in todo && i < |a.all| && i < |b.all| ==>
         if i in failures then b.all[i].row.status.DeploymentFailed?
         else if i in affected then b.all[i].row.status.Deployed?
         else b.all[i].row.status.Deploying? && b.all[i].file == a.all[i].file
  }

  /** A batch in mid-flight: some deployments have not ended, some have, well or not, but are not
      recorded, and of those recorded some failed. */
  datatype Pool = Pool(waiting: set<nat>, finished: set<nat>, good: set<nat>, failures: set<nat>)

  predicate Pooled(a: Nodes, b: Nodes, todo: set<nat>, pool: Pool, candidate: Content) {
    && Running(a, b, todo, candidate)
    && pool.waiting + pool.finished + pool.failures <= todo && pool.waiting !! pool.finished &&
         pool.waiting !! pool.good
    && (pool.waiting + pool.finished) !! pool.failures
    && forall i :: i in todo ==>
         var s := b.all[i].row.status;
         if i in pool.waiting then s.Deploying?
         else if i in pool.finished then s.Deploying? && (i in pool.good ==> b.all[i].file == candidate)
         else if i in pool.failures then s.DeploymentFailed?
         else s.Deployed?
  }

  lemma Landed(a: Nodes, b: Nodes, c: Nodes, todo: set<nat>, pool: Pool, candidate: Content, k: nat, done: bool)
    requires Pooled(a, b, todo, pool, candidate) && k in pool.waiting && k < |b.all|
    requires c == Applied(b, k, candidate) || (!done && c == b)
    ensures Pooled(a, c, todo, pool.(waiting := pool.waiting - {k}, finished := pool.finished + {k},
                                     good := if done then pool.good + {k} else pool.good), candidate)
    ensures Running(a, c, todo, candidate)
  {
  }

  lemma Written(a: Nodes, b: Nodes, c: Nodes, todo: set<nat>, pool: Pool, candidate: Content, k: nat, done: bool,
                failed: bool)
    requires Pooled(a, b, todo, pool, candidate) && k in pool.finished && k < |b.all|
    requires exists s :: c == b.(all := b.all[k := Status(b.all[k], s)])
                      && (s in {b.all[k].row.status, DeploymentFailed} || (k in pool.good && s.Deployed?))
                      && (done ==> s == if failed then DeploymentFailed else TargetStatus.Deployed)
    ensures Running(a, c, todo, candidate) && pool.waiting <= todo
    ensures forall i :: i in pool.waiting ==> i < |c.all| && c.all[i].row.status.Deploying?
    ensures done ==> Pooled(a, c, todo, pool.(finished := pool.finished - {k},
                                              failures := if failed then pool.failures + {k} else pool.failures),
                                                  candidate)
  {
  }

  predicate Skipping(a: Nodes, b: Nodes) {
    && SamePlan(a, b)
    && forall i :: 0 <= i < |a.all| ==>
         || b.all[i] == a.all[i]
         || (b.all[i] == Status(a.all[i], Skipped) && Included(a, i)
             && !IsDeployed(a, i) && !a.all[i].row.status.DeploymentFailed?)
  }

  /** The batch is deployed, and nothing else changed. */
  predicate BatchComplete(a: Nodes, b: Nodes, batch: int) {
    Only(a, b, ToDeploy(a, batch)) && forall i :: i in ToDeploy(a, batch) && i < |b.all| ==> IsDeployed(b, i)
  }

  lemma NothingToDo(n: Nodes, batch: int)
    requires ToDeploy(n, batch) == {}
    ensures SamePlan(n, n) && ExcludedKept(n, n) && BatchComplete(n, n, batch) && (Settled(n) ==> Covered(BatchDone, n))
  {
  }

  /** Work on nodes that were not deployed leaves the rest to the nodes `at`. */
  lemma Cover(a: Nodes, b: Nodes, at: set<nat>, todo: set<nat>)
    requires Only(a, b, todo)
    requires forall i :: i in todo && i < |a.all| ==> !IsDeployed(a, i) && (i in at || b.all[i].file == a.all[i].file)
    requires forall i: nat :: i < |a.all| && Included(a, i) && IsDeployed(a, i) ==> i in at
    ensures Settled(a) ==> Restorable(b, at)
  {
    if Settled(a) {
      SameShape(a, b);
      forall i: nat | i < |b.all| && Included(b, i) ensures b.all[i].snapshot.Some? && (i in at || AtSnapshot(b, i)) {
        assert Included(a, i);
      }
    }
  }

  lemma SkippingItself(a: Nodes)
    ensures Skipping(a, a)
  {
  }

  lemma SkippingOne(a: Nodes, b: Nodes, k: nat)
    requires Skipping(a, b) && k < |b.all|
    requires Included(b, k) && !b.all[k].row.status.DeploymentFailed? && !IsDeployed(b, k)
    ensures Skipping(a, Marked(b, k, Skipped)) && |Marked(b, k, Skipped).all| == |b.all|
  {
  }

  lemma SkippingKeeps(a: Nodes, b: Nodes, at: set<nat>, candidate: Content)
    requires Truthful(a, candidate) && Skipping(a, b)
    requires forall i :: i in at ==> i < |a.all| && (IsDeployed(a, i) || a.all[i].row.status.DeploymentFailed?)
    ensures Truthful(b, candidate)
    ensures Restorable(a, at) ==> Restorable(b, at) && Restorable(b, Attempted(b))
  {
  }

  lemma RunCovered(a: Nodes, b: Nodes, batch: int, done: bool, affected: set<nat>, candidate: Content)
    requires Only(a, b, ToDeploy(a, batch))
    requires forall i :: i in ToDeploy(a, batch) && i < |b.all| ==>
               Attempting(b.all[i], candidate) || b.all[i].file == a.all[i].file
    requires done ==> Ran(a, b, ToDeploy(a, batch), {}, affected)
    ensures Settled(a) ==> Covered(BatchRaised, b) && (done ==> Covered(BatchDone, b))
    ensures Covered(BatchKilled, b)
    ensures SamePlan(a, b) && ExcludedKept(a, b) && (done ==> BatchComplete(a, b, batch))
    ensures TouchedTried(a, b)
  {
    Cover(a, b, Attempted(b), ToDeploy(a, batch));
    if done {
      Cover(a, b, With(b, {TargetStatus.Deployed}), ToDeploy(a, batch));
    }
  }

  lemma FailureCovered(a: Nodes, b: Nodes, c: Nodes, batch: int, already: set<nat>, failures: set<nat>,
                       affected: set<nat>,
                       candidate: Content)
    requires Ran(a, b, ToDeploy(a, batch), failures, affected) && Skipping(b, c) && Truthful(b, candidate)
    requires forall i: nat :: i in already <==> i < |a.all| && Included(a, i) && IsDeployed(a, i)
    ensures Truthful(c, candidate) && SamePlan(a, c) && ExcludedKept(a, c)
    ensures TouchedTried(a, c) && already + affected <= Attempted(c)
    ensures Settled(a) ==> Covered(BatchFailed(already + affected), c) && Covered(BatchRaised, c)
    ensures Covered(BatchKilled, c)
  {
    hide Truthful, Settled, Restorable, Topology, Selectable;
    Cover(a, b, already + affected, ToDeploy(a, batch));
    SkippingKeeps(b, c, already + affected, candidate);
    FailureTouches(a, b, c, batch, already, failures, affected);
  }

  /** After the first failure, in apply order, no file changed. */
  predicate FirstFailureLast(a: Nodes, b: Nodes, todo: set<nat>, failures: set<nat>) {
    && |b.all| == |a.all|
    && forall i, j: nat :: i in failures && j in todo && i < j < |a.all| ==> b.all[j].file == a.all[j].file
  }

  predicate StoppedAtFailure(a: Nodes, b: Nodes, batch: int) {
    && |b.all| == |a.all|
    && forall i, j ::
         i in ToDeploy(a, batch) && j in ToDeploy(a, batch) && i < j && b.all[i].row.status.DeploymentFailed? ==>
           b.all[j].file == a.all[j].file
  }

  lemma FailureStopped(a: Nodes, b: Nodes, c: Nodes, batch: int, failures: set<nat>, affected: set<nat>)
    requires Ran(a, b, ToDeploy(a, batch), failures, affected) && Skipping(b, c)
    requires FirstFailureLast(a, b, ToDeploy(a, batch), failures)
    ensures StoppedAtFailure(a, c, batch)
  {
    forall i, j | i in ToDeploy(a, batch) && j in ToDeploy(a, batch) && i < j && c.all[i].row.status.DeploymentFailed?
      ensures c.all[j].file == a.all[j].file
    {
      assert Worked(b.all[i], c.all[i]) && Worked(b.all[j], c.all[j]);
      assert i in failures;
    }
  }

  lemma FailureTouches(a: Nodes, b: Nodes, c: Nodes, batch: int, already: set<nat>, failures: set<nat>,
                       affected: set<nat>)
    requires Ran(a, b, ToDeploy(a, batch), failures, affected) && Skipping(b, c)
    requires forall i: nat :: i in already <==> i < |a.all| && Included(a, i) && IsDeployed(a, i)
    ensures TouchedTried(a, c) && already + affected <= Attempted(c)
    ensures SamePlan(a, c) && ExcludedKept(a, c)
  {
    forall i: nat | i < |a.all|
      ensures Worked(a.all[i], c.all[i])
      ensures c.all[i].file != a.all[i].file ==> Included(c, i) && Tried(c.all[i].row.status)
      ensures IsDeployed(a, i) ==> c.all[i] == a.all[i]
      ensures a.all[i].row.excluded ==> c.all[i] == a.all[i]
      ensures i in already + affected ==> Tried(c.all[i].row.status)
    {
      assert Worked(a.all[i], b.all[i]) && Worked(b.all[i], c.all[i]);
    }
  }

  // ---------------------------------------------------------------------------------------
  // A rollout
  // ---------------------------------------------------------------------------------------

  /** The nodes with other batch numbers; only an excluded node can have another status. */
  predicate Renumbered(a: Nodes, b: Nodes) {
    && |b.all| == |a.all| && b.early == a.early
    && forall i :: 0 <= i < |a.all| ==>
         b.all[i] == a.all[i].(row := b.all[i].row) && RenumberedRow(a.all[i].row, b.all[i].row)
  }

  predicate RenumberedRow(a: Target, b: Target) {
    && b == a.(batch := b.batch, status := b.status)
    && (b.status == a.status || (a.excluded && b.status.Excluded?))
  }

  predicate Replanned(n: Nodes, settings: Settings) {
    Numbered(Rows(n), EffectiveSize(Rows(n), settings.rolling, settings.batchSize))
  }

  lemma RenumberedItself(n: Nodes)
    ensures Renumbered(n, n)
  {
  }

  lemma RenumberedAt(a: Nodes, b: Nodes, i: nat)
    requires Renumbered(a, b) && i < |a.all|
    ensures |b.all| == |a.all| && b.all[i].snapshot == a.all[i].snapshot && (Included(b, i) <==> Included(a, i))
  {
  }

  lemma RenumberedFine(a: Nodes, b: Nodes, c: Nodes, candidate: Content)
    requires Truthful(b, candidate) && Renewed(a, b) && Renumbered(b, c) && ExcludedKept(a, b)
    ensures Truthful(c, candidate) && Renewed(a, c) && ExcludedKept(a, c) && FilesKept(b, c, |a.all|)
    ensures Settled(b) ==> Settled(c) && Restorable(c, Attempted(c))
  {
    RenewedShape(b, c);
  }

  lemma RenumberedTried(a: Nodes, b: Nodes, candidate: Content)
    requires Renumbered(a, b) && Truthful(b, candidate)
    ensures (forall i: nat :: i < |a.all| && Included(a, i) ==> a.all[i].row.status.Pending?) ==> Attempted(b) == {}
  {
    if forall i: nat :: i < |a.all| && Included(a, i) ==> a.all[i].row.status.Pending? {
      forall i: nat | i < |b.all| ensures i !in Attempted(b) {
        if Included(b, i) { assert Included(a, i) && RenumberedRow(a.all[i].row, b.all[i].row); }
      }
    }
  }

  lemma SelectionStands(rows: seq<Target>, canaries: set<nat>, excluded: set<nat>)
    requires Topology(rows) && Selectable(rows)
    requires canaries == set i: nat | i < |rows| && rows[i].isCanary :: rows[i].server
    requires excluded == set i: nat | i < |rows| && rows[i].excluded :: rows[i].server
    ensures !BadSelection(rows, canaries, excluded)
    ensures forall i :: 0 <= i < |rows| ==> Flagged(rows[i], canaries, excluded) == rows[i]
  {
  }

  lemma PlanStands(rows: seq<Target>, plan: seq<Target>, canaries: set<nat>, excluded: set<nat>, size: nat)
    requires Planned(rows, plan, canaries, excluded, size)
    requires forall i :: 0 <= i < |rows| ==> Flagged(rows[i], canaries, excluded) == rows[i]
    ensures |plan| == |rows| && forall i :: 0 <= i < |plan| ==> RenumberedRow(rows[i], plan[i])
    ensures Numbered(plan, size)
  {
  }

  /** A reset of nodes that hold their snapshots settles them. */
  lemma ResetFine(a: Nodes, b: Nodes, candidate: Content)
    requires Truthful(a, candidate) && (b == a || b == Reset(a))
    ensures Truthful(b, candidate) && Renewed(a, b) && Shape(b) && ExcludedKept(a, b) && FilesKept(a, b, |a.all|)
    ensures Restored(a) ==> Settled(b) && Restored(b)
  {
    RenewedShape(a, b);
  }

  /** The batches of the nodes still to be deployed are all in `numbers`. */
  predicate Queued(n: Nodes, numbers: set<int>) {
    forall i: nat :: i < |n.all| && Included(n, i) && !IsDeployed(n, i) ==> n.all[i].row.batch in numbers
  }

  /** ... and in each of them somebody waits. */
  predicate AllAwaited(n: Nodes, numbers: set<int>) {
    forall b :: b in numbers ==> ToDeploy(n, b) != {}
  }

  lemma NotAllDeployed(n: Nodes, batch: int)
    ensures ToDeploy(n, batch) != {} ==> !AllDeployed(n)
  {
    if ToDeploy(n, batch) != {} {
      var i :| i in ToDeploy(n, batch);
    }
  }

  lemma SomeAwaits(n: Nodes, numbers: set<int>, batch: int)
    requires AllAwaited(n, numbers) && batch in numbers
    ensures ToDeploy(n, batch) != {}
  {
  }

  lemma OthersAwait(a: Nodes, b: Nodes, numbers: set<int>, batch: int)
    requires AllAwaited(a, numbers) && BatchComplete(a, b, batch)
    ensures AllAwaited(b, numbers - {batch})
  {
    forall m | m in numbers - {batch} ensures ToDeploy(b, m) != {} {
      var i :| i in ToDeploy(a, m);
      assert i !in ToDeploy(a, batch) && b.all[i] == a.all[i];
      assert i in ToDeploy(b, m);
    }
  }

  lemma AwaitedFrom(n: Nodes, numbers: set<int>)
    requires numbers == set i: nat | i < |n.all| && Included(n, i) && !IsDeployed(n, i) :: n.all[i].row.batch
    ensures AllAwaited(n, numbers)
  {
    forall b | b in numbers ensures ToDeploy(n, b) != {} {
      var i: nat :| i < |n.all| && Included(n, i) && !IsDeployed(n, i) && n.all[i].row.batch == b;
      assert i in ToDeploy(n, b);
    }
  }

  lemma AllQueued(n: Nodes, numbers: set<int>)
    requires numbers == set i: nat | i < |n.all| && Included(n, i) && !IsDeployed(n, i) :: n.all[i].row.batch
    ensures Queued(n, numbers)
  {
  }

  lemma NobodyQueued(n: Nodes)
    requires Queued(n, {})
    ensures AllDeployed(n)
  {
  }

  lemma {:induction false} MinExists(numbers: set<int>)
    requires numbers != {}
    ensures exists n :: n in numbers && forall m :: m in numbers ==> n <= m
  {
    assert (forall k :: k !in numbers) ==> numbers == {};
    var n: int :| n in numbers;
    var rest := numbers - {n};
    assert forall k :: k in numbers ==> k == n || k in rest;
    if rest != {} {
      MinExists(rest);
      var m: int :| m in rest && forall k :: k in rest ==> m <= k;
      var least := if n <= m then n else m;
      assert least in numbers && forall k :: k in numbers ==> least <= k;
    }
  }

  lemma CanStart(n: Nodes, numbers: set<int>, batch: int)
    requires Queued(n, numbers) && forall m :: m in numbers ==> batch <= m
    ensures Startable(n, ToDeploy(n, batch), batch)
  {
  }

  lemma Dequeued(a: Nodes, b: Nodes, numbers: set<int>, batch: int)
    requires Queued(a, numbers) && BatchComplete(a, b, batch)
    ensures Queued(b, numbers - {batch})
  {
    forall i: nat | i < |b.all| && Included(b, i) && !IsDeployed(b, i) ensures b.all[i].row.batch in numbers - {batch} {
      assert i !in ToDeploy(a, batch);
      assert Included(a, i) && !IsDeployed(a, i);
    }
  }

  // ---------------------------------------------------------------------------------------
  // Rolling back
  // ---------------------------------------------------------------------------------------

  predicate Captured(n: Nodes, ids: set<nat>) {
    forall i: nat :: i in ids && i < |n.all| ==> n.all[i].snapshot.Some?
  }

  lemma CoverCaptured(n: Nodes, at: set<nat>, candidate: Content)
    requires Truthful(n, candidate) && at <= Attempted(n)
    ensures Restorable(n, at) ==> Captured(n, at)
  {
  }

  /** A file that changed is the snapshot. */
  predicate FilesBack(a: Nodes, b: Nodes) {
    && |b.all| == |a.all|
    && forall i: nat :: i < |a.all| ==> b.all[i].file == a.all[i].file || a.all[i].snapshot == Some(b.all[i].file)
  }

  lemma FilesBackItself(n: Nodes)
    ensures FilesBack(n, n)
  {
  }

  /** What an automatic rollback changed, of nodes a that a rollout had left as `left`: it became the
      snapshot, and was the file of a node deployed before or changed by the rollout. */
  predicate UndoneOnly(a: Nodes, left: Nodes, b: Nodes) {
    && |b.all| == |left.all| == |a.all|
    && forall i: nat :: i < |a.all| && b.all[i].file != left.all[i].file ==>
         && Included(a, i) && a.all[i].snapshot == Some(b.all[i].file)
         && (IsDeployed(a, i) || left.all[i].file != a.all[i].file)
  }

  lemma UndoneOnlyThose(a: Nodes, left: Nodes, b: Nodes, candidate: Content)
    requires Settled(a) && Renewed(a, left) && Truthful(left, candidate)
    requires Only(left, b, Attempted(left)) && FilesBack(left, b)
    ensures UndoneOnly(a, left, b)
  {
    forall i: nat | i < |a.all| && b.all[i].file != left.all[i].file
      ensures Included(a, i) && a.all[i].snapshot == Some(b.all[i].file)
      ensures IsDeployed(a, i) || left.all[i].file != a.all[i].file
    {
      assert i in Attempted(left) && Included(left, i);
    }
  }

  lemma UndoneOnlySince(a: Nodes, b: Nodes, left: Nodes, c: Nodes)
    requires Reconciled(a, b) && UndoneOnly(b, left, c)
    ensures UndoneOnly(a, left, c)
  {
  }

  /** The nodes `ids` from k on are rolled back, but for the failures. */
  predicate Undone(a: Nodes, b: Nodes, ids: set<nat>, failures: set<nat>, k: nat) {
    && Only(a, b, ids)
    && (forall i :: i in ids && i < |b.all| ==> b.all[i] == a.all[i] || !Tried(b.all[i].row.status))
    && FilesBack(a, b)
    && forall i: nat :: i in ids - failures && k <= i < |b.all| ==> AtSnapshot(b, i) && b.all[i].row.status.RolledBack?
  }

  lemma UndoneNone(n: Nodes, ids: set<nat>)
    ensures Undone(n, n, ids, {}, |n.all|)
  {
  }

  lemma CapturedAt(a: Nodes, b: Nodes, ids: set<nat>, failures: set<nat>, k: nat)
    requires Undone(a, b, ids, failures, k + 1) && k in ids && k < |b.all|
    ensures Captured(a, ids) ==> b.all[k].snapshot.Some?
  {
  }

  lemma UndoneStep(a: Nodes, b: Nodes, c: Nodes, ids: set<nat>, known: set<nat>, failures: set<nat>, k: nat,
                   done: bool)
    requires Undone(a, b, ids, known, k + 1) && (failures == known || failures == known + {k}) && k < |b.all| &&
               (k !in ids ==> c == b)
    requires k in ids ==> Only(b, c, {k}) && (c.all[k] == b.all[k] || !Tried(c.all[k].row.status)) && FilesBack(b, c)
    requires k in ids && k !in failures && done ==> AtSnapshot(c, k) && c.all[k].row.status.RolledBack?
    ensures |c.all| == |b.all|
    ensures Undone(a, c, ids, failures, if done then k else k + 1)
  {
  }

  lemma UndoneFine(a: Nodes, b: Nodes, ids: set<nat>, failures: set<nat>, k: nat, candidate: Content)
    requires Truthful(a, candidate) && Undone(a, b, ids, failures, k)
    ensures Truthful(b, candidate) && Only(a, b, ids) && FilesBack(a, b)
    ensures k == 0 ==> forall i: nat :: i in ids - failures && i < |b.all| ==>
              AtSnapshot(b, i) && b.all[i].row.status.RolledBack?
  {
    UndeployedTruthful(a, b, ids, candidate);
  }

  lemma RollbackRestores(a: Nodes, b: Nodes, at: set<nat>, failures: set<nat>, done: bool)
    requires Only(a, b, at)
    requires done ==> forall i: nat :: i in at - failures && i < |b.all| ==> AtSnapshot(b, i)
    ensures SamePlan(a, b) && (done && failures == {} && Restorable(a, at) ==> Restored(b))
  {
    if done && failures == {} && Restorable(a, at) {
      SameShape(a, b);
      forall i: nat | i < |b.all| && Included(b, i) ensures b.all[i].snapshot.Some? && AtSnapshot(b, i) {
        assert Included(a, i) && Worked(a.all[i], b.all[i]);
        assert i in at ==> i in at - failures;
      }
    }
  }

  /** The nodes rolled back with a change that is not deployed. */
  function Changed(n: Nodes): set<nat> {
    With(n, {TargetStatus.Deployed, TargetStatus.Deploying, DeploymentFailed, TargetStatus.DeploymentInterrupted,
             TargetStatus.RollbackFailed, TargetStatus.RollingBack})
  }

  function Everyone(n: Nodes): (ids: set<nat>)
    ensures forall i: nat :: i in ids <==> i < |n.all|
  {
    set i: nat {:trigger n.all[i]} | i < |n.all|
  }

  lemma LoadedFine(a: Nodes, b: Nodes)
    requires Renumbered(a, b)
    ensures Renewed(a, b) && (AllDeployed(a) ==> AllDeployed(b))
  {
    forall i: nat | i < |b.all| && Included(b, i) && AllDeployed(a) ensures IsDeployed(b, i) {
      assert Included(a, i) && RenumberedRow(a.all[i].row, b.all[i].row);
    }
  }

  lemma EverythingRestored(a: Nodes, b: Nodes, c: Nodes, ids: set<nat>, all: bool, done: bool)
    requires Renumbered(a, b) && Only(b, c, ids) && Shape(a)
    requires all ==> ids == Everyone(b)
    requires !all ==> ids == Changed(b)
    requires done ==> forall i: nat :: i in ids && i < |c.all| ==> AtSnapshot(c, i)
    ensures Renewed(a, c)
    ensures done && all ==> forall i :: 0 <= i < |c.all| ==> AtSnapshot(c, i)
    ensures done && Restorable(a, Changed(a)) ==> Restored(c)
  {
    LoadedFine(a, b);
    RenewedStill(a, b, c);
    RenewedShape(a, c);
    forall i: nat | i < |c.all| && Included(c, i) && done && Restorable(a, Changed(a))
      ensures c.all[i].snapshot.Some? && AtSnapshot(c, i)
    {
      assert Included(a, i) && RenumberedRow(a.all[i].row, b.all[i].row);
    }
  }

  // ---------------------------------------------------------------------------------------
  // What the commands on single nodes ask for
  // ---------------------------------------------------------------------------------------

  /** The statuses that nobody but a command leaves, and that one on nodes starts from. */
  predicate Resting(d: Desk) {
    d.status in ACTIONABLE && !d.status.AwaitingPromotion?
  }

  /** An included node that does not have the candidate already, among nodes that nobody else edited. */
  predicate Retryable(d: Desk, n: Nodes, i: nat, candidate: Content) {
    && Resting(d) && i < |n.all| && Included(n, i) && AllResolvable(n, candidate)
    && !(IsDeployed(n, i) && n.all[i].file == candidate)
  }

  /** An included node that was changed, and whose snapshot is there. */
  predicate Undoable(d: Desk, n: Nodes, i: nat) {
    && (Resting(d) || d.status.Deployed?) && i < |n.all| && Included(n, i) && n.all[i].snapshot.Some?
    && n.all[i].row.status in {TargetStatus.Deployed, DeploymentFailed, TargetStatus.DeploymentInterrupted,
                               TargetStatus.RollbackFailed}
  }

  /** A plan that can be changed. */
  predicate Editable(d: Desk) {
    d.status in ACTIONABLE || d.status.Draft? || d.status.ValidationFailed?
  }

  predicate Excludable(n: Nodes, i: nat) {
    && i < |n.all| && n.all[i].row.role.Slave?
    && n.all[i].row.status !in {TargetStatus.Deployed, TargetStatus.Deploying, TargetStatus.RollingBack}
  }

  /** A change with something to roll back, and all snapshots. */
  predicate AllUndoable(d: Desk, n: Nodes) {
    && (forall i :: 0 <= i < |n.all| ==> n.all[i].snapshot.Some?)
    && (d.status.Deployed? ||
        (d.status in {ChangeStatus.RollbackFailed, AutoRollbackFailed, ChangeStatus.DeploymentInterrupted, Paused} &&
         exists i: nat :: i in Changed(n) && Included(n, i)))
  }

  lemma RetryableMeans(d: Desk, n: Nodes, i: nat, candidate: Content)
    ensures Retryable(d, n, i, candidate) ==> Resting(d) && i < |n.all| && Included(n, i) && AllResolvable(n, candidate)
  {
  }

  lemma UndoableStatus(d: Desk, n: Nodes)
    ensures AllUndoable(d, n) ==>
              d.status in {ChangeStatus.Deployed, ChangeStatus.RollbackFailed, AutoRollbackFailed,
                           ChangeStatus.DeploymentInterrupted, Paused}
  {
  }

  lemma SomethingToUndo(d: Desk, a: Nodes, b: Nodes, ids: set<nat>, all: bool)
    requires Renumbered(a, b) && Shape(b) && ids == if all then Everyone(b) else Changed(b)
    ensures AllUndoable(d, a) && (all || !d.status.Deployed?) ==> ids != {} && Captured(b, ids)
  {
    if AllUndoable(d, a) && !all && !d.status.Deployed? {
      var i: nat :| i in Changed(a) && Included(a, i);
      assert RenumberedRow(a.all[i].row, b.all[i].row);
      assert i in ids;
    }
    if all { assert 0 in Everyone(b); }
  }

  // ---------------------------------------------------------------------------------------
  // Reconciling, recovering and selecting
  // ---------------------------------------------------------------------------------------

  /** A node whose file is not somebody else's. */
  predicate Resolvable(node: Node, candidate: Content) {
    node.snapshot.Some? && (node.file == candidate || node.snapshot == Some(node.file))
  }

  predicate AllResolvable(n: Nodes, candidate: Content) {
    forall i: nat :: i < |n.all| && Included(n, i) ==> Resolvable(n.all[i], candidate)
  }

  /** Where a reconciled node stands: the candidate it was deployed with, or something to redo. */
  predicate Resolved(node: Node, candidate: Content) {
    && Resolvable(node, candidate)
    && ((node.row.status.Deployed? && node.file == candidate) || node.row.status.Pending?)
  }

  /** The nodes, numbered and reconciled: no file changed, and what was settled is. */
  predicate Reconciled(a: Nodes, b: Nodes) {
    && Renewed(a, b) && ExcludedKept(a, b)
    && (forall i :: 0 <= i < |a.all| ==> b.all[i].file == a.all[i].file && (IsDeployed(b, i) ==> IsDeployed(a, i)))
    && (Settled(a) ==> Settled(b)) && (Restored(a) ==> Restored(b))
  }

  lemma ReconciledItself(n: Nodes)
    ensures Reconciled(n, n)
  {
  }

  lemma ReconciledGives(a: Nodes, b: Nodes)
    requires Reconciled(a, b)
    ensures Renewed(a, b) && (Settled(a) ==> Settled(b)) && (Restored(a) ==> Restored(b))
    ensures ExcludedKept(a, b) && FilesKept(a, b, |a.all|)
  {
  }

  lemma ReconciledOnce(a: Nodes, b: Nodes, c: Nodes)
    requires Reconciled(a, b) && Reconciled(b, c)
    ensures Reconciled(a, c)
  {
  }

  lemma RenumberedReconciled(a: Nodes, b: Nodes, candidate: Content)
    requires Truthful(a, candidate) && Renumbered(a, b)
    ensures Truthful(b, candidate) && Reconciled(a, b)
  {
    RenewedShape(a, b);
  }

  lemma ResolvableStill(a: Nodes, b: Nodes, candidate: Content)
    requires Reconciled(a, b)
    ensures AllResolvable(a, candidate) <==> AllResolvable(b, candidate)
  {
    forall i: nat | i < |a.all|
      ensures (Included(b, i) <==> Included(a, i)) &&
                (Resolvable(b.all[i], candidate) <==> Resolvable(a.all[i], candidate))
    {
      assert b.all[i].file == a.all[i].file;
    }
  }

  lemma StillToDeploy(d: Desk, a: Nodes, b: Nodes, i: nat, candidate: Content)
    requires Reconciled(a, b) && i < |a.all| && (Included(b, i) ==> Resolved(b.all[i], candidate))
    ensures Included(b, i) <==> Included(a, i)
    ensures Retryable(d, a, i, candidate) ==> !IsDeployed(b, i)
  {
  }

  lemma RestoredStill(a: Nodes, b: Nodes)
    requires Reconciled(a, b)
    ensures Restored(a) <==> Restored(b)
  {
    if Restored(b) {
      RenewedBack(a, b);
      forall i: nat | i < |a.all| && Included(a, i) ensures a.all[i].snapshot.Some? && AtSnapshot(a, i) {
        assert Included(b, i) && AtSnapshot(b, i);
      }
    }
  }

  lemma RenewedBack(a: Nodes, b: Nodes)
    requires Renewed(a, b) && Shape(b)
    ensures Shape(a)
  {
    assert forall i :: 0 <= i < |a.all| ==>
        Rows(a)[i] == Rows(b)[i].(batch := Rows(a)[i].batch, status := Rows(a)[i].status);
  }

  lemma RequeuedReconciled(a: Nodes, b: Nodes, c: Nodes, candidate: Content)
    requires Truthful(b, candidate) && Reconciled(a, b) && SomeSet(b, c, TargetStatus.Pending)
    requires forall i: nat :: i < |b.all| && IsDeployed(b, i) && c.all[i].file == candidate ==> IsDeployed(c, i)
    requires forall i: nat :: i < |b.all| && !Included(b, i) ==> c.all[i] == b.all[i]
    ensures Truthful(c, candidate) && Reconciled(a, c)
  {
    hide Settled, Restored, Reconciled, Topology, Selectable;
    RenewedShape(b, c);
    RequeuedSettled(b, c, candidate);
    ReconciledOnce(a, b, c);
  }

  lemma RequeuedSettled(b: Nodes, c: Nodes, candidate: Content)
    requires Truthful(b, candidate) && SomeSet(b, c, TargetStatus.Pending) && Shape(c)
    requires forall i: nat :: i < |b.all| && IsDeployed(b, i) && c.all[i].file == candidate ==> IsDeployed(c, i)
    requires forall i: nat :: i < |b.all| && !Included(b, i) ==> c.all[i] == b.all[i]
    ensures Reconciled(b, c)
  {
    hide Topology, Selectable;
    forall i: nat | i < |b.all|
      ensures c.all[i].file == b.all[i].file && c.all[i].snapshot == b.all[i].snapshot
      ensures (IsDeployed(c, i) ==> IsDeployed(b, i)) && (Included(c, i) <==> Included(b, i))
      ensures Included(b, i) && IsDeployed(b, i) ==> IsDeployed(c, i)
    {
      assert c.all[i] == b.all[i] || c.all[i] == Status(b.all[i], TargetStatus.Pending);
    }
  }

  lemma ReconciledFiles(a: Nodes, b: Nodes, i: nat)
    requires Reconciled(a, b)
    ensures FilesKept(a, b, i) && |b.all| == |a.all|
    ensures forall j :: 0 <= j < |a.all| ==> b.all[j].row.excluded == a.all[j].row.excluded
  {
  }

  function WithSnapshot(n: Nodes, i: nat): Nodes
    requires i < |n.all|
  {
    if n.all[i].snapshot.None? then Capturing(n, i) else n
  }

  /** Node i was taken into the plan or out of it; of the others, only numbers followed. */
  predicate SelectedOnly(a: Nodes, b: Nodes, i: nat, chosen: bool) {
    && |b.all| == |a.all| && i < |a.all|
    && b.all[i] == a.all[i].(row := a.all[i].row.(excluded := !chosen, isCanary := a.all[i].row.isCanary && chosen,
                                                  batch := b.all[i].row.batch,
                                                  status := if chosen then TargetStatus.Pending else Excluded))
    && forall j :: 0 <= j < |a.all| && j != i ==>
         b.all[j] == a.all[j].(row := b.all[j].row) && RenumberedRow(a.all[j].row, b.all[j].row)
  }

  lemma SelectedOnlyIs(a: Nodes, b: Nodes, c: Nodes, i: nat, chosen: bool)
    requires i < |a.all| && b == (if chosen then Including(a, i) else Excluding(a, i)) && Renumbered(b, c)
    ensures SelectedOnly(a, c, i, chosen)
  {
  }

  /** A node whose file a deployment or a rollback can have written, and no rollback restored since. */
  predicate Disturbed(node: Node) {
    match node.row.status
    case Pending => false
    case Skipped => false
    case RolledBack => false
    case Excluded => false
    case _ => true
  }

  lemma ChangedRestored(a: Nodes, b: Nodes, c: Nodes, ids: set<nat>, all: bool)
    requires Renumbered(a, b) && ids == (if all then Everyone(b) else Changed(b)) && |c.all| == |b.all|
    requires forall i: nat :: i in ids && i < |c.all| ==> AtSnapshot(c, i)
    ensures forall i: nat :: i < |c.all| && Included(a, i) && Disturbed(a.all[i]) ==> AtSnapshot(c, i)
  {
    forall i: nat | i < |c.all| && Included(a, i) && Disturbed(a.all[i])
      ensures AtSnapshot(c, i)
    {
      assert RenumberedRow(a.all[i].row, b.all[i].row);
      assert i in ids;
    }
  }

  /** A rollback of nodes a, or of those that were worked on: a file that changed became the snapshot, and
      the others have at most another batch number, or are numbered as excluded. */
  predicate Withdrawn(a: Nodes, c: Nodes, all: bool) {
    && FilesBack(a, c)
    && forall i: nat :: i < |a.all| && !all && !Disturbed(a.all[i]) ==>
         c.all[i] == a.all[i].(row := c.all[i].row) && RenumberedRow(a.all[i].row, c.all[i].row)
  }

  lemma WithdrawnItself(a: Nodes, b: Nodes, all: bool)
    requires Renumbered(a, b)
    ensures Withdrawn(a, b, all)
  {
  }

  lemma WithdrawnThose(a: Nodes, b: Nodes, c: Nodes, ids: set<nat>, all: bool)
    requires Renumbered(a, b) && Only(b, c, ids) && FilesBack(b, c)
    requires ids == if all then Everyone(b) else Changed(b)
    ensures Withdrawn(a, c, all)
  {
    forall i: nat | i < |a.all| && !all && !Disturbed(a.all[i])
      ensures c.all[i] == a.all[i].(row := c.all[i].row) && RenumberedRow(a.all[i].row, c.all[i].row)
    {
      assert RenumberedRow(a.all[i].row, b.all[i].row);
      assert i !in ids;
    }
  }

  /** None of the first k nodes has the status s. */
  predicate NoneIs(n: Nodes, s: TargetStatus, k: nat) {
    forall i :: 0 <= i < k && i < |n.all| ==> n.all[i].row.status != s
  }

  lemma SomeSetNone(n: Nodes, s: TargetStatus, active: TargetStatus)
    ensures SomeSet(n, n, s) && NoneIs(n, active, 0)
  {
  }

  lemma SomeSetStep(a: Nodes, b: Nodes, c: Nodes, k: nat, active: TargetStatus, after: TargetStatus, done: bool)
    requires SomeSet(a, b, after) && NoneIs(b, active, k) && k < |b.all| && active != after && !after.Deploying?
    requires c == b || c == Marked(b, k, after)
    requires done ==> c == if b.all[k].row.status == active then Marked(b, k, after) else b
    ensures SomeSet(a, c, after) && (done ==> NoneIs(c, active, k + 1)) && |c.all| == |b.all|
  {
  }

  lemma SomeSetFine(a: Nodes, b: Nodes, s: TargetStatus, candidate: Content)
    requires Truthful(a, candidate) && SomeSet(a, b, s) && !Tried(s)
    ensures Truthful(b, candidate) && SamePlan(a, b) && FilesKept(a, b, |b.all|)
  {
    forall i | 0 <= i < |a.all| ensures Worked(a.all[i], b.all[i]) {
      assert b.all[i] == a.all[i] || b.all[i] == Status(a.all[i], s);
    }
    UndeployedTruthful(a, b, Everyone(a), candidate);
  }

  /** Excluding a slave, including a node, or capturing a snapshot keeps the shape and the files. */
  lemma SelectedFine(a: Nodes, b: Nodes, i: nat, candidate: Content)
    requires Truthful(a, candidate) && i < |a.all|
    requires || b == a || b == Capturing(a, i)
             || (b == Excluding(a, i) && a.all[i].row.role.Slave?)
             || (b == Including(a, i) && a.all[i].row.excluded)
    ensures Truthful(b, candidate) && FilesKept(a, b, |a.all|)
  {
    assert forall j :: 0 <= j < |a.all| ==>
        Rows(b)[j].server == Rows(a)[j].server && Rows(b)[j].role == Rows(a)[j].role;
    assert Topology(Rows(b));
    assert Selectable(Rows(b));
  }
}
