/** Canary and main batches of a rollout (app/modules/change/service.py). */
module RolloutPlan {
  datatype Role = Slave | Master | Standalone

  datatype TargetStatus =
    | Pending | Deploying | Deployed | DeploymentFailed | DeploymentInterrupted | Skipped
    | RollingBack | RolledBack | RollbackFailed | Excluded

  /** A node of the rollout, in safe apply order. A batch of -1 stands for "not taking part". */
  datatype Target = Target(server: nat, role: Role, isCanary: bool, excluded: bool, batch: int, status: TargetStatus)

  /** _rollout_servers: the slaves, and the master or standalone node last. */
  predicate Topology(targets: seq<Target>) {
    && |targets| > 0
    && !targets[|targets| - 1].role.Slave?
    && (forall i :: 0 <= i < |targets| - 1 ==> targets[i].role.Slave?)
    && forall i, j :: 0 <= i < j < |targets| ==> targets[i].server != targets[j].server
  }

  /** Only slaves can be canaries or left out, and not both. */
  predicate Selectable(targets: seq<Target>) {
    forall i :: 0 <= i < |targets| && (targets[i].isCanary || targets[i].excluded) ==>
      targets[i].role.Slave? && !(targets[i].isCanary && targets[i].excluded)
  }

  predicate Regular(t: Target) {
    !t.excluded && !t.isCanary
  }

  function CountRegular(targets: seq<Target>): (n: nat)
    ensures n <= |targets|
  {
    if targets == [] then 0
    else CountRegular(targets[..|targets| - 1]) + if Regular(targets[|targets| - 1]) then 1 else 0
  }

  function CountIncluded(targets: seq<Target>): (n: nat)
    ensures n <= |targets|
  {
    if targets == [] then 0
    else CountIncluded(targets[..|targets| - 1]) + if targets[|targets| - 1].excluded then 0 else 1
  }

  predicate AnyCanary(targets: seq<Target>) {
    exists i :: 0 <= i < |targets| && targets[i].isCanary && !targets[i].excluded
  }

  function FirstMain(targets: seq<Target>): nat {
    if AnyCanary(targets) then 1 else 0
  }

  /** The size of the main batches: as configured, or one node, or all at once. */
  function EffectiveSize(targets: seq<Target>, rolling: bool, batchSize: nat): (n: nat)
    ensures n > 0
  {
    if batchSize > 0 then batchSize else if rolling || CountIncluded(targets) == 0 then 1 else CountIncluded(targets)
  }

  /** The batch of node i: canaries first, then the others in order, `size` at a time. */
  function BatchOf(targets: seq<Target>, size: nat, i: nat): int
    requires i < |targets| && size > 0
  {
    if targets[i].excluded then -1
    else if targets[i].isCanary then 0
    else FirstMain(targets) + CountRegular(targets[..i]) / size
  }

  /** The targets as numbered by a plan. */
  predicate Numbered(targets: seq<Target>, size: nat) {
    size > 0 && forall i :: 0 <= i < |targets| ==> targets[i].batch == BatchOf(targets, size, i)
  }

  datatype PlanError = UnknownTarget | CanaryAndExcluded | CanaryNotSlave | ExcludedNotSlave

  datatype PlanResult = Plan(targets: seq<Target>) | Rejected(error: PlanError)

  predicate UnknownSelected(targets: seq<Target>, canaries: set<nat>, excluded: set<nat>) {
    exists id :: id in canaries + excluded && forall i :: 0 <= i < |targets| ==> targets[i].server != id
  }

  /** The selections a plan refuses: a node the cluster does not have, a node chosen twice, and a
      master or standalone node chosen at all. */
  predicate BadSelection(targets: seq<Target>, canaries: set<nat>, excluded: set<nat>) {
    || UnknownSelected(targets, canaries, excluded)
    || canaries * excluded != {}
    || exists i :: 0 <= i < |targets| && !targets[i].role.Slave? && targets[i].server in canaries + excluded
  }

  predicate SomeMaster(targets: seq<Target>, chosen: set<nat>) {
    exists i :: 0 <= i < |targets| && !targets[i].role.Slave? && targets[i].server in chosen
  }

  function Flagged(t: Target, canaries: set<nat>, excluded: set<nat>): Target {
    t.(isCanary := t.server in canaries, excluded := t.server in excluded)
  }

  /** The flags of `after` say what was selected, and its numbers follow from them. */
  predicate Planned(before: seq<Target>, after: seq<Target>, canaries: set<nat>, excluded: set<nat>, size: nat) {
    && |after| == |before|
    && (forall i :: 0 <= i < |after| ==>
          var flagged := Flagged(before[i], canaries, excluded);
          after[i] == flagged.(batch := after[i].batch,
                               status := if flagged.excluded then Excluded else flagged.status))
    && Numbered(after, size)
  }

  /** _prepare_rollout_plan. */
  method PreparePlan(targets: seq<Target>, rolling: bool, batchSize: nat, canaries: set<nat>, excluded: set<nat>)
    returns (r: PlanResult)
    ensures r.Rejected? <==> BadSelection(targets, canaries, excluded)
    ensures r == Rejected(UnknownTarget) <==> UnknownSelected(targets, canaries, excluded)
    ensures r == Rejected(CanaryAndExcluded) <==>
              !UnknownSelected(targets, canaries, excluded) && canaries * excluded != {}
    ensures r == Rejected(CanaryNotSlave) ==> SomeMaster(targets, canaries)
    ensures r == Rejected(ExcludedNotSlave) ==> SomeMaster(targets, excluded)
    ensures r.Plan? ==>
              Planned(targets, r.targets, canaries, excluded, EffectiveSize(r.targets, rolling, batchSize))
  {
    hide Numbered, EffectiveSize, CountRegular, CountIncluded;
    var known := set i | 0 <= i < |targets| :: targets[i].server;
    if !(canaries + excluded <= known) {
      var id :| id in canaries + excluded && id !in known;
      assert forall i :: 0 <= i < |targets| ==> targets[i].server in known;
      return Rejected(UnknownTarget);
    }
    if canaries * excluded != {} { return Rejected(CanaryAndExcluded); }
    var normalized: seq<Target> := [];
    for k := 0 to |targets|
      invariant |normalized| == k
      invariant forall i :: 0 <= i < k ==> normalized[i] == Flagged(targets[i], canaries, excluded)
      invariant forall i :: 0 <= i < k && !targets[i].role.Slave? ==> targets[i].server !in canaries + excluded
    {
      var t := targets[k];
      if !t.role.Slave? && t.server in canaries { return Rejected(CanaryNotSlave); }
      if !t.role.Slave? && t.server in excluded { return Rejected(ExcludedNotSlave); }
      normalized := normalized + [Flagged(t, canaries, excluded)];
    }
    var size := EffectiveSize(normalized, rolling, batchSize);
    var plan := AssignBatches(normalized, size);
    SameFlags(normalized, plan, size);
    assert EffectiveSize(plan, rolling, batchSize) == size by { SameSize(normalized, plan, rolling, batchSize); }
    r := Plan(plan);
  }

  lemma SameSize(a: seq<Target>, b: seq<Target>, rolling: bool, batchSize: nat)
    requires CountIncluded(a) == CountIncluded(b)
    ensures EffectiveSize(a, rolling, batchSize) == EffectiveSize(b, rolling, batchSize)
  {}

  method AssignBatches(normalized: seq<Target>, size: nat) returns (plan: seq<Target>)
    requires size > 0
    ensures |plan| == |normalized|
    ensures forall i :: 0 <= i < |plan| ==>
              plan[i] == normalized[i].(batch := plan[i].batch,
                                        status := if normalized[i].excluded then Excluded else normalized[i].status)
    ensures Numbered(plan, size)
  {
    hide CountIncluded;
    var next := FirstMain(normalized);
    var index := 0;
    plan := [];
    for k := 0 to |normalized|
      invariant |plan| == k && index == CountRegular(normalized[..k])
      invariant forall i :: 0 <= i < k ==>
                  plan[i] == normalized[i].(batch := BatchOf(normalized, size, i),
                                            status := if normalized[i].excluded then Excluded else normalized[i].status)
    {
      var t := normalized[k];
      assert normalized[..k + 1][..k] == normalized[..k];
      if t.excluded {
        t := t.(batch := -1, status := Excluded);
      } else if t.isCanary {
        t := t.(batch := 0);
      } else {
        t := t.(batch := next + index / size);
        index := index + 1;
      }
      plan := plan + [t];
    }
    assert normalized[..|normalized|] == normalized;
    SameFlags(normalized, plan, size);
  }

  /** Numbering looks only at who takes part and who is a canary. */
  lemma SameFlags(a: seq<Target>, b: seq<Target>, size: nat)
    requires |a| == |b| && size > 0
    requires forall i :: 0 <= i < |a| ==> a[i].isCanary == b[i].isCanary && a[i].excluded == b[i].excluded
    ensures CountIncluded(a) == CountIncluded(b) && CountRegular(a) == CountRegular(b) && FirstMain(a) == FirstMain(b)
    ensures forall i :: 0 <= i < |a| ==> BatchOf(a, size, i) == BatchOf(b, size, i)
  {
    SameCounts(a, b);
    forall i | 0 <= i < |a| ensures BatchOf(a, size, i) == BatchOf(b, size, i) {
      SameCounts(a[..i], b[..i]);
      assert AnyCanary(a) <==> AnyCanary(b) by {
        assert forall j :: 0 <= j < |a| ==> (a[j].isCanary && !a[j].excluded <==> b[j].isCanary && !b[j].excluded);
      }
    }
    assert AnyCanary(a) <==> AnyCanary(b) by {
      assert forall j :: 0 <= j < |a| ==> (a[j].isCanary && !a[j].excluded <==> b[j].isCanary && !b[j].excluded);
    }
  }

  lemma {:induction false} SameCounts(a: seq<Target>, b: seq<Target>)
    requires |a| == |b|
    requires forall i :: 0 <= i < |a| ==> a[i].isCanary == b[i].isCanary && a[i].excluded == b[i].excluded
    ensures CountIncluded(a) == CountIncluded(b) && CountRegular(a) == CountRegular(b)
  {
    if a != [] {
      SameCounts(a[..|a| - 1], b[..|b| - 1]);
    }
  }

  // ---------------------------------------------------------------------------------------
  // What the numbering promises
  // ---------------------------------------------------------------------------------------

  /** The last batch, which is the primary's. */
  function LastBatch(targets: seq<Target>, size: nat): int
    requires |targets| > 0 && size > 0
  {
    BatchOf(targets, size, |targets| - 1)
  }

  function CountBatch(targets: seq<Target>, size: nat, n: nat, batch: int): nat
    requires n <= |targets| && size > 0
  {
    if n == 0 then 0
    else CountBatch(targets, size, n - 1, batch) + if BatchOf(targets, size, n - 1) == batch then 1 else 0
  }

  lemma {:induction false} CountRegularMonotone(targets: seq<Target>, i: nat, j: nat)
    requires i <= j <= |targets|
    ensures CountRegular(targets[..i]) <= CountRegular(targets[..j])
    ensures i < j && Regular(targets[i]) ==> CountRegular(targets[..i]) < CountRegular(targets[..j])
    decreases j
  {
    if i < j {
      CountRegularMonotone(targets, i, j - 1);
      assert targets[..j][..j - 1] == targets[..j - 1];
    }
  }

  /** How many of `rank` nodes in a row fall in the `size` places from `low` on. */
  function Share(rank: nat, low: nat, size: nat): int {
    if rank <= low then 0 else if rank <= low + size then rank - low else size
  }

  /** How many of the first n nodes are in main batch number b: as many as fit, of those there are. */
  lemma {:induction false} MainBatchCount(targets: seq<Target>, size: nat, n: nat, b: nat)
    requires n <= |targets| && size > 0 && (FirstMain(targets) == 0 || b > 0)
    requires b >= FirstMain(targets)
    ensures CountBatch(targets, size, n, b) == Share(CountRegular(targets[..n]), (b - FirstMain(targets)) * size, size)
    decreases n
  {
    hide AnyCanary, FirstMain, BatchOf, Share;
    var low: nat := Places(b - FirstMain(targets), size);
    if n > 0 {
      MainBatchCount(targets, size, n - 1, b);
      assert targets[..n][..n - 1] == targets[..n - 1];
      InBatch(targets, size, n - 1, b, low);
      ShareNext(CountRegular(targets[..n - 1]), low, size);
    } else {
      ShareNext(0, low, size);
    }
  }

  function Places(batches: nat, size: nat): (places: nat)
    ensures places == batches * size
  {
    batches * size
  }

  lemma ShareNext(rank: nat, low: nat, size: nat)
    ensures Share(0, low, size) == 0
    ensures Share(rank + 1, low, size) == Share(rank, low, size) + if low <= rank < low + size then 1 else 0
  {
  }

  lemma InBatch(targets: seq<Target>, size: nat, i: nat, b: nat, low: nat)
    requires i < |targets| && size > 0 && (FirstMain(targets) == 0 || b > 0)
    requires b >= FirstMain(targets) && low == (b - FirstMain(targets)) * size
    ensures BatchOf(targets, size, i) == b <==> Regular(targets[i]) && low <= CountRegular(targets[..i]) < low + size
  {
    hide CountRegular;
    Within(CountRegular(targets[..i]), size, b - FirstMain(targets));
    if targets[i].isCanary && !targets[i].excluded { assert AnyCanary(targets); }
  }

  lemma Within(rank: nat, size: nat, b: nat)
    requires size > 0
    ensures rank / size == b <==> b * size <= rank < b * size + size
  {
    assert rank == (rank / size) * size + rank % size;
    if rank / size < b {
      Times(rank / size + 1, b, size);
    } else if rank / size > b {
      Times(b + 1, rank / size, size);
    }
  }

  lemma Times(a: nat, b: nat, size: nat)
    requires a <= b
    ensures a * size <= b * size
  {
    assert b * size == a * size + (b - a) * size;
  }

  lemma {:induction false} CountFinds(targets: seq<Target>, size: nat, n: nat, batch: int) returns (i: nat)
    requires n <= |targets| && size > 0 && CountBatch(targets, size, n, batch) > 0
    ensures i < n && BatchOf(targets, size, i) == batch
  {
    i := n - 1;
    if BatchOf(targets, size, n - 1) != batch {
      i := CountFinds(targets, size, n - 1, batch);
    }
  }

  /** For every topology, selection and batch size: included nodes have batches 0 to the primary's,
      excluded ones none. */
  lemma PrimaryLast(targets: seq<Target>, size: nat, i: nat)
    requires Topology(targets) && Selectable(targets) && size > 0 && i < |targets|
    ensures targets[i].excluded <==> BatchOf(targets, size, i) == -1
    ensures !targets[i].excluded ==> 0 <= BatchOf(targets, size, i) <= LastBatch(targets, size)
  {
    LastBatchIs(targets, size);
    if targets[i].isCanary && !targets[i].excluded {
      assert AnyCanary(targets);
    } else if !targets[i].excluded {
      RegularBatch(targets, size, i);
    }
  }

  lemma LastBatchIs(targets: seq<Target>, size: nat)
    requires Topology(targets) && Selectable(targets) && size > 0
    ensures LastBatch(targets, size) == FirstMain(targets) + CountRegular(targets[..|targets| - 1]) / size
    ensures LastBatch(targets, size) >= 0
  {
    PrimaryRegular(targets);
    hide Topology, Selectable, CountRegular, AnyCanary;
    DivMonotone(0, CountRegular(targets[..|targets| - 1]), size);
  }

  lemma RegularBatch(targets: seq<Target>, size: nat, i: nat)
    requires |targets| > 0 && size > 0 && i < |targets| && Regular(targets[i])
    requires LastBatch(targets, size) == FirstMain(targets) + CountRegular(targets[..|targets| - 1]) / size
    ensures 0 <= BatchOf(targets, size, i) <= LastBatch(targets, size)
  {
    hide CountRegular, AnyCanary;
    CountRegularMonotone(targets, i, |targets| - 1);
    DivMonotone(CountRegular(targets[..i]), CountRegular(targets[..|targets| - 1]), size);
    DivMonotone(0, CountRegular(targets[..i]), size);
  }

  lemma DivMonotone(a: nat, b: nat, size: nat)
    requires a <= b && size > 0
    ensures a / size <= b / size
  {
    var q, p := a / size, b / size;
    assert q * size <= a by { Within(a, size, q); }
    assert b < (p + 1) * size by { Within(b, size, p); }
    assert q > p ==> (p + 1) * size <= q * size by {
      if q > p { Times(p + 1, q, size); }
    }
  }

  /** ... without gaps: some included node is in every batch up to the primary's, ... */
  lemma NoGaps(targets: seq<Target>, size: nat, b: nat) returns (i: nat)
    requires Topology(targets) && Selectable(targets) && size > 0 && b <= LastBatch(targets, size)
    ensures i < |targets| && !targets[i].excluded && BatchOf(targets, size, i) == b
  {
    if b < FirstMain(targets) {
      i :| i < |targets| && targets[i].isCanary && !targets[i].excluded;
    } else {
      BatchNotEmpty(targets, size, b);
      i := CountFinds(targets, size, |targets|, b);
    }
  }

  lemma BatchNotEmpty(targets: seq<Target>, size: nat, b: nat)
    requires Topology(targets) && Selectable(targets) && size > 0 && FirstMain(targets) <= b <= LastBatch(targets, size)
    ensures CountBatch(targets, size, |targets|, b) > 0
    ensures b < LastBatch(targets, size) ==> CountBatch(targets, size, |targets|, b) == size
  {
    assert |targets| > 0;
    hide Topology, Selectable, CountBatch, Share, CountRegular, AnyCanary, FirstMain;
    var last, first := |targets| - 1, FirstMain(targets);
    PrimaryRegular(targets);
    var rank := CountRegular(targets[..last]);
    assert targets[..|targets|] == targets;
    RegularAdded(targets);
    LastBatchIs(targets, size);
    NoCanaryInMain(targets, b);
    MainBatchCount(targets, size, |targets|, b);
    FullShare(rank, b - first, rank / size, size);
  }

  lemma RegularAdded(targets: seq<Target>)
    requires targets != [] && Regular(targets[|targets| - 1])
    ensures CountRegular(targets) == CountRegular(targets[..|targets| - 1]) + 1
  {
  }

  /** Of rank + 1 nodes, batch b has some, and as many as fit if `rank` is in a later one. */
  lemma FullShare(rank: nat, b: nat, top: nat, size: nat)
    requires size > 0 && top == rank / size && b <= top
    ensures Share(rank + 1, b * size, size) > 0
    ensures b < top ==> Share(rank + 1, b * size, size) == size
  {
    Within(rank, size, top);
    Times(b, top, size);
    if b < top {
      Times(b + 1, top, size);
      assert (b + 1) * size == b * size + size;
    }
  }

  lemma PrimaryRegular(targets: seq<Target>)
    requires Topology(targets) && Selectable(targets)
    ensures Regular(targets[|targets| - 1])
  {}

  lemma NoCanaryInMain(targets: seq<Target>, b: nat)
    requires FirstMain(targets) <= b
    ensures FirstMain(targets) == 0 || b > 0
  {}

  /** ... and every main batch but the primary's is filled exactly. */
  lemma MainBatchesFull(targets: seq<Target>, size: nat, b: nat)
    requires Topology(targets) && Selectable(targets) && size > 0 && FirstMain(targets) <= b < LastBatch(targets, size)
    ensures CountBatch(targets, size, |targets|, b) == size
  {
    BatchNotEmpty(targets, size, b);
  }

  /** Some included node has the batch. */
  predicate HasBatch(targets: seq<Target>, batch: int) {
    exists i :: 0 <= i < |targets| && !targets[i].excluded && targets[i].batch == batch
  }

  /** Every plan that is not refused: included nodes are numbered 0 to the primary's batch without a
      gap, excluded ones not, and every main batch before the primary's has its full size. */
  lemma PlannedBatches(before: seq<Target>, after: seq<Target>, canaries: set<nat>, excluded: set<nat>, size: nat)
    requires Topology(before) && !BadSelection(before, canaries, excluded) &&
               Planned(before, after, canaries, excluded, size)
    ensures Topology(after) && Selectable(after)
    ensures forall i :: 0 <= i < |after| ==>
              if after[i].excluded then after[i].batch == -1 else 0 <= after[i].batch <= after[|after| - 1].batch
    ensures forall b: nat :: b <= after[|after| - 1].batch ==> HasBatch(after, b)
    ensures forall b: nat :: FirstMain(after) <= b < after[|after| - 1].batch ==>
              CountBatch(after, size, |after|, b) == size
  {
    PlannedShape(before, after, canaries, excluded, size);
    hide Topology, Selectable, BadSelection, FirstMain, CountBatch, BatchOf;
    assert LastBatch(after, size) == after[|after| - 1].batch;
    forall i | 0 <= i < |after|
      ensures if after[i].excluded then after[i].batch == -1 else 0 <= after[i].batch <= after[|after| - 1].batch
    {
      PrimaryLast(after, size, i);
    }
    forall b: nat | b <= after[|after| - 1].batch
      ensures HasBatch(after, b)
    {
      var i := NoGaps(after, size, b);
    }
    forall b: nat | FirstMain(after) <= b < after[|after| - 1].batch
      ensures CountBatch(after, size, |after|, b) == size
    {
      MainBatchesFull(after, size, b);
    }
  }

  /** How many nodes have a batch number. */
  function CountIn(targets: seq<Target>, batch: int): nat {
    if targets == [] then 0
    else CountIn(targets[..|targets| - 1], batch) + if targets[|targets| - 1].batch == batch then 1 else 0
  }

  /** The main batches are as configured: of the given size, single nodes if nodes go one by one, or all
      nodes at once. Only the primary's can have fewer. */
  lemma BatchesAsConfigured(before: seq<Target>, after: seq<Target>, canaries: set<nat>, excluded: set<nat>,
                            rolling: bool, batchSize: nat)
    requires Topology(before) && !BadSelection(before, canaries, excluded)
    requires Planned(before, after, canaries, excluded, EffectiveSize(after, rolling, batchSize))
    ensures |after| == |before| > 0
    ensures var last := after[|after| - 1].batch;
            && last >= FirstMain(after) && CountIn(after, last) > 0
            && (batchSize > 0 ==> CountIn(after, last) <= batchSize &&
                                  forall b: nat :: FirstMain(after) <= b < last ==> CountIn(after, b) == batchSize)
            && (batchSize == 0 && rolling ==> forall b: nat :: FirstMain(after) <= b <= last ==> CountIn(after, b) == 1)
            && (batchSize == 0 && !rolling ==> last == FirstMain(after))
  {
    var size := EffectiveSize(after, rolling, batchSize);
    PlannedShape(before, after, canaries, excluded, size);
    PrimaryRegular(after);
    LastBatchIs(after, size);
    LastCount(after, size);
    OneBatchIfAll(after);
    hide Topology, Selectable, BadSelection, FirstMain, CountBatch, BatchOf, CountIncluded, CountRegular;
    forall b: nat | FirstMain(after) <= b <= LastBatch(after, size)
      ensures CountIn(after, b) == CountBatch(after, size, |after|, b)
      ensures b < LastBatch(after, size) ==> CountIn(after, b) == size
    {
      CountedIn(after, size, |after|, b);
      assert after[..|after|] == after;
      if b < LastBatch(after, size) { MainBatchesFull(after, size, b); }
    }
  }

  lemma {:induction false} CountedIn(targets: seq<Target>, size: nat, n: nat, batch: int)
    requires Numbered(targets, size) && n <= |targets|
    ensures CountIn(targets[..n], batch) == CountBatch(targets, size, n, batch)
  {
    if n > 0 {
      CountedIn(targets, size, n - 1, batch);
      assert targets[..n][..n - 1] == targets[..n - 1];
    }
  }

  lemma LastCount(targets: seq<Target>, size: nat)
    requires Topology(targets) && Selectable(targets) && size > 0
    ensures LastBatch(targets, size) >= FirstMain(targets)
    ensures 0 < CountBatch(targets, size, |targets|, LastBatch(targets, size)) <= size
  {
    LastBatchIs(targets, size);
    PrimaryRegular(targets);
    DivMonotone(0, CountRegular(targets[..|targets| - 1]), size);
    NoCanaryInMain(targets, LastBatch(targets, size));
    BatchNotEmpty(targets, size, LastBatch(targets, size));
    MainBatchCount(targets, size, |targets|, LastBatch(targets, size));
  }

  lemma OneBatchIfAll(targets: seq<Target>)
    requires Topology(targets) && Selectable(targets)
    ensures CountIncluded(targets) > 0
    ensures LastBatch(targets, CountIncluded(targets)) == FirstMain(targets)
  {
    RegularIncluded(targets[..|targets| - 1]);
    PrimaryRegular(targets);
    LastBatchIs(targets, CountIncluded(targets));
  }

  lemma {:induction false} RegularIncluded(targets: seq<Target>)
    ensures CountRegular(targets) <= CountIncluded(targets)
  {
    if targets != [] { RegularIncluded(targets[..|targets| - 1]); }
  }

  /** Nodes that are not canaries start in apply order. */
  lemma InApplyOrder(targets: seq<Target>, size: nat, i: nat, j: nat)
    requires size > 0 && i <= j < |targets| && Regular(targets[i]) && Regular(targets[j])
    ensures FirstMain(targets) <= BatchOf(targets, size, i) <= BatchOf(targets, size, j)
  {
    CountRegularMonotone(targets, i, j);
    DivMonotone(CountRegular(targets[..i]), CountRegular(targets[..j]), size);
    DivMonotone(0, CountRegular(targets[..i]), size);
  }

  lemma PlannedShape(before: seq<Target>, after: seq<Target>, canaries: set<nat>, excluded: set<nat>, size: nat)
    requires Topology(before) && !BadSelection(before, canaries, excluded) &&
               Planned(before, after, canaries, excluded, size)
    ensures Topology(after) && Selectable(after) && |after| > 0
  {
    assert forall i :: 0 <= i < |after| ==> after[i].server == before[i].server && after[i].role == before[i].role;
    forall i | 0 <= i < |after| && (after[i].isCanary || after[i].excluded)
      ensures after[i].role.Slave? && !(after[i].isCanary && after[i].excluded)
    {
      assert before[i].server in canaries + excluded;
      assert before[i].server !in canaries * excluded;
    }
  }
}
