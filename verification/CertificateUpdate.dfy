/** Replacing a certificate that HAProxy already serves (app/scripts/certificate_remote.py).

    Two resources change together, the PEM file on disk and the certificate in the running
    HAProxy, through a journal that survives a killed worker. The class `Host` carries out the
    program's own steps, any of which may fail, take effect and still fail, or be the last one
    before the worker dies. The functions `DeployPoint` and `RollbackPoint` say which states a
    deployment and a rollback pass through; each method promises to stop at one of these. */
module CertificateUpdate {
  import opened Outcomes
  import opened Pems

  /** pending.json. Its two fingerprints are the leaves of the two contents. */
  datatype Journal = Journal(transaction: Option<nat>, digest: Pem, oldDigest: Pem, committed: bool)

  /** `active` and `staged` are HAProxy's certificate and open transaction for the path; `foreign`
      says that a transaction for some other path is open. `served` is a history variable: what
      HAProxy served when the journal was last created. */
  datatype HostState = HostState(disk: Option<Pem>, previous: Option<Pem>, pending: Option<Journal>,
                                 applied: Option<Pem>, active: Option<Pem>, staged: Option<Pem>,
                                 foreign: bool, served: Option<Pem>)

  datatype Request = Request(transaction: Option<nat>, pem: Pem, expectedRevision: Option<Pem>)

  // ---------------------------------------------------------------------------------------
  // The states that a deployment and a rollback pass through
  // ---------------------------------------------------------------------------------------

  /** What deployment checks before its first effect. */
  predicate Admissible(s: HostState, q: Request) {
    && q.pem.leaf != 0
    && s.disk.Some?
    && match s.pending
       case Some(j) => j.transaction == q.transaction && j.digest == q.pem
                       && s.disk.value in {j.oldDigest, q.pem}
       case None => && (q.expectedRevision.Some? ==> q.expectedRevision == s.disk)
                    && Leaf(s.active) != 0 && Leaf(s.active) == s.disk.value.leaf
                    && s.staged.None? && !s.foreign
  }

  /** What deployment checks in HAProxy once its journal exists. */
  predicate Proceeds(s: HostState, q: Request) {
    && s.pending.Some?
    && s.active.Some? && Leaf(s.active) in {s.pending.value.oldDigest.leaf, q.pem.leaf}
    && (s.staged.Some? ==> Leaf(s.staged) == q.pem.leaf)
    && !s.foreign
  }

  /** A completed deployment is found again: the retry does not commit a second time. */
  predicate AlreadyCommitted(s: HostState, q: Request) {
    && s.pending.Some? && s.pending.value.committed
    && s.disk == Some(q.pem) && Leaf(s.active) == q.pem.leaf
  }

  /** The effect number n of a deployment that began in state s, now in state p. */
  function DeployEffect(s: HostState, q: Request, n: nat, p: HostState): HostState {
    match n
    case 1 => if s.pending.None? then p.(previous := s.disk) else p
    case 2 => if s.pending.None? && s.disk.Some?
              then p.(pending := Some(Journal(q.transaction, q.pem, s.disk.value, false)), served := s.active)
              else p
    case 3 => if AlreadyCommitted(s, q) || p.staged.Some? then p else p.(staged := Some(q.pem))
    case 4 => p.(disk := Some(q.pem))
    case 5 => if AlreadyCommitted(s, q) then p else p.(active := p.staged, staged := None)
    case 6 => p.(applied := Some(q.pem))
    case 7 => if p.pending.Some? then p.(pending := Some(p.pending.value.(committed := true))) else p
    case 8 => if q.transaction.None? then p.(pending := None) else p
    case 9 => if q.transaction.None? then p.(previous := None) else p
    case _ => p
  }

  /** The state after the first n effects of a deployment that began in state s. */
  function DeployPoint(s: HostState, q: Request, n: nat): HostState {
    if n == 0 then s else DeployEffect(s, q, n, DeployPoint(s, q, n - 1))
  }

  /** The state in which the journal has just been opened, or was found. */
  function Opened(s: HostState, q: Request): HostState {
    if s.pending.Some? || s.disk.None? then s
    else s.(previous := s.disk, served := s.active, pending := Some(Journal(q.transaction, q.pem, s.disk.value, false)))
  }

  /** What rollback checks before its first effect. */
  predicate CanRollBack(s: HostState) {
    && s.pending.Some? && s.disk.Some? && s.active.Some?
    && var j := s.pending.value;
       && s.disk.value in {j.oldDigest, j.digest}
       && Leaf(s.active) in {j.oldDigest.leaf, j.digest.leaf}
       && (s.staged.Some? ==> Leaf(s.staged) in {j.oldDigest.leaf, j.digest.leaf})
       && !s.foreign
  }

  /** The journal's copy of the old certificate is there too, and HAProxy will load it. */
  predicate Recoverable(s: HostState) {
    CanRollBack(s) && s.previous.Some? && Leaf(s.previous) == s.pending.value.oldDigest.leaf
  }

  function RollbackEffect(n: nat, p: HostState): HostState {
    match n
    case 1 => p.(staged := None)
    case 2 => p.(disk := p.previous)
    case 3 => p.(staged := p.previous)
    case 4 => p.(active := p.staged, staged := None)
    case 5 => p.(applied := None)
    case 6 => p.(pending := None)
    case 7 => p.(previous := None)
    case _ => p
  }

  /** The state after the first n effects of a rollback that began in state s. */
  function RollbackPoint(s: HostState, n: nat): HostState {
    if n == 0 then s else RollbackEffect(n, RollbackPoint(s, n - 1))
  }

  predicate DeployReaches(s: HostState, q: Request, n: nat, p: HostState) {
    && n <= 9
    && p == DeployPoint(s, q, n)
    && (n > 0 ==> Admissible(s, q))
    && (n > 2 ==> Proceeds(Opened(s, q), q))
  }

  predicate RollbackReaches(s: HostState, n: nat, p: HostState) {
    && n <= 7
    && p == RollbackPoint(s, n)
    && (n > 0 ==> CanRollBack(s))
    && (n > 1 ==> s.previous.Some?)
  }

  /** Everything a deployment can leave behind, however it ends. */
  ghost predicate DeployEnds(s: HostState, q: Request, r: Outcome, t: HostState) {
    match r
    case Done => DeployReaches(s, q, 9, t) || (t == s && s.pending.None? && s.applied == s.disk == Some(q.pem))
    case Failed => (exists n :: DeployReaches(s, q, n, t) && (n <= 2 || n >= 7)) || RolledBackFrom(s, q, 7, t)
    case _ => exists k :: RolledBackFrom(s, q, k, t)
  }

  /** Some point of the deployment, then the first k effects of a rollback. */
  ghost predicate RolledBackFrom(s: HostState, q: Request, k: nat, t: HostState) {
    exists n, p :: DeployReaches(s, q, n, p) && RollbackReaches(p, k, t)
  }

  ghost predicate RollbackEnds(s: HostState, r: Outcome, t: HostState) {
    if r.Done? then RollbackReaches(s, 7, t) else exists n :: RollbackReaches(s, n, t)
  }

  predicate CanCommit(s: HostState) {
    s.pending.Some? && s.disk == Some(s.pending.value.digest) && Leaf(s.active) == s.pending.value.digest.leaf
  }

  predicate CommitEnds(s: HostState, r: Outcome, t: HostState) {
    || (t == s && !r.Done?)
    || (CanCommit(s) && t == s.(pending := None) && !r.Done?)
    || (CanCommit(s) && t == s.(pending := None, previous := None))
  }

  ghost predicate FinishEnds(s: HostState, op: Operation, transaction: Option<nat>, r: Outcome, t: HostState) {
    if s.pending.None? || s.pending.value.transaction != transaction then t == s
    else if op.RollBack? then RollbackEnds(s, r, t)
    else CommitEnds(s, r, t)
  }

  function WithJournal(s: HostState, journal: Option<Journal>): HostState {
    s.(pending := journal, served := if s.pending.None? && journal.Some? then s.active else s.served)
  }

  /** What a rollback leaves for later calls: the transaction, and the digest of the old file. */
  datatype Receipt = Receipt(transaction: Option<nat>, digest: Option<Pem>)

  /** finished_receipt: the host is as the finished commit or rollback left it. */
  predicate Completed(s: HostState, op: Operation, transaction: Option<nat>, expected: Option<Pem>,
                      receipt: Option<Receipt>) {
    expected.Some? ==>
      if op.CommitJournal? then s.applied == s.disk == expected && Leaf(s.active) == Leaf(s.disk) != 0
      else receipt.Some? ==>
        && receipt.value.transaction == transaction && receipt.value.digest == s.disk
        && Leaf(s.active) == Leaf(s.disk) && (s.disk.Some? ==> Leaf(s.disk) != 0)
  }

  // ---------------------------------------------------------------------------------------
  // The program
  // ---------------------------------------------------------------------------------------

  /** The managed host. Each private method is one call with an effect: it takes effect when it is
      Done, and may or may not do so when it fails or is the last before the worker dies. */
  class Host {
    var now: HostState
    /** rollback-receipt.json. */
    var receipt: Option<Receipt>
    /** If set, no call fails and the worker is not killed. */
    const reliable: bool
    /** If set, that is so during a rollback. */
    const recovers: bool

    /** `set ssl cert`, and the check that the transaction holds the certificate. */
    method StageCertificate(pem: Pem, sure: bool) returns (r: Outcome)
      modifies this`now
      ensures now == old(now).(staged := Some(pem)) || (!r.Done? && now == old(now))
      ensures sure ==> r.Done?
      ensures !r.RecoveryFailed?
    {
      var effect;
      r, effect := Attempt(sure);
      if effect { now := now.(staged := Some(pem)); }
      if r.Done? { r := Ask(sure); }
      if r.Done? && Leaf(now.staged) != pem.leaf { r := Failed; }
    }

    /** `commit ssl cert`. The reply may be lost, and the request may be refused in a reply that
        nobody reads; the certificate and the open transactions decide what happened. */
    method CommitCertificate(leaf: nat, sure: bool) returns (r: Outcome)
      requires now.staged.Some?
      modifies this`now
      ensures now == old(now).(active := old(now).staged, staged := None) || (!r.Done? && now == old(now))
      ensures r.Done? ==> Leaf(now.active) == leaf
      ensures sure && Leaf(old(now).staged) == leaf ==> r.Done?
      ensures !r.RecoveryFailed?
    {
      var reply, effect := Attempt(sure);
      var refused: bool := *;
      if effect && (sure || !refused) { now := now.(active := now.staged, staged := None); }
      if reply.Killed? { return reply; }
      if !reply.Done? {
        :- Ask(sure);
        if Leaf(now.active) != leaf { return Failed; }
      }
      :- Ask(sure);
      return if now.staged.Some? || Leaf(now.active) != leaf then Failed else Done;
    }

    /** `abort ssl cert`, and the check that no transaction is left. */
    method AbortTransaction(sure: bool) returns (r: Outcome)
      modifies this`now
      ensures now == old(now).(staged := None) || (!r.Done? && now == old(now))
      ensures sure && !now.foreign ==> r.Done?
      ensures !r.RecoveryFailed?
    {
      var effect;
      r, effect := Attempt(sure);
      if effect { now := now.(staged := None); }
      if r.Done? { r := Ask(sure); }
      if r.Done? && (now.staged.Some? || now.foreign) { r := Failed; }
    }

    /** Atomic replacement of the served file. */
    method WriteTarget(content: Option<Pem>, sure: bool) returns (r: Outcome)
      modifies this`now
      ensures now == old(now).(disk := content) || (!r.Done? && now == old(now))
      ensures sure ==> r.Done?
      ensures !r.RecoveryFailed?
    {
      var effect;
      r, effect := Attempt(sure);
      if effect { now := now.(disk := content); }
    }

    method WritePrevious(content: Option<Pem>, sure: bool) returns (r: Outcome)
      modifies this`now
      ensures now == old(now).(previous := content) || (!r.Done? && now == old(now))
      ensures sure ==> r.Done?
      ensures !r.RecoveryFailed?
    {
      var effect;
      r, effect := Attempt(sure);
      if effect { now := now.(previous := content); }
    }

    method WriteReceipt(content: Option<Pem>, sure: bool) returns (r: Outcome)
      modifies this`now
      ensures now == old(now).(applied := content) || (!r.Done? && now == old(now))
      ensures sure ==> r.Done?
      ensures !r.RecoveryFailed?
    {
      var effect;
      r, effect := Attempt(sure);
      if effect { now := now.(applied := content); }
    }

    /** Creating the journal also records, for the proof, what HAProxy serves at that moment. */
    method WriteJournal(content: Option<Journal>, sure: bool) returns (r: Outcome)
      modifies this`now
      ensures now == WithJournal(old(now), content) || (!r.Done? && now == old(now))
      ensures sure ==> r.Done?
      ensures !r.RecoveryFailed?
    {
      var effect;
      r, effect := Attempt(sure);
      if effect { now := WithJournal(now, content); }
    }

    /** finish_runtime with operation 'rollback', up to the point where both resources are old. */
    method RestoreBoth() returns (r: Outcome, ghost n: nat)
      modifies this`now
      ensures RollbackReaches(old(now), n, now) && n <= 4 && (r.Done? ==> n == 4)
      ensures r.Done? ==> Recoverable(old(now))
      ensures (reliable || recovers) && Recoverable(old(now)) ==> r.Done?
      ensures !r.RecoveryFailed?
    {
      var sure := reliable || recovers;
      ghost var s := now;
      n := 0;
      r := Ask(sure);
      if r.IsFailure() { return; }
      if now.pending.None? || now.disk.None? ||
         now.disk.value !in {now.pending.value.oldDigest, now.pending.value.digest} {
        return Failed, n;
      }
      var oldLeaf, leaves := now.pending.value.oldDigest.leaf,
          {now.pending.value.oldDigest.leaf, now.pending.value.digest.leaf};
      if now.active.None? || Leaf(now.active) !in leaves || now.foreign ||
         (now.staged.Some? && Leaf(now.staged) !in leaves) {
        return Failed, n;
      }
      if now.staged.Some? {
        r := AbortTransaction(sure);
      }
      n := RollbackAdvance(s, n, s, now);
      if r.IsFailure() { return; }
      if now.previous.None? { return Failed, n; }
      ghost var p := now;
      r := WriteTarget(now.previous, sure);
      n := RollbackAdvance(s, n, p, now);
      if r.Done? { r := Ask(sure); }
      if r.Done? {
        p := now;
        r := StageCertificate(now.previous.value, sure);
        n := RollbackAdvance(s, n, p, now);
      }
      if r.Done? {
        p := now;
        r := CommitCertificate(oldLeaf, sure);
        n := RollbackAdvance(s, n, p, now);
      }
    }

    /** finish_runtime with operation 'rollback'. */
    method Rollback() returns (r: Outcome, ghost n: nat)
      modifies this`now
      ensures RollbackReaches(old(now), n, now) && (r.Done? ==> n == 7)
      ensures r.Done? ==> Recoverable(old(now))
      ensures (reliable || recovers) && Recoverable(old(now)) ==> r.Done?
      ensures !r.RecoveryFailed?
    {
      var sure := reliable || recovers;
      ghost var s := now;
      r, n := RestoreBoth();
      ghost var p := now;
      if r.Done? {
        r := WriteReceipt(None, sure);
        n := RollbackAdvance(s, n, p, now);
      }
      if r.Done? {
        p := now;
        r := WriteJournal(None, sure);
        n := RollbackAdvance(s, n, p, now);
      }
      if r.Done? {
        p := now;
        r := WritePrevious(None, sure);
        n := RollbackAdvance(s, n, p, now);
      }
    }

    /** finish_runtime with operation 'commit'. */
    method Commit() returns (r: Outcome)
      modifies this`now
      ensures CommitEnds(old(now), r, now)
      ensures r.Done? ==> CanCommit(old(now)) && now == old(now).(pending := None, previous := None)
      ensures reliable ==> (r.Done? <==> CanCommit(old(now)))
      ensures !r.RecoveryFailed?
    {
      r := Ask(reliable);
      if r.IsFailure() { return; }
      if now.pending.None? || now.disk != Some(now.pending.value.digest) ||
          Leaf(now.active) != now.pending.value.digest.leaf {
        return Failed;
      }
      :- WriteJournal(None, reliable);
      r := WritePrevious(None, reliable);
    }

    /** The first half of deploy_runtime's `try`, once the journal exists: stage the certificate
        in HAProxy and write the file. */
    method StageAndWrite(q: Request, original: Pem, ghost s: HostState)
      returns (r: Outcome, alreadyCommitted: bool, ghost n: nat)
      requires Admissible(s, q) && s.disk == Some(original) && DeployReaches(s, q, 2, now)
      modifies this`now
      ensures DeployReaches(s, q, n, now) && 2 <= n <= 4
      ensures r.Done? ==> n == 4 && Proceeds(Opened(s, q), q) && alreadyCommitted == AlreadyCommitted(s, q)
      ensures reliable && Proceeds(old(now), q) ==> r.Done?
      ensures !r.RecoveryFailed?
    {
      JournalPoint(s, q);
      ghost var p := now;
      n := 2;
      alreadyCommitted := false;
      var saved := now.pending.value;
      r := Ask(reliable);
      if r.IsFailure() { return; }
      if now.active.None? || Leaf(now.active) !in {saved.oldDigest.leaf, q.pem.leaf}
         || now.foreign || (now.staged.Some? && Leaf(now.staged) != q.pem.leaf) {
        r := Failed;
        return;
      }
      alreadyCommitted := saved.committed && original == q.pem && Leaf(now.active) == q.pem.leaf;
      if !alreadyCommitted && now.staged.None? {
        r := StageCertificate(q.pem, reliable);
      }
      n := Advance(s, q, n, p, now);
      if r.IsFailure() { return; }
      p := now;
      if original != q.pem {
        r := WriteTarget(Some(q.pem), reliable);
      }
      n := Advance(s, q, n, p, now);
    }

    /** The second half: commit, check both resources, and record that it was done. */
    method CommitAndRecord(q: Request, alreadyCommitted: bool, ghost s: HostState) returns (r: Outcome, ghost n: nat)
      requires Admissible(s, q) && Proceeds(Opened(s, q), q) && DeployReaches(s, q, 4, now)
      requires alreadyCommitted == AlreadyCommitted(s, q)
      modifies this`now
      ensures DeployReaches(s, q, n, now) && 4 <= n <= 7
      ensures r.Done? ==> n == 7 && CanCommit(now)
      ensures reliable ==> r.Done?
      ensures !r.RecoveryFailed?
    {
      HalfWay(s, q);
      ghost var p := now;
      n := 4;
      var saved := now.pending.value;
      r := Ask(reliable);
      if r.IsFailure() { return; }
      if !alreadyCommitted {
        r := CommitCertificate(q.pem.leaf, reliable);
      }
      n := Advance(s, q, n, p, now);
      if r.IsFailure() { return; }
      r := Ask(reliable);
      if r.IsFailure() { return; }
      if now.disk != Some(q.pem) || Leaf(now.active) != q.pem.leaf {
        r := Failed;
        return;
      }
      p := now;
      r := WriteReceipt(Some(q.pem), reliable);
      n := Advance(s, q, n, p, now);
      if r.IsFailure() { return; }
      p := now;
      r := WriteJournal(Some(saved.(committed := true)), reliable);
      n := Advance(s, q, n, p, now);
    }

    /** deploy_runtime. */
    method DeployRuntime(q: Request) returns (r: Outcome)
      modifies this`now
      ensures DeployEnds(old(now), q, r, now)
      ensures reliable ==> (r.Done? <==> Accepts(old(now), q) || AlreadyThere(old(now), q))
      // A recovery fails only if one of its own calls does, as long as the journal's guarantee holds.
      ensures recovers && Protected(old(now)) ==> !r.RecoveryFailed?
    {
      ghost var s := now;
      r := Done;
      ghost var n := 0;
      Untouched(s, q);
      if q.pem.leaf == 0 || now.disk.None? { return Failed; }
      :- Ask(reliable);
      var original := now.disk.value;
      if now.pending.Some? {
        if now.pending.value.transaction != q.transaction || now.pending.value.digest != q.pem { return Failed; }
        if original !in {now.pending.value.oldDigest, q.pem} { return Failed; }
      } else {
        :- Ask(reliable);
        if now.applied == Some(q.pem) && original == q.pem && Leaf(now.active) == q.pem.leaf {
          r := Ask(reliable);
          return;
        }
        if q.expectedRevision.Some? && q.expectedRevision != Some(original) { return Failed; }
        if Leaf(now.active) == 0 || Leaf(now.active) != original.leaf { return Failed; }
        :- Ask(reliable);
        if now.staged.Some? || now.foreign { return Failed; }
        :- Ask(reliable);
        r := WritePrevious(Some(original), reliable);
      }
      n := Advance(s, q, n, s, now);
      StoppedAt(s, q, n, now);
      if r.IsFailure() { return; }
      ghost var p := now;
      if now.pending.None? {
        r := WriteJournal(Some(Journal(q.transaction, q.pem, original, false)), reliable);
      }
      n := Advance(s, q, n, p, now);
      StoppedAt(s, q, n, now);
      if r.IsFailure() { return; }
      var alreadyCommitted;
      r, alreadyCommitted, n := StageAndWrite(q, original, s);
      if r.Done? {
        r, n := CommitAndRecord(q, alreadyCommitted, s);
      }
      StoppedAt(s, q, n, now);
      if r.Failed? {
        p := now;
        ghost var k;
        if Protected(s) { PointRecoverable(s, q, n, p); }
        r, k := Rollback();
        assert RolledBackFrom(s, q, k, now);
        return if r.Killed? then Killed else if r.Failed? then RecoveryFailed else Failed;
      }
      if r.Done? {
        p := now;
        if q.transaction.None? {
          r := Commit();
        }
        n := FinishPoints(s, q, p, r, now);
        StoppedAt(s, q, n, now);
      }
    }

    /** finish_deployment, for a journal that deploy_runtime wrote. If the journal is gone already, as when
        the answer to an earlier call was lost, the host is only looked at again. */
    method FinishDeployment(op: Operation, transaction: Option<nat>, expected: Option<Pem>) returns (r: Outcome)
      modifies this
      ensures FinishEnds(old(now), op, transaction, r, now)
      ensures (reliable || recovers) && op.RollBack? && Owns(old(now), transaction) ==>
                (r.Done? <==> Recoverable(old(now)))
      // A commit of one's own journal succeeds exactly if disk and HAProxy agree with it, and removes it.
      ensures reliable && op.CommitJournal? && Owns(old(now), transaction) ==>
                var j := old(now).pending.value;
                (r.Done? <==> old(now).disk == Some(j.digest) && Leaf(old(now).active) == j.digest.leaf)
      ensures op.CommitJournal? && Owns(old(now), transaction) && r.Done? ==>
                now == old(now).(pending := None, previous := None)
      ensures old(now).pending.Some? && !Owns(old(now), transaction) ==> !r.Done?
      ensures old(now).pending.None? && r.Done? ==> Completed(now, op, transaction, expected, receipt)
      ensures reliable && old(now).pending.None? ==> (r.Done? <==> Completed(now, op, transaction, expected, receipt))
      ensures old(now).pending.None? && expected.Some? && r.Done? ==>
                if op.CommitJournal? then now.disk == expected && Leaf(now.active) == expected.value.leaf
                else receipt.Some? ==> receipt.value.digest == now.disk && Leaf(now.active) == Leaf(now.disk)
      ensures old(now).pending.None? || op.CommitJournal? ==> receipt == old(receipt)
      ensures old(now).pending.Some? && op.RollBack? && r.Done? ==>
                var j := old(now).pending.value; receipt == Some(Receipt(transaction, Some(j.oldDigest)))
    {
      assert RollbackReaches(now, 0, now);
      var sure := reliable || (recovers && op.RollBack?);
      r := Ask(sure);
      if r.IsFailure() { return; }
      if now.pending.None? {
        r := Ask(reliable);
        if r.Done? && !Completed(now, op, transaction, expected, receipt) { r := Failed; }
        return;
      }
      var j := now.pending.value;
      if j.transaction != transaction { return Failed; }
      if op.RollBack? {
        var effect;
        r, effect := Attempt(sure);
        if effect { receipt := Some(Receipt(transaction, Some(j.oldDigest))); }
        if r.IsFailure() { return; }
        ghost var n;
        r, n := Rollback();
      } else {
        r := Commit();
      }
    }
  }

  /** What a deployment needs for it to succeed when no call fails. */
  predicate Accepts(s: HostState, q: Request) {
    Admissible(s, q) && Proceeds(Opened(s, q), q)
  }

  /** A deployment that is complete already is not repeated, whatever else is the matter. */
  predicate AlreadyThere(s: HostState, q: Request) {
    && q.pem.leaf != 0 && s.pending.None? && s.applied == s.disk == Some(q.pem) && Leaf(s.active) == q.pem.leaf
  }

  predicate Owns(s: HostState, transaction: Option<nat>) {
    s.pending.Some? && s.pending.value.transaction == transaction
  }

  lemma Untouched(s: HostState, q: Request)
    ensures DeployReaches(s, q, 0, s) && RollbackReaches(s, 0, s) && RolledBackFrom(s, q, 0, s)
  {
    assert DeployReaches(s, q, 0, s) && RollbackReaches(s, 0, s);
  }

  lemma JournalPoint(s: HostState, q: Request)
    requires s.disk.Some?
    ensures DeployPoint(s, q, 2) == Opened(s, q)
  {
    assert DeployPoint(s, q, 1) == DeployEffect(s, q, 1, s);
  }

  lemma RollbackAdvance(s: HostState, n: nat, p: HostState, t: HostState) returns (m: nat)
    requires RollbackReaches(s, n, p) && n < 7 && CanRollBack(s) && (n > 0 ==> s.previous.Some?)
    requires t in {p, RollbackEffect(n + 1, p)}
    ensures m == (if t == RollbackEffect(n + 1, p) then n + 1 else n) && RollbackReaches(s, m, t)
  {
    m := if t == RollbackEffect(n + 1, p) then n + 1 else n;
  }

  lemma HalfWay(s: HostState, q: Request)
    requires Admissible(s, q) && Proceeds(Opened(s, q), q)
    ensures var p := DeployPoint(s, q, 4);
            && p.disk == Some(q.pem) && p.pending == Opened(s, q).pending && p.pending.value.digest == q.pem
            && (if AlreadyCommitted(s, q) then p.active == s.active else p.staged.Some? && Leaf(p.staged) == q.pem.leaf)
  {
    JournalPoint(s, q);
    assert DeployPoint(s, q, 3) == DeployEffect(s, q, 3, Opened(s, q));
  }

  /** From one point to the next: an effect that did not happen leaves the deployment where it was. */
  lemma Advance(s: HostState, q: Request, n: nat, p: HostState, t: HostState) returns (m: nat)
    requires DeployReaches(s, q, n, p) && n < 9 && Admissible(s, q)
    requires n >= 2 ==> Proceeds(Opened(s, q), q)
    requires t in {p, DeployEffect(s, q, n + 1, p)}
    ensures m == (if t == DeployEffect(s, q, n + 1, p) then n + 1 else n) && DeployReaches(s, q, m, t)
  {
    m := if t == DeployEffect(s, q, n + 1, p) then n + 1 else n;
  }

  /** A deployment without a transaction commits at once; with one it leaves the journal. */
  lemma FinishPoints(s: HostState, q: Request, p: HostState, r: Outcome, t: HostState) returns (m: nat)
    requires DeployReaches(s, q, 7, p) && p.pending.Some?
    requires if q.transaction.None? then CommitEnds(p, r, t) else t == p
    ensures 7 <= m && (r.Done? ==> m == 9) && DeployReaches(s, q, m, t)
  {
    var p8 := DeployEffect(s, q, 8, p);
    assert DeployReaches(s, q, 8, p8) && DeployReaches(s, q, 9, DeployEffect(s, q, 9, p8));
    m := if t == DeployEffect(s, q, 9, p8) then 9 else if t == p8 then 8 else 7;
  }

  lemma StoppedAt(s: HostState, q: Request, n: nat, p: HostState)
    requires DeployReaches(s, q, n, p)
    ensures RolledBackFrom(s, q, 0, p)
  {
    assert RollbackReaches(p, 0, p);
  }

  // ---------------------------------------------------------------------------------------
  // Whole histories
  // ---------------------------------------------------------------------------------------

  datatype Call = Deploy(q: Request) | Finish(op: Operation, transaction: Option<nat>)

  ghost predicate CallEnds(s: HostState, c: Call, r: Outcome, t: HostState) {
    match c
    case Deploy(q) => DeployEnds(s, q, r, t)
    case Finish(op, transaction) => FinishEnds(s, op, transaction, r, t)
  }

  /** A call of any certificate transaction, ended in any way; or, while no journal exists,
      anything at all: other programs may then write the file and load HAProxy. */
  ghost predicate Step(s: HostState, t: HostState) {
    (exists c, r :: CallEnds(s, c, r, t)) || (s.pending.None? && t.pending.None?)
  }

  ghost predicate History(run: seq<HostState>) {
    && |run| > 0
    && run[0].pending.None?
    && forall i :: 0 <= i < |run| - 1 ==> Step(run[i], run[i + 1])
  }

  /** What an existing journal guarantees. */
  predicate Protected(s: HostState) {
    s.pending.Some? ==>
      var j := s.pending.value;
      && s.previous == Some(j.oldDigest)
      && s.disk in {Some(j.oldDigest), Some(j.digest)}
      && s.active in {s.served, Some(j.oldDigest), Some(j.digest)}
      && s.staged in {None, Some(j.oldDigest), Some(j.digest)}
      && s.served.Some? && Leaf(s.served) == j.oldDigest.leaf
      && !s.foreign
  }

  lemma ProtectedRecoverable(s: HostState)
    requires Protected(s) && s.pending.Some?
    ensures Recoverable(s)
  {
  }

  /** The points of a deployment at which it may turn back. */
  lemma PointRecoverable(s: HostState, q: Request, n: nat, p: HostState)
    requires Protected(s) && DeployReaches(s, q, n, p) && 2 <= n <= 7
    ensures Recoverable(p)
  {
    hide DeployPoint, Protected, Recoverable, Admissible;
    DeployKeepsProtected(s, q, n);
    ProtectedRecoverable(p);
  }

  predicate BothAre(s: HostState, pem: Pem) {
    s.disk == s.active == Some(pem)
  }

  /** Where a deployment that began in state s can be after n effects. */
  predicate DeployKept(s: HostState, q: Request, n: nat, p: HostState) {
    && Protected(p)
    && (n < 2 ==> if s.pending.Some? then p == s else p == s.(previous := if n == 1 then s.disk else s.previous))
    && (n >= 2 && p.pending.Some? ==>
          && p.pending.value.digest == q.pem
          && Some(p.pending.value.oldDigest) == if s.pending.Some? then Some(s.pending.value.oldDigest) else s.disk)
    && (2 <= n <= 7 ==> p.pending.Some?)
    && (3 <= n <= 4 ==> AlreadyCommitted(s, q) || p.staged.Some?)
    && (n >= 4 ==> p.disk == Some(q.pem))
    && (n >= 8 && q.transaction.None? ==> p.pending.None?)
  }

  lemma OpeningKeeps(s: HostState, q: Request, n: nat, p: HostState)
    requires 0 < n <= 2 && Admissible(s, q) && Protected(s) && DeployKept(s, q, n - 1, p)
    ensures DeployKept(s, q, n, DeployEffect(s, q, n, p))
  {
  }

  lemma WritingKeeps(s: HostState, q: Request, n: nat, p: HostState)
    requires 3 <= n <= 5 && DeployKept(s, q, n - 1, p)
    ensures DeployKept(s, q, n, DeployEffect(s, q, n, p))
  {
    hide AlreadyCommitted;
    assert p.pending.Some? && p.pending.value.digest == q.pem;
    if n == 5 && !AlreadyCommitted(s, q) {
      assert p.staged.Some? && p.staged in {Some(p.pending.value.oldDigest), Some(p.pending.value.digest)};
    }
  }

  lemma ClosingKeeps(s: HostState, q: Request, n: nat, p: HostState)
    requires 6 <= n <= 9 && DeployKept(s, q, n - 1, p)
    ensures DeployKept(s, q, n, DeployEffect(s, q, n, p))
  {
    hide AlreadyCommitted;
  }

  lemma {:induction false} DeployKeeps(s: HostState, q: Request, n: nat)
    requires Protected(s) && n <= 9 && (n > 0 ==> Admissible(s, q))
    ensures DeployKept(s, q, n, DeployPoint(s, q, n))
  {
    if n > 0 {
      hide DeployKept, DeployEffect, Admissible, Protected;
      DeployKeeps(s, q, n - 1);
      var p := DeployPoint(s, q, n - 1);
      if n <= 2 {
        OpeningKeeps(s, q, n, p);
      } else if n <= 5 {
        WritingKeeps(s, q, n, p);
      } else {
        ClosingKeeps(s, q, n, p);
      }
    }
  }

  /** While the journal exists the old bytes are kept and both resources are old or new: at every
      point of a deployment, ... */
  lemma DeployKeepsProtected(s: HostState, q: Request, n: nat)
    requires Protected(s) && n <= 9 && (n > 0 ==> Admissible(s, q))
    ensures Protected(DeployPoint(s, q, n))
    ensures n >= 2 && DeployPoint(s, q, n).pending.Some? ==>
              var j := DeployPoint(s, q, n).pending.value;
              j.digest == q.pem &&
              Some(j.oldDigest) == if s.pending.Some? then Some(s.pending.value.oldDigest) else s.disk
    ensures 2 <= n <= 7 ==> DeployPoint(s, q, n).pending.Some?
    ensures n >= 4 ==> DeployPoint(s, q, n).disk == Some(q.pem)
  {
    DeployKeeps(s, q, n);
    hide DeployPoint;
  }

  /** ... and at every point of a rollback. */
  lemma {:induction false} RollbackKeepsProtected(s: HostState, n: nat)
    requires Protected(s) && n <= 7 && (n > 0 ==> s.pending.Some?)
    ensures Protected(RollbackPoint(s, n))
    ensures n < 6 ==> RollbackPoint(s, n).pending == s.pending && RollbackPoint(s, n).previous == s.previous
    ensures n >= 2 ==> RollbackPoint(s, n).disk == Some(s.pending.value.oldDigest)
    ensures n == 3 ==> RollbackPoint(s, n).staged == Some(s.pending.value.oldDigest)
    ensures n >= 4 ==> BothAre(RollbackPoint(s, n), s.pending.value.oldDigest)
    ensures n >= 6 ==> RollbackPoint(s, n).pending.None?
  {
    if n > 0 {
      RollbackKeepsProtected(s, n - 1);
      assert RollbackPoint(s, n) == RollbackEffect(n, RollbackPoint(s, n - 1));
    }
  }

  lemma CallKeepsProtected(s: HostState, c: Call, r: Outcome, t: HostState)
    requires Protected(s) && CallEnds(s, c, r, t)
    ensures Protected(t)
  {
    match c
    case Deploy(q) =>
      var n, p, k := WhereDeployEnded(s, q, r, t);
      DeployKeepsProtected(s, q, n);
      RollbackKeepsProtected(p, k);
    case Finish(op, transaction) =>
      if t != s && op.RollBack? {
        var k := WhereRollbackEnded(s, r, t);
        RollbackKeepsProtected(s, k);
      }
  }

  lemma WhereDeployEnded(s: HostState, q: Request, r: Outcome, t: HostState) returns (n: nat, p: HostState, k: nat)
    requires DeployEnds(s, q, r, t)
    ensures DeployReaches(s, q, n, p) && RollbackReaches(p, k, t)
  {
    k := 0;
    if r.Done? {
      n := if DeployReaches(s, q, 9, t) then 9 else 0;
      p := t;
    } else if r.Failed? && exists n :: DeployReaches(s, q, n, t) && (n <= 2 || n >= 7) {
      n :| DeployReaches(s, q, n, t) && (n <= 2 || n >= 7);
      p := t;
    } else {
      assert exists k' :: RolledBackFrom(s, q, k', t);
      k :| RolledBackFrom(s, q, k, t);
      n, p :| DeployReaches(s, q, n, p) && RollbackReaches(p, k, t);
    }
  }

  lemma WhereRollbackEnded(s: HostState, r: Outcome, t: HostState) returns (k: nat)
    requires RollbackEnds(s, r, t) && t != s
    ensures RollbackReaches(s, k, t) && 0 < k <= 7
  {
    k :| RollbackReaches(s, k, t);
    assert RollbackReaches(s, k, t);
  }

  /** In every history, at every moment, an existing journal keeps the old bytes, and the file and
      HAProxy hold the old or the new certificate. */
  lemma {:induction false} HistoryProtected(run: seq<HostState>, i: nat)
    requires History(run) && i < |run|
    ensures Protected(run[i])
    ensures run[i].pending.Some? ==>
              var j := run[i].pending.value;
              run[i].previous == Some(j.oldDigest) && run[i].disk in {Some(j.oldDigest), Some(j.digest)}
  {
    if i > 0 {
      HistoryProtected(run, i - 1);
      assert Step(run[i - 1], run[i]);
      if run[i].pending.Some? {
        var c, r :| CallEnds(run[i - 1], c, r, run[i]);
        CallKeepsProtected(run[i - 1], c, r, run[i]);
      }
    }
  }

  lemma {:induction false} ServedIs(s: HostState, q: Request, n: nat)
    ensures DeployPoint(s, q, n).served == (if n < 2 || s.pending.Some? || s.disk.None? then s.served else s.active)
  {
    if n > 0 { ServedIs(s, q, n - 1); }
    if n == 2 { assert DeployPoint(s, q, 1) == DeployEffect(s, q, 1, s); }
  }

  lemma {:induction false} ServedStays(s: HostState, n: nat)
    ensures RollbackPoint(s, n).served == s.served
  {
    if n > 0 { ServedStays(s, n - 1); }
  }

  function OldOf(s: HostState): Option<Pem> {
    if s.pending.Some? then Some(s.pending.value.oldDigest) else s.disk
  }

  function ServedOf(s: HostState): Option<Pem> {
    if s.pending.Some? then s.served else s.active
  }

  function NewOf(s: HostState, c: Call): Option<Pem> {
    if s.pending.Some? then Some(s.pending.value.digest) else if c.Deploy? then Some(c.q.pem) else None
  }

  lemma Committed(s: HostState, q: Request, n: nat)
    requires Protected(s) && Admissible(s, q) && Proceeds(Opened(s, q), q) && 5 <= n <= 9
    ensures var p := DeployPoint(s, q, n);
            && p.disk == Some(q.pem) && Leaf(p.active) == q.pem.leaf
            && p.active in {ServedOf(s), OldOf(s), Some(q.pem)}
            && (q.pem.leaf != OldOf(s).value.leaf ==> p.active == Some(q.pem))
  {
    if n == 5 {
      HalfWay(s, q);
      ServedIs(s, q, 5);
      DeployKeepsProtected(s, q, 5);
      assert DeployPoint(s, q, 5) == DeployEffect(s, q, 5, DeployPoint(s, q, 4));
    } else {
      Committed(s, q, n - 1);
      assert DeployPoint(s, q, n) == DeployEffect(s, q, n, DeployPoint(s, q, n - 1));
    }
  }

  /** Whenever a call leaves no journal behind, it has either not touched the two resources, or
      left both old, or left both new. With equal fingerprints "new" is only known of the leaf. */
  lemma JournalRemoved(s: HostState, c: Call, r: Outcome, t: HostState)
    requires Protected(s) && CallEnds(s, c, r, t) && t.pending.None?
    ensures || (s.pending.None? && t.disk == s.disk && t.active == s.active)
            || (OldOf(s).Some? && BothAre(t, OldOf(s).value))
            || (&& OldOf(s).Some? && NewOf(s, c).Some? && t.disk == NewOf(s, c) && Leaf(t.active) == Leaf(NewOf(s, c))
                && t.active in {ServedOf(s), OldOf(s), NewOf(s, c)}
                && (Leaf(NewOf(s, c)) != Leaf(OldOf(s)) ==> BothAre(t, NewOf(s, c).value)))
  {
    match c
    case Deploy(q) =>
      var n, p, k := WhereDeployEnded(s, q, r, t);
      DeployKeepsProtected(s, q, n);
      RollbackKeepsProtected(p, k);
      if n >= 5 {
        Committed(s, q, n);
      } else if n == 1 {
        assert DeployPoint(s, q, 1) == DeployEffect(s, q, 1, s);
      }
    case Finish(op, transaction) =>
      if t != s && op.RollBack? {
        var k := WhereRollbackEnded(s, r, t);
        RollbackKeepsProtected(s, k);
      }
  }

  // ---------------------------------------------------------------------------------------
  // Recovery
  // ---------------------------------------------------------------------------------------

  /** From every moment of every history at which a journal exists, rollback finds everything it
      needs, and run to its end it leaves the file and HAProxy old, without journal or receipt.
      (Rollback does run to its end when no call fails: see Host.Rollback.) */
  lemma RollbackRestores(run: seq<HostState>, i: nat)
    requires History(run) && i < |run| && run[i].pending.Some?
    ensures Recoverable(run[i])
    ensures var t := RollbackPoint(run[i], 7);
            && BothAre(t, run[i].pending.value.oldDigest)
            && t.pending.None? && t.previous.None? && t.applied.None? && t.staged.None?
  {
    var s := run[i];
    HistoryProtected(run, i);
    RollbackKeepsProtected(s, 4);
    assert RollbackPoint(s, 4) == RollbackEffect(4, RollbackPoint(s, 3));
    assert RollbackPoint(s, 6) == RollbackEffect(6, RollbackEffect(5, RollbackPoint(s, 4)));
  }

  /** A rollback that is reported as finished is found finished again, and a commit likewise, as long
      as nothing else changes the host: a lost answer does no harm. */
  lemma FinishedAgain(s: HostState, transaction: Option<nat>, expected: Option<Pem>)
    requires Protected(s) && s.pending.Some? && s.pending.value.oldDigest.leaf != 0 && s.pending.value.digest.leaf != 0
    ensures var before := s.pending.value.oldDigest;
            Completed(RollbackPoint(s, 7), RollBack, transaction, expected, Some(Receipt(transaction, Some(before))))
    ensures CanCommit(s) && s.applied == Some(s.pending.value.digest) ==>
              Completed(s.(pending := None, previous := None), CommitJournal, transaction, s.applied, None)
  {
    RollbackKeepsProtected(s, 7);
  }

  /** A host on which only deployments of q were tried, none of which got to removing its journal,
      from a start that the first of them accepted. */
  ghost predicate ForwardRun(run: seq<HostState>, q: Request) {
    && |run| > 0
    && run[0].pending.None? && Admissible(run[0], q)
    && forall i :: 0 <= i < |run| - 1 ==> DeployedPartly(run[i], q, run[i + 1])
  }

  ghost predicate DeployedPartly(s: HostState, q: Request, t: HostState) {
    exists n :: n <= 7 && DeployReaches(s, q, n, t)
  }

  predicate Forward(s: HostState, q: Request) {
    && Protected(s) && Accepts(s, q)
    && s.staged in {None, Some(q.pem)}
    && (s.pending.Some? && s.pending.value.committed ==> BothAre(s, q.pem))
  }

  lemma {:induction false} ForwardPoint(s: HostState, q: Request, n: nat)
    requires Forward(s, q) && n <= 7
    ensures var p := DeployPoint(s, q, n);
            && Forward(p, q)
            && (n >= 2 ==> p.pending.Some?)
            && (n >= 4 ==> p.disk == Some(q.pem))
            && (n == 3 || n == 4 ==> AlreadyCommitted(s, q) || p.staged == Some(q.pem))
            && (n >= 5 ==> BothAre(p, q.pem))
            && (n >= 6 ==> p.applied == Some(q.pem))
  {
    if n > 0 {
      ForwardPoint(s, q, n - 1);
      assert DeployPoint(s, q, n) == DeployEffect(s, q, n, DeployPoint(s, q, n - 1));
      if n == 5 && AlreadyCommitted(s, q) { AlreadyBoth(s, q); }
      DeployKeepsProtected(s, q, n);
    }
  }

  lemma {:induction false} AlreadyBoth(s: HostState, q: Request)
    requires Forward(s, q) && AlreadyCommitted(s, q)
    ensures DeployPoint(s, q, 4) == s
  {
    JournalPoint(s, q);
    assert DeployPoint(s, q, 3) == DeployEffect(s, q, 3, s);
  }

  /** However often the deployment was killed, as long as no rollback began, one more attempt with
      the same transaction and PEM is accepted and, run to its end, leaves both resources new and
      the receipt naming the new PEM. (It does run to its end when no call fails: see
      Host.DeployRuntime.) */
  lemma {:induction false} RetryCompletes(run: seq<HostState>, q: Request)
    requires ForwardRun(run, q)
    ensures var s, t := run[|run| - 1], DeployPoint(run[|run| - 1], q, 9);
            && Forward(s, q)
            && BothAre(t, q.pem) && t.applied == Some(q.pem)
            && (q.transaction.None? <==> t.pending.None?)
  {
    var s := run[|run| - 1];
    if |run| > 1 {
      RetryCompletes(run[..|run| - 1], q);
      assert DeployedPartly(run[|run| - 2], q, run[|run| - 2 + 1]);
      var n :| n <= 7 && DeployReaches(run[|run| - 2], q, n, s);
      ForwardPoint(run[|run| - 2], q, n);
    }
    ForwardPoint(s, q, 7);
    assert DeployPoint(s, q, 9) == DeployEffect(s, q, 9, DeployEffect(s, q, 8, DeployPoint(s, q, 7)));
  }

  // ---------------------------------------------------------------------------------------
  // When does a commit mean that HAProxy serves the new certificate?
  // ---------------------------------------------------------------------------------------

  /** Calls of one transaction: deployments of q, and rollbacks and commits of its journal. */
  ghost predicate TransactionRun(run: seq<HostState>, q: Request) {
    && |run| > 0
    && run[0].pending.None? && Admissible(run[0], q)
    && forall i :: 0 <= i < |run| - 1 ==> TransactionStep(run[i], q, run[i + 1])
  }

  ghost predicate TransactionStep(s: HostState, q: Request, t: HostState) {
    exists c, r :: (c == Deploy(q) || (c.Finish? && c.transaction == q.transaction)) && CallEnds(s, c, r, t)
  }

  /** Whenever the journal goes while the file is new, HAProxy serves the new certificate. */
  ghost predicate CommitsFaithfully(s0: HostState, q: Request) {
    forall run: seq<HostState> :: TransactionRun(run, q) && run[0] == s0 ==>
      forall i :: 0 <= i < |run| - 1 && run[i].pending.Some? && run[i + 1].pending.None? &&
          run[i + 1].disk == Some(q.pem)
        ==> run[i + 1].active == Some(q.pem)
  }

  predicate Distinct(disk: Option<Pem>, active: Option<Pem>, q: Request) {
    Leaf(disk) != q.pem.leaf || disk == active == Some(q.pem)
  }

  predicate Tracks(s: HostState, q: Request) {
    && Protected(s)
    && if s.pending.Some? then s.pending.value.digest == q.pem && Distinct(OldOf(s), s.served, q)
       else s.disk.Some? && Leaf(s.disk) == Leaf(s.active) && Distinct(s.disk, s.active, q)
  }

  lemma TracksStep(s: HostState, q: Request, t: HostState)
    requires Tracks(s, q) && TransactionStep(s, q, t)
    ensures Tracks(t, q)
    ensures s.pending.Some? && t.pending.None? && t.disk == Some(q.pem) ==> t.active == Some(q.pem)
  {
    var c, r :| (c == Deploy(q) || (c.Finish? && c.transaction == q.transaction)) && CallEnds(s, c, r, t);
    CallKeepsProtected(s, c, r, t);
    if t.pending.None? {
      JournalRemoved(s, c, r, t);
    } else if c.Deploy? {
      var n, p, k := WhereDeployEnded(s, q, r, t);
      DeployKeepsProtected(s, q, n);
      RollbackKeepsProtected(p, k);
      ServedIs(s, q, n);
      ServedStays(p, k);
    } else if t != s && c.op.RollBack? {
      var k := WhereRollbackEnded(s, r, t);
      RollbackKeepsProtected(s, k);
      ServedStays(s, k);
    }
  }

  lemma {:induction false} TracksRun(run: seq<HostState>, q: Request, i: nat)
    requires TransactionRun(run, q) && Distinct(run[0].disk, run[0].active, q) && i < |run|
    ensures Tracks(run[i], q)
  {
    if i > 0 {
      TracksRun(run, q, i - 1);
      assert TransactionStep(run[i - 1], q, run[i - 1 + 1]);
      TracksStep(run[i - 1], q, run[i]);
    }
  }

  /** A deployment can be killed at any of its points, and a rollback at any of its own. */
  lemma KilledAt(s: HostState, q: Request, n: nat, p: HostState)
    requires DeployReaches(s, q, n, p)
    ensures TransactionStep(s, q, p)
  {
    StoppedAt(s, q, n, p);
    assert CallEnds(s, Deploy(q), Killed, p);
  }

  lemma RollbackKilledAt(s: HostState, q: Request, n: nat, p: HostState)
    requires RollbackReaches(s, n, p) && s.pending.Some? && s.pending.value.transaction == q.transaction
    ensures TransactionStep(s, q, p)
  {
    assert CallEnds(s, Finish(RollBack, q.transaction), Killed, p);
  }

  lemma CommitStep(s: HostState, q: Request, t: HostState)
    requires CanCommit(s) && s.pending.value.transaction == q.transaction
    requires t == s.(pending := None, previous := None)
    ensures TransactionStep(s, q, t)
  {
    assert CallEnds(s, Finish(CommitJournal, q.transaction), Done, t);
  }

  /** HAProxy serves something else than the new PEM with the same leaf: a deployment killed after
      writing the file, and then a commit. */
  lemma UnfaithfulAtOnce(s: HostState, q: Request)
    requires s.pending.None? && Admissible(s, q) && Leaf(s.disk) == q.pem.leaf && s.active != Some(q.pem)
    ensures !CommitsFaithfully(s, q)
  {
    JournalPoint(s, q);
    var p := DeployPoint(s, q, 4);
    assert DeployPoint(s, q, 3) == DeployEffect(s, q, 3, Opened(s, q));
    var t := p.(pending := None, previous := None);
    KilledAt(s, q, 4, p);
    CommitStep(p, q, t);
    var run := [s, p, t];
    assert TransactionRun(run, q) && run[1].pending.Some? && run[1 + 1].pending.None?;
  }

  /** HAProxy serves the new PEM, but the old file has the same leaf: a rollback killed after it
      staged the old file, a deployment that takes that transaction for its own, and a commit. */
  lemma UnfaithfulAfterRollback(s: HostState, q: Request)
    requires s.pending.None? && Admissible(s, q) && Leaf(s.disk) == q.pem.leaf
    requires s.active == Some(q.pem) && s.disk != Some(q.pem)
    ensures !CommitsFaithfully(s, q)
  {
    JournalPoint(s, q);
    var a := Opened(s, q);
    var b := RollbackPoint(a, 3);
    assert RollbackPoint(a, 1) == RollbackEffect(1, a);
    assert b == RollbackEffect(3, RollbackPoint(a, 2));
    JournalPoint(b, q);
    var c := DeployPoint(b, q, 5);
    assert DeployPoint(b, q, 3) == DeployEffect(b, q, 3, b);
    assert c == DeployEffect(b, q, 5, DeployPoint(b, q, 4));
    var t := c.(pending := None, previous := None);
    KilledAt(s, q, 2, a);
    RollbackKilledAt(a, q, 3, b);
    KilledAt(b, q, 5, c);
    CommitStep(c, q, t);
    var run := [s, a, b, c, t];
    assert TransactionRun(run, q) && run[3].pending.Some? && run[3 + 1].pending.None?;
  }

  /** A commit checks HAProxy by the fingerprint of the first certificate only. So the journal of a
      transaction is sure to go only when HAProxy serves the new PEM, exactly if the new PEM's
      first certificate differs from the old one's, or nothing changes at all. */
  lemma CommitFaithfulIff(s: HostState, q: Request)
    requires s.pending.None? && Admissible(s, q)
    ensures CommitsFaithfully(s, q) <==> Distinct(s.disk, s.active, q)
  {
    if Distinct(s.disk, s.active, q) {
      forall run: seq<HostState>, i | TransactionRun(run, q) && run[0] == s && 0 <= i < |run| - 1
                                      && run[i].pending.Some? && run[i + 1].pending.None? &&
                                           run[i + 1].disk == Some(q.pem)
        ensures run[i + 1].active == Some(q.pem)
      {
        TracksRun(run, q, i);
        TracksStep(run[i], q, run[i + 1]);
      }
    } else if s.active != Some(q.pem) {
      UnfaithfulAtOnce(s, q);
    } else {
      UnfaithfulAfterRollback(s, q);
    }
  }
}
