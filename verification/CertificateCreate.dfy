/** Adding a certificate that HAProxy does not have yet (app/scripts/certificate_remote.py).

    Up to five things appear together: the PEM file, a line in the crt-list file (unless the
    destination is a directory), a certificate in the running HAProxy, its entry in the running
    crt-list, and a receipt. As in `CertificateUpdate`, the class carries out the program's steps,
    which can fail with or without effect or be the last before the worker dies, and the
    "points" functions say which states a creation and its rollback pass through. */
module CertificateCreate {
  import opened Outcomes
  import opened Pems
  import opened CrtList

  /** pending.json. Digests are injective, so list_before and list_after are contents. */
  datatype Journal = Journal(transaction: Option<nat>, digest: Pem,
                             crtList: bool, listBefore: string, listAfter: string)

  /** The certificate of the new path in the running HAProxy: unknown, known but not loaded, loaded. */
  datatype Slot = Absent | Empty | Loaded(pem: Pem)

  /** `path` is the certificate's name in HAProxy; `list` is the crt-list file and `savedList` the
      journal's copy of it; `listed` says that the running crt-list names the certificate; `foreign`,
      that another path has a transaction. */
  datatype State = State(path: string, pem: Option<Pem>, list: string,
                         savedList: Option<string>, pending: Option<Journal>,
                         applied: Option<Pem>, slot: Slot, staged: Option<Pem>, listed: bool, foreign: bool)

  /** `crtList` is the kind of the destination: a crt-list file or a directory. */
  datatype Request = Request(transaction: Option<nat>, pem: Pem, crtList: bool)

  function SlotLeaf(slot: Slot): nat {
    if slot.Loaded? then slot.pem.leaf else 0
  }

  // ---------------------------------------------------------------------------------------
  // The states that a creation and its rollback pass through
  // ---------------------------------------------------------------------------------------

  /** What creation_preflight and deploy_creation check before the first effect. */
  predicate Admissible(s: State, q: Request) {
    && q.pem.leaf != 0
    && match s.pending
       case Some(j) => j.transaction == q.transaction && j.crtList == q.crtList && j.digest == q.pem
       case None => && s.pem.None? && s.slot.Absent? && s.staged.None? && !s.foreign && !s.listed
                    && (q.crtList ==> Writable(s.path) && s.path !in Entries(s.list))
  }

  /** What deploy_creation checks, once its journal exists, before its effect number n. */
  predicate Proceeds(s: State, q: Request, n: nat) {
    && s.pending.Some?
    && (n >= 3 ==> s.pem in {None, Some(q.pem)})
    && (n >= 4 && q.crtList ==>
          if s.list == s.pending.value.listBefore then s.savedList.Some? else s.list == s.pending.value.listAfter)
    && (n >= 6 ==> && SlotLeaf(s.slot) in {0, q.pem.leaf}
                   && (s.staged.Some? ==> Leaf(s.staged) == q.pem.leaf)
                   && !s.foreign)
  }

  /** The effect number n of a creation that began in state s, now in state p. */
  function CreateEffect(s: State, q: Request, n: nat, p: State): State {
    match n
    case 1 => if s.pending.None? && q.crtList then p.(savedList := Some(p.list)) else p
    case 2 => if s.pending.None?
              then p.(pending := Some(Journal(q.transaction, q.pem, q.crtList, p.list,
                                              if q.crtList then WithEntry(p.list, p.path) else p.list)))
              else p
    case 3 => p.(pem := Some(q.pem))
    case 4 => if q.crtList && p.pending.Some? && p.list == p.pending.value.listBefore && p.savedList.Some?
              then p.(list := WithEntry(p.savedList.value, p.path)) else p
    case 5 => if p.slot.Absent? then p.(slot := Empty) else p
    case 6 => if SlotLeaf(p.slot) != 0 && p.staged.None? then p else p.(staged := Some(q.pem))
    case 7 => if p.staged.Some? then p.(slot := Loaded(p.staged.value), staged := None) else p
    case 8 => p.(listed := true)
    case 9 => p.(applied := Some(q.pem))
    case 10 => if q.transaction.None? then p.(pending := None) else p
    case 11 => if q.transaction.None? then p.(savedList := None) else p
    case _ => p
  }

  /** The state after the first n effects of a creation that began in state s. */
  function CreatePoint(s: State, q: Request, n: nat): State {
    if n == 0 then s else CreateEffect(s, q, n, CreatePoint(s, q, n - 1))
  }

  /** The state in which the journal has just been opened, or was found. */
  function Opened(s: State, q: Request): State {
    if s.pending.Some? then s
    else s.(savedList := if q.crtList then Some(s.list) else s.savedList,
            pending := Some(Journal(q.transaction, q.pem, q.crtList, s.list,
                                    if q.crtList then WithEntry(s.list, s.path) else s.list)))
  }

  predicate InList(s: State) {
    s.pending.Some? && s.pending.value.crtList
  }

  /** What finish_creation checks before it undoes anything. */
  predicate CanUndo(s: State) {
    && s.pending.Some?
    && SlotLeaf(s.slot) in {0, s.pending.value.digest.leaf}
    && s.pem in {None, Some(s.pending.value.digest)}
    && (InList(s) ==> s.list in {s.pending.value.listBefore, s.pending.value.listAfter})
  }

  /** A transaction for the path, if one is open, is for this certificate. */
  predicate OwnStaged(s: State) {
    s.pending.Some? && (s.staged.Some? ==> Leaf(s.staged) in {0, s.pending.value.digest.leaf})
  }

  function UndoEffect(inList: bool, n: nat, p: State): State {
    match n
    case 1 => p.(listed := false)
    case 2 => p.(staged := None)
    case 3 => p.(slot := Absent)
    case 4 => if inList && p.savedList.Some? then p.(list := p.savedList.value) else p
    case 5 => p.(pem := None)
    case 6 => p.(applied := None)
    case 7 => p.(pending := None)
    case 8 => p.(savedList := None)
    case _ => p
  }

  /** The state after the first n effects of a rollback that began in state s. */
  function UndoPoint(s: State, n: nat): State {
    if n == 0 then s else UndoEffect(InList(s), n, UndoPoint(s, n - 1))
  }

  predicate CreateReaches(s: State, q: Request, n: nat, p: State) {
    && n <= 11
    && p == CreatePoint(s, q, n)
    && (n > 0 ==> Admissible(s, q))
    && (n > 2 ==> Proceeds(Opened(s, q), q, n))
  }

  predicate UndoReaches(s: State, n: nat, p: State) {
    && n <= 8
    && p == UndoPoint(s, n)
    && (n > 0 ==> CanUndo(s))
    && (n > 1 ==> OwnStaged(s))
    && (n > 3 && InList(s) ==> s.savedList.Some?)
  }

  /** Some point of the creation, then the first k effects of a rollback. */
  ghost predicate UndoneFrom(s: State, q: Request, k: nat, t: State) {
    exists n, p :: CreateReaches(s, q, n, p) && UndoReaches(p, k, t)
  }

  /** Everything a creation can leave behind, however it ends. */
  ghost predicate CreateEnds(s: State, q: Request, r: Outcome, t: State) {
    match r
    case Done => CreateReaches(s, q, 11, t)
    case Failed => (exists n :: CreateReaches(s, q, n, t) && (n <= 2 || n >= 9)) || UndoneFrom(s, q, 8, t)
    case _ => exists k :: UndoneFrom(s, q, k, t)
  }

  predicate CanCommit(s: State) {
    && s.pending.Some?
    && s.pem == Some(s.pending.value.digest)
    && (InList(s) ==> s.list == s.pending.value.listAfter)
    && s.listed && s.slot.Loaded? && SlotLeaf(s.slot) == s.pending.value.digest.leaf
  }

  ghost predicate FinishEnds(s: State, op: Operation, transaction: Option<nat>, r: Outcome, t: State) {
    if s.pending.None? || s.pending.value.transaction != transaction then t == s
    else if op.RollBack? then UndoEnds(s, r, t)
    else CommitEnds(s, r, t)
  }

  ghost predicate UndoEnds(s: State, r: Outcome, t: State) {
    if r.Done? then UndoReaches(s, 8, t) else exists n :: UndoReaches(s, n, t)
  }

  predicate CommitEnds(s: State, r: Outcome, t: State) {
    || (t == s && !r.Done?)
    || (CanCommit(s) && t == s.(pending := None) && !r.Done?)
    || (CanCommit(s) && t == s.(pending := None, savedList := None))
  }

  /** What a rollback leaves for later calls: the transaction, and the old crt-list file if there was
      one. The PEM file did not exist before. */
  datatype Receipt = Receipt(transaction: Option<nat>, list: Option<string>)

  /** finished_receipt: the host is as the finished commit or rollback left it. */
  predicate Completed(s: State, op: Operation, transaction: Option<nat>, expected: Option<Pem>,
                      receipt: Option<Receipt>) {
    expected.Some? ==>
      if op.CommitJournal? then s.applied == s.pem == expected && SlotLeaf(s.slot) == Leaf(s.pem) != 0
      else receipt.Some? ==>
        && receipt.value.transaction == transaction && s.pem.None? && SlotLeaf(s.slot) == 0
        && (receipt.value.list.Some? ==> receipt.value.list == Some(s.list))
  }

  // ---------------------------------------------------------------------------------------
  // The program
  // ---------------------------------------------------------------------------------------

  class Host {
    var now: State
    /** rollback-receipt.json. */
    var receipt: Option<Receipt>
    /** If set, no call fails and the worker is not killed. */
    const reliable: bool
    /** If set, that is so during a rollback. */
    const recovers: bool

    method WritePem(content: Option<Pem>, sure: bool) returns (r: Outcome)
      modifies this`now
      ensures now == old(now).(pem := content) || (!r.Done? && now == old(now))
      ensures sure ==> r.Done?
      ensures !r.RecoveryFailed?
    {
      var effect;
      r, effect := Attempt(sure);
      if effect { now := now.(pem := content); }
    }

    method WriteList(content: string, sure: bool) returns (r: Outcome)
      modifies this`now
      ensures now == old(now).(list := content) || (!r.Done? && now == old(now))
      ensures sure ==> r.Done?
      ensures !r.RecoveryFailed?
    {
      var effect;
      r, effect := Attempt(sure);
      if effect { now := now.(list := content); }
    }

    method SaveList(content: Option<string>, sure: bool) returns (r: Outcome)
      modifies this`now
      ensures now == old(now).(savedList := content) || (!r.Done? && now == old(now))
      ensures sure ==> r.Done?
      ensures !r.RecoveryFailed?
    {
      var effect;
      r, effect := Attempt(sure);
      if effect { now := now.(savedList := content); }
    }

    method WriteJournal(content: Option<Journal>, sure: bool) returns (r: Outcome)
      modifies this`now
      ensures now == old(now).(pending := content) || (!r.Done? && now == old(now))
      ensures sure ==> r.Done?
      ensures !r.RecoveryFailed?
    {
      var effect;
      r, effect := Attempt(sure);
      if effect { now := now.(pending := content); }
    }

    method WriteReceipt(content: Option<Pem>, sure: bool) returns (r: Outcome)
      modifies this`now
      ensures now == old(now).(applied := content) || (!r.Done? && now == old(now))
      ensures sure ==> r.Done?
      ensures !r.RecoveryFailed?
    {
      var effect;
      r, effect := Attempt(sure);
      if effect { now := now.(applied := content); }
    }

    /** `new ssl cert`. Replies are not read; `show ssl cert` decides. */
    method NewSlot(sure: bool) returns (r: Outcome)
      requires now.slot.Absent?
      modifies this`now
      ensures now == old(now).(slot := Empty) || (!r.Done? && now == old(now))
      ensures sure ==> r.Done?
      ensures !r.RecoveryFailed?
    {
      var effect;
      r, effect := Attempt(sure);
      var refused: bool := *;
      if effect && (sure || !refused) { now := now.(slot := Empty); }
      if r.Done? { r := Ask(sure); }
      if r.Done? && now.slot.Absent? { r := Failed; }
    }

    /** `set ssl cert`, and the check that the transaction holds the certificate. */
    method StageCertificate(content: Pem, sure: bool) returns (r: Outcome)
      modifies this`now
      ensures now == old(now).(staged := Some(content)) || (!r.Done? && now == old(now))
      ensures sure ==> r.Done?
      ensures !r.RecoveryFailed?
    {
      var effect;
      r, effect := Attempt(sure);
      if effect { now := now.(staged := Some(content)); }
      if r.Done? { r := Ask(sure); }
      if r.Done? && Leaf(now.staged) != content.leaf { r := Failed; }
    }

    /** `commit ssl cert`, whose reply may be lost or an unread refusal. */
    method CommitCertificate(leaf: nat, sure: bool) returns (r: Outcome)
      requires now.staged.Some?
      modifies this`now
      ensures now == old(now).(slot := Loaded(old(now).staged.value), staged := None) || (!r.Done? && now == old(now))
      ensures r.Done? ==> SlotLeaf(now.slot) == leaf
      ensures sure && Leaf(old(now).staged) == leaf ==> r.Done?
      ensures !r.RecoveryFailed?
    {
      var reply, effect := Attempt(sure);
      var refused: bool := *;
      if effect && (sure || !refused) { now := now.(slot := Loaded(now.staged.value), staged := None); }
      if reply.Killed? { return reply; }
      if !reply.Done? {
        :- Ask(sure);
        if SlotLeaf(now.slot) != leaf { return Failed; }
      }
      :- Ask(sure);
      return if now.staged.Some? || SlotLeaf(now.slot) != leaf then Failed else Done;
    }

    /** `add ssl crt-list` or `del ssl crt-list`, and the check of the running list. */
    method SetListed(content: bool, sure: bool) returns (r: Outcome)
      modifies this`now
      ensures now == old(now).(listed := content) || (!r.Done? && now == old(now))
      ensures sure ==> r.Done?
      ensures !r.RecoveryFailed?
    {
      var effect;
      r, effect := Attempt(sure);
      var refused: bool := *;
      if effect && (sure || !refused) { now := now.(listed := content); }
      if r.Done? { r := Ask(sure); }
      if r.Done? && now.listed != content { r := Failed; }
    }

    /** `abort ssl cert`: what it did is looked at only after the next call. */
    method AbortTransaction(sure: bool) returns (r: Outcome)
      modifies this`now
      ensures now == old(now).(staged := None) || now == old(now)
      ensures sure ==> r.Done? && now.staged.None?
      ensures !r.RecoveryFailed?
    {
      var effect;
      r, effect := Attempt(sure);
      var refused: bool := *;
      if effect && (sure || !refused) { now := now.(staged := None); }
    }

    /** `del ssl cert`: HAProxy refuses it while the certificate is listed or in a transaction. */
    method DeleteSlot(sure: bool) returns (r: Outcome)
      modifies this`now
      ensures now == old(now) || (now == old(now).(slot := Absent) && !now.listed && now.staged.None?)
      ensures sure ==> r.Done? && (old(now).listed || old(now).staged.Some? || now.slot.Absent?)
      ensures !r.RecoveryFailed?
    {
      var effect;
      r, effect := Attempt(sure);
      var refused: bool := *;
      if effect && (sure || !refused) && !now.listed && now.staged.None? { now := now.(slot := Absent); }
    }

    /** The first part of finish_creation's rollback: take the certificate out of HAProxy. */
    method UndoRuntime() returns (r: Outcome, ghost n: nat)
      modifies this`now
      ensures UndoReaches(old(now), n, now) && n <= 3 && (r.Done? ==> n == 3)
      ensures r.Done? ==> CanUndo(old(now)) && OwnStaged(old(now))
      ensures (reliable || recovers) && CanUndo(old(now)) && OwnStaged(old(now)) ==> r.Done?
      ensures !r.RecoveryFailed?
    {
      hide CreatePoint, UndoPoint;
      var sure := reliable || recovers;
      ghost var s := now;
      n := 0;
      NotYet(s);
      r := Ask(sure);
      if r.IsFailure() { return; }
      if now.pending.None? { return Failed, n; }
      var saved := now.pending.value;
      if || SlotLeaf(now.slot) !in {0, saved.digest.leaf} || now.pem !in {None, Some(saved.digest)}
         || (saved.crtList && now.list !in {saved.listBefore, saved.listAfter}) {
        return Failed, n;
      }
      if now.listed {
        r := SetListed(false, sure);
      }
      n := UndoAdvance(s, n, s, now);
      if r.IsFailure() { return; }
      ghost var p := now;
      if now.staged.Some? {
        if Leaf(now.staged) !in {0, saved.digest.leaf} { return Failed, n; }
        r := AbortTransaction(sure);
      }
      n := UndoAdvance(s, n, p, now);
      if r.IsFailure() { return; }
      p := now;
      if !now.slot.Absent? {
        r := DeleteSlot(sure);
      }
      if n == 2 { n := UndoAdvance(s, n, p, now); }
      if r.Done? { r := Ask(sure); }
      if r.Done? && (!now.slot.Absent? || now.staged.Some?) { r := Failed; }
    }

    /** finish_creation with operation 'rollback'. */
    method Undo() returns (r: Outcome, ghost n: nat)
      modifies this`now
      ensures UndoReaches(old(now), n, now) && (r.Done? ==> n == 8)
      ensures r.Done? ==> Undoable(old(now))
      ensures (reliable || recovers) && Undoable(old(now)) ==> r.Done?
      ensures !r.RecoveryFailed?
    {
      hide CreatePoint, UndoPoint;
      var sure := reliable || recovers;
      ghost var s := now;
      r, n := UndoRuntime();
      if r.IsFailure() { return; }
      ghost var p := now;
      UndoKeepsJournal(s, 3);
      if now.pending.value.crtList {
        if now.savedList.None? { return Failed, n; }
        r := WriteList(now.savedList.value, sure);
      }
      n := UndoAdvance(s, n, p, now);
      if r.Done? {
        p := now;
        r := WritePem(None, sure);
        n := UndoAdvance(s, n, p, now);
      }
      if r.Done? { r := Ask(sure); }
      if r.Done? {
        p := now;
        r := WriteReceipt(None, sure);
        n := UndoAdvance(s, n, p, now);
      }
      if r.Done? {
        p := now;
        r := WriteJournal(None, sure);
        n := UndoAdvance(s, n, p, now);
      }
      if r.Done? {
        p := now;
        r := SaveList(None, sure);
        n := UndoAdvance(s, n, p, now);
      }
    }

    /** finish_creation with operation 'commit'. */
    method Commit() returns (r: Outcome)
      modifies this`now
      ensures CommitEnds(old(now), r, now)
      ensures r.Done? ==> CanCommit(old(now)) && now == old(now).(pending := None, savedList := None)
      ensures reliable ==> (r.Done? <==> CanCommit(old(now)))
      ensures !r.RecoveryFailed?
    {
      r := Ask(reliable);
      if r.IsFailure() { return; }
      if now.pending.None? { return Failed; }
      var saved := now.pending.value;
      if now.pem != Some(saved.digest) || (saved.crtList && now.list != saved.listAfter) { return Failed; }
      if !now.listed || !now.slot.Loaded? || SlotLeaf(now.slot) != saved.digest.leaf { return Failed; }
      :- WriteJournal(None, reliable);
      r := SaveList(None, reliable);
    }

    /** The first half of deploy_creation's `try`: the PEM file and the line in the crt-list. */
    method WriteFiles(q: Request, ghost s: State) returns (r: Outcome, ghost n: nat)
      requires Admissible(s, q) && CreateReaches(s, q, 2, now)
      modifies this`now
      ensures CreateReaches(s, q, n, now) && 2 <= n <= 4
      ensures r.Done? ==> n == 4
      ensures reliable && Proceeds(old(now), q, 4) ==> r.Done?
      ensures !r.RecoveryFailed?
    {
      hide CreatePoint, UndoPoint;
      JournalPoint(s, q);
      ghost var p := now;
      n := 2;
      r := Ask(reliable);
      if r.IsFailure() { return; }
      if now.pem.None? {
        r := WritePem(Some(q.pem), reliable);
      } else if now.pem != Some(q.pem) {
        return Failed, n;
      }
      n := Advance(s, q, n, p, now);
      if r.IsFailure() { return; }
      p := now;
      if q.crtList {
        if now.list !in {now.pending.value.listBefore, now.pending.value.listAfter} { return Failed, n; }
        if now.list == now.pending.value.listBefore {
          if now.savedList.None? { return Failed, n; }
          r := WriteList(WithEntry(now.savedList.value, now.path), reliable);
        }
      }
      n := Advance(s, q, n, p, now);
    }

    /** The second part: load the certificate into HAProxy. */
    method LoadCertificate(q: Request, ghost s: State) returns (r: Outcome, ghost n: nat)
      requires Admissible(s, q) && CreateReaches(s, q, 4, now)
      modifies this`now
      ensures CreateReaches(s, q, n, now) && 4 <= n <= 7
      ensures r.Done? ==> n == 7 && now.slot.Loaded? && SlotLeaf(now.slot) == q.pem.leaf
      ensures reliable && Proceeds(Opened(s, q), q, 7) ==> r.Done?
      ensures !r.RecoveryFailed?
    {
      hide CreatePoint, UndoPoint, WithEntry, Entries, Admissible, Opened, Writable, ListKnown;
      FilesPoint(s, q);
      ghost var p := now;
      n := 4;
      r := Ask(reliable);
      if r.IsFailure() { return; }
      if now.slot.Absent? {
        r := NewSlot(reliable);
      }
      n := Advance(s, q, n, p, now);
      if r.IsFailure() { return; }
      if SlotLeaf(now.slot) !in {0, q.pem.leaf} || now.foreign ||
         (now.staged.Some? && Leaf(now.staged) != q.pem.leaf) {
        return Failed, n;
      }
      p := now;
      var load := SlotLeaf(now.slot) == 0 || now.staged.Some?;
      if load {
        r := StageCertificate(q.pem, reliable);
      }
      n := Advance(s, q, n, p, now);
      if r.IsFailure() { return; }
      p := now;
      if load {
        r := CommitCertificate(q.pem.leaf, reliable);
      }
      n := Advance(s, q, n, p, now);
    }

    /** The last part: list the certificate, check everything, and record that it was done. */
    method ListCertificate(q: Request, ghost s: State) returns (r: Outcome, ghost n: nat)
      requires Admissible(s, q) && CreateReaches(s, q, 7, now)
      requires now.slot.Loaded? && SlotLeaf(now.slot) == q.pem.leaf
      modifies this`now
      ensures CreateReaches(s, q, n, now) && 7 <= n <= 9
      ensures r.Done? ==> n == 9 && CanCommit(now)
      ensures reliable && FilesDone(old(now)) ==> r.Done?
      ensures !r.RecoveryFailed?
    {
      hide CreatePoint, UndoPoint;
      JournalPoint(s, q);
      FilesPoint(s, q);
      LoadedPoint(s, q);
      ghost var p := now;
      n := 7;
      r := Ask(reliable);
      if r.IsFailure() { return; }
      if !now.listed {
        r := SetListed(true, reliable);
      }
      n := Advance(s, q, n, p, now);
      if r.Done? { r := Ask(reliable); }
      if r.IsFailure() { return; }
      if now.pem != Some(now.pending.value.digest) ||
         (now.pending.value.crtList && now.list != now.pending.value.listAfter) {
        return Failed, n;
      }
      p := now;
      r := WriteReceipt(Some(q.pem), reliable);
      n := Advance(s, q, n, p, now);
    }

    /** deploy_creation up to its `try`: creation_preflight, and the journal. */
    method OpenJournal(q: Request) returns (r: Outcome, ghost n: nat)
      modifies this`now
      ensures CreateReaches(old(now), q, n, now) && n <= 2 && (r.Done? ==> n == 2)
      ensures reliable && Admissible(old(now), q) ==> r.Done?
      ensures !r.RecoveryFailed?
    {
      hide CreatePoint, UndoPoint;
      ghost var s := now;
      n := 0;
      Untouched(s, q);
      r := Ask(reliable);
      if r.IsFailure() { return; }
      if q.pem.leaf == 0 { return Failed, n; }
      if now.pending.Some? {
        var saved := now.pending.value;
        if saved.transaction != q.transaction || saved.crtList != q.crtList || saved.digest != q.pem {
          return Failed, n;
        }
      } else {
        if now.pem.Some? || !now.slot.Absent? || now.staged.Some? || now.foreign || now.listed { return Failed, n; }
        if q.crtList && (!Writable(now.path) || now.path in Entries(now.list)) { return Failed, n; }
        if q.crtList {
          r := SaveList(Some(now.list), reliable);
        }
      }
      n := Advance(s, q, n, s, now);
      if r.IsFailure() { return; }
      ghost var p := now;
      if now.pending.None? {
        r := WriteJournal(Some(Journal(q.transaction, q.pem, q.crtList, now.list,
                                       if q.crtList then WithEntry(now.list, now.path) else now.list)), reliable);
      }
      n := Advance(s, q, n, p, now);
    }

    /** deploy_creation. */
    method DeployCreation(q: Request) returns (r: Outcome)
      modifies this`now
      ensures CreateEnds(old(now), q, r, now)
      ensures reliable && ListKnown(old(now)) ==> (r.Done? <==> Accepts(old(now), q))
      // A recovery fails only if one of its own calls does, as long as the journal's guarantee holds.
      ensures recovers && Protected(old(now)) ==> !r.RecoveryFailed?
    {
      hide CreatePoint, UndoPoint;
      ghost var s, n := now, 0;
      r, n := OpenJournal(q);
      if r.IsFailure() {
        StoppedAt(s, q, n, now);
        return;
      }
      JournalPoint(s, q);
      FilesPoint(s, q);
      LoadedPoint(s, q);
      r, n := WriteFiles(q, s);
      if r.Done? { r, n := LoadCertificate(q, s); }
      if r.Done? { r, n := ListCertificate(q, s); }
      StoppedAt(s, q, n, now);
      ghost var p := now;
      if r.Failed? {
        ghost var k;
        if Protected(s) { PointUndoable(s, q, n, p); }
        r, k := Undo();
        assert UndoneFrom(s, q, k, now);
        r := if r.Killed? then Killed else if r.Failed? then RecoveryFailed else Failed;
      } else if r.Done? {
        if q.transaction.None? {
          r := Commit();
        }
        n := FinishPoints(s, q, p, r, now);
        StoppedAt(s, q, n, now);
      }
    }

    /** finish_deployment, for a journal that deploy_creation wrote. If the journal is gone already, as when
        the answer to an earlier call was lost, the host is only looked at again. */
    method FinishDeployment(op: Operation, transaction: Option<nat>, expected: Option<Pem>) returns (r: Outcome)
      modifies this
      ensures FinishEnds(old(now), op, transaction, r, now)
      ensures (reliable || recovers) && op.RollBack? && Owns(old(now), transaction) ==>
                (r.Done? <==> Undoable(old(now)))
      // A commit of one's own journal succeeds exactly if files and HAProxy agree with it, and removes it.
      ensures reliable && op.CommitJournal? && Owns(old(now), transaction) ==>
                var s, j := old(now), old(now).pending.value;
                (r.Done? <==> && s.pem == Some(j.digest) && (j.crtList ==> s.list == j.listAfter)
                              && s.listed && s.slot.Loaded? && SlotLeaf(s.slot) == j.digest.leaf)
      ensures op.CommitJournal? && Owns(old(now), transaction) && r.Done? ==>
                now == old(now).(pending := None, savedList := None)
      ensures old(now).pending.Some? && !Owns(old(now), transaction) ==> !r.Done?
      ensures old(now).pending.None? && r.Done? ==> Completed(now, op, transaction, expected, receipt)
      ensures reliable && old(now).pending.None? ==> (r.Done? <==> Completed(now, op, transaction, expected, receipt))
      ensures old(now).pending.None? && expected.Some? && r.Done? ==>
                if op.CommitJournal? then now.pem == expected && SlotLeaf(now.slot) == expected.value.leaf
                else receipt.Some? ==>
                  now.pem.None? && SlotLeaf(now.slot) == 0 && receipt.value.list in {None, Some(now.list)}
      ensures old(now).pending.None? || op.CommitJournal? ==> receipt == old(receipt)
      ensures old(now).pending.Some? && op.RollBack? && r.Done? ==>
                var j := old(now).pending.value;
                    receipt == Some(Receipt(transaction, if j.crtList then Some(j.listBefore) else None))
    {
      assert UndoReaches(now, 0, now);
      var sure := reliable || (recovers && op.RollBack?);
      r := Ask(sure);
      if r.IsFailure() { return; }
      if now.pending.None? {
        r := Ask(reliable);
        if r.Done? && !Completed(now, op, transaction, expected, receipt) { r := Failed; }
        return;
      }
      var j := now.pending.value;
      if j.transaction != transaction { return Failed; }
      if op.RollBack? {
        var effect;
        r, effect := Attempt(sure);
        if effect { receipt := Some(Receipt(transaction, if j.crtList then Some(j.listBefore) else None)); }
        if r.IsFailure() { return; }
        ghost var n;
        r, n := Undo();
      } else {
        r := Commit();
      }
    }
  }

  // ---------------------------------------------------------------------------------------
  // From point to point
  // ---------------------------------------------------------------------------------------

  predicate FilesDone(s: State) {
    s.pending.Some? && s.pem == Some(s.pending.value.digest) &&
        (s.pending.value.crtList ==> s.list == s.pending.value.listAfter)
  }

  /** The journal can restore the crt-list file, and knows what the file becomes. */
  predicate ListKnown(s: State) {
    s.pending.Some? && s.pending.value.crtList ==>
      s.savedList == Some(s.pending.value.listBefore) &&
          s.pending.value.listAfter == WithEntry(s.pending.value.listBefore, s.path)
  }

  /** What a creation needs for it to succeed when no call fails, ... */
  predicate Accepts(s: State, q: Request) {
    Admissible(s, q) && Proceeds(Opened(s, q), q, 9) && ListKnown(s)
  }

  /** ... and a rollback. */
  predicate Recoverable(s: State) {
    CanUndo(s) && OwnStaged(s) && ListKnown(s)
  }

  /** What a rollback asks for; a journal's guarantee includes it. */
  predicate Undoable(s: State) {
    CanUndo(s) && OwnStaged(s) && (InList(s) ==> s.savedList.Some?)
  }

  predicate Owns(s: State, transaction: Option<nat>) {
    s.pending.Some? && s.pending.value.transaction == transaction
  }

  lemma Untouched(s: State, q: Request)
    ensures CreateReaches(s, q, 0, s) && UndoReaches(s, 0, s) && UndoneFrom(s, q, 0, s)
  {
    assert CreateReaches(s, q, 0, s) && UndoReaches(s, 0, s);
  }

  lemma NotYet(s: State)
    ensures UndoReaches(s, 0, s)
  {
  }

  lemma StoppedAt(s: State, q: Request, n: nat, p: State)
    requires CreateReaches(s, q, n, p)
    ensures UndoneFrom(s, q, 0, p)
  {
    assert UndoReaches(p, 0, p);
  }

  lemma JournalPoint(s: State, q: Request)
    ensures CreatePoint(s, q, 2) == Opened(s, q)
    ensures Admissible(s, q) && ListKnown(s) ==> ListKnown(Opened(s, q))
    ensures Admissible(s, q) ==>
              var j := Opened(s, q).pending; j.Some? && j.value.digest == q.pem && j.value.crtList == q.crtList
  {
    assert CreatePoint(s, q, 1) == CreateEffect(s, q, 1, s);
  }

  lemma FilesPoint(s: State, q: Request)
    requires Admissible(s, q)
    ensures CreatePoint(s, q, 4).pending.Some?
    ensures var o, p := Opened(s, q), CreatePoint(s, q, 4);
            && p.pending == o.pending && p.slot == o.slot && p.staged == o.staged && p.foreign == o.foreign
            && p.listed == o.listed && p.path == o.path && p.pem == Some(q.pem) && p.savedList == o.savedList
            && (q.crtList && Proceeds(o, q, 4) && ListKnown(o) ==> p.list == o.pending.value.listAfter)
  {
    JournalPoint(s, q);
    assert CreatePoint(s, q, 3) == CreateEffect(s, q, 3, Opened(s, q));
  }

  lemma LoadedPoint(s: State, q: Request)
    ensures var p, t := CreatePoint(s, q, 4), CreatePoint(s, q, 7);
            p.pending == t.pending && p.pem == t.pem && p.list == t.list && p.savedList == t.savedList
  {
    assert CreatePoint(s, q, 5) == CreateEffect(s, q, 5, CreatePoint(s, q, 4));
    assert CreatePoint(s, q, 6) == CreateEffect(s, q, 6, CreatePoint(s, q, 5));
  }

  lemma UndoKeepsJournal(s: State, n: nat)
    ensures n < 4 ==> var p := UndoPoint(s, n);
                      p.pending == s.pending && p.savedList == s.savedList && p.list == s.list && p.path == s.path
  {
  }

  /** An effect that did not happen leaves the creation where it was. */
  lemma Advance(s: State, q: Request, n: nat, p: State, t: State) returns (m: nat)
    requires CreateReaches(s, q, n, p) && n < 11 && Admissible(s, q)
    requires n >= 2 ==> Proceeds(Opened(s, q), q, n + 1)
    requires t == p || t == CreateEffect(s, q, n + 1, p)
    ensures m == (if t == CreateEffect(s, q, n + 1, p) then n + 1 else n) && CreateReaches(s, q, m, t)
  {
    m := if t == CreateEffect(s, q, n + 1, p) then n + 1 else n;
  }

  lemma UndoAdvance(s: State, n: nat, p: State, t: State) returns (m: nat)
    requires UndoReaches(s, n, p) && n < 8 && CanUndo(s) && (n > 0 ==> OwnStaged(s))
    requires n > 2 && InList(s) ==> s.savedList.Some?
    requires t == p || t == UndoEffect(InList(s), n + 1, p)
    ensures m == (if t == UndoEffect(InList(s), n + 1, p) then n + 1 else n) && UndoReaches(s, m, t)
  {
    m := if t == UndoEffect(InList(s), n + 1, p) then n + 1 else n;
  }

  /** A creation without a transaction commits at once; with one it leaves the journal. */
  lemma FinishPoints(s: State, q: Request, p: State, r: Outcome, t: State) returns (m: nat)
    requires CreateReaches(s, q, 9, p) && p.pending.Some?
    requires if q.transaction.None? then CommitEnds(p, r, t) else t == p
    ensures 9 <= m && (r.Done? ==> m == 11) && CreateReaches(s, q, m, t)
  {
    var p10 := CreateEffect(s, q, 10, p);
    assert CreateReaches(s, q, 10, p10) && CreateReaches(s, q, 11, CreateEffect(s, q, 11, p10));
    m := if t == CreateEffect(s, q, 11, p10) then 11 else if t == p10 then 10 else 9;
  }

  // ---------------------------------------------------------------------------------------
  // Whole histories
  // ---------------------------------------------------------------------------------------

  datatype Call = Create(q: Request) | Finish(op: Operation, transaction: Option<nat>)

  ghost predicate CallEnds(s: State, c: Call, r: Outcome, t: State) {
    match c
    case Create(q) => CreateEnds(s, q, r, t)
    case Finish(op, transaction) => FinishEnds(s, op, transaction, r, t)
  }

  /** A call of any transaction, ended in any way; or, while no journal exists, anything at all. */
  ghost predicate Step(s: State, t: State) {
    (exists c, r :: CallEnds(s, c, r, t)) || (s.pending.None? && t.pending.None?)
  }

  ghost predicate History(run: seq<State>) {
    && |run| > 0
    && run[0].pending.None?
    && forall i :: 0 <= i < |run| - 1 ==> Step(run[i], run[i + 1])
  }

  /** What an existing journal guarantees. */
  predicate Protected(s: State) {
    s.pending.Some? ==>
      var j := s.pending.value;
      && j.digest.leaf != 0
      && s.pem in {None, Some(j.digest)}
      && s.slot in {Absent, Empty, Loaded(j.digest)}
      && s.staged in {None, Some(j.digest)}
      && (j.crtList ==> s.list in {j.listBefore, j.listAfter})
      && ListKnown(s)
      && (s.listed ==> s.slot.Loaded?)
      && !s.foreign
  }

  /** The points of a creation at which it may turn back. */
  lemma PointUndoable(s: State, q: Request, n: nat, p: State)
    requires Protected(s) && CreateReaches(s, q, n, p) && 2 <= n <= 9
    ensures Undoable(p)
  {
    hide CreatePoint, Protected, Undoable, Admissible;
    CreateKeepsProtected(s, q, n);
    ProtectedUndoable(p);
  }

  lemma ProtectedUndoable(s: State)
    requires Protected(s) && s.pending.Some?
    ensures Undoable(s)
  {
  }

  /** The certificate is nowhere, and the crt-list file is as it was. */
  predicate Gone(s: State, list: string) {
    s.pem.None? && s.slot.Absent? && s.staged.None? && !s.listed && s.list == list && s.applied.None?
  }

  /** The certificate is everywhere. */
  predicate There(s: State, pem: Pem, list: string) {
    s.pem == Some(pem) && s.slot == Loaded(pem) && s.listed && s.list == list
  }

  function ListBefore(s: State): string {
    if s.pending.Some? && s.pending.value.crtList then s.pending.value.listBefore else s.list
  }

  function ListAfter(s: State, crtList: bool): string {
    if s.pending.Some? then (if s.pending.value.crtList then s.pending.value.listAfter else s.list)
    else if crtList then WithEntry(s.list, s.path) else s.list
  }

  /** Where a creation that began in state s can be after n effects. */
  predicate Kept(s: State, q: Request, n: nat, p: State) {
    && Protected(p) && p.path == s.path
    && (n >= 2 && p.pending.Some? ==> p.pending == Opened(s, q).pending)
    && (2 <= n <= 9 ==> p.pending.Some?)
    && (n >= 10 ==> (p.pending.None? <==> q.transaction.None?))
    && (n < 4 || !q.crtList ==> p.list == s.list)
    && (n < 2 ==> p == s.(savedList := p.savedList))
    && (n == 1 && s.pending.None? && q.crtList ==> p.savedList == Some(s.list))
    && (n >= 3 ==> p.pem == Some(q.pem))
    && (n >= 4 ==> p.list == ListAfter(s, q.crtList))
    && (n >= 5 ==> !p.slot.Absent?)
    && (n == 6 ==> p.slot == Loaded(q.pem) || p.staged.Some?)
    && (n >= 7 ==> p.slot == Loaded(q.pem) && p.staged.None?)
    && (n >= 8 ==> p.listed)
    && (n >= 9 ==> p.applied == Some(q.pem))
  }

  lemma EffectKeeps(s: State, q: Request, n: nat, p: State)
    requires Protected(s) && 0 < n <= 11 && Kept(s, q, n - 1, p)
    requires Admissible(s, q) && (n > 2 ==> Proceeds(Opened(s, q), q, n))
    ensures Kept(s, q, n, CreateEffect(s, q, n, p))
  {
    hide Kept, CreateEffect;
    if n <= 4 { FilesKeep(s, q, n, p); } else { RuntimeKeeps(s, q, n, p); }
  }

  lemma FilesKeep(s: State, q: Request, n: nat, p: State)
    requires Protected(s) && 0 < n <= 4 && Kept(s, q, n - 1, p)
    requires Admissible(s, q) && (n > 2 ==> Proceeds(Opened(s, q), q, n))
    ensures Kept(s, q, n, CreateEffect(s, q, n, p))
  {
    hide Entries;
  }

  lemma RuntimeKeeps(s: State, q: Request, n: nat, p: State)
    requires Protected(s) && 5 <= n <= 11 && Kept(s, q, n - 1, p)
    requires Admissible(s, q) && Proceeds(Opened(s, q), q, n)
    ensures Kept(s, q, n, CreateEffect(s, q, n, p))
  {
    hide Entries, WithEntry;
  }

  /** At every point of a creation the journal keeps its guarantee, and from point to point more
      of the certificate is there. */
  lemma {:induction false} CreateKeepsProtected(s: State, q: Request, n: nat)
    requires Protected(s) && CreateReaches(s, q, n, CreatePoint(s, q, n))
    ensures Kept(s, q, n, CreatePoint(s, q, n))
  {
    hide CreateEffect, Kept;
    if n > 0 {
      CreateKeepsProtected(s, q, n - 1);
      EffectKeeps(s, q, n, CreatePoint(s, q, n - 1));
    } else {
      AtStart(s, q);
    }
  }

  lemma AtStart(s: State, q: Request)
    requires Protected(s)
    ensures Kept(s, q, 0, s)
  {
  }

  lemma UndoKeepsProtected(s: State, n: nat)
    requires Protected(s) && n <= 8 && (n > 0 ==> s.pending.Some?)
    ensures UndoKept(s, n, UndoPoint(s, n))
  {
    UndoKeeps(s, n);
  }

  predicate UndoKept(s: State, n: nat, p: State) {
    && Protected(p) && p.path == s.path && p.foreign == s.foreign
    && (n < 7 ==> p.pending == s.pending && p.savedList == s.savedList)
    && (n < 6 ==> p.applied == s.applied)
    && (n >= 1 ==> !p.listed)
    && (n >= 2 ==> p.staged.None?)
    && (n >= 3 ==> p.slot.Absent?)
    && (n < 4 || !InList(s) ==> p.list == s.list)
    && (n >= 4 ==> p.list == ListBefore(s))
    && (n >= 5 ==> p.pem.None?)
    && (n >= 6 ==> p.applied.None? && Gone(p, ListBefore(s)))
    && (n >= 7 ==> p.pending.None?)
    && (n >= 8 ==> p.savedList.None?)
    && (p.pending.Some? ==> ListBefore(p) == ListBefore(s))
  }

  lemma UndoStep(s: State, n: nat, p: State)
    requires Protected(s) && s.pending.Some? && 0 < n <= 8 && UndoKept(s, n - 1, p)
    ensures UndoKept(s, n, UndoEffect(InList(s), n, p))
  {
    if n <= 4 { UndoRuntimeStep(s, n, p); }
  }

  lemma UndoRuntimeStep(s: State, n: nat, p: State)
    requires Protected(s) && s.pending.Some? && 0 < n <= 4 && UndoKept(s, n - 1, p)
    ensures UndoKept(s, n, UndoEffect(InList(s), n, p))
  {
  }

  lemma {:induction false} UndoKeeps(s: State, n: nat)
    requires Protected(s) && n <= 8 && (n > 0 ==> s.pending.Some?)
    ensures UndoKept(s, n, UndoPoint(s, n))
  {
    if n > 0 {
      hide Protected, UndoKept, UndoEffect, InList;
      UndoKeeps(s, n - 1);
      UndoStep(s, n, UndoPoint(s, n - 1));
    }
  }

  lemma WhereCreateEnded(s: State, q: Request, r: Outcome, t: State) returns (n: nat, p: State, k: nat)
    requires CreateEnds(s, q, r, t)
    ensures CreateReaches(s, q, n, p) && UndoReaches(p, k, t)
  {
    k := 0;
    if r.Done? {
      n, p := 11, t;
    } else if r.Failed? && exists n :: CreateReaches(s, q, n, t) && (n <= 2 || n >= 9) {
      n :| CreateReaches(s, q, n, t) && (n <= 2 || n >= 9);
      p := t;
    } else {
      assert exists k' :: UndoneFrom(s, q, k', t);
      k :| UndoneFrom(s, q, k, t);
      n, p :| CreateReaches(s, q, n, p) && UndoReaches(p, k, t);
    }
  }

  lemma WhereUndoEnded(s: State, r: Outcome, t: State) returns (k: nat)
    requires UndoEnds(s, r, t) && t != s
    ensures UndoReaches(s, k, t) && 0 < k <= 8
  {
    k :| UndoReaches(s, k, t);
    assert UndoReaches(s, k, t);
  }

  /** How a call can leave the host. A journal keeps its guarantee and the crt-list file that it
      remembers. Without a journal the certificate is nowhere or everywhere, or nothing happened. */
  predicate Follows(s: State, c: Call, t: State) {
    && Protected(t) && t.path == s.path
    && match t.pending
       case Some(j) =>
         && ListBefore(t) == ListBefore(s)
         && if s.pending.Some? then t.pending == s.pending
            else c.Create? && Admissible(s, c.q) && t.pending == Opened(s, c.q).pending
       case None =>
         || (s.pending.None? && t == s.(savedList := t.savedList))
         || Gone(t, ListBefore(s))
         || (s.pending.Some? && There(t, s.pending.value.digest, ListAfter(s, s.pending.value.crtList)))
         || (s.pending.None? && c.Create? && There(t, c.q.pem, ListAfter(s, c.q.crtList)))
  }

  lemma CreateFollows(s: State, q: Request, n: nat, p: State)
    requires Protected(s) && CreateReaches(s, q, n, p)
    ensures Follows(s, Create(q), p)
  {
    hide CreatePoint, WithEntry, Entries;
    CreateKeepsProtected(s, q, n);
  }

  lemma UndoFollows(s: State, c: Call, p: State, k: nat, t: State)
    requires Follows(s, c, p) && UndoReaches(p, k, t)
    ensures Follows(s, c, t)
  {
    hide UndoPoint, WithEntry, Entries, Admissible;
    UndoKeepsProtected(p, k);
    if k == 0 { NotYet(p); UndoStart(p); }
  }

  lemma UndoStart(s: State)
    ensures UndoPoint(s, 0) == s
  {
  }

  lemma CallKeepsProtected(s: State, c: Call, r: Outcome, t: State)
    requires Protected(s) && CallEnds(s, c, r, t)
    ensures t == s || Follows(s, c, t)
  {
    hide CreatePoint, UndoPoint, Follows;
    match c
    case Create(q) =>
      var n, p, k := WhereCreateEnded(s, q, r, t);
      CreateFollows(s, q, n, p);
      UndoFollows(s, c, p, k, t);
    case Finish(op, transaction) =>
      if t != s {
        if op.RollBack? {
          var k := WhereUndoEnded(s, r, t);
          Itself(s, c);
          UndoFollows(s, c, s, k, t);
        } else {
          CommitFollows(s, c, r, t);
        }
      }
  }

  lemma Itself(s: State, c: Call)
    requires Protected(s) && s.pending.Some?
    ensures Follows(s, c, s)
  {
  }

  lemma CommitFollows(s: State, c: Call, r: Outcome, t: State)
    requires Protected(s) && CommitEnds(s, r, t) && t != s
    ensures Follows(s, c, t)
  {
  }

  lemma {:induction false} HistoryProtected(run: seq<State>, i: nat)
    requires History(run) && i < |run|
    ensures Protected(run[i])
  {
    if i > 0 {
      HistoryProtected(run, i - 1);
      assert Step(run[i - 1], run[i]);
      if run[i].pending.Some? {
        var c, r :| CallEnds(run[i - 1], c, r, run[i]);
        CallKeepsProtected(run[i - 1], c, r, run[i]);
      }
    }
  }

  // ---------------------------------------------------------------------------------------
  // Recovery
  // ---------------------------------------------------------------------------------------

  /** One creation, from the start its journal recorded: calls that leave the journal in place. */
  ghost predicate Episode(run: seq<State>) {
    && |run| > 1
    && run[0].pending.None? && run[0].applied.None?
    && forall i :: 0 <= i < |run| - 1 ==> LeavesJournal(run[i], run[i + 1])
  }

  ghost predicate LeavesJournal(s: State, t: State) {
    t.pending.Some? && exists c, r :: CallEnds(s, c, r, t)
  }

  lemma {:induction false} EpisodeKeeps(run: seq<State>, i: nat)
    requires Episode(run) && 0 < i < |run|
    ensures run[i].pending.Some? && Protected(run[i]) && ListBefore(run[i]) == run[0].list && run[i].path == run[0].path
    ensures exists q :: Admissible(run[0], q)
    ensures InList(run[i]) || run[i].list == run[0].list
  {
    assert LeavesJournal(run[i - 1], run[i - 1 + 1]);
    var c, r :| CallEnds(run[i - 1], c, r, run[i]);
    if i > 1 {
      EpisodeKeeps(run, i - 1);
    }
    CallKeepsProtected(run[i - 1], c, r, run[i]);
  }

  /** At every moment of the creation, and of any rollbacks begun and killed, a rollback finds
      what it needs; run to its end it leaves the host exactly as it was before the creation:
      no PEM file, the crt-list file byte for byte, HAProxy without certificate, transaction and
      entry. (It does run to its end when no call fails: see Host.Undo.) */
  lemma RollbackErases(run: seq<State>, i: nat)
    requires Episode(run) && 0 < i < |run|
    ensures Recoverable(run[i])
    ensures UndoPoint(run[i], 8) == run[0].(savedList := None)
  {
    EpisodeKeeps(run, i);
    UndoKeepsProtected(run[i], 8);
    var q :| Admissible(run[0], q);
  }

  /** A rollback that was killed and begun again ends in the same state as if it had not been. */
  lemma {:induction false} RollbackAgain(s: State, k: nat)
    requires Protected(s) && s.pending.Some? && k <= 6
    ensures Recoverable(UndoPoint(s, k))
    ensures UndoPoint(UndoPoint(s, k), 8) == UndoPoint(s, 8)
  {
    var p := UndoPoint(s, k);
    UndoKeepsProtected(s, k);
    UndoKeepsProtected(s, 8);
    UndoKeepsProtected(p, 8);
  }

  /** A rollback that is reported as finished is found finished again, and a commit likewise, as long
      as nothing else changes the host: a lost answer does no harm. */
  lemma FinishedAgain(s: State, transaction: Option<nat>, expected: Option<Pem>)
    requires Protected(s) && s.pending.Some?
    ensures var j := s.pending.value;
            Completed(UndoPoint(s, 8), RollBack, transaction, expected,
                      Some(Receipt(transaction, if j.crtList then Some(j.listBefore) else None)))
    ensures CanCommit(s) && s.applied == Some(s.pending.value.digest) ==>
              Completed(s.(pending := None, savedList := None), CommitJournal, transaction, s.applied, None)
  {
    UndoKeepsProtected(s, 8);
  }

  /** From every moment at which a journal exists, even one left by a killed rollback, one more
      creation with the same transaction and PEM is accepted and, run to its end, leaves the
      certificate everywhere. */
  lemma RetryCompletes(run: seq<State>, i: nat)
    requires History(run) && i < |run| && run[i].pending.Some?
    ensures var s, j := run[i], run[i].pending.value;
            var q := Request(j.transaction, j.digest, j.crtList);
            && Accepts(s, q)
            && There(CreatePoint(s, q, 11), j.digest, ListAfter(s, j.crtList))
            && CreatePoint(s, q, 11).applied == Some(j.digest) && CreatePoint(s, q, 11).staged.None?
  {
    HistoryProtected(run, i);
    var s, j := run[i], run[i].pending.value;
    var q := Request(j.transaction, j.digest, j.crtList);
    assert CreateReaches(s, q, 11, CreatePoint(s, q, 11));
    CreateKeepsProtected(s, q, 11);
  }

  /** A complete creation leaves the crt-list file naming the path exactly once, after everything that it
      named before, in the same order; a path that the file names already is refused at once. */
  lemma NamedOnce(s: State, q: Request)
    requires s.pending.None? && q.crtList && s.path != []
    ensures CreateReaches(s, q, 11, CreatePoint(s, q, 11)) ==>
              && Entries(CreatePoint(s, q, 11).list) == Entries(s.list) + [s.path]
              && multiset(Entries(CreatePoint(s, q, 11).list))[s.path] == 1
    ensures s.path in Entries(s.list) ==> forall n, p :: CreateReaches(s, q, n, p) ==> p == s
  {
    hide CreatePoint, Entries, WithEntry, Writable;
    if CreateReaches(s, q, 11, CreatePoint(s, q, 11)) {
      CreateKeepsProtected(s, q, 11);
      WithEntryAddsOne(s.list, s.path);
      assert multiset(Entries(s.list) + [s.path]) == multiset(Entries(s.list)) + multiset{s.path};
    }
    StartPoint(s, q);
  }

  lemma StartPoint(s: State, q: Request)
    ensures CreatePoint(s, q, 0) == s
  {
  }
}
