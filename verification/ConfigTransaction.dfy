/** One configuration transaction on a managed host (app/modules/config/candidate.py).

    A candidate is staged, validated, installed by compare-and-replace, and applied; any failure
    restores what was there. Validators and the service action are arbitrary: every call can
    raise, before or after it took effect. An outside writer, if there is one, can change the
    target between any two steps. */
module ConfigTransaction {
  import opened Outcomes
  import opened Contents

  datatype Service = Haproxy | Nginx | Apache | Keepalived | NginxWaf | HaproxyWaf

  datatype Action = Test | Check | Save | Reload | Restart

  datatype Phase = Prepare | Mount | Validate | Apply

  datatype Code = ValidationFailed | ApplyFailed | MountFailed | SaveFailed | RecoveryFailed

  /** `candidate` is the uploaded file, if it is a usable one; `expected`, the contents that the
      candidate was prepared from, if the caller says (a digest stands for its contents). */
  datatype Spec = Spec(service: Service, action: Action, applyOnly: bool, candidate: Option<Content>,
                       command: bool, expected: Option<Content>)
  {
    predicate IsWaf() {
      service.NginxWaf? || service.HaproxyWaf?
    }

    predicate CanValidate() {
      !service.HaproxyWaf?
    }

    /** HAProxy can check a candidate in place of the installed file; the others cannot. */
    predicate ValidatesBeforeInstall() {
      service.Haproxy?
    }

    predicate Supported() {
      && (service.HaproxyWaf? ==> action.Save? || action.Restart?)
      && (applyOnly ==> IsWaf() && (action.Reload? || action.Restart?) && candidate.None?)
    }

    predicate NeedsCommand() {
      action.Reload? || action.Restart?
    }

    /** The transactions meant to leave the candidate in place. */
    predicate Installs() {
      !applyOnly && (action.Save? || NeedsCommand())
    }
  }

  /** The answer. `phase` is set if the transaction raised; `cleanup`, if a cleanup did. */
  datatype Result = Result(ok: bool, code: Option<Code>, phase: Option<Phase>, restored: bool, cleanup: bool)

  /** `backup` is the copy of the original in the working directory; `running`, the contents the
      service last loaded. The sets are history variables: the contents that the transaction
      overwrote or deleted, those its validator accepted, and those the service action met. */
  datatype World = World(target: Option<Content>, backup: Option<Content>, work: bool, upload: bool,
                         running: Option<Content>, destroyed: set<Option<Content>>,
                         accepted: set<Option<Content>>, met: set<Option<Content>>)

  /** Shared: somebody else may write the target during the transaction. Alone: nobody does, here and
      below. Recovering: no call of the recovery and the cleanup raises, and the validator accepts what it
      is given then. Ideal: that is so for the whole transaction. Rejecting: but the validator does not
      accept the candidate. Refusing: but the service action of the transaction, not that of a recovery,
      raises. Detached: but the container's mounts cannot be inspected. */
  datatype Surroundings = Shared | Alone | Recovering | Rejecting | Refusing | Detached | Ideal
  {
    /** No call of the transaction itself raises, but for the one that is named. */
    predicate Steady() {
      Ideal? || Rejecting? || Refusing? || Detached?
    }

    /** No call of its recovery raises. */
    predicate Restores() {
      Steady() || Recovering?
    }
  }

  function CodeOf(phase: Phase): Code {
    match phase
    case Prepare => SaveFailed
    case Mount => MountFailed
    case Validate => ValidationFailed
    case Apply => ApplyFailed
  }

  class Transaction {
    var now: World
    const spec: Spec
    const around: Surroundings

    // The variables of `execute` that its handlers share with the body of its `try`.
    var original: Option<Content>
    var content: Option<Content>
    var phase: Phase
    var taken: bool            // `upload` is set
    var installed: bool
    var actionStarted: bool
    var baselineValid: bool
    /** For the proof: the contents that were last looked at. */
    ghost var looked: Option<Content>

    constructor (world: World, spec: Spec, around: Surroundings)
      requires !world.work && world.backup.None?
      ensures now == world && this.spec == spec && this.around == around
      ensures phase.Prepare? && !taken && !installed && !actionStarted && !baselineValid
      ensures original.None? && content.None?
    {
      now, this.spec, this.around := world, spec, around;
      phase, taken, installed, actionStarted, baselineValid := Prepare, false, false, false, false;
      original, content, looked := None, None, None;
    }

    /** Nothing of the host changed, except what an outside writer did to the target. */
    predicate Only(before: World, after: World)
    {
      after == before.(target := after.target) && (!around.Shared? ==> after.target == before.target)
    }

    method Call(sure: bool) returns (r: Outcome, effect: bool)
      ensures r.Done? || r.Failed?
      ensures r.Done? ==> effect
      ensures sure ==> r.Done?
    {
      effect := *;
      var raised: bool := *;
      r := if raised && !sure then Failed else Done;
      if r.Done? { effect := true; }
    }

    method Interfere()
      modifies this`now
      ensures Only(old(now), now)
    {
      if around.Shared? {
        var t: Option<Content> := *;
        now := now.(target := t);
      }
    }

    /** A step that only inspects. */
    method Ask(sure: bool) returns (r: Outcome)
      modifies this`now
      ensures Only(old(now), now) && (r.Done? || r.Failed?)
      ensures sure ==> r.Done?
    {
      Interfere();
      var effect;
      r, effect := Call(sure);
    }

    /** _contents. */
    method Contents(sure: bool) returns (r: Outcome, c: Option<Content>)
      modifies this`now, this`looked
      ensures Only(old(now), now) && c == now.target == looked && (r.Done? || r.Failed?)
      ensures sure ==> r.Done?
    {
      r := Ask(sure);
      c := now.target;
      looked := c;
    }

    /** validate(staged): a validator that can check a candidate checks the staged one, any other
        checks what is installed. */
    method Validates(staged: Option<Content>, sure: bool) returns (r: Outcome, valid: bool)
      modifies this`now
      ensures (r.Done? || r.Failed?) && (valid ==> r.Done?)
      ensures var subject := if staged.Some? && spec.ValidatesBeforeInstall() then staged else now.target;
              && now.accepted == (if valid then old(now).accepted + {subject} else old(now).accepted)
              && Only(old(now).(accepted := now.accepted), now)
      ensures sure ==> (valid <==> !Rejects(old(now), staged)) && r.Done?
    {
      var rejected := Rejects(now, staged);
      r := Ask(sure);
      valid := *;
      valid := if sure then !rejected else valid && r.Done?;
      if valid {
        var subject := if staged.Some? && spec.ValidatesBeforeInstall() then staged else now.target;
        now := now.(accepted := now.accepted + {subject});
      }
    }

    /** Whether the validator is one that does not accept this, which it is given. */
    predicate Rejects(w: World, staged: Option<Content>) {
      && around.Rejecting? && spec.candidate.Some?
      && spec.candidate == if staged.Some? && spec.ValidatesBeforeInstall() then staged else w.target
    }

    /** _install: the target becomes `source`, if it still is `expected`. */
    method Install(source: Option<Content>, expected: Option<Content>, sure: bool) returns (r: Outcome)
      modifies this`now
      ensures r.Done? || r.Failed?
      ensures || (r.Failed? && Only(old(now), now))
              || (source.Some? && now == old(now).(target := source, destroyed := old(now).destroyed + {expected}))
      ensures !around.Shared? && old(now).target != expected ==> r.Failed?
      ensures sure && !around.Shared? ==> (r.Done? <==> source.Some? && old(now).target == expected)
    {
      r := Ask(sure);
      if r.Failed? || source.None? || now.target != expected { return Failed; }
      var effect;
      r, effect := Call(sure);
      if effect {
        now := now.(target := source, destroyed := now.destroyed + {expected});
      }
    }

    /** The deletion of a new file that still is `expected`. */
    method Unlink(expected: Option<Content>, sure: bool) returns (r: Outcome)
      modifies this`now
      ensures r.Done? || r.Failed?
      ensures || (r.Failed? && Only(old(now), now))
              || (now == old(now).(target := None, destroyed := old(now).destroyed + {expected}))
      ensures sure && !around.Shared? ==> (r.Done? <==> old(now).target == expected)
    {
      r := Ask(sure);
      if r.Failed? || now.target != expected { return Failed; }
      var effect;
      r, effect := Call(sure);
      if effect {
        now := now.(target := None, destroyed := now.destroyed + {expected});
      }
    }

    /** The service action: the service loads what is installed, or raises before or after that. */
    method Applies(sure: bool) returns (r: Outcome)
      modifies this`now
      ensures r.Done? || r.Failed?
      ensures var target := now.target;
              && now.met == old(now).met + {target}
              && (now.running == target || (r.Failed? && now.running == old(now).running))
              && Only(old(now).(met := now.met, running := now.running), now)
      ensures sure ==> r.Done?
    {
      Interfere();
      var effect;
      r, effect := Call(sure);
      now := now.(met := now.met + {now.target}, running := if effect then now.target else now.running);
    }

    /** A look at what is installed, where the validator can take it. */
    method CheckBaseline() returns (r: Outcome)
      requires !baselineValid && (!around.Shared? ==> original == now.target)
      modifies this`now, this`baselineValid
      ensures r.Done? || r.Failed?
      ensures Only(old(now).(accepted := now.accepted), now) && old(now).accepted <= now.accepted
      ensures !around.Shared? && baselineValid ==> original in now.accepted
      ensures around.Steady() ==> r.Done?
      ensures around.Steady() && spec.CanValidate() && spec.NeedsCommand() ==>
                (baselineValid <==> !Rejects(old(now), None))
    {
      r := Done;
      if spec.CanValidate() && (spec.NeedsCommand() || !spec.ValidatesBeforeInstall()) {
        var valid;
        r, valid := Validates(None, around.Steady());
        baselineValid := valid;
      }
    }

    /** The working directory, with a true copy of the original. */
    method CopyOriginal() returns (r: Outcome)
      requires now.backup.None? && (!around.Shared? ==> original == now.target)
      modifies this`now
      ensures r.Done? || r.Failed?
      ensures Only(old(now).(work := now.work, backup := now.backup), now)
      ensures r.Done? ==> now.work && now.backup == original
      ensures around.Steady() ==> r.Done?
    {
      r := Ask(around.Steady());
      if r.Failed? { return; }
      now := now.(work := true);
      if original.Some? {
        r := Ask(around.Steady());
        if r.Failed? { return; }
        now := now.(backup := now.target);
        if now.backup != original { return Failed; }
      }
      r := Ask(around.Steady());
    }

    /** Staging a candidate: a look at what is installed, the working directory with a copy of the
        original, and the validation of the candidate if the validator can do it already. */
    method Stage() returns (r: Outcome)
      requires now.backup.None? && !installed && !actionStarted && !baselineValid
      requires !around.Shared? ==> original == now.target
      modifies this`now, this`phase, this`baselineValid
      ensures r.Done? || r.Failed?
      ensures var mine := old(now).(accepted := now.accepted, work := now.work, backup := now.backup); Only(mine, now)
      ensures old(now).accepted <= now.accepted
      ensures !around.Shared? && baselineValid ==> original in now.accepted
      ensures r.Done? ==> now.work && now.backup == original
      ensures r.Done? && spec.ValidatesBeforeInstall() && content.Some? ==> content in now.accepted
      ensures around.Steady() && content == spec.candidate && content.Some? ==>
                (r.Done? <==> !(around.Rejecting? && spec.ValidatesBeforeInstall())) && (r.Failed? ==> phase.Validate?)
      ensures around.Steady() && spec.CanValidate() && spec.NeedsCommand() ==>
                (baselineValid <==> !Rejects(old(now), None))
    {
      r := CheckBaseline();
      if r.Failed? { return; }
      phase := Prepare;
      r := CopyOriginal();
      if r.Failed? { return; }
      phase := Validate;
      if spec.ValidatesBeforeInstall() {
        var valid;
        r, valid := Validates(content, around.Steady());
        if !valid { r := Failed; }
      }
    }

    /** Installing and applying the staged candidate, or for a test putting the original back. */
    method InstallAndApply() returns (r: Outcome)
      requires !installed && !actionStarted && content.Some? && now.work && now.backup == original
      requires !around.Shared? ==> original == now.target
      requires spec.ValidatesBeforeInstall() ==> content in now.accepted
      modifies this`now, this`phase, this`installed, this`actionStarted, this`looked
      ensures r.Done? || r.Failed?
      ensures var w := old(now); Only(w.(accepted := now.accepted, met := now.met, running := now.running,
                                         destroyed := now.destroyed, target := now.target), now)
      ensures now.destroyed <= old(now).destroyed + {original, content} && old(now).accepted <= now.accepted
      ensures !around.Shared? ==> if installed then now.target in {original, content} else now.target == original
      ensures actionStarted ==> installed && spec.NeedsCommand() && !spec.action.Test?
      ensures r.Failed? ==> installed
      ensures r.Done? ==> looked == content
      ensures r.Done? ==> installed == !spec.action.Test?
      ensures r.Done? ==> actionStarted == (spec.NeedsCommand() && !spec.action.Test?)
      ensures !around.Shared? && r.Done? ==> now.target == if spec.action.Test? then original else content
      ensures !around.Shared? ==> if actionStarted then && now.met == old(now).met + {content}
                                                && (now.running == content ||
                                                     (r.Failed? && now.running == old(now).running))
                                                && (spec.CanValidate() ==> content in now.accepted)
                          else now.met == old(now).met && now.running == old(now).running
      ensures !around.Shared? && spec.action.Test? && !spec.ValidatesBeforeInstall() && original.None? ==> r.Failed?
      ensures around.Steady() && content == spec.candidate ==>
                r == Settles(original) && (r.Failed? ==> phase == Failing())
      ensures around.Ideal? && r.Failed? ==> !actionStarted
      ensures around.Refusing? && r.Failed? && !spec.action.Test? ==> actionStarted
      ensures around.Rejecting? && content == spec.candidate && r.Failed? ==> !actionStarted
      ensures r.Failed? ==> (actionStarted <==> phase.Apply?)
    {
      phase := Prepare;
      installed := true;
      r := Install(content, original, around.Steady());
      if r.Failed? { return; }
      phase := Validate;
      r := CheckInstalled();
      if r.Failed? { return; }
      if spec.action.Test? {
        r := Install(now.backup, content, around.Steady());
        if r.Failed? { return; }
        installed := false;
      } else if spec.NeedsCommand() {
        phase := Apply;
        actionStarted := true;
        r := Act();
      }
    }

    /** The candidate is valid where it is now, and still is what is there. */
    method CheckInstalled() returns (r: Outcome)
      requires content.Some? && (!around.Shared? ==> now.target == content)
      requires spec.ValidatesBeforeInstall() ==> content in now.accepted
      modifies this`now, this`looked
      ensures r.Done? || r.Failed?
      ensures Only(old(now).(accepted := now.accepted), now) && old(now).accepted <= now.accepted
      ensures r.Done? ==> looked == content
      ensures !around.Shared? && r.Done? && spec.CanValidate() ==> content in now.accepted
      ensures around.Steady() && content == spec.candidate ==>
                (r.Failed? <==> around.Rejecting? && spec.CanValidate() && !spec.ValidatesBeforeInstall())
      ensures around.Ideal? || around.Refusing? ==> r.Done?
    {
      if spec.CanValidate() && !spec.ValidatesBeforeInstall() {
        var valid;
        r, valid := Validates(content, around.Steady());
        if !valid { return Failed; }
      }
      var c;
      r, c := Contents(around.Steady());
      if r.Failed? || c != content { return Failed; }
    }

    /** The service action of the transaction itself. */
    method Act() returns (r: Outcome)
      modifies this`now
      ensures r.Done? || r.Failed?
      ensures var target := now.target;
              && now.met == old(now).met + {target}
              && (now.running == target || (r.Failed? && now.running == old(now).running))
              && Only(old(now).(met := now.met, running := now.running), now)
      ensures around.Steady() ==> (r.Done? <==> !around.Refusing?)
    {
      r := Applies(around.Steady() && !around.Refusing?);
      if around.Refusing? { r := Failed; }
    }

    /** How installing and applying a candidate ends in steady surroundings, ... */
    function Settles(original: Option<Content>): Outcome {
      if (around.Rejecting? && spec.CanValidate() && !spec.ValidatesBeforeInstall())
         || (spec.action.Test? && original.None?) || (around.Refusing? && spec.NeedsCommand())
      then Failed else Done
    }

    /** ... and in which phase, if it does not succeed. */
    function Failing(): Phase {
      if around.Refusing? && spec.NeedsCommand() then Apply else Validate
    }

    /** Accepting the request: the upload, the target, and whether the candidate is still wanted. */
    method Accept() returns (r: Outcome)
      requires !taken && content.None? && phase.Prepare?
      modifies this`now, this`phase, this`taken, this`content, this`original, this`looked
      ensures (r.Done? || r.Failed?) && Only(old(now), now)
      ensures content in {None, spec.candidate}
      ensures r.Done? ==> spec.Supported() && (spec.NeedsCommand() ==> spec.command)
      ensures r.Done? && !spec.action.Check? && !spec.applyOnly ==> taken && content == spec.candidate && content.Some?
      ensures r.Done? && !around.Shared? ==>
                original == now.target && (spec.expected.Some? ==> spec.expected == original)
      ensures around.Steady() ==> (r.Done? <==> Acceptable(old(now)) && !around.Detached?)
      ensures around.Steady() ==>
                phase == if r.Done? then Validate else if Acceptable(old(now)) then Mount else Prepare
    {
      if !spec.Supported() { return Failed; }
      if !spec.action.Check? && !spec.applyOnly {
        r := Upload();
        if r.Failed? { return; }
      }
      r := Target();
      if r.Failed? { return; }
      phase := Mount;
      r := Inspect();
      phase := if r.Done? then Validate else Mount;
    }

    method Inspect() returns (r: Outcome)
      modifies this`now
      ensures Only(old(now), now) && (r.Done? || r.Failed?)
      ensures around.Steady() ==> (r.Done? <==> !around.Detached?)
    {
      r := Ask(around.Steady());
      if around.Detached? { r := Failed; }
    }

    /** The candidate that was uploaded. */
    method Upload() returns (r: Outcome)
      requires !taken && content.None?
      modifies this`now, this`taken, this`content
      ensures (r.Done? || r.Failed?) && Only(old(now), now) && content in {None, spec.candidate}
      ensures r.Done? ==> taken && content == spec.candidate && content.Some?
      ensures around.Steady() ==> (r.Done? <==> spec.candidate.Some?)
    {
      r := Ask(around.Steady());
      if r.Failed? || spec.candidate.None? { return Failed; }
      taken := true;
      r := Ask(around.Steady());
      if r.Failed? { return; }
      content := spec.candidate;
    }

    /** The target, the command, and whether the candidate was made from what is there. */
    method Target() returns (r: Outcome)
      modifies this`now, this`original, this`looked
      ensures (r.Done? || r.Failed?) && Only(old(now), now)
      ensures r.Done? ==> spec.NeedsCommand() ==> spec.command
      ensures r.Done? && !around.Shared? ==>
                original == now.target && (spec.expected.Some? ==> spec.expected == original)
      ensures around.Steady() ==>
                (r.Done? <==> && (spec.IsWaf() ==> old(now).target.Some?) && (spec.NeedsCommand() ==> spec.command)
                              && Wanted(old(now)))
    {
      r := Ask(around.Steady());
      if r.Failed? || (spec.IsWaf() && now.target.None?) { return Failed; }
      if spec.NeedsCommand() && !spec.command { return Failed; }
      r, original := Contents(around.Steady());
      if r.Failed? || (spec.expected.Some? && original != spec.expected) { return Failed; }
    }

    /** The body of execute's `try`. */
    method Body() returns (r: Outcome)
      requires now.backup.None? && !taken && !installed && !actionStarted && !baselineValid && content.None? &&
                 original.None?
      modifies this
      ensures r.Done? || r.Failed?
      ensures now.destroyed <= old(now).destroyed + {original, content} && now.upload == old(now).upload
      ensures !around.Shared? ==> Undisturbed(old(now)) && (r.Done? ==> Settled(old(now)))
      ensures installed ==> content.Some? && now.work && now.backup == original
      ensures !around.Shared? ==> (r.Done? ==> Wanted(old(now))) && (r.Failed? ==> !installed || Wanted(old(now)))
      ensures r.Failed? && !installed ==> now.destroyed == old(now).destroyed
      ensures !around.Shared? && TestsNothing(old(now)) ==> r.Failed?
      ensures content in {None, spec.candidate}
      ensures around.Ideal? ==> (r.Done? <==> Acceptable(old(now)) && !TestsNothing(old(now)))
      ensures around.Ideal? && r.Failed? ==>
                && !actionStarted && (installed <==> Acceptable(old(now)))
                && phase == if installed then Validate else Prepare
      ensures r.Failed? && actionStarted ==> phase.Apply?
      // With or without a writer, what is left in place or was applied was looked at in the end.
      ensures r.Done? && installed ==> looked == content
      ensures r.Done? && spec.applyOnly ==> looked == original
      ensures around.Detached? && Acceptable(old(now)) ==>
                r.Failed? && phase.Mount? && !installed && now.running == old(now).running && now.work == old(now).work
      // The validator rejects a new candidate, or the service action raises.
      ensures around.Rejecting? && Acceptable(old(now)) && Offers(old(now)) ==>
                r.Failed? && phase.Validate? && !actionStarted && (installed <==> !spec.ValidatesBeforeInstall())
      ensures around.Refusing? && Acceptable(old(now)) && spec.NeedsCommand() && !spec.applyOnly ==>
                r.Failed? && phase.Apply? && installed && actionStarted && (spec.CanValidate() ==> baselineValid)
    {
      phase := Prepare;
      r := Accept();
      if r.Failed? { return; }
      if spec.applyOnly || spec.action.Check? {
        r := Current();
      } else {
        r := Candidate();
      }
    }

    /** Looking at the installed file, and applying it if that is asked for. */
    method Current() returns (r: Outcome)
      requires spec.applyOnly || spec.action.Check?
      requires spec.Supported() && (!around.Shared? ==> original == now.target)
      modifies this`now, this`phase, this`looked
      ensures r.Done? && spec.applyOnly ==> looked == original
      ensures r.Done? || r.Failed?
      ensures Only(old(now).(accepted := now.accepted, met := now.met, running := now.running), now)
      ensures old(now).accepted <= now.accepted
      ensures !around.Shared? ==> now.running in {old(now).running, now.target}
      ensures !around.Shared? && spec.CanValidate() ==> now.met <= old(now).met + now.accepted
      ensures !spec.applyOnly ==> now.running == old(now).running
      ensures !around.Shared? && r.Done? && spec.applyOnly ==> now.running == now.target
      ensures around.Ideal? ==> r.Done?
    {
      var valid := true;
      if spec.CanValidate() || spec.action.Check? {
        r, valid := Validates(None, around.Steady());
      }
      if !valid { return Failed; }
      r := Done;
      if spec.applyOnly {
        phase := Apply;
        r := Act();
        if r.Failed? { return; }
        var c;
        r, c := Contents(around.Steady());
        if c != original { r := Failed; }
      }
    }

    /** Staging, installing and applying a candidate. */
    method Candidate() returns (r: Outcome)
      requires now.backup.None? && !installed && !actionStarted && !baselineValid && content.Some?
      requires content == spec.candidate && (!around.Shared? ==> original == now.target)
      requires !spec.applyOnly && !spec.action.Check?
      modifies this`now, this`phase, this`baselineValid, this`installed, this`actionStarted, this`looked
      ensures r.Done? || r.Failed?
      ensures r.Done? && installed ==> looked == content
      ensures now.destroyed <= old(now).destroyed + {original, content} && now.upload == old(now).upload
      ensures !around.Shared? ==> Undisturbed(old(now)) && (r.Done? ==> Settled(old(now)))
      ensures installed ==> now.work && now.backup == original
      ensures r.Failed? && !installed ==> now.destroyed == old(now).destroyed
      ensures !around.Shared? && TestsNothing(old(now)) ==> r.Failed?
      ensures around.Ideal? ==> (r.Done? <==> !TestsNothing(old(now)))
      ensures around.Ideal? && r.Failed? ==> !actionStarted && installed && phase.Validate?
      ensures r.Failed? && actionStarted ==> phase.Apply?
      ensures around.Rejecting? && Offers(old(now)) ==>
                r.Failed? && phase.Validate? && !actionStarted && (installed <==> !spec.ValidatesBeforeInstall())
      ensures around.Refusing? && spec.NeedsCommand() ==>
                r.Failed? && phase.Apply? && installed && actionStarted && (spec.CanValidate() ==> baselineValid)
    {
      r := Stage();
      if r.Done? && (!spec.action.Test? || !spec.ValidatesBeforeInstall()) {
        r := InstallAndApply();
      }
    }

    /** While the transaction ran alone: what the handlers find, whatever raised. */
    predicate Undisturbed(before: World)
      reads this
    {
      && (installed ==> original == before.target && content == spec.candidate && now.target in {original, content})
      && (!installed ==> now.target == before.target)
      && (actionStarted ==> installed && spec.NeedsCommand())
      && (baselineValid ==> original in now.accepted && original == before.target)
      && before.accepted <= now.accepted
      && (spec.CanValidate() ==> now.met <= before.met + now.accepted)
      && (!actionStarted && !spec.applyOnly ==> now.running == before.running)
      && now.running in {before.running, before.target, content}
      && (spec.applyOnly ==> !installed && now.running in {before.running, before.target})
    }

    /** ... and what it is for, if nothing raised. */
    predicate Settled(before: World)
      reads this
    {
      && now.target == (if spec.Installs() then spec.candidate else before.target)
      && now.running == if spec.NeedsCommand() then now.target else before.running
    }

    /** The target is what the candidate was made from. */
    predicate Wanted(before: World) {
      spec.expected.Some? ==> before.target == spec.expected
    }

    /** A request that execute does not refuse: supported, with the candidate and the command that it
        needs, for a WAF file that exists, and not prepared from other contents. */
    predicate Acceptable(before: World) {
      && spec.Supported() && (spec.NeedsCommand() ==> spec.command)
      && (!spec.action.Check? && !spec.applyOnly ==> spec.candidate.Some?)
      && (spec.IsWaf() ==> before.target.Some?)
      && Wanted(before)
    }

    /** It offers the validator something new. */
    predicate Offers(before: World) {
      spec.CanValidate() && !spec.applyOnly && !spec.action.Check? && spec.candidate != before.target
    }

    /** A test that would have to put back a file which was not there. */
    predicate TestsNothing(before: World) {
      spec.action.Test? && !spec.ValidatesBeforeInstall() && before.target.None?
    }

    /** The handler's recovery: put the original back, and apply it again if the action was begun. */
    method Recover() returns (r: Outcome, restored: bool)
      requires installed && content.Some? && now.work && now.backup == original
      modifies this`now, this`looked
      ensures r.Done? || r.Failed?
      ensures now.work && now.backup == original && now.upload == old(now).upload
      ensures now.destroyed <= old(now).destroyed + {content}
      ensures !around.Shared? && r.Done? && old(now).target in {original, content} ==>
                now.target == original && now.running == if actionStarted then original else old(now).running
      ensures old(now).accepted <= now.accepted && (r.Done? ==> restored)
      ensures !around.Shared? && restored && old(now).target in {original, content} ==> now.target == original
      ensures spec.CanValidate() && !around.Shared? && old(now).target in {original, content} ==>
                now.met <= old(now).met + now.accepted
      // It fails only if one of its steps raises, or if what it put back was not accepted before.
      ensures around.Restores() && old(now).target in {original, content} && (around.Rejecting? ==> !actionStarted) ==>
                restored && (r.Done? <==> !(actionStarted && spec.CanValidate() && !baselineValid))
    {
      var sure := around.Restores();
      restored := false;
      var c;
      r, c := Contents(sure);
      if r.Failed? { return; }
      if c != original {
        if original.None? {
          r := Unlink(content, sure);
        } else {
          r := Install(now.backup, content, sure);
        }
        if r.Failed? { return; }
      }
      restored := true;
      if actionStarted {
        if spec.CanValidate() {
          if !baselineValid { return Failed, true; }
          var valid;
          r, valid := Validates(None, sure);
          if !valid { return Failed, true; }
        }
        r := Applies(sure);
      }
    }

    /** The `finally` of execute: every cleanup is attempted, whatever the others did. */
    method Cleanup(keepBackup: bool) returns (raised: bool)
      modifies this`now
      ensures Only(old(now).(upload := now.upload, work := now.work, backup := now.backup), now)
      ensures keepBackup ==> now.work == old(now).work && now.backup == old(now).backup
      ensures !raised ==> (taken ==> !now.upload) && (!keepBackup ==> !now.work)
      ensures !taken ==> now.upload == old(now).upload
      ensures around.Restores() ==> !raised
    {
      var r := Ask(around.Restores());
      raised := r.Failed?;
      if taken {
        var effect;
        r, effect := Call(around.Restores());
        if effect { now := now.(upload := false); }
        raised := raised || r.Failed?;
      }
      if now.work && !keepBackup {
        var effect;
        r, effect := Call(around.Restores());
        if effect { now := now.(work := false, backup := None); }
        raised := raised || r.Failed?;
      }
    }

    /** The answer if nothing is in the way. */
    function Ideally(before: World): Result {
      if !Acceptable(before) then Result(false, Some(SaveFailed), Some(Prepare), false, false)
      else if TestsNothing(before) then Result(false, Some(Code.ValidationFailed), Some(Validate), true, false)
      else Result(true, None, None, false, false)
    }

    /** execute. */
    method Execute() returns (result: Result)
      requires now.backup.None? && !now.work
      requires !taken && !installed && !actionStarted && !baselineValid && content.None? && original.None?
      modifies this
      ensures result.ok <==> result.phase.None? && !result.cleanup
      ensures result.code == Some(Code.RecoveryFailed) ==> result.phase.Some?
      ensures result.phase.Some? ==>
                result.code == Some(CodeOf(result.phase.value)) || result.code == Some(Code.RecoveryFailed)
      ensures !around.Shared? && result.restored ==> now.target == old(now).target
      // With or without an outside writer: only the original and the candidate are ever replaced or deleted.
      ensures now.destroyed <= old(now).destroyed + {original, content} && content in {None, spec.candidate}
      // Undisturbed: success is what was asked for, failure is as if nothing had been asked.
      ensures !around.Shared? && result.phase.None? ==> Settled(old(now))
      ensures !around.Shared? && result.phase.Some? && result.code != Some(Code.RecoveryFailed) ==>
                && now.target == old(now).target
                && (old(now).running == old(now).target ==> now.running == now.target)
      ensures !around.Shared? && result.code == Some(Code.RecoveryFailed) ==>
                original == old(now).target && now.work && now.backup == original
      ensures !around.Shared? && spec.CanValidate() ==> now.met <= old(now).met + now.accepted
      // A stale candidate and a test of a new file that only the service can check are refused.
      ensures !around.Shared? && !Wanted(old(now)) ==>
                result.phase.Some? && now.target == old(now).target && now.destroyed == old(now).destroyed
      ensures !around.Shared? && TestsNothing(old(now)) ==> !result.ok
      // Nothing in the way: exactly the acceptable requests succeed, but for the test of a new file.
      ensures around.Ideal? ==> (result.ok <==> Acceptable(old(now)) && !TestsNothing(old(now)))
      ensures around.Ideal? ==> result == Ideally(old(now))
      ensures around.Detached? && Acceptable(old(now)) ==>
                && result == Result(false, Some(Code.MountFailed), Some(Mount), false, false)
                && now.target == old(now).target && now.running == old(now).running && !now.work
      // A new candidate that is not accepted is not left behind, ...
      ensures around.Rejecting? && Acceptable(old(now)) && Offers(old(now)) ==>
                && result == Result(false, Some(Code.ValidationFailed), Some(Validate),
                                    !spec.ValidatesBeforeInstall(), false)
                && now.target == old(now).target && now.running == old(now).running && !now.work
      // ... nor one with which the service action raises: the service runs the original again.
      ensures around.Refusing? && Acceptable(old(now)) && spec.NeedsCommand() && !spec.applyOnly ==>
                && result == Result(false, Some(Code.ApplyFailed), Some(Apply), true, false)
                && now.target == now.running == old(now).target && !now.work
      // A recovery fails, if none of its steps raises, exactly if the action had begun on a baseline not accepted.
      ensures around.Recovering? ==>
                (result.code == Some(Code.RecoveryFailed) <==>
                 result.phase.Some? && actionStarted && spec.CanValidate() && !baselineValid)
      ensures around.Recovering? && installed && result.phase.Some? ==> result.restored && now.target == old(now).target
      ensures around.Recovering? && actionStarted && result.phase.Some? && (spec.CanValidate() ==> baselineValid) ==>
                result.code == Some(Code.ApplyFailed) && now.running == now.target
      ensures around.Restores() ==> !result.cleanup
      ensures !result.cleanup ==> (taken ==> !now.upload) && (now.work ==> result.code == Some(Code.RecoveryFailed))
    {
      var r := Body();
      var restored, keepBackup := false, false;
      if r.Done? {
        result := Result(true, None, None, false, false);
      } else {
        result := Result(false, Some(CodeOf(phase)), Some(phase), false, false);
        if installed {
          r, restored := Recover();
          keepBackup := r.Failed?;
          result := result.(restored := restored,
                            code := if keepBackup then Some(Code.RecoveryFailed) else result.code);
        }
      }
      var raised := Cleanup(keepBackup);
      if raised {
        result := result.(ok := false, cleanup := true,
                          code := if result.code.None? then Some(SaveFailed) else result.code);
      }
    }
  }
}
