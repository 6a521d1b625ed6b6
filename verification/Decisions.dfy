/**
 What decides: the observations on which a worker goes on, turns back or defers, and the rows its
 last commit leaves, each said of the whole step and in the columns' own terms.
 */
module Decisions {
  import opened Types
  import opened CheckpointGraph
  import opened NodeLifecycle
  import opened MasterAlgebra
  import opened Worker
  import opened WorkerInvariant
  import opened WorkerEffects
  import opened JobGuarantees
  import Consensus
  import DeploymentService

  // ---- The comparison after the switch ----

  /** The panel says the word itself, or the record does, or neither says anything. */
  predicate Says(shown: string, stored: string, word: string) {
    var said := Lower(if shown != "" then shown else stored);
    said == "" || said == word
  }

  /** The record and the probe show what was sent: every compared column, the token, and a healthy panel. */
  predicate AsSent(n: MasterNode, probe: Probe, m: Mutation) {
    && n.scheme == m.scheme && n.address == m.address && n.port == m.port && n.basePath == m.basePath
    && n.enable == m.enable && n.tlsVerifyMode == m.tlsVerifyMode && n.pinnedCertSha256 == m.pinnedCertSha256
    && (m.apiToken.Some? ==> n.hasApiToken)
    && Says(probe.status, n.status, "online") && Says(probe.xrayState, n.xrayState, "running")
  }

  lemma AsSentIsCompared(n: MasterNode, probe: Probe, m: Mutation)
    ensures AsSent(n, probe, m) <==> Verifies(n, probe, m)
  {
    if Verifies(n, probe, m) {
      forall a: Aspect ensures !Differs(n, probe, m, a) {
      }
      assert !Differs(n, probe, m, SchemeAspect) && !Differs(n, probe, m, AddressAspect) && !Differs(n, probe, m, PortAspect);
      assert !Differs(n, probe, m, BasePathAspect) && !Differs(n, probe, m, EnableAspect) && !Differs(n, probe, m, TlsModeAspect);
      assert !Differs(n, probe, m, PinAspect) && !Differs(n, probe, m, TokenAspect);
      assert !Differs(n, probe, m, StatusAspect) && !Differs(n, probe, m, XrayAspect);
    }
  }

  lemma WorkAtVerify(v: View, env: Env, i: Input)
    requires v.run.pc.Verify?
    ensures Work(v, env, i) == AtVerify(v, env, i)
  {
    hide AtVerify;
  }

  /**
   A worker comes to the place where the Master is recorded as verified exactly by a comparison that
   finds the record and the probe as they were sent, and to the rollback exactly by any other one.
   */
  lemma ComparisonDecides(v: View, env: Env, i: Input)
    ensures var w := Work(v, env, i);
            && (w.run.pc == Verified && v.run.pc != Verified <==>
                  v.run.pc.Verify? && i.Probed? && AsSent(v.master, i.probe, v.run.pc.m))
            && (w.run.pc == Rollback(MasterVerifying) && v.run.pc != Rollback(MasterVerifying) <==>
                  v.run.pc.Verify? && i.Probed? && !AsSent(v.master, i.probe, v.run.pc.m))
            && (v.run.pc.Verify? ==> w == Go(v, w.run.pc))
  {
    hide Work, AsSent, Verifies;
    WorkFlows(v, env, i);
    if v.run.pc.Verify? {
      WorkAtVerify(v, env, i);
      if i.Probed? {
        AsSentIsCompared(v.master, i.probe, v.run.pc.m);
      }
    }
  }

  // ---- The final check ----

  lemma WorkAtFinal(v: View, env: Env, i: Input)
    requires v.run.pc == Final
    ensures Work(v, env, i) == AtFinal(v, env, i)
  {
    hide AtFinal;
  }

  /**
   A real job passes its final check exactly by a REACHABLE verdict; INDETERMINATE defers it, UNREACHABLE
   turns it back.
   */
  lemma FinalCheckDecides(v: View, env: Env, i: Input)
    requires !v.job.dryRun
    ensures var w := Work(v, env, i);
            && (w.run.pc == FinalDone && v.run.pc != FinalDone <==> v.run.pc == Final && i == Seen(Reachable))
            && (v.run.pc == Final && i == Seen(Indeterminate) ==> w == Leave(v))
            && (w.run.pc == Rollback(FinalCheck) && v.run.pc != Rollback(FinalCheck) <==> v.run.pc == Final && i == Seen(Unreachable))
            && (v.run.pc == Final ==> w == Go(v, w.run.pc))
  {
    hide Work;
    WorkFlows(v, env, i);
    if v.run.pc == Final {
      WorkAtFinal(v, env, i);
    } else if v.run.pc == Enter(FinalCheck) {
      WorkAtStage(v, env, i);
      RealFinalCheckIsAsked(v, env, i);
    }
  }

  lemma RealFinalCheckIsAsked(v: View, env: Env, i: Input)
    requires !v.job.dryRun && v.run.pc == Enter(FinalCheck)
    ensures AtFinalCheck(v, env, i).run.pc != FinalDone
  {
  }

  // ---- The candidate's address ----

  lemma WorkAtRounds(v: View, env: Env, i: Input)
    requires v.run.pc == Rounds
    ensures Work(v, env, i) == AtRounds(v, env, i)
  {
    hide AtRounds;
  }

  /**
   A real job judges its candidate exactly by the consensus of the observed rounds; without one it defers.
   */
  lemma RoundsDecide(v: View, env: Env, i: Input, d: Decision)
    requires !v.job.dryRun
    ensures var w := Work(v, env, i);
            && (w.run.pc == Judged(d) && v.run.pc != Judged(d) <==>
                  v.run.pc == Rounds && i.Observed? && d != Indeterminate
                  && Consensus.Verdict(i.rounds, env.cfg.requiredConsensus) == d)
            && (v.run.pc == Rounds && i.Observed? && Consensus.Verdict(i.rounds, env.cfg.requiredConsensus) == Indeterminate ==>
                  w == Leave(v))
  {
    hide Work, Consensus.Verdict, AtRounds, AtJudged, AtStage;
    WorkFlows(v, env, i);
    if v.run.pc == Rounds {
      WorkAtRounds(v, env, i);
      VerdictDecides(v, env, i, d);
    } else if v.run.pc.Judged? {
      WorkAtJudged(v, env, i);
      JudgedStays(v, env, i);
    } else if v.run.pc == Enter(CheckingIp) {
      WorkAtStage(v, env, i);
      RealAddressIsChecked(v, env, i);
      StageOfChecking(v, env, i);
    }
  }

  lemma VerdictDecides(v: View, env: Env, i: Input, d: Decision)
    requires v.run.pc == Rounds
    ensures var w := AtRounds(v, env, i);
            && (w.run.pc == Judged(d) <==>
                  i.Observed? && d != Indeterminate && Consensus.Verdict(i.rounds, env.cfg.requiredConsensus) == d)
            && (i.Observed? && Consensus.Verdict(i.rounds, env.cfg.requiredConsensus) == Indeterminate ==> w == Leave(v))
  {
    hide Consensus.Verdict;
  }

  lemma WorkAtJudged(v: View, env: Env, i: Input)
    requires v.run.pc.Judged?
    ensures Work(v, env, i) == AtJudged(v, env, i)
  {
    hide AtJudged;
  }

  lemma JudgedStays(v: View, env: Env, i: Input)
    requires v.run.pc.Judged?
    ensures AtJudged(v, env, i).run.pc.Judged? ==> AtJudged(v, env, i).run.pc == v.run.pc
  {
    hide Allowed;
  }

  lemma StageOfChecking(v: View, env: Env, i: Input)
    requires v.run.pc == Enter(CheckingIp)
    ensures AtStage(v, env, i) == AtCheckingIp(v, env, i)
  {
    hide AtCheckingIp;
  }

  lemma RealAddressIsChecked(v: View, env: Env, i: Input)
    requires !v.job.dryRun && v.run.pc == Enter(CheckingIp)
    ensures !AtCheckingIp(v, env, i).run.pc.Judged?
  {
  }

  /** A candidate counts as lost exactly when the readiness wait does not find it. */
  lemma LossDecides(v: View, env: Env, i: Input)
    ensures Work(v, env, i).run.pc == Gone && v.run.pc != Gone <==> v.run.pc.Await? && i == NotFound
  {
    hide Work;
    WorkFlows(v, env, i);
    if v.run.pc.Await? {
      WorkAtAwait(v, env, i);
    }
  }

  lemma WorkAtAwait(v: View, env: Env, i: Input)
    requires v.run.pc.Await?
    ensures Work(v, env, i) == AtAwait(v, env, i)
  {
    hide AtAwait;
  }

  // ---- What a switch may touch ----

  /**
   A record that can be switched and switched back: not read-only, no client certificates, its token at hand.
   */
  predicate Switchable(n: MasterNode, credentials: Credentials) {
    !n.transitive && n.tlsVerifyMode != "mtls" && (n.hasApiToken ==> credentials.apiTokenRef.Some?)
  }

  lemma WorkAtPreflight(v: View, env: Env, i: Input)
    requires v.run.pc == Preflight
    ensures Work(v, env, i) == AtPreflight(v, env, i)
  {
    hide AtPreflight;
  }

  /**
   A worker takes a record for its switch exactly when it can be switched back; every other one is an error.
   */
  lemma PreflightDecides(v: View, env: Env, i: Input)
    ensures var w := Work(v, env, i);
            && (w.run.pc.Shown? && !v.run.pc.Shown? <==> v.run.pc == Preflight && i == Ok && Switchable(v.master, v.node.credentials))
            && (v.run.pc == Preflight && i == Ok ==>
                  w == if Switchable(v.master, v.node.credentials) then Go(v, Shown(v.master)) else Fall(v))
  {
    hide Work;
    WorkFlows(v, env, i);
    if v.run.pc == Preflight {
      WorkAtPreflight(v, env, i);
    }
  }

  // ---- Deletions ----

  lemma WorkAtLook(v: View, env: Env, i: Input)
    ensures v.run.pc.OldGet? ==> Work(v, env, i) == AtOldGet(v, env, i)
    ensures v.run.pc.ReapGet? ==> Work(v, env, i) == AtReapGet(v, env, i)
  {
    hide AtOldGet, AtReapGet;
  }

  /**
   A worker asks for the old server's deletion exactly after a look that shows its identity at its registered
   address.
   */
  lemma OldLookDecides(v: View, env: Env, i: Input)
    requires Inv(v, env.clock)
    ensures var w := Work(v, env, i);
            w.run.pc.OldDelete? && !v.run.pc.OldDelete? <==>
              v.run.pc.OldGet? && i.Saw? && i.server == v.job.oldVps && i.server in v.vps && i.ip == v.vps[i.server].host
  {
    hide Work, Inv, AtOldGet;
    WorkFlows(v, env, i);
    WorkAtLook(v, env, i);
    if v.run.pc.OldGet? {
      LookedUp(v, env.clock);
      OldAnswerDecides(v, env, i);
    }
  }

  /** What a worker looks up, with the host its row shows. */
  lemma LookedUp(v: View, clock: nat)
    requires Inv(v, clock)
    ensures v.run.pc.OldGet? ==>
              v.run.pc.server == v.job.oldVps && v.job.oldVps in v.vps && v.run.pc.host == v.vps[v.job.oldVps].host
    ensures v.run.pc.ReapGet? ==>
              && v.job.newVps == Some(v.run.pc.server) && v.run.pc.named == v.job.attempt
              && v.run.pc.server in v.vps && v.run.pc.host == v.vps[v.run.pc.server].host
  {
    WorkerInvariant.Opened(v, clock);
  }

  lemma OldAnswerDecides(v: View, env: Env, i: Input)
    requires v.run.pc.OldGet?
    ensures AtOldGet(v, env, i).run.pc.OldDelete? <==> i.Saw? && i.server == v.run.pc.server && i.ip == v.run.pc.host
  {
  }

  lemma ReapAnswerDecides(v: View, env: Env, i: Input)
    requires v.run.pc.ReapGet?
    ensures AtReapGet(v, env, i).run.pc.ReapDelete? <==>
              && i.Saw? && i.server == v.run.pc.server && i.name == CandidateName(v.id, v.run.pc.named)
              && (v.run.pc.host == "" || i.ip == v.run.pc.host)
  {
  }

  /**
   And for a candidate's after one that shows its identity under its own name, at its address if it has one.
   */
  lemma ReapLookDecides(v: View, env: Env, i: Input)
    requires Inv(v, env.clock)
    ensures var w := Work(v, env, i);
            w.run.pc.ReapDelete? && !v.run.pc.ReapDelete? <==>
              && v.run.pc.ReapGet? && i.Saw? && v.job.newVps == Some(i.server) && i.name == CandidateName(v.id, v.job.attempt)
              && i.server in v.vps && (v.vps[i.server].host == "" || i.ip == v.vps[i.server].host)
  {
    hide Work, Inv, AtReapGet;
    WorkFlows(v, env, i);
    WorkAtLook(v, env, i);
    if v.run.pc.ReapGet? {
      LookedUp(v, env.clock);
      ReapAnswerDecides(v, env, i);
    }
  }

  /** The old server counts as gone exactly when its deletion succeeded or a look missed it. */
  lemma DeletionDecides(v: View, env: Env, i: Input)
    ensures var w := Work(v, env, i);
            w.run.pc == OldDone && v.run.pc != OldDone <==> (v.run.pc.OldDelete? && i == Ok) || (v.run.pc.OldGet? && i == NotFound)
  {
    hide Work;
    WorkFlows(v, env, i);
    WorkAtLook(v, env, i);
    WorkAtDeletion(v, env, i);
  }

  /** The row of the candidate says that there is nothing left to delete. */
  predicate NothingToReap(v: View) { !HasRow(v) || v.vps[v.job.newVps.value].state == VpsDeleted }

  /**
   A candidate is let go exactly when its deletion succeeded, a look missed it, or its row says it is
   deleted.
   */
  lemma ReapingDecides(v: View, env: Env, i: Input)
    ensures var w := Work(v, env, i);
            w.run.pc == Reaped && v.run.pc != Reaped <==>
              || (v.run.pc.ReapDelete? && i == Ok) || (v.run.pc.ReapGet? && i == NotFound)
              || (v.run.pc == Enter(TempCleanup) && i == Ok && Renews(v, env) && NothingToReap(v))
  {
    hide Work;
    WorkFlows(v, env, i);
    WorkAtLook(v, env, i);
    WorkAtDeletion(v, env, i);
    if v.run.pc == Enter(TempCleanup) {
      WorkAtStage(v, env, i);
    }
  }

  /**
   A look that shows something else and a delete call that finds nothing are errors; a dry run takes
   a server that is not there for deleted.
   */
  lemma MismatchesAreErrors(v: View, env: Env, i: Input)
    ensures var w, failing := Work(v, env, i), v.(run := v.run.(pc := Failing));
            && (v.run.pc.OldGet? && i.Saw? ==> w.run.pc.OldDelete? || w == failing)
            && (v.run.pc.ReapGet? && i.Saw? ==> w.run.pc.ReapDelete? || w == failing)
            && (v.run.pc.OldDelete? || v.run.pc.ReapDelete? ==> i == NotFound ==> w == failing)
            && (v.run.pc.DryDelete? ==> (w.run.pc == DryDone <==> i == Ok || i == NotFound))
  {
    hide Work;
    if v.run.pc.OldGet? || v.run.pc.ReapGet? {
      WorkAtLook(v, env, i);
    } else if v.run.pc.OldDelete? || v.run.pc.ReapDelete? || v.run.pc.DryDelete? {
      WorkAtDeletion(v, env, i);
    }
  }

  /** The places of a real job's old server cleanup. */
  predicate Retiring(pc: Pc) { pc.OldGet? || pc.OldDelete? || pc == OldDone }

  /** Nobody comes there but through the stage's door, with deletion enabled and the lease renewed. */
  lemma RetiringNeedsPermission(v: View, env: Env, i: Input)
    requires Retiring(Work(v, env, i).run.pc) && !Retiring(v.run.pc)
    ensures v.run.pc == Enter(OldVpsCleanup) && i == Ok && env.cfg.allowOldDeletion && Renews(v, env)
  {
    hide Work;
    WorkFlows(v, env, i);
    if v.run.pc == Enter(OldVpsCleanup) {
      WorkAtStage(v, env, i);
      DoorNeedsPermission(v, env, i);
    }
  }

  lemma DoorNeedsPermission(v: View, env: Env, i: Input)
    requires v.run.pc == Enter(OldVpsCleanup) && Retiring(AtOldVpsCleanup(v, env, i).run.pc)
    ensures i == Ok && env.cfg.allowOldDeletion && Renews(v, env)
  {
    hide GuardPermits;
  }

  /** With deletion disabled a live job waits in front of it: the step defers and changes nothing. */
  lemma DisabledDeletionDefers(v: View, env: Env)
    requires Inv(v, env.clock) && Live(v.job) && v.run.pc == Enter(OldVpsCleanup) && !env.cfg.allowOldDeletion
    ensures Work(v, env, Ok) == Leave(v) && v.job.checkpoint == OldVpsCleanup
  {
    hide GuardPermits;
    WorkerInvariant.Opened(v, env.clock);
    GuardNeverDenies(v, env.clock);
    WorkAtStage(v, env, Ok);
  }

  // ---- What is written to the Master ----

  /** The columns a switch and its rollback carry over from the saved snapshot. */
  predicate Carried(n: MasterNode, s: Payload) {
    && n.name == Text(s.name, "") && n.remark == Text(s.remark, "") && n.enable == Flag(s.enable, true)
    && n.allowPrivateAddress == Flag(s.allowPrivateAddress, false) && n.inboundSyncMode == Text(s.inboundSyncMode, "all")
    && n.inboundTags == Tags(s.inboundTags) && n.outboundTag == Text(s.outboundTag, "")
  }

  /** The columns no update sets. */
  predicate SameIdentity(n: MasterNode, m: MasterNode) {
    n.id == m.id && n.guid == m.guid && n.status == m.status && n.xrayState == m.xrayState && n.transitive == m.transitive
  }

  /**
   TLS settings survive on an https panel; one that pins takes the fingerprint read for it, any other has
   none to take.
   */
  predicate TlsCarried(n: MasterNode, s: Payload, fingerprint: string) {
    if n.scheme != "https" then n.tlsVerifyMode == "verify" && n.pinnedCertSha256 == ""
    else
      && n.tlsVerifyMode == Text(s.tlsVerifyMode, "verify")
      && n.pinnedCertSha256 == if n.tlsVerifyMode == "pin" then fingerprint else Text(s.pinnedCertSha256, "")
  }

  /** What a job's own deployment says. */
  function ConfigOf(v: View): PanelConfig
    requires HasPanel(v)
  {
    v.deployment.value.config.value
  }

  /**
   A landed switch shows the candidate's address and the deployed panel's scheme, port and base path,
   with a token, carries the rest over from the snapshot, and leaves the record's identity alone.
   */
  lemma SwitchedRecord(v: View, env: Env, i: Input)
    requires Inv(v, env.clock) && v.run.pc.Switch? && Work(v, env, i).log != v.log
    ensures HasPanel(v) && v.job.snapshot.Some?
    ensures var n, c := Work(v, env, i).master, ConfigOf(v);
            && Work(v, env, i).log == v.log + [MasterWrite(Switcher(v.id), n)]
            && n.address == v.vps[v.job.newVps.value].host && n.scheme == c.scheme && n.port == c.port
            && n.basePath == c.basePath && n.hasApiToken
            && Carried(n, v.job.snapshot.value) && SameIdentity(n, v.master)
            && TlsCarried(n, v.job.snapshot.value, v.run.pc.m.pinnedCertSha256)
  {
    hide Work;
    SwitchIsOfTarget(v, env.clock);
    WorkAtWrite(v, env, i);
    TargetRecord(v.master, v.job.snapshot.value, v.vps[v.job.newVps.value].host, ConfigOf(v), v.run.pc.m);
  }

  /** A switch counts as made exactly when its call was answered; an effect without an answer does not. */
  lemma AnswerDecides(v: View, env: Env, i: Input)
    ensures var w := Work(v, env, i);
            && (w.run.pc == Switched && v.run.pc != Switched <==> v.run.pc.Switch? && i == Ok)
            && (v.run.pc.Switch? && i == Ok ==> w.log != v.log)
  {
    hide Work, Overlay;
    WorkFlows(v, env, i);
    if v.run.pc.Switch? {
      WorkAtSwitch(v, env, i);
    }
  }

  lemma WorkAtSwitch(v: View, env: Env, i: Input)
    requires v.run.pc.Switch?
    ensures Work(v, env, i) == AtSwitch(v, env, i)
  {
    hide AtSwitch;
  }

  lemma SwitchIsOfTarget(v: View, clock: nat)
    requires Inv(v, clock) && v.run.pc.Switch?
    ensures HasPanel(v) && v.job.snapshot.Some? && KnownScheme(ConfigOf(v))
    ensures v.run.pc.m == Pinned(Target(v.job.snapshot.value, v.vps[v.job.newVps.value].host, ConfigOf(v)), v.run.pc.m.pinnedCertSha256)
  {
    WorkerInvariant.Opened(v, clock);
  }

  lemma WorkAtWrite(v: View, env: Env, i: Input)
    requires v.run.pc.Switch? || v.run.pc.RollWrite?
    ensures var author := if v.run.pc.Switch? then Switcher(v.id) else Reverter(v.id);
            var n := Overlay(v.master, v.run.pc.m);
            var w := Work(v, env, i);
            w.log != v.log ==> w.master == n && w.log == v.log + [MasterWrite(author, n)]
  {
    hide Overlay;
  }

  lemma TargetRecord(n: MasterNode, s: Payload, host: string, c: PanelConfig, m: Mutation)
    requires KnownScheme(c) && m == Pinned(Target(s, host, c), m.pinnedCertSha256)
    ensures var w := Overlay(n, m);
            && w.address == host && w.scheme == c.scheme && w.port == c.port && w.basePath == c.basePath && w.hasApiToken
            && Carried(w, s) && SameIdentity(w, n) && TlsCarried(w, s, m.pinnedCertSha256)
  {
  }

  /**
   A landed rollback shows the snapshot's address, scheme, port, base path and TLS settings again, and
   carries the rest over.
   */
  lemma RolledBackRecord(v: View, env: Env, i: Input)
    requires Inv(v, env.clock) && v.run.pc.RollWrite? && Work(v, env, i).log != v.log
    ensures v.job.snapshot.Some?
    ensures var n, s := Work(v, env, i).master, v.job.snapshot.value;
            && Work(v, env, i).log == v.log + [MasterWrite(Reverter(v.id), n)]
            && n.address == Text(s.address, "") && n.scheme == Text(s.scheme, "http") && n.port == Number(s.port)
            && n.basePath == Text(s.basePath, "") && n.tlsVerifyMode == Text(s.tlsVerifyMode, "verify")
            && n.pinnedCertSha256 == Text(s.pinnedCertSha256, "")
            && Carried(n, s) && SameIdentity(n, v.master)
  {
    hide Work;
    RollbackIsOfSnapshot(v, env.clock);
    WorkAtWrite(v, env, i);
  }

  /**
   A rollback is checked exactly when its call was answered, and a check that was answered ends in failure.
   */
  lemma RollbackDecides(v: View, env: Env, i: Input)
    ensures var w := Work(v, env, i);
            && (w.run.pc.RollCheck? && !v.run.pc.RollCheck? <==> v.run.pc.RollWrite? && i == Ok)
            && (v.run.pc.RollCheck? ==> (w == v.(run := v.run.(pc := Failing)) <==> i.Probed? || i.Broken?))
  {
    hide Work, Overlay;
    WorkFlows(v, env, i);
    if v.run.pc.RollWrite? || v.run.pc.RollCheck? {
      WorkAtRollback(v, env, i);
    }
  }

  lemma WorkAtRollback(v: View, env: Env, i: Input)
    requires v.run.pc.RollWrite? || v.run.pc.RollCheck?
    ensures Work(v, env, i) == if v.run.pc.RollWrite? then AtRollWrite(v, env, i) else AtRollCheck(v, env, i)
  {
    hide AtRollWrite, AtRollCheck;
  }

  lemma RollbackIsOfSnapshot(v: View, clock: nat)
    requires Inv(v, clock) && v.run.pc.RollWrite?
    ensures v.job.snapshot.Some? && v.run.pc.m == FromSnapshot(v.job.snapshot.value, v.run.pc.m.apiToken)
  {
    WorkerInvariant.Opened(v, clock);
  }

  /**
   A dry run's snapshot, once saved, stays; a new one describes the node where it is, in a record never read
   from the Master.
   */
  lemma DryRunSnapshot(v: View, env: Env)
    requires v.run.pc == Enter(NodeVerified) && v.job.checkpoint == NodeVerified && v.job.dryRun && HasRow(v) && HasDeployment(v)
    ensures var w := Work(v, env, Ok);
            && w.job.checkpoint == MasterUpdating && w.job.snapshot.Some?
            && (if v.job.snapshot.Some? then w.job.snapshot == v.job.snapshot
                else DescribesNode(FromPayload(w.job.snapshot.value), v.node))
  {
    hide Work;
    WorkAtStage(v, env, Ok);
  }

  predicate DescribesNode(r: MasterNode, n: NodeRow) {
    && r.name == n.name && r.address == n.host && r.port == n.port
    && (match n.credentials.panelBasePath case Some(path) => r.basePath == path case None => r.basePath == "")
    && r.scheme == "http" && r.enable && !r.allowPrivateAddress && (r.hasApiToken <==> n.credentials.apiTokenRef.Some?)
    && r.tlsVerifyMode == "verify" && r.pinnedCertSha256 == "" && r.inboundSyncMode == "all" && r.inboundTags == []
    && r.outboundTag == "" && !r.transitive
  }

  // ---- The candidate's row ----

  /**
   A server is searched for exactly when a provisioning stage finds none in the registry that is not deleted.
   */
  lemma SearchDecides(v: View, env: Env, i: Input)
    ensures var w := Work(v, env, i);
            w.run.pc.Lookup? && !v.run.pc.Lookup? <==>
              v.run.pc == Enter(Provisioning) && i == Ok && NothingToReap(v) && v.job.oldVps in v.vps
  {
    hide Work;
    WorkFlows(v, env, i);
    if v.run.pc == Enter(Provisioning) {
      WorkAtStage(v, env, i);
    }
  }

  /** An ambiguous create waits for the next search; one the policy forbids is never asked for. */
  lemma AmbiguousCreateDefers(v: View, env: Env, i: Input)
    requires v.run.pc.Create?
    ensures var w := Work(v, env, i);
            if !MayCreate(env.cfg, v.run.pc.numbered, v.run.pc.temps, v.run.pc.actives) then w == v.(run := v.run.(pc := Failing))
            else
              && (i.Unclear? ==> w == v.(run := v.run.(pc := Idle), servers := w.servers) && i.server in w.servers)
              && (i.Botched? ==> w == v.(run := v.run.(pc := Failing), servers := w.servers) && i.server in w.servers)
  {
    hide MayCreate;
    WorkAtSearch(v, env, i);
  }

  /** What the provider answered about a candidate, found by its name or just created. */
  predicate Offers(i: Input, k: ServerId, state: VpsState, ip: string) {
    (i.Match? || i.Made?) && i.server == k && i.state == state && i.ip == ip
  }

  /**
   The worker goes on to register a server exactly as the provider showed it, by a lookup or by a create that
   the policy allows.
   */
  lemma RegistersWhatIsShown(v: View, env: Env, i: Input, k: ServerId, state: VpsState, ip: string)
    ensures Work(v, env, i).run.pc == Persist(k, state, ip) && !v.run.pc.Persist? <==>
              && Offers(i, k, state, ip)
              && ((v.run.pc.Lookup? && i.Match?)
                  || (v.run.pc.Create? && i.Made? && MayCreate(env.cfg, v.run.pc.numbered, v.run.pc.temps, v.run.pc.actives)))
  {
    hide Work, MayCreate, Born;
    WorkFlows(v, env, i);
    WorkAtSearch(v, env, i);
  }

  lemma WorkAtSearch(v: View, env: Env, i: Input)
    ensures v.run.pc.Lookup? ==> Work(v, env, i) == AtLookup(v, env, i)
    ensures v.run.pc.Create? ==> Work(v, env, i) == AtCreate(v, env, i)
  {
    hide AtLookup, AtCreate;
  }

  /**
   What becomes of the candidate's row while it is registered, brought up, lost or, in a dry run, put away.
   */
  predicate RowMoved(v: View, w: View) {
    w.job.newVps.Some? && w.job.newVps.value in w.vps
    && var k, pc := w.job.newVps.value, v.run.pc;
       && w.vps == v.vps[k := w.vps[k]]
       && (pc.Persist? ==> k == pc.server && k !in v.vps && w.vps[k] == Vps(v.job.node, Replacement, pc.state, pc.ip))
       && (pc.Up? ==> k in v.vps && w.vps[k] == v.vps[k].(state := VpsRunning, host := pc.ip))
       && (pc == Gone || pc == DryDone ==> k in v.vps && w.vps[k] == v.vps[k].(state := VpsDeleted))
  }

  lemma CandidateRowMoves(v: View, env: Env, i: Input)
    requires Inv(v, env.clock) && v.job.active
    requires v.run.pc.Persist? || v.run.pc.Up? || v.run.pc == Gone || v.run.pc == DryDone
    ensures var w := Work(v, env, i);
            if w.run.pc == LoopTop || w.run.pc == Boot then RowMoved(v, w) else w.vps == v.vps
  {
    hide Work, RowMoved, AtPersist, AtUp, AtGone, AtDryDone;
    WorkAtRegistration(v, env, i);
    WorkAtPlace(v, env, i);
    if v.run.pc.Persist? {
      PersistFacts(v, env.clock);
      PersistMovesRow(v, env, i);
    } else if v.run.pc.Up? {
      UpMovesRow(v, env, i);
    } else if v.run.pc == Gone {
      GoneMovesRow(v, env, i);
    } else {
      DryDoneMovesRow(v, env, i);
    }
  }

  /** A session that ends its stage commits what it changed, or nothing. */
  lemma CommitIs(before: View, after: View, target: Checkpoint)
    ensures var w := Commit(before, after, target);
            if w.run.pc == LoopTop then w == after.(job := w.job, run := w.run) && w.job.newVps == after.job.newVps
            else w == Fall(before)
  {
    hide Allowed;
  }

  lemma PersistMovesRow(v: View, env: Env, i: Input)
    requires v.run.pc.Persist? && v.run.pc.server !in v.vps
    ensures var w := AtPersist(v, env, i); if w.run.pc == LoopTop || w.run.pc == Boot then RowMoved(v, w) else w.vps == v.vps
  {
    hide Commit;
    var row := Vps(v.job.node, Replacement, v.run.pc.state, v.run.pc.ip);
    CommitIs(v, Registered(v, v.run.pc.server, row), Provisioned);
  }

  lemma UpMovesRow(v: View, env: Env, i: Input)
    requires v.run.pc.Up?
    ensures var w := AtUp(v, env, i); if w.run.pc == LoopTop || w.run.pc == Boot then RowMoved(v, w) else w.vps == v.vps
  {
  }

  lemma GoneMovesRow(v: View, env: Env, i: Input)
    requires v.run.pc == Gone
    ensures var w := AtGone(v, env, i); if w.run.pc == LoopTop || w.run.pc == Boot then RowMoved(v, w) else w.vps == v.vps
  {
    hide Commit;
    if HasRow(v) {
      var k := v.job.newVps.value;
      CommitIs(v, SetVps(v, k, v.vps[k].(state := VpsDeleted)), TempCleanup);
    }
  }

  lemma DryDoneMovesRow(v: View, env: Env, i: Input)
    requires v.run.pc == DryDone
    ensures var w := AtDryDone(v, env, i); if w.run.pc == LoopTop || w.run.pc == Boot then RowMoved(v, w) else w.vps == v.vps
  {
    hide Commit;
    if HasRow(v) {
      var k := v.job.newVps.value;
      CommitIs(v, SetVps(v, k, v.vps[k].(state := VpsDeleted)), Completed);
    }
  }

  // ---- Deployments ----

  /**
   The deployment row a step leaves: a new one PENDING, or the same moved one state along its graph, success
   coming only from VERIFYING.
   */
  lemma DeploymentRowMoves(v: View, env: Env, i: Input)
    requires Inv(v, env.clock) && Work(v, env, i).deployment != v.deployment
    ensures Work(v, env, i).deployment.Some?
    ensures var e := Work(v, env, i).deployment.value;
            if v.run.pc.Deploy? then
              v.deployment.Some? && var d := v.deployment.value;
              && e.attempt == d.attempt && e.vps == d.vps
              && (e.state == d.state || DeploymentService.Allowed(d.state, e.state))
              && (e.config != d.config ==> d.state == DeploySucceeded && i.Installed? && e.config == Some(i.config))
            else
              && v.run.pc == Enter(IpVerified) && i == Ok && v.job.newVps.Some?
              && e == Deployment(v.job.attempt, v.job.newVps.value, DeployPending, None)
  {
    hide Work, AtFailing, AtOldDone, AtDeploy, AtIpVerified, DeploymentService.Allowed;
    WorkAtPlace(v, env, i);
    if !Loud(v.run.pc) {
      QuietWork(v, env, i);
    } else if v.run.pc.Deploy? {
      SessionMovesRow(v, env, i);
    } else if v.run.pc == Enter(IpVerified) {
      WorkAtStage(v, env, i);
      RowStarts(v, env, i);
    } else {
      OthersKeepDeployment(v, env, i);
    }
  }

  lemma RowStarts(v: View, env: Env, i: Input)
    requires AtIpVerified(v, env, i).deployment != v.deployment
    ensures i == Ok && v.job.newVps.Some?
    ensures AtIpVerified(v, env, i).deployment == Some(Deployment(v.job.attempt, v.job.newVps.value, DeployPending, None))
  {
    hide Allowed;
  }

  lemma SessionMovesRow(v: View, env: Env, i: Input)
    requires v.run.pc.Deploy? && AtDeploy(v, env, i).deployment != v.deployment
    ensures v.deployment.Some? && AtDeploy(v, env, i).deployment.Some?
    ensures var d, e := v.deployment.value, AtDeploy(v, env, i).deployment.value;
            && e.attempt == d.attempt && e.vps == d.vps
            && (e.state == d.state || DeploymentService.Allowed(d.state, e.state))
            && (e.config != d.config ==> d.state == DeploySucceeded && i.Installed? && e.config == Some(i.config))
  {
  }

  lemma OthersKeepDeployment(v: View, env: Env, i: Input)
    requires Loud(v.run.pc) && !v.run.pc.Deploy? && v.run.pc != Enter(IpVerified)
    ensures Work(v, env, i).deployment == v.deployment
  {
    hide Work, AtOldDone, AtDryDone, AtFailing;
    if v.run.pc.Persist? || v.run.pc == Gone || v.run.pc.Up? || v.run.pc == Reaped {
      WorkAtRegistration(v, env, i);
    } else if v.run.pc == OldDone || v.run.pc == DryDone || v.run.pc == Failing {
      WorkAtPlace(v, env, i);
      EndsKeepDeployment(v, env, i);
    } else {
      CallsAreOutward(v, env, i);
    }
  }

  lemma EndsKeepDeployment(v: View, env: Env, i: Input)
    ensures AtOldDone(v, env, i).deployment == v.deployment && AtDryDone(v, env, i).deployment == v.deployment
    ensures AtFailing(v).deployment == v.deployment
  {
    hide Allowed, CanTransition, NodeAfterFailure;
  }

  /**
   A deployment session that ends in an error leaves its row at an end: FAILED, or SUCCEEDED when that was
   reached.
   */
  lemma BrokenDeploymentIsRecorded(v: View, env: Env, i: Input)
    requires v.run.pc.Deploy? && HasDeployment(v) && Work(v, env, i).run.pc == Failing
    ensures var d := v.deployment.value;
            && Work(v, env, i).deployment.Some?
            && var e := Work(v, env, i).deployment.value;
               e == d.(state := e.state)
               && (e.state == DeployFailed || (e.state == DeploySucceeded && (d.state == DeployVerifying || d.state == DeploySucceeded)))
  {
    hide Work;
    WorkAtPlace(v, env, i);
  }

  // ---- The node ----

  /**
   The node columns a step may change: its state on the way through the workflow, at the end more, after a
   failure back.
   */
  predicate NodeMoved(v: View, w: View) {
    if v.run.pc == Enter(IpVerified) then
      !v.job.dryRun && v.node.state == Replacing && w.node == v.node.(state := NodeDeploying) && w.job.checkpoint == Deploying
    else if v.run.pc.Deploy? then
      !v.job.dryRun && v.run.pc.seen == NodeDeploying && w.node == v.node.(state := Verifying) && w.job.checkpoint == NodeVerified
    else if v.run.pc == OldDone then
      v.job.oldVps in v.vps && HasPanel(v) && CanTransition(v.node.state, Healthy)
      && MovedTo(w.node, v.node, v.vps[v.job.newVps.value].host, ConfigOf(v)) && w.job.checkpoint == Completed
    else
      && v.run.pc == Failing && !v.job.dryRun && InWorkflow(v.node.state) && w.job.checkpoint == Failed
      && w.node == v.node.(state := if v.job.force && !v.job.masterUpdated then v.job.found.state else NodeFailed)
  }

  /** No step changes a node otherwise. */
  lemma NodeMoves(v: View, env: Env, i: Input)
    requires Inv(v, env.clock) && Work(v, env, i).node != v.node
    ensures NodeMoved(v, Work(v, env, i))
  {
    hide Work, NodeMoved, AtStage, AtDeploy, AtOldDone, AtFailing;
    WorkAtPlace(v, env, i);
    match v.run.pc {
      case Enter(stage) =>
        WorkAtStage(v, env, i);
        if stage == IpVerified {
          StartMovesNode(v, env, i);
        } else {
          QuietStage(v, env, i);
        }
      case Deploy(_) => SessionMovesNode(v, env, i);
      case OldDone => EndMovesNode(v, env, i);
      case Failing => FailureMovesNode(v, env.clock);
      case _ => OthersKeepTheNode(v, env, i);
    }
  }

  lemma StartMovesNode(v: View, env: Env, i: Input)
    requires v.run.pc == Enter(IpVerified) && AtStage(v, env, i).node != v.node
    ensures NodeMoved(v, AtStage(v, env, i))
  {
    hide Allowed;
  }

  lemma SessionMovesNode(v: View, env: Env, i: Input)
    requires v.run.pc.Deploy? && AtDeploy(v, env, i).node != v.node
    ensures NodeMoved(v, AtDeploy(v, env, i))
  {
    hide FailedDeployment, NextDeployState;
  }

  lemma EndMovesNode(v: View, env: Env, i: Input)
    requires Inv(v, env.clock) && v.run.pc == OldDone && AtOldDone(v, env, i).node != v.node
    ensures NodeMoved(v, AtOldDone(v, env, i))
  {
    hide Replaced, CanTransition, MovedTo;
    OldDeleteIsLive(v, env.clock);
    OldIsNotCandidate(v, env.clock);
    if HasPanel(v) && v.job.oldVps in v.vps {
      ReplacedRecord(v);
    }
  }

  lemma FailureMovesNode(v: View, clock: nat)
    requires Inv(v, clock) && v.run.pc == Failing && AtFailing(v).node != v.node
    ensures NodeMoved(v, AtFailing(v))
  {
    hide Ended;
    WorkerInvariant.Opened(v, clock);
    JobFacts(v, clock);
    EndingIsNeverRefused(v, Failed, clock);
  }

  // ---- Errors ----

  /** Where a pause, a closed gate or a retryable error may meet a worker. */
  predicate MayBeDeferred(pc: Pc) {
    || pc == LoopTop || pc.Lookup? || pc.Create? || pc.Await? || pc == Boot || pc == Rounds || pc.ReapGet? || pc.ReapDelete?
    || pc == Preflight || pc == Tested || pc.SwitchPin? || pc.Switch? || pc.VerifyPin? || pc.Verify? || pc.RollWrite?
    || pc.RollCheck? || pc == Enter(OldVpsCleanup) || pc.OldGet? || pc.OldDelete? || pc.DryDelete?
  }

  /** A job at its end, a worker at its limit, and a create that the policy forbids. */
  predicate Barred(v: View, env: Env) {
    || (v.run.pc == LoopTop && (Terminal(v.job.checkpoint) || v.run.dispatches >= STEP_LIMIT))
    || (v.run.pc.Create? && !MayCreate(env.cfg, v.run.pc.numbered, v.run.pc.temps, v.run.pc.actives))
  }

  /**
   There a transient error releases the lease and leaves the job row alone; any other is going to be
   recorded.
   */
  lemma ErrorsDecide(v: View, env: Env, landed: bool)
    requires MayBeDeferred(v.run.pc) && !Barred(v, env)
    ensures var w := Work(v, env, Transient(landed)); w.run == v.run.(pc := Idle) && w.job == v.job && w.node == v.node
    ensures var w := Work(v, env, Broken(landed)); w.run == v.run.(pc := Failing) && w.job == v.job && w.node == v.node
  {
    hide Work, MayCreate;
    if v.run.pc == LoopTop || v.run.pc.Lookup? || v.run.pc.Create? || v.run.pc.Await? || v.run.pc == Boot || v.run.pc == Rounds
       || v.run.pc.ReapGet? || v.run.pc.ReapDelete? {
      EarlyErrors(v, env, landed);
    } else if v.run.pc == Enter(OldVpsCleanup) || v.run.pc.OldGet? || v.run.pc.OldDelete? || v.run.pc.DryDelete? {
      CleanupErrors(v, env, landed);
    } else {
      MasterErrors(v, env, landed);
    }
  }

  lemma ErrorShapes(v: View)
    ensures forall k :: Killed(v, k).run == v.run && Killed(v, k).job == v.job && Killed(v, k).node == v.node
    ensures forall m, a :: Written(v, m, a).run == v.run && Written(v, m, a).job == v.job && Written(v, m, a).node == v.node
  {
  }

  lemma EarlyErrors(v: View, env: Env, landed: bool)
    requires !Barred(v, env)
    requires v.run.pc == LoopTop || v.run.pc.Lookup? || v.run.pc.Create? || v.run.pc.Await? || v.run.pc == Boot || v.run.pc == Rounds
             || v.run.pc.ReapGet? || v.run.pc.ReapDelete?
    ensures var w := Work(v, env, Transient(landed)); w.run == v.run.(pc := Idle) && w.job == v.job && w.node == v.node
    ensures var w := Work(v, env, Broken(landed)); w.run == v.run.(pc := Failing) && w.job == v.job && w.node == v.node
  {
    hide MayCreate, Killed, Written, Consensus.Verdict, AtStage, AtPersist, AtReaped, AtDeploy, AtOldDone, AtFailing, AtRollback;
    ErrorShapes(v);
  }

  lemma MasterErrors(v: View, env: Env, landed: bool)
    requires v.run.pc == Preflight || v.run.pc == Tested || v.run.pc.SwitchPin? || v.run.pc.Switch? || v.run.pc.VerifyPin?
             || v.run.pc.Verify? || v.run.pc.RollWrite? || v.run.pc.RollCheck?
    ensures var w := Work(v, env, Transient(landed)); w.run == v.run.(pc := Idle) && w.job == v.job && w.node == v.node
    ensures var w := Work(v, env, Broken(landed)); w.run == v.run.(pc := Failing) && w.job == v.job && w.node == v.node
  {
    hide Killed, Written, TargetFor, Verifies, Pinned, AtStage, AtLookup, AtCreate, AtPersist, AtReaped, AtDeploy, AtOldDone,
      AtFailing, AtRollback;
    ErrorShapes(v);
  }

  lemma CleanupErrors(v: View, env: Env, landed: bool)
    requires v.run.pc == Enter(OldVpsCleanup) || v.run.pc.OldGet? || v.run.pc.OldDelete? || v.run.pc.DryDelete?
    ensures var w := Work(v, env, Transient(landed)); w.run == v.run.(pc := Idle) && w.job == v.job && w.node == v.node
    ensures var w := Work(v, env, Broken(landed)); w.run == v.run.(pc := Failing) && w.job == v.job && w.node == v.node
  {
    hide Work, Killed;
    ErrorShapes(v);
    WorkAtLook(v, env, Transient(landed));
    WorkAtLook(v, env, Broken(landed));
    WorkAtDeletion(v, env, Transient(landed));
    WorkAtDeletion(v, env, Broken(landed));
    if v.run.pc.Enter? {
      WorkAtStage(v, env, Transient(landed));
      WorkAtStage(v, env, Broken(landed));
    }
  }

  /** In every other stage and session an exception is going to be recorded as well. */
  lemma OtherErrors(v: View, env: Env, landed: bool)
    requires InStage(v.run.pc) && !MayBeDeferred(v.run.pc)
    ensures Work(v, env, Broken(landed)).run == v.run.(pc := Failing) && Work(v, env, Broken(landed)).job == v.job
  {
    hide Work, MayBeDeferred;
    if v.run.pc.Enter? {
      WorkAtStage(v, env, Broken(landed));
      StageErrors(v, env, landed);
    } else if v.run.pc.Persist? || v.run.pc == Gone || v.run.pc.Up? || v.run.pc == Reaped {
      WorkAtRegistration(v, env, Broken(landed));
    } else if v.run.pc.Deploy? || v.run.pc == OldDone || v.run.pc == DryDone {
      WorkAtPlace(v, env, Broken(landed));
    } else {
      SessionErrors(v, env, landed) by { IsSession(v.run.pc); }
    }
  }

  lemma StageErrors(v: View, env: Env, landed: bool)
    requires v.run.pc.Enter?
    ensures AtStage(v, env, Broken(landed)) == Fall(v)
  {
  }

  lemma IsSession(pc: Pc)
    requires InStage(pc) && !MayBeDeferred(pc) && !pc.Enter? && !pc.Persist? && pc != Gone && !pc.Up? && pc != Reaped
    requires !pc.Deploy? && pc != OldDone && pc != DryDone
    ensures pc.Mark? || pc.Judged? || pc.Reap? || pc.Shown? || pc == Switched || pc == Verified || pc.Rollback? || pc == Final
            || pc == FinalDone
  {
  }

  lemma SessionErrors(v: View, env: Env, landed: bool)
    requires v.run.pc.Mark? || v.run.pc.Judged? || v.run.pc.Reap? || v.run.pc.Shown? || v.run.pc == Switched || v.run.pc == Verified
             || v.run.pc.Rollback? || v.run.pc == Final || v.run.pc == FinalDone
    ensures Work(v, env, Broken(landed)) == Fall(v)
  {
    hide AtStage, AtLookup, AtCreate, AtPersist, AtReaped, AtDeploy, AtOldDone, AtFailing, AtTested, AtSwitch;
  }

  // ---- Completion ----

  /** The node columns of a completed real job: the new server and its panel, one success, no failure. */
  predicate MovedTo(n: NodeRow, before: NodeRow, host: string, c: PanelConfig) {
    && n.state == Healthy && n.failures == 0 && n.successes >= 1 && (before.successes >= 1 ==> n.successes == before.successes)
    && (before.successes == 0 ==> n.successes == 1)
    && n.name == before.name && n.host == host && n.port == c.port
    && n.credentials.panelUsername == Some(c.username) && n.credentials.panelBasePath == Some(c.basePath)
    && n.credentials.panelPasswordRef == Some(c.passwordRef) && n.credentials.apiTokenRef == Some(c.tokenRef)
  }

  /**
   The registry after it: the old server DELETED, the candidate CURRENT and RUNNING, nothing else touched.
   */
  predicate Handed(vps: map<ServerId, Vps>, before: map<ServerId, Vps>, retired: ServerId, promoted: ServerId) {
    && vps.Keys == before.Keys && retired in before && promoted in before && retired != promoted
    && vps[retired] == before[retired].(state := VpsDeleted) && vps[promoted] == before[promoted].(role := Current, state := VpsRunning)
    && forall k :: k in before && k != retired && k != promoted ==> vps[k] == before[k]
  }

  /** Everything the step that completes a real job leaves behind. */
  predicate Completes(v: View, w: View) {
    && HasPanel(v) && MovedTo(w.node, v.node, v.vps[v.job.newVps.value].host, ConfigOf(v))
    && Handed(w.vps, v.vps, v.job.oldVps, v.job.newVps.value)
    && w.job == v.job.(checkpoint := Completed, active := false, oldDeleted := true, advances := w.job.advances)
    && w.run.pc == LoopTop && w.deployment == v.deployment && Inward(v, w)
  }

  /** A live job is completed only from the place behind the deletion, and leaves exactly these rows. */
  lemma CompletionRows(v: View, env: Env, i: Input)
    requires Inv(v, env.clock) && Plausible(v, env, i) && Visible(v, env, i)
    requires Live(v.job) && Work(v, env, i).job.checkpoint == Completed
    ensures v.run.pc == OldDone && i == Ok && Completes(v, Work(v, env, i))
  {
    hide Work, Completes, AtOldDone, Plausible, Visible;
    OnlyOldDoneCompletes(v, env, i);
    WorkAtPlace(v, env, i);
    OldDeleteIsLive(v, env.clock);
    LastRows(v, env, i);
  }

  lemma OnlyOldDoneCompletes(v: View, env: Env, i: Input)
    requires Inv(v, env.clock) && Plausible(v, env, i) && Visible(v, env, i)
    requires Live(v.job) && Work(v, env, i).job.checkpoint == Completed
    ensures v.run.pc == OldDone
  {
    hide Work, AtFailing, Plausible, Visible;
    WorkerInvariant.Opened(v, env.clock);
    WorkKeeps(v, env, i);
    CompletedIsInactive(Work(v, env, i), env.clock);
    if !Loud(v.run.pc) {
      QuietWork(v, env, i);
    } else if v.run.pc == Failing {
      WorkAtPlace(v, env, i);
      FailingTarget(v);
      JobFacts(v, env.clock);
    } else if v.run.pc != OldDone && v.run.pc != DryDone {
      LoudIsOngoing(v, env, i);
    }
  }

  lemma CompletedIsInactive(v: View, clock: nat)
    requires Inv(v, clock)
    ensures v.job.active ==> v.job.checkpoint != Completed
  {
    WorkerInvariant.Opened(v, clock);
    JobFacts(v, clock);
  }

  lemma LastRows(v: View, env: Env, i: Input)
    requires Inv(v, env.clock) && v.run.pc == OldDone && v.job.checkpoint == OldVpsCleanup && Live(v.job)
    requires AtOldDone(v, env, i).job.checkpoint == Completed
    ensures i == Ok && Completes(v, AtOldDone(v, env, i))
  {
    hide Replaced, CanTransition, Completes;
    OldIsNotCandidate(v, env.clock);
    if i == Ok && HasPanel(v) && v.job.oldVps in v.vps {
      ReplacedRecord(v);
      CommittedCompletes(v);
    }
  }

  lemma OldIsNotCandidate(v: View, clock: nat)
    requires Inv(v, clock) && Live(v.job) && v.job.checkpoint == OldVpsCleanup
    ensures v.job.newVps != Some(v.job.oldVps)
  {
    assert Examined(v, v);
  }

  lemma ReplacedRecord(v: View)
    requires HasPanel(v) && v.job.oldVps in v.vps && v.job.newVps != Some(v.job.oldVps)
    ensures var w := Replaced(v);
            && MovedTo(w.node, v.node, v.vps[v.job.newVps.value].host, ConfigOf(v))
            && Handed(w.vps, v.vps, v.job.oldVps, v.job.newVps.value)
            && w == v.(vps := w.vps, node := w.node, job := v.job.(oldDeleted := true))
  {
  }

  lemma CommittedCompletes(v: View)
    requires HasPanel(v) && v.job.oldVps in v.vps && v.job.active && v.job.checkpoint == OldVpsCleanup
    requires var w := Replaced(v);
             && MovedTo(w.node, v.node, v.vps[v.job.newVps.value].host, ConfigOf(v))
             && Handed(w.vps, v.vps, v.job.oldVps, v.job.newVps.value)
             && w == v.(vps := w.vps, node := w.node, job := v.job.(oldDeleted := true))
    ensures Completes(v, Commit(v, Replaced(v), Completed))
  {
    hide Replaced, MovedTo, Handed;
  }
}
