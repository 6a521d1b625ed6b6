/** What one step of a worker guarantees, from any situation a run can reach. */
module JobGuarantees {
  import opened Types
  import opened CheckpointGraph
  import opened NodeLifecycle
  import opened MasterAlgebra
  import opened Worker
  import opened WorkerInvariant
  import opened WorkerEffects
  import opened NodeCoupling
  import Consensus
  import OldVpsGuard

  // ---- Deletions ----

  /** All five gates are passed, for the very candidate whose address was verified. */
  predicate AllGatesPassed(j: Job) {
    && j.ipVerified && j.deploymentVerified && j.masterUpdated && j.masterVerified && j.finalVerified
    && j.newVps.Some? && j.verifiedVps == j.newVps
  }

  /** A live job at its last checkpoint deletes its own old server. */
  predicate RetiresOld(v: View, k: ServerId) {
    && v.run.pc == OldDelete(k) && k == v.job.oldVps && Live(v.job) && v.job.checkpoint == OldVpsCleanup
    && AllGatesPassed(v.job) && v.job.newVps != Some(k)
    && k in v.vps && v.vps[k].role == Current && v.vps[k].state != VpsDeleted && v.vps[k].node == v.job.node
  }

  /** A job deletes the server it created for the present attempt, under that attempt's own name. */
  predicate ReapsCandidate(v: View, k: ServerId) {
    && (v.run.pc == ReapDelete(k) || (v.run.pc == DryDelete(k) && v.job.dryRun))
    && v.job.newVps == Some(k) && NamedFor(v.id, v.job.attempt, k, v.servers)
    && k in v.vps && v.vps[k].role == Replacement
  }

  predicate Dies(v: View, w: View, k: ServerId) {
    k in v.servers && v.servers[k].alive && k in w.servers && !w.servers[k].alive
  }

  lemma OldDeleteIsGated(v: View, clock: nat)
    requires Inv(v, clock) && v.run.pc.OldDelete?
    ensures RetiresOld(v, v.run.pc.server)
  {
    assert Examined(v, v);
    Opened(v, clock);
  }

  lemma ReapIsOwn(v: View, clock: nat)
    requires Inv(v, clock) && (v.run.pc.ReapDelete? || v.run.pc.DryDelete?)
    ensures ReapsCandidate(v, v.run.pc.server)
  {
    Opened(v, clock);
    JobFacts(v, clock);
  }

  /** A server dies by a step only as one of the two; a node's current server only as its old one. */
  lemma DeletionsAreSafe(v: View, env: Env, i: Input, k: ServerId)
    requires Inv(v, env.clock) && Plausible(v, env, i) && Dies(v, Work(v, env, i), k)
    ensures RetiresOld(v, k) || ReapsCandidate(v, k)
    ensures k in v.vps && v.vps[k].role == Current ==> RetiresOld(v, k)
    ensures v.servers[k].inCloud == !v.job.dryRun
  {
    hide Plausible, RetiresOld, AtCreate, AtPersist, AtGone, AtUp, AtReaped, AtIpVerified, AtDeploy, AtSwitch,
      AtRollWrite, AtOldDone, AtDryDone, AtFailing;
    if Loud(v.run.pc) {
      OnlyDeletionsKill(v, env, i, k);
      if v.run.pc.OldDelete? {
        OldDeleteIsGated(v, env.clock);
      } else {
        ReapIsOwn(v, env.clock);
      }
    } else {
      QuietWork(v, env, i);
    }
  }

  predicate Deletes(pc: Pc) { pc.OldDelete? || pc.ReapDelete? || pc.DryDelete? }

  lemma OnlyDeletionsKill(v: View, env: Env, i: Input, k: ServerId)
    requires Inv(v, env.clock) && Plausible(v, env, i) && Dies(v, Work(v, env, i), k) && Loud(v.run.pc)
    ensures Deletes(v.run.pc) && v.run.pc.server == k && v.servers[k].inCloud == !v.job.dryRun
  {
    hide Work, Plausible;
    if Deletes(v.run.pc) {
      DeletionKillsOne(v, env, i, k);
    } else if v.run.pc.Create? || v.run.pc.Persist? || v.run.pc == Gone || v.run.pc.Up? || v.run.pc == Reaped {
      RegistrationsSpare(v, env, i, k);
    } else {
      SwitchesSpare(v, env, i, k);
    }
  }

  lemma DeletionKillsOne(v: View, env: Env, i: Input, k: ServerId)
    requires Deletes(v.run.pc) && Dies(v, Work(v, env, i), k)
    ensures v.run.pc.server == k && v.servers[k].inCloud == !v.job.dryRun
  {
    hide Killed;
    DeletionIs(v, env, i);
    KillsOne(v, v.run.pc.server, k);
  }

  lemma DeletionIs(v: View, env: Env, i: Input)
    requires Deletes(v.run.pc)
    ensures Work(v, env, i).servers == v.servers || Work(v, env, i).servers == Killed(v, v.run.pc.server).servers
  {
    hide Work, Killed;
    WorkAtDeletion(v, env, i);
  }

  lemma WorkAtDeletion(v: View, env: Env, i: Input)
    ensures v.run.pc.ReapDelete? ==> Work(v, env, i) == AtReapDelete(v, env, i)
    ensures v.run.pc.OldDelete? ==> Work(v, env, i) == AtOldDelete(v, env, i)
    ensures v.run.pc.DryDelete? ==> Work(v, env, i) == AtDryDelete(v, env, i)
  {
    hide AtReapDelete, AtOldDelete, AtDryDelete;
  }

  lemma KillsOne(v: View, k: ServerId, m: ServerId)
    requires m in v.servers
    ensures Dies(v, Killed(v, k), m) ==> k == m && v.servers[m].inCloud == !v.job.dryRun
  {
  }

  lemma RegistrationsSpare(v: View, env: Env, i: Input, k: ServerId)
    requires v.run.pc.Create? || v.run.pc.Persist? || v.run.pc == Gone || v.run.pc.Up? || v.run.pc == Reaped
    requires Plausible(v, env, i)
    ensures !Dies(v, Work(v, env, i), k)
  {
    hide AtPersist, AtGone, AtUp, AtReaped;
  }

  lemma SwitchesSpare(v: View, env: Env, i: Input, k: ServerId)
    requires v.run.pc == Enter(IpVerified) || v.run.pc.Deploy? || v.run.pc.Switch? || v.run.pc.RollWrite? || v.run.pc == OldDone
             || v.run.pc == DryDone || v.run.pc == Failing
    ensures !Dies(v, Work(v, env, i), k)
  {
    hide AtIpVerified, AtDeploy, AtSwitch, AtRollWrite, AtOldDone, AtDryDone, AtFailing;
  }

  // ---- The guard in front of the old server ----

  /** In every situation the protocol reaches at OLD_VPS_CLEANUP all eighteen gates are open. */
  lemma GuardNeverDenies(v: View, clock: nat)
    requires Inv(v, clock) && Live(v.job) && v.job.checkpoint == OldVpsCleanup
    ensures HasRow(v) && HasDeployment(v) && v.job.oldVps in v.vps && GuardPermits(v)
  {
    assert Examined(v, v);
    forall g: OldVpsGuard.Gate
      ensures !OldVpsGuard.Lacks(g, GuardJob(v), GuardDeployment(v), GuardVps(v, v.job.newVps.value), GuardVps(v, v.job.oldVps))
    {
    }
  }

  /** The markers form a prefix of the gate order in every state, ended jobs included. */
  lemma MarkersFormPrefix(v: View, clock: nat)
    requires Inv(v, clock)
    ensures MarkersArePrefix(v.job) && (v.job.active ==> GatesFit(v.job))
  {
    assert Examined(v, v);
  }

  // ---- Deferrals ----

  /**
   A dispatch that ends in a deferral leaves checkpoint, attempt, candidate and markers as they
   were when the stage was entered, wherever inside the stage the deferral arises.
   */
  lemma DeferralKeepsProtected(v: View, env: Env, i: Input)
    requires Inv(v, env.clock) && InStage(v.run.pc) && Work(v, env, i).run.pc == Idle
    ensures Work(v, env, i).job == v.job
    ensures v.job.active ==> Protect(Work(v, env, i).job) == v.run.at
  {
    hide Touches, AtStage, AtCreate, AtPersist, AtGone, AtUp, AtReapDelete, AtReaped, AtDeploy, AtSwitch, AtRollWrite,
      AtOldDelete, AtOldDone, AtDryDelete, AtDryDone, AtFailing, Protect;
    if Loud(v.run.pc) {
      if v.run.pc == OldDone || v.run.pc == DryDone {
        DoneStepsDoNotDefer(v, env, i);
      }
      LoudIsOngoing(v, env, i);
    } else {
      QuietWork(v, env, i);
    }
    Opened(v, env.clock);
  }

  lemma DoneStepsDoNotDefer(v: View, env: Env, i: Input)
    requires v.run.pc == OldDone || v.run.pc == DryDone
    ensures Work(v, env, i).run.pc != Idle
  {
  }

  // ---- Rejected candidates ----

  /** TEMP_CLEANUP is entered only on a verdict against the candidate or because the provider lost it. */
  lemma CleanupIsEarned(v: View, env: Env, i: Input)
    requires Inv(v, env.clock) && v.job.checkpoint != TempCleanup && Work(v, env, i).job.checkpoint == TempCleanup
    ensures v.run.pc == Judged(Unreachable) || v.run.pc == Gone
  {
    hide AtStage, AtLoopTop, AtFailing, AtPersist, AtUp, AtReaped, AtDeploy, AtOldDone, AtDryDone;
    Opened(v, env.clock);
    if Loud(v.run.pc) {
      LoudCleanup(v, env, i);
    } else {
      QuietWork(v, env, i);
      assert v.job.checkpoint == Provisioned || v.job.checkpoint == CheckingIp;
      assert v.job.active by { JobFacts(v, env.clock); }
      QuietCleanup(v, env, i);
    }
  }

  lemma LoudCleanup(v: View, env: Env, i: Input)
    requires Loud(v.run.pc) && v.job.checkpoint != TempCleanup && Work(v, env, i).job.checkpoint == TempCleanup
    ensures v.run.pc == Gone
  {
    hide Work;
    if v.run.pc.Create? || v.run.pc.Persist? || v.run.pc.Up? || v.run.pc == Reaped || v.run.pc == Failing {
      RegistrationsDoNotReject(v, env, i);
    } else if v.run.pc != Gone {
      SwitchesDoNotReject(v, env, i);
    }
  }

  lemma RegistrationsDoNotReject(v: View, env: Env, i: Input)
    requires v.run.pc.Create? || v.run.pc.Persist? || v.run.pc.Up? || v.run.pc == Reaped || v.run.pc == Failing
    requires v.job.checkpoint != TempCleanup
    ensures Work(v, env, i).job.checkpoint != TempCleanup
  {
    hide Work, AtPersist, AtUp, AtReaped, AtFailing;
    WorkAtRegistration(v, env, i);
    match v.run.pc {
      case Persist(_, _, _) => PersistTarget(v, env, i);
      case Up(_) => UpTarget(v, env, i);
      case Reaped => ReapedTarget(v, env, i);
      case Failing => WorkAtPlace(v, env, i); FailingTarget(v);
      case _ => CallsAreOutward(v, env, i);
    }
  }

  lemma PersistTarget(v: View, env: Env, i: Input)
    requires v.run.pc.Persist?
    ensures var c := AtPersist(v, env, i).job.checkpoint; c == v.job.checkpoint || c == Provisioned
  {
    hide Allowed;
  }

  lemma UpTarget(v: View, env: Env, i: Input)
    requires v.run.pc.Up?
    ensures AtUp(v, env, i).job.checkpoint == v.job.checkpoint
  {
  }

  lemma ReapedTarget(v: View, env: Env, i: Input)
    ensures var c := AtReaped(v, env, i).job.checkpoint; c == v.job.checkpoint || c == Provisioning
  {
    hide Unlinked, Retried, Commit;
    UnlinkedStays(v);
    CommitTarget(v, Retried(v), Provisioning);
  }

  lemma UnlinkedStays(v: View)
    ensures Unlinked(v).job.checkpoint == v.job.checkpoint
  {
  }

  lemma CommitTarget(before: View, after: View, target: Checkpoint)
    ensures var c := Commit(before, after, target).job.checkpoint; c == before.job.checkpoint || c == target
  {
    hide Allowed;
  }

  lemma FailingTarget(v: View)
    ensures var c := AtFailing(v).job.checkpoint; c == v.job.checkpoint || c == Failed
  {
    hide Allowed, CanTransition;
  }

  lemma SwitchesDoNotReject(v: View, env: Env, i: Input)
    requires v.run.pc == Enter(IpVerified) || v.run.pc.Deploy? || v.run.pc.Switch? || v.run.pc.RollWrite? || v.run.pc == OldDone
             || v.run.pc == DryDone || Deletes(v.run.pc)
    requires v.job.checkpoint != TempCleanup
    ensures Work(v, env, i).job.checkpoint != TempCleanup
  {
    hide Work;
    if v.run.pc.Switch? || v.run.pc.RollWrite? || Deletes(v.run.pc) {
      CallsKeepTheJob(v, env, i);
    } else {
      ClosingsDoNotReject(v, env, i);
    }
  }

  lemma CallsKeepTheJob(v: View, env: Env, i: Input)
    requires v.run.pc.Switch? || v.run.pc.RollWrite? || Deletes(v.run.pc)
    ensures Work(v, env, i).job == v.job
  {
    hide AtSwitch, AtRollWrite, AtReapDelete, AtOldDelete, AtDryDelete;
  }

  lemma ClosingsDoNotReject(v: View, env: Env, i: Input)
    requires v.run.pc == Enter(IpVerified) || v.run.pc.Deploy? || v.run.pc == OldDone || v.run.pc == DryDone
    requires v.job.checkpoint != TempCleanup
    ensures Work(v, env, i).job.checkpoint != TempCleanup
  {
    hide Work, AtIpVerified, AtDeploy, AtOldDone, AtDryDone;
    WorkAtPlace(v, env, i);
    if v.run.pc.Deploy? {
      DeployTarget(v, env, i);
    } else if v.run.pc == OldDone {
      OldDoneTarget(v, env, i);
    } else if v.run.pc == DryDone {
      DryDoneTarget(v, env, i);
    } else {
      WorkAtStage(v, env, i);
      IpVerifiedTarget(v, env, i);
    }
  }

  lemma IpVerifiedTarget(v: View, env: Env, i: Input)
    ensures var c := AtIpVerified(v, env, i).job.checkpoint; c == v.job.checkpoint || c == Deploying
  {
    hide Allowed;
  }

  lemma DeployTarget(v: View, env: Env, i: Input)
    requires v.run.pc.Deploy?
    ensures var c := AtDeploy(v, env, i).job.checkpoint; c == v.job.checkpoint || c == NodeVerified
  {
  }

  lemma OldDoneTarget(v: View, env: Env, i: Input)
    ensures var c := AtOldDone(v, env, i).job.checkpoint; c == v.job.checkpoint || c == Completed
  {
    hide Allowed, CanTransition;
  }

  lemma DryDoneTarget(v: View, env: Env, i: Input)
    ensures var c := AtDryDone(v, env, i).job.checkpoint; c == v.job.checkpoint || c == Completed
  {
    hide Allowed;
  }

  lemma QuietCleanup(v: View, env: Env, i: Input)
    requires !Loud(v.run.pc) && v.job.checkpoint != TempCleanup && Work(v, env, i).job.checkpoint == TempCleanup
    requires InStage(v.run.pc) ==> StageOf(v.run.pc) == Provisioned || StageOf(v.run.pc) == CheckingIp
    ensures v.run.pc == Judged(Unreachable)
  {
    hide Work;
    if !InStage(v.run.pc) {
      LoopMovesNothing(v, env, i);
    } else if v.run.pc.Rollback? || v.run.pc.RollCheck? {
      RollbacksDoNotMove(v, env, i);
    } else if StageOf(v.run.pc) == Provisioned {
      WaitingDoesNotReject(v, env, i);
    } else {
      CheckingRejects(v, env, i);
    }
  }

  lemma WaitingDoesNotReject(v: View, env: Env, i: Input)
    requires (v.run.pc == Enter(Provisioned) || v.run.pc.Await? || v.run.pc == Boot) && v.job.checkpoint != TempCleanup
    ensures Work(v, env, i).job.checkpoint != TempCleanup
  {
    hide Allowed, AtLookup, AtCreate, AtPersist, AtReaped, AtDeploy, AtOldDone, AtFailing, AtProvisioning, AtOldVpsCleanup,
      AtNodeVerified, AtIpVerified, AtShown, AtTested, AtSwitch, AtVerify, AtFinal;
  }

  lemma CheckingRejects(v: View, env: Env, i: Input)
    requires (v.run.pc == Enter(CheckingIp) || v.run.pc == Rounds || v.run.pc.Judged?) && v.job.checkpoint != TempCleanup
    ensures Work(v, env, i).job.checkpoint == TempCleanup ==> v.run.pc == Judged(Unreachable)
  {
    hide Allowed, Consensus.Verdict, AtLookup, AtCreate, AtPersist, AtReaped, AtDeploy, AtOldDone, AtFailing,
      AtProvisioning, AtOldVpsCleanup, AtNodeVerified, AtIpVerified, AtShown, AtTested, AtSwitch, AtVerify, AtFinal;
  }

  lemma RollbacksDoNotMove(v: View, env: Env, i: Input)
    requires v.run.pc.Rollback? || v.run.pc.RollWrite? || v.run.pc.RollCheck?
    ensures Work(v, env, i).job.checkpoint == v.job.checkpoint
  {
    hide Allowed, FromSnapshot, Written, Flag, AtLookup, AtCreate, AtPersist, AtReaped, AtDeploy, AtOldDone, AtFailing,
      AtStage, AtFinal;
  }

  /** The two places from which a candidate is given up. */
  predicate GivesUp(pc: Pc) { pc == Judged(Unreachable) || pc == Gone }

  /** Such a verdict is the consensus of all the rounds; a lost candidate is a provider's not-found. */
  lemma VerdictsAreObserved(v: View, env: Env, i: Input)
    requires GivesUp(Work(v, env, i).run.pc) && Work(v, env, i).run.pc != v.run.pc
    ensures Work(v, env, i).run.pc == Judged(Unreachable) ==>
              v.run.pc == Rounds && i.Observed? && Consensus.Verdict(i.rounds, env.cfg.requiredConsensus) == Unreachable
    ensures Work(v, env, i).run.pc == Gone ==> v.run.pc.Await? && i == NotFound
  {
    hide Work;
    WorkFlows(v, env, i);
    VerdictSteps(v, env, i);
  }

  lemma VerdictSteps(v: View, env: Env, i: Input)
    requires v.run.pc == Rounds || v.run.pc.Await?
    ensures Work(v, env, i).run.pc == Judged(Unreachable) ==>
              v.run.pc == Rounds && i.Observed? && Consensus.Verdict(i.rounds, env.cfg.requiredConsensus) == Unreachable
    ensures Work(v, env, i).run.pc == Gone ==> v.run.pc.Await? && i == NotFound
  {
    hide Consensus.Verdict;
  }

  // ---- Dry runs ----

  /** Whatever a dry run does, fails or is cancelled in, nothing real changes. */
  lemma DryRunTouchesNothingReal(v: View, w: View, clock: nat)
    requires Inv(v, clock) && Touches(v, w) && v.job.dryRun
    ensures w.node == v.node && w.master == v.master && w.log == v.log
    ensures forall k :: k in v.servers && v.servers[k].inCloud ==> k in w.servers && w.servers[k] == v.servers[k]
    ensures forall k :: k in w.servers && w.servers[k].inCloud ==> k in v.servers && v.servers[k].inCloud
    ensures forall k :: k in v.vps && (k == v.job.oldVps || v.vps[k].role == Current) && v.job.newVps != Some(k) ==>
              k in w.vps && w.vps[k] == v.vps[k]
  {
  }

  // ---- Bounds ----

  /** Over its whole life a job is advanced by at most four dispatches an attempt and ten more. */
  lemma AdvancesAreBounded(v: View, clock: nat)
    requires Inv(v, clock)
    ensures v.job.advances <= 4 * v.job.maxAttempts + 10
    ensures v.job.active ==> v.job.advances < 4 * v.job.maxAttempts + 10
  {
    assert Examined(v, v);
    Opened(v, clock);
  }

  /** With at most thirteen attempts no run meets its step limit on an unfinished job. */
  lemma StepLimitIsNeverMet(v: View, clock: nat)
    requires Inv(v, clock) && v.run.pc == LoopTop && !Terminal(v.job.checkpoint) && v.job.maxAttempts <= 13
    ensures v.run.dispatches < STEP_LIMIT - 2
  {
    assert Examined(v, v);
    AdvancesAreBounded(v, clock);
  }

  // ---- The node ----

  /** A state change of the node that the lifecycle allows; a force repair may also be undone. */
  predicate LegalMove(n: NodeRow, m: NodeRow, j: Job) {
    || CanTransition(n.state, m.state)
    || (j.force && !j.masterUpdated && j.original.Some? && Restored(n, j.original.value) == Success(m))
  }

  /** No step of a coupled job ever asks the lifecycle for a transition it refuses. */
  lemma NodeMovesAreLegal(v: View, env: Env, i: Input)
    requires Inv(v, env.clock) && Coupled(v)
    ensures LegalMove(v.node, Work(v, env, i).node, v.job)
    ensures v.run.pc == OldDone && HasPanel(v) ==> CanTransition(v.node.state, Healthy)
  {
    hide Work, AtStage, AtDeploy, AtOldDone, AtFailing, LegalMove, CanTransition, Coupled;
    WorkAtPlace(v, env, i);
    match v.run.pc {
      case Enter(_) => WorkAtStage(v, env, i); IpVerifiedMovesLegally(v, env, i);
      case Deploy(_) => DeployMovesLegally(v, env, i);
      case OldDone => MayBecomeHealthy(v, env.clock); OldDoneMovesLegally(v, env, i);
      case Failing => FailingMovesLegally(v, env.clock);
      case _ => OthersKeepTheNode(v, env, i); StayingIsLegal(v.node, v.job);
    }
  }

  lemma MayBecomeHealthy(v: View, clock: nat)
    requires Inv(v, clock) && Coupled(v) && v.run.pc == OldDone
    ensures CanTransition(v.node.state, Healthy)
  {
    OldDeleteIsLive(v, clock);
  }

  lemma StayingIsLegal(n: NodeRow, j: Job)
    ensures LegalMove(n, n, j)
  {
  }

  lemma IpVerifiedMovesLegally(v: View, env: Env, i: Input)
    requires v.run.pc.Enter?
    ensures LegalMove(v.node, AtStage(v, env, i).node, v.job)
  {
    if v.run.pc.stage != IpVerified {
      QuietStage(v, env, i);
    }
  }

  lemma DeployMovesLegally(v: View, env: Env, i: Input)
    requires Inv(v, env.clock) && Coupled(v) && v.run.pc.Deploy?
    ensures LegalMove(v.node, AtDeploy(v, env, i).node, v.job)
  {
    hide AtDeploy, LegalMove;
    DeployMoves(v, env, i);
    if AtDeploy(v, env, i).node == v.node {
      StayingIsLegal(v.node, v.job);
    } else {
      ClosingIsLegal(v, env.clock);
    }
  }

  lemma DeployMoves(v: View, env: Env, i: Input)
    requires v.run.pc.Deploy?
    ensures var n := AtDeploy(v, env, i).node;
            n == v.node || (n == v.node.(state := Verifying) && !v.job.dryRun && ClosingDeployment(v))
  {
  }

  lemma ClosingIsLegal(v: View, clock: nat)
    requires Inv(v, clock) && Coupled(v) && !v.job.dryRun && ClosingDeployment(v)
    ensures LegalMove(v.node, v.node.(state := Verifying), v.job)
  {
    Opened(v, clock);
  }

  lemma OldDoneMovesLegally(v: View, env: Env, i: Input)
    requires v.run.pc == OldDone && CanTransition(v.node.state, Healthy)
    ensures LegalMove(v.node, AtOldDone(v, env, i).node, v.job)
  {
  }

  lemma FailingMovesLegally(v: View, clock: nat)
    requires Inv(v, clock) && v.run.pc == Failing
    ensures LegalMove(v.node, AtFailing(v).node, v.job)
  {
  }
}
