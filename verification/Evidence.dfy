/**
 What stands behind a live job's progress: whenever it has passed a gate, a step of its own worker
 has made the observation the gate asks for, for the same candidate and attempt, and nothing that
 has happened since takes it back.
 */
module Evidence {
  import opened Types
  import opened CheckpointGraph
  import opened NodeLifecycle
  import opened MasterAlgebra
  import opened Worker
  import opened WorkerInvariant
  import opened WorkerEffects
  import opened NodeCoupling
  import opened JobGuarantees
  import opened JobRuns
  import opened Decisions
  import opened JobWitnesses
  import opened Fleet
  import opened FleetInvariant
  import opened FleetTheorems
  import Consensus
  import Health

  datatype Gate =
    | AddressGate     // the candidate's address was judged reachable
    | DeploymentGate  // the panel was deployed on it
    | RecordGate      // the Master record may be switched, and switched back
    | ProbeGate       // the Master has tested the new panel
    | SwitchGate      // the switch has been answered
    | CompareGate     // the Master shows what was sent
    | FinalGate       // the new server was reachable again
    | LookGate        // the old server is the one in the registry
    | GoneGate        // the old server is gone
    | ReapGate        // a given-up candidate is gone

  /** A live job behind a gate: its marker or checkpoint says so, or its worker is about to record it. */
  predicate Passed(g: Gate, v: View) {
    Live(v.job) &&
    match g
    case AddressGate => v.job.ipVerified || v.run.pc == Judged(Reachable)
    case DeploymentGate => v.job.deploymentVerified
    case RecordGate => Rank(v.job.checkpoint) >= 8 || v.run.pc.Shown? || v.run.pc == Tested
    case ProbeGate => Rank(v.job.checkpoint) >= 8
    case SwitchGate => v.job.masterUpdated || v.run.pc == Switched
    case CompareGate => v.job.masterVerified || v.run.pc == Verified
    case FinalGate => v.job.finalVerified || v.run.pc == FinalDone
    case LookGate => v.run.pc.OldDelete?
    case GoneGate => v.run.pc == OldDone
    case ReapGate => v.run.pc == Reaped
  }

  /** The mutation is the job's target, with the fingerprint read for it. */
  predicate OfTarget(v: View, m: Mutation) {
    TargetOf(v).Some? && m == Pinned(TargetOf(v).value, m.pinnedCertSha256)
  }

  /** The observation a gate asks for. */
  ghost predicate Earned(g: Gate, v: View, env: Env, i: Input) {
    match g
    case AddressGate =>
      v.run.pc == Rounds && i.Observed? && Consensus.Verdict(i.rounds, env.cfg.requiredConsensus) == Reachable
    case DeploymentGate =>
      ClosingDeployment(v) && i.Installed? && v.job.newVps == Some(v.deployment.value.vps)
    case RecordGate => v.run.pc == Preflight && i == Ok && Switchable(v.master, v.node.credentials)
    case ProbeGate => v.run.pc == Tested && i == Ok && TargetOf(v).Some?
    case SwitchGate => v.run.pc.Switch? && i == Ok && OfTarget(v, v.run.pc.m)
    case CompareGate =>
      && v.run.pc.Verify? && i.Probed? && AsSent(v.master, i.probe, v.run.pc.m) && v.master.hasApiToken
      && OfTarget(v, v.run.pc.m) && v.job.masterUpdated && WasSwitched(v.id, v.log)
    case FinalGate => v.run.pc == Final && i == Seen(Reachable)
    case LookGate =>
      && v.run.pc.OldGet? && i.Saw? && i.server == v.job.oldVps && i.server in v.vps && i.ip == v.vps[i.server].host
      && env.cfg.allowOldDeletion
    case GoneGate => (v.run.pc.OldDelete? && i == Ok) || (v.run.pc.OldGet? && i == NotFound)
    case ReapGate =>
      || (v.run.pc.ReapDelete? && i == Ok) || (v.run.pc.ReapGet? && i == NotFound)
      || (v.run.pc == Enter(TempCleanup) && i == Ok && NothingToReap(v))
  }

  // ---- Leaving a stage ----

  /** A real job leaves the stages behind which a gate lies only from the place where the gate is passed. */
  lemma CheckingLeaves(v: View, env: Env, i: Input)
    requires v.run.pc == Enter(CheckingIp) || v.run.pc == Rounds || v.run.pc.Judged?
    ensures var c := Work(v, env, i).job.checkpoint;
            c == v.job.checkpoint || c == TempCleanup || (v.run.pc.Judged? && v.run.pc.d != Unreachable)
  {
    hide Allowed, Consensus.Verdict, AtLookup, AtCreate, AtPersist, AtReaped, AtDeploy, AtOldDone, AtFailing, AtRollback,
      AtProvisioning, AtOldVpsCleanup, AtNodeVerified, AtIpVerified;
  }

  lemma DeployingLeaves(v: View, env: Env, i: Input)
    requires v.run.pc.Deploy?
    ensures Work(v, env, i).job.checkpoint != v.job.checkpoint ==> ClosingDeployment(v) && i.Installed?
  {
    hide Work;
    WorkAtPlace(v, env, i);
  }

  lemma NodeVerifiedLeaves(v: View, env: Env, i: Input)
    requires !v.job.dryRun && (v.run.pc == Enter(NodeVerified) || v.run.pc == Preflight || v.run.pc.Shown? || v.run.pc == Tested)
    ensures Work(v, env, i).job.checkpoint != v.job.checkpoint ==> v.run.pc == Tested && i == Ok && TargetOf(v).Some?
  {
    hide Allowed, TargetFor, AtLookup, AtCreate, AtPersist, AtReaped, AtDeploy, AtOldDone, AtFailing, AtRollback,
      AtProvisioning, AtOldVpsCleanup, AtIpVerified, AtFinal;
  }

  lemma UpdatingLeaves(v: View, env: Env, i: Input)
    requires !v.job.dryRun && (v.run.pc == Enter(MasterUpdating) || v.run.pc.SwitchPin? || v.run.pc.Switch?)
    ensures Work(v, env, i).job.checkpoint == v.job.checkpoint
  {
    hide Allowed, TargetFor, Written, AtLookup, AtCreate, AtPersist, AtReaped, AtDeploy, AtOldDone, AtFailing, AtRollback,
      AtProvisioning, AtOldVpsCleanup, AtIpVerified, AtFinal;
  }

  lemma VerifyingLeaves(v: View, env: Env, i: Input)
    requires !v.job.dryRun && (v.run.pc == Enter(MasterVerifying) || v.run.pc.VerifyPin? || v.run.pc.Verify?)
    ensures Work(v, env, i).job.checkpoint == v.job.checkpoint
  {
    hide Allowed, TargetFor, Verifies, AtLookup, AtCreate, AtPersist, AtReaped, AtDeploy, AtOldDone, AtFailing, AtRollback,
      AtProvisioning, AtOldVpsCleanup, AtIpVerified, AtFinal;
  }

  lemma FinalLeaves(v: View, env: Env, i: Input)
    requires !v.job.dryRun && (v.run.pc == Enter(FinalCheck) || v.run.pc == Final)
    ensures Work(v, env, i).job.checkpoint == v.job.checkpoint
  {
    hide Allowed, TargetFor, AtLookup, AtCreate, AtPersist, AtReaped, AtDeploy, AtOldDone, AtFailing, AtRollback,
      AtProvisioning, AtOldVpsCleanup, AtIpVerified;
  }

  // ---- Coming to a gate ----

  /** A live job's worker is in the stage of its checkpoint. */
  lemma LivePlace(v: View, clock: nat)
    requires Inv(v, clock) && Live(v.job)
    ensures !Terminal(v.job.checkpoint) && GatesFit(v.job) && (InStage(v.run.pc) ==> StageOf(v.run.pc) == v.job.checkpoint)
    ensures v.run.pc.Judged? ==> v.run.pc.d != Indeterminate
  {
    WorkerInvariant.Opened(v, clock);
    JobFacts(v, clock);
  }

  lemma FailingIsOver(v: View, env: Env, i: Input)
    requires Inv(v, env.clock) && v.job.active && v.run.pc == Failing
    ensures !Work(v, env, i).job.active
  {
    hide Work, AtFailing;
    WorkAtPlace(v, env, i);
    FailingEnds(v, env.clock);
  }

  /** A step of a live job that moves its checkpoint across a gate, by the stage it leaves. */
  lemma Crossing(v: View, env: Env, i: Input)
    requires Inv(v, env.clock) && Live(v.job) && Work(v, env, i).job.active
    ensures var c, d := v.job.checkpoint, Work(v, env, i).job.checkpoint;
            d != c ==>
              && (c == CheckingIp ==> d == TempCleanup || v.run.pc == Judged(Reachable))
              && (c == Deploying ==> ClosingDeployment(v) && i.Installed?)
              && (c == NodeVerified ==> v.run.pc == Tested && i == Ok && TargetOf(v).Some?)
              && (c == MasterUpdating ==> v.run.pc == Switched)
              && (c == MasterVerifying ==> v.run.pc == Verified)
              && (c == FinalCheck ==> v.run.pc == FinalDone)
  {
    hide Work, TargetFor;
    LivePlace(v, env.clock);
    if v.run.pc == Failing {
      FailingIsOver(v, env, i);
    } else if !InStage(v.run.pc) {
      LoopMovesNothing(v, env, i);
    } else {
      match v.job.checkpoint {
        case CheckingIp => CheckingPlace(v, env, i);
        case Deploying => DeployingPlace(v, env, i);
        case NodeVerified => NodeVerifiedPlace(v, env, i);
        case MasterUpdating => UpdatingPlace(v, env, i);
        case MasterVerifying => VerifyingPlace(v, env, i);
        case FinalCheck => FinalPlace(v, env, i);
        case _ =>
      }
    }
  }

  lemma CheckingPlace(v: View, env: Env, i: Input)
    requires InStage(v.run.pc) && StageOf(v.run.pc) == CheckingIp
    ensures var c := Work(v, env, i).job.checkpoint;
            c == v.job.checkpoint || c == TempCleanup || (v.run.pc.Judged? && v.run.pc.d != Unreachable)
  {
    hide Work;
    if v.run.pc == Enter(CheckingIp) || v.run.pc == Rounds || v.run.pc.Judged? {
      CheckingLeaves(v, env, i);
    } else {
      RollbacksDoNotMove(v, env, i);
    }
  }

  lemma NodeVerifiedPlace(v: View, env: Env, i: Input)
    requires !v.job.dryRun && InStage(v.run.pc) && StageOf(v.run.pc) == NodeVerified
    ensures Work(v, env, i).job.checkpoint != v.job.checkpoint ==> v.run.pc == Tested && i == Ok && TargetOf(v).Some?
  {
    hide Work, TargetFor;
    if v.run.pc == Enter(NodeVerified) || v.run.pc == Preflight || v.run.pc.Shown? || v.run.pc == Tested {
      NodeVerifiedLeaves(v, env, i);
    } else {
      RollbacksDoNotMove(v, env, i);
    }
  }

  lemma DeployingPlace(v: View, env: Env, i: Input)
    requires InStage(v.run.pc) && StageOf(v.run.pc) == Deploying
    ensures Work(v, env, i).job.checkpoint != v.job.checkpoint ==> ClosingDeployment(v) && i.Installed?
  {
    hide Work;
    if v.run.pc.Deploy? {
      DeployingLeaves(v, env, i);
    } else if v.run.pc == Enter(Deploying) {
      DeployingMovesNothing(v, env, i);
    } else {
      RollbacksDoNotMove(v, env, i);
    }
  }

  lemma UpdatingPlace(v: View, env: Env, i: Input)
    requires !v.job.dryRun && InStage(v.run.pc) && StageOf(v.run.pc) == MasterUpdating
    ensures Work(v, env, i).job.checkpoint != v.job.checkpoint ==> v.run.pc == Switched
  {
    hide Work;
    if v.run.pc == Enter(MasterUpdating) || v.run.pc.SwitchPin? || v.run.pc.Switch? {
      UpdatingLeaves(v, env, i);
    } else if v.run.pc != Switched {
      RollbacksDoNotMove(v, env, i);
    }
  }

  lemma VerifyingPlace(v: View, env: Env, i: Input)
    requires !v.job.dryRun && InStage(v.run.pc) && StageOf(v.run.pc) == MasterVerifying
    ensures Work(v, env, i).job.checkpoint != v.job.checkpoint ==> v.run.pc == Verified
  {
    hide Work;
    if v.run.pc == Enter(MasterVerifying) || v.run.pc.VerifyPin? || v.run.pc.Verify? {
      VerifyingLeaves(v, env, i);
    } else if v.run.pc != Verified {
      RollbacksDoNotMove(v, env, i);
    }
  }

  lemma FinalPlace(v: View, env: Env, i: Input)
    requires !v.job.dryRun && InStage(v.run.pc) && StageOf(v.run.pc) == FinalCheck
    ensures Work(v, env, i).job.checkpoint != v.job.checkpoint ==> v.run.pc == FinalDone
  {
    hide Work;
    if v.run.pc == Enter(FinalCheck) || v.run.pc == Final {
      FinalLeaves(v, env, i);
    } else if v.run.pc != FinalDone {
      RollbacksDoNotMove(v, env, i);
    }
  }

  /** Both ends of a step of a live job that stays live. */
  ghost predicate StaysLive(v: View, env: Env, i: Input) {
    Inv(v, env.clock) && Live(v.job) && Inv(Work(v, env, i), env.clock) && Live(Work(v, env, i).job)
  }

  lemma AddressArrival(v: View, env: Env, i: Input)
    requires StaysLive(v, env, i) && !Passed(AddressGate, v) && Passed(AddressGate, Work(v, env, i))
    ensures Earned(AddressGate, v, env, i)
  {
    hide Work, TargetFor, Consensus.Verdict;
    LivePlace(v, env.clock);
    LivePlace(Work(v, env, i), env.clock);
    Crossing(v, env, i);
    WorkMoves(v, env, i);
    RoundsDecide(v, env, i, Reachable);
  }

  lemma DeploymentArrival(v: View, env: Env, i: Input)
    requires StaysLive(v, env, i) && !Passed(DeploymentGate, v) && Passed(DeploymentGate, Work(v, env, i))
    ensures Earned(DeploymentGate, v, env, i)
  {
    hide Work, TargetFor;
    LivePlace(v, env.clock);
    LivePlace(Work(v, env, i), env.clock);
    Crossing(v, env, i);
    WorkMoves(v, env, i);
    DeployedCandidate(v, env.clock);
  }

  lemma DeployedCandidate(v: View, clock: nat)
    requires Inv(v, clock) && Live(v.job)
    ensures v.job.checkpoint == Deploying ==> v.deployment.Some? && v.job.newVps == Some(v.deployment.value.vps)
    ensures Rank(v.job.checkpoint) >= 9 ==> WasSwitched(v.id, v.log)
  {
    assert Examined(v, v);
  }

  lemma RecordArrival(v: View, env: Env, i: Input)
    requires StaysLive(v, env, i) && !Passed(RecordGate, v) && Passed(RecordGate, Work(v, env, i))
    ensures Earned(RecordGate, v, env, i)
  {
    hide Work, TargetFor;
    LivePlace(v, env.clock);
    LivePlace(Work(v, env, i), env.clock);
    Crossing(v, env, i);
    WorkMoves(v, env, i);
    WorkFlows(v, env, i);
    PreflightDecides(v, env, i);
  }

  lemma ProbeArrival(v: View, env: Env, i: Input)
    requires StaysLive(v, env, i) && !Passed(ProbeGate, v) && Passed(ProbeGate, Work(v, env, i))
    ensures Earned(ProbeGate, v, env, i)
  {
    hide Work, TargetFor;
    LivePlace(v, env.clock);
    LivePlace(Work(v, env, i), env.clock);
    Crossing(v, env, i);
    WorkMoves(v, env, i);
  }

  lemma SwitchArrival(v: View, env: Env, i: Input)
    requires StaysLive(v, env, i) && !Passed(SwitchGate, v) && Passed(SwitchGate, Work(v, env, i))
    ensures Earned(SwitchGate, v, env, i)
  {
    hide Work, TargetFor, Pinned;
    LivePlace(v, env.clock);
    LivePlace(Work(v, env, i), env.clock);
    Crossing(v, env, i);
    WorkMoves(v, env, i);
    AnswerDecides(v, env, i);
    if v.run.pc.Switch? {
      SentIsOfTarget(v, env.clock);
    }
  }

  lemma SentIsOfTarget(v: View, clock: nat)
    requires Inv(v, clock) && (v.run.pc.Switch? || v.run.pc.Verify?)
    ensures OfTarget(v, v.run.pc.m)
  {
    hide TargetFor, Pinned;
    WorkerInvariant.Opened(v, clock);
  }

  lemma TargetHasToken(v: View, m: Mutation)
    requires OfTarget(v, m)
    ensures m.apiToken.Some?
  {
  }

  lemma CompareArrival(v: View, env: Env, i: Input)
    requires StaysLive(v, env, i) && !Passed(CompareGate, v) && Passed(CompareGate, Work(v, env, i))
    ensures Earned(CompareGate, v, env, i)
  {
    hide Work, TargetFor, Pinned, OfTarget, Says;
    LivePlace(v, env.clock);
    LivePlace(Work(v, env, i), env.clock);
    Crossing(v, env, i);
    WorkMoves(v, env, i);
    ComparisonDecides(v, env, i);
    DeployedCandidate(v, env.clock);
    if v.run.pc.Verify? {
      SentIsOfTarget(v, env.clock);
      TargetHasToken(v, v.run.pc.m);
    }
  }

  lemma FinalArrival(v: View, env: Env, i: Input)
    requires StaysLive(v, env, i) && !Passed(FinalGate, v) && Passed(FinalGate, Work(v, env, i))
    ensures Earned(FinalGate, v, env, i)
  {
    hide Work, TargetFor;
    LivePlace(v, env.clock);
    LivePlace(Work(v, env, i), env.clock);
    Crossing(v, env, i);
    WorkMoves(v, env, i);
    FinalCheckDecides(v, env, i);
  }

  lemma CleanupArrival(v: View, env: Env, i: Input)
    requires StaysLive(v, env, i) && (Retiring(v.run.pc) ==> env.cfg.allowOldDeletion)
    ensures !Passed(LookGate, v) && Passed(LookGate, Work(v, env, i)) ==> Earned(LookGate, v, env, i)
    ensures !Passed(GoneGate, v) && Passed(GoneGate, Work(v, env, i)) ==> Earned(GoneGate, v, env, i)
    ensures !Passed(ReapGate, v) && Passed(ReapGate, Work(v, env, i)) ==> Earned(ReapGate, v, env, i)
  {
    hide Work;
    OldLookDecides(v, env, i);
    DeletionDecides(v, env, i);
    ReapingDecides(v, env, i);
  }

  /** Nobody comes behind a gate but by the observation it asks for. */
  lemma ArrivalIsEarned(g: Gate, v: View, env: Env, i: Input)
    requires StaysLive(v, env, i) && (Retiring(v.run.pc) ==> env.cfg.allowOldDeletion)
    requires !Passed(g, v) && Passed(g, Work(v, env, i))
    ensures Earned(g, v, env, i)
  {
    hide Work, Passed, Earned, StaysLive;
    match g {
      case AddressGate => AddressArrival(v, env, i);
      case DeploymentGate => DeploymentArrival(v, env, i);
      case RecordGate => RecordArrival(v, env, i);
      case ProbeGate => ProbeArrival(v, env, i);
      case SwitchGate => SwitchArrival(v, env, i);
      case CompareGate => CompareArrival(v, env, i);
      case FinalGate => FinalArrival(v, env, i);
      case _ => CleanupArrival(v, env, i);
    }
  }

  // ---- Since then ----

  /** No switch of the job has landed since. */
  ghost predicate NoLaterSwitch(id: JobId, before: seq<MasterWrite>, log: seq<MasterWrite>) {
    && |before| <= |log| && log[..|before|] == before
    && forall m :: |before| <= m < |log| ==> log[m].author != Switcher(id)
  }

  /**
   From u to w the job has kept its candidate and its attempt, and a recorded switch is the last one
   it made.
   */
  ghost predicate Kept(u: View, w: View) {
    && w.id == u.id && SameOrigin(u.job, w.job) && w.job.newVps == u.job.newVps && w.job.attempt == u.job.attempt
    && (u.job.masterUpdated ==> w.job.masterUpdated && NoLaterSwitch(u.id, u.log, w.log))
  }

  lemma KeptOn(u: View, v: View, w: View)
    requires Kept(u, v) && Kept(v, w)
    ensures Kept(u, w)
  {
    if u.job.masterUpdated {
      SwitchesOn(u.id, u.log, v.log, w.log);
    }
  }

  lemma SwitchesOn(id: JobId, a: seq<MasterWrite>, b: seq<MasterWrite>, c: seq<MasterWrite>)
    requires NoLaterSwitch(id, a, b) && NoLaterSwitch(id, b, c)
    ensures NoLaterSwitch(id, a, c)
  {
    assert c[..|a|] == c[..|b|][..|a|];
    forall m | |a| <= m < |c| ensures c[m].author != Switcher(id) {
      assert m < |b| ==> c[m] == c[..|b|][m];
    }
  }

  /** The worker is not where a job changes its candidate or its attempt. */
  predicate Settles(v: View) {
    v.job.checkpoint != Created && !v.run.pc.Persist? && v.run.pc != Reaped
  }

  lemma CandidateStays(v: View, env: Env, i: Input)
    requires StaysLive(v, env, i) && Settles(v)
    ensures Work(v, env, i).job.newVps == v.job.newVps && Work(v, env, i).job.attempt == v.job.attempt
  {
    hide Work;
    AttemptsStart(v, env.clock);
    if !Loud(v.run.pc) {
      QuietWork(v, env, i);
    } else if v.run.pc == Failing {
      FailingIsOver(v, env, i);
    } else {
      LoudKeepsCandidate(v, env, i);
    }
  }

  lemma AttemptsStart(v: View, clock: nat)
    requires Inv(v, clock) && Live(v.job)
    ensures v.job.checkpoint != Created ==> v.job.attempt >= 1
    ensures v.run.pc != DryDone
  {
    WorkerInvariant.Opened(v, clock);
    JobFacts(v, clock);
  }

  lemma LoudKeepsCandidate(v: View, env: Env, i: Input)
    requires Loud(v.run.pc) && !v.run.pc.Persist? && v.run.pc != Reaped && v.run.pc != Failing && v.run.pc != DryDone
    requires Work(v, env, i).job.active
    ensures Work(v, env, i).job.newVps == v.job.newVps && Work(v, env, i).job.attempt == v.job.attempt
  {
    hide Work, AtOldDone;
    if v.run.pc == Enter(IpVerified) {
      WorkAtStage(v, env, i);
      DeploymentStarts(v, env, i);
    } else if v.run.pc.Deploy? || v.run.pc == OldDone {
      WorkAtPlace(v, env, i);
      ActiveIsNotDone(v, env, i);
    } else if v.run.pc == Gone || v.run.pc.Up? {
      WorkAtRegistration(v, env, i);
      LostOrUp(v, env, i);
    } else {
      CallsAreOutward(v, env, i);
    }
  }

  lemma DeploymentStarts(v: View, env: Env, i: Input)
    ensures var w := AtIpVerified(v, env, i); w.job.newVps == v.job.newVps && w.job.attempt == v.job.attempt
  {
    hide Allowed;
  }

  lemma ActiveIsNotDone(v: View, env: Env, i: Input)
    ensures v.run.pc.Deploy? ==>
              AtDeploy(v, env, i).job.newVps == v.job.newVps && AtDeploy(v, env, i).job.attempt == v.job.attempt
    ensures v.run.pc == OldDone ==>
              AtOldDone(v, env, i).job.newVps == v.job.newVps && AtOldDone(v, env, i).job.attempt == v.job.attempt
  {
    hide Allowed, CanTransition;
  }

  lemma LostOrUp(v: View, env: Env, i: Input)
    ensures AtGone(v, env, i).job.newVps == v.job.newVps && AtGone(v, env, i).job.attempt == v.job.attempt
    ensures v.run.pc.Up? ==> AtUp(v, env, i).job == v.job
  {
    hide Allowed;
  }

  /**
   Behind a gate a job changes neither candidate nor attempt; only the step that unlinks a reaped one does.
   */
  lemma PassedSettles(g: Gate, v: View, env: Env, i: Input)
    requires Inv(v, env.clock) && Live(v.job) && (Passed(g, v) || Earned(g, v, env, i))
    ensures Settles(v) || (g == ReapGate && v.run.pc == Reaped)
  {
    hide Consensus.Verdict, TargetFor, AsSent, OfTarget;
    LivePlace(v, env.clock);
  }

  /** A reaped candidate that is still waiting to be unlinked has not changed. */
  lemma ReapedWaits(v: View, env: Env, i: Input)
    requires v.run.pc == Reaped && Work(v, env, i).run.pc == Reaped
    ensures Work(v, env, i).job == v.job
  {
    hide Work, Unlinked, Retried;
    WorkAtRegistration(v, env, i);
  }

  lemma NoSwitchNow(v: View, env: Env, i: Input)
    requires StaysLive(v, env, i) && v.job.masterUpdated
    ensures Work(v, env, i).job.masterUpdated && NoLaterSwitch(v.id, v.log, Work(v, env, i).log)
  {
    hide Work, Written;
    LivePlace(v, env.clock);
    LivePlace(Work(v, env, i), env.clock);
    WorkMoves(v, env, i);
    OnlyMasterStepsWrite(v, env, i);
    WrittenLog(v);
  }

  lemma WrittenLog(v: View)
    ensures v.run.pc.RollWrite? ==> NoLaterSwitch(v.id, v.log, Written(v, v.run.pc.m, Reverter(v.id)).log)
    ensures NoLaterSwitch(v.id, v.log, v.log)
  {
    hide Overlay;
  }

  lemma OwnStepKeeps(g: Gate, v: View, env: Env, i: Input)
    requires StaysLive(v, env, i) && Plausible(v, env, i)
    requires Passed(g, Work(v, env, i)) && (Passed(g, v) || Earned(g, v, env, i))
    ensures Kept(v, Work(v, env, i))
  {
    hide Work, Earned, Passed, RegistryTouched, CloudTouched, MasterTouched, NoLaterSwitch, Plausible;
    WorkTouches(v, env, i);
    PassedSettles(g, v, env, i);
    if Settles(v) {
      CandidateStays(v, env, i);
    } else {
      assert Work(v, env, i).run.pc == Reaped by { ReapGateIs(Work(v, env, i)); }
      ReapedWaits(v, env, i);
    }
    if v.job.masterUpdated {
      NoSwitchNow(v, env, i);
    }
  }

  lemma ReapGateIs(v: View)
    requires Passed(ReapGate, v)
    ensures v.run.pc == Reaped
  {
  }

  // ---- Whole histories ----

  predicate PassedIn(g: Gate, f: State, j: JobId) { HasView(f, j) && Passed(g, ViewOf(f, j)) }

  /** The event is the observation that gate g asks for, made by job j's own worker. */
  ghost predicate EarnsIn(g: Gate, f: State, e: Event, j: JobId) {
    && e.Step? && e.id == j && HasView(f, j) && Live(f.jobs[j].job) && Earned(g, ViewOf(f, j), EnvOf(f), e.input)
  }

  ghost predicate KeptIn(f: State, g: State, j: JobId) { HasView(f, j) && HasView(g, j) && Kept(ViewOf(f, j), ViewOf(g, j)) }

  lemma OwnEventEarns(g: Gate, f: State, e: Event, j: JobId)
    requires Orderly(f) && Sanctioned(f) && Possible(f, e) && JobIn(f, j) && Own(e, j) && PassedIn(g, After(f, e), j)
    ensures PassedIn(g, f, j) || EarnsIn(g, f, e, j)
    ensures KeptIn(f, After(f, e), j)
  {
    hide Orderly, After, Work, Earned, Passed, Kept, OwnEvent, Plausible, Visible, Touches;
    EventTouches(f, e, j);
    OwnViews(f, e, j);
    match e {
      case Step(_, i) =>
        StepStaysLive(f, e, j, g);
        SanctionedView(f, j);
        if !Passed(g, ViewOf(f, j)) {
          ArrivalIsEarned(g, ViewOf(f, j), EnvOf(f), i);
        }
        OwnStepKeeps(g, ViewOf(f, j), EnvOf(f), i);
      case _ => OtherMovesEarn(g, f, e, j);
    }
  }

  lemma OwnViews(f: State, e: Event, j: JobId)
    requires HasView(f, j) && Own(e, j) && After(f, e) == Put(f, OwnEvent(f, e, j)) && Touches(ViewOf(f, j), OwnEvent(f, e, j))
    ensures HasView(After(f, e), j) && ViewOf(After(f, e), j) == OwnEvent(f, e, j)
  {
    hide After, OwnEvent, RegistryTouched, CloudTouched, MasterTouched;
  }

  lemma SanctionedView(f: State, j: JobId)
    requires Sanctioned(f) && HasView(f, j)
    ensures Retiring(ViewOf(f, j).run.pc) ==> EnvOf(f).cfg.allowOldDeletion
  {
  }

  lemma StepStaysLive(f: State, e: Event, j: JobId, g: Gate)
    requires JobIn(f, j) && Possible(f, e) && e.Step? && e.id == j && Passed(g, OwnEvent(f, e, j))
    requires Touches(ViewOf(f, j), OwnEvent(f, e, j))
    ensures StaysLive(ViewOf(f, j), EnvOf(f), e.input) && Plausible(ViewOf(f, j), EnvOf(f), e.input)
    ensures OwnEvent(f, e, j) == Work(ViewOf(f, j), EnvOf(f), e.input)
  {
    hide Work, Plausible, Visible, RegistryTouched, CloudTouched, MasterTouched;
    WorkKeeps(ViewOf(f, j), EnvOf(f), e.input);
  }

  lemma OtherMovesEarn(g: Gate, f: State, e: Event, j: JobId)
    requires JobIn(f, j) && Own(e, j) && !e.Step? && Passed(g, OwnEvent(f, e, j))
    ensures Passed(g, ViewOf(f, j)) && Kept(ViewOf(f, j), OwnEvent(f, e, j))
  {
    hide Ended;
    var v := ViewOf(f, j);
    WrittenLog(v);
    if e.Stop? {
      WorkerInvariant.Opened(v, f.clock);
      JobFacts(v, f.clock);
      if !Terminal(v.job.checkpoint) {
        EndingIsNeverRefused(v, Cancelled, f.clock);
      }
    }
  }

  lemma ForeignKeeps(f: State, e: Event, j: JobId)
    requires Orderly(f) && Possible(f, e) && JobIn(f, j) && j in f.jobs && !Own(e, j)
    ensures HasView(After(f, e), j) && After(f, e).jobs[j] == f.jobs[j]
    ensures NoLaterSwitch(j, ViewOf(f, j).log, ViewOf(After(f, e), j).log)
  {
    hide Orderly, Plausible, Visible, Work, Cancel, Acquire, RegistryTouched, CloudTouched, Answer, OwnEvent;
    ForeignEvent(f, e, j);
    if (e.Take? || e.Die? || e.Step? || e.Stop?) && HasView(f, e.id) {
      OneJob(f, e.id);
      EventTouches(f, e, e.id);
    }
  }

  lemma ForeignPassed(g: Gate, f: State, e: Event, j: JobId)
    requires Orderly(f) && Possible(f, e) && JobIn(f, j) && j in f.jobs && !Own(e, j)
    ensures PassedIn(g, After(f, e), j) ==> PassedIn(g, f, j)
    ensures KeptIn(f, After(f, e), j)
  {
    hide Orderly, Possible, After;
    ForeignKeeps(f, e, j);
  }

  /** A job that has just been admitted is behind no gate. */
  lemma AdmittedHasPassedNothing(g: Gate, f: State, e: Event, j: JobId)
    requires Orderly(f) && Possible(f, e) && j !in f.jobs
    ensures !PassedIn(g, After(f, e), j)
  {
    hide Orderly, Possible, After, OwnEvent, RegistryTouched, CloudTouched, MasterTouched;
    if (e.Take? || e.Die? || e.Step? || e.Stop?) && HasView(f, e.id) {
      OneJob(f, e.id);
      EventTouches(f, e, e.id);
    } else if e.Take? || e.Die? || e.Step? || e.Stop? {
      NobodyMoves(f, e);
    } else {
      FreshHasPassedNothing(g, f, e, j);
    }
  }

  lemma FreshHasPassedNothing(g: Gate, f: State, e: Event, j: JobId)
    requires j !in f.jobs && !(e.Take? || e.Die? || e.Step? || e.Stop?)
    ensures !PassedIn(g, After(f, e), j)
  {
    hide Answer;
  }

  /**
   One event: a gate that is passed after it was passed before, or the event is the observation it asks for.
   */
  lemma EventEarns(g: Gate, f: State, e: Event, j: JobId)
    requires Orderly(f) && Sanctioned(f) && Possible(f, e) && PassedIn(g, After(f, e), j)
    ensures j in f.jobs && (PassedIn(g, f, j) || EarnsIn(g, f, e, j)) && KeptIn(f, After(f, e), j)
  {
    hide Orderly, Sanctioned, Possible, After, Passed, Earned, Kept;
    if j !in f.jobs {
      AdmittedHasPassedNothing(g, f, e, j);
    } else {
      OneJob(f, j);
      if Own(e, j) {
        OwnEventEarns(g, f, e, j);
      } else {
        ForeignPassed(g, f, e, j);
      }
    }
  }

  /**
   Whatever crashes, deferrals, cancels and other jobs a history has seen: a live job behind a gate
   was there from the start, or its own worker made the observation the gate asks for at some moment
   n of the history, for the candidate and the attempt it still has; and if the Master switch was
   recorded by then, no switch of the job has landed since.
   */
  lemma {:induction false} GateWasEarned(g: Gate, f: State, es: seq<Event>, j: JobId) returns (n: nat)
    requires Attainable(f) && PossibleHistory(f, es) && PassedIn(g, History(f, es), j) && !PassedIn(g, f, j)
    ensures n < |es| && EarnsIn(g, History(f, es[..n]), es[n], j) && KeptIn(History(f, es[..n]), History(f, es), j)
  {
    hide Attainable, Orderly, Sanctioned, Possible, After, Passed, EarnsIn, KeptIn, PassedIn;
    var front, e := es[..|es| - 1], es[|es| - 1];
    forall m | 0 <= m < |front| ensures Possible(History(f, front[..m]), front[m]) {
      assert front[..m] == es[..m];
    }
    var h := History(f, front);
    AttainableAlong(f, front);
    AttainableOrderly(h);
    AttainableSanctioned(h);
    EventEarns(g, h, e, j);
    if PassedIn(g, h, j) {
      n := GateWasEarned(g, f, front, j);
      assert front[..n] == es[..n];
      KeptInOn(History(f, front[..n]), h, After(h, e), j);
    } else {
      n := |front|;
    }
  }

  lemma KeptInOn(f: State, g: State, h: State, j: JobId)
    requires KeptIn(f, g, j) && KeptIn(g, h, j)
    ensures KeptIn(f, h, j)
  {
    hide Kept;
    KeptOn(ViewOf(f, j), ViewOf(g, j), ViewOf(h, j));
  }

  // ---- What stands behind a deletion and a completion ----

  /** Every gate but the last two lies behind a worker that may delete the old server. */
  lemma RetiringPassed(g: Gate, f: State, j: JobId, k: ServerId)
    requires HasView(f, j) && RetiresOld(ViewOf(f, j), k) && g != GoneGate && g != ReapGate
    ensures PassedIn(g, f, j)
  {
  }

  lemma NobodyHasPassed(g: Gate, f: State, j: JobId)
    requires f.jobs == map[]
    ensures !PassedIn(g, f, j)
  {
  }

  /**
   Whenever a node's current server dies, in whatever history, the worker that kills it has before, for
   the candidate it still has: judged its address reachable by consensus, deployed the panel, taken a
   record that can be switched back, had the Master test the panel, switched the Master, found it
   showing what was sent, found the new server reachable again, and looked the old server up.
   */
  lemma DeletionIsBacked(g: Gate, f0: State, es: seq<Event>, e: Event, k: ServerId) returns (n: nat)
    requires Initial(f0) && PossibleHistory(f0, es) && Possible(History(f0, es), e) && g != GoneGate && g != ReapGate
    requires var f := History(f0, es);
             && k in f.servers && f.servers[k].alive && k in After(f, e).servers && !After(f, e).servers[k].alive
             && k in f.vps && f.vps[k].role == Current
    ensures e.Step? && n < |es| && EarnsIn(g, History(f0, es[..n]), es[n], e.id)
    ensures KeptIn(History(f0, es[..n]), History(f0, es), e.id)
  {
    hide Attainable, Initial, Possible, After, PassedIn, EarnsIn, KeptIn, RetiresOld, ReapsCandidate;
    AttainableAtFirst(f0);
    AttainableAlong(f0, es);
    ServersDieSafely(History(f0, es), e, k);
    RetiringPassed(g, History(f0, es), e.id, k);
    NobodyHasPassed(g, f0, e.id) by { NoJobsAtFirst(f0); }
    n := GateWasEarned(g, f0, es, e.id);
  }

  lemma NoJobsAtFirst(f: State)
    requires Initial(f)
    ensures f.jobs == map[]
  {
  }

  lemma AttainableAtFirst(f: State)
    requires Initial(f)
    ensures Attainable(f)
  {
    hide Initial, Possible, After;
  }

  lemma FinishingPassed(g: Gate, f: State, j: JobId)
    requires JobIn(f, j) && j in f.jobs && ViewOf(f, j).run.pc == OldDone && Live(f.jobs[j].job) && g != LookGate && g != ReapGate
    ensures PassedIn(g, f, j)
  {
    LivePlace(ViewOf(f, j), f.clock);
  }

  /**
   And whenever a live job completes: all that, and the old server's deletion succeeded or a look missed it.
   */
  lemma CompletionIsBacked(g: Gate, f0: State, es: seq<Event>, e: Event, j: JobId) returns (n: nat)
    requires Initial(f0) && PossibleHistory(f0, es) && Possible(History(f0, es), e) && g != LookGate && g != ReapGate
    requires var f := History(f0, es);
             && j in f.jobs && Live(f.jobs[j].job) && j in After(f, e).jobs && After(f, e).jobs[j].job.checkpoint == Completed
    ensures n < |es| && EarnsIn(g, History(f0, es[..n]), es[n], j) && KeptIn(History(f0, es[..n]), History(f0, es), j)
  {
    hide Attainable, Initial, Possible, After, PassedIn, EarnsIn, KeptIn, Orderly;
    var f := History(f0, es);
    AttainableAtFirst(f0);
    AttainableAlong(f0, es);
    AttainableOrderly(f);
    OneJob(f, j);
    CompletesBehindDeletion(f, e, j);
    FinishingPassed(g, f, j);
    NobodyHasPassed(g, f0, j) by { NoJobsAtFirst(f0); }
    n := GateWasEarned(g, f0, es, j);
  }

  lemma CompletesBehindDeletion(f: State, e: Event, j: JobId)
    requires Attainable(f) && Possible(f, e) && j in f.jobs && Live(f.jobs[j].job)
    requires j in After(f, e).jobs && After(f, e).jobs[j].job.checkpoint == Completed
    ensures HasView(f, j) && ViewOf(f, j).run.pc == OldDone
  {
    hide Attainable, Orderly, After, Possible, Work, Completes, OwnEvent, RegistryTouched, CloudTouched, MasterTouched;
    AttainableOrderly(f);
    OneJob(f, j);
    CompletionByEvent(f, e, j);
    EventTouches(f, e, j);
    WorkCompletes(f, e, j);
  }

  lemma WorkCompletes(f: State, e: Event, j: JobId)
    requires JobIn(f, j) && j in f.jobs && Possible(f, e) && e == Step(j, Ok) && Live(f.jobs[j].job)
    requires After(f, e) == Put(f, OwnEvent(f, e, j)) && Touches(ViewOf(f, j), OwnEvent(f, e, j))
    requires j in After(f, e).jobs && After(f, e).jobs[j].job.checkpoint == Completed
    ensures ViewOf(f, j).run.pc == OldDone
  {
    hide After, Work, Plausible, Visible, Completes, RegistryTouched, CloudTouched, MasterTouched;
    CompletionRows(ViewOf(f, j), EnvOf(f), Ok);
  }
}
