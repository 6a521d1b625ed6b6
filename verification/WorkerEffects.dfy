/** What one step of a worker may touch, and what it must leave alone. */
module WorkerEffects {
  import opened Types
  import opened CheckpointGraph
  import opened NodeLifecycle
  import opened MasterAlgebra
  import opened Worker
  import opened WorkerInvariant
  import Consensus

  predicate Owned(id: JobId, k: ServerId, servers: map<ServerId, Server>) {
    k in servers && servers[k].name.CandidateName? && servers[k].name.job == id
  }

  /** No step revives a job or, in a dry run, changes the node. */
  predicate JobTouched(v: View, w: View) {
    && w.id == v.id && SameOrigin(v.job, w.job)
    && (w.job.active ==> v.job.active)
    && (w.node != v.node ==> !v.job.dryRun)
  }

  /** At most one write reaches the Master, signed by this job; a dry run writes nothing. */
  ghost predicate MasterTouched(v: View, w: View) {
    (w.log == v.log && w.master == v.master)
    || (!v.job.dryRun
        && (w.log == v.log + [MasterWrite(Switcher(v.id), w.master)]
            || w.log == v.log + [MasterWrite(Reverter(v.id), w.master)]))
  }

  /** The step changes the row of its own candidate, or retires the old server of a live job. */
  predicate MayChange(v: View, k: ServerId) {
    || (v.job.newVps == Some(k) && Owned(v.id, k, v.servers) && k in v.vps && v.vps[k].role == Replacement)
    || (k == v.job.oldVps && Live(v.job))
  }

  /**
   Rows and servers never disappear; what changes or appears is this job's, and it lets go of deleted rows
   only.
   */
  ghost predicate RegistryTouched(v: View, w: View) {
    forall k ::
      && (k in v.vps ==> k in w.vps && w.vps[k].node == v.vps[k].node)
      && (k in v.vps && w.vps[k] != v.vps[k] ==>
            MayChange(v, k) && (v.job.newVps != Some(k) ==> w.vps[k] == v.vps[k].(state := VpsDeleted)))
      && (k in w.vps && k !in v.vps ==>
            && Owned(v.id, k, v.servers) && w.job.newVps == Some(k) && w.vps[k].role == Replacement
            && w.vps[k].node == v.job.node)
      && (k in v.vps && v.job.newVps == Some(k) && w.job.newVps != Some(k) ==> w.vps[k].state == VpsDeleted)
  }

  ghost predicate CloudTouched(v: View, w: View) {
    forall k ::
      && (k in v.servers ==> k in w.servers && w.servers[k] == v.servers[k].(alive := w.servers[k].alive))
      && (k in v.servers && w.servers[k] != v.servers[k] ==>
            MayChange(v, k) && v.servers[k].inCloud == !v.job.dryRun && v.servers[k].alive && !w.servers[k].alive)
      && (k in w.servers && k !in v.servers ==>
            && k !in v.vps && w.servers[k].inCloud == !v.job.dryRun
            && w.servers[k].name == CandidateName(v.id, v.job.attempt))
  }

  ghost predicate Touches(v: View, w: View) {
    JobTouched(v, w) && MasterTouched(v, w) && RegistryTouched(v, w) && CloudTouched(v, w)
  }

  lemma QuietTouches(v: View, w: View)
    requires Quiet(v, w)
    ensures Touches(v, w)
  {
  }

  /** The places whose step may write something other than the job's own rows. */
  predicate Loud(pc: Pc) {
    || pc.Create? || pc.Persist? || pc == Gone || pc.Up? || pc.ReapDelete? || pc == Reaped || pc == Enter(IpVerified)
    || pc.Deploy? || pc.Switch? || pc.RollWrite? || pc.OldDelete? || pc == OldDone || pc.DryDelete? || pc == DryDone
    || pc == Failing
  }

  lemma QuietStage(v: View, env: Env, i: Input)
    requires v.run.pc.Enter? && v.run.pc.stage != IpVerified
    ensures Quiet(v, AtStage(v, env, i))
  {
    hide AtCreated, AtProvisioning, AtProvisioned, AtCheckingIp, AtTempCleanup, AtIpVerified, AtDeploying,
      AtNodeVerified, AtMasterUpdating, AtMasterUpdated, AtMasterVerifying, AtMasterVerified, AtFinalCheck,
      AtFinalVerified, AtOldVpsCleanup;
  }

  lemma QuietWork(v: View, env: Env, i: Input)
    requires !Loud(v.run.pc)
    ensures Quiet(v, Work(v, env, i))
  {
    hide AtStage, AtLoopTop, AtLookup, AtMark, AtAwait, AtBoot, AtRounds, AtJudged, AtReap, AtReapGet, AtPreflight,
      AtShown, AtTested, AtSwitchPin, AtSwitched, AtVerifyPin, AtVerify, AtVerified, AtRollback, AtRollCheck, AtFinal,
      AtFinalDone, AtOldGet;
    if v.run.pc.Enter? {
      QuietStage(v, env, i);
    }
  }

  // ---- Where a step leads ----

  /** The places a step can lead to beside staying, releasing the lease and raising. */
  predicate FlowsTo(pc: Pc, next: Pc) {
    match pc
    case Idle => false
    case Failing => false
    case LoopTop => next.Enter?
    case Enter(stage) => StageFlowsTo(stage, next)
    case Lookup(_, _, _, _, _) => next.Persist? || next.Mark?
    case Mark(_, _, _) => next.Create?
    case Create(_, _, _, _) => next.Persist?
    case Await(_) => next.Up? || next == Gone
    case Up(_) => next == Boot
    case Rounds => next.Judged?
    case Reap(_, _) => next.ReapGet?
    case ReapGet(_, _, _) => next.ReapDelete? || next == Reaped
    case ReapDelete(_) => next == Reaped
    case Preflight => next.Shown?
    case Shown(_) => next == Tested
    case SwitchPin(_) => next.Switch?
    case Switch(_) => next == Switched
    case VerifyPin(_) => next.Verify?
    case Verify(_) => next == Verified || next == Rollback(MasterVerifying)
    case Rollback(_) => next.RollWrite?
    case RollWrite(_, _) => next.RollCheck?
    case RollCheck(_, _) => false
    case Final => next == FinalDone || next == Rollback(FinalCheck)
    case OldGet(_, _) => next.OldDelete? || next == OldDone
    case OldDelete(_) => next == OldDone
    case DryDelete(_) => next == DryDone
    case _ => next == LoopTop
  }

  predicate StageFlowsTo(stage: Checkpoint, next: Pc) {
    match stage
    case Provisioning => next == LoopTop || next.Lookup?
    case Provisioned => next.Await?
    case CheckingIp => next == Rounds || next == Judged(Reachable)
    case TempCleanup => next.Reap? || next == Reaped
    case Deploying => next.Deploy?
    case NodeVerified => next == LoopTop || next == Preflight
    case MasterUpdating => next == LoopTop || next.SwitchPin?
    case MasterVerifying => next == LoopTop || next.VerifyPin?
    case FinalCheck => next == Final || next == FinalDone
    case OldVpsCleanup => next.OldGet? || next.DryDelete?
    case _ => next == LoopTop
  }

  predicate Flows(pc: Pc, next: Pc) {
    next == pc || next == Idle || next == Failing || FlowsTo(pc, next)
  }

  lemma EarlyStageFlows(v: View, env: Env, i: Input)
    requires v.run.pc.Enter? && Rank(v.run.pc.stage) <= 6
    ensures Flows(v.run.pc, AtStage(v, env, i).run.pc)
  {
    hide Allowed;
  }

  lemma LateStageFlows(v: View, env: Env, i: Input)
    requires v.run.pc.Enter? && Rank(v.run.pc.stage) > 6
    ensures Flows(v.run.pc, AtStage(v, env, i).run.pc)
  {
    hide Allowed, TargetFor, Marked, AtCreated, AtProvisioning, AtProvisioned, AtCheckingIp, AtTempCleanup, AtIpVerified,
      AtDeploying, AtOldVpsCleanup, AtNodeVerified;
    if v.run.pc.stage == NodeVerified {
      PreflightFlows(v, env, i);
    } else if v.run.pc.stage == OldVpsCleanup {
      CleanupFlows(v, env, i);
    }
  }

  lemma PreflightFlows(v: View, env: Env, i: Input)
    requires v.run.pc == Enter(NodeVerified)
    ensures Flows(v.run.pc, AtNodeVerified(v, env, i).run.pc)
  {
    hide Allowed;
  }

  lemma CleanupFlows(v: View, env: Env, i: Input)
    requires v.run.pc == Enter(OldVpsCleanup)
    ensures Flows(v.run.pc, AtOldVpsCleanup(v, env, i).run.pc)
  {
    hide GuardPermits;
  }

  lemma EarlyFlows(v: View, env: Env, i: Input)
    requires v.run.pc.Lookup? || v.run.pc.Mark? || v.run.pc.Create? || v.run.pc.Persist? || v.run.pc.Await? || v.run.pc == Gone
             || v.run.pc.Up? || v.run.pc == Boot || v.run.pc == Rounds || v.run.pc.Judged?
    ensures Flows(v.run.pc, Work(v, env, i).run.pc)
  {
    hide Allowed, Born, Registered, SetVps, Consensus.Verdict;
  }

  lemma MiddleFlows(v: View, env: Env, i: Input)
    requires v.run.pc.Reap? || v.run.pc.ReapGet? || v.run.pc.ReapDelete? || v.run.pc == Reaped || v.run.pc.Deploy?
             || v.run.pc == Preflight || v.run.pc.Shown? || v.run.pc == Tested
    ensures Flows(v.run.pc, Work(v, env, i).run.pc)
  {
    hide Allowed, Killed, Unlinked, Retried, Deployed, TargetFor, AtStage, AtLookup, AtCreate, AtPersist, AtOldDone, AtFailing,
      AtRollback, AtFinal, AtSwitch, AtVerify, AtRollWrite;
  }

  /** The places of the switch, its verification and the rollback. */
  predicate MasterPlace(pc: Pc) {
    || pc.SwitchPin? || pc.Switch? || pc == Switched || pc.VerifyPin? || pc.Verify? || pc == Verified
    || pc.Rollback? || pc.RollWrite? || pc.RollCheck?
  }

  lemma MasterFlows(v: View, env: Env, i: Input)
    requires MasterPlace(v.run.pc)
    ensures Flows(v.run.pc, Work(v, env, i).run.pc)
  {
    hide Allowed, Written, Verifies, FromSnapshot, Flag, Marked, Pinned;
  }

  /** The places of the old server's deletion. */
  predicate CleanupPlace(pc: Pc) { pc.OldGet? || pc.OldDelete? || pc == OldDone || pc.DryDelete? || pc == DryDone }

  lemma LastFlows(v: View, env: Env, i: Input)
    requires !v.run.pc.Enter? && !EarlyPlace(v.run.pc) && !MasterPlace(v.run.pc)
    requires !v.run.pc.Deploy? && v.run.pc != Preflight && !v.run.pc.Shown? && v.run.pc != Tested
    ensures Flows(v.run.pc, Work(v, env, i).run.pc)
  {
    hide Work, Flows;
    if CleanupPlace(v.run.pc) {
      DeletionFlows(v, env, i);
    } else {
      OtherFlows(v, env, i);
    }
  }

  lemma DeletionFlows(v: View, env: Env, i: Input)
    requires CleanupPlace(v.run.pc)
    ensures Flows(v.run.pc, Work(v, env, i).run.pc)
  {
    hide Work, AtOldDone, AtDryDone;
    if v.run.pc == OldDone || v.run.pc == DryDone {
      WorkAtPlace(v, env, i);
      LastCommitFlows(v, env, i);
    } else {
      LookFlows(v, env, i);
    }
  }

  lemma LastCommitFlows(v: View, env: Env, i: Input)
    ensures v.run.pc == OldDone ==> Flows(OldDone, AtOldDone(v, env, i).run.pc)
    ensures v.run.pc == DryDone ==> Flows(DryDone, AtDryDone(v, env, i).run.pc)
  {
    hide AtOldDone, AtDryDone, Flows;
    OldDoneFlows(v, env, i);
    DryDoneFlows(v, env, i);
  }

  lemma OldDoneFlows(v: View, env: Env, i: Input)
    ensures v.run.pc == OldDone ==> Flows(OldDone, AtOldDone(v, env, i).run.pc)
  {
    hide Commit, Replaced, CanTransition;
    if HasPanel(v) && v.job.oldVps in v.vps {
      CommitPlace(v, Replaced(v));
    }
  }

  lemma DryDoneFlows(v: View, env: Env, i: Input)
    ensures v.run.pc == DryDone ==> Flows(DryDone, AtDryDone(v, env, i).run.pc)
  {
    hide Commit, SetVps;
    if HasRow(v) {
      CommitPlace(v, SetVps(v, v.job.newVps.value, v.vps[v.job.newVps.value].(state := VpsDeleted)));
    }
  }

  predicate CommitEnds(v: View, after: View) {
    Commit(v, after, Completed).run.pc == LoopTop || Commit(v, after, Completed).run.pc == Failing
  }

  lemma CommitPlace(v: View, after: View)
    ensures CommitEnds(v, after)
  {
    hide Allowed;
  }

  lemma LookFlows(v: View, env: Env, i: Input)
    requires v.run.pc.OldGet? || v.run.pc.OldDelete? || v.run.pc.DryDelete?
    ensures Flows(v.run.pc, Work(v, env, i).run.pc)
  {
    hide Killed, AtStage, AtLookup, AtCreate, AtPersist, AtReaped, AtDeploy, AtShown, AtTested, AtSwitch, AtVerify,
      AtRollback, AtRollWrite, AtFailing, AtFinal, AtOldDone, AtDryDone;
    KilledStays(v);
  }

  lemma KilledStays(v: View)
    ensures forall k :: Killed(v, k).run == v.run
  {
  }

  lemma OtherFlows(v: View, env: Env, i: Input)
    requires v.run.pc == Idle || v.run.pc == LoopTop || v.run.pc == Failing || v.run.pc == Final || v.run.pc == FinalDone
    ensures Flows(v.run.pc, Work(v, env, i).run.pc)
  {
    hide Allowed, Ended, Marked, AtStage, AtLookup, AtCreate, AtPersist, AtReaped, AtDeploy, AtShown, AtTested, AtSwitch,
      AtVerify, AtRollback, AtRollWrite, AtOldGet, AtOldDelete, AtOldDone, AtDryDone;
  }

  /** Every step of a worker follows the flow. */
  lemma WorkFlows(v: View, env: Env, i: Input)
    ensures Flows(v.run.pc, Work(v, env, i).run.pc)
  {
    hide Work, Flows, Rank;
    if v.run.pc.Enter? {
      WorkAtStage(v, env, i);
      if Rank(v.run.pc.stage) <= 6 {
        EarlyStageFlows(v, env, i);
      } else {
        LateStageFlows(v, env, i);
      }
    } else if v.run.pc.Reap? || v.run.pc.ReapGet? || v.run.pc.ReapDelete? || v.run.pc == Reaped || v.run.pc.Deploy?
           || v.run.pc == Preflight || v.run.pc.Shown? || v.run.pc == Tested {
      MiddleFlows(v, env, i);
    } else if MasterPlace(v.run.pc) {
      MasterFlows(v, env, i);
    } else if EarlyPlace(v.run.pc) {
      EarlyFlows(v, env, i);
    } else {
      LastFlows(v, env, i);
    }
  }

  lemma WorkAtStage(v: View, env: Env, i: Input)
    requires v.run.pc.Enter?
    ensures Work(v, env, i) == AtStage(v, env, i)
  {
    hide AtStage;
  }

  lemma WorkAtPlace(v: View, env: Env, i: Input)
    ensures v.run.pc.Deploy? ==> Work(v, env, i) == AtDeploy(v, env, i)
    ensures v.run.pc == OldDone ==> Work(v, env, i) == AtOldDone(v, env, i)
    ensures v.run.pc == DryDone ==> Work(v, env, i) == AtDryDone(v, env, i)
    ensures v.run.pc == Failing ==> Work(v, env, i) == AtFailing(v)
  {
    hide AtDeploy, AtOldDone, AtDryDone, AtFailing;
  }

  lemma WorkAtRegistration(v: View, env: Env, i: Input)
    ensures v.run.pc.Persist? ==> Work(v, env, i) == AtPersist(v, env, i)
    ensures v.run.pc == Gone ==> Work(v, env, i) == AtGone(v, env, i)
    ensures v.run.pc.Up? ==> Work(v, env, i) == AtUp(v, env, i)
    ensures v.run.pc == Reaped ==> Work(v, env, i) == AtReaped(v, env, i)
  {
    hide AtPersist, AtGone, AtUp, AtReaped;
  }

  /** A call to the outside changes no row. */
  lemma CallsAreOutward(v: View, env: Env, i: Input)
    requires v.run.pc.Create? || v.run.pc.ReapDelete? || v.run.pc.Switch? || v.run.pc.RollWrite? || v.run.pc.OldDelete? || v.run.pc.DryDelete?
    ensures Outward(v, Work(v, env, i))
  {
    hide AtCreate, AtReapDelete, AtSwitch, AtRollWrite, AtOldDelete, AtDryDelete;
  }

  // ---- The steps that write ----

  lemma CreateTouches(v: View, env: Env, i: Input)
    requires Inv(v, env.clock) && v.run.pc.Create? && Plausible(v, env, i)
    ensures Touches(v, AtCreate(v, env, i))
  {
    Opened(v, env.clock);
  }

  lemma MovedTouches(v: View, w: View, pc: Pc)
    requires Touches(v, w)
    ensures Touches(v, Go(w, pc))
  {
  }

  lemma CommitTouches(v: View, w: View, target: Checkpoint)
    requires Touches(v, w)
    ensures Touches(v, Commit(v, w, target))
  {
    hide Touches, Allowed;
    UnmovedTouches(v);
    var r := Worker.Moved(w.job, target);
    if r.Success? {
      StampTouches(v, w, r.value);
      MovedTouches(v, w.(job := r.value), LoopTop);
    }
  }

  lemma StampTouches(v: View, w: View, j: Job)
    requires Touches(v, w) && j == w.job.(checkpoint := j.checkpoint, active := j.active, advances := j.advances)
    requires j.active ==> w.job.active
    ensures Touches(v, w.(job := j))
  {
  }

  lemma RegisteredTouches(v: View, k: ServerId, row: Vps)
    requires k !in v.vps && Owned(v.id, k, v.servers) && row.role == Replacement && row.node == v.job.node
    requires v.job.newVps.None?
    ensures Touches(v, Registered(v, k, row))
  {
  }

  lemma PersistTouches(v: View, env: Env, i: Input)
    requires Inv(v, env.clock) && v.run.pc.Persist?
    ensures Touches(v, AtPersist(v, env, i))
  {
    hide Commit, Registered, Touches;
    PersistFacts(v, env.clock);
    UnmovedTouches(v);
    if v.job.active {
      var pc := v.run.pc;
      var row := Vps(v.job.node, Replacement, pc.state, pc.ip);
      RegisteredTouches(v, pc.server, row);
      CommitTouches(v, Registered(v, pc.server, row), Provisioned);
    }
  }

  lemma UnmovedTouches(v: View)
    ensures Touches(v, v) && Touches(v, Leave(v)) && Touches(v, Fall(v))
  {
  }

  /** The candidate of a job that is not done is its own server, registered as a replacement. */
  lemma CandidateIsOwn(v: View, clock: nat)
    requires Inv(v, clock) && InStage(v.run.pc) && v.job.newVps.Some?
    ensures HasRow(v) && MayChange(v, v.job.newVps.value)
  {
    Opened(v, clock);
    JobFacts(v, clock);
  }

  lemma SetVpsTouches(v: View, row: Vps)
    requires HasRow(v) && MayChange(v, v.job.newVps.value) && row.node == v.vps[v.job.newVps.value].node
    ensures Touches(v, SetVps(v, v.job.newVps.value, row))
  {
  }

  lemma GoneTouches(v: View, env: Env, i: Input)
    requires Inv(v, env.clock) && v.run.pc == Gone
    ensures Touches(v, AtGone(v, env, i))
  {
    hide Commit, Touches, SetVps, MayChange;
    UnmovedTouches(v);
    if HasRow(v) {
      var k := v.job.newVps.value;
      var row := v.vps[k].(state := VpsDeleted);
      CandidateIsOwn(v, env.clock);
      SetVpsTouches(v, row);
      CommitTouches(v, SetVps(v, k, row), TempCleanup);
    }
  }

  lemma UpTouches(v: View, env: Env, i: Input)
    requires Inv(v, env.clock) && v.run.pc.Up?
    ensures Touches(v, AtUp(v, env, i))
  {
    hide Touches, SetVps, MayChange;
    UnmovedTouches(v);
    if HasRow(v) {
      var k := v.job.newVps.value;
      var row := v.vps[k].(state := VpsRunning, host := v.run.pc.ip);
      CandidateIsOwn(v, env.clock);
      SetVpsTouches(v, row);
      MovedTouches(v, SetVps(v, k, row), Boot);
    }
  }

  /** Changing the job's columns after a step that registered nothing. */
  lemma RelinkTouches(v: View, w: View, j: Job)
    requires Touches(v, w) && w.vps.Keys == v.vps.Keys && SameOrigin(v.job, j) && (j.active ==> v.job.active)
    requires HasRow(v) && j.newVps != v.job.newVps ==> w.vps[v.job.newVps.value].state == VpsDeleted
    ensures Touches(v, w.(job := j))
  {
  }

  lemma UnlinkedTouches(v: View)
    requires v.job.newVps.Some? ==> HasRow(v) && MayChange(v, v.job.newVps.value)
    ensures Touches(v, Unlinked(v)) && Unlinked(v).vps.Keys == v.vps.Keys
  {
    hide Touches, MayChange;
    if v.job.newVps.Some? {
      var row := v.vps[v.job.newVps.value].(state := VpsDeleted);
      SetVpsTouches(v, row);
      RelinkTouches(v, SetVps(v, v.job.newVps.value, row), Unlinked(v).job);
    } else {
      UnmovedTouches(v);
      RelinkTouches(v, v, Unlinked(v).job);
    }
  }

  lemma RetriedTouches(v: View)
    requires v.job.newVps.Some? ==> HasRow(v) && MayChange(v, v.job.newVps.value)
    ensures Touches(v, Retried(v))
  {
    hide Touches, MayChange, Unlinked;
    UnlinkedTouches(v);
    UnlinkedFacts(v);
    RelinkTouches(v, Unlinked(v), Retried(v).job);
  }

  lemma UnlinkedFacts(v: View)
    ensures SameOrigin(v.job, Unlinked(v).job) && Unlinked(v).job.active == v.job.active
    ensures HasRow(v) ==> v.job.newVps.value in Unlinked(v).vps && Unlinked(v).vps[v.job.newVps.value].state == VpsDeleted
  {
  }

  lemma ReapedTouches(v: View, env: Env, i: Input)
    requires Inv(v, env.clock) && v.run.pc == Reaped
    ensures Touches(v, AtReaped(v, env, i))
  {
    hide Commit, Touches, Unlinked, Retried, MayChange;
    UnmovedTouches(v);
    if v.job.newVps.Some? {
      CandidateIsOwn(v, env.clock);
    }
    UnlinkedTouches(v);
    RetriedTouches(v);
    CommitTouches(v, Retried(v), Provisioning);
    MovedTouches(v, Unlinked(v), Failing);
  }

  lemma DryDoneTouches(v: View, env: Env, i: Input)
    requires Inv(v, env.clock) && v.run.pc == DryDone
    ensures Touches(v, AtDryDone(v, env, i))
  {
    hide Commit, Touches, SetVps, MayChange;
    UnmovedTouches(v);
    if HasRow(v) {
      var k := v.job.newVps.value;
      var row := v.vps[k].(state := VpsDeleted);
      CandidateIsOwn(v, env.clock);
      SetVpsTouches(v, row);
      CommitTouches(v, SetVps(v, k, row), Completed);
    }
  }

  lemma KilledTouches(v: View, k: ServerId)
    requires MayChange(v, k)
    ensures Touches(v, Killed(v, k))
  {
  }

  lemma OldDeleteIsLive(v: View, clock: nat)
    requires Inv(v, clock) && (v.run.pc.OldDelete? || v.run.pc == OldDone)
    ensures Live(v.job) && v.job.checkpoint == OldVpsCleanup
  {
    assert Examined(v, v);
  }

  lemma ReplacedTouches(v: View)
    requires HasPanel(v) && v.job.oldVps in v.vps && Live(v.job) && MayChange(v, v.job.newVps.value)
    ensures Touches(v, Replaced(v))
  {
  }

  lemma OldDoneTouches(v: View, env: Env, i: Input)
    requires Inv(v, env.clock) && v.run.pc == OldDone
    ensures Touches(v, AtOldDone(v, env, i))
  {
    hide Commit, Touches, Replaced, MayChange;
    UnmovedTouches(v);
    if HasPanel(v) && v.job.oldVps in v.vps {
      OldDeleteIsLive(v, env.clock);
      CandidateIsOwn(v, env.clock);
      ReplacedTouches(v);
      CommitTouches(v, Replaced(v), Completed);
    }
  }

  /** A change of the node or the deployment alone. */
  lemma NodeTouches(v: View, d: Option<Deployment>, n: NodeRow)
    requires n != v.node ==> !v.job.dryRun
    ensures Touches(v, v.(deployment := d, node := n))
  {
  }

  lemma IpVerifiedTouches(v: View, env: Env, i: Input)
    requires Inv(v, env.clock) && v.run.pc == Enter(IpVerified)
    ensures Touches(v, AtIpVerified(v, env, i))
  {
    assert Examined(v, v);
  }

  lemma DeployedTouches(v: View, d: Deployment, seen: NodeState)
    ensures Touches(v, Deployed(v, d, seen))
  {
  }

  /** Only the closing commit of a deployment is left: it writes the checkpoint over whatever it finds. */
  predicate ClosingDeployment(v: View) {
    v.run.pc.Deploy? && HasDeployment(v) && v.deployment.value.state == DeploySucceeded
  }

  lemma DeployTouches(v: View, env: Env, i: Input)
    requires Inv(v, env.clock) && v.run.pc.Deploy?
    ensures Touches(v, AtDeploy(v, env, i))
  {
    hide Touches, Deployed, FailedDeployment, NextDeployState;
    UnmovedTouches(v);
    var w := AtDeploy(v, env, i);
    if ClosingDeployment(v) && i.Installed? {
      var d := v.deployment.value.(config := Some(i.config));
      DeployedTouches(v, d, v.run.pc.seen);
      MovedTouches(v, Deployed(v, d, v.run.pc.seen), LoopTop);
    } else {
      NodeTouches(v, w.deployment, v.node);
      MovedTouches(v, v.(deployment := w.deployment, node := v.node), w.run.pc);
    }
  }

  lemma WrittenTouches(v: View, m: Mutation, author: Author)
    requires !v.job.dryRun && (author == Switcher(v.id) || author == Reverter(v.id))
    ensures Touches(v, Written(v, m, author))
  {
  }

  lemma DeletionTouches(v: View, env: Env, i: Input)
    requires Inv(v, env.clock) && (v.run.pc.ReapDelete? || v.run.pc.OldDelete? || v.run.pc.DryDelete?)
    ensures Touches(v, Work(v, env, i))
  {
    hide Touches, Killed, MayChange;
    var k := v.run.pc.server;
    DeletesOnlyOwn(v, env.clock);
    KilledTouches(v, k);
    MovedTouches(v, Killed(v, k), Idle);
    MovedTouches(v, Killed(v, k), Failing);
    MovedTouches(v, Killed(v, k), Work(v, env, i).run.pc);
    UnmovedTouches(v);
    MovedTouches(v, v, Work(v, env, i).run.pc);
  }

  lemma DeletesOnlyOwn(v: View, clock: nat)
    requires Inv(v, clock) && (v.run.pc.ReapDelete? || v.run.pc.OldDelete? || v.run.pc.DryDelete?)
    ensures MayChange(v, v.run.pc.server)
  {
    Opened(v, clock);
    JobFacts(v, clock);
  }

  lemma MasterTouches(v: View, env: Env, i: Input)
    requires Inv(v, env.clock) && (v.run.pc.Switch? || v.run.pc.RollWrite?)
    ensures Touches(v, Work(v, env, i))
  {
    hide Work, Touches, Written;
    MasterStepsAreReal(v, env.clock);
    var author := if v.run.pc.Switch? then Switcher(v.id) else Reverter(v.id);
    var w := Written(v, v.run.pc.m, author);
    WrittenTouches(v, v.run.pc.m, author);
    MovedTouches(v, w, Work(v, env, i).run.pc);
    UnmovedTouches(v);
    MovedTouches(v, v, Work(v, env, i).run.pc);
    WriteLands(v, env, i);
  }

  /** A write lands or it does not; nothing else changes but the place of the worker. */
  lemma WriteLands(v: View, env: Env, i: Input)
    requires v.run.pc.Switch? || v.run.pc.RollWrite?
    ensures var w, pc := Work(v, env, i), Work(v, env, i).run.pc;
            w == Go(v, pc) || w == Go(Written(v, v.run.pc.m, if v.run.pc.Switch? then Switcher(v.id) else Reverter(v.id)), pc)
  {
    hide Overlay, AtStage, AtLookup, AtCreate, AtPersist, AtReaped, AtDeploy, AtOldDone, AtFailing, AtRollback, AtFinal;
  }

  lemma MasterStepsAreReal(v: View, clock: nat)
    requires Inv(v, clock) && (v.run.pc.Switch? || v.run.pc.RollWrite?)
    ensures !v.job.dryRun
  {
    assert Examined(v, v);
  }

  lemma EndedTouches(v: View, target: Checkpoint, clock: nat)
    requires RowsOk(v, clock) && !Terminal(v.job.checkpoint) && (target == Failed || target == Cancelled)
    ensures Touches(v, Ended(v, target))
  {
    hide Ended;
    EndingIsNeverRefused(v, target, clock);
  }

  lemma FailingTouches(v: View, clock: nat)
    requires Inv(v, clock) && v.run.pc == Failing
    ensures Touches(v, AtFailing(v))
  {
    hide Touches, Ended;
    Opened(v, clock);
    JobFacts(v, clock);
    UnmovedTouches(v);
    if !Terminal(v.job.checkpoint) {
      EndedTouches(v, Failed, clock);
      MovedTouches(v, Ended(v, Failed), Idle);
    }
  }

  /** Every step of a worker touches only what belongs to its job. */
  lemma WorkTouches(v: View, env: Env, i: Input)
    requires Inv(v, env.clock) && Plausible(v, env, i)
    ensures Touches(v, Work(v, env, i))
  {
    hide Touches, Plausible, AtStage, AtCreate, AtPersist, AtGone, AtUp, AtReapDelete, AtReaped, AtDeploy, AtSwitch,
      AtRollWrite, AtOldDelete, AtOldDone, AtDryDelete, AtDryDone, AtFailing;
    if !Loud(v.run.pc) {
      QuietWork(v, env, i);
      QuietTouches(v, Work(v, env, i));
    } else {
      LoudTouches(v, env, i);
    }
  }

  lemma LoudTouches(v: View, env: Env, i: Input)
    requires Inv(v, env.clock) && Plausible(v, env, i) && Loud(v.run.pc)
    ensures Touches(v, Work(v, env, i))
  {
    hide Touches, Plausible, AtCreate, AtPersist, AtGone, AtUp, AtReapDelete, AtReaped, AtIpVerified, AtDeploy, AtSwitch,
      AtRollWrite, AtOldDelete, AtOldDone, AtDryDelete, AtDryDone, AtFailing;
    match v.run.pc {
      case Create(_, _, _, _) => CreateTouches(v, env, i);
      case Persist(_, _, _) => PersistTouches(v, env, i);
      case Gone => GoneTouches(v, env, i);
      case Up(_) => UpTouches(v, env, i);
      case Reaped => ReapedTouches(v, env, i);
      case Enter(_) => IpVerifiedTouches(v, env, i);
      case Deploy(_) => DeployTouches(v, env, i);
      case OldDone => OldDoneTouches(v, env, i);
      case DryDone => DryDoneTouches(v, env, i);
      case Failing => FailingTouches(v, env.clock);
      case Switch(_) => MasterTouches(v, env, i);
      case RollWrite(_, _) => MasterTouches(v, env, i);
      case _ => DeletionTouches(v, env, i);
    }
  }

  lemma CancelTouches(v: View, clock: nat)
    requires Inv(v, clock)
    ensures Touches(v, Cancel(v))
  {
    hide Touches, Ended;
    Opened(v, clock);
    JobFacts(v, clock);
    UnmovedTouches(v);
    if !Terminal(v.job.checkpoint) {
      EndedTouches(v, Cancelled, clock);
    }
  }

  // ---- Steps that end nothing ----

  lemma LoudIsOngoing(v: View, env: Env, i: Input)
    requires Loud(v.run.pc) && v.run.pc != Failing && v.run.pc != OldDone && v.run.pc != DryDone
    ensures Ongoing(v, Work(v, env, i))
  {
    hide AtCreate, AtPersist, AtGone, AtUp, AtReapDelete, AtReaped, AtIpVerified, AtDeploy, AtSwitch, AtRollWrite,
      AtOldDelete, AtDryDelete;
  }

  // ---- Steps that leave the node alone ----

  lemma OthersKeepTheNode(v: View, env: Env, i: Input)
    requires !v.run.pc.Enter? && !v.run.pc.Deploy? && v.run.pc != OldDone && v.run.pc != Failing
    ensures Work(v, env, i).node == v.node
  {
    hide Work;
    if !Loud(v.run.pc) {
      QuietWork(v, env, i);
    } else {
      LoudKeepsTheNode(v, env, i);
    }
  }

  lemma LoudKeepsTheNode(v: View, env: Env, i: Input)
    requires Loud(v.run.pc) && !v.run.pc.Enter? && !v.run.pc.Deploy? && v.run.pc != OldDone && v.run.pc != Failing
    ensures Work(v, env, i).node == v.node
  {
    hide AtCreate, AtPersist, AtGone, AtUp, AtReapDelete, AtReaped, AtSwitch, AtRollWrite, AtOldDelete, AtDryDelete,
      AtDryDone;
  }
}
