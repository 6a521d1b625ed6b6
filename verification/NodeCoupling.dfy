/** A live job and its node: the state a checkpoint fixes, and why every step keeps to it. */
module NodeCoupling {
  import opened Types
  import opened CheckpointGraph
  import opened NodeLifecycle
  import opened MasterAlgebra
  import opened Worker
  import opened WorkerInvariant
  import opened WorkerEffects

  function NodeStateAt(c: Checkpoint): NodeState {
    if Rank(c) <= 5 then Replacing else if Rank(c) == 6 then NodeDeploying else Verifying
  }

  /** The node is where the checkpoint says, with the counters the job found. */
  predicate NodeOk(live: bool, c: Checkpoint, found: Found, n: NodeRow) {
    live ==> n.state == NodeStateAt(c) && n.failures == found.failures && n.successes == found.successes
  }

  /**
   A live job holds its node, an ended one is at an end, and a deployment session that is left with
   its closing commit belongs to an active job. A cancel in front of that commit breaks this.
   */
  predicate Coupled(v: View) {
    && NodeOk(Live(v.job), v.job.checkpoint, v.job.found, v.node)
    && (!v.job.active ==> Terminal(v.job.checkpoint))
    && (v.run.pc.Deploy? && Live(v.job) ==> v.run.pc.seen == NodeDeploying)
    && (ClosingDeployment(v) ==> v.job.active)
  }

  /**
   A live job that ends takes its node out of the workflow in the same commit, and nobody else touches it.
   */
  predicate LeavesCleanly(v: View, w: View) {
    && (Live(v.job) && !Live(w.job) ==> !InWorkflow(w.node.state))
    && (w.node != v.node ==> Live(v.job))
  }

  // ---- Ending without success ----

  /** An unsuccessful end gives the node back as it was found, or leaves it FAILED after a recorded switch. */
  lemma EndingRestores(v: View, target: Checkpoint, clock: nat)
    requires Inv(v, clock) && Live(v.job) && Coupled(v) && (target == Failed || target == Cancelled)
    ensures Ended(v, target).node ==
            v.node.(state := if v.job.masterUpdated then NodeFailed else v.job.found.state)
    ensures !InWorkflow(Ended(v, target).node.state)
  {
    Opened(v, clock);
    JobFacts(v, clock);
    EndingIsNeverRefused(v, target, clock);
  }

  lemma EndedCoupled(v: View, target: Checkpoint, clock: nat)
    requires Inv(v, clock) && Coupled(v) && v.job.active && (target == Failed || target == Cancelled)
    ensures !ClosingDeployment(v) ==> Coupled(Ended(v, target)) && LeavesCleanly(v, Ended(v, target))
    ensures Coupled(Leave(Ended(v, target))) && LeavesCleanly(v, Leave(Ended(v, target)))
  {
    hide Ended;
    Opened(v, clock);
    JobFacts(v, clock);
    EndingIsNeverRefused(v, target, clock);
    if Live(v.job) {
      EndingRestores(v, target, clock);
    }
  }

  // ---- Steps that leave the node alone ----

  /** The job is active or over: no cancel of it has been overwritten. */
  predicate Steady(v: View) { v.job.active || Terminal(v.job.checkpoint) }

  /** The checkpoint does not move past a boundary between node states. */
  predicate SameHold(v: View, w: View) {
    && w.node == v.node && w.job.active == v.job.active && w.job.dryRun == v.job.dryRun && w.job.found == v.job.found
    && NodeStateAt(w.job.checkpoint) == NodeStateAt(v.job.checkpoint)
    && (!v.job.active ==> w.job.checkpoint == v.job.checkpoint)
  }

  lemma HeldCoupled(v: View, w: View)
    requires Coupled(v) && SameHold(v, w) && (w.run.pc.Deploy? ==> w.job.active && w.run.pc.seen == v.node.state)
    requires w.run.pc.Deploy? ==> w.job.checkpoint == Deploying
    ensures Coupled(w) && LeavesCleanly(v, w)
  {
  }

  lemma QuietHold(v: View, env: Env, i: Input)
    requires Inv(v, env.clock) && Steady(v) && !Loud(v.run.pc) && Plausible(v, env, i) && Visible(v, env, i)
    ensures SameHold(v, Work(v, env, i))
  {
    hide Work, Plausible, Visible;
    var w := Work(v, env, i);
    QuietWork(v, env, i);
    WorkKeeps(v, env, i);
    Opened(v, env.clock);
    JobFacts(v, env.clock);
    Opened(w, env.clock);
    JobFacts(w, env.clock);
    if v.run.pc == Enter(Deploying) {
      DeployingMovesNothing(v, env, i);
    } else if InStage(v.run.pc) && v.job.active {
      MovesWithinNodeState(v.job.checkpoint, w.job.checkpoint);
    } else if !InStage(v.run.pc) {
      LoopMovesNothing(v, env, i);
    }
  }

  lemma MovesWithinNodeState(c: Checkpoint, target: Checkpoint)
    requires CanMove(c, target) && c != IpVerified && c != Deploying && !Terminal(target)
    ensures NodeStateAt(c) == NodeStateAt(target)
  {
  }

  lemma DeployingMovesNothing(v: View, env: Env, i: Input)
    requires v.run.pc == Enter(Deploying)
    ensures Work(v, env, i).job == v.job && Work(v, env, i).node == v.node
    ensures Work(v, env, i).run.pc.Deploy? ==> v.job.active && Work(v, env, i).run.pc == Deploy(v.node.state)
  {
  }

  lemma LoopMovesNothing(v: View, env: Env, i: Input)
    requires v.run.pc == Idle || v.run.pc == LoopTop
    ensures Work(v, env, i).job == v.job && !Work(v, env, i).run.pc.Deploy?
  {
  }

  /** A deployment is started only by its own stage. */
  lemma OthersDoNotDeploy(v: View, env: Env, i: Input)
    requires !Loud(v.run.pc) && v.run.pc != Enter(Deploying)
    ensures !Work(v, env, i).run.pc.Deploy?
  {
    hide Work;
    WorkFlows(v, env, i);
  }

  lemma QuietCoupled(v: View, env: Env, i: Input)
    requires Inv(v, env.clock) && Coupled(v) && !Loud(v.run.pc) && Plausible(v, env, i) && Visible(v, env, i)
    ensures Coupled(Work(v, env, i)) && LeavesCleanly(v, Work(v, env, i))
  {
    hide Work, Plausible, Visible;
    QuietHold(v, env, i);
    if v.run.pc == Enter(Deploying) {
      DeployingMovesNothing(v, env, i);
      if v.job.active {
        EnterFits(v, env.clock);
      }
    } else {
      OthersDoNotDeploy(v, env, i);
    }
    HeldCoupled(v, Work(v, env, i));
  }

  lemma EnterFits(v: View, clock: nat)
    requires Inv(v, clock) && v.run.pc.Enter? && v.job.active
    ensures v.job.checkpoint == v.run.pc.stage
  {
    Opened(v, clock);
  }

  // ---- Steps that write ----

  /**
   Of the steps that write but do not end the job only two move the node or the checkpoint over a boundary.
   */
  lemma LoudHold(v: View, env: Env, i: Input)
    requires Inv(v, env.clock) && Steady(v) && Loud(v.run.pc)
    requires !v.run.pc.Enter? && !v.run.pc.Deploy? && v.run.pc != OldDone && v.run.pc != DryDone && v.run.pc != Failing
    ensures SameHold(v, Work(v, env, i)) && !Work(v, env, i).run.pc.Deploy?
  {
    hide Work;
    if v.run.pc.Persist? || v.run.pc == Gone || v.run.pc.Up? || v.run.pc == Reaped {
      RegistrationHold(v, env, i);
    } else {
      OutsideHold(v, env, i);
    }
  }

  lemma OutsideHold(v: View, env: Env, i: Input)
    requires v.run.pc.Create? || v.run.pc.ReapDelete? || v.run.pc.Switch? || v.run.pc.RollWrite? || v.run.pc.OldDelete? || v.run.pc.DryDelete?
    ensures SameHold(v, Work(v, env, i)) && !Work(v, env, i).run.pc.Deploy?
  {
    hide Work;
    CallsAreOutward(v, env, i);
    WorkFlows(v, env, i);
  }

  lemma RegistrationHold(v: View, env: Env, i: Input)
    requires Inv(v, env.clock) && Steady(v) && (v.run.pc.Persist? || v.run.pc == Gone || v.run.pc.Up? || v.run.pc == Reaped)
    ensures SameHold(v, Work(v, env, i)) && !Work(v, env, i).run.pc.Deploy?
  {
    hide Work, AtPersist, AtGone, AtUp, AtReaped, SameHold;
    WorkAtRegistration(v, env, i);
    Opened(v, env.clock);
    EndedIsTerminal(v, env.clock);
    match v.run.pc {
      case Persist(_, _, _) => PersistHold(v, env, i);
      case Gone => GoneHold(v, env, i);
      case Up(_) => UpHold(v, env, i);
      case _ => ReapedHold(v, env, i);
    }
  }

  lemma EndedIsTerminal(v: View, clock: nat)
    requires Inv(v, clock) && Steady(v)
    ensures v.job.active <==> !Terminal(v.job.checkpoint)
  {
    Opened(v, clock);
    JobFacts(v, clock);
  }

  /** Ending a stage within one node state; on an ended job it is refused. */
  lemma CommitHold(v: View, after: View, target: Checkpoint)
    requires after.node == v.node && after.job.checkpoint == v.job.checkpoint && after.job.active == v.job.active
    requires after.job.dryRun == v.job.dryRun && after.job.found == v.job.found && !Terminal(target)
    requires if v.job.active then NodeStateAt(target) == NodeStateAt(v.job.checkpoint) else Terminal(v.job.checkpoint)
    ensures SameHold(v, Commit(v, after, target)) && !Commit(v, after, target).run.pc.Deploy?
  {
    hide Commit, SameHold, NodeStateAt, Leads;
    if v.job.active {
      OpenCommitHold(v, after, target);
    } else {
      EndedCommit(v, after, target);
      MovedHold(v);
    }
  }

  lemma OpenCommitHold(v: View, after: View, target: Checkpoint)
    requires after.node == v.node && after.job.checkpoint == v.job.checkpoint && after.job.active && v.job.active
    requires after.job.dryRun == v.job.dryRun && after.job.found == v.job.found && !Terminal(target)
    requires NodeStateAt(target) == NodeStateAt(v.job.checkpoint)
    ensures SameHold(v, Commit(v, after, target)) && !Commit(v, after, target).run.pc.Deploy?
  {
    hide Allowed, NodeStateAt, Terminal, Rank, SameHold;
    MovedHold(v);
    match Worker.Moved(after.job, target) {
      case Success(j) => StampHold(v, after, j, target);
      case Failure =>
    }
  }

  lemma StampHold(v: View, after: View, j: Job, target: Checkpoint)
    requires after.node == v.node && after.job.active && v.job.active
    requires after.job.dryRun == v.job.dryRun && after.job.found == v.job.found
    requires NodeStateAt(target) == NodeStateAt(v.job.checkpoint)
    requires j == after.job.(checkpoint := target, advances := j.advances)
    ensures SameHold(v, Go(after.(job := j), LoopTop))
  {
    hide NodeStateAt;
  }

  lemma EndedCommit(v: View, after: View, target: Checkpoint)
    requires Terminal(after.job.checkpoint) && !Terminal(target)
    ensures Commit(v, after, target) == Fall(v)
  {
    hide Leads;
  }

  lemma PersistHold(v: View, env: Env, i: Input)
    requires v.run.pc.Persist? && (if v.job.active then v.job.checkpoint == Provisioning else Terminal(v.job.checkpoint))
    ensures SameHold(v, AtPersist(v, env, i)) && !AtPersist(v, env, i).run.pc.Deploy?
  {
    hide Commit, SameHold, Registered;
    MovedHold(v);
    if i == Ok && Renews(v, env) {
      var pc := v.run.pc;
      var row :=
        if pc.server in v.vps then
          v.vps[pc.server].(state := pc.state, host := if pc.ip != "" then pc.ip else v.vps[pc.server].host)
        else Vps(v.job.node, Replacement, pc.state, pc.ip);
      RegisteredHold(v, pc.server, row);
    }
  }

  lemma RegisteredHold(v: View, k: ServerId, row: Vps)
    requires v.job.active && v.job.checkpoint == Provisioning
    ensures var w := Commit(v, Registered(v, k, row), Provisioned);
            SameHold(v, w) && !w.run.pc.Deploy?
  {
    hide Commit;
    CommitHold(v, Registered(v, k, row), Provisioned);
  }

  lemma MovedHold(v: View)
    ensures SameHold(v, v) && SameHold(v, Fall(v)) && !Fall(v).run.pc.Deploy?
  {
  }

  lemma GoneHold(v: View, env: Env, i: Input)
    requires v.run.pc == Gone && (if v.job.active then v.job.checkpoint == Provisioned else Terminal(v.job.checkpoint))
    ensures SameHold(v, AtGone(v, env, i)) && !AtGone(v, env, i).run.pc.Deploy?
  {
    hide Commit, SameHold;
    MovedHold(v);
    if HasRow(v) {
      var k := v.job.newVps.value;
      CommitHold(v, SetVps(v, k, v.vps[k].(state := VpsDeleted)), TempCleanup);
    }
  }

  lemma UpHold(v: View, env: Env, i: Input)
    requires v.run.pc.Up?
    ensures SameHold(v, AtUp(v, env, i)) && !AtUp(v, env, i).run.pc.Deploy?
  {
  }

  lemma ReapedHold(v: View, env: Env, i: Input)
    requires v.run.pc == Reaped && (if v.job.active then v.job.checkpoint == TempCleanup else Terminal(v.job.checkpoint))
    ensures SameHold(v, AtReaped(v, env, i)) && !AtReaped(v, env, i).run.pc.Deploy?
  {
    hide Commit, SameHold, Retried, Unlinked;
    MovedHold(v);
    UnlinkedHold(v);
    CommitHold(v, Retried(v), Provisioning);
  }

  lemma UnlinkedHold(v: View)
    ensures SameHold(v, Fall(Unlinked(v))) && !Fall(Unlinked(v)).run.pc.Deploy?
    ensures Retried(v).node == v.node && Retried(v).job.checkpoint == v.job.checkpoint && Retried(v).job.active == v.job.active
    ensures Retried(v).job.dryRun == v.job.dryRun && Retried(v).job.found == v.job.found
  {
  }

  lemma IpVerifiedCoupled(v: View, env: Env, i: Input)
    requires Inv(v, env.clock) && Coupled(v) && v.run.pc == Enter(IpVerified)
    ensures Coupled(AtIpVerified(v, env, i)) && LeavesCleanly(v, AtIpVerified(v, env, i))
  {
    Opened(v, env.clock);
    JobFacts(v, env.clock);
  }

  lemma DeployCoupled(v: View, env: Env, i: Input)
    requires Inv(v, env.clock) && Coupled(v) && v.run.pc.Deploy?
    ensures Coupled(AtDeploy(v, env, i)) && LeavesCleanly(v, AtDeploy(v, env, i))
  {
    hide Coupled, LeavesCleanly, AtDeploy;
    if v.job.active {
      DeployFits(v, env.clock);
      ActiveDeployCoupled(v, env, i);
    } else {
      EndedDeployCoupled(v, env, i);
    }
  }

  lemma ActiveDeployCoupled(v: View, env: Env, i: Input)
    requires v.job.active && v.job.checkpoint == Deploying && Coupled(v) && v.run.pc.Deploy?
    ensures Coupled(AtDeploy(v, env, i)) && LeavesCleanly(v, AtDeploy(v, env, i))
  {
  }

  /** On an ended job the closing commit is not due, and everything before it leaves the node alone. */
  lemma EndedDeployCoupled(v: View, env: Env, i: Input)
    requires !v.job.active && Coupled(v) && v.run.pc.Deploy?
    ensures Coupled(AtDeploy(v, env, i)) && LeavesCleanly(v, AtDeploy(v, env, i))
  {
    hide FailedDeployment, NextDeployState;
  }

  lemma OldDoneCoupled(v: View, env: Env, i: Input)
    requires Inv(v, env.clock) && Coupled(v) && v.run.pc == OldDone
    ensures Coupled(AtOldDone(v, env, i)) && LeavesCleanly(v, AtOldDone(v, env, i))
  {
    hide Commit, Coupled, LeavesCleanly, Replaced, CanTransition;
    OldDeleteIsLive(v, env.clock);
    StayedCoupled(v);
    if HasPanel(v) && v.job.oldVps in v.vps {
      PromotionCoupled(v);
    }
  }

  lemma StayedCoupled(v: View)
    requires Coupled(v) && v.run.pc == OldDone
    ensures LeavesCleanly(v, v) && Coupled(Fall(v)) && LeavesCleanly(v, Fall(v))
  {
  }

  lemma PromotionCoupled(v: View)
    requires Coupled(v) && v.run.pc == OldDone && Live(v.job) && v.job.checkpoint == OldVpsCleanup
    requires HasPanel(v) && v.job.oldVps in v.vps
    ensures var w := Commit(v, Replaced(v), Completed); Coupled(w) && LeavesCleanly(v, w)
  {
    hide Replaced;
    ReplacedShape(v);
  }

  lemma ReplacedShape(v: View)
    requires HasPanel(v) && v.job.oldVps in v.vps
    ensures Replaced(v).job == v.job.(oldDeleted := true) && Replaced(v).node.state == Healthy && Replaced(v).run == v.run
  {
  }

  lemma DryDoneCoupled(v: View, env: Env, i: Input)
    requires Inv(v, env.clock) && Coupled(v) && v.run.pc == DryDone
    ensures Coupled(AtDryDone(v, env, i)) && LeavesCleanly(v, AtDryDone(v, env, i))
  {
    hide SetVps;
    DryDoneIsDry(v, env.clock);
    if HasRow(v) {
      SetVpsShape(v, v.job.newVps.value, v.vps[v.job.newVps.value].(state := VpsDeleted));
    }
  }

  lemma SetVpsShape(v: View, k: ServerId, row: Vps)
    ensures SetVps(v, k, row) == v.(vps := SetVps(v, k, row).vps)
  {
  }

  lemma FailingCoupled(v: View, clock: nat)
    requires Inv(v, clock) && Coupled(v) && v.run.pc == Failing
    ensures Coupled(AtFailing(v)) && LeavesCleanly(v, AtFailing(v))
  {
    hide Ended;
    if v.job.active {
      Opened(v, clock);
      JobFacts(v, clock);
      EndedCoupled(v, Failed, clock);
    }
  }

  /** Every step of a worker keeps a coupled job coupled, and only a live job's step touches its node. */
  lemma WorkCoupled(v: View, env: Env, i: Input)
    requires Inv(v, env.clock) && Coupled(v) && Plausible(v, env, i) && Visible(v, env, i)
    ensures Coupled(Work(v, env, i)) && LeavesCleanly(v, Work(v, env, i))
  {
    hide Plausible, Visible, AtStage, AtCreate, AtPersist, AtGone, AtUp, AtReapDelete, AtReaped, AtIpVerified, AtDeploy, AtSwitch,
      AtRollWrite, AtOldDelete, AtOldDone, AtDryDelete, AtDryDone, AtFailing, Coupled, LeavesCleanly;
    if !Loud(v.run.pc) {
      QuietCoupled(v, env, i);
    } else {
      match v.run.pc {
        case Enter(_) => IpVerifiedCoupled(v, env, i); StageIs(v, env, i);
        case Deploy(_) => DeployCoupled(v, env, i);
        case OldDone => OldDoneCoupled(v, env, i);
        case DryDone => DryDoneCoupled(v, env, i);
        case Failing => FailingCoupled(v, env.clock);
        case _ => LoudCoupled(v, env, i);
      }
    }
  }

  lemma LoudCoupled(v: View, env: Env, i: Input)
    requires Inv(v, env.clock) && Coupled(v) && Loud(v.run.pc)
    requires !v.run.pc.Enter? && !v.run.pc.Deploy? && v.run.pc != OldDone && v.run.pc != DryDone && v.run.pc != Failing
    ensures Coupled(Work(v, env, i)) && LeavesCleanly(v, Work(v, env, i))
  {
    hide Work;
    LoudHold(v, env, i);
    HeldCoupled(v, Work(v, env, i));
  }

  lemma StageIs(v: View, env: Env, i: Input)
    requires v.run.pc == Enter(IpVerified)
    ensures Work(v, env, i) == AtIpVerified(v, env, i)
  {
    hide AtIpVerified;
  }

  // ---- Cancels, leases and crashes ----

  /** A cancel keeps the coupling unless the closing commit of a deployment is due. */
  lemma CancelCoupled(v: View, clock: nat)
    requires Inv(v, clock) && Coupled(v) && !ClosingDeployment(v)
    ensures Coupled(Cancel(v)) && LeavesCleanly(v, Cancel(v))
  {
    hide Ended;
    if v.job.active {
      EndedCoupled(v, Cancelled, clock);
    }
  }

  lemma AcquireCoupled(v: View)
    requires Coupled(v)
    ensures Coupled(Acquire(v)) && LeavesCleanly(v, Acquire(v))
    ensures Coupled(Crash(v)) && LeavesCleanly(v, Crash(v))
  {
  }

  // ---- Whatever cancels come: the node of a live job can still become HEALTHY ----

  /** States that stand in the way of the final commit of a job at checkpoint c. */
  predicate Promotable(c: Checkpoint, s: NodeState) {
    && s != Disabled && (Rank(c) >= 6 ==> s != Replacing) && (Rank(c) >= 7 ==> s != NodeDeploying)
  }

  /**
   What is true of a live job's node even after cancels of other jobs have been overwritten: it is in
   no state the job has passed, and a deployment session that was opened on DEPLOYING will leave it.
   */
  predicate Unobstructed(v: View) {
    Live(v.job) ==>
      && Promotable(v.job.checkpoint, v.node.state)
      && (v.run.pc.Deploy? && v.node.state == NodeDeploying ==> v.run.pc.seen == NodeDeploying)
  }

  /** A step that at most gives the node back, or moves it to VERIFYING. */
  predicate Yields(s: NodeState, t: NodeState) {
    t == s || t == Verifying || Restorable(t)
  }

  lemma HeldUnobstructed(v: View, w: View)
    requires Unobstructed(v) && SameHold(v, w) && (w.run.pc.Deploy? ==> w.run.pc.seen == v.node.state)
    ensures Unobstructed(w)
  {
  }

  lemma QuietUnobstructed(v: View, env: Env, i: Input)
    requires Inv(v, env.clock) && v.job.active && Unobstructed(v) && !Loud(v.run.pc) && Plausible(v, env, i) && Visible(v, env, i)
    ensures Unobstructed(Work(v, env, i))
  {
    hide Work, Plausible, Visible;
    QuietHold(v, env, i);
    if v.run.pc == Enter(Deploying) {
      DeployingMovesNothing(v, env, i);
    } else {
      OthersDoNotDeploy(v, env, i);
    }
    HeldUnobstructed(v, Work(v, env, i));
  }

  lemma LoudUnobstructed(v: View, env: Env, i: Input)
    requires Inv(v, env.clock) && v.job.active && Unobstructed(v) && Loud(v.run.pc)
    requires !v.run.pc.Enter? && !v.run.pc.Deploy? && v.run.pc != OldDone && v.run.pc != DryDone && v.run.pc != Failing
    ensures Unobstructed(Work(v, env, i))
  {
    hide Work;
    LoudHold(v, env, i);
    HeldUnobstructed(v, Work(v, env, i));
  }

  /** The two commits that take a node out of REPLACING and DEPLOYING do so whatever its state. */
  lemma IpVerifiedUnobstructed(v: View, env: Env, i: Input)
    requires Inv(v, env.clock) && v.job.active && Unobstructed(v) && v.run.pc == Enter(IpVerified)
    ensures Unobstructed(AtIpVerified(v, env, i))
  {
    EnterFits(v, env.clock);
  }

  lemma DeployUnobstructed(v: View, env: Env, i: Input)
    requires v.job.active && Unobstructed(v) && v.run.pc.Deploy? && v.job.checkpoint == Deploying
    ensures Unobstructed(AtDeploy(v, env, i))
  {
    hide FailedDeployment, NextDeployState;
  }

  lemma DeployFits(v: View, clock: nat)
    requires Inv(v, clock) && v.run.pc.Deploy? && v.job.active
    ensures v.job.checkpoint == Deploying
  {
    Opened(v, clock);
  }

  lemma OldDoneUnobstructed(v: View, env: Env, i: Input)
    requires Inv(v, env.clock) && Unobstructed(v) && v.run.pc == OldDone
    ensures Unobstructed(AtOldDone(v, env, i))
  {
    hide Replaced, CanTransition, Unobstructed;
    OldDeleteIsLive(v, env.clock);
    Opened(v, env.clock);
    ReplacedRows(v, env.clock);
    ReplacedJob(v);
    EndedUnobstructed(v);
  }

  /** Giving up changes nothing, and a job that is over or a dry run has no node to promote. */
  lemma EndedUnobstructed(v: View)
    ensures Unobstructed(v) ==> Unobstructed(Fall(v)) && Unobstructed(Leave(v))
    ensures !Live(v.job) ==> Unobstructed(v)
    ensures forall w: View :: !w.job.active ==> Unobstructed(w)
  {
  }

  lemma DryDoneUnobstructed(v: View, env: Env, i: Input)
    requires Inv(v, env.clock) && v.run.pc == DryDone
    ensures Unobstructed(AtDryDone(v, env, i))
  {
    hide Commit, SetVps;
    assert v.job.dryRun by { DryDoneIsDry(v, env.clock); }
    assert SameOrigin(v.job, AtDryDone(v, env, i).job) by { DryDoneTouches(v, env, i); }
  }

  lemma DryDoneIsDry(v: View, clock: nat)
    requires Inv(v, clock) && v.run.pc == DryDone
    ensures v.job.dryRun
  {
    Opened(v, clock);
  }

  lemma FailingUnobstructed(v: View, clock: nat)
    requires Inv(v, clock) && v.job.active && v.run.pc == Failing
    ensures Unobstructed(AtFailing(v))
  {
    hide Ended;
    Opened(v, clock);
    JobFacts(v, clock);
    EndingIsNeverRefused(v, Failed, clock);
  }

  /** The steps of an active job keep its own way open. */
  lemma WorkUnobstructed(v: View, env: Env, i: Input)
    requires Inv(v, env.clock) && v.job.active && Unobstructed(v) && Plausible(v, env, i) && Visible(v, env, i)
    ensures Unobstructed(Work(v, env, i))
  {
    hide Plausible, Visible, AtStage, AtCreate, AtPersist, AtGone, AtUp, AtReapDelete, AtReaped, AtIpVerified, AtDeploy, AtSwitch,
      AtRollWrite, AtOldDelete, AtOldDone, AtDryDelete, AtDryDone, AtFailing, Unobstructed;
    if !Loud(v.run.pc) {
      QuietUnobstructed(v, env, i);
    } else {
      match v.run.pc {
        case Enter(_) => IpVerifiedUnobstructed(v, env, i); StageIs(v, env, i);
        case Deploy(_) => DeployFits(v, env.clock); DeployUnobstructed(v, env, i);
        case OldDone => OldDoneUnobstructed(v, env, i);
        case DryDone => DryDoneUnobstructed(v, env, i);
        case Failing => FailingUnobstructed(v, env.clock);
        case _ => LoudUnobstructed(v, env, i);
      }
    }
  }

  /** What is left of an ended job's worker can at most give the node back or move it to VERIFYING. */
  lemma EndedYields(v: View, env: Env, i: Input)
    requires Inv(v, env.clock) && !v.job.active
    ensures Yields(v.node.state, Work(v, env, i).node.state)
  {
    hide Work, AtStage, AtIpVerified, AtDeploy, AtOldDone, AtFailing, Yields;
    WorkAtPlace(v, env, i);
    SameYields(v);
    match v.run.pc {
      case Enter(_) =>
        if v.run.pc.stage == IpVerified {
          StageIs(v, env, i);
          ClosingYields(v, env, i);
        } else {
          QuietWork(v, env, i);
        }
      case Deploy(_) => ClosingYields(v, env, i);
      case OldDone => OldDeleteIsLive(v, env.clock);
      case Failing => FailingYields(v, env.clock);
      case _ => OthersKeepTheNode(v, env, i);
    }
  }

  lemma SameYields(v: View)
    ensures Yields(v.node.state, v.node.state)
  {
  }

  lemma ClosingYields(v: View, env: Env, i: Input)
    requires Inv(v, env.clock) && !v.job.active
    ensures v.run.pc == Enter(IpVerified) ==> Yields(v.node.state, AtIpVerified(v, env, i).node.state)
    ensures v.run.pc.Deploy? ==> Yields(v.node.state, AtDeploy(v, env, i).node.state)
  {
    hide AtIpVerified, AtDeploy, Yields;
    if v.run.pc == Enter(IpVerified) {
      EndedIpVerified(v, env.clock);
      RefusedYields(v, env, i);
    } else if v.run.pc.Deploy? {
      SessionYields(v, env, i);
    }
  }

  lemma EndedIpVerified(v: View, clock: nat)
    requires Inv(v, clock) && !v.job.active && v.run.pc == Enter(IpVerified)
    ensures Terminal(v.job.checkpoint)
  {
    Opened(v, clock);
    JobFacts(v, clock);
  }

  lemma RefusedYields(v: View, env: Env, i: Input)
    requires Terminal(v.job.checkpoint)
    ensures AtIpVerified(v, env, i).node == v.node && Yields(v.node.state, v.node.state)
  {
  }

  lemma SessionYields(v: View, env: Env, i: Input)
    requires v.run.pc.Deploy?
    ensures Yields(v.node.state, AtDeploy(v, env, i).node.state)
  {
    hide FailedDeployment, NextDeployState;
  }

  lemma EndingYields(v: View, target: Checkpoint, clock: nat)
    requires Inv(v, clock) && !Terminal(v.job.checkpoint) && (target == Failed || target == Cancelled)
    ensures Yields(v.node.state, Ended(v, target).node.state)
  {
    hide Ended;
    Opened(v, clock);
    JobFacts(v, clock);
    EndingIsNeverRefused(v, target, clock);
  }

  lemma FailingYields(v: View, clock: nat)
    requires Inv(v, clock) && v.run.pc == Failing
    ensures Yields(v.node.state, AtFailing(v).node.state)
  {
    hide Ended;
    if !Terminal(v.job.checkpoint) {
      EndingYields(v, Failed, clock);
    }
  }

  lemma CancelUnobstructed(v: View, clock: nat)
    requires Inv(v, clock) && Unobstructed(v)
    ensures Unobstructed(Cancel(v)) && Yields(v.node.state, Cancel(v).node.state)
  {
    hide Ended;
    Opened(v, clock);
    JobFacts(v, clock);
    if !Terminal(v.job.checkpoint) {
      EndingYields(v, Cancelled, clock);
      EndingIsNeverRefused(v, Cancelled, clock);
    }
  }

  lemma AcquireUnobstructed(v: View)
    requires Unobstructed(v)
    ensures Unobstructed(Acquire(v)) && Unobstructed(Crash(v))
  {
  }

  /** So the final commit is never refused for the node's state. */
  lemma FinalCommitIsOpen(v: View)
    requires Unobstructed(v) && Live(v.job) && v.job.checkpoint == OldVpsCleanup
    ensures CanTransition(v.node.state, Healthy)
  {
  }
}
