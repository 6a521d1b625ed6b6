/**
 How many temporary servers the registry can hold at once, although the count is read long before a create.
 */
module Capacity {
  import opened Types
  import opened CheckpointGraph
  import opened MasterAlgebra
  import opened Worker
  import opened WorkerInvariant
  import opened WorkerEffects
  import opened Fleet
  import opened FleetInvariant
  import opened FleetTheorems
  import JobGuarantees

  /** The job's candidate is registered and not deleted. */
  predicate Holds(v: View) {
    v.job.newVps.Some? && v.job.newVps.value in v.vps && OpenRow(v.vps[v.job.newVps.value])
  }

  ghost predicate HasServer(id: JobId, attempt: nat, servers: map<ServerId, Server>) {
    exists k :: NamedFor(id, attempt, k, servers)
  }

  /** A worker has read a count below the limit, and the create it allows may still come. */
  predicate HasLeave(pc: Pc, limit: nat) {
    match pc
    case Lookup(_, _, temps, _, _) => temps < limit
    case Mark(temps, _, _) => temps < limit
    case Create(temps, _, _, _) => temps < limit
    case _ => false
  }

  /** An active job that can still register an undeleted candidate without asking the limit again. */
  ghost predicate Licensed(v: View, limit: nat) {
    && v.job.active && !Holds(v)
    && (v.job.checkpoint == Provisioned
        || (v.job.checkpoint == Provisioning
            && (HasLeave(v.run.pc, limit) || HasServer(v.id, v.job.attempt, v.servers))))
  }

  ghost predicate Burdens(v: View, limit: nat) { Holds(v) || Licensed(v, limit) }

  /** A worker enters provisioning having read a count below the limit. */
  predicate TakesLeave(v: View, w: View, env: Env) {
    v.run.pc == Enter(Provisioning) && env.temps < env.cfg.maxTemporary && w.job.active
  }

  lemma NoServerYet(v: View, attempt: nat, clock: nat)
    requires RowsOk(v, clock) && attempt > v.job.attempt
    ensures !HasServer(v.id, attempt, v.servers)
  {
    NamesFacts(v, clock);
  }

  lemma QuietBurden(v: View, env: Env, i: Input)
    requires Inv(v, env.clock) && Plausible(v, env, i) && !Loud(v.run.pc) && Burdens(Work(v, env, i), env.cfg.maxTemporary)
    ensures Burdens(v, env.cfg.maxTemporary) || TakesLeave(v, Work(v, env, i), env)
  {
    hide Work, Plausible, Burdens;
    QuietWork(v, env, i);
    if v.run.pc.Enter? {
      StageBurden(v, env, i);
    } else {
      PlaceBurden(v, env, i);
    }
  }

  lemma StageBurden(v: View, env: Env, i: Input)
    requires Inv(v, env.clock) && v.run.pc.Enter? && v.run.pc.stage != IpVerified
    requires Quiet(v, Work(v, env, i)) && Burdens(Work(v, env, i), env.cfg.maxTemporary)
    ensures Burdens(v, env.cfg.maxTemporary) || TakesLeave(v, Work(v, env, i), env)
  {
    hide AtProvisioned, AtCheckingIp, AtDeploying, AtNodeVerified, AtMasterUpdating, AtMasterUpdated, AtMasterVerifying,
      AtMasterVerified, AtFinalCheck, AtFinalVerified, AtOldVpsCleanup;
    WorkerInvariant.Opened(v, env.clock);
    JobFacts(v, env.clock);
    if v.job.attempt == 0 {
      NoServerYet(v, 1, env.clock);
    }
  }

  lemma PlaceBurden(v: View, env: Env, i: Input)
    requires Inv(v, env.clock) && Plausible(v, env, i) && !Loud(v.run.pc) && !v.run.pc.Enter?
    requires Quiet(v, Work(v, env, i)) && Burdens(Work(v, env, i), env.cfg.maxTemporary)
    ensures Burdens(v, env.cfg.maxTemporary)
  {
    hide Work, Plausible, Burdens;
    if v.run.pc.Lookup? || v.run.pc.Mark? {
      LookupBurden(v, env, i);
    } else {
      IdleBurden(v, env, i);
    }
  }

  lemma LookupBurden(v: View, env: Env, i: Input)
    requires Inv(v, env.clock) && Plausible(v, env, i) && (v.run.pc.Lookup? || v.run.pc.Mark?)
    requires Quiet(v, Work(v, env, i)) && Burdens(Work(v, env, i), env.cfg.maxTemporary)
    ensures Burdens(v, env.cfg.maxTemporary)
  {
    WorkerInvariant.Opened(v, env.clock);
    JobFacts(v, env.clock);
  }

  lemma IdleBurden(v: View, env: Env, i: Input)
    requires Inv(v, env.clock) && !Loud(v.run.pc) && !v.run.pc.Enter? && !v.run.pc.Lookup? && !v.run.pc.Mark?
    requires Quiet(v, Work(v, env, i)) && Burdens(Work(v, env, i), env.cfg.maxTemporary)
    ensures Burdens(v, env.cfg.maxTemporary)
  {
    hide Work, Burdens;
    if v.run.pc == Idle || v.run.pc == LoopTop || v.run.pc.Reap? || v.run.pc.ReapGet? {
      StillBurden(v, env, i);
    } else {
      OtherBurden(v, env, i);
    }
  }

  /** Steps that leave the job as it is. */
  lemma StillBurden(v: View, env: Env, i: Input)
    requires v.run.pc == Idle || v.run.pc == LoopTop || v.run.pc.Reap? || v.run.pc.ReapGet?
    requires Quiet(v, Work(v, env, i)) && Burdens(Work(v, env, i), env.cfg.maxTemporary)
    ensures Burdens(v, env.cfg.maxTemporary)
  {
  }

  lemma OtherBurden(v: View, env: Env, i: Input)
    requires Inv(v, env.clock) && !Loud(v.run.pc) && InStage(v.run.pc) && !v.run.pc.Enter? && !v.run.pc.Lookup? && !v.run.pc.Mark?
    requires !v.run.pc.Reap? && !v.run.pc.ReapGet?
    requires Quiet(v, Work(v, env, i)) && Burdens(Work(v, env, i), env.cfg.maxTemporary)
    ensures Burdens(v, env.cfg.maxTemporary)
  {
    hide Work;
    WorkerInvariant.Opened(v, env.clock);
    OtherPlaces(v.run.pc);
    MovesToProvisioning(v.job.checkpoint, Work(v, env, i).job.checkpoint);
  }

  lemma OtherPlaces(pc: Pc)
    requires !Loud(pc) && InStage(pc) && !pc.Enter? && !pc.Lookup? && !pc.Mark? && !pc.Reap? && !pc.ReapGet?
    requires pc.Rollback? || pc.RollCheck? ==> RollbackStage(StageOf(pc))
    ensures StageOf(pc) != Created && StageOf(pc) != Provisioning && StageOf(pc) != TempCleanup
  {
  }

  lemma MovesToProvisioning(c: Checkpoint, target: Checkpoint)
    requires CanMove(c, target)
    ensures target == Provisioning ==> c == Provisioning || c == Created || c == TempCleanup
    ensures target == Provisioned ==> c == Provisioned || c == Provisioning
  {
  }

  /**
   A create allowed by the policy was licensed by its count; what it makes keeps the license until it is
   registered.
   */
  lemma CreateBurden(v: View, env: Env, i: Input)
    requires Inv(v, env.clock) && v.run.pc.Create? && Plausible(v, env, i)
    requires Burdens(AtCreate(v, env, i), env.cfg.maxTemporary)
    ensures Burdens(v, env.cfg.maxTemporary)
  {
    WorkerInvariant.Opened(v, env.clock);
    JobFacts(v, env.clock);
  }

  lemma PersistBurden(v: View, env: Env, i: Input)
    requires Inv(v, env.clock) && v.run.pc.Persist? && Burdens(AtPersist(v, env, i), env.cfg.maxTemporary)
    ensures Burdens(v, env.cfg.maxTemporary)
  {
    WorkerInvariant.Opened(v, env.clock);
    JobFacts(v, env.clock);
  }

  lemma CandidateBurden(v: View, env: Env, i: Input)
    requires Inv(v, env.clock) && (v.run.pc == Gone || v.run.pc.Up? || v.run.pc == DryDone)
    requires Burdens(Work(v, env, i), env.cfg.maxTemporary)
    ensures Burdens(v, env.cfg.maxTemporary)
  {
    hide Work, Burdens, AtGone, AtUp, AtDryDone;
    WorkAtRegistration(v, env, i);
    WorkAtPlace(v, env, i);
    if v.run.pc == Gone {
      GoneBurden(v, env, i);
    } else if v.run.pc.Up? {
      UpBurden(v, env, i);
    } else {
      DryDoneBurden(v, env, i);
    }
  }

  lemma GoneBurden(v: View, env: Env, i: Input)
    requires Inv(v, env.clock) && v.run.pc == Gone && Burdens(AtGone(v, env, i), env.cfg.maxTemporary)
    ensures Burdens(v, env.cfg.maxTemporary)
  {
    WorkerInvariant.Opened(v, env.clock);
    JobFacts(v, env.clock);
  }

  lemma UpBurden(v: View, env: Env, i: Input)
    requires Inv(v, env.clock) && v.run.pc.Up? && Burdens(AtUp(v, env, i), env.cfg.maxTemporary)
    ensures Burdens(v, env.cfg.maxTemporary)
  {
    WorkerInvariant.Opened(v, env.clock);
    JobFacts(v, env.clock);
  }

  lemma DryDoneBurden(v: View, env: Env, i: Input)
    requires Inv(v, env.clock) && v.run.pc == DryDone && Burdens(AtDryDone(v, env, i), env.cfg.maxTemporary)
    ensures Burdens(v, env.cfg.maxTemporary)
  {
    WorkerInvariant.Opened(v, env.clock);
    JobFacts(v, env.clock);
  }

  /** An unlinked candidate is deleted, and the next attempt has no server yet. */
  lemma UnlinkedIsLight(v: View, limit: nat, clock: nat)
    requires RowsOk(v, clock) && (v.job.active ==> v.job.checkpoint == TempCleanup)
    ensures !Burdens(Fall(Unlinked(v)), limit)
    ensures v.job.active ==> !Burdens(Go(Done(Retried(v), Provisioning), LoopTop), limit)
  {
    NoServerYet(v, v.job.attempt + 1, clock);
  }

  lemma ReapedBurden(v: View, env: Env, i: Input)
    requires Inv(v, env.clock) && v.run.pc == Reaped && Burdens(AtReaped(v, env, i), env.cfg.maxTemporary)
    ensures Burdens(v, env.cfg.maxTemporary)
  {
    hide Unlinked, Retried, Burdens, LocalsOk;
    WorkerInvariant.Opened(v, env.clock);
    JobFacts(v, env.clock);
    UnlinkedIsLight(v, env.cfg.maxTemporary, env.clock);
    ReapedOutcomes(v, env, i);
    SameBurdenElsewhere(v, env.cfg.maxTemporary);
  }

  lemma ReapedOutcomes(v: View, env: Env, i: Input)
    requires v.run.pc == Reaped && (v.job.active ==> v.job.checkpoint == TempCleanup) && (!v.job.active ==> v.job.checkpoint == Cancelled)
    ensures var w := AtReaped(v, env, i);
            w == v || w == Fall(v) || w == Fall(Unlinked(v)) || (v.job.active && w == Go(Done(Retried(v), Provisioning), LoopTop))
  {
  }

  lemma SameBurdenElsewhere(v: View, limit: nat)
    ensures Burdens(Fall(v), limit) ==> Burdens(v, limit)
  {
  }

  lemma OldDoneBurden(v: View, env: Env, i: Input)
    requires Inv(v, env.clock) && v.run.pc == OldDone && Burdens(AtOldDone(v, env, i), env.cfg.maxTemporary)
    ensures Burdens(v, env.cfg.maxTemporary)
  {
    hide Burdens, Replaced, Commit;
    OldDeleteIsLive(v, env.clock);
    SameBurdenElsewhere(v, env.cfg.maxTemporary);
    if HasPanel(v) && v.job.oldVps in v.vps {
      ReplacedIsLight(v, env.cfg.maxTemporary);
    }
  }

  /** A promoted server is no temporary one any more. */
  lemma ReplacedIsLight(v: View, limit: nat)
    requires HasPanel(v) && v.job.oldVps in v.vps && v.job.active && v.job.checkpoint == OldVpsCleanup
    ensures !Burdens(Commit(v, Replaced(v), Completed), limit)
  {
    hide Promoted;
  }

  /** Steps that touch neither the candidate nor the registry. */
  lemma AsideBurden(v: View, w: View, limit: nat)
    requires Burdens(w, limit) && w.vps == v.vps && w.job.newVps == v.job.newVps
    requires w.job.active ==> v.job.active && w.job.checkpoint != Provisioning && w.job.checkpoint != Provisioned
    ensures Burdens(v, limit)
  {
  }

  lemma DeletionBurden(v: View, env: Env, i: Input)
    requires Inv(v, env.clock) && Burdens(Work(v, env, i), env.cfg.maxTemporary)
    requires v.run.pc.ReapDelete? || v.run.pc.OldDelete? || v.run.pc.DryDelete?
    ensures Burdens(v, env.cfg.maxTemporary)
  {
    hide Burdens, AtReapDelete, AtOldDelete, AtDryDelete, AtSwitch, AtRollWrite, AtIpVerified;
    WorkerInvariant.Opened(v, env.clock);
    JobFacts(v, env.clock);
    AsideBurden(v, Work(v, env, i), env.cfg.maxTemporary);
  }

  lemma MasterBurden(v: View, env: Env, i: Input)
    requires Inv(v, env.clock) && Burdens(Work(v, env, i), env.cfg.maxTemporary)
    requires v.run.pc.Switch? || v.run.pc.RollWrite?
    ensures Burdens(v, env.cfg.maxTemporary)
  {
    hide Burdens, AtReapDelete, AtOldDelete, AtDryDelete, AtSwitch, AtRollWrite, AtIpVerified;
    WorkerInvariant.Opened(v, env.clock);
    JobFacts(v, env.clock);
    AsideBurden(v, Work(v, env, i), env.cfg.maxTemporary);
  }

  lemma DeploymentBurden(v: View, env: Env, i: Input)
    requires Inv(v, env.clock) && Burdens(Work(v, env, i), env.cfg.maxTemporary)
    requires v.run.pc == Enter(IpVerified) || v.run.pc.Deploy?
    ensures Burdens(v, env.cfg.maxTemporary)
  {
    hide Burdens, AtIpVerified, AtDeploy;
    WorkerInvariant.Opened(v, env.clock);
    JobFacts(v, env.clock);
    if v.run.pc.Deploy? {
      JobGuarantees.DeployTarget(v, env, i);
    } else {
      JobGuarantees.IpVerifiedTarget(v, env, i);
    }
    AsideBurden(v, Work(v, env, i), env.cfg.maxTemporary);
  }

  lemma FailingBurden(v: View, clock: nat, limit: nat)
    requires Inv(v, clock) && v.run.pc == Failing && Burdens(AtFailing(v), limit)
    ensures Burdens(v, limit)
  {
    hide Ended;
    WorkerInvariant.Opened(v, clock);
    JobFacts(v, clock);
    if !Terminal(v.job.checkpoint) {
      EndingIsNeverRefused(v, Failed, clock);
    }
  }

  /** A job starts to count only by reading a free place. */
  lemma BurdensOnlyByLeave(v: View, env: Env, i: Input)
    requires Inv(v, env.clock) && Plausible(v, env, i) && Burdens(Work(v, env, i), env.cfg.maxTemporary)
    ensures Burdens(v, env.cfg.maxTemporary) || TakesLeave(v, Work(v, env, i), env)
  {
    hide Plausible, AtStage, AtCreate, AtPersist, AtGone, AtUp, AtReapDelete, AtReaped, AtDeploy, AtSwitch, AtRollWrite,
      AtOldDelete, AtOldDone, AtDryDelete, AtDryDone, AtFailing, Burdens;
    if !Loud(v.run.pc) {
      QuietBurden(v, env, i);
    } else if v.run.pc.Create? {
      CreateBurden(v, env, i);
    } else if v.run.pc.Persist? {
      PersistBurden(v, env, i);
    } else if v.run.pc == Gone || v.run.pc.Up? || v.run.pc == DryDone {
      CandidateBurden(v, env, i);
    } else if v.run.pc == Reaped {
      ReapedBurden(v, env, i);
    } else if v.run.pc == OldDone {
      OldDoneBurden(v, env, i);
    } else if v.run.pc == Failing {
      FailingBurden(v, env.clock, env.cfg.maxTemporary);
    } else if v.run.pc.Enter? || v.run.pc.Deploy? {
      DeploymentBurden(v, env, i);
    } else if v.run.pc.Switch? || v.run.pc.RollWrite? {
      MasterBurden(v, env, i);
    } else {
      DeletionBurden(v, env, i);
    }
  }

  // ---- The whole service ----

  ghost predicate BurdensIn(f: State, j: JobId) {
    HasView(f, j) && Burdens(ViewOf(f, j), f.cfg.maxTemporary)
  }

  ghost function Burden(f: State): set<JobId> {
    set j | j in f.jobs && BurdensIn(f, j)
  }

  function Holders(f: State): set<JobId> {
    set j | j in f.jobs && HasView(f, j) && Holds(ViewOf(f, j))
  }

  ghost predicate WithinCapacity(f: State) {
    |Burden(f)| <= f.cfg.maxTemporary + f.cfg.maxConcurrent - 1
  }

  function HoldersOf(f: State, rows: set<ServerId>): set<JobId> {
    set j | j in Holders(f) && f.jobs[j].job.newVps.value in rows
  }

  /** Every undeleted temporary server is the candidate of exactly one job. */
  lemma {:induction false} RowsAndHolders(f: State, rows: set<ServerId>)
    requires Orderly(f) && rows <= OpenRows(f)
    ensures |HoldersOf(f, rows)| == |rows|
  {
    hide Orderly, Holders;
    if rows == {} {
      assert HoldersOf(f, rows) == {};
    } else {
      var k :| k in rows;
      var less := rows - {k};
      RowsAndHolders(f, less);
      RowHasOneHolder(f, k);
      var owner := f.servers[k].name.job;
      assert owner !in HoldersOf(f, less);
      assert HoldersOf(f, rows) == HoldersOf(f, less) + {owner};
    }
  }

  lemma RowHasOneHolder(f: State, k: ServerId)
    requires Orderly(f) && k in OpenRows(f)
    ensures k in f.servers && f.servers[k].name.CandidateName? && f.servers[k].name.job in Holders(f)
    ensures forall j :: j in Holders(f) ==> (f.jobs[j].job.newVps.value == k <==> j == f.servers[k].name.job)
  {
    hide OneActivePerNode, KeysUnique, NamesKnown, LogsKnown;
    assert Claimed(f, k);
    OneJob(f, f.servers[k].name.job);
    forall j | j in Holders(f) ensures f.jobs[j].job.newVps.value == k ==> j == f.servers[k].name.job {
      OneJob(f, j);
      WorkerInvariant.Opened(ViewOf(f, j), f.clock);
      JobFacts(ViewOf(f, j), f.clock);
    }
  }

  lemma CountIsHolders(f: State)
    requires Orderly(f)
    ensures |OpenRows(f)| == |Holders(f)|
  {
    hide Orderly;
    RowsAndHolders(f, OpenRows(f));
    assert HoldersOf(f, OpenRows(f)) == Holders(f);
  }

  /** A step of one job never makes another one hold or count. */
  lemma BesideHolds(u: View, v: View, w: View, clock: nat)
    requires Neighbours(u, v, w, clock)
    ensures Holds(Beside(u, v, w)) ==> Holds(u)
    ensures u.job.active ==> (Holds(Beside(u, v, w)) <==> Holds(u))
  {
    WorkerInvariant.Opened(u, clock);
    WorkerInvariant.Opened(v, clock);
    JobFacts(u, clock);
    JobFacts(v, clock);
    if u.job.checkpoint != Completed {
      RowsBeside(u, v, w, clock);
    }
  }

  lemma BesideBurden(u: View, v: View, w: View, clock: nat, limit: nat)
    requires Neighbours(u, v, w, clock) && Burdens(Beside(u, v, w), limit)
    ensures Burdens(u, limit)
  {
    hide Touches, Holds, HasLeave;
    BesideHolds(u, v, w, clock);
    NamesBeside(u, v, w, clock);
  }

  /**
   The jobs that count after a step of job id: those that counted before, and id if it read a free place.
   */
  lemma PutBurden(f: State, id: JobId, w: View)
    requires Orderly(f) && StepOf(f, id, w)
    ensures forall j :: j in Burden(Put(f, w)) && j != id ==> j in Burden(f)
    ensures id in Burden(Put(f, w)) ==> Burdens(w, f.cfg.maxTemporary)
  {
    hide Touches, Burdens, JobsIn, OneActivePerNode, KeysUnique, NamesKnown, LogsKnown,
      RowsClaimed;
    var g := Put(f, w);
    PutSelf(f, id, w);
    forall j | j in Burden(g) && j != id ensures j in Burden(f) {
      PutDomain(f, id, w, j);
      OneJob(f, j);
      PutOthers(f, id, w, j);
      NeighboursIn(f, id, w, j);
      BesideBurden(ViewOf(f, j), ViewOf(f, id), w, f.clock, f.cfg.maxTemporary);
    }
  }

  lemma NeighboursIn(f: State, id: JobId, w: View, j: JobId)
    requires StepOf(f, id, w) && JobIn(f, j) && j != id && OneActivePerNode(f)
    ensures Neighbours(ViewOf(f, j), ViewOf(f, id), w, f.clock)
  {
    hide Touches;
    var u, v := ViewOf(f, j), ViewOf(f, id);
    assert ActiveOn(f, j, u.job.node) == u.job.active && ActiveOn(f, id, v.job.node) == v.job.active;
  }

  /** Whoever counts holds a server or is active. */
  lemma BurdenSplits(f: State)
    ensures Burden(f) <= Holders(f) + Active(f)
  {
  }

  lemma TakenPlace(f: State, g: State, id: JobId)
    requires Orderly(f) && |OpenRows(f)| < f.cfg.maxTemporary && g.cfg == f.cfg && id in Active(f)
    requires forall j :: j in Burden(g) && j != id ==> j in Burden(f)
    ensures WithinCapacity(g)
  {
    hide Orderly, Holders, OpenRows, BurdensIn;
    CountIsHolders(f);
    BurdenSplits(f);
    Fewer(Burden(g), Holders(f) + Active(f));
    AdmissionBound(f);
  }

  lemma AdmissionBound(f: State)
    requires Orderly(f)
    ensures |Active(f)| <= f.cfg.maxConcurrent
  {
    hide JobsIn, OneActivePerNode, KeysUnique, NamesKnown, LogsKnown, RowsClaimed;
  }

  lemma SmallerBurden(f: State, g: State)
    requires WithinCapacity(f) && g.cfg == f.cfg && Burden(g) <= Burden(f)
    ensures WithinCapacity(g)
  {
    Fewer(Burden(g), Burden(f));
  }

  lemma StepCapacity(f: State, id: JobId, i: Input)
    requires Orderly(f) && Possible(f, Step(id, i)) && WithinCapacity(f) && HasView(f, id)
    ensures WithinCapacity(After(f, Step(id, i)))
  {
    hide Orderly, Touches, Plausible, Visible, Work, Burdens, WithinCapacity, Burden, OpenRows;
    OneJob(f, id);
    var v, env := ViewOf(f, id), EnvOf(f);
    var w := Work(v, env, i);
    WorkKeeps(v, env, i);
    WorkTouches(v, env, i);
    PutBurden(f, id, w);
    var g := Put(f, w);
    if id in Burden(g) && id !in Burden(f) {
      InBurden(f, id);
      BurdensOnlyByLeave(v, env, i);
      assert v.job.active by { StillActive(v, w); }
      TakenPlace(f, g, id);
    } else {
      SmallerBurden(f, g);
    }
  }

  lemma StillActive(v: View, w: View)
    requires Touches(v, w) && w.job.active
    ensures v.job.active
  {
  }

  lemma InBurden(f: State, id: JobId)
    requires HasView(f, id) && id !in Burden(f)
    ensures !Burdens(ViewOf(f, id), f.cfg.maxTemporary)
  {
  }

  /** Everything but a worker's step leaves every job counting as it did, or not at all. */
  lemma OtherEventCapacity(f: State, e: Event)
    requires Orderly(f) && Possible(f, e) && WithinCapacity(f) && !e.Step?
    ensures WithinCapacity(After(f, e))
  {
    hide Orderly, WithinCapacity, Possible, BurdensIn;
    var g := After(f, e);
    SameConfig(f, e);
    forall j | j in Burden(g) ensures j in Burden(f) {
      if j in f.jobs {
        if Own(e, j) {
          OwnEventBurden(f, e, j);
        } else {
          ForeignBurden(f, e, j);
        }
      } else {
        NewJobIsLight(f, e, j);
      }
    }
    SmallerBurden(f, g);
  }

  lemma SameConfig(f: State, e: Event)
    ensures After(f, e).cfg == f.cfg
  {
    hide Work, Cancel, Acquire;
  }

  lemma OwnEventBurden(f: State, e: Event, j: JobId)
    requires Orderly(f) && Possible(f, e) && !e.Step? && Own(e, j) && j in f.jobs && BurdensIn(After(f, e), j)
    ensures BurdensIn(f, j)
  {
    hide Orderly, After, Ended;
    OneJob(f, j);
    var v := ViewOf(f, j);
    EventTouches(f, e, j);
    WorkerInvariant.Opened(v, f.clock);
    JobFacts(v, f.clock);
    if !Terminal(v.job.checkpoint) {
      EndingIsNeverRefused(v, Cancelled, f.clock);
    }
  }

  lemma SameBurden(u: View, b: View, limit: nat)
    requires b == u.(node := b.node, master := b.master, log := b.log)
    ensures Burdens(b, limit) == Burdens(u, limit)
  {
  }

  lemma ForeignBurden(f: State, e: Event, j: JobId)
    requires Orderly(f) && Possible(f, e) && !e.Step? && !Own(e, j) && j in f.jobs && BurdensIn(After(f, e), j)
    ensures BurdensIn(f, j)
  {
    hide Orderly, Work, Cancel, Acquire, Answer, Plausible, Visible, Burdens, StepOf, OwnEvent,
      Touches;
    OneJob(f, j);
    if e.Take? || e.Die? || e.Stop? {
      if HasView(f, e.id) {
        OneJob(f, e.id);
        EventTouches(f, e, e.id);
        OwnStep(f, e, e.id);
        OwnOriginal(f, e.id, OwnEvent(f, e, e.id));
        PutBurden(f, e.id, OwnEvent(f, e, e.id));
        assert j in Burden(After(f, e));
      }
    } else {
      SameBurden(ViewOf(f, j), ViewOf(After(f, e), j), f.cfg.maxTemporary);
    }
  }

  lemma OwnOriginal(f: State, id: JobId, w: View)
    requires StepOf(f, id, w)
    ensures w.id == id && w.job.node == f.jobs[id].job.node
  {
  }

  lemma NewJobIsLight(f: State, e: Event, j: JobId)
    requires Orderly(f) && Possible(f, e) && !e.Step? && j !in f.jobs && j in After(f, e).jobs
    ensures !BurdensIn(After(f, e), j)
  {
    hide Orderly, Work, Cancel, Acquire, Possible, StepOf, OwnEvent, Touches, HasServer;
    if e.Take? || e.Die? || e.Stop? {
      if HasView(f, e.id) {
        OneJob(f, e.id);
        EventTouches(f, e, e.id);
        OwnStep(f, e, e.id);
        OwnOriginal(f, e.id, OwnEvent(f, e, e.id));
      }
    }
  }

  lemma AfterCapacity(f: State, e: Event)
    requires Orderly(f) && Possible(f, e) && WithinCapacity(f)
    ensures WithinCapacity(After(f, e))
  {
    hide Orderly, WithinCapacity, Possible, Work;
    if !e.Step? {
      OtherEventCapacity(f, e);
    } else if HasView(f, e.id) {
      StepCapacity(f, e.id, e.input);
    }
  }

  lemma {:induction false} HistoryCapacity(f: State, es: seq<Event>)
    requires Orderly(f) && WithinCapacity(f) && PossibleHistory(f, es)
    ensures Orderly(History(f, es)) && WithinCapacity(History(f, es))
  {
    hide Orderly, WithinCapacity, After, Possible;
    if es != [] {
      var front := es[..|es| - 1];
      forall n | 0 <= n < |front| ensures Possible(History(f, front[..n]), front[n]) {
        assert front[..n] == es[..n];
      }
      HistoryCapacity(f, front);
      AfterOrderly(History(f, front), es[|es| - 1]);
      AfterCapacity(History(f, front), es[|es| - 1]);
    }
  }

  /**
   The registry never holds more undeleted temporary servers than the limit and all but one of the
   concurrent jobs together, although the count is read before a create and reconciled servers skip it.
   */
  lemma TemporaryServersAreBounded(f: State)
    requires Attainable(f)
    ensures |OpenRows(f)| <= f.cfg.maxTemporary + f.cfg.maxConcurrent - 1
  {
    hide Orderly, Initial, PossibleHistory, Attainable, OpenRows, Holders, BurdensIn;
    AttainableByHistory(f);
    var f0, es :| Ends(f0, es, f);
    InitialOrderly(f0);
    NothingBurdens(f0);
    HistoryCapacity(f0, es);
    CountIsHolders(f);
    HoldersBurden(f);
    Fewer(Holders(f), Burden(f));
  }

  lemma NothingBurdens(f: State)
    requires Initial(f)
    ensures WithinCapacity(f)
  {
    assert Burden(f) == {};
  }

  lemma HoldersBurden(f: State)
    ensures Holders(f) <= Burden(f)
  {
  }
}
