/**
 The bound on a job's dispatches is exact: a world that cooperates, but filters every candidate but the last,
 meets it.
 */
module JobProgress {
  import opened Types
  import opened CheckpointGraph
  import opened NodeLifecycle
  import opened MasterAlgebra
  import opened Worker
  import opened WorkerInvariant
  import opened WorkerEffects
  import opened JobGuarantees
  import opened JobRuns
  import opened NodeCoupling
  import Consensus

  /** What the outside world is made of in such a run, and whether one worker has made all its dispatches. */
  datatype Scene = Scene(address: string, panel: PanelConfig, probe: Probe, oneLease: bool)
  {
    predicate Fits() {
      && address != "" && panel.scheme == "http" && 1 <= panel.port <= 65535
      && Effective(probe.status, "") == "online" && Effective(probe.xrayState, "") == "running"
    }
  }

  /**
   A free place, a fitting configuration, permission to delete the old server, and a lease that is not lost.
   */
  predicate Cooperative(v: View, env: Env) {
    && v.job.maxAttempts <= env.cfg.maxAttempts && env.temps < env.cfg.maxTemporary
    && (if env.actives >= 1 then env.actives - 1 else 0) < env.cfg.maxConcurrent
    && env.cfg.requiredConsensus == 1 && env.cfg.allowOldDeletion && env.granted
  }

  /** A number above every element of a set. */
  ghost function Above(s: set<nat>): (n: nat)
    ensures forall k :: k in s ==> k < n
  {
    if s == {} then 0
    else
      var k :| k in s;
      var n := Above(s - {k});
      assert s == (s - {k}) + {k};
      if k < n then n else k + 1
  }

  /** Every candidate but the last is filtered. */
  function Wish(j: Job): Decision { if j.attempt < j.maxAttempts then Unreachable else Reachable }

  /** What the world does next; a worker that has met its step limit is followed by another one. */
  ghost function Cue(v: View, s: Scene): Act {
    match v.run.pc
    case Idle => Taking
    case Lookup(_, _, _, _, _) => Do(NotFound)
    case Create(_, _, _, _) => Do(Made(Above(v.servers.Keys + v.vps.Keys), VpsRunning, s.address))
    case Await(_) => Do(Ready(s.address))
    case Rounds => Do(Observed([Consensus.Round(Reachable, Wish(v.job))]))
    case ReapGet(k, host, named) => Do(Saw(k, CandidateName(v.id, named), host))
    case Deploy(_) =>
      if HasDeployment(v) && v.deployment.value.state == DeploySucceeded then Do(Installed(s.panel)) else Do(Ok)
    case SwitchPin(_) => Do(Fingerprint(""))
    case VerifyPin(_) => Do(Fingerprint(""))
    case Verify(_) => Do(Probed(s.probe))
    case Final => Do(Seen(Reachable))
    case OldGet(k, host) => if SameWorld(v, k) then Do(Saw(k, v.servers[k].name, host)) else Do(NotFound)
    case _ => Do(Ok)
  }

  /** Micro-steps left in a stage at most. */
  function Left(v: View): nat {
    match v.run.pc
    case Idle => 19
    case LoopTop => if v.run.dispatches >= STEP_LIMIT then 20 else 18
    case Enter(_) => 17
    case Lookup(_, _, _, _, _) => 16
    case Mark(_, _, _) => 15
    case Create(_, _, _, _) => 14
    case Await(_) => 16
    case Up(_) => 15
    case Rounds => 16
    case Reap(_, _) => 16
    case ReapGet(_, _, _) => 15
    case ReapDelete(_) => 14
    case Deploy(_) =>
      if v.deployment.None? then 0
      else
        (match v.deployment.value.state
         case DeployPending => 16
         case WaitingSsh => 15
         case Bootstrapping => 14
         case Installing => 13
         case DeployVerifying => 12
         case _ => 11)
    case Preflight => 16
    case Shown(_) => 15
    case SwitchPin(_) => 16
    case Switch(_) => 15
    case VerifyPin(_) => 16
    case Verify(_) => 15
    case Final => 16
    case OldGet(_, _) => 16
    case OldDelete(_) => 15
    case _ => 10
  }

  /** Every dispatch of the present worker has advanced the job, and no other worker ever has. */
  predicate OneLease(v: View) {
    && v.run.pc != Idle && v.run.dispatches <= STEP_LIMIT
    && v.run.dispatches == v.job.advances + if v.run.pc == LoopTop then 0 else 1
  }

  predicate AtLimit(v: View) { v.run.pc == LoopTop && v.run.dispatches >= STEP_LIMIT }

  /** The worker is at a place the script leads to. */
  predicate PlaceFits(j: Job, pc: Pc, env: Env) {
    match pc
    case Enter(_) => Rank(j.checkpoint) <= 1 ==> j.requestedAt.None?
    case Lookup(_, requestedAt, temps, actives, _) => requestedAt.None? && temps == env.temps && actives == env.actives
    case Mark(temps, actives, _) => temps == env.temps && actives == env.actives
    case Create(temps, actives, _, _) => temps == env.temps && actives == env.actives
    case Judged(d) => d == Wish(j)
    case Failing => false
    case Gone => false
    case Rollback(_) => false
    case RollWrite(_, _) => false
    case RollCheck(_, _) => false
    case _ => true
  }

  /** Nothing holds the worker up. */
  predicate Scripted(v: View, env: Env, s: Scene) {
    var c := v.job.checkpoint;
    && (Rank(c) <= 1 && !InStage(v.run.pc) ==> v.job.requestedAt.None?)
    && (Rank(c) <= 7 ==> !v.master.transitive && v.master.tlsVerifyMode != "mtls"
                         && (v.master.hasApiToken ==> v.node.credentials.apiTokenRef.Some?))
    && (Rank(c) <= 8 ==> v.master.status == "" && v.master.xrayState == "")
    && (s.oneLease ==> OneLease(v))
    && (c == TempCleanup ==> v.job.attempt < v.job.maxAttempts) && (Rank(c) >= 5 ==> v.job.attempt == v.job.maxAttempts)
    && (Rank(c) == 6 && v.deployment.Some? ==> v.deployment.value.state != DeployFailed)
    && (Rank(c) >= 7 && v.deployment.Some? ==> v.deployment.value.config == Some(s.panel))
    && (9 <= Rank(c) <= 10 || v.run.pc == Switched ==> TargetOf(v).Some? && Verifies(v.master, s.probe, TargetOf(v).value))
    && PlaceFits(v.job, v.run.pc, env)
  }

  ghost predicate OnTrack(v: View, env: Env, s: Scene) {
    && Inv(v, env.clock) && Live(v.job) && Cooperative(v, env) && s.Fits()
    && v.job.advances + Remaining(v.job.checkpoint, v.job.attempt, v.job.maxAttempts) == 4 * v.job.maxAttempts + 10
    && Scripted(v, env, s)
  }

  function Measure(v: View): int {
    21 * Remaining(v.job.checkpoint, v.job.attempt, v.job.maxAttempts) + Left(v)
  }

  /** One step further on the same track, or the end of it. */
  ghost predicate Onward(v: View, w: View, env: Env, s: Scene) {
    && w.job.maxAttempts == v.job.maxAttempts
    && ((OnTrack(w, env, s) && 0 <= Measure(w) < Measure(v))
        || (w.job.checkpoint == Completed && w.job.advances == v.job.advances + 1 == 4 * w.job.maxAttempts + 10))
  }

  /** A call inside a stage that moves the worker on and changes at most a server. */
  predicate MovesOn(v: View, w: View, env: Env) {
    && w == v.(servers := w.servers, run := v.run.(pc := w.run.pc))
    && InStage(v.run.pc) && InStage(w.run.pc) && w.run.pc != Switched && PlaceFits(v.job, w.run.pc, env) && Left(w) < Left(v)
  }

  lemma MoveOnward(v: View, w: View, env: Env, s: Scene)
    requires OnTrack(v, env, s) && Inv(w, env.clock) && MovesOn(v, w, env)
    ensures Onward(v, w, env, s)
  {
    hide TargetFor, Verifies, LocalsOk, RequestOk, CandidateOk, Left;
    WorkerInvariant.Opened(v, env.clock);
    JobFacts(v, env.clock);
  }

  /** What the world does next is such a call. */
  ghost predicate CueMoves(v: View, env: Env, s: Scene) {
    Cue(v, s).Do? && Credible(v, env, Cue(v, s)) && MovesOn(v, Work(v, env, Cue(v, s).i), env)
  }

  lemma MovingCueOnward(v: View, env: Env, s: Scene)
    requires OnTrack(v, env, s) && CueMoves(v, env, s)
    ensures Credible(v, env, Cue(v, s)) && Onward(v, Happen(v, env, Cue(v, s)), env, s)
  {
    hide Work, OnTrack, Onward, MovesOn, Plausible, Visible, Cue;
    OnTrackInv(v, env, s);
    WorkKeeps(v, env, Cue(v, s).i);
    MoveOnward(v, Work(v, env, Cue(v, s).i), env, s);
  }

  lemma OnTrackInv(v: View, env: Env, s: Scene)
    requires OnTrack(v, env, s)
    ensures Inv(v, env.clock) && Live(v.job)
  {
    hide Scripted, Cooperative, Scene.Fits;
  }

  lemma Fitting(v: View, env: Env, s: Scene)
    requires OnTrack(v, env, s)
    ensures s.Fits() && Cooperative(v, env)
  {
    hide Scripted, Cooperative, Scene.Fits;
  }

  // ---- Stage by stage ----

  lemma LoopOnward(v: View, env: Env, s: Scene)
    requires OnTrack(v, env, s) && (v.run.pc == Idle || v.run.pc == LoopTop) && (s.oneLease ==> !AtLimit(v))
    ensures Credible(v, env, Cue(v, s)) && Onward(v, Happen(v, env, Cue(v, s)), env, s)
  {
    hide Work, OnTrack, Onward, Plausible, Visible;
    HappenIs(v, env, s);
    if v.run.pc == Idle {
      IdleOnward(v, env, s);
    } else {
      LoopTopIs(v, env);
      LoopTopOnward(v, env, s);
    }
  }

  lemma LoopTopIs(v: View, env: Env)
    requires v.run.pc == LoopTop
    ensures Work(v, env, Ok) == AtLoopTop(v, env, Ok) && Plausible(v, env, Ok) && Visible(v, env, Ok)
  {
    hide AtLoopTop;
  }

  lemma IdleOnward(v: View, env: Env, s: Scene)
    requires OnTrack(v, env, s) && v.run.pc == Idle
    ensures Onward(v, Acquire(v), env, s)
  {
    hide TargetFor, Verifies;
    WorkerInvariant.Opened(v, env.clock);
    JobFacts(v, env.clock);
    AcquireKeeps(v, env.clock);
  }

  lemma LoopTopOnward(v: View, env: Env, s: Scene)
    requires OnTrack(v, env, s) && v.run.pc == LoopTop && (s.oneLease ==> !AtLimit(v))
    ensures Onward(v, AtLoopTop(v, env, Ok), env, s)
  {
    hide TargetFor, Verifies;
    WorkerInvariant.Opened(v, env.clock);
    JobFacts(v, env.clock);
    LoopTopKeeps(v, env, Ok);
  }

  lemma NothingRequested(v: View, clock: nat)
    requires Inv(v, clock) && Live(v.job) && Rank(v.job.checkpoint) <= 1
    ensures v.job.oldVps in v.vps
    ensures v.job.requestedAt.None? ==> NoServer(v.id, v.job.attempt, v.job.dryRun, v.servers)
  {
    assert Examined(v, v);
  }

  lemma CreatedOnward(v: View, env: Env, s: Scene)
    requires OnTrack(v, env, s) && v.run.pc == Enter(Created)
    ensures Credible(v, env, Cue(v, s)) && Onward(v, Happen(v, env, Cue(v, s)), env, s)
  {
    hide Work, OnTrack, Onward, Plausible, Visible, AtCreated;
    OnTrackInv(v, env, s);
    HappenIs(v, env, s);
    EnterIsPlain(v, env, s);
    WorkAtStage(v, env, Ok);
    WorkKeeps(v, env, Ok);
    StartOnward(v, env, s);
  }

  lemma EnterIsPlain(v: View, env: Env, s: Scene)
    requires v.run.pc.Enter?
    ensures Cue(v, s) == Do(Ok) && Plausible(v, env, Ok) && Visible(v, env, Ok)
  {
  }

  lemma StartOnward(v: View, env: Env, s: Scene)
    requires OnTrack(v, env, s) && v.run.pc == Enter(Created) && Inv(AtCreated(v, env, Ok), env.clock)
    ensures Onward(v, AtCreated(v, env, Ok), env, s)
  {
    hide TargetFor, Verifies, CandidateOk, RequestOk;
    WorkerInvariant.Opened(v, env.clock);
    JobFacts(v, env.clock);
  }

  lemma ProvisioningOnward(v: View, env: Env, s: Scene)
    requires OnTrack(v, env, s) && (v.run.pc == Enter(Provisioning) || v.run.pc.Lookup?)
    ensures Credible(v, env, Cue(v, s)) && Onward(v, Happen(v, env, Cue(v, s)), env, s)
  {
    hide Onward, OnTrack, CueMoves, Credible, Happen;
    NothingAsked(v, env, s);
    if v.run.pc.Lookup? {
      LookupMoves(v, env, s);
    } else {
      ProvisioningMoves(v, env, s);
    }
    MovingCueOnward(v, env, s);
  }

  lemma NothingAsked(v: View, env: Env, s: Scene)
    requires OnTrack(v, env, s) && (v.run.pc == Enter(Provisioning) || v.run.pc.Lookup?)
    ensures v.job.newVps.None? && v.job.oldVps in v.vps && NoServer(v.id, v.job.attempt, v.job.dryRun, v.servers) && !v.job.dryRun
    ensures v.run.pc.Lookup? ==> PlaceFits(v.job, v.run.pc, env) && v.run.pc.named == v.job.attempt
    ensures v.run.pc.Enter? ==> v.job.requestedAt.None?
  {
    hide TargetFor, Verifies;
    WorkerInvariant.Opened(v, env.clock);
    JobFacts(v, env.clock);
    NothingRequested(v, env.clock);
  }

  lemma ProvisioningMoves(v: View, env: Env, s: Scene)
    requires v.run.pc == Enter(Provisioning) && v.job.newVps.None? && v.job.oldVps in v.vps && v.job.requestedAt.None?
    ensures CueMoves(v, env, s)
  {
    hide Work;
    WorkAtStage(v, env, Ok);
  }

  lemma LookupMoves(v: View, env: Env, s: Scene)
    requires v.run.pc.Lookup? && PlaceFits(v.job, v.run.pc, env) && v.run.pc.named == v.job.attempt
    requires NoServer(v.id, v.job.attempt, v.job.dryRun, v.servers)
    ensures CueMoves(v, env, s)
  {
    hide AtStage, AtCreate, AtPersist, AtReaped, AtDeploy, AtOldDone, AtFailing, AtRollback, AtFinal, AtShown;
    assert forall k :: k in v.servers && v.servers[k].name == CandidateName(v.id, v.run.pc.named) ==>
        NamedFor(v.id, v.job.attempt, k, v.servers);
  }

  lemma MarkOnward(v: View, env: Env, s: Scene)
    requires OnTrack(v, env, s) && v.run.pc.Mark?
    ensures Credible(v, env, Cue(v, s)) && Onward(v, Happen(v, env, Cue(v, s)), env, s)
  {
    hide TargetFor, Verifies, CandidateOk, AtStage, AtLookup, AtCreate, AtPersist, AtReaped, AtDeploy, AtOldDone, AtFailing,
      AtRollback, AtFinal, AtShown;
    WorkerInvariant.Opened(v, env.clock);
    JobFacts(v, env.clock);
    WorkKeeps(v, env, Ok);
  }

  lemma CreateOnward(v: View, env: Env, s: Scene)
    requires OnTrack(v, env, s) && v.run.pc.Create?
    ensures Credible(v, env, Cue(v, s)) && Onward(v, Happen(v, env, Cue(v, s)), env, s)
  {
    hide TargetFor, Verifies, AtStage, AtDeploy, AtOldDone, AtFailing, AtRollback;
    WorkerInvariant.Opened(v, env.clock);
    JobFacts(v, env.clock);
    WorkKeeps(v, env, Cue(v, s).i);
  }

  lemma PersistOnward(v: View, env: Env, s: Scene)
    requires OnTrack(v, env, s) && v.run.pc.Persist?
    ensures Credible(v, env, Cue(v, s)) && Onward(v, Happen(v, env, Cue(v, s)), env, s)
  {
    hide TargetFor, Verifies, AtStage, AtDeploy, AtOldDone, AtFailing, AtRollback;
    WorkerInvariant.Opened(v, env.clock);
    JobFacts(v, env.clock);
    WorkKeeps(v, env, Cue(v, s).i);
  }

  lemma ProvisionedOnward(v: View, env: Env, s: Scene)
    requires OnTrack(v, env, s) && v.run.pc == Enter(Provisioned)
    ensures Credible(v, env, Cue(v, s)) && Onward(v, Happen(v, env, Cue(v, s)), env, s)
  {
    hide Onward, TargetFor, Verifies, Scripted;
    WorkerInvariant.Opened(v, env.clock);
    JobFacts(v, env.clock);
    WorkKeeps(v, env, Cue(v, s).i);
    MoveOnward(v, Go(v, Await(v.job.newVps.value)), env, s);
  }

  lemma AwaitOnward(v: View, env: Env, s: Scene)
    requires OnTrack(v, env, s) && v.run.pc.Await?
    ensures Credible(v, env, Cue(v, s)) && Onward(v, Happen(v, env, Cue(v, s)), env, s)
  {
    hide Onward, OnTrack, CueMoves, Credible, Happen;
    Fitting(v, env, s);
    AwaitMoves(v, env, s);
    MovingCueOnward(v, env, s);
  }

  lemma AwaitMoves(v: View, env: Env, s: Scene)
    requires v.run.pc.Await? && s.address != ""
    ensures CueMoves(v, env, s)
  {
    hide AtStage, AtLookup, AtCreate, AtPersist, AtReaped, AtDeploy, AtOldDone, AtFailing, AtRollback, AtFinal, AtShown;
  }

  lemma UpOnward(v: View, env: Env, s: Scene)
    requires OnTrack(v, env, s) && v.run.pc.Up?
    ensures Credible(v, env, Cue(v, s)) && Onward(v, Happen(v, env, Cue(v, s)), env, s)
  {
    hide TargetFor, Verifies, AtStage, AtCreate, AtPersist, AtDeploy, AtOldDone, AtFailing, AtRollback;
    WorkerInvariant.Opened(v, env.clock);
    JobFacts(v, env.clock);
    WorkKeeps(v, env, Cue(v, s).i);
  }

  lemma BootOnward(v: View, env: Env, s: Scene)
    requires OnTrack(v, env, s) && v.run.pc == Boot
    ensures Credible(v, env, Cue(v, s)) && Onward(v, Happen(v, env, Cue(v, s)), env, s)
  {
    hide TargetFor, Verifies, AtStage, AtCreate, AtPersist, AtDeploy, AtOldDone, AtFailing, AtRollback;
    WorkerInvariant.Opened(v, env.clock);
    JobFacts(v, env.clock);
    WorkKeeps(v, env, Cue(v, s).i);
  }

  lemma CheckingIpOnward(v: View, env: Env, s: Scene)
    requires OnTrack(v, env, s) && v.run.pc == Enter(CheckingIp)
    ensures Credible(v, env, Cue(v, s)) && Onward(v, Happen(v, env, Cue(v, s)), env, s)
  {
    hide Onward, TargetFor, Verifies, Scripted;
    WorkerInvariant.Opened(v, env.clock);
    JobFacts(v, env.clock);
    WorkKeeps(v, env, Cue(v, s).i);
    MoveOnward(v, Go(v, Rounds), env, s);
  }

  lemma RoundsOnward(v: View, env: Env, s: Scene)
    requires OnTrack(v, env, s) && v.run.pc == Rounds
    ensures Credible(v, env, Cue(v, s)) && Onward(v, Happen(v, env, Cue(v, s)), env, s)
  {
    hide Onward, TargetFor, Verifies, Scripted, Consensus.Verdict, AtStage, AtCreate, AtPersist, AtDeploy, AtOldDone,
      AtFailing, AtRollback;
    WorkerInvariant.Opened(v, env.clock);
    OneRound(Wish(v.job));
    WorkKeeps(v, env, Cue(v, s).i);
    MoveOnward(v, Go(v, Judged(Wish(v.job))), env, s);
  }

  lemma JudgedOnward(v: View, env: Env, s: Scene)
    requires OnTrack(v, env, s) && v.run.pc.Judged?
    ensures Credible(v, env, Cue(v, s)) && Onward(v, Happen(v, env, Cue(v, s)), env, s)
  {
    hide TargetFor, Verifies, CandidateOk, Onward;
    WorkerInvariant.Opened(v, env.clock);
    JobFacts(v, env.clock);
    if v.run.pc.d == Unreachable {
      RejectedOnward(v, env, s);
    } else {
      AcceptedOnward(v, env, s);
    }
  }

  lemma RejectedOnward(v: View, env: Env, s: Scene)
    requires OnTrack(v, env, s) && v.run.pc == Judged(Unreachable)
    ensures Credible(v, env, Do(Ok)) && Onward(v, Work(v, env, Ok), env, s)
  {
    hide Work, OnTrack, Onward, Plausible, Visible, Commit;
    OnTrackInv(v, env, s);
    JudgedIs(v, env);
    WorkKeeps(v, env, Ok);
    RejectedCommitOnward(v, env, s);
  }

  lemma JudgedIs(v: View, env: Env)
    requires v.run.pc.Judged?
    ensures Plausible(v, env, Ok) && Visible(v, env, Ok)
    ensures Work(v, env, Ok) ==
            if v.run.pc.d == Unreachable then Commit(v, v, TempCleanup) else Commit(v, Accepted(v), IpVerified)
  {
    hide Commit, Accepted;
  }

  lemma RejectedCommitOnward(v: View, env: Env, s: Scene)
    requires OnTrack(v, env, s) && v.run.pc == Judged(Unreachable) && Inv(Commit(v, v, TempCleanup), env.clock)
    ensures Onward(v, Commit(v, v, TempCleanup), env, s)
  {
    hide TargetFor, Verifies, CandidateOk, RequestOk, LocalsOk;
    WorkerInvariant.Opened(v, env.clock);
    JobFacts(v, env.clock);
  }

  lemma AcceptedOnward(v: View, env: Env, s: Scene)
    requires OnTrack(v, env, s) && v.run.pc.Judged? && v.run.pc.d != Unreachable
    ensures Credible(v, env, Do(Ok)) && Onward(v, Work(v, env, Ok), env, s)
  {
    hide Work, OnTrack, Onward, Plausible, Visible, Commit;
    OnTrackInv(v, env, s);
    JudgedIs(v, env);
    WorkKeeps(v, env, Ok);
    AcceptedCommitOnward(v, env, s);
  }

  lemma AcceptedCommitOnward(v: View, env: Env, s: Scene)
    requires OnTrack(v, env, s) && v.run.pc.Judged? && v.run.pc.d != Unreachable && Inv(Commit(v, Accepted(v), IpVerified), env.clock)
    ensures Onward(v, Commit(v, Accepted(v), IpVerified), env, s)
  {
    hide TargetFor, Verifies, CandidateOk, RequestOk, LocalsOk;
    WorkerInvariant.Opened(v, env.clock);
    JobFacts(v, env.clock);
  }

  lemma OneRound(d: Decision)
    ensures d != Indeterminate ==> Consensus.Verdict([Consensus.Round(Reachable, d)], 1) == d
  {
    var rounds := [Consensus.Round(Reachable, d)];
    assert rounds[..0] == [];
    assert Consensus.Tally(rounds[..0], Consensus.Clean) == 0 && Consensus.Tally(rounds[..0], Consensus.Filtered) == 0;
  }

  lemma TempCleanupOnward(v: View, env: Env, s: Scene)
    requires OnTrack(v, env, s) && v.run.pc == Enter(TempCleanup)
    ensures Credible(v, env, Cue(v, s)) && Onward(v, Happen(v, env, Cue(v, s)), env, s)
  {
    hide Onward, OnTrack, CueMoves, Credible, Happen;
    OnTrackInv(v, env, s);
    Fitting(v, env, s);
    TempCleanupMoves(v, env, s);
    MovingCueOnward(v, env, s);
  }

  lemma TempCleanupMoves(v: View, env: Env, s: Scene)
    requires v.run.pc == Enter(TempCleanup) && Renews(v, env)
    ensures CueMoves(v, env, s)
  {
    hide AtLookup, AtCreate, AtPersist, AtReaped, AtDeploy, AtOldDone, AtFailing, AtRollback, AtFinal, AtShown, AtOldVpsCleanup,
      AtNodeVerified, AtIpVerified, AtDeploying, AtProvisioning;
  }

  lemma ReapOnward(v: View, env: Env, s: Scene)
    requires OnTrack(v, env, s) && (v.run.pc.Reap? || v.run.pc.ReapGet?)
    ensures Credible(v, env, Cue(v, s)) && Onward(v, Happen(v, env, Cue(v, s)), env, s)
  {
    hide Onward, OnTrack, CueMoves, Credible, Happen;
    OnTrackInv(v, env, s);
    if v.run.pc.ReapGet? {
      CandidateIsReaped(v, env.clock);
    }
    ReapMoves(v, env, s);
    MovingCueOnward(v, env, s);
  }

  lemma CandidateIsReaped(v: View, clock: nat)
    requires Inv(v, clock) && v.run.pc.ReapGet?
    ensures v.run.pc.named == v.job.attempt && SameWorld(v, v.run.pc.server)
    ensures NamedFor(v.id, v.job.attempt, v.run.pc.server, v.servers)
  {
    WorkerInvariant.Opened(v, clock);
    JobFacts(v, clock);
  }

  lemma ReapMoves(v: View, env: Env, s: Scene)
    requires v.run.pc.Reap? || (v.run.pc.ReapGet? && SameWorld(v, v.run.pc.server)
                                && NamedFor(v.id, v.run.pc.named, v.run.pc.server, v.servers))
    ensures CueMoves(v, env, s)
  {
    hide AtStage, AtLookup, AtCreate, AtPersist, AtReaped, AtDeploy, AtOldDone, AtFailing, AtRollback, AtFinal, AtShown;
  }

  lemma ReapDeleteOnward(v: View, env: Env, s: Scene)
    requires OnTrack(v, env, s) && v.run.pc.ReapDelete?
    ensures Credible(v, env, Cue(v, s)) && Onward(v, Happen(v, env, Cue(v, s)), env, s)
  {
    hide Onward, OnTrack, CueMoves, Credible, Happen;
    ReapDeleteMoves(v, env, s);
    MovingCueOnward(v, env, s);
  }

  lemma ReapDeleteMoves(v: View, env: Env, s: Scene)
    requires v.run.pc.ReapDelete?
    ensures CueMoves(v, env, s)
  {
    hide AtStage, AtLookup, AtCreate, AtPersist, AtReaped, AtDeploy, AtOldDone, AtFailing, AtRollback, AtFinal, AtShown;
  }

  lemma ReapedOnward(v: View, env: Env, s: Scene)
    requires OnTrack(v, env, s) && v.run.pc == Reaped
    ensures Credible(v, env, Cue(v, s)) && Onward(v, Happen(v, env, Cue(v, s)), env, s)
  {
    hide Work, OnTrack, Onward, Plausible, Visible, AtReaped;
    OnTrackInv(v, env, s);
    HappenIs(v, env, s);
    ReapedIs(v, env);
    WorkKeeps(v, env, Ok);
    RetryOnward(v, env, s);
  }

  lemma ReapedIs(v: View, env: Env)
    requires v.run.pc == Reaped
    ensures Work(v, env, Ok) == AtReaped(v, env, Ok) && Plausible(v, env, Ok) && Visible(v, env, Ok)
  {
    hide AtReaped;
  }

  lemma RetryOnward(v: View, env: Env, s: Scene)
    requires OnTrack(v, env, s) && v.run.pc == Reaped && Inv(AtReaped(v, env, Ok), env.clock)
    ensures Onward(v, AtReaped(v, env, Ok), env, s)
  {
    hide TargetFor, Verifies, CandidateOk, RequestOk, LocalsOk, AtReaped;
    WorkerInvariant.Opened(v, env.clock);
    JobFacts(v, env.clock);
    RetryIs(v, env);
  }

  lemma RetryIs(v: View, env: Env)
    requires v.run.pc == Reaped && v.job.checkpoint == TempCleanup && v.job.active && v.job.attempt < v.job.maxAttempts
    ensures var w := AtReaped(v, env, Ok);
            && w == v.(job := w.job, vps := w.vps, run := v.run.(pc := LoopTop))
            && w.job == v.job.(newVps := None, requestedAt := None, attempt := v.job.attempt + 1, checkpoint := Provisioning,
                               advances := v.job.advances + 1)
  {
    hide Unlinked;
    UnlinkedJob(v);
  }

  lemma UnlinkedJob(v: View)
    ensures Unlinked(v) == v.(job := Unlinked(v).job, vps := Unlinked(v).vps)
    ensures Unlinked(v).job == v.job.(newVps := None, requestedAt := None)
  {
  }

  lemma IpVerifiedOnward(v: View, env: Env, s: Scene)
    requires OnTrack(v, env, s) && v.run.pc == Enter(IpVerified)
    ensures Credible(v, env, Cue(v, s)) && Onward(v, Happen(v, env, Cue(v, s)), env, s)
  {
    hide TargetFor, Verifies;
    WorkerInvariant.Opened(v, env.clock);
    JobFacts(v, env.clock);
    DeploymentFacts(v, env.clock);
    WorkKeeps(v, env, Cue(v, s).i);
  }

  lemma DeployingOnward(v: View, env: Env, s: Scene)
    requires OnTrack(v, env, s) && v.run.pc == Enter(Deploying)
    ensures Credible(v, env, Cue(v, s)) && Onward(v, Happen(v, env, Cue(v, s)), env, s)
  {
    hide TargetFor, Verifies;
    WorkerInvariant.Opened(v, env.clock);
    JobFacts(v, env.clock);
    DeploymentFacts(v, env.clock);
    WorkKeeps(v, env, Cue(v, s).i);
  }

  lemma DeployOnward(v: View, env: Env, s: Scene)
    requires OnTrack(v, env, s) && v.run.pc.Deploy?
    ensures Credible(v, env, Cue(v, s)) && Onward(v, Happen(v, env, Cue(v, s)), env, s)
  {
    hide Work, OnTrack, Onward, Plausible, Visible, AtDeploy;
    OnTrackInv(v, env, s);
    HappenIs(v, env, s);
    DeployIs(v, env, Cue(v, s).i);
    WorkKeeps(v, env, Cue(v, s).i);
    if ClosingDeployment(v) {
      InstalledOnward(v, env, s);
    } else {
      TransitionOnward(v, env, s);
    }
  }

  lemma DeployIs(v: View, env: Env, i: Input)
    requires v.run.pc.Deploy?
    ensures Work(v, env, i) == AtDeploy(v, env, i) && Plausible(v, env, i) && Visible(v, env, i)
  {
    hide AtDeploy;
  }

  lemma InstalledOnward(v: View, env: Env, s: Scene)
    requires OnTrack(v, env, s) && ClosingDeployment(v) && Inv(AtDeploy(v, env, Installed(s.panel)), env.clock)
    ensures Onward(v, AtDeploy(v, env, Installed(s.panel)), env, s)
  {
    hide TargetFor, Verifies, CandidateOk, RequestOk, LocalsOk, AtDeploy;
    WorkerInvariant.Opened(v, env.clock);
    JobFacts(v, env.clock);
    InstalledIs(v, env, s.panel);
  }

  lemma InstalledIs(v: View, env: Env, c: PanelConfig)
    requires ClosingDeployment(v)
    ensures var w := AtDeploy(v, env, Installed(c));
            && w == v.(job := w.job, run := v.run.(pc := LoopTop), deployment := w.deployment, node := w.node)
            && w.job == v.job.(deploymentVerified := true, checkpoint := NodeVerified, advances := v.job.advances + 1)
            && w.deployment.Some? && w.deployment.value.config == Some(c) && w.node.credentials == v.node.credentials
  {
  }

  lemma TransitionOnward(v: View, env: Env, s: Scene)
    requires OnTrack(v, env, s) && v.run.pc.Deploy? && !ClosingDeployment(v) && Inv(AtDeploy(v, env, Ok), env.clock)
    ensures Onward(v, AtDeploy(v, env, Ok), env, s)
  {
    hide TargetFor, Verifies;
    WorkerInvariant.Opened(v, env.clock);
    JobFacts(v, env.clock);
    DeploymentFacts(v, env.clock);
  }

  lemma DeploymentFacts(v: View, clock: nat)
    requires Inv(v, clock) && Live(v.job)
    ensures 5 <= Rank(v.job.checkpoint) ==> v.job.newVps.Some? && HasRow(v) && v.vps[v.job.newVps.value].host != ""
    ensures 6 <= Rank(v.job.checkpoint) ==> HasDeployment(v)
    ensures 7 <= Rank(v.job.checkpoint) ==> v.deployment.value.config.Some?
    ensures 8 <= Rank(v.job.checkpoint) ==> TargetOf(v).Some?
    ensures Rank(v.job.checkpoint) <= 5 ==> v.deployment.None?
  {
    assert Examined(v, v);
  }

  lemma NodeVerifiedOnward(v: View, env: Env, s: Scene)
    requires OnTrack(v, env, s) && v.run.pc == Enter(NodeVerified)
    ensures Credible(v, env, Cue(v, s)) && Onward(v, Happen(v, env, Cue(v, s)), env, s)
  {
    hide Onward, TargetFor, Verifies, Scripted;
    WorkerInvariant.Opened(v, env.clock);
    DeploymentFacts(v, env.clock);
    WorkKeeps(v, env, Ok);
    MoveOnward(v, Go(v, Preflight), env, s);
  }

  lemma PreflightOnward(v: View, env: Env, s: Scene)
    requires OnTrack(v, env, s) && v.run.pc == Preflight
    ensures Credible(v, env, Cue(v, s)) && Onward(v, Happen(v, env, Cue(v, s)), env, s)
  {
    hide Onward, OnTrack, CueMoves, Credible, Happen;
    RecordIsAccepted(v, env, s);
    PreflightMoves(v, env, s);
    MovingCueOnward(v, env, s);
  }

  /** Before the switch the Master record is one the service accepts. */
  lemma RecordIsAccepted(v: View, env: Env, s: Scene)
    requires OnTrack(v, env, s) && v.run.pc == Preflight
    ensures !v.master.transitive && v.master.tlsVerifyMode != "mtls"
    ensures v.master.hasApiToken ==> v.node.credentials.apiTokenRef.Some?
  {
    hide TargetFor, Verifies, CandidateOk;
    WorkerInvariant.Opened(v, env.clock);
    JobFacts(v, env.clock);
  }

  lemma PreflightMoves(v: View, env: Env, s: Scene)
    requires v.run.pc == Preflight && !v.master.transitive && v.master.tlsVerifyMode != "mtls"
    requires v.master.hasApiToken ==> v.node.credentials.apiTokenRef.Some?
    ensures CueMoves(v, env, s)
  {
    hide AtStage, AtLookup, AtCreate, AtPersist, AtReaped, AtDeploy, AtOldDone, AtFailing, AtRollback, AtFinal, AtShown;
  }

  lemma ShownOnward(v: View, env: Env, s: Scene)
    requires OnTrack(v, env, s) && v.run.pc.Shown?
    ensures Credible(v, env, Cue(v, s)) && Onward(v, Happen(v, env, Cue(v, s)), env, s)
  {
    hide Verifies, TargetFor, CandidateOk, RequestOk, AtStage, AtLookup, AtCreate, AtPersist, AtReaped, AtDeploy,
      AtOldDone, AtFailing, AtRollback, AtFinal;
    WorkerInvariant.Opened(v, env.clock);
    JobFacts(v, env.clock);
    DeploymentFacts(v, env.clock);
    WorkKeeps(v, env, Cue(v, s).i);
  }

  lemma TestedOnward(v: View, env: Env, s: Scene)
    requires OnTrack(v, env, s) && v.run.pc == Tested
    ensures Credible(v, env, Cue(v, s)) && Onward(v, Happen(v, env, Cue(v, s)), env, s)
  {
    hide Onward, Scripted, Commit;
    TargetIsKnown(v, env, s);
    hide TargetFor;
    WorkKeeps(v, env, Ok);
    NodeVerifiedCommitOnward(v, env, s);
  }

  lemma NodeVerifiedCommitOnward(v: View, env: Env, s: Scene)
    requires OnTrack(v, env, s) && v.run.pc == Tested && Inv(Commit(v, v, MasterUpdating), env.clock)
    ensures Onward(v, Commit(v, v, MasterUpdating), env, s)
  {
    hide Verifies, TargetFor, CandidateOk, LocalsOk, RequestOk;
    WorkerInvariant.Opened(v, env.clock);
    JobFacts(v, env.clock);
  }

  lemma TargetIsKnown(v: View, env: Env, s: Scene)
    requires OnTrack(v, env, s) && v.run.pc == Tested
    ensures TargetOf(v).Some?
  {
    hide Verifies;
    WorkerInvariant.Opened(v, env.clock);
    DeploymentFacts(v, env.clock);
  }

  lemma MasterUpdatingOnward(v: View, env: Env, s: Scene)
    requires OnTrack(v, env, s) && v.run.pc == Enter(MasterUpdating)
    ensures Credible(v, env, Cue(v, s)) && Onward(v, Happen(v, env, Cue(v, s)), env, s)
  {
    hide TargetFor, Verifies;
    WorkerInvariant.Opened(v, env.clock);
    JobFacts(v, env.clock);
    DeploymentFacts(v, env.clock);
    WorkKeeps(v, env, Cue(v, s).i);
  }

  lemma SwitchPinOnward(v: View, env: Env, s: Scene)
    requires OnTrack(v, env, s) && v.run.pc.SwitchPin?
    ensures Credible(v, env, Cue(v, s)) && Onward(v, Happen(v, env, Cue(v, s)), env, s)
  {
    hide Onward, OnTrack, CueMoves, Credible, Happen;
    SwitchPinMoves(v, env, s);
    MovingCueOnward(v, env, s);
  }

  lemma SwitchPinMoves(v: View, env: Env, s: Scene)
    requires v.run.pc.SwitchPin?
    ensures CueMoves(v, env, s)
  {
    hide Pinned, AtStage, AtLookup, AtCreate, AtPersist, AtReaped, AtDeploy, AtOldDone, AtFailing, AtRollback,
      AtFinal, AtShown;
  }

  lemma SwitchOnward(v: View, env: Env, s: Scene)
    requires OnTrack(v, env, s) && v.run.pc.Switch?
    ensures Credible(v, env, Cue(v, s)) && Onward(v, Happen(v, env, Cue(v, s)), env, s)
  {
    hide Work, OnTrack, Onward, Plausible, Visible, Written, AtSwitch;
    OnTrackInv(v, env, s);
    HappenIs(v, env, s);
    SwitchIs(v, env, s);
    WorkKeeps(v, env, Ok);
    SwitchedOnward(v, env, s);
  }

  lemma SwitchIs(v: View, env: Env, s: Scene)
    requires v.run.pc.Switch?
    ensures Cue(v, s) == Do(Ok) && Plausible(v, env, Ok) && Visible(v, env, Ok)
    ensures Work(v, env, Ok) == Go(Written(v, v.run.pc.m, Switcher(v.id)), Switched)
  {
    hide Written;
  }

  lemma SwitchedOnward(v: View, env: Env, s: Scene)
    requires OnTrack(v, env, s) && v.run.pc.Switch? && Inv(Go(Written(v, v.run.pc.m, Switcher(v.id)), Switched), env.clock)
    ensures Onward(v, Go(Written(v, v.run.pc.m, Switcher(v.id)), Switched), env, s)
  {
    hide Verifies, Written, TargetFor, CandidateOk, RequestOk;
    WorkerInvariant.Opened(v, env.clock);
    SentTarget(v, env, s);
    WrittenShape(v, v.run.pc.m);
  }

  lemma WrittenShape(v: View, m: Mutation)
    ensures var w := Written(v, m, Switcher(v.id));
            w == v.(master := w.master, log := w.log) && TargetOf(w) == TargetOf(v)
            && w.master.status == v.master.status && w.master.xrayState == v.master.xrayState
  {
    hide TargetFor;
  }

  lemma SentTarget(v: View, env: Env, s: Scene)
    requires OnTrack(v, env, s) && v.run.pc.Switch?
    ensures TargetOf(v).Some? && v.run.pc.m == TargetOf(v).value
    ensures Verifies(Written(v, v.run.pc.m, Switcher(v.id)).master, s.probe, v.run.pc.m)
  {
    hide Verifies, Written;
    WorkerInvariant.Opened(v, env.clock);
    DeploymentFacts(v, env.clock);
    SwitchVerifies(v, s);
  }

  lemma PlainTarget(v: View, s: Scene)
    requires s.Fits() && TargetOf(v).Some? && v.deployment.value.config == Some(s.panel)
    ensures forall fp :: Pinned(TargetOf(v).value, fp) == TargetOf(v).value
  {
  }

  /** An http target is sent as it is, and the record it leaves verifies against it. */
  lemma SwitchVerifies(v: View, s: Scene)
    requires s.Fits() && v.master.status == "" && v.master.xrayState == ""
    requires v.job.snapshot.Some? && HasPanel(v) && v.deployment.value.config == Some(s.panel)
    ensures TargetOf(v).Some?
    ensures var m := TargetOf(v).value;
            (forall fp :: Pinned(m, fp) == m) && Verifies(Written(v, m, Switcher(v.id)).master, s.probe, m)
  {
    var m := TargetOf(v).value;
    FreshWriteVerifies(v.master, m, s.probe);
    assert Effective(s.probe.status, v.master.status) == Effective(s.probe.status, "");
  }

  /** A late stage that ends. */
  lemma LateCommitOnward(v: View, w: View, target: Checkpoint, env: Env, s: Scene)
    requires OnTrack(v, env, s) && InStage(v.run.pc) && Rank(StageOf(v.run.pc)) >= 8
    requires target == Next(StageOf(v.run.pc)) && target != Completed && w == Commit(v, Marked(v, target), target)
    requires Rank(StageOf(v.run.pc)) == 8 ==> v.run.pc == Switched
    ensures Onward(v, w, env, s)
  {
    hide TargetFor, Verifies, LocalsOk, RequestOk, Remaining, Commit, CandidateOk, MarkersArePrefix, GatesFit;
    WorkerInvariant.Opened(v, env.clock);
    JobFacts(v, env.clock);
    if v.run.pc == Switched {
      LateWrittenLog(v, env.clock);
    }
    LateKeeps(v, target, env.clock);
    LateShape(v, target);
    LateRemaining(v.job, target);
  }

  lemma LateAllowed(c: Checkpoint)
    requires 8 <= Rank(c) <= 14
    ensures Allowed(c, Next(c)) && Next(c) != c && Next(c) != Failed && Next(c) != Cancelled
    ensures Next(c) != Completed ==> !Terminal(Next(c))
  {
  }

  lemma LateMoved(j: Job, target: Checkpoint)
    requires 8 <= Rank(j.checkpoint) <= 14 && target == Next(j.checkpoint)
    ensures Worker.Moved(j, target) == Success(Advanced(j, target))
  {
    LateAllowed(j.checkpoint);
  }

  lemma MarkedShape(v: View, target: Checkpoint)
    ensures var m := Marked(v, target);
            && m == v.(job := m.job) && m.job.checkpoint == v.job.checkpoint && m.job.active == v.job.active
            && m.job.advances == v.job.advances && m.job.attempt == v.job.attempt && m.job.maxAttempts == v.job.maxAttempts
            && m.job.dryRun == v.job.dryRun && m.job.newVps == v.job.newVps && m.job.snapshot == v.job.snapshot
  {
  }

  lemma LateShape(v: View, target: Checkpoint)
    requires 8 <= Rank(v.job.checkpoint) <= 14 && target == Next(v.job.checkpoint) && target != Completed && v.job.active
    ensures var w := Commit(v, Marked(v, target), target);
            && w == v.(job := w.job, run := w.run) && w.run == v.run.(pc := LoopTop)
            && w.job.checkpoint == target && w.job.active && w.job.advances == v.job.advances + 1
            && w.job.attempt == v.job.attempt && w.job.maxAttempts == v.job.maxAttempts && w.job.dryRun == v.job.dryRun
            && TargetOf(w) == TargetOf(v)
  {
    hide TargetFor, Allowed, Rank, Next, Marked, Worker.Moved;
    LateAllowed(v.job.checkpoint);
    MarkedShape(v, target);
    LateMoved(Marked(v, target).job, target);
  }

  lemma LateRemaining(j: Job, target: Checkpoint)
    requires 8 <= Rank(j.checkpoint) <= 14 && target == Next(j.checkpoint) && target != Completed
    ensures Remaining(target, j.attempt, j.maxAttempts) == Remaining(j.checkpoint, j.attempt, j.maxAttempts) - 1
    ensures Rank(target) == Rank(j.checkpoint) + 1
    ensures 1 <= j.attempt == j.maxAttempts ==> 0 <= Remaining(target, j.attempt, j.maxAttempts)
  {
  }

  lemma LateWrittenLog(v: View, clock: nat)
    requires Inv(v, clock) && v.run.pc == Switched
    ensures WasSwitched(v.id, v.log)
  {
    assert Examined(v, v);
  }

  lemma LateOnward(v: View, env: Env, s: Scene)
    requires OnTrack(v, env, s)
    requires v.run.pc == Switched || v.run.pc == Verified || v.run.pc == FinalDone || v.run.pc == Enter(MasterUpdated)
             || v.run.pc == Enter(MasterVerified) || v.run.pc == Enter(FinalVerified)
    ensures Credible(v, env, Cue(v, s)) && Onward(v, Happen(v, env, Cue(v, s)), env, s)
  {
    hide OnTrack, Onward, Commit;
    LateCommitOnward(v, Work(v, env, Ok), Next(StageOf(v.run.pc)), env, s);
  }

  lemma MasterVerifyingOnward(v: View, env: Env, s: Scene)
    requires OnTrack(v, env, s) && v.run.pc == Enter(MasterVerifying)
    ensures Credible(v, env, Cue(v, s)) && Onward(v, Happen(v, env, Cue(v, s)), env, s)
  {
    hide TargetFor, Onward, OnTrack, CueMoves, Credible, Happen;
    Fitting(v, env, s);
    OnTrackPlace(v, env, s);
    DeploymentFacts(v, env.clock);
    MasterVerifyingMoves(v, env, s);
    MovingCueOnward(v, env, s);
  }

  lemma MasterVerifyingMoves(v: View, env: Env, s: Scene)
    requires v.run.pc == Enter(MasterVerifying) && !v.job.dryRun && TargetOf(v).Some? && Renews(v, env)
    ensures CueMoves(v, env, s)
  {
    hide Work, TargetFor, AtProvisioning, AtNodeVerified, AtOldVpsCleanup;
    WorkAtStage(v, env, Ok);
  }

  lemma VerifyPinOnward(v: View, env: Env, s: Scene)
    requires OnTrack(v, env, s) && v.run.pc.VerifyPin?
    ensures Credible(v, env, Cue(v, s)) && Onward(v, Happen(v, env, Cue(v, s)), env, s)
  {
    hide Onward, OnTrack, CueMoves, Credible, Happen;
    VerifyPinMoves(v, env, s);
    MovingCueOnward(v, env, s);
  }

  lemma VerifyPinMoves(v: View, env: Env, s: Scene)
    requires v.run.pc.VerifyPin?
    ensures CueMoves(v, env, s)
  {
    hide Pinned, AtStage, AtLookup, AtCreate, AtPersist, AtReaped, AtDeploy, AtOldDone, AtFailing, AtRollback,
      AtFinal, AtShown;
  }

  lemma VerifyOnward(v: View, env: Env, s: Scene)
    requires OnTrack(v, env, s) && v.run.pc.Verify?
    ensures Credible(v, env, Cue(v, s)) && Onward(v, Happen(v, env, Cue(v, s)), env, s)
  {
    hide Onward, OnTrack, CueMoves, Verifies, TargetFor, Credible, Happen;
    assert Verifies(v.master, s.probe, v.run.pc.m) by { TargetIsSent(v, env, s); }
    VerifyMoves(v, env, s);
    MovingCueOnward(v, env, s);
  }

  lemma VerifyMoves(v: View, env: Env, s: Scene)
    requires v.run.pc.Verify? && Verifies(v.master, s.probe, v.run.pc.m)
    ensures CueMoves(v, env, s)
  {
    hide Verifies, AtStage, AtLookup, AtCreate, AtPersist, AtReaped, AtDeploy, AtOldDone, AtFailing, AtRollback,
      AtFinal, AtShown;
  }

  lemma TargetIsSent(v: View, env: Env, s: Scene)
    requires OnTrack(v, env, s) && v.run.pc.Verify?
    ensures TargetOf(v).Some? && v.run.pc.m == TargetOf(v).value && Verifies(v.master, s.probe, v.run.pc.m)
  {
    hide Verifies;
    WorkerInvariant.Opened(v, env.clock);
    DeploymentFacts(v, env.clock);
    PlainTarget(v, s);
  }

  lemma FinalCheckOnward(v: View, env: Env, s: Scene)
    requires OnTrack(v, env, s) && v.run.pc == Enter(FinalCheck)
    ensures Credible(v, env, Cue(v, s)) && Onward(v, Happen(v, env, Cue(v, s)), env, s)
  {
    hide Onward, OnTrack, CueMoves, Credible, Happen;
    Fitting(v, env, s);
    OnTrackPlace(v, env, s);
    DeploymentFacts(v, env.clock);
    FinalCheckMoves(v, env, s);
    MovingCueOnward(v, env, s);
  }

  lemma FinalCheckMoves(v: View, env: Env, s: Scene)
    requires v.run.pc == Enter(FinalCheck) && !v.job.dryRun && Renews(v, env) && HasRow(v) && v.vps[v.job.newVps.value].host != ""
    ensures CueMoves(v, env, s)
  {
    hide Work, TargetFor, AtProvisioning, AtNodeVerified, AtOldVpsCleanup;
    WorkAtStage(v, env, Ok);
  }

  lemma FinalOnward(v: View, env: Env, s: Scene)
    requires OnTrack(v, env, s) && v.run.pc == Final
    ensures Credible(v, env, Cue(v, s)) && Onward(v, Happen(v, env, Cue(v, s)), env, s)
  {
    hide Onward, OnTrack, CueMoves, Credible, Happen;
    FinalMoves(v, env, s);
    MovingCueOnward(v, env, s);
  }

  lemma FinalMoves(v: View, env: Env, s: Scene)
    requires v.run.pc == Final
    ensures CueMoves(v, env, s)
  {
    hide AtStage, AtLookup, AtCreate, AtPersist, AtReaped, AtDeploy, AtOldDone, AtFailing, AtRollback, AtShown;
  }

  lemma CleanupOnward(v: View, env: Env, s: Scene)
    requires OnTrack(v, env, s) && v.run.pc == Enter(OldVpsCleanup)
    ensures Credible(v, env, Cue(v, s)) && Onward(v, Happen(v, env, Cue(v, s)), env, s)
  {
    hide TargetFor, Verifies, GuardPermits;
    WorkerInvariant.Opened(v, env.clock);
    JobFacts(v, env.clock);
    DeploymentFacts(v, env.clock);
    GuardNeverDenies(v, env.clock);
    WorkKeeps(v, env, Cue(v, s).i);
  }

  lemma OldGetOnward(v: View, env: Env, s: Scene)
    requires OnTrack(v, env, s) && v.run.pc.OldGet?
    ensures Credible(v, env, Cue(v, s)) && Onward(v, Happen(v, env, Cue(v, s)), env, s)
  {
    hide Onward, OnTrack, CueMoves, Credible, Happen;
    OldGetMoves(v, env, s);
    MovingCueOnward(v, env, s);
  }

  lemma OldGetMoves(v: View, env: Env, s: Scene)
    requires v.run.pc.OldGet?
    ensures CueMoves(v, env, s)
  {
    hide AtStage, AtLookup, AtCreate, AtPersist, AtReaped, AtDeploy, AtOldDone, AtFailing, AtRollback, AtFinal, AtShown;
  }

  lemma OldDeleteOnward(v: View, env: Env, s: Scene)
    requires OnTrack(v, env, s) && v.run.pc.OldDelete?
    ensures Credible(v, env, Cue(v, s)) && Onward(v, Happen(v, env, Cue(v, s)), env, s)
  {
    hide Onward, OnTrack, CueMoves, Credible, Happen;
    OldDeleteMoves(v, env, s);
    MovingCueOnward(v, env, s);
  }

  lemma OldDeleteMoves(v: View, env: Env, s: Scene)
    requires v.run.pc.OldDelete?
    ensures CueMoves(v, env, s)
  {
    hide AtStage, AtLookup, AtCreate, AtPersist, AtReaped, AtDeploy, AtOldDone, AtFailing, AtRollback, AtFinal, AtShown;
  }

  lemma DoneOnward(v: View, env: Env, s: Scene)
    requires OnTrack(v, env, s) && Coupled(v) && v.run.pc == OldDone
    ensures Credible(v, env, Cue(v, s)) && Onward(v, Happen(v, env, Cue(v, s)), env, s)
  {
    hide Work, Plausible, Visible, TargetFor, Verifies, Replaced, Scripted, Left;
    HappenIs(v, env, s);
    DoneCredible(v, env, s);
    LastStep(v, env, s);
  }

  lemma DoneCredible(v: View, env: Env, s: Scene)
    requires v.run.pc == OldDone
    ensures Cue(v, s) == Do(Ok) && Credible(v, env, Do(Ok)) && Work(v, env, Ok) == AtOldDone(v, env, Ok)
  {
    hide AtOldDone;
  }

  lemma LastStep(v: View, env: Env, s: Scene)
    requires OnTrack(v, env, s) && Coupled(v) && v.run.pc == OldDone
    ensures Onward(v, AtOldDone(v, env, Ok), env, s)
  {
    hide TargetFor, Verifies, Left, AtOldDone, Coupled, RequestOk, CandidateOk;
    OldDeleteIsLive(v, env.clock);
    WorkerInvariant.Opened(v, env.clock);
    JobFacts(v, env.clock);
    ReplacementIsPossible(v, env.clock);
    LastCommit(v, env);
  }

  lemma LastCommit(v: View, env: Env)
    requires HasPanel(v) && v.job.oldVps in v.vps && Coupled(v) && Live(v.job) && v.job.checkpoint == OldVpsCleanup
    ensures var w := AtOldDone(v, env, Ok);
            w.job.checkpoint == Completed && w.job.advances == v.job.advances + 1 && w.job.maxAttempts == v.job.maxAttempts
  {
    hide Replaced;
    ReplacedJob(v);
  }


  // ---- Whole runs ----

  lemma StageOnward(v: View, env: Env, s: Scene)
    requires OnTrack(v, env, s) && v.run.pc.Enter?
    ensures Credible(v, env, Cue(v, s)) && Onward(v, Happen(v, env, Cue(v, s)), env, s)
  {
    hide Onward, Happen, Credible, Scripted, Cooperative, Scene.Fits;
    StageIsOpen(v, env.clock);
    match v.run.pc.stage {
      case Created => CreatedOnward(v, env, s);
      case Provisioning => ProvisioningOnward(v, env, s);
      case Provisioned => ProvisionedOnward(v, env, s);
      case CheckingIp => CheckingIpOnward(v, env, s);
      case TempCleanup => TempCleanupOnward(v, env, s);
      case IpVerified => IpVerifiedOnward(v, env, s);
      case Deploying => DeployingOnward(v, env, s);
      case NodeVerified => NodeVerifiedOnward(v, env, s);
      case MasterUpdating => MasterUpdatingOnward(v, env, s);
      case MasterVerifying => MasterVerifyingOnward(v, env, s);
      case FinalCheck => FinalCheckOnward(v, env, s);
      case OldVpsCleanup => CleanupOnward(v, env, s);
      case _ => LateOnward(v, env, s);
    }
  }

  lemma StageIsOpen(v: View, clock: nat)
    requires Inv(v, clock) && v.run.pc.Enter?
    ensures !Terminal(v.run.pc.stage)
  {
    assert Examined(v, v);
  }

  /** In a cooperating world every step leads on. */
  lemma CueOnward(v: View, env: Env, s: Scene)
    requires OnTrack(v, env, s) && Coupled(v) && (s.oneLease ==> !AtLimit(v))
    ensures Credible(v, env, Cue(v, s)) && Onward(v, Happen(v, env, Cue(v, s)), env, s)
    ensures Coupled(Happen(v, env, Cue(v, s)))
  {
    hide Onward, Happen, Credible, Cooperative, Scene.Fits, Verifies, TargetFor, Coupled;
    LiveIsNotDry(v, env.clock);
    CueLeadsOn(v, env, s);
    CueCoupled(v, env, s);
  }

  lemma CueCoupled(v: View, env: Env, s: Scene)
    requires OnTrack(v, env, s) && Coupled(v) && Credible(v, env, Cue(v, s))
    ensures Coupled(Happen(v, env, Cue(v, s)))
  {
    hide Work, Plausible, Visible, Coupled, Scripted, Cooperative, Scene.Fits;
    HappenIs(v, env, s);
    if v.run.pc == Idle {
      AcquireCoupled(v);
    } else {
      WorkCoupled(v, env, Cue(v, s).i);
    }
  }

  lemma CueLeadsOn(v: View, env: Env, s: Scene)
    requires OnTrack(v, env, s) && Coupled(v) && (s.oneLease ==> !AtLimit(v))
    requires !v.run.pc.DryDelete? && v.run.pc != DryDone
    ensures Credible(v, env, Cue(v, s)) && Onward(v, Happen(v, env, Cue(v, s)), env, s)
  {
    hide Onward, Happen, Credible, Cooperative, Scene.Fits, Verifies, TargetFor, Coupled;
    match v.run.pc {
      case Idle => LoopOnward(v, env, s);
      case LoopTop => LoopOnward(v, env, s);
      case Enter(_) => StageOnward(v, env, s);
      case Lookup(_, _, _, _, _) => ProvisioningOnward(v, env, s);
      case Mark(_, _, _) => MarkOnward(v, env, s);
      case Create(_, _, _, _) => CreateOnward(v, env, s);
      case Persist(_, _, _) => PersistOnward(v, env, s);
      case Await(_) => AwaitOnward(v, env, s);
      case Up(_) => UpOnward(v, env, s);
      case Boot => BootOnward(v, env, s);
      case Rounds => RoundsOnward(v, env, s);
      case Judged(_) => JudgedOnward(v, env, s);
      case Reap(_, _) => ReapOnward(v, env, s);
      case ReapGet(_, _, _) => ReapOnward(v, env, s);
      case ReapDelete(_) => ReapDeleteOnward(v, env, s);
      case Reaped => ReapedOnward(v, env, s);
      case Deploy(_) => DeployOnward(v, env, s);
      case Preflight => PreflightOnward(v, env, s);
      case Shown(_) => ShownOnward(v, env, s);
      case Tested => TestedOnward(v, env, s);
      case SwitchPin(_) => SwitchPinOnward(v, env, s);
      case Switch(_) => SwitchOnward(v, env, s);
      case VerifyPin(_) => VerifyPinOnward(v, env, s);
      case Verify(_) => VerifyOnward(v, env, s);
      case Final => FinalOnward(v, env, s);
      case OldGet(_, _) => OldGetOnward(v, env, s);
      case OldDelete(_) => OldDeleteOnward(v, env, s);
      case OldDone => DoneOnward(v, env, s);
      case _ => LateOnward(v, env, s);
    }
  }

  lemma LiveIsNotDry(v: View, clock: nat)
    requires Inv(v, clock) && Live(v.job)
    ensures !v.run.pc.DryDelete? && v.run.pc != DryDone
  {
    assert Examined(v, v);
  }

  /** The bound is met: some run advances the job by exactly four dispatches an attempt and ten more. */
  lemma {:induction false} BoundIsMet(v: View, env: Env, s: Scene) returns (acts: seq<Act>)
    requires OnTrack(v, env, s) && Coupled(v) && !s.oneLease
    ensures CredibleRun(v, env, acts)
    ensures Play(v, env, acts).job.checkpoint == Completed
    ensures Play(v, env, acts).job.advances == 4 * Play(v, env, acts).job.maxAttempts + 10
    ensures Rank(v.job.checkpoint) >= 12 ==> Play(v, env, acts).master == v.master
    ensures Addressed(v, s) ==> Play(v, env, acts).node.host == s.address
    decreases Measure(v)
  {
    hide OnTrack, Happen, Credible, Coupled, Addressed;
    CueOnward(v, env, s);
    FinalStepsSpareMaster(v, env, s);
    var w := Happen(v, env, Cue(v, s));
    if Addressed(v, s) {
      CueAddressed(v, env, s);
    }
    Start(w, env);
    var rest := [];
    if w.job.checkpoint != Completed {
      OnTrackInv(w, env, s);
      rest := BoundIsMet(w, env, s);
    } else {
      CompletedIsOver(v, env, s);
    }
    Before(v, env, Cue(v, s), rest);
    acts := [Cue(v, s)] + rest;
  }

  lemma CompletedIsOver(v: View, env: Env, s: Scene)
    requires OnTrack(v, env, s) && Credible(v, env, Cue(v, s)) && Happen(v, env, Cue(v, s)).job.checkpoint == Completed
    ensures !Happen(v, env, Cue(v, s)).job.active && !OnTrack(Happen(v, env, Cue(v, s)), env, s)
  {
    hide Happen, Credible, Scripted, Cooperative, Scene.Fits, Touches;
    HappenKeeps(v, env, Cue(v, s));
    ActiveJobsAreOpen(Happen(v, env, Cue(v, s)), env.clock);
  }

  // ---- The address of the candidate ----

  /** The candidate that is up stands at the scene's address. */
  predicate Addressed(v: View, s: Scene) {
    && (Rank(v.job.checkpoint) == 3 || Rank(v.job.checkpoint) >= 5 || v.run.pc == Boot ==>
          HasRow(v) && v.vps[v.job.newVps.value].host == s.address)
    && (v.run.pc.Up? ==> v.run.pc.ip == s.address)
  }

  /** A worker on track is in the stage of its checkpoint, and neither failing nor rolling back. */
  lemma OnTrackPlace(v: View, env: Env, s: Scene)
    requires OnTrack(v, env, s)
    ensures Inv(v, env.clock) && Live(v.job) && !Terminal(v.job.checkpoint) && v.run.pc != Failing && v.run.pc != Gone
    ensures InStage(v.run.pc) ==> StageOf(v.run.pc) == v.job.checkpoint
    ensures !v.run.pc.Rollback? && !v.run.pc.RollWrite? && !v.run.pc.RollCheck?
  {
    hide TargetFor, Verifies;
    WorkerInvariant.Opened(v, env.clock);
    JobFacts(v, env.clock);
  }

  lemma CueAddressed(v: View, env: Env, s: Scene)
    requires OnTrack(v, env, s) && Addressed(v, s) && Credible(v, env, Cue(v, s))
    ensures var w := Happen(v, env, Cue(v, s));
            if w.job.active then Addressed(w, s) else w.node.host == s.address
  {
    hide Work, OnTrack, Addressed, Plausible, Visible, Touches;
    OnTrackPlace(v, env, s);
    LiveIsNotDry(v, env.clock);
    HappenIs(v, env, s);
    HappenKeeps(v, env, Cue(v, s));
    if v.run.pc == Idle {
      IdleAddressed(v, s);
    } else if !Loud(v.run.pc) {
      QuietAddressed(v, env, s);
    } else if v.run.pc == OldDone {
      NodeIsMoved(v, env, s, Cue(v, s).i);
    } else {
      LoudAddressed(v, env, s, Cue(v, s).i);
    }
  }

  lemma IdleAddressed(v: View, s: Scene)
    requires Addressed(v, s) && v.run.pc == Idle
    ensures Addressed(Acquire(v), s) && Acquire(v).job == v.job
  {
  }

  lemma QuietAddressed(v: View, env: Env, s: Scene)
    requires Inv(v, env.clock) && v.job.active && (InStage(v.run.pc) ==> StageOf(v.run.pc) == v.job.checkpoint)
    requires !v.run.pc.Rollback? && !v.run.pc.RollWrite? && !v.run.pc.RollCheck?
    requires Addressed(v, s) && !Loud(v.run.pc) && v.run.pc != Idle && Inv(Work(v, env, Cue(v, s).i), env.clock)
    ensures Work(v, env, Cue(v, s).i).job.active && Addressed(Work(v, env, Cue(v, s).i), s)
  {
    hide Work, Addressed;
    var i := Cue(v, s).i;
    var w := Work(v, env, i);
    QuietWork(v, env, i);
    ActiveJobsAreOpen(w, env.clock);
    WorkFlows(v, env, i);
    if v.run.pc.Await? {
      AwaitMovesNothing(v, env, s);
    } else if v.run.pc == Enter(Provisioned) {
      ProvisionedMovesNothing(v, env, i);
    } else if !InStage(v.run.pc) {
      LoopMovesNothing(v, env, i);
    }
    MovedAddressed(v, w, s);
  }

  lemma MovedAddressed(v: View, w: View, s: Scene)
    requires !v.run.pc.Rollback? && !v.run.pc.RollWrite? && !v.run.pc.RollCheck?
    requires Addressed(v, s) && !Loud(v.run.pc) && (InStage(v.run.pc) ==> StageOf(v.run.pc) == v.job.checkpoint)
    requires w.vps == v.vps && w.job.newVps == v.job.newVps && Flows(v.run.pc, w.run.pc)
    requires CanMove(v.job.checkpoint, w.job.checkpoint) && !Terminal(w.job.checkpoint)
    requires !InStage(v.run.pc) || v.run.pc.Await? || v.run.pc == Enter(Provisioned) ==> w.job.checkpoint == v.job.checkpoint
    requires v.run.pc.Await? && w.run.pc.Up? ==> w.run.pc.ip == s.address
    ensures Addressed(w, s)
  {
    if Rank(w.job.checkpoint) == 3 || Rank(w.job.checkpoint) >= 5 {
      assert Rank(v.job.checkpoint) == 3 || Rank(v.job.checkpoint) >= 5 || v.run.pc == Boot;
    }
  }

  lemma AwaitMovesNothing(v: View, env: Env, s: Scene)
    requires v.run.pc.Await?
    ensures var w := Work(v, env, Cue(v, s).i); w.job == v.job && (w.run.pc.Up? ==> w.run.pc.ip == s.address)
  {
    hide AtStage, AtLookup, AtCreate, AtPersist, AtReaped, AtDeploy, AtOldDone, AtFailing, AtRollback, AtFinal, AtShown;
  }

  lemma ProvisionedMovesNothing(v: View, env: Env, i: Input)
    requires v.run.pc == Enter(Provisioned)
    ensures Work(v, env, i).job == v.job
  {
    WorkAtStage(v, env, i);
  }

  lemma LoudAddressed(v: View, env: Env, s: Scene, i: Input)
    requires InStage(v.run.pc) && StageOf(v.run.pc) == v.job.checkpoint && v.job.active && Addressed(v, s)
    requires Loud(v.run.pc) && v.run.pc != OldDone && v.run.pc != DryDone && v.run.pc != Gone && !v.run.pc.DryDelete?
    ensures Work(v, env, i).job.active && Addressed(Work(v, env, i), s)
  {
    hide Work, Addressed;
    LoudIsOngoing(v, env, i);
    WorkFlows(v, env, i);
    if v.run.pc.Up? {
      UpAddressed(v, env, s, i);
    } else if v.run.pc.Persist? || v.run.pc == Reaped {
      EarlyAddressed(v, env, s, i);
    } else if v.run.pc == Enter(IpVerified) || v.run.pc.Deploy? {
      SessionKeepsRows(v, env, i);
      SameRowsAddressed(v, Work(v, env, i), s);
    } else {
      CallsAreOutward(v, env, i);
      SameRowsAddressed(v, Work(v, env, i), s);
    }
  }

  lemma SameRowsAddressed(v: View, w: View, s: Scene)
    requires Addressed(v, s) && InStage(v.run.pc) && StageOf(v.run.pc) == v.job.checkpoint && !v.run.pc.Await? && !v.run.pc.Up?
    requires w.vps == v.vps && w.job.newVps == v.job.newVps && Flows(v.run.pc, w.run.pc)
    requires w.job.checkpoint == v.job.checkpoint || Rank(v.job.checkpoint) >= 5
    ensures Addressed(w, s)
  {
  }

  lemma SessionKeepsRows(v: View, env: Env, i: Input)
    requires v.run.pc == Enter(IpVerified) || v.run.pc.Deploy?
    ensures Work(v, env, i).vps == v.vps && Work(v, env, i).job.newVps == v.job.newVps
  {
    hide AtIpVerified, AtDeploy;
  }

  lemma UpAddressed(v: View, env: Env, s: Scene, i: Input)
    requires v.run.pc.Up? && v.job.checkpoint == Provisioned && Addressed(v, s)
    ensures Addressed(Work(v, env, i), s)
  {
    hide AtStage, AtLookup, AtCreate, AtPersist, AtReaped, AtDeploy, AtOldDone, AtFailing, AtRollback, AtFinal, AtShown;
  }

  lemma EarlyAddressed(v: View, env: Env, s: Scene, i: Input)
    requires (v.run.pc.Persist? && v.job.checkpoint == Provisioning) || (v.run.pc == Reaped && v.job.checkpoint == TempCleanup)
    ensures Addressed(Work(v, env, i), s)
  {
    hide AtPersist, AtReaped, HasRow;
    WorkFlows(v, env, i);
    if v.run.pc.Persist? {
      PersistTarget(v, env, i);
    } else {
      ReapedTarget(v, env, i);
    }
  }

  /** The final commit points the node at the candidate. */
  lemma NodeIsMoved(v: View, env: Env, s: Scene, i: Input)
    requires v.run.pc == OldDone && v.job.active && v.job.checkpoint == OldVpsCleanup && Addressed(v, s)
    ensures var w := Work(v, env, i);
            if w.job.active then Addressed(w, s) else w.node.host == s.address
  {
    hide AtOldDone;
    CommitMovesNode(v, env, s, i);
  }

  lemma CommitMovesNode(v: View, env: Env, s: Scene, i: Input)
    requires v.run.pc == OldDone && v.job.active && v.job.checkpoint == OldVpsCleanup && Addressed(v, s)
    ensures var w := AtOldDone(v, env, i);
            if w.job.active then Addressed(w, s) else w.node.host == s.address
  {
    hide CanTransition, Replaced, Commit, Addressed;
    MovedPlaceAddressed(v, s);
    if HasPanel(v) && v.job.oldVps in v.vps {
      LastCommitMovesNode(v, s);
    }
  }

  lemma MovedPlaceAddressed(v: View, s: Scene)
    requires Addressed(v, s) && v.run.pc == OldDone
    ensures Addressed(Fall(v), s)
  {
  }

  lemma LastCommitMovesNode(v: View, s: Scene)
    requires HasPanel(v) && v.job.oldVps in v.vps && v.job.checkpoint == OldVpsCleanup && Addressed(v, s)
    ensures var w := Commit(v, Replaced(v), Completed); !w.job.active && w.node.host == s.address
  {
    hide Replaced;
    ReplacedHost(v);
  }

  lemma ReplacedHost(v: View)
    requires HasPanel(v) && v.job.oldVps in v.vps
    ensures Replaced(v).node.host == v.vps[v.job.newVps.value].host && Replaced(v).job == v.job.(oldDeleted := true)
  {
  }

  /** From the final check on a cooperating world never makes the worker write the Master. */
  lemma FinalStepsSpareMaster(v: View, env: Env, s: Scene)
    requires OnTrack(v, env, s)
    ensures Rank(v.job.checkpoint) >= 12 ==>
              Happen(v, env, Cue(v, s)).master == v.master && Rank(Happen(v, env, Cue(v, s)).job.checkpoint) >= 12
  {
    hide Happen, Work, Plausible, Visible, CanMove;
    if Rank(v.job.checkpoint) >= 12 {
      FinalPlaces(v, env, s);
      HappenIs(v, env, s);
      if v.run.pc.OldDelete? || v.run.pc == OldDone {
        LoudFinalSteps(v, env);
      } else if v.run.pc != Idle {
        QuietWork(v, env, Cue(v, s).i);
        RankGrows(v.job.checkpoint, Work(v, env, Cue(v, s).i).job.checkpoint);
      }
    }
  }

  lemma RankGrows(c: Checkpoint, target: Checkpoint)
    requires CanMove(c, target) && Rank(c) >= 12
    ensures Rank(target) >= 12
  {
  }

  lemma HappenIs(v: View, env: Env, s: Scene)
    ensures v.run.pc == Idle ==> Happen(v, env, Cue(v, s)) == Acquire(v)
    ensures v.run.pc != Idle ==> Happen(v, env, Cue(v, s)) == Work(v, env, Cue(v, s).i)
  {
    hide Work, Plausible, Visible;
  }

  lemma LoudFinalSteps(v: View, env: Env)
    requires v.run.pc.OldDelete? || v.run.pc == OldDone
    requires Rank(v.job.checkpoint) >= 12
    ensures Work(v, env, Ok).master == v.master && Rank(Work(v, env, Ok).job.checkpoint) >= 12
  {
    hide AtOldDelete, AtOldDone;
    OldDoneTarget(v, env, Ok);
  }

  lemma FinalPlaces(v: View, env: Env, s: Scene)
    requires OnTrack(v, env, s) && Rank(v.job.checkpoint) >= 12
    ensures Loud(v.run.pc) ==> v.run.pc.OldDelete? || v.run.pc == OldDone
  {
    hide Verifies, TargetFor;
    WorkerInvariant.Opened(v, env.clock);
  }

  /**
   With fourteen attempts or more one worker can meet its step limit on an unfinished job, and lets go of it.
   */
  lemma {:induction false} LimitIsMet(v: View, env: Env, s: Scene) returns (acts: seq<Act>)
    requires OnTrack(v, env, s) && Coupled(v) && s.oneLease && v.job.maxAttempts >= 14
    ensures CredibleRun(v, env, acts)
    ensures var w := Play(v, env, acts);
            w.run.pc == LoopTop && w.run.dispatches == STEP_LIMIT && w.job.active && Work(w, env, Ok) == Leave(w)
    decreases Measure(v)
  {
    hide OnTrack, Happen, Credible, Coupled;
    OneLeaseFacts(v, env, s);
    Start(v, env);
    if AtLimit(v) {
      acts := [];
    } else {
      CueOnward(v, env, s);
      var w := Happen(v, env, Cue(v, s));
      var rest := LimitIsMet(w, env, s);
      Before(v, env, Cue(v, s), rest);
      acts := [Cue(v, s)] + rest;
    }
  }

  lemma OneLeaseFacts(v: View, env: Env, s: Scene)
    requires OnTrack(v, env, s) && s.oneLease
    ensures OneLease(v) && v.job.active && !Terminal(v.job.checkpoint) && v.job.advances <= STEP_LIMIT
  {
    WorkerInvariant.Opened(v, env.clock);
    JobFacts(v, env.clock);
  }

  /** A job as it is admitted stands at the start of such a run. */
  lemma FreshIsOnTrack(v: View, env: Env, s: Scene)
    requires Inv(v, env.clock) && Live(v.job) && v.job.checkpoint == Created && v.job.advances == 0
    requires v.run == Run(if s.oneLease then LoopTop else Idle, 0, v.run.at) && Cooperative(v, env) && s.Fits()
    requires !v.master.transitive && v.master.tlsVerifyMode != "mtls" && !v.master.hasApiToken
    requires v.master.status == "" && v.master.xrayState == ""
    ensures OnTrack(v, env, s)
  {
    WorkerInvariant.Opened(v, env.clock);
    JobFacts(v, env.clock);
    DeploymentFacts(v, env.clock);
  }
}
