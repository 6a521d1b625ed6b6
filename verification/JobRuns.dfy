/** Runs of one job: what a whole run can and cannot end in, and runs that show where a promise stops. */
module JobRuns {
  import opened Types
  import opened CheckpointGraph
  import opened NodeLifecycle
  import opened MasterAlgebra
  import opened Worker
  import opened WorkerInvariant
  import opened WorkerEffects
  import opened NodeCoupling
  import opened JobGuarantees

  /** What can happen to one job. */
  datatype Act = Do(i: Input) | Dying | Taking | Cancelling

  function Happen(v: View, env: Env, a: Act): View {
    match a
    case Do(i) => Work(v, env, i)
    case Dying => Crash(v)
    case Taking => Acquire(v)
    case Cancelling => Cancel(v)
  }

  predicate Credible(v: View, env: Env, a: Act) {
    match a
    case Do(i) => Plausible(v, env, i) && Visible(v, env, i)
    case _ => true
  }

  function Play(v: View, env: Env, acts: seq<Act>): View {
    if acts == [] then v else Happen(Play(v, env, acts[..|acts| - 1]), env, acts[|acts| - 1])
  }

  ghost predicate CredibleRun(v: View, env: Env, acts: seq<Act>) {
    forall n :: 0 <= n < |acts| ==> Credible(Play(v, env, acts[..n]), env, acts[n])
  }

  /** Takes one more act at the end of a run. */
  lemma Further(v: View, env: Env, acts: seq<Act>, a: Act)
    requires CredibleRun(v, env, acts) && Credible(Play(v, env, acts), env, a)
    ensures CredibleRun(v, env, acts + [a])
    ensures Play(v, env, acts + [a]) == Happen(Play(v, env, acts), env, a)
  {
    hide Happen, Credible;
    var all := acts + [a];
    assert all[..|acts|] == acts;
    forall n | 0 <= n < |all| ensures Credible(Play(v, env, all[..n]), env, all[n]) {
      assert n < |acts| ==> all[..n] == acts[..n];
    }
  }

  /** One act before a run. */
  lemma {:induction false} Before(v: View, env: Env, a: Act, acts: seq<Act>)
    requires Credible(v, env, a) && CredibleRun(Happen(v, env, a), env, acts)
    ensures CredibleRun(v, env, [a] + acts)
    ensures Play(v, env, [a] + acts) == Play(Happen(v, env, a), env, acts)
  {
    hide Happen, Credible;
    var w := Happen(v, env, a);
    forall n | 0 <= n <= |acts| ensures Play(v, env, [a] + acts[..n]) == Play(w, env, acts[..n]) {
      PlayBefore(v, env, a, acts[..n]);
    }
    forall n | 0 <= n < |acts| + 1 ensures Credible(Play(v, env, ([a] + acts)[..n]), env, ([a] + acts)[n]) {
      if n > 0 {
        assert ([a] + acts)[..n] == [a] + acts[..n - 1];
      }
    }
    assert acts[..|acts|] == acts;
  }

  lemma {:induction false} PlayBefore(v: View, env: Env, a: Act, acts: seq<Act>)
    ensures Play(v, env, [a] + acts) == Play(Happen(v, env, a), env, acts)
  {
    hide Happen;
    var all := [a] + acts;
    if acts != [] {
      PlayBefore(v, env, a, acts[..|acts| - 1]);
      assert all[..|all| - 1] == [a] + acts[..|acts| - 1];
    } else {
      assert all[..0] == [];
    }
  }

  lemma HappenKeeps(v: View, env: Env, a: Act)
    requires Inv(v, env.clock) && Credible(v, env, a)
    ensures Inv(Happen(v, env, a), env.clock) && Touches(v, Happen(v, env, a))
  {
    hide Touches, Plausible, Visible, Work, Cancel;
    match a {
      case Do(i) => WorkKeeps(v, env, i); WorkTouches(v, env, i);
      case Dying => CrashKeeps(v, env.clock); QuietTouches(v, Crash(v));
      case Taking => AcquireKeeps(v, env.clock); QuietTouches(v, Acquire(v));
      case Cancelling => CancelKeeps(v, env.clock); CancelTouches(v, env.clock);
    }
  }

  // ---- A dry run from end to end ----

  /**
   What of the real world a situation shows: the node, the Master, the cloud and the registry of real
   servers.
   */
  ghost predicate SameReality(v: View, w: View) {
    && w.node == v.node && w.master == v.master && w.log == v.log
    && (forall k :: k in v.servers && v.servers[k].inCloud ==> k in w.servers && w.servers[k] == v.servers[k])
    && (forall k :: k in w.servers && w.servers[k].inCloud ==> k in v.servers && v.servers[k].inCloud)
    && (forall k :: k in v.vps && v.vps[k].role == Current ==> k in w.vps && w.vps[k] == v.vps[k])
  }

  /**
   No run of a dry-run job -- all stages, failures, crashes and cancels included -- changes anything real.
   */
  lemma {:induction false} DryRunIsHarmless(v: View, env: Env, acts: seq<Act>)
    requires Inv(v, env.clock) && v.job.dryRun && CredibleRun(v, env, acts)
    ensures Inv(Play(v, env, acts), env.clock) && Play(v, env, acts).job.dryRun && SameReality(v, Play(v, env, acts))
  {
    hide Happen, Credible, Touches, SameReality;
    if acts != [] {
      var front, a := acts[..|acts| - 1], acts[|acts| - 1];
      forall n | 0 <= n < |front| ensures Credible(Play(v, env, front[..n]), env, front[n]) {
        assert front[..n] == acts[..n];
      }
      DryRunIsHarmless(v, env, front);
      var u := Play(v, env, front);
      HappenKeeps(u, env, a);
      DryStep(u, Happen(u, env, a), env.clock);
      SameRealityJoins(v, u, Happen(u, env, a));
    } else {
      SameRealityHere(v);
    }
  }

  lemma SameRealityHere(v: View)
    ensures SameReality(v, v)
  {
  }

  lemma SameRealityJoins(v: View, u: View, w: View)
    requires SameReality(v, u) && SameReality(u, w)
    ensures SameReality(v, w)
  {
  }

  lemma DryStep(v: View, w: View, clock: nat)
    requires Inv(v, clock) && Touches(v, w) && v.job.dryRun
    ensures SameReality(v, w) && w.job.dryRun
  {
    DryRunTouchesNothingReal(v, w, clock);
    WorkerInvariant.Opened(v, clock);
    JobFacts(v, clock);
  }

  // ---- Ending without success ----

  /**
   A live job that fails or is cancelled leaves its node in the state and with both counters it
   was found with, unless the switch was recorded: then the node is FAILED.
   */
  lemma UnsuccessfulEndRestoresNode(v: View, target: Checkpoint, clock: nat)
    requires Inv(v, clock) && Coupled(v) && Live(v.job) && (target == Failed || target == Cancelled)
    ensures var n := Ended(v, target).node;
            && n.state == (if v.job.masterUpdated then NodeFailed else v.job.found.state)
            && n.failures == v.job.found.failures && n.successes == v.job.found.successes
  {
    hide Ended;
    EndingRestores(v, target, clock);
  }

  // ---- One target from the preflight to the verification ----

  /**
   From MASTER_UPDATING on no step changes the target that the update sends and the verification expects.
   */
  lemma StepKeepsTarget(v: View, env: Env, a: Act)
    requires Inv(v, env.clock) && Credible(v, env, a) && Live(v.job) && Rank(v.job.checkpoint) >= 8
    requires Happen(v, env, a).job.active
    ensures TargetOf(v).Some? && TargetOf(Happen(v, env, a)) == TargetOf(v)
    ensures Rank(Happen(v, env, a).job.checkpoint) >= 8 && Live(Happen(v, env, a).job)
  {
    hide TargetFor, Cancel, Plausible, Visible, Work;
    HasTarget(v, env.clock);
    match a {
      case Do(i) =>
        if !Loud(v.run.pc) {
          QuietWork(v, env, i);
          QuietKeepsTarget(v, Work(v, env, i), env.clock);
        } else {
          LateLoudKeepsRows(v, env, i);
        }
      case Cancelling => CancelEnds(v, env.clock);
      case _ =>
    }
  }

  lemma HasTarget(v: View, clock: nat)
    requires Inv(v, clock) && Live(v.job) && Rank(v.job.checkpoint) >= 8
    ensures TargetOf(v).Some? && v.job.snapshot.Some? && v.job.attempt >= 1
  {
    assert Examined(v, v);
  }

  lemma QuietKeepsTarget(v: View, w: View, clock: nat)
    requires Inv(v, clock) && Quiet(v, w) && Rank(v.job.checkpoint) >= 8 && Live(v.job)
    ensures TargetOf(w) == TargetOf(v) && Rank(w.job.checkpoint) >= 8 && Live(w.job)
  {
    hide TargetFor;
    HasTarget(v, clock);
  }

  lemma LateLoudKeepsRows(v: View, env: Env, i: Input)
    requires Inv(v, env.clock) && Loud(v.run.pc) && Rank(v.job.checkpoint) >= 8 && Live(v.job) && Work(v, env, i).job.active
    ensures TargetOf(Work(v, env, i)) == TargetOf(v) && Work(v, env, i).job == v.job
  {
    hide Work, TargetFor, AtOldDone, AtFailing;
    LateLoudPlaces(v, env.clock);
    ActiveJobsAreOpen(v, env.clock);
    WorkAtPlace(v, env, i);
    match v.run.pc {
      case OldDone => OldDoneStays(v, env, i);
      case Failing => FailingEnds(v, env.clock);
      case _ => CallsAreOutward(v, env, i);
    }
  }

  lemma LateLoudPlaces(v: View, clock: nat)
    requires Inv(v, clock) && Loud(v.run.pc) && Rank(v.job.checkpoint) >= 8 && Live(v.job)
    ensures v.run.pc.Switch? || v.run.pc.RollWrite? || v.run.pc.OldDelete? || v.run.pc == OldDone || v.run.pc == Failing
  {
    Opened(v, clock);
  }

  lemma OldDoneStays(v: View, env: Env, i: Input)
    requires v.job.active && v.job.checkpoint != Completed && AtOldDone(v, env, i).job.active
    ensures AtOldDone(v, env, i) == v.(run := AtOldDone(v, env, i).run)
  {
    hide CanTransition, Allowed, Replaced;
    if HasPanel(v) && v.job.oldVps in v.vps {
      ReplacedJob(v);
    }
  }

  lemma FailingEnds(v: View, clock: nat)
    requires Inv(v, clock) && v.job.active
    ensures !AtFailing(v).job.active
  {
    hide Ended;
    WorkerInvariant.Opened(v, clock);
    JobFacts(v, clock);
    EndingIsNeverRefused(v, Failed, clock);
  }

  /**
   So the mutation applied and the one verified, however many crashes and runs lie between, are built from
   the same target.
   */
  lemma {:induction false} TargetIsOneForAll(v: View, env: Env, acts: seq<Act>)
    requires Inv(v, env.clock) && Live(v.job) && Rank(v.job.checkpoint) >= 8 && CredibleRun(v, env, acts)
    ensures Inv(Play(v, env, acts), env.clock)
    ensures var w := Play(v, env, acts);
            w.job.active ==>
              && Live(w.job) && Rank(w.job.checkpoint) >= 8 && TargetOf(w) == TargetOf(v)
              && (w.run.pc.Switch? || w.run.pc.Verify? ==>
                    TargetOf(v).Some? && w.run.pc.m == Pinned(TargetOf(v).value, w.run.pc.m.pinnedCertSha256))
  {
    hide Happen, Credible, TargetFor, RegistryTouched, CloudTouched, MasterTouched;
    if acts == [] {
      SentIsPinned(v, env.clock);
    } else {
      var front, a := acts[..|acts| - 1], acts[|acts| - 1];
      forall n | 0 <= n < |front| ensures Credible(Play(v, env, front[..n]), env, front[n]) {
        assert front[..n] == acts[..n];
      }
      var u := Play(v, env, front);
      TargetIsOneForAll(v, env, front);
      HappenKeeps(u, env, a);
      if Happen(u, env, a).job.active {
        StepKeepsTarget(u, env, a);
        SentIsPinned(Happen(u, env, a), env.clock);
      }
    }
  }

  lemma SentIsPinned(v: View, clock: nat)
    requires Inv(v, clock)
    ensures v.run.pc.Switch? || v.run.pc.Verify? ==>
              TargetOf(v).Some? && v.run.pc.m == Pinned(TargetOf(v).value, v.run.pc.m.pinnedCertSha256)
  {
    hide TargetFor;
    assert Examined(v, v);
  }

  lemma CancelEnds(v: View, clock: nat)
    requires Inv(v, clock) && Cancel(v).job.active
    ensures Cancel(v) == v
  {
  }

  // ---- The Master when the old server dies ----

  /** Since the job's first switch nobody but the job has written the Master. */
  ghost predicate OnlyOwnWrites(v: View) {
    forall m, k :: 0 <= m <= k < |v.log| && v.log[m].author == Switcher(v.id) ==>
      v.log[k].author == Switcher(v.id) || v.log[k].author == Reverter(v.id)
  }

  /** A rollback of the job has reached the Master. */
  ghost predicate RolledBack(v: View) {
    exists k :: 0 <= k < |v.log| && v.log[k].author == Reverter(v.id)
  }

  /** The new server has another address than the saved record. */
  predicate ChangesAddress(v: View) {
    v.job.snapshot.Some? && HasRow(v) && FromSnapshot(v.job.snapshot.value, None).address != v.vps[v.job.newVps.value].host
  }

  lemma LogAtDeletion(v: View, clock: nat)
    requires Inv(v, clock) && v.run.pc.OldDelete?
    ensures TargetOf(v).Some? && LogOk(v.log, v.master) && WasSwitched(v.id, v.log)
    ensures forall k :: 0 <= k < |v.log| && v.log[k].author == Switcher(v.id) ==> OnTarget(v.log[k].record, TargetOf(v).value)
    ensures RollbacksOk(v.id, true, v.job.checkpoint, v.job.snapshot, v.log)
    ensures HasPanel(v)
  {
    hide TargetFor, OnTarget, RollbacksOk, LogOk, NamesOk, OneServerPerAttempt, OldOk;
    OldDeleteIsLive(v, clock);
    assert Examined(v, v);
    TargetHasHost(v);
  }

  /** Unless a rollback has landed the Master shows the new server at the moment the old one is deleted. */
  lemma MasterIsSwitchedAtDeletion(v: View, clock: nat)
    requires Inv(v, clock) && v.run.pc.OldDelete? && OnlyOwnWrites(v) && !RolledBack(v)
    ensures TargetOf(v).Some? && OnTarget(v.master, TargetOf(v).value) && HasPanel(v)
    ensures v.master.address == v.vps[v.job.newVps.value].host && v.master.port == v.deployment.value.config.value.port
  {
    LogAtDeletion(v, clock);
    var m :| 0 <= m < |v.log| && v.log[m].author == Switcher(v.id);
    assert v.log[|v.log| - 1].author == Switcher(v.id);
  }

  /** And with an address that changes, exactly unless a rollback has landed. */
  lemma RollbackDecidesMaster(v: View, clock: nat)
    requires Inv(v, clock) && v.run.pc.OldDelete? && OnlyOwnWrites(v) && ChangesAddress(v)
    ensures TargetOf(v).Some?
    ensures OnTarget(v.master, TargetOf(v).value) <==> !RolledBack(v)
  {
    LogAtDeletion(v, clock);
    if RolledBack(v) {
      hide TargetFor, Overlay;
      var k :| 0 <= k < |v.log| && v.log[k].author == Reverter(v.id);
      var m :| 0 <= m < |v.log| && v.log[m].author == Switcher(v.id);
      LastIsRollback(v, k, m);
      TargetHasHost(v);
    } else {
      MasterIsSwitchedAtDeletion(v, clock);
    }
  }

  lemma LastIsRollback(v: View, k: nat, m: nat)
    requires OnlyOwnWrites(v) && LogOk(v.log, v.master) && RollbacksOk(v.id, true, v.job.checkpoint, v.job.snapshot, v.log)
    requires k < |v.log| && v.log[k].author == Reverter(v.id) && m < |v.log| && v.log[m].author == Switcher(v.id)
    ensures v.job.snapshot.Some? && v.master.address == FromSnapshot(v.job.snapshot.value, None).address
  {
    assert NoSwitchAfter(v.id, k, v.log);
    assert m < k;
    var last := |v.log| - 1;
    assert v.log[last].author == Switcher(v.id) || v.log[last].author == Reverter(v.id);
  }

  lemma TargetHasHost(v: View)
    requires TargetOf(v).Some?
    ensures HasPanel(v) && TargetOf(v).value.address == v.vps[v.job.newVps.value].host
    ensures OnTarget(v.master, TargetOf(v).value) ==> v.master.address == TargetOf(v).value.address
  {
  }

  // ---- A cancelled job and the Master ----

  /** The job has switched the Master, or its worker is past the last renewal in front of the switch. */
  ghost predicate MaySwitch(v: View) {
    WasSwitched(v.id, v.log) || v.run.pc.SwitchPin? || v.run.pc.Switch?
  }

  /** Before MASTER_UPDATING that is never so. */
  lemma EarlyJobsHaveNotSwitched(v: View, clock: nat)
    requires Inv(v, clock) && Live(v.job) && Rank(v.job.checkpoint) <= 7
    ensures !MaySwitch(v)
  {
    hide TargetFor, OnTarget;
    WorkerInvariant.Opened(v, clock);
    assert Examined(v, v);
  }

  lemma OnlyMasterStepsWrite(v: View, env: Env, i: Input)
    requires !v.run.pc.Switch?
    ensures Work(v, env, i).log == v.log || (v.run.pc.RollWrite? && Work(v, env, i).log == Written(v, v.run.pc.m, Reverter(v.id)).log)
  {
    hide Work, Written;
    if !Loud(v.run.pc) {
      QuietWork(v, env, i);
    } else {
      LoudStepsWrite(v, env, i);
    }
  }

  lemma LoudStepsWrite(v: View, env: Env, i: Input)
    requires Loud(v.run.pc) && !v.run.pc.Switch?
    ensures Work(v, env, i).log == v.log || (v.run.pc.RollWrite? && Work(v, env, i).log == Written(v, v.run.pc.m, Reverter(v.id)).log)
  {
    hide Written, AtCreate, AtPersist, AtGone, AtUp, AtReapDelete, AtReaped, AtIpVerified, AtDeploy, AtOldDelete, AtOldDone,
      AtDryDelete, AtDryDone, AtFailing;
  }

  lemma RefusedSwitch(v: View, env: Env, i: Input)
    requires v.run.pc == Enter(MasterUpdating) && !v.job.active
    ensures !Work(v, env, i).run.pc.SwitchPin?
  {
    hide TargetFor, Allowed;
  }

  /** No step of an ended job that has not come that far makes it switch the Master. */
  lemma WorkStaysAway(v: View, env: Env, i: Input)
    requires !v.job.active && !MaySwitch(v) && Work(v, env, i).id == v.id
    ensures !MaySwitch(Work(v, env, i))
  {
    hide Work, WasSwitched;
    WorkFlows(v, env, i);
    OnlyMasterStepsWrite(v, env, i);
    if v.run.pc == Enter(MasterUpdating) {
      RefusedSwitch(v, env, i);
    }
    if v.run.pc.RollWrite? {
      ExtendedLog(v.id, v.log, MasterWrite(Reverter(v.id), Written(v, v.run.pc.m, Reverter(v.id)).master));
    }
  }

  lemma HappenStaysAway(v: View, env: Env, a: Act)
    requires Inv(v, env.clock) && Credible(v, env, a) && !v.job.active && !MaySwitch(v)
    ensures !Happen(v, env, a).job.active && !MaySwitch(Happen(v, env, a)) && Happen(v, env, a).id == v.id
  {
    hide Work, Ended, Plausible, Visible, RegistryTouched, CloudTouched, MasterTouched, MaySwitch;
    HappenKeeps(v, env, a);
    match a {
      case Do(i) => WorkStaysAway(v, env, i);
      case Cancelling => CancelStaysAway(v, env.clock);
      case _ => MovingStaysAway(v);
    }
  }

  lemma MovingStaysAway(v: View)
    requires !MaySwitch(v)
    ensures !MaySwitch(Crash(v)) && !MaySwitch(Acquire(v))
  {
  }

  lemma CancelStaysAway(v: View, clock: nat)
    requires Inv(v, clock) && !MaySwitch(v)
    ensures !MaySwitch(Cancel(v)) && Cancel(v).id == v.id
  {
    hide Ended;
    WorkerInvariant.Opened(v, clock);
    if !Terminal(v.job.checkpoint) {
      EndingIsNeverRefused(v, Cancelled, clock);
    }
  }

  lemma {:induction false} RunStaysAway(v: View, env: Env, acts: seq<Act>)
    requires Inv(v, env.clock) && CredibleRun(v, env, acts) && !v.job.active && !MaySwitch(v)
    ensures var w := Play(v, env, acts);
            Inv(w, env.clock) && !w.job.active && !MaySwitch(w) && w.id == v.id
  {
    hide Happen, Credible, Touches, MaySwitch;
    if acts != [] {
      var front, a := acts[..|acts| - 1], acts[|acts| - 1];
      forall n | 0 <= n < |front| ensures Credible(Play(v, env, front[..n]), env, front[n]) {
        assert front[..n] == acts[..n];
      }
      RunStaysAway(v, env, front);
      HappenKeeps(Play(v, env, front), env, a);
      HappenStaysAway(Play(v, env, front), env, a);
    }
  }

  /** Some run leads to a Master that the job has switched. */
  ghost predicate CanEndSwitched(v: View, env: Env) {
    exists acts :: CredibleRun(v, env, acts) && WasSwitched(v.id, Play(v, env, acts).log)
  }

  /**
   A cancel the service accepts leaves the Master alone for good if and only if no switch has landed
   and the worker is not past the last renewal in front of one; before MASTER_UPDATING it always does.
   */
  lemma CancelLeavesMasterExactly(v: View, env: Env)
    requires Inv(v, env.clock) && Live(v.job) && !v.job.masterUpdated
    ensures !Cancel(v).job.active && Cancel(v).job.checkpoint == Cancelled
    ensures CanEndSwitched(Cancel(v), env) <==> MaySwitch(v)
    ensures Rank(v.job.checkpoint) <= 7 ==> !CanEndSwitched(Cancel(v), env)
  {
    hide Ended, Play, CredibleRun, WasSwitched;
    CancelIs(v, env.clock);
    var w := Cancel(v);
    if CanEndSwitched(w, env) && !MaySwitch(v) {
      var acts :| CredibleRun(w, env, acts) && WasSwitched(w.id, Play(w, env, acts).log);
      RunStaysAway(w, env, acts);
    }
    if WasSwitched(v.id, v.log) {
      Start(w, env);
      assert WasSwitched(w.id, Play(w, env, []).log);
    } else if v.run.pc.SwitchPin? || v.run.pc.Switch? {
      var acts := WorkerStillSwitches(w, env);
    }
    if Rank(v.job.checkpoint) <= 7 {
      EarlyJobsHaveNotSwitched(v, env.clock);
    }
  }

  lemma CancelIs(v: View, clock: nat)
    requires Inv(v, clock) && v.job.active && !v.job.masterUpdated
    ensures Cancel(v) == v.(job := Cancel(v).job, node := Cancel(v).node) && Inv(Cancel(v), clock)
    ensures Cancel(v).job == v.job.(checkpoint := Cancelled, active := false)
  {
    hide Ended;
    WorkerInvariant.Opened(v, clock);
    ActiveJobsAreOpen(v, clock);
    EndingIsNeverRefused(v, Cancelled, clock);
    CancelKeeps(v, clock);
  }

  lemma WorkerStillSwitches(v: View, env: Env) returns (acts: seq<Act>)
    requires Inv(v, env.clock) && (v.run.pc.SwitchPin? || v.run.pc.Switch?)
    ensures CredibleRun(v, env, acts) && WasSwitched(v.id, Play(v, env, acts).log)
  {
    hide Play, Happen, CredibleRun, Credible, WasSwitched;
    Start(v, env);
    acts := [];
    if v.run.pc.SwitchPin? {
      PinIsRead(v, env);
      Further(v, env, acts, Do(Fingerprint("")));
      acts := acts + [Do(Fingerprint(""))];
    }
    var w := Play(v, env, acts);
    SwitchIsSent(w, env);
    Further(v, env, acts, Do(Ok));
    acts := acts + [Do(Ok)];
  }

  lemma PinIsRead(v: View, env: Env)
    requires Inv(v, env.clock) && v.run.pc.SwitchPin?
    ensures var w := Happen(v, env, Do(Fingerprint("")));
            Credible(v, env, Do(Fingerprint(""))) && w.run.pc.Switch? && Inv(w, env.clock) && w.id == v.id
  {
    hide Pinned;
    SwitchPinKeeps(v, env, Fingerprint(""));
  }

  lemma SwitchIsSent(v: View, env: Env)
    requires Inv(v, env.clock) && v.run.pc.Switch?
    ensures var w := Happen(v, env, Do(Ok));
            Credible(v, env, Do(Ok)) && w.id == v.id && WasSwitched(v.id, w.log)
  {
    hide Overlay;
    ExtendedLog(v.id, v.log, MasterWrite(Switcher(v.id), Written(v, v.run.pc.m, Switcher(v.id)).master));
  }

  // ---- A cancel that comes between the Master's update and its recording ----

  /** The cancel looks only at the recorded switch, so the job can end CANCELLED with the Master switched. */
  lemma CancelMissesLandedSwitch(v: View, env: Env) returns (acts: seq<Act>)
    requires Inv(v, env.clock) && Coupled(v) && v.run.pc.Switch? && Live(v.job)
    ensures CredibleRun(v, env, acts)
    ensures var w := Play(v, env, acts);
            && w.job.checkpoint == Cancelled && w.node.state == v.job.found.state
            && TargetOf(v).Some? && OnTarget(w.master, TargetOf(v).value)
  {
    hide Play, Happen, CredibleRun, Credible;
    acts := [];
    CancelBeforeRecording(v, env.clock);
    Start(v, env);
    HappenCancelling(v, env);
    Further(v, env, acts, Cancelling);
    acts := acts + [Cancelling];
    var cancelled := Play(v, env, acts);
    SwitchLands(cancelled, env);
    Further(v, env, acts, Do(Ok));
    acts := acts + [Do(Ok)];
  }

  lemma Start(v: View, env: Env)
    ensures Play(v, env, []) == v && CredibleRun(v, env, [])
  {
  }

  lemma HappenCancelling(v: View, env: Env)
    requires v.run.pc.Switch?
    ensures Happen(v, env, Cancelling) == Cancel(v) && Credible(v, env, Cancelling)
  {
  }

  lemma CancelBeforeRecording(v: View, clock: nat)
    requires Inv(v, clock) && Coupled(v) && v.run.pc.Switch? && Live(v.job)
    ensures Cancel(v).run == v.run && Cancel(v).job.checkpoint == Cancelled && Cancel(v).node.state == v.job.found.state
    ensures Inv(Cancel(v), clock) && TargetOf(Cancel(v)) == TargetOf(v)
  {
    hide Ended;
    Opened(v, clock);
    JobFacts(v, clock);
    EndingIsNeverRefused(v, Cancelled, clock);
    EndingRestores(v, Cancelled, clock);
    CancelKeeps(v, clock);
  }

  lemma SwitchLands(v: View, env: Env)
    requires Inv(v, env.clock) && v.run.pc.Switch?
    ensures var w := Happen(v, env, Do(Ok));
            Credible(v, env, Do(Ok)) && w.job == v.job && w.node == v.node
            && TargetOf(v).Some? && OnTarget(w.master, TargetOf(v).value)
  {
    Opened(v, env.clock);
    WriteIsOnTarget(v.master, v.job.snapshot.value, v.vps[v.job.newVps.value].host, v.deployment.value.config.value, v.run.pc.m);
  }

  // ---- A cancel in the closing commit of a deployment ----

  /**
   The deployment session holds the job row it loaded and writes its checkpoint back, so a cancel
   that commits just before is overwritten: the job is inactive, its checkpoint is not terminal, and
   the node is in VERIFYING.
   */
  lemma LateCancelIsOverwritten(v: View, env: Env, c: PanelConfig)
    requires Inv(v, env.clock) && Coupled(v) && Live(v.job) && ClosingDeployment(v)
    ensures var w := Happen(Happen(v, env, Cancelling), env, Do(Installed(c)));
            && Inv(w, env.clock) && Stray(w.job) && w.job.checkpoint == NodeVerified && w.node.state == Verifying
            && w.run == v.run.(pc := LoopTop) && w.job.found == v.job.found
  {
    hide Ended, Work, Coupled, ClosingDeployment;
    ClosingSession(v, env.clock);
    CancelIs(v, env.clock);
    var cancelled := Happen(v, env, Cancelling);
    ClosingCommit(cancelled, env, c) by { SameSession(v, cancelled); }
    HappenKeeps(cancelled, env, Do(Installed(c)));
    NotTerminalIsStray(Happen(cancelled, env, Do(Installed(c))), env.clock);
  }

  lemma ClosingSession(v: View, clock: nat)
    requires Inv(v, clock) && Coupled(v) && Live(v.job) && ClosingDeployment(v)
    ensures v.run.pc.Deploy? && v.run.pc.seen == NodeDeploying && !v.job.masterUpdated
  {
    WorkerInvariant.Opened(v, clock);
    JobFacts(v, clock);
  }

  lemma SameSession(v: View, w: View)
    requires ClosingDeployment(v) && w == v.(job := w.job, node := w.node) && w.job.attempt == v.job.attempt
    ensures ClosingDeployment(w)
  {
  }

  lemma NotTerminalIsStray(v: View, clock: nat)
    requires Inv(v, clock) && !v.job.active && !Terminal(v.job.checkpoint)
    ensures Stray(v.job)
  {
    WorkerInvariant.Opened(v, clock);
    JobFacts(v, clock);
  }

  lemma ClosingCommit(v: View, env: Env, c: PanelConfig)
    requires ClosingDeployment(v) && !v.job.active && !v.job.dryRun && v.run.pc.seen == NodeDeploying
    ensures Credible(v, env, Do(Installed(c)))
    ensures var w := Work(v, env, Installed(c));
            && !w.job.active && w.job.checkpoint == NodeVerified && w.node.state == Verifying
            && w.run == v.run.(pc := LoopTop) && w.job.found == v.job.found && w.job.dryRun == v.job.dryRun
  {
  }

  /**
   The worker that has overwritten the cancel repairs it: if it comes to its next renewal it is
   refused there, and its failure ends the job and gives the node back as the job found it. If it
   dies, is paused or meets its step limit before, nobody takes the job up again.
   */
  lemma StrayWorkerEnds(v: View, env: Env, i: Input)
    requires Inv(v, env.clock) && Stray(v.job) && !v.job.dryRun && v.run.pc == LoopTop && v.run.dispatches < STEP_LIMIT
    requires v.node.state == Verifying
    ensures var w := Work(Work(Work(v, env, Ok), env, Ok), env, i);
            && w.job.checkpoint == Failed && !w.job.active && w.run.pc == Idle && w.node.state == v.job.found.state
    ensures Crash(v) == Leave(v) && Work(v, env, Transient(false)) == Leave(v) && Acquire(Leave(v)) == Leave(v)
  {
    hide Work, Ended, Stray;
    var refused := Work(Work(v, env, Ok), env, Ok);
    StrayIsRefused(v, env);
    WorkAtPlace(refused, env, i);
    StrayFails(refused, env.clock);
    StrayLoopLeaves(v, env);
  }

  lemma StrayFails(v: View, clock: nat)
    requires Inv(v, clock) && Stray(v.job) && !v.job.dryRun && v.run.pc == Failing && v.node.state == Verifying
    ensures var w := AtFailing(v);
            w.job.checkpoint == Failed && !w.job.active && w.run.pc == Idle && w.node.state == v.job.found.state
  {
    hide Ended;
    WorkerInvariant.Opened(v, clock);
    JobFacts(v, clock);
    EndingIsNeverRefused(v, Failed, clock);
  }

  lemma StrayLoopLeaves(v: View, env: Env)
    requires Stray(v.job) && v.run.pc == LoopTop
    ensures Work(v, env, Transient(false)) == Leave(v) && Acquire(Leave(v)) == Leave(v)
  {
  }

  lemma StrayIsRefused(v: View, env: Env)
    requires Inv(v, env.clock) && Stray(v.job) && !v.job.dryRun && v.run.pc == LoopTop && v.run.dispatches < STEP_LIMIT
    ensures var w := Work(Work(v, env, Ok), env, Ok);
            Inv(w, env.clock) && w == v.(run := w.run) && w.run.pc == Failing
  {
    LoopTopKeeps(v, env, Ok);
    NodeVerifiedKeeps(Work(v, env, Ok), env, Ok);
  }

  lemma ActiveJobsAreOpen(v: View, clock: nat)
    requires Inv(v, clock)
    ensures v.job.active ==> !Terminal(v.job.checkpoint)
  {
    WorkerInvariant.Opened(v, clock);
    JobFacts(v, clock);
  }

  // ---- A server the lookup does not show ----

  /**
   What a lookup that misses an existing server of the present request says: it is older than the grace
   period.
   */
  lemma MissedServer(v: View, env: Env, k: ServerId)
    requires Inv(v, env.clock) && Live(v.job) && v.run.pc.Lookup? && NamedFor(v.id, v.job.attempt, k, v.servers)
    requires v.run.pc.requestedAt.Some? ==> v.run.pc.now - v.run.pc.requestedAt.value >= env.cfg.graceSeconds
    ensures !Visible(v, env, NotFound) && v.run.pc.named == v.job.attempt
    ensures AtLookup(v, env, NotFound) == Go(v, Mark(v.run.pc.temps, v.run.pc.actives, v.job.attempt))
  {
    hide Visible;
    WorkerInvariant.Opened(v, env.clock);
    if Visible(v, env, NotFound) {
      MissMeansNoServer(v, env);
    }
  }

  /** Without visibility within the grace period a second server of the same name is created. */
  lemma InvisibleServerIsDoubled(v: View, env: Env, k: ServerId, m: ServerId, ip: string)
    requires Inv(v, env.clock) && Live(v.job) && v.run.pc.Lookup? && NamedFor(v.id, v.job.attempt, k, v.servers)
    requires v.run.pc.requestedAt.Some? ==> v.run.pc.now - v.run.pc.requestedAt.value >= env.cfg.graceSeconds
    requires env.granted && MayCreate(env.cfg, v.job.attempt, v.run.pc.temps, v.run.pc.actives) && m !in v.servers && m !in v.vps
    ensures !Visible(v, env, NotFound)
    ensures var stamped := AtLookup(v, env, NotFound);
            stamped.run.pc.Mark?
            && var asking := AtMark(stamped, env, Ok);
               asking.run.pc.Create? && Plausible(asking, env, Made(m, VpsRunning, ip))
               && var w := AtCreate(asking, env, Made(m, VpsRunning, ip));
                  NamedFor(v.id, v.job.attempt, k, w.servers) && NamedFor(v.id, v.job.attempt, m, w.servers) && k != m
  {
    MissedServer(v, env, k);
  }
}
