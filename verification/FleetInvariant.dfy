/** The whole service stays in order: what one job does never disturbs another. */
module FleetInvariant {
  import opened Types
  import opened CheckpointGraph
  import opened NodeLifecycle
  import opened MasterAlgebra
  import opened Worker
  import opened WorkerInvariant
  import opened WorkerEffects
  import opened Fleet
  import Health

  // ---- A job beside the step of another ----

  /** Job u sees the shared tables, and its node when it shares it, as a step from v to w left them. */
  function Beside(u: View, v: View, w: View): View {
    var same := u.job.node == v.job.node;
    u.(vps := w.vps, servers := w.servers, node := if same then w.node else u.node,
       master := if same then w.master else u.master, log := if same then w.log else u.log)
  }

  ghost predicate Neighbours(u: View, v: View, w: View, clock: nat) {
    && Inv(u, clock) && Inv(v, clock) && Touches(v, w)
    && u.id != v.id && u.vps == v.vps && u.servers == v.servers
    && (u.job.node == v.job.node ==>
          u.node == v.node && u.master == v.master && u.log == v.log && !(u.job.active && v.job.active))
  }

  lemma NamesBeside(u: View, v: View, w: View, clock: nat)
    requires Neighbours(u, v, w, clock)
    ensures forall a: nat, k :: NamedFor(u.id, a, k, w.servers) <==> NamedFor(u.id, a, k, u.servers)
    ensures NamesOk(u.id, u.job.attempt, u.job.dryRun, w.servers, clock)
    ensures OneServerPerAttempt(u.id, u.job.dryRun, w.servers)
  {
    hide StoredOk;
    WorkerInvariant.Opened(u, clock);
    NamesFacts(u, clock);
  }

  lemma NamesFacts(u: View, clock: nat)
    requires RowsOk(u, clock)
    ensures NamesOk(u.id, u.job.attempt, u.job.dryRun, u.servers, clock)
    ensures OneServerPerAttempt(u.id, u.job.dryRun, u.servers)
    ensures OldOk(u.job.active, u.job.oldVps, u.job.node, u.vps)
  {
    assert Examined(u, u);
  }

  /** The rows another job's step changes or adds are neither this job's candidate nor its old server. */
  lemma RowsBeside(u: View, v: View, w: View, clock: nat)
    requires Neighbours(u, v, w, clock)
    ensures CandidateOk(u.id, u.job, w.vps, w.servers)
    ensures OldOk(u.job.active, u.job.oldVps, u.job.node, w.vps)
    ensures u.job.newVps.Some? && u.job.checkpoint != Completed ==>
              u.job.newVps.value in u.vps && w.vps[u.job.newVps.value] == u.vps[u.job.newVps.value]
    ensures u.job.active ==> u.job.oldVps in u.vps && w.vps[u.job.oldVps] == u.vps[u.job.oldVps]
  {
    WorkerInvariant.Opened(u, clock);
    WorkerInvariant.Opened(v, clock);
    NamesFacts(u, clock);
    NamesFacts(v, clock);
    JobFacts(u, clock);
  }

  lemma RequestBeside(u: View, v: View, w: View, clock: nat)
    requires Neighbours(u, v, w, clock)
    requires Requesting(u.job, u.run.pc)
    ensures RequestOk(u.id, u.job.attempt, u.job.dryRun, u.job.requestedAt, w.vps, w.servers)
  {
    WorkerInvariant.Opened(u, clock);
    WorkerInvariant.Opened(v, clock);
    NamesFacts(v, clock);
  }

  /** A write signed by another does not concern this job. */
  lemma ForeignWrite(u: View, log: seq<MasterWrite>, write: MasterWrite)
    requires write.author != Switcher(u.id) && write.author != Reverter(u.id) && log == u.log + [write]
    requires SwitchesOk(u.id, Live(u.job), u.job.checkpoint, TargetOf(u), u.log)
    requires RollbacksOk(u.id, Live(u.job), u.job.checkpoint, u.job.snapshot, u.log)
    ensures LogOk(log, write.record)
    ensures SwitchesOk(u.id, Live(u.job), u.job.checkpoint, TargetOf(u), log)
    ensures RollbacksOk(u.id, Live(u.job), u.job.checkpoint, u.job.snapshot, log)
    ensures WasSwitched(u.id, u.log) ==> WasSwitched(u.id, log)
  {
    hide TargetFor, OnTarget;
    ExtendedLog(u.id, u.log, write);
  }

  lemma LogFacts(u: View, clock: nat)
    requires RowsOk(u, clock)
    ensures LogOk(u.log, u.master)
    ensures SwitchesOk(u.id, Live(u.job), u.job.checkpoint, TargetOf(u), u.log)
    ensures RollbacksOk(u.id, Live(u.job), u.job.checkpoint, u.job.snapshot, u.log)
  {
    hide SwitchesOk, RollbacksOk, LogOk, TargetFor;
    assert Examined(u, u);
  }

  /** What the log must say for a job, whoever wrote it. */
  ghost predicate LogFits(u: View, b: View) {
    && LogOk(b.log, b.master)
    && SwitchesOk(u.id, Live(u.job), u.job.checkpoint, TargetOf(u), b.log)
    && RollbacksOk(u.id, Live(u.job), u.job.checkpoint, u.job.snapshot, b.log)
    && (WasSwitched(u.id, u.log) ==> WasSwitched(u.id, b.log))
  }

  lemma LogBeside(u: View, v: View, w: View, clock: nat)
    requires Neighbours(u, v, w, clock)
    ensures LogFits(u, Beside(u, v, w))
  {
    hide SwitchesOk, RollbacksOk, WasSwitched, TargetFor, RegistryTouched, CloudTouched;
    WorkerInvariant.Opened(u, clock);
    LogFacts(u, clock);
    if w.log != v.log {
      ForeignWrite(u, u.log + [MasterWrite(Switcher(v.id), w.master)], MasterWrite(Switcher(v.id), w.master));
      ForeignWrite(u, u.log + [MasterWrite(Reverter(v.id), w.master)], MasterWrite(Reverter(v.id), w.master));
    }
  }

  lemma TargetBeside(u: View, v: View, w: View, clock: nat)
    requires Neighbours(u, v, w, clock) && u.job.checkpoint != Completed
    ensures TargetOf(Beside(u, v, w)) == TargetOf(u)
  {
    RowsBeside(u, v, w, clock);
    if u.job.newVps.None? {
    } else {
      assert u.job.newVps.value in u.vps;
    }
  }

  lemma BesideRows(u: View, v: View, w: View, clock: nat)
    requires Neighbours(u, v, w, clock)
    ensures RowsOk(Beside(u, v, w), clock)
  {
    hide Touches, CandidateOk, NamesOk, OneServerPerAttempt, OldOk, LogOk, TargetFor, OnTarget, MarkersArePrefix,
      GatesFit;
    WorkerInvariant.Opened(u, clock);
    assert Examined(u, u);
    NamesBeside(u, v, w, clock);
    RowsBeside(u, v, w, clock);
    LogBeside(u, v, w, clock);
    if u.job.checkpoint != Completed {
      TargetBeside(u, v, w, clock);
    }
    JobFacts(u, clock);
  }

  lemma BesideKeeps(u: View, v: View, w: View, clock: nat)
    requires Neighbours(u, v, w, clock)
    ensures Inv(Beside(u, v, w), clock)
  {
    hide Touches, RequestOk;
    WorkerInvariant.Opened(u, clock);
    BesideRows(u, v, w, clock);
    if Requesting(u.job, u.run.pc) {
      RequestBeside(u, v, w, clock);
    }
    BesideLocals(u, v, w, clock);
    Closed(Beside(u, v, w), clock);
  }

  lemma BesideLocals(u: View, v: View, w: View, clock: nat)
    requires Neighbours(u, v, w, clock)
    ensures LocalsOk(Beside(u, v, w), clock)
  {
    hide TargetFor, Touches, LocalsOk;
    WorkerInvariant.Opened(u, clock);
    JobFacts(u, clock);
    NamesBeside(u, v, w, clock);
    RowsBeside(u, v, w, clock);
    LogBeside(u, v, w, clock);
    if u.job.checkpoint != Completed {
      TargetBeside(u, v, w, clock);
    }
    SameCloud(v, w);
    SameLocals(u, Beside(u, v, w), clock);
  }

  lemma SameCloud(v: View, w: View)
    requires Touches(v, w)
    ensures forall k :: k in v.servers && k in w.servers ==> w.servers[k].inCloud == v.servers[k].inCloud
  {
    hide RegistryTouched, MasterTouched;
  }

  /** What the locals of a handler know does not change with rows that are not the job's own. */
  lemma SameLocals(u: View, b: View, clock: nat)
    requires LocalsOk(u, clock) && StageFits(u.job, u.run) && (u.job.active ==> !Terminal(u.job.checkpoint))
    requires b == u.(vps := b.vps, servers := b.servers, node := b.node, master := b.master, log := b.log)
    requires forall a: nat, k :: NamedFor(u.id, a, k, b.servers) <==> NamedFor(u.id, a, k, u.servers)
    requires forall k :: k in u.servers && k in b.servers ==> b.servers[k].inCloud == u.servers[k].inCloud
    requires u.job.checkpoint != Completed ==> TargetOf(b) == TargetOf(u)
    requires u.job.newVps.Some? && u.job.checkpoint != Completed && u.job.newVps.value in u.vps ==>
               u.job.newVps.value in b.vps && b.vps[u.job.newVps.value] == u.vps[u.job.newVps.value]
    requires u.job.active ==>
               u.job.oldVps in u.vps ==> u.job.oldVps in b.vps && b.vps[u.job.oldVps] == u.vps[u.job.oldVps]
    requires WasSwitched(u.id, u.log) ==> WasSwitched(u.id, b.log)
    ensures LocalsOk(b, clock)
  {
    hide TargetFor, WasSwitched;
  }

  // ---- The whole service ----

  ghost predicate JobIn(f: State, j: JobId) {
    HasView(f, j) && Inv(ViewOf(f, j), f.clock)
  }

  ghost predicate JobsIn(f: State) {
    forall j :: j in f.jobs ==> JobIn(f, j)
  }

  predicate ActiveOn(f: State, j: JobId, n: NodeId) {
    j in f.jobs && f.jobs[j].job.active && f.jobs[j].job.node == n
  }

  ghost predicate OneActivePerNode(f: State) {
    forall i, j, n :: ActiveOn(f, i, n) && ActiveOn(f, j, n) ==> i == j
  }

  ghost predicate KeysUnique(f: State) {
    forall i, j ::
      (i in f.jobs && j in f.jobs && f.jobs[i].job.requestKey.Some? && f.jobs[i].job.requestKey == f.jobs[j].job.requestKey)
      ==> i == j
  }

  ghost predicate NamesKnown(f: State) {
    forall k :: k in f.servers && f.servers[k].name.CandidateName? ==> f.servers[k].name.job in f.jobs
  }

  function SignedBy(a: Author): Option<JobId> {
    match a
    case Outsider => None
    case Switcher(j) => Some(j)
    case Reverter(j) => Some(j)
  }

  ghost predicate LogKnown(f: State, n: NodeSlot) {
    LogOk(n.log, n.master)
    && forall m :: 0 <= m < |n.log| && SignedBy(n.log[m].author).Some? ==> SignedBy(n.log[m].author).value in f.jobs
  }

  ghost predicate LogsKnown(f: State) {
    forall n :: n in f.nodes ==> LogKnown(f, f.nodes[n])
  }

  predicate Claimed(f: State, k: ServerId) {
    && k in f.servers && f.servers[k].name.CandidateName? && f.servers[k].name.job in f.jobs
    && f.jobs[f.servers[k].name.job].job.newVps == Some(k)
  }

  /** Every undeleted temporary server is the candidate of the job it is named for. */
  ghost predicate RowsClaimed(f: State) {
    forall k :: k in f.vps && OpenRow(f.vps[k]) ==> Claimed(f, k)
  }

  ghost predicate Orderly(f: State) {
    && JobsIn(f) && OneActivePerNode(f) && KeysUnique(f) && NamesKnown(f) && LogsKnown(f)
    && RowsClaimed(f) && |Active(f)| <= f.cfg.maxConcurrent && f.cfg.maxAttempts >= 1
  }

  // ---- A step of one job ----

  ghost predicate StepOf(f: State, id: JobId, w: View) {
    && HasView(f, id) && Touches(ViewOf(f, id), w)
    && Inv(w, f.clock) && Inv(ViewOf(f, id), f.clock)
  }

  lemma PutOthers(f: State, id: JobId, w: View, j: JobId)
    requires StepOf(f, id, w) && JobIn(f, j) && j != id && OneActivePerNode(f)
    ensures JobIn(Put(f, w), j) && ViewOf(Put(f, w), j) == Beside(ViewOf(f, j), ViewOf(f, id), w)
  {
    hide RegistryTouched, CloudTouched, MasterTouched;
    var u, v := ViewOf(f, j), ViewOf(f, id);
    assert !(u.job.active && v.job.active && u.job.node == v.job.node) by {
      assert ActiveOn(f, j, u.job.node) == u.job.active && ActiveOn(f, id, v.job.node) == v.job.active;
    }
    BesideKeeps(u, v, w, f.clock);
  }

  lemma PutSelf(f: State, id: JobId, w: View)
    requires StepOf(f, id, w)
    ensures JobIn(Put(f, w), id) && ViewOf(Put(f, w), id) == w
  {
    hide RegistryTouched, CloudTouched, MasterTouched;
  }

  lemma PutJobs(f: State, id: JobId, w: View)
    requires JobsIn(f) && OneActivePerNode(f) && StepOf(f, id, w)
    ensures JobsIn(Put(f, w))
  {
    hide StepOf;
    PutSelf(f, id, w);
    forall j | j in Put(f, w).jobs ensures JobIn(Put(f, w), j) {
      if j != id {
        assert j in f.jobs by { PutDomain(f, id, w, j); }
        PutOthers(f, id, w, j);
      }
    }
  }

  lemma PutDomain(f: State, id: JobId, w: View, j: JobId)
    requires StepOf(f, id, w)
    ensures j in Put(f, w).jobs <==> j in f.jobs
  {
    hide RegistryTouched, CloudTouched, MasterTouched;
  }

  lemma PutShape(f: State, id: JobId, w: View)
    requires OneActivePerNode(f) && KeysUnique(f) && NamesKnown(f) && StepOf(f, id, w)
    ensures OneActivePerNode(Put(f, w)) && KeysUnique(Put(f, w)) && NamesKnown(Put(f, w))
  {
    hide RegistryTouched, MasterTouched;
    var g := Put(f, w);
    assert forall j, n :: ActiveOn(g, j, n) ==> ActiveOn(f, j, n);
  }

  lemma PutLogs(f: State, id: JobId, w: View)
    requires LogsKnown(f) && StepOf(f, id, w)
    ensures LogsKnown(Put(f, w))
  {
    hide RegistryTouched, CloudTouched;
  }

  lemma PutRows(f: State, id: JobId, w: View)
    requires RowsClaimed(f) && StepOf(f, id, w)
    ensures RowsClaimed(Put(f, w))
  {
    hide MasterTouched;
    var g, v := Put(f, w), ViewOf(f, id);
    WorkerInvariant.Opened(v, f.clock);
    JobFacts(v, f.clock);
    forall k | k in g.vps && OpenRow(g.vps[k]) ensures Claimed(g, k) {
      assert k in f.vps && OpenRow(f.vps[k]) ==> Claimed(f, k);
      if k in f.vps && v.job.newVps == Some(k) {
        assert w.job.newVps == Some(k);
      }
    }
  }

  lemma PutActive(f: State, id: JobId, w: View)
    requires StepOf(f, id, w)
    ensures Active(Put(f, w)) <= Active(f) && |Active(Put(f, w))| <= |Active(f)|
  {
    hide RegistryTouched, CloudTouched, MasterTouched;
    Fewer(Active(Put(f, w)), Active(f));
  }

  lemma Fewer<T>(a: set<T>, b: set<T>)
    requires a <= b
    ensures |a| <= |b|
  {
    assert b == a + (b - a);
  }

  lemma PutOrderly(f: State, id: JobId, w: View)
    requires Orderly(f) && StepOf(f, id, w)
    ensures Orderly(Put(f, w))
  {
    hide JobsIn, OneActivePerNode, KeysUnique, NamesKnown, LogsKnown, RowsClaimed, StepOf, Active;
    PutJobs(f, id, w);
    PutShape(f, id, w);
    PutLogs(f, id, w);
    PutRows(f, id, w);
    PutActive(f, id, w);
  }

  // ---- Everything that can happen ----

  /**
   What is assumed of the outside: fresh job identities, the current server that the query finds,
   and truthful answers.
   */
  predicate Possible(f: State, e: Event) {
    match e
    case Trigger(r, id, current) => id !in f.jobs && (HasCurrent(f, r.node) ==> current in f.vps && IsCurrent(f.vps[current], r.node))
    case Step(id, i) => HasView(f, id) ==> Plausible(ViewOf(f, id), EnvOf(f), i) && Visible(ViewOf(f, id), EnvOf(f), i)
    case _ => true
  }

  lemma QuietStepOf(f: State, id: JobId, w: View)
    requires HasView(f, id) && JobIn(f, id) && Inv(w, f.clock) && Quiet(ViewOf(f, id), w)
    ensures StepOf(f, id, w)
  {
    hide Touches;
    QuietTouches(ViewOf(f, id), w);
  }

  lemma JobEventOrderly(f: State, e: Event)
    requires Orderly(f) && Possible(f, e)
    requires e.Take? || e.Die? || e.Step? || e.Stop?
    ensures Orderly(After(f, e))
  {
    hide Touches, Plausible, Visible, Work, Cancel, JobsIn, OneActivePerNode,
      KeysUnique, NamesKnown, LogsKnown, RowsClaimed, Orderly;
    if HasView(f, e.id) {
      var v := ViewOf(f, e.id);
      OneJob(f, e.id);
      match e {
        case Take(id) => AcquireKeeps(v, f.clock); QuietStepOf(f, id, Acquire(v)); PutOrderly(f, id, Acquire(v));
        case Die(id) => CrashKeeps(v, f.clock); QuietStepOf(f, id, Crash(v)); PutOrderly(f, id, Crash(v));
        case Step(id, i) =>
          WorkKeeps(v, EnvOf(f), i);
          WorkTouches(v, EnvOf(f), i);
          PutOrderly(f, id, Work(v, EnvOf(f), i));
        case Stop(id) =>
          CancelKeeps(v, f.clock);
          CancelTouches(v, f.clock);
          PutOrderly(f, id, Cancel(v));
      }
    }
  }

  lemma OneJob(f: State, id: JobId)
    requires Orderly(f) && id in f.jobs
    ensures JobIn(f, id)
  {
    hide OneActivePerNode, KeysUnique, NamesKnown, LogsKnown, RowsClaimed;
  }

  // ---- Admission ----

  /** A job as it is admitted: nothing requested, nothing verified, every attempt ahead. */
  lemma FreshRows(v: View, r: Request, before: NodeRow, maxAttempts: nat, clock: nat)
    requires v.job == FreshJob(r, before, maxAttempts, v.job.oldVps) && maxAttempts >= 1
    requires Entered(before, r.force).Success?
    requires v.job.oldVps in v.vps && IsCurrent(v.vps[v.job.oldVps], r.node)
    requires v.deployment == None && LogOk(v.log, v.master)
    requires forall k :: k in v.servers && v.servers[k].name.CandidateName? ==> v.servers[k].name.job != v.id
    requires forall m :: 0 <= m < |v.log| ==> SignedBy(v.log[m].author) != Some(v.id)
    ensures RowsOk(v, clock)
    ensures RequestOk(v.id, 0, v.job.dryRun, None, v.vps, v.servers)
  {
    hide TargetFor, OnTarget;
    assert JobOk(v.job, clock);
    assert forall a: nat, k :: !NamedFor(v.id, a, k, v.servers);
  }

  lemma FreshInv(v: View, clock: nat)
    requires RowsOk(v, clock) && RequestOk(v.id, 0, v.job.dryRun, None, v.vps, v.servers)
    requires v.run == Worker.Run(Idle, 0, Protect(v.job)) && v.job.attempt == 0 && v.job.requestedAt == None
    ensures Inv(v, clock)
  {
    Closed(v, clock);
  }

  lemma AdmittedInv(f: State, r: Request, id: JobId, current: ServerId)
    requires Orderly(f) && id !in f.jobs && r.node in f.nodes && Entered(f.nodes[r.node].row, r.force).Success?
    requires current in f.vps && IsCurrent(f.vps[current], r.node)
    ensures JobIn(Admit(f, r, id, current), id)
  {
    hide JobsIn, OneActivePerNode, KeysUnique, RowsClaimed, LogOk;
    var v := ViewOf(Admit(f, r, id, current), id);
    assert LogKnown(f, f.nodes[r.node]);
    FreshRows(v, r, f.nodes[r.node].row, f.cfg.maxAttempts, f.clock);
    FreshInv(v, f.clock);
  }

  /** No job's invariant depends on the row of its node. */
  lemma NodeChangeKeeps(u: View, row: NodeRow, clock: nat)
    requires Inv(u, clock)
    ensures Inv(u.(node := row), clock)
  {
    InvMeans(u, clock);
    InvMeans(u.(node := row), clock);
  }

  lemma AdmittedOthers(f: State, r: Request, id: JobId, current: ServerId, j: JobId)
    requires Orderly(f) && id !in f.jobs && r.node in f.nodes && Entered(f.nodes[r.node].row, r.force).Success?
    requires JobIn(f, j) && j in f.jobs
    ensures JobIn(Admit(f, r, id, current), j)
  {
    hide JobsIn, OneActivePerNode, KeysUnique, RowsClaimed, LogsKnown, NamesKnown;
    var g := Admit(f, r, id, current);
    NodeChangeKeeps(ViewOf(f, j), ViewOf(g, j).node, f.clock);
  }

  lemma AdmittedShape(f: State, r: Request, id: JobId, current: ServerId)
    requires Orderly(f) && id !in f.jobs && r.node in f.nodes && Entered(f.nodes[r.node].row, r.force).Success?
    requires !Busy(f, r.node) && (r.key.Some? ==> !Known(f, r.key.value))
    ensures var g := Admit(f, r, id, current);
            OneActivePerNode(g) && KeysUnique(g) && NamesKnown(g) && LogsKnown(g) && RowsClaimed(g)
  {
    hide JobsIn;
    var g := Admit(f, r, id, current);
    assert forall j, n :: ActiveOn(g, j, n) ==> ActiveOn(f, j, n) || (j == id && n == r.node);
    assert forall n :: n in g.nodes ==> LogKnown(f, f.nodes[n]);
  }

  lemma AdmittedActive(f: State, r: Request, id: JobId, current: ServerId)
    requires id !in f.jobs && r.node in f.nodes && Entered(f.nodes[r.node].row, r.force).Success?
    ensures Active(Admit(f, r, id, current)) == Active(f) + {id}
  {
  }

  lemma AdmitOrderly(f: State, r: Request, id: JobId, current: ServerId)
    requires Orderly(f) && id !in f.jobs && r.node in f.nodes && Entered(f.nodes[r.node].row, r.force).Success?
    requires !Busy(f, r.node) && (r.key.Some? ==> !Known(f, r.key.value)) && |Active(f)| < f.cfg.maxConcurrent
    requires current in f.vps && IsCurrent(f.vps[current], r.node)
    ensures Orderly(Admit(f, r, id, current))
  {
    hide OneActivePerNode, KeysUnique, NamesKnown, LogsKnown, RowsClaimed, Active;
    var g := Admit(f, r, id, current);
    AdmittedInv(f, r, id, current);
    forall j | j in g.jobs ensures JobIn(g, j) {
      if j != id {
        AdmittedOthers(f, r, id, current, j);
      }
    }
    AdmittedShape(f, r, id, current);
    AdmittedActive(f, r, id, current);
  }

  lemma TriggerOrderly(f: State, r: Request, id: JobId, current: ServerId)
    requires Orderly(f) && Possible(f, Trigger(r, id, current))
    ensures Orderly(After(f, Trigger(r, id, current)))
  {
    hide Orderly, Entered, KeyFits;
    if Answer(f, r).Admitted? {
      AdmitOrderly(f, r, id, current);
    }
  }

  // ---- Monitoring, operation modes, the panel, time ----

  /**
   A change outside jobs and servers leaves the registry in order; nodes and jobs remain to be looked at.
   */
  lemma SameJobsOrderly(f: State, g: State)
    requires Orderly(f) && g == f.(nodes := g.nodes, clock := g.clock)
    requires JobsIn(g) && LogsKnown(g)
    ensures Orderly(g)
  {
    hide LogsKnown;
    assert forall j, m :: ActiveOn(g, j, m) == ActiveOn(f, j, m);
    assert Active(g) == Active(f);
    forall k | k in g.vps && OpenRow(g.vps[k]) ensures Claimed(g, k) {
      assert Claimed(f, k);
    }
  }

  lemma RowChangeOrderly(f: State, n: NodeId, row: NodeRow)
    requires Orderly(f) && n in f.nodes
    ensures Orderly(f.(nodes := f.nodes[n := f.nodes[n].(row := row)]))
  {
    hide OneActivePerNode, LogOk, RowsClaimed, NamesKnown, KeysUnique;
    var g := f.(nodes := f.nodes[n := f.nodes[n].(row := row)]);
    forall j | j in g.jobs ensures JobIn(g, j) {
      assert JobIn(f, j);
      NodeChangeKeeps(ViewOf(f, j), ViewOf(g, j).node, f.clock);
    }
    forall m | m in g.nodes ensures LogKnown(g, g.nodes[m]) {
      assert LogKnown(f, f.nodes[m]);
    }
    SameJobsOrderly(f, g);
  }

  lemma MonitorOrderly(f: State, n: NodeId, d: Decision)
    requires Orderly(f)
    ensures Orderly(After(f, Monitor(n, d)))
  {
    hide Orderly;
    if n in f.nodes {
      match Health.Applied(f.cfg.health, f.nodes[n].row, d) {
        case Success(o) => RowChangeOrderly(f, n, o.row);
        case Failure =>
      }
    }
  }

  lemma SetModeOrderly(f: State, n: NodeId, disable: bool)
    requires Orderly(f)
    ensures Orderly(After(f, SetMode(n, disable)))
  {
    hide Orderly;
    if n in f.nodes && !Busy(f, n) {
      var m := NodeLifecycle.Moved(f.nodes[n].row, if disable then Disabled else Unknown);
      if m.Success? {
        RowChangeOrderly(f, n, m.value);
      }
    }
  }

  lemma ForeignEditKeeps(u: View, record: MasterNode, clock: nat)
    requires Inv(u, clock)
    ensures Inv(u.(master := record, log := u.log + [MasterWrite(Outsider, record)]), clock)
  {
    hide TargetFor;
    var log := u.log + [MasterWrite(Outsider, record)];
    WorkerInvariant.Opened(u, clock);
    LogFacts(u, clock);
    ForeignWrite(u, log, MasterWrite(Outsider, record));
    LogChangeRows(u, record, log, clock);
    Closed(u.(master := record, log := log), clock);
  }

  lemma LogChangeRows(u: View, record: MasterNode, log: seq<MasterWrite>, clock: nat)
    requires RowsOk(u, clock)
    requires LogOk(log, record) && SwitchesOk(u.id, Live(u.job), u.job.checkpoint, TargetOf(u), log)
    requires RollbacksOk(u.id, Live(u.job), u.job.checkpoint, u.job.snapshot, log)
    ensures RowsOk(u.(master := record, log := log), clock)
  {
    hide JobOk, CandidateOk, NamesOk, OneServerPerAttempt, SwitchesOk, RollbacksOk, OldOk, LogOk, TargetFor,
      DeploymentOk;
    assert Examined(u, u);
  }

  lemma EditedJob(f: State, n: NodeId, record: MasterNode, j: JobId)
    requires JobIn(f, j) && n in f.nodes
    ensures JobIn(After(f, EditMaster(n, record)), j)
  {
    if f.jobs[j].job.node == n {
      ForeignEditKeeps(ViewOf(f, j), record, f.clock);
    }
  }

  lemma EditMasterOrderly(f: State, n: NodeId, record: MasterNode)
    requires Orderly(f)
    ensures Orderly(After(f, EditMaster(n, record)))
  {
    hide OneActivePerNode, RowsClaimed, NamesKnown, KeysUnique, LogOk;
    if n in f.nodes {
      var g := After(f, EditMaster(n, record));
      forall j | j in g.jobs ensures JobIn(g, j) {
        EditedJob(f, n, record, j);
      }
      forall m | m in g.nodes ensures LogKnown(g, g.nodes[m]) {
        assert LogKnown(f, f.nodes[m]);
        EditedLog(f, g, f.nodes[m], record);
      }
      SameJobsOrderly(f, g);
    }
  }

  lemma EditedLog(f: State, g: State, n: NodeSlot, record: MasterNode)
    requires LogKnown(f, n) && g.jobs == f.jobs
    ensures LogKnown(g, n)
    ensures LogKnown(g, n.(master := record, log := n.log + [MasterWrite(Outsider, record)]))
  {
  }

  lemma TickOrderly(f: State)
    requires Orderly(f)
    ensures Orderly(After(f, Tick))
  {
    hide OneActivePerNode, LogOk, RowsClaimed, NamesKnown, KeysUnique;
    var g := After(f, Tick);
    forall j | j in g.jobs ensures JobIn(g, j) {
      assert JobIn(f, j);
      TickKeeps(ViewOf(f, j), f.clock, g.clock);
    }
    forall m | m in g.nodes ensures LogKnown(g, g.nodes[m]) {
      assert LogKnown(f, f.nodes[m]);
    }
    SameJobsOrderly(f, g);
  }

  /** Nothing that can happen disturbs the order of the service. */
  lemma AfterOrderly(f: State, e: Event)
    requires Orderly(f) && Possible(f, e)
    ensures Orderly(After(f, e))
  {
    hide Orderly, After;
    match e {
      case Trigger(r, id, current) => TriggerOrderly(f, r, id, current);
      case Monitor(n, d) => MonitorOrderly(f, n, d);
      case SetMode(n, disable) => SetModeOrderly(f, n, disable);
      case EditMaster(n, record) => EditMasterOrderly(f, n, record);
      case Tick => TickOrderly(f);
      case _ => JobEventOrderly(f, e);
    }
  }

  // ---- Whole histories ----

  /** A service as it is set up: registered nodes with their servers, and no job yet. */
  ghost predicate Initial(f: State) {
    && f.jobs == map[] && f.cfg.maxConcurrent >= 1 && f.cfg.maxAttempts >= 1
    && (forall n :: n in f.nodes ==> !InWorkflow(f.nodes[n].row.state) && f.nodes[n].log == [MasterWrite(Outsider, f.nodes[n].master)])
    && (forall k :: k in f.vps ==> f.vps[k].role == Current)
    && (forall k :: k in f.servers ==> f.servers[k].name.OtherName?)
  }

  ghost predicate PossibleHistory(f: State, es: seq<Event>) {
    forall n :: 0 <= n < |es| ==> Possible(History(f, es[..n]), es[n])
  }

  lemma InitialOrderly(f: State)
    requires Initial(f)
    ensures Orderly(f)
  {
    assert Active(f) == {};
  }

  /** Every history of the service, with any number of jobs, workers, crashes and cancels, is orderly. */
  lemma {:induction false} HistoryOrderly(f: State, es: seq<Event>)
    requires Orderly(f) && PossibleHistory(f, es)
    ensures Orderly(History(f, es))
  {
    hide Orderly, After, Possible;
    if es != [] {
      var front := es[..|es| - 1];
      forall n | 0 <= n < |front| ensures Possible(History(f, front[..n]), front[n]) {
        assert front[..n] == es[..n];
      }
      HistoryOrderly(f, front);
      AfterOrderly(History(f, front), es[|es| - 1]);
    }
  }
}
